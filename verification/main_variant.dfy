/**
 * The raw-HTTP variant of the notifier (main.go): `checkResponse`,
 * `parseStatus` with its "no new statuses" sentinel, and one iteration of
 * the `runBot` loop, whose state is the timestamp cursor and the current and
 * previous reports.
 */
module MainVariant {
  import opened Wrappers
  import opened JsonValue
  import opened PracticumApi
  import opened JsonString

  /** One homework record; this variant keeps only the name and the status. */
  datatype Homework = Homework(name: string, status: string)

  /** The zero `Homework{}` that `runBot` starts both reports with. */
  const EmptyHomework := Homework("", "")

  /** The status standing for "no new status to report". */
  const NoNewStatuses := "Нет новых статусов работ."

  // ---------------------------------------------------------------------------
  // checkResponse
  // ---------------------------------------------------------------------------

  /** The record `checkResponse` builds from a well-shaped element. */
  function ToHomework(v: Json): (h: Homework)
    requires WellShaped(v)
    ensures h.name == v.fields["homework_name"].str && h.status == v.fields["status"].str
  {
    Homework(v.fields["homework_name"].str, v.fields["status"].str)
  }

  /** Element-by-element mapping of the `homeworks` list; the first ill-shaped element stops it. */
  function CheckItems(items: seq<Json>): Result<seq<Homework>, SchemaError>
  {
    if items == [] then Success([])
    else if !WellShaped(items[0]) then Failure(ShapeError(items[0]))
    else
      match CheckItems(items[1..])
      case Success(rest) => Success([ToHomework(items[0])] + rest)
      case Failure(e) => Failure(e)
  }

  /** What `checkResponse(response)` returns. */
  function CheckResponseSpec(response: map<string, Json>): (r: Result<seq<Homework>, SchemaError>)
    ensures !HasHomeworkList(response) ==> r == Failure(HomeworksNotList)
    ensures HasHomeworkList(response) ==> r.Success? || r.error != HomeworksNotList
  {
    if !HasHomeworkList(response) then Failure(HomeworksNotList)
    else
      var r := CheckItems(response["homeworks"].items);
      CheckItemsErrorIsElementError(response["homeworks"].items);
      r
  }

  /** An error out of the element loop is always one of the per-element errors. */
  lemma {:induction false} CheckItemsErrorIsElementError(items: seq<Json>)
    ensures CheckItems(items).Failure? ==> CheckItems(items).error != HomeworksNotList
  {
    if items != [] && WellShaped(items[0]) {
      CheckItemsErrorIsElementError(items[1..]);
    }
  }

  /**
   * The mapping succeeds exactly when every element is well shaped, and then
   * it keeps the length and maps element i to record i.
   */
  lemma {:induction false} CheckItemsSuccess(items: seq<Json>)
    ensures CheckItems(items).Success? <==> forall i :: 0 <= i < |items| ==> WellShaped(items[i])
    ensures CheckItems(items).Success? ==>
      |CheckItems(items).value| == |items| &&
      forall i :: 0 <= i < |items| ==> CheckItems(items).value[i] == ToHomework(items[i])
  {
    if items != [] {
      CheckItemsSuccess(items[1..]);
      assert forall i :: 1 <= i < |items| ==> items[i] == items[1..][i - 1];
    }
  }

  /** When elements before k are well shaped and element k is not, element k's first failing check is the error. */
  lemma {:induction false} CheckItemsFirstError(items: seq<Json>, k: nat)
    requires k < |items|
    requires forall i :: 0 <= i < k ==> WellShaped(items[i])
    requires !WellShaped(items[k])
    ensures CheckItems(items) == Failure(ShapeError(items[k]))
  {
    if k > 0 {
      assert forall i :: 0 <= i < k - 1 ==> items[1..][i] == items[i + 1];
      CheckItemsFirstError(items[1..], k - 1);
    }
  }

  /**
   * `checkResponse`: fills a slice of `len(homeworks)` records, index by index,
   * and returns at the first element that fails a shape check.
   */
  method CheckResponse(response: map<string, Json>) returns (r: Result<seq<Homework>, SchemaError>)
    ensures r == CheckResponseSpec(response)
  {
    if !HasHomeworkList(response) {
      return Failure(HomeworksNotList);
    }
    var items := response["homeworks"].items;
    var homeworks := new Homework[|items|](_ => EmptyHomework);
    for i := 0 to |items|
      invariant forall j :: 0 <= j < i ==> WellShaped(items[j])
      invariant forall j :: 0 <= j < i ==> homeworks[j] == ToHomework(items[j])
    {
      var hw := items[i];
      if !hw.JObject? {
        CheckItemsFirstError(items, i);
        return Failure(ElementNotObject);
      }
      var hwMap := hw.fields;
      if !HasString(hwMap, "homework_name") {
        CheckItemsFirstError(items, i);
        return Failure(NameNotString);
      }
      var hwName := hwMap["homework_name"].str;
      if !HasString(hwMap, "status") {
        CheckItemsFirstError(items, i);
        return Failure(StatusNotString);
      }
      var hwStatus := hwMap["status"].str;
      homeworks[i] := Homework(hwName, hwStatus);
    }
    CheckItemsSuccess(items);
    assert homeworks[..] == CheckItems(items).value;
    r := Success(homeworks[..]);
  }

  // ---------------------------------------------------------------------------
  // parseStatus
  // ---------------------------------------------------------------------------

  /** `parseStatus`'s error: the status is neither a known code nor the sentinel. */
  datatype StatusError = UnknownStatus(status: string)

  /** The two-field notification template of this variant. */
  function Notice(name: string, verdict: string): string
  {
    "Изменился статус проверки работы \"" + name + "\": " + verdict
  }

  /**
   * `parseStatus`: a known status becomes the notification text, the sentinel
   * is passed through as it is, and any other status is an error.
   */
  function ParseStatus(h: Homework): (r: Result<string, StatusError>)
    ensures r.Success? <==> IsKnownStatus(h.status) || h.status == NoNewStatuses
    ensures r.Failure? ==> r.error == UnknownStatus(h.status)
    ensures h.status == NoNewStatuses ==> r == Success("Нет новых статусов работ.")
    ensures h.status == ApprovedStatus ==>
      r.value == "Изменился статус проверки работы \"" + h.name + "\": " + "Работа проверена: ревьюеру всё понравилось. Ура!"
    ensures h.status == ReviewingStatus ==>
      r.value == "Изменился статус проверки работы \"" + h.name + "\": " + "Работа взята на проверку ревьюером."
    ensures h.status == RejectedStatus ==>
      r.value == "Изменился статус проверки работы \"" + h.name + "\": " + "Работа проверена: у ревьюера есть замечания."
  {
    match Verdict(h.status)
    case Some(verdict) => Success(Notice(h.name, verdict))
    case None =>
      if h.status == NoNewStatuses then Success(h.status)
      else Failure(UnknownStatus(h.status))
  }

  /**
   * The notification for a status change is never the sentinel text, so the
   * two kinds of message the loop sends cannot be confused.
   */
  lemma NoticeIsNotSentinel(h: Homework)
    requires IsKnownStatus(h.status)
    ensures ParseStatus(h).value != NoNewStatuses
  {
  }

  // ---------------------------------------------------------------------------
  // sendMessage: the body of the POST to the Telegram API
  // ---------------------------------------------------------------------------

  const BodyOpen := "{\"chat_id\": \""
  const BodyMid := ", \"text\": \""

  /**
   * The body as `sendMessage` builds it: chat id and text pasted between
   * quotes without escaping. Values with nothing to escape read back intact.
   */
  function RequestBodyAsWritten(chatId: string, text: string): (body: string)
    ensures Plain(chatId) && Plain(text) ==> ReadBody(body) == Some((chatId, text))
  {
    var body := BodyOpen + chatId + "\"" + BodyMid + text + "\"}";
    if Plain(chatId) && Plain(text) then
      PlainBodyReadsBack(chatId, text);
      body
    else body
  }

  /** A body of plain values, pasted as they are, reads back as those values. */
  lemma PlainBodyReadsBack(chatId: string, text: string)
    requires Plain(chatId) && Plain(text)
    ensures ReadBody(BodyOpen + chatId + "\"" + BodyMid + text + "\"}") == Some((chatId, text))
  {
    var t := text + "\"}";
    ReadPlain(text, "}");
    assert t == text + "\"" + "}";
    ReadPlain(chatId, BodyMid + t);
    assert chatId + "\"" + BodyMid + t == chatId + "\"" + (BodyMid + t);
    ReadBodyLayout(chatId, t, chatId, text, "}");
    assert BodyOpen + chatId + "\"" + BodyMid + text + "\"}" == BodyOpen + chatId + "\"" + BodyMid + t;
  }

  /** The body with both values escaped as JSON string content. */
  function RequestBody(chatId: string, text: string): string
  {
    BodyOpen + Escape(chatId) + "\"" + BodyMid + Escape(text) + "\"}"
  }

  /**
   * Reads a body laid out as `{"chat_id": "<c>", "text": "<t>"}`: the two
   * decoded values, or None when a literal is malformed or the layout differs.
   */
  function ReadBody(body: string): Option<(string, string)>
  {
    if |body| < |BodyOpen| || body[..|BodyOpen|] != BodyOpen then None
    else ReadFields(body[|BodyOpen|..])
  }

  /** The rest of `ReadBody`, after the opening `{"chat_id": "`. */
  function ReadFields(s: string): Option<(string, string)>
  {
    match ReadString(s)
    case None => None
    case Some((chatId, rest)) =>
      if |rest| < |BodyMid| || rest[..|BodyMid|] != BodyMid then None
      else
        match ReadString(rest[|BodyMid|..])
        case None => None
        case Some((text, tail)) => if tail == "}" then Some((chatId, text)) else None
  }

  /** How a body of the expected layout reads, given how its two literals read. */
  lemma ReadBodyLayout(c: string, t: string, chatId: string, text: string, tail: string)
    requires ReadString(c + "\"" + BodyMid + t) == Some((chatId, BodyMid + t))
    requires ReadString(t) == Some((text, tail))
    ensures ReadBody(BodyOpen + c + "\"" + BodyMid + t) == if tail == "}" then Some((chatId, text)) else None
  {
    var body := BodyOpen + c + "\"" + BodyMid + t;
    assert body[..|BodyOpen|] == BodyOpen;
    assert body[|BodyOpen|..] == c + "\"" + BodyMid + t;
    var rest := BodyMid + t;
    assert rest[..|BodyMid|] == BodyMid && rest[|BodyMid|..] == t;
  }

  /** The escaped body carries every chat id and every text unchanged. */
  lemma RequestBodyRoundTrip(chatId: string, text: string)
    ensures ReadBody(RequestBody(chatId, text)) == Some((chatId, text))
  {
    var t := Escape(text) + "\"}";
    EscapeRoundTrip(chatId, BodyMid + t);
    assert Escape(chatId) + "\"" + BodyMid + t == Escape(chatId) + "\"" + (BodyMid + t);
    EscapeRoundTrip(text, "}");
    assert t == Escape(text) + "\"" + "}";
    ReadBodyLayout(Escape(chatId), t, chatId, text, "}");
    assert RequestBody(chatId, text) == BodyOpen + Escape(chatId) + "\"" + BodyMid + t;
  }

  /** The text every status-change notice begins with, up to the quote before the homework name. */
  const NoticeHead := "Изменился статус проверки работы "

  /**
   * As written, the body of every status-change notice is cut short: the
   * quote before the homework name closes the `text` literal, so no reader
   * finds the notice in it (for a chat id without quotes, backslashes or
   * control characters, as a numeric id is).
   */
  lemma AsWrittenBodyLosesNotice(chatId: string, h: Homework)
    requires Plain(chatId)
    requires IsKnownStatus(h.status)
    ensures ReadBody(RequestBodyAsWritten(chatId, ParseStatus(h).value)) == None
  {
    var m := ParseStatus(h).value;
    var tail := h.name + "\": " + Verdict(h.status).value + "\"}";
    var t := m + "\"}";
    assert t == NoticeHead + "\"" + tail;
    assert Plain(NoticeHead);
    ReadPlain(NoticeHead, tail);
    ReadPlain(chatId, BodyMid + t);
    assert chatId + "\"" + BodyMid + t == chatId + "\"" + (BodyMid + t);
    ReadBodyLayout(chatId, t, chatId, NoticeHead, tail);
    assert |tail| > 1;
    assert RequestBodyAsWritten(chatId, m) == BodyOpen + chatId + "\"" + BodyMid + t;
  }

  /** The sentinel text has no character that needs escaping, so as written it does reach the chat intact. */
  lemma AsWrittenBodyKeepsSentinel(chatId: string)
    requires Plain(chatId)
    ensures ReadBody(RequestBodyAsWritten(chatId, NoNewStatuses)) == Some((chatId, NoNewStatuses))
  {
    assert Plain(NoNewStatuses);
  }

  // ---------------------------------------------------------------------------
  // runBot: one iteration of the loop
  // ---------------------------------------------------------------------------

  /** The loop's variables: `currentTimestamp`, `currentReport` and `prevReport`. */
  datatype PollState = PollState(cursor: int, currentReport: Homework, prevReport: Homework)

  /**
   * One iteration: the new loop variables and the message handed to
   * `sendMessage` (if any), or a panic on `response["current_date"].(float64)`,
   * which ends the process.
   */
  datatype Step = Step(state: PollState, attempted: Option<string>) | Crashed

  /** The report an iteration reads from `homeworks`: its first record, or the sentinel record when it is empty. */
  function ReportOf(hs: seq<Homework>): (h: Homework)
    ensures |hs| == 0 ==> h.name == "" && h.status == NoNewStatuses
    ensures |hs| > 0 ==> h == hs[0]
  {
    if |hs| > 0 then hs[0] else Homework("", NoNewStatuses)
  }

  /** The report a fetch leads to, when the fetch, `current_date` and `checkResponse` all succeed. */
  function ObservedReport(fetch: Fetch): Option<Homework>
  {
    if fetch.FetchFailed? || !HasCurrentDate(fetch.response) then None
    else
      match CheckResponseSpec(fetch.response)
      case Failure(_) => None
      case Success(hs) => Some(ReportOf(hs))
  }

  /** One iteration of `runBot` from state `s`; the result of the send does not affect the state. */
  function TickSpec(s: PollState, fetch: Fetch): (t: Step)
    ensures fetch.FetchFailed? ==> t == Step(s, None)
    ensures t.Crashed? <==> fetch.Fetched? && !HasCurrentDate(fetch.response)
    ensures fetch.Fetched? && HasCurrentDate(fetch.response) ==>
      t.state.cursor == fetch.response["current_date"].n
    ensures t.Step? && ObservedReport(fetch).None? ==>
      t.state.currentReport == s.currentReport && t.state.prevReport == s.prevReport && t.attempted.None?
    ensures t.Step? && ObservedReport(fetch).Some? ==> t.state.currentReport == ObservedReport(fetch).value
    ensures t.Step? && t.state.currentReport.status == s.prevReport.status ==>
      t.state.prevReport == s.prevReport && t.attempted.None?
    ensures t.Step? && ObservedReport(fetch).Some? && ObservedReport(fetch).value.status != s.prevReport.status ==>
      t.state.prevReport == ObservedReport(fetch).value &&
      t.attempted == (if ParseStatus(ObservedReport(fetch).value).Success?
                      then Some(ParseStatus(ObservedReport(fetch).value).value) else None)
  {
    if fetch.FetchFailed? then Step(s, None)
    else if !HasCurrentDate(fetch.response) then Crashed
    else
      var cursor := fetch.response["current_date"].n;
      match CheckResponseSpec(fetch.response)
      case Failure(_) => Step(s.(cursor := cursor), None)
      case Success(hs) =>
        var current := ReportOf(hs);
        if current.status == s.prevReport.status then
          Step(PollState(cursor, current, s.prevReport), None)
        else
          var attempted := match ParseStatus(current)
            case Success(message) => Some(message)
            case Failure(_) => None;
          Step(PollState(cursor, current, current), attempted)
  }

  /** The loop variables after a run of iterations, and how many messages were handed to `sendMessage`. */
  datatype RunResult = RunResult(state: PollState, attempts: nat)

  /** Successive iterations from state `s`; a crashed iteration ends the process and the run. */
  function Run(s: PollState, fetches: seq<Fetch>): (r: RunResult)
    ensures r.attempts <= |fetches|
    ensures (forall i :: 0 <= i < |fetches| ==> fetches[i].FetchFailed?) ==> r == RunResult(s, 0)
    decreases |fetches|
  {
    if fetches == [] then RunResult(s, 0)
    else
      match TickSpec(s, fetches[0])
      case Crashed => RunResult(s, 0)
      case Step(s', attempted) =>
        var rest := Run(s', fetches[1..]);
        RunResult(rest.state, rest.attempts + if attempted.Some? then 1 else 0)
  }

  /**
   * Iterations that all observe the same status (or nothing) send at most one
   * message, and none when that status was already the previous report's:
   * a failed send or a failed parse is not retried for the same status.
   */
  lemma {:induction false} SteadyStatusSentAtMostOnce(s: PollState, fetches: seq<Fetch>, status: string)
    requires forall i :: 0 <= i < |fetches| ==>
      ObservedReport(fetches[i]).None? || ObservedReport(fetches[i]).value.status == status
    ensures Run(s, fetches).attempts <= if s.prevReport.status == status then 0 else 1
    ensures Run(s, fetches).state.prevReport == s.prevReport || Run(s, fetches).state.prevReport.status == status
    decreases |fetches|
  {
    if fetches != [] {
      match TickSpec(s, fetches[0])
      case Crashed =>
      case Step(s', _) =>
        assert forall i :: 0 <= i < |fetches| - 1 ==> fetches[1..][i] == fetches[i + 1];
        SteadyStatusSentAtMostOnce(s', fetches[1..], status);
    }
  }

  /** A response whose newest homework `hw1` is approved, with server time 1000. */
  const ApprovedResponse := map[
    "homeworks" := JArray([JObject(map["homework_name" := JString("hw1"), "status" := JString("approved")])]),
    "current_date" := JNumber(1000)]

  /** A response with no homework in it, with server time 2000. */
  const EmptyResponse := map["homeworks" := JArray([]), "current_date" := JNumber(2000)]

  /**
   * From the loop's start, an approval of `hw1` is sent once with the exact
   * notice text, and the same response on the next iteration sends nothing.
   */
  lemma ApprovalSentOnce(now: int)
    ensures
      var t1 := TickSpec(PollState(now, EmptyHomework, EmptyHomework), Fetched(ApprovedResponse));
      && t1.Step?
      && t1.attempted == Some("Изменился статус проверки работы \"" + "hw1" + "\": "
           + "Работа проверена: ревьюеру всё понравилось. Ура!")
      && t1.state.cursor == 1000
      && TickSpec(t1.state, Fetched(ApprovedResponse)) == Step(t1.state, None)
  {
  }

  /**
   * From the loop's start, an empty `homeworks` list does send the sentinel
   * text once, because the empty starting report's status differs from it.
   */
  lemma EmptyListAtStartSendsSentinel(now: int)
    ensures
      var t1 := TickSpec(PollState(now, EmptyHomework, EmptyHomework), Fetched(EmptyResponse));
      && t1.Step?
      && t1.attempted == Some(NoNewStatuses)
      && t1.state.prevReport == Homework("", NoNewStatuses)
      && TickSpec(t1.state, Fetched(EmptyResponse)) == Step(t1.state, None)
  {
  }

  /** The state `runBot` keeps across iterations of its loop, and the chat it reports to. */
  class Poller {
    const chatId: string
    var currentTimestamp: int
    var currentReport: Homework
    var prevReport: Homework

    function State(): PollState
      reads this
    {
      PollState(currentTimestamp, currentReport, prevReport)
    }

    /** The loop's start: the cursor is the clock reading `now`, both reports are empty. */
    constructor (chatId: string, now: int)
      ensures this.chatId == chatId
      ensures State() == PollState(now, EmptyHomework, EmptyHomework)
    {
      this.chatId := chatId;
      currentTimestamp := now;
      currentReport := EmptyHomework;
      prevReport := EmptyHomework;
    }

    /**
     * One iteration of the loop, given what `getAPIAnswer(fromDate)` returned:
     * the `from_date` it asked for (the cursor), the message handed to
     * `sendMessage` (if any) and the body that posts, or the panic that ends
     * the process.
     */
    method Tick(fetch: Fetch) returns (fromDate: int, attempted: Option<string>, request: Option<string>, crashed: bool)
      modifies this
      ensures fromDate == old(currentTimestamp)
      ensures crashed ==> TickSpec(old(State()), fetch).Crashed? && State() == old(State())
      ensures !crashed ==> TickSpec(old(State()), fetch) == Step(State(), attempted)
      ensures request == if attempted.Some? then Some(RequestBodyAsWritten(chatId, attempted.value)) else None
    {
      fromDate := currentTimestamp;
      attempted, request, crashed := None, None, false;
      if fetch.FetchFailed? {
        return;
      }
      var response := fetch.response;
      if !HasCurrentDate(response) {
        crashed := true;
        return;
      }
      currentTimestamp := response["current_date"].n;
      var newHomeworks := CheckResponse(response);
      if newHomeworks.Failure? {
        return;
      }
      if |newHomeworks.value| > 0 {
        currentReport := newHomeworks.value[0];
      } else {
        currentReport := Homework("", NoNewStatuses);
      }
      if currentReport.status != prevReport.status {
        var message := ParseStatus(currentReport);
        if message.Success? {
          attempted := Some(message.value);
          request := Some(RequestBodyAsWritten(chatId, message.value));
        }
        prevReport := currentReport;
      }
    }
  }
}
