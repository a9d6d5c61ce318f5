/**
 * The Telegram-client variant of the notifier (bot.go): `checkResponse`,
 * `parseStatus`, the `from_date` computation of `getAPIAnswer`, and the
 * compare-and-notify step of `fetchAPIResponse`, whose only state is the
 * global `lastSentMessage`.
 */
module BotVariant {
  import opened Wrappers
  import opened JsonValue
  import opened PracticumApi

  /** One homework record with the two optional fields this variant keeps. */
  datatype Homework = Homework(name: string, status: string, reviewerComment: string, lessonName: string)

  const EmptyHomework := Homework("", "", "", "")

  // ---------------------------------------------------------------------------
  // checkResponse
  // ---------------------------------------------------------------------------

  /** The record `checkResponse` builds from a well-shaped element. */
  function ToHomework(v: Json): (h: Homework)
    requires WellShaped(v)
    ensures h.name == v.fields["homework_name"].str && h.status == v.fields["status"].str
    ensures HasString(v.fields, "reviewer_comment") ==> h.reviewerComment == v.fields["reviewer_comment"].str
    ensures !HasString(v.fields, "reviewer_comment") ==> h.reviewerComment == ""
    ensures HasString(v.fields, "lesson_name") ==> h.lessonName == v.fields["lesson_name"].str
    ensures !HasString(v.fields, "lesson_name") ==> h.lessonName == ""
  {
    Homework(
      v.fields["homework_name"].str,
      v.fields["status"].str,
      StringOr(v.fields, "reviewer_comment"),
      StringOr(v.fields, "lesson_name"))
  }

  /** Element-by-element mapping of the `homeworks` list; the first ill-shaped element stops it. */
  function CheckItems(items: seq<Json>): Result<seq<Homework>, SchemaError>
  {
    if items == [] then Success([])
    else if !WellShaped(items[0]) then Failure(ShapeError(items[0]))
    else
      match CheckItems(items[1..])
      case Success(rest) => Success([ToHomework(items[0])] + rest)
      case Failure(e) => Failure(e)
  }

  /** What `checkResponse(response)` returns. */
  function CheckResponseSpec(response: map<string, Json>): (r: Result<seq<Homework>, SchemaError>)
    ensures !HasHomeworkList(response) ==> r == Failure(HomeworksNotList)
    ensures HasHomeworkList(response) ==> r.Success? || r.error != HomeworksNotList
  {
    if !HasHomeworkList(response) then Failure(HomeworksNotList)
    else
      var r := CheckItems(response["homeworks"].items);
      CheckItemsErrorIsElementError(response["homeworks"].items);
      r
  }

  /** An error out of the element loop is always one of the per-element errors. */
  lemma {:induction false} CheckItemsErrorIsElementError(items: seq<Json>)
    ensures CheckItems(items).Failure? ==> CheckItems(items).error != HomeworksNotList
  {
    if items != [] && WellShaped(items[0]) {
      CheckItemsErrorIsElementError(items[1..]);
    }
  }

  /**
   * The mapping succeeds exactly when every element is well shaped, and then
   * it keeps the length and maps element i to record i.
   */
  lemma {:induction false} CheckItemsSuccess(items: seq<Json>)
    ensures CheckItems(items).Success? <==> forall i :: 0 <= i < |items| ==> WellShaped(items[i])
    ensures CheckItems(items).Success? ==>
      |CheckItems(items).value| == |items| &&
      forall i :: 0 <= i < |items| ==> CheckItems(items).value[i] == ToHomework(items[i])
  {
    if items != [] {
      CheckItemsSuccess(items[1..]);
      assert forall i :: 1 <= i < |items| ==> items[i] == items[1..][i - 1];
    }
  }

  /** When elements before k are well shaped and element k is not, element k's first failing check is the error. */
  lemma {:induction false} CheckItemsFirstError(items: seq<Json>, k: nat)
    requires k < |items|
    requires forall i :: 0 <= i < k ==> WellShaped(items[i])
    requires !WellShaped(items[k])
    ensures CheckItems(items) == Failure(ShapeError(items[k]))
  {
    if k > 0 {
      assert forall i :: 0 <= i < k - 1 ==> items[1..][i] == items[i + 1];
      CheckItemsFirstError(items[1..], k - 1);
    }
  }

  /**
   * `checkResponse`: fills a slice of `len(homeworks)` records, index by index,
   * and returns at the first element that fails a shape check.
   */
  method CheckResponse(response: map<string, Json>) returns (r: Result<seq<Homework>, SchemaError>)
    ensures r == CheckResponseSpec(response)
  {
    if !HasHomeworkList(response) {
      return Failure(HomeworksNotList);
    }
    var items := response["homeworks"].items;
    var homeworks := new Homework[|items|](_ => EmptyHomework);
    for i := 0 to |items|
      invariant forall j :: 0 <= j < i ==> WellShaped(items[j])
      invariant forall j :: 0 <= j < i ==> homeworks[j] == ToHomework(items[j])
    {
      var hw := items[i];
      if !hw.JObject? {
        CheckItemsFirstError(items, i);
        return Failure(ElementNotObject);
      }
      var hwMap := hw.fields;
      if !HasString(hwMap, "homework_name") {
        CheckItemsFirstError(items, i);
        return Failure(NameNotString);
      }
      var hwName := hwMap["homework_name"].str;
      if !HasString(hwMap, "status") {
        CheckItemsFirstError(items, i);
        return Failure(StatusNotString);
      }
      var hwStatus := hwMap["status"].str;
      var hwReviewerComment := StringOr(hwMap, "reviewer_comment");
      var hwLessonName := StringOr(hwMap, "lesson_name");
      homeworks[i] := Homework(hwName, hwStatus, hwReviewerComment, hwLessonName);
    }
    CheckItemsSuccess(items);
    assert homeworks[..] == CheckItems(items).value;
    r := Success(homeworks[..]);
  }

  // ---------------------------------------------------------------------------
  // parseStatus
  // ---------------------------------------------------------------------------

  /** `parseStatus`'s error: the status is not one of the three known codes. */
  datatype StatusError = UnknownStatus(status: string)

  /** The four-field notification template of this variant. */
  function Notice(name: string, lesson: string, verdict: string, comment: string): string
  {
    "Изменился статус проверки работы \"" + name + "\" для урока \"" + lesson + "\": " + verdict
      + "\nКомментарий ревьюера: " + comment
  }

  /** `parseStatus`: a known status becomes the notification text; any other status is an error. */
  function ParseStatus(h: Homework): (r: Result<string, StatusError>)
    ensures r.Success? <==> IsKnownStatus(h.status)
    ensures r.Failure? ==> r.error == UnknownStatus(h.status)
    ensures h.status == ApprovedStatus ==>
      r.value == "Изменился статус проверки работы \"" + h.name + "\" для урока \"" + h.lessonName + "\": "
        + "Работа проверена: ревьюеру всё понравилось. Ура!" + "\nКомментарий ревьюера: " + h.reviewerComment
    ensures h.status == ReviewingStatus ==>
      r.value == "Изменился статус проверки работы \"" + h.name + "\" для урока \"" + h.lessonName + "\": "
        + "Работа взята на проверку ревьюером." + "\nКомментарий ревьюера: " + h.reviewerComment
    ensures h.status == RejectedStatus ==>
      r.value == "Изменился статус проверки работы \"" + h.name + "\" для урока \"" + h.lessonName + "\": "
        + "Работа проверена: у ревьюера есть замечания." + "\nКомментарий ревьюера: " + h.reviewerComment
  {
    match Verdict(h.status)
    case Some(verdict) => Success(Notice(h.name, h.lessonName, verdict, h.reviewerComment))
    case None => Failure(UnknownStatus(h.status))
  }

  /**
   * Two records that differ only in their (known) status give different
   * notifications, so comparing messages notices every status change of the
   * same submission.
   */
  lemma NoticeSeparatesStatuses(h1: Homework, h2: Homework)
    requires IsKnownStatus(h1.status) && IsKnownStatus(h2.status)
    requires h1.name == h2.name && h1.lessonName == h2.lessonName && h1.reviewerComment == h2.reviewerComment
    requires h1.status != h2.status
    ensures ParseStatus(h1).value != ParseStatus(h2).value
  {
  }

  // ---------------------------------------------------------------------------
  // getAPIAnswer: the lower time bound of the request
  // ---------------------------------------------------------------------------

  const Int64Min := -0x8000_0000_0000_0000
  const TwoTo64 := 0x1_0000_0000_0000_0000

  /** Go's `int64`. */
  type Int64 = x: int | Int64Min <= x < -Int64Min

  /** `from_date`: an hour before `current` (with `int64` wrap-around), or the clock reading `now` when `current` is 0. */
  function FromDate(current: Int64, now: Int64): (r: Int64)
    ensures current == 0 ==> r == now
    ensures current != 0 ==> (r - (current - 3600)) % TwoTo64 == 0
    ensures current != 0 && current >= Int64Min + 3600 ==> r + 3600 == current
  {
    if current == 0 then now
    else if current - 3600 < Int64Min then current - 3600 + TwoTo64
    else current - 3600
  }

  // ---------------------------------------------------------------------------
  // fetchAPIResponse: one poll tick
  // ---------------------------------------------------------------------------

  /** Why `fetchAPIResponse` returned an error. */
  datatype TickError =
    | FetchError
    | SchemaFailure(schema: SchemaError)
    | StatusFailure(status: StatusError)
    | ChatIdInvalid

  /**
   * How a tick ends: `fetchAPIResponse` returns the records, returns an error,
   * or panics on `response["current_date"].(float64)` (which ends the process).
   */
  datatype Outcome = Returned(homeworks: seq<Homework>) | Failed(err: TickError) | Crashed

  /** The tick's effect: the new `lastSentMessage`, the message handed to `sendMessage` if any, and how it ended. */
  datatype Step = Step(lastSent: string, attempted: Option<string>, outcome: Outcome)

  /** The notification a fetch leads to: the parsed message of `homeworks[0]`, when every step up to it succeeds. */
  function FirstMessage(fetch: Fetch): Option<string>
  {
    if fetch.FetchFailed? || !HasCurrentDate(fetch.response) then None
    else
      match CheckResponseSpec(fetch.response)
      case Failure(_) => None
      case Success(hs) =>
        if |hs| == 0 || ParseStatus(hs[0]).Failure? then None else Some(ParseStatus(hs[0]).value)
  }

  /**
   * One call of `fetchAPIResponse`: `chatIdValid` is whether `TelegramChatID`
   * parses as an integer, `sendOk` whether `sendMessage` succeeds if called.
   */
  function TickSpec(lastSent: string, fetch: Fetch, chatIdValid: bool, sendOk: bool): (t: Step)
    ensures t.attempted.Some? <==>
      FirstMessage(fetch).Some? && FirstMessage(fetch).value != lastSent && chatIdValid
    ensures t.attempted.Some? ==> t.attempted == FirstMessage(fetch)
    ensures t.lastSent == if t.attempted.Some? && sendOk then t.attempted.value else lastSent
    ensures t.outcome.Crashed? <==> fetch.Fetched? && !HasCurrentDate(fetch.response)
    ensures fetch.FetchFailed? ==> t.outcome == Failed(FetchError)
    ensures t.outcome.Returned? ==> CheckResponseSpec(fetch.response) == Success(t.outcome.homeworks)
  {
    if fetch.FetchFailed? then Step(lastSent, None, Failed(FetchError))
    else if !HasCurrentDate(fetch.response) then Step(lastSent, None, Crashed)
    else
      match CheckResponseSpec(fetch.response)
      case Failure(e) => Step(lastSent, None, Failed(SchemaFailure(e)))
      case Success(hs) =>
        if |hs| == 0 then Step(lastSent, None, Returned(hs))
        else
          match ParseStatus(hs[0])
          case Failure(e) => Step(lastSent, None, Failed(StatusFailure(e)))
          case Success(message) =>
            if message == lastSent then Step(lastSent, None, Returned(hs))
            else if !chatIdValid then Step(lastSent, None, Failed(ChatIdInvalid))
            else Step(if sendOk then message else lastSent, Some(message), Returned(hs))
  }

  /** Inputs of one tick: the fetch result and the two outcomes the tick may depend on. */
  datatype TickInput = TickInput(fetch: Fetch, chatIdValid: bool, sendOk: bool)

  /** The marker after a run of ticks, and how many notifications were delivered. */
  datatype RunResult = RunResult(lastSent: string, delivered: nat)

  /** Successive ticks from marker `lastSent`; a crashed tick ends the process and the run. */
  function Run(lastSent: string, ticks: seq<TickInput>): (r: RunResult)
    ensures r.delivered <= |ticks|
    ensures r.delivered == 0 ==> r.lastSent == lastSent
    decreases |ticks|
  {
    if ticks == [] then RunResult(lastSent, 0)
    else
      var t := TickSpec(lastSent, ticks[0].fetch, ticks[0].chatIdValid, ticks[0].sendOk);
      if t.outcome.Crashed? then RunResult(lastSent, 0)
      else
        var rest := Run(t.lastSent, ticks[1..]);
        RunResult(rest.lastSent, rest.delivered + if t.attempted.Some? && ticks[0].sendOk then 1 else 0)
  }

  /**
   * Ticks that all lead to the same message m (or to none) deliver m at most
   * once, and not at all when m was already the last message sent.
   */
  lemma {:induction false} SteadyMessageDeliveredAtMostOnce(lastSent: string, ticks: seq<TickInput>, m: string)
    requires forall i :: 0 <= i < |ticks| ==> FirstMessage(ticks[i].fetch) == None || FirstMessage(ticks[i].fetch) == Some(m)
    ensures Run(lastSent, ticks).delivered <= if lastSent == m then 0 else 1
    ensures Run(lastSent, ticks).lastSent == lastSent || Run(lastSent, ticks).lastSent == m
    ensures Run(lastSent, ticks).delivered == 1 ==> Run(lastSent, ticks).lastSent == m
    decreases |ticks|
  {
    if ticks != [] {
      var t := TickSpec(lastSent, ticks[0].fetch, ticks[0].chatIdValid, ticks[0].sendOk);
      assert forall i :: 0 <= i < |ticks| - 1 ==> ticks[1..][i] == ticks[i + 1];
      SteadyMessageDeliveredAtMostOnce(t.lastSent, ticks[1..], m);
    }
  }

  /** A response whose newest homework `hw1` has the given status, with server time 1000. */
  function ResponseWithStatus(status: string): map<string, Json>
  {
    map[
      "homeworks" := JArray([JObject(map["homework_name" := JString("hw1"), "status" := JString(status)])]),
      "current_date" := JNumber(1000)]
  }

  /**
   * An approval of `hw1` (no lesson name, no comment) is sent once; after it
   * was delivered, the same response sends nothing.
   */
  lemma ApprovalDeliveredOnce(chatIdValid: bool)
    requires chatIdValid
    ensures
      var t1 := TickSpec("", Fetched(ResponseWithStatus(ApprovedStatus)), chatIdValid, true);
      && t1.attempted == Some("Изменился статус проверки работы \"" + "hw1" + "\" для урока \"" + "" + "\": "
           + "Работа проверена: ревьюеру всё понравилось. Ура!" + "\nКомментарий ревьюера: " + "")
      && t1.lastSent == t1.attempted.value
      && TickSpec(t1.lastSent, Fetched(ResponseWithStatus(ApprovedStatus)), chatIdValid, true).attempted == None
  {
  }

  /** An unknown status fails the tick with that status and sends nothing. */
  lemma BogusStatusSendsNothing(lastSent: string, chatIdValid: bool, sendOk: bool)
    ensures TickSpec(lastSent, Fetched(ResponseWithStatus("bogus")), chatIdValid, sendOk)
      == Step(lastSent, None, Failed(StatusFailure(UnknownStatus("bogus"))))
  {
  }

  /** An empty `homeworks` list returns no records and sends nothing. */
  lemma EmptyListSendsNothing(lastSent: string, chatIdValid: bool, sendOk: bool)
    ensures TickSpec(lastSent, Fetched(map["homeworks" := JArray([]), "current_date" := JNumber(2000)]), chatIdValid, sendOk)
      == Step(lastSent, None, Returned([]))
  {
  }

  /**
   * The process-wide state of bot.go: `lastSentMessage`, the text of the last
   * notification Telegram accepted.
   */
  class Notifier {
    var lastSentMessage: string

    constructor ()
      ensures lastSentMessage == ""
    {
      lastSentMessage := "";
    }

    /**
     * `fetchAPIResponse` at clock reading `now`: returns the `from_date` it
     * asks for, the message it hands to `sendMessage` (if any) and how it ended.
     */
    method FetchAPIResponse(now: Int64, fetch: Fetch, chatIdValid: bool, sendOk: bool)
      returns (fromDate: Int64, attempted: Option<string>, outcome: Outcome)
      modifies this
      ensures fromDate == FromDate(now, now)
      ensures TickSpec(old(lastSentMessage), fetch, chatIdValid, sendOk) == Step(lastSentMessage, attempted, outcome)
    {
      fromDate := FromDate(now, now);
      attempted := None;
      if fetch.FetchFailed? {
        return fromDate, None, Failed(FetchError);
      }
      var response := fetch.response;
      if !HasCurrentDate(response) {
        return fromDate, None, Crashed;
      }
      var newHomeworks := CheckResponse(response);
      if newHomeworks.Failure? {
        return fromDate, None, Failed(SchemaFailure(newHomeworks.error));
      }
      var hs := newHomeworks.value;
      if |hs| > 0 {
        var currentReport := hs[0];
        var message := ParseStatus(currentReport);
        if message.Failure? {
          return fromDate, None, Failed(StatusFailure(message.error));
        }
        if message.value != lastSentMessage {
          if !chatIdValid {
            return fromDate, None, Failed(ChatIdInvalid);
          }
          attempted := Some(message.value);
          if sendOk {
            lastSentMessage := message.value;
          }
        }
      }
      outcome := Returned(hs);
    }
  }
}
