/**
 * What both variants of the notifier share about the homework-review API:
 * the three status codes, the fixed verdict table, and the shape checks
 * `checkResponse` applies to each element of `homeworks`.
 */
module PracticumApi {
  import opened Wrappers
  import opened JsonValue

  const ApprovedStatus := "approved"
  const ReviewingStatus := "reviewing"
  const RejectedStatus := "rejected"

  const ApprovedVerdict := "Работа проверена: ревьюеру всё понравилось. Ура!"
  const ReviewingVerdict := "Работа взята на проверку ревьюером."
  const RejectedVerdict := "Работа проверена: у ревьюера есть замечания."

  /** The status codes `HomeworkVerdict` has an entry for. */
  predicate IsKnownStatus(status: string)
  {
    status == ApprovedStatus || status == ReviewingStatus || status == RejectedStatus
  }

  /** `HomeworkVerdict[status]` with its `ok` flag. */
  function Verdict(status: string): (r: Option<string>)
    ensures r.Some? <==> IsKnownStatus(status)
    ensures r.Some? ==> r.value in {ApprovedVerdict, ReviewingVerdict, RejectedVerdict}
  {
    if status == ApprovedStatus then Some(ApprovedVerdict)
    else if status == ReviewingStatus then Some(ReviewingVerdict)
    else if status == RejectedStatus then Some(RejectedVerdict)
    else None
  }

  /** Different status codes are never given the same verdict, so a verdict names its status. */
  lemma VerdictInjective(s1: string, s2: string)
    requires Verdict(s1).Some? && Verdict(s1) == Verdict(s2)
    ensures s1 == s2
  {
  }

  /** Why `checkResponse` refuses a response, in the order it checks. */
  datatype SchemaError =
    | HomeworksNotList   // `homeworks` is missing or is not a JSON array
    | ElementNotObject   // an element of `homeworks` is not a JSON object
    | NameNotString      // an element's `homework_name` is missing or not a string
    | StatusNotString    // an element's `status` is missing or not a string

  /** An element passes all three per-element checks of `checkResponse`. */
  predicate WellShaped(v: Json)
  {
    v.JObject? && HasString(v.fields, "homework_name") && HasString(v.fields, "status")
  }

  /** The error of the first per-element check that an ill-shaped element fails. */
  function ShapeError(v: Json): (e: SchemaError)
    requires !WellShaped(v)
    ensures e != HomeworksNotList
    ensures e == ElementNotObject <==> !v.JObject?
    ensures e == NameNotString <==> v.JObject? && !HasString(v.fields, "homework_name")
  {
    if !v.JObject? then ElementNotObject
    else if !HasString(v.fields, "homework_name") then NameNotString
    else StatusNotString
  }

  /** The `homeworks` field holds a JSON array (`response["homeworks"].([]interface{})` succeeds). */
  predicate HasHomeworkList(response: map<string, Json>)
  {
    "homeworks" in response && response["homeworks"].JArray?
  }

  /** `response["current_date"].(float64)` succeeds; where it does not, the Go code panics. */
  predicate HasCurrentDate(response: map<string, Json>)
  {
    "current_date" in response && response["current_date"].JNumber?
  }

  /** What the request of `getAPIAnswer` came back with: a decoded object, or a transport/HTTP/decoding failure. */
  datatype Fetch = FetchFailed | Fetched(response: map<string, Json>)
}
