# Homework-status notifier: a Dafny model of its decision path

The notifier polls the Practicum homework-review API, takes the newest
homework from the response, turns its status into a Russian notification,
and sends that text to a Telegram chat. It sends only when the text (in one
variant) or the status (in the other) differs from what it saw last. The
repository holds two alternative programs that share identifiers:

- `bot.go` (module `BotVariant`, file `bot_variant.dfy`) uses a Telegram client library. Its state is the
  global `lastSentMessage`. A tick fetches, validates, translates, compares
  the whole message with `lastSentMessage` and sends. The marker moves only
  when the send succeeds.
- `main.go` (module `MainVariant`, file `main_variant.dfy`) posts to the Telegram HTTP API itself. Its
  loop keeps a timestamp cursor, a current report and a previous report. It
  compares statuses only, and the previous report moves on every status
  change, whether or not parsing and sending worked.

Shared modules:

- `Wrappers`: `Option` and `Result`.
- `JsonValue`: the decoded JSON value that `checkResponse` receives.
- `PracticumApi`: the three status codes, the verdict table, the per-element shape checks, the `current_date` check and the fetch outcome. Both files declare these identically.
- `JsonString`: a reader of JSON string literals as section 7 of RFC 8259 defines them (surrogate pairs included, lone surrogate escapes refused) and an escaper it inverts. They are used to state the finding below.

Each variant has the same layout:

- `CheckResponseSpec` is the specification of `checkResponse`, built from
  `CheckItems`, a recursion over the `homeworks` list.
- `CheckResponse` is the source's index-filling loop. It is proved equal to `CheckResponseSpec`.
- `ParseStatus` is the status translator.
- `TickSpec` is one poll tick as a pure function of the old state and the outcomes of the network calls.
- A class (`Notifier`, `Poller`) holds the mutable state. Its tick method is proved to implement `TickSpec`.
- `Run` folds `TickSpec` over a sequence of ticks. A lemma about `Run` states the "at most once" rule for a steady message or status.

The network calls (`getAPIAnswer`, `sendMessage`), the clock and the parse of
the chat id are not modelled. Their outcomes are parameters:

- `Fetch`: a decoded object, or a failure.
- `sendOk`: the result of the send.
- `chatIdValid`: whether the chat id parses as an integer.
- `now`: the clock reading.

A missing or non-numeric `current_date` makes the Go code panic inside a
goroutine, which ends the process. The model's tick reports this as `Crashed`
and leaves the state as it was, and `Run` stops there.

Facts about the code that the model follows:

- bot.go keeps no timestamp cursor. Every tick asks from an hour before the
  current clock reading. The `current_date` value it reads is never used, except that reading it can panic.
- bot.go moves `lastSentMessage` only after a successful send. main.go
  advances `prevReport` on any status change, whatever parsing and sending give.
- In main.go, an empty `homeworks` list at start-up does send the sentinel
  text "Нет новых статусов работ." once. This is because the starting report's
  status is empty. `EmptyListAtStartSendsSentinel` proves it. In bot.go an empty list sends nothing.
- main.go's notification has two fields, the homework name and the verdict.
  bot.go's also carries the lesson name and the reviewer's comment.
- main.go posts its notification in a JSON body built without escaping (see
  "## Findings"). `Poller.Tick` posts that body as written.

## Model

| member | source | states |
|---|---|---|
| PracticumApi.Verdict | bot.go:59-63 | The verdict table (identical at main.go:54-58) has an entry exactly for `approved`, `reviewing` and `rejected`, and each entry is one of the three fixed Russian verdicts |
| PracticumApi.VerdictInjective | bot.go:59-63 | Distinct statuses get distinct verdicts, so a verdict identifies its status |
| PracticumApi.HasCurrentDate | main.go:179 | The `current_date` type assertion (also bot.go:241) succeeds exactly when the field is present and a number; otherwise the code panics, which `TickSpec` reports as a crash in both variants |
| PracticumApi.ShapeError | bot.go:130-144 | An ill-shaped element is refused by its first failing check: not an object, else `homework_name` not a string, else `status` not a string; never the list error |
| BotVariant.ToHomework | bot.go:146-154 | A record carries the element's `homework_name` and `status` strings exactly; `reviewer_comment` and `lesson_name` are their strings when present as strings and "" otherwise |
| BotVariant.CheckResponseSpec | bot.go:123-127 | A missing or non-list `homeworks` gives the list error and no records; with a list, any error is a per-element error |
| BotVariant.CheckItemsErrorIsElementError | bot.go:130-144 | The element loop only ever fails with a per-element error |
| BotVariant.CheckItemsSuccess | bot.go:129-157 | Validation succeeds exactly when every element is well shaped; then the result has the list's length and record i is element i's record |
| BotVariant.CheckItemsFirstError | bot.go:130-144 | If element k is the first ill-shaped one, the whole call fails with element k's first failing check |
| BotVariant.CheckResponse | bot.go:123-158 | The slice-filling loop with early returns computes exactly `CheckResponseSpec` |
| BotVariant.ParseStatus | bot.go:160-177 | Succeeds exactly for the three known statuses, with the exact four-field text `Изменился статус проверки работы "<name>" для урока "<lesson>": <verdict>\nКомментарий ревьюера: <comment>`; any other status, the sentinel included, gives `UnknownStatus(status)` |
| BotVariant.NoticeSeparatesStatuses | bot.go:166-172 | Two records differing only in their known status give different notifications, so comparing messages notices every status change |
| BotVariant.FromDate | bot.go:86-90 | `from_date` is `now` when the current timestamp is 0, otherwise the timestamp minus 3600 modulo 2^64, which is exactly an hour earlier when no int64 overflow occurs |
| BotVariant.TickSpec | bot.go:233-277 | A send is attempted exactly when the first homework's message exists, differs from `lastSentMessage` and the chat id is valid; `lastSentMessage` becomes that message only if the send succeeded and is unchanged otherwise; a fetch failure fails the tick; a missing `current_date` crashes it; returned records are `checkResponse`'s |
| BotVariant.SteadyMessageDeliveredAtMostOnce | bot.go:248-274 | Over any run of ticks whose message is always m or absent, m is delivered at most once, and never if it was already the last message sent; the marker ends as before or as m |
| BotVariant.Run | bot.go:298-305 | Successive ticker ticks, stopping at a crash: at most one delivery per tick, and the marker is unchanged when nothing was delivered |
| BotVariant.ApprovalDeliveredOnce | bot.go:248-270 | An approval of `hw1` is sent with its exact text and, once delivered, the same response sends nothing |
| BotVariant.BogusStatusSendsNothing | bot.go:250-253 | A response whose first homework has status `bogus` fails the tick with `UnknownStatus("bogus")`, sends nothing and keeps the marker |
| BotVariant.EmptyListSendsNothing | bot.go:248-276 | An empty `homeworks` list returns no records, sends nothing and keeps the marker |
| BotVariant.Notifier.constructor | bot.go:28-36 | `lastSentMessage` starts as the empty string |
| BotVariant.Notifier.FetchAPIResponse | bot.go:233-277 | The tick asks for `from_date` an hour before the clock reading and its new `lastSentMessage`, send attempt and outcome are exactly `TickSpec`'s |
| MainVariant.ToHomework | main.go:136-146 | A record carries the element's `homework_name` and `status` strings exactly and nothing else |
| MainVariant.CheckResponseSpec | main.go:123-127 | A missing or non-list `homeworks` gives the list error and no records; with a list, any error is a per-element error |
| MainVariant.CheckItemsErrorIsElementError | main.go:130-144 | The element loop only ever fails with a per-element error |
| MainVariant.CheckItemsSuccess | main.go:129-149 | Validation succeeds exactly when every element is well shaped; then the result has the list's length and record i carries element i's name and status |
| MainVariant.CheckItemsFirstError | main.go:130-144 | If element k is the first ill-shaped one, the whole call fails with element k's first failing check |
| MainVariant.CheckResponse | main.go:123-150 | The slice-filling loop with early returns computes exactly `CheckResponseSpec` |
| MainVariant.ParseStatus | main.go:152-164 | A known status gives exactly `Изменился статус проверки работы "<name>": <verdict>`; the sentinel `Нет новых статусов работ.` is returned as it is without error; every other status gives `UnknownStatus(status)` |
| MainVariant.NoticeIsNotSentinel | main.go:153-163 | A status-change notice is never the sentinel text |
| MainVariant.RequestBodyAsWritten | main.go:72 | The body as written: a chat id and a text with nothing to escape read back unchanged |
| MainVariant.RequestBodyRoundTrip | main.go:69-73 | The corrected body, with both values escaped, reads back as exactly the chat id and the text for every input |
| MainVariant.AsWrittenBodyLosesNotice | main.go:72 | As written, for every known-status notice, the body's `text` literal ends at the quote before the homework name, so the body does not read back as the notice |
| MainVariant.AsWrittenBodyKeepsSentinel | main.go:72 | As written, the sentinel text does read back intact, as it needs no escaping |
| MainVariant.ReportOf | main.go:187-191 | The current report is `homeworks[0]`, or a record with empty name and the sentinel status when the list is empty |
| MainVariant.TickSpec | main.go:171-205 | A fetch failure changes nothing and sends nothing; a missing `current_date` crashes; otherwise the cursor becomes `current_date` even if validation then fails; an unchanged status keeps `prevReport` and sends nothing; a changed status makes `prevReport` the current report whatever parsing gives, and hands the parsed message to the send when parsing succeeds |
| MainVariant.SteadyStatusSentAtMostOnce | main.go:193-204 | Over any run of iterations that observe status s or nothing, at most one message is handed to the send, none if s was already the previous status, so a failed parse or send is not retried |
| MainVariant.Run | main.go:171-207 | Successive loop iterations, stopping at a crash: at most one message handed to the send per iteration, and iterations whose fetch fails change nothing |
| MainVariant.ApprovalSentOnce | main.go:187-204 | From the loop's start, an approval of `hw1` is sent once with its exact text, the cursor becomes 1000, and the same response next time sends nothing |
| MainVariant.EmptyListAtStartSendsSentinel | main.go:187-204 | From the loop's start, an empty list sends the sentinel text once and then nothing |
| MainVariant.Poller.constructor | main.go:167-169 | The loop starts with the cursor at the clock reading and both reports empty |
| MainVariant.Poller.Tick | main.go:171-206 | One iteration asks `getAPIAnswer` from the old cursor; its new cursor, reports and send attempt are exactly `TickSpec`'s; the posted body is the attempted message pasted unescaped into the body of main.go:72 |

## Findings

| source | as written | input that shows it | evidently intended | confidence | as-written member | corrected member |
|---|---|---|---|---|---|---|
| main.go:72 | `sendMessage` pastes the text between quotes of a JSON body without escaping it | a homework `{"homework_name":"hw1","status":"approved"}`: the body becomes `{"chat_id": "<id>", "text": "Изменился статус проверки работы "hw1": …"}`, whose `text` literal ends before `hw1` | the text escaped as JSON string content, so every notice reaches the chat | high for the malformed body, which every status-change notice produces; that Telegram then refuses the request is expected (not executed) | MainVariant.AsWrittenBodyLosesNotice | MainVariant.RequestBodyRoundTrip |

## Left out

- HTTP in `getAPIAnswer` and `sendMessage` (both files), the Telegram client library and JSON decoding: network I/O and foreign code. Their outcomes are tick parameters, and the decoded body is a `JsonValue.Json` map.
- The `float64` to `int64` conversion of `current_date`: numbers are modelled as integers. The main.go cursor is an unbounded `int`.
- The parse of `TelegramChatID` in bot.go: only its success is a parameter.
- `init` in both files (environment variables, `.env` file, log file, bot construction), every logging call, and the texts of the error values, which are only logged.
- `time.Now`, `time.Sleep` and the ticker: the clock reading is a parameter. `BotVariant.Notifier.FetchAPIResponse` uses one reading where bot.go reads the clock a second time when the first reading is 0.
- `main` in both files: goroutines, signal handling and `recover`. bot.go runs a first tick concurrently with the ticker's ticks, and unsynchronised access to `lastSentMessage` is not modelled. Ticks are sequential in the model.
- `handleUpdates` and `handleCommand` in bot.go (the `/start` and `/status` commands): they are message I/O and concurrency, and `/status` only reuses `checkResponse` and `parseStatus` and picks one of three replies.
- `MainVariant.RequestBodyRoundTrip`: stated for the model's own reader of the fixed body layout `{"chat_id": "…", "text": "…"}`, not for a general JSON parser. The escaper writes control characters as `\u00XX` rather than reproducing `encoding/json`'s exact choice of escapes. The reader refuses lone surrogate escapes, which the grammar of section 7 of RFC 8259 admits but which name no character.
