# Homework status bot — a Dafny model of its polling loop

The bot (homework.py) polls the Yandex.Practicum homework API every ten
minutes. It checks the shape of each answer and turns the status of the most
recent homework into a Russian notification text. It sends that text to a
Telegram chat when the (id, status) pair differs from the one it remembers.
Failures are reported to the chat as well, but a failure text is sent only
when it differs from the last one sent.

The model covers, as pure functions over immutable values:

- `Json` — decoded JSON values with the Python behaviour the bot relies on:
  truthiness (`current_timestamp or now`), `==` (`True == 1`), `str()`,
  `type()`, hashability and `d[key]`.
- `Failures` — the exceptions a cycle can end in: `EndpointHomeworkError`
  and `TypeValueError` of exceptions.py, the built-in KeyError and TypeError
  paths, and whatever the HTTP client or JSON decoding raises. Each comes
  with the `str()` text that ends up in the chat. The other two classes of
  exceptions.py never reach a cycle: `ApiHomeworkError` is never raised, and
  `VariableNoneError` is raised and caught inside `check_tokens`.
- `Api` — the `from_date` rule and status-code check of `get_api_answer`,
  and `check_response`.
- `Statuses` — `HOMEWORK_STATUSES` and `parse_status`.
- `Config` — `check_tokens`.
- `Bot` — the loop state (`current_timestamp`, `message`, `id_homework`,
  `status_homework`) and one iteration of the `while` loop as
  `Step(state, now, fetch)`. The step yields the next state and the texts sent,
  or a `Crash` when a KeyError escapes every handler.
- `Traces` — finite runs of the loop, with replay, outage and invariant
  lemmas.

The model follows homework.py as written, including these behaviours a
reader might not expect:

- `check_response` returns inside the first iteration of its loop over
  `['homeworks', 'current_date']`. A missing `current_date` is therefore never
  reported by it.
- An empty `homeworks` list moves the cursor to that answer's `current_date`.
  The cursor does not stay where it was.
- `send_message` swallows every exception. The memory and the cursor therefore
  move on whether or not delivery succeeded.
- The last error text is never cleared after a successful cycle. An outage
  that recurs with the same text after a recovery is not reported again.
- Three `response['current_date']` reads and one `check_answer[0]['id']` read
  can raise KeyError outside any handler. This ends the loop (`Crash`). At
  line 164 the crash comes after the notification has been sent.
- The remembered pair starts as `(0, '')`, not as "nothing". Records are
  compared with Python `==`, so an id of `1` matches a remembered `true`.
- A body that is not a JSON object fails `check_response` with a TypeError.
  It is not reported as a missing key.

## Model

| member | source | states |
|---|---|---|
| `Api.FromDate` | homework.py:54 | the lower bound of the request is the cursor whenever it is truthy in Python's sense, and the clock reading otherwise |
| `Api.GetApiAnswer` | homework.py:52-70 | a 200 answer yields its decoded body; any other status code is EndpointHomeworkError whatever the body; an exception from the client or from JSON decoding passes through unchanged |
| `Api.CheckResponse` | homework.py:73-93 | succeeds exactly when the body is a dict whose `homeworks` is a list, and then returns that very list; a non-dict fails with a TypeError, a missing `homeworks` with KeyError, a non-list with TypeValueError naming its type |
| `Api.CheckResponseIgnoresCurrentDate` | homework.py:75-87 | removing or replacing `current_date` never changes the result of check_response |
| `Statuses.Notification` | homework.py:109 | every notification text starts with the fixed header `Изменился статус проверки работы "` |
| `Statuses.ParseStatus` | homework.py:96-109 | succeeds exactly for a dict with `homework_name` and a `status` among approved/reviewing/rejected, and returns the fixed header, the quoted name and that status's verdict; otherwise fails, in source order, on a non-dict, a missing name, a missing status, an unhashable status, or an unknown status |
| `Statuses.ApprovedExample` | homework.py:108-109 | approved work named "Proj1" gives exactly the header, `"Proj1". ` and the approved verdict |
| `Statuses.InProgressIsUnknown` | homework.py:100-106 | the status `in_progress` is refused as unknown, whatever the name |
| `Statuses.StatusChangeChangesText` | homework.py:33-37 | for the same homework, two different vocabulary statuses never give the same text |
| `Config.PresentAll` | homework.py:127-130 | the count of set values equals the number of values exactly when every value is set |
| `Config.CheckTokens` | homework.py:112-130 | true exactly when none of the three configuration values is None |
| `Bot.Start` | homework.py:133-141 | the loop is entered exactly when check_tokens succeeds, with the clock as cursor, no error text and the remembered pair (0, '') |
| `Bot.Report` | homework.py:151 | every failure text starts with the fixed failure prefix and is never the empty initial text |
| `Bot.Try` | homework.py:143-146 | the try block ends in a recoverable failure exactly when the fetch, check_response or the parse of the first record fails, and it carries the exception of the first stage that failed; an empty list is the IndexError case; otherwise the first record and its parsed text are handed on |
| `Bot.ReportSameIffDescribeSame` | homework.py:151-153 | two failures give the same chat text exactly when their exception texts are the same |
| `Failures.DistinctFailuresDistinctTexts` | homework.py:60-106 | an unreachable endpoint, a response without `homeworks`, and a record without its name or its status give pairwise different exception texts |
| `Bot.Non200Reported` | homework.py:59-64 | a non-200 answer fails the cycle with EndpointHomeworkError and its endpoint text is sent unless it was the last error sent |
| `Bot.CrashIffNotSurvivable` | homework.py:147-166 | an iteration crashes exactly when the answer passed the checks but lacks `current_date`, or its parsed first record lacks `id`; the loop state and clock play no part |
| `Bot.Step` | homework.py:142-168 | one iteration sends at most one text, which is either the failure report or the record's notification; the error text changes only by being sent; the remembered pair changes only together with a notification; the cursor moves only to the `current_date` of a checked answer; a crash names `current_date` or `id` |
| `Bot.FailureKeepsPosition` | homework.py:150-155 | a recoverable failure keeps cursor and memory, sends its text exactly when it differs from the last error text, and stores it |
| `Bot.EmptyAnswerMovesCursor` | homework.py:147-149 | an empty list sends nothing and sets the cursor to `current_date`, leaving memory and error text; without `current_date` the loop crashes |
| `Bot.RememberedPairIsSilent` | homework.py:157-159 | a record whose (id, status) equals the remembered pair sends nothing and only moves the cursor to `current_date` |
| `Bot.NewPairNotifiedOnce` | homework.py:160-166 | a new (id, status) sends the parse_status text once and makes it the remembered pair with the cursor at `current_date`; without `current_date` the crash comes after the send |
| `Bot.MissingIdCrashes` | homework.py:157 | a parsed record without `id` ends the loop before anything is sent |
| `Bot.FirstParsedHomeworkNotified` | homework.py:141 | while the remembered status is the initial empty string, any record that parses and has an id is notified |
| `Bot.FalsyDateFallsBackToClock` | homework.py:54 | after an empty answer whose `current_date` is falsy (0, null, false, an empty string, list or dict), the next request asks from the clock reading |
| `Bot.StepIdempotent` | homework.py:142-168 | repeating the outcome an iteration has just handled leaves the state unchanged and sends nothing |
| `Json.PyEqReflexive` | homework.py:157-158 | every modelled (float-free) JSON value is equal to itself under Python `==` |
| `Traces.StepSendsSendable` | homework.py:150-166 | every text an iteration sends is a status notification or a failure report |
| `Traces.Run` | homework.py:142-168 | a run of n iterations sends at most n texts, each a status notification or a failure report; an empty run leaves the loop running |
| `Traces.RunLiveIffSurvivable` | homework.py:142-168 | a run is still going at its end exactly when none of its API outcomes could crash an iteration, so the loop stops only at a crash |
| `Traces.SettledRunIsSilent` | homework.py:142-168 | once an outcome has been handled, replaying it any number of times sends nothing and keeps the state |
| `Traces.ReplaySendsOnce` | homework.py:142-168 | however often the same outcome repeats, the run sends exactly what the first iteration sent (at most one text) and ends in its state |
| `Traces.SameAnswerTwiceNotifiesOnce` | homework.py:157-166 | the same new homework status returned twice in a row is notified exactly once |
| `Traces.OutageReportedOnce` | homework.py:153-155 | a persistent failure is reported at most once, and not at all if it is the failure last reported |
| `Traces.RecurringOutageNotReportedAgain` | homework.py:150-166 | a failure, a surviving non-failing iteration, then the same failure: the third iteration sends nothing, since the stored error text is never cleared |
| `Traces.FailuresKeepPosition` | homework.py:150-155 | over any sequence of failures the loop keeps running and the cursor and remembered pair never move |
| `Traces.RunKeepsConsistent` | homework.py:139-166 | every state reached holds a remembered status that is '' or a vocabulary status, and an error text that is '' or a failure report |
| `Traces.InitialConsistent` | homework.py:138-141 | the start state is consistent |

## Left out

- HTTP via `requests.get`, and JSON decoding: an iteration receives their outcome as a `Fetch` (a status code with a decoded body, or the text of a raised exception).
- The `ApiHomeworkError` handler of `get_api_answer`: nothing in its `try` raises that class.
- The Telegram `Bot` object and delivery: constructing `telegram.Bot(token=TELEGRAM_TOKEN)` is assumed to succeed (a set but malformed token would make it raise before the loop), and `send_message` catches every exception, so only the texts handed to it are recorded.
- `time.time()` and `time.sleep(RETRY_TIME)`: the clock is a parameter of each iteration and the sleep has no effect on the state.
- The endless `while True`: the model gives one iteration and finite runs.
- Logging, `load_dotenv` and `os.getenv`: the three configuration values are a parameter of `check_tokens`.
- Floats: `Json.Value` has integers only. This leaves out JSON numbers with a fraction or an exponent, and also the floats `NaN`, `Infinity` and `-Infinity`, which Python's decoder accepts by default. Python's `1.0 == 1` and the truthiness of `0.0` are therefore not modelled. Nor is the fact that `NaN` is not equal to itself: a record whose `id` is `NaN` fails the comparison at homework.py:157 on every poll and is notified again each time. `Json.PyEqReflexive`, `Bot.StepIdempotent`, `Traces.SettledRunIsSilent`, `Traces.ReplaySendsOnce` and `Traces.SameAnswerTwiceNotifiesOnce` do not cover that case.
- The exact `str()` of exceptions is approximated where Python's rendering is not fixed by the code. `str()` of a list or dict prints a placeholder. The quoting of a KeyError message containing quotes or escapes is simplified. TypeError texts follow one Python version. These texts are compared only for equality, so the properties above do not depend on them.
- Exceptions that cannot occur for decoded JSON (for example a failing `__eq__`) are not modelled.
