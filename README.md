# Homework-status bot, modelled in Dafny

`homework.py` is a Telegram bot that polls the Yandex Practicum homework API
for the review status of one user's submissions and forwards each change as a
message. The model covers its three pieces of logic:

- **Status translation** (`parse_homework_status`): a lookup in the fixed
  three-entry table `STATUSES_VERDICTS`. A known status yields the summary
  message (the submission's name, then the verdict). A missing
  `homework_name` or `status` key raises `KeyError` (the name is read first),
  and an unknown status raises `UnexpectedStatus`.
- **Response classification** (`get_homework_statuses`): a transport
  exception becomes `NetworkFailure`. A body with an `error` key becomes
  `ServerFailure` carrying that value; `error` is checked before `code`. A
  body with a `code` key becomes `ServerFailure` carrying the code. Any other
  body is returned unchanged. `response.json()` sits outside the `try`, so a
  decode error is not wrapped and escapes as it is.
- **The poll loop** (`main`): each cycle polls, translates element `[0]` of
  `homeworks` if `homeworks` is truthy, sends it, then adopts `current_date`
  (keeping the cursor when the key is absent) and sleeps 1200. Any exception
  leaves the cursor unchanged. An error report starting with
  "Бот столкнулся с ошибкой: " is then attempted, followed by a 5-unit sleep.
  If the report send itself fails, the failure is only logged and the sleep
  is skipped, because `time.sleep(5)` follows `send_message` inside the inner
  `try`.

Module `Homework` (homework.dfy) holds the data model, the pure functions and
the imperative `PollLoop`. `PollLoop` runs a `while` loop over a sequence of
per-cycle outcomes, reassigns the cursor and appends to the lists of sent
messages and sleeps. Each iteration is the method `CycleOnce`, written with
the outer `try` and the inner recovery as in `main`. The postconditions tie
both methods to the pure step function `Cycle` and to `Run`, which applies
`Cycle` to each outcome in turn. Module `Properties` (properties.dfy)
proves that a summary identifies its submission, and properties of `Cycle`
and of whole runs. Module `Scenarios` (scenarios.dfy) works through concrete
cycles. Module `Results`
(results.dfy) holds `Option` and `Result`.

The network, the JSON decoder, Telegram and the clock are inputs. Each cycle
receives a `CycleInput` with three parts:

- the poll outcome: a transport error, a decode error, or a decoded body;
- the outcome of sending the status notice, consulted only if there is one;
- the outcome of sending the error report, consulted only if the cycle failed.

The initial cursor (`int(time.time())`) is a parameter. Each `time.sleep(d)` is
recorded as `d` in the list of sleeps.

Three behaviours of `homework.py` that the model keeps:

- A decode failure is not turned into a transport failure. `DecodeFailure`
  carries the raw exception.
- A `homeworks` value that is not a list is not a failure of its own. If it
  is falsy in Python (`0`, `""`, `null`, `{}`), nothing is sent and the
  cycle succeeds. If it is truthy, applying `[0]` and then `['homework_name']`
  raises, and the cycle fails (`MalformedHomeworks`).
- Once the report send has failed, the recovery wait does not happen.

## Model

| member | source | states |
|---|---|---|
| `Homework.Summary` | homework.py:49-57 | the summary holds the name at a fixed offset after the opening text and ends with the verdict |
| `Homework.ParseHomeworkStatus` | homework.py:48-57 | succeeds iff both keys are present and the status is in `STATUSES_VERDICTS`, and then returns the summary of the name with exactly that table's verdict; a missing name raises `KeyError('homework_name')` before the status is read; a missing status raises `KeyError('status')`; an unknown status raises `UnexpectedStatus` carrying it and no message |
| `Properties.SummaryDeterminesSubmission` | homework.py:20-25 | two known statuses produce the same summary only for the same name and the same status, so the notification tells the user which verdict was given |
| `Homework.GetHomeworkStatuses` | homework.py:60-104 | returns a body iff the poll was decoded and the body has neither `error` nor `code`, and then returns it unchanged; a transport exception becomes `NetworkFailure`; a decode error escapes as `DecodeFailure`; `error` yields `ServerFailure` with its value even when `code` is also present; `code` alone yields `ServerFailure` with the code |
| `Homework.NewestNotice` | homework.py:120-124 | asks for no notice exactly when `homeworks` is falsy (absent, empty, or a falsy non-list); otherwise it is the translation of element `[0]` alone, with its failure if it fails; a truthy non-list raises `MalformedHomeworks` |
| `Homework.Describe` | homework.py:54-103 | the text of a network or server failure carries its cause or indicator verbatim at a fixed offset; the text of an unexpected status ends with the status |
| `Homework.ReportText` | homework.py:133 | an error report starts with the report prefix, followed by the fault's text |
| `Homework.SummaryIsNoReport` | homework.py:49-57 | no status notification starts with the report prefix, so notices and reports are told apart by their text |
| `Homework.Truthy` | homework.py:120 | Python's truth value of `homeworks`: false when absent or an empty list, true for a non-empty list, and the value's own truth value otherwise; no contract of its own, `NewestNotice` and `CycleSucceeds` state what depends on it |
| `Homework.CycleFault` | homework.py:118-124 | the outer `try` body raises nothing iff the poll is classified as a body, the notice is computed without error, and a notice, if any, is delivered; a poll failure is the fault raised; otherwise a translation failure of the notice is the fault raised; otherwise a refused notice send raises `DeliveryFailure` with the refusal's cause, and a `DeliveryFailure` comes from nowhere else |
| `Homework.Recover` | homework.py:131-141 | the `except` branch: appends one report of the fault, delivered or not, and asks for the 5-unit sleep only when it was delivered; no contract of its own, `CycleRecovers` states its effect on a cycle |
| `Homework.Cycle` | homework.py:117-141 | one iteration of the loop body as a step function from the cursor and the cycle's outcomes; no contract of its own, its properties are `CycleSucceeds` and `CycleRecovers` |
| `Homework.CycleSucceeds` | homework.py:118-129 | when the outer `try` raises nothing, the cursor becomes `current_date` if present and is otherwise unchanged, the sleep is 1200, and one message is sent iff `homeworks` is truthy: the delivered translation of element `[0]` |
| `Homework.CycleRecovers` | homework.py:131-141 | when the outer `try` raises, the cursor is unchanged, the last of at most two sends is the one report of that fault, the sleep is 5 iff the report was delivered and absent otherwise, and a send before the report occurs exactly when the notice itself was refused and caused the fault: it is then that notice, marked undelivered, and no report |
| `Homework.Run` | homework.py:112-141 | the state after running `Cycle` on each given outcome in order, the `while True` loop cut off after that many cycles; no contract of its own, `PollLoop` is proved equal to it and the `Properties.Run…` lemmas state its properties |
| `Homework.CycleOnce` | homework.py:118-141 | one iteration of the loop body, written with the outer `try` and the inner recovery as in `main`, yields exactly the cursor, sends and sleep of `Cycle` |
| `Homework.PollLoop` | homework.py:112-141 | the loop, run for any sequence of cycle outcomes without a precondition, produces exactly the cursor, sends and sleeps of running `Cycle` on each outcome in order from the starting cursor |
| `Properties.CycleCounts` | homework.py:117-141 | a cycle attempts exactly one error report iff it fails, and delivers exactly one status notice iff it succeeds with truthy `homeworks` |
| `Properties.CycleSleeps` | homework.py:129-134 | a cycle sleeps once unless its report was lost, and then for 1200 or 5 only |
| `Properties.CycleCursor` | homework.py:125-128 | a cycle moves the cursor exactly when it succeeds with a `current_date`, and then to that value |
| `Properties.RunCounts` | homework.py:117-141 | over a whole run, the number of report attempts equals the number of failed cycles, and the number of delivered notices equals the number of successful cycles with truthy `homeworks` |
| `Properties.RunSleepCount` | homework.py:129-141 | over a whole run, the number of sleeps plus the number of lost reports equals the number of cycles |
| `Properties.RunSleepDurations` | homework.py:129-134 | every sleep of a run is 1200 or 5 |
| `Properties.RunCursorUnmoved` | homework.py:115-128 | if no cycle succeeds with a `current_date`, the cursor after the run is the starting cursor: failed cycles never move it |
| `Properties.RunCursorIsLatestAdoptedDate` | homework.py:125-128 | the cursor after a run is the `current_date` of the last cycle that succeeded with one |
| `Scenarios.ApprovedSubmission` | homework.py:119-129 | an approved submission "X" with `current_date` 1000 gives one delivered notice naming "X" with the approved verdict, cursor 1000, sleep 1200 |
| `Scenarios.ServerError` | homework.py:84-93 | a body `{"error": "bad token"}` leaves the cursor unchanged and sends one report that quotes "bad token", then sleeps 5 |
| `Scenarios.UnknownStatus` | homework.py:53-54 | a newest submission with an unknown status sends no notice, only the report of the unexpected status |
| `Scenarios.IntegerHomeworks` | homework.py:120-122 | a truthy non-list `homeworks` such as `1` fails the cycle and is reported |
| `Scenarios.SilentChannel` | homework.py:131-141 | when both the notice and its report fail, nothing escapes: after that cycle the cursor is still the start, both sends are recorded as undelivered and no sleep happened; the next cycle then runs normally and adopts its own `current_date` |

## Left out

- The HTTP request (`requests.get`), `response.json()` and Telegram's `Bot.send_message` are foreign network calls. Their outcomes are inputs of each cycle.
- The `chat_id`, the API URL and the authorization header are not modelled. The `chat_id` is used only by the send calls. The URL and the header appear in the network call and in the `ERROR_MESSAGE` text of a network or server failure (lines 76-79, 87-90, 97-100), so the real error report also carries the OAuth token. The model drops those lines of that text (see the `Describe:` lines below).
- Logging (`logging.basicConfig` and every `logger` call) is left out because it is diagnostic only. In particular, the log entry written when the report send fails is not modelled. The model records that send as not delivered.
- Environment loading (`load_dotenv`, `getenv`) is left out. The tokens and chat id are opaque configuration.
- `time.time()` for the initial cursor is a parameter. `time.sleep` records the requested duration instead of waiting.
- The `while True` loop never ends. The model runs one cycle per given outcome.
- The `TESTING` scaffold with `randint`, `unittest` and `mock` is a random test harness, not behaviour of the bot.
- Describe: the `ERROR_MESSAGE` template is rendered by its first and last lines (the connection-failure heading, then the cause or server value). The URL, header and timestamp lines are omitted, and the value of `error` or `code` is taken as already rendered text.
- Describe: a `TypeError` or `KeyError` raised by indexing a malformed `homeworks` is given by an opaque text, because its wording comes from the Python runtime. A `KeyError` for a missing key is rendered as the quoted key.
- A response body that decodes to something other than a JSON object is not modelled. Neither is a `homeworks` list element that is not an object, nor non-string values for `homework_name` or `status`, nor a non-integer `current_date`. Each is either a runtime type error or a value the code only forwards.
