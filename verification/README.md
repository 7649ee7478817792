# Homework status bot — a verified model of its polling loop

The bot polls a homework-review API every ten minutes for a student's
submissions, turns the status of the most recent one into a chat message and
sends it through a Telegram bot when it differs from the last message sent.
Failures during a poll are turned into a failure notice, deduplicated in the
same way. This project models the pure logic of that single Python file:

- `check_tokens`, the credential check (`Homework.CheckTokens`);
- `check_response`, the shape validator of the API answer (`Homework.CheckResponse`);
- `parse_status` and the `HOMEWORK_VERDICTS` table (`Homework.ParseStatus`);
- the `timestamp or now` substitution before each request (`Homework.FromDate`);
- startup and one iteration of the `main` loop as a pure step from the loop
  state `(timestamp, last_status)` and the outcome of the poll to the next
  state and the messages handed to `send_message` (`Bot.Start`, `Bot.Attempt`,
  `Bot.Step`), and finite runs of the loop (`Bot.Run`).

Python values are modelled by a JSON datatype (`json.dfy`) together with the
parts of Python's object model the code relies on: truthiness, `dict.get`
(later duplicate keys win, as in `json.loads`), `type(v).__name__` and
`str(v)`, which is what the f-strings insert. Exceptions are `Failure` values
carrying the exception class and `str(error)` (`exceptions.dfy`).

The model follows the code as written:

- an unknown status raises a plain `KeyError` carrying the status
  (homework.py:116-117);
- a record without `status` raises `UnboundLocalError`, because the f-string
  at homework.py:115 reads `status` before it is assigned; the model states
  only that this is an error of that class;
- a `status` that is a list or dict raises `TypeError` (unhashable) at the
  table lookup;
- a record that is not a dict still always raises: `'homework_name' in` is a
  substring test on a string and a membership test on a list; a string or list
  record that contains `homework_name` then fails at indexing with `TypeError`,
  one that does not raises the `KeyError` of homework.py:111, and on any other
  value `in` itself raises `TypeError`;
- when the message is unchanged, `last_status` stays as it was but the
  watermark still moves to `current_date` (homework.py:148 runs either way);
- the watermark is whatever the response holds under `current_date`, of any
  JSON type; a false value (`0`, `null`, `""`, …) makes the next poll ask
  from the current time.

Time is a parameter `now`; the outcome of the HTTP poll is an input of the step.

## Model

| member | source | states |
|---|---|---|
| `Homework.AllIsEvery` | homework.py:54 | Python's `all` over a list is true exactly when every element is true |
| `Homework.CheckTokens` | homework.py:52-54 | true iff each of the three credentials is set and non-empty |
| `Homework.CheckResponse` | homework.py:94-103 | a non-dict raises `TypeError`, then a dict without `homeworks` raises `KeyError`, then a non-list `homeworks` raises `TypeError`; success iff `homeworks` holds a list, and the result is exactly that list |
| `Homework.CheckResponseReturnsList` | homework.py:100-103 | whatever else a response holds, the list bound to `homeworks` (empty included) comes back unchanged |
| `Homework.ParseStatus` | homework.py:106-119 | a non-dict fails; a missing `homework_name` raises `KeyError` before the status is looked at; a missing `status` raises `UnboundLocalError`; a list or dict status raises `TypeError`; any other status outside the table raises `KeyError` whose text carries the printed status; success iff name and known status are present, with the message built from the name and the table's verdict |
| `Homework.ParseStatusDependsOnNameAndStatus` | homework.py:108-119 | for dict records the outcome is a function of the `homework_name` and `status` entries alone |
| `Homework.ParseStatusVerdicts` | homework.py:25-29 | for each of `approved`, `reviewing`, `rejected` the message is `Изменился статус проверки работы "{name}". ` followed by that status's verdict text |
| `Homework.VerdictSuffixDetermines` | homework.py:25-29 | no verdict text ends another, so the end of a message determines the verdict and the text before it |
| `Homework.VerdictMessageInjective` | homework.py:116-119 | two messages built from the verdict table are equal only if their names print the same and their statuses are equal |
| `Homework.ParseStatusInjective` | homework.py:116-119 | two records give the same message only if their names print the same and their statuses are equal, so a changed status is always a new message |
| `Homework.FromDate` | homework.py:73 | `from_date` is the watermark or the current time; a truthy watermark is kept, and unless the clock reads 0 the request never carries a false `from_date`; at clock 0 a false watermark gives `from_date` 0 |
| `Bot.Start` | homework.py:122-132 | missing credentials exit with the fixed message; otherwise the state is a watermark one day back with nothing notified, and the greeting is the only message sent |
| `Bot.NotifyOnChange` | homework.py:141-143 | the message is sent iff it differs from the last one notified, and afterwards it is the last one notified |
| `Bot.Attempt` | homework.py:135-148 | the `try` block succeeds iff the poll, the validation and (for a non-empty list) the interpretation of record 0 all succeed; poll errors, validation errors and interpretation errors of record 0 escape unchanged; on success only record 0 is interpreted and notified on change, an empty list sends nothing and keeps `last_status`, and the watermark becomes `current_date` if present |
| `Bot.Step` | homework.py:135-154 | a successful `try` block is the iteration; otherwise the failure notice is sent iff it differs from `last_status`, becomes `last_status`, and the watermark is kept |
| `Bot.Run` | homework.py:134-156 | a run of n polls sends at most n messages |
| `Bot.NoticeIsNeverVerdict` | homework.py:119 | a failure notice never equals a verdict message |
| `Bot.StepIdempotent` | homework.py:138-154 | repeating the same poll outcome sends nothing and leaves the state unchanged |
| `Bot.StepReadsOnlyFirstRecord` | homework.py:138-140 | responses that agree on record 0 and on `current_date` give the same iteration |
| `Bot.WatermarkMovesOnlyOnSuccess` | homework.py:136-148 | the watermark changes only when the whole `try` block succeeds and `current_date` is present, and then becomes that value |
| `Bot.FalseWatermarkPollsFromNow` | homework.py:73 | after a successful response whose `current_date` is false (`0`, `null`, `""`, ...) the next poll asks from the current time |
| `Bot.TruthyWatermarkIsNextFromDate` | homework.py:73 | after a successful response whose `current_date` is truthy, that value is the next `from_date` |
| `Bot.UnknownStatusNoticesDiffer` | homework.py:117 | unknown statuses that print differently give different failure notices, so consecutive ones are each notified |
| `Bot.FirstPollReachesADayBack` | homework.py:129 | the first poll after startup asks from one day before now, unless that is 0 |
| `Bot.RepeatedFailureNotifiesOnce` | homework.py:149-154 | two identical failures in a row notify once; a differently worded third failure notifies again |
| `Bot.SharedSlotRenotifies` | homework.py:141-143 | verdict, failure, same verdict notifies three times, because verdicts and notices share `last_status` |
| `Bot.RunNotifiesOnlyChanges` | homework.py:134-156 | over any run, each message sent differs from the one before it, the first differs from the initial `last_status`, and the final `last_status` is the last message sent |
| `Bot.FailedPollsKeepWatermark` | homework.py:149-154 | while every poll fails the watermark never moves |
| `Scenarios.ApprovedIsAnnounced` | homework.py:135-148 | an approved `task1` record with `current_date` 1000 is announced with its name and verdict and the watermark becomes 1000 |
| `Scenarios.ApprovedTwiceIsAnnouncedOnce` | homework.py:138-145 | two polls returning the same approved record send exactly one message |
| `Scenarios.NoHomeworksChangesNothing` | homework.py:146-148 | `{"homeworks": []}` sends nothing and leaves the state unchanged |
| `Scenarios.UnknownStatusSendsNotice` | homework.py:116-117 | status `bogus` raises `KeyError` and sends one failure notice, watermark kept |
| `Scenarios.MissingTokenExits` | homework.py:124-126 | a missing or empty credential ends startup with the exit message |

## Left out

- The HTTP request, `raise_for_status` and `.json()` in `get_api_answer` (homework.py:75-91): they are thin wrappers over `requests`; their outcome is an input of the step, either a decoded body or any exception; only `str(error)` reaches the failure notice. The wrong-arity `requests.JSONDecodeError(...)` call at homework.py:88, which itself raises `TypeError`, is part of this left-out code.
- The Telegram bot and `bot.send_message` (homework.py:61-64, 128): sending is appending to the step's list of messages. `send_message` swallows `TelegramError`, so delivery never influences the state; an exception of another class raised by the transport is not modelled.
- Logging setup and every `logger` call: they are output sinks with no effect on the state.
- `time.time`, `time.sleep` and the endless `while True` / `finally`: `now` is a parameter, and the loop is modelled as single steps and finite runs.
- `load_dotenv`, `os.getenv` and `sys.exit`: the credentials are parameters of `Start`, and exiting is a `Failure` carrying the exit message.
- JSON floating-point numbers: the JSON datatype has integers only.
- Exception texts: `str(error)` is modelled as the argument the code passes, quoted for `KeyError`; texts made up by the Python runtime follow CPython 3.11 wording. Only their equality matters to the loop, and Python's quoting is one-to-one, so which consecutive notices are equal is unaffected.
- `Json.Repr`: strings inside a printed list or dict are wrapped in single quotes without Python's escaping or its choice of double quotes; objects with repeated keys print every binding instead of one.
