# homework_bot: a verified model of the decision logic

The bot polls the Practicum homework-status API and forwards a status change
of the most recent homework to a Telegram chat. `homework.py` is mostly glue
around `requests`, `python-telegram-bot`, `logging` and the clock. This project
models the pure logic inside it and proves properties of that logic:

- the status catalog `HOMEWORK_STATUSES` and the formatter `parse_status`;
- the response validator `check_response`;
- the configuration check `check_tokens`;
- the choice of `from_date` in `get_api_answer` (`current_timestamp or int(time.time())`);
- one pass of the `while True` body of `main`, as a pure step on the cursor
  `current_timestamp`, and a bounded run of such passes.

Modules:

- `Wrappers` (`wrappers.dfy`): `Option` and `Result`. A raised exception becomes a `Failure`.
- `PyValue` (`py_value.dfy`): the values `Response.json()` produces, plus the Python
  built-ins the bot applies to them. These are truthiness, `or`, `v[0]`, `v[key]`,
  `v.get(key)` and `str(v)`, each with the exception Python raises (`KeyError`,
  `IndexError`, `TypeError`, `AttributeError`).
- `Homework` (`homework.dfy`): the catalog, `parse_status`, `check_response`,
  `check_tokens`, the `from_date` choice and the fetch outcome of `get_api_answer`.
  It also has `ReadNotification`, which inverts the notification template.
- `PollLoop` (`poll_loop.dfy`): `Cycle` (one loop pass), `Run` (a sequence of passes),
  `LastAdvanced` (a reference definition of the final cursor) and `Poll` (`main` as a bounded loop).

Inputs the model takes as parameters:

- The clock is `now`.
- The HTTP exchange is a `Reply`. It is a decoded JSON body, a body that is not JSON, a built-in `ConnectionError`, or any other exception from `requests.get`.
- The Telegram send is a boolean `delivered`.

The cursor is a `PyValue.Value`, not an integer. The code stores whatever
`response['current_date']` holds. It then tests that value with Python truthiness in `get_api_answer`.

Behaviour of the code that the model keeps:

- Only `homeworks[0]` is examined.
- An empty `homeworks` list makes `homeworks[0]` raise `IndexError`. The cycle fails and the cursor does not move.
  The `is None` check after that subscript never catches an empty list.
  Its text "Список домашек пуст!" ("the list is empty") shows that this was its purpose.
- `check_response` does not check that `homeworks` is a list.
  A string or dict there gets through, and the cycle then fails on `homeworks[0]` or in `parse_status`.
- `response['current_date']` is read after `send_message`. If that key is missing, the message has
  already been delivered, but the cycle fails and the cursor stays.
- `check_tokens` is never called from `main`.
- `except ConnectionError` names Python's built-in class. `requests` reports an unreachable host with its own
  `requests.exceptions.ConnectionError`, which is not that class. So an unreachable host lands in the generic
  branch and fails the cycle with "Сбой при запросе к эндпоинту!".
- A successful cycle stores `current_date` as it is. If that value is false (0, `None`, `""`, `False`), the
  cursor stays at that value, but every later request asks from a fresh clock reading. Retries after a
  failure then do not repeat one `from_date`.

The notification and verdict texts are the Russian ones of homework.py:27-31,74.

## Model

| member | source | states |
|---|---|---|
| `Homework.Verdict` | homework.py:27-31 | Exactly the statuses `approved`, `reviewing` and `rejected` are accepted, each with its verdict text. An unhashable list or dict status raises `TypeError`. Any other value raises the bot's "unknown status" error. |
| `Homework.CatalogIsClosed` | homework.py:27-31 | The catalog has exactly three keys, and no two statuses share a verdict. |
| `Homework.Notification` | homework.py:74 | The message starts with the fixed lead, shows the name right after it, and ends with `". ` followed by the verdict. So it contains both the name and the verdict. |
| `Homework.ParseStatus` | homework.py:68-77 | Success exactly when the record is a dict with `homework_name` and `status` keys and a status from the catalog. The message is then the template filled with `str(name)` and that status's verdict. A missing `homework_name` raises `KeyError('homework_name')`, checked first. A missing `status` raises `KeyError('status')`. A non-dict raises `TypeError`. An unknown status string raises the bot's error, and no message is produced. |
| `Homework.VerdictTailsDiffer` | homework.py:27-31 | A message that ends with one status's verdict never also ends with another status's verdict. |
| `Homework.NotificationRoundTrip` | homework.py:74 | Reading a notification back gives the name and status code it was built from. |
| `Homework.ReadNotificationSound` | homework.py:74 | Any text that reads as a notification is exactly the template for the name and status it reads as. Together with the round trip, messages correspond one-to-one with (name, status) pairs. |
| `Homework.ParseStatusInjective` | homework.py:70-74 | Two records that yield the same message have the same rendered name and the same status. |
| `Homework.CheckResponse` | homework.py:60-65 | Fails exactly when `homeworks` is absent or `None`. Then it raises the bot's "key not found" error, or `AttributeError` when the response is not a dict. Otherwise it returns the value unchanged, including an empty list or a non-list. |
| `Homework.MissingVariable` | homework.py:80-97 | Reports nothing iff all three variables are set. Otherwise it reports the first unset variable in the order `PRACTICUM_TOKEN`, `TELEGRAM_TOKEN`, `TELEGRAM_CHAT_ID`. |
| `Homework.CheckTokens` | homework.py:80-97 | True iff all three variables are set (an empty value counts as set), which is exactly when no variable is reported missing. |
| `Homework.FromDate` | homework.py:42-43 | The `from_date` is the cursor when the cursor is truthy and `now` otherwise. It is never falsy when `now` is non-zero. |
| `Homework.ApiAnswer` | homework.py:44-57 | The fetch yields the decoded body exactly when the request succeeded and the body is JSON. A body that is not JSON raises the decode error. A built-in `ConnectionError` gives "Эндпоинт недоступен!". Any other request exception, including `requests`' own `ConnectionError` for an unreachable host, gives "Сбой при запросе к эндпоинту!". |
| `PollLoop.FirstNotification` | homework.py:108-112 | Success exactly when `homeworks` is a non-empty list whose entry 0 `parse_status` accepts, and the result is then `parse_status` of entry 0. An empty list raises `IndexError`. A `None` entry 0 raises "Список домашек пуст!". A non-list value always fails. |
| `PollLoop.Prepare` | homework.py:107-112 | The part of a cycle before the send succeeds exactly when the reply is a dict whose `homeworks` list has a notifiable entry 0. It then yields that response and `parse_status` of entry 0. |
| `PollLoop.Cycle` | homework.py:105-118 | A cycle requests the `from_date` chosen from the cursor. It succeeds iff the first entry is notifiable, the send succeeds and `current_date` is present. Success moves the cursor to `current_date`; any failure leaves it unchanged. A message goes out iff the first entry is notifiable and the send succeeds, and it is `parse_status` of entry 0. |
| `PollLoop.CycleSendsNotification` | homework.py:112 | Every delivered message reads back as a notification. |
| `PollLoop.EmptyListFailsCycle` | homework.py:108-109 | An empty `homeworks` list raises `IndexError`: nothing is sent and the cursor is unchanged. |
| `PollLoop.OnlyFirstEntryMatters` | homework.py:109-112 | Entries after index 0 have no effect on the cycle. |
| `PollLoop.FailedCycleRetriesSameDate` | homework.py:107-118 | After a failed cycle from a truthy cursor, the next request uses the same `from_date` as the failed one. With a false cursor this does not hold; see `FalsyCursorRetriesFromClock`. |
| `PollLoop.SucceededCycleRequestsCurrentDate` | homework.py:107-113 | After a successful cycle, the next request asks from the returned `current_date` (when that value is truthy). |
| `PollLoop.SentWithoutCurrentDate` | homework.py:112-113 | When `current_date` is missing, the message is still delivered, but the cycle fails with `KeyError('current_date')` and the cursor stays. |
| `PollLoop.ApprovedCycle` | homework.py:105-113 | An approved `hw1` with `current_date` 1000 sends the approved notification for `hw1` and moves the cursor to 1000. |
| `PollLoop.EmptyListCycle` | homework.py:108-109 | `{"homeworks": [], "current_date": 2000}` sends nothing and keeps the cursor at its old value. |
| `PollLoop.UnknownStatusCycle` | homework.py:72-77 | A status `archived` fails with the unknown-status error, sends nothing and keeps the cursor. |
| `PollLoop.UnreachableHostCycle` | homework.py:42-55 | A zero cursor makes the request use `now`. An unreachable host raises the library's `ConnectionError`, which the generic branch catches. The cycle fails with "Сбой при запросе к эндпоинту!", sends nothing and keeps the cursor. |
| `PollLoop.NullFirstEntryFailsCycle` | homework.py:109-111 | A `None` first entry fails the cycle with "Список домашек пуст!". Nothing is sent and the cursor is kept. |
| `PollLoop.FalsyCursorRetriesFromClock` | homework.py:105-118 | After a success whose `current_date` is 0, the cursor is 0. The next two failed cycles then ask from their own clock readings, 800 and 900. |
| `PollLoop.Run` | homework.py:105-118 | A run of cycles makes one request per cycle, and its first request uses the `from_date` chosen from the starting cursor. |
| `PollLoop.RunCursor` | homework.py:103-118 | After any number of cycles, the cursor is the `current_date` of the last successful cycle, or the start value if no cycle succeeded. |
| `PollLoop.RunSendsAtMostOnePerCycle` | homework.py:105-118 | A run makes one request per cycle and sends at most one message per cycle, and each message is a notification. |
| `PollLoop.RunUnfold` | homework.py:105-118 | A run from the i-th input is that input's cycle followed by the run of the remaining inputs from the new cursor. |
| `PollLoop.Poll` | homework.py:100-118 | `main` run for a bounded number of cycles, with the cursor starting at the clock reading. The loop produces the same trace as `Run`, and its final cursor is the one `LastAdvanced` gives. |

## Left out

- HTTP through `requests.get` and JSON decoding are not modelled (homework.py:44-57). Their outcome is the `Reply` input.
- Telegram delivery through `Bot.send_message` is not modelled (homework.py:34-37). It is the `delivered` input. Building the `Bot` object from the token is not modelled.
- Logging, `load_dotenv` and `os.getenv` are not modelled (homework.py:11-20). The variables are the three `Option<string>` fields of `Env`. The log text of each failure is not modelled, but the failure value keeps the exception's kind and the bot's message text.
- `HEADERS` and `ENDPOINT` are not modelled: the request itself is not modelled, only its `from_date`.
- Which exceptions `requests.get` raises in which network situation is not modelled; the `Reply` input says which `except` branch is taken.
- `time.time()` and `time.sleep(RETRY_TIME)` are not modelled (homework.py:42,103,114,118). The clock is the `now` input of each cycle, and sleeping has no effect on the state.
- The unbounded `while True` loop is modelled as a bounded run over a finite sequence of cycle inputs.
- The `global time_sleep_error = 30` assignment in the `else` clause is not modelled (homework.py:119-121). Nothing reads it.
- PyValue.ToStr: `str()` of a list or dict homework name is a fixed placeholder, not Python's `repr`, because quoting, escaping and dict key order are not modelled. Strings, integers, booleans and `None` render exactly.
- JSON numbers with a fraction are not modelled: `Value` has integers only.
