# Homework status bot — a Dafny model

`homework.py` is a small bot that polls the Praktikum homework-status API for
reviews changed since a cursor (a timestamp), turns the first returned homework
into a Russian notification and sends it over Telegram, then sleeps five minutes.
When anything fails it sleeps a backoff delay instead: ten seconds at first,
doubled after each failure, wrapping back to ten once the doubled value reaches
5120.

The model has these parts:

- `Json` (json.dfy): decoded JSON values. It also gives the Python semantics the
  bot applies to them without checking types: `in` (key, element or substring
  membership; TypeError on null, a boolean or a number), `[key]`, `[0]`, truthiness, `dict.get`
  and `str()`.
- `Exceptions` (exceptions.dfy): the exceptions that reach `main`'s handlers.
  These are PraktikumException, the three Telegram error classes, and the Python
  built-ins (TypeError, KeyError, IndexError, NameError) that the generic
  `except Exception` catches.
- `Backoff` (backoff.dfy): the global `time_sleep_error` and `timeout_exception`,
  written as the class `ErrorTimer`. Its pure partner `DelayAfter(n)` is the delay
  after `n` failures, with lemmas giving its closed form, its bounds and its period.
- `Translate` (translate.dfy): `parse_homework_status` as a pure function, step
  for step. `ReadNotice` is an inverse of the notification template.
- `Validate` (validate.dfy): the checks at the end of `get_homework_statuses`.
- `Poll` (poll.dfy): one pass of `main`'s loop. `Step` is the specification
  function. `Poller.Iterate` runs the pass imperatively on the cursor and the
  timer. `Poller.RunPasses` runs finitely many passes in a `while` loop and is
  proved equal to `Run`.

The model follows the code as written; in particular:

- A successful pass never resets the backoff delay.
- The wrap test is `>=`, so the delays are 10·2^k for k = 0…8. The largest is
  2560, and the value returns to 10 after nine failures.
- An unknown status raises no PraktikumException and so is not reported: the
  second table lookup raises KeyError, and a missing `status` raises NameError
  (an unbound local). The generic handler catches both, so no report is sent.
- The response check does not look at `homeworks`. A `code` without a `message`
  raises KeyError. The `error` value is only tested with `in`. With no `code`,
  the response is accepted when that value is a dict without an `error` key, a
  list without an `'error'` element, or a string that does not contain `error`.
  A null, a boolean or a number raises TypeError, and so does a list or string
  that does contain `error`, when it is subscripted.
- If the report of a PraktikumException cannot be sent, the Telegram error
  escapes `main` and the bot stops (`Crashed`).

## Model

| member | source | states |
|---|---|---|
| `Json.SubstringOccurs` | homework.py:108 | Python's `k in s` on strings (`IsSubstring`) holds exactly when `k` occurs at some index of `s` |
| `Json.Contains` | homework.py:51-53 | `in` succeeds exactly on dicts, lists and strings and raises TypeError otherwise; on a dict it tests the keys, on a list it is true exactly when some element equals the key string, on a string exactly when the key occurs at some index |
| `Json.Subscript` | homework.py:52-54 | a string subscript succeeds exactly on a dict holding the key and yields that key's value |
| `Json.First` | homework.py:144 | `[0]` of a non-empty list is its first element; `[0]` succeeds only on a truthy list or string |
| `Json.Truthy` | homework.py:142 | a value is falsy exactly when it is `None`, `False`, `0`, `""`, `[]` or `{}` |
| `Json.Render` | homework.py:110 | `str()` of a string is the string itself; of an integer, an optional `-` followed by decimal digits, with no leading zero, whose value is its absolute value (so the text is unique); of a list, bracketed text |
| `Json.Digits` | homework.py:110 | the decimal digits of a natural number, without leading zeros, read back to that number |
| `Translate.Verdict` | homework.py:59-62 | the table's values, the text each notice ends with (no contract of its own; `VerdictsDiffer`, `EndingCharacter` and `NoticeRoundTrip` state that the three verdicts differ in their next-to-last character, so a notice's ending determines its status) |
| `Translate.StatusOf` | homework.py:58-63 | the status table has exactly the keys reviewing, approved, rejected |
| `Translate.ParseHomeworkStatus` | homework.py:43-73 | success exactly for a dict with `homework_name` and a known string status, and the text is then the template with `str(name)` and the table's verdict; a dict without `homework_name` fails with PraktikumException("Задания не обнаружены") and only then; a missing status fails with NameError; an unknown string status fails with KeyError; no other PraktikumException message occurs |
| `Translate.Notice` | homework.py:71 | the notice opens with the fixed prefix, holds the name between the quotes and ends with the status's verdict, at positions fixed by the name's length |
| `Translate.ReadNotice` | homework.py:71 | any text it reads back is exactly the notice of the name and status it returns |
| `Translate.NoticeRoundTrip` | homework.py:58-71 | reading back the notice of any name and status yields that name and status, so the template loses nothing |
| `Translate.NoticeDeterminesRecord` | homework.py:58-71 | two known records give the same notice exactly when their rendered names and their statuses agree |
| `Validate.CheckResponse` | homework.py:107-118 | an accepted response is returned unchanged; it is accepted exactly when there is no `code` and `'error' in payload['error']` (if present) is False; any `code` fails; a nested `error.error` fails with PraktikumException carrying its `str()`; `code` with `message` fails with the message; `code` without `message` raises KeyError |
| `Validate.ErrorValueRaises` | homework.py:107-111 | an `error` value that is null, a boolean or a number, or a string or list containing `error`, makes the check raise TypeError (outside the `try`, so as a built-in error) |
| `Validate.CheckIdempotent` | homework.py:107-118 | a response the check accepts passes it again with the same result |
| `Backoff.DelayAfter` | homework.py:17-37 | the value of `time_sleep_error` after `n` calls of `timeout_exception` (no contract of its own; `DelayClosedForm`, `DelayBounds`, `DelayStep` and `DelayPeriod` state what it is, and `ErrorTimer.Valid` ties the timer to it) |
| `Backoff.DelayClosedForm` | homework.py:17-37 | after `n` failures the delay is 10·2^(n mod 9) |
| `Backoff.DelayBounds` | homework.py:17-37 | every delay reached lies in [10, 2560], so it is positive |
| `Backoff.DelayStep` | homework.py:35-37 | each failure doubles the delay, except every ninth, which wraps it to 10 |
| `Backoff.DelayPeriod` | homework.py:35-37 | the delay repeats with period 9 and does not return to 10 sooner |
| `Backoff.Next` | homework.py:35-37 | the stored delay is the double or 10, always below 5120, and positive when the old one was |
| `Backoff.ErrorTimer.constructor` | homework.py:17 | the global delay starts at 10 seconds |
| `Backoff.ErrorTimer.Timeout` | homework.py:28-40 | sleeps the delay held before the call, then stores its double, or 10 when the double is at least 5120; the delay stays in [10, 2560] |
| `Poll.TryBlock` | homework.py:141-151 | the `try` block as a function of cursor, fetch and delivery (no contract of its own; `StepNoticeFromFirst`, `StepAnnouncesFirst`, `StepQuietWithoutHomeworks` and `StepReport` state what it does) |
| `Poll.Step` | homework.py:140-170 | one pass, the `try` block followed by its handlers (no contract of its own; `StepSendsAtMostOne`, `StepCursor`, `StepPause` and `StepReport` state its behaviour, and `Poller.Iterate` is proved to compute it) |
| `Poll.StepSendsAtMostOne` | homework.py:140-170 | a pass attempts at most one Telegram message |
| `Poll.StepNoticeFromFirst` | homework.py:141-146 | a pass that ends normally sent a notice exactly when `homeworks` is truthy, the notice being the translation of element 0 and delivered |
| `Poll.StepAnnouncesFirst` | homework.py:142-149 | an accepted response whose `homeworks` is a non-empty list with a known first record is announced with that record's notice |
| `Poll.StepQuietWithoutHomeworks` | homework.py:142-151 | an accepted response with missing or empty `homeworks` sends nothing, is not a failure and advances the cursor |
| `Poll.StepCursor` | homework.py:141-149 | the cursor becomes `current_date` (or stays) after a normal pass and is unchanged after any failure |
| `Poll.StepPause` | homework.py:151-170 | a normal pass sleeps 300 and keeps the delay; a handled failure sleeps the old delay and advances it once; a crash sleeps nothing and changes nothing |
| `Poll.StepReport` | homework.py:153-170 | a handled error is the one the `try` block raised; a PraktikumException is reported as "Ошибка: praktikum.yandex.ru: " plus its own message; built-in errors send nothing; a Telegram error comes from the send of element 0's notice, the only message; a crash is the report of the raised PraktikumException failing to send |
| `Poll.FetchFailureReported` | homework.py:164-167 | a failed fetch is reported with its own message and the delay advances once |
| `Poll.ErrorReport` | homework.py:166 | the text reporting a PraktikumException (no contract of its own; `StepReport`, `FetchFailureReported` and `ErrorCodeScenario` state that it is the fixed prefix followed by the exception's message) |
| `Poll.Run` | homework.py:139-170 | a finite stretch of the `while True` loop, passes until the ticks run out or a crash (no contract of its own; `RunDelay` states the delay after it, and `Poller.RunPasses` is proved to compute it) |
| `Poll.RunDelay` | homework.py:139-170 | over any finite sequence of passes the delay is the delay after the number of handled failures, since nothing resets it |
| `Poll.ApprovedScenario` | homework.py:140-151 | the approved `lab1` record is announced and the cursor moves to 1000 |
| `Poll.ErrorCodeScenario` | homework.py:113-116 | a `not_authenticated` response is reported as "bad token", the pass sleeps the old delay and the delay advances once |
| `Poll.UnknownStatusScenario` | homework.py:65-69 | an `in_progress` status raises KeyError: nothing is sent and the delay advances once |
| `Poll.Poller.constructor` | homework.py:134-137 | the cursor starts at the given clock value and the timer at 10 |
| `Poll.Poller.Iterate` | homework.py:140-170 | one pass changes the cursor and the timer exactly as `Step` says and returns its messages, sleep and outcome |
| `Poll.Poller.RunPasses` | homework.py:139-170 | a finite number of passes, stopping at a crash, agree with `Run` on the cursor, the delay, the messages and the failure count |

## Left out

- The HTTP request, its headers and URL, the `.json()` decoding and the mapping of library exceptions into PraktikumException (homework.py:84-105) are foreign I/O. The fetch is an input: a decoded object, or a PraktikumException with a given message.
- A response document that decodes to something other than a JSON object (a list, a string, a number) is not modelled. The response is always a map.
- JSON numbers with a fraction or an exponent (Python floats) are not modelled.
- The Telegram bot and `send_message` (homework.py:121-131, 137) are an input: how the one send of a pass ended.
- Secret loading, logging configuration and every log call, `time.sleep` and `time.time` are left out. Sleeps are returned as values, and the initial cursor is a parameter.
- The endless `while True` and the KeyboardInterrupt exit (homework.py:139, 173-178) are replaced by one pass, or by a finite sequence of passes.
- Json.Render: `str()` of a dict nested in a message is rendered as `{...}`, because the model's objects are unordered maps. Strings inside a list are quoted with `'` without Python's escaping rules.
