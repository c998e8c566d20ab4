# homework_bot in Dafny

A model of the decision logic of a Telegram bot that polls the Yandex
Practicum homework-status API and relays status changes to one chat
(`homework.py`). It covers:

- the start-up check of the three required environment variables
  (`PRACTICUM_TOKEN`, `TELEGRAM_TOKEN`, `TELEGRAM_CHAT_ID`): `Tokens`;
- the validation of a decoded API response (`check_response`) and the
  interpretation of one homework record through the closed verdict table
  (`parse_status`, `HOMEWORK_VERDICTS`): `Homework`;
- one iteration of the `while True` loop of `main` as a state transition over
  the `timestamp` cursor and the messages handed to the chat transport, a
  finite run of iterations, and start-up: `Bot`;
- the decoded JSON values (`Json`) and the exception classes the bot raises,
  with the text each renders to (`Exceptions`).

The fetch (`get_api_answer`) and the chat send are inputs of an iteration: a
`Cycle` holds the fetch's result or error, and what the transport did with the
status notification and with the failure notification.

Behaviours of the code worth knowing, all kept by the model:

- The cursor is set from `current_date` after every iteration that raises
  nothing, including one whose homework list is empty (homework.py:160), not
  only after a delivered notification.
- Failure notifications are not deduplicated: every caught error is sent
  again (homework.py:162-166).
- `send_message` does not return a success flag: it re-raises the transport's
  exception as `TelegramError` (homework.py:65-68), so a refused status
  notification makes the iteration fail. The cursor then stays, and the
  failure notification is attempted.
- The cursor is stored exactly as `response.get('current_date', timestamp)`
  leaves it, so it is a JSON value (an integer at start-up), not necessarily
  an integer.

## Model

| member | source | states |
|---|---|---|
| Tokens.CheckTokens | homework.py:39-57 | the missing list is the names of the unset or empty variables in checking order; the check passes iff all three are set iff nothing is missing |
| Tokens.Missing | homework.py:41-48 | the names of the missing values, in the order given, never more than there are names |
| Tokens.MissingExactly | homework.py:41-48 | a (distinct) name is reported iff its own value is unset or empty |
| Tokens.MissingWithin | homework.py:41-48 | only names from the checked list are reported |
| Tokens.MissingInOrder | homework.py:41-48 | the reported names are a subsequence of the checked names, in the same order |
| Tokens.MissingEmptyIff | homework.py:50-57 | nothing is reported iff every value is set |
| Tokens.TokensReported | homework.py:41-57 | for the three real variables: each name is logged iff its value is missing, in the fixed order PRACTICUM_TOKEN, TELEGRAM_TOKEN, TELEGRAM_CHAT_ID, and the check fails iff something is logged |
| Homework.CheckResponse | homework.py:94-109 | a non-mapping is a TypeError before any key check; a mapping without `homeworks` is MissingAPIKeyError; a non-list `homeworks` is a TypeError; otherwise success, and the response is exactly its fields with `homeworks` holding the returned list |
| Homework.CheckResponseReturnsList | homework.py:99-109 | any mapping whose `homeworks` is a list (empty or not) yields that list unchanged, whatever else it holds |
| Homework.StatusMessage | homework.py:136 | the notification is the fixed prefix, an opening quote, the name, the separator `". ` and the verdict, with nothing else in between |
| Homework.ParseStatus | homework.py:112-136 | a non-mapping is APIResponseError; a missing `homework_name` is reported before a missing `status`; success iff both keys are present and the status is a string in the verdict table, with the formatted notification; any other string status is UnexpectedHomeworkStatusError naming it |
| Homework.ParseStatusOfRecord | homework.py:127-136 | a record with a name and a string status yields the table's notification for a known status and an unexpected-status error otherwise, whatever other fields it has |
| Homework.VerdictEndingsDiffer | homework.py:32-36 | the verdict table `Verdicts` (the three texts of `HOMEWORK_VERDICTS`): the three verdicts end differently, so none is a tail of another |
| Homework.StatusMessageDetermines | homework.py:130-136 | the notification determines the rendered name string and the status: two (name string, known status) pairs with the same text are equal (records whose names render alike, or that differ only in other fields, do share a text) |
| Exceptions.FailureMessage | homework.py:163 | the failure notification is the fixed prefix followed by the error's text |
| Exceptions.TextDetermines | homework.py:94-133 | `Text` gives each exception the message the code builds for it: the two TypeError messages, the missing-key messages for the response and for a record, the record-type message and the unknown-status message. The text of any error that check_response or parse_status raises determines that error, including its key or status |
| Json.Render | homework.py:136 | f-string rendering: a string as itself, `None`, `True`, `False`, an integer as `IntText` writes it |
| Json.Digits | homework.py:136 | the decimal digits of a natural number, without leading zeros, denoting that number |
| Json.IntText | homework.py:132 | Python's `str()` of an integer: a minus sign exactly for negatives, then digits denoting the absolute value, with no leading zero unless the value is 0 |
| Bot.NextCursor | homework.py:160 | `response.get('current_date', timestamp)`: the response's `current_date` when present, the old cursor otherwise, so the cursor either stays or becomes a value the response carried |
| Bot.TryBlock | homework.py:150-160 | the try block either finishes with the fetched response itself or raises, and hands at most one message, the first record's notification, to the transport before that |
| Bot.Step | homework.py:149-172 | one iteration as a state transition: the new cursor and the messages handed to the transport, at most two |
| Bot.StepOnSuccess | homework.py:150-160 | an iteration that raises nothing sets the cursor to `current_date` if present and keeps it otherwise, also for an empty list, and sends exactly the first record's notification, if any |
| Bot.StepOnFailure | homework.py:150-170 | an iteration in which any stage raises keeps the cursor and sends the failure notification for exactly the error that stage raised: the fetch error, the check_response error, the parse_status error of the first record, or the TelegramError of a refused send after the status notification |
| Bot.StatusMessageIsNoFailure | homework.py:136 | a status notification never starts with the failure prefix |
| Bot.StepReportsFailureIff | homework.py:149-170 | an iteration succeeds iff its last message (if any) is not a failure notification |
| Bot.OnlyFirstRecordMatters | homework.py:153-156 | records after the first never influence the cursor or the messages |
| Bot.ApprovedResponseAdvances | homework.py:149-160 | an approved record with `current_date` 1700000000 yields the approval notification and moves the cursor to 1700000000 |
| Bot.UnknownStatusKeepsCursor | homework.py:130-133 | an `archived` status sends the failure notification naming it and keeps the cursor, whatever becomes of that send |
| Bot.StepCursor | homework.py:153-160 | one iteration moves the cursor to its `current_date` exactly when it succeeds with one, and leaves it alone otherwise |
| Bot.Run | homework.py:147-172 | a finite run of iterations from a start cursor, at most two messages per iteration |
| Bot.RunCursorIsLastDate | homework.py:147-172 | after any number of iterations the cursor is `LastDate`: the `current_date` of the last iteration that succeeded with one, or the start value |
| Bot.LastDateWithoutDates | homework.py:147-160 | when no iteration succeeds with a `current_date`, the cursor never leaves its start value |
| Bot.LastDateIsLast | homework.py:147-160 | when iteration k succeeds with a `current_date` and no later one does, the cursor ends at iteration k's date |
| Bot.HomeworkBot.constructor | homework.py:146-147 | the cursor starts at the current time and nothing has been sent |
| Bot.HomeworkBot.Iterate | homework.py:150-170 | the loop body moves the cursor and appends to the sent messages exactly as `Step` says |
| Bot.HomeworkBot.RunCycles | homework.py:149-172 | running the loop over a list of iterations gives the state `Run` describes |
| Bot.Launch | homework.py:142-147 | the loop state is created iff all three tokens are set, with the cursor at the current time |

## Left out

- HTTP: the request, the status-code check and the JSON decoding of `get_api_answer` (homework.py:71-91). Their result is an input of an iteration, either a decoded value or an error; the error's text is carried as given.
- The chat transport (`TeleBot`, `send_message`'s call at homework.py:63). Whether a send goes through is an input; a refusal carries the transport's exception text.
- `load_dotenv`/`os.getenv`, `time.time`, `time.sleep(RETRY_PERIOD)`, logging and its configuration, and `sys.exit`: environment and I/O. `Launch` returns no bot where the process would exit.
- The infinite loop itself: `RunCycles` runs a finite list of iterations.
- Json.Render: a list or dict `homework_name` renders as `[]` or `{}`, not as Python's text of its contents.
- Floating-point JSON numbers, and the order of an object's keys, which nothing in the modelled code reads.
- `TelegramError` is imported (homework.py:15) but not defined in exceptions.py, so importing homework.py as written fails with `ImportError` (homework.py:11-17) and `main` is never reached. The model assumes a `TelegramError` defined like its sibling exception classes, carrying the message `send_message` builds (homework.py:66-68).
