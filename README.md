# Timed purchase pipeline of scrappex, in Dafny

This project models the decision logic of scrappex's timed purchase pipeline and
the in-memory registry that tracks each scheduled request.

- `function.py`: a batch logs in once and gets the anti-forgery token from the CSRF cookie. It then starts one task per lot. Each task is meant to sleep until 100 ms before its own target instant and fire a burst of five purchase POSTs. Every reply or exception becomes an attempt record `{success, response_text, duration_ms}`. The task keeps the first record, in launch order, whose text parses as JSON. The batch is meant to join the tasks in lot order. As written, each task receives the whole list of times and raises before sleeping, so the batch returns [] (see "## Findings").
- `main.py`: a dictionary from request id to record. Scheduling inserts a `pending` record. The background run marks it `completed` with the batch results or `error` with a message. The status endpoint returns the stored record or `not_found`.

The network enters the model as inputs:

- `respond(p, k)` is what the k-th purchase POST with payload `p` produced: a status and body, or an exception text. Either way it carries the elapsed milliseconds.
- `isJson` stands for `json.loads` succeeding.
- The login exchange is given as a value: the page outcome, the presence of the cookie and the token, and, for each credentials form that could be posted, the reply body and final URL or the exception.
- Times are whole milliseconds left until the target.

`function.py`'s selection keeps the first JSON text and ignores the `success` flag. The model does the same.

Files:

- `wrappers.dfy`: `Option` and `Result`.
- `text.dfy`: ASCII lower-casing, substring search and decimal rendering.
- `purchase.dfy`: `function.py`.
- `registry.dfy`: `main.py`.

## Model

| member | source | states |
|---|---|---|
| `Text.ContainsIff` | function.py:133 | the substring test `needle in text` holds exactly when the needle occurs at some position of the text |
| `Text.DecimalRoundTrip` | main.py:60 | the decimal rendering of a count reads back as that count |
| `Text.DecimalStringUnique` | main.py:60 | a digit string without a leading zero whose value is n is exactly the rendering of n |
| `Purchase.RunAttempt` | function.py:122-147 | a reply is marked successful iff its status is 200 and its lower-cased body contains "success"; an exception never escapes and gives a failed record carrying the exception text; the record keeps the text and the duration |
| `Purchase.Burst` | function.py:149-153 | a burst yields exactly `attempts` records, one per attempt in launch order, each the classification of that attempt's outcome |
| `Purchase.FirstJsonIndex` | function.py:154-161 | the selected position is the least one whose text is JSON, or the list length when none is |
| `Purchase.FirstJson` | function.py:154-163 | selection is None iff no record's text is JSON; otherwise it is the earliest record in list order whose text is JSON, whatever its `success` flag |
| `Purchase.SelectFirstJson` | function.py:154-163 | the loop with early return computes exactly that selection |
| `Purchase.SelectionDependsOnlyOnText` | function.py:154-161 | two record lists with the same texts select the same position, so the `success` flag plays no part |
| `Purchase.ConcurrentPurchase` | function.py:111-163 | the burst's selection is None iff no attempt's reply body or exception text is JSON; otherwise it is the record of the earliest attempt whose text is JSON |
| `Purchase.WaitMs` | function.py:174 | the wait is never negative; it ends no earlier than 100 ms before the target; it is 0 when 100 ms or less remain and exactly `remaining - 100` otherwise |
| `Purchase.SynchronizedPurchase` | function.py:165-190 | as written: a list of times makes the wait raise; otherwise the task returns iff some attempt's text is JSON, and a returned lot always has `success` true and carries the burst's selected record and its duration; otherwise it raises on the None selection |
| `Purchase.SynchronizedPurchaseFixed` | function.py:182-187 | corrected lot result: carries the lot id and the selected record; `success` iff some attempt's text is JSON; the duration is present iff a record was selected |
| `Purchase.FixedLotAgreesWhenSelected` | function.py:182-187 | where the written lot task returns, the corrected one returns the same result; where it raises, the corrected one reports a failed lot without a duration |
| `Purchase.LotWithoutJsonReply` | function.py:184-185 | a burst whose attempts all time out makes the written task raise, while the corrected task reports `success` false |
| `Purchase.LoginRejectedIff` | function.py:97 | login is judged rejected iff the lower-cased reply body contains "error" or the final URL contains "login" |
| `Purchase.UnredirectedLoginIsRejected` | function.py:95-98 | a credentials POST whose final URL still ends in "login" is judged rejected |
| `Purchase.Login` | function.py:51-109 | login posts the cookie's value, the login token and the given login name and password; it succeeds iff the page fetch and that POST do not raise, the cookie and the token are present, and the reply is not judged rejected; its token is the cookie's value; a raised fetch or POST fails with the exception's text, and each other failure with its own message |
| `Purchase.GatherTasks` | function.py:220-225 | joining the lot tasks gives one result per task in task order, or [] as soon as any task raised |
| `Purchase.TimedPurchaseBatchAsWritten` | function.py:192-230 | as written, the batch returns [] for every input and sends no purchase POST: on a failed login, and otherwise because every lot task raises on the list of times before its burst |
| `Purchase.TimedPurchaseBatch` | function.py:199-221 | corrected batch: when login fails, [] and no purchase POST sent; otherwise one result per lot, in the order of `lots`, each carrying its lot id and computed with that lot's own time, and lot j's burst is five POSTs of the session token, lot j and, as buyer code, the same password the login posted (line 179 with line 200) |
| `Purchase.BatchFindingWitness` | function.py:213-225 | on a successful login with one lot whose replies are JSON, the written batch returns [] and the corrected batch reports that lot as won |
| `Registry.ScheduledMessage` | main.py:60 | the confirmation message is a digit string without a leading zero whose value is the lot count (so, by `Text.DecimalStringUnique`, its decimal rendering) followed by " lots schedulés pour achat" |
| `Registry.PurchaseRegistry.constructor` | main.py:23 | the registry starts empty |
| `Registry.PurchaseRegistry.Schedule` | main.py:36-61 | a fresh id gets a pending record with the given lots and times and no results or error; no other record changes; the reply is "success" with the id and the message |
| `Registry.PurchaseRegistry.Lookup` | main.py:70-80 | an unknown id answers "not_found" with its message; a known id answers exactly the stored record; the registry is not changed; a pending record has no results and no error, a completed one has results, a failed one an error |
| `Registry.PurchaseRegistry.PerformPurchases` | main.py:82-111 | a returned batch marks the record completed with those results; a raised one marks it as an error with the message; lots, times and the other field stay; no other record changes |
| `Registry.ScheduleThenComplete` | main.py:41-99 | after scheduling, the lookup sees the pending record; after a completed run, it sees the same lots and times with the results; the registry stays consistent |

## Left out

- The aiohttp session, connector, timeouts and headers (function.py:19-49), and closing the session (function.py:226-228). These are library configuration with no decision logic.
- All HTTP traffic. Purchase replies come from `respond`. The login exchange is a value.
- HTML parsing of the login token and the cookie lookup (function.py:51-65). The model only records whether each is present.
- JSON parsing. `isJson` stands for `json.loads` accepting a text.
- Errors of `json.loads` other than `JSONDecodeError` (function.py:160 catches only that one). A `RecursionError` on deeply nested text, or the `ValueError` Python 3.11+ raises for an integer literal over the digit limit, escapes the selection loop and makes the lot task raise. `isJson` has only two outcomes, so the model does not capture that path.
- asyncio concurrency. `gather` is an order-preserving sequential join, and the model never sleeps. `WaitMs` computes the sleep length, and the clock is an input: the milliseconds left until the target.
- Floating-point seconds and milliseconds. All durations are whole milliseconds.
- `Purchase.RunAttempt` and `Purchase.LoginRejectedIff` lower-case only ASCII letters. Python's `str.lower()` also folds other scripts.
- `Purchase.LotPayload` keeps the lot id as an integer rather than as the text `str(lot)`.
- `respond` depends only on the payload and the attempt number. Two lots with the same id in one batch therefore receive the same replies.
- `Purchase.TimedPurchaseBatch` requires as many purchase times as lots. This is the pairing the corrected call relies on. The written batch has no such requirement.
- Logging, `print`, and the login timing metrics and total time returned by `login_to_website`.
- FastAPI routing, pydantic models, `BackgroundTasks`, `dotenv` and `uuid4`. The request id is a parameter and must be fresh.
- The `except` branch of `schedule_purchases` (main.py:62-68). Nothing inside its `try` raises in this model.
- `Registry.PurchaseRegistry.PerformPurchases` takes how the batch call ended as input. The modelled batch never raises, so a raised run stands for failures outside the model. It requires the id to be registered: in the source an unknown id raises `KeyError` out of the background task, and scheduling always comes first. Because the results are an input rather than `Purchase.TimedPurchaseBatchAsWritten` run on the record's lots and times, the model does not derive that, with the code as written, every completed record holds []. The logging loop over the results is left out.

## Findings

| source | as written | input that shows it | evidently intended | confidence | as-written member | corrected member |
|---|---|---|---|---|---|---|
| function.py:216 | each lot task receives the whole `purchase_times` list, so the subtraction at line 174 raises and the `except` turns the batch into [] | a successful login with lots [7] and any replies | the i-th lot receives `purchase_times[i]` | high, not executed | `Purchase.TimedPurchaseBatchAsWritten` | `Purchase.TimedPurchaseBatch` |
| function.py:184-185 | `duration_ms` is read from the selection before it is tested against None, so a burst without a JSON text raises instead of yielding `success` false | a burst whose five attempts all time out | a failed lot result with no duration | high, not executed | `Purchase.SynchronizedPurchase` | `Purchase.SynchronizedPurchaseFixed` |
