# CRM core: a Dafny model

This project models the core of a small Django/GraphQL CRM and proves properties of that model. The core has two parts.

The GraphQL mutations in `crm/schema.py`:
- CreateCustomer;
- BulkCreateCustomers;
- CreateProduct;
- CreateOrder;
- the phone-number pattern they share.

The three scheduled jobs that talk to the GraphQL endpoint:
- the heartbeat (`crm/cron.py`, `log_crm_heartbeat`);
- the order-reminder script (`crm/cron_jobs/send_order_reminders.py`);
- the weekly report (`crm/tasks.py`, `generate_crm_report`).

Modules, one per file:

- `Results`: Option and Result.
- `Text`: decimal digits, `str()` of integers and zero-padded strftime fields.
- `Clock`: dates and times, the two strftime layouts the jobs use (with parsers that read them back), and "seven days ago".
- `PyJson`: the decoded JSON of a query result and the Python operations the jobs apply to it:
  - `dict.get`, iteration and `len`;
  - truthiness, `str`/`repr` and string `>=`.

  Each returns the text CPython gives the exception it raises.
- `Decimals`: `Decimal(str)` for plain decimal literals, and `f"{d:.2f}"` with ROUND_HALF_EVEN.
- `Sinks`: a text sink, an append-only list of writes. It stands for a log file opened in append mode and for the console, where `print(s)` writes `s + "\n"`.
- `Phone`: the phone regex. It is given both as a structured statement of what the pattern means (`PatternMatch`) and as a recognizer (`PhoneMatches`), and the two are proved equal.
- `Crm`: the four mutations over an in-memory store.
  - Each mutation is a function from the store before to the store after plus the result. That result is a value, or the text of the exception raised.
  - Class `Store` runs the same steps on its own fields. `FetchProducts` and the bulk loop are `while` loops proved against those functions.
  - The invariant `Valid` holds across every mutation.
- `Heartbeat`, `Reminders`, `Report`: one job each.
  - Every clock reading is its own parameter. So is the query's result: a decoded `data` object, or the message of the exception `client.execute` raised.
  - Each job is a method writing to two sinks (log and console), proved equal to a function of those parameters.
  - Each job also has lemmas about that function.

Properties proved include:
- Mutations:
  - the check order and error texts of every mutation;
  - store unchanged on error;
  - ids, emails, phones, prices, stock and order totals stay valid;
  - a bulk row sees the customers saved by the rows before it, and the rows are never rolled back.
- Phone pattern:
  - it accepts 10 to 13 digits;
  - it accepts "123-456-7890" but rejects "+1234567890". Both formats are recommended by the mutation's own error message.
- Heartbeat: the message reads back to its time and status.
- Reminders:
  - the date filter keeps exactly the orders whose orderDate string is not less than the cutoff string, each at its own position, in order;
  - the log layout of a clean run and of each failing run;
  - exit status 1 exactly when the run is not clean.
- Report:
  - revenue is independent of edge order, exact in decimals, and $0.00 with no orders;
  - the report line reads back to its time, counts and revenue;
  - every call logs exactly one line.

## Model

| member | source | states |
|---|---|---|
| Crm.FindById | crm/schema.py:171-189 | `Customer.objects.get(id=...)` and `Product.objects.get(id=...)`: a row is found exactly when some stored row has that id, and the row found is stored and has it |
| Crm.CreateCustomerStep | crm/schema.py:63-89 | rejected exactly for a bad email, a taken email, or a given phone the pattern refuses, checked in that order, each with its own message ("Invalid email format", "Email already exists", "Invalid phone format. Use formats like +1234567890 or 123-456-7890"); the store is unchanged on rejection; on success one customer is appended with the next id, the input's name and email, phone None for an empty one, and the message "Customer created successfully" |
| Crm.CustomerByIdInValid | crm/schema.py:171-173 | in a valid store the customer lookup succeeds exactly for ids 1..count |
| Crm.ProductByIdInValid | crm/schema.py:185-189 | in a valid store the product lookup succeeds exactly for ids 1..count, and finds a positive price |
| Crm.AddCustomerPreservesValid | crm/schema.py:82-87 | saving a customer that passed the checks keeps the store invariant |
| Crm.CreateCustomerPreservesValid | crm/schema.py:63-89 | CreateCustomer keeps the store invariant: ids 1..n, distinct emails, stored phones non-empty and matching the pattern |
| Crm.BulkRowShape | crm/schema.py:105-130 | one bulk row grows the customers table by at most the customer it saves, and leaves products and orders alone |
| Crm.BulkRowStep | crm/schema.py:106-130 | one row of the bulk loop against the store the earlier rows left: a rejected email gives `Row k: ` and the validator's text, a taken email `Row k: Email <email> already exists`, a given phone that does not match `Row k: Invalid phone format for <email>`, and a rejected row leaves the store as it was |
| Crm.BulkNextRow | crm/schema.py:105-130 | one more row extends the store, the saved list and the error list by that row's own outcome alone |
| Crm.BulkCreateRun | crm/schema.py:99-132 | the bulk mutation records one outcome per input row |
| Crm.OutcomesPartition | crm/schema.py:105-130 | every row lands in exactly one of `customers` or `errors` |
| Crm.BulkRowAgreesWithCreate | crm/schema.py:105-130 | a row is saved exactly when CreateCustomer on the same store would succeed, and saves the same customer |
| Crm.BulkRowsLabelled | crm/schema.py:112-130 | a saved row carries that row's name and email; every error of row k begins "Row k: " (1-based) |
| Crm.BulkNoRollback | crm/schema.py:105-132 | the final store is the initial store plus exactly the saved customers, in row order: a failing row rolls nothing back |
| Crm.BulkOnlyAdds | crm/schema.py:105-127 | the customers after any prefix of the rows are a prefix of the customers at the end |
| Crm.BulkOutcomePrefix | crm/schema.py:105-130 | row k's outcome depends only on rows 1..k: it is the row step applied to the store the earlier rows left |
| Crm.OutcomeFixedByPrefix | crm/schema.py:105-130 | the rows after row k do not change row k's outcome |
| Crm.BulkSeesEarlierSaves | crm/schema.py:111-113 | a later row repeating the email of an earlier saved row is rejected with "Row j: Email e already exists" |
| Crm.BulkPreservesValid | crm/schema.py:99-132 | the bulk mutation keeps the store invariant |
| Crm.CreateProductStep | crm/schema.py:141-159 | a price ≤ 0 is rejected first, then a negative stock, with the source's messages; an absent stock is 0; on success one product is appended with the next id; the store is unchanged on rejection |
| Crm.CreateProductPreservesValid | crm/schema.py:141-159 | CreateProduct keeps the store invariant: positive prices, non-negative stock |
| Crm.LookupProducts | crm/schema.py:183-189 | succeeds exactly when every listed id exists, yielding the products in list order; otherwise fails with "Product with ID k does not exist" for the first unknown id |
| Crm.CreateOrderStep | crm/schema.py:168-203 | an unknown customer is rejected first, then an empty product list, then the first unknown product, with LookupProducts' "Product with ID k does not exist"; on success one order is appended with the next id, the sum of the listed prices (duplicates counted), the set of product ids and the optional date; the store is unchanged on rejection |
| Crm.TotalOfPositivePrices | crm/schema.py:181-187 | a non-empty sum of positive prices is positive |
| Crm.OrderTotalPositive | crm/schema.py:176-187 | in a valid store every created order has a positive total |
| Crm.CreateOrderPreservesValid | crm/schema.py:168-203 | CreateOrder keeps the store invariant: orders reference existing customers and a non-empty set of existing products |
| Crm.RepeatedProductChargedTwice | crm/schema.py:183-201 | listing a product twice charges its price twice while the order's product set holds it once |
| Crm.LookupFailsOnce | crm/schema.py:183-189 | the lookup stops at the first unknown id: once the ids before it are known, that id's error is the result |
| Crm.Store.constructor | crm/schema.py:15-33 | the store starts empty and valid |
| Crm.Store.CreateCustomer | crm/schema.py:63-89 | the store's new contents and the result are exactly those of CreateCustomerStep |
| Crm.Store.BulkCreateCustomers | crm/schema.py:99-132 | the loop leaves the store as BulkCreateRun says, and returns its saved customers and error messages in row order |
| Crm.Store.CreateProduct | crm/schema.py:141-159 | the store's new contents and the result are exactly those of CreateProductStep |
| Crm.Store.FetchProducts | crm/schema.py:180-189 | the product loop fails exactly when LookupProducts fails, with its error, and otherwise returns its products and their total price |
| Crm.Store.CreateOrder | crm/schema.py:168-203 | the store's new contents and the result are exactly those of CreateOrderStep |
| Phone.RecognizerIsPattern | crm/schema.py:77-78 | the recognizer accepts exactly the strings the pattern `^(\+?\d{1,3}[-.\s]?)?\(?\d{3}\)?[-.\s]?\d{3}[-.\s]?\d{4}$` matches, including one trailing newline |
| Phone.MatchDigitCount | crm/schema.py:77 | every accepted phone holds 10 to 13 digits, and at least 11 when it starts with '+' |
| Phone.TenDigitsMatch | crm/schema.py:103 | ten bare digits are accepted |
| Phone.DashedExampleMatches | crm/schema.py:79 | "123-456-7890" from the error message is accepted |
| Phone.PlusExampleRejected | crm/schema.py:79 | "+1234567890" from the same message is rejected |
| Clock.SevenDaysBeforeIsSevenDaysEarlier | crm/cron_jobs/send_order_reminders.py:34 | subtracting seven days gives the calendar date exactly seven days earlier, and fails exactly for dates up to 0001-01-07 |
| Clock.SevenDaysBefore | crm/cron_jobs/send_order_reminders.py:34 | `now - timedelta(days=7)` on the calendar date, None on OverflowError; stated by SevenDaysBeforeIsSevenDaysEarlier |
| Clock.IsoStampRoundTrip | crm/tasks.py:72 | the "%Y-%m-%d %H:%M:%S" stamp reads back to the instant it was taken from |
| Clock.HeartbeatStampRoundTrip | crm/cron.py:17 | the "%d/%m/%Y-%H:%M:%S" stamp reads back to the instant it was taken from |
| PyJson.Lookup | crm/cron.py:42-43 | a key is found exactly when present; the value found is the one its last occurrence holds, as json.loads keeps the last of repeated keys |
| PyJson.FirstIndex | crm/tasks.py:57 | the position of a key's first occurrence: it holds the key, and no earlier member does |
| PyJson.DictGet | crm/tasks.py:57 | `v.get(key, default)` raises exactly on a non-dict; it gives the value of a present key and the default for an absent one |
| PyJson.Keys | crm/tasks.py:57 | a decoded dict's keys: each key present exactly once, none other, in the order of their first occurrences |
| PyJson.KeysOrderExtends | crm/tasks.py:57 | a further member keeps the first-occurrence order of the keys before it, and a new key goes after them |
| PyJson.Iterate | crm/tasks.py:65 | iterating a list visits its items and a dict its distinct keys; only lists, dicts and strings are iterable |
| PyJson.Len | crm/tasks.py:58 | `len` of a list is its length and of a dict its number of distinct keys; only lists, dicts and strings have one |
| PyJson.RepeatedKeyCountedOnce | crm/tasks.py:57-58 | a key repeated in the decoded text is one dict entry: counted once, visited once, holding its last value |
| PyJson.GreaterEq | crm/cron_jobs/send_order_reminders.py:59 | `>=` between strings is the negation of lexicographic `<`; any other left operand raises TypeError |
| PyJson.StrLessTransitive | crm/cron_jobs/send_order_reminders.py:59 | string `<` is transitive |
| PyJson.StrLessTotal | crm/cron_jobs/send_order_reminders.py:59 | of two different strings one is less than the other |
| Decimals.ParseDecimal | crm/tasks.py:69 | `Decimal(str)` for an optional sign and digits with at most one point, None for ConversionSyntax; stated by Fixed2RoundTrip, TwoPlaceAmountExact and NonNumericAmountRaises |
| Decimals.RoundHalfEven | crm/tasks.py:77 | the rounding under `:.2f`: within half a unit of the amount, exact on whole units, and an exact tie goes to the even neighbour |
| Decimals.Fixed2RoundTrip | crm/tasks.py:77 | `:.2f` of an amount of whole cents reads back as the same Decimal |
| Heartbeat.HeartbeatMessage | crm/cron.py:17-20 | the message begins with the DD/MM/YYYY-HH:MM:SS stamp followed by " CRM is alive" |
| Heartbeat.HeartbeatRoundTrip | crm/cron.py:17-48 | the message reads back to the time it was stamped with and to the query outcome it reports: hello's value, no hello field, or the exception text |
| Heartbeat.StatusOf | crm/cron.py:40-48 | which of the three cases the query outcome falls in: hello's value as str, no hello field, or the exception's text |
| Heartbeat.Suffix | crm/cron.py:42-48 | the text each case appends to the message; read back by SuffixRoundTrip |
| Heartbeat.HeartbeatCases | crm/cron.py:42-48 | each of the three query outcomes appends its documented suffix |
| Heartbeat.LogHeartbeat | crm/cron.py:10-55 | appends the message plus newline to the log in one write, prints the same to the console, and never propagates a query failure |
| Reminders.Cutoff | crm/cron_jobs/send_order_reminders.py:34 | the cutoff exists exactly when the date is later than 0001-01-07; it is the YYYY-MM-DD text of the day exactly seven days before |
| Reminders.RecentOrders | crm/cron_jobs/send_order_reminders.py:54-60 | the filter succeeds exactly when no order's comparison raises; the kept list is the orders at the ascending positions whose comparison holds, one entry per such position (a repeated order stays repeated); otherwise it reports the first order's exception |
| Reminders.Retained | crm/cron_jobs/send_order_reminders.py:58-59 | `order.get('orderDate', '') >= seven_days_ago` for one order, raising on a non-dict or a non-str date; stated by RetainedIff and CutoffDayRetained |
| Reminders.RetainedIff | crm/cron_jobs/send_order_reminders.py:58-59 | an order is kept exactly when it is a dict with an orderDate string not below the cutoff; a dict without orderDate is dropped |
| Reminders.CutoffDayRetained | crm/cron_jobs/send_order_reminders.py:59 | the bound is inclusive: an order dated on the cutoff day, at any time of day, is kept |
| Reminders.SelectRecent | crm/cron_jobs/send_order_reminders.py:55-60 | the filtering loop computes RecentOrders |
| Reminders.Filter | crm/cron_jobs/send_order_reminders.py:55-60 | the result is the elements at the ascending positions whose verdict is true, one entry per position, or the first verdict that is an exception |
| Reminders.FilterMembers | crm/cron_jobs/send_order_reminders.py:57-60 | every kept element passed the test at some position, and every element that passed is kept |
| Reminders.FilterPassing | crm/cron_jobs/send_order_reminders.py:57-60 | one more element that passes is appended to what was kept, even when it is already there |
| Reminders.KeptExtend | crm/cron_jobs/send_order_reminders.py:57-60 | one more iteration of the loop extends the kept positions by the new one exactly when its verdict is true |
| Reminders.FilterFailsOnce | crm/cron_jobs/send_order_reminders.py:57-60 | the filter raises the exception of the first order whose comparison raises |
| Reminders.ReminderLine | crm/cron_jobs/send_order_reminders.py:71-75 | the log entry of one kept order; stated by ReminderLineOk, EmptyOrderRendersNA and CustomerWithoutEmailRendersNA |
| Reminders.ReminderLineOk | crm/cron_jobs/send_order_reminders.py:71-75 | an order's line renders exactly when the order is a dict whose customer, if present, is a dict |
| Reminders.EmptyOrderRendersNA | crm/cron_jobs/send_order_reminders.py:71-75 | missing id, customer and date each render as N/A |
| Reminders.CustomerWithoutEmailRendersNA | crm/cron_jobs/send_order_reminders.py:72 | a customer without an email renders as N/A, like a missing customer |
| Reminders.LineResults | crm/cron_jobs/send_order_reminders.py:70-75 | one rendering per kept order, in order |
| Reminders.RenderLinesSpec | crm/cron_jobs/send_order_reminders.py:70-76 | the i-th line written is the i-th rendering; writing stops at the first rendering that raises and reports its exception |
| Reminders.RenderLinesClean | crm/cron_jobs/send_order_reminders.py:70-76 | every line is written exactly when every rendering succeeds |
| Reminders.RenderFailsOnce | crm/cron_jobs/send_order_reminders.py:70-76 | once the earlier lines are written, the first rendering that raises ends the writes with its exception |
| Reminders.ReminderRun | crm/cron_jobs/send_order_reminders.py:22-89 | the whole job's log writes, console writes and exit status for given clock readings and query outcome; SendOrderReminders is proved against it |
| Reminders.RunFrom | crm/cron_jobs/send_order_reminders.py:34-89 | the job once the cutoff is computed: nothing written and status 1 on overflow, otherwise the query, the filter and Process; stated by RunsCleanIff, CleanRunIs, QueryFailureRunIs, LineFailureRunIs and FailedRunLog |
| Reminders.Process | crm/cron_jobs/send_order_reminders.py:65-89 | the with block for the kept orders: header, separator and lines, then the error line or the closing line; ProcessRecent and Conclude are proved against it |
| Reminders.RunsCleanIff | crm/cron_jobs/send_order_reminders.py:34-82 | a run returns normally exactly when the cutoff exists, the query and filter do not raise, and every kept order renders |
| Reminders.ReminderRunStatus | crm/cron_jobs/send_order_reminders.py:82-89 | the exit status is 0 exactly for a clean run and 1 otherwise |
| Reminders.CleanRunIs | crm/cron_jobs/send_order_reminders.py:63-82 | a clean run writes the header, the separator, the kept orders' lines and the closing line, and prints "Order reminders processed!" |
| Reminders.CleanRunLog | crm/cron_jobs/send_order_reminders.py:63-82 | a clean run appends exactly as many entries as kept orders plus 3: the bracketed header, fifty '=', each kept order's line at its position, then "Total reminders: n" or the none-found sentinel |
| Reminders.QueryFailureRunIs | crm/cron_jobs/send_order_reminders.py:49-89 | an exception in the query or the filter appends only the error line, prints the error and exits 1 |
| Reminders.LineFailureRunIs | crm/cron_jobs/send_order_reminders.py:65-89 | an exception while writing an order's line keeps the header, the separator and the lines already written, then appends the error line |
| Reminders.FailedRunLog | crm/cron_jobs/send_order_reminders.py:34-89 | a failing run before the try writes nothing; any other failing run ends the log with "[stamp] ERROR: ..." and prints one "Error processing order reminders: ..." |
| Reminders.ErrorTextsStart | crm/cron_jobs/send_order_reminders.py:87-88 | the error line and the console error begin with their fixed prefixes |
| Reminders.SendOrderReminders | crm/cron_jobs/send_order_reminders.py:22-89 | the job's log writes, console writes and exit status are exactly those of ReminderRun |
| Reminders.RunWithCutoff | crm/cron_jobs/send_order_reminders.py:34-89 | once the cutoff is known (or known to have overflowed), the job's writes and exit status are exactly those of RunFrom |
| Reminders.Conclude | crm/cron_jobs/send_order_reminders.py:78-89 | after the order lines, a rendering failure appends the error line and prints the error with status 1; otherwise the closing line and the success message with status 0 |
| Reminders.QueryRecent | crm/cron_jobs/send_order_reminders.py:51-60 | the query and filter step computes Recent |
| Reminders.ProcessRecent | crm/cron_jobs/send_order_reminders.py:65-89 | the with block and its handler write exactly what Process says for the kept orders |
| Reminders.WriteLines | crm/cron_jobs/send_order_reminders.py:66-76 | writes the header, the separator and the rendered lines, and reports the first rendering failure |
| Report.Sum | crm/tasks.py:64-69 | the running sum succeeds exactly when no amount raised; otherwise it fails with the first raised error |
| Report.SumConcat | crm/tasks.py:64-69 | the sum of two runs laid end to end succeeds exactly when both do, and is the sum of their sums |
| Report.SumOrderFree | crm/tasks.py:64-69 | a sum of exact decimals does not depend on the order of its amounts |
| Report.RevenueOrderFree | crm/tasks.py:64-69 | the revenue does not depend on the order of the order edges |
| Report.SumFailsOnce | crm/tasks.py:65-69 | the revenue loop raises the error of the first edge that raises |
| Report.SumRevenue | crm/tasks.py:64-69 | the revenue loop computes Revenue |
| Report.Amount | crm/tasks.py:66-69 | one order edge's contribution: `node.get('totalAmount', '0')`, 0 when falsy, else `Decimal(str(amount))`; raising on a non-dict, and with ConversionSyntax when `str(amount)` is not a decimal; stated by AmountMissingOrFalsyIsZero, AmountWithoutNodeIsZero, AmountOfNonDictRaises, AmountOfNonDictNodeRaises, NonNumericAmountRaises and TwoPlaceAmountExact |
| Report.AmountMissingOrFalsyIsZero | crm/tasks.py:67-68 | a node without totalAmount reads the default `'0'` and adds zero, and a falsy totalAmount is skipped |
| Report.AmountWithoutNodeIsZero | crm/tasks.py:66-67 | an edge without a node reads the default `{}` and adds zero |
| Report.AmountOfNonDictRaises | crm/tasks.py:66 | an edge that is not a dict raises AttributeError for `get` |
| Report.AmountOfNonDictNodeRaises | crm/tasks.py:67 | a node that is not a dict raises AttributeError for `get` |
| Report.ZeroLiteral | crm/tasks.py:67 | `Decimal('0')` is zero |
| Report.Gather | crm/tasks.py:54-69 | the query outcome to the two counts and the revenue, or the first exception; stated by GatherWellFormed and EmptyResultGathersZeros |
| Report.GatherWellFormed | crm/tasks.py:57-69 | on a result with both edge lists, the counts are the numbers of edges, and the task succeeds exactly when every order edge yields an amount |
| Report.EmptyResultGathersZeros | crm/tasks.py:57-69 | a result without either connection counts 0 customers, 0 orders and 0 revenue |
| Report.NonNumericAmountRaises | crm/tasks.py:67-69 | a non-numeric totalAmount makes the task raise decimal's ConversionSyntax |
| Report.DecimalSumExact | crm/tasks.py:64-77 | 10.10 and 0.90 sum to exactly 11, rendered as 11.00 |
| Report.TwoPlaceAmountExact | crm/tasks.py:67-69 | an amount written with two decimal places is read exactly |
| Report.OneLinePerCall | crm/tasks.py:81-95 | every call appends exactly one log line and prints one console line; it returns the logged report message on success or re-raises the error whose line it logged |
| Report.ReportRoundTrip | crm/tasks.py:72-78 | the report message reads back to its time, both counts and, for whole cents, the revenue |
| Report.NoOrdersReportZeroRevenue | crm/tasks.py:64-77 | with no orders the message says "0 orders, $0.00 revenue." |
| Report.CrmReport | crm/tasks.py:14-95 | the whole task's log and console writes and its outcome for given clock readings and query outcome; GenerateCrmReport is proved against it |
| Report.Finish | crm/tasks.py:71-95 | the report line and message on success, the error line, message and re-raise otherwise; stated by OneLinePerCall and ReportRoundTrip |
| Report.GenerateCrmReport | crm/tasks.py:14-95 | the task's log writes, console writes and outcome are exactly those of CrmReport |
| Report.GatherStats | crm/tasks.py:54-69 | the statistics step computes Gather |
| Sinks.TextSink.Write | crm/cron.py:51-52 | an append-mode write adds its text after everything written before |
| Sinks.TextSink.Print | crm/cron.py:55 | print adds its text followed by a newline |

## Left out

- The GraphQL transport, the HTTP endpoint and the ORM are not modelled. A query's result or exception is a parameter. The Store class stands for the three tables.
- The clock is a parameter, one per `datetime.now()` call.
- File opening and writing errors are left out.
- Django's EmailValidator is a parameter: an acceptance predicate plus its error text. Its rules are not modelled.
- Exceptions from `save()` are not modelled. That covers model field constraints such as max_length, `unique` email and database errors.
- The `order_date` default of the Order model is not modelled: an absent date stays None.
- Phone.RecognizerIsPattern: `\d` is the ten ASCII digits, and `\s` is the ASCII whitespace that `str.isspace` accepts (space, \t, \n, \r, \x0b, \x0c and the separators \x1c-\x1f). Python's `\s` and `\d` on a `str` also match non-ASCII characters such as U+0085, U+00A0 and other Unicode digits. The recognizer refuses those.
- Graphene's conversion of ID arguments is not modelled. IDs are already natural numbers, so non-numeric ID strings are left out.
- Decimal rounding to the 28-digit context precision is not modelled. Sums are exact. DecimalField quantisation on save is also not modelled.
- `Decimal(str)` accepts only an optional sign and digits with at most one point. Exponents, surrounding whitespace, underscores, and Infinity/NaN are left out.
- JSON floats are left out: numbers are integers. `repr` of strings does not escape quotes or control characters.
- `%Y` is rendered with four digits. Years below 1000 differ on some platforms.
- Concurrency between mutations and jobs is not modelled.
- Celery scheduling, the cron wiring and the GraphQL type and query classes are not modelled.
- In the reminder script, building the client (lines 26-31) is not modelled. It happens outside the `try`. Only the OverflowError of "seven days ago" is modelled among the failures before the `try`.
- Report.ReportRoundTrip: reads the revenue back only for amounts of whole cents. A Decimal with more places is rounded by `:.2f`, and the rounding is not inverted.
- Reminders.FailedRunLog: gives the prefixes of the error texts, not their full contents. QueryFailureRunIs and LineFailureRunIs state those contents.
