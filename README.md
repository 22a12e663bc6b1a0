# Expense tracker: record handlers and expense form, in Dafny

This project models the core of a personal expense tracker. That core is:

- four serverless handlers over one table of expense records keyed by `id`: create, update, delete and list;
- the client's expense form.

The table is a map from id to item. Each item maps attribute names to typed values: `S` for a string, `N` for a number written as a string. The three state-changing handlers are methods of `ExpenseService.ExpenseTable`, the class that owns that map. Each method's postcondition gives the response and the new map for every path: malformed body, `null` body, missing id, invalid payload, store failure and success. The new map is stated as a function of the old one (`PutItem`, `UpdateItem`, `DeleteItem` in module `Dynamo`). The list handler is a pure function over the scanned items. The form is a class with six string fields, its change handlers, and a submit handler that emits the payload and clears the form.

Modules:

- `Js` (js.dfy): parsed JSON values, property access, `String.prototype.trim` with the ECMAScript whitespace set, and the runtime conversions.
- `Dynamo` (dynamo.dfy): items and tables, and the put, update-with-SET, delete and scan requests.
- `Lambda` (lambda.dfy): the event, the response, and the error a handler throws.
- `AddExpense`, `UpdateExpense`, `GetExpenses`: the pure parts of the three handlers.
- `ExpenseService`: the table class and its handler methods.
- `Lifecycle`: what a listing shows after each write, and how the two validators relate.
- `ExpenseForm`: the client form.

Three conversions are not defined bit for bit, because they depend on IEEE doubles and the JSON grammar: `JSON.parse`, `Number(x)` with `Number.isFinite`, and `Number#toString`. They are fields of a `Runtime` datatype (`parse`, `toFinite`, `render`), and every result holds for every choice of them. Two facts about them are fixed in the model: `JSON.parse("{}")` is the empty object, and `Number(undefined)` is NaN. The id from `uuidv4()` is the parameter `newId`. Whether the store call fails is the parameter `storeFailure`, which carries the error message.

A reader might expect the two validators to agree, the listed amount to be a number, a missing attribute to be listed as a marker, and every failure to be answered with an error response. The code does otherwise, and the model follows the code:

- The create validator requires amount, category and date only. The update validator requires all six fields. Both are kept as written, and `Lifecycle.ValidatorsDiffer` exhibits a payload that create accepts and update rejects.
- The list returns `amount` as the stored `N` string. It does not convert it to a number.
- An item that lacks `id`, `amount`, `category` or `date` makes the list handler throw (a property of `undefined` is read). It does not yield a "missing" marker.
- Some failures are not caught. Create throws on a malformed JSON body and on a failed put. List throws on a failed scan. Create and update both throw on a JSON `null` body, because they read a property of `null`.

## Model

| member | source | states |
|---|---|---|
| `Js.Property` | backend/updateExpense.js:18-23 | `v.key` on a non-null value is defined exactly when `v` is an object with that key, and is then its value |
| `Js.TrimStartSpec` | backend/updateExpense.js:18-22 | `trimStart` drops exactly the longest whitespace prefix |
| `Js.TrimEndSpec` | backend/updateExpense.js:18-22 | `trimEnd` drops exactly the longest whitespace suffix |
| `Js.Trim` | backend/updateExpense.js:18-22 | `trim` never lengthens a string, and its result neither starts nor ends with whitespace |
| `Js.TrimSlice` | backend/updateExpense.js:18-22 | the part `trim` keeps is the slice that starts where the whitespace prefix ends |
| `Js.TrimMargins` | backend/updateExpense.js:18-22 | what `trim` drops on either side of the kept slice is whitespace only |
| `Js.TrimSpec` | backend/updateExpense.js:18-22 | `trim` keeps a contiguous middle part that neither starts nor ends with whitespace, and drops only whitespace around it |
| `Js.TrimEmptyIffBlank` | backend/addExpense.js:26 | `s.trim() === ""` holds exactly when `s` is all whitespace |
| `Js.TrimIdempotent` | frontend/src/components/ExpenseForm.js:14 | trimming twice is trimming once |
| `Js.TrimmedString` | backend/updateExpense.js:18-22 | `typeof v === "string" ? v.trim() : ""` is non-empty exactly when `v` is a string that is not all whitespace, and is then that string trimmed; any other value, `undefined` included, reads as `""` |
| `AddExpense.OptionalField` | backend/addExpense.js:26-36 | an optional field is kept exactly when it is a non-blank string, and is then the trimmed, non-empty string |
| `AddExpense.CreatePayloadValid` | backend/addExpense.js:11-15 | a valid create body is an object carrying an `amount` and string `category` and `date`; a missing amount is rejected because `Js.FiniteNumber` reads `Number(undefined)` as NaN |
| `AddExpense.ValidateCreate` | backend/addExpense.js:11-17 | accepts exactly a finite amount with non-blank string category and date; yields the number, the trimmed strings and the optional fields |
| `AddExpense.NewItem` | backend/addExpense.js:19-36 | the item is keyed by the generated id and listable; it holds the amount's `N` string and the trimmed strings; `name`/`method`/`status` are present iff given; no other attribute exists |
| `AddExpense.CreatedItemSpec` | backend/addExpense.js:19-36 | the stored item, stated against the raw body: id from the generator, rendered amount, trimmed category/date, each optional attribute present iff the body field is a non-blank string, then trimmed |
| `AddExpense.CreateIgnoresPayloadId` | backend/addExpense.js:20 | an `id` in the body does not change the validated payload, so the item's id is always the generated one |
| `UpdateExpense.UpdatePayloadValid` | backend/updateExpense.js:18-32 | a valid update body is an object carrying an `amount` and string `name`, `category`, `date`, `method` and `status`; a missing amount is rejected because `Js.FiniteNumber` reads `Number(undefined)` as NaN |
| `UpdateExpense.ValidateUpdate` | backend/updateExpense.js:18-34 | accepts exactly the bodies whose name, category, date, method and status are non-blank strings and whose amount is finite; yields the trimmed values |
| `UpdateExpense.SetValues` | backend/updateExpense.js:39-56 | the SET clause writes exactly the six attributes: five `S` strings and the amount's `N` string |
| `UpdateExpense.UpdateWriteSpec` | backend/updateExpense.js:36-60 | one write sets all six attributes on the item at `id`, creating it (with its `id` attribute) if absent; its other attributes and all other items are unchanged; well-formedness is kept |
| `Dynamo.PutItem` | backend/addExpense.js:38-43 | a put adds or replaces only the item at its key |
| `Dynamo.UpdateItem` | backend/updateExpense.js:36-60 | an unconditional SET overwrites the given attributes, keeps the others, and creates an absent item from its key |
| `Dynamo.DeleteItem` | backend/deleteExpense.js:13-19 | an unconditional delete removes exactly the key and keeps every other item |
| `Dynamo.Scan` | backend/getExpenses.js:8 | a scan page yields, in its order, the item stored under each key it visits |
| `Dynamo.ScanPageBounded` | backend/getExpenses.js:8 | one scan page visits no more keys than the table holds |
| `Dynamo.ScanOrderCoversTable` | backend/getExpenses.js:8 | a scan page that reaches every key returns exactly as many items as the table holds |
| `Dynamo.DeleteKeepsWellFormed` | backend/deleteExpense.js:13-19 | a delete keeps every remaining item listable and keyed by its own id |
| `Dynamo.DeleteIdempotent` | backend/deleteExpense.js:13-20 | deleting the same key twice leaves the same table as deleting it once |
| `Dynamo.DeleteAbsent` | backend/deleteExpense.js:18-20 | deleting an absent key leaves the table unchanged |
| `Dynamo.PutFreshAddsOne` | backend/addExpense.js:38-43 | a put under an unused id adds exactly one item |
| `GetExpenses.Project` | backend/getExpenses.js:11-16 | each of `id`/`amount`/`category`/`date` is defined exactly when the stored attribute has the type read (`S`, `N`, `S`, `S`); a listable item gives its four stored strings |
| `GetExpenses.ProjectAll` | backend/getExpenses.js:11-16 | the `.map` succeeds exactly when every item has the four read attributes; it then preserves length and order and projects each item |
| `GetExpenses.ListExpenses` | backend/getExpenses.js:7-19 | the handler answers only 200 with an expense list, and only after a successful scan; a throw after a successful scan is a TypeError |
| `GetExpenses.ListScanFailure` | backend/getExpenses.js:8 | a failed scan is not caught: the handler throws the store's error |
| `GetExpenses.ListExpensesSpec` | backend/getExpenses.js:7-19 | the handler throws a TypeError exactly when an item lacks `id`/`amount`/`category`/`date`; otherwise it answers 200 with, per item in order, its `S` strings and its amount's `N` string, and nothing else |
| `GetExpenses.ListListable` | backend/getExpenses.js:11-16 | on items with `S` id/category/date and `N` amount, every entry is fully defined, with the amount string unconverted |
| `GetExpenses.ListPage` | backend/getExpenses.js:8-19 | the handler lists the single page it reads: on a well-formed table it never throws and lists exactly the visited keys in page order, possibly fewer than the table holds |
| `GetExpenses.ListWellFormed` | backend/getExpenses.js:8-19 | for a page that reaches every key of a well-formed table, the listing never throws and lists every key once, in scan order |
| `ExpenseService.ExpenseTable.AddExpense` | backend/addExpense.js:8-46 | a malformed body or `null` throws; a finite amount and non-blank category/date are required (400 "Invalid expense payload"); a failed put throws; on success the table gains the new item under the generated id, all else unchanged, with answer 200 "Expense added!"; a well-formed table stays well-formed |
| `ExpenseService.ExpenseTable.PutExpense` | backend/addExpense.js:19-45 | builds the item by adding each optional attribute only when present, then puts it or throws the store error; a well-formed table stays well-formed |
| `ExpenseService.ExpenseTable.UpdateExpense` | backend/updateExpense.js:5-69 | a missing id gives a 400 before the body is read; a malformed body gives a 400 "Invalid JSON payload"; `null` throws; an invalid payload gives a 400 with no write; a store failure gives a 500 "Update failed" with the error; success SETs the six attributes in one upsert, with answer 200 `Expense ${id} updated`; a well-formed table stays well-formed |
| `ExpenseService.ExpenseTable.DeleteExpense` | backend/deleteExpense.js:5-28 | a missing id gives a 400 with no store call; a store failure gives a 500 "Delete failed" with the error, table unchanged; otherwise the key is removed unconditionally, with answer 200 `Expense ${id} deleted`; a well-formed table stays well-formed |
| `AddExpense.CreateKeepsWellFormed` | backend/addExpense.js:19-43 | a create keeps every item listable and keyed by its own id |
| `Lifecycle.CreateThenList` | backend/addExpense.js:19-24 | after a create, a scan page that reaches every key of the new table lists the new id with the rendered amount and the trimmed category and date |
| `Lifecycle.UpdateThenList` | backend/updateExpense.js:36-60 | after an update, a scan page that reaches every key of the new table lists `id` with all the new values, never a mix with the old ones, whether or not it existed |
| `Lifecycle.DeleteThenList` | backend/deleteExpense.js:13-20 | after a delete, no listed entry has the id; a scan page that reaches every key of the new table still lists every other key |
| `Lifecycle.UpdateValidImpliesCreateValid` | backend/updateExpense.js:25-32 | every payload update accepts is also accepted by create |
| `Lifecycle.ValidatorsDiffer` | backend/addExpense.js:15 | a body with only amount, category and date passes create validation and fails update validation |
| `Lifecycle.UpdateWithoutBodyInvalid` | backend/updateExpense.js:11-34 | an update without a body is parsed by `Js.ParseBody` as `{}` (`event.body ?? "{}"`), and `{}` is rejected as an invalid payload |
| `ExpenseForm.Selectable` | frontend/src/components/ExpenseForm.js:70-82 | the selectable values are exactly those of the enabled options |
| `ExpenseForm.SelectableStatuses` | frontend/src/components/ExpenseForm.js:76-81 | the selectable statuses are exactly Pending, Cleared and Scheduled; the empty placeholder is not selectable |
| `ExpenseForm.Form.constructor` | frontend/src/components/ExpenseForm.js:4-9 | all six fields start empty |
| `ExpenseForm.Form.SetName` | frontend/src/components/ExpenseForm.js:35 | changes the name field only |
| `ExpenseForm.Form.SetAmount` | frontend/src/components/ExpenseForm.js:43 | changes the amount field only |
| `ExpenseForm.Form.SetCategory` | frontend/src/components/ExpenseForm.js:51 | changes the category field only |
| `ExpenseForm.Form.SetDate` | frontend/src/components/ExpenseForm.js:59 | changes the date field only |
| `ExpenseForm.Form.SetPaymentMethod` | frontend/src/components/ExpenseForm.js:67 | changes the method field only |
| `ExpenseForm.Form.SelectStatus` | frontend/src/components/ExpenseForm.js:70-82 | picking an enabled option sets status to a selectable value; the placeholder changes nothing; the other fields are unchanged |
| `ExpenseForm.Form.HandleSubmit` | frontend/src/components/ExpenseForm.js:11-27 | emits one payload from the pre-submit fields (name and method trimmed, amount converted, the rest verbatim), then clears all six fields |
| `ExpenseForm.Form.Submit` | frontend/src/components/ExpenseForm.js:30-88 | with a `required` field empty, nothing is emitted and nothing changes; otherwise exactly the `HandleSubmit` payload is emitted and the form is cleared |

## Left out

- The DynamoDB client, the command objects and the table name are not modelled. The store is the `items` map, and a store failure is the `storeFailure` parameter. Concurrent writers and the async scheduling of handlers are not modelled either.
- `uuidv4` is an oracle parameter. Its uniqueness is not modelled. A put under an id already in use overwrites that item, as the store would, and `Dynamo.PutFreshAddsOne` states the fresh case.
- `JSON.parse`, `Number()`/`Number.isFinite` and `Number#toString` are uninterpreted fields of `Runtime`. So the model does not decide which raw amounts are finite. In JavaScript, `null`, `""` and `true` all convert to finite numbers.
- `JSON.stringify` of the responses is not modelled. Response bodies are kept as structured values, and an `undefined` field of a listed entry is `None` rather than omitted.
- `ExpenseService.ExpenseTable.AddExpense`, `ExpenseService.ExpenseTable.PutExpense`, `ExpenseService.ExpenseTable.UpdateExpense`, `ExpenseService.ExpenseTable.DeleteExpense`: a failed store call is taken to have written nothing. A write whose outcome is unknown is not modelled, for example a server-side error or a client time-out after the write was applied.
- Attribute types other than `S` and `N` are not modelled, since no handler writes them.
- The list handler sends one `Scan` request and ignores `LastEvaluatedKey`, so it lists only the first page, at most 1 MB of items. The model lets that page be any duplicate-free sequence of keys (`Dynamo.IsScanPage`), and `GetExpenses.ListPage` holds for every page. The claims that every key is listed (`GetExpenses.ListWellFormed`, `Lifecycle.CreateThenList`, `Lifecycle.UpdateThenList`, `Lifecycle.DeleteThenList`) assume a page that reaches every key (`Dynamo.IsScanOrder`).
- Read-after-write consistency is not modelled. The scan sets no `ConsistentRead`, so a scan right after a write may not yet reflect it. The lifecycle lemmas assume it scans the table as the write left it.
- The store keeps an `N` value as a number, not as the text the handler wrote, and may return a different spelling of the same number. The model stores and returns the text as written, so `Lifecycle.CreateThenList` and `Lifecycle.UpdateThenList` give the listed amount as the handler's `toString()` text.
- `console.log`/`console.error` are left out, and so is the delete handler's logging of the event.
- The module-level statements in backend/getExpenses.js:22-23 are left out. They read the undeclared `API_BASE`, which throws a ReferenceError when the module loads. The model treats the list handler as loaded.
- Four client files are outside this model: frontend/src/api.js (HTTP wrappers), frontend/src/App.js (demo data, budget and currency display), frontend/src/components/Dashboard.js (a floating-point sum) and frontend/src/components/ExpenseList.js (rendering).
- `ExpenseForm.Form.Submit`: the browser's sanitising of the number input is not modelled. Any non-empty amount string counts as filled.
- `ExpenseForm.Form.HandleSubmit`: `e.preventDefault()` and the `onAdd` callback are not modelled as calls. The single call to `onAdd` is the returned payload.
- `Lifecycle.CreateThenList` and `Lifecycle.UpdateThenList` are stated over the validated payload. `AddExpense.ValidateCreate` and `UpdateExpense.ValidateUpdate` relate that payload to the raw request body.
