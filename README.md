# Vehicle photo upload pipeline — a Dafny model

This project models the upload pipeline in `index.js` of the vehicle service.

A multipart form carries a JSON `data` descriptor and zero or more image file parts. For every file part, `process` starts two rendition tasks: an 800x450 image uploaded as `images/800x450/<id>` and a 288x162 image uploaded as `images/288x162/<id>`. The `<id>` is a fresh UUID.

The counter `queue` joins all of these asynchronous callbacks:

- It starts at 1, for the form's `end` event.
- Each file part adds 2.
- Each task outcome and the `end` event call `next`, which decrements the counter. When the counter is no longer positive, `next` calls `done`.
- The form's `error` and `aborted` events call `done` at once with the error flag set.

`done` is one of two callbacks:

- `create` collects the identifiers all of whose renditions uploaded into `data.photos` and stores a new vehicle.
- `update(old)` appends those identifiers to the submitted `data.photos` and updates the vehicle. It then deletes every stored photo that the final list no longer references.

Modules:

- `Wrappers` (`wrappers.dfy`): `Option`, standing for JavaScript's `undefined`.
- `Renditions` (`renditions.dfy`): the two renditions and how their objects are named.
- `Outcomes` (`outcomes.dfy`): the `success` and `failed` dictionaries, and the aggregation loop over them.
  - An `Index` is a JavaScript object used as a dictionary. It holds a map of own keys to lists, plus the order in which `for…in` enumerates the keys.
  - Upload identifiers are never array indices, so that order is the order in which the keys were created.
- `FanIn` (`fanin.dfy`): the counter as a function of the order in which signals arrive.
  - `Admissible` describes, by counts only, the orders in which the form ends at most once, no file part follows the end, and no more task reports arrive than tasks were started (two per file part). It includes orders with tasks still running.
  - `FiresExactlyOnce` proves that `done` is called once if the form has ended and the task reports number two per file part, and otherwise not at all.
  - A report here carries no task identity. `Process.Request` ties each report to a distinct running task, so only there does "two reports per file part" mean "every task has reported".
- `Process` (`process.dfy`): class `Request`, the state of one `process` call, with one method per event.
  - Ghost fields record the signals, the file parts, each task's outcome, and whether `error` or `aborted` was emitted.
  - `Valid` ties the counter to that history. It also ties each dictionary, key by key, to one pushed value per reported rendition.
  - `Calls` counts every call of `done`, whether made by `next` or by a parser failure.
- `Handlers` (`handlers.dfy`): the `create` and `update` callbacks.
  - Store calls and deletes are returned as effects.
  - The reconciliation `forEach` is a loop over `Array.prototype.indexOf`.

Two behaviours of the update path are modelled as written:

- A stored photo that occurs twice in the stored list and is missing from the final list is deleted twice, because `forEach` visits every occurrence (`Handlers.OrphansMultiplicity`).
- A delete names the stored photo value, which, for photos this service committed, is the bare upload identifier. The stored list may also begin with photos a client submitted in `data.photos` (index.js:144). It does not name the objects `images/800x450/<id>` and `images/288x162/<id>` that the tasks uploaded. By `Renditions.ObjectName`, an object name is always longer than its identifier, so the two never coincide. The model keeps the value as written.

## Model

| member | source | states |
|---|---|---|
| Renditions.ObjectName | index.js:102-117 | a rendition's object name is its fixed size prefix followed by the upload identifier |
| Renditions.ObjectNameInjective | index.js:102-117 | two tasks upload to the same object name only when they are the same rendition of the same file part |
| Outcomes.Index.Push | index.js:199-211 | pushing an outcome appends to the identifier's list, creates the key at the end of the enumeration order on first use, and leaves every other key unchanged |
| Outcomes.CollectCommitted | index.js:56-62 | the aggregation loop returns the committed list: the own keys of `success` that have no `failed` entry, in enumeration order |
| Outcomes.CommittedMembers | index.js:56-62 | an identifier is committed exactly when it has a success entry and no failure entry |
| Outcomes.CommittedAmongAppend | index.js:58-61 | the filter distributes over concatenation, so the loop keeps the enumeration order of `success` |
| Outcomes.CommittedDistinct | index.js:56-62 | no identifier is committed twice |
| Outcomes.CommittedWithoutFailures | index.js:56-62 | when nothing failed, every key of `success` is committed, in order |
| FanIn.QueueCounts | index.js:176-224 | `queue` is 1 plus 2 per file part, less 1 per task outcome and 1 for the form's end |
| FanIn.QueueBeforeCompletions | index.js:195-205 | before any task reports, F file parts leave `queue` at 1 + 2F |
| FanIn.AdmissibleBounds | index.js:195-224 | in any admissible order, the form ends at most once and no more tasks report than were started |
| FanIn.FiresExactlyOnce | index.js:177-182 | whatever the admissible order of events, `next` has called `done` once if the form has ended and task reports number two per file part, and never otherwise |
| FanIn.FiresOnLastEvent | index.js:177-182 | the one call of `done` happens on the last event, a `next` call, and on no earlier one |
| FanIn.DoubleReportFiresTwice | index.js:102-113 | a task whose callback runs twice makes `done` fire early while its sibling is still running, inside the admissible orders; the sibling's later report leaves them and calls `done` again |
| FanIn.NoFireWithoutEnd | index.js:213-224 | if the form never ends, `next` never calls `done` and `queue` stays at least 1 |
| Process.HoldsPush | index.js:199-211 | pushing a task's value under its identifier keeps the dictionary exact: each identifier has an entry exactly when one of its renditions reported that outcome, and the entry holds one value per such rendition |
| Process.RecordUpload | index.js:199-204 | recording an uploaded rendition pushes its object name under `success[id]`; both dictionaries then still hold exactly the reported outcomes, keys and list contents |
| Process.RecordFailure | index.js:206-211 | recording a failed rendition pushes `undefined` under `failed[id]`; both dictionaries then still hold exactly the reported outcomes, keys and list contents |
| Process.QueueIsOutstandingWork | index.js:175-182 | `queue` equals the number of running rendition tasks, plus one until the form has ended |
| Process.CountFile | index.js:195-205 | a file part raises `queue` by two and never calls `done` |
| Process.CountReport | index.js:199-211 | a task outcome calls `done` exactly when the form has ended and no other task is still running |
| Process.CountEnd | index.js:221-224 | the form's end calls `done` exactly when no task is still running |
| Process.CommittedAtCompletion | index.js:56-62 | once every task has reported, an identifier is committed exactly when it is a file part both of whose renditions uploaded |
| Process.Request.constructor | index.js:171-176 | a request starts with an undefined `data`, empty `success` and `failed`, and `queue` at 1 |
| Process.Request.OnField | index.js:188-194 | only the field named `data` sets `data`; any other field is ignored |
| Process.Request.OnFile | index.js:195-212 | a file part before any terminal event adds 2 to `queue` and starts its two rendition tasks, keeping the request consistent |
| Process.Request.Next | index.js:177-182 | `next` decrements `queue` and calls `done` with the current `data`, `success` and `failed` exactly when the new value is not positive |
| Process.Request.Record | index.js:199-211 | a task's object name is pushed under `success[id]` when it uploaded, and `undefined` under `failed[id]` when it failed |
| Process.Request.OnTaskDone | index.js:199-211 | a task outcome is recorded and then calls `done` exactly when the form has ended and no task is running; at that moment the committed list is all-or-nothing per file part, and `done` has been called at most once in all, counting a call made on `error` or `aborted` |
| Process.Request.OnEnd | index.js:221-224 | the form's end calls `done` exactly when no task is running, with the committed list all-or-nothing per file part; `done` has then been called at most once in all |
| Process.Request.OnFailure | index.js:213-220 | `error` and `aborted` call `done` with the error flag set and bypass the counter, which stays positive; this is the only call of `done`, and later task reports never reach another |
| Handlers.Create | index.js:49-71 | on error, no store call; without `data`, a TypeError; otherwise a new vehicle whose `photos` is exactly the committed identifiers, each once and in enumeration order |
| Handlers.IndexOf | index.js:159 | `indexOf` returns the first position of the value, or -1 exactly when the value does not occur |
| Handlers.Reconcile | index.js:158-167 | the `forEach` loop deletes each stored photo missing from the final list, in stored order |
| Handlers.OrphansMembers | index.js:158-167 | a value is deleted exactly when it is a stored photo that the final list no longer references |
| Handlers.OrphansMultiplicity | index.js:158-167 | each occurrence of an unreferenced stored photo is deleted once, and a referenced one never |
| Handlers.OrphansOfSuperset | index.js:144-167 | when the final list still contains every stored photo, nothing is deleted |
| Handlers.Update | index.js:130-169 | on error, no store call and no delete; without `data` or `data.photos`, a TypeError; otherwise the final photos are the submitted list followed by the committed identifiers, and only stored photos absent from both are deleted |

## Left out

- Routing, authentication, validators, sanitizers, paging and the listing and lookup endpoints (index.js:228 onwards) are not part of this model.
- The PUT route (index.js:276-277) passes an `id` that is not declared in its scope to `Vehicles.findOne`, which throws a ReferenceError before `process(req, res, update(vehicle))` is reached. As written, the router never reaches `Handlers.Update` or `Handlers.Reconcile`; they model the `update` callback itself.
- Image encoding with `sharp` and multipart upload with `knox-mpu` (index.js:73-128) are network and native I/O. A rendition task is reduced to its reported outcome: uploaded or failed.
- The record store (`Vehicles.create`, `Vehicles.update`) and the object store's `deleteFile` are returned as effects. Their results, the HTTP status codes and the log lines are left out.
- `JSON.parse` of the `data` field arrives already parsed as a `Descriptor`. A parse failure, which throws inside the field handler, is not modelled.
- A `data` value that is not an object, and a `photos` value that is not an array, are not modelled. `photos` is either an array of strings or absent.
- `uuid.v4` is a parameter of `Process.Request.OnFile`. Its freshness is stated as a precondition rather than generated.
- Process.Request.OnFile: the two separate `queue++` statements are one step of +2. No task callback can run between them, because the callbacks are asynchronous.
- Process.Request.OnTaskDone: it requires the task to be running. A rendition whose encoder and uploader both report an error calls its callback twice, and that second report is not modelled. The extra `next` would break the exactly-once property: `done` could fire while the sibling task is still running, and fire again when the sibling reports, so `Vehicles.create` would be called twice (`FanIn.DoubleReportFiresTwice`).
- Process.Request.OnFile, Process.Request.OnEnd, Process.Request.OnFailure: each requires that the form has not yet emitted a terminal event (`end`, `error` or `aborted`). A parser that emits two of them would call `done` twice, for example on `aborted` followed by `error` or `end`. That case is not modelled.
- `cleanUploads` is empty in the source. `Handlers.Create` on error therefore has no effect besides the error response.
- Requests are independent. No interleaving between different requests is modelled.
