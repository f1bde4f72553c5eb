# Task-management client: entity services and route helper

This project models the logic of a task-management web client that can be
stated and proved independently of the network and the UI:

- the **task service** and the **list service**, which translate between rows of
  the backend tables `task_c` / `list_c` (`title_c`, `order_c`, `list_id_c`, …) and
  the UI's task and list records, assign the order of newly created records,
  build sparse update patches, and turn every reply of the remote record-storage
  client into a fail-soft result (`[]`, `null`, `false` or a re-fetched listing);
- the router's **`createRoute` helper**, which derives the key under which a
  route's access configuration is looked up, settles the route's access level
  and builds the route object.

The remote client is not simulated. Each awaited client call is represented by
its reply, a `Client.Reply` value that is an argument of the operation:
`Threw` (an exception, including the client accessor returning nothing),
`Rejected` (`success: false`) or `Accepted(payload)` (`success: true`). A write
reply's payload is the optional `results` array of per-record `Outcome`s. Each
service operation returns the request it submits (`sent`) together with the
value it returns to its caller. `create` receives two replies, that of the
listing it fetches first and that of the write; `reorder` receives the write
reply and the reply of the listing it always re-fetches.

Modules, one per file: `Records` (column values, the JavaScript `||` defaults,
the next order), `Client` (reply shapes, the filtering of `results`, and the
`delete` both services share), `TaskService`, `ListService`, `Router`.

A task's `listId` is not always a scalar: `list_id_c?.Id || list_id_c` returns
the embedded object itself when its `Id` is missing or 0;
`TaskService.ListIdOf` models that.

## Model

| member | source | states |
|---|---|---|
| `Records.TextOr` | src/services/api/taskService.js:42-44 | `v || fallback` on text: the stored text when it is non-empty, the fallback when absent, null or '' |
| `Records.TextOrNull` | src/services/api/taskService.js:45 | `v || null` on a date column: present exactly when non-empty, and then unchanged |
| `Records.FlagOr` | src/services/api/taskService.js:46 | `v || false` is true exactly when the column holds true |
| `Records.NumberOr` | src/services/api/taskService.js:48 | `v || 0`: the stored number (0 stays 0), 0 when absent |
| `Records.Put` | src/services/api/taskService.js:190 | one conditional patch assignment: sets the column to the given value, leaves the patch unchanged when the field is `undefined`, touches no other column |
| `Records.Max` | src/services/api/taskService.js:119 | `Math.max` of a non-empty sequence is an upper bound that occurs in it |
| `Records.NextOrder` | src/services/api/taskService.js:119 | the new order exceeds every listed order, is 1 for an empty listing, and is one more than some listed order otherwise |
| `Records.NextOrderIsLeast` | src/services/api/taskService.js:119 | the new order is the least integer above all listed orders |
| `Client.FirstSuccess` | src/services/api/taskService.js:154-155 | the index of the first successful result: it succeeded and every earlier one failed |
| `Client.Successes` | src/services/api/taskService.js:143 | the successful filter is non-empty exactly when some result succeeded, and its head is the first successful result's data |
| `Client.Failures` | src/services/api/taskService.js:144 | the failed filter holds the message of every failed result and only messages of failed results |
| `Client.Partition` | src/services/api/taskService.js:143-144 | every result lands in exactly one of the two filters |
| `Client.SuccessesAppend` | src/services/api/taskService.js:143 | filtering distributes over concatenation of result arrays |
| `Client.FailuresAppend` | src/services/api/taskService.js:144 | the failed filter distributes over concatenation of result arrays, keeping the messages in order |
| `Client.Delete` | src/services/api/taskService.js:254-296 | `delete` (the same in src/services/api/listService.js:215-257): sends the one id; true exactly when the call succeeded, has `results` and one of them succeeded; false when it threw or was rejected |
| `Client.FailureIgnored` | src/services/api/taskService.js:146-155 | a failed result anywhere in `results` does not change the successful ones, so not what create/update return or what delete reports |
| `TaskService.ListIdOf` | src/services/api/taskService.js:47 | `listId` is the embedded object's `Id` when that is truthy, otherwise `list_id_c` itself; the result never carries an embedded truthy id |
| `TaskService.Translate` | src/services/api/taskService.js:40-51 | title/description/priority default to '', due date and completion time to null, completed to false, order to 0 when absent or falsy; `Id` and `CreatedOn` copied; the result is in normal form |
| `TaskService.StoredAndReadBack` | src/services/api/taskService.js:91-102 | a UI task stored under its column names reads back unchanged exactly when it is in normal form |
| `TaskService.TranslateIdempotent` | src/services/api/taskService.js:159-170 | translating a translated task again changes nothing |
| `TaskService.Written` | src/services/api/taskService.js:136-174 | create/update return a task exactly when the write succeeded, has `results` and one succeeded; it is the translation of the first successful result |
| `TaskService.GetAll` | src/services/api/taskService.js:9-57 | no filter is requested; every row is translated in order, `[]` when the call threw or was rejected |
| `TaskService.GetById` | src/services/api/taskService.js:59-108 | the lookup asks for the given id; a task exactly when the call succeeded, then the row's translation; null otherwise |
| `TaskService.NewOrder` | src/services/api/taskService.js:118-119 | the order given to a new task is above every current task's order, 1 when there is none, max + 1 otherwise |
| `TaskService.Create` | src/services/api/taskService.js:110-180 | one record is sent, with text defaults '', due date `|| null`, completed false, completion time null, the given list id, and order max + 1 over the listed tasks (1 when the listing is empty or failed); returns `Written` of the write reply |
| `TaskService.PatchUnique` | src/services/api/taskService.js:189-204 | the update patch is determined by the id and the given fields |
| `TaskService.BuildPatch` | src/services/api/taskService.js:189-204 | the patch holds `Id` and exactly the columns of the fields that are not `undefined`, falsy values and null included, with the given values |
| `TaskService.Update` | src/services/api/taskService.js:182-252 | sends one such patch and returns `Written` of the write reply |
| `TaskService.GetByListId` | src/services/api/taskService.js:298-349 | requests `list_id_c EqualTo listId`; fail-soft translated listing |
| `TaskService.GetByStatus` | src/services/api/taskService.js:351-402 | requests `completed_c EqualTo completed`; fail-soft translated listing |
| `TaskService.MarkComplete` | src/services/api/taskService.js:404-409 | the patch is exactly `Id`, `completed_c: true` and `completed_at_c` set to the given timestamp |
| `TaskService.MarkIncomplete` | src/services/api/taskService.js:411-416 | the patch is exactly `Id`, `completed_c: false` and `completed_at_c: null` |
| `ListService.Translate` | src/services/api/listService.js:36-42 | name defaults to '', colour to `#6366f1`, order to 0 when absent or falsy; `Id` and `CreatedOn` copied; the colour is never empty |
| `ListService.StoredAndReadBack` | src/services/api/listService.js:77-83 | a UI list reads back unchanged exactly when its colour is non-empty |
| `ListService.TranslateIdempotent` | src/services/api/listService.js:135-141 | translating a translated list again changes nothing |
| `ListService.Written` | src/services/api/listService.js:112-145 | create/update return a list exactly when the write succeeded, has `results` and one succeeded; it is the translation of the first successful result |
| `ListService.GetAll` | src/services/api/listService.js:9-48 | requests sorting by `order_c` ascending; every row translated in order, `[]` when the call threw or was rejected |
| `ListService.GetById` | src/services/api/listService.js:50-89 | the lookup asks for the given id; a list exactly when the call succeeded, then the row's translation; null otherwise |
| `ListService.NewOrder` | src/services/api/listService.js:99-100 | the order given to a new list is above every current list's order, 1 when there is none, max + 1 otherwise |
| `ListService.Create` | src/services/api/listService.js:91-151 | one record is sent with name `|| ''`, colour `|| '#6366f1'` and order max + 1 over the listed lists (1 when empty or failed); returns `Written` of the write reply |
| `ListService.PatchUnique` | src/services/api/listService.js:160-170 | the update patch is determined by the id and the given fields |
| `ListService.BuildPatch` | src/services/api/listService.js:160-170 | the patch holds `Id` and exactly those of name/colour/order that are not `undefined`, null included, with the given values |
| `ListService.Update` | src/services/api/listService.js:153-213 | sends one such patch and returns `Written` of the write reply |
| `ListService.ReorderRecords` | src/services/api/listService.js:266-269 | one record per id, in the requested sequence: record i carries `ids[i]` and order i + 1 |
| `ListService.ReorderPositions` | src/services/api/listService.js:266-269 | the submitted orders lie in 1..n and strictly increase, so they are exactly 1..n and distinct |
| `ListService.ReorderExample` | src/services/api/listService.js:266-273 | reordering [3, 1, 2] submits list 3 at 1, list 1 at 2, list 2 at 3 |
| `ListService.Reorder` | src/services/api/listService.js:259-302 | sends the reorder batch and returns the re-fetched listing whatever the batch's reply (threw, rejected, partly failed, succeeded) |
| `Router.Normalize` | src/router/index.jsx:47 | the key starts with '/'; a path starting with '/' is kept, any other gets '/' prepended |
| `Router.NormalizeIdempotent` | src/router/index.jsx:47 | normalising twice is normalising once |
| `Router.NormalizeForgetsLeadingSlash` | src/router/index.jsx:47 | `p` and `/p` share one key |
| `Router.NormalizeExamples` | src/router/index.jsx:76-85 | "today" gives "/today", "/today" stays, "list/:listId" gives "/list/:listId" |
| `Router.ConfigPath` | src/router/index.jsx:43-48 | an index route's key is "/", any other route's is its normalised path; the key is already normalised |
| `Router.FinalAccess` | src/router/index.jsx:51 | a given access wins; otherwise the config's `allow`; nothing when there is no config |
| `Router.CreateRoute` | src/router/index.jsx:34-67 | index routes get no path, others keep the declared path; the element is wrapped exactly when given; the handle holds the final access looked up under the config key plus all other properties; children are attached only when given and non-empty |
| `Router.SameKeySameAccess` | src/router/index.jsx:43-51 | declaring a page's path with or without a leading '/' gives it the same access |

## Left out

- The remote client's own behaviour (storage, `where`/`orderBy` execution, id assignment) is not modelled: replies are arguments, so nothing is claimed about which rows a filtered or sorted fetch returns.
- The client accessor returning nothing is folded into a reply that threw. In that case the source submits nothing, while the model still reports the record the operation would have submitted as `sent`.
- Notifications (`toast.*`) and `console.error` logging are left out; the per-record failure messages are kept only in `Client.Failures`.
- Asynchronous sequencing and concurrency, including two concurrent creates reading the same listing and submitting the same order, are not modelled.
- `parseInt` is not modelled: the list id is taken as an already-parsed integer. The completion time of `markComplete` (`new Date().toISOString()`) is a string parameter.
- The static `fields` selection of each fetch and the table-name constants are configuration, not behaviour.
- The reply's `success` flag is taken as a boolean, and a successful reply is taken to carry the documented payload (an array of row objects for fetches, one row object for a lookup). A malformed payload would make the source throw and fall back to `[]` or `null`; that path is not modelled.
- Row columns hold values of their documented types (`None` for absent or null). Values of other JavaScript types and `NaN` are not modelled.
- TaskService.TaskChanges: `listId` cannot be given as an explicit null in an update; the source would send `parseInt(null)`, which is `NaN`, and `NaN` is not modelled. Every other field distinguishes `undefined` from null.
- `getByStatus`'s default argument (`completed = false`) is not modelled: the caller passes the flag.
- Router: the access, element and children properties are modelled as present (truthy) or absent; falsy values such as `''` or `0` count as absent. `getRouteConfig` lives in a module that is not part of this model and is a function parameter. `lazy`/`import()`, the `Suspense` fallback markup, `createBrowserRouter` and the literal route tree are not modelled. A non-index route without a path makes the source throw; the model requires a path there.
