# Organisation-structure form pages: response normalisation and page state

This project models the data logic inside five client-side form pages of an
organisation-structure front end (departments, positions and change
requests). Each page fetches JSON from a REST backend, reduces it to the list
it keeps, edits a form and posts it. Two parts of that logic are modelled and
proved:

- **Response normalisation** (module `Normalise`): unwrapping a collection
  envelope (a top-level array, else `data`, else a named array such as
  `departments`, `positions` or `employees`, else no records), projecting raw
  records onto dropdown options (`_id || id`, `name`/`title`/`code`
  defaulting to `''`), and replacing a `headPositionId` delivered as a
  populated object by its `_id`.
- **Page state** (one module and one class per page): each page's state
  fields are a class's fields, and each effect or handler is a method that
  takes the `fetch` outcome as a parameter and states the page's whole new
  state. The pure steps these methods use (`.map`, `.filter`, `.find`, the
  payload and form builders) are functions with their own contracts and
  lemmas.

Shared vocabulary:

- `Json.Json` is a decoded value. It adds `JUndefined`, which is what reading
  a missing property yields. Its helpers give JavaScript's truthiness, `||`,
  `??`, property reads, object spread, `typeof v === 'object'`, `===` and
  `String(v)`.
- `Http.Response` is one `fetch` outcome. A settled response carries its
  status, its body text and its decoded body (`None` when `res.json()`
  throws). A rejected request is a `NetworkError`.
- Whether a token is in `localStorage` is a `hasToken` parameter. Whether the
  user accepted `confirm()` is a `confirmed` parameter.
- Handlers that send a request return what they send (`sent`). `None` means
  no request was sent.

What the code does, as opposed to what a uniform normaliser would promise:

- Unwrapping a foreign key is not idempotent in general.
  `Normalise.UnwrapForeignKeyIdempotent` proves it is idempotent exactly when
  the key's `_id` is not itself a populated object. `{ _id: { _id: "a1" } }`
  shows the difference (`Normalise.UnwrapForeignKeyExamples`).
- A failure of one of two requests loaded together does not always leave the
  other list populated. Both requests are awaited with `Promise.all`, so a
  rejected request leaves both lists as they were. On the create-position
  page, a departments body that cannot be decoded, or that holds a `null`
  entry, also stops the positions from loading. Only a non-ok status is
  isolated (`CreatePosition.StatusFailureIsIsolated`).
- Departments are taken only from a top-level array on the department-change
  and update pages. There the envelope is not unwrapped.
- The department-change page unwraps the employee list, then stores the raw
  array. It builds an `_id || id` copy that it never uses.

## Model

| member | source | states |
|---|---|---|
| `Normalise.MapRecords` | positions/create/page.tsx:57-60 | `.map` with a callback that reads a property throws exactly when some element is `null` or `undefined`; otherwise the result has the input's length and its i-th element is the callback applied to the i-th input |
| `Normalise.UnwrapCollection` | positions/create/page.tsx:49-56 | a bare array body is the list itself; any non-empty result is the array held by the body, by its `data` field or by the named field |
| `Normalise.UnwrapIsFirstArray` | positions/create/page.tsx:49-56 | the unwrapped list is the first array among the body, its `data` and its named key, or empty when none is an array; the `deptData &&` guard never changes the result |
| `Normalise.UnwrapWrap` | positions/delete/page.tsx:44-51 | a bare array, a `{ data: [...] }` wrapper and a `{ <key>: [...] }` wrapper each unwrap to exactly the records they carry, in order |
| `Normalise.UnwrapNamedKeyLast` | positions/create/page.tsx:52-55 | when `data` is an array, it is used whatever the named key holds |
| `Normalise.UnwrapUnrecognised` | positions/create/page.tsx:65-72 | a body of none of the three shapes gives the empty list, not an error |
| `Normalise.RecordId` | positions/create/page.tsx:58 | the id is `_id` when truthy, else `id` |
| `Normalise.TextField` | positions/create/page.tsx:59 | a truthy field is kept; a missing or falsy one becomes `''` |
| `Normalise.ProjectDepartment` | positions/create/page.tsx:57-60 | a department option has id `_id \|\| id` and name `name \|\| ''` |
| `Normalise.ProjectPosition` | positions/create/page.tsx:73-77 | a position option has id `_id \|\| id`, and title and code default to `''` |
| `Normalise.ProjectPositions` | positions/delete/page.tsx:44-59 | the options of a positions body: unwrapped with key `positions`, same length and order, each id from `_id \|\| id`, title and code defaulting to `''`; no result when an entry is `null` |
| `Normalise.UnwrapForeignKey` | requests/departmentChange/page.tsx:124-126 | a key that is an object with a truthy `_id` becomes that `_id`; any other value is kept exactly as received |
| `Normalise.UnwrapForeignKeyIdempotent` | departments/update/page.tsx:65-67 | unwrapping twice equals unwrapping once if and only if the key is not a populated object whose `_id` is again a populated object |
| `Normalise.UnwrapForeignKeyExamples` | departments/update/page.tsx:65-67 | `{_id:"a1"}` gives `"a1"`; `"a1"` and `undefined` stay as they are; a doubly nested id is unwrapped one level |
| `Normalise.NormaliseDepartment` | requests/departmentChange/page.tsx:122-126 | `headPositionId` is always present and unwrapped; every other field is present exactly when it was, with the same value |
| `Normalise.NormaliseDepartmentIdempotent` | requests/departmentChange/page.tsx:122-126 | normalising a normalised department changes nothing, unless its head position is nested two populated levels deep |
| `Normalise.NormaliseDepartments` | departments/update/page.tsx:63-68 | a non-array body gives `[]`; an array gives, in order, each department with exactly its own keys plus `headPositionId`, the head position unwrapped and every other field kept; no result when an entry is `null` |
| `Normalise.NormaliseDepartmentsIgnoresEnvelope` | requests/departmentChange/page.tsx:122-127 | `{ data: [...] }` and `{ departments: [...] }` bodies yield no departments |
| `Forms.WithInput` | positions/create/page.tsx:87-93 | the field named by the input takes `checked` for a checkbox and `value` otherwise; all other fields keep their values |
| `CreatePosition.CollectionStage` | positions/create/page.tsx:47-78 | a collection response is skipped iff it is not ok; it loads iff it is ok, decodes and has no `null` entry; the loaded list is the projection of the unwrapped records, same length and order |
| `CreatePosition.InitialForm` | positions/create/page.tsx:18-25 | the form has exactly the six fields: five empty strings and `isActive` true |
| `CreatePosition.CreatePositionPage.constructor` | positions/create/page.tsx:18-29 | the page starts with the initial form (empty strings, `isActive` true), no options and no message |
| `CreatePosition.CreatePositionPage.FetchData` | positions/create/page.tsx:33-82 | without a token or with a rejected request both lists are kept; otherwise the departments load from their own response, and the positions load from theirs unless handling the departments threw |
| `CreatePosition.StatusFailureIsIsolated` | positions/create/page.tsx:47-63 | a non-ok departments response never blocks the positions, and a non-ok positions response is skipped without affecting departments |
| `CreatePosition.UndecodableDepartmentsBlockPositions` | positions/create/page.tsx:47-81 | an ok departments response whose body cannot be decoded throws, which ends the effect before the positions are handled |
| `CreatePosition.CreatePositionPage.HandleChange` | positions/create/page.tsx:87-93 | the form becomes the old form with only the input's field set |
| `CreatePosition.CreatePositionPage.HandleSubmit` | positions/create/page.tsx:95-138 | the form is posted as it stands when a token exists; success resets the form to the initial state; a non-ok or rejected request keeps the form and sets the matching message |
| `DeletePosition.WithoutPosition` | positions/delete/page.tsx:119 | every position with the deleted id is gone, every other position is kept, and nothing is added |
| `DeletePosition.WithoutPositionAppend` | positions/delete/page.tsx:119 | removal commutes with concatenation, so the kept positions stay in their order |
| `DeletePosition.WithoutAbsentPosition` | positions/delete/page.tsx:119 | when no position has the id the list is unchanged |
| `DeletePosition.WithoutPositionIdempotent` | positions/delete/page.tsx:119 | removing the same id a second time changes nothing |
| `DeletePosition.DeletePositionPage.constructor` | positions/delete/page.tsx:12-15 | no positions, no selection, no message |
| `DeletePosition.DeletePositionPage.FetchPositions` | positions/delete/page.tsx:18-84 | an ok, decodable body without `null` entries replaces the list with its projected positions; each failure keeps the list and sets its own message |
| `DeletePosition.DeletePositionPage.SelectPosition` | positions/delete/page.tsx:167-168 | the dropdown sets `selectedId` |
| `DeletePosition.DeletePositionPage.HandleSubmit` | positions/delete/page.tsx:86-130 | an empty selection sets "Please select a position" and sends nothing; a successful delete removes that id from the list and clears the selection; a non-ok response keeps list and selection and sets "Error: …" |
| `UpdateDepartment.FindFirst` | departments/update/page.tsx:203 | `.find` gives the first matching element, or none when nothing matches |
| `UpdateDepartment.FindDepartment` | departments/update/page.tsx:122 | the first department whose `_id` is the selected id, or none |
| `UpdateDepartment.LoadedForm` | departments/update/page.tsx:124-130 | selecting a department loads `code`, `name` and `isActive` as stored, and `description` and `headPositionId` with default `""` |
| `UpdateDepartment.UpdatePayload` | departments/update/page.tsx:158-164 | the payload has five fields; an empty description is sent as `""`, an empty head position as `undefined`, and an unset `isActive` as true, while `false` is kept |
| `UpdateDepartment.MergeSelected` | departments/update/page.tsx:185-187 | only departments whose `_id` is the selected id are merged, with the form's fields taking precedence; the others are unchanged; length and order are kept |
| `UpdateDepartment.MergeAbsentId` | departments/update/page.tsx:185-187 | merging under an id no department has leaves the list unchanged |
| `UpdateDepartment.ReselectAfterMerge` | departments/update/page.tsx:117-136 | after a merge, selecting the same id finds the same department and loads the saved code and name |
| `UpdateDepartment.PositionTitle` | departments/update/page.tsx:200-204 | (`getPositionTitle` is defined but never called by the page) the result is always truthy: the title of the first position whose `_id` equals the unwrapped id, or "Unknown" when none matches or its title is falsy |
| `UpdateDepartment.DepartmentsNotice` | departments/update/page.tsx:56-84 | no notice exactly when the response is ok, decodes and has no `null` department; every notice is an error, and an ok response can only give the parse notice; a failed one reports its status and text |
| `UpdateDepartment.PositionsNotice` | departments/update/page.tsx:87-105 | no notice exactly when the response is ok and decodes; every notice is an error, and an ok response can only give the parse notice; a failed one reports its status and text |
| `UpdateDepartment.ArrayOrEmpty` | departments/update/page.tsx:92 | an array body is stored as is; any other body stores no positions |
| `UpdateDepartment.UpdateDepartmentPage.constructor` | departments/update/page.tsx:21-26 | empty lists, no selection, empty form, no message |
| `UpdateDepartment.UpdateDepartmentPage.FetchData` | departments/update/page.tsx:29-114 | departments load from a top-level array only, normalised; positions are the body if it is an array, else `[]`; the positions notice replaces the departments notice |
| `UpdateDepartment.UpdateDepartmentPage.SelectDepartment` | departments/update/page.tsx:117-136 | an existing id loads its form and clears the notice; an empty id clears the form; an unknown id leaves form and notice unchanged |
| `UpdateDepartment.UpdateDepartmentPage.HandleInputChange` | departments/update/page.tsx:139-147 | only the input's field of the form changes |
| `UpdateDepartment.UpdateDepartmentPage.HandleSave` | departments/update/page.tsx:150-198 | with no selection, name or code it sends nothing and reports missing fields; otherwise it sends the payload, and only a successful response merges the form into the list; a failed response reports its body's `message`, and a body that is not JSON or is `null` gives "Error updating department" |
| `DepartmentChangeRequest.RequestBody` | requests/departmentChange/page.tsx:172-177 | the request carries the employee, the new department as `newDept`, the details and the reason |
| `DepartmentChangeRequest.DepartmentsMessage` | requests/departmentChange/page.tsx:119-139 | no message exactly when the departments response is ok, decodes and has no `null` entry; an ok response can only give the parse message; a failed one reports its status and text |
| `DepartmentChangeRequest.DepartmentChangePage.constructor` | requests/departmentChange/page.tsx:23-30 | empty fields and lists, message null |
| `DepartmentChangeRequest.DepartmentChangePage.FetchEmployees` | requests/departmentChange/page.tsx:32-93 | the stored employees are the raw unwrapped array (array, then `data`, then `employees`); a `null` entry or an undecodable body keeps the list and reports a parse failure |
| `DepartmentChangeRequest.DepartmentChangePage.FetchData` | requests/departmentChange/page.tsx:95-149 | once both requests settle, departments and message depend on the departments response only; the positions response is never read |
| `DepartmentChangeRequest.DepartmentChangePage.HandleSubmit` | requests/departmentChange/page.tsx:152-196 | success clears `newDepartmentId`, `employeeId`, `details` and `reason`; any failure leaves all four unchanged |
| `DepartmentChangeRequest.DepartmentsNeedBareArray` | requests/departmentChange/page.tsx:122-127 | a `{ data: [...] }` departments body is accepted as an empty list, while the same envelope is unwrapped for employees |
| `ReviewChange.StatusMapKeys` | reviewChange/page.tsx:60-64 | the status dictionary has an entry for every loaded request's id and no other entry |
| `ReviewChange.StatusMapLastWins` | reviewChange/page.tsx:60-64 | a request whose id no later request repeats has its own status in the dictionary, so for duplicate ids the last wins |
| `ReviewChange.StatusMap` | reviewChange/page.tsx:60-64 | the dictionary built in list order has at most one entry per request |
| `ReviewChange.ShownStatus` | reviewChange/page.tsx:181 | a row shows its chosen status when that is truthy, otherwise its own status; it shows something truthy exactly when one of the two is |
| `ReviewChange.ShownStatusAfterLoad` | reviewChange/page.tsx:181 | right after a load, a row whose id is not repeated later shows its own status |
| `ReviewChange.ShownStatusAfterChange` | reviewChange/page.tsx:181-184 | a non-empty status chosen in a row's dropdown is what that row then shows |
| `ReviewChange.SetStatus` | reviewChange/page.tsx:116-120 | only requests whose `_id` is `===` the reviewed id get the new status; their other fields and all other requests are unchanged; length and order are kept |
| `ReviewChange.ReviewChangePage.constructor` | reviewChange/page.tsx:30-36 | no requests, empty dictionary, `savingId` null, empty message |
| `ReviewChange.ReviewChangePage.LoadRequests` | reviewChange/page.tsx:38-74 | an ok array body becomes the request list, and the dictionary becomes the id-to-status map of the list unless an entry is `null`; every failure keeps both and sets its message |
| `ReviewChange.ReviewChangePage.HandleStatusChange` | reviewChange/page.tsx:80-82 | any status string is recorded under `String(id)`, the key the row reads, whatever was there before; other entries are unchanged |
| `ReviewChange.ReviewChangePage.BeginReview` | reviewChange/page.tsx:84-99 | without a truthy choice it reports and sends nothing; otherwise `savingId` becomes the id while the review is in flight, or returns to null at once when there is no token |
| `ReviewChange.ReviewChangePage.FinishReview` | reviewChange/page.tsx:101-129 | `savingId` returns to null on every path; success applies the status to the matching requests only; failures keep the list and set their message |

The seven selectable statuses, DRAFT through IMPLEMENTED
(reviewChange/page.tsx:19-27), are the constant `ReviewChange.StatusOptions`.
The same list is offered for every row, and `HandleStatusChange` accepts any
string, so the model has no transition rule between statuses. The constant
records the dropdown's options only; no member uses it.

## Left out

- Network, storage and dialogs: `fetch`, `localStorage` and `confirm()` are not modelled. Each is replaced by a parameter (`Response`, `hasToken`, `confirmed`). `console` logging is dropped.
- Concurrency: `Promise.all` is modelled only by its effect, which is that one rejected request aborts the handling of both. The `loading` flags and the interleaving of handlers while a request is pending are not modelled.
- Rendering: the JSX, styles, focus and hover handlers, and the colour chosen from the message text are not modelled.
- Other pages: `hierarchy/page.tsx`, the navigation page `page.tsx` and the static `requests/PositionChange/page.tsx` are not part of this model. `departments/create`, `departments/delete` and `positions/update` only pass data through to the backend. Their field update, id check and payload splitting repeat logic modelled here.
- JSON decoding is not modelled. A decoded body is an input, and a body that cannot be decoded is `None`. The body text is assumed to be readable, so the fallback messages used when `res.text()` itself fails are not modelled.
- Numbers are integers. Fractions and `NaN` are not modelled.
- Object key order is not modelled, because records are maps.
- Properties inherited through the prototype chain are not modelled. For example, `statusSelection["constructor"]` is treated as missing.
- The four `onChange` setters of the department-change page (`setNewDepartmentId`, `setEmployeeId`, `setDetails`, `setReason`) are plain assignments and are not modelled.
- Json.Spread: spreading a string or an array yields its index keys in the source; the model yields no fields for them, as for numbers and booleans.
- Json.StrictEq: two arrays or objects are never `===`; the model does not track object identity, which is sound for values decoded from separate bodies.
- ReviewChange.ReviewChangePage.LoadRequests: for an ok body that is not an array, the source stores it as the request list and then fails in `forEach`; the model reports the same message but keeps the old list.
- ReviewChange.SetStatus: the source throws on a `null` request entry inside the state updater; the model keeps such an entry unchanged. An `_id` that is an object or an array matches its own row in the source, because the reviewed id is that very reference, but `StrictEq` has no reference identity, so the model matches no row for it.
- UpdateDepartment.PositionTitle: the source throws when `find` reaches a `null` position entry; the model reads such an entry as having no `_id`.
