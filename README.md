# Todo client: REST wrapper and page state

This project models the logic of a small Next.js todo client. The client is
a REST wrapper around the backend's `todos` collection (`app/lib/api.js`) and
the page component `EnhancedTodoApp` (`app/page.js`). The page holds the
list, the create-form draft, the loading and error slots and the
filter/sort/search selections, and it reconciles them after every API call.

The Dafny modules follow the source:

- `Wrappers`: `Option` and `Result`. The model uses `Result` for JavaScript
  exceptions.
- `JsValues`: JavaScript values (`undefined`, `null`, booleans, integer
  numbers, strings, arrays, objects), truthiness, property reads (which
  throw on null and undefined) and `String(v)`.
- `Api` (`app/lib/api.js`):
  - Query-string building. `BuildQueryParams` does the source's step-by-step
    appends, and it is proved equal to the recursive `Included`.
  - The URL of each call.
  - The body `addTodo` posts.
  - What each call resolves to or throws, given what `fetch` yields. That is
    the `Outcome` datatype: a transport failure, or a response with status,
    `ok` flag and a body that parses or does not.
- `TodoPage` (`app/page.js`):
  - The load's filter object.
  - The list transforms: append, replace by `_id`, remove by `_id`, find by
    `_id`.
  - The toggle's requested status.
  - The `trim()` guard on the title.
  - The due-soon and overdue tests, over integer milliseconds.
  - The class `TodoApp`. Its fields are the component's state slots, and
    each handler is a method that changes them in one atomic step.

Facts the proofs establish about the code as written:

- `getAllTodos` catches every exception and returns `[]`. So `LoadTodos` always
  ends with the list replaced, the error cleared and loading off. The
  `catch` branch of `loadTodos` (app/page.js:31-33) cannot run, so the model
  has no such branch.
- The due-soon test `0 <= Math.ceil(diff / day) <= 3` holds exactly for
  `-day < diff <= 3 * day`. A todo that fell due less than a day ago, and is
  overdue, still shows the banner.
- When the body of a failed mutating call is JSON `null`, reading
  `errorData.error` throws a TypeError. The call then rejects with that
  TypeError rather than with the fallback message.

- The client sets no request timeout, and its base URL is the constant at
  app/lib/api.js:2. There is no configuration of it and no logging toggle.
- A failed list read never raises: every failing status, not only 404, gives
  `[]`.
- The status field of a todo is spelled `Status`.

## Model

| member | source | states |
|---|---|---|
| `Api.Included` | app/lib/api.js:8-12 | At most one parameter per key, so never more parameters than keys. |
| `Api.QueryParams` | app/lib/api.js:8-12 | Reading the filters fails iff `filters` is null or undefined. Otherwise the parameters are the included keys, at most four. |
| `Api.BuildQueryParams` | app/lib/api.js:8-12 | The four conditional appends give exactly `QueryParams(filters)`. A nullish `filters` raises the TypeError of reading `status`. |
| `Api.IncludedQueryKeys` | app/lib/api.js:9-12 | The parameter list is status, priority, search, sortBy, in that order. Each appears only when its filter value is truthy. |
| `Api.IncludedMembers` | app/lib/api.js:9-12 | A parameter is present iff its key is a filter key whose value is truthy. Its value is that filter value's string form. |
| `Api.IncludedOrdered` | app/lib/api.js:8-12 | The parameter names are a subsequence of the fixed key order. |
| `Api.IncludedEmpty` | app/lib/api.js:8-12 | There are no parameters iff every filter value is falsy (`undefined`, `''`, ...). |
| `Api.Serialize` | app/lib/api.js:14 | A non-empty parameter list serialises to the encoded first name and `=`, followed by more. |
| `Api.SerializeEmpty` | app/lib/api.js:14 | The serialised parameters are empty iff there are no parameters. |
| `Api.ListUrl` | app/lib/api.js:14 | The URL is exactly the base iff there is no parameter. Otherwise it is base + `?` + the serialised parameters. |
| `Api.GetAllTodosRequest` | app/lib/api.js:4-15 | The list read sends a GET with no body to the list URL. It fails before fetching only for a `null` filters argument. |
| `Api.ListBody` | app/lib/api.js:17-25 | Inside the try: 404 gives `[]`, any other non-ok status raises "Failed to fetch todos", a transport failure re-raises. On an ok response, an unparseable body raises the parse error, an array body is returned unchanged and any other body gives `[]`. A non-empty result is the array body itself. |
| `Api.GetAllTodos` | app/lib/api.js:4-30 | Never raises. Any non-ok status, a transport failure, an unparseable body or a null filters argument gives `[]`. An ok array body is returned unchanged. Any other result is `[]`. |
| `Api.GetUpcomingTodos` | app/lib/api.js:82-99 | Never raises. A non-empty result is exactly the ok array body. An ok array body is returned unchanged. |
| `Api.GetUpcomingTodosRequest` | app/lib/api.js:84 | The upcoming read sends a GET with no body and no JSON header to the base URL followed by `/upcoming`. |
| `Api.UpcomingLikeList` | app/lib/api.js:84-98 | The upcoming read resolves exactly as an unfiltered list read does on the same outcome. |
| `Api.MutationResult` | app/lib/api.js:48-57 | Success iff the response is ok and the body parses, and then the result is the parsed body. On non-ok, the call raises the body's truthy `error` (as a string), else the fallback. A null body raises a TypeError. Transport and parse failures are re-raised. |
| `Api.BackendMessageWins` | app/lib/api.js:50 | A non-empty backend `error` string becomes the raised message unchanged. |
| `Api.CreateBody` | app/lib/api.js:39-45 | The posted object has exactly the keys title, description, Status, priority and dueDate. `Status` is always "pending". A falsy priority becomes "medium". Title, description and dueDate are copied. A nullish todo throws. |
| `Api.CreateBodyReadsFourFields` | app/lib/api.js:39-45 | The body depends only on the input's title, description, priority and dueDate, whatever its `Status`. |
| `Api.AddTodoRequest` | app/lib/api.js:34-46 | `addTodo` sends a POST to the base URL with the JSON header and the created body. |
| `Api.AddTodo` | app/lib/api.js:32-58 | Succeeds iff the response is ok and parses, and yields that body. An Error it raises carries the backend `error` or "Failed to add todo". A non-ok response with a non-null parsed body raises exactly that Error. A non-ok `null` body raises the TypeError of reading `error`. An unparseable body raises the parse error. A transport failure is re-raised. A nullish todo throws on `title` before any request. |
| `Api.ItemUrl` | app/lib/api.js:62 | The item URL is the base, `/`, then the id's string form. |
| `Api.UpdateTodoRequest` | app/lib/api.js:62-68 | `updateTodo` sends a PATCH to base/id with `updates` verbatim as the body. |
| `Api.UpdateTodo` | app/lib/api.js:70-79 | Succeeds iff the response is ok and parses, and yields that body. An Error it raises carries the backend `error` or "Failed to update todo". A non-ok response with a non-null parsed body raises exactly that Error. A non-ok `null` body raises the TypeError of reading `error`. An unparseable body raises the parse error. A transport failure is re-raised. |
| `Api.DeleteTodoRequest` | app/lib/api.js:103-108 | `deleteTodo` sends a DELETE to base/id with the JSON header and no body. |
| `Api.DeleteTodo` | app/lib/api.js:110-119 | Succeeds iff the response is ok and parses, and yields that body. An Error it raises carries the backend `error` or "Failed to delete todo". A non-ok response with a non-null parsed body raises exactly that Error. A non-ok `null` body raises the TypeError of reading `error`. An unparseable body raises the parse error. A transport failure is re-raised. |
| `JsValues.Get` | app/lib/api.js:49-50 | A property read throws iff the value is null or undefined. On an object it gives the field when present and undefined otherwise. On any other non-nullish value it gives undefined. |
| `JsValues.Truthy` | app/lib/api.js:9-12 | A truthy value is not nullish. A string is truthy iff it is non-empty. Arrays and objects are always truthy. |
| `JsValues.ToJsString` | app/lib/api.js:9-12 | `String(v)` is the string itself for a string, the decimal numeral for an integer, "true"/"false" for a boolean and "[object Object]" for an object. A one-element array of a string prints as that string. |
| `JsValues.IntToDecimalRoundTrip` | app/lib/api.js:9-12 | The decimal numeral the model prints for an integer reads back to the same number. This is `String(n)` for a safe integer below 10^21. |
| `TodoPage.DraftValue` | app/page.js:9 | The draft handed to `addTodo` is an object with exactly the keys title, description, dueDate and priority. Each holds the draft's string for it. |
| `TodoPage.DraftCreateBody` | app/lib/api.js:39-45 | Adding a draft posts its strings with `Status` "pending", and "medium" in place of an empty priority. |
| `TodoPage.LoadFilters` | app/page.js:24-28 | The load forwards `status` undefined when the filter is "all" and the filter string otherwise, with the current sortBy and searchQuery. |
| `TodoPage.LoadParams` | app/page.js:24-28 | The load's query has status (unless the filter is "all" or empty), then search and sortBy when non-empty, in that order. |
| `TodoPage.ReplaceById` | app/page.js:59 | The toggle's map keeps the length, and every entry it yields is the returned todo or an entry of the old list. |
| `TodoPage.ReplaceByIdAt` | app/page.js:59 | The toggle's map keeps the length. It puts the returned todo at every index whose `_id` matches and keeps every other entry. |
| `TodoPage.ReplaceByIdAbsent` | app/page.js:59 | Replacing an id no entry has leaves the list unchanged. |
| `TodoPage.ReplaceByIdIdempotent` | app/page.js:59 | Replacing again with a todo carrying that id changes nothing. |
| `TodoPage.RemoveById` | app/page.js:70 | The delete's filter never lengthens the list. |
| `TodoPage.RemoveByIdMembers` | app/page.js:70 | After a delete, an entry is present iff it was present and its `_id` differs. |
| `TodoPage.RemoveByIdConcat` | app/page.js:70 | Removal distributes over concatenation, so the remaining entries keep their relative order. |
| `TodoPage.RemoveByIdAbsent` | app/page.js:70 | Deleting an id no entry has leaves the list unchanged. |
| `TodoPage.RemoveByIdIdempotent` | app/page.js:70 | Deleting the same id twice leaves what deleting it once left. |
| `TodoPage.FindById` | app/page.js:56 | A found todo is the entry at an index whose `_id` matches, and no earlier entry has the id. Not found means no entry has the id. |
| `TodoPage.NextStatus` | app/page.js:57 | The requested status is "pending" iff the current `Status` is "completed", otherwise "completed". |
| `TodoPage.ToggleUpdates` | app/page.js:56-58 | An update body exists iff the lookup finds a non-nullish todo. It is `{Status: NextStatus(found.Status)}` and holds nothing else. |
| `TodoPage.TrimStartSpec` | app/page.js:41 | Trimming the start drops a whitespace prefix and leaves a string that does not start with whitespace. |
| `TodoPage.TrimEndSpec` | app/page.js:41 | Trimming the end drops a whitespace suffix and leaves a string that does not end with whitespace. |
| `TodoPage.Trim` | app/page.js:41 | `trim()` never lengthens the title. A non-empty result neither starts nor ends with whitespace. |
| `TodoPage.BlankIffAllWhitespace` | app/page.js:41 | The add guard rejects a title iff every character of it is whitespace. The empty title is included. |
| `TodoPage.CeilDiv` | app/page.js:126 | `Math.ceil(a / b)` on integers: the least q with a <= b*q. |
| `TodoPage.DueSoonWindow` | app/page.js:126-127 | `0 <= ceil(diff / 86400000) <= 3` iff `-86400000 < diff <= 3 * 86400000`. |
| `TodoPage.IsDueSoon` | app/page.js:121-128 | A due-soon todo has a truthy dueDate that parses, and its `Status` is not "completed". |
| `TodoPage.AnyDueSoon` | app/page.js:121-128 | `todos.some(...)` holds only on a non-empty list. |
| `TodoPage.DueSoonIff` | app/page.js:121-128 | A todo is due soon iff its dueDate is truthy and parses, lies in that window relative to now, and its `Status` is not "completed". |
| `TodoPage.AnyDueSoonIff` | app/page.js:121-128 | The banner's list test holds iff some todo meets the millisecond window conditions. |
| `TodoPage.IsOverdue` | app/page.js:197 | An overdue todo has a truthy dueDate that parses. |
| `TodoPage.OverdueAndDueSoon` | app/page.js:197 | An overdue todo is due soon iff it is less than a day late and not completed. |
| `TodoPage.NoneDueSoonWhenEmpty` | app/page.js:121 | An empty list never shows the banner. |
| `TodoPage.TodoApp.DueSoonBanner` | app/page.js:121 | The banner shows only with reminders on and a non-empty list. |
| `TodoPage.TodoApp.constructor` | app/page.js:8-15 | The initial state: empty list, empty draft with priority "medium", loading, no error, filter "all", empty search, sort by "dateCreated", reminders on. |
| `TodoPage.TodoApp.LoadTodos` | app/page.js:21-37 | The load sends the request for the current filters. The list becomes exactly what `getAllTodos` resolves to. The error is cleared, loading is off, and nothing else changes. |
| `TodoPage.TodoApp.HandleAddTodo` | app/page.js:39-52 | A blank title makes no call and changes nothing. On success the list is old + [returned], the draft is reset and the error cleared. On failure the list and draft are kept and the error is "Failed to add todo". |
| `TodoPage.TodoApp.HandleToggleTodo` | app/page.js:54-65 | A missing id, or a nullish entry found, makes no call and sets "Failed to update todo". On success the matching entries are replaced by the backend's todo. On failure the list is kept and the error set. |
| `TodoPage.TodoApp.HandleDeleteTodo` | app/page.js:67-76 | The delete always sends the request. On success the entries with the id are removed and the error cleared. On failure the list is kept and the error is "Failed to delete todo". |

## Left out

- Network I/O, `response.json()` parsing and logging (app/lib/api.js:5, 15, 24, 27). Each call takes what `fetch` yields as an `Outcome` input.
- `JSON.stringify` of request bodies and the key order of objects. A body is modelled as the object value, a map whose undefined fields are kept.
- Percent-encoding by `URLSearchParams`. This is the application/x-www-form-urlencoded serializer of section 5.2 of the WHATWG URL Standard. It is the parameter `encode`.
- Date-string parsing (`new Date(v)`), the clock and `toLocaleDateString`. Parsing is the parameter `dateOf`, with None for an invalid date. "Now" is an integer millisecond parameter. Millisecond differences are taken as exact, and so is the floating-point division, which holds for dates within about 10^8 days of each other.
- JavaScript numbers other than integers (fractions, `NaN`, `-0`, `Infinity`). Integers are unbounded: the 2^53 precision limit of a double is not modelled, and neither is the exponent form (`1e+21`) that `String(n)` prints from 10^21 up.
- JsValues.Get: inherited properties are not modelled. A string or array read gives undefined, although JavaScript finds prototype members there (`"abc".search` is a function). A filters argument that is a string would then get a truthy `search` in the source and none in the model.
- Strict equality on an object or array `_id` is reference identity in JavaScript. The model compares values structurally.
- `TodoPage.IdOf`: a `null` entry inside a backend array makes `t._id` throw in the find (app/page.js:56), the map and filter updaters (59, 70) and the render (121-128, 194). The model reads such a property as undefined.
- Async interleaving, out-of-order completion of concurrent loads, and React scheduling. This covers the `useEffect` reload on `filter`/`sortBy` (app/page.js:17-19) and the functional `setTodos(prev => ...)` updates, which matter only under concurrency. Each handler is one atomic step over the state it reads at its start, with its intermediate `setLoading(true)` not observable.
- JSX rendering, icons, alerts and the `onChange` handlers that edit the draft, the search text and the selections (app/page.js:78-244). The banner's condition is `TodoApp.DueSoonBanner`.
- The static pages app/about/page.js, app/layout.js and app/not-found.js, which hold no logic.
