# rode-battle-fe core, modelled in Dafny

This project models the logic at the core of the rode-battle front end:

- **Http** (`packages/util/src/config/http.ts`): `HttpProtocol`, its token getters and savers, and `getApi()`. The model covers the request interceptor that attaches `Bearer <token>` and the response interceptor's 401 handling. That handling is a refresh coordinator: an `isRefreshing` flag plus a queue of replay callbacks, both private to each instance.
- **Api** (`packages/util/src/api/index.ts`): the `queryFn` and `getNextPageParam` of `useBaseInfiniteQuery`.
- **Login** (`apps/admin/src/pages/auth/LoginPage.tsx`): `validateForm`, including the e-mail regular expression, and `handleInputChange`.
- **Select**, **Upload**, **CodeEditor** (`packages/components/src/components/...`): the state-changing handlers and the pure helpers of the three components.
- **Routes** (`apps/admin/src/utils/constants/route.ts`): the route table.

Support modules:

- **Wrappers**: `Option`, JavaScript truthiness of optional strings, and map lookup as `getItem`.
- **Seqs**: `Array.prototype.filter` and its laws.
- **Strings**: decimal numerals, `split`/`join`, `includes`, ASCII `toLowerCase`, and `substring` with JavaScript's clamping and swapping.

## How state is modelled

Objects the code mutates are Dafny classes:

- `Storage` holds sessionStorage and localStorage.
- `RequestConfig` holds the `headers` and `_retry` that the interceptors write in place.
- `ApiInstance` holds the closure state of one `getApi()` instance.
- The component state hooks become classes: `LoginPage`, `SelectState` and `UploadState`.

JavaScript runs one callback at a time and yields only at `await`, so each interceptor segment between awaits is one method. The refresh POST is not modelled. Its outcome is the choice between `RefreshSucceeded` and `RefreshFailed`. A replay `instance(originalRequest)` is recorded as a `Replay` event in `dispatched`. `ApiInstance.Valid()` is the coordinator's invariant:

- exactly one refresh is in flight while `isRefreshing` holds, and none otherwise;
- every queued, awaited or replayed config carries `_retry`;
- no config is queued twice;
- no config is replayed twice.

The four steps of the interceptors preserve it: `Attach`, `OnResponseError`, `RefreshSucceeded` and `RefreshFailed`. The two helpers `SubscribeTokenRefresh` and `OnRefreshed` are called only from within those steps.

### Where the code departs from a textbook single-flight refresher

The model follows the code. A textbook single-flight refresher would run at most one refresh per client and let every waiting call share its result. The code departs from that in these ways:

- **The starter is not replayed.** A single-flight refresher would resolve the call that started a refresh with the new token. In the code, that call reaches `subscribeTokenRefresh` only after `onRefreshed` has flushed the queue and `isRefreshing` has been reset. Its callback therefore waits for the next refresh of the same instance (`RefreshSucceeded`; scenarios `BurstOfThree` and `TriggerReplayedByNextRefresh`).
- **A failed refresh rejects only the starter.** A single-flight refresher would fail every waiter and clear the stored credentials. In the code, the waiters stay queued with no callback run, and no token is removed (`RefreshFailed`; scenario `FailedRefreshStrandsWaiter`).
- **The two halves of the token flow use different stores.** A single-flight refresher would read and write the access token in one store. The request interceptor and the refresh read and write localStorage. `getAccessToken` and `saveAccessToken` use sessionStorage (scenario `SavedAccessTokenNotAttached`).
- **One coordinator per instance, not per client.** A single-flight refresher would have one coordinator per client. The code builds one in every `getApi()` call, and `BaseApiService` calls `getApi()` for every request. So single flight holds per instance only (`GetApi`; scenario `TwoServiceCalls`).
- **Together, the first and last points strand a call.** A call made through `BaseApiService` has an instance of its own. If its 401 starts a refresh that succeeds, it is queued behind that instance's flush, and the instance never refreshes again. The call is never replayed and its promise never settles (scenario `OwnInstanceCallNeverReplayed`).

### Other behaviour the model keeps

- In the code editor, Tab ignores `readOnly`: `handleKeyDown` calls `onChange` on a read-only editor too.
- In `Select`, the option list is rendered outside the element that `handleClickOutside` tests. A press on an option therefore closes the list and clears the search. The list is then removed, so the option's click handler most likely never runs. `PickOption` takes whether the click still reaches the option as a parameter.
- `handleInputChange` of the login form decides whether to clear an error from the errors of the current render.

## Model

| member | source | states |
|---|---|---|
| Wrappers.Lookup | packages/util/src/config/http.ts:75 | `getItem` answers a value exactly when the key is stored, and then the stored value |
| Http.WithBearer | packages/util/src/config/http.ts:116-118 | the replay callback sets `Authorization` to `Bearer <token>` when the config has headers, keeps every other header, adds no other key, and leaves absent headers absent |
| Http.Authorized | packages/util/src/config/http.ts:74-82 | the request interceptor sets `Authorization` to the stored token only when that token is non-empty and headers exist; otherwise the headers are passed on unchanged; other headers are kept in every case and no other key is added |
| Http.ReplayKeepsRefreshedToken | packages/util/src/config/http.ts:115-119 | once the refreshed token is in localStorage, the replayed request's second interceptor pass keeps the header the callback wrote |
| Http.ApiInstance.constructor | packages/util/src/config/http.ts:60-61 | a new coordinator is idle, with an empty queue and nothing in flight, and satisfies the invariant |
| Http.ApiInstance.Attach | packages/util/src/config/http.ts:74-82 | the request interceptor's new headers are `Authorized` of the old headers and of the localStorage access token; `_retry` and the coordinator are untouched |
| Http.ApiInstance.SubscribeTokenRefresh | packages/util/src/config/http.ts:63-65 | the callback is appended at the end of the queue |
| Http.ApiInstance.OnRefreshed | packages/util/src/config/http.ts:67-70 | every queued config, in queue order, gets the new token and is replayed once, then the queue is empty |
| Http.ApiInstance.OnResponseError | packages/util/src/config/http.ts:88-124 | a first 401 marks `_retry` and then either starts the one refresh (nothing was in flight) or joins the queue; any other status, a missing response, or a second 401 is rejected with no change; the invariant is kept |
| Http.ApiInstance.RefreshSucceeded | packages/util/src/config/http.ts:97-121 | the new token replaces the localStorage access token, every waiter is replayed with it, the coordinator goes idle, and the starter is queued after the flush |
| Http.ApiInstance.RefreshFailed | packages/util/src/config/http.ts:107-111 | only the starter is rejected; the queue, the replays and both stores are unchanged, and the coordinator goes idle |
| Http.HttpProtocol.GetAccessToken | packages/util/src/config/http.ts:32-34 | the access token is read from sessionStorage, absent when the key is not stored |
| Http.HttpProtocol.GetRefreshToken | packages/util/src/config/http.ts:35-37 | the refresh token is read from localStorage, absent when the key is not stored |
| Http.HttpProtocol.SaveAccessToken | packages/util/src/config/http.ts:38-40 | after saving, `getAccessToken` answers the token; sessionStorage changes only under the access-token key, and localStorage, which the interceptor reads, is unchanged |
| Http.HttpProtocol.SaveRefreshToken | packages/util/src/config/http.ts:41-43 | after saving, `getRefreshToken` answers the token; localStorage changes only under the refresh-token key, and sessionStorage is unchanged |
| Http.HttpProtocol.GetApi | packages/util/src/config/http.ts:45-130 | every call yields a new instance with its own idle coordinator over the shared storage |
| HttpScenarios.BurstOfThree | packages/util/src/config/http.ts:91-121 | three concurrent 401s start one refresh; the two joiners are replayed with the new token; the starter is left queued |
| HttpScenarios.FailedRefreshStrandsWaiter | packages/util/src/config/http.ts:107-111 | a failed refresh rejects the starter only, leaves the waiter queued and keeps the stored tokens |
| HttpScenarios.TriggerReplayedByNextRefresh | packages/util/src/config/http.ts:94-121 | the starter of one refresh is replayed by the next refresh, with that refresh's token |
| HttpScenarios.SecondUnauthorizedIsRejected | packages/util/src/config/http.ts:91 | a replayed request carries the new token, and a second 401 on it is rejected without starting a refresh |
| HttpScenarios.TwoServiceCalls | packages/util/src/config/http.ts:60-61 | two `getApi()` instances run two refreshes at once |
| HttpScenarios.OwnInstanceCallNeverReplayed | packages/util/src/config/http.ts:94-121 | a call on an instance of its own whose 401 starts a successful refresh is left queued and never replayed, although the new token is stored |
| HttpScenarios.SavedAccessTokenNotAttached | packages/util/src/config/http.ts:38-40 | a token saved by `saveAccessToken` is not attached by the request interceptor |
| Api.NextPageParam | packages/util/src/api/index.ts:129-137 | there is a next page exactly when the response succeeded, carries pagination and the page is below the total; it is the page plus one, never beyond the total |
| Api.PagesFromCountsUp | packages/util/src/api/index.ts:129-137 | an infinite query started at page p ≤ total fetches p, p+1, …, total, each once, and stops |
| Api.QueryRequest | packages/util/src/api/index.ts:124-128 | the URL is the base URL with `?page=<n>` (n defaults to 1); the params are the caller's params with `page` set to n, no other key added and every other value kept |
| Api.QueryUrlCarriesPage | packages/util/src/api/index.ts:127 | the page number parses back from the URL's query string |
| Strings.NatToStringRoundTrip | packages/util/src/api/index.ts:127 | reading back the decimal numeral of a natural number gives the number |
| Strings.IntToString | packages/util/src/api/index.ts:127 | `${pageParam}` renders a non-negative integer as digits only, and a negative one as `-` followed by digits; the page parses back by `IntToStringRoundTrip` |
| Strings.IntToStringRoundTrip | packages/util/src/api/index.ts:127 | reading back the numeral of any integer, sign included, gives the integer |
| Login.IsValidEmail | apps/admin/src/pages/auth/LoginPage.tsx:27 | the e-mail test answers true exactly when the e-mail matches `^[^\s@]+@[^\s@]+\.[^\s@]+$` |
| Login.EmailCheckMatchesPattern | apps/admin/src/pages/auth/LoginPage.tsx:27 | the scan accepts exactly the strings the pattern `^[^\s@]+@[^\s@]+\.[^\s@]+$` matches |
| Login.EmailError | apps/admin/src/pages/auth/LoginPage.tsx:25-29 | the e-mail message is "required" exactly for the empty e-mail, "invalid" exactly for a non-empty e-mail that does not match the pattern, and absent exactly when it matches |
| Login.PasswordError | apps/admin/src/pages/auth/LoginPage.tsx:31-35 | the password message is "required" exactly for the empty password, "too short" exactly for 1 to 5 characters, and absent exactly from 6 characters on |
| Login.Validate | apps/admin/src/pages/auth/LoginPage.tsx:23-35 | the record built by `validateForm` is empty exactly when the e-mail matches the pattern and the password has at least 6 characters |
| Login.EmailErrorCases | apps/admin/src/pages/auth/LoginPage.tsx:25-29 | an empty e-mail is "required"; a non-empty one is "invalid" exactly when it does not match the pattern |
| Login.PasswordErrorCases | apps/admin/src/pages/auth/LoginPage.tsx:31-35 | an empty password is "required", 1 to 5 characters is "too short", and 6 or more has no message |
| Login.ValidateAcceptsIff | apps/admin/src/pages/auth/LoginPage.tsx:22-39 | a form is accepted exactly when the e-mail matches the pattern and the password has at least 6 characters |
| Login.WithField | apps/admin/src/pages/auth/LoginPage.tsx:50 | the edited field takes the new value; the other field is unchanged |
| Login.ClearError | apps/admin/src/pages/auth/LoginPage.tsx:52 | the edited field's error is removed; the other field's error is unchanged |
| Login.LoginPage.constructor | apps/admin/src/pages/auth/LoginPage.tsx:15-20 | the form starts empty with no errors |
| Login.LoginPage.ValidateForm | apps/admin/src/pages/auth/LoginPage.tsx:22-39 | the errors state is replaced by the freshly built record, and the answer is true exactly when that record is empty |
| Login.LoginPage.HandleInputChange | apps/admin/src/pages/auth/LoginPage.tsx:49-54 | the field takes the value, and its error is cleared only when one is shown |
| Select.SelectedOption | packages/components/src/components/select/Select.tsx:52 | the selected option is an option carrying the value; there is none exactly when no value is set or no option carries it |
| Select.SelectedIsFirst | packages/components/src/components/select/Select.tsx:52 | the selected option is the first one carrying the value |
| Select.FilteredOptions | packages/components/src/components/select/Select.tsx:54-56 | the listed options are options; when searchable, each listed label includes the term case-insensitively; otherwise every option is listed |
| Select.FilteredOptionsMembers | packages/components/src/components/select/Select.tsx:54-56 | when searchable, an option is listed exactly when its lower-cased label contains the lower-cased term; otherwise all options are listed |
| Select.FilteredOptionsKeepOrder | packages/components/src/components/select/Select.tsx:54-56 | the listed options keep their relative order |
| Select.EmptySearchListsAll | packages/components/src/components/select/Select.tsx:54-56 | an empty search term lists every option |
| Select.SelectState.constructor | packages/components/src/components/select/Select.tsx:47-48 | the list starts closed with an empty search |
| Select.SelectState.MouseDown | packages/components/src/components/select/Select.tsx:59-64 | a press outside closes the list and clears the search without calling `onChange`; a press inside changes nothing |
| Select.SelectState.HandleOptionClick | packages/components/src/components/select/Select.tsx:100-106 | when enabled, the value goes to `onChange`, the list closes and the search clears; when disabled nothing changes |
| Select.SelectState.HandleClear | packages/components/src/components/select/Select.tsx:108-114 | when enabled, `onChange` gets `""` and the search clears while the list stays as it was; when disabled nothing changes |
| Select.SelectState.ToggleOpen | packages/components/src/components/select/Select.tsx:116-123 | when enabled, the list flips between open and closed; nothing else changes |
| Select.SelectState.SetSearchTerm | packages/components/src/components/select/Select.tsx:138 | the search input sets the term |
| Select.SelectState.ClickOption | packages/components/src/components/select/Select.tsx:200 | a click on a disabled option does nothing; on an enabled one it acts as `handleOptionClick` |
| Select.SelectState.PickOption | packages/components/src/components/select/Select.tsx:59-200 | the press on an option closes the list and clears the search; the value is emitted only when the click still reaches the option, the option is enabled and the select is enabled |
| Upload.KeptFiles | packages/components/src/components/upload/Upload.tsx:32-42 | with a non-zero limit, every kept file was selected and is no larger than the limit; without one, the selection is kept whole |
| Upload.KeptFilesMembers | packages/components/src/components/upload/Upload.tsx:30-42 | with a non-zero limit, a file is kept exactly when it was selected and is no larger than the limit; without one, the whole selection is kept |
| Upload.KeptFilesKeepOrder | packages/components/src/components/upload/Upload.tsx:33 | the kept files keep the selection order |
| Upload.RemoveAt | packages/components/src/components/upload/Upload.tsx:81 | removing an index inside the list shortens it by one, and one outside leaves its length; no file is introduced |
| Upload.RemoveAtSplices | packages/components/src/components/upload/Upload.tsx:81 | removing an index drops exactly that file and keeps the rest in order; an index outside the list changes nothing |
| Upload.UploadState.constructor | packages/components/src/components/upload/Upload.tsx:25-26 | the upload starts with no files and not dragged over |
| Upload.UploadState.HandleFiles | packages/components/src/components/upload/Upload.tsx:28-45 | the kept files replace the list, and the same list is passed to `onFileSelect` |
| Upload.UploadState.HandleDrop | packages/components/src/components/upload/Upload.tsx:47-56 | a drop always ends drag-over; the files are taken only when enabled and some were dropped |
| Upload.UploadState.HandleDragOver | packages/components/src/components/upload/Upload.tsx:58-64 | drag-over starts only when enabled |
| Upload.UploadState.HandleDragLeave | packages/components/src/components/upload/Upload.tsx:66-68 | leaving always ends drag-over |
| Upload.UploadState.HandleInputChange | packages/components/src/components/upload/Upload.tsx:70-77 | a missing or empty file list is ignored; any other is handled as `handleFiles` |
| Upload.UploadState.RemoveFile | packages/components/src/components/upload/Upload.tsx:79-86 | the list without that index replaces the files and is passed to `onFileSelect` |
| Seqs.Filter | packages/components/src/components/upload/Upload.tsx:33 | `filter` returns no more elements than it was given, each taken from the input and satisfying the predicate |
| Seqs.FilterMembers | packages/components/src/components/upload/Upload.tsx:33 | `filter` keeps exactly the elements that satisfy the predicate |
| Seqs.FilterAppend | packages/components/src/components/select/Select.tsx:55 | `filter` of a concatenation is the concatenation of the filters, so order is kept |
| Strings.Includes | packages/components/src/components/select/Select.tsx:55 | a string includes only needles no longer than itself, and always includes the empty string |
| Strings.IncludesAt | packages/components/src/components/select/Select.tsx:55 | `includes` holds exactly when the needle occurs at some position |
| Strings.Lower | packages/components/src/components/select/Select.tsx:55 | lower-casing keeps the length and maps each character on its own |
| CodeEditor.HandleKeyDown | packages/components/src/components/code-editor/CodeEditor.tsx:40-56 | the handler produces an edit exactly when the key is Tab |
| CodeEditor.TabReplacesSelection | packages/components/src/components/code-editor/CodeEditor.tsx:45-51 | Tab replaces the selected text by two spaces, keeps the text before and after it, and puts the caret just after the spaces |
| Strings.JsSubstring | packages/components/src/components/code-editor/CodeEditor.tsx:47 | `substring` with in-range ends is the slice between them, in either order |
| CodeEditor.LineNumbers | packages/components/src/components/code-editor/CodeEditor.tsx:65-68 | the gutter is never empty and starts with line 1; `LineNumbersCountLines` gives its full content |
| CodeEditor.LineNumbersCountLines | packages/components/src/components/code-editor/CodeEditor.tsx:65-68 | the gutter holds the numerals 1 to n, one per line, where n is one more than the number of line breaks |
| CodeEditor.LineNumbersOfEmpty | packages/components/src/components/code-editor/CodeEditor.tsx:65-68 | an empty value still shows line number 1 |
| Strings.Split | packages/components/src/components/code-editor/CodeEditor.tsx:66 | `split` yields at least one part, and no part contains the separator |
| Strings.Join | packages/components/src/components/code-editor/CodeEditor.tsx:67 | `join` starts with the first part and is at least as long as the separators it inserts; `SplitJoin` and `JoinSplit` tie it to `split` |
| Strings.SplitCount | packages/components/src/components/code-editor/CodeEditor.tsx:66 | `split` yields one more part than there are separators |
| Strings.SplitJoin | packages/components/src/components/code-editor/CodeEditor.tsx:67 | splitting a join of separator-free parts gives the parts back |
| Strings.JoinSplit | packages/components/src/components/code-editor/CodeEditor.tsx:66-67 | joining the parts of a split gives the string back |
| CodeEditor.OverlayText | packages/components/src/components/code-editor/CodeEditor.tsx:116 | the overlay shows the value while it is non-empty, and otherwise the placeholder, which defaults to `Enter your code here...` when the prop is absent |
| Routes.BattlesDetail | apps/admin/src/utils/constants/route.ts:6 | a battle's page is the battle list path, a `/`, then the id verbatim |
| Routes.FixedRoutesWellFormed | apps/admin/src/utils/constants/route.ts:1-12 | every fixed route is absolute, and no two coincide |
| Routes.BattlesEdit | apps/admin/src/utils/constants/route.ts:7 | a battle's edit page is its page followed by `/edit` |
| Routes.EditExtendsDetail | apps/admin/src/utils/constants/route.ts:6-7 | a battle's edit page is its page followed by `/edit` |
| Routes.DetailBelowList | apps/admin/src/utils/constants/route.ts:4-6 | every battle page lies strictly below the battle list |
| Routes.DetailInjective | apps/admin/src/utils/constants/route.ts:6 | different ids give different battle pages |
| Routes.EditInjective | apps/admin/src/utils/constants/route.ts:7 | different ids give different edit pages |
| Routes.DetailNotEdit | apps/admin/src/utils/constants/route.ts:6-7 | a battle page whose id has no `/` is never an edit page |
| Routes.CreateIsADetail | apps/admin/src/utils/constants/route.ts:5-6 | the id `create` names the creation page, because ids are not escaped |

## Left out

- `createBaseURL`, the `baseURL`/`Content-Type`/`maxRedirects` defaults, and the `tokenKey`/`baseUrl` fields: configuration strings that no modelled behaviour reads.
- The axios transport, the refresh POST and the replayed request's own network round trip: network I/O. The POST's outcome is a choice of method, and a replay is recorded as an event.
- The copy axios makes of a replayed config. `instance(originalRequest)` sends a copy merged with the instance defaults, and its interceptors and any later error see that copy. The model passes the same `RequestConfig` object on instead (`SecondUnauthorizedIsRejected`). This is sound only because the copy keeps `_retry` and the headers the callback wrote. The model does not capture that the copy and the original are distinct objects.
- The refresh response's shape (`content.tokens.ACCESS_TOKEN`): the token is a parameter of `RefreshSucceeded`. A response without `content` or without `tokens` throws inside the `try`, and that is `RefreshFailed`.
- A response whose `tokens` has no `ACCESS_TOKEN` does not throw. `setItem` then stores the string `undefined`, and every waiter is replayed with `Bearer undefined`. That case is `RefreshSucceeded("undefined")`, and the model does not single it out.
- `withCredentials` on the instance and on the refresh POST: a transport flag with no effect on the coordinator.
- The `typeof window` guard: the model assumes a browser, where both interceptors are installed.
- The request interceptor's error handler (`Promise.reject`) and the success handler of the response interceptor: both are pass-throughs.
- Promise settlement of a queued call: a queued call's promise settles only when its callback runs, and the model records that run as a `Replay`. A call whose callback never runs stays pending, which is visible as it remaining in `subscribers`.
- `BaseApiService`, `useBaseQuery` and `useBaseMutation`: thin wrappers over `getApi()` and React Query with no logic of their own. That `BaseApiService` calls `getApi()` per request is captured by `GetApi` and `TwoServiceCalls`.
- `...options` in `useBaseInfiniteQuery`: caller options may override `queryFn` or `getNextPageParam`, and the model covers only the defaults. The other fields of `config` are passed through unchanged and are not modelled.
- `handleSubmit` of the login page only calls `validateForm`, which is modelled.
- `console.warn` in `handleFiles`, `formatFileSize` (floating point), class-name computation (`cn`), rendering, and the `setTimeout` focus and caret updates: presentation only. `HandleKeyDown` returns the caret position that the timer sets.
- `syncScroll` and `handleChange` of the code editor: scroll offsets, and a pass-through to `onChange`.
- Strings.Lower: only ASCII letters are lower-cased, whereas `toLowerCase` applies the full Unicode case mapping.
- String lengths count Dafny characters (code points), whereas JavaScript counts UTF-16 code units. The two differ only outside the Basic Multilingual Plane, for the password length, `substring` offsets and `selectionStart`.
- Component props (`disabled`, `searchable`, `maxSize`) are constants of each state object, and `onChange`/`onFileSelect` are the logs `emitted` and `selections`. A missing callback is not distinguished from a present one, because the optional call only skips the log entry.
- React's batching of state updates and the stale `errors` closure: each handler is one atomic update of its state object.
- Select.SelectState.PickOption: whether the browser still delivers the click after the re-render has removed the list depends on DOM timing. It is a parameter of the method rather than something the model derives.
- `maxSize` is an integer, so fractional and `NaN` limits are not modelled.
- `page`, `totalPages` and `pageParam` are JavaScript numbers (doubles), and the model treats them as unbounded integers. Two effects are left out. Above 2^53, `pagination.page + 1` can round back to `page`, so the query would fetch the same page again and not stop, whereas `PagesFromCountsUp` says each page is fetched once. From 10^21 on, `${pageParam}` prints in exponent form (`1e+21`), whereas `IntToString` always prints every digit.
