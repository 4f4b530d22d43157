# WECS mobile client: decision logic in Dafny

WECS is a React Native front end for an employee performance-management
tool. It signs a user in, lists employees fetched from a remote API, and lets
a manager create or update an evaluation in a modal form. This project models
the decision logic inside those screens as pure functions over immutable data,
and proves what that logic promises.

- **Session container** (`app/context/auth.tsx`). The module `Auth` models the
  `AuthState {token, user, isLoading}` record and the three transitions
  `loadToken`, `signIn` and `signOut`. The transitions run over the persisted
  store, which holds `userToken` and `userData`. They also cover `useAuth`'s
  missing-provider error.
- **Employee list** (`app/index.tsx`). The module `EmployeeList` models:
  - the list query, which writes through to `cachedEmployees` and falls back to that entry on failure;
  - the search and status filter;
  - the three colour bands of a performance score;
  - the capitalised filter-button labels.
- **Evaluation form** (`components/employee/Evaluation.tsx`). The module
  `EvaluationForm` models:
  - the initial form record;
  - `handleChange` and the dirty-field set it grows;
  - the create payload and the partial-update payload;
  - the create-or-update routing of `handleSubmit`, and how its outcome is handled.

Shared modules:
- `Wrappers`: `Option`, JavaScript-style `Result`, and storage-call `Effect`s.
- `Text`: ASCII case mapping, `includes` and capitalisation.
- `Storage`: `AsyncStorage` as a `map<string, string>`, plus an abstract JSON `Codec`.
- `Http`: methods, responses and the bearer header.
- `Employees` and `EvaluationTypes`: the records of `interfaces/`.

Nothing is asynchronous in the model. The environment's answers are explicit
inputs of each transition:
- the server response: unreachable, or a status with a body that parsed or failed to parse;
- the outcome of each storage call: completes or throws;
- the clock.

Outputs that the source produces as side effects become fields of the result:
- navigation (`router.replace`) becomes `navigateTo` or `redirectToLogin`;
- `onClose` becomes `closed`.

JSON is a `Codec` parameter. A lemma that needs JSON to round-trip states it
for the one value stored, as `requires RoundTrips(codec, x)`: parsing the
stringified value gives it back, and the stringified text is never empty.

Behaviour of the code that the model keeps as written:
- `signOut` clears the in-memory session only when both `removeItem` calls
  succeed (app/context/auth.tsx:90-98). A failing removal is only logged, and
  the token and user stay in memory.
- `loadToken` reads the token and the user from separate keys
  (app/context/auth.tsx:37-39). A stored token without a user yields a token
  and no user, and the reverse also happens (`Auth.TokenWithoutUser`,
  `Auth.UserWithoutToken`).
- A rejected sign-in rethrows without touching the state
  (app/context/auth.tsx:71-73, 85-87), so the session stays as it was.
- The list query's `catch` covers the cache write too (app/index.tsx:58-61), so
  a failed write also falls back to the cache. A corrupt cache entry raises
  its own parse error rather than the original failure (app/index.tsx:64).
- The form record is built once, on the first render
  (components/employee/Evaluation.tsx:71-82), while `handleChange` and the
  routing read the current `existingEvaluation` prop. A form opened before
  the evaluation arrives keeps its default fields but, once the prop is set,
  marks edits dirty and sends a PATCH (`EvaluationForm.ReceiveEvaluation`,
  `EvaluationForm.LateEvaluationPatches`).

Two consequences of the code as written are proved rather than corrected:
- The overall-score input calls `setScore`, not `handleChange`, so it never
  marks `overallScore` dirty. A typed score therefore never reaches an update
  request (`EvaluationForm.TypedScoreNeverPatched`).
- The create payload has no score field, so the score is not sent on create either.

## Model

| member | source | states |
|---|---|---|
| `Text.ToLower` | app/index.tsx:76-77 | `toLowerCase` over ASCII keeps the length, leaves no capital letter, changes no other character, and agrees with the input up to case |
| `Text.Includes` | app/index.tsx:76-77 | `includes` is true exactly when the query occurs at some index of the text (reference definition `IsSubstring`); the empty query occurs in every text |
| `Text.CapitalizeOnlyChangesCase` | app/index.tsx:178 | upper-casing the first character changes nothing but letter case |
| `Http.Authorization` | app/index.tsx:45 | the header is `Bearer ` followed by the token, or by the text `null` when there is none |
| `EmployeeList.FetchEmployees` | app/index.tsx:32-68 | the request is issued whatever the token; a missing or empty token only adds a redirect to login. On success the list is returned and the store's `cachedEmployees` becomes its encoding. On any failure (unreachable, non-ok, unparsable body, failed cache write) the store is unchanged and the cache is consulted. No key other than `cachedEmployees` ever changes |
| `EmployeeList.Fallback` | app/index.tsx:61-67 | a failing cache read raises its own error; a present, non-empty entry is parsed and returned (or its parse error raised); an absent or empty entry rethrows the original error |
| `EmployeeList.TokenDoesNotShortCircuit` | app/index.tsx:35-47 | the result and the store of the list query are the same for every token |
| `EmployeeList.CacheRoundTrip` | app/index.tsx:55-64 | after a successful fetch, a later fetch that fails for any reason returns exactly the list fetched before and leaves the store alone, given that JSON round-trips that one list |
| `EmployeeList.NoCacheRethrows` | app/index.tsx:61-67 | with no cached entry (absent or empty), a failed fetch raises the error of the failing step: the connection message, "Network response was not ok", the body's parse error, or the cache-write error |
| `EmployeeList.FilterEmployees` | app/index.tsx:74-80 | the filtered list is a subsequence of the fetched list (order kept) that holds only employees passing the predicate, and holds every employee that passes it |
| `EmployeeList.FilterKeepsMultiplicity` | app/index.tsx:74-80 | each employee that passes the predicate occurs in the filtered list exactly as often as in the fetched list; any other employee does not occur |
| `EmployeeList.AllFilterIsSubstringSearch` | app/index.tsx:75-78 | with filter "all", an employee is kept iff the lower-cased query is a substring of its lower-cased name or lower-cased designation |
| `EmployeeList.StatusFilterCharacterised` | app/index.tsx:78-79 | with the filter set to a status name, an employee is kept iff "all" keeps it and its status is that status |
| `EmployeeList.EmptyQueryKeepsAll` | app/index.tsx:74-78 | an empty query with filter "all" keeps the whole list unchanged |
| `EmployeeList.StatusFilterNarrowsAll` | app/index.tsx:78-79 | any filter keeps a subsequence of what "all" keeps for the same query |
| `EmployeeList.UnknownFilterKeepsNone` | app/index.tsx:74-80 | a filter value other than "all", "active" and "warning" keeps nobody |
| `EmployeeList.BandOf` | app/index.tsx:118-122 | a score is high iff at least 90, medium iff at least 50 and below 90, low iff below 50: the bands are disjoint and cover every score |
| `EmployeeList.BandMonotone` | app/index.tsx:118-122 | a higher score never gets a lower band |
| `EmployeeList.FilterLabel` | app/index.tsx:178 | the label has the value's length, differs from it only in case, and is the first character upper-cased followed by the rest unchanged |
| `EmployeeList.FilterLabelsShown` | app/index.tsx:163-178 | the three buttons read "All", "Active" and "Warning" |
| `EvaluationForm.Assign` | components/employee/Evaluation.tsx:85 | the edited field takes the new value and every other field keeps its old one |
| `EvaluationForm.FieldsDetermineData` | components/employee/Evaluation.tsx:33-44 | two form records that agree on each of the seven keys are the same record, so `Assign`'s two ensures determine its whole result |
| `EvaluationForm.AssignCurrentIsIdentity` | components/employee/Evaluation.tsx:85 | writing a field's current value back leaves the record unchanged |
| `EvaluationForm.InitialData` | components/employee/Evaluation.tsx:71-82 | metrics, comments, recommendations, overall score and status come from the existing evaluation when it carries them. The defaults are `[]`, `""`, `""`, none and `"draft"`. The period's start and end are two separate clock readings |
| `EvaluationForm.Open` | components/employee/Evaluation.tsx:64-82 | the form opens with the initial record, no dirty field, no score, no error, not loading |
| `EvaluationForm.ReceiveEvaluation` | components/employee/Evaluation.tsx:56-62 | a new `existingEvaluation` prop replaces the old one and leaves the form record, dirty set, score, error and loading flag as they were |
| `EvaluationForm.HandleChange` | components/employee/Evaluation.tsx:84-95 | exactly the edited field changes; the error is cleared; in update mode the key is added to the dirty set, in create mode the set is unchanged; nothing else in the component changes |
| `EvaluationForm.SetScore` | components/employee/Evaluation.tsx:175 | typing a score sets only the separate score state, leaving the record and the dirty set alone |
| `EvaluationForm.DirtySetGrowth` | components/employee/Evaluation.tsx:88-94 | over any sequence of edits the dirty set only grows. In update mode it gains exactly the edited keys; in create mode it stays as it was |
| `EvaluationForm.CreateModeStaysClean` | components/employee/Evaluation.tsx:88-94 | while the `existingEvaluation` prop stays absent the dirty set stays empty whatever is edited |
| `EvaluationForm.PrepareCreatePayload` | components/employee/Evaluation.tsx:97-105 | the create body holds the form's employee id, period, metrics, comments and recommendations; by its type it carries no score or status |
| `EvaluationForm.PrepareUpdatePayload` | components/employee/Evaluation.tsx:107-127 | the patch holds only dirty keys. Comments, recommendations and metrics are present iff dirty, with the current value. Status is present iff dirty and set. A dirty overall score comes from the score state, not the form record |
| `EvaluationForm.CleanFormSendsEmptyPatch` | components/employee/Evaluation.tsx:107-127 | an empty dirty set gives an empty patch |
| `EvaluationForm.CommentsOnlyPatch` | components/employee/Evaluation.tsx:84-127 | editing only the comments of an existing evaluation gives the patch `{comments: text}` and nothing else |
| `EvaluationForm.InputsDirtyOnlyText` | components/employee/Evaluation.tsx:171-201 | through the rendered inputs only comments and recommendations ever become dirty |
| `EvaluationForm.TypedScoreNeverPatched` | components/employee/Evaluation.tsx:119-121 | after any input on an opened update form the patch carries no overall score |
| `EvaluationForm.RequestFor` | components/employee/Evaluation.tsx:134-141 | with an existing evaluation: PATCH to `/evaluations/{employeeId prop}` with the update payload. Otherwise: POST to `/evaluations` with the create payload. Either way the bearer header goes with it |
| `EvaluationForm.RoutingConsistent` | components/employee/Evaluation.tsx:134-141 | PATCH goes with an update payload and POST with the bare `/evaluations` path, never crossed |
| `EvaluationForm.HandleSubmit` | components/employee/Evaluation.tsx:129-164 | the form closes iff the response is ok and its body parses. Otherwise the error is the unreachable or parse message, or the server's `error`, or "Failed to submit evaluation". Loading is off afterwards and the entered data is kept |
| `EvaluationForm.NotFoundMeansCreate` | components/employee/Evaluation.tsx:134-141 | a form opened without an existing evaluation posts the full default record, with both clock readings as its period, to `/evaluations` |
| `EvaluationForm.LateEvaluationPatches` | components/employee/Evaluation.tsx:71-141 | a form opened before its evaluation arrived keeps the default record, yet after the prop arrives a comments edit is sent as a PATCH to `/evaluations/{employeeId}` carrying only the comments |
| `Auth.LoadToken` | app/context/auth.tsx:35-53 | after the startup read the session is never loading. A read failure or a corrupt user entry gives token and user null. Otherwise the token is the stored one (possibly absent), and the user is the parsed entry, or null when the entry is absent or empty |
| `Auth.SignIn` | app/context/auth.tsx:57-88 | a rejection raises the server's `error` (or "Login failed") or the transport or parse message, and leaves state and store alone. On acceptance the token and then the encoded user are stored; the session gets both, keeps `isLoading` and navigates home. A failing write is raised after the writes already done, and the state stays unchanged. Only the two session keys change |
| `Auth.SignOut` | app/context/auth.tsx:89-102 | nothing is ever raised. When both removals succeed, both keys are gone, token and user become null, `isLoading` is kept, and the app navigates to login. If the first removal fails, nothing changes. If the second fails, only the token key is gone and the in-memory session is kept |
| `Auth.UseAuth` | app/context/auth.tsx:110-116 | inside a provider the hook yields its session; outside it fails with "useAuth must be used within an AuthProvider" |
| `Auth.SignInSurvivesRestart` | app/context/auth.tsx:75-82 | reading the store a successful sign-in wrote gives back the same token and user, given that JSON round-trips that user |
| `Auth.SignOutSurvivesRestart` | app/context/auth.tsx:89-97 | reading the store a completed sign-out left gives the signed-out session |
| `Auth.TokenWithoutUser` | app/context/auth.tsx:35-45 | a stored token without a stored user gives a session with that token and no user |
| `Auth.UserWithoutToken` | app/context/auth.tsx:35-45 | a stored user without a stored token gives a session with that user and no token |
| `Auth.LoadingLifecycle` | app/context/auth.tsx:25-101 | the session starts loading with no token or user. The startup read always ends loading; sign-in and sign-out never change it |

## Left out

- Rendering, styles, `Alert` pop-ups, icons and the modal wrapper (`components/employee/EvaluationModel.tsx`).
- `app/_layout.tsx`, the login screen and the employee detail screen. The detail screen's own evaluation lookup and its `PUT` update path are not part of this model.
- The `router.replace` and `router.push` calls are not performed. The navigation that transitions issue is recorded as an output.
- react-query's caching, refetching and retrying. The model covers one run of the query function.
- The `useMemo` around the filter at app/index.tsx:72-82. It has an empty dependency list, so it evaluates only on the first render, when the query has normally not resolved and `employees` is undefined. The list widget then receives `undefined`, and nothing is re-filtered when the search text or the filter changes. The model gives the filter as a pure function of list, query and filter value (`employees.filter(...)`), not what the widget displays.
- Asynchrony and interleaving of `fetch` and `AsyncStorage`, such as a sign-in racing the startup read. Each transition runs to completion with its inputs given.
- The content of the sign-in request (`POST /auth/login` with email and password). `Auth.SignIn` takes the server's answer as its input.
- JSON serialisation itself. It is an abstract `Codec`, and JSON values other than the expected records (a stored `"null"`, say) are not distinguished.
- `Auth.SignIn`: an accepted response is assumed to carry `token` and `user`. Storing an undefined token or user is not modelled.
- `EvaluationForm.PrepareUpdatePayload`: a dirty overall score with a null score state leaves the key out. In the source the key is sent holding JSON `null`.
- `Number(text)` parsing of the score, `NaN`, and floating-point details. Scores are reals.
- Unicode case mapping. `toLowerCase` and `toUpperCase` are modelled over ASCII only.
- Date formatting and salary formatting.
- The unused salary level table and the `console` logging.
- The API base URL. Paths are relative to it.
