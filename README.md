# call-home: transport client, navigation decision and feature switches

A Dafny model of three pieces of the call-home application.

- **The browser's transport client** (`ApiClient`, in `api_client.dfy`). It defines the classified errors (unauthenticated, validation, API data). It unwraps successful responses. It has four error interceptors and two clients that register them in order. The default client redirects on a 401; the other client throws `UnauthenticatedError`. A failed call settles as axios settles it: a chain of `.then(onFulfilled, onRejected)` over every registered handler. Each error handler receives what the previous one threw, and a handler that resolves causes every later error handler to be skipped. Reports to the error-monitoring service are counted, and assignments to `window.location` are recorded. Both are part of each step's result.
- **The navigation decision** (`Paths`, in `paths.dfy`). It has the route table and the pure `routeFromState` decision. The per-page `useRouting` hook is a `Routing` class: two in-flight flags, the latest service snapshots, one method per refresh settling, and the value the hook returns on a render.
- **The backend feature switches** (`Feature`, in `feature.dfy`). The environment is read once at load. The list of call-limited user ids is split on commas and converted with `Number`. The two predicates read those values.

`JsStrings` (`js_strings.dfy`) models the JavaScript string operations the code relies on: `startsWith`, `replace` with a string pattern (the first occurrence only), `split` and `join`. `Wrappers` holds `Option`.

Where the code and its own comments disagree, the model follows the code:

- **Reports of a 400.** The comment at `apiClient.ts:64` says a 400 is not reported. The classified error it throws still reaches `defaultErrorInterceptor`, which reports it once.
- **Reports of a data error.** The comment at `apiClient.ts:75` says `apiDataErrorInterceptor` swallows every error with data. The `ApiDataError` it throws after reporting still reaches `defaultErrorInterceptor`, so the failure is reported twice.
- **The last interceptor.** The comment at `apiClient.ts:85-86` says that what reaches `defaultErrorInterceptor` never reached the backend. It also receives every classified error thrown before it: `UnauthenticatedError`, `ApiValidationError`, `ApiDataError` and the `TypeError` of a 401 without a body. It also receives the raw error of a response with falsy data, such as a 500 with an empty body. It reports all of these and hands them to the caller.

On a page's own route, `useRouting` returns `shouldRender: false`, which means the page shows its own content. With `shouldRender: true`, the page shows the hook's element instead: nothing while loading, or a redirect.

## Model

| member | source | states |
|---|---|---|
| JsStrings.IndexOfFrom | frontend/src/services/apiClient.ts:22 | the result is the first occurrence of the pattern at or after the start position, or none when there is no occurrence there |
| JsStrings.ReplaceFirst | frontend/src/services/apiClient.ts:22 | with no occurrence, the string is unchanged; otherwise only the first occurrence is replaced; when the string starts with the pattern, that leading copy is the one replaced |
| JsStrings.Split | backend/src/services/Feature.ts:6 | `split` yields at least one piece, and no piece contains the separator |
| JsStrings.SplitLength | backend/src/services/Feature.ts:6 | there is one piece more than there are separators |
| JsStrings.JoinSplit | backend/src/services/Feature.ts:6 | joining the pieces of a split gives back the string |
| JsStrings.SplitJoin | backend/src/services/Feature.ts:6 | splitting a join of separator-free pieces gives back the pieces |
| ApiClient.IsValidationErrorMessage | frontend/src/services/apiClient.ts:27-29 | a validation message is exactly one that has the prefix as a prefix, and it is the prefix followed by the rest |
| ApiClient.ValidationCode | frontend/src/services/apiClient.ts:20-23 | for a validation message, the prefix followed by the stored code rebuilds the message; with no occurrence of the prefix, the code is the message |
| ApiClient.ValidationCodeRoundTrip | frontend/src/services/apiClient.ts:17-29 | a prefixed code is recognised as a validation message, and the constructor recovers the code |
| ApiClient.UnwrapResponse | frontend/src/services/apiClient.ts:32-39 | a response with truthy data becomes that data; anything else passes through unchanged |
| ApiClient.UnauthenticatedRedirectInterceptor | frontend/src/services/apiClient.ts:41-48 | rethrows unless there is a 401; a 401 with a body resolves and navigates to `data.location`, even when that is undefined; a 401 without a body throws a TypeError; it never reports |
| ApiClient.UnauthenticatedThrowInterceptor | frontend/src/services/apiClient.ts:50-57 | throws `UnauthenticatedError` exactly for a 401 with a truthy location, and a TypeError for a 401 without a body; it rethrows otherwise and never resolves, reports or navigates |
| ApiClient.BadRequestInterceptor | frontend/src/services/apiClient.ts:59-72 | rethrows exactly when there is no 400; on a 400, a validation-message string gives `ApiValidationError` with the code after the prefix, and any other body gives `ApiDataError` with that body |
| ApiClient.ApiDataErrorInterceptor | frontend/src/services/apiClient.ts:74-82 | rethrows exactly when there is no response or its data is falsy; otherwise it reports once and throws `ApiDataError` with the data |
| ApiClient.DefaultErrorInterceptor | frontend/src/services/apiClient.ts:84-89 | reports once and throws the same error |
| ApiClient.Settle | frontend/src/services/apiClient.ts:91-101 | running the handlers in order only adds reports and navigations; a resolved call stays resolved with no new effect |
| ApiClient.SettleAppend | frontend/src/services/apiClient.ts:93-101 | settling through two runs of registrations is settling through the first, then the second |
| ApiClient.ErrorInterceptors | frontend/src/services/apiClient.ts:94-99 | four interceptors: the client's unauthenticated one, then bad-request, API-data and default, in that order |
| ApiClient.ErrorHandlers | frontend/src/services/apiClient.ts:99-101 | each interceptor is registered as an error-only handler, in order |
| ApiClient.RegisteredHandlers | frontend/src/services/apiClient.ts:93-101 | a client holds five handlers: the unwrapper first, then its four error interceptors in order as error-only handlers |
| ApiClient.Pipeline | frontend/src/services/apiClient.ts:91-116 | a call through a client whose transport succeeded ends resolved, with no report and no navigation |
| ApiClient.ClientsDifferOnlyInUnauthenticatedHandler | frontend/src/services/apiClient.ts:91-116 | both clients register five handlers that agree everywhere except the second, the redirect or the throw interceptor |
| ApiClient.Client.Create | frontend/src/services/apiClient.ts:91-101 | after creation and registration, the client holds exactly the unwrapper followed by its four error handlers, so every call through it settles as `Pipeline` says |
| ApiClient.Client.Use | frontend/src/services/apiClient.ts:100 | a registration appends one handler and changes nothing else |
| ApiClient.Client.Respond | frontend/src/services/apiClient.ts:91-103 | a call whose transport succeeded ends resolved, with no report and no navigation |
| ApiClient.PipelineOnFailure | frontend/src/services/apiClient.ts:41-116 | a failed call through either client settles exactly as the one-match reference table `AsRegistered` says: outcome, number of reports and navigations |
| ApiClient.FailureSettlement | frontend/src/services/apiClient.ts:41-116 | every failure has an effect: it navigates once or is reported once or twice; it resolves exactly when it navigates and exactly when nothing is reported, and only on the redirecting client, with `undefined` |
| ApiClient.RedirectClientOn401 | frontend/src/services/apiClient.ts:41-48 | redirecting client, 401 with a body: resolves with `undefined` after one navigation to `data.location`, with no report |
| ApiClient.ClientsOn401WithoutBody | frontend/src/services/apiClient.ts:41-57 | either client, 401 without a body: the TypeError from reading `location` reaches the caller and is reported once |
| ApiClient.ThrowClientOn401 | frontend/src/services/apiClient.ts:50-57 | throwing client, 401 with a truthy location: `UnauthenticatedError`, no navigation, reported once by the last interceptor |
| ApiClient.ThrowClientFallsThrough | frontend/src/services/apiClient.ts:52-53 | throwing client, 401 with a body but no truthy location: the result is what the later handlers make of the raw error |
| ApiClient.BadRequestValidation | frontend/src/services/apiClient.ts:65-70 | a 400 whose body is a validation message reaches the caller as `ApiValidationError`, and the prefix followed by the code is the body |
| ApiClient.BadRequestData | frontend/src/services/apiClient.ts:71 | any other 400 reaches the caller as `ApiDataError` carrying the body unchanged |
| ApiClient.BadRequestIsReported | frontend/src/services/apiClient.ts:64 | a 400 is reported once, contrary to the comment that it is not reported |
| ApiClient.DataErrorReportedTwice | frontend/src/services/apiClient.ts:75 | a 500 with a text body is reported twice, once by the API-data interceptor and once by the default one |
| ApiClient.DataError | frontend/src/services/apiClient.ts:74-82 | any status but 400 and 401 with a truthy body: `ApiDataError` with that body, reported twice |
| ApiClient.UnclassifiedErrorReportedOnce | frontend/src/services/apiClient.ts:84-89 | no response, or falsy data on a status other than 400 and 401: the raw error reaches the caller, reported once |
| ApiClient.SuccessIsUnwrapped | frontend/src/services/apiClient.ts:32-39 | a successful call through either client yields its data when that is truthy, else the response itself; no report, no navigation |
| ApiClient.ResolvedSkipsErrorHandlers | frontend/src/services/apiClient.ts:99-101 | error-only handlers pass a resolved call through untouched |
| ApiClient.FirstMatch | frontend/src/services/apiClient.ts:64-86 | corrected chain, first match wins: at most one report and at most one navigation; a resolved call navigated once and was not reported |
| ApiClient.FirstMatchReportsAtMostOnce | frontend/src/services/apiClient.ts:64-75 | corrected chain: a failure is reported at most once, and not at all exactly when it is a 400 or a 401 the unauthenticated interceptor claimed |
| ApiClient.FirstMatchKeepsOutcome | frontend/src/services/apiClient.ts:91-116 | the corrected chain gives the caller the same outcome and the same navigations as the registered one; only the report count differs |
| Paths.PathString | frontend/src/scenes/paths.tsx:6-16 | every route is an absolute path |
| Paths.PathStringInjective | frontend/src/scenes/paths.tsx:6-16 | no two routes share a URL |
| Paths.RouteFromState | frontend/src/scenes/paths.tsx:19-51 | always a route: login exactly when the user or the features are unknown; contacts exactly for a verified user; otherwise phone verification before work-pass verification |
| Paths.IsVerified | frontend/src/scenes/paths.tsx:29-35 | verified exactly with an admin grant or both the phone and the work-pass gates; without a grant, an uncleared phone gate means unverified |
| Paths.AdminGoesToContacts | frontend/src/scenes/paths.tsx:30-31 | an admin grant leads to contacts whatever the other two gates say |
| Paths.Routing.constructor | frontend/src/scenes/paths.tsx:58-79 | on mount, both flags are in flight, each refresh is issued only when its service exists, and the hook returns the pending result |
| Paths.Routing.UserSettled | frontend/src/scenes/paths.tsx:65-71 | the settling user refresh drops its flag and installs its snapshot; the feature side is untouched |
| Paths.Routing.FeatureSettled | frontend/src/scenes/paths.tsx:73-79 | the settling feature refresh drops its flag and installs its snapshot; the user side is untouched |
| Paths.Routing.UserServiceChanged | frontend/src/scenes/paths.tsx:65-71 | the user effect running again issues a refresh when the new service is there; both in-flight flags, both snapshots and the hook's result stay as they were |
| Paths.Routing.FeatureServiceChanged | frontend/src/scenes/paths.tsx:73-79 | the feature effect running again issues a refresh when the new service is there; everything else stays as it was |
| Paths.Routing.Settled | frontend/src/scenes/paths.tsx:81-93 | the hook may decide only once both refreshes were issued |
| Paths.Routing.Result | frontend/src/scenes/paths.tsx:81-113 | pending until both refreshes settled and a user snapshot exists; then a redirect exactly when the decided route is not the page's own route, and the page's own content otherwise |
| Paths.Decide | frontend/src/scenes/paths.tsx:95-112 | a redirect to the route exactly when there is a route other than the page's own; otherwise the page shows itself |
| Paths.SettleInEitherOrder | frontend/src/scenes/paths.tsx:58-113 | whichever refresh settles first, nothing is decided after it; after both, the result is the decision on both snapshots, or still pending when there is no user snapshot |
| Paths.PendingUntilUserRefreshIssued | frontend/src/scenes/paths.tsx:65-86 | as long as no user refresh has been issued, the hook stays pending |
| Paths.LateServiceThenRefreshAgain | frontend/src/scenes/paths.tsx:58-113 | a user service that appears after mount is refreshed and the hook then decides; a second refresh after a change of service does not make it wait again |
| Feature.ToNumber | backend/src/services/Feature.ts:6 | the empty string converts to 0, and a string is a number exactly when it is all digits |
| Feature.Load | backend/src/services/Feature.ts:1-6 | the list has one entry per comma-separated piece of the variable (default empty), each the piece converted; the switches are kept as read |
| Feature.ShouldEnableCallLimits | backend/src/services/Feature.ts:8-10 | truthy exactly when the limit-all switch is a non-empty string or the user id is in the list; when the switch is set, its own string is returned |
| Feature.ShouldEnableAllowlistSms | backend/src/services/Feature.ts:12-14 | enabled exactly when the variable is set and non-empty, `"false"` included |
| Feature.CallLimitsFromList | backend/src/services/Feature.ts:6-10 | without the limit-all switch, a user is limited exactly when some piece of the variable converts to its id |
| Feature.CallLimitListLength | backend/src/services/Feature.ts:6 | the list has one entry more than the variable has commas |
| Feature.UnsetListLimitsUserZero | backend/src/services/Feature.ts:2-9 | with the variable unset, the list is `[0]`, so user 0 is call-limited |
| Feature.ListedIdsAreLimited | backend/src/services/Feature.ts:6-10 | a comma-joined list of ids limits exactly the users whose id one of them converts to |

## Left out

- The HTTP transport itself and `axiosRetry`. The retry layer is registered at `apiClient.ts:92` and `:107`, ahead of the unwrapper, and its code is not part of this model. A call enters the model as already succeeded or already failed. The report counts and outcomes hold for a call that the retry layer does not retry.
- The error-monitoring service appears only as a count of reports. `window.location` appears only as the recorded value assigned to it.
- The asynchronous timing of the chain: microtasks and the fact that handlers are `async`. Only the order of settlement is modelled.
- Response bodies are absent, a string or a string-valued record. Numeric, boolean and nested bodies are not modelled. A `location` that is not a string is not modelled either.
- ApiClient.UnwrapResponse: a response object that is itself null or undefined is not modelled, since axios always passes one.
- React's scheduling of renders and effects, and the JSX `<Redirect>` element, which becomes a `RedirectTo` value. The refresh calls become the two settle methods. The services' own logic is not part of this model.
- Feature.ToNumber: weaker than JavaScript `Number`. Only plain decimal digits convert. Whitespace, signs, decimals, exponents and hexadecimal all become NaN here, although `Number` accepts them. A digit string whose value exceeds 2^53 is kept exact here, where `Number` rounds it to the nearest double, so two long ids that differ only beyond that precision count as equal in the source but not in the model.
- Feature.ShouldEnableCallLimits: the user id is a natural number. `Number(userId)` of a number is the number itself, and NaN, negative and fractional ids are not modelled.
- Paths.Routing: the service snapshots change only when a refresh settles. In the source, a re-render can also bring a new `userState` or `featureState` from the contexts at any time. A refresh issued by a re-run effect is not tracked as outstanding, since the source does not set the in-flight flag back to true either.
- `RecentCallsPage.tsx` and `AllowlistEntry.ts` are not part of this model.

## Findings

| source | as written | input that shows it | evidently intended | confidence | as-written member | corrected member |
|---|---|---|---|---|---|---|
| frontend/src/services/apiClient.ts:74-89 | every registered error handler receives what the previous one threw, so the `ApiDataError` thrown after the first report still reaches `defaultErrorInterceptor` and is reported again | a 500 response with body `"Internal Server Error"` | the API-data interceptor swallows the error (line 75), and each failure is reported once | not executed | ApiClient.DataErrorReportedTwice | ApiClient.FirstMatchReportsAtMostOnce |
| frontend/src/services/apiClient.ts:59-72 | the error thrown by `badRequestInterceptor` reaches `defaultErrorInterceptor`, which reports it | any 400 response, e.g. body `"Validation Error: x"` | a 400 is not reported (line 64) | not executed | ApiClient.BadRequestIsReported | ApiClient.FirstMatchReportsAtMostOnce |

The corrected chain, `ApiClient.FirstMatch`, lets the first interceptor that does anything other than rethrow decide the outcome alone. `ApiClient.FirstMatchKeepsOutcome` proves that the correction changes only how often a failure is reported. The caller sees the same outcome and the same navigation.
