# tc-frontend core, modelled in Dafny

tc-frontend is the admin front end of a training centre: staff sign in, then
list, create and edit users, courses and leads. This project models the
deterministic logic under its screens and proves what that logic promises:

- the shared HTTP client's CSRF handling. A cached token is attached to
  every request that is not a `get` and not aimed at the token endpoint.
  The token is fetched when the cache is empty. A request refused with 403
  gets a fresh token and is resent once;
- the query parameters of the three list requests (`getUsers`,
  `getCourses`, `getLeads`): page defaults, `sortBy` split into
  `sortField` and `sortOrder`, other filters forwarded. It also models
  `cleanEmptyParams`, which strips empty values and default page keys from
  a URL search map;
- the paths and bodies of the single-item and patch requests;
- the zod schemas of the create, patch and login forms and the shared
  enums, including each issue's path and message;
- the edit forms' submit handlers. Each builds a PATCH payload holding
  the id plus the fields that changed;
- the role pickers and the debounced select: set toggling, option
  filtering and the trigger text;
- the session reducer, the `requireRole` route guard and
  `getAxiosErrorMessage`.

Each source file is one module. `js.dfy` (module `Js`) holds the
JavaScript runtime the code relies on:
- loose values and truthiness;
- `undefined` versus `null`;
- a `TypeError` when a property of a nullish value is read;
- ASCII `toLowerCase`;
- `split`, `includes`, `endsWith`;
- an insertion-ordered `Set` as `Array.from(new Set(...))` lists it.

The CSRF client works on shared mutable state, so it is a class
(`AxiosConfig.ApiClient`). Its `csrfToken` field is the module-level cache;
its `calls` field records every call that reached the server. Its methods
are proved equal to spec functions of the client state (`FetchSpec`,
`RequestSpec`, `SendSpec`, `DispatchSpec`, `OnErrorSpec`). The lemmas are
stated over those spec functions. The server is an oracle: the k-th call is
answered by a function of k and of the request. The session slice is a
class, `SessionSlice.SessionStore`, whose methods are tied to the pure
reducer `Reduce`. The select's value state is a class,
`DebouncedSelect.SelectState`. Handlers that build a payload field by field
are methods: `onSubmit` in the patch forms, the role toggles and
`cleanEmptyParams`. Each is specified by a predicate or function that the
lemmas use. Schemas, request builders and helpers are functions.

Each zod schema is a function returning the list of issues, in the order
zod reports them. Field order comes first, then each field's checks in
order. A form submits exactly when the list is empty. The create and patch forms
attach their schema as the `onSubmit` validator. The login form attaches it
as the `onChange` validator, which TanStack Form also runs on submit. The email check `z.email`
is a parameter `isEmail: string -> bool`.

Two behaviours of the code worth knowing:
- the request interceptor exempts only the `get` method. HEAD and OPTIONS,
  which section 9.2.1 of RFC 9110 calls safe, still get a token, and so
  does a request without a method (`AxiosConfig.SafeMethodsNeedToken`);
- `getUsers` puts the page defaults back into the params, so the list
  requests always carry `pageIndex` and `pageSize`, even after
  `cleanEmptyParams` has removed them from the URL.

## Model

| member | source | states |
|---|---|---|
| ParamsUtils.CleanEmptyParams | src/shared/utils/params.utils.ts:6-29 | the key-by-key deletion loop over a copy yields exactly the cleaned map; the argument map is a value and cannot change |
| ParamsUtils.CleanedSpec | src/shared/utils/params.utils.ts:9-28 | result keys are a subset of the input's, surviving values are identical, and every `undefined`, `''`, NaN or empty-array value is dropped |
| ParamsUtils.PageKeysDropped | src/shared/utils/params.utils.ts:25-26 | `pageIndex` (`pageSize`) is removed exactly when it equals the default, and is kept unchanged otherwise |
| ParamsUtils.FalsyFiltersKept | src/shared/utils/params.utils.ts:14-23 | `0`, `false` and `null` under an ordinary key survive unchanged |
| ParamsUtils.CleanIdempotent | src/shared/utils/params.utils.ts:11-26 | cleaning an already-cleaned map changes nothing |
| ParamsUtils.DefaultsOmitted | src/shared/utils/params.utils.ts:25-26 | a map holding only the default page keys cleans to the empty map |
| ParamsUtils.OtherPageKept | src/shared/utils/params.utils.ts:25 | a non-default page index is kept |
| ListRequest.WithDefault | src/features/users/api/users.api.ts:15-20 | a destructuring default applies exactly when the key is absent or `undefined` |
| ListRequest.ListParams | src/features/users/api/users.api.ts:15-32 | fails (a `TypeError` from `.split`) exactly when `sortBy` is truthy and not a string; both page keys are always present with their defaulted values; `sortBy` never appears; other filters are forwarded unchanged; no key beyond the filters and the four generated ones; a truthy `sortBy` adds both sort keys |
| ListRequest.SortKeys | src/features/users/api/users.api.ts:28-32 | a non-empty string `sortBy` gives `sortField` = first dot-segment and `sortOrder` = the second, or `undefined` when there is none |
| ListRequest.SortFieldAndOrder | src/features/users/api/users.api.ts:28-32 | `sortBy = "f.o"` gives `sortField = f`, `sortOrder = o` |
| ListRequest.SortWithoutOrder | src/features/users/api/users.api.ts:29-31 | a `sortBy` without a dot sorts by the whole string and leaves `sortOrder` undefined |
| ListRequest.ExtraSegmentsDropped | src/features/users/api/users.api.ts:29-31 | segments after the second are dropped |
| ListRequest.FalsySortAddsNothing | src/features/users/api/users.api.ts:28 | an absent or empty `sortBy` adds neither sort key: the keys are the other filters plus the two page keys |
| ListRequest.MissingPageKeysDefaulted | src/features/users/api/users.api.ts:15-26 | missing page keys get the defaults |
| UsersApi.GetUsers | src/features/users/api/users.api.ts:12-39 | a `get` of `/users` whose params are exactly the list params; fails exactly when they do |
| UsersApi.GetUsersNeedsNoToken | src/features/users/api/users.api.ts:34-36 | the list request passes the CSRF interceptor unchanged |
| CoursesApi.GetCourses | src/features/courses/api/courses.api.ts:18-48 | a `get` of `/courses` with exactly the list params (defaults filled, `sortBy` split, other filters forwarded) |
| CoursesApi.GetCourse | src/features/courses/api/courses.api.ts:53-56 | a `get` whose URL is `/courses/` followed by exactly `id` |
| CoursesApi.PatchCourse | src/features/courses/api/courses.api.ts:92-100 | a `patch` of `/courses/` + `courseData.id` whose body is the whole payload, `id` included |
| CoursesApi.GetCourseNeedsNoToken | src/features/courses/api/courses.api.ts:53-56 | the single-course read needs no token |
| CoursesApi.PatchCourseNeedsToken | src/features/courses/api/courses.api.ts:92-100 | an id that neither is `csrf` nor ends in `/csrf` always gets the token on the patch |
| CoursesApi.PatchCourseExemptIff | src/features/courses/api/courses.api.ts:92-100 | the patch skips the token exactly when the id is `csrf` or ends in `/csrf` |
| CoursesApi.CsrfNamedCourseSkipsToken | src/features/courses/api/courses.api.ts:95-96 | a course whose id is `csrf` is patched without a token, since its URL ends with `/csrf` |
| LeadsApi.GetLeads | src/features/leads/api/leads.api.ts:22-49 | a `get` of `/leads` with exactly the list params |
| LeadsApi.GetLead | src/features/leads/api/leads.api.ts:54-57 | a `get` of `/leads/` + `id` |
| LeadsApi.PatchLead | src/features/leads/api/leads.api.ts:92-100 | a `patch` of `/leads/` + `leadData.id` with the whole payload as body |
| LeadsApi.PatchLeadNeedsToken | src/features/leads/api/leads.api.ts:92-100 | an id that neither is `csrf` nor ends in `/csrf` always gets the token on the patch |
| LeadsApi.PatchLeadExemptIff | src/features/leads/api/leads.api.ts:92-100 | the patch skips the token exactly when the id is `csrf` or ends in `/csrf` |
| AxiosConfig.ApiClient.FetchCsrfToken | src/config/axios.config.ts:17-27 | one `GET /csrf`; the new cache and result are those of `FetchSpec` |
| AxiosConfig.ApiClient.InterceptRequest | src/config/axios.config.ts:30-51 | the request interceptor's new cache, calls and result are those of `RequestSpec` |
| AxiosConfig.ApiClient.Send | src/config/axios.config.ts:30-80 | a full call (both interceptors, the server, the resend) leaves the state and result of `SendSpec` |
| AxiosConfig.ApiClient.OnResponseError | src/config/axios.config.ts:57-79 | the response interceptor's error handler leaves the state and result of `OnErrorSpec` |
| AxiosConfig.ApiClient.constructor | src/config/axios.config.ts:7 | the cache starts as `null`, with no calls made |
| AxiosConfig.ExemptPassesThrough | src/config/axios.config.ts:32-38 | a method that lower-cases to `get` (any letter case), or a URL ending in `/csrf`, passes through unchanged with no fetch |
| AxiosConfig.SafeMethodsNeedToken | src/config/axios.config.ts:32-38 | HEAD, OPTIONS and a missing method (read as `''`) are not exempt |
| AxiosConfig.ItemUrlEndsWithCsrf | src/config/axios.config.ts:36 | for a URL `prefix/` + id, `url.endsWith('/csrf')` holds exactly when the id is `csrf` or itself ends in `/csrf` |
| AxiosConfig.TokenAttached | src/config/axios.config.ts:41-46 | every other request leaves with `x-csrf-token` equal to the cached token; a fetch happens exactly when the cache is falsy; a failed fetch rejects with its own error and keeps the cache |
| AxiosConfig.FetchOutcome | src/config/axios.config.ts:17-27 | a successful fetch stores the issued token; a failed one keeps the cache and rethrows |
| AxiosConfig.CsrfCallsNeverRetried | src/config/axios.config.ts:59-63 | the token request is exempt and its failures never qualify for a resend |
| AxiosConfig.NonQualifyingRejected | src/config/axios.config.ts:59-78 | an error that is not an unretried 403 outside `/csrf` is rejected unchanged, with no call made |
| AxiosConfig.RequestFailureSurfaces | src/config/axios.config.ts:41-43 | when the interceptor's token fetch fails, the caller gets that error and nothing is dispatched |
| AxiosConfig.RequestShape | src/config/axios.config.ts:30-51 | the request interceptor makes at most the token call, keeps `_retry` and the URL, and its rejections never qualify for a resend |
| AxiosConfig.SendBound | src/config/axios.config.ts:59-71 | at most one resend: a request reaches the server at most twice (once if already marked `_retry`); calls are only appended |
| AxiosConfig.DispatchBound | src/config/axios.config.ts:55-78 | the same bound from the point the request reaches the server |
| AxiosConfig.ErrorBound | src/config/axios.config.ts:59-78 | the error handler dispatches at most once, and only for a qualifying error |
| AxiosConfig.AcceptedPassesThrough | src/config/axios.config.ts:55 | when the server accepts, the call resolves with the response to the intercepted request, sent once |
| AxiosConfig.ForbiddenTwiceSurfaces | src/config/axios.config.ts:61-78 | a request refused twice is sent exactly twice and surfaces the second 403; the resend is marked `_retry` and carries the last-fetched token |
| AxiosConfig.ForbiddenRefetched | src/config/axios.config.ts:58-71 | a 403 to a request not yet retried, then an issued token: the token is cached and the request goes through the interceptor again with `_retry` set and the new header |
| AxiosConfig.RefetchFailed | src/config/axios.config.ts:58-75 | a 403 to a request not yet retried, then a failed token fetch: the fetch's error surfaces, nothing is resent, the cache is kept |
| AxiosConfig.ForbiddenResent | src/config/axios.config.ts:64-71 | after the first 403: `_retry` set, token refetched, header replaced, request resent |
| AxiosConfig.ResendForbidden | src/config/axios.config.ts:61-78 | a 403 on the resent request is rejected as it stands |
| AxiosConfig.RefetchFailureSurfaces | src/config/axios.config.ts:65-75 | if the refetch fails, the caller gets the refetch error instead of the 403, nothing is resent and the cache is kept |
| Zod.Check | src/features/session/components/login-form.tsx:16-20 | a failing check gives exactly one issue at its path with its message; a passing one gives none |
| Zod.EnumIssues | src/shared/schema/enum.schema.ts:4-35 | accepted exactly when the value is an option; otherwise one issue with the enum's message |
| Zod.ItemIssues | src/features/users/components/form/patch-user-form.tsx:39-41 | no issues exactly when every element is an option; at most one per element, each with the enum's message |
| EnumSchema.PriorityAcceptsExactly | src/shared/schema/enum.schema.ts:4-6 | accepts exactly LOW, MEDIUM, HIGH; rejects with "Please select a priority" |
| EnumSchema.LeadSourceAcceptsExactly | src/shared/schema/enum.schema.ts:10-21 | accepts exactly the seven sources; rejects with the source message |
| EnumSchema.LeadStatusAcceptsExactly | src/shared/schema/enum.schema.ts:25-28 | accepts exactly the six statuses; rejects with the status message |
| EnumSchema.CourseCategoryAcceptsExactly | src/shared/schema/enum.schema.ts:32-35 | accepts exactly TECH, BUSINESS, LANGUAGE, OTHER; rejects with the category message |
| EnumSchema.EmptyRejectedEverywhere | src/shared/schema/enum.schema.ts:4-35 | the `''` that the forms start from is rejected by every enum |
| PatchUserForm.DefaultValues | src/features/users/components/form/patch-user-form.tsx:60-67 | the form starts from the loaded user, a `null` phone shown as `''` |
| PatchUserForm.IssuesEmptyIff | src/features/users/components/form/patch-user-form.tsx:35-42 | the schema accepts exactly: any name, a valid email, any phone, a non-empty list of known roles |
| PatchUserForm.NormalizePhone | src/features/users/components/form/patch-user-form.tsx:74-75 | `''` and `null` both become `null`; any other phone is kept |
| PatchUserForm.OnSubmit | src/features/users/components/form/patch-user-form.tsx:71-111 | the payload has `id = user.id`; name, email and status exactly when changed; phone exactly when the normalised phones differ (`''` sent as `null`); roles exactly when lengths differ or some submitted role is missing; no other key |
| PatchUserForm.PhoneSentIff | src/features/users/components/form/patch-user-form.tsx:88-94 | `phone` is sent exactly when the field and the loaded phone differ after `''`→`null` |
| PatchUserForm.UntouchedSendsOnlyId | src/features/users/components/form/patch-user-form.tsx:72-110 | an untouched form still sends a payload, holding only the id |
| PatchUserForm.ClearedPhoneSendsNull | src/features/users/components/form/patch-user-form.tsx:88-94 | clearing a phone sends `phone: null` |
| PatchUserForm.EmptyPhoneUnchanged | src/features/users/components/form/patch-user-form.tsx:88-94 | a `null` phone left empty sends no `phone` |
| PatchUserForm.ReorderedRolesNotSent | src/features/users/components/form/patch-user-form.tsx:97-103 | a reordering of the roles sends no `roles` |
| PatchUserForm.ChangedRolesSent | src/features/users/components/form/patch-user-form.tsx:97-103 | a length change or a new role sends the submitted roles |
| PatchUserForm.DuplicateRolesHideRemoval | src/features/users/components/form/patch-user-form.tsx:97-99 | the one-directional check lets `[ADMIN, ADMIN]` over `[ADMIN, STAFF]` pass as unchanged although the sets differ |
| PatchUserForm.NameFreeRolesRequired | src/features/users/components/form/patch-user-form.tsx:35-42 | an empty name is accepted; an empty role list is not |
| PatchUserForm.Submit | src/features/users/components/form/patch-user-form.tsx:68-111 | a payload is sent exactly when the schema accepts the value, and it is the `onSubmit` diff |
| PatchLeadForm.OnSubmit | src/features/leads/components/form/patch-lead-form.tsx:86-126 | the same user diff: `id` always, each field exactly when changed |
| PatchLeadForm.ToggleRole | src/features/leads/components/form/patch-lead-form.tsx:250-256 | the new roles are duplicate-free and differ from the old ones in the picked role's membership only |
| PatchLeadForm.DeselectLastRoleRejected | src/features/leads/components/form/patch-lead-form.tsx:250-256 | deselecting the only role leaves a value the schema rejects with the roles message |
| PatchLeadForm.ClearedRolesRejected | src/features/leads/components/form/patch-lead-form.tsx:279 | "Clear selections" leaves a value the schema rejects |
| PatchCourseForm.DefaultValues | src/features/courses/components/form/patch-course-form.tsx:75-84 | the form starts from the loaded course, a `null` description shown as `''` |
| PatchCourseForm.IssuesEmptyIff | src/features/courses/components/form/patch-course-form.tsx:41-56 | the schema accepts exactly: a non-empty title, weeks in [0,7], hours in [0,24], a known category |
| PatchCourseForm.AddChangedFields | src/features/courses/components/form/patch-course-form.tsx:93-100 | each numeric field, category and status is added exactly when it differs from the course; earlier keys are kept |
| PatchCourseForm.OnSubmitAsWritten | src/features/courses/components/form/patch-course-form.tsx:86-103 | the handler as written: `id`, then each field exactly when it differs, the description compared with the raw, possibly `null`, value |
| PatchCourseForm.OnSubmit | src/features/courses/components/form/patch-course-form.tsx:86-103 | the same diff with the description compared with the value the field started from |
| PatchCourseForm.UntouchedNullDescriptionSentAsWritten | src/features/courses/components/form/patch-course-form.tsx:78-92 | as written, an untouched course without a description sends `description: ''` |
| PatchCourseForm.DescriptionDiffAsWritten | src/features/courses/components/form/patch-course-form.tsx:91-92 | as written, a course with a description sends it exactly when changed |
| PatchCourseForm.UntouchedSendsOnlyId | src/features/courses/components/form/patch-course-form.tsx:87-102 | corrected: an untouched form sends only the id |
| PatchCourseForm.NoUnchangedValueSent | src/features/courses/components/form/patch-course-form.tsx:87-100 | corrected: no key but `id` carries an unchanged value |
| PatchCourseForm.HandlersAgreeOtherwise | src/features/courses/components/form/patch-course-form.tsx:91-92 | the two handlers agree except on an untouched `null` description |
| PatchCourseForm.Submit | src/features/courses/components/form/patch-course-form.tsx:85-103 | a payload is sent exactly when the schema accepts, and it is the corrected diff |
| CreateUserForm.IssuesEmptyIff | src/features/users/components/form/create-user-form.tsx:39-51 | accepts exactly: a non-empty name, a valid email, 8 to 50 password characters, a non-empty list of known roles |
| CreateUserForm.DefaultsRejected | src/features/users/components/form/create-user-form.tsx:77-85 | the defaults fail on name, password and roles |
| CreateUserForm.PasswordBoundsInclusive | src/features/users/components/form/create-user-form.tsx:42-45 | passwords of 8 and of 50 characters are accepted |
| CreateUserForm.Submit | src/features/users/components/form/create-user-form.tsx:85-88 | the value is forwarded unchanged exactly when the name is non-empty, the email is valid, the password has 8 to 50 characters and the roles are non-empty and all known |
| CreateUserForm.ToggleRole | src/features/users/components/form/create-user-form.tsx:230-236 | a selection removes the role if present and adds it otherwise; the other roles stay; no duplicates |
| CreateUserForm.ToggleRoleTwice | src/features/users/components/form/create-user-form.tsx:230-236 | toggling a role twice restores the set of roles |
| CreateUserForm.ClearedRolesBlockSubmit | src/features/users/components/form/create-user-form.tsx:259 | after "Clear selections" nothing is submitted |
| CreateCourseForm.RangeIssuesEmptyIff | src/features/courses/components/form/create-course-form.tsx:41-48 | no range issues exactly when weeks are in [0,7] and hours in [0,24] |
| CreateCourseForm.IssuesEmptyIff | src/features/courses/components/form/create-course-form.tsx:38-52 | accepts exactly: a non-empty title, both ranges, a known category |
| CreateCourseForm.DefaultsRejected | src/features/courses/components/form/create-course-form.tsx:75-84 | the defaults fail on exactly the title and the category; the zero numbers pass |
| CreateCourseForm.RangesInclusive | src/features/courses/components/form/create-course-form.tsx:41-48 | the bounds 0, 7 and 24 are inclusive; 8, 25 and -1 are rejected |
| CreateCourseForm.Submit | src/features/courses/components/form/create-course-form.tsx:84-85 | forwarded unchanged exactly when the title is non-empty, weeks are 0 to 7, hours 0 to 24 and the category is known |
| CreateLeadForm.DefaultValues | src/features/leads/components/form/create-lead-form.tsx:80-89 | `userId` is the prop; name, enums and courses start empty |
| CreateLeadForm.IssuesEmptyIff | src/features/leads/components/form/create-lead-form.tsx:46-55 | accepts exactly: a non-empty name, a valid email, any phone, known source, status and priority, at least one course |
| CreateLeadForm.DefaultsRejected | src/features/leads/components/form/create-lead-form.tsx:80-90 | the defaults fail on the name, each enum and the courses |
| CreateLeadForm.EmptyPhoneAccepted | src/features/leads/components/form/create-lead-form.tsx:49 | an empty phone never makes a valid value invalid |
| CreateLeadForm.Submit | src/features/leads/components/form/create-lead-form.tsx:90-93 | forwarded unchanged exactly when the name is non-empty, the email valid, source, status and priority known and at least one course chosen |
| CreateLeadForm.CourseOptions | src/features/leads/components/form/create-lead-form.tsx:161-164 | one option per course, in order, labelled with its title and valued with its id |
| CreateLeadForm.LoadOptionsRequest | src/features/leads/components/form/create-lead-form.tsx:160 | the search is sent as the `title` filter with the default page keys |
| CreateLeadForm.LoadedOptionsShownAsReturned | src/features/leads/components/form/create-lead-form.tsx:159-165 | the options the picker shows are exactly the mapped courses |
| LoginForm.IssuesEmptyIff | src/features/session/components/login-form.tsx:15-21 | accepts exactly a valid email and 8 to 50 password characters |
| LoginForm.DefaultsRejected | src/features/session/components/login-form.tsx:26-30 | the empty defaults are rejected |
| LoginForm.LongPasswordMessage | src/features/session/components/login-form.tsx:19-20 | a 51-character password reports only the upper-bound message |
| LoginForm.Submit | src/features/session/components/login-form.tsx:27-30 | `{ email, password }` goes to `login` unchanged, exactly when valid |
| DebouncedSelect.SelectedValues | src/shared/components/ui/debounced-select.tsx:90-92 | the array's distinct elements, a singleton for a non-empty string, empty for `''` |
| DebouncedSelect.FilterStatic | src/shared/components/ui/debounced-select.tsx:86-88 | exactly the options whose lower-cased label contains the lower-cased search |
| DebouncedSelect.FilteredOptions | src/shared/components/ui/debounced-select.tsx:84-88 | with `loadOptions`, exactly the loaded options; otherwise the filtered static ones |
| DebouncedSelect.FilterConcat | src/shared/components/ui/debounced-select.tsx:86-88 | filtering keeps the original order: it distributes over concatenation |
| DebouncedSelect.EmptySearchKeepsAll | src/shared/components/ui/debounced-select.tsx:86-88 | an empty search keeps every option |
| DebouncedSelect.SearchIgnoresCase | src/shared/components/ui/debounced-select.tsx:87 | the match does not depend on the search's letter case |
| DebouncedSelect.Find | src/shared/components/ui/debounced-select.tsx:117 | finds an option with the value when there is one, and none otherwise |
| DebouncedSelect.SelectedLabels | src/shared/components/ui/debounced-select.tsx:114-116 | every label shown belongs to a displayed, selected option, and every displayed, selected option's label is shown |
| DebouncedSelect.SelectedLabelsConcat | src/shared/components/ui/debounced-select.tsx:114-116 | labels keep the order of the displayed options |
| DebouncedSelect.TwoSelectedShowsBoth | src/shared/components/ui/debounced-select.tsx:110-116 | two selections shown as options read "A, B", in the options' order |
| DebouncedSelect.TriggerLabel | src/shared/components/ui/debounced-select.tsx:110-119 | placeholder when nothing is selected; "N selected" for more than two in multiple mode; else the joined labels; in single mode, the found option's label |
| DebouncedSelect.SingleShowsLabel | src/shared/components/ui/debounced-select.tsx:117 | a single selection shows the first displayed option with that value |
| DebouncedSelect.FindFirst | src/shared/components/ui/debounced-select.tsx:117 | `find` returns the first match |
| DebouncedSelect.ThreeSelected | src/shared/components/ui/debounced-select.tsx:112-113 | three distinct values show "3 selected" |
| DebouncedSelect.SelectState.ToggleValue | src/shared/components/ui/debounced-select.tsx:94-103 | multiple mode flips `val` in the selected set; single mode clears on the current value and selects otherwise |
| DebouncedSelect.SelectState.Clear | src/shared/components/ui/debounced-select.tsx:169 | the value becomes `[]`, nothing selected |
| DebouncedSelect.MultipleToggleFlipsOne | src/shared/components/ui/debounced-select.tsx:95-99 | a toggle changes the membership of that value only |
| DebouncedSelect.MultipleToggleTwice | src/shared/components/ui/debounced-select.tsx:95-99 | toggling twice restores the selected set |
| Js.SetOf | src/shared/components/ui/debounced-select.tsx:90-92 | `Array.from(new Set(xs))`: duplicate-free, the same members as `xs` |
| Js.Toggle | src/shared/components/ui/debounced-select.tsx:96-99 | the `has`/`delete`/`add` step: duplicate-free, with only `v`'s membership flipped |
| Js.ToggleTwice | src/shared/components/ui/debounced-select.tsx:96-99 | two toggles of the same value restore the members |
| SessionSlice.Reduce | src/features/session/store/session.slice.ts:16-31 | `logout` drops the session and keeps readiness; `fulfilled` stores the payload's session and sets ready; `rejected` drops the session and sets ready |
| SessionSlice.ReadyStaysReady | src/features/session/store/session.slice.ts:16-31 | once ready, no sequence of actions makes the state unready |
| SessionSlice.ReadyIffFetchSettled | src/features/session/store/session.slice.ts:6-31 | from an unready state, the state is ready exactly when some fetch has settled |
| SessionSlice.LogoutIdempotent | src/features/session/store/session.slice.ts:17-19 | logging out twice is logging out once |
| SessionSlice.EarlyLogoutKeepsInitial | src/features/session/store/session.slice.ts:6-19 | a logout before any fetch leaves the initial state |
| SessionSlice.SessionStore.constructor | src/features/session/store/session.slice.ts:6-9 | no session, not ready |
| SessionSlice.SessionStore.Logout | src/features/session/store/session.slice.ts:17-19 | the in-place update equals `Reduce` with `logout` |
| SessionSlice.SessionStore.Fulfilled | src/features/session/store/session.slice.ts:23-26 | the in-place update equals `Reduce` with `fulfilled` |
| SessionSlice.SessionStore.Rejected | src/features/session/store/session.slice.ts:27-30 | the in-place update equals `Reduce` with `rejected` |
| RouterUtils.SomeAllowed | src/shared/utils/router.utils.ts:4 | true exactly when some allowed role is among the user's roles |
| RouterUtils.RequireRole | src/shared/utils/router.utils.ts:3-8 | returns exactly when some allowed role is held (an omitted list counts as `[]`); otherwise redirects to `/403` |
| RouterUtils.EmptyAllowedRedirects | src/shared/utils/router.utils.ts:4-7 | no allowed roles always redirects |
| RouterUtils.OmittedRolesRedirect | src/shared/utils/router.utils.ts:3-7 | omitted user roles always redirect |
| RouterUtils.MembershipOnly | src/shared/utils/router.utils.ts:4 | the outcome depends only on the members of both lists, not order or duplicates |
| AxiosUtils.GetAxiosErrorMessage | src/shared/utils/axios.utils.ts:9-19 | axios errors without a response give the fallback, and throw when the response has no `data`; non-axios `Error`s give their `message`; anything else gives "Something went wrong" |
| AxiosUtils.AxiosBranchTruthy | src/shared/utils/axios.utils.ts:11 | the axios branch never yields an empty or falsy message |
| AxiosUtils.ServerMessageShown | src/shared/utils/axios.utils.ts:11 | a non-empty server message is shown as sent |
| AxiosUtils.AxiosTakesPrecedence | src/shared/utils/axios.utils.ts:10-16 | an axios error that is also an `Error` takes the axios branch |
| AxiosUtils.GuardNeedsTrue | src/shared/utils/axios.utils.ts:24-33 | `isAxiosError` must be exactly `true`; a truthy string does not pass |
| AxiosUtils.NonObjectsGeneric | src/shared/utils/axios.utils.ts:18 | `null`, primitives and arrays give "Something went wrong" |

## Left out

- HTTP and asynchrony: the axios instance, its base URL and `withCredentials`, promises, and the session API wrappers. The server is an oracle parameter.
- `qs.stringify` serialisation of repeated array params: a foreign library call.
- Concurrency around the token cache, such as two first requests fetching at once: the model is sequential.
- Debounce timers, the debounced input, react-query caching and the query-options files: timing and caching, not data logic.
- JSX rendering, tables, toolbars, sidebars, providers, the columns files and the hooks with side effects (`dispatch`, `window.location`).
- The zod email regex: the email check is the parameter `isEmail`.
- Course numbers are integers. NaN and fractions from `+e.target.value` are not modelled.
- `toLowerCase` is ASCII only; lengths count characters, not UTF-16 code units.
- JavaScript object key order: payloads and params are maps.
- `DEFAULT_PAGE_INDEX`, `DEFAULT_PAGE_SIZE`, `Filters` and `PaginatedData` are not part of this model; the page defaults are a parameter.
- `getUser`, `patchUser`, `PatchUsersPayload` and `roleEnum` are not part of this model. The role enum is taken as ADMIN, STAFF and INSTRUCTOR with zod's built-in message, as the role pickers list them.
- The badge labels and layout of the role pickers: rendering only.
- `in` and property reads follow the prototype chain in JavaScript. The model reads own fields only.
- ListRequest.ListParams: a non-string truthy `sortBy` is modelled as a `TypeError`. A value with its own `split` method is not modelled.
- AxiosConfig.ApiClient.Send: axios' merge of the config into a fresh object per call is taken as given, so requests are values. The in-place `_retry` assignment is seen only through the resent request.
- AxiosUtils.GetAxiosErrorMessage: a non-string truthy `message` is returned as it is, not as a string.

## Findings

| source | as written | input that shows it | evidently intended | confidence | as-written member | corrected member |
|---|---|---|---|---|---|---|
| src/features/courses/components/form/patch-course-form.tsx:78-92 | the description field starts as `course.description ?? ''` but is compared with the raw `course.description` | a course whose `description` is `null`, submitted untouched: `'' !== null`, so `description: ''` is sent | send the description only when it differs from the value the field started from | medium, not executed | PatchCourseForm.UntouchedNullDescriptionSentAsWritten | PatchCourseForm.UntouchedSendsOnlyId |
