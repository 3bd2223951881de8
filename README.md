# legal-tech-frontend: session, routing and form logic in Dafny

This project models the logic of the legal-tech web front end: its session
store, how a user is routed to a dashboard, and the forms users fill in.
Each part of the model carries proofs of the promises it makes.

- **Session store** (`AuthStore`). It holds `user`, `loading`, `error` and
  `initialized`. `fetchMe`, `init` and `logout` change it, and so does the
  dashboard's hydration writer. The store is a class whose methods are
  proved against functions on a `Session` value. Lemmas over sequences of
  operations prove three things: between two `/users/me` requests there is
  always a completion or a hydration, `init` is idempotent, and `loading ==> user == null` always holds.
- **Hydration writer** (`ClientInit`). It is an effect, guarded by a ref, that
  copies the server-fetched user into the store.
- **Dashboard resolver** (`NavUtils`). `getDashboardUrl` picks one of the
  dashboard variants from `org_type`, the role tags and the ids. The model
  proves the precedence tier by tier: once a user's highest tag is of one
  tier, adding any tags of no higher tier never changes the URL. It also
  proves that the URL is the `/`-joined path of a resolved variant, and that
  no two variants share a URL.
- **Edge guard** (`Proxy`). Dashboard requests without an `access_token`
  cookie are redirected to `/signin`. The model proves the guard cannot loop.
- **Dashboard landing page** (`DashboardPage`). It decides where to redirect
  once the store has settled, and the model relates that decision to the
  resolver and to the guard.
- **Sign-in page** (`SignIn`):
  - field validation, including the unanchored e-mail pattern `\S+@\S+\.\S+`;
  - the outcome of a login attempt and the error text shown;
  - the page state changed by `validateForm` and `handleSubmit`.
- **Sign-up page**:
  - `SignUpRules` holds the validators: the password lookahead pattern, the
    firm-name pattern, the person-name pattern and the strict e-mail pattern.
    The password, person-name and e-mail patterns each have a structural
    reading, proved equal to a character-level test. The firm-name pattern is
    a single character class with a length bound, so its character-level
    test `FirmNameTest` is the only reading given.
  - `SignUpPage` holds the page: the role cards, the three steps,
    `handleChange`, the terms box and the submit handler.
- **Sidebar** (`AppSidebar`). It covers the menu, which entry is highlighted,
  and the Switch View button. One lemma spans the sidebar and the resolver. It
  proves that the admin path the resolver gives to a user who can switch
  never contains `/firm/admin`, so from there the button always leads to the
  admin view.
- **Server fetch helper** (`ApiServer`). `fetchServer` builds a URL, headers
  and a cache mode from the environment, the cookie and the caller's options.
  It maps any failed response to `null`.

`Options` and `Text` hold shared definitions:
- an `Option` type;
- prefixes and substrings;
- splitting and joining paths;
- ECMAScript white space and `trim()`;
- decimal rendering of integers, as `toString()` does it.

Five behaviours of the source that a reader may not expect:

- `fetchMe` never sets `initialized`; `init` sets it before it calls
  `fetchMe` (`AuthStore.FetchLeavesInitialized`).
- `fetchServer` returns `null` for every failed status, not only 401
  (`ApiServer.HandleResponse`).
- The dashboard landing page does not consult the resolver. It sends SOLO
  users to `/dashboard/solo` and FIRM users to `/dashboard/firm`, and for any
  other org type it takes no action (`DashboardPage.TargetAgreesWithResolver`).
- The sign-up page's first Back button clears only the page's role flags. The
  cards' selection in the form data is kept (`SignUpPage.SignUpForm.BackToRoles`).
- The sign-up page's Continue and Create Account buttons are `type="submit"`,
  so a click also runs the form's submit handler while the button stays
  mounted: always for Create Account, and for Continue only when no card is
  selected. A Continue that moves to step 1 unmounts its button on the
  re-render, so no submission follows
  (`SignUpPage.SignUpForm.Continue`, `SignUpPage.SignUpForm.CreateAccount`).

## Model

| member | source | states |
|---|---|---|
| Text.Trim | src/app/signup/page.tsx:109 | `String.prototype.trim`: the result neither starts nor ends with ECMAScript white space or a line terminator |
| Text.TrimEmptyIffBlank | src/app/signup/page.tsx:77 | `!x.trim()` holds exactly when every character of `x` is white space |
| Text.IntToDecimal | src/lib/nav-utils.ts:13-14 | `toString()` of an integer is non-empty and starts with '-' exactly for negative numbers |
| Text.DecimalRoundTrip | src/lib/nav-utils.ts:13-14 | reading a rendered natural number back gives the number |
| Text.IntToDecimalInjective | src/lib/nav-utils.ts:13-14 | different ids render differently |
| Text.SplitJoin | src/lib/nav-utils.ts:19-46 | splitting a `/`-joined path of slash-free segments on `/` gives the segments back |
| NavUtils.ContextId | src/lib/nav-utils.ts:13 | the org segment is "me" exactly when `org_id` is null or 0, otherwise its decimal rendering |
| NavUtils.UserIdSegment | src/lib/nav-utils.ts:14 | the user segment is "me" exactly when `id` is 0, otherwise its decimal rendering |
| NavUtils.DashboardUrl | src/lib/nav-utils.ts:8-50 | `getDashboardUrl` always returns a path under "/dashboard" |
| NavUtils.FreelancerPath | src/lib/nav-utils.ts:18-20 | for a null, "NONE" or "TARIK" org type the URL does not depend on the roles or the org id |
| NavUtils.SoloPrecedence | src/lib/nav-utils.ts:23-30 | SOLO: once SOLO_LAWYER is held, adding any tags (ASSISTANT included) leaves the URL unchanged, and it equals a tagless SOLO user's URL |
| NavUtils.FirmPrecedence | src/lib/nav-utils.ts:33-35 | FIRM: once FIRM_ADMIN is held, adding any tags leaves the URL unchanged |
| NavUtils.SoloAssistantTier | src/lib/nav-utils.ts:23-30 | SOLO: an ASSISTANT without SOLO_LAWYER keeps its URL whatever tags short of SOLO_LAWYER are added, and that URL differs from a tagless SOLO user's org path |
| NavUtils.FirmLawyerTier | src/lib/nav-utils.ts:33-42 | FIRM: a lawyer (FIRM_LAWYER or LAWYER) without FIRM_ADMIN keeps its URL whatever tags short of FIRM_ADMIN are added |
| NavUtils.FirmAssistantTier | src/lib/nav-utils.ts:33-44 | FIRM: an ASSISTANT with no admin or lawyer tag keeps its URL whatever tags short of those are added |
| NavUtils.FirmTarikTier | src/lib/nav-utils.ts:33-46 | FIRM: a TARIK or CLERK with no admin, lawyer or assistant tag keeps its URL whatever tags short of those are added |
| NavUtils.FirmAdminLawyerGetsAdmin | src/lib/nav-utils.ts:34-42 | a firm admin who is also a lawyer gets the admin path and never the lawyer path |
| NavUtils.RootOnlyForRolelessFirm | src/lib/nav-utils.ts:33-49 | the bare "/dashboard" comes back exactly for a FIRM user with none of the six firm role tags |
| NavUtils.OnlyRoleMembershipMatters | src/lib/nav-utils.ts:25-46 | only which tags are present matters, not their order or duplicates, nor the descriptive fields |
| NavUtils.DashboardUrlExamples | src/lib/nav-utils.ts:8-50 | a solo lawyer of org 7 gets "/dashboard/solo/7"; assistant 4 of firm 9 gets "/dashboard/firm/9/assist/4" |
| NavUtils.Resolve | src/lib/nav-utils.ts:16-49 | the resolved variant's segments are all slash-free |
| NavUtils.DashboardUrlIsPathOfResolve | src/lib/nav-utils.ts:16-49 | the URL is exactly the `/`-joined path of the resolved variant |
| NavUtils.DashboardUrlUnambiguous | src/lib/nav-utils.ts:16-49 | two users with the same URL resolve to the same variant with the same segments |
| NavUtils.FreelancerPathIdentifiesUser | src/lib/nav-utils.ts:14-19 | two freelancers with different nonzero ids get different URLs |
| AuthStore.BeginFetch | src/store/use-auth-store.ts:21-24 | `fetchMe` starts a request, setting loading and clearing error, exactly when not loading and no user; otherwise it changes nothing |
| AuthStore.FailureMessage | src/store/use-auth-store.ts:34-49 | a non-ok reply records "Unauthorized"; a thrown `Error` records its own message; anything else records "Failed to load user" |
| AuthStore.CompleteFetch | src/store/use-auth-store.ts:26-50 | a settled request clears loading; success stores the body and keeps the error; failure clears the user and records the message; initialized is untouched |
| AuthStore.InitSession | src/store/use-auth-store.ts:53-58 | `init` leaves an initialized store as it is; otherwise it sets initialized, keeps the user, and starts a request (loading set, error cleared) exactly when `fetchMe`'s guard passes, keeping loading and error otherwise |
| AuthStore.LogoutSession | src/store/use-auth-store.ts:60-62 | `logout` clears the user and initialized and leaves loading and error |
| AuthStore.HydrateSession | src/app/dashboard/client-init.tsx:13 | hydration sets the user, sets initialized, clears loading and keeps the error |
| AuthStore.InitOnInitializedIsNoOp | src/store/use-auth-store.ts:54 | `init` on an initialized store changes nothing and sends nothing |
| AuthStore.InitIdempotent | src/store/use-auth-store.ts:53-58 | a second `init` right after the first changes nothing; two calls send at most one request |
| AuthStore.BeginFetchEffect | src/store/use-auth-store.ts:24 | a started request sets loading, clears error and leaves user and initialized |
| AuthStore.FetchSingleFlight | src/store/use-auth-store.ts:22 | while loading, or with a user present, `fetchMe` is a no-op |
| AuthStore.FetchLeavesInitialized | src/store/use-auth-store.ts:21-51 | `fetchMe` never writes initialized, whatever the outcome |
| AuthStore.LogoutThenInitRefetches | src/store/use-auth-store.ts:53-62 | after `logout`, `init` on an idle store sends a fresh request |
| AuthStore.HydratedStoreDoesNotFetch | src/store/use-auth-store.ts:21-58 | after hydration with a user, neither `fetchMe` nor `init` sends a request |
| AuthStore.StepKeepsInvariant | src/store/use-auth-store.ts:21-62 | every operation keeps `loading ==> user == null` |
| AuthStore.RunKeepsInvariant | src/store/use-auth-store.ts:21-62 | the invariant holds after any sequence of operations |
| AuthStore.NoRequestWhileLoading | src/store/use-auth-store.ts:22 | while a request is in flight, no run of `init`/`fetchMe`/`logout` sends another |
| AuthStore.AtMostOneRequestUntilSettled | src/store/use-auth-store.ts:21-58 | between two requests there is always a completion or a hydration |
| AuthStore.UnauthorizedSessionEnds | src/store/use-auth-store.ts:34-58 | `init` then a 401 ends in { user: null, loading: false, initialized: true } after exactly one request |
| AuthStore.Store.constructor | src/store/use-auth-store.ts:15-19 | the store starts with no user, not loading, no error, not initialized |
| AuthStore.Store.FetchBegin | src/store/use-auth-store.ts:21-24 | the new state is `BeginFetch` of the old, and the invariant is kept |
| AuthStore.Store.FetchComplete | src/store/use-auth-store.ts:26-50 | the new state is `CompleteFetch` of the old, and the invariant is kept |
| AuthStore.Store.Init | src/store/use-auth-store.ts:53-58 | the new state is `InitSession` of the old; it reports whether a request was sent |
| AuthStore.Store.Logout | src/store/use-auth-store.ts:60-62 | the new state is `LogoutSession` of the old |
| AuthStore.Store.Hydrate | src/app/dashboard/client-init.tsx:13 | the new state is `HydrateSession` of the old |
| AuthStore.InitTwiceOnFreshStore | src/store/use-auth-store.ts:53-58 | two back-to-back `init()` calls on a new store send exactly one request |
| ClientInit.ShouldHydrate | src/app/dashboard/client-init.tsx:12 | the effect's guard: the ref is not yet set, or a user is present |
| ClientInit.PresentUserAlwaysHydrates | src/app/dashboard/client-init.tsx:12 | the effect's guard passes whenever a user is present |
| ClientInit.DashboardClientInit.constructor | src/app/dashboard/client-init.tsx:8 | the ref starts unset |
| ClientInit.DashboardClientInit.Effect | src/app/dashboard/client-init.tsx:11-16 | the effect writes the store, then sets the ref, exactly when the ref is unset or a user is present; otherwise nothing changes |
| ClientInit.HydrateThenInit | src/app/dashboard/client-init.tsx:11-16 | after hydration with a user the store holds that user, is initialized and idle, keeps its error, and neither `init` nor `fetchMe` sends a request |
| Proxy.Matches | src/proxy.ts:30-32 | `config.matcher`: "/dashboard", every path below it, "/signin" and "/signup" |
| Proxy.ProxyDecision | src/proxy.ts:4-28 | a redirect happens exactly for a path under "/dashboard" with no cookie, and it goes to "/signin" |
| Proxy.EdgeDecision | src/proxy.ts:30-32 | the guard runs only on matched paths |
| Proxy.CookieValueNeverInspected | src/proxy.ts:5-9 | with the cookie present, whatever its value, the request passes |
| Proxy.AuthPagesAlwaysPass | src/proxy.ts:8-27 | "/signin" and "/signup" pass with or without the cookie |
| Proxy.NoRedirectLoop | src/proxy.ts:8-32 | the guard's redirect target is matched and always passes, so the guard cannot loop |
| Proxy.MatchedDashboardRoutesAreGuarded | src/proxy.ts:30-32 | every dashboard route the matcher selects is redirected when the cookie is missing |
| DashboardPage.RedirectTarget | src/app/dashboard/page.tsx:13-26 | the page navigates only once initialized and idle, and never to "/dashboard" itself |
| DashboardPage.TargetAgreesWithResolver | src/app/dashboard/page.tsx:21-25 | the page stays put exactly for freelancer org types; a SOLO target is a prefix of the resolver's path, and so is a FIRM target whenever the resolver gives a firm path |
| DashboardPage.UnauthorizedGoesToSignin | src/app/dashboard/page.tsx:16-19 | a failed `/users/me` on a new session sends the page to "/signin" |
| DashboardPage.HydratedUserIsRouted | src/app/dashboard/page.tsx:14-25 | after hydration with a SOLO or FIRM user, the page goes at once to that org's landing path |
| DashboardPage.TargetPassesTheGuard | src/app/dashboard/page.tsx:14-25 | a target of the page passes the edge guard exactly when the cookie is present or the target is "/signin" |
| SignIn.LooseEmailTestCorrect | src/app/signin/page.tsx:64 | the character test accepts exactly the strings `\S+@\S+\.\S+` matches somewhere |
| SignIn.LooseEmailIgnoresSurroundings | src/app/signin/page.tsx:64 | the pattern is unanchored: text around a match does not matter |
| SignIn.SignInErrors | src/app/signin/page.tsx:58-77 | an e-mail error exactly when the pattern does not match ("required" if empty); a password error exactly when it is shorter than 6 ("required" if empty) |
| SignIn.SignInValidIff | src/app/signin/page.tsx:58-77 | the form is valid exactly when the e-mail matches and the password has at least 6 characters |
| SignIn.LoginSucceeded | src/app/signin/page.tsx:104 | only the statuses 200 and 201 count as a successful login |
| SignIn.LoginRoute | src/app/signin/page.tsx:114-120 | SOLO goes to "/dashboard/solo", FIRM to "/dashboard/firm", and every other org type to "/dashboard" |
| SignIn.LoginErrorText | src/app/signin/page.tsx:124-135 | `detail ?? message ?? "Login failed"` for an HTTP error, "Something went wrong" for anything else |
| SignIn.AttemptEffect | src/app/signin/page.tsx:102-135 | navigation happens exactly on a 200/201 reply, to `LoginRoute`, with the reply's message or "Login successful" as the notice; any other reply shows its body as an error; a thrown error shows `LoginErrorText` |
| SignIn.LoginRouteAgreesWithLandingPage | src/app/signin/page.tsx:114-120 | a SOLO or FIRM login lands where the dashboard page would send that user; any other org type lands on "/dashboard", where the page takes no action |
| SignIn.StoreRedirectWithoutUserTargetsSignin | src/app/signin/page.tsx:35-41 | with a settled store and no user, the page's store effect targets "/signin" |
| SignIn.SignInForm.constructor | src/app/signin/page.tsx:50-55 | empty fields, no errors, not loading |
| SignIn.SignInForm.ValidateForm | src/app/signin/page.tsx:58-77 | the stored errors are `SignInErrors` of the fields, and the result is their emptiness |
| SignIn.SignInForm.HandleSubmit | src/app/signin/page.tsx:79-139 | an invalid form sends nothing and leaves `isLoading`; a valid one has the attempt's effect and ends with `isLoading` cleared |
| SignUpRules.StrongPasswordCorrect | src/app/signup/page.tsx:52 | the character test accepts exactly what the lookahead pattern accepts: 8+ characters, no line terminator, and a lower-case letter, an upper-case letter, a digit and one of @$!%*?& |
| SignUpRules.PersonNameTestCorrect | src/app/signup/page.tsx:88 | the character test accepts exactly the ASCII-letter words joined by a single space or hyphen |
| SignUpRules.StrictEmailTestCorrect | src/app/signup/page.tsx:95 | the character test accepts exactly the anchored pattern: one '@', no white space, a non-empty local part, a '.' in the domain that is neither first nor last |
| SignUpRules.PasswordError | src/app/signup/page.tsx:47-58 | a password error exactly when the pattern fails, with the required / too short / weak message by case |
| SignUpRules.ConfirmError | src/app/signup/page.tsx:60-64 | a confirmation error exactly when it is empty or differs from the password, with the matching message |
| SignUpRules.TermsError | src/app/signup/page.tsx:66-68 | a terms error exactly when the box is unchecked |
| SignUpRules.FirmNameTest | src/app/signup/page.tsx:80 | `/^[A-Za-z0-9&.,'()\- ]{2,100}$/`: 2 to 100 characters, each a letter, a digit, a space or one of `& . , ' ( ) -` |
| SignUpRules.FirmNameError | src/app/signup/page.tsx:77-84 | no firm-name error exactly when the name is not blank and, untrimmed, is 2–100 allowed characters |
| SignUpRules.AdminNameError | src/app/signup/page.tsx:86-91 | no admin-name error exactly when the untrimmed name matches the name pattern |
| SignUpRules.LawyerNameError | src/app/signup/page.tsx:106-113 | no lawyer-name error exactly when the trimmed name matches the name pattern |
| SignUpRules.EmailError | src/app/signup/page.tsx:93-97 | no e-mail error exactly when the address is not blank and passes the strict test |
| SignUpRules.AccountErrors | src/app/signup/page.tsx:45-72 | the account step's errors are keyed by password, confirmPassword and terms only |
| SignUpRules.LawFirmErrors | src/app/signup/page.tsx:74-101 | the law-firm step's errors are keyed by lawFirmName, adminName and email only |
| SignUpRules.LawyerErrors | src/app/signup/page.tsx:103-123 | the lawyer step's errors are keyed by lawyerName and email only |
| SignUpRules.AccountValidIff | src/app/signup/page.tsx:45-72 | `validateForm` passes exactly when the password matches the pattern, the confirmation equals it, and the terms are accepted |
| SignUpRules.LawFirmValidIff | src/app/signup/page.tsx:74-101 | `validateLawFirm` passes exactly when the firm name, the admin name and the e-mail are all valid |
| SignUpRules.LawyerValidIff | src/app/signup/page.tsx:103-123 | `validateLawyer` passes exactly when the trimmed name and the e-mail are valid |
| SignUpRules.NamePatternHasNoOuterSpace | src/app/signup/page.tsx:88 | a name the pattern accepts neither starts nor ends with white space |
| SignUpRules.PaddedAdminNameRefused | src/app/signup/page.tsx:86-91 | " Ann" is refused as an admin name, which is not trimmed |
| SignUpRules.PaddedLawyerNameAccepted | src/app/signup/page.tsx:106-113 | " Ann" is accepted as a lawyer name, which is trimmed first |
| SignUpRules.TwoAtSignsRefused | src/app/signup/page.tsx:95 | "a@b@c.d" is refused |
| SignUpPage.WithField | src/app/signup/page.tsx:125-127 | the named field takes the new value; every other field and both cards are unchanged |
| SignUpPage.ToggleLawFirmCard | src/app/signup/page.tsx:314-321 | the law-firm card flips, and the lawyer card stays selected only if the law-firm card was selected; at most one card is ever selected |
| SignUpPage.ToggleLawyerCard | src/app/signup/page.tsx:368-375 | the lawyer card flips, and the law-firm card stays selected only if the lawyer card was selected; at most one card is ever selected |
| SignUpPage.ToggleTwice | src/app/signup/page.tsx:314-336 | two toggles of one card restore it and leave the other card deselected; this is what a click on the law-firm checkbox does, since its `onChange` toggles and the click then reaches the card's `onClick` |
| SignUpPage.LawyerCheckboxClick | src/app/signup/page.tsx:368-400 | a click on the lawyer checkbox runs its `onChange`, its own `onClick` and the card's `onClick`; the three toggles select exactly as one click on the card does |
| SignUpPage.ClickMovesSelection | src/app/signup/page.tsx:314-375 | clicking the unselected card moves the selection to it |
| SignUpPage.ClearError | src/app/signup/page.tsx:129-131 | the field's message is blanked if it was set; the keys and every other message are unchanged |
| SignUpPage.InitialStep | src/app/signup/page.tsx:36-43 | the page opens on step 1 exactly when the role query is "lawFirm" or "lawyer" |
| SignUpPage.SignUpForm.constructor | src/app/signup/page.tsx:15-43 | empty form and errors; the page's role flags come from the query; the step is `InitialStep` |
| SignUpPage.SignUpForm.ClickLawFirmCard | src/app/signup/page.tsx:314-321 | the form data becomes `ToggleLawFirmCard` of the old |
| SignUpPage.SignUpForm.ClickLawyerCard | src/app/signup/page.tsx:368-375 | the form data becomes `ToggleLawyerCard` of the old |
| SignUpPage.SignUpForm.HandleChange | src/app/signup/page.tsx:125-132 | the named field takes the value, and the errors become `ClearError` of the old errors for that field |
| SignUpPage.SignUpForm.SetAgreedToTerms | src/app/signup/page.tsx:668-678 | the box takes the new value, and the terms message is blanked if it was set |
| SignUpPage.SignUpForm.ValidateForm | src/app/signup/page.tsx:45-72 | the stored errors are the account step's, and the result is their emptiness |
| SignUpPage.SignUpForm.ValidateLawFirm | src/app/signup/page.tsx:74-101 | the stored errors are the law-firm step's, and the result is their emptiness |
| SignUpPage.SignUpForm.ValidateLawyer | src/app/signup/page.tsx:103-123 | the stored errors are the lawyer step's, and the result is their emptiness |
| SignUpPage.SignUpForm.Submit | src/app/signup/page.tsx:134-145 | the account step is validated; `isLoading` is set exactly when it passes |
| SignUpPage.SignUpForm.SubmitTimerFires | src/app/signup/page.tsx:141-144 | the simulated request's timer clears `isLoading` |
| SignUpPage.SignUpForm.Continue | src/app/signup/page.tsx:418-437 | the page's role flags copy the cards; with no card selected the page stays on step 0 and the submit handler runs (account errors stored, isLoading set when they are empty); otherwise it moves to step 1 and leaves errors and isLoading unchanged |
| SignUpPage.SignUpForm.NextStep | src/app/signup/page.tsx:516-530 | step 2 is reached, with errors cleared, exactly when the chosen role's validator passes; otherwise the page stays on step 1 showing that validator's errors |
| SignUpPage.SignUpForm.BackToRoles | src/app/signup/page.tsx:539-543 | back to step 0, with both role flags cleared |
| SignUpPage.SignUpForm.BackToDetails | src/app/signup/page.tsx:720 | back from step 2 to step 1 |
| SignUpPage.SignUpForm.CreateAccount | src/app/signup/page.tsx:707-713 | the result is valid exactly when the password matches the pattern, the confirmation equals it and the terms are accepted; `isLoading` is set exactly then |
| AppSidebar.IsActive | src/components/solo/sidebar/app-sidebar.tsx:135-140 | an entry is highlighted exactly when its url is empty or equals the pathname |
| AppSidebar.MenuUrlsNonEmptyAndDistinct | src/components/solo/sidebar/app-sidebar.tsx:43-98 | every configured url is non-empty, and no two entries share one |
| AppSidebar.MenuHighlightIsExact | src/components/solo/sidebar/app-sidebar.tsx:135-140 | each menu entry is highlighted on its own url and nowhere else, so at most one entry is highlighted |
| AppSidebar.DashboardEntryNotActiveOnCases | src/components/solo/sidebar/app-sidebar.tsx:135-138 | on "/dashboard/solo/cases" the Dashboard entry is not highlighted and the Cases entry is |
| AppSidebar.EmptyUrlAlwaysActive | src/components/solo/sidebar/app-sidebar.tsx:139 | an entry with an empty url would be highlighted on every page |
| AppSidebar.CanSwitchMeansAdminSeat | src/components/solo/sidebar/app-sidebar.tsx:106-110 | the button never shows without a user, and shows exactly for users the resolver seats as firm admins who also hold FIRM_LAWYER or LAWYER |
| AppSidebar.CanSwitch | src/components/solo/sidebar/app-sidebar.tsx:106-110 | `canSwitch`: a FIRM user holding FIRM_ADMIN and also FIRM_LAWYER or LAWYER; `CanSwitchMeansAdminSeat` relates it to the resolver |
| AppSidebar.SwitchTarget | src/components/solo/sidebar/app-sidebar.tsx:112-120 | the lawyer view exactly from pathnames containing "/firm/admin", the admin view from every other |
| AppSidebar.SwitchAlternates | src/components/solo/sidebar/app-sidebar.tsx:112-120 | the two views lead to each other, so switching twice from "/dashboard/firm/admin" returns there |
| AppSidebar.AdminPathHasNoMarker | src/lib/nav-utils.ts:40 | "/dashboard/firm/<org>/admin/<user>" never contains "/firm/admin" when the ids are rendered numbers or "me" |
| AppSidebar.SwitchFromResolvedAdminPage | src/components/solo/sidebar/app-sidebar.tsx:106-120 | a user who can switch is sent by the resolver to the firm admin path, and from there the button leads to the admin view, not the lawyer view |
| ApiServer.CookieHeader | src/lib/api-server.ts:9-13 | "access_token=" followed by the token when the cookie exists, "" otherwise |
| ApiServer.CleanEndpoint | src/lib/api-server.ts:16 | the result starts with "/", equals the endpoint if it already did, and is "/" plus the endpoint otherwise |
| ApiServer.CleanEndpointIdempotent | src/lib/api-server.ts:16 | normalising twice is normalising once; "x" and "/x" normalise alike |
| ApiServer.CleanEndpointKeepsPath | src/lib/api-server.ts:16 | the result is the endpoint or the endpoint with a slash in front |
| ApiServer.ApiBase | src/lib/api-server.ts:21-23 | the backend URL + "/api/v1" if set, else the API URL if set, else "http://localhost:8000/api/v1"; never empty |
| ApiServer.MergeHeaders | src/lib/api-server.ts:26-31 | the caller's headers plus Cookie and Content-Type "application/json", which override; every other caller header is kept |
| ApiServer.CacheMode | src/lib/api-server.ts:33 | the caller's cache mode when given, "no-store" otherwise |
| ApiServer.BuildRequest | src/lib/api-server.ts:25-34 | the URL is base followed by the clean endpoint; headers, cache and the remaining options are as above |
| ApiServer.HandleResponse | src/lib/api-server.ts:36-44 | the parsed body exactly for a 2xx status, null for every other status |
| ApiServer.RequestUrlIdentifiesEndpoint | src/lib/api-server.ts:16-25 | with one environment, two requests have the same URL exactly when their clean endpoints are equal |
| ApiServer.CallerCannotOverrideFixedHeaders | src/lib/api-server.ts:26-31 | the caller's own Cookie and Content-Type values make no difference |
| ApiServer.CookieHeaderAlwaysSent | src/lib/api-server.ts:9-31 | a Cookie header is always sent, and it is empty exactly when there is no cookie |
| ApiServer.DefaultUserRequest | src/lib/api-server.ts:16-25 | with neither variable set, "users/me" is fetched from "http://localhost:8000/api/v1/users/me" |
| ApiServer.FailuresAreNull | src/lib/api-server.ts:36-44 | 401 and 500 both give null; 200 gives the body |

## Left out

- Network and cookie I/O are left out. This covers `fetch`, axios, `cookies()`, `Cookies.set` and the cookie's expiry date. Each request's outcome is a parameter: `FetchOutcome`, `LoginAttempt`, the status and body given to `HandleResponse`, and the token given to `CookieHeader`.
- The environment variables are parameters. An unset variable and an empty one are both modelled as "", since the source treats both as false.
- Asynchronous interleaving is left out. The model splits `fetchMe` at its `await` (`FetchBegin` / `FetchComplete`), and React state batching is not modelled.
- Timers are left out. The sign-up page's 500 ms simulated request is a separate step, `SubmitTimerFires`.
- Navigation and notifications are left out. `router.push`/`replace` are returned as target paths, toasts as a `SubmitEffect` or not at all, and console output is omitted.
- DOM mechanics are left out: pressing Enter to submit a form, the password show/hide toggles, and the `disabled` button attribute.
- Text.Trim: its contract states only that the result has no white space at either end. `TrimEmptyIffBlank` states when it is empty. That the result is the middle slice of the input is stated end by end, by the contracts of `TrimStart` and `TrimEnd`.
- SignIn.SignInErrors: lengths are counted in characters, not in UTF-16 code units as JavaScript's `length` counts them.
- SignUpRules.PasswordError: lengths are counted in characters, not in UTF-16 code units as JavaScript's `length` counts them.
- SignIn.LoginErrorText: a `detail` or `message` that is not a string is not modelled. A present value is taken as the text shown.
- ApiServer.HandleResponse: a body that fails to parse (`res.json()` rejecting) is not modelled, and neither is a rejected `fetch` (a network failure), which throws out of `fetchServer` instead of giving null. The parsed body is a parameter.
- ApiServer.MergeHeaders: headers are a map with case-sensitive names, as in the object literal. A `Headers` object or an array of pairs passed by the caller, and case-insensitive duplicates, are not modelled.
- UserModel: an `org_type` outside SOLO/FIRM/TARIK/NONE/null cannot be written in the model.
- Text.IntToDecimal: only plain decimal notation is modelled. Exponent notation, which JavaScript uses for integers of 1e21 and above, is not.
- The sign-in page does not model `showPassword`, the per-field clearing of errors on input, or the cookie write on success.
- SignUpPage.SignUpForm.Continue and SignUpPage.SignUpForm.CreateAccount: src/components/ui/Button.tsx is not part of this model. That it passes `type="submit"` through to a native button, and that a button unmounted by the click's re-render submits nothing, are taken as given.
- The sign-up page does not model its "Please choose an option" toast. Event bubbling from a card's checkbox to the card has no method of its own: `SignUpPage.ToggleTwice` states the combined effect for the law-firm checkbox (two toggles) and `SignUpPage.LawyerCheckboxClick` for the lawyer checkbox (three toggles).
- src/lib/get-user.ts is not part of this model. It is an unused axios wrapper.
- The layouts are not part of this model: src/app/dashboard/layout.tsx, src/app/dashboard/solo/layout.tsx, src/app/dashboard/firm/layout.tsx and src/hooks/auth-init.tsx. src/app/dashboard/layout.tsx redirects to /signin when `fetchServer("/users/me")` returns null, which `ApiServer.HandleResponse` covers, and passes the user to the hydration writer. src/app/dashboard/solo/layout.tsx redirects to /signin when the `access_token` cookie is missing, as the edge guard already does for every dashboard path, and mounts src/hooks/auth-init.tsx, which only calls `init()`. src/app/dashboard/firm/layout.tsx neither redirects nor initialises; it only renders the sidebar.
- src/components/ui/LogoutButton.tsx is not part of this model. Its only effect on the store is `logout()`, which is modelled.
- The presentational components are not part of this model: the landing page, navbar, menus, inputs, loader and colours.
