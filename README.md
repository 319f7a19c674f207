# Qomar Qur'on Markazi admin console — a Dafny model

This project models the client-side rules of the administrative console of
Qomar Qur'on Markazi, a Quran-education centre. The console is a React
single-page application. Its own logic is the part that is modelled here:

- the field validators and the admin-form validator;
- the search over the admins table;
- the reducer of the add-admin modal;
- the role rules: the role a hostname stands for, `checkUser`, and the
  sidebar entries each role sees;
- the page header;
- the route guard that checks the stored bearer token;
- the login submission;
- the save and paste handlers of an admin's edit page;
- logging out.

Each concern is one module:

| module | file | source |
|---|---|---|
| `Options` | options.dfy | JavaScript's `x \|\| fallback` on possibly absent strings |
| `Text` | text.dfy | `trim`, `toLowerCase`, `includes`, `replace(/\D/g, "")`, `split(".")`, UTF-16 `length`, regular-expression character classes |
| `Validators` | validators.dfy | src/utils/validators.js |
| `Browser` | browser.dfy | `localStorage`, the router's location, the hostname, `import.meta.env` |
| `SubdomainRole` | subdomain_role.dfy | src/utils/getSubdomainRole.js |
| `CheckUser` | check_user.dfy | src/utils/checkUser.jsx |
| `Sidebar` | sidebar.dfy | src/components/Sidebar.jsx |
| `Layout` | layout.dfy | src/components/layout/Layout.jsx |
| `RequireAuth` | require_auth.dfy | src/components/auth/RequireAuth.jsx |
| `Settings` | settings.dfy | the logout handler of src/pages/Settings/index.jsx |
| `AdminsFilter` | admins_filter.dfy | src/pages/AdminsPage/AdminsPageConstants.js |
| `AddAdminForm` | add_admin_form.dfy | src/components/AddAdmin/AddAdminConstants.js |
| `Login` | login.dfy | src/pages/Login/index.jsx |
| `AdminEdit` | admin_edit.dfy | src/pages/Admin/index.jsx |

Conventions:

- A form input, a query answer or a stored admin field that may be
  `undefined` or `null` is modelled as "" wherever the source only tests it
  with `!x` or `x || y`, since there the three values behave the same.
  The build-time variables and `localStorage.getItem` are
  `Option<string>`, because the source tells their absence apart. The rows
  of the admins table are taken to have every field present: `filterAdmins`
  calls string methods on them directly (see "Left out").
- The browser is a `Browser.Window` object. Its `storage` field is
  `localStorage`, a map from key to string. Its `location` field is the
  router's path, and `hostname` never changes.
- The handlers that change the browser or a page's state are methods. Each
  method is proved equal to a function of the old state: `Gate`, `Submit`,
  `Save`, `ClearSession`, `Pasted`. The properties of the handlers are
  lemmas about those functions.
- The clock enters as parameters. `calendarOk` says whether
  `new Date(dateString)` is a valid date no later than now. `toIsoDate` is
  the date part of `new Date(s).toISOString()`, and `None` for an invalid
  date.

## Model

| member | source | states |
|---|---|---|
| Options.OrElse | src/utils/getSubdomainRole.js:14 | `x \|\| fallback` on an optional string: the value when it is present and non-empty, the fallback otherwise |
| Options.Or | src/utils/validators.js:141 | `x \|\| fallback` on two strings: `x` unless it is "" |
| Text.LowerChar | src/pages/AdminsPage/AdminsPageConstants.js:22 | lower-casing a character never makes it whitespace or a digit, or the reverse, and never leaves an upper-case ASCII letter |
| Text.ToLower | src/pages/AdminsPage/AdminsPageConstants.js:22 | `toLowerCase` keeps the length and lowers every character in place |
| Text.ToLowerSlice | src/pages/AdminsPage/AdminsPageConstants.js:26-27 | lower-casing commutes with taking a slice |
| Text.ToLowerIdempotent | src/pages/AdminsPage/AdminsPageConstants.js:22 | lower-casing twice is lower-casing once |
| Text.TrimStartShape | src/utils/validators.js:6 | removing leading whitespace leaves a suffix; everything removed is whitespace; the rest starts with a visible character |
| Text.TrimEndShape | src/utils/validators.js:6 | removing trailing whitespace leaves a prefix; everything removed is whitespace; the rest ends with a visible character |
| Text.TrimStart | src/utils/validators.js:6 | the leading-whitespace half of `trim` (a helper of `Trim`, no contract; `TrimStartShape` states it) |
| Text.TrimEnd | src/utils/validators.js:6 | the trailing-whitespace half of `trim` (a helper of `Trim`, no contract; `TrimEndShape` states it) |
| Text.Trim | src/utils/validators.js:6 | `String.prototype.trim`: the leading and then the trailing whitespace removed (no contract of its own; its properties are the `Trim…` lemmas) |
| Text.TrimStartToLower | src/pages/AdminsPage/AdminsPageConstants.js:22 | removing leading whitespace commutes with lower-casing |
| Text.TrimEndToLower | src/pages/AdminsPage/AdminsPageConstants.js:22 | removing trailing whitespace commutes with lower-casing |
| Text.TrimToLower | src/pages/AdminsPage/AdminsPageConstants.js:20-22 | `s.toLowerCase().trim()` equals `s.trim().toLowerCase()` |
| Text.TrimEnds | src/utils/validators.js:6 | trimmed text that is not empty neither starts nor ends with whitespace |
| Text.TrimSlice | src/utils/validators.js:6 | the trimmed text is one contiguous run of the input |
| Text.TrimIdempotent | src/pages/Login/index.jsx:63-84 | trimming twice is trimming once |
| Text.TrimEmpty | src/pages/Login/index.jsx:63 | `!s.trim()` holds exactly when every character is whitespace |
| Text.TrimSpan | src/utils/validators.js:6 | every visible character survives trimming, and the trimmed text is the run between the first and last visible characters |
| Text.Digits | src/utils/validators.js:25 | `replace(/\D/g, "")` keeps only digits, never lengthens, and leaves an all-digit string unchanged (that it keeps every digit in order is `DigitsOfChar` with `DigitsAppend`) |
| Text.DigitsIdempotent | src/pages/Admin/index.jsx:332 | stripping non-digits twice is stripping once |
| Text.DigitsOfChar | src/utils/validators.js:25 | a single character survives `replace(/\D/g, "")` exactly when it is a digit |
| Text.DigitsAppend | src/utils/validators.js:25 | stripping non-digits distributes over concatenation, so every digit of the input is kept and in its order |
| Text.Contains | src/pages/AdminsPage/AdminsPageConstants.js:26-29 | `includes`: the query occurs as a contiguous piece at some position (a predicate, no contract) |
| Text.Utf16Length | src/utils/validators.js:6 | the UTF-16 length lies between the character count and twice it |
| Text.Utf16Wide | src/utils/validators.js:6 | one character outside the Basic Multilingual Plane adds a code unit to the length |
| Text.All | src/utils/validators.js:61 | a character class repeated over the whole string holds exactly when every character is in the class |
| Text.Any | src/utils/validators.js:14 | a lookahead `(?=.*[...])` holds exactly when some character is in the class |
| Text.FitsMask | src/utils/validators.js:85 | a fixed-width pattern such as `^\d{4}-\d{2}-\d{2}$` matches exactly the strings of its width with a digit at each `#` and the literal elsewhere |
| Text.Split | src/utils/getSubdomainRole.js:17 | `split(".")` yields at least one piece, and no piece contains the separator |
| Text.SplitShape | src/utils/getSubdomainRole.js:17-21 | there is one piece more than there are separators, and the first piece is the text before the first separator |
| Text.JoinSplit | src/utils/getSubdomainRole.js:17 | joining the pieces with the separator restores the string |
| Text.SplitPrefix | src/utils/getSubdomainRole.js:17 | splitting text whose leading run has no separator glues that run onto the first piece of the rest |
| Text.SplitJoin | src/utils/getSubdomainRole.js:17 | splitting a join of separator-free pieces returns those pieces |
| Validators.ValidateFullname | src/utils/validators.js:4-10 | an empty name passes; any rejection is "fullnameError" |
| Validators.VisibleIsLongEnough | src/utils/validators.js:6 | two visible characters, or one outside the Basic Multilingual Plane, make the trimmed name at least two code units long |
| Validators.LongEnoughIsVisible | src/utils/validators.js:6 | a trimmed name at least two code units long has two visible characters or one wide one |
| Validators.FullnameRule | src/utils/validators.js:4-10 | a name passes exactly when it is empty, has two visible characters, or has a visible character outside the Basic Multilingual Plane |
| Validators.ValidatePassword | src/utils/validators.js:12-19 | an empty password passes; any rejection is "passwordError" |
| Validators.PasswordRule | src/utils/validators.js:12-19 | a non-empty password passes exactly when it has at least eight characters, all from `[A-Za-z\d@$!%*?&]`, including a lower-case letter, an upper-case letter and a digit |
| Validators.ValidatePhoneNumber | src/utils/validators.js:22-55 | an empty phone passes; any rejection is "phoneNumberError" |
| Validators.PhoneRule | src/utils/validators.js:22-55 | a non-empty phone passes exactly when its digits are "998" plus 9 digits, "90" plus 10 digits, a 9-digit local number not starting "998" or "90", or a 10-digit number starting "5" |
| Validators.LocalNumberStartingNinetyRejected | src/utils/validators.js:36-47 | a 9-digit number starting "90" is refused, because the country-code test runs before the local-length test |
| Validators.ValidateUsername | src/utils/validators.js:57-67 | an empty username passes; any rejection is "usernameError" |
| Validators.UsernameRule | src/utils/validators.js:57-67 | a non-empty username passes exactly when it has 4 to 10 characters, all lower-case ASCII letters or digits |
| Validators.ValidateTelegramUsername | src/utils/validators.js:69-79 | an empty Telegram username passes; any rejection is "tgUsernameError" |
| Validators.TelegramUsernameRule | src/utils/validators.js:69-79 | a non-empty Telegram username passes exactly when it has 5 to 32 characters, all ASCII letters, digits or `_` |
| Validators.ValidateBirthDate | src/utils/validators.js:81-99 | an empty date passes; a date not shaped YYYY-MM-DD gets the format error; a well-shaped date gets the range error exactly when the calendar check fails |
| Validators.ErrorDictionary | src/utils/validators.js:112-153 | the dictionary with an entry for each failing field, holding its error (no contract; `InFormOrder` ties it to the source's field-by-field construction) |
| Validators.Judge | src/utils/validators.js:115-151 | each field's verdict: the password only when `includePassword`, the phone entry on `phone \|\| phoneNumber` (no contract) |
| Validators.WithError | src/utils/validators.js:116-151 | records a field's message in the error dictionary only when there is one (`if (xError) errors.x = xError`; a helper, no contract) |
| Validators.FieldErrors | src/utils/validators.js:102-154 | the dictionary of the form's verdicts, the specification `ValidateAdminForm` is proved against (no contract) |
| Validators.InFormOrder | src/utils/validators.js:112-153 | adding each failing field's error in the order the form checks them yields exactly the dictionary of failing fields |
| Validators.ValidateAdminForm | src/utils/validators.js:102-154 | the dictionary holds one entry per failing field, with that field's error, and nothing else |
| Validators.ValidateAdminInputs | src/utils/validators.js:157-159 | the add form is validated with the password included |
| Validators.ValidateAdminEditForm | src/utils/validators.js:161-163 | the edit form is validated with the password left out |
| Validators.DropVerdict | src/utils/validators.js:126-132 | a passing password removes only the password entry |
| Validators.PasswordOnlyWhenIncluded | src/utils/validators.js:126-132 | without `includePassword` there is never a password entry; with it there is one exactly when the password fails; otherwise the two dictionaries agree |
| Validators.PhoneFallsBackToPhoneNumber | src/utils/validators.js:140-145 | the phone entry judges `phone`, or `phoneNumber` when `phone` is empty; `phoneNumber` is ignored otherwise |
| Validators.BlankFormHasNoErrors | src/utils/validators.js:102-154 | every field is optional: a blank form has no errors, with or without the password |
| Browser.GetItem | src/utils/checkUser.jsx:27 | `getItem` yields a value exactly for a stored key, and that value is the stored one |
| Browser.Labels | src/utils/getSubdomainRole.js:17 | a hostname has at least one label |
| Browser.SubdomainLabel | src/utils/getSubdomainRole.js:17-22 | the leftmost label is taken exactly when there are at least three labels |
| Browser.SubdomainLabelShape | src/utils/getSubdomainRole.js:17-22 | there are three labels exactly when there are two dots, and the leftmost label is the dot-free text before the first dot |
| Browser.NoDotNoCount | src/utils/getSubdomainRole.js:17 | a string without a dot has no separators |
| Browser.Window.constructor | src/utils/getSubdomainRole.js:10 | a browser with the given `window.location.hostname`, `localStorage` contents and router path |
| Browser.Window.SetItem | src/components/auth/RequireAuth.jsx:100 | `setItem` stores the value under the key and changes nothing else |
| Browser.Window.RemoveItem | src/components/auth/RequireAuth.jsx:112-113 | `removeItem` removes the key and changes nothing else |
| Browser.Window.Navigate | src/components/auth/RequireAuth.jsx:114 | `navigate` sets the path |
| SubdomainRole.GetSubdomainRole | src/utils/getSubdomainRole.js:9-26 | "localhost" gives `SUB_DOMAIN` or "admin"; a hostname with three or more labels gives its leftmost label; any other gives `VITE_SUBDOMAIN` or "root" |
| SubdomainRole.RoleNeverEmpty | src/utils/getSubdomainRole.js:9-26 | the role is empty exactly when it is taken from a hostname whose leftmost label is empty |
| SubdomainRole.LocalhostBeforeSplit | src/utils/getSubdomainRole.js:13-15 | "localhost" has one label, yet it takes `SUB_DOMAIN` rather than `VITE_SUBDOMAIN` |
| CheckUser.RoleFromSubdomain | src/utils/checkUser.jsx:13-24 | the leftmost label of a hostname with three or more labels, otherwise `VITE_SUBDOMAIN` with no default |
| CheckUser.ResolveRole | src/utils/checkUser.jsx:27 | the resolved role is never empty, and a non-empty stored role is the one used |
| CheckUser.Check | src/utils/checkUser.jsx:11-48 | `returnRole` gives the resolved role or `null`; otherwise access is granted exactly when some role is resolved and it is in the list |
| CheckUser.Allowed | src/utils/checkUser.jsx:35-47 | the permission mode of `checkUser` (no contract; its properties are the `CheckUser` lemmas) |
| CheckUser.StoredRoleWins | src/utils/checkUser.jsx:27 | a non-empty stored role decides, whatever the hostname and the environment |
| CheckUser.RoleWithoutStorage | src/utils/checkUser.jsx:13-27 | with no stored role, the role comes from the hostname or from `VITE_SUBDOMAIN`, with no "root" default |
| CheckUser.NoRoleNoAccess | src/utils/checkUser.jsx:35-38 | with no role anywhere, access is refused |
| CheckUser.AllowedMonotone | src/utils/checkUser.jsx:41 | the empty list admits nobody; adding roles to the list never removes access |
| CheckUser.TeacherExamples | src/utils/checkUser.jsx:41 | a stored "teacher" is refused by ["root", "admin"] and admitted by ["root", "teacher"] |
| Sidebar.Guard | src/components/Sidebar.jsx:29-103 | exactly the dashboard and settings entries are shown without a role check |
| Sidebar.VisibleFor | src/components/Sidebar.jsx:29-103 | every role, and no role, sees the dashboard and settings |
| Sidebar.Visible | src/components/Sidebar.jsx:29-103 | an entry is rendered when it has no guard or its `checkUser` call allows it (no contract; `VisibleByRole` characterises it) |
| Sidebar.VisibleByRole | src/components/Sidebar.jsx:39-88 | an entry is shown exactly when it is in the set for the role `checkUser` resolves |
| Sidebar.Table | src/components/Sidebar.jsx:29-103 | "root" sees all seven entries; "admin" all but admins; "teacher" dashboard, students, courses and settings; no role dashboard and settings |
| Sidebar.OtherRoles | src/components/Sidebar.jsx:39-88 | a role other than the three staff roles sees only the dashboard and settings |
| Sidebar.Nested | src/components/Sidebar.jsx:39-88 | what a teacher sees an admin sees, and what an admin sees root sees |
| Layout.PageTitle | src/components/layout/Layout.jsx:44-50 | "/" is "Dashboard"; "/admins" is "Admins"; any path starting "/admin/" is "Admin Details"; every other path gets the centre's name |
| Layout.HeaderFor | src/components/layout/Layout.jsx:34-36 | the back button shows exactly on an admin detail page, and the title shows everywhere else |
| Layout.IsAdminDetailPage | src/components/layout/Layout.jsx:34-36 | `/^\/admin\/[^/]+$/`: "/admin/" followed by a non-empty segment without a slash (a predicate; `DetailPageIsOneSegment` characterises it) |
| Layout.DetailPageIsOneSegment | src/components/layout/Layout.jsx:35 | "/admin/" plus a segment is a detail page exactly when the segment is non-empty and has no slash |
| Layout.DetailPageHasPrefix | src/components/layout/Layout.jsx:86-105 | a path not starting "/admin/" shows its title |
| Layout.AdminsIsNotDetail | src/components/layout/Layout.jsx:47-48 | "/admins" does not start with "/admin/" and is titled "Admins" |
| Layout.DeeperAdminPath | src/components/layout/Layout.jsx:35-48 | a path with two or more segments under "/admin/" gets the "Admin Details" title, not the back button |
| Layout.OtherPagesGeneric | src/components/layout/Layout.jsx:49 | "/dashboard" and "/settings" carry the centre's name |
| RequireAuth.Observed | src/components/auth/RequireAuth.jsx:66-80 | without a valid token the query is skipped and reports no data, no error and no loading |
| RequireAuth.MockData | src/components/auth/RequireAuth.jsx:83-95 | a network error with a valid token gives the mock root identity; otherwise the query's identity is used |
| RequireAuth.HasValidToken | src/components/auth/RequireAuth.jsx:54-56 | a token is present and starts with "Bearer " (a predicate, no contract) |
| RequireAuth.AuthFailed | src/components/auth/RequireAuth.jsx:108 | a GraphQL error without a network error, or no identity (a predicate, no contract) |
| RequireAuth.Gate | src/components/auth/RequireAuth.jsx:49-131 | one mount of the guard: role caching, clearing on failure, redirect and render, in the source's effect order (no contract; `Guard` is proved against it and the `RequireAuth` lemmas state its properties) |
| RequireAuth.Guard | src/components/auth/RequireAuth.jsx:49-131 | one mount renders, writes storage and redirects exactly as `Gate` says |
| RequireAuth.NoValidToken | src/components/auth/RequireAuth.jsx:54-63 | without a "Bearer " token the guard renders nothing, redirects, and leaves storage alone |
| RequireAuth.LoadingShowsIndicator | src/components/auth/RequireAuth.jsx:124-127 | a valid token with the query in flight shows the loading indicator, keeps the token and does not redirect |
| RequireAuth.LoadedRendersOutlet | src/components/auth/RequireAuth.jsx:119-130 | once loading ends, a valid token always renders the protected routes |
| RequireAuth.NetworkErrorGrantsMock | src/components/auth/RequireAuth.jsx:83-117 | a network error caches the role "root", keeps the token and does not redirect |
| RequireAuth.FailureClearsSession | src/components/auth/RequireAuth.jsx:106-117 | after loading, the guard redirects exactly on a server error or a missing identity; it then removes the token and the role, and otherwise keeps the token |
| RequireAuth.RoleFollowsIdentity | src/components/auth/RequireAuth.jsx:98-103 | when the session is kept, the cached role is the identity's role |
| RequireAuth.PartialDataStillFails | src/components/auth/RequireAuth.jsx:98-117 | an identity that comes with GraphQL errors still ends the session |
| RequireAuth.AuthenticatedCachesRole | src/components/auth/RequireAuth.jsx:98-130 | a successful check caches the identity's role, renders the routes and does not redirect |
| Settings.ClearSession | src/pages/Settings/index.jsx:31-33 | a logout removes the token and the role and keeps every other key and value |
| Settings.HandleLogout | src/pages/Settings/index.jsx:31-36 | the handler clears the session and goes to "/login" |
| Settings.ClearSessionIdempotent | src/pages/Settings/index.jsx:31-33 | logging out twice is logging out once |
| Settings.LogoutMatchesGuardFailure | src/pages/Settings/index.jsx:31-34 | a logout removes exactly what the route guard removes on a failed check |
| Settings.NoResurrectionAfterLogout | src/pages/Settings/index.jsx:31-36 | after a logout no evaluation of the guard renders the routes or restores the token |
| AdminsFilter.Keep | src/pages/AdminsPage/AdminsPageConstants.js:23-31 | the kept admins are exactly the matching ones: each matching admin is kept as many times as it occurs, and no other is kept |
| AdminsFilter.FilterAdmins | src/pages/AdminsPage/AdminsPageConstants.js:19-32 | a blank query returns the list itself; otherwise an admin is in the result exactly when it matches the normalised query |
| AdminsFilter.KeepIsSublist | src/pages/AdminsPage/AdminsPageConstants.js:23-31 | filtering keeps the admins in their original order |
| AdminsFilter.FilterIsSublist | src/pages/AdminsPage/AdminsPageConstants.js:19-32 | the result is always an order-preserving sub-list of the input |
| AdminsFilter.SublistRefl | src/pages/AdminsPage/AdminsPageConstants.js:20 | the unfiltered list is a sub-list of itself |
| AdminsFilter.KeepIdempotent | src/pages/AdminsPage/AdminsPageConstants.js:23-31 | filtering twice with one query is filtering once |
| AdminsFilter.Normalize | src/pages/AdminsPage/AdminsPageConstants.js:22 | the query lower-cased, then trimmed (no contract) |
| AdminsFilter.Matches | src/pages/AdminsPage/AdminsPageConstants.js:24-30 | exact id, name or username containing the query ignoring case, or phone or birth date containing it (a predicate, no contract) |
| AdminsFilter.FilterIdempotent | src/pages/AdminsPage/AdminsPageConstants.js:19-32 | searching the result again with the same query changes nothing |
| AdminsFilter.BlankIffNormalizedEmpty | src/pages/AdminsPage/AdminsPageConstants.js:20-22 | the blank test on the raw query agrees with the normalised query being empty |
| AdminsFilter.SameNormalFormSameResult | src/pages/AdminsPage/AdminsPageConstants.js:19-32 | queries with the same normal form give the same result |
| AdminsFilter.CaseInsensitive | src/pages/AdminsPage/AdminsPageConstants.js:22-27 | letter case in the query does not matter |
| AdminsFilter.IdIsExact | src/pages/AdminsPage/AdminsPageConstants.js:25-29 | an admin none of whose other fields contains the query is found exactly when its id equals the query |
| AdminsFilter.IdPrefixIsNotFound | src/pages/AdminsPage/AdminsPageConstants.js:25 | the id is compared whole: id "12" is not found by "1" |
| AddAdminForm.FormReducer | src/components/AddAdmin/AddAdminConstants.js:29-51 | the reducer the add-admin hook runs (src/components/AddAdmin/useAddAdminForm.js:10): one branch per action type (no contract; its properties are the `AddAdminForm` lemmas) |
| AddAdminForm.Cleared | src/components/AddAdmin/AddAdminConstants.js:36-45 | the object `CLEAR_FORM` returns (a constant; `ClearedShape` states its contents) |
| AddAdminForm.InitialFormState | src/components/AddAdmin/AddAdminConstants.js:54-64 | `initialFormState` (a constant; `InitialShape` states its contents) |
| AddAdminForm.SetFieldOnlyField | src/components/AddAdmin/AddAdminConstants.js:31-32 | `SET_FIELD` sets the named property and leaves every other one as it was |
| AddAdminForm.SetErrorsAndModalAreLocal | src/components/AddAdmin/AddAdminConstants.js:33-47 | `SET_ERRORS` replaces only `errors`, and `SET_MODAL` only `open` |
| AddAdminForm.ClearFormIgnoresState | src/components/AddAdmin/AddAdminConstants.js:35-45 | `CLEAR_FORM` gives the same object from any state, so clearing twice is clearing once |
| AddAdminForm.ClearedShape | src/components/AddAdmin/AddAdminConstants.js:35-64 | the cleared form has empty text fields, country code "90", no birth date and no errors, and no `open` property; the initial state is the cleared form plus `open: false` |
| AddAdminForm.InitialShape | src/components/AddAdmin/AddAdminConstants.js:54-64 | the initial state has exactly the form's properties: modal closed, empty text, country code "90", no birth date, no errors |
| AddAdminForm.UnknownActionKeepsState | src/components/AddAdmin/AddAdminConstants.js:48-49 | an action of any other type returns the state itself |
| AddAdminForm.CompletedAddResetsForm | src/components/AddAdmin/useAddAdminForm.js:17-18 | `CLEAR_FORM` then `SET_MODAL` with `open: false` brings any state back to the initial state |
| Login.UserTypeFromSubdomain | src/pages/Login/index.jsx:29-40 | a hostname with three or more labels gives its leftmost label; any other gives `VITE_SUBDOMAIN` or "root" |
| Login.UserTypeAgreesWithSubdomainRole | src/pages/Login/index.jsx:29-40 | the login page and `getSubdomainRole` agree on every hostname but "localhost" |
| Login.ClassifyError | src/pages/Login/index.jsx:107-115 | an HTTP 500 gives the server message; any other network error gives the network message; otherwise the first GraphQL error, or the generic message |
| Login.Submit | src/pages/Login/index.jsx:54-119 | one submission: the blank-input guard, then the request with trimmed inputs and its outcome (no contract; `HandleSubmit` is proved against it and the `Login` lemmas state its properties) |
| Login.Respond | src/pages/Login/index.jsx:89-118 | what the page does with the mutation's answer or thrown error (no contract) |
| Login.LoginPage.constructor | src/pages/Login/index.jsx:20-23 | the page starts with empty inputs and no error |
| Login.LoginPage.HandleSubmit | src/pages/Login/index.jsx:54-119 | each input, the banner, the request sent, the stored token and the navigation are exactly those of `Submit` on the old inputs |
| Login.LoginPage.HandleOutcome | src/pages/Login/index.jsx:89-118 | the state after the mutation's outcome is exactly that of `Respond` |
| Login.BlankInputSendsNothing | src/pages/Login/index.jsx:63-67 | a blank or whitespace-only username or password shows "Please fill in all fields", sends nothing and stores nothing |
| Login.RequestIsTrimmed | src/pages/Login/index.jsx:77-89 | the request carries the trimmed username, the trimmed password and the hostname's user type |
| Login.OnlySuccessStoresToken | src/pages/Login/index.jsx:92-101 | a token is stored, and the page goes home, exactly on a successful answer with a token; the stored value starts "Bearer ", as the route guard requires |
| Login.RefusedAnswerClearsInputs | src/pages/Login/index.jsx:96-101 | an answer without success shows the server's message or "Login failed" and empties both inputs |
| Login.ThrownErrorKeepsInputs | src/pages/Login/index.jsx:103-118 | a thrown error keeps the inputs, stores nothing and raises the banner with the classified message |
| AdminEdit.CountryCodeOf | src/pages/Admin/index.jsx:304 | the selector's default is "998" or "90" |
| AdminEdit.LocalPartOf | src/pages/Admin/index.jsx:319-324 | the number input's default is a suffix of the stored phone |
| AdminEdit.SplitRecombine | src/pages/Admin/index.jsx:114-121 | a phone starting "998" or "90" comes back whole from the selector and the input; any other phone comes back with "998" in front |
| AdminEdit.Pasted | src/pages/Admin/index.jsx:332-361 | a paste puts only digits into the number input |
| AdminEdit.PasteKeepsDigits | src/pages/Admin/index.jsx:332-361 | a pasted number with a country code is split between selector and input with no digit lost; one without lands in the input whole |
| AdminEdit.DateInputOf | src/pages/Admin/index.jsx:406 | the birth-date input's default is the prefix of the stored value before its first "T", and holds no "T" |
| AdminEdit.DateInputOfPlainDate | src/pages/Admin/index.jsx:406 | a stored date without a time part is shown as it is |
| AdminEdit.Untouched | src/pages/Admin/index.jsx:255-410 | the inputs of the form as first rendered: the stored values, the split phone, and the date part of the birth date |
| AdminEdit.AdminPage.constructor | src/pages/Admin/index.jsx:255-410 | the form starts with each input at its default (`Untouched`), out of editing mode, with no errors |
| AdminEdit.AdminPage.HandleSave | src/pages/Admin/index.jsx:97-190 | the outcome is that of `Save` on the current form; the field errors are set on a validation failure and cleared otherwise |
| AdminEdit.AdminPage.ValidateAndSend | src/pages/Admin/index.jsx:148-190 | validation and change detection decide the outcome as `Decide` does |
| AdminEdit.AdminPage.OnPaste | src/pages/Admin/index.jsx:327-361 | outside editing nothing changes; in editing the number input and the selector take what `Pasted` gives |
| AdminEdit.Collect | src/pages/Admin/index.jsx:111-145 | the values a save works with: each input or the stored value, the phone from selector and number, the birth date normalised (no contract; `FieldsFallBack` states it) |
| AdminEdit.EditFields | src/pages/Admin/index.jsx:149-155 | the fields handed to `validateAdminEditForm`: name, username, Telegram name, phone and birth date, no password (a helper, no contract; `EditIgnoresPassword` states it) |
| AdminEdit.HasChanges | src/pages/Admin/index.jsx:180-185 | some sent value differs from the stored one (a predicate, no contract) |
| AdminEdit.Save | src/pages/Admin/index.jsx:97-190 | `handleSave`'s decision in the source's guard order (no contract; `HandleSave` is proved against it and `SaveGuards` states it) |
| AdminEdit.Decide | src/pages/Admin/index.jsx:148-190 | validation, then change detection, once the values are collected (no contract) |
| AdminEdit.NoFormDataNeverFires | src/pages/Admin/index.jsx:114-131 | the selector is never empty, so neither is the phone, and the "no form data" alert never shows |
| AdminEdit.FieldsFallBack | src/pages/Admin/index.jsx:112-124 | each text value is the input when it is non-empty and the stored value otherwise, so an emptied field is never sent empty |
| AdminEdit.SaveGuards | src/pages/Admin/index.jsx:148-195 | the save fails validation exactly when there are errors, reports no changes exactly when it is valid and nothing differs, and otherwise sends the collected values |
| AdminEdit.EditIgnoresPassword | src/pages/Admin/index.jsx:149-155 | the edit form never reports a password error |
| AdminEdit.UntouchedForm | src/pages/Admin/index.jsx:112-190 | for a stored birth date that is empty or shaped YYYY-MM-DD, saving the form as first rendered sends nothing when the phone starts "998" or "90"; any other phone gets "998" put in front, counts as a change, and never ends in "no changes" |
| AdminEdit.UntouchedCollect | src/pages/Admin/index.jsx:111-145 | for a stored birth date that is empty or shaped YYYY-MM-DD, the untouched form collects the stored values, with the phone put back together from selector and number |
| AdminEdit.DecideFollowsChanges | src/pages/Admin/index.jsx:179-190 | without a change nothing is sent, and with one the save never ends in "no changes" |
| AdminEdit.UntouchedDateTimeIsAChange | src/pages/Admin/index.jsx:112-190 | for a stored birth date with a time part, saving the form as first rendered sends the date part before "T", which differs from the stored value: the save always counts as a change and is sent exactly when validation passes |

## Left out

- Text.LowerChar: `toLowerCase` is modelled for the ASCII letters only. Other scripts' case mappings are not modelled.
- AdminsFilter.Matches: every field of an admin row is taken to be a present string. For a non-blank query `filterAdmins` calls `toString`, `toLowerCase` or `includes` directly on the id, name, username, phone and birth date in turn, up to the first match, and the TypeError it throws on reaching a null or missing field is not modelled.
- Validators.ValidateBirthDate: whether a well-shaped date is a real calendar date no later than now is the parameter `calendarOk`. Date parsing and the clock are not modelled.
- AdminEdit.Collect: the conversion of a non-ISO birth date by `new Date(...).toISOString()` is the parameter `toIsoDate`.
- The GraphQL requests (`me`, `getAdmin`, `getAdmins`, `login`, `changeAdmin`, `addAdmin`) are not modelled as network calls. Their outcomes are parameters: `MeQuery`, `LoginOutcome`, and the admin record.
- AdminEdit.AdminPage.HandleSave: what happens after the `changeAdmin` mutation is sent (the `onCompleted`, `onError` and `catch` branches) is not modelled. It consists of alerts, leaving editing mode and a refetch.
- `alert` and `console` output, the JSX markup, styles, dark mode and translation are left out. Titles are modelled by their translation keys.
- RequireAuth.Guard: React runs the guard's effects after rendering and may run them again. The model takes one mount as a single transition in declaration order. It does not model `replace: true` versus a pushed history entry.
- RequireAuth.Gate: the role is cached only when it is non-empty, as the source's `mockData?.me?.role` test requires.
- The mock identity after a network error is applied unconditionally, as the source does. No configuration flag turns it off.
- Settings.HandleLogout: the `window.location.reload()` after logging out is not modelled, beyond going to "/login". A reload starts every component afresh.
- AdminEdit.DateInputOf: a date input's browser-side value sanitisation is not modelled: the input is taken to hold the text before the first "T" even when that is not a valid date.
- AdminEdit.AdminPage.OnPaste: the country selector is assumed present in the input's parent, which the page's markup guarantees.
- Login.LoginPage.HandleSubmit: the second emptiness guard ("Username and password cannot be empty") tests the same condition as the first. It is shown unreachable and has no branch of its own.
- Older duplicates of these components are not part of this model: src/components/RequireAuth.jsx, src/pages/Login.jsx, src/pages/AdminsPage.jsx, src/components/Layout.jsx and src/components/AddAdmin.jsx. The files modelled here supersede them.
- The rest of the Settings page (the profile query and its display) and the `handleErrorClose` banner reset of the login page are not modelled.
