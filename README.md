# CTFSE registration and admin core in Dafny

CTFSE is the registration site of a capture-the-flag event. This project
models its core:

- the server actions that check whether an email is already registered and
  register a participant. Registering validates the form, looks up the
  email, creates an authentication user, inserts the `profiles` row, and
  deletes the user again when the insert fails;
- the two client registration forms that guard and submit that action;
- the admin side:
  - the edge middleware that guards `/admin` and counts redirects;
  - the server and client admin layouts;
  - the login page;
  - the dashboard statistics;
  - the registrations table with its search, sorting and CSV export;
  - the stand-alone export card;
  - the settings page that grants admin rights.

The hosted backend (authentication and the `profiles` table) is a value:
`Profiles.Store` holds the set of authentication user ids and the table rows.
Every call into the backend becomes an input that says how the call ends:
it answers, it fails with a message, or it throws. A query ending in
`.single()` answers with the row when exactly one row matches. Any other
number of matching rows gives PostgREST's "PGRST116" error.

Pure code is written as functions with lemmas. Each React component that keeps
state is a class: its `useState` variables are fields, and each of its
handlers is a method. A handler receives how its awaited call would end, and
its `ensures` gives the whole new state. Router navigation is recorded as the
list of paths pushed. Server actions and the middleware are pure functions
from the request and the backend's answers to the result. `Backend.RegisterUser`
changes the store in place and is proved equal to the function `Register`.

JavaScript details are modelled as the runtime has them:

- only `""` is a falsy string;
- `a || b` is `OrElse`;
- `\s` is the full ECMAScript whitespace and line-terminator set;
- `.` does not match line terminators;
- `trim()` removes that same set.

The three validation regexes are hand-written scanners. Each is proved equal
to a predicate that reads the regex literally (`Patterns.EmailMatchesRegex`,
`Patterns.FacebookMatchesRegex`).

`app/actions.ts` and `app/admin/actions.ts` import `createServerSupabaseClient`
from `@/lib/supabase`, but `lib/supabase.ts` exports only `createClient`. The
function they use is defined in `lib/supabaseAdmin.ts` (lines 6-18): it throws
when either environment variable is missing. The model follows that file. A
`configured` flag says whether creating the client succeeds, and when it is
false the action takes its `catch` path.

Behaviour of the code as written that the model keeps and states:

- The server admin layout reads `x-skip-admin-check` from the incoming
  request (`app/admin/actions.ts:8-11`), but the middleware sets it only on
  its response (`middleware.ts:29`). A request that carries the header
  itself is therefore rendered without any session or admin check
  (`AdminGate.SkipHeaderBypassesGate`).
- A redirect from the middleware never carries `x-redirect-count`. Only
  pass-through responses do (`Middleware.Decide`).
- The stand-alone form starts with participation mode `"on-site"`, which is
  neither of its radio values, `"online"` and `"onsite"`
  (`RegistrationForm.InitialModeSelectsNoRadio`).
- The stand-alone form's email check has no `finally`. A rejected check
  therefore leaves `checkingEmail` set (`RegistrationForm.SignUpForm.HandleEmailBlur`).
- The stand-alone form does not trim the full name, so a name of spaces
  passes its name guard (`RegistrationForm.SpacesNamePassesNameGuard`).
  The landing-page form trims it (`CyberInterface.BlankNameIffFirstGuardFails`).
- The table's search text goes unquoted into the PostgREST `or` filter.
  `RegistrationsTable.FilterSplitsIntoClauses` proves that the filter splits
  into exactly the three `ilike` clauses when and only when the text has no
  comma; a comma gives more than three parts (`RegistrationsTable.CommaBreaksClauses`).

## Model

| member | source | states |
|---|---|---|
| Common.OrElse | app/actions.ts:86 | `a \|\| b` on strings: the first operand unless it is empty, otherwise the fallback |
| Common.OptOrElse | components/cyber-interface.tsx:538 | a possibly missing message falls back when it is missing or empty |
| Common.TrimEmptyIffAllSpace | components/cyber-interface.tsx:496-498 | `trim()` gives the empty string exactly when every character is JavaScript whitespace |
| Common.TrimIdempotent | app/admin/login/page.tsx:117 | trimming a trimmed value changes nothing |
| Common.TrimStartShape | components/cyber-interface.tsx:496 | the leading-trim result is a suffix of the input, with only whitespace removed and no whitespace at its start |
| Common.TrimEndShape | components/cyber-interface.tsx:496 | the trailing-trim result is a prefix of the input, with only whitespace removed and no whitespace at its end |
| Validation.FirstFailingIndex | app/actions.ts:42-59 | the index of the guard that returns: every earlier guard passes and that one fails |
| Validation.FirstFailure | app/actions.ts:42-59 | there is no failure message exactly when every guard passes; a message means some guard failed |
| Validation.LaterChecksIrrelevant | app/actions.ts:42-59 | once a guard fails, the guards after it cannot change the answer |
| Validation.PassingPrefixSkipped | app/actions.ts:42-59 | guards that all pass do not affect the answer of the guards after them |
| Patterns.IndexOf | app/actions.ts:42 | the first position of a character, with no earlier occurrence |
| Patterns.EmailMatchesRegex | app/actions.ts:42 | the email scanner accepts exactly the strings `^[^\s@]+@[^\s@]+\.[^\s@]+$` matches |
| Patterns.EmailScanImpliesRegex | app/actions.ts:42 | every string the scanner accepts matches the email regex |
| Patterns.EmailRegexImpliesScan | app/actions.ts:42 | every match of the email regex is accepted by the scanner, whatever `@` and `.` the regex chose |
| Patterns.PhoneShape | app/actions.ts:54 | `^\+?\d{8,}$`: an optional leading `+`, then at least eight ASCII digits and nothing else |
| Patterns.FacebookMatchesRegex | app/actions.ts:57 | the URL scanner accepts exactly the strings `^https?:\/\/(www\.)?facebook\.com\/.+$` matches |
| Patterns.FacebookScanImpliesRegex | app/actions.ts:57 | every URL the scanner accepts matches the regex |
| Patterns.FacebookRegexImpliesScan | app/actions.ts:57 | every match of the regex is accepted by the scanner |
| Profiles.RowsWhere | app/actions.ts:9-13 | the rows `.eq(column, value)` selects, by email here and by id in `app/admin/actions.ts`: only rows of the table with that value, and all of them |
| Profiles.Single | app/actions.ts:13 | `.single()` answers with a row exactly when one row matches, and otherwise with "PGRST116" |
| Profiles.Query | app/actions.ts:7-13 | without a fault the query answers as `.single()` does; it throws exactly when the backend throws |
| Profiles.CountWhenUnique | app/actions.ts:9-13 | when a column holds no value twice, a value matches at most one row, and exactly one when it is present |
| Profiles.UniqueSingle | app/admin/actions.ts:25-29 | with unique values in the column, the lookup answers with a row exactly when some row has the value: for the primary key `id` this is whether the user has a profile |
| Registration.ValidationAcceptsIff | app/actions.ts:42-59 | the server accepts a form exactly when the email matches, the password has at least 6 characters, the name is non-empty, the team is "solo" or "team", and any phone or Facebook URL given matches its pattern |
| Registration.InvalidTeamRejected | app/actions.ts:51-53 | with valid email, password and name, a team preference other than "solo" or "team" is rejected with "Invalid team preference" |
| Registration.EmptyOptionalFieldsAccepted | app/actions.ts:54-59 | empty phone and Facebook fields never produce the phone or Facebook error |
| Registration.Normalize | app/actions.ts:62-64 | `value \|\| null`: the empty field becomes null and any other value is kept |
| Registration.CheckEmailExists | app/actions.ts:6-26 | `exists` is true exactly when the lookup answered with a row, and the profile is that row's summary; errors other than PGRST116 and exceptions report not found |
| Registration.InvalidFormTouchesNothing | app/actions.ts:30-59 | a form that fails validation makes no backend call, changes nothing, and returns the guard's message; an unconfigured server returns the catch message |
| Registration.DuplicateStopsAfterLookup | app/actions.ts:67-75 | a registered email is answered with `alreadyRegistered` and the found profile after the lookup alone, and the store is unchanged |
| Registration.SuccessAppendsNormalisedRow | app/actions.ts:78-114 | a successful registration adds exactly the new auth user and appends exactly one row, built from the form with empty optional fields stored as null and `is_admin` false |
| Registration.FailureKeepsProfiles | app/actions.ts:62-117 | every failed registration leaves the profiles table as it was |
| Registration.CompensationRestoresStore | app/actions.ts:91-109 | when the insert fails and the delete succeeds, the store is back to where it started and the error names the insert failure |
| Registration.SuccessPath | app/actions.ts:30-114 | success implies a configured server, a valid form and an email the lookup did not find; sign-up returned a user, the insert succeeded, that user joined the auth users and exactly the new row was appended |
| Registration.RegisterReachesCreateAccount | app/actions.ts:62-78 | with a valid form and a free email, registration looks the email up, then goes on to the sign-up and insert steps |
| Registration.CreateAccountSuccess | app/actions.ts:78-103 | the account steps succeed only when sign-up returns a user and the insert succeeds, and then add that user and append exactly its row |
| Registration.CreateAccountFailure | app/actions.ts:78-109 | failed account steps leave the profiles table unchanged |
| Registration.AppendFreshEmail | app/actions.ts:91-103 | appending a row whose email is new keeps emails unique |
| Registration.RegistrationKeepsEmailsUnique | app/actions.ts:67-103 | when the lookup answers, registration keeps the emails in `profiles` unique |
| Registration.Backend.RegisterUser | app/actions.ts:28-117 | the in-place registration ends with the result, store and call sequence `Register` gives for the old store |
| Forms.FormDataOf | components/cyber-interface.tsx:523-532 | the FormData sent carries each of the nine field values under its own key |
| CyberInterface.ResetIsInitial | components/cyber-interface.tsx:372-380 | after a successful submission the form is reset to exactly its initial values |
| CyberInterface.WhitespaceNameRejected | components/cyber-interface.tsx:496-499 | a name made only of whitespace is refused with "Full name is required" |
| CyberInterface.BlankNameIffFirstGuardFails | components/cyber-interface.tsx:496-499 | the name message is shown exactly when the trimmed name is empty |
| CyberInterface.ClientAcceptedIsServerAccepted | components/cyber-interface.tsx:496-520 | a form the client guards pass, with a radio team value, passes the server's validation too |
| CyberInterface.CyberInterface.HandleSubmit | components/cyber-interface.tsx:490-581 | the first failing guard's message is shown and nothing is sent; otherwise the form is sent. Success shows the message or its fallback and resets the form; an already-registered reply shows the profile; other failures and rejections show the error or its fallback; loading ends false |
| CyberInterface.CyberInterface.HandleEmailBlur | components/cyber-interface.tsx:467-488 | the lookup runs only for a well-formed email. A found email shows the profile and the notice, a new one clears both, a rejection shows "Error checking email availability" and keeps the profile; after a lookup `checkingEmail` is false, and without one the whole state is unchanged |
| CyberInterface.CyberInterface.UseDifferentEmail | components/cyber-interface.tsx:673-677 | leaves the already-registered view: clears the profile and the message and empties the email |
| RegistrationForm.InitialModeSelectsNoRadio | components/registration-form.tsx:33 | the initial participation mode "on-site" is neither radio value; the reset value "online" is one of them |
| RegistrationForm.ResetDiffersOnlyInMode | components/registration-form.tsx:100-113 | the reset after success differs from the initial form in the participation mode only |
| RegistrationForm.SpacesNamePassesNameGuard | components/registration-form.tsx:60-63 | any non-empty name, spaces included, passes the name guard |
| RegistrationForm.ClientAcceptedIsServerAccepted | components/registration-form.tsx:60-84 | a form the client guards pass, with a radio team value, passes the server's validation too |
| RegistrationForm.SignUpForm.HandleSignUp | components/registration-form.tsx:54-136 | the guard results as in the landing form. The already-registered view needs both the flag and a profile; the submit button is disabled afterwards exactly when a profile is shown |
| RegistrationForm.SignUpForm.HandleEmailBlur | components/registration-form.tsx:39-52 | as in the landing form, except that a rejected lookup leaves `checkingEmail` set and the message and profile unchanged |
| RegistrationForm.SignUpForm.RegisterDifferentEmail | components/registration-form.tsx:164-168 | clears the profile and the message and empties the email |
| Csv.Split | components/admin/export-data.tsx:61 | splitting always gives at least one part |
| Csv.SplitPlain | components/admin/export-data.tsx:61 | a text without the separator splits into itself |
| Csv.SplitAfterSeparator | components/admin/export-data.tsx:61 | splitting at the first separator gives the part before it followed by the split of the rest |
| Csv.SplitCount | components/admin/export-data.tsx:61 | a split has exactly one part more than the text has separators |
| Csv.SplitJoin | components/admin/export-data.tsx:61 | `join` then `split` on a separator no part contains gives back the parts |
| Csv.JoinAvoids | components/admin/export-data.tsx:61 | joining introduces no character other than the separator |
| Csv.QuotedShape | components/admin/export-data.tsx:49 | a quoted cell is the value between two double quotes, nothing escaped |
| Csv.TextCell | components/admin/export-data.tsx:49-53 | a nullable text column is written quoted, with null (or "") written as "" |
| Csv.QuotedAvoids | components/admin/export-data.tsx:49 | quoting adds no character other than the double quote |
| Csv.Cells | components/admin/export-data.tsx:47-57 | a record has one cell per header, eight: the full name, email, phone number, Facebook URL and university quoted, each null written as "", then the two word cells, and last the registration date as the host's `localeDate` writes it |
| Csv.WordCells | components/admin/export-data.tsx:54-55 | the sixth cell is "Yes" exactly for CTF experience and "No" otherwise; the seventh is "Team" for the preference "team" and "Solo" for anything else |
| Csv.CellsAvoid | components/admin/export-data.tsx:45-59 | a character that no field value and no fixed word contains appears in no cell |
| Csv.HeaderCells | components/admin/export-data.tsx:34-43 | the header line splits back into the eight column titles |
| Csv.LineCells | components/admin/export-data.tsx:59 | a record line without commas in its values splits back into its cells |
| Csv.HeaderLineSingle | components/admin/export-data.tsx:34-43 | the header line holds no line break |
| Csv.RecordLineSingle | components/admin/export-data.tsx:45-59 | a record line without line breaks in its values holds none |
| Csv.ContentLines | components/admin/export-data.tsx:61 | the file has one line per profile plus the header: the header first, then line i+1 is profile i |
| Csv.NameCopiedVerbatim | components/admin/export-data.tsx:49 | each record line starts with the full name, quoted, then a comma |
| ExportData.ExportCard.HandleExport | components/admin/export-data.tsx:15-80 | a file is produced exactly when rows came back, and its content is the CSV of those rows; otherwise the fetch error (or "Error fetching data"), "No data to export" or "An unexpected error occurred" is shown; loading ends false |
| RegistrationsTable.Flip | components/admin/registrations-table.tsx:64 | flipping always changes the order |
| RegistrationsTable.NextSort | components/admin/registrations-table.tsx:62-69 | the clicked column becomes the sort column: the same column flips its order, and a new column starts ascending |
| RegistrationsTable.SortTwiceRestores | components/admin/registrations-table.tsx:62-69 | clicking the current column twice restores the sort |
| RegistrationsTable.NewColumnTwiceDescends | components/admin/registrations-table.tsx:62-69 | clicking a new column twice sorts it descending |
| RegistrationsTable.PlanQuery | components/admin/registrations-table.tsx:38-49 | a filter is added exactly for a non-empty search; the order is the sort column and direction |
| RegistrationsTable.FilterClauses | components/admin/registrations-table.tsx:42-46 | a comma-free search makes the `or` filter split into exactly the ilike clauses on name, email and university |
| RegistrationsTable.ClauseAvoids | components/admin/registrations-table.tsx:42-44 | an ilike condition on a comma-free column and search text contains no comma |
| RegistrationsTable.CommaBreaksClauses | components/admin/registrations-table.tsx:42-44 | a search text with a comma makes the `or` filter split into more than three conditions |
| RegistrationsTable.ClauseCommas | components/admin/registrations-table.tsx:43 | an ilike condition holds exactly the commas of its column name and search text |
| RegistrationsTable.FilterSplitsIntoClauses | components/admin/registrations-table.tsx:41-45 | for a non-empty search, the filter splits into exactly the three intended ilike conditions if and only if the text has no comma |
| RegistrationsTable.TableExport | components/admin/registrations-table.tsx:71-129 | a download happens exactly when rows came back, with the CSV of those rows; otherwise "Error exporting data: " plus the message, "No data to export", or the unexpected-error alert |
| RegistrationsTable.Table.HandleSort | components/admin/registrations-table.tsx:62-69 | the new sort is `NextSort` of the old, and nothing else changes |
| RegistrationsTable.Table.FetchRegistrations | components/admin/registrations-table.tsx:36-60 | the query is planned from the current search and sort. Returned rows replace the list and null data empties it; an exception keeps it; loading ends false |
| DashboardStats.CountOr0 | components/admin/dashboard-stats.tsx:57-60 | missing data counts 0; otherwise the count is the number of rows holding the value, its multiplicity in the column |
| DashboardStats.ComputeStats | components/admin/dashboard-stats.tsx:34-69 | the total is the exact count and the experience counter the rows of its query; solo, team, online and onsite are the multiplicities of those values in the preference and mode columns; every counter whose query returned no data is 0 |
| DashboardStats.FetchData | components/admin/dashboard-stats.tsx:34-74 | loading ends false. An exception keeps the stats and profiles; otherwise the stats are recomputed, and the profile list is replaced unless its query failed |
| DashboardStats.CountIsMultiplicity | components/admin/dashboard-stats.tsx:56-60 | the filter-length count equals the number of occurrences of that value |
| DashboardStats.DisjointCountsBounded | components/admin/dashboard-stats.tsx:56-60 | counts of two different values never exceed the number of rows together |
| DashboardStats.PreferenceCountsBounded | components/admin/dashboard-stats.tsx:57-60 | solo plus team, and online plus onsite, never exceed the rows returned |
| DashboardStats.Display | components/admin/dashboard-stats.tsx:211-225 | a cell shows the value, or "N/A" when it is missing or empty, and is never empty |
| DashboardStats.YesNo | components/admin/dashboard-stats.tsx:218 | "Yes" exactly for true, "No" exactly for false |
| DashboardStats.Row | components/admin/dashboard-stats.tsx:211-225 | a table row has six cells, the first the id, and no other cell empty |
| AdminSettings.GrantAdmin | app/admin/settings/page.tsx:49 | the update sets `is_admin` on exactly the rows with the email and leaves every other row alone |
| AdminSettings.MakeAdmin | app/admin/settings/page.tsx:19-72 | the email is cleared exactly when the lookup finds one non-admin row and the update succeeds. Only then are the rows updated, with "User has been granted admin privileges"; every other outcome leaves the table unchanged. A lookup error reads as "not found", and an exception gives the unexpected-error message |
| AdminSettings.UnknownEmailNotUpdated | app/admin/settings/page.tsx:26-38 | an email that does not match exactly one profile gives "User not found with this email address", and nothing is updated |
| AdminSettings.ExistingAdminNotUpdated | app/admin/settings/page.tsx:40-46 | an existing admin gives "This user is already an admin", and nothing is updated |
| AdminSettings.GrantIdempotent | app/admin/settings/page.tsx:49 | granting twice is granting once |
| AdminSettings.GrantKeepsMatches | app/admin/settings/page.tsx:49 | the update does not change which rows match the email |
| AdminSettings.SecondGrantAlreadyAdmin | app/admin/settings/page.tsx:40-63 | after a successful grant, a second grant for the same email answers "This user is already an admin" and changes nothing |
| AdminSettings.SettingsPage.HandleMakeAdmin | app/admin/settings/page.tsx:19-72 | the page shows `MakeAdmin`'s message, the table becomes its rows, the email is cleared exactly on success, auth users are unchanged, and loading ends false |
| Middleware.DigitChar | middleware.ts:14 | the written digit reads back as the same digit |
| Middleware.NatText | middleware.ts:14 | `String(n)` of a natural number is a non-empty run of digits |
| Middleware.DecimalOfText | middleware.ts:8-14 | reading the decimal writing of a number gives that number |
| Middleware.TrimKeeps | middleware.ts:9 | a text without whitespace at either end is its own trim |
| Middleware.NumberTextRoundTrip | middleware.ts:8-14 | `Number(String(n)) == n` for every integer of the model and for NaN, so the count header round-trips; the model's integers are unbounded, so this matches JavaScript only for safe integers (see "Left out") |
| Middleware.Decide | middleware.ts:8-61 | every redirect has status 307, and every pass-through response carries `x-redirect-count` |
| Middleware.Middleware | middleware.ts:63-65 | the middleware runs exactly on `/admin` and the paths below it |
| Middleware.TooManyRedirectsFirst | middleware.ts:8-13 | a count above 3 leads to the too-many-redirects page, and only such a count does |
| Middleware.PassThroughCountsOneMore | middleware.ts:8-14 | a pass-through response's count header reads back as the incoming count plus one |
| Middleware.UnconfiguredOnlyLoginPasses | middleware.ts:17-25 | without both environment variables, the login page passes without the skip header and every other path goes to the config error |
| Middleware.SkipOnlyOnLogin | middleware.ts:28-31 | the skip header is set to "true" exactly on configured login-page requests under the limit |
| Middleware.OtherPagesNeedSession | middleware.ts:33-54 | any admin page other than login is passed through exactly when the backend is configured, the count is under the limit, and there is a session |
| Middleware.SessionFailures | middleware.ts:33-60 | a session error or exception goes to the auth-failed page, and no session goes to the login redirect |
| AdminGate.ServerGate | app/admin/actions.ts:7-41 | every redirect goes to `/admin/login?redirected=true`, and the skip header renders the children |
| AdminGate.SkipHeaderBypassesGate | app/admin/actions.ts:8-11 | a request carrying the skip header is rendered whatever its session and profile, while the same request without it and with no session is sent to the login page |
| AdminGate.GateAdmitsExactlyAdmins | app/admin/actions.ts:13-37 | without the skip header, and with a configured backend that answers, the children are rendered exactly for a session whose profile is an admin |
| AdminGate.FailuresRedirect | app/admin/actions.ts:13-40 | a missing configuration, a missing or failed session, or a failed lookup ends on the login redirect |
| AdminLayout.AdminShell.CheckAdminStatus | components/admin/admin-layout.tsx:19-44 | no session or an exception pushes the login page; a missing or non-admin profile pushes "/"; only an admin profile sets `isAdmin`; loading ends false |
| AdminLayout.AdminShell.HandleSignOut | components/admin/admin-layout.tsx:49-52 | a completed sign-out pushes the login page; a rejected one pushes nothing |
| AdminLayout.FirstCheck | components/admin/admin-layout.tsx:19-66 | from a fresh shell, the children show exactly for an admin profile, exactly when nothing was pushed; otherwise exactly one of "/admin/login" or "/" was pushed |
| AdminLogin.ErrorParamMessage | app/admin/login/page.tsx:23-37 | each of the four known error codes shows its own banner |
| AdminLogin.ErrorParamPrecedence | app/admin/login/page.tsx:23-37 | a known error code wins over `redirected`; otherwise a banner appears exactly for a non-empty `redirected`, and asks to log in |
| AdminLogin.TrimmedEmailHasNoOuterSpace | app/admin/login/page.tsx:117 | the stored email never starts or ends with whitespace |
| AdminLogin.LoginPage.ApplySearchParams | app/admin/login/page.tsx:23-37 | a banner replaces the error; no banner leaves the error as it was |
| AdminLogin.LoginPage.SetEmail | app/admin/login/page.tsx:117 | the email input stores the trimmed value |
| AdminLogin.LoginPage.HandleLogin | app/admin/login/page.tsx:43-84 | sign-in is attempted exactly when the email matches and the password has at least 8 characters. Success pushes "/admin"; status 400 shows "Invalid email or password"; any other status shows the fixed text "Authentication failed. Please try again later."; an exception shows the unexpected-error message |

## Left out

- Rendering (JSX, CSS classes, animations, the terminal and glitch effects) and toasts: they only display the state the model keeps.
- The email-check debounce timers and the race between two overlapping handlers: each handler is modelled as running to completion with the reply it receives.
- Middleware.ToNumber: `Number()` is modelled only for decimal integers with an optional sign and surrounding whitespace. Fractions, exponents, hexadecimal and "Infinity" are read as NaN here, though JavaScript gives them finite or infinite values. Numbers are unbounded integers, not doubles: the rounding of integers beyond 2^53 and the exponent form `String()` writes from 10^21 on (for example "-1e+23", for a large negative header that passes the `> 3` test) are not modelled, so for such headers the pass-through count header differs from the model's digit string.
- Registration.ValidateRegistration: JavaScript's `password.length` counts UTF-16 code units, while the model counts characters (code points). The two differ for characters outside the Basic Multilingual Plane.
- AdminLogin.LoginPage.HandleLogin: the 8-character check counts characters (code points), not UTF-16 code units.
- Csv.Content: `new Date(created_at).toLocaleString()` depends on the host locale and clock zone. It is a parameter `localeDate`.
- Csv.LineCells: the cells are quoted but embedded quotes are not doubled, as in the source, and `split` ignores quotes. The lemma therefore requires values without commas, and `Csv.ContentLines` requires values without line feeds.
- The browser download (`Blob`, object URL, anchor click) and `alert`: the content handed to the download and the alert text are the results.
- The server-side `ilike` matching and ordering of rows: the table takes the rows the backend returns and records the query plan it asked for.
- `auth.signUp` email confirmation, cookies and the Supabase session refresh: the backend's answers are inputs.
- `redirect()` in the server layout throws and is caught by the layout's own `catch`, which redirects to the same path; the model gives that one target.
- app/page.tsx, app/admin/page.tsx and app/admin/export/page.tsx only compose the modelled components.
