# UMKM–Mahasiswa front end: a verified model of its decision logic

The UMKM–Mahasiswa platform brings small businesses (UMKM) and university students
together for projects. Its React front end has a small core of logic that can be
stated exactly, and this project models that core and proves properties of it:

- the two form validators: registration step 2 and login;
- the route guards (`ProtectedRoute`, `PublicRoute`) and the user-type redirects of
  the dashboard and login pages;
- the state machines of the authentication session, the global loading overlay and
  the profile edit buffer;
- the list operations of the listing pages: toggling favourites and bookmarks, the
  admin's status update by id, the case-insensitive search-and-filter views, the
  status labels and the status counters.

Each Dafny file holds one module:

| module | file | form |
|---|---|---|
| `Text` | `text.dfy` | the JavaScript string operations the pages use (`trim`, `replace(/\s/g, '')`, `toLowerCase`, `includes`) |
| `Lists` | `lists.dfy` | `filter`, and the toggle on an id list |
| `Forms` | `forms.dfy` | what the two forms share: the email and phone patterns, error clearing, one field's report |
| `LoadingContext` | `loading.dfy` | a class with the overlay's two fields |
| `AuthContext` | `auth.dfy` | a class with the session's four fields; the merge of `updateUser` is a function |
| `Routes` | `routes.dfy` | the two guards, as pure functions |
| `Dashboard` | `dashboard.dfy` | the user-type switch |
| `Register` | `register.dfy` | `validateStep2` as a method; the page as a class |
| `Login` | `login.dfy` | `validateForm` as a method; the redirect chain; the page as a class |
| `Profile` | `profile.dfy` | the edit buffer as a class |
| `Admin` | `admin.dfy` | the user table as a class; the status update and the view as functions |
| `Products`, `Projects` | `products.dfy`, `projects.dfy` | the favourite and saved lists as classes |
| `MyApplications` | `applications.dfy` | the filter, the counters and the labels, as functions |
| `UmkmActiveProjects` | `activeprojects.dfy` | the filter and the badges as functions; the chat box as a class |

Some JavaScript behaviour is written out where it matters:

- **Truthiness.** `if (token)` holds for a token that is present and non-empty.
  `requiredRole && …` works the same way.
- **Defaults.** `a || b` falls back on an absent or empty message (`MessageOr`).
  A default parameter value applies only when the argument is omitted (`ShowLoading`).
- **Object spread.** It is map union, with the right operand winning (`Merge`).
- **Missing fields.** A missing field read as `user.key` is `undefined`, which equals
  no string (`Mismatch`).
- **White space.** `\s` and `trim` use the exact white-space and line-terminator set
  of ECMAScript (`Text.Whitespace`).
- **Regular expressions.** Each pattern has two definitions: the direct reading of
  the regular expression, and a simpler decision procedure whose contract says the
  two agree (`EmailLike`, `PhoneLike`).
- **String length.** `.length` counts UTF-16 code units, so a character outside the
  Basic Multilingual Plane counts twice (`Utf16Length`).

Each API call is abstracted as the response it produced. A response is an input
datatype with three cases: accepted, answered with `success: false`, or thrown.

Where the source reads or writes browser storage, the session class has
`storedToken`, which stands for the `token` entry of local storage.

## Model

| member | source | states |
|---|---|---|
| Text.Trim | src/pages/auth/RegisterPage.jsx:56-58 | `trim()` yields exactly the slice of the input between a white-space prefix and a white-space suffix; it is empty exactly for all-white-space input, and otherwise starts and ends with a non-space |
| Text.RemoveSpaces | src/pages/auth/RegisterPage.jsx:70 | `replace(/\s/g, '')` is the filter keeping the non-space characters, so every other character stays, in order and with its multiplicity, and no white space is left |
| Text.Utf16Length | src/pages/auth/RegisterPage.jsx:58 | the JavaScript length of a string lies between its number of characters and twice that number |
| Text.Utf16LengthOfBmp | src/pages/auth/RegisterPage.jsx:76 | the JavaScript length equals the number of characters iff every character is in the Basic Multilingual Plane, and exceeds it otherwise |
| Text.RemoveSpacesBlank | src/pages/auth/RegisterPage.jsx:68-70 | deleting white space gives the empty string iff the input was all white space; a string without white space is unchanged |
| Text.Lower | src/pages/admin/AdminDashboard.jsx:144-145 | `toLowerCase()` keeps the length, lowers each character in place and leaves no upper-case ASCII letter |
| Text.Contains | src/pages/admin/AdminDashboard.jsx:144-145 | `includes` is true iff the needle occurs at some index of the hay |
| Text.ContainsIgnoringCase | src/pages/admin/AdminDashboard.jsx:144-145 | the case-insensitive search holds iff the lower-cased term occurs in the lower-cased text; an empty term always matches |
| Lists.Filter | src/pages/admin/AdminDashboard.jsx:143-148 | `filter` keeps exactly the elements that pass, as an order-preserving sub-list; each passing element occurs as often as in the input, and a failing one not at all |
| Lists.FilterAll | src/pages/admin/AdminDashboard.jsx:143-148 | when every element passes, `filter` returns the list itself |
| Lists.FilterAgree | src/pages/student/MyApplicationsPage.jsx:462 | two tests that agree on every element give the same filtered list |
| Lists.FilterAppend | src/pages/ProductsPage.jsx:108-112 | filtering a concatenation is the concatenation of the filtered parts |
| Lists.FilterNoDuplicates | src/pages/ProductsPage.jsx:110 | filtering never introduces a duplicate |
| Lists.Without | src/pages/ProductsPage.jsx:110 | `prev.filter(id => id !== productId)` drops every copy of the id, keeps the membership of every other id, and is an order-preserving sub-list |
| Lists.WithoutIdempotent | src/pages/ProductsPage.jsx:110 | removing an id twice is the same as removing it once |
| Lists.Toggle | src/pages/ProductsPage.jsx:107-113 | after a toggle the id is listed iff it was not before, and every other id keeps its membership |
| Lists.ToggleEffect | src/pages/ProductsPage.jsx:108-112 | an absent id is appended at the end; a present id disappears with every copy; other ids keep their membership and their relative order |
| Lists.ToggleNoDuplicates | src/pages/ProjectsPage.jsx:115-119 | a list without duplicates has none after a toggle |
| Lists.ToggleTwice | src/pages/ProjectsPage.jsx:115-119 | toggling an id twice restores the membership of every id, and restores the list itself when the id was absent |
| Forms.EmailLike | src/pages/auth/RegisterPage.jsx:64 | the email decision is exactly the unanchored match of `\S+@\S+\.\S+` |
| Forms.PhoneLike | src/pages/auth/RegisterPage.jsx:70 | the phone decision is exactly `^[+]?[0-9]{10,15}$`: an optional plus, then 10 to 15 ASCII digits |
| Forms.ClearError | src/pages/auth/RegisterPage.jsx:42-44 | typing into a field empties that field's error, if it has one, and leaves every other entry alone |
| Forms.ReportField | src/pages/auth/RegisterPage.jsx:56-60 | one validator block gives the field an error iff a check fails, with the "required" message winning, and touches no other field |
| LoadingContext.LoadingOverlay.constructor | src/contexts/LoadingContext.jsx:14-15 | the overlay starts hidden with the text 'Memuat...' |
| LoadingContext.LoadingOverlay.ShowLoading | src/contexts/LoadingContext.jsx:17-20 | shows the overlay with the given text, or with 'Memuat...' when the text is omitted |
| LoadingContext.LoadingOverlay.HideLoading | src/contexts/LoadingContext.jsx:22-25 | hides the overlay and resets the text, so show followed by hide is back at the initial state |
| LoadingContext.UseLoading | src/contexts/LoadingContext.jsx:5-11 | outside a provider the hook fails with its message; inside one it yields the context |
| AuthContext.MessageOr | src/contexts/AuthContext.jsx:76 | a defaulted message is the message itself when it is present and non-empty, and the fallback exactly otherwise |
| AuthContext.Merge | src/contexts/AuthContext.jsx:113-115 | the merge has the keys of both records; new fields take the new values, and the others keep their old values |
| AuthContext.AuthSession.constructor | src/contexts/AuthContext.jsx:16-29 | nobody is signed in at mount; loading stays on only when a non-empty stored token waits for verification |
| AuthContext.AuthSession.VerifyToken | src/contexts/AuthContext.jsx:31-51 | an accepted token signs its user in; a rejected or failed check removes the token and signs out; loading ends either way |
| AuthContext.AuthSession.Login | src/contexts/AuthContext.jsx:53-82 | success stores the token, signs the user in and returns the user; failure leaves the session as it was and returns the server's or the default message; loading ends either way |
| AuthContext.AuthSession.Register | src/contexts/AuthContext.jsx:84-104 | registering never signs anyone in; it reports success or the message, and loading ends |
| AuthContext.AuthSession.Logout | src/contexts/AuthContext.jsx:106-111 | the token is removed, the user is null and the session is not authenticated |
| AuthContext.AuthSession.UpdateUser | src/contexts/AuthContext.jsx:113-115 | the user becomes the merge of the old user and the new fields; nothing else changes |
| AuthContext.UseAuth | src/contexts/AuthContext.jsx:7-13 | outside a provider the hook fails with its message; inside one it yields the context |
| Routes.ProtectedRoute | src/components/auth/ProtectedRoute.jsx:6-30 | spinner while loading; redirect to /login carrying the location when signed out; redirect to /dashboard on a role or user-type mismatch; the page iff loaded, signed in and every given requirement matches |
| Routes.PublicRoute | src/components/auth/PublicRoute.jsx:6-19 | spinner while loading; redirect to /dashboard when signed in; the page iff loaded and signed out |
| Routes.PublicAndProtectedExclusive | src/components/auth/PublicRoute.jsx:13-18 | outside loading, exactly one of a public route and a requirement-free protected route shows its page |
| Dashboard.TypeDashboard | src/pages/dashboard/DashboardPage.jsx:13-26 | admin, umkm and student have the dashboards /admin, /umkm and /student; no other type has one |
| Dashboard.DashboardRedirect | src/pages/dashboard/DashboardPage.jsx:10-28 | no navigation while loading or without a user; otherwise a replacing navigation to the type's dashboard, and none for any other type |
| Dashboard.DashboardView | src/pages/dashboard/DashboardPage.jsx:30-32 | the page is the full-screen spinner exactly while loading |
| Register.ReportChecks | src/pages/auth/RegisterPage.jsx:56-88 | the six validator blocks give exactly the failing fields an error, the "required" message winning, never `user_type`; the record is empty iff no check fails |
| Register.ValidateStep2 | src/pages/auth/RegisterPage.jsx:53-91 | the record has exactly the errors of the six rules (trimmed name of JavaScript length at least 2, email pattern, phone pattern after removing white space, password of JavaScript length at least 6, matching confirmation, agreed terms), one message per field with "required" winning; it is empty iff every check passes |
| Register.Step2ReportUnique | src/pages/auth/RegisterPage.jsx:53-91 | the rules determine the error record completely: two records that satisfy them are equal |
| Register.BlankPhoneIsMissing | src/pages/auth/RegisterPage.jsx:68-72 | a white-space-only phone is reported as missing, never as malformed |
| Register.RegisterPage.constructor | src/pages/auth/RegisterPage.jsx:19-32 | the page starts at step 1 with an empty form, no errors and the terms unchecked |
| Register.RegisterPage.HandleInputChange | src/pages/auth/RegisterPage.jsx:38-45 | typing sets only the named field and clears only that field's error |
| Register.RegisterPage.HandleUserTypeSelect | src/pages/auth/RegisterPage.jsx:47-51 | choosing a type sets both `userType` and the form's `user_type` and opens step 2 |
| Register.RegisterPage.BackToTypeSelection | src/pages/auth/RegisterPage.jsx:204 | the back button returns to step 1 and keeps the form |
| Register.RegisterPage.SetAgreedToTerms | src/pages/auth/RegisterPage.jsx:391 | the checkbox sets only the terms flag |
| Register.RegisterPage.HandleSubmit | src/pages/auth/RegisterPage.jsx:93-118 | `register` is called iff validation passes; a failing form stores its report and leaves the session and overlay untouched; a passing one hides the overlay at the end and moves to step 3 on success |
| Register.RegisterPage.SubmitToRegister | src/pages/auth/RegisterPage.jsx:102-117 | `register` runs under the loading overlay, which is hidden at the end; the page moves to step 3 iff registration succeeds, the form and errors stay, and the session keeps its user, authentication and stored token |
| Login.ValidateForm | src/pages/auth/LoginPage.jsx:29-45 | the record has exactly the two rules' errors (untrimmed email empty or not matching the pattern, password empty or of JavaScript length below 6); it is empty iff both checks pass |
| Login.BlankEmailIsMalformed | src/pages/auth/LoginPage.jsx:32-36 | a non-empty, white-space-only email is reported as malformed, not as missing |
| Login.LoginRedirect | src/pages/auth/LoginPage.jsx:61-72 | after login, admin, umkm and student go to their dashboards and every other type goes to /dashboard |
| Login.LoginAgreesWithDashboard | src/pages/auth/LoginPage.jsx:61-72 | the login redirect and the general dashboard's forwarding choose the same dashboard for every user |
| Login.LoginPage.constructor | src/pages/auth/LoginPage.jsx:9-14 | the form starts empty with no errors |
| Login.LoginPage.HandleInputChange | src/pages/auth/LoginPage.jsx:20-27 | typing sets only the named field and clears only that field's error |
| Login.LoginPage.HandleSubmit | src/pages/auth/LoginPage.jsx:47-79 | `login` is called iff the form is valid; an invalid form's report is stored; a navigation happens iff the form is valid and the login succeeds, and it goes to the user type's page; the overlay is hidden at the end |
| Profile.Projection | src/pages/ProfilePage.jsx:27-36 | the buffer loaded from a user has exactly the eight profile fields, each the user's value or '' |
| Profile.ProjectionOfMerge | src/pages/ProfilePage.jsx:76-88 | reloading from a user just merged with a buffer gives the buffer's eight fields back, whatever the user held before |
| Profile.ProfileEditor.constructor | src/pages/ProfilePage.jsx:26-36 | the page opens in view mode with the user's projection |
| Profile.ProfileEditor.StartEditing | src/pages/ProfilePage.jsx:109 | the edit button enters edit mode and keeps the buffer |
| Profile.ProfileEditor.HandleInputChange | src/pages/ProfilePage.jsx:66-69 | typing sets only the named buffer field |
| Profile.ProfileEditor.HandleSave | src/pages/ProfilePage.jsx:71-74 | save merges the whole buffer into the user and leaves edit mode |
| Profile.ProfileEditor.HandleCancel | src/pages/ProfilePage.jsx:76-88 | cancel reloads the buffer from the current user and leaves edit mode |
| Profile.ProfileEditor.SaveThenCancel | src/pages/ProfilePage.jsx:71-88 | save followed by cancel leaves the buffer holding what was saved |
| Admin.StatusAfter | src/pages/admin/AdminDashboard.jsx:138 | 'approve' gives 'verified', and every other action gives 'suspended' |
| Admin.ApplyUserAction | src/pages/admin/AdminDashboard.jsx:135-141 | the list keeps its length and order; the users with the id get the action's status, nothing else of theirs changes, and every other user is unchanged |
| Admin.LastActionWins | src/pages/admin/AdminDashboard.jsx:135-141 | of two actions on one user only the last counts; the same action twice equals it once |
| Admin.ActionsOnDifferentUsersCommute | src/pages/admin/AdminDashboard.jsx:135-141 | actions on two different ids can be applied in either order |
| Admin.FilterUsers | src/pages/admin/AdminDashboard.jsx:143-148 | the view is an order-preserving sub-list holding exactly the users whose name or email contains the search, ignoring case, and whose type or status is the filter unless it is 'all' |
| Admin.EmptySearchShowsAll | src/pages/admin/AdminDashboard.jsx:143-148 | with an empty search and the 'all' filter every user is shown |
| Admin.AdminDashboard.constructor | src/pages/admin/AdminDashboard.jsx:40-41 | the table starts with an empty search and the 'all' filter |
| Admin.AdminDashboard.HandleUserAction | src/pages/admin/AdminDashboard.jsx:135-141 | the action replaces the user list by its status update and changes nothing else |
| Admin.AdminDashboard.SetSearchTerm | src/pages/admin/AdminDashboard.jsx:426 | the search box sets only the search term |
| Admin.AdminDashboard.SetSelectedFilter | src/pages/admin/AdminDashboard.jsx:434 | the drop-down sets only the filter |
| Products.ProductsPage.constructor | src/pages/ProductsPage.jsx:24 | no product starts as a favourite |
| Products.ProductsPage.HandleToggleFavorite | src/pages/ProductsPage.jsx:107-113 | the favourites become the toggle of the id, and the list keeps listing each id at most once |
| Projects.ProjectsPage.constructor | src/pages/ProjectsPage.jsx:26 | no project starts as saved |
| Projects.ProjectsPage.HandleSaveProject | src/pages/ProjectsPage.jsx:114-120 | the saved list becomes the toggle of the id, and each id stays listed at most once |
| MyApplications.FilterApplications | src/pages/student/MyApplicationsPage.jsx:135-140 | the view is an order-preserving sub-list of the matching applications; each has the tab's status unless the tab is 'all' |
| MyApplications.EmptySearchShowsAll | src/pages/student/MyApplicationsPage.jsx:135-140 | the 'all' tab with an empty search shows every application |
| MyApplications.SearchDropsUnnamed | src/pages/student/MyApplicationsPage.jsx:137-139 | with a search term, an application that has neither a title nor a business name is never shown |
| MyApplications.StatusCount | src/pages/student/MyApplicationsPage.jsx:462 | a status counter never exceeds the total count |
| MyApplications.CountMatchesTab | src/pages/student/MyApplicationsPage.jsx:462 | a status counter equals the length of that status's tab with no search |
| MyApplications.CountsBounded | src/pages/student/MyApplicationsPage.jsx:449-490 | the pending, accepted and rejected counters together never exceed the total |
| MyApplications.StatusText | src/pages/student/MyApplicationsPage.jsx:120-133 | the four known statuses get their labels; a status is shown as it is iff it is none of them |
| UmkmActiveProjects.FilterProjects | src/pages/umkm/UmkmActiveProjectsPage.jsx:112-118 | the view is an order-preserving sub-list of the projects whose title or student name contains the search, ignoring case, with the filter's status unless it is 'all' |
| UmkmActiveProjects.EmptySearchShowsAll | src/pages/umkm/UmkmActiveProjectsPage.jsx:112-118 | the 'all' filter with an empty search shows every project |
| UmkmActiveProjects.StatusColor | src/pages/umkm/UmkmActiveProjectsPage.jsx:86-97 | blue, yellow and green for the three lifecycle statuses; gray iff the status is none of them |
| UmkmActiveProjects.StatusText | src/pages/umkm/UmkmActiveProjectsPage.jsx:99-110 | the three lifecycle statuses get their labels; a status is shown as it is iff it is none of them |
| UmkmActiveProjects.BadgeAgrees | src/pages/umkm/UmkmActiveProjectsPage.jsx:302-303 | a badge is gray exactly when its text is the raw status |
| UmkmActiveProjects.ApproveOffered | src/pages/umkm/UmkmActiveProjectsPage.jsx:655 | the approve footer is shown exactly for the yellow badge, which reads "Menunggu Approval" |
| UmkmActiveProjects.ChatComposer.SendDisabled | src/pages/umkm/UmkmActiveProjectsPage.jsx:637 | the send button is disabled iff a send is outstanding or the message is blank after trimming |
| UmkmActiveProjects.ChatComposer.constructor | src/pages/umkm/UmkmActiveProjectsPage.jsx:405-406 | the chat box starts empty and idle |
| UmkmActiveProjects.ChatComposer.SetNewMessage | src/pages/umkm/UmkmActiveProjectsPage.jsx:630 | typing sets only the message |
| UmkmActiveProjects.ChatComposer.SendMessage | src/pages/umkm/UmkmActiveProjectsPage.jsx:432-450 | a message that is blank after trimming is never sent; otherwise the untrimmed text is posted, the box is cleared only on success, and sending is over; when idle it posts exactly when the send button is enabled |

## Left out

- The active-project lifecycle (checkpoints, completion approval, payments, chat order) has no implementation in this repository, only HTTP calls, so there is nothing to model. `handleApproveCompletion` is modelled only as the condition for showing its button.
- `src/services/api.js` is not part of this model. It holds the HTTP client, its interceptors and the URL table; each call appears only as the response it produced.
- `src/pages/student/ActiveProjectPage.jsx` is not part of this model. Most of the file is escaped text, and the rest is fetching and rendering.
- Number and date formatting (`toFixed`, `Intl.NumberFormat`, `toLocaleString`) and the progress-circle arithmetic are floating point and locale work; the admin user's `rating` is carried as an opaque `real`.
- Toasts, `console.error`, `window.confirm`, `setTimeout` (the delayed move to /login after registration), the refetch of chats after a send and other `useEffect` refetches are side effects. Only the decision each one follows is modelled.
- JSX rendering, the static pages, `src/App.jsx`'s route table and `src/hooks/useLoading.js` are presentation and glue.
- AuthContext.AuthSession.VerifyToken: a successful answer is assumed to carry a user object. Without one the JavaScript marks the session authenticated with an undefined user; the model does not represent that case.
- AuthContext.AuthSession.Login: a successful answer is assumed to carry a user object. Without one the JavaScript stores the token and session and then throws in the welcome toast, so `login` returns a failure; the model does not represent that case.
- Text.Lower: `toLowerCase` is modelled on ASCII letters only; full Unicode case mapping is outside the model.
- Concurrency is left out. Each async handler is modelled as running to completion, so `loading` and `sending`, which are true while a request is outstanding, are seen only at their final values. A second `sendMessage` started by the Enter key while a send is outstanding is not modelled.
- User records are maps from field names to strings. Non-string fields such as numbers or nested objects are not distinguished.
- `selectedStudent?.full_name` is modelled as the student's name when a student is present. The JavaScript would throw for a student object without `full_name`; the model does not represent that case.
- Routes.ProtectedRoute: requires a user when the session is authenticated and a requirement is given. The JavaScript would throw reading `user.role` on a null user, and a `Valid` session never leads there.
- `getStatusColor` and `getStatusIcon` of the applications page are presentation only (class names and icons).
- The search and filter inputs of the products, projects, applications and active-projects pages are plain setters and are not modelled.

## Notes on the code

- The login form checks only whether the email is the empty string, without trimming it. A white-space-only email therefore gets the format error, not the "required" one (`Login.BlankEmailIsMalformed`). Registration does trim, so the same input is reported as missing there.
- A registration that passes validation does not clear the errors stored by an earlier failed submit; `Register.RegisterPage.HandleSubmit` keeps `errors` unchanged on that path, as the code does.
- Clearing an error on input stores the empty string under its key rather than deleting the key. The shown error is empty either way.
- `getStatusText` of both listing pages returns an unknown status unchanged. So a raw status that happens to equal a label is shown like the labelled status.
