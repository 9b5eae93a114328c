# Admin dashboard: session manager, user list, routing and forms

A model of the logic inside a small React admin dashboard built on a public demo REST
service. The network, local storage and rendering are abstracted: every remote call is
an input `Reply<T>` (the response body, or a failure with the server's optional
`message`), the `'token'` entry of local storage is a field, and what the code would
send is returned as a `Request` value.

- `remote.dfy` (`Remote`): `Option`, `Reply`, and `MessageOr`, the shared
  "server message or fallback" rule of every error handler.
- `records.dfy` (`Records`): the user record the pages read.
- `auth.dfy` (`Auth`): the session provider. `Session` and the functions `Initial`,
  `Verified`, `LoggedIn`, `LoggedOut` and `Refreshed` specify it. The class
  `AuthProvider` holds `user`, `token`, `loading` and the stored token, and each method
  is proved to move its state exactly as the matching function says. Lemmas state
  idempotent logout, failed login as a no-op, and forced logout on failed verification
  or refresh. Over any sequence of operations (`Run`), the model proves that no user is
  signed in without a token, that a token in memory is always the stored one, and that
  `loading` goes false at the first verification and never becomes true again.
- `users.dfy` (`Users`): delete by id (filter), edit by id (map) and add (prepend), with
  lemmas. It also holds the page query `skip = page * rowsPerPage` and the class
  `UsersPage` with every handler of the list page.
- `routes.dfy` (`Routes`): the top-level routes and the private-route guard.
- `login_form.dfy` (`LoginForm`), `profile_form.dfy` (`ProfileForm`): the field rules,
  initial values, and submit and cancel handlers of the two forms.

In these places the model follows the code's exact behaviour:

- A stored empty string counts as "no token". The code uses `getItem('token') || null`,
  and the verification runs only when `if (token)` holds.
- After a successful login or refresh, the user is not re-verified by the operation
  itself. `user` is set from the login response, and a refresh leaves `user` as it was.
- The refresh request sends the stored `'refreshToken'` entry. Nothing in the code ever
  writes that entry.

Both forms validate before their submit handler runs. The form library calls `onSubmit`
only when the schema passes, and the model makes that check explicit in the `Submit`
methods.

## Model

| member | source | states |
|---|---|---|
| `Remote.MessageOr` | src/context/Authcontext.js:43 | the error text is the server's message when it is a non-empty string, else the fallback; never empty when the fallback is not |
| `Auth.Initial` | src/context/Authcontext.js:7-9 | on mount `user` is null and `loading` true; `token` is the stored value when that is a non-empty string and null otherwise; the state is consistent |
| `Auth.LogoutClearsEverything` | src/context/Authcontext.js:47-51 | logout removes the stored token and nulls `token` and `user` from any state, leaves `loading`, and applying it twice equals applying it once |
| `Auth.VerifyWithoutToken` | src/context/Authcontext.js:14-25 | with no truthy token no request is sent, `user` and the token are unchanged and only `loading` becomes false |
| `Auth.VerifyOutcomes` | src/context/Authcontext.js:14-25 | with a token, `/auth/me` is called with it as bearer; success sets `user` to the profile, failure is a logout, and `loading` ends false |
| `Auth.LoginOutcome` | src/context/Authcontext.js:41-43 | login reports success exactly when the call succeeded; a failure carries the server message or "Login failed" |
| `Auth.LoginOutcomes` | src/context/Authcontext.js:38-44 | a successful login stores the token, sets `token` and `user` from the response; a failed one changes nothing and reports a non-empty message |
| `Auth.RefreshOutcomes` | src/context/Authcontext.js:59-64 | a successful refresh stores and holds the new token and keeps `user`; a failed one is exactly a logout |
| `Auth.StepConsistent` | src/context/Authcontext.js:18-63 | every operation keeps "user only with a token" and "token in memory equals the stored token" |
| `Auth.RunConsistent` | src/context/Authcontext.js:11-66 | any sequence of operations from a consistent state ends in a consistent state |
| `Auth.RunLoading` | src/context/Authcontext.js:9-25 | after any sequence of operations `loading` is true iff it was true before and no verification ran: it only moves from true to false |
| `Auth.ReachableConsistent` | src/context/Authcontext.js:7-29 | every state reached from mount is consistent, and `loading` is false iff some verification has run |
| `Auth.AuthProvider.constructor` | src/context/Authcontext.js:7-9 | the provider starts in `Initial` of the stored token and keeps the stored refresh token |
| `Auth.AuthProvider.VerifyToken` | src/context/Authcontext.js:11-29 | sends the request `VerifyRequest` names and moves the state to `Verified`, keeping the invariant |
| `Auth.AuthProvider.Login` | src/context/Authcontext.js:31-45 | sends username and password unchanged with a 30-minute lifetime, moves the state to `LoggedIn` and returns `LoginOutcome` |
| `Auth.AuthProvider.Logout` | src/context/Authcontext.js:47-51 | moves the state to `LoggedOut` |
| `Auth.AuthProvider.RefreshToken` | src/context/Authcontext.js:53-66 | sends the stored refresh token with a 30-minute lifetime, moves the state to `Refreshed`, returns the new token or re-raises the same failure |
| `Users.DeleteById` | src/components/Users.js:90 | the result holds exactly the entries of the list whose id differs from the target and is no longer |
| `Users.DeleteByIdAppend` | src/components/Users.js:90 | deletion works entry by entry: over a concatenation it is the concatenation of the parts, so survivors keep their order |
| `Users.DeleteByIdCount` | src/components/Users.js:90 | exactly the entries carrying the id are removed: the result is shorter by their number and holds none of them |
| `Users.DeleteByIdAbsent` | src/components/Users.js:90 | a list with no entry carrying the id is returned unchanged |
| `Users.DeleteByIdIdempotent` | src/components/Users.js:90 | deleting the same id twice is deleting it once |
| `Users.ReplaceById` | src/components/Users.js:112 | the length is kept and each entry is the returned record where the ids match, the old entry elsewhere |
| `Users.ReplaceByIdProperties` | src/components/Users.js:112 | replacing is idempotent, puts the record in the list when some entry had its id, and leaves a list without that id unchanged |
| `Users.PagesTile` | src/components/Users.js:46-48 | with a positive page size, page n+1 starts where page n ends and row i is fetched by page i / rowsPerPage and by no other |
| `Users.UsersPage.constructor` | src/components/Users.js:30-40 | the page starts empty, loading, on page 0 with 5 rows per page, no form and no dialog |
| `Users.UsersPage.FetchUsers` | src/components/Users.js:42-64 | asks for `limit = rowsPerPage`, `skip = page * rowsPerPage`; success installs the rows and the total, failure sets the message or "Failed to fetch users"; loading ends false |
| `Users.UsersPage.ChangePage` | src/components/Users.js:66-68 | sets `page` and nothing else |
| `Users.UsersPage.ChangeRowsPerPage` | src/components/Users.js:70-73 | sets the page size and resets `page` to 0, so the next query skips nothing |
| `Users.UsersPage.Edit` | src/components/Users.js:75-78 | opens the form on the chosen user |
| `Users.UsersPage.OpenAddForm` | src/components/Users.js:142-145 | opens the form with no current user |
| `Users.UsersPage.CloseForm` | src/components/Users.js:210-213 | closes the form and clears the current user |
| `Users.UsersPage.DeleteClick` | src/components/Users.js:80-83 | records the user to delete and opens the dialog |
| `Users.UsersPage.CancelDelete` | src/components/Users.js:224 | closes the dialog only |
| `Users.UsersPage.Delete` | src/components/Users.js:85-100 | success filters the target's id out and decrements the total; failure keeps list and total and sets the message or "Failed to delete user"; no target sends nothing; the dialog always closes and the target is cleared |
| `Users.UsersPage.FormSubmit` | src/components/Users.js:102-133 | edits when a user is current and adds otherwise; edit replaces by the returned id keeping the total, add prepends and increments it; success closes the form, failure keeps everything but the error ("Operation failed" fallback) |
| `Routes.LoginAlwaysShown` | src/App.js:14 | `/login` shows the login page whatever the session's state |
| `Routes.GuardOrder` | src/App.js:15-30 | any other path goes through the guard, which checks `loading` first and then redirects to `/login` when there is no user |
| `Routes.DashboardNeedsSession` | src/App.js:32-40 | a dashboard page is shown iff the session is settled with a user and the path is `/`, `/users` or `/profile`, each mapped to its page |
| `Routes.AtMostOneRedirect` | src/App.js:24-38 | following a redirect once always reaches a screen that is not a redirect |
| `LoginForm.LoginRules` | src/components/Login.js:15-32 | the username is valid iff non-empty, the password iff its JavaScript length (UTF-16 code units) is at least 6, so six characters always pass and fewer than three never do; the initial empty form is invalid |
| `LoginForm.Utf16LengthBounds` | src/components/Login.js:17-20 | the length the password rule measures lies between the character count and twice it, and equals the character count for text in the Basic Multilingual Plane |
| `LoginForm.AstralPassword` | src/components/Login.js:17-20 | three characters outside the Basic Multilingual Plane are six code units long and pass the rule |
| `LoginForm.LoginPage.constructor` | src/components/Login.js:26-32 | the form starts with empty fields and no error |
| `LoginForm.LoginPage.Change` | src/components/Login.js:75 | the typed values replace the form's values |
| `LoginForm.LoginPage.Submit` | src/components/Login.js:34-44 | an invalid form sends nothing; a valid one passes its fields unchanged to login, then navigates to `/` on success or shows the returned message |
| `ProfileForm.InitialValues` | src/components/Profile.js:45-55 | each initial value is the user's field when present, and "" when there is no user, the field is missing, or (for the two address fields) the address or the sub-field is missing |
| `ProfileForm.InitialValuesNeedFields` | src/components/Profile.js:20-55 | the initial form passes the required-field rules only if the user and every required field are present |
| `ProfileForm.ProfileRules` | src/components/Profile.js:20-36 | an empty first name, last name, e-mail, phone, address, city or gender fails the form; a valid form has a valid phone and an e-mail the format rule accepts |
| `ProfileForm.PhoneRule` | src/components/Profile.js:27-30 | the phone is valid iff it is exactly 10 characters, all digits, which makes it non-empty |
| `ProfileForm.ProfilePage.constructor` | src/components/Profile.js:40-55 | not editing, no success, no error, values from the signed-in user |
| `ProfileForm.ProfilePage.StartEdit` | src/components/Profile.js:111 | enters edit mode |
| `ProfileForm.ProfilePage.Change` | src/components/Profile.js:125 | the typed values replace the form's values |
| `ProfileForm.ProfilePage.Cancel` | src/components/Profile.js:230-233 | leaves edit mode and resets the values to the initial ones |
| `ProfileForm.ProfilePage.Submit` | src/components/Profile.js:57-72 | an invalid form sends nothing; a valid one sends the user's id and values; success sets the flag and leaves edit mode without touching the session; failure sets the message or "Update failed" |

## Left out

- `Auth.AuthProvider.Login`: `user` receives the login response's profile part. The code stores the whole response, token included, in `user`; the model keeps that token only in `token` and the store.
- HTTP: the request URLs, headers and bodies beyond the `Request` values, and the service's replies. Replies are inputs.
- Local storage: only the `'token'` entry is modelled, as a field, plus the read-only `'refreshToken'` entry.
- Asynchrony and effect scheduling. Each operation is atomic. The model does not capture that verification re-runs whenever `token` changes, that the list re-fetches when the page or page size changes, or races such as a verification resolving after a logout.
- The 3-second timers that clear success banners.
- Console logging and all rendering and layout.
- The sidebar, the dashboard shell and the home page's count fetch.
- The e-mail format rule of the profile schema is a parameter, because it belongs to the validation library.
- `ProfileForm.ProfilePage.constructor`: the form's re-initialisation when the user changes after mount (`enableReinitialize`) is not modelled.
- `Users.UsersPage.ChangeRowsPerPage`: takes the parsed integer. A value that does not parse (`NaN`) is not modelled.
- The form component used for adding and editing users (`UserForm`) is not part of this model. The data it submits is an opaque user record.
- `Routes.App`: paths are compared as exact strings. The router's case-insensitive matching and trailing-slash handling are not modelled.
- Bearer headers on the list and profile calls are not modelled. Only the session's own `/auth/me` request records its bearer token.
