# Gym admin front end — a Dafny model of its logic

This project models the decision logic of a React admin dashboard for a gym
network. The dashboard talks to a REST back end. The model covers:

- **GymOwnerService**: the five gym-owner endpoint wrappers. Each one checks
  the bearer token, calls `fetch`, parses the body, maps a failing HTTP status
  to a message, clears the token store on 401, checks the
  `{ success, message, data }` envelope of a 2xx answer, and turns a failed
  fetch into a network message.
- **AuthService**: the admin auth service. It covers the required-field checks
  done before any request, a login that counts as done only once the token is
  stored, and the envelope check of each call.
- **Navbar**: the avatar initials and the change-password dialog.
- **AdminLogin**: the login page, with its validation map, change handler and
  submit handler.
- **AdminRegister**: the registration page, with its pre-flight checks and how
  the answer is handled.
- **AllOwner**: the gym-owner list, with case-insensitive search over four
  fields, page counting, the page slice, row numbering and the guarded page and
  page-size updates.

There is one module per source file, plus four shared modules:

- `Common`: Option and Result.
- `Text`: the JavaScript string operations the pages rely on, namely white
  space, `trim`, ASCII case mapping, `split(' ')`, `includes`, `substring` and
  the e-mail pattern `\S+@\S+\.\S+`.
- `Http`: thrown errors, the envelope, what `fetch` delivers, and requests.
- `Session`: the token store, as a class with one `Option<string>` field.

The model treats the network as an input:

- A direct `fetch` is a `Reply`. It is either a transport failure, or a status
  plus a body that did or did not parse.
- The shared `publicFetch`/`apiFetch` helpers give a `FetchResult`: a resolved
  envelope or a rejection.
- A service also returns the request it issued, as `sent`. `None` means no
  request was made.
- A JavaScript falsy string is modelled as `""`. A falsy `data` member is
  `None`.

State that the source changes in place is modelled as classes with fields:

- the token store;
- the password dialog;
- the login and registration forms;
- the owner table.

Their methods are proved against pure functions of the inputs. The five
gym-owner wrappers are imperative methods, each proved to follow one decision
table, `GymOwnerService.Interpret`. The properties of that table are lemmas.

Four behaviours of the code that a reader might not expect, all modelled as
written:

- A 401 whose body fails to parse does not clear the token.
  `response.json()` throws before the status is checked, so the `catch` block
  is reached first.
- On 403 and 404 the gym-owner wrappers throw fixed messages. They do not
  pass on the server's message.
- `registerGymOwner` has no 404 case of its own. A 404 gets its general
  failure message.
- `loginAdmin` itself checks only that both fields are non-empty. The e-mail
  format is checked by the login page.

## Model

| member | source | states |
|---|---|---|
| GymOwnerService.GetAllGymOwners | src/services/gymOwner/gymOwnerService.js:9-56 | the result, the request issued (GET /gym-owner/all with the bearer token) and the token store afterwards are those of the shared decision table for the list endpoint |
| GymOwnerService.GetGymOwnerById | src/services/gymOwner/gymOwnerService.js:63-107 | the same, for GET /gym-owner/{id} and its own 404 and fallback messages |
| GymOwnerService.RegisterGymOwner | src/services/gymOwner/gymOwnerService.js:114-160 | the same, for the multipart POST /gym-owner/register with its 400 and 409 cases |
| GymOwnerService.UpdateGymOwnerById | src/services/gymOwner/gymOwnerService.js:168-214 | the same, for the multipart PUT /gym-owner/update/{id} with its 400 and 404 cases |
| GymOwnerService.DeleteGymOwner | src/services/gymOwner/gymOwnerService.js:221-265 | the same, for DELETE /gym-owner/delete/{id}, whose envelope check needs only `success` |
| GymOwnerService.NoTokenNoRequest | src/services/gymOwner/gymOwnerService.js:11-15 | with no stored token, every wrapper throws the no-token message, issues no request and leaves the store alone |
| GymOwnerService.RequestCarriesToken | src/services/gymOwner/gymOwnerService.js:17-23 | a request is issued exactly when a token is stored, and it carries that token as its bearer |
| GymOwnerService.UnauthorizedClearsToken | src/services/gymOwner/gymOwnerService.js:28-31 | a parsed 401 answer empties the token store and throws the session-expired message |
| GymOwnerService.TokenChangesOnlyOnUnauthorized | src/services/gymOwner/gymOwnerService.js:25-31 | the token store changes if and only if a token was stored and a 401 arrived with a parseable body, and it can only become empty |
| GymOwnerService.ForbiddenKeepsToken | src/services/gymOwner/gymOwnerService.js:32-33 | 403 throws the access-denied message, and the request and the token are kept |
| GymOwnerService.NotFoundMessages | src/services/gymOwner/gymOwnerService.js:34-35 | 404 gives "No gym owners found." for the list and "Gym owner not found." for get, update and delete; register falls through to its general message |
| GymOwnerService.BadRequestAndConflict | src/services/gymOwner/gymOwnerService.js:133-142 | 400 passes the server message through for register and update, or gives their own fallbacks; 409 on register is the duplicate-e-mail message; the others treat 400 as a general failure |
| GymOwnerService.OtherFailingStatus | src/services/gymOwner/gymOwnerService.js:36-37 | any non-2xx status the wrapper has no case for (409 outside register, 400 outside register and update, 404 on register, and every status beyond those) throws the server message, or the wrapper's fallback when there is none, issues the request and keeps the token |
| GymOwnerService.SuccessfulStatusChecksFormat | src/services/gymOwner/gymOwnerService.js:41-44 | a 2xx answer is returned as it came exactly when `success` holds and, except for delete, `data` is present; otherwise it throws the format message |
| GymOwnerService.OnlyWellFormedEnvelopesReturned | src/services/gymOwner/gymOwnerService.js:41-46 | whatever a wrapper returns came from a parsed 2xx answer, unchanged, with a passing envelope, and the token is untouched |
| GymOwnerService.TransportFailureNormalised | src/services/gymOwner/gymOwnerService.js:47-51 | a rejected fetch of TypeError "Failed to fetch" becomes the network message; any other rejection is rethrown unchanged |
| GymOwnerService.ParseFailureRethrown | src/services/gymOwner/gymOwnerService.js:25-54 | a body that fails to parse is rethrown by the catch block (as the network message only for TypeError "Failed to fetch"), whatever the status, with the request issued and the token kept |
| GymOwnerService.OwnErrorsRethrown | src/services/gymOwner/gymOwnerService.js:53-54 | the errors the wrappers throw themselves pass through the catch block unchanged |
| AuthService.RegisterAdmin | src/services/auth/authService.js:9-28 | any empty field throws "All fields are required" before any request; otherwise it posts the four fields to the registration endpoint and returns the resolved envelope unchanged or the rejection as it came |
| AuthService.LoginAdmin | src/services/auth/authService.js:35-59 | an empty field throws before any request; it succeeds if and only if the envelope has `success`, `data` and a non-empty token; then it stores exactly that token and returns the envelope; otherwise the store is unchanged and the error is the format message or the rejection |
| AuthService.GetAdminByToken | src/services/auth/authService.js:65-75 | GET /api/admin/get through the authenticated helper; returns the envelope if and only if it has `success` and `data`, and otherwise the format message or the rejection |
| AuthService.UpdateAdminByToken | src/services/auth/authService.js:82-93 | PUT /api/admin/update with the caller's fields, unfiltered; same envelope check as the profile fetch |
| AuthService.ChangePassword | src/services/auth/authService.js:100-111 | POST /api/admin/change-password; returns the envelope if and only if `success` holds, and data is not required |
| AuthService.Logout | src/services/auth/authService.js:117-123 | GET /api/admin/logout; returns the resolved envelope without any check, or the rejection |
| Http.MessageOr | src/services/gymOwner/gymOwnerService.js:37 | `data.message \|\| fallback`: the server message when it is non-empty, otherwise the fallback |
| Http.SubmitErrorMessage | src/pages/auth/adminLogin.jsx:81-86 | a thrown "Failed to fetch" or a NetworkError gives the retry message; any other error gives its own message, or the page's fallback when that is empty |
| Text.Trim | src/pages/auth/adminLogin.jsx:37 | `trim()` is empty exactly when the string is all white space; otherwise it starts and ends with a non-space |
| Text.TrimDropsSpace | src/pages/auth/adminLogin.jsx:37 | `trim()` is the infix left after removing white space from both ends, and nothing else is removed |
| Text.Split | src/components/Navbar.jsx:26 | `split(' ')` has at least one piece, no piece holds a space, and there is one piece, the string itself, exactly when there is no space |
| Text.SplitFirstPiece | src/components/Navbar.jsx:30 | the first piece is a prefix of the string, followed by a space when there are several pieces |
| Text.SplitLastPiece | src/components/Navbar.jsx:30 | the last piece is a suffix of the string, preceded by a space when there are several pieces |
| Text.JoinSplit | src/components/Navbar.jsx:26 | joining the pieces of `split(' ')` with single spaces gives back the string, so splitting loses nothing |
| Text.EmailLikeIsPattern | src/pages/auth/adminLogin.jsx:39 | the executable e-mail test holds exactly when `\S+@\S+\.\S+` matches some substring, as the unanchored `RegExp.test` does |
| Text.EmailLikeNotBlank | src/pages/auth/adminLogin.jsx:37-40 | an address the pattern accepts is never blank after trimming, so the "required" and "invalid" messages never both apply |
| Text.ContainsEmpty | src/pages/dashboard/Gym-owner/AllOwner.jsx:31 | every string includes the empty string |
| Navbar.Initials | src/components/Navbar.jsx:24-31 | an absent or empty name gives "AD", and the initials never exceed two characters |
| Navbar.InitialsOfOneWord | src/components/Navbar.jsx:26-29 | a trimmed name with no space gives its first two characters (or fewer), upper-cased |
| Navbar.InitialsOfSeveralWords | src/components/Navbar.jsx:30 | a trimmed name with a space gives exactly two characters: its first character and the one after its last space, both upper-cased |
| Navbar.InitialsOfBlankName | src/components/Navbar.jsx:25-28 | a non-empty name made only of white space gets past the "AD" check and gives the empty string |
| Navbar.PasswordChangeError | src/components/Navbar.jsx:68-83 | the four checks in their order, each message given exactly when every earlier check passes and its own fails; no message exactly when all pass |
| Navbar.PasswordDialog.UpdatePassword | src/components/Navbar.jsx:63-99 | both messages are cleared first; a failing check sets its message without setting the loading flag or submitting; when all pass it submits once, reports success and clears the flag; the fields are untouched |
| Navbar.PasswordDialog.CloseModal | src/components/Navbar.jsx:54-61 | closes the dialog and blanks the three fields and both messages |
| AdminLogin.LoginForm.constructor | src/pages/auth/adminLogin.jsx:10-18 | the page starts with both fields blank, no validation messages, no banner error and loading off |
| AdminRegister.RegisterForm.constructor | src/pages/auth/adminRegister.jsx:10-20 | the page starts with the four fields blank, no error or success message and loading off |
| Navbar.PasswordDialog.constructor | src/components/Navbar.jsx:9-18 | the dialog starts closed, with the three password fields and both messages blank, loading off and nothing submitted |
| AdminLogin.EmailError | src/pages/auth/adminLogin.jsx:37-41 | "Email is required" exactly for an all-white-space e-mail, "Please enter a valid email address" exactly for a non-blank one the pattern rejects, and nothing exactly when the pattern accepts |
| AdminLogin.PasswordError | src/pages/auth/adminLogin.jsx:43-47 | "Password is required" exactly for an empty password, the length message exactly for 1 to 5 characters, nothing from 6 on |
| AdminLogin.LoginErrors | src/pages/auth/adminLogin.jsx:34-48 | the map has an e-mail entry exactly when the e-mail check fails and a password entry exactly when the password check fails, each holding that check's message; the two are independent |
| AdminLogin.LoginFormValid | src/pages/auth/adminLogin.jsx:49-50 | the map is empty exactly when the e-mail matches the pattern and the password has at least six characters |
| AdminLogin.LoginForm.ValidateForm | src/pages/auth/adminLogin.jsx:34-51 | stores the error map and answers true exactly when it is empty, that is when both fields are valid |
| AdminLogin.LoginForm.HandleChange | src/pages/auth/adminLogin.jsx:53-60 | sets only the named field, clears the banner error, and blanks only that field's validation message, keeping the map's keys |
| AdminLogin.LoginForm.HandleSubmit | src/pages/auth/adminLogin.jsx:62-90 | the banner is cleared first; an invalid form makes no request and leaves the token alone; a valid one sends the credentials once; navigation is scheduled exactly when the service accepted an envelope with `success` and a token, which is then the stored token; errors are shown through the page's message rules; loading ends off |
| AdminRegister.RegisterFormError | src/pages/auth/adminRegister.jsx:34-53 | the checks in their order (required, then pattern, then length), each message given exactly when the earlier checks pass and its own fails |
| AdminRegister.RegisterForm.HandleChange | src/pages/auth/adminRegister.jsx:22-26 | sets only the named field and clears the banner error |
| AdminRegister.RegisterForm.HandleSubmit | src/pages/auth/adminRegister.jsx:28-88 | a failing check shows its message, sends nothing and keeps the form; otherwise the four fields are sent; the redirect is scheduled exactly when the envelope has `success`, which shows the success message and blanks the form; otherwise the server message or a fallback is shown; loading is off at the end in every case |
| AllOwner.FilterOwners | src/pages/dashboard/Gym-owner/AllOwner.jsx:28-36 | an owner is kept if and only if the lower-cased term occurs in its lower-cased name, e-mail, gym name or unique id; every copy of a matching owner is kept, and the kept owners keep their order |
| AllOwner.EmptySearchKeepsAll | src/pages/dashboard/Gym-owner/AllOwner.jsx:28-36 | an empty search term keeps the whole list |
| AllOwner.FirstViewShowsEveryOwner | src/pages/dashboard/Gym-owner/AllOwner.jsx:13-25 | with the fixed list of six owners, the first view has one page of ten, showing every owner |
| AllOwner.TotalPages | src/pages/dashboard/Gym-owner/AllOwner.jsx:38-39 | `Math.ceil(total / perPage)`: the fewest pages of `perPage` rows that hold all rows |
| AllOwner.PageSlice | src/pages/dashboard/Gym-owner/AllOwner.jsx:40-43 | the page is the contiguous block of the filtered list starting at (page − 1) · perPage, with at most perPage rows, cut at the end of the list and empty past it |
| AllOwner.EveryRowOnItsPage | src/pages/dashboard/Gym-owner/AllOwner.jsx:38-43 | every filtered row appears on an existing page, the one its index falls in, at the matching row number |
| AllOwner.RowNumberIsPosition | src/pages/dashboard/Gym-owner/AllOwner.jsx:110 | the "S no" of a shown row is its 1-based position in the filtered list |
| AllOwner.ShowingRangeMatchesSlice | src/pages/dashboard/Gym-owner/AllOwner.jsx:199-200 | on a page with rows, the "Showing … to" range counts exactly the rows of the slice |
| AllOwner.StalePageIsEmpty | src/pages/dashboard/Gym-owner/AllOwner.jsx:40-43 | a page past the last one shows no rows |
| AllOwner.OwnerTable.constructor | src/pages/dashboard/Gym-owner/AllOwner.jsx:13-15 | starts with an empty search, page 1 and ten rows per page |
| AllOwner.OwnerTable.StaleViewIsEmpty | src/pages/dashboard/Gym-owner/AllOwner.jsx:40-43 | when the current page lies past the page count, the rows on screen (`paginatedOwners`) are none |
| AllOwner.OwnerTable.HandlePageChange | src/pages/dashboard/Gym-owner/AllOwner.jsx:45-49 | moves to the new page exactly when it lies between 1 and the page count, otherwise nothing changes |
| AllOwner.OwnerTable.HandleItemsPerPageChange | src/pages/dashboard/Gym-owner/AllOwner.jsx:51-54 | sets the page size and goes back to page 1 |
| AllOwner.OwnerTable.SetSearchTerm | src/pages/dashboard/Gym-owner/AllOwner.jsx:79 | changes the term but not the page, which together with OwnerTable.StaleViewIsEmpty means a narrower search can leave an empty page on screen |

## Left out

- The API base URL (`import.meta.env.VITE_API_URL`) is left out. Paths are
  kept relative to it, and the request headers are reduced to the bearer token
  and whether the JSON content type is set.
- `response.json()` is an input: a body either parses to an envelope or fails
  with an error. JSON values that are not objects are not modelled. Of
  `data`, only its presence and its `token` are modelled; the rest is carried
  as opaque fields.
- `utils/token` and `utils/api` are not part of this model. The token store is
  one `Option<string>` field. `publicFetch` and `apiFetch` are oracle results,
  so their own 401 handling and their no-token check are not modelled.
- `window.location.href = '/login'` on a 401, and the router's `navigate`
  calls after login and registration, are not modelled. The pages only return
  whether navigation is scheduled.
- Async ordering and timers are left out:
  - the 300 ms and 2 s navigation delays;
  - the 5 s banner clearing on the login page;
  - the simulated 1 s API call;
  - the delayed `handleCloseModal` after a password change.
  The password change's success path runs straight through. Its `catch`
  branch ("Failed to update password") cannot be reached, because the
  simulated call never rejects.
- Navbar.PasswordDialog.UpdatePassword does not close the dialog on success,
  because that happens in a 2 s timer.
- PasswordError, RegisterFormError, PasswordChangeError and Initials count
  lengths and positions in Unicode code points, not in the UTF-16 code units
  that JavaScript's `.length`, `substring` and `[i]` use. So a character
  outside the Basic Multilingual Plane, such as an emoji, counts once here but
  twice in the source. For example, "😀😀😀" is too short a password here and
  long enough in the source.
- White space is the ASCII set that `\s` and `trim()` share: space, tab,
  line feed, carriage return, vertical tab and form feed. Case mapping covers
  ASCII letters only. Unicode white space and full Unicode case mapping are
  left out.
- AuthService.Logout has no token-store parameter, because `logout` never
  touches the store.
- AdminLogin.LoginForm.HandleSubmit: the "Login failed" banner cannot be
  reached. `loginAdmin` throws unless the envelope carries a token, so every
  envelope it returns passes the page's test. The model keeps the branch's
  message in its definition.
- The health and support services, the profile, edit, register-owner, health,
  support and privacy pages, the sidebar and the route table are not part of
  this model. Their logic is UI, static content or mock data.
