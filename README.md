# Task manager with email-verified accounts: a Dafny model

This project models the core of a small task-management web application:

- the **credential store**, where users register and log in;
- the **one-time-code lifecycles** for email verification and for password reset;
- the **token gate** in front of protected routes;
- the **public profile projection**;
- the **task store**, which is scoped to each owner;
- the **client-side password checks** on the sign-up and profile pages.

Each module follows one source file:

| module | file | form |
|---|---|---|
| `UserModel` | `backend/models/userModel.js` | datatype `User`, `NewUser` with the schema defaults, `WellFormed` |
| `AuthController` | `backend/controllers/authController.js` | class `CredentialStore` over a map from user id to `User`, plus the unique email index; one method per handler |
| `UserController` | `backend/controllers/userController.js` | pure lookup and projection |
| `UserAuth` | `backend/middleware/userAuth.js` | class `Request`; the method `UserAuthGate` writes `userId` and counts calls to `next` |
| `TaskController` | `backend/controllers/taskController.js` | pure query, sort and counts over `seq<Task>`; class `TaskStore` for create, update and delete |
| `LoginPage` | `frontend/src/pages/Login.jsx` | the strength score and its labels; class `LoginForm` for the component state |
| `ProfilePage` | `frontend/src/pages/Profile.jsx` | class `PasswordChangeForm` |

Helper modules:

- `Wrappers`: `Option`, `Result`.
- `PasswordHashing`: bcrypt, abstracted to a salt and a key-derivation function.
- `OtpCodes`: the decimal text of a code.
- `Tokens`: the JWT signer and verifier, abstracted to a pair of functions.
- `JsText`: the UTF-16 length of a string.

Outside inputs are parameters:

- `Date.now()` is a `now` argument, in milliseconds.
- `Math.random()` is a draw `r` with `0 <= r < 900000`. The code is the decimal text of `100000 + r`.
- The bcrypt salt is a `salt` argument. The hash primitive is a `kdf` function fixed when the store is built. `Compare(kdf, pw, Hash(kdf, pw, salt))` is proved, not assumed.
- `jwt.sign` and `jwt.verify` are the two functions of a `TokenCodec`. A verifier failure is `Failure(message)`. The lemmas that need a correct library take `Honest(codec)` as a hypothesis.
- `transporter.sendMail` is a `MailOutcome`: `Delivered` or `MailFailed(reason)`.
- Absent and falsy request fields are both `""`. The one exception is `updateTask`'s `description`, where `undefined` and `''` differ, so it is an `Option`.

Behaviour worth noting:

- The gate reads only the `token` cookie (`backend/middleware/userAuth.js:4`). No header is consulted. `UserAuth.HeadersNeverAuthenticate` states this.
- Codes lie in 100000..999999 (`backend/controllers/authController.js:122`). So a code is never written with a leading zero.
- An invalid code and an expired code get different messages ("Invalid OTP" and "OTP Expired"). "Invalid Email" and "Invalid Password" are also told apart.
- `login` with a missing field builds its reply from an undefined `message` (`backend/controllers/authController.js:60`). That throws outside the `try`: the handler sends no reply of its own, and the exception escapes as a rejected promise. The model returns `Unhandled`. What the client then sees depends on the Express version, which no file here fixes: Express 5 hands the rejection to its default error handler, which answers 500, while under Express 4 it stays an unhandled rejection, which ends the process on Node 15 or later.
- `register` sets the cookie before it sends the welcome mail. A failed mail therefore still leaves the new user stored and the cookie set, under a failure reply.
- `sendVerifyOtp` reads a field of a possibly null user. An unknown user id becomes the caught `TypeError` reply.
- Search is a case-insensitive literal substring match. `getTasks` passes the text to a regex without escaping it.
- Password lengths on both pages are JavaScript's `.length`, in UTF-16 code units (module `JsText`). A character outside the Basic Multilingual Plane counts as two.

## Model

| member | source | states |
|---|---|---|
| `PasswordHashing.CompareHash` | backend/controllers/authController.js:71 | a password always compares equal to the hash made from it, whatever the salt |
| `PasswordHashing.Hash` | backend/controllers/authController.js:23 | the stored hash records the salt it was made with |
| `PasswordHashing.Compare` | backend/controllers/authController.js:71 | a password matches a stored hash exactly when hashing it again with the stored salt reproduces that hash |
| `OtpCodes.IssueCode` | backend/controllers/authController.js:122 | the issued code is six decimal digits with no leading zero, and it denotes `100000 + r` |
| `OtpCodes.DecimalString` | backend/controllers/authController.js:122 | `String(n)` is non-empty and made only of decimal digits |
| `OtpCodes.ParseDecimalString` | backend/controllers/authController.js:122 | `String(n)` produces only digits, and parsing the text gives `n` back |
| `OtpCodes.DecimalLength` | backend/controllers/authController.js:122 | a number with exactly `k` digits is written with `k` characters |
| `OtpCodes.NoLeadingZero` | backend/controllers/authController.js:122 | a positive number's text does not start with `0` |
| `OtpCodes.IssueCodeInjective` | backend/controllers/authController.js:122 | two draws give the same code exactly when they are the same draw |
| `UserModel.NewUser` | backend/models/userModel.js:4-38 | a new record keeps the given name, email and hash; it is unverified, both code slots are `''`/`0`, and it is well formed |
| `AuthController.CheckCode` | backend/controllers/authController.js:162-168 | a code is accepted exactly when a code is stored, the given one equals it and the expiry is not past; expired exactly when it matches but the expiry is past; with no stored code every attempt is invalid |
| `AuthController.IssueVerify` | backend/controllers/authController.js:122-125 | the verification slot gets a six-digit code denoting `100000 + r`, expiring at `now + 86400000`, and nothing else in the record changes |
| `AuthController.ConsumeVerify` | backend/controllers/authController.js:170-172 | the account becomes verified and the verification slot is cleared to `''`/`0`; nothing else changes |
| `AuthController.IssueReset` | backend/controllers/authController.js:203-206 | the reset slot gets a six-digit code denoting `100000 + r`, expiring at `now + 900000`, and nothing else changes |
| `AuthController.ConsumeReset` | backend/controllers/authController.js:250-254 | the new hash is stored and the reset slot is cleared to `''`/`0`; nothing else changes |
| `AuthController.IssuedCodeWindow` | backend/controllers/authController.js:162-168 | an issued code is accepted until and at its expiry instant and is expired after it; any other code is invalid, and that check comes before expiry |
| `AuthController.VerifyCodeLifetime` | backend/controllers/authController.js:125 | a verification code issued at `t` is accepted at `t + 86400000` and expired at `t + 86400001` |
| `AuthController.ResetCodeLifetime` | backend/controllers/authController.js:206 | a reset code issued at `t` is accepted at `t + 900000` and expired at `t + 900001` |
| `AuthController.ReplayIsInvalid` | backend/controllers/authController.js:170-174 | after a code is consumed, any code submitted is "Invalid OTP", never "OTP Expired" |
| `AuthController.SlotsIndependent` | backend/controllers/authController.js:252-254 | issuing or consuming one kind of code leaves the other slot, and every field not named, unchanged |
| `AuthController.UpdatesKeepWellFormed` | backend/models/userModel.js:18-37 | every code update keeps each code paired with its expiry: both set, or both at their defaults |
| `AuthController.CredentialStore.EmailsUnique` | backend/models/userModel.js:12 | no two stored users share an email |
| `AuthController.CredentialStore.FindByEmail` | backend/controllers/authController.js:17 | the lookup returns the user with that email, and returns none only when no user has it |
| `AuthController.CredentialStore.Register` | backend/controllers/authController.js:7-54 | a missing field gives "Missing Details" and a taken email gives a conflict, both with the store unchanged; otherwise exactly one user is added, holding `Hash(password)` and defaults, with a token cookie, and a failed mail turns only the reply into a failure |
| `AuthController.CredentialStore.Login` | backend/controllers/authController.js:56-92 | a missing field makes the handler throw without a reply of its own; an unknown email gives "Invalid Email"; a hash mismatch gives "Invalid Password"; success holds exactly when a user with that email matches the password, and then the token for that user is returned and set as the cookie |
| `AuthController.CredentialStore.SendVerifyOtp` | backend/controllers/authController.js:111-143 | an unknown user gives a caught error and a verified account is rejected, both with the store unchanged; otherwise exactly that user's verification slot becomes a fresh six-digit code expiring at `now + 86400000` |
| `AuthController.CredentialStore.VerifyEmail` | backend/controllers/authController.js:145-180 | checks run in the order id, code given, user, invalid, expired; only acceptance changes the store, setting the account verified and clearing the code to `''`/`0`; a verified account never becomes unverified |
| `AuthController.CredentialStore.SendResetOtp` | backend/controllers/authController.js:189-225 | an empty or unknown email fails with the store unchanged; otherwise only that user's reset slot changes, to a fresh code expiring at `now + 900000` |
| `AuthController.CredentialStore.ResetPassword` | backend/controllers/authController.js:228-264 | missing fields, an unknown email, an invalid code and an expired code fail in that order with the store unchanged; on acceptance the new password's hash is stored and only the reset slot is cleared |
| `UserController.GetUserData` | backend/controllers/userController.js:4-26 | fails exactly when the id is unset or unknown; on success the payload's name and flag are the stored ones |
| `UserController.GetUserDataHidesSecrets` | backend/controllers/userController.js:14-20 | the payload depends only on the stored name and flag, so the email, hash and codes are never exposed |
| `UserAuth.Authenticate` | backend/middleware/userAuth.js:3-25 | no or empty `token` cookie gives "Not Authorized. Login Again"; a verifier failure gives the error reply; a decoded token without `id` is rejected; success yields exactly the decoded id |
| `UserAuth.UserAuthGate` | backend/middleware/userAuth.js:14-20 | `next` is called exactly once and `req.userId` is set to the token's id exactly when authentication succeeds; on rejection both are left as they were |
| `UserAuth.HeadersNeverAuthenticate` | backend/middleware/userAuth.js:4 | without a `token` cookie a request is rejected with "Not Authorized. Login Again"; headers cannot help, since `Authenticate` takes only the cookies and the gate's contract mentions only `req.cookies` |
| `UserAuth.IssuedTokenAuthenticates` | backend/middleware/userAuth.js:12 | with a genuine codec, a token issued at `t` authenticates its user before `t` plus 7 days and is refused after that |
| `TaskController.SelectMembers` | backend/controllers/taskController.js:26 | `find` keeps exactly the tasks that satisfy every clause of the query |
| `TaskController.BuildQuery` | backend/controllers/taskController.js:9-24 | a task satisfies the built query exactly when it is the caller's and meets each filter whose parameter is non-empty |
| `TaskController.Select` | backend/controllers/taskController.js:26 | `find` returns no more tasks than the store holds; `SelectMembers` states which |
| `TaskController.StatusCountMembers` | backend/controllers/taskController.js:130-132 | a status count ranges over exactly the caller's tasks with that status |
| `TaskController.SortNewestFirst` | backend/controllers/taskController.js:26 | the sort output is ordered by `createdAt`, newest first, and is a permutation of its input |
| `TaskController.GetTasks` | backend/controllers/taskController.js:4-32 | a task is listed exactly when it is the caller's and meets every non-empty filter (exact status, exact priority, case-insensitive search in title or description); the list is newest first |
| `TaskController.FindTask` | backend/controllers/taskController.js:66 | the position found holds a task with both that id and that owner; none is returned only when no such task exists |
| `TaskController.GetTaskById` | backend/controllers/taskController.js:61-76 | succeeds exactly when a task with that id and owner exists and returns it; otherwise "Task not found" |
| `TaskController.GetTaskStats` | backend/controllers/taskController.js:125-141 | `total` is the number of the caller's tasks, and `pending`, `inProgress` and `completed` are the numbers of the caller's tasks with status `pending`, `in-progress` and `completed`; each is at most `total`, and so is their sum |
| `TaskController.DistinctStatusesBound` | backend/controllers/taskController.js:129-132 | counts for three distinct statuses add up to at most the caller's task count |
| `TaskController.SelectThroughView` | backend/controllers/taskController.js:9 | a query's result is determined by its owner's tasks alone |
| `TaskController.GetTaskByIdThroughView` | backend/controllers/taskController.js:66 | a lookup by id and owner is determined by that owner's tasks alone |
| `TaskController.ReadsDependOnlyOnView` | backend/controllers/taskController.js:9 | whenever a user's tasks are the same, that user's listings, lookups and stats are the same |
| `TaskController.UpdateKeepsOtherViews` | backend/controllers/taskController.js:85-98 | replacing one owner's task leaves every other user's tasks unchanged |
| `TaskController.RemoveKeepsOtherViews` | backend/controllers/taskController.js:112 | removing a task leaves every other user's tasks unchanged |
| `TaskController.AppendKeepsOtherViews` | backend/controllers/taskController.js:52 | adding a task leaves every other user's tasks unchanged |
| `TaskController.SelectConcat` | backend/controllers/taskController.js:26 | filtering two parts of the store and joining the results equals filtering the whole |
| `TaskController.StatusOnlyUpdate` | backend/controllers/taskController.js:91-97 | an update carrying only a status leaves title, description, priority and due date as they were |
| `TaskController.PatchedFromUnique` | backend/controllers/taskController.js:91-97 | the updated task is determined by the old task, the patch and the clock |
| `TaskController.EmptyPatchOnlyTouches` | backend/controllers/taskController.js:91-97 | an update that sets no field changes only `updatedAt` |
| `TaskController.TaskStore.CreateTask` | backend/controllers/taskController.js:35-58 | no title gives "Title is required" with the store unchanged; otherwise one task with a fresh id is appended for the caller, with description `''`, priority `medium` and due date `null` as defaults, and other users' tasks are unchanged |
| `TaskController.TaskStore.UpdateTask` | backend/controllers/taskController.js:79-104 | only the caller's task with that id is changed, field by field under the truthiness rules, with `updatedAt` refreshed; otherwise "Task not found" with the store unchanged; no other task changes |
| `TaskController.TaskStore.DeleteTask` | backend/controllers/taskController.js:107-122 | only the caller's task with that id is removed; otherwise "Task not found" with the store unchanged; other users' tasks are unchanged |
| `LoginPage.StrengthScore` | frontend/src/pages/Login.jsx:22-41 | the score is one point per criterion met (at least 8 UTF-16 units, a lowercase letter, an uppercase letter, a digit, a listed symbol), is at most 5, and is 5 exactly when all five criteria hold |
| `JsText.Utf16Length` | frontend/src/pages/Login.jsx:26 | `.length` lies between the character count and twice it, and equals the character count when no character is astral |
| `LoginPage.StrengthText` | frontend/src/pages/Login.jsx:61-68 | the label is empty exactly for the empty password, is one of the six labels, and is "Strong" exactly for a non-empty password with a score outside 0..4 |
| `LoginPage.StrengthColor` | frontend/src/pages/Login.jsx:53-59 | the colour is one of the five bar colours, and green exactly for a score outside 0..4 |
| `LoginPage.CheckPasswordStrength` | frontend/src/pages/Login.jsx:22-41 | the step-by-step counter ends at the score |
| `LoginPage.LabelsByScore` | frontend/src/pages/Login.jsx:53-68 | scores 0–1 are "Very Weak", 2 "Weak", 3 "Fair", 4 "Good" and 5 "Strong"; colours are gray for 0, red for 1–2, yellow for 3, blue for 4 and green for 5 |
| `LoginPage.EmptyPassword` | frontend/src/pages/Login.jsx:62 | the empty password scores 0 and has the empty label |
| `LoginPage.TextEmptyOnlyForEmptyPassword` | frontend/src/pages/Login.jsx:61-68 | for a consistent form, the label is empty exactly when the password is |
| `LoginPage.StrongLabelsAgree` | frontend/src/pages/Login.jsx:49-68 | "Strong" and green are shown exactly for a password meeting all five criteria |
| `LoginPage.ZeroScoreNonEmpty` | frontend/src/pages/Login.jsx:38 | `~` is not one of the listed symbols, so a lone `~` scores 0 yet is labelled "Very Weak" |
| `LoginPage.LoginForm.constructor` | frontend/src/pages/Login.jsx:14-19 | the form starts in Sign Up mode with empty fields and score 0, which is consistent |
| `LoginPage.LoginForm.HandlePasswordChange` | frontend/src/pages/Login.jsx:43-47 | the stored password and its stored score change together, so the score always matches the password |
| `LoginPage.LoginForm.IsPasswordStrong` | frontend/src/pages/Login.jsx:49-51 | on a consistent form, the password is strong exactly when it meets all five criteria |
| `LoginPage.LoginForm.SetMode` | frontend/src/pages/Login.jsx:244-248 | the "Login Here" and "Sign Up" links set the mode and nothing else |
| `LoginPage.LoginForm.SetName` | frontend/src/pages/Login.jsx:138 | the name input sets the name and nothing else |
| `LoginPage.LoginForm.SetEmail` | frontend/src/pages/Login.jsx:148 | the email input sets the email and nothing else |
| `LoginPage.LoginForm.OnSubmit` | frontend/src/pages/Login.jsx:70-108 | in Sign Up mode submission is blocked exactly when the password misses a criterion, and otherwise registers; login mode always sends the login request |
| `ProfilePage.ValidatePasswordChange` | frontend/src/pages/Profile.jsx:43-51 | accepted exactly when new equals confirm and is at least 6 UTF-16 units long; the mismatch is reported first; the current password is not an input |
| `ProfilePage.LengthCountsCodeUnits` | frontend/src/pages/Profile.jsx:48 | three emoji (six UTF-16 units) pass the length check, while five letters fail it |
| `ProfilePage.PasswordChangeForm.constructor` | frontend/src/pages/Profile.jsx:14-17 | the form starts with three empty fields and `loading` false |
| `ProfilePage.PasswordChangeForm.SetCurrentPassword` | frontend/src/pages/Profile.jsx:166 | the input sets the current password and nothing else |
| `ProfilePage.PasswordChangeForm.SetNewPassword` | frontend/src/pages/Profile.jsx:178 | the input sets the new password and nothing else |
| `ProfilePage.PasswordChangeForm.SetConfirmPassword` | frontend/src/pages/Profile.jsx:190 | the input sets the confirmation and nothing else |
| `ProfilePage.PasswordChangeForm.HandlePasswordChange` | frontend/src/pages/Profile.jsx:40-67 | a rejected change leaves all state alone; an accepted change clears all three fields and sets `loading` to true and then back to false |

## Left out

- `logout` and `isAuthenticated`: `logout` clears the cookie and always succeeds; `isAuthenticated` always succeeds. Neither touches the store.
- Cookie flags, CORS settings, the routers and the server set-up are transport configuration. The routers only show which handlers sit behind the gate.
- Mail content and the HTML templates are not modelled. Sending is reduced to delivered or failed.
- The bcrypt and JWT algorithms, and the secret key, are foreign code. They appear only as the `kdf` and `TokenCodec` parameters. JWT expiry counts whole seconds, which the model does not capture.
- Store faults other than a failed mail are not modelled: exceptions from `save`, `find`, `bcrypt.hash`, and malformed ids failing to cast. Ids are natural numbers, so every id is well formed.
- Concurrency is left out. That includes two code issuances racing for one user, and the four stats counts being read at different instants.
- `taskModel.js` is not part of this model. Its status enum is not modelled: `UpdateTask` accepts any status text, and a value the schema would refuse falls under the store faults above. The status default is the `defaultStatus` constant, and the timestamps `createdAt`/`updatedAt` come from `now`. For the same reason no status-count sum is claimed to equal `total`.
- Request fields are modelled as strings. A JSON body can also carry numbers or objects: a numeric `otp` always fails the strict `!==` comparison (`backend/controllers/authController.js:162`, `:242`), and an object as `email` is passed into the store query as an operator (`:17`, `:65`, `:198`, `:237`). Neither is modelled.
- `new Date(dueDate)` is not parsed: the stored due date is the client's text.
- `TaskController.GetTasks`: the search text is matched as a literal, ASCII-only case-insensitive substring. `getTasks` passes it unescaped to a regex with the `i` option, so regex metacharacters and non-ASCII case folding are not modelled.
- `ProfilePage.PasswordChangeForm.HandlePasswordChange`: the success toast and the finally block cannot fail here, so their exception path is not modelled.
- React rendering, toasts, navigation and axios calls are left out. The login form's outcome is the request it would send. HTML constraint validation is not modelled either: it runs before both submit handlers. The inputs are `required` (`frontend/src/pages/Login.jsx:138`, `:149`, `:163`; `frontend/src/pages/Profile.jsx:168`, `:180`, `:192`), and the sign-up email input has `type="email"` (`frontend/src/pages/Login.jsx:149`). So the browser refuses an empty or malformed field before `onSubmitHandler` or `handlePasswordChange` runs; `LoginPage.LoginForm.OnSubmit` and `ProfilePage.PasswordChangeForm.HandlePasswordChange` model the handlers only.
