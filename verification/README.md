# Expense tracker client and backend: a functional model

This project models the sequential logic of a personal expense-tracking app:
a React Native client (sign-up, password reset, login, root layout, shopping
list, budget and manual expense screens) and a FastAPI backend (auth,
shopping-list, budget and expense routes).

- **Client validators** are pure functions over strings. They decide whether
  a request may be sent and which error message wins. JavaScript's `trim`,
  `\s`/`\S` and UTF-16 `length` are modelled exactly in `Text`.
- **Client handlers** are split in two. `Submit` is the part before the
  `await`. `Settle` consumes the abstract outcome of the request:
  `Ok(data)`, `NotOk(detail)` or `TransportFailure`. Each returns the next
  screen state and a list of effects: alerts, navigations, requests sent
  (with their `Authorization` header) and storage writes. No I/O happens.
- **Backend routes** act on an in-memory `Db` record. Users and budgets are
  rows searched with `.first()`. Shopping items are a map from id to row.
  Expense logs are rows in insertion order. Each route returns the new `Db`
  together with its result or `HttpError`.

Behaviour of the code worth knowing:
- A protected request with no stored token is still sent, with the header
  `Bearer null`. There is no local "unauthenticated" short-circuit.
- Saving a budget has no sign check. Saving an edited shopping item has no
  name check.
- The threshold route reports "within" when the total equals the budget.
  There is no separate "on budget" class.

Modules follow the source files: `SignupScreen`, `ForgotPasswordScreen`,
`LoginScreen`, `RootLayout`, `ShoppingListScreen`, `BudgetScreen`,
`ManualEntryScreen`, `Models`, `ShoppingRoutes`, `BudgetRoutes`,
`AuthRoutes` and `ExpenseRoutes`. Shared pieces live in `Wrappers`, `Text`
and `Client`. `EndToEnd` connects the screens to the routes: a route's
result becomes the outcome the screen settles on.

## Model

| member | source | states |
|---|---|---|
| Text.Trim | Frontend/app/SignupScreen.tsx:31 | `s.trim()` is empty exactly when every character is JavaScript white space; otherwise it starts and ends with non-white space |
| Text.BlankIffTrimEmpty | Frontend/app/SignupScreen.tsx:31 | the falsy test `!s.trim()` holds exactly when the trimmed text is empty, which the model uses as "every character is white space" |
| Text.Utf16Length | Frontend/app/SignupScreen.tsx:49 | `length` counts UTF-16 code units: between the number of characters and twice it, and equal to it for text inside the Basic Multilingual Plane |
| SignupScreen.EmailFormatMatchesPattern | Frontend/app/SignupScreen.tsx:36 | the scan (first '@' after position 0, then a '.' at least two places later and before the last character) accepts exactly the strings `^\S+@\S+\.\S+$` matches |
| SignupScreen.EmailError | Frontend/app/SignupScreen.tsx:34-38 | a blank email is "required"; a non-blank one that does not match the pattern is "invalid"; no error exactly when it matches |
| SignupScreen.PhoneError | Frontend/app/SignupScreen.tsx:39-43 | a blank phone is "required"; a non-blank one that is not exactly ten digits gets the 10-digit error; no error exactly for ten digits |
| SignupScreen.PasswordError | Frontend/app/SignupScreen.tsx:47-51 | an empty password is "required"; an untrimmed password shorter than 6 UTF-16 units gets the length error |
| SignupScreen.ValidateFields | Frontend/app/SignupScreen.tsx:28-58 | each field has an entry exactly when its own check fails, independently of the others (confirmation mismatch included); the map is empty exactly when the form is valid |
| SignupScreen.EditField | Frontend/app/SignupScreen.tsx:100-168 | typing changes only that field; a displayed error for it becomes "" (the key stays); every other field and error entry is unchanged |
| SignupScreen.Submit | Frontend/app/SignupScreen.tsx:60-77 | errors are replaced by a fresh validation; with no error left the request is sent with the fields as typed and loading starts, otherwise nothing is sent and loading is unchanged |
| SignupScreen.SubmitSendsIffValid | Frontend/app/SignupScreen.tsx:60-64 | a request goes out exactly when every field passes its rule; when none goes out only the errors change |
| Client.BackToLogin | Frontend/app/ForgotPasswordScreen.tsx:49-59 | the shared reply of sign-up and password reset: only an OK response navigates to login, a non-OK one shows the server detail or the screen's fallback, an exception shows the connection error, and no outcome sends a request |
| SignupScreen.Settle | Frontend/app/SignupScreen.tsx:79-89 | loading ends false on every outcome and nothing else changes; only an OK response navigates to login; a server error shows its detail or "Unable to sign up" |
| ForgotPasswordScreen.FirstFailure | Frontend/app/ForgotPasswordScreen.tsx:22-33 | an exactly empty username is reported first; a mismatch is reported before emptiness; "Password cannot be empty" only when both passwords are empty |
| ForgotPasswordScreen.Submit | Frontend/app/ForgotPasswordScreen.tsx:21-47 | a request is sent exactly when all three checks pass, with body `{username, new_password}`; a failed check only alerts |
| ForgotPasswordScreen.Settle | Frontend/app/ForgotPasswordScreen.tsx:49-59 | an OK response navigates to login; otherwise the detail or "Failed to reset password" is shown; loading ends false on every outcome |
| ForgotPasswordScreen.LoadingEndsFalse | Frontend/app/ForgotPasswordScreen.tsx:35-59 | a press that sent a request ends with loading false whatever the outcome; one that sent none leaves the state as it was |
| LoginScreen.Settle | Frontend/app/LoginScreen.tsx:29-41 | the token is written under "jwt" and the home route opened exactly for an OK response; a non-OK response shows the server's non-empty `detail` or "Invalid credentials"; an exception shows "Unable to connect to server"; loading ends false |
| LoginScreen.SettleStorage | Frontend/app/LoginScreen.tsx:30-33 | after an OK response the stored token is the server's; after any other outcome the storage is unchanged |
| LoginScreen.LoginRound | Frontend/app/LoginScreen.tsx:21-41 | pressing "Login" sends exactly one login request, credentials as typed and no header; loading ends false; the storage gains the server's token under "jwt" on an OK reply and is unchanged otherwise |
| RootLayout.Apply | Frontend/app/_layout.tsx:30-47 | the token check only completes once the fonts are loaded and sets the status to `!!token` (a missing or empty token is logged out); the layout becomes ready only when something is rendered; loading the fonts hides the splash; the login redirect is emitted exactly on a step into a logged-out, measured layout |
| RootLayout.RunIsReachable | Frontend/app/_layout.tsx:27-55 | in every state reachable from start, a known status implies loaded fonts and a ready layout implies something was rendered |
| RootLayout.RedirectOnlyWhenLoggedOut | Frontend/app/_layout.tsx:43-51 | over any run, a redirect to "/LoginScreen" is emitted only after a step into a rendered, measured layout with status false, so an unknown or true status never redirects; and a run ending in a logged-out, measured layout has emitted it |
| RootLayout.MeasuredLoggedOutLayoutRedirects | Frontend/app/_layout.tsx:43-47 | a layout whose status is already false is sent to login when its layout is first measured |
| RootLayout.LoginThenRestart | Frontend/app/_layout.tsx:31-34 | after an OK login, the next start reads the stored "jwt" and finds the user logged in exactly when the server's token is non-empty; after a failed one it sees the old storage, null when the key was never written |
| ShoppingListScreen.AtMostOneRowInEditMode | Frontend/app/ShoppingListScreen.tsx:146 | with distinct ids, at most one row is rendered in edit mode |
| ShoppingListScreen.Mount | Frontend/app/ShoppingListScreen.tsx:106-108 | the first render has no rows, an empty hidden form and no row in edit mode, and fetches the list once with "Bearer " and the stored token (or "null") |
| ShoppingListScreen.MountThenFetch | Frontend/app/ShoppingListScreen.tsx:29-36 | the list response replaces the rows, so the mounted screen shows exactly the server's rows, with no row in edit mode and the buffer invariant kept; a failed fetch leaves the list empty |
| ShoppingListScreen.ToggleAddForm | Frontend/app/ShoppingListScreen.tsx:116 | the add button flips the form's visibility and changes nothing else |
| ShoppingListScreen.SubmitAdd | Frontend/app/ShoppingListScreen.tsx:38-52 | a whitespace-only name alerts and sends nothing; otherwise name and quantity go out as typed; the state never changes |
| ShoppingListScreen.SettleAdd | Frontend/app/ShoppingListScreen.tsx:54-61 | success clears name and quantity, hides the form and refetches; a failure keeps name, quantity and visibility |
| ShoppingListScreen.DeleteRound | Frontend/app/ShoppingListScreen.tsx:64-71 | a delete leaves the screen state unchanged, sends the delete request for that id, and then refetches the list with the same token after any response, OK or not; only an exception skips the refetch |
| ShoppingListScreen.StartEdit | Frontend/app/ShoppingListScreen.tsx:73-77 | editing takes the row's id, name and quantity, a missing quantity becoming ""; nothing else changes |
| ShoppingListScreen.SaveEditRound | Frontend/app/ShoppingListScreen.tsx:79-104 | for every edited name, the empty one included, one update request goes out for the id being edited with both buffers as typed; a non-OK reply or an exception leaves the state from before the press; OK leaves edit mode with empty buffers, rows and add form untouched |
| ShoppingListScreen.EditThenSaveSendsRow | Frontend/app/ShoppingListScreen.tsx:73-94 | saving straight after "Edit" sends back the row's own id, name and quantity, a missing quantity as "" |
| ShoppingListScreen.SettleSaveEdit | Frontend/app/ShoppingListScreen.tsx:96-103 | success leaves edit mode with both buffers empty and refetches; a failure keeps the edit state intact |
| BudgetScreen.SettleFetch | Frontend/app/BudgetScreen.tsx:25-35 | an OK fetch shows the amount's text; a non-OK one empties the input; an exception keeps it and alerts; `fetching` ends false on every outcome |
| BudgetScreen.SubmitSave | Frontend/app/BudgetScreen.tsx:38-54 | a request is sent exactly for non-blank numeric input, with the parsed amount and loading started; the input text is never modified |
| BudgetScreen.SettleSave | Frontend/app/BudgetScreen.tsx:56-65 | loading ends false on every outcome and the input text is kept |
| BudgetScreen.NegativeAmountIsSent | Frontend/app/BudgetScreen.tsx:39 | a negative amount that parses passes validation and is sent unchanged |
| BudgetScreen.SaveRoundKeepsInput | Frontend/app/BudgetScreen.tsx:44-65 | a save that sent a request ends with loading false and the input as typed |
| BudgetScreen.MountFetch | Frontend/app/BudgetScreen.tsx:14-36 | the spinner shows from the first render until the one budget request settles, whatever the outcome; the save spinner is never started; an OK fetch shows the amount's text and any other outcome leaves the input empty |
| ManualEntryScreen.Submit | Frontend/app/ManualEntryExpensesScreen.tsx:19-38 | a blank description, a blank amount or a non-numeric amount alerts and sends nothing; otherwise the untrimmed description is `item_name` and the parsed amount is `price` |
| ManualEntryScreen.Settle | Frontend/app/ManualEntryExpensesScreen.tsx:40-52 | OK clears both fields and navigates to "/"; a non-OK response keeps them and shows the detail or "Something went wrong"; an exception keeps them and shows "Failed to connect to server" |
| Models.FindUser | Backend/shopping/shopping_routes.py:19 | the lookup finds the first row with that username, or none when no row has it |
| Models.CurrentUser | Backend/shopping/shopping_routes.py:19-24 | an unknown username fails with a server error, because the route reads `user.id` of None |
| ShoppingRoutes.AddItem | Backend/shopping/shopping_routes.py:13-31 | exactly one new row with a fresh id, the given name and quantity and the caller as owner; existing rows are unchanged |
| ShoppingRoutes.ListAfterAdd | Backend/shopping/shopping_routes.py:13-40 | after an add, the caller's list is the old list plus exactly the returned row |
| ShoppingRoutes.ListAfterDelete | Backend/shopping/shopping_routes.py:34-65 | after deleting an owned id the caller's list loses exactly that row; a missing or foreign id leaves it unchanged |
| ShoppingRoutes.DeleteItem | Backend/shopping/shopping_routes.py:43-65 | a missing or foreign id is 404 "Item not found" and changes nothing; otherwise exactly that row is removed |
| ShoppingRoutes.UpdateItem | Backend/shopping/shopping_routes.py:67-88 | a missing or foreign id is 404 and changes nothing; otherwise name and quantity are both replaced, id and owner kept, other rows untouched |
| ShoppingRoutes.OthersCannotTouch | Backend/shopping/shopping_routes.py:19-88 | no sequence of adds, deletes and updates by other users changes which items a user owns or their contents |
| ShoppingRoutes.ListUnchangedByOthers | Backend/shopping/shopping_routes.py:34-88 | the list route returns exactly the caller's rows, so no sequence of calls by other users changes what a user's list returns |
| BudgetRoutes.FirstBudget | Backend/budget/budget_routes.py:17 | the lookup finds the first budget row of the user, or none when the user has none |
| BudgetRoutes.GetBudget | Backend/budget/budget_routes.py:11-20 | 404 "No budget found." exactly when the caller has no budget; otherwise a success carrying the amount of the caller's first budget row |
| BudgetRoutes.UpdateBudget | Backend/budget/budget_routes.py:22-39 | without a budget one row with the amount is added; otherwise the caller's first row is overwritten; nothing else changes, and at most one budget per user is preserved |
| BudgetRoutes.GetAfterPut | Backend/budget/budget_routes.py:17-39 | a get after a put by the same user returns the amount just put |
| BudgetRoutes.CheckBudgetThreshold | Backend/budget/budget_routes.py:41-67 | 404 "No budget set" without a budget, and a report whenever the caller has one; status "over" exactly when the total exceeds the budget, "within" otherwise (equality included); spent total and budget are echoed |
| AuthRoutes.AuthenticateUser | Backend/auth/auth_routes.py:16-22 | an unknown username or a failed verification gives None; otherwise the stored record |
| AuthRoutes.LoginForAccessToken | Backend/auth/auth_routes.py:24-42 | a failed check is 401 "Incorrect username or password" with `WWW-Authenticate: Bearer`; otherwise a "bearer" token minted with `sub` set to the stored username |
| AuthRoutes.SeededLogin | Backend/auth/auth_routes.py:12-42 | the seeded table holds only "john" with the hash of "secret123"; against it exactly "john" with a password verifying against that hash logs in, with subject "john" |
| ExpenseRoutes.LogExpense | Backend/expenses/expense_routes.py:12-22 | exactly one row is added with `item_name`, `quantity` and `price` as given and a fresh id and timestamp, and it is returned |
| ExpenseRoutes.Insert | Backend/expenses/expense_routes.py:26 | inserting into a newest-first list keeps it newest first and adds exactly that row |
| ExpenseRoutes.SortNewestFirst | Backend/expenses/expense_routes.py:26 | ordering by timestamp descending gives a permutation of the rows whose timestamps do not increase |
| ExpenseRoutes.GetExpenses | Backend/expenses/expense_routes.py:24-26 | every stored expense of every user is listed, newest first |
| ExpenseRoutes.LoggedExpenseIsListed | Backend/expenses/expense_routes.py:12-26 | a logged expense appears in the next listing |
| EndToEnd.Reply | Frontend/app/LoginScreen.tsx:30-36 | an OK response exactly for a route's success, carrying its body; an `HTTPException` arrives as a non-OK response with its `detail` |
| EndToEnd.AddRoundRefetches | Frontend/app/ShoppingListScreen.tsx:38-62 | an add of a non-blank name sends name and quantity as typed; the route's success arrives as an OK reply, which clears and hides the form and refetches the list |
| EndToEnd.AddedRowIsListed | Backend/shopping/shopping_routes.py:13-40 | the list the server returns after an add, once shown by the screen, holds the new row with the name and quantity sent and every row shown before |
| EndToEnd.SavedBudgetIsShown | Backend/budget/budget_routes.py:11-39 | a budget saved from the screen and fetched again shows the parsed amount's text, without an alert |
| EndToEnd.MissingBudgetShowsEmpty | Backend/budget/budget_routes.py:17-19 | a user without a budget gets the 404, and the screen shows an empty input without an alert |

## Left out

- Network, storage, alerts and navigation are not performed. They are effects in a list, and each request's outcome is an argument.
- JavaScript number conversion is a set of parameters: `isNumber` for `!isNaN(Number(t))`, `parseFloat`, and `show` for `toString`. Money is `real`. Float rounding, NaN and Infinity are not modelled.
- Password hashing, hash verification and JWT minting are parameters: `hash`, `verify` and `mint`. `get_current_user` is not part of this model; routes receive the caller's username. `ACCESS_TOKEN_EXPIRE_MINUTES` is a parameter too.
- The database's id assignment and the expense timestamp default are a counter and a `now` argument. The ORM, session and commit are not modelled.
- `Budget` and `ExpenseLog` are absent from Backend/models.py, and the threshold route uses `func`/`ExpenseLog` without importing them. Backend/main.py mounts only the auth router. So the budget, shopping and expense routes are modelled for their branch logic only. The threshold route's total is an argument (`None` for SQL NULL), not a sum over the table.
- BudgetRoutes.CheckBudgetThreshold: the report is the one the route's branches build. As written, the unimported `func`/`ExpenseLog` would raise a server error before the report is returned.
- EndToEnd.Reply: a route's success or `HTTPException` is mapped straight to an outcome. Serialisation, the response model's field filtering and transport faults are not modelled.
- ShoppingListScreen.SettleFetch: on a non-OK list response the source stores the error body itself as the list. The model keeps the previous rows, because a non-list body cannot be represented.
- `TransportFailure` also stands for a non-OK response whose body is not JSON, since that throws inside the same `try`. A FastAPI validation error's list-valued `detail` is treated as a string.
- The shopping list's rows are returned as a set, because the query has no ORDER BY. Ties in the expense ordering are returned in some order; only "newest first" and "every row" are stated.
- Plain text-field setters of the login, reset, budget, manual-entry and shopping screens are not modelled: they are bare assignments. The edit-row inputs are among them.
- Rendering, styles and the splash-screen call are not modelled. The splash call appears only as the `HideSplash` effect.
- The session reset counter, dashboard/history synchronisation, weekly bucketing and request cancellation are not modelled; the files above contain no logic for them.
- Concurrency is not modelled: the order in which async completions arrive is given by the event sequence.
- The profile, barcode, drawer and tabs screens are not part of this model.
