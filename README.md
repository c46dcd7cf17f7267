# Expense tracker: session state machine and role-scoped tables

The expense tracker is a single Streamlit script, `et.py`. Each button press reruns the script against two things:

- **The session**: four fields, `logged_in`, `user_email`, `role` and `page`.
- **A MySQL database**: three tables, `users`, `expenses` and `budgets`.

This project models the logic under the widgets. It covers:

- **Pages.** The three pages are login, sign-up and tracker. The tracker page shows content only while someone is logged in.
- **Login.** Login checks credentials in plain text.
- **Sign-up.** Registration checks run in a fixed order, then a new account is inserted with role `'user'`.
- **Logout.** Logout resets the session.
- **Tracker.** The session email is resolved to a `user_id`. Validated expenses and budgets are inserted for that id. Listings are scoped by role: an admin sees every row, anyone else sees only their own.

Modules:

- `Tables` (tables.dfy): the row types; `Select`, which is what every `SELECT … WHERE` returns; and the integrity predicates of the tables.
- `Auth` (auth.dfy): the credential check and the registration checks, as functions of the `users` table.
- `Records` (records.dfy): user-id resolution and the three role-scoped listings, as functions of the tables.
- `Store` (store.dfy): class `Database`, which holds the three tables as sequences. Its `INSERT`s append in place. Auto-increment keys come from one counter per table. `Valid()` is its object invariant: emails are unique, keys ascend, and every expense and budget belongs to an existing account.
- `Navigator` (navigator.dfy): class `Session`, with the four session fields and `NavigateTo`. `Consistent()` describes the states reachable from a fresh session: the tracker page is shown exactly while logged in.
- `App` (app.dfy): one method per button. Each method first checks the page branch its button lives on and returns `NotShown` when that branch is not shown. Each tracker menu entry is a read-only view function. A few client methods exercise the register, login, add and list scenarios through the contracts.

Behaviour of `et.py` that the model keeps:

- **Logged out on the tracker page.** A session on the tracker page that is not logged in renders nothing: it is neither redirected nor rejected. Every tracker handler returns `NotShown` and every view is `Hidden`.
- **Admins also need a resolvable email.** An admin's expense and budget lists are also gated on resolving the session email to a `user_id`. An admin whose email no longer resolves sees `Unresolved`, not every row.
- **The Users listing is scoped by email.** For a non-admin it filters `users` on the session email, not on a resolved `user_id`.
- **No database-error handling.** Nothing in `et.py` handles database errors, so no "store unavailable" outcome exists.

## Model

| member | source | states |
|---|---|---|
| `Tables.Select` | et.py:18-24 | A parameterised `SELECT … WHERE` returns exactly the table rows that satisfy the condition, each as many times as it occurs in the table and no other row at all, so never more rows than the table has |
| `Auth.Authenticate` | et.py:51-65 | An empty email or password is refused before the table is consulted. Otherwise login succeeds exactly when some account has both this email and this password. On success, the identity read back is such an account's `user_id, email, role`. With both fields filled, a refusal is always invalid credentials |
| `Auth.AuthenticateAccount` | et.py:55-63 | With unique emails, an account's own email and password log in as exactly that account |
| `Auth.AuthenticateWrongPassword` | et.py:55-65 | With unique emails, any other non-empty password for an existing email is refused as invalid credentials |
| `Auth.CheckRegistration` | et.py:78-88 | Sign-up checks in this order: a password mismatch is reported first, even when fields are empty. Then an empty email or password. Then an email already present. An account may be inserted exactly when the passwords agree, both fields are non-empty and the email is free |
| `Auth.RegistrationKeepsEmailsUnique` | et.py:84-90 | Appending the account that an accepted registration inserts, with role `'user'`, keeps emails unique |
| `Records.ResolveUserId` | et.py:131-136 | A `user_id` is found exactly when some account has the session email, and it is such an account's id. A session without an email resolves to nothing |
| `Records.ResolveAccount` | et.py:172-177 | With unique emails, an account's email resolves to that account's id |
| `Records.ResolvedOwner` | et.py:131-136 | With unique ids, the account owning the resolved id is the one whose email the session holds |
| `Records.ListUsers` | et.py:116-123 | An admin gets every account, in order, as `user_id, email, role`. Anyone else gets exactly the accounts with their own email, each listed as often as in the admin listing and no more. No listing exposes a password |
| `Records.Project` | et.py:119-123 | Reading back `user_id, email, role` gives one row per table row, in table order, with the password left out |
| `Records.ProjectSelect` | et.py:119-123 | The non-admin Users listing holds each `user_id, email, role` as often as the admin listing does when it carries the session email, and never otherwise |
| `Records.ListExpenses` | et.py:156-162 | An admin gets every expense. Anyone else gets exactly the expenses whose `user_id` is their resolved id, each as often as it occurs in the table |
| `Records.ListBudgets` | et.py:197-203 | An admin gets every budget. Anyone else gets exactly the budgets whose `user_id` is their resolved id, each as often as it occurs in the table |
| `Records.OnlyOwnExpenses` | et.py:159-162 | Every expense a non-admin sees belongs to an account with the session's email |
| `Records.OnlyOwnBudgets` | et.py:200-203 | Every budget a non-admin sees belongs to an account with the session's email |
| `Records.AddedExpenseVisibility` | et.py:144-162 | A new expense is seen by its owner and by admins. Every other non-admin's list is exactly what it was |
| `Records.AddedBudgetVisibility` | et.py:185-203 | A new budget is seen by its owner and by admins. Every other non-admin's list is exactly what it was |
| `Store.Database.InsertUser` | et.py:89-90 | Appends exactly one account with the next id, the given email and password, and role `'user'`. The other tables are unchanged and the integrity invariant is kept |
| `Store.Database.InsertExpense` | et.py:148-151 | Appends exactly one expense with the next id, owned by the given `user_id`. The other tables are unchanged and the integrity invariant is kept |
| `Store.Database.InsertBudget` | et.py:189-192 | Appends exactly one budget with the next id, owned by the given `user_id`. The other tables are unchanged and the integrity invariant is kept |
| `Navigator.Session.constructor` | et.py:30-43 | A fresh session is logged out, holds no email, has role `'user'` and is on the login page |
| `Navigator.Session.NavigateTo` | et.py:38-39 | Sets the page and nothing else |
| `App.Login` | et.py:45-65 | Off the login page, nothing happens. On it, a refused login leaves the session unchanged and reports the reason. A successful one sets `logged_in` and copies email and role from the matched row. It moves to the tracker page. Reachable-state consistency is kept |
| `App.GoToSignup` | et.py:69-70 | From the login page, moves to the sign-up page and changes nothing else. Elsewhere, nothing happens |
| `App.Signup` | et.py:72-92 | Off the sign-up page, nothing happens. A rejected registration changes neither the session nor the database. An accepted one appends exactly one `'user'` account and moves to the login page without logging in. The other tables are unchanged |
| `App.Logout` | et.py:94-104 | On the tracker page while logged in, the session becomes logged out, with no email, role `'user'` and the login page, whatever it held before. Elsewhere, nothing happens |
| `App.AddExpense` | et.py:128-152 | Only a logged-in tracker session acts. An unresolvable email, a zero amount or an empty category inserts nothing. Otherwise exactly one expense owned by the resolved id is appended, and users and budgets are unchanged |
| `App.AddBudget` | et.py:169-193 | Only a logged-in tracker session acts. An unresolvable email or a zero amount inserts nothing. Otherwise exactly one budget owned by the resolved id is appended, and users and expenses are unchanged |
| `App.UsersView` | et.py:94-126 | Hidden exactly when the tracker branch is not shown. An admin sees every account. Anyone else sees exactly the accounts carrying their email, each once per matching account, and every row shown is a real account's `user_id, email, role` |
| `App.ExpensesView` | et.py:128-167 | Hidden exactly when the tracker branch is not shown. `Unresolved` exactly when no account has the session email. Otherwise an admin sees every expense, and anyone else sees exactly the expenses of one account with their email, each as often as it occurs in the table |
| `App.BudgetsView` | et.py:169-207 | Hidden exactly when the tracker branch is not shown. `Unresolved` exactly when no account has the session email. Otherwise an admin sees every budget, and anyone else sees exactly the budgets of one account with their email, each as often as it occurs in the table |
| `App.RegularSeesExactlyOwnExpenses` | et.py:131-162 | In a valid database, a non-admin's expense list is exactly the expenses whose owning account has the session's email |
| `App.RegularSeesExactlyOwnBudgets` | et.py:172-203 | In a valid database, a non-admin's budget list is exactly the budgets whose owning account has the session's email |

## Left out

- Rendering: titles, inputs, data frames, and success, error and info messages. The outcome of a button press is a tag (`Done`, `Failed(reason)`, `NotShown`); the result of a menu entry is a `View`.
- Database plumbing: `get_connection` and its credentials, and the cursor, commit and close in `execute_query`. The tables are in-memory sequences, so connection failures do not arise.
- Auto-increment keys: `users`, `expenses` and `budgets` ids come from counters in `Database`. The server-assigned `created_at` column is not modelled.
- Seeded accounts: admin accounts exist only by being inserted into the database directly. `Database.Create` takes such an initial `users` table.
- Floating-point amounts: amounts are non-negative whole cents. Only zero against non-zero matters to the logic, and the inputs cannot go below zero.
- The budget `not period` check: `period` comes from a two-entry select box, so it is an enumeration and that check cannot fail.
- Dates and descriptions: the model stores them but does not interpret them.
- Streamlit reruns: each button press is one atomic step. Within one run, the tracker page keeps rendering after Logout, with the cleared session: the Expenses and Budgets menus briefly show the re-login error, and the Users menu queries with a NULL email and shows an empty account table. That is display only and is not modelled.
- MySQL string comparison: it may ignore case and trailing blanks. The model compares emails and passwords exactly.
- Row order: without `ORDER BY`, SQL does not fix the order of listed rows. The model returns rows in table order.
- Store.Database.InsertUser: requires that the email be free. The Sign Up checks establish this just before the insert, so an `INSERT` of a taken email is not modelled.
- Concurrency: two connections racing to register the same email are out of scope. `Database.Valid()` states the unique-email and ownership invariants that the handlers keep. The methods that insert require it, as the database's object invariant.
- Partially initialised sessions: `et.py` sets each session key only if it is missing. The model's fresh session sets all four together.
- Roles other than `'user'` and `'admin'`: any other stored value would act as `'user'`, because the code only compares the role with `"admin"`. The model has the two roles only.
- Password hashing: passwords are compared as plain text, as `et.py` does.
