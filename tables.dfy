/**
 The three relations of the expense tracker (users, expenses, budgets) as
 typed rows, the selection that every `SELECT ... WHERE` of the tracker
 performs, and the integrity facts the tables keep.
 */
module Tables {

  datatype Option<T> = None | Some(value: T)

  /** The error kinds the tracker reports to the person at the keyboard. */
  datatype Failure =
    | MissingFields        // a required field was left empty (or an amount was zero)
    | InvalidCredentials   // no account has this email and password
    | PasswordMismatch     // the two password fields differ
    | DuplicateEmail       // an account with this email exists already
    | IdentityUnresolved   // the session email names no account

  datatype Result<T> = Ok(value: T) | Err(error: Failure)

  /** The `role` column: 'user' in the database is `Regular` here. */
  datatype Role = Regular | Admin

  /** The budget `period` column, chosen from a fixed list of two. */
  datatype Period = Weekly | Monthly

  /** A calendar date; the tracker only stores and shows dates. */
  datatype Date = Date(year: int, month: int, day: int)

  /** A row of `users`. Passwords are stored and compared as plain text. */
  datatype User = User(id: nat, email: string, password: string, role: Role)

  /** The columns `user_id, email, role` that the tracker ever reads back from `users`. */
  datatype UserInfo = UserInfo(id: nat, email: string, role: Role)

  /** A row of `expenses`; `amount` is in cents. */
  datatype Expense = Expense(id: nat, userId: nat, amount: nat, category: string, date: Date, description: string)

  /** A row of `budgets`; `amount` is in cents. */
  datatype Budget = Budget(id: nat, userId: nat, amount: nat, period: Period, startDate: Date, endDate: Date)

  function Info(u: User): UserInfo {
    UserInfo(u.id, u.email, u.role)
  }

  function UserKey(u: User): nat { u.id }
  function ExpenseKey(e: Expense): nat { e.id }
  function BudgetKey(b: Budget): nat { b.id }

  // ---------------------------------------------------------------------------
  // Selection

  /** The rows of `rows` that satisfy `keep`, in table order: `SELECT * ... WHERE keep`. */
  function Select<T(!new)>(rows: seq<T>, keep: T -> bool): (r: seq<T>)
    ensures |r| <= |rows|
    ensures forall x :: x in r <==> x in rows && keep(x)
    ensures forall x :: multiset(r)[x] == if keep(x) then multiset(rows)[x] else 0
  {
    assert rows != [] ==> rows == [rows[0]] + rows[1..];
    if rows == [] then []
    else if keep(rows[0]) then [rows[0]] + Select(rows[1..], keep)
    else Select(rows[1..], keep)
  }

  /** `WHERE email = %s AND password = %s` */
  function WithCredentials(email: string, password: string): User -> bool {
    (u: User) => u.email == email && u.password == password
  }

  /** `WHERE email = %s`; a NULL parameter (`None`) matches no row. */
  function WithEmail(email: Option<string>): User -> bool {
    (u: User) => Some(u.email) == email
  }

  /** `WHERE user_id = %s` on `expenses` */
  function ExpenseOf(uid: nat): Expense -> bool {
    (e: Expense) => e.userId == uid
  }

  /** `WHERE user_id = %s` on `budgets` */
  function BudgetOf(uid: nat): Budget -> bool {
    (b: Budget) => b.userId == uid
  }

  lemma {:induction false} SelectAppend<T(!new)>(rows: seq<T>, x: T, keep: T -> bool)
    ensures Select(rows + [x], keep) == Select(rows, keep) + (if keep(x) then [x] else [])
    decreases |rows|
  {
    if rows == [] {
      assert rows + [x] == [x];
    } else {
      assert (rows + [x])[1..] == rows[1..] + [x];
      SelectAppend(rows[1..], x, keep);
    }
  }

  /** When no row satisfies `keep`, the selection is empty. */
  lemma {:induction false} SelectNone<T(!new)>(rows: seq<T>, keep: T -> bool)
    requires forall j :: 0 <= j < |rows| ==> !keep(rows[j])
    ensures Select(rows, keep) == []
    decreases |rows|
  {
    if rows != [] {
      SelectNone(rows[1..], keep);
    }
  }

  /** When exactly one row satisfies `keep`, the selection is that row alone. */
  lemma {:induction false} SelectSingle<T(!new)>(rows: seq<T>, keep: T -> bool, i: nat)
    requires i < |rows| && keep(rows[i])
    requires forall j :: 0 <= j < |rows| && j != i ==> !keep(rows[j])
    ensures Select(rows, keep) == [rows[i]]
    decreases |rows|
  {
    if i == 0 {
      SelectNone(rows[1..], keep);
    } else {
      assert !keep(rows[0]);
      SelectSingle(rows[1..], keep, i - 1);
    }
  }

  // ---------------------------------------------------------------------------
  // Integrity of the tables

  /** No two accounts share an email. */
  ghost predicate UniqueEmails(users: seq<User>) {
    forall i, j :: 0 <= i < j < |users| ==> users[i].email != users[j].email
  }

  /** Keys strictly increase along the table, as auto-increment keys do. */
  ghost predicate Ascending<T>(rows: seq<T>, key: T -> nat) {
    forall i, j :: 0 <= i < j < |rows| ==> key(rows[i]) < key(rows[j])
  }

  /** Keys are ascending and all below the next key the table will hand out. */
  ghost predicate Keyed<T>(rows: seq<T>, key: T -> nat, next: nat) {
    Ascending(rows, key) && forall i :: 0 <= i < |rows| ==> key(rows[i]) < next
  }

  function UserIds(users: seq<User>): set<nat> {
    set u | u in users :: u.id
  }

  /** With unique emails, an email identifies at most one account. */
  lemma EmailIdentifiesAccount(users: seq<User>, u: User, v: User)
    requires UniqueEmails(users)
    requires u in users && v in users && u.email == v.email
    ensures u == v
  {
    var i :| 0 <= i < |users| && users[i] == u;
    var j :| 0 <= j < |users| && users[j] == v;
    assert i == j;
  }

  /** With ascending ids, an id identifies at most one account. */
  lemma IdIdentifiesAccount(users: seq<User>, u: User, v: User)
    requires Ascending(users, UserKey)
    requires u in users && v in users && u.id == v.id
    ensures u == v
  {
    var i :| 0 <= i < |users| && users[i] == u;
    var j :| 0 <= j < |users| && users[j] == v;
    assert UserKey(users[i]) == UserKey(users[j]);
  }
}
