/**
 The read side of the tracker page: resolving the session email to a
 `user_id`, and the role-scoped listings of users, expenses and budgets.
 An admin sees every row; anyone else sees only the rows tied to their own
 account.
 */
module Records {
  import opened Tables

  /**
   `SELECT user_id FROM users WHERE email = %s`, first row. A session with
   no email (SQL NULL) resolves to nothing.
   */
  function ResolveUserId(users: seq<User>, email: Option<string>): (r: Option<nat>)
    ensures r.Some? <==> exists u :: u in users && Some(u.email) == email
    ensures r.Some? ==> exists u :: u in users && Some(u.email) == email && u.id == r.value
  {
    var rows := Select(users, WithEmail(email));
    if rows == [] then None
    else assert rows[0] in rows; Some(rows[0].id)
  }

  /** Where emails are unique, an account's email resolves to that account's id. */
  lemma {:induction false} ResolveAccount(users: seq<User>, u: User)
    requires UniqueEmails(users)
    requires u in users
    ensures ResolveUserId(users, Some(u.email)) == Some(u.id)
  {
    var i :| 0 <= i < |users| && users[i] == u;
    var keep := WithEmail(Some(u.email));
    forall j | 0 <= j < |users| && j != i
      ensures !keep(users[j])
    {
      if keep(users[j]) {
        EmailIdentifiesAccount(users, u, users[j]);
      }
    }
    SelectSingle(users, keep, i);
  }

  /**
   Where ids are unique, the account owning the resolved id is the account
   whose email the session holds.
   */
  lemma {:induction false} ResolvedOwner(users: seq<User>, email: Option<string>, owner: User)
    requires Ascending(users, UserKey)
    requires owner in users && ResolveUserId(users, email) == Some(owner.id)
    ensures Some(owner.email) == email
  {
    var u :| u in users && Some(u.email) == email && u.id == owner.id;
    IdIdentifiesAccount(users, u, owner);
  }

  /**
   The Users menu: `SELECT user_id, email, role FROM users`, for a
   non-admin `WHERE email = %s` with the session email. Passwords are never
   part of the result.
   */
  function ListUsers(users: seq<User>, role: Role, email: Option<string>): (r: seq<UserInfo>)
    ensures role == Admin ==> |r| == |users| && forall i :: 0 <= i < |r| ==> r[i] == Info(users[i])
    ensures role == Regular ==> forall x :: x in r ==> Some(x.email) == email
    ensures role == Regular ==> forall u :: u in users && Some(u.email) == email ==> Info(u) in r
    ensures role == Regular ==>
      forall x :: multiset(r)[x] == if Some(x.email) == email then multiset(Project(users))[x] else 0
    ensures forall x :: x in r ==> exists u :: u in users && Info(u) == x
  {
    ProjectSelect(users, email);
    Project(if role == Admin then users else Select(users, WithEmail(email)))
  }

  /** The `user_id, email, role` columns of some `users` rows. */
  function Project(rows: seq<User>): (r: seq<UserInfo>)
    ensures |r| == |rows| && forall i :: 0 <= i < |r| ==> r[i] == Info(rows[i])
    ensures forall u :: u in rows ==> Info(u) in r
    ensures forall x :: x in r ==> exists u :: u in rows && Info(u) == x
  {
    if rows == [] then [] else [Info(rows[0])] + Project(rows[1..])
  }

  /**
   Projecting the accounts with one email counts each `user_id, email, role`
   as often as projecting the whole table does, if it carries that email,
   and not at all otherwise.
   */
  lemma {:induction false} ProjectSelect(users: seq<User>, email: Option<string>)
    ensures forall x ::
      multiset(Project(Select(users, WithEmail(email))))[x] ==
      if Some(x.email) == email then multiset(Project(users))[x] else 0
    decreases |users|
  {
    if users != [] {
      ProjectSelect(users[1..], email);
      assert Project(users) == [Info(users[0])] + Project(users[1..]);
      if WithEmail(email)(users[0]) {
        assert Select(users, WithEmail(email)) == [users[0]] + Select(users[1..], WithEmail(email));
      }
    }
  }

  /**
   The expense list: `SELECT * FROM expenses` for an admin, otherwise only
   the rows whose `user_id` is the resolved id.
   */
  function ListExpenses(expenses: seq<Expense>, role: Role, uid: nat): (r: seq<Expense>)
    ensures role == Admin ==> r == expenses
    ensures role == Regular ==> forall e :: e in r <==> e in expenses && e.userId == uid
    ensures role == Regular ==>
      forall e :: multiset(r)[e] == if e.userId == uid then multiset(expenses)[e] else 0
  {
    if role == Admin then expenses else Select(expenses, ExpenseOf(uid))
  }

  /**
   The budget list: `SELECT * FROM budgets` for an admin, otherwise only
   the rows whose `user_id` is the resolved id.
   */
  function ListBudgets(budgets: seq<Budget>, role: Role, uid: nat): (r: seq<Budget>)
    ensures role == Admin ==> r == budgets
    ensures role == Regular ==> forall b :: b in r <==> b in budgets && b.userId == uid
    ensures role == Regular ==>
      forall b :: multiset(r)[b] == if b.userId == uid then multiset(budgets)[b] else 0
  {
    if role == Admin then budgets else Select(budgets, BudgetOf(uid))
  }

  /** A non-admin sees no expense that belongs to an account with another email. */
  lemma {:induction false} OnlyOwnExpenses(users: seq<User>, expenses: seq<Expense>, email: Option<string>, e: Expense, owner: User)
    requires Ascending(users, UserKey)
    requires ResolveUserId(users, email).Some?
    requires e in ListExpenses(expenses, Regular, ResolveUserId(users, email).value)
    requires owner in users && owner.id == e.userId
    ensures Some(owner.email) == email
  {
    ResolvedOwner(users, email, owner);
  }

  /** A non-admin sees no budget that belongs to an account with another email. */
  lemma {:induction false} OnlyOwnBudgets(users: seq<User>, budgets: seq<Budget>, email: Option<string>, b: Budget, owner: User)
    requires Ascending(users, UserKey)
    requires ResolveUserId(users, email).Some?
    requires b in ListBudgets(budgets, Regular, ResolveUserId(users, email).value)
    requires owner in users && owner.id == b.userId
    ensures Some(owner.email) == email
  {
    ResolvedOwner(users, email, owner);
  }

  /**
   After an expense is appended: its owner and every admin see it, and the
   list of every other non-admin is exactly what it was.
   */
  lemma {:induction false} AddedExpenseVisibility(expenses: seq<Expense>, e: Expense, uid: nat)
    ensures e in ListExpenses(expenses + [e], Regular, e.userId)
    ensures e in ListExpenses(expenses + [e], Admin, uid)
    ensures uid != e.userId ==>
      ListExpenses(expenses + [e], Regular, uid) == ListExpenses(expenses, Regular, uid)
  {
    SelectAppend(expenses, e, ExpenseOf(uid));
  }

  /**
   After a budget is appended: its owner and every admin see it, and the
   list of every other non-admin is exactly what it was.
   */
  lemma {:induction false} AddedBudgetVisibility(budgets: seq<Budget>, b: Budget, uid: nat)
    ensures b in ListBudgets(budgets + [b], Regular, b.userId)
    ensures b in ListBudgets(budgets + [b], Admin, uid)
    ensures uid != b.userId ==>
      ListBudgets(budgets + [b], Regular, uid) == ListBudgets(budgets, Regular, uid)
  {
    SelectAppend(budgets, b, BudgetOf(uid));
  }
}
