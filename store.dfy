/**
 The database the tracker talks to: the three tables, updated in place by
 the INSERTs of the Sign Up, Add Expense and Add Budget buttons. The
 auto-increment keys are handed out from one counter per table.
 */
module Store {
  import opened Tables

  class Database {
    var users: seq<User>
    var expenses: seq<Expense>
    var budgets: seq<Budget>
    var nextUserId: nat
    var nextExpenseId: nat
    var nextBudgetId: nat

    /**
     The integrity the tables keep: emails are unique, keys are unique and
     ascending, and every expense and budget belongs to an existing account.
     */
    ghost predicate Valid()
      reads this
    {
      && UniqueEmails(users)
      && Keyed(users, UserKey, nextUserId)
      && Keyed(expenses, ExpenseKey, nextExpenseId)
      && Keyed(budgets, BudgetKey, nextBudgetId)
      && (forall e :: e in expenses ==> e.userId in UserIds(users))
      && (forall b :: b in budgets ==> b.userId in UserIds(users))
    }

    /**
     A database holding the given accounts (admins are only ever created
     this way) and no expenses or budgets.
     */
    constructor Create(accounts: seq<User>)
      requires UniqueEmails(accounts) && Ascending(accounts, UserKey)
      ensures Valid()
      ensures users == accounts && expenses == [] && budgets == []
      ensures nextUserId == if accounts == [] then 1 else accounts[|accounts| - 1].id + 1
      ensures nextExpenseId == 1 && nextBudgetId == 1
    {
      users := accounts;
      expenses := [];
      budgets := [];
      nextUserId := if accounts == [] then 1 else accounts[|accounts| - 1].id + 1;
      nextExpenseId := 1;
      nextBudgetId := 1;
      new;
      assert forall i :: 0 <= i < |accounts| - 1 ==> UserKey(accounts[i]) < UserKey(accounts[|accounts| - 1]);
    }

    /** `INSERT INTO users (email, password, role) VALUES (%s, %s, 'user')` */
    method InsertUser(email: string, password: string) returns (u: User)
      requires Valid()
      requires forall v :: v in users ==> v.email != email
      modifies this
      ensures Valid()
      ensures u == User(old(nextUserId), email, password, Regular)
      ensures users == old(users) + [u] && nextUserId == old(nextUserId) + 1
      ensures expenses == old(expenses) && nextExpenseId == old(nextExpenseId)
      ensures budgets == old(budgets) && nextBudgetId == old(nextBudgetId)
    {
      u := User(nextUserId, email, password, Regular);
      assert UserIds(users) <= UserIds(users + [u]) by {
        forall id | id in UserIds(users) ensures id in UserIds(users + [u]) {
          var v :| v in users && v.id == id;
          assert v in users + [u];
        }
      }
      users := users + [u];
      nextUserId := nextUserId + 1;
    }

    /** `INSERT INTO expenses (user_id, amount, category, date, description) VALUES (...)` */
    method InsertExpense(userId: nat, amount: nat, category: string, date: Date, description: string)
      returns (e: Expense)
      requires Valid() && userId in UserIds(users)
      modifies this
      ensures Valid()
      ensures e == Expense(old(nextExpenseId), userId, amount, category, date, description)
      ensures expenses == old(expenses) + [e] && nextExpenseId == old(nextExpenseId) + 1
      ensures users == old(users) && nextUserId == old(nextUserId)
      ensures budgets == old(budgets) && nextBudgetId == old(nextBudgetId)
    {
      e := Expense(nextExpenseId, userId, amount, category, date, description);
      expenses := expenses + [e];
      nextExpenseId := nextExpenseId + 1;
    }

    /** `INSERT INTO budgets (user_id, budget_amount, period, start_date, end_date) VALUES (...)` */
    method InsertBudget(userId: nat, amount: nat, period: Period, startDate: Date, endDate: Date)
      returns (b: Budget)
      requires Valid() && userId in UserIds(users)
      modifies this
      ensures Valid()
      ensures b == Budget(old(nextBudgetId), userId, amount, period, startDate, endDate)
      ensures budgets == old(budgets) + [b] && nextBudgetId == old(nextBudgetId) + 1
      ensures users == old(users) && nextUserId == old(nextUserId)
      ensures expenses == old(expenses) && nextExpenseId == old(nextExpenseId)
    {
      b := Budget(nextBudgetId, userId, amount, period, startDate, endDate);
      budgets := budgets + [b];
      nextBudgetId := nextBudgetId + 1;
    }
  }
}
