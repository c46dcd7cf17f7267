/**
 One button press of the tracker as one step on a Session and a Database.
 Each handler first checks the page branch its button lives on (the login
 page, the sign-up page, or the tracker page while logged in) and does
 nothing when that branch is not the one shown. The tracker's three menu
 entries are read-only views.
 */
module App {
  import opened Tables
  import opened Auth
  import opened Records
  import opened Store
  import opened Navigator

  /** What a button press produced: nothing, a success, or an error message. */
  datatype Outcome = NotShown | Done | Failed(why: Failure)

  /** What a tracker menu entry shows: nothing, the re-login error, or rows. */
  datatype View<T> = Hidden | Unresolved | Shown(rows: seq<T>)

  // ---------------------------------------------------------------------------
  // The login page

  /** The Login button. */
  method Login(s: Session, db: Database, email: string, password: string) returns (o: Outcome)
    modifies s
    ensures old(s.page) != LoginPage ==> o == NotShown && unchanged(s)
    ensures old(s.page) == LoginPage ==>
      var a := Authenticate(db.users, email, password);
      && (a.Err? ==> o == Failed(a.error) && unchanged(s))
      && (a.Ok? ==> o == Done && s.loggedIn && s.userEmail == Some(a.value.email)
                    && s.role == a.value.role && s.page == TrackerPage)
    ensures old(s.Consistent()) ==> s.Consistent()
  {
    if s.page != LoginPage {
      return NotShown;
    }
    match Authenticate(db.users, email, password)
    case Err(f) =>
      o := Failed(f);
    case Ok(info) =>
      s.loggedIn := true;
      s.userEmail := Some(info.email);
      s.role := info.role;
      s.NavigateTo(TrackerPage);
      o := Done;
  }

  /** The "Go to Sign Up" button. */
  method GoToSignup(s: Session) returns (o: Outcome)
    modifies s
    ensures old(s.page) != LoginPage ==> o == NotShown && unchanged(s)
    ensures old(s.page) == LoginPage ==>
      o == Done && s.page == SignupPage
      && s.loggedIn == old(s.loggedIn) && s.userEmail == old(s.userEmail) && s.role == old(s.role)
    ensures old(s.Consistent()) ==> s.Consistent()
  {
    if s.page != LoginPage {
      return NotShown;
    }
    s.NavigateTo(SignupPage);
    o := Done;
  }

  // ---------------------------------------------------------------------------
  // The sign-up page

  /** The Sign Up button: checks in order, then inserts an account with role 'user'. */
  method Signup(s: Session, db: Database, email: string, password: string, confirm: string)
    returns (o: Outcome)
    requires db.Valid()
    modifies s, db
    ensures db.Valid()
    ensures old(s.page) != SignupPage ==> o == NotShown && unchanged(s) && unchanged(db)
    ensures old(s.page) == SignupPage ==>
      var check := CheckRegistration(old(db.users), email, password, confirm);
      && (check.Some? ==> o == Failed(check.value) && unchanged(s) && unchanged(db))
      && (check.None? ==>
            && o == Done
            && db.users == old(db.users) + [User(old(db.nextUserId), email, password, Regular)]
            && db.expenses == old(db.expenses) && db.budgets == old(db.budgets)
            && s.page == LoginPage
            && s.loggedIn == old(s.loggedIn) && s.userEmail == old(s.userEmail) && s.role == old(s.role))
    ensures old(s.Consistent()) ==> s.Consistent()
  {
    if s.page != SignupPage {
      return NotShown;
    }
    var check := CheckRegistration(db.users, email, password, confirm);
    if check.Some? {
      return Failed(check.value);
    }
    var _ := db.InsertUser(email, password);
    s.NavigateTo(LoginPage);
    o := Done;
  }

  // ---------------------------------------------------------------------------
  // The tracker page

  /** The Logout button: back to a fresh session. */
  method Logout(s: Session) returns (o: Outcome)
    modifies s
    ensures !old(s.InTracker()) ==> o == NotShown && unchanged(s)
    ensures old(s.InTracker()) ==>
      o == Done && !s.loggedIn && s.userEmail == None && s.role == Regular && s.page == LoginPage
    ensures old(s.Consistent()) ==> s.Consistent()
  {
    if !s.InTracker() {
      return NotShown;
    }
    s.loggedIn := false;
    s.userEmail := None;
    s.role := Regular;
    s.NavigateTo(LoginPage);
    o := Done;
  }

  /** The Add Expense button of the Expenses menu. */
  method AddExpense(s: Session, db: Database, amount: nat, category: string, date: Date, description: string)
    returns (o: Outcome)
    requires db.Valid()
    modifies db
    ensures db.Valid()
    ensures !s.InTracker() ==> o == NotShown && unchanged(db)
    ensures s.InTracker() ==>
      match ResolveUserId(old(db.users), s.userEmail)
      case None => o == Failed(IdentityUnresolved) && unchanged(db)
      case Some(uid) =>
        if amount == 0 || category == "" then
          o == Failed(MissingFields) && unchanged(db)
        else
          && o == Done
          && db.expenses == old(db.expenses) + [Expense(old(db.nextExpenseId), uid, amount, category, date, description)]
          && db.users == old(db.users) && db.budgets == old(db.budgets)
  {
    if !s.InTracker() {
      return NotShown;
    }
    match ResolveUserId(db.users, s.userEmail)
    case None =>
      o := Failed(IdentityUnresolved);
    case Some(uid) =>
      if amount == 0 || category == "" {
        return Failed(MissingFields);
      }
      ghost var u :| u in db.users && u.id == uid;
      var _ := db.InsertExpense(uid, amount, category, date, description);
      o := Done;
  }

  /** The Add Budget button of the Budgets menu. */
  method AddBudget(s: Session, db: Database, amount: nat, period: Period, startDate: Date, endDate: Date)
    returns (o: Outcome)
    requires db.Valid()
    modifies db
    ensures db.Valid()
    ensures !s.InTracker() ==> o == NotShown && unchanged(db)
    ensures s.InTracker() ==>
      match ResolveUserId(old(db.users), s.userEmail)
      case None => o == Failed(IdentityUnresolved) && unchanged(db)
      case Some(uid) =>
        if amount == 0 then
          o == Failed(MissingFields) && unchanged(db)
        else
          && o == Done
          && db.budgets == old(db.budgets) + [Budget(old(db.nextBudgetId), uid, amount, period, startDate, endDate)]
          && db.users == old(db.users) && db.expenses == old(db.expenses)
  {
    if !s.InTracker() {
      return NotShown;
    }
    match ResolveUserId(db.users, s.userEmail)
    case None =>
      o := Failed(IdentityUnresolved);
    case Some(uid) =>
      if amount == 0 {
        return Failed(MissingFields);
      }
      ghost var u :| u in db.users && u.id == uid;
      var _ := db.InsertBudget(uid, amount, period, startDate, endDate);
      o := Done;
  }

  /** The Users menu. */
  function UsersView(s: Session, db: Database): (v: View<UserInfo>)
    reads s, db
    ensures v.Hidden? <==> !s.InTracker()
    ensures !v.Unresolved?
    ensures v.Shown? && s.role == Admin ==>
      |v.rows| == |db.users| && forall i :: 0 <= i < |v.rows| ==> v.rows[i] == Info(db.users[i])
    ensures v.Shown? && s.role == Regular ==>
      && (forall x :: x in v.rows ==> Some(x.email) == s.userEmail)
      && (forall u :: u in db.users && Some(u.email) == s.userEmail ==> Info(u) in v.rows)
      && (forall x :: multiset(v.rows)[x] ==
            if Some(x.email) == s.userEmail then multiset(Project(db.users))[x] else 0)
    ensures v.Shown? ==> forall x :: x in v.rows ==> exists u :: u in db.users && Info(u) == x
  {
    if !s.InTracker() then Hidden else Shown(ListUsers(db.users, s.role, s.userEmail))
  }

  /** The Expenses menu's list (after any Add Expense of the same press). */
  function ExpensesView(s: Session, db: Database): (v: View<Expense>)
    reads s, db
    ensures v.Hidden? <==> !s.InTracker()
    ensures v.Unresolved? <==> s.InTracker() && forall u :: u in db.users ==> Some(u.email) != s.userEmail
    ensures v.Shown? && s.role == Admin ==> v.rows == db.expenses
    ensures v.Shown? && s.role == Regular ==>
      exists u :: u in db.users && Some(u.email) == s.userEmail
        && (forall e :: e in v.rows <==> e in db.expenses && e.userId == u.id)
        && (forall e :: multiset(v.rows)[e] == if e.userId == u.id then multiset(db.expenses)[e] else 0)
  {
    if !s.InTracker() then Hidden
    else
      match ResolveUserId(db.users, s.userEmail)
      case None => Unresolved
      case Some(uid) => Shown(ListExpenses(db.expenses, s.role, uid))
  }

  /** The Budgets menu's list (after any Add Budget of the same press). */
  function BudgetsView(s: Session, db: Database): (v: View<Budget>)
    reads s, db
    ensures v.Hidden? <==> !s.InTracker()
    ensures v.Unresolved? <==> s.InTracker() && forall u :: u in db.users ==> Some(u.email) != s.userEmail
    ensures v.Shown? && s.role == Admin ==> v.rows == db.budgets
    ensures v.Shown? && s.role == Regular ==>
      exists u :: u in db.users && Some(u.email) == s.userEmail
        && (forall b :: b in v.rows <==> b in db.budgets && b.userId == u.id)
        && (forall b :: multiset(v.rows)[b] == if b.userId == u.id then multiset(db.budgets)[b] else 0)
  {
    if !s.InTracker() then Hidden
    else
      match ResolveUserId(db.users, s.userEmail)
      case None => Unresolved
      case Some(uid) => Shown(ListBudgets(db.budgets, s.role, uid))
  }

  // ---------------------------------------------------------------------------
  // Role scoping at the level of a session

  /**
   A non-admin session lists exactly the expenses whose owning account has
   the session's email.
   */
  lemma RegularSeesExactlyOwnExpenses(s: Session, db: Database)
    requires db.Valid()
    requires s.role == Regular && ExpensesView(s, db).Shown?
    ensures forall e :: e in ExpensesView(s, db).rows <==>
      e in db.expenses && exists owner :: owner in db.users && owner.id == e.userId && Some(owner.email) == s.userEmail
  {
    var rows := ExpensesView(s, db).rows;
    var u :| u in db.users && Some(u.email) == s.userEmail
      && forall e :: e in rows <==> e in db.expenses && e.userId == u.id;
    forall e | e in db.expenses && (exists owner :: owner in db.users && owner.id == e.userId && Some(owner.email) == s.userEmail)
      ensures e in rows
    {
      var owner :| owner in db.users && owner.id == e.userId && Some(owner.email) == s.userEmail;
      EmailIdentifiesAccount(db.users, u, owner);
    }
  }

  /**
   A non-admin session lists exactly the budgets whose owning account has
   the session's email.
   */
  lemma RegularSeesExactlyOwnBudgets(s: Session, db: Database)
    requires db.Valid()
    requires s.role == Regular && BudgetsView(s, db).Shown?
    ensures forall b :: b in BudgetsView(s, db).rows <==>
      b in db.budgets && exists owner :: owner in db.users && owner.id == b.userId && Some(owner.email) == s.userEmail
  {
    var rows := BudgetsView(s, db).rows;
    var u :| u in db.users && Some(u.email) == s.userEmail
      && forall b :: b in rows <==> b in db.budgets && b.userId == u.id;
    forall b | b in db.budgets && (exists owner :: owner in db.users && owner.id == b.userId && Some(owner.email) == s.userEmail)
      ensures b in rows
    {
      var owner :| owner in db.users && owner.id == b.userId && Some(owner.email) == s.userEmail;
      EmailIdentifiesAccount(db.users, u, owner);
    }
  }

  // ---------------------------------------------------------------------------
  // Clients of the handlers

  /** Register (a mismatch first, then a duplicate), fail a login, then log in. */
  method SignupScenario()
  {
    var root := User(1, "root@x.com", "secret", Admin);
    var db := new Database.Create([root]);
    var alice := new Session();
    var o := GoToSignup(alice);
    RejectedSignups(db, alice, root);
    assert db.users == [root];
    assert CheckRegistration(db.users, "a@x.com", "p1", "p1") == None;
    o := Signup(alice, db, "a@x.com", "p1", "p1");
    var a := User(2, "a@x.com", "p1", Regular);
    assert o == Done && alice.page == LoginPage && db.users == [root, a];

    LoginScenario(db, alice, a);
  }

  /** Continues SignupScenario: a password mismatch and a taken email insert nothing. */
  method RejectedSignups(db: Database, s: Session, root: User)
    requires db.Valid() && root in db.users && root.email != "" && s.page == SignupPage
    modifies s, db
    ensures unchanged(s) && unchanged(db)
  {
    var o := Signup(s, db, "a@x.com", "p1", "p2");
    assert o == Failed(PasswordMismatch);
    o := Signup(s, db, root.email, "p1", "p1");
    assert o == Failed(DuplicateEmail);
  }

  /** Continues SignupScenario: a wrong password is refused, the right one logs in. */
  method LoginScenario(db: Database, s: Session, a: User)
    requires db.Valid() && a in db.users && a.role == Regular
    requires a.email != "" && a.password != "" && a.password != "wrong"
    requires s.page == LoginPage && s.Consistent()
    modifies s
  {
    AuthenticateWrongPassword(db.users, a, "wrong");
    var o := Login(s, db, a.email, "wrong");
    assert o == Failed(InvalidCredentials) && s.page == LoginPage && !s.loggedIn;
    AuthenticateAccount(db.users, a);
    o := Login(s, db, a.email, a.password);
    assert o == Done && s.InTracker() && s.role == Regular && s.Consistent();
  }

  /** One user adds an expense; another user does not see it, an administrator does. */
  method IsolationScenario(day: Date)
  {
    var root := User(1, "root@x.com", "secret", Admin);
    var a := User(2, "a@x.com", "p1", Regular);
    var b := User(3, "b@x.com", "p2", Regular);
    var db := new Database.Create([root, a, b]);

    var food := OwnerAdds(db, a, day);
    OtherUserView(db, b, food);
    AdminView(db, root, food);
  }

  /** Continues IsolationScenario: a user logs in and adds an expense of their own. */
  method OwnerAdds(db: Database, a: User, day: Date) returns (food: Expense)
    requires db.Valid() && a in db.users && a.role == Regular
    requires a.email != "" && a.password != ""
    modifies db
    ensures db.Valid() && db.users == old(db.users) && db.expenses == old(db.expenses) + [food]
    ensures food.userId == a.id
  {
    var alice := new Session();
    AuthenticateAccount(db.users, a);
    var o := Login(alice, db, a.email, a.password);
    ResolveAccount(db.users, a);
    food := Expense(db.nextExpenseId, a.id, 1250, "food", day, "");
    o := AddExpense(alice, db, 1250, "food", day, "");
    assert o == Done;
  }

  /** Continues IsolationScenario: a second user logs in, sees no foreign row, logs out. */
  method OtherUserView(db: Database, b: User, food: Expense)
    requires db.Valid() && b in db.users && b.role == Regular && b.id != food.userId
    requires b.email != "" && b.password != ""
    requires food in db.expenses
  {
    var bob := new Session();
    AuthenticateAccount(db.users, b);
    var o := Login(bob, db, b.email, b.password);
    ResolveAccount(db.users, b);
    assert food !in ExpensesView(bob, db).rows;
    o := Logout(bob);
    assert ExpensesView(bob, db) == Hidden;
  }

  /** Continues IsolationScenario: an administrator logs in and sees every expense. */
  method AdminView(db: Database, root: User, food: Expense)
    requires db.Valid() && root in db.users && root.role == Admin
    requires root.email != "" && root.password != ""
    requires db.expenses == [food]
  {
    var admin := new Session();
    AuthenticateAccount(db.users, root);
    var o := Login(admin, db, root.email, root.password);
    ResolveAccount(db.users, root);
    assert ExpensesView(admin, db) == Shown([food]);
  }
}
