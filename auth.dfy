/**
 The credential check behind the Login button and the registration checks
 behind the Sign Up button, as functions of the `users` table and the form
 fields. The session and table updates that follow them are in module App.
 */
module Auth {
  import opened Tables

  /**
   The Login button: both fields are required; then the first account whose
   email and password both equal the input (compared as plain text) is read
   back as `user_id, email, role`.
   */
  function Authenticate(users: seq<User>, email: string, password: string): (r: Result<UserInfo>)
    ensures email == "" || password == "" ==> r == Err(MissingFields)
    ensures email != "" && password != "" ==>
      (r.Ok? <==> exists u :: u in users && u.email == email && u.password == password)
    ensures email != "" && password != "" && r.Err? ==> r.error == InvalidCredentials
    ensures r.Ok? ==> exists u :: u in users && u.email == email && u.password == password && Info(u) == r.value
  {
    if email == "" || password == "" then Err(MissingFields)
    else
      var rows := Select(users, WithCredentials(email, password));
      if rows == [] then Err(InvalidCredentials)
      else assert rows[0] in rows; Ok(Info(rows[0]))
  }

  /** Where emails are unique, the right password for an account logs in as exactly that account. */
  lemma {:induction false} AuthenticateAccount(users: seq<User>, u: User)
    requires UniqueEmails(users)
    requires u in users && u.email != "" && u.password != ""
    ensures Authenticate(users, u.email, u.password) == Ok(Info(u))
  {
    var i :| 0 <= i < |users| && users[i] == u;
    var keep := WithCredentials(u.email, u.password);
    forall j | 0 <= j < |users| && j != i
      ensures !keep(users[j])
    {
      if keep(users[j]) {
        EmailIdentifiesAccount(users, u, users[j]);
      }
    }
    SelectSingle(users, keep, i);
  }

  /** Where emails are unique, any other password for an existing account is refused. */
  lemma {:induction false} AuthenticateWrongPassword(users: seq<User>, u: User, password: string)
    requires UniqueEmails(users)
    requires u in users && u.email != "" && password != "" && password != u.password
    ensures Authenticate(users, u.email, password) == Err(InvalidCredentials)
  {
    if v :| v in users && v.email == u.email && v.password == password {
      EmailIdentifiesAccount(users, u, v);
    }
  }

  /**
   The Sign Up checks, in the order they are made: `None` means the account
   may be inserted.
   */
  function CheckRegistration(users: seq<User>, email: string, password: string, confirm: string): (r: Option<Failure>)
    ensures password != confirm ==> r == Some(PasswordMismatch)
    ensures password == confirm && (email == "" || password == "") ==> r == Some(MissingFields)
    ensures password == confirm && email != "" && password != "" ==>
      (r == Some(DuplicateEmail) <==> exists u :: u in users && u.email == email)
    ensures r == None <==>
      password == confirm && email != "" && password != "" && forall u :: u in users ==> u.email != email
  {
    if password != confirm then Some(PasswordMismatch)
    else if email == "" || password == "" then Some(MissingFields)
    else
      var existing := Select(users, WithEmail(Some(email)));
      if existing != [] then assert existing[0] in existing; Some(DuplicateEmail)
      else None
  }

  /** An accepted registration keeps emails unique once the new account is appended. */
  lemma {:induction false} RegistrationKeepsEmailsUnique(users: seq<User>, email: string, password: string, confirm: string, id: nat)
    requires UniqueEmails(users)
    requires CheckRegistration(users, email, password, confirm) == None
    ensures UniqueEmails(users + [User(id, email, password, Regular)])
  {
    var users' := users + [User(id, email, password, Regular)];
    forall i, j | 0 <= i < j < |users'|
      ensures users'[i].email != users'[j].email
    {
      if j == |users| {
        assert users'[i] in users;
      } else {
        assert users'[i] == users[i] && users'[j] == users[j];
      }
    }
  }
}
