/**
 The per-connection session: whether someone is logged in, as which email
 and role, and which of the three pages is shown.
 */
module Navigator {
  import opened Tables

  datatype Page = LoginPage | SignupPage | TrackerPage

  class Session {
    var loggedIn: bool
    var userEmail: Option<string>
    var role: Role
    var page: Page

    /** A fresh connection: logged out, no email, role 'user', on the login page. */
    constructor ()
      ensures !loggedIn && userEmail == None && role == Regular && page == LoginPage
      ensures Consistent()
    {
      loggedIn := false;
      userEmail := None;
      role := Regular;
      page := LoginPage;
    }

    /** The condition under which the tracker page renders anything at all. */
    predicate InTracker()
      reads this
    {
      loggedIn && page == TrackerPage
    }

    /**
     The states the buttons can reach from a fresh session: the tracker page
     is shown exactly while someone is logged in, an email is held exactly
     then, and a logged-out session has role 'user'.
     */
    ghost predicate Consistent()
      reads this
    {
      && (loggedIn <==> page == TrackerPage)
      && (loggedIn <==> userEmail.Some?)
      && (!loggedIn ==> role == Regular)
    }

    /** Sets the page and nothing else. */
    method NavigateTo(p: Page)
      modifies this
      ensures page == p
      ensures loggedIn == old(loggedIn) && userEmail == old(userEmail) && role == old(role)
    {
      page := p;
    }
  }
}
