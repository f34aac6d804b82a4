/**
 * The sign-in dialog (components/LoginModal.tsx): two fixed credential
 * pairs, each mapped to a role; any other pair is refused with an error.
 */
module LoginModal {

  import opened Seqs
  import opened Types
  import opened App

  /** The message shown for a refused pair. */
  const WrongCredentials: string := "Username atau password salah!"

  /** The role a credential pair signs in as, if any: admin/admin or manager/manager, nothing else. */
  function Authenticate(username: string, password: string): (r: Option<UserRole>)
    ensures r == Some(Admin) <==> username == "admin" && password == "admin"
    ensures r == Some(Manager) <==> username == "manager" && password == "manager"
    ensures r.None? <==> !(username == "admin" && password == "admin") && !(username == "manager" && password == "manager")
    ensures r != Some(SignedOut)
  {
    if username == "admin" && password == "admin" then Some(Admin)
    else if username == "manager" && password == "manager" then Some(Manager)
    else None
  }

  class LoginForm {
    var username: string
    var password: string
    var error: string
    var isLoading: bool

    constructor ()
      ensures username == "" && password == "" && error == "" && !isLoading
    {
      username := "";
      password := "";
      error := "";
      isLoading := false;
    }

    /**
     * `handleSubmit`, with the delayed callback taken as one atomic step. The
     * error is cleared and loading set first. A known pair signs the store in
     * as its role and empties both fields; loading is left on, since the
     * dialog closes. Any other pair leaves the store alone, shows the error
     * and stops loading.
     */
    method HandleSubmit(store: Store)
      modifies this`username, this`password, this`error, this`isLoading
      modifies store`userRole, store`isLoginOpen, store`currentView
      ensures match Authenticate(old(username), old(password))
        case Some(role) =>
          && store.userRole == role && !store.isLoginOpen && store.currentView == AdminView
          && username == "" && password == "" && error == "" && isLoading
        case None =>
          && unchanged(store)
          && username == old(username) && password == old(password)
          && error == WrongCredentials && !isLoading
    {
      error := "";
      isLoading := true;
      var role := Authenticate(username, password);
      match role
      case Some(r) =>
        store.LoginSuccess(r);
        username := "";
        password := "";
      case None =>
        error := WrongCredentials;
        isLoading := false;
    }
  }
}
