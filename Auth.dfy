/** The admin sign-in page: one fixed username and password, checked without
    trimming; success leaves the `isAdmin` flag in the session store. */
module Auth {
  import opened Common
  import opened Storage

  /** The only credentials the page accepts. */
  const AdminUsername: string := "admin"
  const AdminPassword: string := "admin"

  /** The toast `handleLogin` shows: both fields must be non-empty (white space
      counts as content here); then both must equal the fixed credentials. */
  function AdminVerdict(username: string, password: string): Toast
  {
    if username == "" || password == "" then MissingCredentials
    else if username == AdminUsername && password == AdminPassword then WelcomeBack
    else InvalidCredentials
  }

  /** Exactly one pair of credentials signs in, and every other non-empty pair
      is refused; nothing is trimmed, so " admin" is refused too. */
  lemma AdminVerdictCases(username: string, password: string)
    ensures AdminVerdict(username, password) == WelcomeBack <==> username == "admin" && password == "admin"
    ensures AdminVerdict(username, password) == MissingCredentials <==> username == "" || password == ""
    ensures AdminVerdict(" admin", "admin") == InvalidCredentials
  {
    assert " admin" != "admin" by {
      assert |" admin"| == 6;
    }
  }

  class AuthPage {
    var username: string
    var password: string
    var loading: bool

    constructor ()
      ensures username == "" && password == "" && !loading
    {
      username := "";
      password := "";
      loading := false;
    }

    method SetUsername(value: string)
      modifies this`username
      ensures username == value
    {
      username := value;
    }

    method SetPassword(value: string)
      modifies this`password
      ensures password == value
    {
      password := value;
    }

    /** `handleLogin`, with the delayed check run to completion. Success sets
        `isAdmin` to "true" and moves to the admin page; a refusal writes
        nothing. The emptiness check returns before `loading` is touched. */
    method HandleLogin(store: SessionStore) returns (toast: Toast, nav: Option<Route>)
      modifies this`loading, store
      ensures toast == AdminVerdict(username, password)
      ensures toast == WelcomeBack ==>
        store.items == old(store.items)[IsAdminKey := "true"] && nav == Some(AdminRoute)
      ensures toast != WelcomeBack ==> store.items == old(store.items) && nav == None
      ensures loading == (if toast == MissingCredentials then old(loading) else false)
    {
      nav := None;
      if username == "" || password == "" {
        toast := MissingCredentials;
        return;
      }
      loading := true;
      if username == AdminUsername && password == AdminPassword {
        store.SetItem(IsAdminKey, "true");
        toast := WelcomeBack;
        nav := Some(AdminRoute);
      } else {
        toast := InvalidCredentials;
      }
      loading := false;
    }
  }
}
