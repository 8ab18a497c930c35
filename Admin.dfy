/** The admin page's gate: it shows its three tabs (rankings, influencers,
    product codes) only once the `isAdmin` flag reads "true". */
module Admin {
  import opened Common
  import opened Storage

  /** The gate the mount effect applies to the stored flag. */
  predicate Admits(flag: Option<string>)
  {
    flag == Some("true")
  }

  /** Only the exact text "true" opens the gate: a missing flag, "TRUE" and
      "true " do not. */
  lemma OnlyTrueAdmits(flag: Option<string>)
    ensures Admits(flag) <==> flag.Some? && flag.value == "true"
    ensures !Admits(None) && !Admits(Some("TRUE")) && !Admits(Some("true "))
  {
    assert "TRUE"[0] != "true"[0];
    assert |"true "| != |"true"|;
  }

  class AdminPage {
    var isAuthenticated: bool

    constructor ()
      ensures !isAuthenticated
    {
      isAuthenticated := false;
    }

    /** The page renders nothing until authenticated. */
    predicate Renders()
      reads this
    {
      isAuthenticated
    }

    /** `checkAuth`: the flag "true" authenticates the page; anything else
        sends the visitor to the sign-in page and leaves the page blank. */
    method CheckAuth(store: SessionStore) returns (nav: Option<Route>)
      modifies this
      ensures Admits(store.GetItem(IsAdminKey)) ==> isAuthenticated && nav == None
      ensures !Admits(store.GetItem(IsAdminKey)) ==>
        isAuthenticated == old(isAuthenticated) && nav == Some(AuthRoute)
    {
      var admin := store.GetItem(IsAdminKey);
      if admin == Some("true") {
        isAuthenticated := true;
        nav := None;
      } else {
        nav := Some(AuthRoute);
      }
    }

    /** `handleLogout`: the flag is removed and the visitor sent to sign in
        again; the page's own state is left for the unmount to discard. */
    method HandleLogout(store: SessionStore) returns (toast: Toast, nav: Route)
      modifies store
      ensures store.items == old(store.items) - {IsAdminKey}
      ensures !Admits(store.GetItem(IsAdminKey))
      ensures toast == LoggedOut && nav == AuthRoute
    {
      store.RemoveItem(IsAdminKey);
      toast := LoggedOut;
      nav := AuthRoute;
    }
  }
}
