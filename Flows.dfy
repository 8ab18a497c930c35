/** Properties that span pages: what one page leaves in the session store or
    the tables, and what the next page makes of it. */
module Flows {
  import opened Common
  import opened JsString
  import Json
  import opened Storage
  import opened Database
  import IR = InfluencerRegistration
  import CR = ConsumerRegistration
  import Login
  import Auth
  import Admin
  import Dashboard = InfluencerDashboard

  /** Whatever a page writes with `JSON.stringify` is non-empty and parses
      back to the same record. */
  lemma ReadsBack(o: Json.Object)
    ensures Json.Stringify(o) != "" && Json.Parse(Json.Stringify(o)) == Some(o)
  {
    Json.ParseStringify(o);
  }

  /** The influencer hand-off record switches the login page to the influencer
      tab with the upper-cased code. */
  lemma InfluencerPrefill(f: IR.Form, g: Login.Form)
    ensures Login.Prefill(g, IR.HandOff(f)) == g.(userType := "influencer", identifier := ToUpper(f.code))
  {
    var o := IR.HandOff(f);
    assert "code" != "type" by { assert "code"[0] != "type"[0]; }
    Json.GetAt(o, 0, "type");
    Json.GetAt(o, 1, "code");
  }

  /** The influencer hand-off survives the store: the login page parses it
      back and prefills from it. */
  lemma InfluencerHandOffPrefills(f: IR.Form, g: Login.Form)
    ensures var raw := Json.Stringify(IR.HandOff(f));
      && raw != ""
      && Json.Parse(raw) == Some(IR.HandOff(f))
      && Login.Prefill(g, Json.Parse(raw).value) == g.(userType := "influencer", identifier := ToUpper(f.code))
  {
    ReadsBack(IR.HandOff(f));
    InfluencerPrefill(f, g);
  }

  /** The consumer hand-off record selects the consumer tab with "first last". */
  lemma ConsumerPrefill(f: CR.Form, g: Login.Form)
    ensures Login.Prefill(g, CR.HandOff(f)) == g.(userType := "consumer", identifier := f.firstName + " " + f.lastName)
  {
    var o := CR.HandOff(f);
    assert "name" != "type" by { assert "name"[0] != "type"[0]; }
    Json.GetAt(o, 0, "type");
    Json.GetAt(o, 1, "name");
  }

  /** The consumer hand-off survives the store likewise. */
  lemma ConsumerHandOffPrefills(f: CR.Form, g: Login.Form)
    ensures var raw := Json.Stringify(CR.HandOff(f));
      && raw != ""
      && Json.Parse(raw) == Some(CR.HandOff(f))
      && Login.Prefill(g, Json.Parse(raw).value) == g.(userType := "consumer", identifier := f.firstName + " " + f.lastName)
  {
    ReadsBack(CR.HandOff(f));
    ConsumerPrefill(f, g);
  }

  /** Every row the registration page inserts has a code with nothing to trim. */
  predicate CodesTrimmed(rows: seq<Influencer>)
  {
    forall i :: 0 <= i < |rows| ==> Trim(rows[i].code) == rows[i].code
  }

  lemma RegisteredRowKeepsCodesTrimmed(rows: seq<Influencer>, f: IR.Form, id: string, createdAt: string)
    requires CodesTrimmed(rows)
    ensures CodesTrimmed(rows + [IR.NewInfluencerRow(f, id, createdAt)])
  {
    var row := IR.NewInfluencerRow(f, id, createdAt);
    IR.StoredCodeNormalised(f, id, createdAt);
    var all := rows + [row];
    forall k | 0 <= k < |all| ensures Trim(all[k].code) == all[k].code {
      if k < |rows| { assert all[k] == rows[k]; } else { assert all[k] == row; }
    }
  }

  /** A code typed with white space in front registers under its trimmed form,
      but the login page is prefilled with the untrimmed form, which then
      finds no row: the prefilled sign-in fails whatever the password. */
  lemma PaddedCodePrefillFails(rows: seq<Influencer>, f: IR.Form, g: Login.Form)
    requires CodesTrimmed(rows)
    requires |f.code| > 0 && IsWhiteSpace(f.code[0])
    ensures var h := Login.Prefill(g, IR.HandOff(f));
      SingleInfluencer(rows, Login.InfluencerLoginQuery(h)) == None
  {
    InfluencerPrefill(f, g);
    var h := Login.Prefill(g, IR.HandOff(f));
    Login.PaddedCodeNeverSignsIn(rows, h);
  }

  /** A code typed without surrounding white space registers under the
      upper-cased code, and with codes unique the prefilled sign-in with the
      registered password finds exactly that row. */
  lemma CleanCodePrefillSignsIn(rows: seq<Influencer>, i: nat, f: IR.Form, g: Login.Form, id: string, createdAt: string)
    requires UniqueCodes(rows) && i < |rows|
    requires rows[i] == IR.NewInfluencerRow(f, id, createdAt)
    requires Trim(f.code) == f.code
    ensures var h := Login.Prefill(g, IR.HandOff(f)).(password := f.password);
      SingleInfluencer(rows, Login.InfluencerLoginQuery(h)) == Some(rows[i])
  {
    InfluencerPrefill(f, g);
    var h := Login.Prefill(g, IR.HandOff(f)).(password := f.password);
    var q := Login.InfluencerLoginQuery(h);
    assert h.identifier == ToUpper(f.code);
    ToUpperIdempotent(f.code);
    assert q == ByCodeAndPassword(ToUpper(f.code), f.password);
    assert rows[i].code == ToUpper(f.code) && rows[i].password == Some(f.password);
    forall j | 0 <= j < |rows| && j != i
      ensures !InfluencerMatches(q, rows[j])
    {
      assert rows[j].code != rows[i].code;
    }
    OneInfluencerMatches(rows, q, i);
  }

  /** A consumer whose first or last name, once trimmed, still holds a space
      is stored with that space, but the login page splits the typed name at
      every space, so no typed identifier ever matches that row. */
  lemma SpacedNameNeverSignsIn(f: CR.Form, id: string, createdAt: string, h: Login.Form)
    requires ' ' in Trim(f.firstName) || ' ' in Trim(f.lastName)
    ensures !ConsumerMatches(Login.ConsumerLoginQuery(h), CR.NewConsumerRow(f, id, createdAt))
  {
  }

  /** Two consumer rows with the same name and password: the login query
      cannot tell them apart. */
  predicate SameCredentials(a: Consumer, b: Consumer)
  {
    a.firstName == b.firstName && a.lastName == b.lastName && a.password == b.password
  }

  /** For single-word names with nothing to trim, the prefilled sign-in with
      the registered password matches the registered row, and `.single()`
      returns it exactly when no other consumer shares its name and password. */
  lemma PlainNamePrefillSignsIn(rows: seq<Consumer>, i: nat, f: CR.Form, g: Login.Form, id: string, createdAt: string)
    requires ' ' !in f.firstName && ' ' !in f.lastName
    requires Trim(f.firstName) == f.firstName && Trim(f.lastName) == f.lastName
    requires i < |rows| && rows[i] == CR.NewConsumerRow(f, id, createdAt)
    ensures var q := Login.ConsumerLoginQuery(Login.Prefill(g, CR.HandOff(f)).(password := f.password));
      && ConsumerMatches(q, rows[i])
      && (SingleConsumer(rows, q) == Some(rows[i]) <==>
            forall j :: 0 <= j < |rows| && j != i ==> !SameCredentials(rows[j], rows[i]))
  {
    ConsumerPrefill(f, g);
    Login.NameParts(f.firstName, f.lastName);
    var q := Login.ConsumerLoginQuery(Login.Prefill(g, CR.HandOff(f)).(password := f.password));
    assert ConsumerMatches(q, rows[i]);
    if forall j :: 0 <= j < |rows| && j != i ==> !SameCredentials(rows[j], rows[i]) {
      OneConsumerMatches(rows, q, i);
    } else {
      var j :| 0 <= j < |rows| && j != i && SameCredentials(rows[j], rows[i]);
      if i < j {
        TwoConsumersMatch(rows, q, i, j);
      } else {
        TwoConsumersMatch(rows, q, j, i);
      }
    }
  }

  /** The influencer session record reads back its type and id. */
  lemma InfluencerSessionFields(r: Influencer)
    ensures Json.GetString(Login.InfluencerSession(r), "type") == Some("influencer")
    ensures Json.GetString(Login.InfluencerSession(r), "id") == Some(r.id)
  {
    var o := Login.InfluencerSession(r);
    assert "code" != "type" by { assert "code"[0] != "type"[0]; }
    assert "name" != "type" by { assert "name"[0] != "type"[0]; }
    Json.GetAt(o, 0, "type");
    Json.GetAt(o, 1, "id");
  }

  /** The session an influencer sign-in writes passes the dashboard's check,
      which then fetches the row by the signed-in influencer's id. */
  lemma InfluencerSessionOpensDashboard(r: Influencer)
    ensures var c := Dashboard.CheckSession(Some(Json.Stringify(Login.InfluencerSession(r))));
      && c == Dashboard.InfluencerSession(Login.InfluencerSession(r))
      && Json.GetString(c.session, "id") == Some(r.id)
      && Dashboard.SessionId(c.session) == r.id
  {
    ReadsBack(Login.InfluencerSession(r));
    InfluencerSessionFields(r);
  }

  /** The consumer session record reads back as type "consumer". */
  lemma ConsumerSessionType(r: Consumer)
    ensures Json.GetString(Login.ConsumerSession(r), "type") == Some("consumer")
  {
    var o := Login.ConsumerSession(r);
    assert "name" != "type" by { assert "name"[0] != "type"[0]; }
    Json.GetAt(o, 0, "type");
  }

  /** The session a consumer sign-in writes sends the dashboard to the home page. */
  lemma ConsumerSessionLeavesDashboard(r: Consumer)
    ensures Dashboard.CheckSession(Some(Json.Stringify(Login.ConsumerSession(r)))) == Dashboard.NotInfluencer
  {
    ReadsBack(Login.ConsumerSession(r));
    ConsumerSessionType(r);
    assert "consumer" != "influencer" by { assert "consumer"[0] != "influencer"[0]; }
  }

  /** Signing in as admin and then opening the admin page authenticates it;
      logging out and opening it again sends the visitor back to sign in. */
  method AdminSession(auth: Auth.AuthPage, first: Admin.AdminPage, second: Admin.AdminPage, store: SessionStore)
    returns (signIn: Option<Route>, gate: Option<Route>, reopened: Option<Route>)
    requires auth.username == "admin" && auth.password == "admin"
    requires !second.isAuthenticated
    requires first != second
    modifies auth`loading, first, second, store
    ensures signIn == Some(AdminRoute) && gate == None && first.isAuthenticated
    ensures reopened == Some(AuthRoute) && !second.Renders()
  {
    var toast;
    toast, signIn := auth.HandleLogin(store);
    gate := first.CheckAuth(store);
    var logoutToast, next := first.HandleLogout(store);
    reopened := second.CheckAuth(store);
  }
}
