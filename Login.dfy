/** The sign-in page shared by influencers (by code) and consumers (by name):
    the prefill from a fresh registration, the ordered checks of its submit
    handler, the query each kind of user is looked up by and the session it
    writes. */
module Login {
  import opened Common
  import opened JsString
  import Json
  import opened Storage
  import opened Database

  datatype Field = Identifier | Password | UserType

  /** `identifier` is an influencer code or a consumer's "first last" name;
      `userType` is "influencer" or "consumer". */
  datatype Form = Form(identifier: string, password: string, userType: string)

  const InitialForm := Form("", "", "consumer")

  /** The named field takes the value and every other field keeps its own. */
  function WithField(f: Form, field: Field, value: string): (g: Form)
    ensures field == Identifier ==> g == f.(identifier := value)
    ensures field == Password ==> g == f.(password := value)
    ensures field == UserType ==> g == f.(userType := value)
  {
    match field
    case Identifier => f.(identifier := value)
    case Password => f.(password := value)
    case UserType => f.(userType := value)
  }

  /** The form a parsed `registeredUser` record leaves: an influencer record
      selects the influencer tab and fills in its code, a consumer record
      selects the consumer tab and fills in its name, anything else changes
      nothing. */
  function Prefill(f: Form, user: Json.Object): (g: Form)
    ensures g.password == f.password
    ensures Json.GetString(user, "type") == Some("influencer") && Json.GetString(user, "code").Some? ==>
      g == f.(userType := "influencer", identifier := Json.GetString(user, "code").value)
    ensures Json.GetString(user, "type") == Some("consumer") && Json.GetString(user, "name").Some? ==>
      g == f.(userType := "consumer", identifier := Json.GetString(user, "name").value)
    ensures Json.GetString(user, "type") != Some("influencer") && Json.GetString(user, "type") != Some("consumer") ==>
      g == f
  {
    match Json.GetString(user, "type")
    case Some(t) =>
      if t == "influencer" then
        match Json.GetString(user, "code")
        case Some(c) => f.(userType := "influencer", identifier := c)
        case None => f.(userType := "influencer")
      else if t == "consumer" then
        match Json.GetString(user, "name")
        case Some(n) => f.(userType := "consumer", identifier := n)
        case None => f.(userType := "consumer")
      else f
    case None => f
  }

  /** The required-fields check: identifier and password must each hold
      something besides white space. */
  predicate LacksCredentials(f: Form)
  {
    IsBlank(f.identifier) || IsBlank(f.password)
  }

  /** The influencer lookup: the code typed, upper-cased but not trimmed, and
      the password exactly as typed. */
  function InfluencerLoginQuery(f: Form): InfluencerQuery
  {
    ByCodeAndPassword(ToUpper(f.identifier), f.password)
  }

  /** `identifier.split(' ')[0]` */
  function FirstNamePart(identifier: string): string
  {
    Split(identifier, ' ')[0]
  }

  /** `identifier.split(' ')[1] || ''` */
  function LastNamePart(identifier: string): string
  {
    var parts := Split(identifier, ' ');
    if |parts| >= 2 then parts[1] else ""
  }

  /** The consumer lookup: the identifier's first two space-separated parts as
      first and last name, and the password exactly as typed. */
  function ConsumerLoginQuery(f: Form): (q: ConsumerQuery)
    ensures ' ' !in q.firstName && ' ' !in q.lastName
  {
    ByNameAndPassword(FirstNamePart(f.identifier), LastNamePart(f.identifier), f.password)
  }

  /** The `userSession` record of a signed-in influencer. */
  function InfluencerSession(r: Influencer): Json.Object
  {
    [ ("type", Json.JString("influencer")), ("id", Json.JString(r.id)),
      ("name", Json.JString(r.firstName + " " + r.lastName)),
      ("code", Json.JString(r.code)), ("points", Json.JNumber(r.points)) ]
  }

  /** The `userSession` record of a signed-in consumer. */
  function ConsumerSession(r: Consumer): Json.Object
  {
    [ ("type", Json.JString("consumer")), ("id", Json.JString(r.id)),
      ("name", Json.JString(r.firstName + " " + r.lastName)),
      ("redeemedCount", Json.JNumber(r.redeemedCodesCount)) ]
  }

  /** A two-word name splits into its two words. */
  lemma NameParts(first: string, last: string)
    requires ' ' !in first && ' ' !in last
    ensures FirstNamePart(first + " " + last) == first
    ensures LastNamePart(first + " " + last) == last
  {
    SplitAtFirstSeparator(first, last, ' ');
    SplitWithoutSeparator(last, ' ');
  }

  /** A one-word name is all first name; the last name looked up is empty. */
  lemma SingleWordName(first: string)
    requires ' ' !in first
    ensures FirstNamePart(first) == first && LastNamePart(first) == ""
  {
    SplitWithoutSeparator(first, ' ');
  }

  /** Everything after the second space is ignored: "Ann Lee Smith" is looked
      up as first name "Ann", last name "Lee". */
  lemma ExtraNamePartsIgnored(first: string, last: string, more: string)
    requires ' ' !in first && ' ' !in last
    ensures FirstNamePart(first + " " + last + " " + more) == first
    ensures LastNamePart(first + " " + last + " " + more) == last
  {
    SplitAtFirstSeparator(first, last + " " + more, ' ');
    SplitAtFirstSeparator(last, more, ' ');
    assert first + " " + last + " " + more == first + [' '] + (last + [' '] + more);
  }

  /** With codes unique in the table, an influencer sign-in finds a row exactly
      when some row carries the upper-cased typed code and the typed password. */
  lemma InfluencerLoginFinds(rows: seq<Influencer>, f: Form)
    requires UniqueCodes(rows)
    ensures SingleInfluencer(rows, InfluencerLoginQuery(f)).Some? <==>
      exists i :: 0 <= i < |rows| && rows[i].code == ToUpper(f.identifier) && rows[i].password == Some(f.password)
  {
    var q := InfluencerLoginQuery(f);
    if i :| 0 <= i < |rows| && rows[i].code == ToUpper(f.identifier) && rows[i].password == Some(f.password) {
      forall j | 0 <= j < |rows| && j != i
        ensures !InfluencerMatches(q, rows[j])
      {
        assert rows[j].code != rows[i].code;
      }
      OneInfluencerMatches(rows, q, i);
    }
  }

  /** A stored code carries no white space at its ends (registration trims it),
      so a typed code with white space in front never signs in. */
  lemma PaddedCodeNeverSignsIn(rows: seq<Influencer>, f: Form)
    requires forall i :: 0 <= i < |rows| ==> Trim(rows[i].code) == rows[i].code
    requires |f.identifier| > 0 && IsWhiteSpace(f.identifier[0])
    ensures SingleInfluencer(rows, InfluencerLoginQuery(f)) == None
  {
    var key := ToUpper(f.identifier);
    assert IsWhiteSpace(key[0]);
    assert Trim(key) != key;
    NoInfluencerMatches(rows, InfluencerLoginQuery(f));
  }

  class LoginPage {
    var form: Form
    var loading: bool

    constructor ()
      ensures form == InitialForm && !loading
    {
      form := InitialForm;
      loading := false;
    }

    /** The mount effect: a non-empty `registeredUser` record is parsed, used
        to prefill the form, and removed. A record that does not parse stops
        the effect before anything changes. */
    method OnMount(store: SessionStore)
      modifies this`form, store
      ensures var raw := old(store.GetItem(RegisteredUserKey));
        if raw.Some? && raw.value != "" && Json.Parse(raw.value).Some? then
          form == Prefill(old(form), Json.Parse(raw.value).value) &&
          store.items == old(store.items) - {RegisteredUserKey}
        else
          form == old(form) && store.items == old(store.items)
    {
      var raw := store.GetItem(RegisteredUserKey);
      if raw.Some? && raw.value != "" {
        var user := Json.Parse(raw.value);
        if user.Some? {
          form := Prefill(form, user.value);
          store.RemoveItem(RegisteredUserKey);
        }
      }
    }

    /** `handleInputChange` */
    method HandleInputChange(field: Field, value: string)
      modifies this`form
      ensures form == WithField(old(form), field, value)
    {
      form := WithField(form, field, value);
    }

    /** `handleLogin`: one lookup, by code for the influencer tab and by name
        for any other; a match writes the session and moves on, no match
        leaves the session store as it was. */
    method HandleLogin(db: Backend, store: SessionStore) returns (toast: Toast, nav: Option<Route>)
      modifies this`loading, db`requests, store
      ensures LacksCredentials(form) ==>
        && toast == MissingInformation && nav == None && loading == old(loading)
        && db.requests == old(db.requests) && store.items == old(store.items)
      ensures !LacksCredentials(form) && form.userType == "influencer" ==>
        var found := SingleInfluencer(db.influencers, InfluencerLoginQuery(form));
        && !loading
        && db.requests == old(db.requests) + [SelectInfluencer(InfluencerLoginQuery(form))]
        && (found.Some? ==>
              && toast == WelcomeBack && nav == Some(InfluencerDashboardRoute)
              && store.items == old(store.items)[UserSessionKey := Json.Stringify(InfluencerSession(found.value))])
        && (found.None? ==>
              toast == InvalidCredentials && nav == None && store.items == old(store.items))
      ensures !LacksCredentials(form) && form.userType != "influencer" ==>
        var found := SingleConsumer(db.consumers, ConsumerLoginQuery(form));
        && !loading
        && db.requests == old(db.requests) + [SelectConsumer(ConsumerLoginQuery(form))]
        && (found.Some? ==>
              && toast == WelcomeBack && nav == Some(Home)
              && store.items == old(store.items)[UserSessionKey := Json.Stringify(ConsumerSession(found.value))])
        && (found.None? ==>
              toast == InvalidCredentials && nav == None && store.items == old(store.items))
    {
      nav := None;
      if IsBlank(form.identifier) || IsBlank(form.password) {
        toast := MissingInformation;
        return;
      }
      loading := true;
      if form.userType == "influencer" {
        var influencer := db.SelectSingleInfluencer(InfluencerLoginQuery(form));
        if influencer.None? {
          toast := InvalidCredentials;
          loading := false;
          return;
        }
        var session := Json.Stringify(InfluencerSession(influencer.value));
        store.SetItem(UserSessionKey, session);
        toast := WelcomeBack;
        nav := Some(InfluencerDashboardRoute);
      } else {
        var consumer := db.SelectSingleConsumer(ConsumerLoginQuery(form));
        if consumer.None? {
          toast := InvalidCredentials;
          loading := false;
          return;
        }
        var session := Json.Stringify(ConsumerSession(consumer.value));
        store.SetItem(UserSessionKey, session);
        toast := WelcomeBack;
        nav := Some(Home);
      }
      loading := false;
    }
  }
}
