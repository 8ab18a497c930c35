/** The influencer's own dashboard: it admits only an influencer session,
    loads that influencer's row by id and shows points, consumer count and
    profile, each with a fallback for a missing value. */
module InfluencerDashboard {
  import opened Common
  import opened Decimal
  import Json
  import opened Storage
  import opened Database

  /** What the mount effect finds in the session store. */
  datatype SessionCheck =
    | NoSession                         // nothing stored, or the empty string
    | Unreadable                        // text that `JSON.parse` rejects
    | NotInfluencer                     // a record whose `type` is not "influencer"
    | InfluencerSession(session: Json.Object)

  function CheckSession(raw: Option<string>): (c: SessionCheck)
    ensures c.InfluencerSession? ==> Json.GetString(c.session, "type") == Some("influencer")
    ensures c == NoSession <==> raw.None? || raw.value == ""
  {
    if raw.None? || raw.value == "" then NoSession
    else match Json.Parse(raw.value)
      case None => Unreadable
      case Some(s) =>
        if Json.GetString(s, "type") == Some("influencer") then InfluencerSession(s)
        else NotInfluencer
  }

  /** `parsedSession.id` as the query builder writes it into the `id` filter:
      a string as itself, a number as its numeral, a missing member as
      "undefined". */
  function SessionId(session: Json.Object): (id: string)
    ensures Json.GetString(session, "id").Some? ==> id == Json.GetString(session, "id").value
    ensures Json.Get(session, "id").None? ==> id == "undefined"
  {
    var member := Json.Get(session, "id");
    if member.None? then "undefined"
    else if member.value.JString? then member.value.str
    else IntToString(member.value.num)
  }

  const NotSpecified: string := "Not specified"

  /** `points || 0`: zero when the row has not loaded. */
  function DisplayedPoints(data: Option<Influencer>): int
  {
    if data.Some? then data.value.points else 0
  }

  /** `consumer_count || 0` */
  function DisplayedConsumerCount(data: Option<Influencer>): int
  {
    if data.Some? then data.value.consumerCount else 0
  }

  /** `age || "Not specified"`: a null age and an age of 0 both show the fallback. */
  function DisplayedAge(data: Option<Influencer>): (r: string)
    ensures r == NotSpecified <==> data.None? || data.value.age.None? || data.value.age.value == 0
    ensures data.Some? && data.value.age.Some? && data.value.age.value != 0 ==> r == IntToString(data.value.age.value)
  {
    if data.None? then NotSpecified
    else match data.value.age
      case None => NotSpecified
      case Some(a) =>
        if a == 0 then NotSpecified
        else
          var numeral := IntToString(a);
          assert numeral[0] != NotSpecified[0];
          numeral
  }

  /** `location || "Not specified"`, and likewise for `sex`: a null and an
      empty text both show the fallback. */
  function DisplayedText(value: Option<string>): (r: string)
    ensures value.Some? && value.value != "" ==> r == value.value
    ensures value.None? || value.value == "" ==> r == NotSpecified
  {
    if value.None? || value.value == "" then NotSpecified else value.value
  }

  /** Before the row loads, or when it fails to load, the stats show 0 and the
      profile fields the fallback text; once it loads, the stats are its own. */
  lemma DisplayedStats(data: Option<Influencer>)
    ensures data.None? ==>
      && DisplayedPoints(data) == 0 && DisplayedConsumerCount(data) == 0
      && DisplayedAge(data) == NotSpecified && DisplayedText(None) == NotSpecified
    ensures data.Some? ==>
      DisplayedPoints(data) == data.value.points && DisplayedConsumerCount(data) == data.value.consumerCount
  {
  }

  class InfluencerDashboardPage {
    var userSession: Option<Json.Object>
    var influencerData: Option<Influencer>
    var loading: bool

    constructor ()
      ensures userSession == None && influencerData == None && loading
    {
      userSession := None;
      influencerData := None;
      loading := true;
    }

    /** The page shows its "Loading..." screen while `loading` holds. */
    predicate ShowsLoading()
      reads this
    {
      loading
    }

    /** The mount effect. With no session the visitor is sent to sign in, with
        a session of another kind to the home page; in both cases `loading`
        stays set. An influencer session is kept and its row fetched by id:
        found, it is shown; not found, the error toast appears; either way
        loading ends. */
    method OnMount(db: Backend, store: SessionStore) returns (toast: Option<Toast>, nav: Option<Route>)
      modifies this, db`requests
      ensures var c := CheckSession(old(store.GetItem(UserSessionKey)));
        && (c == NoSession ==> nav == Some(LoginRoute))
        && (c == NotInfluencer ==> nav == Some(Home))
        && (!c.InfluencerSession? ==>
              && toast == None && db.requests == old(db.requests)
              && userSession == old(userSession) && influencerData == old(influencerData)
              && loading == old(loading))
        && (c == Unreadable ==> nav == None)
      ensures var c := CheckSession(old(store.GetItem(UserSessionKey)));
        c.InfluencerSession? ==>
          var found := SingleInfluencer(db.influencers, ById(SessionId(c.session)));
          && nav == None && userSession == Some(c.session) && !loading
          && db.requests == old(db.requests) + [SelectInfluencer(ById(SessionId(c.session)))]
          && (found.Some? ==> influencerData == found && toast == None)
          && (found.None? ==> influencerData == old(influencerData) && toast == Some(LoadFailed))
    {
      toast := None;
      nav := None;
      var check := CheckSession(store.GetItem(UserSessionKey));
      match check
      case NoSession =>
        nav := Some(LoginRoute);
      case Unreadable =>
      case NotInfluencer =>
        nav := Some(Home);
      case InfluencerSession(session) =>
        userSession := Some(session);
        var row := db.SelectSingleInfluencer(ById(SessionId(session)));
        if row.Some? {
          influencerData := row;
        } else {
          toast := Some(LoadFailed);
        }
        loading := false;
    }

    /** `handleLogout`: the session is removed and the visitor sent home. */
    method HandleLogout(store: SessionStore) returns (toast: Toast, nav: Route)
      modifies store
      ensures store.items == old(store.items) - {UserSessionKey}
      ensures CheckSession(store.GetItem(UserSessionKey)) == NoSession
      ensures toast == LoggedOut && nav == Home
    {
      store.RemoveItem(UserSessionKey);
      toast := LoggedOut;
      nav := Home;
    }
  }
}
