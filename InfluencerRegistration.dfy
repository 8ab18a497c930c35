/** The influencer sign-up page: its form, the ordered checks of its submit
    handler, the code-uniqueness probe, the row it inserts and the
    `registeredUser` hand-off to the login page. */
module InfluencerRegistration {
  import opened Common
  import opened JsString
  import opened Decimal
  import Json
  import opened Storage
  import opened Database

  datatype Field = FirstName | LastName | Password | Age | Sex | Location | Code

  datatype Form = Form(
    firstName: string,
    lastName: string,
    password: string,
    age: string,
    sex: string,
    location: string,
    code: string)

  const EmptyForm := Form("", "", "", "", "", "", "")

  /** The shortest password the page accepts. */
  const MinPasswordLength := 6

  function FieldValue(f: Form, field: Field): string
  {
    match field
    case FirstName => f.firstName
    case LastName => f.lastName
    case Password => f.password
    case Age => f.age
    case Sex => f.sex
    case Location => f.location
    case Code => f.code
  }

  /** `setFormData(prev => ({ ...prev, [field]: value }))`: the named field takes
      the value and every other field keeps its own. */
  function WithField(f: Form, field: Field, value: string): (g: Form)
    ensures FieldValue(g, field) == value
    ensures forall other :: other != field ==> FieldValue(g, other) == FieldValue(f, other)
  {
    match field
    case FirstName => f.(firstName := value)
    case LastName => f.(lastName := value)
    case Password => f.(password := value)
    case Age => f.(age := value)
    case Sex => f.(sex := value)
    case Location => f.(location := value)
    case Code => f.(code := value)
  }

  /** Some required field (first name, last name, password, code) is empty once trimmed. */
  predicate MissingRequired(f: Form)
  {
    IsBlank(f.firstName) || IsBlank(f.lastName) || IsBlank(f.password) || IsBlank(f.code)
  }

  /** The checks made before any request is sent, in order; the first that
      fails names the toast. */
  function Precheck(f: Form): Option<Toast>
  {
    if MissingRequired(f) then Some(MissingInformation)
    else if |f.password| < MinPasswordLength then Some(PasswordTooShort)
    else None
  }

  /** The required-fields check comes first: it fires exactly when a required
      field trims to the empty string, whatever the password's length. */
  lemma PrecheckMissing(f: Form)
    ensures Precheck(f) == Some(MissingInformation) <==>
      Trim(f.firstName) == "" || Trim(f.lastName) == "" ||
      Trim(f.password) == "" || Trim(f.code) == ""
  {
    BlankFields(f.firstName, f.lastName, f.password, f.code);
  }

  lemma BlankFields(a: string, b: string, c: string, d: string)
    ensures (IsBlank(a) || IsBlank(b) || IsBlank(c) || IsBlank(d)) ==
      (Trim(a) == "" || Trim(b) == "" || Trim(c) == "" || Trim(d) == "")
  {
    BlankIffTrimEmpty(a);
    BlankIffTrimEmpty(b);
    BlankIffTrimEmpty(c);
    BlankIffTrimEmpty(d);
  }

  /** The length rule is reached only once every required field is filled, and
      it counts the untrimmed password. */
  lemma PrecheckPasswordLength(f: Form)
    ensures Precheck(f) == Some(PasswordTooShort) <==> !MissingRequired(f) && |f.password| < 6
    ensures Precheck(f) == None ==> |f.password| >= 6 && !IsBlank(f.code)
  {
  }

  /** The key the uniqueness probe looks up: the untrimmed code, upper-cased. */
  function ProbeCode(f: Form): string
  {
    ToUpper(f.code)
  }

  /** The row inserted into `influencers`; the database supplies `id` and `createdAt`. */
  function NewInfluencerRow(f: Form, id: string, createdAt: string): (row: Influencer)
    ensures row.firstName == Trim(f.firstName) && row.lastName == Trim(f.lastName)
    ensures row.code == ToUpper(Trim(f.code)) && row.password == Some(f.password)
    ensures row.points == 0 && row.consumerCount == 0
    ensures row.sex.None? <==> f.sex == ""
    ensures row.sex.Some? ==> row.sex.value == f.sex
    ensures row.location.None? <==> IsBlank(f.location)
    ensures row.location.Some? ==> row.location.value == Trim(f.location)
    ensures f.age == "" ==> row.age.None?
    ensures f.age != "" ==> row.age == ParseLeadingInt(f.age)
  {
    Influencer(
      id,
      Trim(f.firstName),
      Trim(f.lastName),
      ToUpper(Trim(f.code)),
      0,
      AgeColumn(f.age),
      if f.sex == "" then None else Some(f.sex),
      if IsBlank(f.location) then None else Some(Trim(f.location)),
      0,
      Some(f.password),
      createdAt)
  }

  /** The stored code is normalised: trimming or upper-casing it again changes nothing. */
  lemma StoredCodeNormalised(f: Form, id: string, createdAt: string)
    ensures var c := NewInfluencerRow(f, id, createdAt).code; Trim(c) == c && ToUpper(c) == c
  {
    TrimToUpper(Trim(f.code));
    TrimIdempotent(f.code);
    ToUpperIdempotent(Trim(f.code));
  }

  /** The probe and the insert use different keys exactly when the typed code
      has white space around it. */
  lemma ProbeKeyDiffersWhenPadded(f: Form, id: string, createdAt: string)
    ensures ProbeCode(f) == NewInfluencerRow(f, id, createdAt).code <==> Trim(f.code) == f.code
  {
    TrimToUpper(f.code);
  }

  /** The record written to `registeredUser` on success: the code upper-cased but not trimmed. */
  function HandOff(f: Form): Json.Object
  {
    [("type", Json.JString("influencer")), ("code", Json.JString(ToUpper(f.code)))]
  }

  class InfluencerRegistrationPage {
    var form: Form
    var loading: bool

    constructor ()
      ensures form == EmptyForm && !loading
    {
      form := EmptyForm;
      loading := false;
    }

    /** `handleInputChange` */
    method HandleInputChange(field: Field, value: string)
      modifies this`form
      ensures form == WithField(old(form), field, value)
    {
      form := WithField(form, field, value);
    }

    /** `checkCodeExists`: asks for the single row whose code is the upper-cased input. */
    method CheckCodeExists(db: Backend, code: string) returns (taken: bool)
      modifies db`requests
      ensures db.requests == old(db.requests) + [SelectInfluencer(ByCode(ToUpper(code)))]
      ensures taken <==> SingleInfluencer(db.influencers, ByCode(ToUpper(code))).Some?
    {
      var row := db.SelectSingleInfluencer(ByCode(ToUpper(code)));
      taken := row.Some?;
    }

    /** `handleRegister`. `reply` is the database's answer to the insert; `id`
        and `createdAt` are the values it assigns to a new row. */
    method HandleRegister(db: Backend, store: SessionStore, reply: InsertReply, id: string, createdAt: string)
      returns (toast: Toast, nav: Option<Route>)
      modifies this`loading, db`influencers, db`requests, store
      ensures Precheck(form).Some? ==>
        && toast == Precheck(form).value && nav == None && loading == old(loading)
        && db.requests == old(db.requests) && db.influencers == old(db.influencers)
        && store.items == old(store.items)
      ensures Precheck(form).None? && SingleInfluencer(old(db.influencers), ByCode(ProbeCode(form))).Some? ==>
        && toast == CodeAlreadyExists && nav == None && !loading
        && db.requests == old(db.requests) + [SelectInfluencer(ByCode(ProbeCode(form)))]
        && db.influencers == old(db.influencers)
        && store.items == old(store.items)
      ensures Precheck(form).None? && SingleInfluencer(old(db.influencers), ByCode(ProbeCode(form))).None? ==>
        var row := NewInfluencerRow(form, id, createdAt);
        && !loading
        && db.requests == old(db.requests) + [SelectInfluencer(ByCode(ProbeCode(form)))] + [InsertInfluencer(row)]
        && (reply.Accepted? ==>
              && toast == RegistrationSuccessful && nav == Some(LoginRoute)
              && db.influencers == old(db.influencers) + [row]
              && store.items == old(store.items)[RegisteredUserKey := Json.Stringify(HandOff(form))])
        && (reply.Rejected? ==>
              && toast == (if reply.errorCode == "23505" then CodeAlreadyExists else RegistrationFailed)
              && nav == None
              && db.influencers == old(db.influencers)
              && store.items == old(store.items))
    {
      nav := None;
      var check := Precheck(form);
      if check.Some? {
        toast := check.value;
        return;
      }
      loading := true;
      var taken := CheckCodeExists(db, form.code);
      if taken {
        toast := CodeAlreadyExists;
        loading := false;
        return;
      }
      var row := NewInfluencerRow(form, id, createdAt);
      var error := db.InsertInfluencerRow(row, reply);
      if error.None? {
        toast := RegistrationSuccessful;
        var handOff := Json.Stringify(HandOff(form));
        store.SetItem(RegisteredUserKey, handOff);
        nav := Some(LoginRoute);
      } else if error.value == "23505" {
        toast := CodeAlreadyExists;
      } else {
        toast := RegistrationFailed;
      }
      loading := false;
    }
  }
}
