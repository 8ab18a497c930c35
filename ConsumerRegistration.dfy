/** The consumer sign-up page: its form, the ordered checks of its submit
    handler, the row it inserts and the `registeredUser` hand-off to the login
    page. Unlike the influencer page it makes no uniqueness probe. */
module ConsumerRegistration {
  import opened Common
  import opened JsString
  import opened Decimal
  import Json
  import opened Storage
  import opened Database

  datatype Field = FirstName | LastName | Password | Age | Sex | Location

  datatype Form = Form(
    firstName: string,
    lastName: string,
    password: string,
    age: string,
    sex: string,
    location: string)

  const EmptyForm := Form("", "", "", "", "", "")

  /** The shortest password the page accepts. */
  const MinPasswordLength := 6

  function FieldValue(f: Form, field: Field): string
  {
    match field
    case FirstName => f.firstName
    case LastName => f.lastName
    case Password => f.password
    case Age => f.age
    case Sex => f.sex
    case Location => f.location
  }

  /** The named field takes the value and every other field keeps its own. */
  function WithField(f: Form, field: Field, value: string): (g: Form)
    ensures FieldValue(g, field) == value
    ensures forall other :: other != field ==> FieldValue(g, other) == FieldValue(f, other)
  {
    match field
    case FirstName => f.(firstName := value)
    case LastName => f.(lastName := value)
    case Password => f.(password := value)
    case Age => f.(age := value)
    case Sex => f.(sex := value)
    case Location => f.(location := value)
  }

  /** Some required field (first name, last name, password) is empty once trimmed. */
  predicate MissingRequired(f: Form)
  {
    IsBlank(f.firstName) || IsBlank(f.lastName) || IsBlank(f.password)
  }

  /** The checks made before the insert, in order; the first that fails names the toast. */
  function Precheck(f: Form): Option<Toast>
  {
    if MissingRequired(f) then Some(MissingInformation)
    else if |f.password| < MinPasswordLength then Some(PasswordTooShort)
    else None
  }

  /** The required-fields check fires exactly when a required field trims to
      the empty string; age, sex and location are never required. */
  lemma PrecheckMissing(f: Form)
    ensures Precheck(f) == Some(MissingInformation) <==>
      Trim(f.firstName) == "" || Trim(f.lastName) == "" ||
      Trim(f.password) == ""
  {
    BlankFields(f.firstName, f.lastName, f.password);
  }

  lemma BlankFields(a: string, b: string, c: string)
    ensures (IsBlank(a) || IsBlank(b) || IsBlank(c)) == (Trim(a) == "" || Trim(b) == "" || Trim(c) == "")
  {
    BlankIffTrimEmpty(a);
    BlankIffTrimEmpty(b);
    BlankIffTrimEmpty(c);
  }

  /** A form passes the checks exactly when the three required fields keep
      something once trimmed and the untrimmed password has six characters or
      more. */
  lemma PrecheckPasses(f: Form)
    ensures Precheck(f) == None <==>
      Trim(f.firstName) != "" && Trim(f.lastName) != "" &&
      Trim(f.password) != "" && |f.password| >= MinPasswordLength
  {
    PrecheckMissing(f);
  }

  /** The row inserted into `consumers`; the database supplies `id` and `createdAt`. */
  function NewConsumerRow(f: Form, id: string, createdAt: string): (row: Consumer)
    ensures row.firstName == Trim(f.firstName) && row.lastName == Trim(f.lastName)
    ensures row.password == Some(f.password) && row.redeemedCodesCount == 0
    ensures row.sex.None? <==> f.sex == ""
    ensures row.location.None? <==> IsBlank(f.location)
    ensures row.sex.Some? ==> row.sex.value == f.sex
    ensures row.location.Some? ==> row.location.value == Trim(f.location)
    ensures f.age == "" ==> row.age.None?
    ensures f.age != "" ==> row.age == ParseLeadingInt(f.age)
  {
    Consumer(
      id,
      Trim(f.firstName),
      Trim(f.lastName),
      AgeColumn(f.age),
      if f.sex == "" then None else Some(f.sex),
      if IsBlank(f.location) then None else Some(Trim(f.location)),
      0,
      Some(f.password),
      createdAt)
  }

  /** The name handed to the login page: first and last name as typed, joined by one space. */
  function HandOffName(f: Form): string
  {
    f.firstName + " " + f.lastName
  }

  /** The record written to `registeredUser` on success. */
  function HandOff(f: Form): Json.Object
  {
    [("type", Json.JString("consumer")), ("name", Json.JString(HandOffName(f)))]
  }

  /** The handed-off name splits back at its first space into the typed first
      name and the rest, provided the typed first name has no space in it. */
  lemma HandOffNameSplits(f: Form)
    requires ' ' !in f.firstName
    ensures Split(HandOffName(f), ' ')[0] == f.firstName
    ensures |Split(HandOffName(f), ' ')| >= 2
  {
    SplitAtFirstSeparator(f.firstName, f.lastName, ' ');
  }

  class ConsumerRegistrationPage {
    var form: Form
    var loading: bool

    constructor ()
      ensures form == EmptyForm && !loading
    {
      form := EmptyForm;
      loading := false;
    }

    /** `handleInputChange` */
    method HandleInputChange(field: Field, value: string)
      modifies this`form
      ensures form == WithField(old(form), field, value)
    {
      form := WithField(form, field, value);
    }

    /** `handleRegister`. `reply` is the database's answer to the insert; `id`
        and `createdAt` are the values it assigns to a new row. Every refusal,
        whatever its code, gives the same toast. */
    method HandleRegister(db: Backend, store: SessionStore, reply: InsertReply, id: string, createdAt: string)
      returns (toast: Toast, nav: Option<Route>)
      modifies this`loading, db`consumers, db`requests, store
      ensures Precheck(form).Some? ==>
        && toast == Precheck(form).value && nav == None && loading == old(loading)
        && db.requests == old(db.requests) && db.consumers == old(db.consumers)
        && store.items == old(store.items)
      ensures Precheck(form).None? ==>
        var row := NewConsumerRow(form, id, createdAt);
        && !loading
        && db.requests == old(db.requests) + [InsertConsumer(row)]
        && (reply.Accepted? ==>
              && toast == RegistrationSuccessful && nav == Some(LoginRoute)
              && db.consumers == old(db.consumers) + [row]
              && store.items == old(store.items)[RegisteredUserKey := Json.Stringify(HandOff(form))])
        && (reply.Rejected? ==>
              && toast == RegistrationFailed && nav == None
              && db.consumers == old(db.consumers)
              && store.items == old(store.items))
    {
      nav := None;
      var check := Precheck(form);
      if check.Some? {
        toast := check.value;
        return;
      }
      loading := true;
      var row := NewConsumerRow(form, id, createdAt);
      var error := db.InsertConsumerRow(row, reply);
      if error.None? {
        toast := RegistrationSuccessful;
        var handOff := Json.Stringify(HandOff(form));
        store.SetItem(RegisteredUserKey, handOff);
        nav := Some(LoginRoute);
      } else {
        toast := RegistrationFailed;
      }
      loading := false;
    }
  }
}
