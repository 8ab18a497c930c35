/** The two hosted tables the pages read and write (`influencers` and
    `consumers`), held in memory, with the queries the pages issue and a log of
    every request sent. */
module Database {
  import opened Common
  import opened Decimal

  /** A row of the `influencers` table. */
  datatype Influencer = Influencer(
    id: string,
    firstName: string,
    lastName: string,
    code: string,
    points: int,
    age: Option<int>,
    sex: Option<string>,
    location: Option<string>,
    consumerCount: int,
    password: Option<string>,
    createdAt: string)

  /** A row of the `consumers` table. */
  datatype Consumer = Consumer(
    id: string,
    firstName: string,
    lastName: string,
    age: Option<int>,
    sex: Option<string>,
    location: Option<string>,
    redeemedCodesCount: int,
    password: Option<string>,
    createdAt: string)

  /** The `age` column both sign-up pages write: `age ? parseInt(age) : null`. */
  function AgeColumn(age: string): Option<int>
  {
    if age == "" then None else ParseLeadingInt(age)
  }

  /** An age typed as the numeral of a number is stored as that number. */
  lemma AgeReadsBack(n: int)
    ensures AgeColumn(IntToString(n)) == Some(n)
  {
    ParseIntToString(n, "");
    assert IntToString(n) + "" == IntToString(n);
  }

  /** The `.eq(...)` filters the pages put on the `influencers` table. */
  datatype InfluencerQuery =
    | ByCode(code: string)
    | ByCodeAndPassword(code: string, password: string)
    | ById(id: string)

  /** The filter the login page puts on the `consumers` table. */
  datatype ConsumerQuery = ByNameAndPassword(firstName: string, lastName: string, password: string)

  /** Every request a page sends to the database, in the order sent. */
  datatype Request =
    | SelectInfluencer(query: InfluencerQuery)
    | InsertInfluencer(newInfluencer: Influencer)
    | SelectConsumer(consumerQuery: ConsumerQuery)
    | InsertConsumer(newConsumer: Consumer)

  /** The database's answer to an insert; a refusal carries the error code
      (23505 for a unique-constraint violation). */
  datatype InsertReply = Accepted | Rejected(errorCode: string)

  /** An `.eq` filter compares with SQL equality, so a null column matches nothing. */
  predicate InfluencerMatches(q: InfluencerQuery, r: Influencer)
  {
    match q
    case ByCode(c) => r.code == c
    case ByCodeAndPassword(c, p) => r.code == c && r.password == Some(p)
    case ById(i) => r.id == i
  }

  predicate ConsumerMatches(q: ConsumerQuery, r: Consumer)
  {
    r.firstName == q.firstName && r.lastName == q.lastName && r.password == Some(q.password)
  }

  /** The rows a query selects, in table order. */
  function SelectInfluencers(rows: seq<Influencer>, q: InfluencerQuery): (r: seq<Influencer>)
    ensures |r| <= |rows|
    ensures forall x :: x in r <==> x in rows && InfluencerMatches(q, x)
  {
    if |rows| == 0 then []
    else
      var rest := SelectInfluencers(rows[1..], q);
      if InfluencerMatches(q, rows[0]) then [rows[0]] + rest else rest
  }

  function SelectConsumers(rows: seq<Consumer>, q: ConsumerQuery): (r: seq<Consumer>)
    ensures |r| <= |rows|
    ensures forall x :: x in r <==> x in rows && ConsumerMatches(q, x)
  {
    if |rows| == 0 then []
    else
      var rest := SelectConsumers(rows[1..], q);
      if ConsumerMatches(q, rows[0]) then [rows[0]] + rest else rest
  }

  /** `.select('*').eq(...).single()`: the row when exactly one matches; with
      none or several, `.single()` reports an error and no data. */
  function SingleInfluencer(rows: seq<Influencer>, q: InfluencerQuery): (r: Option<Influencer>)
    ensures r.Some? ==> r.value in rows && InfluencerMatches(q, r.value)
  {
    var found := SelectInfluencers(rows, q);
    if |found| == 1 then Some(found[0]) else None
  }

  function SingleConsumer(rows: seq<Consumer>, q: ConsumerQuery): (r: Option<Consumer>)
    ensures r.Some? ==> r.value in rows && ConsumerMatches(q, r.value)
  {
    var found := SelectConsumers(rows, q);
    if |found| == 1 then Some(found[0]) else None
  }

  /** A query no row satisfies selects nothing. */
  lemma NoInfluencerMatches(rows: seq<Influencer>, q: InfluencerQuery)
    requires forall j :: 0 <= j < |rows| ==> !InfluencerMatches(q, rows[j])
    ensures SelectInfluencers(rows, q) == []
    ensures SingleInfluencer(rows, q) == None
  {
  }

  /** A query exactly one row satisfies selects that row. */
  lemma {:induction false} OneInfluencerMatches(rows: seq<Influencer>, q: InfluencerQuery, i: nat)
    requires i < |rows| && InfluencerMatches(q, rows[i])
    requires forall j :: 0 <= j < |rows| && j != i ==> !InfluencerMatches(q, rows[j])
    ensures SelectInfluencers(rows, q) == [rows[i]]
    ensures SingleInfluencer(rows, q) == Some(rows[i])
    decreases |rows|
  {
    if i == 0 {
      var tail := rows[1..];
      forall j | 0 <= j < |tail| ensures !InfluencerMatches(q, tail[j]) {
        assert tail[j] == rows[j + 1];
      }
      NoInfluencerMatches(tail, q);
    } else {
      var tail := rows[1..];
      forall j | 0 <= j < |tail| && j != i - 1 ensures !InfluencerMatches(q, tail[j]) {
        assert tail[j] == rows[j + 1];
      }
      OneInfluencerMatches(tail, q, i - 1);
    }
  }

  /** A consumer query no row satisfies selects nothing, so sign-in finds no one. */
  lemma NoConsumerMatches(rows: seq<Consumer>, q: ConsumerQuery)
    requires forall j :: 0 <= j < |rows| ==> !ConsumerMatches(q, rows[j])
    ensures SelectConsumers(rows, q) == []
    ensures SingleConsumer(rows, q) == None
  {
  }

  /** A consumer query exactly one row satisfies selects that row. */
  lemma {:induction false} OneConsumerMatches(rows: seq<Consumer>, q: ConsumerQuery, i: nat)
    requires i < |rows| && ConsumerMatches(q, rows[i])
    requires forall j :: 0 <= j < |rows| && j != i ==> !ConsumerMatches(q, rows[j])
    ensures SelectConsumers(rows, q) == [rows[i]]
    ensures SingleConsumer(rows, q) == Some(rows[i])
    decreases |rows|
  {
    var tail := rows[1..];
    if i == 0 {
      forall j | 0 <= j < |tail| ensures !ConsumerMatches(q, tail[j]) {
        assert tail[j] == rows[j + 1];
      }
      NoConsumerMatches(tail, q);
    } else {
      forall j | 0 <= j < |tail| && j != i - 1 ensures !ConsumerMatches(q, tail[j]) {
        assert tail[j] == rows[j + 1];
      }
      OneConsumerMatches(tail, q, i - 1);
    }
  }

  /** Two rows that both match leave `.single()` without a row: two consumers
      with the same name and password can never sign in. */
  lemma {:induction false} TwoConsumersMatch(rows: seq<Consumer>, q: ConsumerQuery, i: nat, j: nat)
    requires i < j < |rows| && ConsumerMatches(q, rows[i]) && ConsumerMatches(q, rows[j])
    ensures |SelectConsumers(rows, q)| >= 2
    ensures SingleConsumer(rows, q) == None
    decreases |rows|
  {
    var tail := rows[1..];
    if i == 0 {
      assert tail[j - 1] == rows[j];
      assert rows[j] in SelectConsumers(tail, q);
    } else {
      assert tail[i - 1] == rows[i] && tail[j - 1] == rows[j];
      TwoConsumersMatch(tail, q, i - 1, j - 1);
    }
  }

  /** The table holds no two rows with the same code (the database's unique
      constraint on `code`). */
  predicate UniqueCodes(rows: seq<Influencer>)
  {
    forall i, j :: 0 <= i < |rows| && 0 <= j < |rows| && i != j ==> rows[i].code != rows[j].code
  }

  /** Under unique codes the single-row probe finds a code exactly when some row has it. */
  lemma ProbeFindsCode(rows: seq<Influencer>, code: string)
    requires UniqueCodes(rows)
    ensures SingleInfluencer(rows, ByCode(code)).Some? <==> exists i :: 0 <= i < |rows| && rows[i].code == code
  {
    if i :| 0 <= i < |rows| && rows[i].code == code {
      OneInfluencerMatches(rows, ByCode(code), i);
    }
  }

  /** The database: the two tables and the log of the requests it has received. */
  class Backend {
    var influencers: seq<Influencer>
    var consumers: seq<Consumer>
    var requests: seq<Request>

    constructor (influencers: seq<Influencer>, consumers: seq<Consumer>)
      ensures this.influencers == influencers && this.consumers == consumers && requests == []
    {
      this.influencers := influencers;
      this.consumers := consumers;
      requests := [];
    }

    /** `supabase.from('influencers').select(...).eq(...).single()` */
    method SelectSingleInfluencer(q: InfluencerQuery) returns (row: Option<Influencer>)
      modifies this`requests
      ensures requests == old(requests) + [SelectInfluencer(q)]
      ensures row == SingleInfluencer(influencers, q)
    {
      requests := requests + [SelectInfluencer(q)];
      row := SingleInfluencer(influencers, q);
    }

    /** `supabase.from('consumers').select('*').eq(...).single()` */
    method SelectSingleConsumer(q: ConsumerQuery) returns (row: Option<Consumer>)
      modifies this`requests
      ensures requests == old(requests) + [SelectConsumer(q)]
      ensures row == SingleConsumer(consumers, q)
    {
      requests := requests + [SelectConsumer(q)];
      row := SingleConsumer(consumers, q);
    }

    /** `supabase.from('influencers').insert(row)`: the row is appended unless the
        database refuses it, in which case the error code comes back. */
    method InsertInfluencerRow(row: Influencer, reply: InsertReply) returns (error: Option<string>)
      modifies this`influencers, this`requests
      ensures requests == old(requests) + [InsertInfluencer(row)]
      ensures reply.Accepted? ==> influencers == old(influencers) + [row] && error == None
      ensures reply.Rejected? ==> influencers == old(influencers) && error == Some(reply.errorCode)
    {
      requests := requests + [InsertInfluencer(row)];
      if reply.Accepted? {
        influencers := influencers + [row];
        error := None;
      } else {
        error := Some(reply.errorCode);
      }
    }

    /** `supabase.from('consumers').insert(row)` */
    method InsertConsumerRow(row: Consumer, reply: InsertReply) returns (error: Option<string>)
      modifies this`consumers, this`requests
      ensures requests == old(requests) + [InsertConsumer(row)]
      ensures reply.Accepted? ==> consumers == old(consumers) + [row] && error == None
      ensures reply.Rejected? ==> consumers == old(consumers) && error == Some(reply.errorCode)
    {
      requests := requests + [InsertConsumer(row)];
      if reply.Accepted? {
        consumers := consumers + [row];
        error := None;
      } else {
        error := Some(reply.errorCode);
      }
    }
  }
}
