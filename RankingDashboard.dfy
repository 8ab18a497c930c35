/** The admin rankings tab: a fixed list of influencer rankings, the medals
    and podium for the first three places, the bar scale, and the CSV text the
    export button builds. */
module RankingDashboard {
  import opened Common
  import opened JsString
  import opened Decimal

  datatype Ranking = Ranking(
    id: string,
    firstName: string,
    lastName: string,
    code: string,
    points: int,
    redemptions: int)

  /** The rankings the tab shows, best first. */
  const Rankings: seq<Ranking> := [
    Ranking("1", "Sarah", "Johnson", "INF-001", 156, 156),
    Ranking("2", "Mike", "Chen", "INF-002", 142, 142),
    Ranking("3", "Emma", "Davis", "INF-003", 128, 128),
    Ranking("4", "James", "Wilson", "INF-004", 95, 95),
    Ranking("5", "Lisa", "Anderson", "INF-005", 87, 87),
    Ranking("6", "Tom", "Brown", "INF-006", 72, 72),
    Ranking("7", "Amy", "Taylor", "INF-007", 64, 64),
    Ranking("8", "Chris", "Lee", "INF-008", 58, 58),
    Ranking("9", "Maria", "Garcia", "INF-009", 51, 51),
    Ranking("10", "David", "Martinez", "INF-010", 45, 45)
  ]

  datatype Icon = Trophy | Medal | Award

  /** `getMedalIcon`: a trophy, a medal and an award for the first three
      places, nothing below them. */
  function MedalIcon(position: int): (r: Option<Icon>)
    ensures r.Some? <==> 0 <= position < 3
  {
    if position == 0 then Some(Trophy)
    else if position == 1 then Some(Medal)
    else if position == 2 then Some(Award)
    else None
  }

  /** The three medal places get three different icons. */
  lemma MedalsDistinct(p: int, q: int)
    requires 0 <= p < 3 && 0 <= q < 3 && p != q
    ensures MedalIcon(p) != MedalIcon(q)
  {
  }

  /** `isTopThree`: the bar of an entry is drawn in the highlight colour. */
  predicate IsTopThree(index: int)
  {
    index < 3
  }

  function Min(a: int, b: int): int
  {
    if a < b then a else b
  }

  /** `rankings.slice(0, 3)`: the podium. */
  function Podium(rs: seq<Ranking>): (p: seq<Ranking>)
    ensures |p| == Min(3, |rs|) && p == rs[..|p|]
    ensures forall i :: 0 <= i < |p| ==> IsTopThree(i) && MedalIcon(i).Some?
  {
    rs[..Min(3, |rs|)]
  }

  /** A JavaScript number that may be `-Infinity`, as `Math.max()` gives for no arguments. */
  datatype Bound = NegInfinity | Finite(value: int)

  /** `Math.max(...rankings.map(r => r.points))` */
  function MaxPoints(rs: seq<Ranking>): (m: Bound)
    ensures m == NegInfinity <==> |rs| == 0
    ensures m.Finite? ==> forall i :: 0 <= i < |rs| ==> rs[i].points <= m.value
    ensures m.Finite? ==> exists i :: 0 <= i < |rs| && rs[i].points == m.value
  {
    if |rs| == 0 then NegInfinity
    else
      var rest := MaxPoints(rs[1..]);
      assert forall i :: 1 <= i < |rs| ==> rs[i] == rs[1..][i - 1];
      if rest.NegInfinity? || rs[0].points > rest.value then Finite(rs[0].points) else rest
  }

  /** The first row of the export. */
  const Header: seq<string> := ["Rank", "Name", "Code", "Points", "Redemptions"]

  /** The fields of the export row for the entry at `index`. */
  function Fields(r: Ranking, index: nat): (f: seq<string>)
    ensures |f| == 5
  {
    [IntToString(index + 1), r.firstName + " " + r.lastName, r.code,
     IntToString(r.points), IntToString(r.redemptions)]
  }

  /** `row.join(",")` */
  function Row(fields: seq<string>): string
  {
    Join(fields, ",")
  }

  /** The export's lines: the header, then one line per entry in order. */
  function Lines(rs: seq<Ranking>): (ls: seq<string>)
    ensures |ls| == |rs| + 1 && ls[0] == Row(Header)
    ensures forall i :: 0 <= i < |rs| ==> ls[i + 1] == Row(Fields(rs[i], i))
  {
    var body := Rows(rs);
    assert forall i :: 0 <= i < |rs| ==> ([Row(Header)] + body)[i + 1] == body[i];
    [Row(Header)] + body
  }

  /** One line per entry, in order. */
  function Rows(rs: seq<Ranking>): (ls: seq<string>)
    ensures |ls| == |rs|
    ensures forall i :: 0 <= i < |rs| ==> ls[i] == Row(Fields(rs[i], i))
  {
    seq(|rs|, i requires 0 <= i < |rs| => Row(Fields(rs[i], i)))
  }

  /** `handleExport`'s text: the lines joined by newlines, no field quoted. */
  function ExportCsv(rs: seq<Ranking>): string
  {
    Join(Lines(rs), "\n")
  }

  /** Neither the name nor the code of the entry holds `c`. */
  predicate TextFieldsAvoid(r: Ranking, c: char)
  {
    c !in r.firstName + " " + r.lastName && c !in r.code
  }

  /** A numeral holds neither a comma nor a newline. */
  lemma NumeralAvoids(n: int, c: char)
    requires c == ',' || c == '\n'
    ensures c !in IntToString(n)
  {
    NumeralChars(n);
  }

  lemma FieldsAvoid(r: Ranking, index: nat, c: char)
    requires c == ',' || c == '\n'
    requires TextFieldsAvoid(r, c)
    ensures forall k :: 0 <= k < 5 ==> c !in Fields(r, index)[k]
  {
    NumeralAvoids(index + 1, c);
    NumeralAvoids(r.points, c);
    NumeralAvoids(r.redemptions, c);
  }

  /** A row whose fields avoid a newline holds none. */
  lemma RowAvoidsNewline(r: Ranking, index: nat)
    requires TextFieldsAvoid(r, '\n')
    ensures '\n' !in Row(Fields(r, index))
  {
    FieldsAvoid(r, index, '\n');
    JoinAvoids(Fields(r, index), ",", '\n');
  }

  /** When no name or code holds a newline, splitting the export on newlines
      gives back the header and one line per entry, so there are exactly
      `|rs| + 1` lines. */
  lemma ExportLines(rs: seq<Ranking>)
    requires forall i :: 0 <= i < |rs| ==> TextFieldsAvoid(rs[i], '\n')
    ensures Split(ExportCsv(rs), '\n') == Lines(rs)
    ensures |Split(ExportCsv(rs), '\n')| == |rs| + 1
  {
    LinesAvoidNewline(rs);
    SplitJoin(Lines(rs), '\n');
  }

  lemma HeaderAvoidsNewline()
    ensures '\n' !in Row(Header)
  {
    forall i | 0 <= i < |Header|
      ensures '\n' !in Header[i]
    {
      var h := Header[i];
      assert forall k :: 0 <= k < |h| ==> 'A' <= h[k] <= 'z';
    }
    JoinAvoids(Header, ",", '\n');
  }

  /** No line of the export holds a newline when no name or code does. */
  lemma LinesAvoidNewline(rs: seq<Ranking>)
    requires forall i :: 0 <= i < |rs| ==> TextFieldsAvoid(rs[i], '\n')
    ensures forall j :: 0 <= j < |Lines(rs)| ==> '\n' !in Lines(rs)[j]
  {
    var ls := Lines(rs);
    HeaderAvoidsNewline();
    forall j | 1 <= j < |ls|
      ensures '\n' !in ls[j]
    {
      var i := j - 1;
      assert ls[i + 1] == Row(Fields(rs[i], i));
      RowAvoidsNewline(rs[i], i);
    }
  }

  /** When no name or code holds a comma or a newline, splitting line `i + 1`
      of the export on commas gives back the fields of entry `i`: its rank
      `i + 1`, "first last", code, points and redemptions. */
  lemma ExportFields(rs: seq<Ranking>, i: nat)
    requires forall j :: 0 <= j < |rs| ==> TextFieldsAvoid(rs[j], '\n')
    requires i < |rs| && TextFieldsAvoid(rs[i], ',')
    ensures var ls := Split(ExportCsv(rs), '\n');
      i + 1 < |ls| && Split(ls[i + 1], ',') == Fields(rs[i], i)
  {
    ExportLines(rs);
    FieldsAvoid(rs[i], i, ',');
    SplitJoin(Fields(rs[i], i), ',');
  }

  /** Fields are never quoted, so every comma inside a name or a code adds a
      column: the line splits into five columns plus one per such comma. */
  lemma CommasAddColumns(r: Ranking, index: nat)
    ensures |Split(Row(Fields(r, index)), ',')| ==
      5 + Count(r.firstName + " " + r.lastName, ',') + Count(r.code, ',')
  {
    var f := Fields(r, index);
    NumeralAvoids(index + 1, ',');
    NumeralAvoids(r.points, ',');
    NumeralAvoids(r.redemptions, ',');
    CountAbsent(f[0], ',');
    CountAbsent(f[3], ',');
    CountAbsent(f[4], ',');
    assert f[4..][1..] == [];
    assert CountAll(f[4..], ',') == 0;
    assert f[3..][1..] == f[4..];
    assert CountAll(f[3..], ',') == 0;
    assert f[2..][1..] == f[3..];
    assert CountAll(f[2..], ',') == Count(f[2], ',');
    assert f[1..][1..] == f[2..];
    assert CountAll(f, ',') == Count(f[1], ',') + Count(f[2], ',');
    CountJoin(f, ',');
    SplitLength(Row(f), ',');
  }
}
