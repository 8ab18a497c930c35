/** The admin tab that lists influencers, adds new ones with a generated
    code, and sorts the list by points for the performance chart. The list is
    page state only: nothing here touches the database. */
module InfluencerManagement {
  import opened Common
  import opened JsString

  /** One influencer as the tab holds it (the profile picture is display only). */
  datatype Entry = Entry(id: string, firstName: string, lastName: string, code: string, points: int)

  /** The list the tab starts with. */
  const SeedEntries: seq<Entry> := [
    Entry("1", "Sarah", "Johnson", "INF-001", 156),
    Entry("2", "Mike", "Chen", "INF-002", 142),
    Entry("3", "Emma", "Davis", "INF-003", 128)
  ]

  /** `n` consecutive characters starting at `first`. */
  function CharRun(first: char, n: nat): (r: string)
    requires first as int + n < 0xD800
    ensures |r| == n && forall k :: 0 <= k < n ==> r[k] as int == first as int + k
    decreases n
  {
    if n == 0 then [] else [first] + CharRun((first as int + 1) as char, n - 1)
  }

  /** The code alphabet: the 26 upper-case letters, then the 10 digits. */
  const CodeChars: string := CharRun('A', 26) + CharRun('0', 10)

  const CodePrefix: string := "INF-"

  /** An upper-case letter or a digit. */
  predicate CodeChar(c: char)
  {
    'A' <= c <= 'Z' || '0' <= c <= '9'
  }

  /** "INF-" followed by three characters from the alphabet. */
  predicate WellFormedCode(code: string)
  {
    |code| == 7 && code[..4] == CodePrefix && forall i :: 4 <= i < 7 ==> CodeChar(code[i])
  }

  /** Spelled out, the alphabet's letters and digits are the page's. */
  lemma CodeLettersSpelled()
    ensures CharRun('A', 26) == "ABCDEFGHIJKLMNOPQRSTUVWXYZ"
  {
  }

  lemma CodeDigitsSpelled()
    ensures CharRun('0', 10) == "0123456789"
  {
  }

  /** The alphabet holds exactly the upper-case letters and the digits. */
  lemma CodeCharsAre(c: char)
    ensures c in CodeChars <==> CodeChar(c)
  {
    if c in CodeChars {
      AlphabetCharIsCodeChar(c);
    }
    if CodeChar(c) {
      CodeCharInAlphabet(c);
    }
  }

  lemma AlphabetCharIsCodeChar(c: char)
    requires c in CodeChars
    ensures CodeChar(c)
  {
    var k :| 0 <= k < |CodeChars| && CodeChars[k] == c;
    if k < 26 {
      assert c == CharRun('A', 26)[k];
    } else {
      assert c == CharRun('0', 10)[k - 26];
    }
  }

  lemma CodeCharInAlphabet(c: char)
    requires CodeChar(c)
    ensures c in CodeChars
  {
    if 'A' <= c <= 'Z' {
      var k := c as int - 'A' as int;
      assert CodeChars[k] == CharRun('A', 26)[k];
    } else {
      var k := c as int - '0' as int;
      assert CodeChars[26 + k] == CharRun('0', 10)[k];
    }
  }

  /** Letters, digits and '-' are left alone by upper-casing and trimming. */
  lemma PlainChar(c: char)
    requires 'A' <= c <= 'Z' || '0' <= c <= '9' || c == '-'
    ensures UpperChar(c) == c && !IsWhiteSpace(c)
  {
  }

  /** A generated code is already in the form registration stores: nothing to
      trim and nothing to upper-case. */
  lemma WellFormedCodeNormalised(code: string)
    requires WellFormedCode(code)
    ensures ToUpper(code) == code
    ensures Trim(code) == code
  {
    forall i | 0 <= i < |code|
      ensures UpperChar(code[i]) == code[i] && !IsWhiteSpace(code[i])
    {
      if i < 4 {
        assert code[i] == CodePrefix[i];
      }
      PlainChar(code[i]);
    }
    assert TrimStart(code) == code;
    assert TrimEnd(code) == code;
  }

  /** Points never increase along the list. */
  predicate NonIncreasing(s: seq<Entry>)
  {
    forall k, l :: 0 <= k < l < |s| ==> s[k].points >= s[l].points
  }

  /** The entries with `points == p`, in list order. */
  function WithPoints(s: seq<Entry>, p: int): seq<Entry>
    decreases |s|
  {
    if |s| == 0 then []
    else (if s[0].points == p then [s[0]] else []) + WithPoints(s[1..], p)
  }

  /** `t` keeps the relative order of the entries of `s` that share a points
      value: what a stable sort by points promises. */
  ghost predicate SameTies(s: seq<Entry>, t: seq<Entry>)
  {
    forall p :: WithPoints(t, p) == WithPoints(s, p)
  }

  /** The points values that occur in `s`. */
  ghost function PointValues(s: seq<Entry>): set<int>
  {
    set i | 0 <= i < |s| :: s[i].points
  }

  /** Each points value that occurs, mapped to its tie group. */
  ghost function TieGroups(s: seq<Entry>): map<int, seq<Entry>>
  {
    map p | p in PointValues(s) :: WithPoints(s, p)
  }

  lemma {:induction false} AbsentPoints(s: seq<Entry>, p: int)
    requires p !in PointValues(s)
    ensures WithPoints(s, p) == []
    decreases |s|
  {
    if |s| > 0 {
      assert s[0].points != p;
      forall i | 0 <= i < |s[1..]| ensures s[1..][i].points != p {
        assert s[1..][i] == s[i + 1];
      }
      AbsentPoints(s[1..], p);
    }
  }

  /** Equal tie groups mean the same tie order. */
  lemma GroupsDecideTies(s: seq<Entry>, t: seq<Entry>)
    requires TieGroups(s) == TieGroups(t)
    ensures SameTies(s, t)
  {
    forall p ensures WithPoints(t, p) == WithPoints(s, p) {
      if p in PointValues(s) {
        assert p in TieGroups(s);
        assert TieGroups(s)[p] == WithPoints(s, p);
        assert TieGroups(t)[p] == WithPoints(t, p);
      } else {
        assert p !in TieGroups(t);
        AbsentPoints(s, p);
        AbsentPoints(t, p);
      }
    }
  }

  lemma {:induction false} WithPointsAppend(s: seq<Entry>, t: seq<Entry>, p: int)
    ensures WithPoints(s + t, p) == WithPoints(s, p) + WithPoints(t, p)
    decreases |s|
  {
    if |s| == 0 {
      assert s + t == t;
    } else {
      var head := if s[0].points == p then [s[0]] else [];
      var u := s + t;
      assert u[0] == s[0] && u[1..] == s[1..] + t;
      WithPointsAppend(s[1..], t, p);
      calc {
        WithPoints(u, p);
        head + WithPoints(s[1..] + t, p);
        head + (WithPoints(s[1..], p) + WithPoints(t, p));
        (head + WithPoints(s[1..], p)) + WithPoints(t, p);
      }
    }
  }

  /** Exchanging two neighbours with different points keeps every tie group. */
  lemma SwapKeepsGroups(s: seq<Entry>, j: int)
    requires 0 < j < |s| && s[j - 1].points != s[j].points
    ensures TieGroups(s[j - 1 := s[j]][j := s[j - 1]]) == TieGroups(s)
  {
    var t := s[j - 1 := s[j]][j := s[j - 1]];
    SwapKeepsTies(s, j);
    forall p | p in PointValues(s) ensures p in PointValues(t) {
      var i :| 0 <= i < |s| && s[i].points == p;
      var k := if i == j then j - 1 else if i == j - 1 then j else i;
      assert t[k].points == p;
    }
    forall p | p in PointValues(t) ensures p in PointValues(s) {
      var i :| 0 <= i < |t| && t[i].points == p;
      var k := if i == j then j - 1 else if i == j - 1 then j else i;
      assert s[k].points == p;
    }
    assert PointValues(t) == PointValues(s);
  }

  lemma SwapKeepsTies(s: seq<Entry>, j: int)
    requires 0 < j < |s| && s[j - 1].points != s[j].points
    ensures SameTies(s, s[j - 1 := s[j]][j := s[j - 1]])
  {
    var t := s[j - 1 := s[j]][j := s[j - 1]];
    var front, back := s[..j - 1], s[j + 1..];
    assert s == front + [s[j - 1], s[j]] + back;
    assert t == front + [s[j], s[j - 1]] + back;
    forall p ensures WithPoints(t, p) == WithPoints(s, p) {
      WithPointsAppend(front + [s[j - 1], s[j]], back, p);
      WithPointsAppend(front, [s[j - 1], s[j]], p);
      WithPointsAppend(front + [s[j], s[j - 1]], back, p);
      WithPointsAppend(front, [s[j], s[j - 1]], p);
      assert [s[j - 1], s[j]][1..] == [s[j]];
      assert [s[j], s[j - 1]][1..] == [s[j - 1]];
    }
  }

  /** `Math.max(...points, 1)`: the largest of the points and 1. */
  function MaxPoints(s: seq<Entry>): (m: int)
    ensures m >= 1
    ensures forall i :: 0 <= i < |s| ==> s[i].points <= m
    ensures m == 1 || exists i :: 0 <= i < |s| && s[i].points == m
  {
    if |s| == 0 then 1
    else
      var rest := MaxPoints(s[1..]);
      assert forall i :: 1 <= i < |s| ==> s[i] == s[1..][i - 1];
      if s[0].points > rest then s[0].points else rest
  }

  class InfluencerList {
    var influencers: array<Entry>
    var firstName: string
    var lastName: string
    var showForm: bool

    constructor ()
      ensures fresh(influencers) && influencers[..] == SeedEntries
      ensures firstName == "" && lastName == "" && !showForm
    {
      influencers := new Entry[3] [SeedEntries[0], SeedEntries[1], SeedEntries[2]];
      firstName := "";
      lastName := "";
      showForm := false;
    }

    method SetFirstName(value: string)
      modifies this`firstName
      ensures firstName == value
    {
      firstName := value;
    }

    method SetLastName(value: string)
      modifies this`lastName
      ensures lastName == value
    {
      lastName := value;
    }

    /** The "Add Influencer" button toggles the form; "Cancel" hides it. */
    method ToggleForm()
      modifies this`showForm
      ensures showForm == !old(showForm)
    {
      showForm := !showForm;
    }

    method CancelForm()
      modifies this`showForm
      ensures !showForm
    {
      showForm := false;
    }

    /** `generateCode`: three characters drawn from the alphabet after the
        prefix. The draw is random in the page; here any character may be drawn. */
    static method GenerateCode() returns (code: string)
      ensures WellFormedCode(code)
    {
      code := CodePrefix;
      for i := 0 to 3
        invariant |code| == 4 + i && code[..4] == CodePrefix
        invariant forall k :: 4 <= k < |code| ==> CodeChar(code[k])
      {
        assert CodeChars[0] in CodeChars;
        var c :| c in CodeChars;
        CodeCharsAre(c);
        code := code + [c];
      }
    }

    /** `handleAddInfluencer`. With a blank name nothing changes. Otherwise a
        new list is the old one with one entry appended (trimmed names, a
        generated code, no points), and the form is cleared and hidden. The
        code is not checked against the codes already listed. */
    method HandleAddInfluencer(id: string) returns (toast: Toast)
      modifies this
      ensures IsBlank(old(firstName)) || IsBlank(old(lastName)) ==>
        && toast == MissingInformation && influencers == old(influencers)
        && firstName == old(firstName) && lastName == old(lastName) && showForm == old(showForm)
      ensures !IsBlank(old(firstName)) && !IsBlank(old(lastName)) ==>
        && toast == InfluencerAdded && fresh(influencers)
        && |influencers[..]| == |old(influencers[..])| + 1
        && influencers[..] == old(influencers[..]) + [influencers[|old(influencers[..])|]]
        && AddedEntry(influencers[|old(influencers[..])|], id, old(firstName), old(lastName))
        && firstName == "" && lastName == "" && !showForm
    {
      if IsBlank(firstName) || IsBlank(lastName) {
        toast := MissingInformation;
        return;
      }
      var code := GenerateCode();
      var entry := Entry(id, Trim(firstName), Trim(lastName), code, 0);
      ghost var before := influencers[..];
      influencers := Appended(influencers, entry);
      assert influencers[..] == before + [entry];
      assert |before| == |old(influencers[..])|;
      assert before == old(influencers[..]);
      assert AddedEntry(entry, id, old(firstName), old(lastName));
      toast := InfluencerAdded;
      firstName := "";
      lastName := "";
      showForm := false;
    }

    /** `influencers.sort((a, b) => b.points - a.points)`, in place: the list
        ends in non-increasing order of points, holds the same entries, and,
        as `Array.prototype.sort` is stable, entries with equal points keep
        their relative order. */
    method SortByPoints()
      modifies influencers
      ensures NonIncreasing(influencers[..])
      ensures multiset(influencers[..]) == multiset(old(influencers[..]))
      ensures SameTies(old(influencers[..]), influencers[..])
    {
      var a := influencers;
      var i := 0;
      while i < a.Length
        invariant 0 <= i <= a.Length
        invariant forall k, l :: 0 <= k < l < i ==> a[k].points >= a[l].points
        invariant multiset(a[..]) == multiset(old(a[..]))
        invariant TieGroups(a[..]) == TieGroups(old(a[..]))
      {
        InsertAt(a, i);
        i := i + 1;
      }
      GroupsDecideTies(old(a[..]), a[..]);
    }
  }

  /** The entry `handleAddInfluencer` appends for the typed names. */
  predicate AddedEntry(e: Entry, id: string, firstName: string, lastName: string)
  {
    e.id == id && e.firstName == Trim(firstName) && e.lastName == Trim(lastName) &&
    e.points == 0 && WellFormedCode(e.code)
  }

  /** `[...a, e]`: a new array holding the old entries and then `e`. */
  method Appended(a: array<Entry>, e: Entry) returns (b: array<Entry>)
    ensures fresh(b)
    ensures b[..] == a[..] + [e]
  {
    b := new Entry[a.Length + 1](i => e);
    forall i | 0 <= i < a.Length {
      b[i] := a[i];
    }
  }

  /** One insertion step: with `a[..i]` already in non-increasing order, the
      entry at `i` is swapped down past every entry with fewer points, which
      leaves `a[..i + 1]` in order. Entries with equal points are not passed,
      so their order is kept. */
  method InsertAt(a: array<Entry>, i: int)
    requires 0 <= i < a.Length
    requires forall k, l :: 0 <= k < l < i ==> a[k].points >= a[l].points
    modifies a
    ensures forall k, l :: 0 <= k < l <= i ==> a[k].points >= a[l].points
    ensures multiset(a[..]) == multiset(old(a[..]))
    ensures TieGroups(a[..]) == TieGroups(old(a[..]))
  {
    var j := i;
    while j > 0 && a[j - 1].points < a[j].points
      invariant 0 <= j <= i
      invariant forall k, l :: 0 <= k < l <= i && l != j ==> a[k].points >= a[l].points
      invariant multiset(a[..]) == multiset(old(a[..]))
      invariant TieGroups(a[..]) == TieGroups(old(a[..]))
    {
      SwapDown(a, j);
      j := j - 1;
    }
  }

  /** Exchanges the entries at `j - 1` and `j`. */
  method SwapDown(a: array<Entry>, j: int)
    requires 0 < j < a.Length
    modifies a
    ensures a[..] == old(a[..])[j - 1 := old(a[j])][j := old(a[j - 1])]
    ensures multiset(a[..]) == multiset(old(a[..]))
    ensures old(a[j - 1]).points != old(a[j]).points ==> TieGroups(a[..]) == TieGroups(old(a[..]))
  {
    if a[j - 1].points != a[j].points {
      SwapKeepsGroups(a[..], j);
    }
    a[j - 1], a[j] := a[j], a[j - 1];
  }
}
