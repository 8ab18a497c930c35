/** The part of `JSON.stringify` and `JSON.parse` the pages use: flat objects
    whose members are strings or integers, written by `JSON.stringify` into the
    session store and read back by `JSON.parse`. */
module Json {
  import opened Common
  import opened Decimal

  datatype Value = JString(str: string) | JNumber(num: int)

  /** An object's members in insertion order, as `JSON.stringify` visits them. */
  type Object = seq<(string, Value)>

  /** The value `JSON.parse` gives a property: the last member with that key. */
  function Get(o: Object, key: string): (r: Option<Value>)
    ensures r.Some? <==> exists i :: 0 <= i < |o| && o[i].0 == key
  {
    if |o| == 0 then None
    else if o[|o| - 1].0 == key then Some(o[|o| - 1].1)
    else Get(o[..|o| - 1], key)
  }

  /** A key read back: the value of its last member. */
  lemma {:induction false} GetAt(o: Object, i: nat, key: string)
    requires i < |o| && o[i].0 == key
    requires forall j :: i < j < |o| ==> o[j].0 != key
    ensures Get(o, key) == Some(o[i].1)
    decreases |o|
  {
    if i < |o| - 1 {
      GetAt(o[..|o| - 1], i, key);
    }
  }

  /** The string property `key`, when there is one. */
  function GetString(o: Object, key: string): Option<string>
  {
    match Get(o, key)
    case Some(JString(s)) => Some(s)
    case _ => None
  }

  function HexDigit(d: nat): char
    requires d < 16
  {
    if d < 10 then ('0' as int + d) as char else ('a' as int + d - 10) as char
  }

  function HexValue(c: char): (r: Option<nat>)
    ensures r.Some? ==> r.value < 16
  {
    if '0' <= c <= '9' then Some(c as int - '0' as int)
    else if 'a' <= c <= 'f' then Some(c as int - 'a' as int + 10)
    else if 'A' <= c <= 'F' then Some(c as int - 'A' as int + 10)
    else None
  }

  /** The code unit four hexadecimal digits spell. */
  function HexQuad(h: string): (r: Option<nat>)
    requires |h| >= 4
    ensures r.Some? ==> r.value < 0x10000
  {
    match (HexValue(h[0]), HexValue(h[1]), HexValue(h[2]), HexValue(h[3]))
    case (Some(a), Some(b), Some(c), Some(d)) => Some(((a * 16 + b) * 16 + c) * 16 + d)
    case _ => None
  }

  /** How `JSON.stringify` writes one character inside a string literal. */
  function EscapeChar(c: char): string
  {
    if c == '"' then "\\\""
    else if c == '\\' then "\\\\"
    else if c == '\U{8}' then "\\b"
    else if c == '\t' then "\\t"
    else if c == '\n' then "\\n"
    else if c == '\U{C}' then "\\f"
    else if c == '\r' then "\\r"
    else if c < ' ' then "\\u00" + [HexDigit(c as int / 16), HexDigit(c as int % 16)]
    else [c]
  }

  function Escape(s: string): string
  {
    if |s| == 0 then "" else EscapeChar(s[0]) + Escape(s[1..])
  }

  function Quote(s: string): (r: string)
    ensures |r| >= 2 && r[0] == '"'
  {
    "\"" + Escape(s) + "\""
  }

  function StringifyValue(v: Value): string
  {
    match v
    case JString(s) => Quote(s)
    case JNumber(n) => IntToString(n)
  }

  function StringifyMember(m: (string, Value)): (r: string)
    ensures |r| >= 1 && r[0] == '"'
  {
    Quote(m.0) + ":" + StringifyValue(m.1)
  }

  function StringifyMembers(o: Object): (r: string)
    ensures |o| >= 1 ==> |r| >= 1 && r[0] == '"'
  {
    if |o| == 0 then ""
    else if |o| == 1 then StringifyMember(o[0])
    else StringifyMember(o[0]) + "," + StringifyMembers(o[1..])
  }

  /** `JSON.stringify(o)`: no white space, members in order. */
  function Stringify(o: Object): (r: string)
    ensures |r| >= 2 && r[0] == '{'
  {
    "{" + StringifyMembers(o) + "}"
  }

  /** The character an escape sequence stands for (`s` starts just after the
      backslash) and how many characters the sequence takes after it. */
  function Unescape(s: string): Option<(char, nat)>
  {
    if |s| == 0 then None
    else if s[0] == '"' then Some(('"', 1))
    else if s[0] == '\\' then Some(('\\', 1))
    else if s[0] == '/' then Some(('/', 1))
    else if s[0] == 'b' then Some(('\U{8}', 1))
    else if s[0] == 't' then Some(('\t', 1))
    else if s[0] == 'n' then Some(('\n', 1))
    else if s[0] == 'f' then Some(('\U{C}', 1))
    else if s[0] == 'r' then Some(('\r', 1))
    else if s[0] == 'u' && |s| >= 5 then
      match HexQuad(s[1..5])
      case Some(code) => if 0xD800 <= code < 0xE000 then None else Some((code as char, 5))
      case None => None
    else None
  }

  /** The rest of a string literal after its opening quote: its value and the
      text after the closing quote. */
  function ParseStringBody(s: string): (r: Option<(string, string)>)
    ensures r.Some? ==> |r.value.1| < |s|
    decreases |s|
  {
    if |s| == 0 then None
    else if s[0] == '"' then Some(("", s[1..]))
    else if s[0] == '\\' then
      match Unescape(s[1..])
      case None => None
      case Some((c, k)) =>
        if 1 + k <= |s| then
          match ParseStringBody(s[1 + k..])
          case None => None
          case Some((t, rest)) => Some(([c] + t, rest))
        else None
    else if s[0] < ' ' then None
    else
      match ParseStringBody(s[1..])
      case None => None
      case Some((t, rest)) => Some(([s[0]] + t, rest))
  }

  /** A run of digits and the text after it. */
  function ParseDigits(s: string): (r: Option<(int, string)>)
    ensures r.Some? ==> |r.value.1| < |s|
  {
    var ds := LeadingDigits(s);
    if |ds| == 0 then None
    else
      var magnitude: int := DigitsValue(ds);
      Some((magnitude, s[|ds|..]))
  }

  /** The number read, negated, with the same text after it. */
  function Negated(r: Option<(int, string)>): Option<(int, string)>
  {
    if r.None? then None else Some((-r.value.0, r.value.1))
  }

  /** An optionally negative integer literal and the text after it. */
  function ParseNumber(s: string): (r: Option<(int, string)>)
    ensures r.Some? ==> |r.value.1| < |s|
  {
    if |s| > 0 && s[0] == '-' then Negated(ParseDigits(s[1..])) else ParseDigits(s)
  }

  function ParseValue(s: string): (r: Option<(Value, string)>)
    ensures r.Some? ==> |r.value.1| < |s|
  {
    if |s| > 0 && s[0] == '"' then
      match ParseStringBody(s[1..])
      case None => None
      case Some((t, rest)) => Some((JString(t), rest))
    else
      match ParseNumber(s)
      case None => None
      case Some((n, rest)) => Some((JNumber(n), rest))
  }

  function ParseMember(s: string): (r: Option<((string, Value), string)>)
    ensures r.Some? ==> |r.value.1| < |s|
  {
    if |s| == 0 || s[0] != '"' then None
    else
      match ParseStringBody(s[1..])
      case None => None
      case Some((key, afterKey)) =>
        if |afterKey| == 0 || afterKey[0] != ':' then None
        else
          match ParseValue(afterKey[1..])
          case None => None
          case Some((v, rest)) => Some(((key, v), rest))
  }

  /** One or more members separated by commas, then the closing brace. */
  function ParseMembers(s: string): Option<(Object, string)>
    decreases |s|
  {
    match ParseMember(s)
    case None => None
    case Some((m, rest)) =>
      if |rest| > 0 && rest[0] == '}' then Some(([m], rest[1..]))
      else if |rest| > 0 && rest[0] == ',' then
        match ParseMembers(rest[1..])
        case None => None
        case Some((ms, after)) => Some(([m] + ms, after))
      else None
  }

  /** `JSON.parse(s)` for a flat object with no white space; None where
      `JSON.parse` would throw or the text is outside that subset. */
  function Parse(s: string): Option<Object>
  {
    if s == "{}" then Some([])
    else if |s| > 0 && s[0] == '{' then
      match ParseMembers(s[1..])
      case Some((o, rest)) => if rest == "" then Some(o) else None
      case None => None
    else None
  }

  lemma HexRoundTrip(d: nat)
    requires d < 16
    ensures HexValue(HexDigit(d)) == Some(d)
  {
  }

  /** The characters `JSON.stringify` writes with a two-character escape. */
  predicate ShortEscape(c: char)
  {
    c == '"' || c == '\\' || c == '\U{8}' || c == '\t' || c == '\n' || c == '\U{C}' || c == '\r'
  }

  lemma ShortEscapeRoundTrip(c: char, tail: string)
    requires ShortEscape(c)
    ensures ParseStringBody(EscapeChar(c) + tail) ==
      match ParseStringBody(tail)
      case None => None
      case Some((t, rest)) => Some(([c] + t, rest))
  {
    var s := EscapeChar(c) + tail;
    assert s[1..] == [s[1]] + tail;
    assert s[2..] == tail;
  }

  /** The four hexadecimal digits of a `\u00XY` escape spell its code. */
  lemma ControlQuad(c: char)
    requires c < ' '
    ensures HexQuad(['0', '0', HexDigit(c as int / 16), HexDigit(c as int % 16)]) == Some(c as int)
  {
    HexRoundTrip(c as int / 16);
    HexRoundTrip(c as int % 16);
  }

  lemma ControlEscapeRoundTrip(c: char, tail: string)
    requires c < ' ' && !ShortEscape(c)
    ensures ParseStringBody(EscapeChar(c) + tail) ==
      match ParseStringBody(tail)
      case None => None
      case Some((t, rest)) => Some(([c] + t, rest))
  {
    var hi, lo := HexDigit(c as int / 16), HexDigit(c as int % 16);
    var s := EscapeChar(c) + tail;
    assert EscapeChar(c) == "\\u00" + [hi, lo];
    assert s[1..] == ['u', '0', '0', hi, lo] + tail;
    assert s[1..][1..5] == ['0', '0', hi, lo];
    ControlQuad(c);
    assert s[6..] == tail;
  }

  /** Reading one escaped character back, whatever follows it. */
  lemma EscapeCharRoundTrip(c: char, tail: string)
    ensures ParseStringBody(EscapeChar(c) + tail) ==
      match ParseStringBody(tail)
      case None => None
      case Some((t, rest)) => Some(([c] + t, rest))
  {
    if ShortEscape(c) {
      ShortEscapeRoundTrip(c, tail);
    } else if c < ' ' {
      ControlEscapeRoundTrip(c, tail);
    } else {
      var s := EscapeChar(c) + tail;
      assert s[1..] == tail;
    }
  }

  /** A quoted string reads back as itself, leaving what follows the quote. */
  lemma {:induction false} StringRoundTrip(x: string, rest: string)
    ensures ParseStringBody(Escape(x) + "\"" + rest) == Some((x, rest))
    decreases |x|
  {
    if |x| == 0 {
      assert (Escape(x) + "\"" + rest)[1..] == rest;
    } else {
      StringRoundTrip(x[1..], rest);
      assert Escape(x) + "\"" + rest == EscapeChar(x[0]) + (Escape(x[1..]) + "\"" + rest);
      EscapeCharRoundTrip(x[0], Escape(x[1..]) + "\"" + rest);
      assert [x[0]] + x[1..] == x;
    }
  }

  lemma QuoteRoundTrip(x: string, rest: string)
    ensures ParseStringBody((Quote(x) + rest)[1..]) == Some((x, rest))
  {
    assert (Quote(x) + rest)[1..] == Escape(x) + "\"" + rest;
    StringRoundTrip(x, rest);
  }

  /** A run of digits followed by a non-digit reads back as its value. */
  lemma ParseDigitRun(ds: string, rest: string)
    requires |ds| >= 1 && AllDigits(ds)
    requires rest == [] || !IsDigit(rest[0])
    ensures ParseDigits(ds + rest) == Some((DigitsValue(ds) as int, rest))
  {
    LeadingDigitsOfRun(ds, rest);
    assert (ds + rest)[|ds|..] == rest;
  }

  /** A leading minus sign negates what follows it. */
  lemma MinusSign(t: string)
    ensures ParseNumber("-" + t) == Negated(ParseDigits(t))
  {
    assert ("-" + t)[1..] == t;
  }

  /** A minus sign before digits that read as `v` reads as `-v`. */
  lemma NegatedDigits(t: string, v: int, rest: string)
    requires ParseDigits(t) == Some((v, rest))
    ensures ParseNumber("-" + t) == Some((-v, rest))
  {
    MinusSign(t);
  }

  /** Digits that read as `v`, with no sign in front, read as `v`. */
  lemma UnsignedDigits(t: string, v: int, rest: string)
    requires ParseDigits(t) == Some((v, rest))
    ensures ParseNumber(t) == Some((v, rest))
  {
    assert |t| > 0 && IsDigit(t[0]);
  }

  /** A minus sign before the numeral of `m` reads back as `-m`. */
  lemma NegativeNumberReadsBack(m: nat, rest: string, s: string)
    requires rest == [] || !IsDigit(rest[0])
    requires s == "-" + (NatDigits(m) + rest)
    ensures ParseNumber(s) == Some((-(m as int), rest))
  {
    var ds := NatDigits(m);
    DigitsRoundTrip(m);
    ParseDigitRun(ds, rest);
    NegatedDigits(ds + rest, m, rest);
  }

  /** The numeral `String(n)` writes, followed by a non-digit, reads back as `n`. */
  lemma NumberRoundTrip(n: int, rest: string)
    requires rest == [] || !IsDigit(rest[0])
    ensures ParseNumber(IntToString(n) + rest) == Some((n, rest))
  {
    if n < 0 {
      NegativeNumeral(n, NatDigits(-n), rest);
      NegativeNumberReadsBack(-n, rest, IntToString(n) + rest);
    } else {
      var ds := NatDigits(n);
      DigitsRoundTrip(n);
      ParseDigitRun(ds, rest);
      UnsignedDigits(ds + rest, n, rest);
    }
  }

  lemma ValueRoundTrip(v: Value, rest: string)
    requires rest == [] || !IsDigit(rest[0])
    ensures ParseValue(StringifyValue(v) + rest) == Some((v, rest))
  {
    match v
    case JString(x) =>
      QuoteRoundTrip(x, rest);
    case JNumber(n) =>
      NumberRoundTrip(n, rest);
      assert IsDigit(IntToString(n)[0]) || IntToString(n)[0] == '-';
  }

  /** A member read from its parts: a quoted key, a colon, a value. */
  lemma ParseMemberOf(s: string, key: string, afterKey: string, v: Value, rest: string)
    requires |s| > 0 && s[0] == '"' && ParseStringBody(s[1..]) == Some((key, afterKey))
    requires |afterKey| > 0 && afterKey[0] == ':' && ParseValue(afterKey[1..]) == Some((v, rest))
    ensures ParseMember(s) == Some(((key, v), rest))
  {
  }

  lemma RegroupMember(k: string, v: string, rest: string)
    ensures k + ":" + v + rest == k + (":" + (v + rest))
  {
  }

  lemma MemberRoundTrip(m: (string, Value), rest: string)
    requires rest == [] || !IsDigit(rest[0])
    ensures ParseMember(StringifyMember(m) + rest) == Some((m, rest))
  {
    var value := StringifyValue(m.1) + rest;
    var tail := ":" + value;
    RegroupMember(Quote(m.0), StringifyValue(m.1), rest);
    QuoteRoundTrip(m.0, tail);
    DropFirst(':', value);
    ValueRoundTrip(m.1, rest);
    ParseMemberOf(Quote(m.0) + tail, m.0, tail, m.1, rest);
  }

  lemma DropFirst(c: char, s: string)
    ensures ([c] + s)[0] == c && ([c] + s)[1..] == s
  {
  }

  lemma ParseMembersLast(s: string, m: (string, Value), after: string)
    requires ParseMember(s) == Some((m, after))
    requires |after| > 0 && after[0] == '}'
    ensures ParseMembers(s) == Some(([m], after[1..]))
  {
  }

  lemma ParseMembersMore(s: string, m: (string, Value), after: string, ms: Object, rest: string)
    requires ParseMember(s) == Some((m, after))
    requires |after| > 0 && after[0] == ','
    requires ParseMembers(after[1..]) == Some((ms, rest))
    ensures ParseMembers(s) == Some(([m] + ms, rest))
  {
  }

  lemma {:induction false} MembersRoundTrip(o: Object, rest: string)
    requires |o| >= 1
    ensures ParseMembers(StringifyMembers(o) + "}" + rest) == Some((o, rest))
    decreases |o|
  {
    if |o| == 1 {
      LastMemberRoundTrip(o[0], rest);
      assert [o[0]] == o;
    } else {
      MembersRoundTrip(o[1..], rest);
      MoreMembersRoundTrip(o[0], o[1..], rest);
      assert [o[0]] + o[1..] == o;
    }
  }

  /** The text of two or more members: the first, a comma, the rest. */
  lemma MoreMembersText(m: (string, Value), others: Object)
    requires |others| >= 1
    ensures StringifyMembers([m] + others) == StringifyMember(m) + "," + StringifyMembers(others)
  {
    assert ([m] + others)[1..] == others;
  }

  lemma Regroup(a: string, b: string, rest: string)
    ensures a + "," + b + "}" + rest == a + ("," + (b + "}" + rest))
  {
  }

  lemma MoreMembersRoundTrip(m: (string, Value), others: Object, rest: string)
    requires |others| >= 1
    requires ParseMembers(StringifyMembers(others) + "}" + rest) == Some((others, rest))
    ensures ParseMembers(StringifyMembers([m] + others) + "}" + rest) == Some(([m] + others, rest))
  {
    var inner := StringifyMembers(others) + "}" + rest;
    var after := "," + inner;
    MoreMembersText(m, others);
    Regroup(StringifyMember(m), StringifyMembers(others), rest);
    MemberRoundTrip(m, after);
    assert after[1..] == inner;
    ParseMembersMore(StringifyMember(m) + after, m, after, others, rest);
  }

  lemma LastMemberRoundTrip(m: (string, Value), rest: string)
    ensures ParseMembers(StringifyMember(m) + "}" + rest) == Some(([m], rest))
  {
    var after := "}" + rest;
    var s := StringifyMember(m) + after;
    assert StringifyMember(m) + "}" + rest == s;
    MemberRoundTrip(m, after);
    assert after[1..] == rest;
    ParseMembersLast(s, m, after);
  }

  lemma Associate(a: string, b: string, c: string, d: string)
    ensures (a + b + c) + d == a + (b + (c + d))
  {
  }

  /** The empty object is written `{}` and read back. */
  lemma EmptyObject()
    ensures Stringify([]) == "{}" && Parse("{}") == Some([])
  {
    assert StringifyMembers([]) == "";
  }

  lemma Braced(x: string)
    ensures "{" + x + "}" == "{" + (x + "}" + "")
  {
  }

  /** A brace, then members that read to the end of the text. */
  lemma ParseObjectOf(s: string, o: Object)
    requires |s| >= 2 && s[0] == '{' && s[1] != '}'
    requires ParseMembers(s[1..]) == Some((o, ""))
    ensures Parse(s) == Some(o)
  {
    assert s != "{}" by { assert "{}"[1] == '}'; }
  }

  /** `JSON.parse(JSON.stringify(o))` gives back every member, in order. */
  lemma ParseStringify(o: Object)
    ensures Parse(Stringify(o)) == Some(o)
  {
    if |o| == 0 {
      EmptyObject();
    } else {
      var body := StringifyMembers(o) + "}" + "";
      MembersRoundTrip(o, "");
      Braced(StringifyMembers(o));
      DropFirst('{', body);
      ParseObjectOf(Stringify(o), o);
    }
  }
}
