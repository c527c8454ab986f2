/** The JSON of flat records, as Python's json module writes it with ensure_ascii=False and reads it
    (RFC 8259, section 7 for the escapes). Anything that is not a flat object of strings, integers
    and nulls is refused: the record checks would refuse it as well. */
module Json {
  import opened Options
  import opened SyncTypes

  datatype Member = Member(key: string, value: Value)

  /** A value read from the front of a text, and the text after it. */
  datatype Parsed<T> = Parsed(value: T, rest: string)

  // ----- integers -----

  predicate IsDigit(c: char) {
    '0' <= c <= '9'
  }

  function DigitOf(n: nat): (c: char)
    requires n < 10
    ensures IsDigit(c) && c as int - '0' as int == n
    ensures c == '0' <==> n == 0
  {
    n as char + '0'
  }

  function NatText(n: nat): (s: string)
    ensures s != "" && forall c :: c in s ==> IsDigit(c)
    ensures s[0] == '0' ==> n == 0 && s == "0"
  {
    if n < 10 then [DigitOf(n)] else NatText(n / 10) + [DigitOf(n % 10)]
  }

  function IntText(n: int): string {
    if n < 0 then "-" + NatText(-n) else NatText(n)
  }

  function DigitsValue(s: string): nat
    requires forall c :: c in s ==> IsDigit(c)
  {
    if s == "" then 0
    else
      var c := s[|s| - 1];
      assert c in s && IsDigit(c);
      DigitsValue(s[..|s| - 1]) * 10 + (c as int - '0' as int) as nat
  }

  /** The longest beginning that consists of digits. */
  function Digits(s: string): (d: string)
    ensures |d| <= |s| && d == s[..|d|]
    ensures forall c :: c in d ==> IsDigit(c)
  {
    if s == "" || !IsDigit(s[0]) then "" else [s[0]] + Digits(s[1..])
  }

  function ParseNat(s: string): (p: Option<Parsed<int>>)
    ensures p.Some? ==> |p.value.rest| < |s|
  {
    var d := Digits(s);
    if d == "" then None
    else if d[0] == '0' then Some(Parsed(0, s[1..]))    // no leading zeros: more digits are an error later
    else Some(Parsed(DigitsValue(d), s[|d|..]))
  }

  function ParseInt(s: string): (p: Option<Parsed<int>>)
    ensures p.Some? ==> |p.value.rest| < |s|
  {
    if s != "" && s[0] == '-' then
      match ParseNat(s[1..])
      case Some(n) => Some(Parsed(-n.value, n.rest))
      case None => None
    else
      match ParseNat(s)
      case Some(n) => Some(Parsed(n.value, n.rest))
      case None => None
  }

  // ----- strings -----

  function HexOf(n: nat): char
    requires n < 16
  {
    if n < 10 then n as char + '0' else (n - 10) as char + 'a'
  }

  function HexValue(c: char): Option<nat> {
    if IsDigit(c) then Some(c as int - '0' as int)
    else if 'a' <= c <= 'f' then Some(c as int - 'a' as int + 10)
    else if 'A' <= c <= 'F' then Some(c as int - 'A' as int + 10)
    else None
  }

  /** Four hexadecimal digits at the front of a text. */
  function ParseHex(s: string): Option<nat> {
    if |s| < 4 then None
    else match (HexValue(s[0]), HexValue(s[1]), HexValue(s[2]), HexValue(s[3]))
      case (Some(a), Some(b), Some(c), Some(d)) => Some(((a * 16 + b) * 16 + c) * 16 + d)
      case _ => None
  }

  function Escape(c: char): (s: string)
    ensures s != "" && '\n' !in s
  {
    if c == '"' then "\\\""
    else if c == '\\' then "\\\\"
    else if c == '\n' then "\\n"
    else if c == '\r' then "\\r"
    else if c == '\t' then "\\t"
    else if c == '\U{000C}' then "\\f"
    else if c == '\U{0008}' then "\\b"
    else if c < ' ' then "\\u00" + [HexOf(c as int / 16), HexOf(c as int % 16)]
    else [c]
  }

  function EscapeAll(s: string): (e: string)
    ensures '\n' !in e
  {
    if s == "" then "" else Escape(s[0]) + EscapeAll(s[1..])
  }

  function Quoted(s: string): (q: string)
    ensures '\n' !in q
  {
    "\"" + EscapeAll(s) + "\""
  }

  predicate IsScalarValue(code: int) {
    0 <= code < 0xD800 || 0xE000 <= code < 0x11_0000
  }

  /** One character after a backslash. A pair of surrogate escapes is one character; a lone one is
      refused, since no such string can be encoded. */
  function ParseEscape(s: string): (p: Option<Parsed<char>>)
    ensures p.Some? ==> |p.value.rest| < |s|
  {
    if s == "" then None
    else if s[0] == '"' || s[0] == '\\' || s[0] == '/' then Some(Parsed(s[0], s[1..]))
    else if s[0] == 'n' then Some(Parsed('\n', s[1..]))
    else if s[0] == 'r' then Some(Parsed('\r', s[1..]))
    else if s[0] == 't' then Some(Parsed('\t', s[1..]))
    else if s[0] == 'f' then Some(Parsed('\U{000C}', s[1..]))
    else if s[0] == 'b' then Some(Parsed('\U{0008}', s[1..]))
    else if s[0] != 'u' then None
    else match ParseHex(s[1..])
      case None => None
      case Some(high) =>
        if IsScalarValue(high) then Some(Parsed(high as char, s[5..]))
        else if high < 0xDC00 && |s| >= 7 && s[5] == '\\' && s[6] == 'u' && ParseHex(s[7..]).Some? then
          var low := ParseHex(s[7..]).value;
          if 0xDC00 <= low < 0xE000
          then Some(Parsed((0x1_0000 + (high - 0xD800) * 0x400 + (low - 0xDC00)) as char, s[11..]))
          else None
        else None
  }

  /** The characters up to the closing quote. Control characters must be escaped. */
  function ParseCharacters(s: string): (p: Option<Parsed<string>>)
    ensures p.Some? ==> |p.value.rest| < |s|
  {
    if s == "" then None
    else if s[0] == '"' then Some(Parsed("", s[1..]))
    else if s[0] < ' ' then None
    else
      var first := if s[0] == '\\' then ParseEscape(s[1..]) else Some(Parsed(s[0], s[1..]));
      match first
      case None => None
      case Some(c) =>
        match ParseCharacters(c.rest)
        case None => None
        case Some(more) => Some(Parsed([c.value] + more.value, more.rest))
  }

  // ----- values and objects -----

  function ValueText(v: Value): (s: string)
    ensures '\n' !in s
  {
    match v
    case Null => "null"
    case Int(n) => IntText(n)
    case Text(s) => Quoted(s)
  }

  function ParseValue(s: string): (p: Option<Parsed<Value>>)
    ensures p.Some? ==> |p.value.rest| < |s|
  {
    if s == "" then None
    else if s[0] == '"' then
      match ParseCharacters(s[1..])
      case Some(t) => Some(Parsed(Text(t.value), t.rest))
      case None => None
    else if |s| >= 4 && s[..4] == "null" then Some(Parsed(Null, s[4..]))
    else
      match ParseInt(s)
      case Some(n) => Some(Parsed(Int(n.value), n.rest))
      case None => None
  }

  function MemberText(m: Member): (s: string)
    ensures '\n' !in s
  {
    Quoted(m.key) + ":" + ValueText(m.value)
  }

  /** The members, each but the first after a comma, and the closing brace. */
  function MembersText(ms: seq<Member>): (s: string)
    ensures '\n' !in s
  {
    if ms == [] then "}"
    else if |ms| == 1 then MemberText(ms[0]) + "}"
    else MemberText(ms[0]) + "," + MembersText(ms[1..])
  }

  function ObjectText(ms: seq<Member>): (s: string)
    ensures '\n' !in s
  {
    "{" + MembersText(ms)
  }

  predicate IsJsonSpace(c: char) {
    c == ' ' || c == '\t' || c == '\n' || c == '\r'
  }

  function SkipSpace(s: string): (r: string)
    ensures |r| <= |s|
  {
    if s != "" && IsJsonSpace(s[0]) then SkipSpace(s[1..]) else s
  }

  function ParseMember(s: string): (p: Option<Parsed<Member>>)
    ensures p.Some? ==> |p.value.rest| < |s|
  {
    if s == "" || s[0] != '"' then None
    else match ParseCharacters(s[1..])
      case None => None
      case Some(key) =>
        var colon := SkipSpace(key.rest);
        if colon == "" || colon[0] != ':' then None
        else match ParseValue(SkipSpace(colon[1..]))
          case None => None
          case Some(v) => Some(Parsed(Member(key.value, v.value), v.rest))
  }

  /** The members after the opening brace or a comma, up to the closing brace. */
  function ParseMembers(s: string): (p: Option<Parsed<seq<Member>>>)
    ensures p.Some? ==> |p.value.rest| < |s|
    decreases |s|, 1
  {
    match ParseMember(s)
    case None => None
    case Some(m) => ParseMore(m.value, SkipSpace(m.rest))
  }

  /** What follows a member: the closing brace, or a comma and more members. */
  function ParseMore(m: Member, s: string): (p: Option<Parsed<seq<Member>>>)
    ensures p.Some? ==> |p.value.rest| < |s|
    decreases |s|, 0
  {
    if s == "" then None
    else if s[0] == '}' then Some(Parsed([m], s[1..]))
    else if s[0] != ',' then None
    else match ParseMembers(SkipSpace(s[1..]))
      case None => None
      case Some(more) => Some(Parsed([m] + more.value, more.rest))
  }

  ghost predicate DistinctKeys(ms: seq<Member>) {
    forall i, j :: 0 <= i < j < |ms| ==> ms[i].key != ms[j].key
  }

  /** Whether some key comes twice. */
  predicate HasKey(ms: seq<Member>, key: string) {
    exists i :: 0 <= i < |ms| && ms[i].key == key
  }

  predicate KeysUnique(ms: seq<Member>)
    ensures KeysUnique(ms) <==> DistinctKeys(ms)
  {
    if ms == [] then true
    else
      var front, last := ms[..|ms| - 1], ms[|ms| - 1];
      assert DistinctKeys(ms) ==> DistinctKeys(front);
      !HasKey(front, last.key) && KeysUnique(front)
  }

  /** A whole text that is one object; duplicate fields are refused. */
  function ParseObject(s: string): Option<seq<Member>> {
    var text := SkipSpace(s);
    if text == "" || text[0] != '{' then None
    else
      var inner := SkipSpace(text[1..]);
      if inner != "" && inner[0] == '}' then (if SkipSpace(inner[1..]) == "" then Some([]) else None)
      else match ParseMembers(inner)
        case None => None
        case Some(p) => if SkipSpace(p.rest) == "" && KeysUnique(p.value) then Some(p.value) else None
  }

  // ----- what was written reads back -----

  lemma {:induction false} NatRoundTrip(n: nat)
    ensures DigitsValue(NatText(n)) == n
  {
    if n >= 10 {
      NatRoundTrip(n / 10);
      assert NatText(n)[..|NatText(n)| - 1] == NatText(n / 10);
    }
  }

  lemma {:induction false} DigitsOfPrefix(d: string, rest: string)
    requires forall c :: c in d ==> IsDigit(c)
    requires rest == "" || !IsDigit(rest[0])
    ensures Digits(d + rest) == d
  {
    if d == "" {
      assert d + rest == rest;
    } else {
      assert (d + rest)[1..] == d[1..] + rest;
      DigitsOfPrefix(d[1..], rest);
    }
  }

  lemma NatReadsBack(n: nat, rest: string)
    requires rest == "" || !IsDigit(rest[0])
    ensures ParseNat(NatText(n) + rest) == Some(Parsed(n as int, rest))
  {
    NatRoundTrip(n);
    DigitsOfPrefix(NatText(n), rest);
    assert (NatText(n) + rest)[|NatText(n)|..] == rest;
  }

  lemma NegativeIsRead(digits: string, n: nat, rest: string)
    requires ParseNat(digits + rest) == Some(Parsed(n as int, rest))
    ensures ParseInt("-" + digits + rest) == Some(Parsed(-(n as int), rest))
  {
    assert ("-" + digits + rest)[1..] == digits + rest;
  }

  lemma PositiveIsRead(digits: string, n: nat, rest: string)
    requires digits != "" && IsDigit(digits[0]) && ParseNat(digits + rest) == Some(Parsed(n as int, rest))
    ensures ParseInt(digits + rest) == Some(Parsed(n as int, rest))
  {
    assert (digits + rest)[0] == digits[0];
  }

  lemma IntRoundTrip(n: int, rest: string)
    requires rest == "" || !IsDigit(rest[0])
    ensures ParseInt(IntText(n) + rest) == Some(Parsed(n, rest))
  {
    var m: nat := if n < 0 then -n else n;
    NatReadsBack(m, rest);
    if n < 0 {
      NegativeIsRead(NatText(m), m, rest);
    } else {
      assert NatText(m)[0] in NatText(m);
      PositiveIsRead(NatText(m), m, rest);
    }
  }

  lemma HexRoundTrip(n: nat, rest: string)
    requires n < 32
    ensures ParseHex("00" + [HexOf(n / 16), HexOf(n % 16)] + rest) == Some(n)
  {
  }

  /** An escaped character reads back as itself, whatever follows. */
  lemma CharacterRoundTrip(c: char, rest: string)
    ensures var s := Escape(c) + rest;
            && s[0] != '"' && s[0] >= ' '
            && (if s[0] == '\\' then ParseEscape(s[1..]) else Some(Parsed(s[0], s[1..]))) == Some(Parsed(c, rest))
  {
    var s := Escape(c) + rest;
    if Escape(c) == [c] {
      assert s[1..] == rest;
    } else if |Escape(c)| == 2 {
      assert s[1..][1..] == rest;
    } else {
      var n := c as int;
      HexRoundTrip(n, rest);
      assert s[1..][1..] == "00" + [HexOf(n / 16), HexOf(n % 16)] + rest;
      assert s[1..][5..] == rest;
    }
  }

  lemma {:induction false} StringRoundTrip(s: string, rest: string)
    ensures ParseCharacters(EscapeAll(s) + "\"" + rest) == Some(Parsed(s, rest))
  {
    if s == "" {
      assert EscapeAll(s) + "\"" + rest == "\"" + rest;
    } else {
      var more := EscapeAll(s[1..]) + "\"" + rest;
      assert EscapeAll(s) + "\"" + rest == Escape(s[0]) + more;
      CharacterRoundTrip(s[0], more);
      StringRoundTrip(s[1..], rest);
      assert [s[0]] + s[1..] == s;
    }
  }

  lemma NullRoundTrip(rest: string)
    ensures ParseValue("null" + rest) == Some(Parsed(Null, rest))
  {
    var s := "null" + rest;
    assert s[..4] == "null" && s[4..] == rest;
  }

  lemma IntBegins(n: int)
    ensures IntText(n) != "" && (IntText(n)[0] == '-' || IsDigit(IntText(n)[0]))
  {
    assert n >= 0 ==> NatText(n)[0] in NatText(n);
  }

  lemma IntValueRoundTrip(n: int, rest: string)
    requires rest == "" || !IsDigit(rest[0])
    ensures ParseValue(IntText(n) + rest) == Some(Parsed(Int(n), rest))
  {
    var s := IntText(n) + rest;
    IntRoundTrip(n, rest);
    IntBegins(n);
    assert s[0] == IntText(n)[0];
    if |s| >= 4 {
      assert s[..4][0] == s[0];
    }
  }

  lemma TextRoundTrip(t: string, rest: string)
    ensures ParseValue(Quoted(t) + rest) == Some(Parsed(Text(t), rest))
  {
    var s := Quoted(t) + rest;
    StringRoundTrip(t, rest);
    assert s[1..] == EscapeAll(t) + "\"" + rest;
  }

  lemma ValueRoundTrip(v: Value, rest: string)
    requires rest == "" || !IsDigit(rest[0])
    ensures ParseValue(ValueText(v) + rest) == Some(Parsed(v, rest))
  {
    match v
    case Null => NullRoundTrip(rest);
    case Int(n) => IntValueRoundTrip(n, rest);
    case Text(t) => TextRoundTrip(t, rest);
  }

  lemma MemberIsRead(s: string, key: string, value: string, v: Value, rest: string)
    requires s != "" && s[0] == '"' && ParseCharacters(s[1..]) == Some(Parsed(key, ":" + value))
    requires value != "" && !IsJsonSpace(value[0]) && ParseValue(value) == Some(Parsed(v, rest))
    ensures ParseMember(s) == Some(Parsed(Member(key, v), rest))
  {
    assert (":" + value)[1..] == value;
    assert SkipSpace(value) == value;
    assert SkipSpace(":" + value) == ":" + value;
  }

  lemma MemberRoundTrip(m: Member, rest: string)
    requires rest == "" || !IsDigit(rest[0])
    ensures ParseMember(MemberText(m) + rest) == Some(Parsed(m, rest))
  {
    var value := ValueText(m.value) + rest;
    StringRoundTrip(m.key, ":" + value);
    MemberTextTail(EscapeAll(m.key), ValueText(m.value), rest);
    ValueRoundTrip(m.value, rest);
    ValueBegins(m.value);
    assert value[0] == ValueText(m.value)[0];
    MemberIsRead(MemberText(m) + rest, m.key, value, m.value, rest);
  }

  lemma MemberTextTail(key: string, value: string, rest: string)
    ensures ("\"" + key + "\"" + ":" + value + rest)[1..] == key + "\"" + (":" + (value + rest))
  {
  }

  /** No value begins with a space. */
  lemma ValueBegins(v: Value)
    ensures ValueText(v) != "" && !IsJsonSpace(ValueText(v)[0])
  {
    if v.Int? {
      assert v.n >= 0 ==> NatText(v.n)[0] in NatText(v.n);
    }
  }

  lemma MembersBegin(ms: seq<Member>)
    ensures MembersText(ms) != "" && MembersText(ms)[0] == if ms == [] then '}' else '"'
  {
    if ms != [] {
      assert MemberText(ms[0])[0] == '"';
    }
  }

  lemma AfterComma(m: Member, more: string, ms: seq<Member>, rest: string)
    requires ParseMembers(more) == Some(Parsed(ms, rest)) && more != "" && more[0] == '"'
    ensures ParseMore(m, "," + more) == Some(Parsed([m] + ms, rest))
  {
    assert ("," + more)[1..] == more;
    assert SkipSpace(more) == more;
  }

  lemma BeforeBrace(m: Member, rest: string)
    ensures ParseMore(m, "}" + rest) == Some(Parsed([m], rest))
  {
    assert ("}" + rest)[1..] == rest;
  }

  lemma FirstMember(m: Member, after: string)
    requires after != "" && (after[0] == ',' || after[0] == '}')
    ensures ParseMembers(MemberText(m) + after) == ParseMore(m, after)
  {
    MemberRoundTrip(m, after);
    assert SkipSpace(after) == after;
  }

  lemma OneMember(m: Member, rest: string)
    ensures ParseMembers(MembersText([m]) + rest) == Some(Parsed([m], rest))
  {
    FirstMember(m, "}" + rest);
    BeforeBrace(m, rest);
    assert MembersText([m]) + rest == MemberText(m) + ("}" + rest);
  }

  lemma Regroup(a: string, b: string, c: string, d: string)
    ensures a + b + c + d == a + (b + (c + d))
  {
  }

  lemma MembersTextCons(m: Member, ms: seq<Member>)
    requires ms != []
    ensures MembersText([m] + ms) == MemberText(m) + "," + MembersText(ms)
  {
    assert ([m] + ms)[1..] == ms;
  }

  lemma MoreMembers(m: Member, ms: seq<Member>, rest: string)
    requires ms != [] && ParseMembers(MembersText(ms) + rest) == Some(Parsed(ms, rest))
    ensures ParseMembers(MembersText([m] + ms) + rest) == Some(Parsed([m] + ms, rest))
  {
    var more := MembersText(ms) + rest;
    MembersBegin(ms);
    AfterComma(m, more, ms, rest);
    FirstMember(m, "," + more);
    MembersTextCons(m, ms);
    Regroup(MemberText(m), ",", MembersText(ms), rest);
  }

  lemma {:induction false} MembersRoundTrip(ms: seq<Member>, rest: string)
    requires ms != []
    ensures ParseMembers(MembersText(ms) + rest) == Some(Parsed(ms, rest))
  {
    if |ms| == 1 {
      OneMember(ms[0], rest);
      assert ms == [ms[0]];
    } else {
      MembersRoundTrip(ms[1..], rest);
      MoreMembers(ms[0], ms[1..], rest);
      assert ms == [ms[0]] + ms[1..];
    }
  }

  /** Every flat object with distinct keys reads back as it was written. */
  lemma {:induction false} ObjectRoundTrip(ms: seq<Member>)
    requires DistinctKeys(ms)
    ensures ParseObject(ObjectText(ms)) == Some(ms)
  {
    assert ObjectText(ms)[1..] == MembersText(ms);
    MembersBegin(ms);
    assert SkipSpace(MembersText(ms)) == MembersText(ms);
    if ms != [] {
      MembersRoundTrip(ms, "");
      assert MembersText(ms) + "" == MembersText(ms);
    }
  }

  // ----- where an object ends -----

  predicate IsSuffix(r: string, s: string) {
    |r| <= |s| && s[|s| - |r|..] == r
  }

  lemma SuffixTrans(r: string, s: string, t: string)
    requires IsSuffix(r, s) && IsSuffix(s, t)
    ensures IsSuffix(r, t)
  {
    assert t[|t| - |r|..] == t[|t| - |s|..][|s| - |r|..];
  }

  lemma {:induction false} SkipSpaceSuffix(s: string)
    ensures IsSuffix(SkipSpace(s), s)
  {
    if s != "" && IsJsonSpace(s[0]) {
      SkipSpaceSuffix(s[1..]);
      SuffixTrans(SkipSpace(s[1..]), s[1..], s);
    }
  }

  lemma {:induction false} CharactersSuffix(s: string)
    ensures ParseCharacters(s).Some? ==> IsSuffix(ParseCharacters(s).value.rest, s)
  {
    if s != "" && s[0] != '"' && s[0] >= ' ' {
      var first := if s[0] == '\\' then ParseEscape(s[1..]) else Some(Parsed(s[0], s[1..]));
      if first.Some? {
        EscapeSuffix(s[1..]);
        CharactersSuffix(first.value.rest);
        if ParseCharacters(first.value.rest).Some? {
          SuffixTrans(ParseCharacters(first.value.rest).value.rest, first.value.rest, s[1..]);
          SuffixTrans(ParseCharacters(first.value.rest).value.rest, s[1..], s);
        }
      }
    }
  }

  lemma EscapeSuffix(s: string)
    ensures ParseEscape(s).Some? ==> IsSuffix(ParseEscape(s).value.rest, s)
  {
  }

  lemma ValueSuffix(s: string)
    ensures ParseValue(s).Some? ==> IsSuffix(ParseValue(s).value.rest, s)
  {
    if s != "" && s[0] == '"' {
      CharactersSuffix(s[1..]);
      if ParseCharacters(s[1..]).Some? {
        SuffixTrans(ParseCharacters(s[1..]).value.rest, s[1..], s);
      }
    } else if s != "" && s[0] == '-' && ParseNat(s[1..]).Some? {
      SuffixTrans(ParseNat(s[1..]).value.rest, s[1..], s);
    }
  }

  lemma MemberSuffix(s: string)
    ensures ParseMember(s).Some? ==> IsSuffix(ParseMember(s).value.rest, s)
  {
    if ParseMember(s).Some? {
      var key := ParseCharacters(s[1..]).value;
      var colon := SkipSpace(key.rest);
      var value := SkipSpace(colon[1..]);
      CharactersSuffix(s[1..]);
      SkipSpaceSuffix(key.rest);
      SkipSpaceSuffix(colon[1..]);
      ValueSuffix(value);
      SuffixTrans(ParseMember(s).value.rest, value, colon[1..]);
      SuffixTrans(ParseMember(s).value.rest, colon[1..], colon);
      SuffixTrans(ParseMember(s).value.rest, colon, key.rest);
      SuffixTrans(ParseMember(s).value.rest, key.rest, s[1..]);
      SuffixTrans(ParseMember(s).value.rest, s[1..], s);
    }
  }

  /** The members end with a closing brace. */
  lemma {:induction false} MembersSuffix(s: string)
    ensures ParseMembers(s).Some? ==> IsSuffix("}" + ParseMembers(s).value.rest, s)
    decreases |s|
  {
    if ParseMembers(s).Some? {
      var m := ParseMember(s).value;
      var after := SkipSpace(m.rest);
      MemberSuffix(s);
      SkipSpaceSuffix(m.rest);
      SuffixTrans(after, m.rest, s);
      if after[0] == '}' {
        assert "}" + after[1..] == after;
      } else {
        var more := SkipSpace(after[1..]);
        SkipSpaceSuffix(after[1..]);
        MembersSuffix(more);
        var end := "}" + ParseMembers(more).value.rest;
        SuffixTrans(end, more, after[1..]);
        SuffixTrans(end, after[1..], after);
        SuffixTrans(end, after, s);
      }
    }
  }

  lemma {:induction false} OnlySpace(s: string)
    requires SkipSpace(s) == "" && s != ""
    ensures IsJsonSpace(s[|s| - 1])
  {
    if |s| > 1 {
      OnlySpace(s[1..]);
    }
  }

  lemma BraceThenSpace(rest: string, s: string)
    requires IsSuffix("}" + rest, s) && SkipSpace(rest) == ""
    ensures s != "" && (s[|s| - 1] == '}' || IsJsonSpace(s[|s| - 1]))
  {
    var end := "}" + rest;
    assert s[|s| - 1] == end[|end| - 1];
    if rest != "" {
      OnlySpace(rest);
    }
  }

  /** A text that is one object ends with its brace, or with white space. */
  lemma ObjectEnd(s: string)
    requires ParseObject(s).Some?
    ensures s != "" && (s[|s| - 1] == '}' || IsJsonSpace(s[|s| - 1]))
  {
    var text := SkipSpace(s);
    var inner := SkipSpace(text[1..]);
    SkipSpaceSuffix(s);
    SkipSpaceSuffix(text[1..]);
    SuffixTrans(inner, text[1..], text);
    SuffixTrans(inner, text, s);
    InnerEnd(inner, s);
  }

  lemma InnerEnd(inner: string, s: string)
    requires IsSuffix(inner, s) && inner != ""
    requires inner[0] == '}' ==> SkipSpace(inner[1..]) == ""
    requires inner[0] != '}' ==> ParseMembers(inner).Some? && SkipSpace(ParseMembers(inner).value.rest) == ""
    ensures s != "" && (s[|s| - 1] == '}' || IsJsonSpace(s[|s| - 1]))
  {
    if inner[0] == '}' {
      assert inner == "}" + inner[1..];
      BraceThenSpace(inner[1..], s);
    } else {
      var rest := ParseMembers(inner).value.rest;
      MembersSuffix(inner);
      SuffixTrans("}" + rest, inner, s);
      BraceThenSpace(rest, s);
    }
  }
}
