/** JSON documents as the handlers and components exchange them: `JSON.stringify`, `JSON.parse`
    for texts whose numbers are integers, and what JavaScript does when a parsed value is read
    (`v.key`, truthiness in `a || b`, string conversion in a template literal). */
module Json {
  import opened Text

  datatype Value =
    | Null
    | Bool(b: bool)
    | Num(n: int)
    | Str(s: string)
    | Arr(items: seq<Value>)
    | Obj(members: seq<Member>)

  /** One `"key": value` pair of an object, in insertion order. */
  datatype Member = Member(key: string, value: Value)

  // ---------------------------------------------------------------------------------------
  // JSON.stringify

  function HexDigit(d: nat): (c: char)
    requires d < 16
  {
    if d < 10 then ('0' as int + d) as char else ('a' as int + d - 10) as char
  }

  /** How `JSON.stringify` writes one character of a string. */
  function EscapeChar(c: char): (r: string)
    ensures r != [] && r[0] != '"'
  {
    if c == '"' then ['\\', '"']
    else if c == '\\' then ['\\', '\\']
    else if c == '\U{0008}' then ['\\', 'b']
    else if c == '\U{000C}' then ['\\', 'f']
    else if c == '\n' then ['\\', 'n']
    else if c == '\r' then ['\\', 'r']
    else if c == '\t' then ['\\', 't']
    else if (c as int) < 0x20 then ['\\', 'u', '0', '0', HexDigit(c as int / 16), HexDigit(c as int % 16)]
    else [c]
  }

  function Escape(s: string): string
  {
    if s == [] then [] else EscapeChar(s[0]) + Escape(s[1..])
  }

  function SerializeNumber(n: int): string
  {
    if n < 0 then "-" + Decimal(-n) else Decimal(n)
  }

  function Serialize(v: Value): (r: string)
    ensures r != [] && r[0] != ']' && r[0] != '}' && r[0] != ',' && !IsJsonSpace(r[0])
    decreases v, 2
  {
    match v
    case Null => "null"
    case Bool(b) => if b then "true" else "false"
    case Num(n) => SerializeNumber(n)
    case Str(s) => "\"" + Escape(s) + "\""
    case Arr(items) => "[" + SerializeItems(items) + "]"
    case Obj(ms) => "{" + SerializeMembers(ms) + "}"
  }

  /** The elements of an array, separated by commas. */
  function SerializeItems(items: seq<Value>): (r: string)
    ensures items != [] ==> r != [] && r[0] != ']' && !IsJsonSpace(r[0])
    decreases items, 1
  {
    if items == [] then ""
    else if |items| == 1 then Serialize(items[0])
    else Serialize(items[0]) + "," + SerializeItems(items[1..])
  }

  function SerializeMember(m: Member): (r: string)
    ensures r != [] && r[0] == '"'
    decreases m, 1
  {
    "\"" + Escape(m.key) + "\":" + Serialize(m.value)
  }

  /** The members of an object, separated by commas. */
  function SerializeMembers(ms: seq<Member>): (r: string)
    ensures ms != [] ==> r != [] && r[0] == '"'
    decreases ms, 1
  {
    if ms == [] then ""
    else if |ms| == 1 then SerializeMember(ms[0])
    else SerializeMember(ms[0]) + "," + SerializeMembers(ms[1..])
  }

  // ---------------------------------------------------------------------------------------
  // Parsing: every function returns the value read and the text after it.

  function HexValue(c: char): (r: Option<nat>)
    ensures r.Some? ==> r.value < 16
  {
    if '0' <= c <= '9' then Some(c as int - '0' as int)
    else if 'a' <= c <= 'f' then Some(c as int - 'a' as int + 10)
    else if 'A' <= c <= 'F' then Some(c as int - 'A' as int + 10)
    else None
  }

  /** The character denoted by the text after a backslash. */
  function ParseEscape(s: string): (r: Option<(char, string)>)
    ensures r.Some? ==> |r.value.1| < |s|
  {
    if s == [] then None
    else if s[0] == '"' then Some(('"', s[1..]))
    else if s[0] == '\\' then Some(('\\', s[1..]))
    else if s[0] == '/' then Some(('/', s[1..]))
    else if s[0] == 'b' then Some(('\U{0008}', s[1..]))
    else if s[0] == 'f' then Some(('\U{000C}', s[1..]))
    else if s[0] == 'n' then Some(('\n', s[1..]))
    else if s[0] == 'r' then Some(('\r', s[1..]))
    else if s[0] == 't' then Some(('\t', s[1..]))
    else if s[0] == 'u' && |s| >= 5 then
      match (HexValue(s[1]), HexValue(s[2]), HexValue(s[3]), HexValue(s[4]))
      case (Some(a), Some(b), Some(c), Some(d)) =>
        var code := ((a * 16 + b) * 16 + c) * 16 + d;
        if code < 0xD800 || 0xE000 <= code then Some((code as char, s[5..])) else None
      case _ => None
    else None
  }

  /** The body of a string literal up to and including its closing quote. */
  function ParseString(s: string): (r: Option<(string, string)>)
    ensures r.Some? ==> |r.value.1| < |s|
    decreases |s|
  {
    if s == [] then None
    else if s[0] == '"' then Some(([], s[1..]))
    else if s[0] == '\\' then
      match ParseEscape(s[1..])
      case None => None
      case Some((c, rest)) =>
        match ParseString(rest)
        case None => None
        case Some((t, rest2)) => Some(([c] + t, rest2))
    else if (s[0] as int) < 0x20 then None
    else
      match ParseString(s[1..])
      case None => None
      case Some((t, rest)) => Some(([s[0]] + t, rest))
  }

  /** An integer: an optional minus sign and digits without a superfluous leading zero. */
  function ParseNumber(s: string): (r: Option<(Value, string)>)
    ensures r.Some? ==> |r.value.1| < |s|
  {
    var neg := s != [] && s[0] == '-';
    var body := if neg then s[1..] else s;
    var k := DigitSpan(body);
    if k == 0 || (k > 1 && body[0] == '0') then None
    else
      var m: int := DigitsValue(body[..k]);
      Some((Num(if neg then -m else m), body[k..]))
  }

  /** The whitespace JSON allows between tokens: space, tab, line feed and carriage return. */
  predicate IsJsonSpace(c: char)
  {
    c == ' ' || c == '\t' || c == '\n' || c == '\r'
  }

  /** The text after any leading whitespace. */
  function SkipSpace(s: string): (r: string)
    ensures |r| <= |s|
    ensures r == [] || !IsJsonSpace(r[0])
  {
    if s != [] && IsJsonSpace(s[0]) then SkipSpace(s[1..]) else s
  }

  /** A value, after any whitespace before it. */
  function ParseValue(s: string): (r: Option<(Value, string)>)
    ensures r.Some? ==> |r.value.1| < |s|
    decreases |s|, 1
  {
    ParseToken(SkipSpace(s))
  }

  /** A value that starts at the first character of `t`. */
  function ParseToken(t: string): (r: Option<(Value, string)>)
    ensures r.Some? ==> |r.value.1| < |t|
    decreases |t|, 0
  {
    if t == [] then None
    else if IsPrefix("null", t) then Some((Null, t[4..]))
    else if IsPrefix("true", t) then Some((Bool(true), t[4..]))
    else if IsPrefix("false", t) then Some((Bool(false), t[5..]))
    else if t[0] == '"' then
      match ParseString(t[1..])
      case None => None
      case Some((text, rest)) => Some((Str(text), rest))
    else if t[0] == '-' || IsDigit(t[0]) then ParseNumber(t)
    else if t[0] == '[' then
      var inner := SkipSpace(t[1..]);
      if inner != [] && inner[0] == ']' then Some((Arr([]), inner[1..]))
      else
        match ParseItems(t[1..])
        case None => None
        case Some((items, rest)) => Some((Arr(items), rest))
    else if t[0] == '{' then
      var inner := SkipSpace(t[1..]);
      if inner != [] && inner[0] == '}' then Some((Obj([]), inner[1..]))
      else
        match ParseMembers(t[1..])
        case None => None
        case Some((ms, rest)) => Some((Obj(ms), rest))
    else None
  }

  /** One or more comma-separated values and the closing bracket. */
  function ParseItems(s: string): (r: Option<(seq<Value>, string)>)
    ensures r.Some? ==> |r.value.1| < |s|
    decreases |s|, 2
  {
    match ParseValue(s)
    case None => None
    case Some((v, r1)) =>
      var rest := SkipSpace(r1);
      if rest == [] then None
      else if rest[0] == ']' then Some(([v], rest[1..]))
      else if rest[0] == ',' then
        match ParseItems(rest[1..])
        case None => None
        case Some((vs, rest2)) => Some(([v] + vs, rest2))
      else None
  }

  /** One or more comma-separated `"key":value` pairs and the closing brace. */
  function ParseMembers(s: string): (r: Option<(seq<Member>, string)>)
    ensures r.Some? ==> |r.value.1| < |s|
    decreases |s|, 2
  {
    var t := SkipSpace(s);
    if t == [] || t[0] != '"' then None
    else
      match ParseString(t[1..])
      case None => None
      case Some((key, k1)) =>
        var r1 := SkipSpace(k1);
        if r1 == [] || r1[0] != ':' then None
        else
          match ParseValue(r1[1..])
          case None => None
          case Some((v, v1)) =>
            var r2 := SkipSpace(v1);
            if r2 == [] then None
            else if r2[0] == '}' then Some(([Member(key, v)], r2[1..]))
            else if r2[0] == ',' then
              match ParseMembers(r2[1..])
              case None => None
              case Some((ms, r3)) => Some(([Member(key, v)] + ms, r3))
            else None
  }

  /** `JSON.parse`: a whole text holding exactly one value with whitespace around its tokens;
      `None` where it throws. Numbers are integers, so a fraction or an exponent is rejected. */
  function Parse(s: string): Option<Value>
  {
    match ParseValue(s)
    case Some((v, rest)) => if SkipSpace(rest) == [] then Some(v) else None
    case None => None
  }

  // ---------------------------------------------------------------------------------------
  // Round trip: JSON.parse(JSON.stringify(v)) gives v back.

  lemma HexDigitValue(d: nat)
    requires d < 16
    ensures HexValue(HexDigit(d)) == Some(d)
  {
  }

  /** Reading back one escaped character yields that character. */
  lemma EscapeCharParses(c: char, tail: string)
    ensures ParseString(EscapeChar(c) + tail) ==
      match ParseString(tail)
      case None => None
      case Some((t, r)) => Some(([c] + t, r))
  {
    var e := EscapeChar(c);
    var s := e + tail;
    if |e| == 1 {
      assert s[0] == c && s[1..] == tail;
    } else if |e| == 2 {
      assert s[0] == '\\' && s[1..] == [e[1]] + tail;
      assert ParseEscape(s[1..]) == Some((c, tail));
    } else {
      var x := c as int;
      HexDigitValue(x / 16);
      HexDigitValue(x % 16);
      assert s[0] == '\\' && s[1..] == ['u', '0', '0', HexDigit(x / 16), HexDigit(x % 16)] + tail;
      assert s[1..][5..] == tail;
      assert ((0 * 16 + 0) * 16 + x / 16) * 16 + x % 16 == x;
      assert ParseEscape(s[1..]) == Some((c, tail));
    }
  }

  lemma {:induction false} EscapeParses(t: string, rest: string)
    ensures ParseString(Escape(t) + "\"" + rest) == Some((t, rest))
  {
    if t == [] {
      assert Escape(t) + "\"" + rest == ['"'] + rest;
    } else {
      assert Escape(t) + "\"" + rest == EscapeChar(t[0]) + (Escape(t[1..]) + "\"" + rest);
      EscapeCharParses(t[0], Escape(t[1..]) + "\"" + rest);
      EscapeParses(t[1..], rest);
      assert [t[0]] + t[1..] == t;
    }
  }

  /** Text that cannot extend a number written just before it. */
  predicate StopsNumber(rest: string)
  {
    rest == [] || !IsDigit(rest[0])
  }

  /** The digits of `Decimal(n)` are read back as `n`, and what follows them is left. */
  lemma DigitsParse(n: nat, rest: string)
    requires StopsNumber(rest)
    ensures var d := Decimal(n);
      DigitSpan(d + rest) == |d| && (d + rest)[..|d|] == d && (d + rest)[|d|..] == rest &&
      DigitsValue(d) == n
  {
    DecimalValue(n);
    DigitSpanOfDigits(Decimal(n), rest);
  }

  lemma NaturalParses(n: nat, rest: string)
    requires StopsNumber(rest)
    ensures ParseNumber(Decimal(n) + rest) == Some((Num(n), rest))
  {
    var d := Decimal(n);
    var s := d + rest;
    DigitsParse(n, rest);
    assert s[0] == d[0] && IsDigit(s[0]);
    var k := DigitSpan(s);
    assert k == |d|;
    assert k > 1 ==> s[0] != '0';
  }

  lemma NegativeParses(n: nat, rest: string)
    requires StopsNumber(rest) && n > 0
    ensures ParseNumber("-" + Decimal(n) + rest) == Some((Num(-(n as int)), rest))
  {
    var d := Decimal(n);
    var s := "-" + Decimal(n) + rest;
    DigitsParse(n, rest);
    assert s[0] == '-' && s[1..] == d + rest;
    var k := DigitSpan(s[1..]);
    assert k == |d|;
    assert k > 1 ==> s[1..][0] != '0';
  }

  lemma NumberParses(n: int, rest: string)
    requires StopsNumber(rest)
    ensures ParseNumber(SerializeNumber(n) + rest) == Some((Num(n), rest))
  {
    if n < 0 {
      NegativeParses(-n, rest);
    } else {
      NaturalParses(n, rest);
    }
  }

  /** Text that starts with a token is read from its first character. */
  lemma ValueAtToken(s: string)
    requires s != [] && !IsJsonSpace(s[0])
    ensures SkipSpace(s) == s && ParseValue(s) == ParseToken(s)
  {
  }

  lemma NumberValueParses(n: int, rest: string)
    requires StopsNumber(rest)
    ensures ParseValue(SerializeNumber(n) + rest) == Some((Num(n), rest))
  {
    NumberParses(n, rest);
    var s := SerializeNumber(n) + rest;
    assert s[0] == '-' || IsDigit(s[0]);
    NoKeyword(s);
    ValueAtToken(s);
  }

  lemma StrParses(t: string, rest: string)
    ensures ParseValue(Serialize(Str(t)) + rest) == Some((Str(t), rest))
  {
    var s := Serialize(Str(t)) + rest;
    assert s[0] == '"' && s[1..] == Escape(t) + "\"" + rest;
    EscapeParses(t, rest);
    NoKeyword(s);
    ValueAtToken(s);
  }

  /** Text that starts with neither 'n', 't' nor 'f' is no keyword. */
  lemma NoKeyword(s: string)
    requires s != [] && s[0] != 'n' && s[0] != 't' && s[0] != 'f'
    ensures !IsPrefix("null", s) && !IsPrefix("true", s) && !IsPrefix("false", s)
  {
    if |s| >= 4 {
      assert s[..4][0] == s[0];
    }
    if |s| >= 5 {
      assert s[..5][0] == s[0];
    }
  }

  /** How `ParseToken` reads a text that opens a bracket. */
  lemma ParseTokenAtBracket(s: string)
    requires s != [] && s[0] == '['
    ensures ParseToken(s) ==
      var inner := SkipSpace(s[1..]);
      if inner != [] && inner[0] == ']' then Some((Arr([]), inner[1..]))
      else match ParseItems(s[1..])
        case None => None
        case Some((items, r)) => Some((Arr(items), r))
  {
    NoKeyword(s);
  }

  /** How `ParseToken` reads a text that opens a brace. */
  lemma ParseTokenAtBrace(s: string)
    requires s != [] && s[0] == '{'
    ensures ParseToken(s) ==
      var inner := SkipSpace(s[1..]);
      if inner != [] && inner[0] == '}' then Some((Obj([]), inner[1..]))
      else match ParseMembers(s[1..])
        case None => None
        case Some((ms, r)) => Some((Obj(ms), r))
  {
    NoKeyword(s);
  }

  lemma {:induction false} ArrParses(items: seq<Value>, rest: string)
    ensures ParseValue(Serialize(Arr(items)) + rest) == Some((Arr(items), rest))
    decreases items, 2
  {
    var inner := SerializeItems(items);
    var s := Serialize(Arr(items)) + rest;
    assert s == "[" + (inner + "]" + rest);
    ValueAtToken(s);
    ParseTokenAtBracket(s);
    if items == [] {
      assert s[1..] == "]" + rest;
      assert SkipSpace(s[1..]) == s[1..];
    } else {
      assert s[1..] == inner + "]" + rest;
      assert s[1] == inner[0];
      assert SkipSpace(s[1..]) == s[1..];
      ItemsParse(items, rest);
    }
  }

  lemma {:induction false} ObjParses(ms: seq<Member>, rest: string)
    ensures ParseValue(Serialize(Obj(ms)) + rest) == Some((Obj(ms), rest))
    decreases ms, 2
  {
    var inner := SerializeMembers(ms);
    var s := Serialize(Obj(ms)) + rest;
    assert s == "{" + (inner + "}" + rest);
    ValueAtToken(s);
    ParseTokenAtBrace(s);
    if ms == [] {
      assert s[1..] == "}" + rest;
      assert SkipSpace(s[1..]) == s[1..];
    } else {
      assert s[1..] == inner + "}" + rest;
      assert s[1] == inner[0];
      assert SkipSpace(s[1..]) == s[1..];
      MembersParse(ms, rest);
    }
  }

  lemma {:induction false} ValueParses(v: Value, rest: string)
    requires StopsNumber(rest)
    ensures ParseValue(Serialize(v) + rest) == Some((v, rest))
    decreases v, 3
  {
    var s := Serialize(v) + rest;
    match v
    case Null =>
      assert s[..4] == "null" && s[4..] == rest;
      ValueAtToken(s);
    case Bool(b) =>
      ValueAtToken(s);
      if b {
        assert s[..4] == "true" && s[4..] == rest;
      } else {
        assert s[..5] == "false" && s[5..] == rest;
        assert !IsPrefix("null", s) && !IsPrefix("true", s);
      }
    case Num(n) =>
      NumberValueParses(n, rest);
    case Str(t) =>
      StrParses(t, rest);
    case Arr(items) =>
      ArrParses(items, rest);
    case Obj(ms) =>
      ObjParses(ms, rest);
  }

  /** How `ParseItems` goes on once a value has been read. */
  lemma ParseItemsStep(s: string, v: Value, r1: string)
    requires ParseValue(s) == Some((v, r1))
    requires r1 != [] && !IsJsonSpace(r1[0])
    ensures ParseItems(s) ==
      if r1[0] == ']' then Some(([v], r1[1..]))
      else if r1[0] == ',' then
        match ParseItems(r1[1..])
        case None => None
        case Some((vs, r2)) => Some(([v] + vs, r2))
      else None
  {
    assert SkipSpace(r1) == r1;
  }

  lemma {:induction false} ItemsParse(items: seq<Value>, rest: string)
    requires items != []
    ensures ParseItems(SerializeItems(items) + "]" + rest) == Some((items, rest))
    decreases items, 1
  {
    var head := items[0];
    var a := Serialize(head);
    if |items| == 1 {
      var after := "]" + rest;
      assert SerializeItems(items) == a;
      assert a + "]" + rest == a + after;
      ValueParses(head, after);
      ParseItemsStep(a + after, head, after);
      assert after[1..] == rest;
      assert [head] == items;
    } else {
      var b := SerializeItems(items[1..]);
      var after := "," + (b + "]" + rest);
      assert SerializeItems(items) == a + "," + b;
      assert a + "," + b + "]" + rest == a + after;
      ValueParses(head, after);
      ParseItemsStep(a + after, head, after);
      assert after[1..] == b + "]" + rest;
      ItemsParse(items[1..], rest);
      assert [head] + items[1..] == items;
    }
  }

  lemma {:induction false} MemberParses(m: Member, after: string)
    requires after != [] && (after[0] == ',' || after[0] == '}')
    ensures ParseString(SerializeMember(m)[1..] + after) ==
      Some((m.key, [':'] + Serialize(m.value) + after))
    decreases m, 1
  {
    assert SerializeMember(m)[1..] + after == Escape(m.key) + "\"" + ([':'] + Serialize(m.value) + after);
    EscapeParses(m.key, [':'] + Serialize(m.value) + after);
  }

  /** How `ParseMembers` goes on once a key, its colon and its value have been read. */
  lemma ParseMembersStep(s: string, key: string, r1: string, v: Value, r2: string)
    requires s != [] && s[0] == '"' && ParseString(s[1..]) == Some((key, r1))
    requires r1 != [] && r1[0] == ':' && ParseValue(r1[1..]) == Some((v, r2))
    requires r2 != [] && !IsJsonSpace(r2[0])
    ensures ParseMembers(s) ==
      if r2[0] == '}' then Some(([Member(key, v)], r2[1..]))
      else if r2[0] == ',' then
        match ParseMembers(r2[1..])
        case None => None
        case Some((ms, r3)) => Some(([Member(key, v)] + ms, r3))
      else None
  {
    assert SkipSpace(s) == s;
    assert SkipSpace(r1) == r1;
    assert SkipSpace(r2) == r2;
  }

  /** Reading one member, then the text `after` it. */
  lemma {:induction false} FirstMemberParses(m: Member, after: string)
    requires after != [] && (after[0] == ',' || after[0] == '}')
    ensures ParseMembers(SerializeMember(m) + after) ==
      if after[0] == '}' then Some(([m], after[1..]))
      else match ParseMembers(after[1..])
        case None => None
        case Some((ms, r3)) => Some(([m] + ms, r3))
    decreases m, 2
  {
    var s := SerializeMember(m) + after;
    var r1 := [':'] + Serialize(m.value) + after;
    assert s[0] == '"' && s[1..] == SerializeMember(m)[1..] + after;
    MemberParses(m, after);
    assert ParseString(s[1..]) == Some((m.key, r1));
    assert r1 != [] && r1[0] == ':' && r1[1..] == Serialize(m.value) + after;
    ValueParses(m.value, after);
    ParseMembersStep(s, m.key, r1, m.value, after);
  }

  lemma {:induction false} LastMemberParses(m: Member, rest: string)
    ensures ParseMembers(SerializeMember(m) + ("}" + rest)) == Some(([m], rest))
    decreases m, 3
  {
    FirstMemberParses(m, "}" + rest);
    assert ("}" + rest)[1..] == rest;
  }

  lemma {:induction false} NextMemberParses(ms: seq<Member>, rest: string)
    requires |ms| > 1
    ensures ParseMembers(SerializeMember(ms[0]) + ("," + (SerializeMembers(ms[1..]) + "}" + rest))) ==
      Some((ms, rest))
    decreases ms, 0
  {
    var tail := SerializeMembers(ms[1..]) + "}" + rest;
    FirstMemberParses(ms[0], "," + tail);
    assert ("," + tail)[1..] == tail;
    MembersParse(ms[1..], rest);
    assert [ms[0]] + ms[1..] == ms;
  }

  lemma {:induction false} MembersParse(ms: seq<Member>, rest: string)
    requires ms != []
    ensures ParseMembers(SerializeMembers(ms) + "}" + rest) == Some((ms, rest))
    decreases ms, 1
  {
    var a := SerializeMember(ms[0]);
    if |ms| == 1 {
      assert SerializeMembers(ms) == a;
      assert a + "}" + rest == a + ("}" + rest);
      LastMemberParses(ms[0], rest);
      assert [ms[0]] == ms;
    } else {
      var b := SerializeMembers(ms[1..]);
      assert SerializeMembers(ms) == a + "," + b;
      assert a + "," + b + "}" + rest == a + ("," + (b + "}" + rest));
      NextMemberParses(ms, rest);
    }
  }

  /** `JSON.parse(JSON.stringify(v))` is `v` for every document. */
  lemma RoundTrip(v: Value)
    ensures Parse(Serialize(v)) == Some(v)
  {
    ValueParses(v, []);
    assert Serialize(v) + [] == Serialize(v);
  }

  /** Text made of whitespace only. */
  predicate AllSpace(s: string)
  {
    forall i :: 0 <= i < |s| ==> IsJsonSpace(s[i])
  }

  lemma {:induction false} SkipLeadingSpace(pre: string, t: string)
    requires AllSpace(pre) && (t == [] || !IsJsonSpace(t[0]))
    ensures SkipSpace(pre + t) == t
    decreases |pre|
  {
    if pre == [] {
      assert pre + t == t;
    } else {
      assert (pre + t)[1..] == pre[1..] + t;
      assert IsJsonSpace((pre + t)[0]);
      SkipLeadingSpace(pre[1..], t);
    }
  }

  /** Whitespace before and after a document does not change what `JSON.parse` reads. */
  lemma ParseSkipsSurroundingSpace(v: Value, pre: string, post: string)
    requires AllSpace(pre) && AllSpace(post)
    ensures Parse(pre + Serialize(v) + post) == Some(v)
  {
    var text := Serialize(v);
    SkipLeadingSpace(pre, text + post);
    assert pre + text + post == pre + (text + post);
    assert post == [] || IsJsonSpace(post[0]);
    if post != [] {
      assert !IsDigit(post[0]);
    }
    ValueParses(v, post);
    ValueAtToken(text + post);
    SkipLeadingSpace(post, []);
    assert post + [] == post;
  }

  /** Whitespace before a value is skipped. */
  lemma SpacedValueParses(v: Value, c: string, rest: string)
    requires AllSpace(c) && StopsNumber(rest)
    ensures ParseValue(c + (Serialize(v) + rest)) == Some((v, rest))
  {
    var x := Serialize(v) + rest;
    ValueParses(v, rest);
    ValueAtToken(x);
    SkipLeadingSpace(c, x);
  }

  /** One member with whitespace around its colon and before the closing brace. */
  lemma SpacedLastMemberParses(key: string, v: Value, b: string, c: string, d: string)
    requires AllSpace(b) && AllSpace(c) && AllSpace(d)
    ensures ParseMembers("\"" + (Escape(key) + "\"" + (b + (":" + (c + (Serialize(v) + (d + "}"))))))) ==
      Some(([Member(key, v)], []))
  {
    var close := d + "}";
    var colon := ":" + (c + (Serialize(v) + close));
    var r1 := b + colon;
    var k := "\"" + (Escape(key) + "\"" + r1);
    assert k[1..] == Escape(key) + "\"" + r1;
    EscapeParses(key, r1);
    SkipLeadingSpace(b, colon);
    assert colon[1..] == c + (Serialize(v) + close);
    SkipLeadingSpace(d, "}");
    assert close == [] || !IsDigit(close[0]) by {
      assert close[0] == '}' || IsJsonSpace(close[0]);
    }
    SpacedValueParses(v, c, close);
    assert SkipSpace(k) == k;
  }

  /** An object of one member, with whitespace after the brace, around the colon and before
      the closing brace (as a pretty-printer writes it), is read like its compact form. */
  lemma SpacedMemberParses(key: string, v: Value, a: string, b: string, c: string, d: string)
    requires AllSpace(a) && AllSpace(b) && AllSpace(c) && AllSpace(d)
    ensures Parse("{" + (a + ("\"" + (Escape(key) + "\"" + (b + (":" + (c + (Serialize(v) + (d + "}"))))))))) ==
      Some(Obj([Member(key, v)]))
  {
    var k := "\"" + (Escape(key) + "\"" + (b + (":" + (c + (Serialize(v) + (d + "}"))))));
    var s := "{" + (a + k);
    SpacedLastMemberParses(key, v, b, c, d);
    assert s[1..] == a + k;
    SkipLeadingSpace(a, k);
    ValueAtToken(s);
    ParseTokenAtBrace(s);
    assert ParseValue(s) == Some((Obj([Member(key, v)]), []));
  }

  /** Serialisation is injective: different documents are stored as different texts. */
  lemma SerializeInjective(v: Value, w: Value)
    ensures Serialize(v) == Serialize(w) ==> v == w
  {
    RoundTrip(v);
    RoundTrip(w);
  }

  // ---------------------------------------------------------------------------------------
  // Reading parsed values the way JavaScript does. `None` stands for `undefined`.

  /** The value stored under `key` by the last member with that key, as `JSON.parse` keeps it. */
  function LastWith(ms: seq<Member>, key: string): (r: Option<Value>)
    ensures r.Some? ==> Member(key, r.value) in ms
    ensures r.None? ==> forall i :: 0 <= i < |ms| ==> ms[i].key != key
  {
    if ms == [] then None
    else if ms[|ms| - 1].key == key then Some(ms[|ms| - 1].value)
    else LastWith(ms[..|ms| - 1], key)
  }

  /** A member that no later member shadows is the one read. */
  lemma {:induction false} LastWithAt(ms: seq<Member>, i: nat, key: string)
    requires i < |ms| && ms[i].key == key
    requires forall j :: i < j < |ms| ==> ms[j].key != key
    ensures LastWith(ms, key) == Some(ms[i].value)
  {
    if i < |ms| - 1 {
      LastWithAt(ms[..|ms| - 1], i, key);
    }
  }

  /** A key no member has reads as `undefined`. */
  lemma LastWithAbsent(ms: seq<Member>, key: string)
    requires forall j :: 0 <= j < |ms| ==> ms[j].key != key
    ensures LastWith(ms, key).None?
  {
  }

  /** Object spread, `{ ...a, ...b }`: a key is read from `b` when `b` has it, else from `a`. */
  lemma {:induction false} LastWithConcat(a: seq<Member>, b: seq<Member>, key: string)
    ensures LastWith(a + b, key) == if LastWith(b, key).Some? then LastWith(b, key) else LastWith(a, key)
  {
    if b == [] {
      assert a + b == a;
    } else {
      var ab := a + b;
      assert ab[|ab| - 1] == b[|b| - 1];
      assert ab[..|ab| - 1] == a + b[..|b| - 1];
      LastWithConcat(a, b[..|b| - 1], key);
    }
  }

  /** `v.key` (or `v?.key`): only an object has named members; `null` and `undefined` have
      none, which in plain `v.key` is the `TypeError` the callers model separately. */
  function Field(v: Option<Value>, key: string): Option<Value>
  {
    match v
    case Some(Obj(ms)) => LastWith(ms, key)
    case _ => None
  }

  /** Truthiness, as `a || b` and `if (a)` see it. */
  predicate Truthy(v: Option<Value>)
  {
    match v
    case None => false
    case Some(Null) => false
    case Some(Bool(b)) => b
    case Some(Num(n)) => n != 0
    case Some(Str(s)) => s != []
    case Some(Arr(_)) => true
    case Some(Obj(_)) => true
  }

  /** `a || fallback`. */
  function OrElse(a: Option<Value>, fallback: Value): (r: Value)
    ensures Truthy(a) ==> Some(r) == a
    ensures !Truthy(a) ==> r == fallback
  {
    if Truthy(a) then a.value else fallback
  }

  /** How a template literal `${v}` converts a value to text. */
  function TemplateText(v: Option<Value>): string
  {
    match v
    case None => "undefined"
    case Some(w) => ValueText(w)
  }

  function ValueText(v: Value): string
    decreases v, 1
  {
    match v
    case Null => "null"
    case Bool(b) => if b then "true" else "false"
    case Num(n) => SerializeNumber(n)
    case Str(s) => s
    case Arr(items) => JoinItems(items)
    case Obj(_) => "[object Object]"
  }

  /** `Array.prototype.join(',')`, where a `null` element contributes nothing. */
  function JoinItems(items: seq<Value>): string
    decreases items, 0
  {
    if items == [] then ""
    else
      var first := if items[0].Null? then "" else ValueText(items[0]);
      if |items| == 1 then first else first + "," + JoinItems(items[1..])
  }
}
