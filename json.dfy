/** JSON values as RFC 8259 describes them, with the three JavaScript
    operations the core applies to them: `JSON.stringify` (ECMA-262 section
    25.5.2), `JSON.parse` (a recursive-descent reader of the RFC 8259 grammar)
    and ToBoolean truthiness (ECMA-262 section 7.1.2). The main theorem is the
    round trip `Parse(Stringify(v)) == Some(v)`, which the record write in the
    project page and the record read in the detail page depend on.

    An object is kept as the list of members the text spelled, duplicates and
    all, in their written order. `JSON.parse` instead builds a JavaScript
    object, which keeps one entry per key and lists integer-like keys first;
    only `Lookup`, which returns the last duplicate, agrees with it on such
    text. */
module Json {
  import opened Wrappers
  import opened Text

  datatype Json =
    | Null
    | Bool(b: bool)
    | Num(n: int)
    | Str(s: string)
    | Arr(items: seq<Json>)
    | Obj(members: seq<Member>)

  /** One `"key": value` pair of an object, in source order. */
  datatype Member = Member(key: string, value: Json)

  /** What a reader produced and the text left after it. */
  datatype Parsed<T> = Parsed(value: T, rest: string)

  // ---------------------------------------------------------------------------
  // Truthiness and property access
  // ---------------------------------------------------------------------------

  /** ToBoolean of a value; `None` stands for `undefined`. Arrays and objects
      are truthy even when empty; null, false, 0 and "" are falsy. */
  predicate Truthy(v: Option<Json>) {
    match v
    case None => false
    case Some(Null) => false
    case Some(Bool(b)) => b
    case Some(Num(n)) => n != 0
    case Some(Str(s)) => s != ""
    case Some(Arr(_)) => true
    case Some(Obj(_)) => true
  }

  /** The value of `key` among an object's members; `JSON.parse` keeps the last
      of duplicate keys. */
  function Lookup(members: seq<Member>, key: string): (r: Option<Json>)
    ensures r.Some? <==> exists i :: 0 <= i < |members| && members[i].key == key
    ensures r.Some? ==>
      exists i :: 0 <= i < |members| && members[i] == Member(key, r.value) &&
                  forall j :: i < j < |members| ==> members[j].key != key
  {
    if |members| == 0 then None
    else
      var last := members[|members| - 1];
      if last.key == key then Some(last.value)
      else
        var r := Lookup(members[..|members| - 1], key);
        assert forall i :: 0 <= i < |members| - 1 ==> members[..|members| - 1][i] == members[i];
        r
  }

  /** `v[key]` read through optional chaining (`v?.key`): an own member of an
      object, `undefined` for anything else. */
  function Get(v: Option<Json>, key: string): Option<Json>
  {
    match v
    case Some(Obj(members)) => Lookup(members, key)
    case _ => None
  }

  // ---------------------------------------------------------------------------
  // JSON.stringify
  // ---------------------------------------------------------------------------

  function HexDigit(d: nat): char
    requires d < 16
  {
    "0123456789abcdef"[d]
  }

  /** How `JSON.stringify` writes one character of a string: the two-character
      escapes, `\u00xx` for the remaining control characters, otherwise as is. */
  function QuoteChar(c: char): string
  {
    if c == '"' then "\\\""
    else if c == '\\' then "\\\\"
    else if c == '\U{08}' then "\\b"
    else if c == '\U{0C}' then "\\f"
    else if c == '\n' then "\\n"
    else if c == '\r' then "\\r"
    else if c == '\t' then "\\t"
    else if c < ' ' then "\\u00" + [HexDigit(c as int / 16), HexDigit(c as int % 16)]
    else [c]
  }

  /** The characters between the quotes of a stringified string. */
  function QuoteBody(s: string): string
  {
    if |s| == 0 then "" else QuoteChar(s[0]) + QuoteBody(s[1..])
  }

  function Quote(s: string): string
  {
    "\"" + QuoteBody(s) + "\""
  }

  /** `JSON.stringify(v)`: compact, no white space, members in order. */
  function Stringify(v: Json): string
  {
    match v
    case Null => "null"
    case Bool(b) => if b then "true" else "false"
    case Num(n) => IntToString(n)
    case Str(s) => Quote(s)
    case Arr(items) => "[" + StringifyItems(items) + "]"
    case Obj(members) => "{" + StringifyMembers(members) + "}"
  }

  function StringifyItems(items: seq<Json>): string
  {
    if |items| == 0 then ""
    else if |items| == 1 then Stringify(items[0])
    else Stringify(items[0]) + "," + StringifyItems(items[1..])
  }

  function StringifyMember(m: Member): string
  {
    Quote(m.key) + ":" + Stringify(m.value)
  }

  function StringifyMembers(members: seq<Member>): string
  {
    if |members| == 0 then ""
    else if |members| == 1 then StringifyMember(members[0])
    else StringifyMember(members[0]) + "," + StringifyMembers(members[1..])
  }

  // ---------------------------------------------------------------------------
  // JSON.parse
  // ---------------------------------------------------------------------------

  /** The four white-space characters RFC 8259 allows between tokens. */
  predicate IsWs(c: char) {
    c == ' ' || c == '\t' || c == '\n' || c == '\r'
  }

  function SkipWs(s: string): (r: string)
    ensures |r| <= |s|
    ensures |r| > 0 ==> !IsWs(r[0])
  {
    if |s| > 0 && IsWs(s[0]) then SkipWs(s[1..]) else s
  }

  function HexValue(c: char): Option<nat>
  {
    if '0' <= c <= '9' then Some(c as int - '0' as int)
    else if 'a' <= c <= 'f' then Some(c as int - 'a' as int + 10)
    else if 'A' <= c <= 'F' then Some(c as int - 'A' as int + 10)
    else None
  }

  /** The code point named by four hexadecimal digits. */
  function Hex4(s: string): (r: Option<nat>)
    requires |s| >= 4
    ensures r.Some? ==> r.value < 0x10000
  {
    match (HexValue(s[0]), HexValue(s[1]), HexValue(s[2]), HexValue(s[3]))
    case (Some(a), Some(b), Some(c), Some(d)) =>
      if a < 16 && b < 16 && c < 16 && d < 16 then Some(((a * 16 + b) * 16 + c) * 16 + d) else None
    case _ => None
  }

  /** Reads the escape after a backslash. */
  function ParseEscape(s: string): (r: Option<Parsed<char>>)
    ensures r.Some? ==> |r.value.rest| < |s|
  {
    if |s| == 0 then None
    else if s[0] == '"' then Some(Parsed('"', s[1..]))
    else if s[0] == '\\' then Some(Parsed('\\', s[1..]))
    else if s[0] == '/' then Some(Parsed('/', s[1..]))
    else if s[0] == 'b' then Some(Parsed('\U{08}', s[1..]))
    else if s[0] == 'f' then Some(Parsed('\U{0C}', s[1..]))
    else if s[0] == 'n' then Some(Parsed('\n', s[1..]))
    else if s[0] == 'r' then Some(Parsed('\r', s[1..]))
    else if s[0] == 't' then Some(Parsed('\t', s[1..]))
    else if s[0] == 'u' && |s| >= 5 then
      match Hex4(s[1..5])
      case Some(v) =>
        if 0xD800 <= v < 0xE000 then None else Some(Parsed(v as char, s[5..]))
      case None => None
    else None
  }

  /** Reads the characters of a string up to and including its closing quote. */
  function ParseStringBody(s: string): (r: Option<Parsed<string>>)
    ensures r.Some? ==> |r.value.rest| < |s|
  {
    if |s| == 0 then None
    else if s[0] == '"' then Some(Parsed("", s[1..]))
    else if s[0] == '\\' then
      match ParseEscape(s[1..])
      case None => None
      case Some(Parsed(c, t)) =>
        match ParseStringBody(t)
        case None => None
        case Some(Parsed(body, u)) => Some(Parsed([c] + body, u))
    else if s[0] < ' ' then None
    else
      match ParseStringBody(s[1..])
      case None => None
      case Some(Parsed(body, u)) => Some(Parsed([s[0]] + body, u))
  }

  /** The length of the run of digits at the start of `s`. */
  function DigitSpan(s: string): (k: nat)
    ensures k <= |s| && AllDigits(s[..k])
    ensures k < |s| ==> !IsDigit(s[k])
  {
    if |s| > 0 && IsDigit(s[0]) then
      var k := 1 + DigitSpan(s[1..]);
      assert forall i :: 1 <= i < k ==> s[..k][i] == s[1..][..k - 1][i - 1];
      k
    else 0
  }

  /** Reads `-? (0 | [1-9][0-9]*)`. */
  function ParseNumber(s: string): (r: Option<Parsed<Json>>)
    ensures r.Some? ==> |r.value.rest| < |s|
  {
    var neg := |s| > 0 && s[0] == '-';
    var u := if neg then s[1..] else s;
    if |u| == 0 || !IsDigit(u[0]) then None
    else
      var k := if u[0] == '0' then 1 else DigitSpan(u);
      var magnitude: int := DigitsValue(u[..k]);
      Some(Parsed(Num(if neg then -magnitude else magnitude), u[k..]))
  }

  function ParseLiteral(s: string, word: string, v: Json): (r: Option<Parsed<Json>>)
    requires |word| > 0
    ensures r.Some? ==> |r.value.rest| < |s|
  {
    if |s| >= |word| && s[..|word|] == word then Some(Parsed(v, s[|word|..])) else None
  }

  /** Reads one value, skipping white space before it. */
  function ParseValue(s: string): (r: Option<Parsed<Json>>)
    ensures r.Some? ==> |r.value.rest| < |s|
    decreases |s|, 0
  {
    var t := SkipWs(s);
    if |t| == 0 then None
    else if t[0] == 'n' then ParseLiteral(t, "null", Null)
    else if t[0] == 't' then ParseLiteral(t, "true", Bool(true))
    else if t[0] == 'f' then ParseLiteral(t, "false", Bool(false))
    else if t[0] == '"' then
      match ParseStringBody(t[1..])
      case None => None
      case Some(Parsed(body, u)) => Some(Parsed(Str(body), u))
    else if t[0] == '[' then ParseArray(t[1..])
    else if t[0] == '{' then ParseObject(t[1..])
    else if t[0] == '-' || IsDigit(t[0]) then ParseNumber(t)
    else None
  }

  /** Reads the rest of an array after its `[`. */
  function ParseArray(s: string): (r: Option<Parsed<Json>>)
    ensures r.Some? ==> |r.value.rest| < |s|
    decreases |s|, 2
  {
    var t := SkipWs(s);
    if |t| > 0 && t[0] == ']' then Some(Parsed(Arr([]), t[1..]))
    else
      match ParseItems(t)
      case None => None
      case Some(Parsed(items, u)) => Some(Parsed(Arr(items), u))
  }

  /** Reads `value (, value)* ]`. */
  function ParseItems(s: string): (r: Option<Parsed<seq<Json>>>)
    ensures r.Some? ==> |r.value.rest| < |s|
    decreases |s|, 1
  {
    match ParseValue(s)
    case None => None
    case Some(Parsed(v, t)) =>
      var u := SkipWs(t);
      if |u| == 0 then None
      else if u[0] == ']' then Some(Parsed([v], u[1..]))
      else if u[0] == ',' then
        match ParseItems(u[1..])
        case None => None
        case Some(Parsed(vs, w)) => Some(Parsed([v] + vs, w))
      else None
  }

  /** Reads the rest of an object after its `{`. */
  function ParseObject(s: string): (r: Option<Parsed<Json>>)
    ensures r.Some? ==> |r.value.rest| < |s|
    decreases |s|, 2
  {
    var t := SkipWs(s);
    if |t| > 0 && t[0] == '}' then Some(Parsed(Obj([]), t[1..]))
    else
      match ParseMembers(t)
      case None => None
      case Some(Parsed(members, u)) => Some(Parsed(Obj(members), u))
  }

  /** Reads a member's key and the `:` after it. */
  function ParseKey(s: string): (r: Option<Parsed<string>>)
    ensures r.Some? ==> |r.value.rest| < |s|
  {
    var t := SkipWs(s);
    if |t| == 0 || t[0] != '"' then None
    else
      match ParseStringBody(t[1..])
      case None => None
      case Some(Parsed(key, t1)) =>
        var t2 := SkipWs(t1);
        if |t2| == 0 || t2[0] != ':' then None
        else Some(Parsed(key, t2[1..]))
  }

  /** Reads one `"key": value` pair. */
  function ParseMember(s: string): (r: Option<Parsed<Member>>)
    ensures r.Some? ==> |r.value.rest| < |s|
    decreases |s|, 0
  {
    match ParseKey(s)
    case None => None
    case Some(Parsed(key, t)) =>
      match ParseValue(t)
      case None => None
      case Some(Parsed(v, u)) => Some(Parsed(Member(key, v), u))
  }

  /** Reads `"key": value (, "key": value)* }`. */
  function ParseMembers(s: string): (r: Option<Parsed<seq<Member>>>)
    ensures r.Some? ==> |r.value.rest| < |s|
    decreases |s|, 1
  {
    match ParseMember(s)
    case None => None
    case Some(Parsed(m, t)) =>
      var u := SkipWs(t);
      if |u| == 0 then None
      else if u[0] == '}' then Some(Parsed([m], u[1..]))
      else if u[0] == ',' then
        match ParseMembers(u[1..])
        case None => None
        case Some(Parsed(ms, w)) => Some(Parsed([m] + ms, w))
      else None
  }

  /** `JSON.parse(text)`: one value, white space around it, nothing else.
      `None` stands for the SyntaxError it throws. */
  function Parse(text: string): Option<Json>
  {
    match ParseValue(text)
    case None => None
    case Some(Parsed(v, rest)) => if SkipWs(rest) == "" then Some(v) else None
  }

  // ---------------------------------------------------------------------------
  // The round trip
  // ---------------------------------------------------------------------------

  /** Text that cannot continue a number written just before it. */
  predicate Delimited(rest: string) {
    rest == "" || !IsDigit(rest[0])
  }

  lemma SkipWsNone(s: string)
    requires s == "" || !IsWs(s[0])
    ensures SkipWs(s) == s
  {
  }

  lemma {:induction false} QuoteCharRoundTrip(c: char, tail: string)
    ensures ParseStringBody(QuoteChar(c) + tail) ==
      match ParseStringBody(tail)
      case None => None
      case Some(Parsed(body, u)) => Some(Parsed([c] + body, u))
  {
    if c == '"' || c == '\\' || c == '\U{08}' || c == '\U{0C}' || c == '\n' || c == '\r' || c == '\t' {
      ShortEscapeRoundTrip(c, tail);
    } else if c < ' ' {
      ControlRoundTrip(c, tail);
    } else {
      var s := QuoteChar(c) + tail;
      assert s[0] == c && s[1..] == tail;
    }
  }

  /** The two-character escapes are read back as the character they name. */
  lemma ShortEscapeRoundTrip(c: char, tail: string)
    requires c == '"' || c == '\\' || c == '\U{08}' || c == '\U{0C}' || c == '\n' || c == '\r' || c == '\t'
    ensures ParseStringBody(QuoteChar(c) + tail) ==
      match ParseStringBody(tail)
      case None => None
      case Some(Parsed(body, u)) => Some(Parsed([c] + body, u))
  {
    var q := QuoteChar(c);
    var s := q + tail;
    assert s[1..] == [q[1]] + tail;
    assert s[1..][1..] == tail;
    assert ParseEscape(s[1..]) == Some(Parsed(c, tail));
  }

  /** `\u00xx` is read back as the control character it names. */
  lemma ControlRoundTrip(c: char, tail: string)
    requires c < ' ' && !(c == '\U{08}' || c == '\U{0C}' || c == '\n' || c == '\r' || c == '\t')
    ensures ParseStringBody(QuoteChar(c) + tail) ==
      match ParseStringBody(tail)
      case None => None
      case Some(Parsed(body, u)) => Some(Parsed([c] + body, u))
  {
    var s := QuoteChar(c) + tail;
    var hi, lo := c as int / 16, c as int % 16;
    assert s[1..] == ['u', '0', '0', HexDigit(hi), HexDigit(lo)] + tail;
    assert s[1..][1..5] == ['0', '0', HexDigit(hi), HexDigit(lo)];
    assert HexValue(HexDigit(hi)) == Some(hi);
    assert HexValue(HexDigit(lo)) == Some(lo);
    assert s[1..][5..] == tail;
    assert ParseEscape(s[1..]) == Some(Parsed(c, tail));
  }

  lemma {:induction false} QuoteBodyRoundTrip(str: string, rest: string)
    ensures ParseStringBody(QuoteBody(str) + "\"" + rest) == Some(Parsed(str, rest))
  {
    if |str| == 0 {
      assert QuoteBody(str) + "\"" + rest == "\"" + rest;
    } else {
      QuoteBodyRoundTrip(str[1..], rest);
      assert QuoteBody(str) + "\"" + rest == QuoteChar(str[0]) + (QuoteBody(str[1..]) + "\"" + rest);
      QuoteCharRoundTrip(str[0], QuoteBody(str[1..]) + "\"" + rest);
      assert [str[0]] + str[1..] == str;
    }
  }

  lemma {:induction false} NatRoundTrip(n: nat, rest: string)
    requires Delimited(rest)
    ensures var s := NatToString(n) + rest;
      DigitSpan(s) == |NatToString(n)| && s[..|NatToString(n)|] == NatToString(n)
  {
    var d := NatToString(n);
    var s := d + rest;
    var k := DigitSpan(s);
    assert s[..|d|] == d;
  }

  lemma NumberRoundTrip(n: int, rest: string)
    requires Delimited(rest)
    ensures ParseNumber(IntToString(n) + rest) == Some(Parsed(Num(n), rest))
  {
    var m := if n < 0 then -n else n;
    MagnitudeRoundTrip(m, rest);
    SignRoundTrip(n, rest);
  }

  /** Reading a number is reading its magnitude after an optional minus sign. */
  lemma SignRoundTrip(n: int, rest: string)
    ensures var s := IntToString(n) + rest;
      (|s| > 0 && s[0] == '-') == (n < 0) &&
      (if n < 0 then s[1..] else s) == NatToString(if n < 0 then -n else n) + rest
  {
    var s := IntToString(n) + rest;
    if n < 0 {
      assert s == "-" + (NatToString(-n) + rest);
    }
  }

  /** The digits of a magnitude, followed by a delimiter, are read back as
      that magnitude, up to the delimiter. */
  lemma MagnitudeRoundTrip(m: nat, rest: string)
    requires Delimited(rest)
    ensures var d := NatToString(m);
      var u := d + rest;
      var k := if u[0] == '0' then 1 else DigitSpan(u);
      |u| > 0 && IsDigit(u[0]) && k == |d| && u[..k] == d && u[k..] == rest && DigitsValue(d) == m
  {
    var d := NatToString(m);
    var u := d + rest;
    NatRoundTrip(m, rest);
    if u[0] == '0' {
      assert d == "0";
    }
    assert u[|d|..] == rest;
  }

  /** The first character of a written value: never white space, and a digit
      or minus sign only for numbers. */
  lemma StringifyStart(v: Json)
    ensures |Stringify(v)| > 0 && !IsWs(Stringify(v)[0])
  {
    match v
    case Num(n) =>
      assert IsDigit(NatToString(if n < 0 then -n else n)[0]);
    case _ =>
  }

  lemma LiteralRoundTrip(v: Json, rest: string)
    requires v.Null? || v.Bool?
    ensures ParseValue(Stringify(v) + rest) == Some(Parsed(v, rest))
  {
    var s := Stringify(v) + rest;
    SkipWsNone(s);
    if v.Null? {
      assert s[..4] == "null" && s[4..] == rest;
    } else if v.b {
      assert s[..4] == "true" && s[4..] == rest;
    } else {
      assert s[..5] == "false" && s[5..] == rest;
    }
  }

  lemma NumValueRoundTrip(n: int, rest: string)
    requires Delimited(rest)
    ensures ParseValue(Stringify(Num(n)) + rest) == Some(Parsed(Num(n), rest))
  {
    var s := Stringify(Num(n)) + rest;
    assert IsDigit(NatToString(if n < 0 then -n else n)[0]);
    SkipWsNone(s);
    NumberRoundTrip(n, rest);
  }

  lemma StrValueRoundTrip(str: string, rest: string)
    ensures ParseValue(Stringify(Str(str)) + rest) == Some(Parsed(Str(str), rest))
  {
    var s := Stringify(Str(str)) + rest;
    SkipWsNone(s);
    assert s[1..] == QuoteBody(str) + "\"" + rest;
    QuoteBodyRoundTrip(str, rest);
  }

  lemma ParseValueArray(body: string)
    ensures ParseValue("[" + body) == ParseArray(body)
  {
    SkipWsNone("[" + body);
    assert ("[" + body)[1..] == body;
  }

  lemma ParseValueObject(body: string)
    ensures ParseValue("{" + body) == ParseObject(body)
  {
    SkipWsNone("{" + body);
    assert ("{" + body)[1..] == body;
  }

  /** One step of reading an array's items: the item, then `]` or `,`. */
  lemma ParseItemsStep(v: Json, tail: string)
    requires ParseValue(Stringify(v) + tail) == Some(Parsed(v, tail))
    requires |tail| > 0 && (tail[0] == ']' || tail[0] == ',')
    ensures ParseItems(Stringify(v) + tail) ==
      if tail[0] == ']' then Some(Parsed([v], tail[1..]))
      else
        match ParseItems(tail[1..])
        case None => None
        case Some(Parsed(vs, w)) => Some(Parsed([v] + vs, w))
  {
    SkipWsNone(tail);
  }

  /** The `,` case of `ParseItemsStep`. */
  lemma ParseItemsComma(v: Json, more: string)
    requires ParseValue(Stringify(v) + ("," + more)) == Some(Parsed(v, "," + more))
    ensures ParseItems(Stringify(v) + ("," + more)) ==
      match ParseItems(more)
      case None => None
      case Some(Parsed(vs, w)) => Some(Parsed([v] + vs, w))
  {
    ParseItemsStep(v, "," + more);
    assert ("," + more)[1..] == more;
  }

  lemma KeyRoundTrip(key: string, after: string)
    ensures ParseKey(Quote(key) + ":" + after) == Some(Parsed(key, after))
  {
    var s := Quote(key) + ":" + after;
    var t1 := ":" + after;
    assert s == "\"" + (QuoteBody(key) + "\"" + t1);
    SkipWsNone(s);
    assert s[1..] == QuoteBody(key) + "\"" + t1;
    QuoteBodyRoundTrip(key, t1);
    SkipWsNone(t1);
    assert t1[1..] == after;
  }

  /** Reading a written member, given that its value reads back. */
  lemma {:induction false} MemberRoundTrip(m: Member, tail: string)
    requires Delimited(tail)
    ensures ParseMember(StringifyMember(m) + tail) == Some(Parsed(m, tail))
    decreases m, 0
  {
    var after := Stringify(m.value) + tail;
    assert StringifyMember(m) + tail == Quote(m.key) + ":" + after;
    KeyRoundTrip(m.key, after);
    ValueRoundTrip(m.value, tail);
  }

  /** One step of reading an object's members: the member, then `}` or `,`. */
  lemma ParseMembersStep(m: Member, tail: string)
    requires ParseMember(StringifyMember(m) + tail) == Some(Parsed(m, tail))
    requires |tail| > 0 && (tail[0] == '}' || tail[0] == ',')
    ensures ParseMembers(StringifyMember(m) + tail) ==
      if tail[0] == '}' then Some(Parsed([m], tail[1..]))
      else
        match ParseMembers(tail[1..])
        case None => None
        case Some(Parsed(ms, w)) => Some(Parsed([m] + ms, w))
  {
    SkipWsNone(tail);
  }

  /** The `,` case of `ParseMembersStep`. */
  lemma ParseMembersComma(m: Member, more: string)
    requires ParseMember(StringifyMember(m) + ("," + more)) == Some(Parsed(m, "," + more))
    ensures ParseMembers(StringifyMember(m) + ("," + more)) ==
      match ParseMembers(more)
      case None => None
      case Some(Parsed(ms, w)) => Some(Parsed([m] + ms, w))
  {
    ParseMembersStep(m, "," + more);
    assert ("," + more)[1..] == more;
  }

  /** Reading a written value gives the value back, and stops exactly at its end. */
  lemma {:induction false} ValueRoundTrip(v: Json, rest: string)
    requires Delimited(rest)
    ensures ParseValue(Stringify(v) + rest) == Some(Parsed(v, rest))
    decreases v, 1
  {
    match v
    case Null => LiteralRoundTrip(v, rest);
    case Bool(_) => LiteralRoundTrip(v, rest);
    case Num(n) => NumValueRoundTrip(n, rest);
    case Str(str) => StrValueRoundTrip(str, rest);
    case Arr(items) => ArrValueRoundTrip(items, rest);
    case Obj(members) => ObjValueRoundTrip(members, rest);
  }

  lemma {:induction false} ArrValueRoundTrip(items: seq<Json>, rest: string)
    ensures ParseValue(Stringify(Arr(items)) + rest) == Some(Parsed(Arr(items), rest))
    decreases items, 4
  {
    assert Stringify(Arr(items)) + rest == "[" + (StringifyItems(items) + "]" + rest);
    ParseValueArray(StringifyItems(items) + "]" + rest);
    ArrayRoundTrip(items, rest);
  }

  lemma {:induction false} ObjValueRoundTrip(members: seq<Member>, rest: string)
    ensures ParseValue(Stringify(Obj(members)) + rest) == Some(Parsed(Obj(members), rest))
    decreases members, 4
  {
    assert Stringify(Obj(members)) + rest == "{" + (StringifyMembers(members) + "}" + rest);
    ParseValueObject(StringifyMembers(members) + "}" + rest);
    ObjectRoundTrip(members, rest);
  }

  lemma {:induction false} ArrayRoundTrip(items: seq<Json>, rest: string)
    ensures ParseArray(StringifyItems(items) + "]" + rest) == Some(Parsed(Arr(items), rest))
    decreases items, 3
  {
    var s := StringifyItems(items) + "]" + rest;
    if |items| == 0 {
      assert s == "]" + rest;
      EmptyBody(']', rest);
    } else {
      StringifyStart(items[0]);
      SkipWsNone(s);
      ItemsRoundTrip(items, rest);
    }
  }

  lemma {:induction false} ItemsRoundTrip(items: seq<Json>, rest: string)
    requires |items| > 0
    ensures ParseItems(StringifyItems(items) + "]" + rest) == Some(Parsed(items, rest))
    decreases items, 2
  {
    if |items| == 1 {
      LastItemRoundTrip(items, rest);
    } else {
      NextItemRoundTrip(items, rest);
    }
  }

  lemma {:induction false} LastItemRoundTrip(items: seq<Json>, rest: string)
    requires |items| == 1
    ensures ParseItems(StringifyItems(items) + "]" + rest) == Some(Parsed(items, rest))
    decreases items, 1
  {
    var tail := "]" + rest;
    assert StringifyItems(items) + "]" + rest == Stringify(items[0]) + tail;
    ValueRoundTrip(items[0], tail);
    ParseItemsStep(items[0], tail);
    assert tail[1..] == rest;
    assert [items[0]] == items;
  }

  lemma {:induction false} NextItemRoundTrip(items: seq<Json>, rest: string)
    requires |items| > 1
    ensures ParseItems(StringifyItems(items) + "]" + rest) == Some(Parsed(items, rest))
    decreases items, 1
  {
    var more := StringifyItems(items[1..]) + "]" + rest;
    assert StringifyItems(items) + "]" + rest == Stringify(items[0]) + ("," + more);
    ValueRoundTrip(items[0], "," + more);
    ParseItemsComma(items[0], more);
    ItemsRoundTrip(items[1..], rest);
    assert [items[0]] + items[1..] == items;
  }

  lemma {:induction false} ObjectRoundTrip(members: seq<Member>, rest: string)
    ensures ParseObject(StringifyMembers(members) + "}" + rest) == Some(Parsed(Obj(members), rest))
    decreases members, 3
  {
    var s := StringifyMembers(members) + "}" + rest;
    if |members| == 0 {
      assert s == "}" + rest;
      EmptyBody('}', rest);
    } else {
      MembersStartWithQuote(members, rest);
      ParseObjectMembers(s);
      MembersRoundTrip(members, rest);
    }
  }

  /** A written member list starts with the quote of its first key. */
  lemma MembersStartWithQuote(members: seq<Member>, rest: string)
    requires |members| > 0
    ensures var s := StringifyMembers(members) + "}" + rest;
      |s| > 0 && s[0] == '"'
  {
    MemberStartsWithQuote(members[0]);
    var q := StringifyMember(members[0]);
    if |members| > 1 {
      assert StringifyMembers(members) == q + "," + StringifyMembers(members[1..]);
      Reassociate(q, StringifyMembers(members[1..]), rest);
      FirstOfConcat(q, "," + (StringifyMembers(members[1..]) + "}" + rest));
    } else {
      FirstOfConcat(q, "}" + rest);
    }
  }

  lemma FirstOfConcat(a: string, b: string)
    requires |a| > 0
    ensures (a + b)[0] == a[0]
  {
  }

  lemma MemberStartsWithQuote(m: Member)
    ensures |StringifyMember(m)| > 0 && StringifyMember(m)[0] == '"'
  {
    var key := Quote(m.key);
    assert key[0] == '"';
    assert StringifyMember(m) == key + (":" + Stringify(m.value));
  }

  /** The closing bracket of an empty array or object is met at once. */
  lemma EmptyBody(close: char, rest: string)
    requires close == '}' || close == ']'
    ensures SkipWs([close] + rest) == [close] + rest && ([close] + rest)[1..] == rest
  {
    SkipWsNone([close] + rest);
  }

  /** An object body that starts with a key is read as a member list. */
  lemma ParseObjectMembers(s: string)
    requires |s| > 0 && s[0] == '"'
    ensures ParseObject(s) ==
      match ParseMembers(s)
      case None => None
      case Some(Parsed(members, u)) => Some(Parsed(Obj(members), u))
  {
    SkipWsNone(s);
  }

  lemma {:induction false} MembersRoundTrip(members: seq<Member>, rest: string)
    requires |members| > 0
    ensures ParseMembers(StringifyMembers(members) + "}" + rest) == Some(Parsed(members, rest))
    decreases members, 2
  {
    if |members| == 1 {
      LastMemberRoundTrip(members, rest);
    } else {
      NextMemberRoundTrip(members, rest);
    }
  }

  lemma {:induction false} LastMemberRoundTrip(members: seq<Member>, rest: string)
    requires |members| == 1
    ensures ParseMembers(StringifyMembers(members) + "}" + rest) == Some(Parsed(members, rest))
    decreases members, 1
  {
    var m := members[0];
    var tail := "}" + rest;
    assert StringifyMembers(members) + "}" + rest == StringifyMember(m) + tail;
    MemberRoundTrip(m, tail);
    ParseMembersStep(m, tail);
    assert tail[1..] == rest;
    assert [m] == members;
  }

  lemma {:induction false} NextMemberRoundTrip(members: seq<Member>, rest: string)
    requires |members| > 1
    ensures ParseMembers(StringifyMembers(members) + "}" + rest) == Some(Parsed(members, rest))
    decreases members, 1
  {
    var m := members[0];
    var more := StringifyMembers(members[1..]) + "}" + rest;
    var b := StringifyMembers(members[1..]);
    assert StringifyMembers(members) == StringifyMember(m) + "," + b;
    Reassociate(StringifyMember(m), b, rest);
    MemberRoundTrip(m, "," + more);
    ParseMembersComma(m, more);
    MembersRoundTrip(members[1..], rest);
    assert [m] + members[1..] == members;
  }

  /** Moving the separator of a written list between its two halves. */
  lemma Reassociate(a: string, b: string, rest: string)
    ensures a + "," + b + "}" + rest == a + ("," + (b + "}" + rest))
  {
  }

  /** `JSON.parse(JSON.stringify(v))` is `v`. */
  lemma ParseStringify(v: Json)
    ensures Parse(Stringify(v)) == Some(v)
  {
    ValueRoundTrip(v, "");
    assert Stringify(v) + "" == Stringify(v);
  }
}
