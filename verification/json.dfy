/** The slice of JSON the structured-response payload travels through: string
    escaping as pydantic's `model_dump_json` writes it (compact output,
    non-ASCII characters left as they are, lower-case `\u00XX` for the
    remaining control characters) and a parser for flat objects whose values
    are strings or booleans, as `model_validate_json` reads them. */
module Json {
  import opened Wrappers
  import opened Text

  /** The argument and field values the modelled payloads carry. */
  datatype Value =
    | Str(s: string)
    | Bool(b: bool)
    | Int(i: int)
    | StrList(items: seq<string>)

  type Member = (string, Value)

  function HexChar(d: nat): char
    requires d < 16
  {
    "0123456789abcdef"[d]
  }

  function HexValue(c: char): (r: Option<nat>)
    ensures r.Some? ==> r.value < 16
  {
    if '0' <= c <= '9' then Some(c as int - '0' as int)
    else if 'a' <= c <= 'f' then Some(c as int - 'a' as int + 10)
    else if 'A' <= c <= 'F' then Some(c as int - 'A' as int + 10)
    else None
  }

  /** Four hexadecimal digits, as read after `\u`. */
  function Hex4(s: string): (r: Option<nat>)
    requires |s| == 4
    ensures r.Some? ==> r.value < 0x10000
  {
    match (HexValue(s[0]), HexValue(s[1]), HexValue(s[2]), HexValue(s[3]))
    case (Some(a), Some(b), Some(c), Some(d)) => Some(((a * 16 + b) * 16 + c) * 16 + d)
    case _ => None
  }

  /** How one character is written inside a JSON string literal. */
  function EscapeChar(c: char): string {
    if c == '"' then "\\\""
    else if c == '\\' then "\\\\"
    else if c == '\n' then "\\n"
    else if c == '\r' then "\\r"
    else if c == '\t' then "\\t"
    else if c == '\U{8}' then "\\b"
    else if c == '\U{C}' then "\\f"
    else if (c as int) < 0x20 then "\\u00" + [HexChar(c as int / 16), HexChar(c as int % 16)]
    else [c]
  }

  function Escape(s: string): string {
    if |s| == 0 then "" else EscapeChar(s[0]) + Escape(s[1..])
  }

  function EncodeString(s: string): string {
    "\"" + Escape(s) + "\""
  }

  /** The character a one-letter escape after a backslash stands for. */
  function ShortEscape(c: char): Option<char> {
    match c
    case '"' => Some('"')
    case '\\' => Some('\\')
    case '/' => Some('/')
    case 'b' => Some('\U{8}')
    case 'f' => Some('\U{C}')
    case 'n' => Some('\n')
    case 'r' => Some('\r')
    case 't' => Some('\t')
    case _ => None
  }

  /** Reads the escape that follows a backslash: the character it denotes and
      how many characters it took. A `\u` escape naming a surrogate is
      refused (surrogate pairs are not modelled). */
  function Unescape(t: string): (r: Option<(char, nat)>)
    ensures r.Some? ==> 1 <= r.value.1 <= |t|
  {
    if |t| == 0 then None
    else if t[0] == 'u' then
      if |t| < 5 then None
      else match Hex4(t[1..5])
        case Some(v) => if v < 0xD800 || 0xE000 <= v then Some((v as char, 5)) else None
        case None => None
    else match ShortEscape(t[0])
      case Some(c) => Some((c, 1))
      case None => None
  }

  /** Reads the body of a string literal up to its closing quote, giving the
      decoded text and what follows the quote. Raw control characters are
      not allowed inside a literal. */
  function DecodeBody(s: string): (r: Option<(string, string)>)
    ensures r.Some? ==> |r.value.1| < |s|
    decreases |s|
  {
    if |s| == 0 then None
    else if s[0] == '"' then Some(("", s[1..]))
    else if s[0] == '\\' then
      match Unescape(s[1..])
      case None => None
      case Some((c, k)) =>
        match DecodeBody(s[1 + k..])
        case None => None
        case Some((t, rest)) => Some(([c] + t, rest))
    else if (s[0] as int) < 0x20 then None
    else
      match DecodeBody(s[1..])
      case None => None
      case Some((t, rest)) => Some(([s[0]] + t, rest))
  }

  function ParseString(s: string): (r: Option<(string, string)>)
    ensures r.Some? ==> |r.value.1| < |s|
  {
    if |s| > 0 && s[0] == '"' then DecodeBody(s[1..]) else None
  }

  predicate IsWhitespace(c: char) {
    c == ' ' || c == '\t' || c == '\n' || c == '\r'
  }

  function SkipWs(s: string): (r: string)
    ensures |r| <= |s|
  {
    if |s| > 0 && IsWhitespace(s[0]) then SkipWs(s[1..]) else s
  }

  function EncodeValue(v: Value): string {
    match v
    case Str(s) => EncodeString(s)
    case Bool(b) => if b then "true" else "false"
    case Int(i) => IntToString(i)
    case StrList(items) => "[" + Join(seq(|items|, k requires 0 <= k < |items| => EncodeString(items[k])), ",") + "]"
  }

  /** The values the parser reads back: strings and booleans. */
  predicate Readable(v: Value) {
    v.Str? || v.Bool?
  }

  function ParseValue(s: string): (r: Option<(Value, string)>)
    ensures r.Some? ==> |r.value.1| < |s| && Readable(r.value.0)
  {
    if |s| > 0 && s[0] == '"' then
      match DecodeBody(s[1..])
      case Some((t, rest)) => Some((Str(t), rest))
      case None => None
    else if StartsWith(s, "true") then Some((Bool(true), s[4..]))
    else if StartsWith(s, "false") then Some((Bool(false), s[5..]))
    else None
  }

  function EncodeMember(m: Member): string {
    EncodeString(m.0) + ":" + EncodeValue(m.1)
  }

  function EncodeMembers(ms: seq<Member>): string {
    if |ms| == 0 then ""
    else if |ms| == 1 then EncodeMember(ms[0])
    else EncodeMember(ms[0]) + "," + EncodeMembers(ms[1..])
  }

  /** A compact JSON object with the members in the given order. */
  function EncodeObject(ms: seq<Member>): string {
    "{" + EncodeMembers(ms) + "}"
  }

  function ParseMember(s: string): (r: Option<(Member, string)>)
    ensures r.Some? ==> |r.value.1| < |s| && Readable(r.value.0.1)
  {
    match ParseString(s)
    case None => None
    case Some((key, r1)) =>
      var r2 := SkipWs(r1);
      if |r2| > 0 && r2[0] == ':' then
        match ParseValue(SkipWs(r2[1..]))
        case None => None
        case Some((v, r3)) => Some(((key, v), r3))
      else None
  }

  /** Members separated by commas up to and including the closing brace. */
  function ParseMembers(s: string): (r: Option<(seq<Member>, string)>)
    ensures r.Some? ==> |r.value.1| < |s|
    ensures r.Some? ==> forall i | 0 <= i < |r.value.0| :: Readable(r.value.0[i].1)
    decreases |s|
  {
    match ParseMember(s)
    case None => None
    case Some((m, r1)) =>
      var r2 := SkipWs(r1);
      if |r2| > 0 && r2[0] == ',' then
        match ParseMembers(SkipWs(r2[1..]))
        case None => None
        case Some((ms, r3)) => Some(([m] + ms, r3))
      else if |r2| > 0 && r2[0] == '}' then Some(([m], r2[1..]))
      else None
  }

  /** A whole document holding one object, whitespace allowed between
      tokens; the members come back in document order. */
  function ParseObject(s: string): (r: Option<seq<Member>>)
    ensures r.Some? ==> forall i | 0 <= i < |r.value| :: Readable(r.value[i].1)
  {
    var t := SkipWs(s);
    if |t| == 0 || t[0] != '{' then None
    else
      var u := SkipWs(t[1..]);
      var body: Option<(seq<Member>, string)> := if |u| > 0 && u[0] == '}' then Some(([], u[1..])) else ParseMembers(u);
      match body
      case Some((ms, rest)) => if SkipWs(rest) == "" then Some(ms) else None
      case None => None
  }

  lemma HexRoundTrip(d: nat)
    requires d < 16
    ensures HexValue(HexChar(d)) == Some(d)
  {
  }

  /** Decoding what `EscapeChar` wrote gives the character back and resumes
      right after it. */
  lemma DecodeEscapedChar(c: char, tail: string)
    ensures DecodeBody(EscapeChar(c) + tail) ==
      match DecodeBody(tail)
      case None => None
      case Some((t, rest)) => Some(([c] + t, rest))
  {
    if c == '"' || c == '\\' || c == '\n' || c == '\r' || c == '\t' || c == '\U{8}' || c == '\U{C}' {
      DecodeShortEscape(c, tail);
    } else if (c as int) < 0x20 {
      DecodeUnicodeEscape(c, tail);
    } else {
      var s := EscapeChar(c) + tail;
      assert s[1..] == tail;
    }
  }

  lemma DecodeShortEscape(c: char, tail: string)
    requires c == '"' || c == '\\' || c == '\n' || c == '\r' || c == '\t' || c == '\U{8}' || c == '\U{C}'
    ensures DecodeBody(EscapeChar(c) + tail) ==
      match DecodeBody(tail)
      case None => None
      case Some((t, rest)) => Some(([c] + t, rest))
  {
    var s := EscapeChar(c) + tail;
    assert s[1..][0] == EscapeChar(c)[1];
    assert Unescape(s[1..]) == Some((c, 1));
    assert s[2..] == tail;
  }

  lemma DecodeUnicodeEscape(c: char, tail: string)
    requires (c as int) < 0x20
    requires !(c == '"' || c == '\\' || c == '\n' || c == '\r' || c == '\t' || c == '\U{8}' || c == '\U{C}')
    ensures DecodeBody(EscapeChar(c) + tail) ==
      match DecodeBody(tail)
      case None => None
      case Some((t, rest)) => Some(([c] + t, rest))
  {
    var hi, lo := c as int / 16, c as int % 16;
    assert hi * 16 + lo == c as int;
    var digits := ['0', '0', HexChar(hi), HexChar(lo)];
    var u := ['u'] + digits + tail;
    assert EscapeChar(c) == "\\u00" + [HexChar(hi), HexChar(lo)];
    assert EscapeChar(c) + tail == ['\\'] + u;
    HexRoundTrip(hi);
    HexRoundTrip(lo);
    assert u[1..5] == digits;
    assert Hex4(digits) == Some(c as int);
    assert Unescape(u) == Some((c, 5));
    assert u[5..] == tail;
    assert (['\\'] + u)[1..] == u;
  }

  lemma {:induction false} DecodeEscaped(x: string, rest: string)
    ensures DecodeBody(Escape(x) + "\"" + rest) == Some((x, rest))
  {
    if |x| == 0 {
      assert Escape(x) + "\"" + rest == "\"" + rest;
    } else {
      var tail := Escape(x[1..]) + "\"" + rest;
      assert Escape(x) + "\"" + rest == EscapeChar(x[0]) + tail;
      DecodeEscapedChar(x[0], tail);
      DecodeEscaped(x[1..], rest);
      assert [x[0]] + x[1..] == x;
    }
  }

  /** Every string survives encoding and parsing, whatever follows it. */
  lemma StringRoundTrip(x: string, rest: string)
    ensures ParseString(EncodeString(x) + rest) == Some((x, rest))
  {
    var s := EncodeString(x) + rest;
    assert s[1..] == Escape(x) + "\"" + rest;
    DecodeEscaped(x, rest);
  }

  lemma ValueRoundTrip(v: Value, rest: string)
    requires Readable(v)
    ensures ParseValue(EncodeValue(v) + rest) == Some((v, rest))
  {
    if v.Str? {
      StringRoundTrip(v.s, rest);
    } else if v.b {
      assert (EncodeValue(v) + rest)[..4] == "true";
      assert (EncodeValue(v) + rest)[4..] == rest;
    } else {
      assert (EncodeValue(v) + rest)[..4] == "fals";
      assert (EncodeValue(v) + rest)[..5] == "false";
      assert (EncodeValue(v) + rest)[5..] == rest;
    }
  }

  lemma SkipNothing(s: string)
    requires |s| > 0 && !IsWhitespace(s[0])
    ensures SkipWs(s) == s
  {
  }

  lemma EncodedValueStart(v: Value)
    requires Readable(v)
    ensures |EncodeValue(v)| > 0
    ensures EncodeValue(v)[0] in "\"tf"
  {
  }

  lemma MemberRoundTrip(m: Member, rest: string)
    requires Readable(m.1)
    ensures ParseMember(EncodeMember(m) + rest) == Some((m, rest))
  {
    var value := EncodeValue(m.1) + rest;
    var tail := ":" + value;
    assert EncodeMember(m) + rest == EncodeString(m.0) + tail;
    StringRoundTrip(m.0, tail);
    SkipNothing(tail);
    assert tail[1..] == value;
    EncodedValueStart(m.1);
    SkipNothing(value);
    ValueRoundTrip(m.1, rest);
  }

  lemma ParseMembersLast(s: string, m: Member, rest: string)
    requires ParseMember(s) == Some((m, "}" + rest))
    ensures ParseMembers(s) == Some(([m], rest))
  {
    SkipNothing("}" + rest);
    assert ("}" + rest)[1..] == rest;
  }

  lemma ParseMembersNext(m: Member, next: string, ms: seq<Member>, rest: string)
    requires Readable(m.1)
    requires |next| > 0 && next[0] == '"'
    requires ParseMembers(next) == Some((ms, rest))
    ensures ParseMembers(EncodeMember(m) + ("," + next)) == Some(([m] + ms, rest))
  {
    var after := "," + next;
    MemberRoundTrip(m, after);
    assert ParseMember(EncodeMember(m) + after) == Some((m, after));
    SkipNothing(after);
    assert after[0] == ',' && after[1..] == next;
    SkipNothing(next);
  }

  lemma Regroup(a: string, b: string, c: string)
    ensures a + b + c == a + (b + c)
  {
  }

  lemma {:induction false} MembersRoundTrip(ms: seq<Member>, rest: string)
    requires |ms| >= 1
    requires forall i | 0 <= i < |ms| :: Readable(ms[i].1)
    ensures ParseMembers(EncodeMembers(ms) + "}" + rest) == Some((ms, rest))
  {
    if |ms| == 1 {
      Regroup(EncodeMember(ms[0]), "}", rest);
      MemberRoundTrip(ms[0], "}" + rest);
      ParseMembersLast(EncodeMember(ms[0]) + ("}" + rest), ms[0], rest);
      assert [ms[0]] == ms;
    } else {
      var tail := EncodeMembers(ms[1..]);
      var next := tail + "}" + rest;
      MembersRoundTrip(ms[1..], rest);
      Regroup(tail, "}", rest);
      MembersNonEmptyStart(ms[1..], "}" + rest);
      ParseMembersNext(ms[0], next, ms[1..], rest);
      Regroup(EncodeMember(ms[0]) + ",", tail, "}");
      Regroup(EncodeMember(ms[0]) + "," + tail, "}", rest);
      Regroup(EncodeMember(ms[0]) + ",", tail + "}", rest);
      Regroup(EncodeMember(ms[0]), ",", tail + "}" + rest);
      assert [ms[0]] + ms[1..] == ms;
    }
  }

  lemma MembersNonEmptyStart(ms: seq<Member>, rest: string)
    requires |ms| >= 1
    ensures |EncodeMembers(ms) + rest| > 0 && (EncodeMembers(ms) + rest)[0] == '"'
  {
    var key := EncodeString(ms[0].0);
    var head := EncodeMember(ms[0]);
    var more := if |ms| == 1 then "" else "," + EncodeMembers(ms[1..]);
    assert EncodeMembers(ms) == head + more;
    Regroup(key, ":", EncodeValue(ms[0].1));
    FirstOf(key, ":" + EncodeValue(ms[0].1));
    FirstOf(head, more);
    FirstOf(head + more, rest);
  }

  lemma FirstOf(a: string, b: string)
    requires |a| > 0
    ensures |a + b| > 0 && (a + b)[0] == a[0]
  {
  }

  /** Every object of string and boolean members survives encoding and
      parsing, members in order. */
  lemma ObjectRoundTrip(ms: seq<Member>)
    requires forall i | 0 <= i < |ms| :: Readable(ms[i].1)
    ensures ParseObject(EncodeObject(ms)) == Some(ms)
  {
    var body := EncodeMembers(ms) + "}";
    var s := "{" + body;
    assert s == EncodeObject(ms);
    SkipNothing(s);
    assert s[1..] == body;
    if |ms| == 0 {
      assert body == "}";
    } else {
      MembersNonEmptyStart(ms, "}");
      SkipNothing(body);
      MembersRoundTrip(ms, "");
      assert body + "" == body;
    }
  }
}
