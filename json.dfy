/**
 * The JSON text (RFC 8259) that Go's encoding/json writes for an object whose
 * members all have string values, as json.Marshal does for a message card:
 * no insignificant whitespace, members in struct-field order, and each string
 * escaped the way encoding/json escapes it with HTML-safe escaping switched on.
 *
 * DecodeObject reads that compact form back; it is the partner the encoder is
 * proved against (DecodeObject(EncodeObject(ms)) == Some(ms)).
 */
module Json {
  import opened Wrappers

  /** One `"key":"value"` member of a JSON object. */
  datatype Member = Member(key: string, value: string)

  /** Lower-case hexadecimal digit, as encoding/json writes it. */
  function HexDigit(d: nat): (c: char)
    requires d < 16
    ensures HexValue(c) == Some(d)
    ensures '0' <= c <= '9' || 'a' <= c <= 'f'
  {
    if d < 10 then ('0' as int + d) as char else ('a' as int + d - 10) as char
  }

  /** Value of a hexadecimal digit of either case (section 7 of RFC 8259). */
  function HexValue(c: char): (r: Option<nat>)
    ensures r.Some? ==> r.value < 16
    ensures r.Some? <==> '0' <= c <= '9' || 'a' <= c <= 'f' || 'A' <= c <= 'F'
  {
    if '0' <= c <= '9' then Some(c as int - '0' as int)
    else if 'a' <= c <= 'f' then Some(c as int - 'a' as int + 10)
    else if 'A' <= c <= 'F' then Some(c as int - 'A' as int + 10)
    else None
  }

  /** The code unit written by four hexadecimal digits, most significant first. */
  function HexQuad(a: char, b: char, c: char, d: char): (r: Option<nat>)
    ensures r.Some? ==> r.value < 0x1_0000
  {
    match (HexValue(a), HexValue(b), HexValue(c), HexValue(d))
    case (Some(x), Some(y), Some(z), Some(w)) => Some(((x * 16 + y) * 16 + z) * 16 + w)
    case _ => None
  }

  lemma DigitsOfCodeUnit(n: nat)
    requires n < 0x1_0000
    ensures ((n / 0x1000 * 16 + n / 0x100 % 16) * 16 + n / 0x10 % 16) * 16 + n % 16 == n
  {
    assert n / 0x1000 * 16 + n / 0x100 % 16 == n / 0x100;
    assert n / 0x100 * 16 + n / 0x10 % 16 == n / 0x10;
    assert n / 0x10 * 16 + n % 16 == n;
  }

  /** `\u` and the four hexadecimal digits of a character below U+10000. */
  function UnicodeEscape(c: char): (r: string)
    requires c as int < 0x1_0000
    ensures |r| == 6 && r[0] == '\\' && r[1] == 'u'
    ensures HexQuad(r[2], r[3], r[4], r[5]) == Some(c as int)
    ensures forall k :: 2 <= k < 6 ==> '0' <= r[k] <= '9' || 'a' <= r[k] <= 'f'
  {
    var n := c as int;
    DigitsOfCodeUnit(n);
    ['\\', 'u', HexDigit(n / 0x1000), HexDigit(n / 0x100 % 16), HexDigit(n / 0x10 % 16), HexDigit(n % 16)]
  }

  /**
   * Characters that encoding/json writes as `\u00XX` or `\u202X`: control
   * characters other than tab, line feed and carriage return, the three
   * HTML-significant characters, and the two Unicode line/paragraph separators.
   */
  predicate NeedsUnicodeEscape(c: char) {
    (c < ' ' && c != '\n' && c != '\r' && c != '\t')
    || c == '<' || c == '>' || c == '&'
    || c == '\U{2028}' || c == '\U{2029}'
  }

  /** How encoding/json writes one character inside a string literal. */
  function EscapeChar(c: char): (r: string)
    ensures 1 <= |r| && r[0] != '"'
    ensures r[0] == '\\' || (|r| == 1 && r[0] == c)
    ensures forall k :: 0 <= k < |r| ==> r[k] >= ' ' && !NeedsUnicodeEscape(r[k])
  {
    if c == '"' then "\\\""
    else if c == '\\' then "\\\\"
    else if c == '\n' then "\\n"
    else if c == '\r' then "\\r"
    else if c == '\t' then "\\t"
    else if NeedsUnicodeEscape(c) then UnicodeEscape(c)
    else [c]
  }

  /**
   * The escaped body of a string literal, without its quotes: it holds no
   * raw control character, no `<`, `>` or `&`, and no line or paragraph
   * separator.
   */
  function EscapeString(s: string): (r: string)
    ensures forall k :: 0 <= k < |r| ==> r[k] >= ' ' && !NeedsUnicodeEscape(r[k])
  {
    if s == [] then [] else EscapeChar(s[0]) + EscapeString(s[1..])
  }

  /** `"` + escaped text + `"`. */
  function EncodeString(s: string): string {
    "\"" + EscapeString(s) + "\""
  }

  function EncodeMember(m: Member): string {
    EncodeString(m.key) + ":" + EncodeString(m.value)
  }

  /** The members after the opening brace, comma-separated, then the closing brace. */
  function EncodeMembers(ms: seq<Member>): (r: string)
    ensures |r| > 0 && r[|r| - 1] == '}'
  {
    if ms == [] then "}"
    else if |ms| == 1 then EncodeMember(ms[0]) + "}"
    else EncodeMember(ms[0]) + "," + EncodeMembers(ms[1..])
  }

  /** A JSON object holding the members in the given order. */
  function EncodeObject(ms: seq<Member>): (r: string)
    ensures |r| >= 2 && r[0] == '{' && r[|r| - 1] == '}'
  {
    "{" + EncodeMembers(ms)
  }

  /**
   * Reads one character of a string literal: an escape sequence of
   * section 7 of RFC 8259 or one unescaped character. Fails on the closing
   * quote, on a raw control character, on an unknown escape and on a
   * `\u` escape of a surrogate code unit (surrogate pairs are not read).
   */
  function DecodeChar(s: string): (r: Option<(char, string)>)
    ensures r.Some? ==> |r.value.1| < |s|
  {
    if s == [] || s[0] == '"' || s[0] < ' ' then None
    else if s[0] != '\\' then Some((s[0], s[1..]))
    else if |s| < 2 then None
    else if s[1] == '"' then Some(('"', s[2..]))
    else if s[1] == '\\' then Some(('\\', s[2..]))
    else if s[1] == '/' then Some(('/', s[2..]))
    else if s[1] == 'b' then Some(((8 as char), s[2..]))
    else if s[1] == 'f' then Some(((12 as char), s[2..]))
    else if s[1] == 'n' then Some(('\n', s[2..]))
    else if s[1] == 'r' then Some(('\r', s[2..]))
    else if s[1] == 't' then Some(('\t', s[2..]))
    else if s[1] == 'u' && |s| >= 6 then
      match HexQuad(s[2], s[3], s[4], s[5])
      case Some(n) =>
        if n < 0xD800 || 0xE000 <= n then Some((n as char, s[6..])) else None
      case None => None
    else None
  }

  /** Reads the rest of a string literal up to and including its closing quote. */
  function DecodeStringBody(s: string): (r: Option<(string, string)>)
    ensures r.Some? ==> |r.value.1| < |s|
    decreases |s|
  {
    if s == [] then None
    else if s[0] == '"' then Some(([], s[1..]))
    else match DecodeChar(s)
      case None => None
      case Some((c, rest)) =>
        match DecodeStringBody(rest)
        case None => None
        case Some((v, tail)) => Some(([c] + v, tail))
  }

  /** Reads `"key":"value"`. */
  function DecodeMember(s: string): (r: Option<(Member, string)>)
    ensures r.Some? ==> |r.value.1| < |s|
  {
    if s == [] || s[0] != '"' then None
    else match DecodeStringBody(s[1..])
      case None => None
      case Some((k, rest)) =>
        if |rest| < 2 || rest[0] != ':' || rest[1] != '"' then None
        else match DecodeStringBody(rest[2..])
          case None => None
          case Some((v, tail)) => Some((Member(k, v), tail))
  }

  /** Reads one or more members and the closing brace, which must end the text. */
  function DecodeMembers(s: string): (r: Option<seq<Member>>)
    decreases |s|
  {
    match DecodeMember(s)
    case None => None
    case Some((m, rest)) =>
      if rest == "}" then Some([m])
      else if rest == [] || rest[0] != ',' then None
      else match DecodeMembers(rest[1..])
        case None => None
        case Some(ms) => Some([m] + ms)
  }

  /** Reads a compact JSON object whose members all have string values. */
  function DecodeObject(s: string): (r: Option<seq<Member>>)
  {
    if s == "{}" then Some([])
    else if s == [] || s[0] != '{' then None
    else DecodeMembers(s[1..])
  }

  lemma EscapeCharRoundTrip(c: char, rest: string)
    ensures DecodeChar(EscapeChar(c) + rest) == Some((c, rest))
  {
    var e := EscapeChar(c);
    if NeedsUnicodeEscape(c) && c != '"' && c != '\\' && c != '\n' && c != '\r' && c != '\t' {
      var s := e + rest;
      assert s[..6] == e;
      assert s[6..] == rest;
    } else {
      assert (e + rest)[|e|..] == rest;
    }
  }

  lemma {:induction false} EscapeStringRoundTrip(v: string, rest: string)
    ensures DecodeStringBody(EscapeString(v) + "\"" + rest) == Some((v, rest))
  {
    if v == [] {
      assert EscapeString(v) + "\"" + rest == "\"" + rest;
    } else {
      var e := EscapeChar(v[0]);
      var tail := EscapeString(v[1..]) + "\"" + rest;
      assert EscapeString(v) + "\"" + rest == e + tail;
      EscapeCharRoundTrip(v[0], tail);
      EscapeStringRoundTrip(v[1..], rest);
      assert [v[0]] + v[1..] == v;
    }
  }

  lemma MemberRoundTrip(m: Member, rest: string)
    ensures DecodeMember(EncodeMember(m) + rest) == Some((m, rest))
  {
    var k, v := EscapeString(m.key), EscapeString(m.value);
    var afterValue := v + "\"" + rest;
    var afterKey := ":" + ("\"" + afterValue);
    var s := EncodeMember(m) + rest;
    Regroup("\"", k, ":", v, rest);
    assert s[1..] == k + "\"" + afterKey;
    EscapeStringRoundTrip(m.key, afterKey);
    assert afterKey[2..] == afterValue;
    EscapeStringRoundTrip(m.value, rest);
    DecodeMemberOf(s, m.key, afterKey, m.value, rest);
  }

  /** The regrouping of an encoded member that decoding reads it in. */
  lemma Regroup(q: string, k: string, colon: string, v: string, rest: string)
    ensures (q + k + q) + colon + (q + v + q) + rest == q + (k + q + (colon + (q + (v + q + rest))))
  {
  }

  lemma DecodeMemberOf(s: string, key: string, afterKey: string, value: string, tail: string)
    requires |s| > 0 && s[0] == '"' && DecodeStringBody(s[1..]) == Some((key, afterKey))
    requires |afterKey| >= 2 && afterKey[0] == ':' && afterKey[1] == '"'
    requires DecodeStringBody(afterKey[2..]) == Some((value, tail))
    ensures DecodeMember(s) == Some((Member(key, value), tail))
  {
  }

  lemma DecodeMembersLast(s: string, m: Member)
    requires DecodeMember(s) == Some((m, "}"))
    ensures DecodeMembers(s) == Some([m])
  {
  }

  lemma DecodeMembersCons(s: string, m: Member, rest: string, ms: seq<Member>)
    requires DecodeMember(s) == Some((m, "," + rest))
    requires DecodeMembers(rest) == Some(ms)
    ensures DecodeMembers(s) == Some([m] + ms)
  {
    var tail := "," + rest;
    assert tail[0] == ',';
    assert tail[1..] == rest;
  }

  lemma {:induction false} MembersRoundTrip(ms: seq<Member>)
    requires ms != []
    ensures DecodeMembers(EncodeMembers(ms)) == Some(ms)
  {
    if |ms| == 1 {
      MemberRoundTrip(ms[0], "}");
      DecodeMembersLast(EncodeMembers(ms), ms[0]);
      assert [ms[0]] == ms;
    } else {
      var rest := EncodeMembers(ms[1..]);
      assert EncodeMembers(ms) == EncodeMember(ms[0]) + ("," + rest);
      MemberRoundTrip(ms[0], "," + rest);
      MembersRoundTrip(ms[1..]);
      DecodeMembersCons(EncodeMembers(ms), ms[0], rest, ms[1..]);
      assert [ms[0]] + ms[1..] == ms;
    }
  }

  /** Decoding what EncodeObject wrote gives back the same members in the same order. */
  lemma ObjectRoundTrip(ms: seq<Member>)
    ensures DecodeObject(EncodeObject(ms)) == Some(ms)
  {
    var s := EncodeObject(ms);
    if ms == [] {
      assert s == "{}";
    } else {
      var m := EncodeMember(ms[0]);
      assert |m| >= 2 && m[0] == '"';
      assert s[1] == '"';
      assert s != "{}";
      assert s[1..] == EncodeMembers(ms);
      MembersRoundTrip(ms);
    }
  }
}
