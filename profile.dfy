/**
 * The persisted user record and its text form.
 *
 * `JSON.stringify` of the record is modelled for the one shape the store
 * writes: an object with an optional `id`, then the seven form fields in
 * the form schema's order, no whitespace, strings escaped as
 * `JSON.stringify` escapes them. `Parse` is a strict reader of exactly
 * that layout; `ParseSerialize` proves that it reads back every record.
 */
module Profiles {
  import opened Wrappers
  import opened Decimal

  datatype Profile = Profile(
    id: Option<int>,
    name: string,
    birthYear: int,
    nationality: string,
    healthyFood: bool,
    running: bool,
    alcohol: bool,
    smoking: bool)

  // ---------------------------------------------------------------- writing

  function HexDigit(d: nat): (c: char)
    requires d < 16
    ensures HexValue(c) == Some(d)
  {
    "0123456789abcdef"[d]
  }

  /** One character as `JSON.stringify` writes it inside a string literal. */
  function EscapeChar(c: char): (e: string)
    ensures |e| >= 1
  {
    if c == '"' then "\\\""
    else if c == '\\' then "\\\\"
    else if c as int == 8 then "\\b"
    else if c as int == 12 then "\\f"
    else if c == '\n' then "\\n"
    else if c == '\r' then "\\r"
    else if c == '\t' then "\\t"
    else if c as int < 0x20 then "\\u00" + [HexDigit(c as int / 16), HexDigit(c as int % 16)]
    else [c]
  }

  function Escape(s: string): string {
    if s == [] then [] else EscapeChar(s[0]) + Escape(s[1..])
  }

  function Quote(s: string): string {
    "\"" + Escape(s) + "\""
  }

  function BoolText(b: bool): string {
    if b then "true" else "false"
  }

  function IdField(id: Option<int>): string {
    match id
    case None => ""
    case Some(n) => "\"id\":" + IntToString(n) + ","
  }

  /** The name, birth year and nationality members, followed by `tail`. */
  function IdentityText(p: Profile, tail: string): string {
    "\"name\":" + (Quote(p.name) +
    (",\"birthYear\":" + (IntToString(p.birthYear) +
    (",\"nationality\":" + (Quote(p.nationality) + tail)))))
  }

  /** The four lifestyle members and the closing brace. */
  function FlagsText(p: Profile): string {
    ",\"healthyFood\":" + (BoolText(p.healthyFood) +
    (",\"running\":" + (BoolText(p.running) +
    (",\"alcohol\":" + (BoolText(p.alcohol) +
    (",\"smoking\":" + (BoolText(p.smoking) + "}")))))))
  }

  /** `JSON.stringify(profile)`. */
  function Serialize(p: Profile): string {
    "{" + (IdField(p.id) + IdentityText(p, FlagsText(p)))
  }

  // ---------------------------------------------------------------- reading

  function HexValue(c: char): (r: Option<nat>)
    ensures r.Some? ==> r.value < 16
  {
    if '0' <= c <= '9' then Some(c as int - '0' as int)
    else if 'a' <= c <= 'f' then Some(c as int - 'a' as int + 10)
    else if 'A' <= c <= 'F' then Some(c as int - 'A' as int + 10)
    else None
  }

  function Hex4(s: string): (r: Option<nat>)
    requires |s| == 4
    ensures r.Some? ==> r.value < 0x10000
  {
    match (HexValue(s[0]), HexValue(s[1]), HexValue(s[2]), HexValue(s[3]))
    case (Some(a), Some(b), Some(c), Some(d)) => Some(((a * 16 + b) * 16 + c) * 16 + d)
    case _ => None
  }

  /** The character an escape sequence stands for, and how many characters after the backslash it takes. */
  function ParseEscape(s: string): (r: Option<(char, nat)>)
    ensures r.Some? ==> 1 <= r.value.1 <= |s|
  {
    if |s| == 0 then None
    else if s[0] == '"' then Some(('"', 1))
    else if s[0] == '\\' then Some(('\\', 1))
    else if s[0] == '/' then Some(('/', 1))
    else if s[0] == 'b' then Some((8 as char, 1))
    else if s[0] == 'f' then Some((12 as char, 1))
    else if s[0] == 'n' then Some(('\n', 1))
    else if s[0] == 'r' then Some(('\r', 1))
    else if s[0] == 't' then Some(('\t', 1))
    else if s[0] == 'u' && |s| >= 5 then
      match Hex4(s[1..5])
      case Some(v) =>
        if v < 0xD800 || 0xDFFF < v then Some((v as char, 5))
        else if v <= 0xDBFF then SurrogatePair(v, s[5..])
        else None
      case None => None
    else None
  }

  /**
   * A high surrogate `high` must be followed by `\u` and a low surrogate;
   * the pair stands for one character above U+FFFF. Anything else is refused.
   */
  function SurrogatePair(high: nat, s: string): (r: Option<(char, nat)>)
    requires 0xD800 <= high <= 0xDBFF
    ensures r.Some? ==> r.value.1 == 11 && 6 <= |s|
  {
    if |s| >= 6 && s[0] == '\\' && s[1] == 'u' then
      match Hex4(s[2..6])
      case Some(low) =>
        if 0xDC00 <= low <= 0xDFFF then
          Some(((0x10000 + (high - 0xD800) * 0x400 + (low - 0xDC00)) as char, 11))
        else None
      case None => None
    else None
  }

  /** The escape text after the backslash of `\ud83d\ude00` stands for U+1F600 and takes 11 characters. */
  lemma SurrogatePairEscape(rest: string)
    ensures ParseEscape("ud83d\\ude00" + rest) == Some(('\U{1F600}', 11))
  {
    var e := "ud83d\\ude00" + rest;
    assert e[0] == 'u' && e[1] == 'd' && e[2] == '8' && e[3] == '3' && e[4] == 'd';
    assert e[5] == '\\' && e[6] == 'u' && e[7] == 'd' && e[8] == 'e' && e[9] == '0' && e[10] == '0';
    assert Hex4(e[1..5]) == Some(0xD83D);
    var t := e[5..];
    assert Hex4(t[2..6]) == Some(0xDE00);
  }

  /** `\ud83d\ude00`, a surrogate pair, reads as the one character U+1F600, as `JSON.parse` reads it. */
  lemma SurrogatePairDecoded()
    ensures ParseStringBody("\\ud83d\\ude00\"") == Some(("\U{1F600}", ""))
  {
    var s := "\\ud83d\\ude00\"";
    assert s[1..] == "ud83d\\ude00" + "\"";
    SurrogatePairEscape("\"");
    assert s[12..] == "\"";
    EscapeStep(s, '\U{1F600}', 11, "\"");
    assert ParseStringBody("\"") == Some(([], ""));
    assert ['\U{1F600}'] + [] == "\U{1F600}";
  }

  /** A high surrogate escape not followed by a low one is refused. */
  lemma LoneSurrogateRefused()
    ensures ParseStringBody("\\ud83d\"") == None
  {
    var s := "\\ud83d\"";
    assert s[0] == '\\';
    var e := s[1..];
    assert e[0] == 'u' && e[1] == 'd' && e[2] == '8' && e[3] == '3' && e[4] == 'd' && e[5] == '"';
    assert Hex4(e[1..5]) == Some(0xD83D);
    assert ParseEscape(e) == None;
  }

  /** The characters of a string literal up to its closing quote, and what follows that quote. */
  function ParseStringBody(s: string): (r: Option<(string, string)>)
    decreases |s|
  {
    if |s| == 0 then None
    else if s[0] == '"' then Some(([], s[1..]))
    else if s[0] == '\\' then
      match ParseEscape(s[1..])
      case None => None
      case Some((c, k)) => Cons(c, ParseStringBody(s[1 + k..]))
    else if s[0] as int < 0x20 then None
    else Cons(s[0], ParseStringBody(s[1..]))
  }

  function Cons(c: char, r: Option<(string, string)>): Option<(string, string)> {
    match r
    case None => None
    case Some((body, rest)) => Some(([c] + body, rest))
  }

  function ParseQuoted(s: string): Option<(string, string)> {
    if |s| >= 1 && s[0] == '"' then ParseStringBody(s[1..]) else None
  }

  /** What follows `lit` at the start of `s`, if `s` starts with it. */
  function Expect(lit: string, s: string): (r: Option<string>)
    ensures r.Some? ==> s == lit + r.value
  {
    if |lit| <= |s| && s[..|lit|] == lit then Some(s[|lit|..]) else None
  }

  predicate NumberChar(c: char) {
    IsDigit(c) || c == '-'
  }

  function NumberSpan(s: string): (n: nat)
    ensures n <= |s|
  {
    if |s| >= 1 && NumberChar(s[0]) then 1 + NumberSpan(s[1..]) else 0
  }

  function ParseNumber(s: string): Option<(int, string)> {
    var n := NumberSpan(s);
    match ParseInt(s[..n])
    case Some(v) => Some((v, s[n..]))
    case None => None
  }

  function ParseBool(s: string): Option<(bool, string)> {
    match Expect("true", s)
    case Some(rest) => Some((true, rest))
    case None =>
      match Expect("false", s)
      case Some(rest) => Some((false, rest))
      case None => None
  }

  function ParseIdField(s: string): Option<(Option<int>, string)> {
    match Expect("\"id\":", s)
    case None => Some((None, s))
    case Some(r) =>
      var n :- ParseNumber(r);
      var rest :- Expect(",", n.1);
      Some((Some(n.0), rest))
  }

  function ParseIdentity(s: string): Option<(string, int, string, string)> {
    var r1 :- Expect("\"name\":", s);
    var name :- ParseQuoted(r1);
    var r2 :- Expect(",\"birthYear\":", name.1);
    var year :- ParseNumber(r2);
    var r3 :- Expect(",\"nationality\":", year.1);
    var nationality :- ParseQuoted(r3);
    Some((name.0, year.0, nationality.0, nationality.1))
  }

  function ParseFlags(s: string): Option<(bool, bool, bool, bool)> {
    var r4 :- Expect(",\"healthyFood\":", s);
    var healthyFood :- ParseBool(r4);
    var r5 :- Expect(",\"running\":", healthyFood.1);
    var running :- ParseBool(r5);
    var r6 :- Expect(",\"alcohol\":", running.1);
    var alcohol :- ParseBool(r6);
    var r7 :- Expect(",\"smoking\":", alcohol.1);
    var smoking :- ParseBool(r7);
    if smoking.1 == "}" then
      Some((healthyFood.0, running.0, alcohol.0, smoking.0))
    else
      None
  }

  /** `JSON.parse(text)` for the layout `Serialize` writes; anything else is a parse failure. */
  function Parse(s: string): Option<Profile> {
    var r0 :- Expect("{", s);
    var id :- ParseIdField(r0);
    var ident :- ParseIdentity(id.1);
    var flags :- ParseFlags(ident.3);
    Some(Profile(id.0, ident.0, ident.1, ident.2, flags.0, flags.1, flags.2, flags.3))
  }

  // ---------------------------------------------------------------- round trip

  lemma ExpectLiteral(lit: string, t: string)
    ensures Expect(lit, lit + t) == Some(t)
  {
    assert (lit + t)[..|lit|] == lit;
    assert (lit + t)[|lit|..] == t;
  }

  /** Four hex digits `00hl` read back as the byte they were written from. */
  lemma HexByteParses(v: nat)
    requires v < 0x100
    ensures Hex4(['0', '0', HexDigit(v / 16), HexDigit(v % 16)]) == Some(v)
  {
    var hi, lo := v / 16, v % 16;
    assert HexValue('0') == Some(0);
    assert HexValue(HexDigit(hi)) == Some(hi) && HexValue(HexDigit(lo)) == Some(lo);
    assert ((0 * 16 + 0) * 16 + hi) * 16 + lo == v;
  }

  /** The escape `u00hl` after a backslash stands for the control character it was written from. */
  lemma UnicodeEscapeValue(c: char, rest: string)
    requires c as int < 0x20
    ensures ParseEscape(['u', '0', '0', HexDigit(c as int / 16), HexDigit(c as int % 16)] + rest) == Some((c, 5))
  {
    var digits := ['0', '0', HexDigit(c as int / 16), HexDigit(c as int % 16)];
    var u := ['u'] + digits + rest;
    assert ['u', '0', '0', HexDigit(c as int / 16), HexDigit(c as int % 16)] + rest == u;
    assert u[1..5] == digits;
    HexByteParses(c as int);
  }

  /** One escape sequence at the front of a literal contributes its character. */
  lemma EscapeStep(s: string, c: char, k: nat, t: string)
    requires |s| >= 1 && s[0] == '\\'
    requires ParseEscape(s[1..]) == Some((c, k)) && s[1 + k..] == t
    ensures ParseStringBody(s) == Cons(c, ParseStringBody(t))
  {
  }

  /** The text `JSON.stringify` writes for a control character without a short escape. */
  lemma UnicodeEscapeText(c: char)
    requires c as int < 0x20 && c != '\n' && c != '\r' && c != '\t' && c as int != 8 && c as int != 12
    ensures EscapeChar(c) == ['\\', 'u', '0', '0', HexDigit(c as int / 16), HexDigit(c as int % 16)]
  {
    assert c != '"' && c != '\\';
  }

  /** A control character without a short escape reads back from its `\u00xx` form. */
  lemma UnicodeEscapeParses(c: char, t: string)
    requires c as int < 0x20 && c != '\n' && c != '\r' && c != '\t' && c as int != 8 && c as int != 12
    ensures ParseStringBody(EscapeChar(c) + t) == Cons(c, ParseStringBody(t))
  {
    var tail := ['u', '0', '0', HexDigit(c as int / 16), HexDigit(c as int % 16)];
    var s := ['\\'] + (tail + t);
    UnicodeEscapeText(c);
    assert EscapeChar(c) + t == s;
    assert ParseEscape(s[1..]) == Some((c, 5)) by {
      assert s[1..] == tail + t;
      UnicodeEscapeValue(c, t);
    }
    assert s[1 + 5..] == t;
    EscapeStep(s, c, 5, t);
  }

  /** A two-character escape (`\"`, `\\`, `\b`, `\f`, `\n`, `\r`, `\t`) reads back as its character. */
  lemma ShortEscapeParses(c: char, t: string)
    requires c == '"' || c == '\\' || c as int == 8 || c as int == 12 || c == '\n' || c == '\r' || c == '\t'
    ensures ParseStringBody(EscapeChar(c) + t) == Cons(c, ParseStringBody(t))
  {
    var e := EscapeChar(c);
    var s := e + t;
    assert |e| == 2 && e[0] == '\\';
    assert s[1..] == [e[1]] + t;
    assert s[2..] == t;
    EscapeStep(s, c, 1, t);
  }

  /** A character written as itself reads back as itself. */
  lemma PlainCharParses(c: char, t: string)
    requires c as int >= 0x20 && c != '"' && c != '\\'
    ensures ParseStringBody(EscapeChar(c) + t) == Cons(c, ParseStringBody(t))
  {
    var s := EscapeChar(c) + t;
    assert s[1..] == t;
  }

  lemma EscapeCharParses(c: char, t: string)
    ensures ParseStringBody(EscapeChar(c) + t) == Cons(c, ParseStringBody(t))
  {
    if c == '"' || c == '\\' || c as int == 8 || c as int == 12 || c == '\n' || c == '\r' || c == '\t' {
      ShortEscapeParses(c, t);
    } else if c as int < 0x20 {
      UnicodeEscapeParses(c, t);
    } else {
      PlainCharParses(c, t);
    }
  }

  lemma {:induction false} EscapeParses(x: string, t: string)
    ensures ParseStringBody(Escape(x) + "\"" + t) == Some((x, t))
  {
    if x == [] {
      assert Escape(x) + "\"" + t == "\"" + t;
    } else {
      var u := Escape(x[1..]) + "\"" + t;
      assert Escape(x) + "\"" + t == EscapeChar(x[0]) + u;
      EscapeCharParses(x[0], u);
      EscapeParses(x[1..], t);
      assert [x[0]] + x[1..] == x;
    }
  }

  lemma QuoteParses(x: string, t: string)
    ensures ParseQuoted(Quote(x) + t) == Some((x, t))
  {
    var s := Quote(x) + t;
    assert s[1..] == Escape(x) + "\"" + t;
    EscapeParses(x, t);
  }

  lemma {:induction false} NumberSpanStops(x: string, t: string)
    requires forall k :: 0 <= k < |x| ==> NumberChar(x[k])
    requires t == [] || !NumberChar(t[0])
    ensures NumberSpan(x + t) == |x|
  {
    if x != [] {
      assert (x + t)[1..] == x[1..] + t;
      NumberSpanStops(x[1..], t);
    } else {
      assert x + t == t;
    }
  }

  lemma NumberParses(i: int, t: string)
    requires t == [] || !NumberChar(t[0])
    ensures ParseNumber(IntToString(i) + t) == Some((i, t))
  {
    var x := IntToString(i);
    NumberSpanStops(x, t);
    assert (x + t)[..|x|] == x;
    assert (x + t)[|x|..] == t;
    IntRoundTrip(i);
  }

  /** Like `JSON.parse`, the reader refuses a number written with a leading zero, signed or not. */
  lemma LeadingZeroRejected(d: char, rest: string)
    requires IsDigit(d)
    ensures ParseNumber(['0', d] + rest) == None
    ensures ParseNumber(['-', '0', d] + rest) == None
  {
    var s := ['0', d] + rest;
    assert s[1..] == [d] + rest;
    assert NumberSpan(s) >= 2;
    var m := ['-'] + s;
    assert m[1..] == s;
    var n := NumberSpan(m);
    assert n == 1 + NumberSpan(s);
    var digits := m[..n][1..];
    assert digits == s[..NumberSpan(s)];
    assert digits[0] == '0' && |digits| >= 2;
    assert !Numeral(digits);
    assert m == ['-', '0', d] + rest;
    assert m[..n][0] == '-';
  }

  lemma BoolParses(b: bool, t: string)
    ensures ParseBool(BoolText(b) + t) == Some((b, t))
  {
    ExpectLiteral(BoolText(b), t);
    if !b {
      assert (BoolText(b) + t)[0] == 'f';
    }
  }

  /** Without an id nothing is written, and the reader sees no `"id":` before the name field. */
  lemma NoIdFieldParses(t: string)
    requires |t| >= 2 && t[1] == 'n'
    ensures ParseIdField(IdField(None) + t) == Some((None, t))
  {
    assert IdField(None) + t == t;
    assert Expect("\"id\":", t).None? by {
      if |t| >= 5 { assert t[..5][1] == 'n'; }
    }
  }

  lemma IdFieldParses(id: Option<int>, t: string)
    requires |t| >= 2 && t[1] == 'n'
    ensures ParseIdField(IdField(id) + t) == Some((id, t))
  {
    match id
    case None =>
      NoIdFieldParses(t);
    case Some(n) =>
      var lit := "\"id\":";
      assert IdField(id) + t == lit + (IntToString(n) + ("," + t));
      ExpectLiteral(lit, IntToString(n) + ("," + t));
      NumberParses(n, "," + t);
      ExpectLiteral(",", t);
  }

  lemma IdentityParses(p: Profile, tail: string)
    ensures ParseIdentity(IdentityText(p, tail)) == Some((p.name, p.birthYear, p.nationality, tail))
  {
    var t3 := ",\"nationality\":" + (Quote(p.nationality) + tail);
    var t2 := ",\"birthYear\":" + (IntToString(p.birthYear) + t3);
    ExpectLiteral("\"name\":", Quote(p.name) + t2);
    QuoteParses(p.name, t2);
    ExpectLiteral(",\"birthYear\":", IntToString(p.birthYear) + t3);
    NumberParses(p.birthYear, t3);
    ExpectLiteral(",\"nationality\":", Quote(p.nationality) + tail);
    QuoteParses(p.nationality, tail);
  }

  lemma FlagsParse(p: Profile)
    ensures ParseFlags(FlagsText(p)) == Some((p.healthyFood, p.running, p.alcohol, p.smoking))
  {
    var t7 := ",\"smoking\":" + (BoolText(p.smoking) + "}");
    var t6 := ",\"alcohol\":" + (BoolText(p.alcohol) + t7);
    var t5 := ",\"running\":" + (BoolText(p.running) + t6);
    ExpectLiteral(",\"healthyFood\":", BoolText(p.healthyFood) + t5);
    BoolParses(p.healthyFood, t5);
    ExpectLiteral(",\"running\":", BoolText(p.running) + t6);
    BoolParses(p.running, t6);
    ExpectLiteral(",\"alcohol\":", BoolText(p.alcohol) + t7);
    BoolParses(p.alcohol, t7);
    ExpectLiteral(",\"smoking\":", BoolText(p.smoking) + "}");
    BoolParses(p.smoking, "}");
  }

  /** Parsing what the store writes gives back the same record. */
  lemma ParseSerialize(p: Profile)
    ensures Parse(Serialize(p)) == Some(p)
  {
    var t1 := IdentityText(p, FlagsText(p));
    ExpectLiteral("{", IdField(p.id) + t1);
    IdFieldParses(p.id, t1);
    IdentityParses(p, FlagsText(p));
    FlagsParse(p);
  }

  /** Distinct records are stored as distinct texts. */
  lemma SerializeInjective(p: Profile, q: Profile)
    requires Serialize(p) == Serialize(q)
    ensures p == q
  {
    ParseSerialize(p);
    ParseSerialize(q);
  }
}
