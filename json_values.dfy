/** The values json.loads produces from a tool call's argument text, and the
    way json.dumps (with its default ensure_ascii) writes a string. */
module JsonValues {
  import opened Text

  /** A decoded JSON document. Floating-point numbers are not modelled. */
  datatype Json =
    | JNull
    | JBool(b: bool)
    | JInt(i: int)
    | JStr(s: string)
    | JArray(items: seq<Json>)
    | JObject(fields: map<string, Json>)

  /** The empty argument mapping `{}`. */
  const EmptyObject: Json := JObject(map[])

  /** Python's truth value of the decoded object (`if topic:`). */
  predicate Truthy(j: Json) {
    match j
    case JNull => false
    case JBool(b) => b
    case JInt(i) => i != 0
    case JStr(s) => s != ""
    case JArray(items) => items != []
    case JObject(fields) => fields != map[]
  }

  /** A decoded scalar other than a string: null, a boolean or an int. */
  predicate NonStrScalar(j: Json) {
    j.JNull? || j.JBool? || j.JInt?
  }

  /** str() of such a scalar, as an f-string shows it. */
  function ScalarStr(j: Json): string
    requires NonStrScalar(j)
  {
    match j
    case JNull => "None"
    case JBool(b) => if b then "True" else "False"
    case JInt(i) => if i < 0 then "-" + Decimal(-i) else Decimal(i)
  }

  /** An int prints starting with a sign or a digit, null and the
      booleans with a letter. */
  lemma ScalarStrHead(j: Json)
    requires NonStrScalar(j)
    ensures |ScalarStr(j)| > 0
    ensures j.JInt? <==> ScalarStr(j)[0] == '-' || '0' <= ScalarStr(j)[0] <= '9'
  {
  }

  /** Distinct scalars print differently. */
  lemma ScalarStrInjective(a: Json, b: Json)
    requires NonStrScalar(a) && NonStrScalar(b)
    requires ScalarStr(a) == ScalarStr(b)
    ensures a == b
  {
    ScalarStrHead(a);
    ScalarStrHead(b);
    if a.JInt? && b.JInt? {
      var m := if a.i < 0 then -a.i else a.i;
      var k := if b.i < 0 then -b.i else b.i;
      assert ScalarStr(a)[0] == '-' <==> a.i < 0;
      assert ScalarStr(b)[0] == '-' <==> b.i < 0;
      assert Decimal(m) == Decimal(k) by {
        if a.i < 0 {
          assert Decimal(m) == ScalarStr(a)[1..];
          assert Decimal(k) == ScalarStr(b)[1..];
        }
      }
      DecimalRoundTrip(m);
      DecimalRoundTrip(k);
    }
  }

  function HexDigit(d: nat): (c: char)
    requires d < 16
    ensures ' ' <= c <= '~'
  {
    if d < 10 then DigitChar(d) else ('a' as int + d - 10) as char
  }

  /** Four lower-case hexadecimal digits, as json.dumps writes after "\\u". */
  function Hex4(n: nat): (r: string)
    requires n < 0x1_0000
    ensures |r| == 4 && forall i :: 0 <= i < 4 ==> ' ' <= r[i] <= '~'
  {
    [HexDigit(n / 0x1000), HexDigit(n / 0x100 % 16), HexDigit(n / 16 % 16), HexDigit(n % 16)]
  }

  predicate Printable(s: string) {
    forall i :: 0 <= i < |s| ==> ' ' <= s[i] <= '~'
  }

  /** How json.dumps writes one character inside a string literal: the two
      characters that need a backslash, the five named control escapes,
      printable ASCII as itself, everything else as `\uXXXX` (a surrogate
      pair above U+FFFF). */
  function EscapeChar(c: char): (r: string)
    ensures Printable(r)
    ensures ' ' <= c <= '~' && c != '"' && c != '\\' ==> r == [c]
  {
    if c == '"' then "\\\""
    else if c == '\\' then "\\\\"
    else if c == '\n' then "\\n"
    else if c == '\r' then "\\r"
    else if c == '\t' then "\\t"
    else if c as int == 8 then "\\b"
    else if c as int == 12 then "\\f"
    else if ' ' <= c <= '~' then [c]
    else if c as int < 0x1_0000 then "\\u" + Hex4(c as int)
    else
      var v := c as int - 0x1_0000;
      "\\u" + Hex4(0xD800 + v / 0x400) + "\\u" + Hex4(0xDC00 + v % 0x400)
  }

  function EscapeAll(s: string): (r: string)
    ensures Printable(r)
    decreases |s|
  {
    if s == [] then "" else EscapeChar(s[0]) + EscapeAll(s[1..])
  }

  /** json.dumps of a string. */
  function Quote(s: string): (r: string)
    ensures Printable(r)
  {
    "\"" + EscapeAll(s) + "\""
  }

  predicate PlainText(s: string) {
    forall i :: 0 <= i < |s| ==> ' ' <= s[i] <= '~' && s[i] != '"' && s[i] != '\\'
  }

  /** Printable ASCII text without quotes or backslashes is written as is. */
  lemma {:induction false} EscapeAllPlain(s: string)
    requires PlainText(s)
    ensures EscapeAll(s) == s
    decreases |s|
  {
    if s != [] {
      EscapeAllPlain(s[1..]);
      assert [s[0]] + s[1..] == s;
    }
  }
}
