/** Python objects as the chat clients see them in MCP tool results, and the
    repr() of strings that str() of a list or dict shows. */
module PyValues {
  import opened Wrappers
  import opened Text
  import JsonValues

  /** A Python object. Every object carries its str() text and every dict its
      json.dumps text (None when json.dumps raises); both are computed by
      Python and its libraries and are given here. A str is its own str(). */
  datatype Value =
    | VStr(s: string)
    | VList(items: seq<Value>, text: string)
    | VDict(entries: map<string, Value>, json: Option<string>, text: string)
    | VObject(text: string)

  /** str(v) */
  function Str(v: Value): string {
    match v
    case VStr(s) => s
    case VList(_, t) => t
    case VDict(_, _, t) => t
    case VObject(t) => t
  }

  function Hex2(n: nat): string
    requires n < 256
  {
    [JsonValues.HexDigit(n / 16), JsonValues.HexDigit(n % 16)]
  }

  /** A character of U+0000..U+00FF that str.isprintable() accepts: not a
      C0 or C1 control, DEL, the no-break space or the soft hyphen. */
  predicate PrintableLatin1(c: char) {
    c as int < 256 && !(c as int < 32 || 127 <= c as int <= 160 || c as int == 173)
  }

  /** How repr() writes one character of a string quoted by q: backslash
      escapes for the backslash, the quote and three controls, `\xhh` for
      every other character below U+0100 that is not printable, and the
      character itself otherwise. */
  function ReprChar(c: char, q: char): string {
    if c == '\\' then "\\\\"
    else if c == q then ['\\', q]
    else if c == '\t' then "\\t"
    else if c == '\n' then "\\n"
    else if c == '\r' then "\\r"
    else if c as int < 256 && !PrintableLatin1(c) then "\\x" + Hex2(c as int)
    else [c]
  }

  /** repr() leaves no non-printable character below U+0100 in its text:
      each is escaped with printable ASCII. */
  lemma ReprCharPrintable(c: char, q: char)
    requires PrintableLatin1(q)
    ensures var r := ReprChar(c, q);
            forall i :: 0 <= i < |r| ==> r[i] as int >= 256 || PrintableLatin1(r[i])
  {
  }

  function ReprBody(s: string, q: char): string
    decreases |s|
  {
    if s == [] then "" else ReprChar(s[0], q) + ReprBody(s[1..], q)
  }

  /** The quote repr() chooses: double quotes only when the text holds a
      single quote and no double quote. */
  function QuoteFor(s: string): char {
    if '\'' in s && '"' !in s then '"' else '\''
  }

  /** repr(s) */
  function Repr(s: string): (r: string)
    ensures |r| >= 2 && r[0] == r[|r| - 1] == QuoteFor(s)
  {
    var q := QuoteFor(s);
    [q] + ReprBody(s, q) + [q]
  }

  lemma {:induction false} ReprBodyPrintable(s: string, q: char)
    requires PrintableLatin1(q)
    ensures forall i :: 0 <= i < |ReprBody(s, q)| ==> ReprBody(s, q)[i] as int >= 256 || PrintableLatin1(ReprBody(s, q)[i])
    decreases |s|
  {
    if s != [] {
      ReprCharPrintable(s[0], q);
      ReprBodyPrintable(s[1..], q);
    }
  }

  /** Every character of repr(s) below U+0100 is printable: the controls,
      DEL, the no-break space and the soft hyphen of s come out escaped. */
  lemma ReprPrintable(s: string)
    ensures forall i :: 0 <= i < |Repr(s)| ==> Repr(s)[i] as int >= 256 || PrintableLatin1(Repr(s)[i])
  {
    ReprBodyPrintable(s, QuoteFor(s));
  }

  /** str() of a list of strings: "['a', 'b']". */
  function ReprStrings(items: seq<string>): string {
    "[" + Join(seq(|items|, i requires 0 <= i < |items| => Repr(items[i])), ", ") + "]"
  }
}
