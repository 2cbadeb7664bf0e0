/** String helpers whose exact behaviour the core depends on: JavaScript's `String.prototype.trim`,
    Python's `str.strip`, decimal rendering of a number and the ASCII test of `hmac.compare_digest`. */
module Strings {

  /** The characters `String.prototype.trim` removes: ECMAScript WhiteSpace (tab, vertical tab,
      form feed, space, no-break space, byte order mark, every space separator) and LineTerminator. */
  predicate IsJsWhitespace(c: char) {
    c == '\t' || c == '\n' || c == '\U{000B}' || c == '\U{000C}' || c == '\r' || c == ' '
    || c == '\U{00A0}' || c == '\U{1680}' || ('\U{2000}' <= c <= '\U{200A}')
    || c == '\U{2028}' || c == '\U{2029}' || c == '\U{202F}' || c == '\U{205F}'
    || c == '\U{3000}' || c == '\U{FEFF}'
  }

  /** The characters for which Python's `str.isspace` holds, the ones `str.strip()` removes. */
  predicate IsPyWhitespace(c: char) {
    ('\t' <= c <= '\r') || ('\U{001C}' <= c <= ' ') || c == '\U{0085}' || c == '\U{00A0}'
    || c == '\U{1680}' || ('\U{2000}' <= c <= '\U{200A}') || c == '\U{2028}' || c == '\U{2029}'
    || c == '\U{202F}' || c == '\U{205F}' || c == '\U{3000}'
  }

  function DropLeading(s: string, ws: char -> bool): (r: string)
    ensures |r| <= |s| && r == s[|s| - |r|..]
    ensures r != [] ==> !ws(r[0])
    ensures forall i :: 0 <= i < |s| - |r| ==> ws(s[i])
  {
    if s != [] && ws(s[0]) then DropLeading(s[1..], ws) else s
  }

  function DropTrailing(s: string, ws: char -> bool): (r: string)
    ensures |r| <= |s| && r == s[..|r|]
    ensures r != [] ==> !ws(r[|r| - 1])
    ensures forall i :: |r| <= i < |s| ==> ws(s[i])
  {
    if s != [] && ws(s[|s| - 1]) then DropTrailing(s[..|s| - 1], ws) else s
  }

  /** Removes every leading and every trailing character that `ws` accepts. */
  function TrimBy(s: string, ws: char -> bool): string {
    DropTrailing(DropLeading(s, ws), ws)
  }

  /** `s.trim()` in JavaScript. */
  function Trim(s: string): string {
    TrimBy(s, IsJsWhitespace)
  }

  /** `s.strip()` in Python. */
  function Strip(s: string): string {
    TrimBy(s, IsPyWhitespace)
  }

  /** Trimming leaves nothing exactly when every character is removable: the condition under
      which `!keyName.trim()` is true. */
  lemma TrimByEmptyIff(s: string, ws: char -> bool)
    ensures TrimBy(s, ws) == "" <==> forall i :: 0 <= i < |s| ==> ws(s[i])
  {
  }

  /** Trimming twice is trimming once. */
  lemma TrimByIdempotent(s: string, ws: char -> bool)
    ensures TrimBy(TrimBy(s, ws), ws) == TrimBy(s, ws)
  {
    var r := TrimBy(s, ws);
    if r != [] {
      assert DropLeading(r, ws) == r;
      assert DropTrailing(r, ws) == r;
    }
  }

  function DigitChar(d: nat): (c: char)
    requires d < 10
    ensures '0' <= c <= '9'
  {
    ['0', '1', '2', '3', '4', '5', '6', '7', '8', '9'][d]
  }

  /** The decimal rendering of a natural number, as JavaScript's template strings and Python's
      `str()` both produce it. */
  function Decimal(n: nat): (r: string)
    ensures r != [] && forall i :: 0 <= i < |r| ==> '0' <= r[i] <= '9'
  {
    if n < 10 then [DigitChar(n)] else Decimal(n / 10) + [DigitChar(n % 10)]
  }

  predicate IsAscii(s: string) {
    forall i :: 0 <= i < |s| ==> s[i] < '\U{0080}'
  }
}
