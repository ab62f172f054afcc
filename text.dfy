/**
 * The few JavaScript string operations the recorder relies on, written
 * out over `seq<char>`: `trim`, `replace(/\s+/g, ' ')`, `split`, `join`,
 * `toLowerCase`, `startsWith`, number-to-text and `JSON.stringify` of a
 * string.  Characters are Unicode scalar values (JavaScript counts UTF-16
 * code units; the difference only shows outside the Basic Multilingual
 * Plane).
 */
module Text {

  /** The characters JavaScript's `\s` class and `String.prototype.trim` treat as white space. */
  predicate IsSpace(c: char) {
    c == ' ' || c == '\t' || c == '\n' || c == '\r' || c == '\U{000B}' || c == '\U{000C}'
    || c == '\U{00A0}' || c == '\U{1680}' || ('\U{2000}' <= c <= '\U{200A}')
    || c == '\U{2028}' || c == '\U{2029}' || c == '\U{202F}' || c == '\U{205F}'
    || c == '\U{3000}' || c == '\U{FEFF}'
  }

  predicate AllSpace(s: string) {
    forall i :: 0 <= i < |s| ==> IsSpace(s[i])
  }

  /** `s.trimStart()` */
  function TrimStart(s: string): (r: string)
    ensures |r| <= |s|
  {
    if s != [] && IsSpace(s[0]) then TrimStart(s[1..]) else s
  }

  /** `s.trimEnd()` */
  function TrimEnd(s: string): (r: string)
    ensures |r| <= |s|
  {
    if s != [] && IsSpace(s[|s| - 1]) then TrimEnd(s[..|s| - 1]) else s
  }

  /** `s.trim()`: the text left after removing leading and trailing white space. */
  function Trim(s: string): (r: string)
    ensures |r| <= |s|
  {
    TrimEnd(TrimStart(s))
  }

  /** `trimStart` removes exactly the leading white space. */
  lemma {:induction false} TrimStartSpec(s: string)
    ensures var r := TrimStart(s);
            r == s[|s| - |r|..] && AllSpace(s[..|s| - |r|]) && (r != [] ==> !IsSpace(r[0]))
  {
    if s != [] && IsSpace(s[0]) {
      TrimStartSpec(s[1..]);
      var r := TrimStart(s[1..]);
      assert s[1..][..|s| - 1 - |r|] == s[1..|s| - |r|];
    }
  }

  /** `trimEnd` removes exactly the trailing white space. */
  lemma {:induction false} TrimEndSpec(s: string)
    ensures var r := TrimEnd(s);
            r == s[..|r|] && AllSpace(s[|r|..]) && (r != [] ==> !IsSpace(r[|r| - 1]))
  {
    if s != [] && IsSpace(s[|s| - 1]) {
      TrimEndSpec(s[..|s| - 1]);
      var r := TrimEnd(s[..|s| - 1]);
      assert s[..|s| - 1][|r|..] == s[|r|..|s| - 1];
    }
  }

  /** A trimmed string is empty exactly when the input is all white space, and otherwise has no white space at its ends. */
  lemma TrimSpec(s: string)
    ensures Trim(s) == [] <==> AllSpace(s)
    ensures Trim(s) != [] ==> !IsSpace(Trim(s)[0]) && !IsSpace(Trim(s)[|Trim(s)| - 1])
  {
    var t := TrimStart(s);
    TrimStartSpec(s);
    TrimEndSpec(t);
    var r := TrimEnd(t);
    if r != [] {
      assert r[0] == t[0];
    } else {
      assert s == s[..|s| - |t|] + t;
    }
  }

  /** The string holds a character that is not white space. */
  predicate NonBlank(s: string) {
    s != [] && (!IsSpace(s[0]) || NonBlank(s[1..]))
  }

  /** `NonBlank` is JavaScript's truthiness of `s.trim()`. */
  lemma {:induction false} NonBlankIsTrimTruthy(s: string)
    ensures NonBlank(s) <==> Trim(s) != []
  {
    TrimSpec(s);
    if s != [] {
      NonBlankIsTrimTruthy(s[1..]);
      TrimSpec(s[1..]);
      assert s == [s[0]] + s[1..];
    }
  }

  /** `s.replace(/\s+/g, ' ')`: every maximal run of white space becomes one blank. */
  function CollapseSpaces(s: string): string
    decreases |s|
  {
    if s == [] then []
    else if IsSpace(s[0]) then [' '] + CollapseSpaces(TrimStart(s[1..]))
    else [s[0]] + CollapseSpaces(s[1..])
  }

  /** `s.split(x)` where `x` matches one character of `seps`; there is always at least one piece. */
  function Split(s: string, seps: set<char>): (r: seq<string>)
    ensures |r| >= 1
  {
    if s == [] then [""]
    else
      var rest := Split(s[1..], seps);
      if s[0] in seps then [""] + rest
      else [[s[0]] + rest[0]] + rest[1..]
  }

  /** The white-space characters a class list splits on. */
  const AsciiSpaces: set<char> := {' ', '\t', '\n', '\U{000C}', '\r'}

  function NonEmptyPieces(parts: seq<string>): (r: seq<string>)
    ensures forall i :: 0 <= i < |r| ==> r[i] != []
  {
    if parts == [] then []
    else if parts[0] != [] then [parts[0]] + NonEmptyPieces(parts[1..])
    else NonEmptyPieces(parts[1..])
  }

  /** The tokens of an `element.classList`: the class attribute split on ASCII white space, empty pieces dropped. */
  function Tokens(s: string): seq<string> {
    NonEmptyPieces(Split(s, AsciiSpaces))
  }

  /** `parts.join(sep)` */
  function Join(parts: seq<string>, sep: string): string {
    if parts == [] then ""
    else if |parts| == 1 then parts[0]
    else parts[0] + sep + Join(parts[1..], sep)
  }

  /** Concatenation regroups freely; stated once so that long proofs can cite it. */
  lemma Associative(x: string, y: string, z: string)
    ensures (x + y) + z == x + (y + z)
  {
  }

  /** `f(0) + f(1) + ... + f(n - 1)` */
  function ConcatUpTo(f: nat -> string, n: nat): string {
    if n == 0 then "" else ConcatUpTo(f, n - 1) + f(n - 1)
  }

  /** Parts that are all empty concatenate to nothing. */
  lemma {:induction false} ConcatOfEmpties(f: nat -> string, n: nat)
    requires forall i :: 0 <= i < n ==> f(i) == ""
    ensures ConcatUpTo(f, n) == ""
  {
    if n > 0 {
      ConcatOfEmpties(f, n - 1);
      assert ConcatUpTo(f, n) == "" + "";
    }
  }

  /** A concatenation starts with its first part and ends with its last. */
  lemma Framed(x: string, y: string, z: string)
    ensures x <= x + y + z
    ensures (x + y + z)[|x + y + z| - |z|..] == z
  {
    assert (x + y + z)[..|x|] == x;
  }

  /** `s.startsWith(p)` */
  predicate StartsWith(s: string, p: string) {
    p <= s
  }

  function LowerChar(c: char): char {
    if 'A' <= c <= 'Z' then (c as int + 32) as char else c
  }

  /** `s.toLowerCase()` on the ASCII letters. */
  function Lower(s: string): (r: string)
    ensures |r| == |s|
  {
    if s == [] then [] else [LowerChar(s[0])] + Lower(s[1..])
  }

  /**
   * The last piece of a split on any of `seps`: `s.split('/').pop()` with
   * `seps == {'/'}`, `s.split(/[\\/]/).pop()` with `seps == {'/', '\\'}`.
   */
  function AfterLast(s: string, seps: set<char>): (r: string)
    ensures |r| <= |s| && r == s[|s| - |r|..]
    ensures forall i :: 0 <= i < |r| ==> r[i] !in seps
    ensures |r| < |s| ==> s[|s| - |r| - 1] in seps
  {
    if s == [] then []
    else if s[|s| - 1] in seps then []
    else AfterLast(s[..|s| - 1], seps) + [s[|s| - 1]]
  }

  function DigitChar(d: nat): char
    requires d < 10
  {
    "0123456789"[d]
  }

  /** Decimal text of a non-negative integer, as `String(n)` writes it. */
  function NatText(n: nat): (r: string)
    ensures |r| >= 1
    ensures forall i :: 0 <= i < |r| ==> '0' <= r[i] <= '9'
  {
    if n < 10 then [DigitChar(n)] else NatText(n / 10) + [DigitChar(n % 10)]
  }

  /** Decimal text of an integer, with a leading minus sign when negative. */
  function IntText(n: int): string {
    if n < 0 then "-" + NatText(-n) else NatText(n)
  }

  /** The characters of a JSON string literal body: `"` and `\` are escaped. */
  function JsonEscape(s: string): string {
    if s == [] then []
    else (if s[0] == '"' || s[0] == '\\' then ['\\', s[0]] else [s[0]]) + JsonEscape(s[1..])
  }

  /** `JSON.stringify(s)` for a string. */
  function JsonString(s: string): string {
    "\"" + JsonEscape(s) + "\""
  }
}
