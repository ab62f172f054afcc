/**
 * What the four generators of background.js share: the starting address,
 * the check/uncheck decision, the text of an action's selector, and the
 * concatenation of per-action blocks that each `forEach` builds.
 */
module RenderCommon {
  import opened Text
  import opened Actions

  /** The address used when no first action has one. */
  const DefaultUrl := "https://example.com"

  /** `actions[0]?.url || 'https://example.com'` */
  function StartUrl(actions: seq<Action>): (r: string)
    ensures r != ""
    ensures actions != [] && actions[0].url.Some? && actions[0].url.value != "" ==> r == actions[0].url.value
  {
    if actions != [] && actions[0].url.Some? && actions[0].url.value != "" then actions[0].url.value
    else DefaultUrl
  }

  /**
   * How a generator lays out the two lines of a step: the indentation, the
   * comment marker, the word before a call (`await ` in JavaScript and
   * TypeScript) and the statement terminator.
   */
  datatype Dialect = Dialect(indent: string, commentMark: string, awaitWord: string, terminator: string)

  const JavaScriptDialect := Dialect("  ", "// ", "await ", ";")
  const PythonDialect := Dialect("        ", "# ", "", "")
  const JavaDialect := Dialect("            ", "// ", "", ";")

  /** A step: a comment line, a statement line and a blank line. */
  function Block(d: Dialect, comment: string, statement: string): (r: string)
    ensures r != []
  {
    d.indent + d.commentMark + comment + "\n" + d.indent + d.awaitWord + statement + d.terminator + "\n\n"
  }

  /** A step with a second comment line in place of a statement. */
  function NoteBlock(d: Dialect, comment: string, note: string): (r: string)
    ensures r != []
  {
    d.indent + d.commentMark + comment + "\n" + d.indent + d.commentMark + note + "\n\n"
  }

  const DragNote := "Note: Drag and drop requires source and target selectors"

  /** The test declaration and first navigation the JavaScript and TypeScript files share. */
  function TestOpening(fileName: string, startUrl: string): string {
    "test('Recorded Test - " + fileName + "', async ({ page }) => {\n"
    + "  // Navigate to the starting URL\n"
    + "  await page.goto('" + startUrl + "');\n"
    + "  \n"
  }

  /** The closing lines the JavaScript and TypeScript files share. */
  const TestClosing := "  // Add your assertions here\n  // await expect(page.locator('selector')).toBeVisible();\n});\n"

  /** `${action.selector}` */
  function Sel(a: Action): string {
    SelectorText(a.selector)
  }

  /** What a `check` action renders as: every generator makes the same choice. */
  datatype CheckRendering = CheckBox | UncheckBox | CheckRadio | NoCheck

  /** A checkbox is checked or unchecked by its `checked` flag, a radio is checked, anything else renders nothing. */
  function CheckRenderingOf(a: Action): (r: CheckRendering)
    ensures r == NoCheck <==> a.inputType != "checkbox" && a.inputType != "radio"
    ensures r == UncheckBox <==> a.inputType == "checkbox" && !a.checked
  {
    if a.inputType == "checkbox" then (if a.checked then CheckBox else UncheckBox)
    else if a.inputType == "radio" then CheckRadio
    else NoCheck
  }

  /**
   * The actions a generator that does not filter (TypeScript, Python,
   * Java) writes nothing for: a `check` on an element that is neither a
   * checkbox nor a radio button, and any type its `switch` does not list.
   */
  predicate UnfilteredSilent(a: Action) {
    a.kind.Other? || (a.kind == Check && CheckRenderingOf(a) == NoCheck)
  }

  /** `s` with its first `from` replaced by `to`, as `String.prototype.replace` with a string pattern does. */
  function ReplaceFirst(s: string, from: char, to: char): (r: string)
    ensures |r| == |s|
    ensures from !in s ==> r == s
  {
    if s == [] then []
    else if s[0] == from then [to] + s[1..]
    else [s[0]] + ReplaceFirst(s[1..], from, to)
  }

  /** The first occurrence, at `k`, is the one replaced; everything else is kept. */
  lemma {:induction false} ReplaceFirstAt(s: string, from: char, to: char, k: nat)
    requires k < |s| && s[k] == from && from !in s[..k]
    ensures ReplaceFirst(s, from, to) == s[..k] + [to] + s[k + 1..]
  {
    if k > 0 {
      assert s[0] == s[..k][0];
      assert s[1..][..k - 1] == s[1..k];
      ReplaceFirstAt(s[1..], from, to, k - 1);
      assert s[..k] == [s[0]] + s[1..k];
    }
  }

  /** Only the first hyphen is replaced: a name with two hyphens keeps one. */
  lemma {:induction false} ReplaceFirstKeepsLaterHyphens(s: string, j: nat)
    requires j < |s| && s[j] == '-' && '-' in s[..j]
    ensures '-' in ReplaceFirst(s, '-', '_')
  {
    if s[0] == '-' {
      assert ReplaceFirst(s, '-', '_')[j] == '-';
    } else {
      assert s[1..][..j - 1] == s[1..j];
      assert s[..j] == [s[0]] + s[1..j];
      ReplaceFirstKeepsLaterHyphens(s[1..], j - 1);
    }
  }

  predicate IdentChar(c: char) {
    ('a' <= c <= 'z') || ('A' <= c <= 'Z') || ('0' <= c <= '9') || c == '_'
  }

  /** `s.replace(/[^a-zA-Z0-9_]/g, '')` */
  function KeepIdentChars(s: string): (r: string)
    ensures |r| <= |s|
    ensures forall i :: 0 <= i < |r| ==> IdentChar(r[i])
    ensures (forall i :: 0 <= i < |s| ==> IdentChar(s[i])) ==> r == s
  {
    if s == [] then []
    else if IdentChar(s[0]) then [s[0]] + KeepIdentChars(s[1..])
    else KeepIdentChars(s[1..])
  }
}
