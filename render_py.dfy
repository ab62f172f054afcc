/**
 * `generatePythonCode` (background.js:717-828): a pytest function using
 * Playwright's synchronous API, written for every recorded action as it
 * stands, like the TypeScript generator.
 */
module PythonRenderer {
  import opened Text
  import opened Actions
  import opened RenderCommon
  import FramePrefix

  /** The test function's name: the file name with its first hyphen made an underscore. */
  function FunctionName(fileName: string): string {
    "test_recorded_" + ReplaceFirst(fileName, '-', '_')
  }

  /** The lines before the first step. */
  function Header(fileName: string, startUrl: string): string {
    "from playwright.sync_api import sync_playwright, expect\n\n"
    + "def " + FunctionName(fileName) + "():\n"
    + "    with sync_playwright() as p:\n"
    + "        browser = p.chromium.launch()\n"
    + "        page = browser.new_page()\n"
    + "        \n"
    + "        # Navigate to the starting URL\n"
    + "        page.goto('" + startUrl + "')\n"
    + "        \n"
  }

  const Footer := "        # Add your assertions here\n        # expect(page.locator('selector')).to_be_visible()\n        \n        browser.close()\n"

  /**
   * The scroll call: the template has no `$` before its braces, so the
   * Python line names `action.scrollX` and `action.scrollY` literally
   * instead of the recorded position.
   */
  const ScrollCall := "evaluate(f\"window.scrollTo({action.scrollX}, {action.scrollY})\")"

  /** The block the `switch` appends for `action`, `framePrefix` being its frame prefix. */
  function Step(action: Action, framePrefix: string): string {
    var s := Sel(action);
    var d := PythonDialect;
    match action.kind
    case Click => Block(d, "Click on " + s, framePrefix + "click('" + s + "')")
    case DoubleClick => Block(d, "Double-click on " + s, framePrefix + "dblclick('" + s + "')")
    case RightClick => Block(d, "Right-click on " + s, framePrefix + "click('" + s + "', button='right')")
    case Type => Block(d, "Type in " + s, framePrefix + "fill('" + s + "', '" + ValueOrEmpty(action.value) + "')")
    case Check =>
      (match CheckRenderingOf(action)
       case CheckBox => Block(d, "Check checkbox " + s, framePrefix + "check('" + s + "')")
       case UncheckBox => Block(d, "Uncheck checkbox " + s, framePrefix + "uncheck('" + s + "')")
       case CheckRadio => Block(d, "Select radio button " + s, framePrefix + "check('" + s + "')")
       case NoCheck => "")
    case Select =>
      if action.multiple then
        Block(d, "Select multiple options in " + s, framePrefix + "select_option('" + s + "', " + JsonText(action.value) + ")")
      else
        Block(d, "Select option in " + s, framePrefix + "select_option('" + s + "', '" + ValueOrEmpty(action.value) + "')")
    case Upload => Block(d, "Upload file to " + s, framePrefix + "set_input_files('" + s + "', 'path/to/your/file')")
    case Navigate => Block(d, "Navigate to " + StringText(action.url), "page.goto('" + StringText(action.url) + "')")
    case Hover => Block(d, "Hover over " + s, framePrefix + "hover('" + s + "')")
    case Focus => Block(d, "Focus on " + s, framePrefix + "focus('" + s + "')")
    case Blur => Block(d, "Blur from " + s, framePrefix + "evaluate(\"document.querySelector('" + s + "').blur()\")")
    case Wait => Block(d, "Wait for " + s, framePrefix + "wait_for_selector('" + s + "')")
    case Keypress =>
      var key := StringText(action.key);
      Block(d, "Press key " + key + " on " + s, framePrefix + "press('" + s + "', '" + key + "')")
    case Scroll =>
      var x, y := NumberText(action.scrollX), NumberText(action.scrollY);
      Block(d, "Scroll to position (" + x + ", " + y + ")", framePrefix + ScrollCall)
    case DragStart => Block(d, "Start dragging " + s, framePrefix + "drag_and_drop('" + s + "', '" + s + "')")
    case Drop => NoteBlock(d, "Drop on " + s, DragNote)
    case Submit => Block(d, "Submit form " + s, framePrefix + "click('" + s + " button[type=\"submit\"]')")
    case Other(_) => ""
  }

  /** The blocks of the first `n` actions, in order. */
  function Steps(actions: seq<Action>, n: nat): string
    requires n <= |actions|
  {
    if n == 0 then ""
    else Steps(actions, n - 1) + Step(actions[n - 1], FramePrefix.Prefix(FramePrefix.Python, actions[n - 1].framePath))
  }

  /** The test `generatePythonCode` writes. */
  function Code(fileName: string, actions: seq<Action>): string {
    Header(fileName, StartUrl(actions)) + Steps(actions, |actions|) + Footer
  }

  /** `generatePythonCode` */
  method GeneratePythonCode(fileName: string, actions: seq<Action>) returns (code: string)
    ensures code == Code(fileName, actions)
  {
    code := Header(fileName, StartUrl(actions));
    for index := 0 to |actions|
      invariant code == Header(fileName, StartUrl(actions)) + Steps(actions, index)
    {
      var action := actions[index];
      var framePrefix := FramePrefix.GeneratePythonFramePrefix(action.framePath);
      Associative(Header(fileName, StartUrl(actions)), Steps(actions, index), Step(action, framePrefix));
      code := code + Step(action, framePrefix);
    }
    code := code + Footer;
  }

  /** Every action but an unrenderable `check` and an unknown type gets a block. */
  lemma StepSilent(action: Action, framePrefix: string)
    ensures Step(action, framePrefix) == "" <==> UnfilteredSilent(action)
  {
  }

  /**
   * Two scroll actions in the same frame differ only in their comment
   * line: the statement line is the same whatever position was recorded.
   */
  lemma ScrollStatementIgnoresPosition(a: Action, framePrefix: string)
    requires a.kind == Scroll
    ensures exists comment :: Step(a, framePrefix) == Block(PythonDialect, comment, framePrefix + ScrollCall)
  {
    var x, y := NumberText(a.scrollX), NumberText(a.scrollY);
    var comment := "Scroll to position (" + x + ", " + y + ")";
    assert Step(a, framePrefix) == Block(PythonDialect, comment, framePrefix + ScrollCall);
  }

  /**
   * Only the first hyphen of the file name is replaced, so a name with two
   * hyphens gives a function name that still holds one, which Python does
   * not accept in an identifier.
   */
  lemma SecondHyphenSurvives(fileName: string, j: nat)
    requires j < |fileName| && fileName[j] == '-' && '-' in fileName[..j]
    ensures '-' in FunctionName(fileName)
  {
    ReplaceFirstKeepsLaterHyphens(fileName, j);
    var r := ReplaceFirst(fileName, '-', '_');
    var k :| 0 <= k < |r| && r[k] == '-';
    assert FunctionName(fileName)[14 + k] == '-';
  }

  /** The test opens with its header, the first `goto` included, and closes with the fixed closing lines. */
  lemma CodeOpensAndCloses(fileName: string, actions: seq<Action>)
    ensures var code := Code(fileName, actions);
            Header(fileName, StartUrl(actions)) <= code && code[|code| - |Footer|..] == Footer
  {
    var steps := Steps(actions, |actions|);
    Framed(Header(fileName, StartUrl(actions)), steps, Footer);
  }
}
