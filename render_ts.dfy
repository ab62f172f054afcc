/**
 * `generateTypeScriptCode` (background.js:609-715): the JavaScript test
 * with an ES module import, written for every recorded action as it
 * stands: no cleaning, no filter, and a key press always aimed at its
 * selector with `Press key <key> on <selector>` as its comment.
 */
module TypeScriptRenderer {
  import opened Text
  import opened Actions
  import opened RenderCommon
  import FramePrefix
  import JavaScriptRenderer

  /** The lines before the first step. */
  function Header(fileName: string, startUrl: string): string {
    "import { test, expect } from '@playwright/test';\n\n" + TestOpening(fileName, startUrl)
  }

  /** The block the `switch` appends for `action`, `framePrefix` being its frame prefix. */
  function Step(action: Action, framePrefix: string): string {
    var s := Sel(action);
    var d := JavaScriptDialect;
    match action.kind
    case Click => Block(d, "Click on " + s, framePrefix + "click('" + s + "')")
    case DoubleClick => Block(d, "Double-click on " + s, framePrefix + "dblclick('" + s + "')")
    case RightClick => Block(d, "Right-click on " + s, framePrefix + "click('" + s + "', { button: 'right' })")
    case Type => Block(d, "Type in " + s, framePrefix + "fill('" + s + "', '" + ValueOrEmpty(action.value) + "')")
    case Check =>
      (match CheckRenderingOf(action)
       case CheckBox => Block(d, "Check checkbox " + s, framePrefix + "check('" + s + "')")
       case UncheckBox => Block(d, "Uncheck checkbox " + s, framePrefix + "uncheck('" + s + "')")
       case CheckRadio => Block(d, "Select radio button " + s, framePrefix + "check('" + s + "')")
       case NoCheck => "")
    case Select =>
      if action.multiple then
        Block(d, "Select multiple options in " + s, framePrefix + "selectOption('" + s + "', " + JsonText(action.value) + ")")
      else
        Block(d, "Select option in " + s, framePrefix + "selectOption('" + s + "', '" + ValueOrEmpty(action.value) + "')")
    case Upload => Block(d, "Upload file to " + s, framePrefix + "setInputFiles('" + s + "', 'path/to/your/file')")
    case Navigate => Block(d, "Navigate to " + StringText(action.url), "page.goto('" + StringText(action.url) + "')")
    case Hover => Block(d, "Hover over " + s, framePrefix + "hover('" + s + "')")
    case Focus => Block(d, "Focus on " + s, framePrefix + "focus('" + s + "')")
    case Blur => Block(d, "Blur from " + s, framePrefix + "evaluate(() => document.querySelector('" + s + "').blur())")
    case Wait => Block(d, "Wait for " + s, framePrefix + "waitForSelector('" + s + "')")
    case Keypress =>
      var key := StringText(action.key);
      Block(d, "Press key " + key + " on " + s, framePrefix + "press('" + s + "', '" + key + "')")
    case Scroll =>
      var x, y := NumberText(action.scrollX), NumberText(action.scrollY);
      Block(d, "Scroll to position (" + x + ", " + y + ")", framePrefix + "evaluate(() => window.scrollTo(" + x + ", " + y + "))")
    case DragStart => Block(d, "Start dragging " + s, framePrefix + "dragAndDrop('" + s + "', '" + s + "')")
    case Drop => NoteBlock(d, "Drop on " + s, DragNote)
    case Submit => Block(d, "Submit form " + s, framePrefix + "click('" + s + " button[type=\"submit\"]')")
    case Other(_) => ""
  }

  /** The blocks of the first `n` actions, in order. */
  function Steps(actions: seq<Action>, n: nat): string
    requires n <= |actions|
  {
    if n == 0 then ""
    else Steps(actions, n - 1) + Step(actions[n - 1], FramePrefix.Prefix(FramePrefix.JavaScript, actions[n - 1].framePath))
  }

  /** The test `generateTypeScriptCode` writes. */
  function Code(fileName: string, actions: seq<Action>): string {
    Header(fileName, StartUrl(actions)) + Steps(actions, |actions|) + TestClosing
  }

  /** `generateTypeScriptCode` */
  method GenerateTypeScriptCode(fileName: string, actions: seq<Action>) returns (code: string)
    ensures code == Code(fileName, actions)
  {
    code := Header(fileName, StartUrl(actions));
    for index := 0 to |actions|
      invariant code == Header(fileName, StartUrl(actions)) + Steps(actions, index)
    {
      var action := actions[index];
      var framePrefix := FramePrefix.GenerateFramePrefix(action.framePath);
      Associative(Header(fileName, StartUrl(actions)), Steps(actions, index), Step(action, framePrefix));
      code := code + Step(action, framePrefix);
    }
    code := code + TestClosing;
  }

  /** Every action but an unrenderable `check` and an unknown type gets a block. */
  lemma StepSilent(action: Action, framePrefix: string)
    ensures Step(action, framePrefix) == "" <==> UnfilteredSilent(action)
  {
  }

  /**
   * Apart from key presses, the JavaScript generator writes for a cleaned
   * action exactly the block the TypeScript generator writes, or nothing
   * when it leaves the action out.
   */
  lemma JavaScriptIsFilteredTypeScript(cleaned: seq<Action>, i: nat, framePrefix: string)
    requires i < |cleaned| && cleaned[i].kind != Keypress
    ensures JavaScriptRenderer.Step(cleaned, i, framePrefix)
            == if JavaScriptRenderer.Silent(cleaned, i) then "" else Step(cleaned[i], framePrefix)
  {
  }

  /** The test opens with its header, the first `goto` included, and closes with the fixed closing lines. */
  lemma CodeOpensAndCloses(fileName: string, actions: seq<Action>)
    ensures var code := Code(fileName, actions);
            Header(fileName, StartUrl(actions)) <= code && code[|code| - |TestClosing|..] == TestClosing
  {
    var steps := Steps(actions, |actions|);
    Framed(Header(fileName, StartUrl(actions)), steps, TestClosing);
  }
}
