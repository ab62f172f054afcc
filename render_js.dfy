/**
 * `generateJavaScriptCode` (background.js:383-514): a Playwright test in
 * JavaScript.  It is the only generator that cleans the actions first and
 * leaves some of them out: a navigation to the address already shown, a
 * hover that neither shows a tooltip nor is important, a focus or blur off
 * a form field, a key press without a key, a scroll without a large
 * `scrollDiff`, and every action type it does not know.
 */
module JavaScriptRenderer {
  import opened Text
  import opened Actions
  import opened RenderCommon
  import FramePrefix
  import KeyDescription
  import Cleanup

  /** The lines before the first step; `fileName` is the session's file name. */
  function Header(fileName: string, startUrl: string): string {
    "const { test, expect } = require('@playwright/test');\n\n" + TestOpening(fileName, startUrl)
  }

  /** Whether the step for the `i`-th cleaned action writes nothing. */
  predicate Silent(cleaned: seq<Action>, i: nat)
    requires i < |cleaned|
  {
    var a := cleaned[i];
    match a.kind
    case Check => CheckRenderingOf(a) == NoCheck
    case Navigate => i > 0 && a.url == cleaned[i - 1].url
    case Hover => !a.hasTooltip && !a.isImportant
    case Focus => !IsFormTag(a.elementType)
    case Blur => !IsFormTag(a.elementType)
    case Keypress => a.key.None? || a.key.value == ""
    case Scroll => a.scrollDiff.None? || a.scrollDiff.value <= 100
    case Other(_) => true
    case _ => false
  }

  /** A key press goes to its element unless its selector is missing, empty or `'body'`. */
  predicate PressOnElement(a: Action) {
    SelectorTruthy(a.selector) && a.selector != Plain("body")
  }

  /** The block the `switch` appends for the `index`-th cleaned action, `framePrefix` being its frame prefix. */
  function Step(cleaned: seq<Action>, index: nat, framePrefix: string): string
    requires index < |cleaned|
  {
    var action := cleaned[index];
    var s := Sel(action);
    var d := JavaScriptDialect;
    match action.kind
    case Click => Block(d, "Click on " + s, framePrefix + "click('" + s + "')")
    case DoubleClick => Block(d, "Double-click on " + s, framePrefix + "dblclick('" + s + "')")
    case RightClick => Block(d, "Right-click on " + s, framePrefix + "click('" + s + "', { button: 'right' })")
    case Type => Block(d, "Type in " + s, framePrefix + "fill('" + s + "', '" + ValueOrEmpty(action.value) + "')")
    case Check =>
      (match CheckRenderingOf(action)
       case CheckBox => Block(d, "Check checkbox " + s, framePrefix + "check('" + s + "')")
       case UncheckBox => Block(d, "Uncheck checkbox " + s, framePrefix + "uncheck('" + s + "')")
       case CheckRadio => Block(d, "Select radio button " + s, framePrefix + "check('" + s + "')")
       case NoCheck => "")
    case Select =>
      if action.multiple then
        Block(d, "Select multiple options in " + s, framePrefix + "selectOption('" + s + "', " + JsonText(action.value) + ")")
      else
        Block(d, "Select option in " + s, framePrefix + "selectOption('" + s + "', '" + ValueOrEmpty(action.value) + "')")
    case Upload => Block(d, "Upload file to " + s, framePrefix + "setInputFiles('" + s + "', 'path/to/your/file')")
    case Navigate =>
      if index == 0 || action.url != cleaned[index - 1].url then
        Block(d, "Navigate to " + StringText(action.url), "page.goto('" + StringText(action.url) + "')")
      else ""
    case Hover =>
      if action.hasTooltip || action.isImportant then Block(d, "Hover over " + s, framePrefix + "hover('" + s + "')")
      else ""
    case Focus =>
      if IsFormTag(action.elementType) then Block(d, "Focus on " + s, framePrefix + "focus('" + s + "')")
      else ""
    case Blur =>
      if IsFormTag(action.elementType) then
        Block(d, "Blur from " + s, framePrefix + "evaluate(() => document.querySelector('" + s + "').blur())")
      else ""
    case Wait => Block(d, "Wait for " + s, framePrefix + "waitForSelector('" + s + "')")
    case Keypress =>
      if action.key.Some? && action.key.value != "" then
        var key := action.key.value;
        Block(d, KeyDescription.GetKeyDescription(key, action.modifiers),
              if PressOnElement(action) then framePrefix + "press('" + s + "', '" + key + "')"
              else "page.keyboard.press('" + key + "')")
      else ""
    case Scroll =>
      if action.scrollDiff.Some? && action.scrollDiff.value > 100 then
        var x, y := NumberText(action.scrollX), NumberText(action.scrollY);
        Block(d, "Scroll to position (" + x + ", " + y + ")", framePrefix + "evaluate(() => window.scrollTo(" + x + ", " + y + "))")
      else ""
    case DragStart => Block(d, "Start dragging " + s, framePrefix + "dragAndDrop('" + s + "', '" + s + "')")
    case Drop => NoteBlock(d, "Drop on " + s, DragNote)
    case Submit => Block(d, "Submit form " + s, framePrefix + "click('" + s + " button[type=\"submit\"]')")
    case Other(_) => ""
  }

  /** The block of the `i`-th cleaned action with its own frame prefix; nothing past the end. */
  function StepAt(cleaned: seq<Action>): nat -> string {
    (i: nat) => if i < |cleaned| then Step(cleaned, i, FramePrefix.Prefix(FramePrefix.JavaScript, cleaned[i].framePath)) else ""
  }

  /** The blocks of the first `n` cleaned actions, in order. */
  function Steps(cleaned: seq<Action>, n: nat): string
    requires n <= |cleaned|
  {
    ConcatUpTo(StepAt(cleaned), n)
  }

  /** One more cleaned action appends its block. */
  lemma StepsSnoc(cleaned: seq<Action>, n: nat)
    requires n < |cleaned|
    ensures Steps(cleaned, n + 1)
            == Steps(cleaned, n) + Step(cleaned, n, FramePrefix.Prefix(FramePrefix.JavaScript, cleaned[n].framePath))
  {
  }

  /** The test `generateJavaScriptCode` writes. */
  function Code(fileName: string, actions: seq<Action>): string {
    var cleaned := Cleanup.Cleaned(actions);
    Header(fileName, StartUrl(cleaned)) + Steps(cleaned, |cleaned|) + TestClosing
  }

  /** `generateJavaScriptCode` */
  method GenerateJavaScriptCode(fileName: string, actions: seq<Action>) returns (code: string)
    ensures code == Code(fileName, actions)
  {
    var cleanedActions := Cleanup.CleanActionsForCode(actions);
    code := Header(fileName, StartUrl(cleanedActions));
    for index := 0 to |cleanedActions|
      invariant code == Header(fileName, StartUrl(cleanedActions)) + Steps(cleanedActions, index)
    {
      var framePrefix := FramePrefix.GenerateFramePrefix(cleanedActions[index].framePath);
      StepsSnoc(cleanedActions, index);
      Associative(Header(fileName, StartUrl(cleanedActions)), Steps(cleanedActions, index), Step(cleanedActions, index, framePrefix));
      code := code + Step(cleanedActions, index, framePrefix);
    }
    code := code + TestClosing;
  }

  /** A run of navigations to one address renders as one `goto`: every later one is silent. */
  lemma RepeatedNavigationSilent(cleaned: seq<Action>, i: nat)
    requires 0 < i < |cleaned|
    requires cleaned[i].kind == Navigate && cleaned[i - 1].kind == Navigate && cleaned[i].url == cleaned[i - 1].url
    ensures Step(cleaned, i, "page.") == ""
  {
  }

  /** A step writes nothing exactly when its action is one the generator leaves out. */
  lemma StepSilent(cleaned: seq<Action>, index: nat, framePrefix: string)
    requires index < |cleaned|
    ensures Step(cleaned, index, framePrefix) == "" <==> Silent(cleaned, index)
  {
  }

  /** Actions the generator leaves out add nothing to the test, whatever their frame. */
  lemma SilentActionsAddNothing(cleaned: seq<Action>, n: nat)
    requires n <= |cleaned|
    requires forall i :: 0 <= i < n ==> Silent(cleaned, i)
    ensures Steps(cleaned, n) == ""
  {
    forall i | 0 <= i < n
      ensures StepAt(cleaned)(i) == ""
    {
      StepSilent(cleaned, i, FramePrefix.Prefix(FramePrefix.JavaScript, cleaned[i].framePath));
    }
    ConcatOfEmpties(StepAt(cleaned), n);
  }

  /** The test opens with its header, the first `goto` included, and closes with the fixed closing lines. */
  lemma CodeOpensAndCloses(fileName: string, actions: seq<Action>)
    ensures var code := Code(fileName, actions);
            Header(fileName, StartUrl(Cleanup.Cleaned(actions))) <= code && code[|code| - |TestClosing|..] == TestClosing
  {
    var cleaned := Cleanup.Cleaned(actions);
    var steps := Steps(cleaned, |cleaned|);
    Framed(Header(fileName, StartUrl(cleaned)), steps, TestClosing);
  }
}
