/**
 * `generateJavaCode` (background.js:849-963): a Java class whose `main`
 * drives Playwright, written for every recorded action as it stands, like
 * the TypeScript and Python generators.
 */
module JavaRenderer {
  import opened Text
  import opened Actions
  import opened RenderCommon
  import FramePrefix

  /** The class name before `Test`: the first hyphen made an underscore, then every non-identifier character removed. */
  function ClassName(fileName: string): string {
    KeepIdentChars(ReplaceFirst(fileName, '-', '_'))
  }

  /** The lines before the first step. */
  function Header(fileName: string, startUrl: string): string {
    "import com.microsoft.playwright.*;\n\n"
    + "public class " + ClassName(fileName) + "Test {\n"
    + "    public static void main(String[] args) {\n"
    + "        try (Playwright playwright = Playwright.create()) {\n"
    + "            Browser browser = playwright.chromium().launch();\n"
    + "            Page page = browser.newPage();\n"
    + "            \n"
    + "            // Navigate to the starting URL\n"
    + "            page.navigate(\"" + startUrl + "\");\n"
    + "            \n"
  }

  /** The closing lines; the file ends at the class's brace, without a newline. */
  const Footer := "            // Add your assertions here\n            // page.locator(\"selector\").shouldBeVisible();\n            \n            browser.close();\n        }\n    }\n}"

  /** The block the `switch` appends for `action`, `framePrefix` being its frame prefix. */
  function Step(action: Action, framePrefix: string): string {
    var s := Sel(action);
    var d := JavaDialect;
    match action.kind
    case Click => Block(d, "Click on " + s, framePrefix + "click(\"" + s + "\")")
    case DoubleClick => Block(d, "Double-click on " + s, framePrefix + "dblclick(\"" + s + "\")")
    case RightClick => Block(d, "Right-click on " + s, framePrefix + "click(\"" + s + "\", new Page.ClickOptions().setButton(MouseButton.RIGHT))")
    case Type => Block(d, "Type in " + s, framePrefix + "fill(\"" + s + "\", \"" + ValueOrEmpty(action.value) + "\")")
    case Check =>
      (match CheckRenderingOf(action)
       case CheckBox => Block(d, "Check checkbox " + s, framePrefix + "check(\"" + s + "\")")
       case UncheckBox => Block(d, "Uncheck checkbox " + s, framePrefix + "uncheck(\"" + s + "\")")
       case CheckRadio => Block(d, "Select radio button " + s, framePrefix + "check(\"" + s + "\")")
       case NoCheck => "")
    case Select =>
      if action.multiple then
        Block(d, "Select multiple options in " + s, framePrefix + "selectOption(\"" + s + "\", " + JsonText(action.value) + ")")
      else
        Block(d, "Select option in " + s, framePrefix + "selectOption(\"" + s + "\", \"" + ValueOrEmpty(action.value) + "\")")
    case Upload => Block(d, "Upload file to " + s, framePrefix + "setInputFiles(\"" + s + "\", \"path/to/your/file\")")
    case Navigate => Block(d, "Navigate to " + StringText(action.url), "page.navigate(\"" + StringText(action.url) + "\")")
    case Hover => Block(d, "Hover over " + s, framePrefix + "hover(\"" + s + "\")")
    case Focus => Block(d, "Focus on " + s, framePrefix + "focus(\"" + s + "\")")
    case Blur => Block(d, "Blur from " + s, framePrefix + "evaluate(\"document.querySelector('" + s + "').blur()\")")
    case Wait => Block(d, "Wait for " + s, framePrefix + "waitForSelector(\"" + s + "\")")
    case Keypress =>
      var key := StringText(action.key);
      Block(d, "Press key " + key + " on " + s, framePrefix + "press(\"" + s + "\", \"" + key + "\")")
    case Scroll =>
      var x, y := NumberText(action.scrollX), NumberText(action.scrollY);
      Block(d, "Scroll to position (" + x + ", " + y + ")", framePrefix + "evaluate(\"window.scrollTo(" + x + ", " + y + ")\")")
    case DragStart => Block(d, "Start dragging " + s, framePrefix + "dragAndDrop(\"" + s + "\", \"" + s + "\")")
    case Drop => NoteBlock(d, "Drop on " + s, DragNote)
    case Submit => Block(d, "Submit form " + s, framePrefix + "click(\"" + s + " button[type=\"submit\"]\")")
    case Other(_) => ""
  }

  /** The blocks of the first `n` actions, in order. */
  function Steps(actions: seq<Action>, n: nat): string
    requires n <= |actions|
  {
    if n == 0 then ""
    else Steps(actions, n - 1) + Step(actions[n - 1], FramePrefix.Prefix(FramePrefix.Java, actions[n - 1].framePath))
  }

  /** The class `generateJavaCode` writes. */
  function Code(fileName: string, actions: seq<Action>): string {
    Header(fileName, StartUrl(actions)) + Steps(actions, |actions|) + Footer
  }

  /** `generateJavaCode` */
  method GenerateJavaCode(fileName: string, actions: seq<Action>) returns (code: string)
    ensures code == Code(fileName, actions)
  {
    code := Header(fileName, StartUrl(actions));
    for index := 0 to |actions|
      invariant code == Header(fileName, StartUrl(actions)) + Steps(actions, index)
    {
      var action := actions[index];
      var framePrefix := FramePrefix.GenerateJavaFramePrefix(action.framePath);
      Associative(Header(fileName, StartUrl(actions)), Steps(actions, index), Step(action, framePrefix));
      code := code + Step(action, framePrefix);
    }
    code := code + Footer;
  }

  /** Every action but an unrenderable `check` and an unknown type gets a block. */
  lemma StepSilent(action: Action, framePrefix: string)
    ensures Step(action, framePrefix) == "" <==> UnfilteredSilent(action)
  {
  }

  /** Whatever the file name, the class name holds no hyphen (unlike the Python function name). */
  lemma ClassNameHasNoHyphen(fileName: string)
    ensures '-' !in ClassName(fileName)
  {
  }

  /** A name whose only non-identifier character is one hyphen keeps every character, the hyphen becoming `_`. */
  lemma SingleHyphenBecomesUnderscore(fileName: string, k: nat)
    requires k < |fileName| && fileName[k] == '-'
    requires forall i :: 0 <= i < |fileName| && i != k ==> IdentChar(fileName[i])
    ensures ClassName(fileName) == fileName[..k] + "_" + fileName[k + 1..]
  {
    assert '-' !in fileName[..k] by {
      forall i | 0 <= i < k
        ensures fileName[..k][i] != '-'
      {
        assert IdentChar(fileName[i]);
      }
    }
    ReplaceFirstAt(fileName, '-', '_', k);
    var r := ReplaceFirst(fileName, '-', '_');
    assert forall i :: 0 <= i < |r| ==> IdentChar(r[i]) by {
      forall i | 0 <= i < |r|
        ensures IdentChar(r[i])
      {
        if i != k {
          assert r[i] == fileName[i];
        }
      }
    }
  }

  /** The test opens with its header, the first `goto` included, and closes with the fixed closing lines. */
  lemma CodeOpensAndCloses(fileName: string, actions: seq<Action>)
    ensures var code := Code(fileName, actions);
            Header(fileName, StartUrl(actions)) <= code && code[|code| - |Footer|..] == Footer
  {
    var steps := Steps(actions, |actions|);
    Framed(Header(fileName, StartUrl(actions)), steps, Footer);
  }
}
