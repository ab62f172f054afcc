/**
 * The frame prefixes the generators put before every locator call
 * (background.js:591-607, 831-847, 966-982): `page.` followed, in path
 * order, by one locator step per iframe and per shadow host of the
 * action's `framePath`.  The three languages differ only in the text
 * around each selector, which `FrameSyntax` records.
 */
module FramePrefix {
  import opened Text
  import opened Actions
  import SelectorResolver

  /** The text before and after the selector of an iframe step and of a shadow-host step. */
  datatype FrameSyntax = FrameSyntax(iframeOpen: string, iframeClose: string, shadowOpen: string, shadowClose: string)

  const JavaScript := FrameSyntax("frameLocator('", "').", "locator('", "').shadowRoot.")
  const Python := FrameSyntax("frame_locator('", "').", "locator('", "').shadow_root.")
  const Java := FrameSyntax("frameLocator(\"", "\").", "locator(\"", "\").shadowRoot().")

  /** The text one step adds; a step of any other `type` adds nothing. */
  function StepText(syn: FrameSyntax, f: FrameStep): string {
    match f.kind
    case Iframe => syn.iframeOpen + f.selector + syn.iframeClose
    case Shadow => syn.shadowOpen + f.selector + syn.shadowClose
    case OtherFrame(_) => ""
  }

  /** The steps' texts, in path order. */
  function StepsText(syn: FrameSyntax, path: seq<FrameStep>): string {
    if path == [] then "" else StepsText(syn, path[..|path| - 1]) + StepText(syn, path[|path| - 1])
  }

  /** The prefix for `path`, in the given syntax. */
  function Prefix(syn: FrameSyntax, path: seq<FrameStep>): (r: string)
    ensures "page." <= r
    ensures path == [] ==> r == "page."
  {
    "page." + StepsText(syn, path)
  }

  /** `generateFramePrefix` */
  method GenerateFramePrefix(framePath: seq<FrameStep>) returns (prefix: string)
    ensures prefix == Prefix(JavaScript, framePath)
  {
    if |framePath| == 0 {
      return "page.";
    }
    prefix := "page.";
    for i := 0 to |framePath|
      invariant prefix == Prefix(JavaScript, framePath[..i])
    {
      var frame := framePath[i];
      PrefixSnoc(JavaScript, framePath, i);
      if frame.kind == Iframe {
        prefix := prefix + ("frameLocator('" + frame.selector + "').");
      } else if frame.kind == Shadow {
        prefix := prefix + ("locator('" + frame.selector + "').shadowRoot.");
      }
    }
    assert framePath[..|framePath|] == framePath;
  }

  /** `generatePythonFramePrefix` */
  method GeneratePythonFramePrefix(framePath: seq<FrameStep>) returns (prefix: string)
    ensures prefix == Prefix(Python, framePath)
  {
    if |framePath| == 0 {
      return "page.";
    }
    prefix := "page.";
    for i := 0 to |framePath|
      invariant prefix == Prefix(Python, framePath[..i])
    {
      var frame := framePath[i];
      PrefixSnoc(Python, framePath, i);
      if frame.kind == Iframe {
        prefix := prefix + ("frame_locator('" + frame.selector + "').");
      } else if frame.kind == Shadow {
        prefix := prefix + ("locator('" + frame.selector + "').shadow_root.");
      }
    }
    assert framePath[..|framePath|] == framePath;
  }

  /** `generateJavaFramePrefix` */
  method GenerateJavaFramePrefix(framePath: seq<FrameStep>) returns (prefix: string)
    ensures prefix == Prefix(Java, framePath)
  {
    if |framePath| == 0 {
      return "page.";
    }
    prefix := "page.";
    for i := 0 to |framePath|
      invariant prefix == Prefix(Java, framePath[..i])
    {
      var frame := framePath[i];
      PrefixSnoc(Java, framePath, i);
      if frame.kind == Iframe {
        prefix := prefix + ("frameLocator(\"" + frame.selector + "\").");
      } else if frame.kind == Shadow {
        prefix := prefix + ("locator(\"" + frame.selector + "\").shadowRoot().");
      }
    }
    assert framePath[..|framePath|] == framePath;
  }

  /** The last step's text ends the prefix. */
  lemma PrefixLast(syn: FrameSyntax, path: seq<FrameStep>)
    requires path != []
    ensures Prefix(syn, path) == Prefix(syn, path[..|path| - 1]) + StepText(syn, path[|path| - 1])
  {
    var a, b := StepsText(syn, path[..|path| - 1]), StepText(syn, path[|path| - 1]);
    assert "page." + (a + b) == ("page." + a) + b;
  }

  /** One more step appends its text. */
  lemma PrefixSnoc(syn: FrameSyntax, path: seq<FrameStep>, i: nat)
    requires i < |path|
    ensures Prefix(syn, path[..i + 1]) == Prefix(syn, path[..i]) + StepText(syn, path[i])
  {
    assert path[..i + 1][..i] == path[..i];
  }

  /** The prefix of a path is the prefix of its first part followed by the steps of the rest. */
  lemma {:induction false} StepsTextAppend(syn: FrameSyntax, p: seq<FrameStep>, q: seq<FrameStep>)
    ensures StepsText(syn, p + q) == StepsText(syn, p) + StepsText(syn, q)
    decreases |q|
  {
    if q == [] {
      assert p + q == p;
    } else {
      var q' := q[..|q| - 1];
      assert (p + q)[..|p + q| - 1] == p + q';
      StepsTextAppend(syn, p, q');
    }
  }

  /** Steps of any other type contribute nothing: a path made only of them gives `page.`. */
  lemma {:induction false} OtherStepsIgnored(syn: FrameSyntax, path: seq<FrameStep>)
    requires forall i :: 0 <= i < |path| ==> path[i].kind.OtherFrame?
    ensures Prefix(syn, path) == "page."
  {
    if path != [] {
      OtherStepsIgnored(syn, path[..|path| - 1]);
    }
  }

  /** `Join(xs + [y], sep)` extends `Join(xs, sep)` by the separator and `y`. */
  lemma {:induction false} JoinSnoc(xs: seq<string>, y: string, sep: string)
    requires xs != []
    ensures Join(xs + [y], sep) == Join(xs, sep) + sep + y
  {
    if |xs| == 1 {
      assert xs + [y] == [xs[0], y];
    } else {
      assert (xs + [y])[1..] == xs[1..] + [y];
      JoinSnoc(xs[1..], y, sep);
    }
  }

  /**
   * The JavaScript prefix and the content script's `getFramePathString`
   * describe a path of iframes and shadow hosts the same way: the prefix
   * is `page.`, the path string, and a final dot.
   */
  lemma {:induction false} PrefixMatchesFramePathString(path: seq<FrameStep>)
    requires path != []
    requires forall i :: 0 <= i < |path| ==> !path[i].kind.OtherFrame?
    ensures Prefix(JavaScript, path) == "page." + SelectorResolver.FramePathString(path) + "."
  {
    var n := |path|;
    var last := path[n - 1];
    var init := path[..n - 1];
    var piece := SelectorResolver.FramePiece(last);
    assert StepText(JavaScript, last) == piece + ".";
    if n == 1 {
      assert SelectorResolver.FramePieces(path) == [piece];
      assert StepsText(JavaScript, path) == StepText(JavaScript, last);
    } else {
      PrefixMatchesFramePathString(init);
      var pathString := SelectorResolver.FramePathString(init);
      JoinSnoc(SelectorResolver.FramePieces(init), piece, ".");
      assert SelectorResolver.FramePathString(path) == pathString + "." + piece;
      PrefixLast(JavaScript, path);
    }
  }
}
