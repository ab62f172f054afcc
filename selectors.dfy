/**
 * Selector resolution in the content script (content.js:15-268): the
 * priority ladder of `generateSelector`, the structural CSS path of
 * `generatePathSelector`, the frame and shadow-host selectors and the
 * `framePath` rendering used by the recorder, and `getElementValue`.
 *
 * A DOM element is a record: its tag name, attributes, text, associated
 * labels, the form state `getElementValue` reads, how many elements the
 * document matches for `#<id>`, and its chain of ancestors up to (not
 * including) `document.body`, each with its count of same-tag siblings
 * and its index among them.
 *
 * `id`, `alt` (read only on `IMG`) and `aria-label` reflect their
 * attributes on every element and are read through `attrs`.  The other
 * properties the selectors read are fields of their own, because they do
 * not always reflect an attribute:
 *  - `name`, `placeholder` and `title` are `None` on elements whose
 *    interface does not define them (`name` on a `div`, `placeholder`
 *    outside `input` and `textarea`, `title` on SVG), where the property
 *    is `undefined` whatever the attributes say;
 *  - `typeof className === 'string'` is false on SVG elements, whose
 *    `className` is an animated string: their classes are never used;
 *  - `src` is the resolved URL, so an `iframe` with an empty `src`
 *    attribute has the page's address there;
 *  - `document.body` itself has an empty chain: the path walks stop on it.
 */
module SelectorResolver {
  import opened Text
  import opened Actions

  /** One node of an ancestor chain, as the path walks see it. */
  datatype PathNode = PathNode(
    tagName: string,
    id: string,
    className: string,
    classIsString: bool,
    sameTagSiblings: nat,
    sameTagIndex: nat)

  datatype Element = Element(
    tagName: string,
    typeProp: string,
    attrs: map<string, string>,
    text: string,
    labels: seq<string>,
    nameProp: Option<string>,
    placeholderProp: Option<string>,
    titleProp: Option<string>,
    classIsString: bool,
    srcProp: string,
    isBody: bool,
    idMatches: nat,
    value: string,
    checked: bool,
    files: seq<string>,
    multiple: bool,
    selectedValues: seq<string>,
    sameTagSiblings: nat,
    sameTagIndex: nat,
    ancestors: seq<PathNode>)

  /** `getAttribute(name)`, with an absent attribute read as the empty string (both are falsy). */
  function Attr(e: Element, name: string): string {
    if name in e.attrs then e.attrs[name] else ""
  }

  /** The element itself as the first node of its ancestor chain. */
  function Self(e: Element): PathNode {
    PathNode(e.tagName, Attr(e, "id"), Attr(e, "class"), e.classIsString, e.sameTagSiblings, e.sameTagIndex)
  }

  /**
   * The nodes a path walk visits: the element, then its ancestors below
   * `document.body`; none when the element is `document.body`.
   */
  function Chain(e: Element): (r: seq<PathNode>)
    ensures e.isBody <==> r == []
  {
    if e.isBody then [] else [Self(e)] + e.ancestors
  }

  /** A property that may be `undefined`, tested as `p && p.trim()`. */
  predicate PropNonBlank(p: Option<string>) { p.Some? && NonBlank(p.value) }

  /** A property that may be `undefined`, tested as `p`. */
  predicate PropTruthy(p: Option<string>) { p.Some? && p.value != "" }

  // ---------------------------------------------------------------------
  // generateSelector
  // ---------------------------------------------------------------------

  const TestIdAttrs: seq<string> := ["data-testid", "data-test", "data-qa", "data-cy"]

  /** The position in `names` of the first attribute that holds a non-blank value, if any. */
  function FirstNonBlank(e: Element, names: seq<string>): (r: Option<nat>)
    ensures r.Some? ==> r.value < |names| && NonBlank(Attr(e, names[r.value]))
    ensures r.Some? ==> forall k :: 0 <= k < r.value ==> !NonBlank(Attr(e, names[k]))
    ensures r.None? ==> forall k :: 0 <= k < |names| ==> !NonBlank(Attr(e, names[k]))
  {
    if names == [] then None
    else if NonBlank(Attr(e, names[0])) then Some(0)
    else match FirstNonBlank(e, names[1..])
      case None => None
      case Some(k) => Some(k + 1)
  }

  /** The accessible name the role rule uses: the `aria-label`, else the trimmed text when shorter than 50. */
  function RoleName(e: Element): (r: string)
    ensures Attr(e, "aria-label") != "" ==> r == Attr(e, "aria-label")
    ensures Attr(e, "aria-label") == "" ==> r == (if |Trim(e.text)| < 50 then Trim(e.text) else "")
  {
    if Attr(e, "aria-label") != "" then Attr(e, "aria-label")
    else if e.text != "" && |Trim(e.text)| < 50 then Trim(e.text)
    else ""
  }

  predicate HasTestId(e: Element) { FirstNonBlank(e, TestIdAttrs).Some? }
  predicate HasRole(e: Element) { Attr(e, "role") != "" && RoleName(e) != "" }
  predicate HasLabel(e: Element) { |e.labels| > 0 && Trim(e.labels[0]) != "" }
  predicate HasPlaceholder(e: Element) { PropNonBlank(e.placeholderProp) }
  predicate HasAltText(e: Element) { e.tagName == "IMG" && NonBlank(Attr(e, "alt")) }
  predicate HasTitle(e: Element) { PropNonBlank(e.titleProp) }
  predicate HasUniqueId(e: Element) { NonBlank(Attr(e, "id")) && e.idMatches == 1 }
  predicate HasName(e: Element) { PropNonBlank(e.nameProp) }
  /** The class name, trimmed and with white-space runs collapsed. */
  function ClassValue(e: Element): string { CollapseSpaces(Trim(Attr(e, "class"))) }
  /** The class rule applies to a string class name that is not blank. */
  predicate HasClassValue(e: Element) { e.classIsString && ClassValue(e) != "" }

  /** The rules before the label rule do not apply: no test id, no role with a name. */
  predicate ReachesLabel(e: Element) { !HasTestId(e) && !HasRole(e) }
  predicate ReachesPlaceholder(e: Element) { ReachesLabel(e) && !HasLabel(e) }
  predicate ReachesAltText(e: Element) { ReachesPlaceholder(e) && !HasPlaceholder(e) }
  predicate ReachesTitle(e: Element) { ReachesAltText(e) && !HasAltText(e) }
  predicate ReachesId(e: Element) { ReachesTitle(e) && !HasTitle(e) }
  predicate ReachesName(e: Element) { ReachesId(e) && !HasUniqueId(e) }
  predicate ReachesClass(e: Element) { ReachesName(e) && !HasName(e) }
  /** No rule of the ladder applies, so the CSS path is used. */
  predicate ReachesPath(e: Element) { ReachesClass(e) && !HasClassValue(e) }

  /**
   * `generateSelector`: the first rule that applies wins, in the order
   * test id, role with name, label, placeholder, image alt text, title,
   * unique id, name, class name, CSS path.
   */
  function GenerateSelector(e: Element): (r: Selector)
    ensures r.TestId? <==> HasTestId(e)
    ensures r.TestId? ==> r.attr in TestIdAttrs && r.value == Attr(e, r.attr) && NonBlank(r.value)
    ensures r.TestId? ==> forall k :: 0 <= k < |TestIdAttrs| && TestIdAttrs[k] == r.attr ==>
                            forall j :: 0 <= j < k ==> !NonBlank(Attr(e, TestIdAttrs[j]))
    ensures r.Role? <==> !HasTestId(e) && HasRole(e)
    ensures r.Role? ==> r.value == Attr(e, "role") && r.name == RoleName(e) && r.name != ""
    ensures r.Label? <==> ReachesLabel(e) && HasLabel(e)
    ensures r.Label? ==> r.value == Trim(e.labels[0]) && r.value != ""
    ensures r.Placeholder? <==> ReachesPlaceholder(e) && HasPlaceholder(e)
    ensures r.Placeholder? ==> e.placeholderProp == Some(r.value) && NonBlank(r.value)
    ensures r.AltText? <==> ReachesAltText(e) && HasAltText(e)
    ensures r.AltText? ==> e.tagName == "IMG" && r.value == Attr(e, "alt") && NonBlank(r.value)
    ensures r.Title? <==> ReachesTitle(e) && HasTitle(e)
    ensures r.Title? ==> e.titleProp == Some(r.value) && NonBlank(r.value)
    ensures r.Id? <==> ReachesId(e) && HasUniqueId(e)
    ensures r.Id? ==> r.value == "#" + Attr(e, "id")
    ensures r.Name? <==> ReachesName(e) && HasName(e)
    ensures r.Name? ==> e.nameProp == Some(r.value) && NonBlank(r.value)
    ensures r.ClassAttr? <==> ReachesClass(e) && HasClassValue(e)
    ensures r.ClassAttr? ==> r.value == "[class=\"" + ClassValue(e) + "\"]"
    ensures r.Css? <==> ReachesPath(e)
    ensures r.Css? ==> r.value == PathSelector(Chain(e))
  {
    match FirstNonBlank(e, TestIdAttrs)
    case Some(k) => TestId(Attr(e, TestIdAttrs[k]), TestIdAttrs[k])
    case None =>
      if HasRole(e) then Role(Attr(e, "role"), RoleName(e))
      else if HasLabel(e) then Label(Trim(e.labels[0]))
      else if HasPlaceholder(e) then Placeholder(e.placeholderProp.value)
      else if HasAltText(e) then AltText(Attr(e, "alt"))
      else if HasTitle(e) then Title(e.titleProp.value)
      else if HasUniqueId(e) then Id("#" + Attr(e, "id"))
      else if HasName(e) then Name(e.nameProp.value)
      else if HasClassValue(e) then ClassAttr("[class=\"" + ClassValue(e) + "\"]")
      else Css(PathSelector(Chain(e)))
  }

  /** A test id outranks every later rule, a unique id included. */
  lemma TestIdBeatsUniqueId(e: Element)
    requires NonBlank(Attr(e, "data-testid")) && HasUniqueId(e)
    ensures GenerateSelector(e) == TestId(Attr(e, "data-testid"), "data-testid")
  {
    assert FirstNonBlank(e, TestIdAttrs) == Some(0);
  }

  /** With only a non-unique id and a name, the name rule is the one that applies. */
  lemma NonUniqueIdFallsToName(e: Element)
    requires ReachesId(e)
    requires NonBlank(Attr(e, "id")) && e.idMatches != 1 && HasName(e)
    ensures GenerateSelector(e) == Name(e.nameProp.value)
  {
  }

  /**
   * A `name` or `placeholder` attribute on an element whose interface has
   * no such property (a `div`, say) is never used: the rule is skipped.
   */
  lemma UndefinedPropertiesSkipped(e: Element)
    requires ReachesPlaceholder(e) && e.placeholderProp.None?
    requires !HasAltText(e) && !HasTitle(e) && !HasUniqueId(e) && e.nameProp.None?
    ensures !GenerateSelector(e).Placeholder? && !GenerateSelector(e).Name?
    ensures GenerateSelector(e).ClassAttr? || GenerateSelector(e).Css?
  {
  }

  /** An SVG element never gets the class rule: its `className` is not a string. */
  lemma SvgClassesIgnored(e: Element)
    requires ReachesClass(e) && !e.classIsString
    ensures GenerateSelector(e) == Css(PathSelector(Chain(e)))
  {
  }

  /** `document.body`, when no rule applies, gets the empty path. */
  lemma BodyGetsEmptyPath(e: Element)
    requires ReachesPath(e) && e.isBody
    ensures GenerateSelector(e) == Css("")
  {
  }

  // ---------------------------------------------------------------------
  // generatePathSelector
  // ---------------------------------------------------------------------

  /** Classes a path segment may use: non-blank, not prefixed `js-` or `ng-`. */
  predicate UsableClass(c: string) {
    NonBlank(c) && !StartsWith(c, "js-") && !StartsWith(c, "ng-")
  }

  /** `.filter(...)` of the class pieces down to the usable ones, in order. */
  function UsableClasses(parts: seq<string>): (r: seq<string>)
    ensures |r| <= |parts|
    ensures forall i :: 0 <= i < |r| ==> UsableClass(r[i]) && r[i] in parts
    ensures forall i :: 0 <= i < |parts| && UsableClass(parts[i]) ==> parts[i] in r
    ensures (forall i :: 0 <= i < |parts| ==> UsableClass(parts[i])) ==> r == parts
  {
    if parts == [] then []
    else if UsableClass(parts[0]) then [parts[0]] + UsableClasses(parts[1..])
    else UsableClasses(parts[1..])
  }

  /** The filter keeps the pieces in their order: filtering a concatenation concatenates the filtered parts. */
  lemma {:induction false} UsableClassesAppend(xs: seq<string>, ys: seq<string>)
    ensures UsableClasses(xs + ys) == UsableClasses(xs) + UsableClasses(ys)
  {
    if xs == [] {
      assert xs + ys == ys;
    } else if UsableClass(xs[0]) {
      calc {
        UsableClasses(xs + ys);
        == { assert (xs + ys)[0] == xs[0] && (xs + ys)[1..] == xs[1..] + ys; }
        [xs[0]] + UsableClasses(xs[1..] + ys);
        == { UsableClassesAppend(xs[1..], ys); }
        [xs[0]] + (UsableClasses(xs[1..]) + UsableClasses(ys));
        == ([xs[0]] + UsableClasses(xs[1..])) + UsableClasses(ys);
      }
    } else {
      calc {
        UsableClasses(xs + ys);
        == { assert (xs + ys)[0] == xs[0] && (xs + ys)[1..] == xs[1..] + ys; }
        UsableClasses(xs[1..] + ys);
        == { UsableClassesAppend(xs[1..], ys); }
        UsableClasses(xs[1..]) + UsableClasses(ys);
      }
    }
  }

  /** `.slice(0, 2)` */
  function FirstTwo(cs: seq<string>): (r: seq<string>)
    ensures |r| <= 2 && r <= cs
    ensures |cs| <= 2 ==> r == cs
  {
    if |cs| <= 2 then cs else cs[..2]
  }

  /** The classes a path segment keeps: the first two usable pieces of the blank-separated class name. */
  function PathClasses(className: string): (r: seq<string>)
    ensures |r| <= 2
    ensures forall i :: 0 <= i < |r| ==> UsableClass(r[i])
    ensures var usable := UsableClasses(Split(className, {' '}));
            r <= usable && |r| == if |usable| < 2 then |usable| else 2
  {
    FirstTwo(UsableClasses(Split(className, {' '})))
  }

  /** `.c1.c2` from the kept classes, or nothing. */
  function DotClasses(cs: seq<string>): string {
    if cs == [] then "" else "." + Join(cs, ".")
  }

  /** `:nth-child(k)` with `k` the 1-based index among same-tag siblings, only when there are several. */
  function NthChild(n: PathNode): (r: string)
    ensures r == "" <==> n.sameTagSiblings <= 1
    ensures n.sameTagSiblings > 1 ==> r == ":nth-child(" + NatText(n.sameTagIndex + 1) + ")"
  {
    if n.sameTagSiblings > 1 then ":nth-child(" + NatText(n.sameTagIndex + 1) + ")" else ""
  }

  /** The segment a path walk writes for one node: `#<id>` when it has one, else tag, classes, sibling index. */
  function PathSegment(n: PathNode): string {
    if NonBlank(n.id) then "#" + n.id
    else Lower(n.tagName) + PathClassText(n) + NthChild(n)
  }

  /** The classes a path segment writes: none when the class name is not a string. */
  function PathClassText(n: PathNode): string {
    if n.classIsString then DotClasses(PathClasses(n.className)) else ""
  }

  /** `f` of every element of `s`, the last element's first: what repeated `unshift` builds. */
  function MapReversed<T, U>(f: T -> U, s: seq<T>): (r: seq<U>)
    ensures |r| == |s|
  {
    if s == [] then [] else [f(s[|s| - 1])] + MapReversed(f, s[..|s| - 1])
  }

  /** Entry `j` of the reversed map is `f` of the element `j` places from the end. */
  lemma {:induction false} MapReversedIndex<T, U>(f: T -> U, s: seq<T>, j: nat)
    requires j < |s|
    ensures MapReversed(f, s)[j] == f(s[|s| - 1 - j])
  {
    var inner := s[..|s| - 1];
    if j > 0 {
      MapReversedIndex(f, inner, j - 1);
      assert inner[|inner| - 1 - (j - 1)] == s[|s| - 1 - j];
    }
  }

  /** Taking one more element puts its image in front. */
  lemma MapReversedSnoc<T, U>(f: T -> U, s: seq<T>, i: nat)
    requires i < |s|
    ensures MapReversed(f, s[..i + 1]) == [f(s[i])] + MapReversed(f, s[..i])
  {
    assert s[..i + 1][..i] == s[..i];
  }

  /** The segments of the visited `nodes` (innermost first), written outermost first. */
  function PathSegments(nodes: seq<PathNode>): (r: seq<string>)
    ensures |r| == |nodes|
  {
    MapReversed(PathSegment, nodes)
  }

  /**
   * How many nodes of `chain` the walk visits with `depth` levels left:
   * it stops after the first node with a non-blank id, at the end of the
   * chain, or when the levels run out.
   */
  function PathWalkLength(chain: seq<PathNode>, depth: nat): (k: nat)
    ensures k <= depth && k <= |chain|
  {
    if chain == [] || depth == 0 then 0
    else if NonBlank(chain[0].id) then 1
    else 1 + PathWalkLength(chain[1..], depth - 1)
  }

  const MaxPathDepth: nat := 5

  /** The CSS path of the element whose ancestor chain is `chain`: at most five segments joined by ` > `. */
  function PathSelector(chain: seq<PathNode>): string {
    Join(PathSegments(chain[..PathWalkLength(chain, MaxPathDepth)]), " > ")
  }

  /** `generatePathSelector`: walks up at most five levels, prepending each segment. */
  method GeneratePathSelector(chain: seq<PathNode>) returns (r: string)
    ensures r == PathSelector(chain)
  {
    var path: seq<string> := [];
    var i := 0;
    var maxDepth := MaxPathDepth;
    ghost var visited := PathWalkLength(chain, MaxPathDepth);
    while i < |chain| && maxDepth > 0
      invariant 0 <= i <= |chain| && maxDepth == MaxPathDepth - i
      invariant visited == i + PathWalkLength(chain[i..], maxDepth)
      invariant path == PathSegments(chain[..i])
    {
      var current := chain[i];
      MapReversedSnoc(PathSegment, chain, i);
      if NonBlank(current.id) {
        assert PathSegment(current) == "#" + current.id;
        PathWalkStop(chain, i, maxDepth);
        path := ["#" + current.id] + path;
        i := i + 1;
        break;
      }
      var selector := Lower(current.tagName) + PathClassText(current);
      selector := selector + NthChild(current);
      PathWalkStep(chain, i, maxDepth);
      path := [selector] + path;
      i := i + 1;
      maxDepth := maxDepth - 1;
    }
    assert i == visited;
    r := Join(path, " > ");
  }

  /** One step of the walk past a node without an id. */
  lemma PathWalkStep(chain: seq<PathNode>, i: nat, depth: nat)
    requires i < |chain| && depth > 0 && !NonBlank(chain[i].id)
    ensures PathWalkLength(chain[i..], depth) == 1 + PathWalkLength(chain[i + 1..], depth - 1)
  {
    assert chain[i..][1..] == chain[i + 1..];
  }

  /** The walk stops on a node with an id. */
  lemma PathWalkStop(chain: seq<PathNode>, i: nat, depth: nat)
    requires i < |chain| && depth > 0 && NonBlank(chain[i].id)
    ensures PathWalkLength(chain[i..], depth) == 1
  {
  }

  /**
   * When the first node with an id sits at level `k`, within reach, the
   * walk visits exactly the levels `0..k`: it stops on the id.
   */
  lemma {:induction false} PathStopsAtFirstId(chain: seq<PathNode>, depth: nat, k: nat)
    requires k < |chain| && k < depth
    requires NonBlank(chain[k].id)
    requires forall j :: 0 <= j < k ==> !NonBlank(chain[j].id)
    ensures PathWalkLength(chain, depth) == k + 1
  {
    if k > 0 {
      PathStopsAtFirstId(chain[1..], depth - 1, k - 1);
    }
  }

  /** Without an id within reach, the walk visits `min(depth, |chain|)` levels. */
  lemma {:induction false} PathWithoutId(chain: seq<PathNode>, depth: nat)
    requires forall j :: 0 <= j < |chain| && j < depth ==> !NonBlank(chain[j].id)
    ensures PathWalkLength(chain, depth) == if |chain| < depth then |chain| else depth
  {
    if chain != [] && depth > 0 {
      PathWithoutId(chain[1..], depth - 1);
    }
  }

  /** Only the last node a walk visits can carry an id. */
  lemma {:induction false} PathIdOnlyAtTop(chain: seq<PathNode>, depth: nat, j: nat)
    requires j + 1 < PathWalkLength(chain, depth)
    ensures !NonBlank(chain[j].id)
  {
    if j > 0 {
      PathIdOnlyAtTop(chain[1..], depth - 1, j - 1);
    }
  }

  /** The path lists the visited nodes outermost first: segment `j` is that of level `|nodes| - 1 - j`. */
  lemma PathSegmentsOrder(nodes: seq<PathNode>, j: nat)
    requires j < |nodes|
    ensures PathSegments(nodes)[j] == PathSegment(nodes[|nodes| - 1 - j])
  {
    MapReversedIndex(PathSegment, nodes, j);
  }

  // ---------------------------------------------------------------------
  // Frame and shadow-host selectors
  // ---------------------------------------------------------------------

  /** The non-blank pieces of a blank-separated class name, in order. */
  function NonBlankPieces(parts: seq<string>): (r: seq<string>)
    ensures |r| <= |parts|
    ensures forall i :: 0 <= i < |r| ==> NonBlank(r[i])
  {
    if parts == [] then []
    else if NonBlank(parts[0]) then [parts[0]] + NonBlankPieces(parts[1..])
    else NonBlankPieces(parts[1..])
  }

  /** Every non-blank class of a class name, as `.c1.c2...`. */
  function AllClasses(className: string): string {
    DotClasses(NonBlankPieces(Split(className, {' '})))
  }

  /** The segment the iframe path walk writes for one node: every class, and an id whenever it is non-empty. */
  function FrameSegment(n: PathNode): string {
    if n.id != "" then "#" + n.id
    else Lower(n.tagName) + FrameClassText(n) + NthChild(n)
  }

  /** The classes an iframe path segment writes: all of them, none when the class name is not a string. */
  function FrameClassText(n: PathNode): string {
    if n.classIsString then AllClasses(n.className) else ""
  }

  function FrameSegments(nodes: seq<PathNode>): (r: seq<string>)
    ensures |r| == |nodes|
  {
    MapReversed(FrameSegment, nodes)
  }

  /** How many nodes the iframe path walk visits: up to and including the first with an id, with no depth limit. */
  function FrameWalkLength(chain: seq<PathNode>): (k: nat)
    ensures k <= |chain|
    ensures k < |chain| ==> k >= 1 && chain[k - 1].id != ""
    ensures forall j :: 0 <= j < k - 1 ==> chain[j].id == ""
  {
    if chain == [] then 0
    else if chain[0].id != "" then 1
    else 1 + FrameWalkLength(chain[1..])
  }

  /** The selector `generateFrameSelector` gives an iframe: id, name, last piece of src, else its path. */
  function FrameSelector(frame: Element): (r: string)
    ensures Attr(frame, "id") != "" ==> r == "#" + Attr(frame, "id")
    ensures Attr(frame, "id") == "" && PropTruthy(frame.nameProp) ==>
              r == "iframe[name=\"" + frame.nameProp.value + "\"]"
    ensures Attr(frame, "id") == "" && !PropTruthy(frame.nameProp) && frame.srcProp != "" ==>
              r == "iframe[src*=\"" + AfterLast(frame.srcProp, {'/'}) + "\"]"
    ensures Attr(frame, "id") == "" && !PropTruthy(frame.nameProp) && frame.srcProp == "" ==>
              r == FramePathText(Chain(frame))
  {
    if Attr(frame, "id") != "" then "#" + Attr(frame, "id")
    else if PropTruthy(frame.nameProp) then "iframe[name=\"" + frame.nameProp.value + "\"]"
    else if frame.srcProp != "" then "iframe[src*=\"" + AfterLast(frame.srcProp, {'/'}) + "\"]"
    else FramePathText(Chain(frame))
  }

  /** The iframe's path: the segments of the nodes the walk visits, outermost first, joined by ` > `. */
  function FramePathText(chain: seq<PathNode>): string {
    Join(FrameSegments(chain[..FrameWalkLength(chain)]), " > ")
  }

  /** `generateFrameSelector` */
  method GenerateFrameSelector(frame: Element) returns (r: string)
    ensures r == FrameSelector(frame)
  {
    if Attr(frame, "id") != "" {
      return "#" + Attr(frame, "id");
    }
    if PropTruthy(frame.nameProp) {
      return "iframe[name=\"" + frame.nameProp.value + "\"]";
    }
    if frame.srcProp != "" {
      return "iframe[src*=\"" + AfterLast(frame.srcProp, {'/'}) + "\"]";
    }
    r := GenerateFramePath(Chain(frame));
  }

  /** The path walk of `generateFrameSelector`: no depth limit, stopping after the first node with an id. */
  method GenerateFramePath(chain: seq<PathNode>) returns (r: string)
    ensures r == FramePathText(chain)
  {
    var path: seq<string> := [];
    var i := 0;
    while i < |chain|
      invariant 0 <= i <= |chain|
      invariant FrameWalkLength(chain) == i + FrameWalkLength(chain[i..])
      invariant path == FrameSegments(chain[..i])
    {
      var current := chain[i];
      MapReversedSnoc(FrameSegment, chain, i);
      if current.id != "" {
        assert FrameSegment(current) == "#" + current.id;
        path := ["#" + current.id] + path;
        i := i + 1;
        break;
      }
      var selector := Lower(current.tagName) + FrameClassText(current);
      selector := selector + NthChild(current);
      assert chain[i..][1..] == chain[i + 1..];
      path := [selector] + path;
      i := i + 1;
    }
    assert i == FrameWalkLength(chain);
    r := Join(path, " > ");
  }


  /** `generateShadowSelector`: the host's id, else all its classes, else its CSS path. */
  function ShadowSelector(host: Element): (r: string)
    ensures Attr(host, "id") != "" ==> r == "#" + Attr(host, "id")
    ensures Attr(host, "id") == "" && HostClasses(host) != "" ==>
              r == HostClasses(host) && r[0] == '.'
    ensures Attr(host, "id") == "" && HostClasses(host) == "" ==>
              r == PathSelector(Chain(host))
  {
    if Attr(host, "id") != "" then "#" + Attr(host, "id")
    else if HostClasses(host) != "" then HostClasses(host)
    else PathSelector(Chain(host))
  }

  /** Every non-blank class of a host whose class name is a string, as `.c1.c2...`. */
  function HostClasses(host: Element): (r: string)
    ensures !host.classIsString ==> r == ""
  {
    if host.classIsString then AllClasses(Attr(host, "class")) else ""
  }

  /**
   * `getFramePathString`: `frameLocator('<s>')` per iframe step and
   * `locator('<s>').shadowRoot` per shadow step, joined by dots; any other
   * step maps to `undefined`, which `join` writes as nothing.
   */
  function FramePathString(path: seq<FrameStep>): string {
    Join(FramePieces(path), ".")
  }

  /** `framePath.map(...)`: one piece per step, in path order. */
  function FramePieces(path: seq<FrameStep>): (r: seq<string>)
    ensures |r| == |path|
  {
    if path == [] then [] else FramePieces(path[..|path| - 1]) + [FramePiece(path[|path| - 1])]
  }

  function FramePiece(f: FrameStep): string {
    match f.kind
    case Iframe => "frameLocator('" + f.selector + "')"
    case Shadow => "locator('" + f.selector + "').shadowRoot"
    case OtherFrame(_) => ""
  }

  // ---------------------------------------------------------------------
  // getElementValue
  // ---------------------------------------------------------------------

  /**
   * `getElementValue`: a checkbox gives its checked state, a radio its
   * value when checked (else null), a file input its file names, a select
   * its value or, when multiple, the list of selected values, an input or
   * textarea its value, any other element its trimmed text.
   */
  function GetElementValue(e: Element): (r: Value)
    ensures r.Bool? <==> Lower(e.tagName) == "input" && Lower(e.typeProp) == "checkbox"
    ensures r.Bool? ==> r.b == e.checked
    ensures r.Null? <==> Lower(e.tagName) == "input" && Lower(e.typeProp) == "radio" && !e.checked
    ensures r.List? <==> Lower(e.tagName) == "select" && e.multiple
    ensures r.List? ==> r.items == e.selectedValues
    ensures r.Str? <==> !r.Bool? && !r.Null? && !r.List?
    ensures Lower(e.tagName) == "input" && Lower(e.typeProp) == "radio" && e.checked ==> r == Str(e.value)
    ensures Lower(e.tagName) == "input" && Lower(e.typeProp) == "file" ==> r == Str(Join(e.files, ", "))
    ensures Lower(e.tagName) == "input" && Lower(e.typeProp) !in {"checkbox", "radio", "file"} ==> r == Str(e.value)
    ensures Lower(e.tagName) == "select" && !e.multiple ==> r == Str(e.value)
    ensures Lower(e.tagName) == "textarea" ==> r == Str(e.value)
    ensures !IsFormTag(Lower(e.tagName)) ==> r == Str(Trim(e.text))
  {
    var tag := Lower(e.tagName);
    var ty := Lower(e.typeProp);
    if tag == "input" then
      if ty == "checkbox" then Bool(e.checked)
      else if ty == "radio" then (if e.checked then Str(e.value) else Null)
      else if ty == "file" then Str(Join(e.files, ", "))
      else Str(e.value)
    else if tag == "select" then
      if e.multiple then List(e.selectedValues) else Str(e.value)
    else if tag == "textarea" then Str(e.value)
    else Str(Trim(e.text))
  }
}
