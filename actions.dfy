/**
 * The action record, as the content script builds it, the background
 * script stores it and the popup edits it, together with the two pieces
 * of JavaScript semantics every layer applies to its fields: strict
 * equality (`===`) and the text a template literal `${...}` makes of them.
 */
module Actions {
  import opened Text

  datatype Option<T> = None | Some(value: T)

  /** The `type` field of an action; `Other` is any string outside the seventeen known ones. */
  datatype ActionType =
    | Click | DoubleClick | RightClick | Type | Check | Select | Upload | Navigate
    | Hover | Focus | Blur | Wait | Keypress | Scroll | DragStart | Drop | Submit
    | Other(name: string)

  /** The wire name of an action type, as it appears in `// Step i: <type>`. */
  function TypeName(t: ActionType): string {
    match t
    case Click => "click"
    case DoubleClick => "doubleClick"
    case RightClick => "rightClick"
    case Type => "type"
    case Check => "check"
    case Select => "select"
    case Upload => "upload"
    case Navigate => "navigate"
    case Hover => "hover"
    case Focus => "focus"
    case Blur => "blur"
    case Wait => "wait"
    case Keypress => "keypress"
    case Scroll => "scroll"
    case DragStart => "dragStart"
    case Drop => "drop"
    case Submit => "submit"
    case Other(n) => n
  }

  /**
   * The object `generateSelector` returns: one constructor per strategy,
   * `value` being the locator text the strategy found.
   */
  datatype Selector =
    | TestId(value: string, attr: string)
    | Role(value: string, name: string)
    | Label(value: string)
    | Placeholder(value: string)
    | AltText(value: string)
    | Title(value: string)
    | Id(value: string)
    | Name(value: string)
    | ClassAttr(value: string)
    | Css(value: string)

  /** The selector object's `type` field. */
  function StrategyName(s: Selector): string {
    match s
    case TestId(_, _) => "getByTestId"
    case Role(_, _) => "getByRole"
    case Label(_) => "getByLabel"
    case Placeholder(_) => "getByPlaceholder"
    case AltText(_) => "getByAltText"
    case Title(_) => "getByTitle"
    case Id(_) => "id"
    case Name(_) => "name"
    case ClassAttr(_) => "class-attr"
    case Css(_) => "css"
  }

  /**
   * The `selector` field of an action: absent (`undefined`, as on a
   * navigation), a plain string (`'body'` for a scroll of the document), or
   * a selector object.
   */
  datatype SelectorField = NoSelector | Plain(text: string) | Located(sel: Selector)

  /**
   * `a === b` on selector fields.  A selector object is built afresh for
   * every recorded action (and rebuilt again when a message is
   * deserialised), so two object fields are never the same reference.
   */
  predicate SameSelector(a: SelectorField, b: SelectorField) {
    (a.NoSelector? && b.NoSelector?) || (a.Plain? && b.Plain? && a.text == b.text)
  }

  /** `${selector}` in a template literal; an object without `toString` prints as `[object Object]`. */
  function SelectorText(f: SelectorField): string {
    match f
    case NoSelector => "undefined"
    case Plain(s) => s
    case Located(_) => "[object Object]"
  }

  /** JavaScript truthiness of the selector field. */
  predicate SelectorTruthy(f: SelectorField) {
    f.Located? || (f.Plain? && f.text != "")
  }

  /** An action's `value`: what `getElementValue` returns, or nothing. */
  datatype Value = Undefined | Null | Bool(b: bool) | Str(s: string) | List(items: seq<string>)

  /** JavaScript truthiness; an array is truthy even when empty. */
  predicate Truthy(v: Value) {
    match v
    case Undefined => false
    case Null => false
    case Bool(b) => b
    case Str(s) => s != ""
    case List(_) => true
  }

  /** `${value}`: an array prints its items joined by commas. */
  function ValueText(v: Value): string {
    match v
    case Undefined => "undefined"
    case Null => "null"
    case Bool(b) => if b then "true" else "false"
    case Str(s) => s
    case List(items) => Join(items, ",")
  }

  /** `${value || ''}` */
  function ValueOrEmpty(v: Value): (r: string)
    ensures !Truthy(v) ==> r == ""
    ensures v.Str? ==> r == v.s
  {
    if Truthy(v) then ValueText(v) else ""
  }

  /** `${JSON.stringify(value)}`; `JSON.stringify(undefined)` is `undefined` itself. */
  function JsonText(v: Value): string {
    match v
    case Undefined => "undefined"
    case Null => "null"
    case Bool(b) => if b then "true" else "false"
    case Str(s) => JsonString(s)
    case List(items) => "[" + Join(seq(|items|, i requires 0 <= i < |items| => JsonString(items[i])), ",") + "]"
  }

  /** `a === b` on values: arrays compare by reference, so two array values are never equal. */
  predicate SameValue(a: Value, b: Value) {
    !a.List? && a == b
  }

  /** `${n}` for a field that is a number or absent. */
  function NumberText(n: Option<int>): string {
    match n
    case None => "undefined"
    case Some(k) => IntText(k)
  }

  /** `${s}` for a field that is a string or absent. */
  function StringText(s: Option<string>): string {
    match s
    case None => "undefined"
    case Some(t) => t
  }

  /** The two kinds of frame boundary `getFrameContext` records; `OtherFrame` is any other `type`. */
  datatype FrameKind = Iframe | Shadow | OtherFrame(name: string)

  /** One step of an action's `framePath`, outermost first. */
  datatype FrameStep = FrameStep(kind: FrameKind, selector: string, index: int)

  /** The `modifiers` object of a key press; an absent one reads as all false. */
  datatype Modifiers = Modifiers(ctrl: bool, shift: bool, alt: bool, meta: bool)

  const NoModifiers := Modifiers(false, false, false, false)

  /**
   * What the recorder's filters read from the live DOM element an action
   * still carries: attributes, and layout and style queries reduced to
   * booleans.
   */
  datatype ElementFacts = ElementFacts(
    tagName: string,
    inputType: string,
    hasTitle: bool,
    hasAriaLabel: bool,
    hasRole: bool,
    hasTabindex: bool,
    cursorPointer: bool,
    hidden: bool,
    disabled: bool,
    inViewport: bool)

  /**
   * One recorded action.  Absent string fields that are only ever compared
   * against literals (`inputType`, `elementType`) are the empty string;
   * flags only ever tested for truthiness (`checked`, `multiple`,
   * `hasTooltip`, `isImportant`) are booleans; `element` is the live DOM
   * element, present only until `cleanActionData` deletes it.
   */
  datatype Action = Action(
    kind: ActionType,
    selector: SelectorField,
    value: Value,
    url: Option<string>,
    timestamp: int,
    framePath: seq<FrameStep>,
    checked: bool,
    inputType: string,
    multiple: bool,
    key: Option<string>,
    modifiers: Modifiers,
    hasTooltip: bool,
    isImportant: bool,
    elementType: string,
    scrollX: Option<int>,
    scrollY: Option<int>,
    scrollDiff: Option<int>,
    element: Option<ElementFacts>)

  /** An action of the given type with every other field absent. */
  function Bare(kind: ActionType, selector: SelectorField): (a: Action)
    ensures a.kind == kind && a.selector == selector && a.framePath == [] && a.element.None?
  {
    Action(kind, selector, Undefined, None, 0, [], false, "", false, None, NoModifiers,
           false, false, "", None, None, None, None)
  }

  /** The tag names the recorder and the generator treat as form fields. */
  predicate IsFormTag(t: string) {
    t == "input" || t == "textarea" || t == "select"
  }
}
