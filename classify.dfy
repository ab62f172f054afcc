/**
 * `determineActionType` (content.js:271-423): which action, if any, a DOM
 * event on an element stands for.  The event is a record of the fields the
 * classification reads; `window.scrollY` and `window.lastScrollY` are part
 * of it.
 */
module Classifier {
  import opened Text
  import opened Actions
  import opened SelectorResolver

  /** A DOM event as `determineActionType` reads it; `lastScrollY` is `window.lastScrollY`, absent until set. */
  datatype DomEvent = DomEvent(
    name: string,
    detail: int,
    button: int,
    key: string,
    ctrlKey: bool,
    metaKey: bool,
    shiftKey: bool,
    altKey: bool,
    scrollY: int,
    lastScrollY: Option<int>)

  predicate HasAttribute(e: Element, name: string) { name in e.attrs }

  predicate HasClass(e: Element, c: string) { c in Tokens(Attr(e, "class")) }

  /** The tag name lower-cased, as every rule compares it. */
  function Tag(e: Element): string { Lower(e.tagName) }

  /** `element.type ? element.type.toLowerCase() : ''` */
  function InputType(e: Element): string { Lower(e.typeProp) }

  predicate IsHoverEvent(ev: DomEvent) { ev.name == "mouseover" || ev.name == "mouseenter" }
  predicate IsFocusEvent(ev: DomEvent) { ev.name == "focus" || ev.name == "focusin" }
  predicate IsBlurEvent(ev: DomEvent) { ev.name == "blur" || ev.name == "focusout" }
  predicate IsInputEvent(ev: DomEvent) { ev.name == "input" || ev.name == "change" }
  predicate IsKeyEvent(ev: DomEvent) { ev.name == "keydown" || ev.name == "keyup" }

  /** The keys that are always recorded, lower-cased. */
  const NavigationKeys: set<string> := {"escape", "tab", "arrowup", "arrowdown", "arrowleft", "arrowright"}

  /** `Math.abs` */
  function Abs(x: int): (r: nat)
    ensures r == x || r == -x
  {
    if x < 0 then -x else x
  }

  /** `window.lastScrollY || 0` */
  function LastScrollY(ev: DomEvent): int {
    match ev.lastScrollY
    case None => 0
    case Some(y) => y
  }

  /** The click rules, in their order of precedence; every click is some action. */
  function ClickType(e: Element, ev: DomEvent): ActionType {
    var tag := Tag(e);
    var ty := InputType(e);
    if ev.detail == 2 then DoubleClick
    else if ev.button == 2 then RightClick
    else if tag == "form" then Submit
    else if tag == "button" && ty == "submit" then Submit
    else if tag == "input" && (ty == "checkbox" || ty == "radio") then Check
    else if tag == "input" && ty == "file" then Upload
    else if tag == "select" then Select
    // links, buttons, role=button, onclick handlers, pointer cursor and every
    // remaining element alike give a plain click
    else Click
  }

  /** The keyboard allow-list. */
  function KeyType(e: Element, ev: DomEvent): Option<ActionType> {
    var key := Lower(ev.key);
    var isCtrl := ev.ctrlKey || ev.metaKey;
    if isCtrl && (key == "c" || key == "v" || key == "x" || key == "a") then Some(Keypress)
    else if key == "enter" && (Tag(e) == "input" || Tag(e) == "textarea") then Some(Keypress)
    else if key in NavigationKeys then Some(Keypress)
    else None
  }

  /**
   * `determineActionType`.  The event families are tried in the order
   * hover, focus, blur, click, input/change, keyboard, scroll; an event of
   * none of them gives no action.
   */
  function DetermineActionType(e: Element, ev: DomEvent): (r: Option<ActionType>)
    // each family yields only its own kinds of action
    ensures IsHoverEvent(ev) ==> r == None || r == Some(Hover)
    ensures IsFocusEvent(ev) ==> r == None || r == Some(Focus)
    ensures IsBlurEvent(ev) ==> r == None || r == Some(Blur)
    ensures IsKeyEvent(ev) ==> r == None || r == Some(Keypress)
    ensures ev.name == "scroll" ==> r == None || r == Some(Scroll)
    // a hover is kept only on elements that may show a tooltip or a dropdown
    ensures IsHoverEvent(ev) ==>
              (r == Some(Hover) <==> HasAttribute(e, "title") || HasAttribute(e, "aria-label")
                                     || HasClass(e, "dropdown") || HasClass(e, "tooltip"))
    ensures IsFocusEvent(ev) ==>
              (r == Some(Focus) <==> IsFormTag(Tag(e)) || HasAttribute(e, "tabindex") || Attr(e, "role") == "button")
    ensures IsBlurEvent(ev) ==> (r == Some(Blur) <==> IsFormTag(Tag(e)))
    // a click is never dropped
    ensures ev.name == "click" ==> r.Some?
    ensures ev.name == "scroll" ==> (r == Some(Scroll) <==> Abs(ev.scrollY - LastScrollY(ev)) > 100)
    // input and change only classify form fields
    ensures IsInputEvent(ev) ==> (r.Some? <==> IsFormTag(Tag(e)))
    ensures IsInputEvent(ev) && r.Some? ==> r.value in {Type, Check, Upload, Select}
    ensures (ev.name !in {"mouseover", "mouseenter", "focus", "focusin", "blur", "focusout", "click",
                          "input", "change", "keydown", "keyup", "scroll"}) ==> r == None
  {
    var tag := Tag(e);
    var ty := InputType(e);
    if IsHoverEvent(ev) then
      if HasAttribute(e, "title") || HasAttribute(e, "aria-label")
         || HasClass(e, "dropdown") || HasClass(e, "tooltip") then Some(Hover)
      else None
    else if IsFocusEvent(ev) then
      if tag == "input" || tag == "textarea" || tag == "select"
         || HasAttribute(e, "tabindex") || Attr(e, "role") == "button" then Some(Focus)
      else None
    else if IsBlurEvent(ev) then
      if tag == "input" || tag == "textarea" || tag == "select" then Some(Blur) else None
    else if ev.name == "click" then Some(ClickType(e, ev))
    else if IsInputEvent(ev) && tag == "input" then
      if ty == "checkbox" || ty == "radio" then Some(Check)
      else if ty == "file" then Some(Upload)
      else Some(Type)
    else if IsInputEvent(ev) && tag == "textarea" then Some(Type)
    else if IsInputEvent(ev) && tag == "select" then Some(Select)
    else if IsKeyEvent(ev) then KeyType(e, ev)
    else if ev.name == "scroll" then
      if Abs(ev.scrollY - LastScrollY(ev)) > 100 then Some(Scroll) else None
    else None
  }

  /** Click precedence: a double click wins over a right click, a right click over every element rule. */
  lemma ClickPrecedence(e: Element, ev: DomEvent)
    requires ev.name == "click"
    ensures ev.detail == 2 ==> DetermineActionType(e, ev) == Some(DoubleClick)
    ensures ev.detail != 2 && ev.button == 2 ==> DetermineActionType(e, ev) == Some(RightClick)
    ensures DetermineActionType(e, ev) == Some(Submit) <==>
              ev.detail != 2 && ev.button != 2 && (Tag(e) == "form" || (Tag(e) == "button" && InputType(e) == "submit"))
    ensures DetermineActionType(e, ev) == Some(Check) <==>
              ev.detail != 2 && ev.button != 2 && Tag(e) == "input" && InputType(e) in {"checkbox", "radio"}
    ensures DetermineActionType(e, ev) == Some(Upload) <==>
              ev.detail != 2 && ev.button != 2 && Tag(e) == "input" && InputType(e) == "file"
    ensures DetermineActionType(e, ev) == Some(Select) <==> ev.detail != 2 && ev.button != 2 && Tag(e) == "select"
    // links, buttons, role=button, onclick handlers, pointer cursors and everything else: a plain click
    ensures DetermineActionType(e, ev) == Some(Click) <==>
              ev.detail != 2 && ev.button != 2 && Tag(e) !in {"form", "select"}
              && !(Tag(e) == "button" && InputType(e) == "submit")
              && !(Tag(e) == "input" && InputType(e) in {"checkbox", "radio", "file"})
  {
  }

  /**
   * The keyboard allow-list: a key event is recorded exactly for a copy,
   * paste, cut or select-all shortcut, Enter in a text field, Escape, Tab
   * or an arrow key.
   */
  lemma KeyAllowList(e: Element, ev: DomEvent)
    requires IsKeyEvent(ev)
    ensures DetermineActionType(e, ev).Some? <==>
              ((ev.ctrlKey || ev.metaKey) && Lower(ev.key) in {"c", "v", "x", "a"})
              || (Lower(ev.key) == "enter" && Tag(e) in {"input", "textarea"})
              || Lower(ev.key) in NavigationKeys
  {
  }

  /** A plain letter with no modifier is never recorded from the keyboard. */
  lemma PlainLetterIgnored(e: Element, ev: DomEvent)
    requires IsKeyEvent(ev) && !ev.ctrlKey && !ev.metaKey
    requires |ev.key| == 1 && 'a' <= ev.key[0] <= 'z'
    ensures DetermineActionType(e, ev) == None
  {
    assert Lower(ev.key) == ev.key;
    assert |Lower(ev.key)| == 1;
  }
}
