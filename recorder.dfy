/**
 * The content script's recorder (content.js:426-572, 667-690): the filter
 * `shouldSkipAction` with the state it keeps between actions, the
 * stamping and cleaning `recordAction` applies before it sends an action
 * to the background script, and the typing rule that records a settled
 * value only when it differs from the last one recorded for that field.
 *
 * `Date.now()` and `window.location.href` are parameters; the frame path
 * `getFrameContext` computes is a parameter too; sending the message is
 * the method's result.
 */
module Recorder {
  import opened Text
  import opened Actions

  // ---------------------------------------------------------------------
  // cleanActionData
  // ---------------------------------------------------------------------

  /** The longest typed value kept whole; a longer one keeps this many characters and gains `...`. */
  const MaxTypedLength: nat := 100

  /** The separators a file path is split on to keep the file name. */
  const PathSeparators: set<char> := {'/', '\\'}

  /**
   * What `cleanActionData` makes of the value of an action of type `kind`:
   * a typed string longer than 100 characters keeps its first 100 and
   * gains `...`; an uploaded path keeps the text after its last `/` or
   * `\`.  `None` is the `TypeError` the source throws when a value without
   * `substring` or `split` reaches those string operations.
   */
  function CleanValue(kind: ActionType, v: Value): (r: Option<Value>)
    ensures kind == Type && v.Str? && |v.s| > MaxTypedLength ==>
              r == Some(Str(v.s[..MaxTypedLength] + "...")) && |r.value.s| == MaxTypedLength + 3
    // nothing is ever masked: a typed value reads `***` afterwards only if it did before
    ensures kind == Type ==> (r == Some(Str("***")) <==> v == Str("***"))
    ensures r.None? <==> (kind == Type && v.List? && |v.items| > MaxTypedLength)
                         || (kind == Upload && Truthy(v) && !v.Str?)
    ensures (r.Some? && !(kind == Type && v.Str? && |v.s| > MaxTypedLength)
             && !(kind == Upload && v.Str?)) ==> r.value == v
  {
    if kind == Type && Truthy(v) then
      match v
      case Str(s) => if |s| > MaxTypedLength then Some(Str(s[..MaxTypedLength] + "...")) else Some(v)
      // an array has a `length` but no `substring`
      case List(items) => if |items| > MaxTypedLength then None else Some(v)
      case _ => Some(v)
    else if kind == Upload && Truthy(v) then
      match v
      case Str(s) => Some(Str(AfterLast(s, PathSeparators)))
      case _ => None
    else Some(v)
  }

  /**
   * An uploaded path keeps its file name: the longest tail of the path
   * without a `/` or `\`, which is the whole path or follows a separator.
   */
  lemma UploadKeepsFileName(path: string)
    ensures CleanValue(Upload, Str(path)).Some?
    ensures var name := CleanValue(Upload, Str(path)).value;
            name.Str? && |name.s| <= |path| && name.s == path[|path| - |name.s|..]
            && (forall i :: 0 <= i < |name.s| ==> name.s[i] !in PathSeparators)
            && (|name.s| < |path| ==> path[|path| - |name.s| - 1] in PathSeparators)
  {
  }

  /**
   * `cleanActionData`.  The `element` reference is deleted first, so the
   * password check that follows (`actionData.element?.type`) never sees an
   * element and never masks the value.
   */
  function CleanActionData(a: Action): (r: Option<Action>)
    ensures r.None? <==> CleanValue(a.kind, a.value).None?
    ensures r.Some? ==> r.value.element.None? && r.value.value == CleanValue(a.kind, a.value).value
    ensures r.Some? ==> r.value == a.(element := None, value := r.value.value)
  {
    match CleanValue(a.kind, a.value)
    case None => None
    case Some(v) => Some(a.(element := None, value := v))
  }

  /** Cleaning a cleaned action changes nothing: a truncated value is truncated to itself, a file name has no separator left. */
  lemma CleanIdempotent(a: Action)
    requires CleanActionData(a).Some?
    ensures CleanActionData(CleanActionData(a).value) == CleanActionData(a)
  {
    CleanValueIdempotent(a.kind, a.value);
  }

  /** Cleaning a cleaned value gives it back. */
  lemma CleanValueIdempotent(kind: ActionType, v: Value)
    requires CleanValue(kind, v).Some?
    ensures CleanValue(kind, CleanValue(kind, v).value) == CleanValue(kind, v)
  {
    if kind == Type && v.Str? && |v.s| > MaxTypedLength {
      var t := v.s[..MaxTypedLength] + "...";
      assert t[..MaxTypedLength] == v.s[..MaxTypedLength];
    } else if kind == Upload && v.Str? {
      UploadKeepsFileName(v.s);
      AfterLastNoSeparator(CleanValue(Upload, v).value.s, PathSeparators);
    }
  }

  /** A string without separators is its own last piece. */
  lemma {:induction false} AfterLastNoSeparator(s: string, seps: set<char>)
    requires forall i :: 0 <= i < |s| ==> s[i] !in seps
    ensures AfterLast(s, seps) == s
  {
    if s != [] {
      AfterLastNoSeparator(s[..|s| - 1], seps);
    }
  }

  // ---------------------------------------------------------------------
  // shouldSkipAction
  // ---------------------------------------------------------------------

  /** `window.lastRecordedAction`: the type, selector and time of the last action let through. */
  datatype LastAction = LastAction(kind: ActionType, selector: SelectorField, timestamp: int)

  /**
   * The filter's memory: `window.lastRecordedAction`,
   * `window.lastNavigationUrl` (absent until the first navigation) and
   * `window._lastRecordedScrollY` (read as 0 until set).
   */
  datatype FilterState = FilterState(
    last: Option<LastAction>,
    lastNavigationUrl: Option<string>,
    lastScrollY: int)

  const InitialFilter := FilterState(None, None, 0)

  /** Milliseconds within which a repeat of the last action is dropped. */
  const DuplicateWindow: int := 500

  /** Pixels a scroll must move from the last recorded position to be kept. */
  const MinScroll: int := 100

  predicate IsDuplicate(st: FilterState, a: Action, now: int) {
    st.last.Some? && st.last.value.kind == a.kind
    && SameSelector(st.last.value.selector, a.selector)
    && now - st.last.value.timestamp < DuplicateWindow
  }

  /** The click rule: an element that is not interactive, hidden, disabled or outside the viewport. */
  predicate UnclickableElement(el: ElementFacts) {
    var interactive := Lower(el.tagName) in {"a", "button", "input", "select", "textarea"}
                       || el.hasRole || el.hasTabindex || el.cursorPointer;
    !interactive || el.hidden || el.disabled || !el.inViewport
  }

  function AbsDiff(x: int, y: int): nat {
    if x < y then y - x else x - y
  }

  /**
   * `shouldSkipAction` as a function of the recording flag, the filter's
   * memory, the action, the time and the page's address: whether to drop
   * the action, and the memory afterwards.
   */
  function Skip(recording: bool, st: FilterState, a: Action, now: int, href: string): (r: (bool, FilterState))
    // a dropped action leaves the memory as it was
    ensures r.0 ==> r.1 == st
    ensures !recording ==> r.0
    ensures IsDuplicate(st, a, now) ==> r.0
    ensures a.kind == Navigate && st.lastNavigationUrl == Some(href) ==> r.0
    // hovers and blurs never carry enough to pass
    ensures a.kind == Hover && (a.element.None? || (!a.element.value.hasTitle && !a.element.value.hasAriaLabel)) ==> r.0
    ensures (a.kind == Focus || a.kind == Blur) ==> (r.0 <== a.element.None? || !IsFormTag(Lower(a.element.value.tagName)))
    ensures a.kind in {Click, DoubleClick, RightClick} && a.element.Some? && UnclickableElement(a.element.value) ==> r.0
    ensures a.kind == Scroll && a.scrollY.Some? && AbsDiff(a.scrollY.value, st.lastScrollY) < MinScroll ==> r.0
    // a kept action becomes the last one; a kept navigation records its page; a kept scroll its position
    ensures !r.0 ==> r.1.last == Some(LastAction(a.kind, a.selector, now))
    ensures !r.0 ==> r.1.lastNavigationUrl == (if a.kind == Navigate then Some(href) else st.lastNavigationUrl)
    ensures !r.0 ==> r.1.lastScrollY == (if a.kind == Scroll && a.scrollY.Some? then a.scrollY.value else st.lastScrollY)
    // the other kinds pass whenever recording and not a repeat
    ensures (recording && !IsDuplicate(st, a, now)
             && a.kind in {Type, Check, Select, Upload, Wait, Keypress, DragStart, Drop, Submit}) ==> !r.0
    // and, while recording and not a repeat, each filtered kind is kept exactly when its own rule lets it through
    ensures recording && !IsDuplicate(st, a, now) && a.kind == Navigate ==>
              (!r.0 <==> st.lastNavigationUrl != Some(href))
    ensures recording && !IsDuplicate(st, a, now) && a.kind == Hover ==>
              (!r.0 <==> a.element.Some? && (a.element.value.hasTitle || a.element.value.hasAriaLabel))
    ensures recording && !IsDuplicate(st, a, now) && a.kind in {Focus, Blur} ==>
              (!r.0 <==> a.element.Some? && IsFormTag(Lower(a.element.value.tagName)))
    ensures recording && !IsDuplicate(st, a, now) && a.kind in {Click, DoubleClick, RightClick} ==>
              (!r.0 <==> a.element.None? || !UnclickableElement(a.element.value))
    ensures recording && !IsDuplicate(st, a, now) && a.kind == Scroll ==>
              (!r.0 <==> a.scrollY.None? || AbsDiff(a.scrollY.value, st.lastScrollY) >= MinScroll)
  {
    if !recording then (true, st)
    else if IsDuplicate(st, a, now) then (true, st)
    else if a.kind == Navigate && st.lastNavigationUrl == Some(href) then (true, st)
    else
      var st1 := if a.kind == Navigate then st.(lastNavigationUrl := Some(href)) else st;
      if a.kind == Hover && (a.element.None? || (!a.element.value.hasTitle && !a.element.value.hasAriaLabel)) then (true, st)
      else if (a.kind == Focus || a.kind == Blur) && (a.element.None? || !IsFormTag(Lower(a.element.value.tagName))) then (true, st)
      else if a.kind in {Click, DoubleClick, RightClick} && a.element.Some? && UnclickableElement(a.element.value) then (true, st)
      else if a.kind == Scroll && a.scrollY.Some? && AbsDiff(a.scrollY.value, st1.lastScrollY) < MinScroll then (true, st)
      else
        var st2 := if a.kind == Scroll && a.scrollY.Some? then st1.(lastScrollY := a.scrollY.value) else st1;
        (false, st2.(last := Some(LastAction(a.kind, a.selector, now))))
  }

  /** The same action twice within 500 ms is let through at most once, when its selector is a string or absent. */
  lemma RepeatWithinWindowDropped(recording: bool, st: FilterState, a: Action, now: int, later: int, href: string)
    requires !Skip(recording, st, a, now, href).0
    requires now <= later < now + DuplicateWindow
    requires !a.selector.Located?
    ensures Skip(recording, Skip(recording, st, a, now, href).1, a, later, href).0
  {
  }

  /**
   * A scroll exactly 100 px from the last kept position is kept (the
   * rule drops only a difference below 100), and it becomes the new
   * position.
   */
  lemma ScrollOfExactlyMinimumKept(st: FilterState, a: Action, now: int, href: string)
    requires a.kind == Scroll && !IsDuplicate(st, a, now)
    requires a.scrollY == Some(st.lastScrollY + MinScroll)
    ensures !Skip(true, st, a, now, href).0
    ensures Skip(true, st, a, now, href).1.lastScrollY == st.lastScrollY + 100
  {
  }

  /**
   * A selector object is never `===` the stored one, so a typed action
   * located by such a selector is let through however soon it repeats.
   */
  lemma ObjectSelectorsNeverRepeat(st: FilterState, a: Action, now: int, href: string)
    requires a.kind == Type && a.selector.Located?
    ensures !Skip(true, st, a, now, href).0
  {
  }

  // ---------------------------------------------------------------------
  // The recorder's state
  // ---------------------------------------------------------------------

  /** The action `recordAction` sends: stamped with the time, the page and the frame path, then cleaned. */
  function Stamped(a: Action, now: int, href: string, framePath: seq<FrameStep>): (r: Option<Action>)
    ensures r.Some? ==> r.value.timestamp == now && r.value.url == Some(href)
                        && r.value.framePath == framePath && r.value.element.None?
                        && r.value.kind == a.kind && r.value.selector == a.selector
  {
    CleanActionData(a.(timestamp := now, url := Some(href), framePath := framePath))
  }

  class ContentRecorder {
    var isRecording: bool
    var filter: FilterState
    /** `target._lastRecordedValue`, per form field; a field never recorded reads `undefined`. */
    var lastRecordedValue: map<nat, Value>

    constructor ()
      ensures !isRecording && filter == InitialFilter && lastRecordedValue == map[]
    {
      isRecording := false;
      filter := InitialFilter;
      lastRecordedValue := map[];
    }

    /** `shouldSkipAction` */
    method ShouldSkipAction(a: Action, now: int, href: string) returns (skip: bool)
      modifies this`filter
      ensures (skip, filter) == Skip(isRecording, old(filter), a, now, href)
    {
      if !isRecording {
        return true;
      }
      if filter.last.Some? && filter.last.value.kind == a.kind
         && SameSelector(filter.last.value.selector, a.selector)
         && now - filter.last.value.timestamp < DuplicateWindow {
        return true;
      }
      if a.kind == Navigate {
        if filter.lastNavigationUrl == Some(href) {
          return true;
        }
        filter := filter.(lastNavigationUrl := Some(href));
      }
      if a.kind == Hover && (a.element.None? || (!a.element.value.hasTitle && !a.element.value.hasAriaLabel)) {
        return true;
      }
      if (a.kind == Focus || a.kind == Blur) && (a.element.None? || !IsFormTag(Lower(a.element.value.tagName))) {
        return true;
      }
      if a.kind in {Click, DoubleClick, RightClick} && a.element.Some? && UnclickableElement(a.element.value) {
        return true;
      }
      if a.kind == Scroll && a.scrollY.Some? {
        if AbsDiff(a.scrollY.value, filter.lastScrollY) < MinScroll {
          return true;
        }
        filter := filter.(lastScrollY := a.scrollY.value);
      }
      filter := filter.(last := Some(LastAction(a.kind, a.selector, now)));
      return false;
    }

    /** `recordAction`: the action sent to the background script, if any. */
    method RecordAction(a: Action, now: int, href: string, framePath: seq<FrameStep>) returns (sent: Option<Action>)
      modifies this`filter
      ensures filter == Skip(isRecording, old(filter), a, now, href).1
      ensures sent == if Skip(isRecording, old(filter), a, now, href).0 then None
                      else Stamped(a, now, href, framePath)
    {
      var skip := ShouldSkipAction(a, now, href);
      if skip {
        return None;
      }
      sent := CleanActionData(a.(timestamp := now, url := Some(href), framePath := framePath));
    }

    /** The `startRecording` message: recording starts and the current page is recorded as a navigation. */
    method Start(now: int, href: string, framePath: seq<FrameStep>) returns (sent: Option<Action>)
      modifies this`isRecording, this`filter
      ensures isRecording
      ensures var nav := Bare(Navigate, NoSelector).(url := Some(href));
              filter == Skip(true, old(filter), nav, now, href).1
              && sent == (if Skip(true, old(filter), nav, now, href).0 then None
                          else Stamped(nav, now, href, framePath))
      ensures old(filter.lastNavigationUrl) == Some(href) ==> sent.None? && filter == old(filter)
      ensures old(filter.lastNavigationUrl) != Some(href) && !IsDuplicate(old(filter), Bare(Navigate, NoSelector), now) ==>
                sent.Some? && sent.value.kind == Navigate && sent.value.url == Some(href)
                && sent.value.timestamp == now && sent.value.framePath == framePath
                && filter == FilterState(Some(LastAction(Navigate, NoSelector, now)), Some(href), old(filter.lastScrollY))
    {
      isRecording := true;
      sent := RecordAction(Bare(Navigate, NoSelector).(url := Some(href)), now, href, framePath);
    }

    /** The `stopRecording` message; the filter's memory is kept. */
    method Stop()
      modifies this`isRecording
      ensures !isRecording
    {
      isRecording := false;
    }

    /**
     * The typing rule, when the two-second debounce for field `field`
     * settles with `value`: record a `type` action only if the value is not
     * `===` the one last recorded for the field; the field remembers the
     * value even when the filter then drops the action, but not when
     * cleaning the action throws, since the exception leaves the callback
     * before the assignment.
     */
    method OnTypingSettled(field: nat, selector: Selector, value: Value, el: ElementFacts,
                           now: int, href: string, framePath: seq<FrameStep>)
      returns (sent: Option<Action>)
      modifies this`filter, this`lastRecordedValue
      ensures var before := if field in old(lastRecordedValue) then old(lastRecordedValue)[field] else Undefined;
              var a := Bare(Type, Located(selector)).(value := value, element := Some(el));
              if SameValue(before, value) then
                sent.None? && filter == old(filter) && lastRecordedValue == old(lastRecordedValue)
              else
                filter == Skip(isRecording, old(filter), a, now, href).1
                && sent == (if Skip(isRecording, old(filter), a, now, href).0 then None
                            else Stamped(a, now, href, framePath))
                && lastRecordedValue == if !Skip(isRecording, old(filter), a, now, href).0
                                           && Stamped(a, now, href, framePath).None?
                                        then old(lastRecordedValue)
                                        else old(lastRecordedValue)[field := value]
    {
      var before := if field in lastRecordedValue then lastRecordedValue[field] else Undefined;
      sent := None;
      if !SameValue(before, value) {
        var a := Bare(Type, Located(selector)).(value := value, element := Some(el));
        var throws := !Skip(isRecording, filter, a, now, href).0 && Stamped(a, now, href, framePath).None?;
        sent := RecordAction(a, now, href, framePath);
        if !throws {
          lastRecordedValue := lastRecordedValue[field := value];
        }
      }
    }
  }
}
