/**
 * `cleanActionsForCode` (background.js:518-557): the one-pass filter the
 * JavaScript generator runs over the recorded actions before rendering
 * them.  It remembers the last action it kept and the last navigation
 * address it let through.
 */
module Cleanup {
  import opened Actions

  /** The pass's memory after a prefix of the actions: what it kept, `lastUrl`, `lastAction`. */
  datatype CleanState = CleanState(cleaned: seq<Action>, lastUrl: Option<string>, lastAction: Option<Action>)

  /** `lastUrl` starts as the empty string; a navigation without a url sets it to `undefined`. */
  const Start := CleanState([], Some(""), None)

  /** Milliseconds within which a repeat of the last kept action is dropped. */
  const DuplicateWindow: int := 1000

  /** Pixels below which a scroll with a known `scrollDiff` is dropped. */
  const MinScroll: int := 100

  predicate RepeatOf(last: Action, a: Action) {
    last.kind == a.kind && SameSelector(last.selector, a.selector) && a.timestamp - last.timestamp < DuplicateWindow
  }

  /** A hover, focus or blur worth keeping: it shows a tooltip, is important, or is on a form field. */
  predicate Significant(a: Action) {
    a.hasTooltip || a.isImportant || IsFormTag(a.elementType)
  }

  predicate SmallScroll(a: Action) {
    a.kind == Scroll && a.scrollDiff.Some? && a.scrollDiff.value < MinScroll
  }

  /** Whether the pass, in state `st`, drops `a`. */
  predicate Drops(st: CleanState, a: Action) {
    (st.lastAction.Some? && RepeatOf(st.lastAction.value, a))
    || (a.kind == Navigate && a.url == st.lastUrl)
    || (a.kind in {Hover, Focus, Blur} && !Significant(a))
    || SmallScroll(a)
  }

  /** One iteration of the `forEach`. */
  function Step(st: CleanState, a: Action): (r: CleanState)
    ensures Drops(st, a) ==> r == st
    ensures !Drops(st, a) ==> r.cleaned == st.cleaned + [a] && r.lastAction == Some(a)
    ensures !Drops(st, a) ==> r.lastUrl == if a.kind == Navigate then a.url else st.lastUrl
  {
    if st.lastAction.Some? && RepeatOf(st.lastAction.value, a) then st
    else if a.kind == Navigate && a.url == st.lastUrl then st
    else
      var lastUrl := if a.kind == Navigate then a.url else st.lastUrl;
      if a.kind in {Hover, Focus, Blur} && !Significant(a) then st
      else if SmallScroll(a) then st
      else CleanState(st.cleaned + [a], lastUrl, Some(a))
  }

  /** The state after the pass has seen all of `actions`. */
  function Run(actions: seq<Action>): CleanState {
    if actions == [] then Start else Step(Run(actions[..|actions| - 1]), actions[|actions| - 1])
  }

  /** The cleaned actions. */
  function Cleaned(actions: seq<Action>): seq<Action> {
    Run(actions).cleaned
  }

  /** `cleanActionsForCode` */
  method CleanActionsForCode(actions: seq<Action>) returns (cleaned: seq<Action>)
    ensures cleaned == Cleaned(actions)
  {
    cleaned := [];
    var lastUrl: Option<string> := Some("");
    var lastAction: Option<Action> := None;
    for i := 0 to |actions|
      invariant Run(actions[..i]) == CleanState(cleaned, lastUrl, lastAction)
    {
      var action := actions[i];
      assert actions[..i + 1][..i] == actions[..i];
      if lastAction.Some? && lastAction.value.kind == action.kind
         && SameSelector(lastAction.value.selector, action.selector)
         && action.timestamp - lastAction.value.timestamp < DuplicateWindow {
        continue;
      }
      if action.kind == Navigate {
        if action.url == lastUrl {
          continue;
        }
        lastUrl := action.url;
      }
      if action.kind in {Hover, Focus, Blur} {
        if !action.hasTooltip && !action.isImportant && !IsFormTag(action.elementType) {
          continue;
        }
      }
      if action.kind == Scroll && action.scrollDiff.Some? && action.scrollDiff.value < MinScroll {
        continue;
      }
      cleaned := cleaned + [action];
      lastAction := Some(action);
    }
    assert actions[..|actions|] == actions;
  }

  // ---------------------------------------------------------------------
  // Properties of the pass
  // ---------------------------------------------------------------------

  /** `t` is `s` with some elements left out, the rest in their order. */
  predicate Subsequence(t: seq<Action>, s: seq<Action>)
    decreases |s|
  {
    if t == [] then true
    else if s == [] then false
    else (t[|t| - 1] == s[|s| - 1] && Subsequence(t[..|t| - 1], s[..|s| - 1]))
         || Subsequence(t, s[..|s| - 1])
  }

  /** The cleaned actions are an order-preserving subsequence of the input: only `push` adds to them. */
  lemma {:induction false} CleanedIsSubsequence(actions: seq<Action>)
    ensures Subsequence(Cleaned(actions), actions)
  {
    if actions != [] {
      var init := actions[..|actions| - 1];
      CleanedIsSubsequence(init);
      var c := Cleaned(actions);
      if Drops(Run(init), actions[|actions| - 1]) {
        assert c == Cleaned(init);
        if c != [] {
          assert Subsequence(c, actions[..|actions| - 1]);
        }
      } else {
        assert c[..|c| - 1] == Cleaned(init);
      }
    }
  }

  /** The pass remembers exactly the last action it kept. */
  lemma {:induction false} LastActionIsLastKept(actions: seq<Action>)
    ensures var r := Run(actions);
            r.lastAction == if r.cleaned == [] then None else Some(r.cleaned[|r.cleaned| - 1])
  {
    if actions != [] {
      LastActionIsLastKept(actions[..|actions| - 1]);
    }
  }

  /** No kept action repeats the one kept before it within a second. */
  lemma {:induction false} NoQuickRepeats(actions: seq<Action>, i: nat)
    requires i + 1 < |Cleaned(actions)|
    ensures !RepeatOf(Cleaned(actions)[i], Cleaned(actions)[i + 1])
  {
    var init := actions[..|actions| - 1];
    var c := Cleaned(actions);
    if Drops(Run(init), actions[|actions| - 1]) {
      NoQuickRepeats(init, i);
    } else if i + 2 < |c| {
      NoQuickRepeats(init, i);
    } else {
      LastActionIsLastKept(init);
    }
  }

  /** Every kept hover, focus or blur is significant, and no kept scroll is a small one. */
  lemma {:induction false} KeptActionsPassFilters(actions: seq<Action>, i: nat)
    requires i < |Cleaned(actions)|
    ensures Cleaned(actions)[i].kind in {Hover, Focus, Blur} ==> Significant(Cleaned(actions)[i])
    ensures !SmallScroll(Cleaned(actions)[i])
  {
    var init := actions[..|actions| - 1];
    if Drops(Run(init), actions[|actions| - 1]) || i < |Cleaned(init)| {
      NoDropGrows(init, actions[|actions| - 1]);
      KeptActionsPassFilters(init, i);
    }
  }

  lemma NoDropGrows(init: seq<Action>, a: Action)
    ensures Cleaned(init + [a]) == Cleaned(init) || Cleaned(init + [a]) == Cleaned(init) + [a]
  {
    assert (init + [a])[..|init|] == init;
  }

  /** The navigation address of the last kept navigation, or the empty string before any. */
  function LastNavigationUrl(cleaned: seq<Action>): Option<string> {
    if cleaned == [] then Some("")
    else if cleaned[|cleaned| - 1].kind == Navigate then cleaned[|cleaned| - 1].url
    else LastNavigationUrl(cleaned[..|cleaned| - 1])
  }

  /** `lastUrl` is the address of the last kept navigation: a navigation that passes is always kept. */
  lemma {:induction false} LastUrlIsLastKeptNavigation(actions: seq<Action>)
    ensures Run(actions).lastUrl == LastNavigationUrl(Run(actions).cleaned)
  {
    if actions != [] {
      var init := actions[..|actions| - 1];
      LastUrlIsLastKeptNavigation(init);
      var c := Run(actions).cleaned;
      if !Drops(Run(init), actions[|actions| - 1]) {
        assert c[..|c| - 1] == Run(init).cleaned;
      }
    }
  }

  /** Every kept navigation goes to an address other than that of the kept navigation before it. */
  lemma {:induction false} KeptNavigationChangesAddress(actions: seq<Action>, i: nat)
    requires i < |Cleaned(actions)| && Cleaned(actions)[i].kind == Navigate
    ensures Cleaned(actions)[i].url != LastNavigationUrl(Cleaned(actions)[..i])
  {
    var init := actions[..|actions| - 1];
    var c := Cleaned(actions);
    if Drops(Run(init), actions[|actions| - 1]) {
      KeptNavigationChangesAddress(init, i);
    } else if i < |c| - 1 {
      assert c[..|c| - 1] == Cleaned(init);
      assert c[..i] == Cleaned(init)[..i];
      KeptNavigationChangesAddress(init, i);
    } else {
      assert c[..i] == Cleaned(init);
      LastUrlIsLastKeptNavigation(init);
    }
  }

  /** Cleaning the cleaned actions again keeps every one of them: the pass is idempotent. */
  lemma {:induction false} RunOfCleaned(actions: seq<Action>)
    ensures Run(Cleaned(actions)) == Run(actions)
  {
    if actions != [] {
      var init := actions[..|actions| - 1];
      var a := actions[|actions| - 1];
      RunOfCleaned(init);
      if !Drops(Run(init), a) {
        var c := Cleaned(actions);
        assert c[..|c| - 1] == Cleaned(init);
      }
    }
  }

  lemma CleanIdempotent(actions: seq<Action>)
    ensures Cleaned(Cleaned(actions)) == Cleaned(actions)
  {
    RunOfCleaned(actions);
  }
}
