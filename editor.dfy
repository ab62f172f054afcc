/**
 * The popup's step editor (popup.js:104-279): the recorded actions it was
 * shown (`currentActions`), the working copy the user edits
 * (`editedActions`), the delete, move, save and cancel operations on them,
 * and the plain-text preview of a list of actions.
 */
module StepEditor {
  import opened Text
  import opened Actions

  /** The name the popup uses when the file-name box is blank. */
  const DefaultFileName := "recorded-test"

  /** `filename.value.trim() || 'recorded-test'` */
  function EffectiveFileName(input: string): (r: string)
    ensures r != ""
    ensures NonBlank(input) ==> r == Trim(input)
    ensures !NonBlank(input) ==> r == DefaultFileName
  {
    NonBlankIsTrimTruthy(input);
    if Trim(input) != "" then Trim(input) else DefaultFileName
  }

  /** Where `splice(index, 1)` starts: a negative index counts back from the end, stopping at the front. */
  function SpliceStart(length: nat, index: int): (start: nat)
    ensures index >= 0 ==> start == index
    ensures index < 0 ==> start <= length
  {
    if index >= 0 then index
    else if length + index >= 0 then length + index
    else 0
  }

  /** The list `splice(index, 1)` leaves behind: the entry at the start removed, or the list itself when the start is past its end. */
  function SpliceOne<T>(s: seq<T>, index: int): (r: seq<T>)
    ensures SpliceStart(|s|, index) < |s| ==> |r| == |s| - 1
    ensures SpliceStart(|s|, index) >= |s| ==> r == s
  {
    var start := SpliceStart(|s|, index);
    if start < |s| then s[..start] + s[start + 1..] else s
  }

  /** The list with the entries at `i` and `j` exchanged. */
  function Swapped<T>(s: seq<T>, i: nat, j: nat): (r: seq<T>)
    requires i < |s| && j < |s|
    ensures |r| == |s| && r[i] == s[j] && r[j] == s[i]
  {
    s[i := s[j]][j := s[i]]
  }

  /** The lines of one preview block: the step number and type, the selector, and the value when it is truthy. */
  function StepLine(action: Action, index: nat): string {
    "// Step " + NatText(index + 1) + ": " + TypeName(action.kind) + "\n"
  }

  function SelectorLine(action: Action): string {
    "// Selector: " + SelectorText(action.selector) + "\n"
  }

  function ValueLine(action: Action): string {
    "// Value: " + ValueText(action.value) + "\n"
  }

  /** One preview block, closed by a blank line. */
  function PreviewBlock(action: Action, index: nat): string {
    if Truthy(action.value) then StepLine(action, index) + SelectorLine(action) + ValueLine(action) + "\n"
    else StepLine(action, index) + SelectorLine(action) + "\n"
  }

  /** The preview's first two lines and the blank line after them. */
  function PreviewHeader(language: string, fileName: string): string {
    ("// Preview of generated " + language + " code\n") + ("// File: " + fileName + ".spec.js\n\n")
  }

  /** The blocks of the first `n` actions, in order. */
  function PreviewBlocks(actions: seq<Action>, n: nat): string
    requires n <= |actions|
  {
    if n == 0 then "" else PreviewBlocks(actions, n - 1) + PreviewBlock(actions[n - 1], n - 1)
  }

  /** The text `generatePreviewCode` returns; `fileNameInput` is the raw content of the file-name box. */
  function PreviewCode(actions: seq<Action>, language: string, fileNameInput: string): string {
    PreviewHeader(language, EffectiveFileName(fileNameInput)) + PreviewBlocks(actions, |actions|)
  }

  /** `generatePreviewCode`, the language and the file-name box being passed in. */
  method GeneratePreviewCode(actions: seq<Action>, language: string, fileNameInput: string) returns (code: string)
    ensures code == PreviewCode(actions, language, fileNameInput)
  {
    var fileName := EffectiveFileName(fileNameInput);
    code := "// Preview of generated " + language + " code\n";
    code := code + ("// File: " + fileName + ".spec.js\n\n");
    ghost var header := code;
    assert header == PreviewHeader(language, fileName);
    for index := 0 to |actions|
      invariant code == header + PreviewBlocks(actions, index)
    {
      var action := actions[index];
      var block := StepLine(action, index) + SelectorLine(action);
      if Truthy(action.value) {
        block := block + ValueLine(action);
      }
      block := block + "\n";
      Associative(header, PreviewBlocks(actions, index), block);
      code := code + block;
    }
  }

  class Editor {
    var currentActions: seq<Action>
    var editedActions: seq<Action>

    constructor ()
      ensures currentActions == [] && editedActions == []
    {
      currentActions := [];
      editedActions := [];
    }

    /** `showScriptPreview`: the actions, or none when absent, become both the shown list and the working copy. */
    method ShowScriptPreview(actions: Option<seq<Action>>, language: string, fileNameInput: string) returns (previewCode: string)
      modifies this
      ensures currentActions == (if actions.Some? then actions.value else [])
      ensures editedActions == currentActions
      ensures previewCode == PreviewCode(editedActions, language, fileNameInput)
    {
      currentActions := if actions.Some? then actions.value else [];
      editedActions := currentActions;
      previewCode := GeneratePreviewCode(editedActions, language, fileNameInput);
    }

    /** `deleteStep`: `editedActions.splice(index, 1)`. */
    method DeleteStep(index: int)
      modifies this`editedActions
      ensures editedActions == SpliceOne(old(editedActions), index)
    {
      var start := SpliceStart(|editedActions|, index);
      if start < |editedActions| {
        editedActions := editedActions[..start] + editedActions[start + 1..];
      }
    }

    /**
     * `moveStep`: the entry at `index` changes places with its neighbour
     * `direction` away when that neighbour exists; otherwise nothing
     * changes.  The buttons only ever pass an index of an entry.
     */
    method MoveStep(index: nat, direction: int)
      requires index < |editedActions|
      modifies this`editedActions
      ensures var newIndex := index + direction;
              editedActions == if 0 <= newIndex < |old(editedActions)| then Swapped(old(editedActions), index, newIndex) else old(editedActions)
    {
      var newIndex := index + direction;
      if 0 <= newIndex < |editedActions| {
        var temp := editedActions[index];
        editedActions := editedActions[index := editedActions[newIndex]];
        editedActions := editedActions[newIndex := temp];
      }
    }

    /** The cancel button: the working copy goes back to the shown list. */
    method Cancel()
      modifies this`editedActions
      ensures editedActions == currentActions
    {
      editedActions := currentActions;
    }

    /** The save button: the working copy becomes the shown list. */
    method Save()
      modifies this`currentActions
      ensures currentActions == editedActions
    {
      currentActions := editedActions;
    }
  }

  /** An in-range delete removes exactly that entry: those before it stay, those after it move up by one. */
  lemma DeleteRemovesOnlyThatEntry<T>(s: seq<T>, index: nat)
    requires index < |s|
    ensures |SpliceOne(s, index)| == |s| - 1
    ensures forall k :: 0 <= k < index ==> SpliceOne(s, index)[k] == s[k]
    ensures forall k :: index <= k < |s| - 1 ==> SpliceOne(s, index)[k] == s[k + 1]
  {
  }

  /** A negative index counts from the end: `-1` removes the last entry. */
  lemma DeleteMinusOneRemovesLast<T>(s: seq<T>)
    requires s != []
    ensures SpliceOne(s, -1) == s[..|s| - 1]
  {
  }

  /** Moving keeps every entry: the length and the multiset of entries are the same, and other positions are untouched. */
  lemma SwapIsPermutation<T>(s: seq<T>, i: nat, j: nat)
    requires i < |s| && j < |s|
    ensures multiset(Swapped(s, i, j)) == multiset(s)
    ensures forall k :: 0 <= k < |s| && k != i && k != j ==> Swapped(s, i, j)[k] == s[k]
  {
    if i != j {
      var t := s[i := s[j]];
      assert multiset(t) == multiset(s) - multiset{s[i]} + multiset{s[j]};
      assert t[j] == s[j];
      assert multiset(t[j := s[i]]) == multiset(t) - multiset{s[j]} + multiset{s[i]};
    }
  }

  /** Moving a step back where it came from restores the list. */
  lemma SwapUndoes<T>(s: seq<T>, i: nat, j: nat)
    requires i < |s| && j < |s|
    ensures Swapped(Swapped(s, i, j), j, i) == s
  {
  }
}
