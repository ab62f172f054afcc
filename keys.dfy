/**
 * `getKeyDescription` (background.js:560-588): the comment the JavaScript
 * generator writes above a recorded key press.
 */
module KeyDescription {
  import opened Text
  import opened Actions

  /** The fixed descriptions, looked up by the key exactly as recorded. */
  const Descriptions: seq<(string, string)> := [
    ("c", "Copy"),
    ("v", "Paste"),
    ("x", "Cut"),
    ("a", "Select All"),
    ("enter", "Press Enter"),
    ("escape", "Press Escape"),
    ("tab", "Press Tab"),
    ("arrowup", "Press Up Arrow"),
    ("arrowdown", "Press Down Arrow"),
    ("arrowleft", "Press Left Arrow"),
    ("arrowright", "Press Right Arrow")]

  /** The description a table gives `key`, if it lists the key. */
  function Lookup(table: seq<(string, string)>, key: string): Option<string> {
    if table == [] then None
    else if table[0].0 == key then Some(table[0].1)
    else Lookup(table[1..], key)
  }

  /** No key is listed twice. */
  predicate DistinctKeys(table: seq<(string, string)>) {
    forall i, j :: 0 <= i < j < |table| ==> table[i].0 != table[j].0
  }

  /** In a table without repeated keys, every entry's key finds that entry's description. */
  lemma {:induction false} LookupFinds(table: seq<(string, string)>, i: nat)
    requires DistinctKeys(table) && i < |table|
    ensures Lookup(table, table[i].0) == Some(table[i].1)
  {
    if i > 0 {
      assert table[0].0 != table[i].0;
      assert table[1..][i - 1] == table[i];
      assert DistinctKeys(table[1..]) by {
        forall a, b | 0 <= a < b < |table| - 1
          ensures table[1..][a].0 != table[1..][b].0
        {
          assert table[1..][a] == table[a + 1] && table[1..][b] == table[b + 1];
        }
      }
      LookupFinds(table[1..], i - 1);
    }
  }

  /** A key no entry names is not found. */
  lemma {:induction false} LookupMisses(table: seq<(string, string)>, key: string)
    requires forall i :: 0 <= i < |table| ==> table[i].0 != key
    ensures Lookup(table, key).None?
  {
    if table != [] {
      assert forall i :: 0 <= i < |table| - 1 ==> table[1..][i] == table[i + 1];
      LookupMisses(table[1..], key);
    }
  }

  /** The eleven keys of the table are all different. */
  lemma DescriptionsDistinct()
    ensures DistinctKeys(Descriptions)
  {
    forall i, j | 0 <= i < j < |Descriptions|
      ensures Descriptions[i].0 != Descriptions[j].0
    {
      assert Descriptions[i].0[0] != Descriptions[j].0[0] || |Descriptions[i].0| != |Descriptions[j].0|
             || Descriptions[i].0[|Descriptions[i].0| - 1] != Descriptions[j].0[|Descriptions[j].0| - 1];
    }
  }

  /** Each of the eleven listed keys is described by its fixed text. */
  lemma TableDescriptions()
    ensures forall i :: 0 <= i < |Descriptions| ==> BaseDescription(Descriptions[i].0) == Descriptions[i].1
  {
    DescriptionsDistinct();
    forall i | 0 <= i < |Descriptions|
      ensures BaseDescription(Descriptions[i].0) == Descriptions[i].1
    {
      LookupFinds(Descriptions, i);
    }
  }

  /** `descriptions[key] || \`Press ${key}\`` */
  function BaseDescription(key: string): string
  {
    match Lookup(Descriptions, key)
    case Some(d) => d
    case None => "Press " + key
  }

  /** The modifier prefixes in reading order: `Alt+`, then `Shift+`, then `Ctrl+` (for Ctrl or Meta). */
  function ModifierPrefix(m: Modifiers): string {
    (if m.alt then "Alt+" else "") + (if m.shift then "Shift+" else "") + (if m.ctrl || m.meta then "Ctrl+" else "")
  }

  /** `Ctrl+` (for Ctrl or Meta), `Shift+` and `Alt+` put in front of `description`, in that order. */
  function WithModifiers(description: string, m: Modifiers): string {
    var description := if m.ctrl || m.meta then "Ctrl+" + description else description;
    var description := if m.shift then "Shift+" + description else description;
    if m.alt then "Alt+" + description else description
  }

  /** Prepending one prefix after another leaves the last one applied reading first. */
  lemma WithModifiersReadsAltShiftCtrl(description: string, m: Modifiers)
    ensures WithModifiers(description, m) == ModifierPrefix(m) + description
  {
    var a, s, c := (if m.alt then "Alt+" else ""), (if m.shift then "Shift+" else ""), (if m.ctrl || m.meta then "Ctrl+" else "");
    assert WithModifiers(description, m) == a + (s + (c + description));
    Associative(a + s, c, description);
    Associative(a, s, c + description);
  }


  /** `getKeyDescription`: the base description with the modifier prefixes, which read `Alt+Shift+Ctrl+`. */
  function GetKeyDescription(key: string, modifiers: Modifiers): (r: string)
    ensures r == ModifierPrefix(modifiers) + BaseDescription(key)
  {
    WithModifiersReadsAltShiftCtrl(BaseDescription(key), modifiers);
    WithModifiers(BaseDescription(key), modifiers)
  }

  /** A word spelled in lower-case ASCII letters only. */
  predicate LowerCaseWord(w: string) {
    forall k :: 0 <= k < |w| ==> 'a' <= w[k] <= 'z'
  }

  /** Every key the table lists is spelled in lower-case letters. */
  lemma TableKeysAreLowerCase()
    ensures forall i :: 0 <= i < |Descriptions| ==> LowerCaseWord(Descriptions[i].0)
  {
  }

  /**
   * The lookup is by the key as recorded: `event.key` spells the named
   * keys with capitals (`Enter`, `ArrowUp`, `Escape`), which the lower-case
   * table does not hold, so any key with a capital letter falls back to
   * `Press <key>`.
   */
  lemma CapitalisedKeysFallBack(key: string, j: nat)
    requires j < |key| && 'A' <= key[j] <= 'Z'
    ensures BaseDescription(key) == "Press " + key
  {
    TableKeysAreLowerCase();
    assert !LowerCaseWord(key);
    forall i | 0 <= i < |Descriptions|
      ensures Descriptions[i].0 != key
    {
      assert LowerCaseWord(Descriptions[i].0);
    }
    LookupMisses(Descriptions, key);
  }
}
