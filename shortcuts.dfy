/**
 * The shortcut registry: which physical key triggers which editor action.
 * Keys are stored lower-cased; the digit keys are reserved for fret entry and
 * every action is bound to at most one key.
 */
module Shortcuts {
  import opened JsText

  /** The actions a key can be bound to. */
  datatype ShortcutAction =
    | SelectString1 | SelectString2 | SelectString3 | SelectString4 | SelectString5 | SelectString6
    | NavNextCol | NavPrevCol | AddRow | SaveTab | ClearCell

  /** Key (lower case) to action. */
  type ShortcutMap = map<string, ShortcutAction>

  /** The factory bindings. */
  const DefaultShortcuts: ShortcutMap := map[
    "q" := SelectString1,
    "b" := SelectString2,
    "g" := SelectString3,
    "d" := SelectString4,
    "a" := SelectString5,
    "e" := SelectString6,
    "enter" := NavNextCol,
    "backspace" := ClearCell,
    "s" := SaveTab,
    "n" := AddRow
  ]

  /** A single decimal digit: a key reserved for fret entry. */
  predicate IsDigitKey(k: string) { |k| == 1 && IsDigit(k[0]) }

  /** No action is reachable from two different keys. */
  predicate OneKeyPerAction(m: ShortcutMap) {
    forall k1, k2 :: k1 in m && k2 in m && m[k1] == m[k2] ==> k1 == k2
  }

  /** No digit key is bound. */
  predicate NoDigitKeys(m: ShortcutMap) {
    forall k :: k in m ==> !IsDigitKey(k)
  }

  /** The string a SELECT_STRING_n action selects, as the index n - 1. */
  function SelectedString(a: ShortcutAction): (s: int)
    requires a.SelectString1? || a.SelectString2? || a.SelectString3? || a.SelectString4? || a.SelectString5? || a.SelectString6?
    ensures 0 <= s < 6
  {
    match a
    case SelectString1 => 0
    case SelectString2 => 1
    case SelectString3 => 2
    case SelectString4 => 3
    case SelectString5 => 4
    case SelectString6 => 5
  }

  /** The key the defaults give an action (NAV_PREV_COL has none). */
  function DefaultKey(a: ShortcutAction): string {
    match a
    case SelectString1 => "q"
    case SelectString2 => "b"
    case SelectString3 => "g"
    case SelectString4 => "d"
    case SelectString5 => "a"
    case SelectString6 => "e"
    case NavNextCol => "enter"
    case NavPrevCol => ""
    case AddRow => "n"
    case SaveTab => "s"
    case ClearCell => "backspace"
  }

  /** The defaults bind SELECT_STRING_1..6 to q, b, g, d, a, e, no digit key, one key per action. */
  lemma DefaultShortcutsShape()
    ensures DefaultShortcuts["q"] == SelectString1 && DefaultShortcuts["b"] == SelectString2
    ensures DefaultShortcuts["g"] == SelectString3 && DefaultShortcuts["d"] == SelectString4
    ensures DefaultShortcuts["a"] == SelectString5 && DefaultShortcuts["e"] == SelectString6
    ensures NoDigitKeys(DefaultShortcuts) && OneKeyPerAction(DefaultShortcuts)
  {
    forall k | k in DefaultShortcuts
      ensures DefaultKey(DefaultShortcuts[k]) == k && !IsDigitKey(k)
    {
    }
  }

  /**
   * The map update inside remapKey: digit keys are refused; otherwise every
   * key bound to `action` is dropped and the lower-cased key is bound to it.
   */
  function Remapped(prev: ShortcutMap, key: string, action: ShortcutAction): (next: ShortcutMap)
    ensures IsDigitKey(ToLower(key)) ==> next == prev
    ensures !IsDigitKey(ToLower(key)) ==>
              && ToLower(key) in next && next[ToLower(key)] == action
              && (forall k :: k in next && next[k] == action ==> k == ToLower(key))
              && (forall k :: k in prev && k != ToLower(key) && prev[k] != action ==> k in next && next[k] == prev[k])
              && (forall k :: k in next ==> k in prev || k == ToLower(key))
              && (forall k :: k in prev && prev[k] == action && k != ToLower(key) ==> k !in next)
    ensures OneKeyPerAction(prev) ==> OneKeyPerAction(next)
    ensures NoDigitKeys(prev) ==> NoDigitKeys(next)
  {
    var lowerKey := ToLower(key);
    if IsDigitKey(lowerKey) then prev
    else (map k | k in prev && prev[k] != action :: prev[k])[lowerKey := action]
  }

  /** The copy of `prev` once the forEach has visited every key outside `remaining`: those
      bound to `action` are gone. */
  function Kept(prev: ShortcutMap, action: ShortcutAction, remaining: set<string>): ShortcutMap {
    map k | k in prev && (k in remaining || prev[k] != action) :: prev[k]
  }

  lemma KeptStep(prev: ShortcutMap, action: ShortcutAction, remaining: set<string>, key: string)
    requires key in remaining && remaining <= prev.Keys
    ensures prev[key] == action ==> Kept(prev, action, remaining - {key}) == Kept(prev, action, remaining) - {key}
    ensures prev[key] != action ==> Kept(prev, action, remaining - {key}) == Kept(prev, action, remaining)
  {
  }

  /** The copy and the forEach of remapKey: every key bound to `action` is deleted. */
  method DropAction(prev: ShortcutMap, action: ShortcutAction) returns (updatedMap: ShortcutMap)
    ensures updatedMap == Kept(prev, action, {})
  {
    updatedMap := prev;
    var remaining := prev.Keys;
    assert Kept(prev, action, remaining) == prev;
    while remaining != {}
      invariant remaining <= prev.Keys
      invariant updatedMap == Kept(prev, action, remaining)
      decreases remaining
    {
      var existingKey :| existingKey in remaining;
      KeptStep(prev, action, remaining, existingKey);
      if updatedMap[existingKey] == action {
        updatedMap := updatedMap - {existingKey};
      }
      remaining := remaining - {existingKey};
    }
  }

  /** remapKey: the digit check, the copy with every key of the action deleted, then the
      assignment of the new key. */
  method RemapKey(prev: ShortcutMap, key: string, action: ShortcutAction) returns (updatedMap: ShortcutMap)
    ensures updatedMap == Remapped(prev, key, action)
  {
    var lowerKey := ToLower(key);
    if IsDigitKey(lowerKey) {
      return prev;
    }
    updatedMap := DropAction(prev, action);
    updatedMap := updatedMap[lowerKey := action];
  }

  /** resetShortcuts: the defaults, whatever came before. */
  function ResetShortcuts(prev: ShortcutMap): (next: ShortcutMap)
    ensures next == DefaultShortcuts && NoDigitKeys(next) && OneKeyPerAction(next)
  {
    DefaultShortcutsShape();
    DefaultShortcuts
  }
}
