/**
 * `SelectAccountType`: the selected account types as a list the user toggles
 * item by item, and the "selected" mark each item shows.
 */
module SelectAccountType {
  import opened Wrappers
  import opened Seqs

  /**
   * `Array.prototype.find` with `i => i === key`: the first element equal to
   * `key`, if any.
   */
  function Find<K(==)>(s: seq<K>, key: K): (r: Option<K>)
    ensures r.Some? <==> key in s
    ensures r.Some? ==> r.value == key
  {
    if s == [] then None
    else if s[0] == key then Some(s[0])
    else Find(s[1..], key)
  }

  function IsNot<K(==)>(key: K): K -> bool {
    (i: K) => i != key
  }

  /**
   * The state update of `onClickItem(key)`, on a copy of the previous list:
   * when `find` reports the key, every occurrence is filtered out; otherwise
   * the key is pushed at the end. Account types are non-empty strings, so a
   * match found by `find` is always truthy.
   */
  function Toggle<K(==,!new)>(selected: seq<K>, key: K): (r: seq<K>)
    ensures key in selected ==> key !in r
    ensures key in selected ==> IsSubsequence(r, selected)
    ensures key in selected ==> forall k :: k != key ==> multiset(r)[k] == multiset(selected)[k]
    ensures key !in selected ==> r == selected + [key]
  {
    if Find(selected, key).Some? then
      FilterCounts(selected, IsNot(key));
      FilterMembers(selected, IsNot(key));
      FilterIsSubsequence(selected, IsNot(key));
      Filter(selected, IsNot(key))
    else
      selected + [key]
  }

  /** A toggle flips the key's membership and leaves every other key's alone. */
  lemma ToggleFlips<K(!new)>(selected: seq<K>, key: K, other: K)
    ensures key in Toggle(selected, key) <==> key !in selected
    ensures other != key ==> (other in Toggle(selected, key) <==> other in selected)
  {
    if key in selected && other != key {
      assert multiset(Toggle(selected, key))[other] == multiset(selected)[other];
    }
  }

  /** Toggling an unselected key twice gives back the original list. */
  lemma {:induction false} ToggleTwiceAbsent<K(!new)>(selected: seq<K>, key: K)
    requires key !in selected
    ensures Toggle(Toggle(selected, key), key) == selected
  {
    FilterAppend(selected, key, IsNot(key));
    FilterAllPass(selected, IsNot(key));
  }

  /**
   * Toggling a selected key twice does not restore the list: all its
   * occurrences are gone and a single one is back, at the end.
   */
  lemma {:induction false} ToggleTwicePresent<K(!new)>(selected: seq<K>, key: K)
    requires key in selected
    ensures Toggle(Toggle(selected, key), key) == Filter(selected, IsNot(key)) + [key]
  {
  }

  /** `isSelected={!!_selected}` with `_selected = selectedItems.find(i => i === item.key)`. */
  function IsSelected<K(==)>(selected: seq<K>, key: K): (b: bool)
    ensures b <==> key in selected
  {
    Find(selected, key).Some?
  }

  /** After a click on an item, its mark is the opposite of what it was. */
  lemma ClickFlipsMark<K(!new)>(selected: seq<K>, key: K)
    ensures IsSelected(Toggle(selected, key), key) == !IsSelected(selected, key)
  {
    ToggleFlips(selected, key, key);
  }
}
