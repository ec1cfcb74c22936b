/** The click handler shared by the simple value and requirement pickers:
    remove the item when selected, append it otherwise, and commit the new
    list only when it stays within the cap. */
module CappedSelection {
  import opened Wrappers
  import opened Lists

  /** The list a click commits, or `None` when the handler drops it. */
  function CappedToggle<T(==)>(selected: seq<T>, item: T, cap: nat): Option<seq<T>>
  {
    var updated := Toggle(selected, item);
    if |updated| <= cap then Some(updated) else None
  }

  /** A committed list is within the cap; a new item is appended after the
      kept entries, which keep their order; an unselected item is refused
      exactly when the cap is already reached. */
  lemma CappedToggleProps<T>(selected: seq<T>, item: T, cap: nat)
    ensures CappedToggle(selected, item, cap).Some? ==> |CappedToggle(selected, item, cap).value| <= cap
    ensures item !in selected ==>
      (CappedToggle(selected, item, cap).Some? <==> |selected| < cap)
      && (CappedToggle(selected, item, cap).Some? ==> CappedToggle(selected, item, cap).value == selected + [item])
    ensures item in selected && CappedToggle(selected, item, cap).Some? ==>
      CappedToggle(selected, item, cap).value == Remove(selected, item)
      && IsSubseq(CappedToggle(selected, item, cap).value, selected)
  {
    if item in selected {
      RemoveIsSubseq(selected, item);
    }
  }

  /** Within the cap, clicking a selected item always removes it. */
  lemma {:induction false} DeselectWithinCap<T>(selected: seq<T>, item: T, cap: nat)
    requires |selected| <= cap && item in selected
    ensures CappedToggle(selected, item, cap) == Some(Remove(selected, item))
  {
    RemoveIsSubseq(selected, item);
    SubseqLength(Remove(selected, item), selected);
  }

  /** A duplicate-free selection stays duplicate-free, and one within the cap
      stays within it whether or not the click is committed. */
  lemma CappedToggleKeeps<T>(selected: seq<T>, item: T, cap: nat)
    requires NoDup(selected)
    ensures CappedToggle(selected, item, cap).Some? ==> NoDup(CappedToggle(selected, item, cap).value)
  {
    ToggleKeepsNoDup(selected, item);
  }

  /** A stored duplicate-free selection more than one over the cap can no
      longer change: removing one entry still leaves it over the cap. */
  lemma {:induction false} OverCapIsStuck<T>(selected: seq<T>, item: T, cap: nat)
    requires NoDup(selected) && |selected| > cap + 1
    ensures CappedToggle(selected, item, cap) == None
  {
    if item in selected {
      RemovePresentShrinksByOne(selected, item);
    }
  }
}
