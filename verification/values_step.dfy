/** The simple values step (`ValuesStep`): up to five values picked from the
    value catalog. */
module ValuesStep {
  import opened Wrappers
  import opened Lists
  import opened CappedSelection

  /** The most values the step keeps. */
  const MaxValues: nat := 5

  /** The step's state; `saved` is `formData.values`. */
  class ValuesSelection {
    var selectedValues: seq<string>
    var saved: Option<seq<string>>

    /** The step opens on the saved values, or none. */
    constructor(stored: Option<seq<string>>)
      ensures selectedValues == (if stored.Some? then stored.value else [])
      ensures saved == stored
    {
      selectedValues := if stored.Some? then stored.value else [];
      saved := stored;
    }

    /** `toggleValue`: commits the toggled list, to the state and to the
        saved values, only when it has at most five entries. */
    method ToggleValue(value: string)
      modifies this
      ensures var r := CappedToggle(old(selectedValues), value, MaxValues);
        (r.Some? ==> selectedValues == r.value && saved == r)
        && (r.None? ==> selectedValues == old(selectedValues) && saved == old(saved))
      ensures |old(selectedValues)| <= MaxValues ==> |selectedValues| <= MaxValues
      ensures value in old(selectedValues) && |old(selectedValues)| <= MaxValues ==>
        selectedValues == Remove(old(selectedValues), value) && saved == Some(selectedValues)
      ensures value !in old(selectedValues) && |old(selectedValues)| >= MaxValues ==>
        selectedValues == old(selectedValues) && saved == old(saved)
    {
      CappedToggleProps(selectedValues, value, MaxValues);
      if value in selectedValues && |selectedValues| <= MaxValues {
        DeselectWithinCap(selectedValues, value, MaxValues);
      }
      var updated := if value in selectedValues then Remove(selectedValues, value) else selectedValues + [value];
      if |updated| <= MaxValues {
        selectedValues := updated;
        saved := Some(updated);
      }
    }
  }
}
