/** The simple work-requirements step (`WorkRequirementsStep`): up to ten
    requirements picked from the requirement catalog. */
module WorkRequirementsStep {
  import opened Wrappers
  import opened Lists
  import opened CappedSelection

  /** The most requirements the step keeps. */
  const MaxRequirements: nat := 10

  /** The step's state; `saved` is `formData.workRequirements`. */
  class RequirementsSelection {
    var selectedRequirements: seq<string>
    var saved: Option<seq<string>>

    /** The step opens on the saved requirements, or none. */
    constructor(stored: Option<seq<string>>)
      ensures selectedRequirements == (if stored.Some? then stored.value else [])
      ensures saved == stored
    {
      selectedRequirements := if stored.Some? then stored.value else [];
      saved := stored;
    }

    /** `toggleRequirement`: commits the toggled list, to the state and to
        the saved requirements, only when it has at most ten entries. */
    method ToggleRequirement(req: string)
      modifies this
      ensures var r := CappedToggle(old(selectedRequirements), req, MaxRequirements);
        (r.Some? ==> selectedRequirements == r.value && saved == r)
        && (r.None? ==> selectedRequirements == old(selectedRequirements) && saved == old(saved))
      ensures |old(selectedRequirements)| <= MaxRequirements ==> |selectedRequirements| <= MaxRequirements
      ensures req in old(selectedRequirements) && |old(selectedRequirements)| <= MaxRequirements ==>
        selectedRequirements == Remove(old(selectedRequirements), req) && saved == Some(selectedRequirements)
      ensures req !in old(selectedRequirements) && |old(selectedRequirements)| >= MaxRequirements ==>
        selectedRequirements == old(selectedRequirements) && saved == old(saved)
    {
      CappedToggleProps(selectedRequirements, req, MaxRequirements);
      if req in selectedRequirements && |selectedRequirements| <= MaxRequirements {
        DeselectWithinCap(selectedRequirements, req, MaxRequirements);
      }
      var updated := if req in selectedRequirements then Remove(selectedRequirements, req) else selectedRequirements + [req];
      if |updated| <= MaxRequirements {
        selectedRequirements := updated;
        saved := Some(updated);
      }
    }
  }
}
