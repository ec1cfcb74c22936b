/** The simple strengths step (`StrengthsStep`): five text slots for
    strengths, of which the non-empty ones are saved. */
module StrengthsStep {
  import opened Wrappers
  import opened Lists

  const Slots: nat := 5

  /** `Array(n).fill('')` */
  function Blanks(n: nat): (r: seq<string>)
    ensures |r| == n && forall i :: 0 <= i < n ==> r[i] == ""
  {
    seq(n, _ => "")
  }

  /** The slots the step opens on: the saved strengths padded with blanks to
      five, five blanks when none are saved, and the `RangeError` that
      `Array(5 - length)` throws when more than five are saved. */
  function InitialStrengths(stored: Option<seq<string>>): Result<seq<string>, string>
  {
    if stored.None? || |stored.value| == 0 then Ok(Blanks(Slots))
    else if |stored.value| > Slots then Err("RangeError: Invalid array length")
    else Ok(Take(stored.value + Blanks(Slots - |stored.value|), Slots))
  }

  /** Missing or empty saved strengths give five blanks; up to five give
      them first, then blanks, five slots in all; more than five throw. */
  lemma InitialStrengthsProps(stored: Option<seq<string>>)
    ensures stored.None? || stored.value == [] ==> InitialStrengths(stored) == Ok(Blanks(Slots))
    ensures InitialStrengths(stored).Ok? <==> stored.None? || |stored.value| <= Slots
    ensures InitialStrengths(stored).Ok? ==> |InitialStrengths(stored).value| == Slots
    ensures stored.Some? && |stored.value| <= Slots ==>
      InitialStrengths(stored).value[..|stored.value|] == stored.value
      && forall i :: |stored.value| <= i < Slots ==> InitialStrengths(stored).value[i] == ""
  {
  }

  /** `s => s`: the strings kept by `filter`. */
  predicate Filled(s: string) { s != "" }

  /** What `updateStrength` saves: the non-empty slots, in order. */
  function SavedStrengths(slots: seq<string>): seq<string>
  {
    Filter(slots, Filled)
  }

  /** The saved list holds exactly the non-empty slots, in slot order. */
  lemma SavedStrengthsProps(slots: seq<string>)
    ensures forall s :: s in SavedStrengths(slots) <==> s in slots && s != ""
    ensures IsSubseq(SavedStrengths(slots), slots)
    ensures |SavedStrengths(slots)| <= |slots|
  {
    FilterIsSubseq(slots, Filled);
  }

  /** Reopening the step on what was saved moves the filled slots to the
      front and the blanks to the end. */
  lemma {:induction false} ReopenCompacts(slots: seq<string>)
    requires |slots| == Slots && exists i :: 0 <= i < Slots && slots[i] != ""
    ensures var saved := SavedStrengths(slots);
      InitialStrengths(Some(saved)) == Ok(saved + Blanks(Slots - |saved|))
  {
    var saved := SavedStrengths(slots);
    var i :| 0 <= i < Slots && slots[i] != "";
    assert slots[i] in saved;
  }

  /** The step's state; `saved` is `formData.strengths`. */
  class StrengthSlots {
    var strengths: seq<string>
    var saved: Option<seq<string>>

    /** The step opens on the padded saved strengths; the source throws
        instead when more than five are saved. */
    constructor(stored: Option<seq<string>>)
      requires InitialStrengths(stored).Ok?
      ensures strengths == InitialStrengths(stored).value && |strengths| == Slots
      ensures saved == stored
    {
      InitialStrengthsProps(stored);
      strengths := InitialStrengths(stored).value;
      saved := stored;
    }

    /** `updateStrength`: writes one slot of a copy, keeps the copy and saves
        its non-empty slots. */
    method UpdateStrength(index: nat, value: string)
      requires index < |strengths|
      modifies this
      ensures strengths == old(strengths)[index := value]
      ensures saved == Some(SavedStrengths(strengths))
    {
      var newStrengths := strengths[index := value];
      strengths := newStrengths;
      saved := Some(SavedStrengths(newStrengths));
    }
  }
}
