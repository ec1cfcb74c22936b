/** The assessment wizard (`CareerDevelopmentApp`): nine steps, the set of
    completed steps, the form data every step writes into, and the snapshot
    kept in browser storage under `userProgress`. */
module CareerDevelopmentApp {
  import opened Wrappers
  import opened Json
  import opened Lists

  /** Steps 0 (Overview) to 8 (Summary). */
  const StepCount: int := 9
  const LastStep: int := StepCount - 1
  /** The Dream Job step, the only step flagged `locked`. */
  const DreamJobStep: int := 7
  /** The sections that must be complete before the Dream Job step opens. */
  const RequiredSteps: seq<int> := [1, 2, 3, 4, 5, 6]

  /** `new`, `continue` or the read-only historical `view`. */
  datatype Mode = New | Continue | View

  /** What `saveProgress` stores (the timestamp is left out). */
  datatype Progress = Progress(formData: seq<(string, Value)>, currentStep: int, completedSteps: seq<int>)

  /** `steps[id].locked`. */
  predicate Flagged(stepId: int) { stepId == DreamJobStep }

  /** `ids.every(id => completed.includes(id))`. */
  predicate Every(ids: seq<int>, completed: seq<int>)
  {
    ids == [] || (ids[0] in completed && Every(ids[1..], completed))
  }

  /** `isStepLocked`. */
  predicate IsStepLocked(mode: Mode, stepId: int, completed: seq<int>)
  {
    if mode == View then false
    else if Flagged(stepId) then !Every(RequiredSteps, completed)
    else false
  }

  lemma {:induction false} EveryIff(ids: seq<int>, completed: seq<int>)
    ensures Every(ids, completed) <==> forall i :: 0 <= i < |ids| ==> ids[i] in completed
  {
    if ids != [] {
      EveryIff(ids[1..], completed);
      assert forall i :: 1 <= i < |ids| ==> ids[i] == ids[1..][i - 1];
    }
  }

  /** No step is locked in view mode; otherwise exactly the Dream Job step is
      locked, and exactly while some section 1..6 is not complete. */
  lemma StepLockedIff(mode: Mode, stepId: int, completed: seq<int>)
    ensures IsStepLocked(mode, stepId, completed) <==>
      mode != View && stepId == DreamJobStep && exists id :: 1 <= id <= 6 && id !in completed
  {
    EveryIff(RequiredSteps, completed);
    if exists id :: 1 <= id <= 6 && id !in completed {
      var id :| 1 <= id <= 6 && id !in completed;
      assert RequiredSteps[id - 1] == id;
    }
  }

  /** `markStepComplete`'s new list: the id is appended only when absent. */
  function Marked(completed: seq<int>, stepId: int): (r: seq<int>)
  {
    if stepId in completed then completed else completed + [stepId]
  }

  /** Marking adds exactly the step, keeps the order of earlier entries and
      never creates a duplicate. */
  lemma MarkedProps(completed: seq<int>, stepId: int)
    ensures stepId in Marked(completed, stepId)
    ensures forall x :: x in Marked(completed, stepId) <==> x in completed || x == stepId
    ensures Marked(completed, stepId)[..|completed|] == completed
    ensures NoDup(completed) ==> NoDup(Marked(completed, stepId))
  {
  }

  /** The width of the progress line, in percent: completed steps over the
      eight transitions between the nine steps, capped at 100. */
  function ProgressWidth(completed: seq<int>): (w: real)
    ensures 0.0 <= w <= 100.0
    ensures w == 100.0 <==> |completed| >= StepCount - 1
    ensures |completed| < StepCount - 1 ==> w == (|completed| as real) * 100.0 / ((StepCount - 1) as real)
  {
    var raw := (|completed| as real) / ((StepCount - 1) as real) * 100.0;
    if raw <= 100.0 then raw else 100.0
  }

  /** Completing more steps never narrows the progress line. */
  lemma ProgressWidthMonotone(a: seq<int>, b: seq<int>)
    requires |a| <= |b|
    ensures ProgressWidth(a) <= ProgressWidth(b)
  {
  }

  /** Whether the Next button is disabled. */
  predicate NextDisabled(mode: Mode, currentStep: int, completed: seq<int>)
  {
    currentStep == LastStep || (currentStep == DreamJobStep && IsStepLocked(mode, DreamJobStep, completed))
  }

  /** Next is disabled exactly at the last step, and at the Dream Job step
      while some section 1..6 is incomplete outside view mode. */
  lemma NextDisabledIff(mode: Mode, currentStep: int, completed: seq<int>)
    ensures NextDisabled(mode, currentStep, completed) <==>
      currentStep == LastStep
      || (currentStep == DreamJobStep && mode != View && exists id :: 1 <= id <= 6 && id !in completed)
  {
    StepLockedIff(mode, DreamJobStep, completed);
  }

  /** The snapshot `handleNext` leaves in storage, as written: the second
      save inside `handleNext` runs with the list of completed steps from
      before `markStepComplete`, so it overwrites the first save and drops
      the step just finished. */
  function StoredAfterNextAsWritten(mode: Mode, stored: Option<Progress>, form: seq<(string, Value)>,
                                    step: int, completed: seq<int>): Option<Progress>
  {
    if mode == View then stored
    else if step < LastStep then Some(Progress(form, step + 1, completed))
    else if step in completed then stored
    else Some(Progress(form, step, completed + [step]))
  }

  /** The snapshot `handleNext` is evidently meant to store: the new step and
      the list including the step just finished. */
  function StoredAfterNext(mode: Mode, stored: Option<Progress>, form: seq<(string, Value)>,
                           step: int, completed: seq<int>): Option<Progress>
  {
    if mode == View then stored
    else if step < LastStep then Some(Progress(form, step + 1, Marked(completed, step)))
    else if step in completed then stored
    else Some(Progress(form, step, Marked(completed, step)))
  }

  /** As written: finishing section 6 with sections 1..5 done opens the Dream
      Job step on screen, but the stored snapshot lacks step 6, so resuming
      with `continue` lands on the Dream Job step with it locked. */
  lemma ReloadAfterNextLocksDreamJob(form: seq<(string, Value)>)
    ensures !IsStepLocked(Continue, DreamJobStep, Marked([1, 2, 3, 4, 5], 6))
    ensures var p := StoredAfterNextAsWritten(Continue, None, form, 6, [1, 2, 3, 4, 5]);
      p.Some? && p.value.currentStep == DreamJobStep
      && IsStepLocked(Continue, DreamJobStep, p.value.completedSteps)
  {
    StepLockedIff(Continue, DreamJobStep, Marked([1, 2, 3, 4, 5], 6));
    StepLockedIff(Continue, DreamJobStep, [1, 2, 3, 4, 5]);
    assert 6 !in [1, 2, 3, 4, 5];
  }

  /** Corrected: outside view mode, whenever Next saves, the stored snapshot
      holds exactly the wizard's new step and completed list, including the
      step just finished, so resuming restores the same lock state. */
  lemma StoredAfterNextRestores(mode: Mode, stored: Option<Progress>, form: seq<(string, Value)>,
                                step: int, completed: seq<int>)
    requires mode != View
    requires step < LastStep || step !in completed
    ensures var p := StoredAfterNext(mode, stored, form, step, completed);
      var next := if step < LastStep then step + 1 else step;
      p == Some(Progress(form, next, Marked(completed, step)))
      && step in p.value.completedSteps
      && forall x :: x in completed ==> x in p.value.completedSteps
  {
    MarkedProps(completed, step);
  }

  /** The wizard's state. `stored` is the browser's `userProgress` entry. */
  class Wizard {
    const mode: Mode
    var currentStep: int
    var completedSteps: seq<int>
    var formData: seq<(string, Value)>
    var stored: Option<Progress>

    /** The current step indexes `steps`, and no step is listed twice. */
    ghost predicate Valid()
      reads this
    {
      0 <= currentStep < StepCount && NoDup(completedSteps)
    }

    /** A fresh assessment at the overview, with `initial` as the form data. */
    constructor(mode: Mode, initial: seq<(string, Value)>, stored: Option<Progress>)
      ensures Valid()
      ensures this.mode == mode && currentStep == 0 && completedSteps == []
      ensures formData == initial && this.stored == stored
    {
      this.mode := mode;
      currentStep := 0;
      completedSteps := [];
      formData := initial;
      this.stored := stored;
    }

    /** `saveProgress`: nothing is stored in view mode. */
    method Save(form: seq<(string, Value)>, step: int, completed: seq<int>)
      modifies this
      ensures stored == (if mode == View then old(stored) else Some(Progress(form, step, completed)))
      ensures currentStep == old(currentStep) && completedSteps == old(completedSteps)
      ensures formData == old(formData)
    {
      if mode != View {
        stored := Some(Progress(form, step, completed));
      }
    }

    /** `updateFormData`: replaces the one named field and saves. */
    method UpdateFormData(field: string, value: Value)
      requires Valid()
      modifies this
      ensures Valid()
      ensures formData == SetField(old(formData), field, value)
      ensures currentStep == old(currentStep) && completedSteps == old(completedSteps)
      ensures stored == (if mode == View then old(stored) else Some(Progress(formData, currentStep, completedSteps)))
    {
      formData := SetField(formData, field, value);
      Save(formData, currentStep, completedSteps);
    }

    /** `markStepComplete`: appends and saves only when the step is new. */
    method MarkStepComplete(stepId: int)
      requires Valid()
      modifies this
      ensures Valid()
      ensures completedSteps == Marked(old(completedSteps), stepId)
      ensures currentStep == old(currentStep) && formData == old(formData)
      ensures stored == (if mode == View || stepId in old(completedSteps) then old(stored)
                         else Some(Progress(formData, currentStep, completedSteps)))
    {
      if stepId !in completedSteps {
        MarkedProps(completedSteps, stepId);
        completedSteps := completedSteps + [stepId];
        Save(formData, currentStep, completedSteps);
      }
    }

    /** `handleNext`: completes the current step and advances by one unless
        at the last step. */
    method HandleNext()
      requires Valid()
      modifies this
      ensures Valid()
      ensures completedSteps == Marked(old(completedSteps), old(currentStep))
      ensures currentStep == (if old(currentStep) < LastStep then old(currentStep) + 1 else old(currentStep))
      ensures formData == old(formData)
      ensures stored == StoredAfterNext(mode, old(stored), formData, old(currentStep), old(completedSteps))
    {
      MarkStepComplete(currentStep);
      if currentStep < LastStep {
        currentStep := currentStep + 1;
        Save(formData, currentStep, completedSteps);
      }
    }

    /** `handlePrevious`: steps back unless at the overview. */
    method HandlePrevious()
      requires Valid()
      modifies this
      ensures Valid()
      ensures currentStep == (if old(currentStep) > 0 then old(currentStep) - 1 else old(currentStep))
      ensures completedSteps == old(completedSteps) && formData == old(formData)
      ensures stored == (if mode == View || old(currentStep) == 0 then old(stored)
                         else Some(Progress(formData, currentStep, completedSteps)))
    {
      if currentStep > 0 {
        currentStep := currentStep - 1;
        Save(formData, currentStep, completedSteps);
      }
    }

    /** `navigateToStep`: jumps to any step. */
    method NavigateToStep(stepId: int)
      requires Valid() && 0 <= stepId < StepCount
      modifies this
      ensures Valid()
      ensures currentStep == stepId
      ensures completedSteps == old(completedSteps) && formData == old(formData)
      ensures stored == (if mode == View then old(stored) else Some(Progress(formData, stepId, completedSteps)))
    {
      currentStep := stepId;
      Save(formData, currentStep, completedSteps);
    }

    /** A click on a step of the progress bar: locked steps ignore it. */
    method ClickStep(stepId: int)
      requires Valid() && 0 <= stepId < StepCount
      modifies this
      ensures Valid()
      ensures IsStepLocked(mode, stepId, old(completedSteps)) ==>
        currentStep == old(currentStep) && stored == old(stored)
      ensures !IsStepLocked(mode, stepId, old(completedSteps)) ==> currentStep == stepId
      ensures completedSteps == old(completedSteps) && formData == old(formData)
    {
      if !IsStepLocked(mode, stepId, completedSteps) {
        NavigateToStep(stepId);
      }
    }
  }
}
