/** The five-why step (`EnhancedFiveWhyStep`): a list of problems, each with
    a category, five "why" answers, a root cause and a next step. */
module EnhancedFiveWhyStep {
  import opened Wrappers
  import opened Lists
  import opened Profile

  /** The category table: id and colour. */
  const Categories: seq<(string, string)> :=
    [("work", "blue"), ("health", "red"), ("relationships", "purple"),
     ("finances", "green"), ("personal", "orange")]

  /** `createNewProblem`; `id` is `Date.now()` and `createdAt` the ISO time,
      both supplied by the caller. */
  function NewProblem(id: int, createdAt: string): (p: Problem)
  {
    Problem(id, "", "work", ["", "", "", "", ""], "", "", createdAt)
  }

  /** A new problem is a blank work problem with five unanswered whys. */
  lemma NewProblemBlank(id: int, createdAt: string)
    ensures var p := NewProblem(id, createdAt);
      p.id == id && p.category == "work" && p.problem == "" && p.rootCause == ""
      && p.nextStep == "" && |p.whys| == 5 && (forall i :: 0 <= i < 5 ==> p.whys[i] == "")
      && p.createdAt == createdAt
  {
  }

  /** The text fields `updateProblem` is called with. */
  datatype Field = ProblemText | Category | RootCause | NextStep

  /** `{ ...p, [field]: value }`. */
  function WithField(p: Problem, field: Field, value: string): Problem
  {
    match field
    case ProblemText => p.(problem := value)
    case Category => p.(category := value)
    case RootCause => p.(rootCause := value)
    case NextStep => p.(nextStep := value)
  }

  /** The field a `Field` names. */
  function FieldOf(p: Problem, field: Field): string
  {
    match field
    case ProblemText => p.problem
    case Category => p.category
    case RootCause => p.rootCause
    case NextStep => p.nextStep
  }

  /** Writing a field sets it, keeps the other three, the id and the whys. */
  lemma WithFieldProps(p: Problem, field: Field, value: string, other: Field)
    ensures FieldOf(WithField(p, field, value), field) == value
    ensures other != field ==> FieldOf(WithField(p, field, value), other) == FieldOf(p, other)
    ensures WithField(p, field, value).id == p.id && WithField(p, field, value).whys == p.whys
    ensures WithField(p, field, value).createdAt == p.createdAt
  {
  }

  /** The problem list after `updateProblem`. */
  function UpdateProblems(problems: seq<Problem>, id: int, field: Field, value: string): (r: seq<Problem>)
    ensures |r| == |problems|
  {
    seq(|problems|, i requires 0 <= i < |problems| =>
      if problems[i].id == id then WithField(problems[i], field, value) else problems[i])
  }

  /** `updateProblem` sets the field of every problem with the id, and leaves
      every other problem, and every other field, as it was. */
  lemma UpdateProblemsProps(problems: seq<Problem>, id: int, field: Field, value: string, other: Field)
    ensures var r := UpdateProblems(problems, id, field, value);
      forall i :: 0 <= i < |r| ==>
        r[i].id == problems[i].id
        && (problems[i].id != id ==> r[i] == problems[i])
        && (problems[i].id == id ==> FieldOf(r[i], field) == value)
        && (problems[i].id == id && other != field ==> FieldOf(r[i], other) == FieldOf(problems[i], other))
        && r[i].whys == problems[i].whys
  {
    var r := UpdateProblems(problems, id, field, value);
    forall i | 0 <= i < |r|
      ensures problems[i].id == id ==> FieldOf(r[i], field) == value
      ensures problems[i].id == id && other != field ==> FieldOf(r[i], other) == FieldOf(problems[i], other)
    {
      WithFieldProps(problems[i], field, value, other);
    }
  }

  /** `newWhys[whyIndex] = value` on a copy of the whys. */
  function WithWhy(p: Problem, whyIndex: nat, value: string): Problem
    requires whyIndex < |p.whys|
  {
    p.(whys := p.whys[whyIndex := value])
  }

  /** The answers each matching problem renders have the index in range. */
  predicate WhyInRange(problems: seq<Problem>, id: int, whyIndex: nat)
  {
    forall i :: 0 <= i < |problems| && problems[i].id == id ==> whyIndex < |problems[i].whys|
  }

  /** The problem list after `updateWhy`. */
  function UpdateWhys(problems: seq<Problem>, id: int, whyIndex: nat, value: string): (r: seq<Problem>)
    requires WhyInRange(problems, id, whyIndex)
    ensures |r| == |problems|
  {
    seq(|problems|, i requires 0 <= i < |problems| =>
      if problems[i].id == id then WithWhy(problems[i], whyIndex, value) else problems[i])
  }

  /** `updateWhy` replaces one answer of every problem with the id: the list
      of answers keeps its length and its other entries, and the problem's
      other fields and every other problem are unchanged. */
  lemma UpdateWhysProps(problems: seq<Problem>, id: int, whyIndex: nat, value: string)
    requires WhyInRange(problems, id, whyIndex)
    ensures var r := UpdateWhys(problems, id, whyIndex, value);
      forall i :: 0 <= i < |r| ==>
        (problems[i].id != id ==> r[i] == problems[i])
        && (problems[i].id == id ==>
              |r[i].whys| == |problems[i].whys| && r[i].whys[whyIndex] == value
              && (forall j :: 0 <= j < |r[i].whys| && j != whyIndex ==> r[i].whys[j] == problems[i].whys[j])
              && r[i] == problems[i].(whys := r[i].whys))
  {
  }

  /** `p => p.id !== problemId`. */
  function Keeps(id: int): Problem -> bool
  {
    (p: Problem) => p.id != id
  }

  /** `deleteProblem`: every problem with the id goes, the rest keep their
      order. */
  function DeleteProblems(problems: seq<Problem>, id: int): (r: seq<Problem>)
  {
    Filter(problems, Keeps(id))
  }

  /** After a delete no problem has the id; every other problem is kept, in
      order; deleting an absent id changes nothing. */
  lemma DeleteProblemsProps(problems: seq<Problem>, id: int)
    ensures var r := DeleteProblems(problems, id);
      (forall p :: p in r ==> p.id != id)
      && (forall p :: p in problems && p.id != id ==> p in r)
      && IsSubseq(r, problems)
      && ((forall i :: 0 <= i < |problems| ==> problems[i].id != id) ==> r == problems)
  {
    FilterIsSubseq(problems, Keeps(id));
    if forall i :: 0 <= i < |problems| ==> problems[i].id != id {
      FilterAll(problems, Keeps(id));
    }
  }

  /** `categories.find(c => c.id === categoryId)`'s colour, or gray. */
  function ColorIn(categories: seq<(string, string)>, categoryId: string): string
  {
    if categories == [] then "gray"
    else if categories[0].0 == categoryId then categories[0].1
    else ColorIn(categories[1..], categoryId)
  }

  /** `getCategoryColor`. */
  function CategoryColor(categoryId: string): string
  {
    ColorIn(Categories, categoryId)
  }

  /** A listed category gets its table colour, and exactly the unlisted ids
      get gray. */
  lemma CategoryColorProps(categoryId: string)
    ensures forall i :: 0 <= i < |Categories| && Categories[i].0 == categoryId ==>
      CategoryColor(categoryId) == Categories[i].1
    ensures CategoryColor(categoryId) == "gray" <==> forall i :: 0 <= i < |Categories| ==> Categories[i].0 != categoryId
  {
    ColorInFirst(Categories, categoryId);
  }

  /** The colour found is the first listed one; gray when none is listed. */
  lemma {:induction false} ColorInFirst(categories: seq<(string, string)>, categoryId: string)
    ensures (forall i :: 0 <= i < |categories| ==> categories[i].0 != categoryId) ==>
      ColorIn(categories, categoryId) == "gray"
    ensures forall i :: (0 <= i < |categories| && categories[i].0 == categoryId
                         && forall j :: 0 <= j < i ==> categories[j].0 != categoryId) ==>
      ColorIn(categories, categoryId) == categories[i].1
  {
    if categories != [] {
      ColorInFirst(categories[1..], categoryId);
      assert forall i :: 1 <= i < |categories| ==> categories[i] == categories[1..][i - 1];
    }
  }

  /** The step's state; `saved` is `formData.fiveWhyProblems`. */
  class FiveWhyStep {
    var problems: seq<Problem>
    var expandedProblem: Option<int>
    var isAddingProblem: bool
    var saved: seq<Problem>

    /** The step opens on the saved problems, none expanded. */
    constructor(stored: seq<Problem>)
      ensures problems == stored && saved == stored
      ensures expandedProblem == None && !isAddingProblem
    {
      problems := stored;
      expandedProblem := None;
      isAddingProblem := false;
      saved := stored;
    }

    /** `addProblem`: appends a blank problem and expands it; nothing is saved
        until the first edit. */
    method AddProblem(id: int, createdAt: string)
      modifies this
      ensures problems == old(problems) + [NewProblem(id, createdAt)]
      ensures expandedProblem == Some(id) && isAddingProblem
      ensures saved == old(saved)
    {
      var newProblem := NewProblem(id, createdAt);
      problems := problems + [newProblem];
      expandedProblem := Some(newProblem.id);
      isAddingProblem := true;
    }

    /** `updateProblem`: edits and saves. */
    method UpdateProblem(problemId: int, field: Field, value: string)
      modifies this
      ensures problems == UpdateProblems(old(problems), problemId, field, value)
      ensures saved == problems
      ensures expandedProblem == old(expandedProblem) && isAddingProblem == old(isAddingProblem)
    {
      problems := UpdateProblems(problems, problemId, field, value);
      saved := problems;
    }

    /** `updateWhy`: edits one answer and saves. */
    method UpdateWhy(problemId: int, whyIndex: nat, value: string)
      requires WhyInRange(problems, problemId, whyIndex)
      modifies this
      ensures problems == UpdateWhys(old(problems), problemId, whyIndex, value)
      ensures saved == problems
      ensures expandedProblem == old(expandedProblem) && isAddingProblem == old(isAddingProblem)
    {
      problems := UpdateWhys(problems, problemId, whyIndex, value);
      saved := problems;
    }

    /** `deleteProblem`: removes and saves. */
    method DeleteProblem(problemId: int)
      modifies this
      ensures problems == DeleteProblems(old(problems), problemId)
      ensures saved == problems
      ensures expandedProblem == old(expandedProblem) && isAddingProblem == old(isAddingProblem)
    {
      problems := DeleteProblems(problems, problemId);
      saved := problems;
    }
  }
}
