/** The work-reflection step: each task is rated for energy (-3..3) and skill
    (1..3), derived metrics place it in one cell of a three-by-three
    impact/skill matrix, and the matrix view groups the tasks by cell. */
module WorkReflectionMatrix {
  import opened Wrappers
  import opened Profile
  import Lists

  function ImpactName(c: Impact): string
  {
    match c
    case Negative => "negative"
    case Neutral => "neutral"
    case Positive => "positive"
  }

  function SkillName(s: SkillLevel): string
  {
    match s
    case Low => "low"
    case Medium => "medium"
    case High => "high"
  }

  /** The matrix cell key `${impactCategory}-${skillCategory}`. */
  function CellKey(c: Impact, s: SkillLevel): string
  {
    ImpactName(c) + "-" + SkillName(s)
  }

  /** A cell of the matrix, named by its impact and skill bands. */
  datatype CellId = CellId(impact: Impact, skill: SkillLevel)

  /** The nine cells, in display order. */
  const AllCells: seq<CellId> := [
    CellId(Negative, Low), CellId(Negative, Medium), CellId(Negative, High),
    CellId(Neutral, Low), CellId(Neutral, Medium), CellId(Neutral, High),
    CellId(Positive, Low), CellId(Positive, Medium), CellId(Positive, High)]

  /** Their keys in the matrix object. */
  const MatrixKeys: seq<string> := [
    "negative-low", "negative-medium", "negative-high",
    "neutral-low", "neutral-medium", "neutral-high",
    "positive-low", "positive-medium", "positive-high"]

  lemma AllCellsDistinct()
    ensures |AllCells| == 9 && Lists.NoDup(AllCells)
  {
  }

  lemma AllCellsComplete(c: CellId)
    ensures c in AllCells
  {
    var row := match c.impact case Negative => 0 case Neutral => 3 case Positive => 6;
    var col := match c.skill case Low => 0 case Medium => 1 case High => 2;
    assert AllCells[row + col] == c;
  }

  /** Each cell's key is its `${impactCategory}-${skillCategory}`. */
  lemma MatrixKeysAreCellKeys(i: nat)
    requires i < 9
    ensures MatrixKeys[i] == CellKey(AllCells[i].impact, AllCells[i].skill)
  {
    var c := AllCells[i];
    var row := if i < 3 then "negative" else if i < 6 then "neutral" else "positive";
    var col := if i % 3 == 0 then "low" else if i % 3 == 1 then "medium" else "high";
    assert ImpactName(c.impact) == row;
    assert SkillName(c.skill) == col;
    assert MatrixKeys[i] == row + "-" + col;
  }

  /** Distinct cells have distinct keys, so keying by the pair of bands files
      tasks exactly as keying by the string does. */
  lemma {:induction false} CellKeyInjective(a: CellId, b: CellId)
    requires CellKey(a.impact, a.skill) == CellKey(b.impact, b.skill)
    ensures a == b
  {
    var ka := CellKey(a.impact, a.skill);
    var na := ImpactName(a.impact);
    var nb := ImpactName(b.impact);
    assert ka[2] == na[2] && ka[2] == nb[2];
    assert a.impact == b.impact;
    assert ka[|na| + 1] == SkillName(a.skill)[0] && ka[|na| + 1] == SkillName(b.skill)[0];
  }

  /** Position of a cell in `AllCells`. */
  function CellIndex(c: CellId): (i: nat)
    ensures i < |AllCells| && AllCells[i] == c
  {
    var row := match c.impact case Negative => 0 case Neutral => 3 case Positive => 6;
    var col := match c.skill case Low => 0 case Medium => 1 case High => 2;
    row + col
  }

  /** `calculateTaskMetrics`: enjoyment 3 for an energising task, 1 for a
      draining one, 0 for a neutral one; impact is energy times enjoyment. */
  function TaskMetrics(energy: int, skill: int): (m: Metrics)
    ensures m.impact == energy * m.enjoyment
    ensures (m.impactCategory == Positive <==> energy > 0)
      && (m.impactCategory == Negative <==> energy < 0)
      && (m.impactCategory == Neutral <==> energy == 0)
    ensures (m.skillCategory == Low <==> skill < 2)
      && (m.skillCategory == Medium <==> skill == 2)
      && (m.skillCategory == High <==> skill > 2)
    ensures m.matrixCell == CellKey(m.impactCategory, m.skillCategory)
  {
    var enjoyment := if energy > 0 then 3 else if energy < 0 then 1 else 0;
    var impact := energy * enjoyment;
    var impactCategory := if impact < 0 then Negative else if impact == 0 then Neutral else Positive;
    var skillCategory := if skill < 2 then Low else if skill == 2 then Medium else High;
    Metrics(enjoyment, impact, impactCategory, skillCategory, CellKey(impactCategory, skillCategory))
  }

  /** The task being drafted in the "add task" form. */
  datatype Draft = Draft(name: string, energy: int, skill: int, currentTime: int, futureTime: int)

  const EmptyDraft: Draft := Draft("", 0, 2, 3, 3)

  /** The task `addTask` appends, with the clock reading `now` as its id. */
  function NewTask(d: Draft, now: int): (t: Task)
    ensures t.id == now && t.name == d.name && t.energy == d.energy && t.skill == d.skill
    ensures t.currentTime == d.currentTime && t.futureTime == d.futureTime
    ensures t.metrics == TaskMetrics(d.energy, d.skill)
  {
    Task(now, d.name, d.energy, d.skill, d.currentTime, d.futureTime, TaskMetrics(d.energy, d.skill))
  }

  /** The fields an `updates` object may carry. */
  datatype TaskUpdate = TaskUpdate(name: Option<string>, energy: Option<int>, skill: Option<int>,
                                   currentTime: Option<int>, futureTime: Option<int>)

  function Pick<T>(o: Option<T>, d: T): T
  {
    if o.Some? then o.value else d
  }

  /** `{ ...task, ...updates }` with the metrics recomputed from the result. */
  function Merge(t: Task, u: TaskUpdate): (r: Task)
    ensures r.id == t.id
    ensures r.metrics == TaskMetrics(r.energy, r.skill)
    ensures u == TaskUpdate(None, None, None, None, None) ==> r == t.(metrics := TaskMetrics(t.energy, t.skill))
  {
    var energy := Pick(u.energy, t.energy);
    var skill := Pick(u.skill, t.skill);
    Task(t.id, Pick(u.name, t.name), energy, skill, Pick(u.currentTime, t.currentTime),
         Pick(u.futureTime, t.futureTime), TaskMetrics(energy, skill))
  }

  function UpdateTasks(ts: seq<Task>, id: int, u: TaskUpdate): (r: seq<Task>)
  {
    seq(|ts|, i requires 0 <= i < |ts| => if ts[i].id == id then Merge(ts[i], u) else ts[i])
  }

  /** Only the tasks with the given id change; ids, order and length stay. */
  lemma UpdateTasksKeeps(ts: seq<Task>, id: int, u: TaskUpdate)
    ensures |UpdateTasks(ts, id, u)| == |ts|
    ensures forall i :: 0 <= i < |ts| ==> UpdateTasks(ts, id, u)[i].id == ts[i].id
    ensures forall i :: 0 <= i < |ts| && ts[i].id != id ==> UpdateTasks(ts, id, u)[i] == ts[i]
    ensures forall t :: t in UpdateTasks(ts, id, u) && t.id == id ==> t.metrics == TaskMetrics(t.energy, t.skill)
  {
  }

  function HasOtherId(id: int): Task -> bool
  {
    (t: Task) => t.id != id
  }

  function DeleteTasks(ts: seq<Task>, id: int): seq<Task>
  {
    Lists.Filter(ts, HasOtherId(id))
  }

  /** Deleting removes every task with the id and keeps the others in order. */
  lemma DeleteTasksKeeps(ts: seq<Task>, id: int)
    ensures forall t :: t in DeleteTasks(ts, id) <==> t in ts && t.id != id
    ensures Lists.IsSubseq(DeleteTasks(ts, id), ts)
  {
    Lists.FilterIsSubseq(ts, HasOtherId(id));
  }

  /** The cell `getMatrixData` files a task under, recomputed from its
      ratings: the sign of the energy and the skill band. */
  function CellOf(t: Task): CellId
  {
    var impact := if t.energy < 0 then Negative else if t.energy == 0 then Neutral else Positive;
    var skill := if t.skill < 2 then Low else if t.skill == 2 then Medium else High;
    CellId(impact, skill)
  }

  /** A task's cell has its metrics' categories, so it is the one the
      metrics' `matrixCell` key names. */
  lemma CellOfKey(t: Task)
    ensures var m := TaskMetrics(t.energy, t.skill);
      CellOf(t) == CellId(m.impactCategory, m.skillCategory)
      && CellKey(CellOf(t).impact, CellOf(t).skill) == m.matrixCell
  {
  }

  function InCell(c: CellId): Task -> bool
  {
    (t: Task) => CellOf(t) == c
  }

  function CellTasks(ts: seq<Task>, c: CellId): seq<Task>
  {
    Lists.Filter(ts, InCell(c))
  }

  function WeightSum(ts: seq<Task>, w: Task -> int): int
  {
    if ts == [] then 0 else w(ts[0]) + WeightSum(ts[1..], w)
  }

  function TimeOf(t: Task): int { t.currentTime }

  function One(t: Task): int { 1 }

  /** The sum of `currentTime` over some tasks. */
  function TotalTime(ts: seq<Task>): int
  {
    WeightSum(ts, TimeOf)
  }

  lemma {:induction false} WeightSumConcat(a: seq<Task>, b: seq<Task>, w: Task -> int)
    ensures WeightSum(a + b, w) == WeightSum(a, w) + WeightSum(b, w)
  {
    if a == [] {
      assert a + b == b;
    } else {
      assert (a + b)[1..] == a[1..] + b;
      WeightSumConcat(a[1..], b, w);
    }
  }

  lemma {:induction false} CountIsLength(ts: seq<Task>)
    ensures WeightSum(ts, One) == |ts|
  {
    if ts != [] {
      CountIsLength(ts[1..]);
    }
  }

  /** One cell of the matrix view: its tasks, in order, and their total time. */
  datatype Cell = Cell(tasks: seq<Task>, totalTime: int)

  /** The matrix `getMatrixData` builds: the nine cells in `AllCells` order. */
  function MatrixOf(ts: seq<Task>): (m: seq<Cell>)
    ensures |m| == |AllCells|
  {
    seq(|AllCells|, i requires 0 <= i < |AllCells| =>
      Cell(CellTasks(ts, AllCells[i]), TotalTime(CellTasks(ts, AllCells[i]))))
  }

  /** Appending a task extends only its own cell. */
  lemma CellStep(ts: seq<Task>, t: Task, c: CellId)
    ensures CellTasks(ts + [t], c) == CellTasks(ts, c) + (if CellOf(t) == c then [t] else [])
    ensures TotalTime(CellTasks(ts + [t], c)) == TotalTime(CellTasks(ts, c)) + (if CellOf(t) == c then t.currentTime else 0)
  {
    Lists.FilterConcat(ts, [t], InCell(c));
    assert Lists.Filter([t], InCell(c)) == if CellOf(t) == c then [t] else [];
    WeightSumConcat(CellTasks(ts, c), if CellOf(t) == c then [t] else [], TimeOf);
  }

  /** Filing one more task changes only its own cell. */
  lemma MatrixStep(ts: seq<Task>, t: Task, m: seq<Cell>, k: nat)
    requires m == MatrixOf(ts) && k == CellIndex(CellOf(t))
    ensures k < |m|
    ensures MatrixOf(ts + [t]) == m[k := Cell(m[k].tasks + [t], m[k].totalTime + t.currentTime)]
  {
    AllCellsDistinct();
    forall i | 0 <= i < |AllCells|
      ensures MatrixOf(ts + [t])[i] == m[k := Cell(m[k].tasks + [t], m[k].totalTime + t.currentTime)][i]
    {
      CellStep(ts, t, AllCells[i]);
      assert AllCells[i] == CellOf(t) <==> i == k;
    }
  }

  /** The matrix object's initial value: nine cells, no tasks, no time. */
  function EmptyMatrix(): (m: seq<Cell>)
    ensures |m| == |AllCells|
  {
    seq(9, i => Cell([], 0))
  }

  /** One `forEach` step: that task is pushed onto its cell and its time added. */
  function File(m: seq<Cell>, t: Task): (r: seq<Cell>)
    requires |m| == |AllCells|
    ensures |r| == |AllCells|
  {
    var k := CellIndex(CellOf(t));
    m[k := Cell(m[k].tasks + [t], m[k].totalTime + t.currentTime)]
  }

  /** The tasks filed one by one into the initial matrix. */
  function FileAll(ts: seq<Task>): (r: seq<Cell>)
    ensures |r| == |AllCells|
  {
    if ts == [] then EmptyMatrix() else File(FileAll(ts[..|ts| - 1]), ts[|ts| - 1])
  }

  /** Filing the tasks one by one builds the matrix of all of them. */
  lemma {:induction false} FileAllIsMatrix(ts: seq<Task>)
    ensures FileAll(ts) == MatrixOf(ts)
  {
    if ts == [] {
      MatrixOfEmpty();
    } else {
      var init, t := ts[..|ts| - 1], ts[|ts| - 1];
      assert ts == init + [t];
      FileAllIsMatrix(init);
      var m, k := FileAll(init), CellIndex(CellOf(t));
      var filed := m[k := Cell(m[k].tasks + [t], m[k].totalTime + t.currentTime)];
      assert FileAll(ts) == filed by {
        FileSnoc(init, t);
      }
      assert MatrixOf(ts) == filed by {
        MatrixStep(init, t, m, k);
      }
    }
  }

  /** No tasks: nine empty cells. */
  lemma MatrixOfEmpty()
    ensures MatrixOf([]) == EmptyMatrix()
  {
  }

  /** Filing one more task files it after the others. */
  lemma FileSnoc(init: seq<Task>, t: Task)
    ensures FileAll(init + [t]) == File(FileAll(init), t)
  {
    assert (init + [t])[..|init|] == init;
  }

  /** `getMatrixData`: every task is pushed onto its cell's list and its time
      added to the cell's total. The cell is found from that task's metrics;
      its key names one of the nine cells (`CellIndex`), so the `if
      (matrix[cell])` guard always holds. */
  method GetMatrixData(ts: seq<Task>) returns (m: seq<Cell>)
    ensures m == MatrixOf(ts)
  {
    m := EmptyMatrix();
    var i := 0;
    while i < |ts|
      invariant 0 <= i <= |ts|
      invariant m == FileAll(ts[..i])
    {
      var t := ts[i];
      var k := CellIndex(CellOf(t));
      assert ts[..i + 1][..i] == ts[..i];
      m := m[k := Cell(m[k].tasks + [t], m[k].totalTime + t.currentTime)];
      i := i + 1;
    }
    assert ts[..i] == ts;
    FileAllIsMatrix(ts);
  }

  /** `w` summed cell by cell over `keys`. */
  function CellsWeight(ts: seq<Task>, keys: seq<CellId>, w: Task -> int): int
  {
    if keys == [] then 0 else WeightSum(CellTasks(ts, keys[0]), w) + CellsWeight(ts, keys[1..], w)
  }

  lemma {:induction false} CellsWeightCons(t: Task, rest: seq<Task>, keys: seq<CellId>, w: Task -> int)
    requires Lists.NoDup(keys)
    ensures CellsWeight([t] + rest, keys, w) == CellsWeight(rest, keys, w) + (if CellOf(t) in keys then w(t) else 0)
  {
    if keys != [] {
      var k := keys[0];
      var ts := [t] + rest;
      assert ts[0] == t && ts[1..] == rest;
      assert CellTasks(ts, k) == (if CellOf(t) == k then [t] else []) + CellTasks(rest, k);
      WeightSumConcat(if CellOf(t) == k then [t] else [], CellTasks(rest, k), w);
      assert Lists.NoDup(keys[1..]) by {
        forall i, j | 0 <= i < j < |keys[1..]| ensures keys[1..][i] != keys[1..][j] {
          assert keys[1..][i] == keys[i + 1] && keys[1..][j] == keys[j + 1];
        }
      }
      CellsWeightCons(t, rest, keys[1..], w);
      assert CellOf(t) in keys <==> CellOf(t) == k || CellOf(t) in keys[1..] by {
        assert keys == [k] + keys[1..];
      }
      if CellOf(t) == k {
        assert CellOf(t) !in keys[1..] by {
          forall j | 0 <= j < |keys[1..]| ensures keys[1..][j] != k {
            assert keys[1..][j] == keys[j + 1];
          }
        }
      }
    }
  }

  /** The nine cells partition the tasks: any per-task quantity summed cell
      by cell equals its sum over all tasks. */
  lemma {:induction false} CellsPartition(ts: seq<Task>, w: Task -> int)
    ensures CellsWeight(ts, AllCells, w) == WeightSum(ts, w)
  {
    if ts == [] {
      assert CellsWeight(ts, AllCells, w) == 0 by {
        EmptyCellsWeight(AllCells, w);
      }
    } else {
      AllCellsDistinct();
      AllCellsComplete(CellOf(ts[0]));
      assert ts == [ts[0]] + ts[1..];
      CellsWeightCons(ts[0], ts[1..], AllCells, w);
      CellsPartition(ts[1..], w);
    }
  }

  lemma {:induction false} EmptyCellsWeight(keys: seq<CellId>, w: Task -> int)
    ensures CellsWeight([], keys, w) == 0
  {
    if keys != [] {
      EmptyCellsWeight(keys[1..], w);
    }
  }

  /** The cell counts sum to the number of tasks, and the cell totals to the
      total current time. */
  lemma MatrixTotals(ts: seq<Task>)
    ensures CellsWeight(ts, AllCells, One) == |ts|
    ensures CellsWeight(ts, AllCells, TimeOf) == TotalTime(ts)
  {
    CellsPartition(ts, One);
    CountIsLength(ts);
    CellsPartition(ts, TimeOf);
  }

  /** A task of the list sits in exactly one cell: its own. */
  lemma TaskInOneCell(ts: seq<Task>, t: Task, i: nat)
    requires t in ts && i < |AllCells|
    ensures t in MatrixOf(ts)[i].tasks <==> i == CellIndex(CellOf(t))
  {
    AllCellsDistinct();
  }

  /** The work-reflection step's state: the list of tasks, the add-task draft,
      and `saved`, the `workTasks` value last passed to `updateFormData`. */
  class TaskBoard {
    var tasks: seq<Task>
    var draft: Draft
    var isAddingTask: bool
    var saved: seq<Task>

    constructor(workTasks: seq<Task>)
      ensures tasks == workTasks && saved == workTasks
      ensures draft == EmptyDraft && !isAddingTask
    {
      tasks := workTasks;
      saved := workTasks;
      draft := EmptyDraft;
      isAddingTask := false;
    }

    /** The "Add a task" button. */
    method StartAdding()
      modifies this
      ensures isAddingTask
      ensures tasks == old(tasks) && saved == old(saved) && draft == old(draft)
    {
      isAddingTask := true;
    }

    /** The draft form's inputs. */
    method EditDraft(d: Draft)
      modifies this
      ensures draft == d
      ensures tasks == old(tasks) && saved == old(saved) && isAddingTask == old(isAddingTask)
    {
      draft := d;
    }

    /** The cancel button: closes the form and resets the draft. */
    method CancelAdding()
      modifies this
      ensures !isAddingTask && draft == EmptyDraft
      ensures tasks == old(tasks) && saved == old(saved)
    {
      isAddingTask := false;
      draft := EmptyDraft;
    }

    /** `addTask`: a draft with a name is appended as a new task with its
        metrics, saved, and the form reset; a nameless draft changes nothing. */
    method AddTask(now: int)
      modifies this
      ensures old(draft.name) != "" ==>
        tasks == old(tasks) + [NewTask(old(draft), now)] && saved == tasks
        && draft == EmptyDraft && !isAddingTask
      ensures old(draft.name) == "" ==>
        tasks == old(tasks) && saved == old(saved) && draft == old(draft) && isAddingTask == old(isAddingTask)
    {
      if draft.name != "" {
        tasks := tasks + [NewTask(draft, now)];
        saved := tasks;
        draft := EmptyDraft;
        isAddingTask := false;
      }
    }

    /** `updateTask`: merges the updates into the tasks with the id. */
    method UpdateTask(id: int, u: TaskUpdate)
      modifies this
      ensures tasks == UpdateTasks(old(tasks), id, u) && saved == tasks
      ensures draft == old(draft) && isAddingTask == old(isAddingTask)
    {
      tasks := UpdateTasks(tasks, id, u);
      saved := tasks;
    }

    /** `deleteTask`: drops every task with the id. */
    method DeleteTask(id: int)
      modifies this
      ensures tasks == DeleteTasks(old(tasks), id) && saved == tasks
      ensures draft == old(draft) && isAddingTask == old(isAddingTask)
    {
      tasks := DeleteTasks(tasks, id);
      saved := tasks;
    }
  }
}
