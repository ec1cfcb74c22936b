/** The strengths step (`EnhancedStrengthsStep`): strengths noted per
    high-skill work task, from tests, and from friends, saved with empty
    entries dropped, plus the de-duplicated lower-case list of all of them. */
module EnhancedStrengthsStep {
  import opened Wrappers
  import opened Lists
  import opened JsText
  import opened Profile

  /** `formData.strengths` as stored, each list possibly absent. */
  datatype StoredStrengths = StoredStrengths(fromWork: Option<seq<WorkStrength>>,
                                             fromTests: Option<seq<string>>,
                                             fromFriends: Option<seq<Friend>>)

  const FiveBlanks: seq<string> := ["", "", "", "", ""]
  const BlankFriend: Friend := Friend("", ["", "", ""])

  /** The task filter of `getHighSkillTasks`. */
  predicate HighSkill(t: Task)
  {
    t.skill >= 2 && (t.skill == 3 || t.energy > 0)
  }

  /** `getHighSkillTasks`: skill 3, or skill 2 with positive energy. */
  function HighSkillTasks(tasks: seq<Task>): (r: seq<Task>)
  {
    Filter(tasks, HighSkill)
  }

  /** The high-skill tasks are exactly the tasks rated at least 2 for skill
      that are either top-rated for skill or energising, in task order. */
  lemma HighSkillTasksProps(tasks: seq<Task>)
    ensures forall t :: t in HighSkillTasks(tasks) <==> t in tasks && t.skill >= 2 && (t.skill == 3 || t.energy > 0)
    ensures IsSubseq(HighSkillTasks(tasks), tasks)
  {
    FilterIsSubseq(tasks, HighSkill);
  }

  /** `existing.find(ws => ws.taskId === id)`. */
  function FindWork(existing: seq<WorkStrength>, taskId: int): (r: Option<WorkStrength>)
    ensures r.Some? ==> r.value in existing && r.value.taskId == taskId
    ensures r.None? ==> forall w :: w in existing ==> w.taskId != taskId
  {
    if existing == [] then None
    else if existing[0].taskId == taskId then Some(existing[0])
    else FindWork(existing[1..], taskId)
  }

  /** The entry the step starts with for one high-skill task. */
  function WorkEntry(t: Task, existing: seq<WorkStrength>): WorkStrength
  {
    var found := FindWork(existing, t.id);
    WorkStrength(t.id, t.name, if found.Some? then found.value.strengths else FiveBlanks)
  }

  /** The initial `workStrengths`. */
  function InitialWork(tasks: seq<Task>, existing: seq<WorkStrength>): (r: seq<WorkStrength>)
  {
    var high := HighSkillTasks(tasks);
    seq(|high|, i requires 0 <= i < |high| => WorkEntry(high[i], existing))
  }

  /** One entry per high-skill task, in order; each reuses the saved
      strengths of the first saved entry for that task, or five blanks. */
  lemma InitialWorkProps(tasks: seq<Task>, existing: seq<WorkStrength>)
    ensures |InitialWork(tasks, existing)| == |HighSkillTasks(tasks)|
    ensures forall i :: 0 <= i < |HighSkillTasks(tasks)| ==>
      var t := HighSkillTasks(tasks)[i];
      var w := InitialWork(tasks, existing)[i];
      w.taskId == t.id && w.taskName == t.name
      && ((exists e :: e in existing && e.taskId == t.id) ==>
            w.strengths == FindWork(existing, t.id).value.strengths)
      && ((forall e :: e in existing ==> e.taskId != t.id) ==> w.strengths == FiveBlanks)
  {
  }

  predicate Filled(s: string) { s != "" }

  /** A friend worth saving: a name and at least one strength. */
  predicate KeepFriend(f: Friend)
  {
    f.name != "" && exists i :: 0 <= i < |f.strengths| && f.strengths[i] != ""
  }

  /** `ws.strengths.filter(s => s)` for one work entry. */
  function CompactWork(w: WorkStrength): WorkStrength
  {
    WorkStrength(w.taskId, w.taskName, Filter(w.strengths, Filled))
  }

  /** `updateStrengthsData`'s record. */
  function Collect(work: seq<WorkStrength>, tests: seq<string>, friends: seq<Friend>): (r: Strengths)
  {
    Strengths(seq(|work|, i requires 0 <= i < |work| => CompactWork(work[i])),
              Filter(tests, Filled),
              Filter(friends, KeepFriend))
  }

  /** The saved record has one work entry per task entry with the same task,
      keeps exactly the non-empty strengths in order, and keeps exactly the
      friends with a name and some strength. */
  lemma CollectProps(work: seq<WorkStrength>, tests: seq<string>, friends: seq<Friend>)
    ensures var r := Collect(work, tests, friends);
      |r.fromWork| == |work|
      && (forall i :: 0 <= i < |work| ==>
            r.fromWork[i].taskId == work[i].taskId && r.fromWork[i].taskName == work[i].taskName
            && IsSubseq(r.fromWork[i].strengths, work[i].strengths)
            && (forall s :: s in r.fromWork[i].strengths <==> s in work[i].strengths && s != ""))
      && IsSubseq(r.fromTests, tests)
      && (forall s :: s in r.fromTests <==> s in tests && s != "")
      && IsSubseq(r.fromFriends, friends)
      && (forall f :: f in r.fromFriends <==> f in friends && KeepFriend(f))
  {
    FilterIsSubseq(tests, Filled);
    FilterIsSubseq(friends, KeepFriend);
    forall i | 0 <= i < |work| ensures IsSubseq(Filter(work[i].strengths, Filled), work[i].strengths) {
      FilterIsSubseq(work[i].strengths, Filled);
    }
  }

  /** The lower-cased forms of the non-empty strings, in order. */
  function Keys(xs: seq<string>): seq<string>
  {
    if xs == [] then [] else Keys(xs[..|xs| - 1]) + (if xs[|xs| - 1] != "" then [Lower(xs[|xs| - 1])] else [])
  }

  lemma {:induction false} KeysMembership(xs: seq<string>, x: string)
    ensures x in Keys(xs) <==> exists s :: s in xs && s != "" && Lower(s) == x
  {
    if xs != [] {
      var init := xs[..|xs| - 1];
      KeysMembership(init, x);
      assert xs == init + [xs[|xs| - 1]];
      if exists s :: s in xs && s != "" && Lower(s) == x {
        var s :| s in xs && s != "" && Lower(s) == x;
        if s != xs[|xs| - 1] {
          assert s in init;
        }
      }
    }
  }

  /** `getAllUniqueStrengths`. */
  function UniqueStrengths(work: seq<WorkStrength>, tests: seq<string>, friends: seq<Friend>): seq<string>
  {
    Distinct([], Keys(FlatWork(work) + tests + FlatFriends(friends)))
  }

  /** The list holds no duplicates, only non-empty lower-case strings, the
      lower-case form of every non-empty strength from work, tests and
      friends and nothing else, in the order they first occur. */
  lemma UniqueStrengthsProps(work: seq<WorkStrength>, tests: seq<string>, friends: seq<Friend>)
    ensures var all := FlatWork(work) + tests + FlatFriends(friends);
      var r := UniqueStrengths(work, tests, friends);
      NoDup(r)
      && (forall x :: x in r <==> exists s :: s in all && s != "" && Lower(s) == x)
      && (forall x :: x in r ==> x != "" && Lower(x) == x)
      && IsSubseq(r, Keys(all))
  {
    var all := FlatWork(work) + tests + FlatFriends(friends);
    var r := UniqueStrengths(work, tests, friends);
    DistinctProps([], Keys(all));
    assert r[0..] == r;
    forall x ensures x in r <==> exists s :: s in all && s != "" && Lower(s) == x {
      KeysMembership(all, x);
    }
    forall x | x in r ensures x != "" && Lower(x) == x {
      KeysMembership(all, x);
      var s :| s in all && s != "" && Lower(s) == x;
      LowerIdempotent(s);
    }
  }

  lemma KeysSnoc(xs: seq<string>, s: string)
    ensures Keys(xs + [s]) == Keys(xs) + (if s != "" then [Lower(s)] else [])
  {
    assert (xs + [s])[..|xs|] == xs;
  }

  lemma {:induction false} KeysConcat(a: seq<string>, b: seq<string>)
    ensures Keys(a + b) == Keys(a) + Keys(b)
  {
    if b != [] {
      assert (a + b)[..|a + b| - 1] == a + b[..|b| - 1];
      KeysConcat(a, b[..|b| - 1]);
    } else {
      assert a + b == a;
    }
  }

  lemma DistinctKeysConcat(acc: seq<string>, a: seq<string>, b: seq<string>)
    ensures Distinct(acc, Keys(a + b)) == Distinct(Distinct(acc, Keys(a)), Keys(b))
  {
    KeysConcat(a, b);
    DistinctConcat(acc, Keys(a), Keys(b));
  }

  /** One inner `forEach`: pushes the lower-case form of every non-empty
      string not yet listed. */
  method PushLower(acc: seq<string>, xs: seq<string>) returns (r: seq<string>)
    ensures r == Distinct(acc, Keys(xs))
  {
    r := acc;
    var j := 0;
    while j < |xs|
      invariant 0 <= j <= |xs|
      invariant r == Distinct(acc, Keys(xs[..j]))
    {
      var s := xs[j];
      assert xs[..j + 1] == xs[..j] + [s];
      KeysSnoc(xs[..j], s);
      if s != "" {
        DistinctSnoc(acc, Keys(xs[..j]), Lower(s));
        if Lower(s) !in r {
          r := r + [Lower(s)];
        }
      } else {
        assert Keys(xs[..j]) + [] == Keys(xs[..j]);
      }
      j := j + 1;
    }
    assert xs[..|xs|] == xs;
  }

  /** The work loop of `getAllUniqueStrengths`. */
  method PushWork(acc: seq<string>, work: seq<WorkStrength>) returns (r: seq<string>)
    ensures r == Distinct(acc, Keys(FlatWork(work)))
  {
    r := acc;
    var i := 0;
    while i < |work|
      invariant 0 <= i <= |work|
      invariant r == Distinct(acc, Keys(FlatWork(work[..i])))
    {
      assert work[..i + 1][..i] == work[..i];
      r := PushLower(r, work[i].strengths);
      DistinctKeysConcat(acc, FlatWork(work[..i]), work[i].strengths);
      i := i + 1;
    }
    assert work[..|work|] == work;
  }

  /** The friends loop of `getAllUniqueStrengths`. */
  method PushFriends(acc: seq<string>, friends: seq<Friend>) returns (r: seq<string>)
    ensures r == Distinct(acc, Keys(FlatFriends(friends)))
  {
    r := acc;
    var i := 0;
    while i < |friends|
      invariant 0 <= i <= |friends|
      invariant r == Distinct(acc, Keys(FlatFriends(friends[..i])))
    {
      assert friends[..i + 1][..i] == friends[..i];
      r := PushLower(r, friends[i].strengths);
      DistinctKeysConcat(acc, FlatFriends(friends[..i]), friends[i].strengths);
      i := i + 1;
    }
    assert friends[..|friends|] == friends;
  }

  /** `removeFriend`: `friends.filter((_, i) => i !== index)`. */
  function RemoveAt<T>(xs: seq<T>, index: int): (r: seq<T>)
  {
    if 0 <= index < |xs| then xs[..index] + xs[index + 1..] else xs
  }

  /** Only the friend at the index goes; the others keep their order. */
  lemma RemoveAtProps<T>(xs: seq<T>, index: int)
    requires 0 <= index < |xs|
    ensures |RemoveAt(xs, index)| == |xs| - 1
    ensures forall i :: 0 <= i < index ==> RemoveAt(xs, index)[i] == xs[i]
    ensures forall i :: index <= i < |xs| - 1 ==> RemoveAt(xs, index)[i] == xs[i + 1]
  {
  }

  /** The friend-form fields: the name, or strength slot `k`. */
  datatype FriendField = Name | Slot(k: nat)

  /** `updateFriendFeedback` on one friend. */
  function SetFriendField(f: Friend, field: FriendField, value: string): Friend
    requires field.Slot? ==> field.k < |f.strengths|
  {
    match field
    case Name => f.(name := value)
    case Slot(k) => f.(strengths := f.strengths[k := value])
  }

  /** As written, a test-strength edit saves the record built from the list
      before the edit: `updateStrengthsData` reads `testStrengths` from the
      same render as the handler. */
  function SavedAfterTestEditAsWritten(work: seq<WorkStrength>, tests: seq<string>, friends: seq<Friend>,
                                       index: nat, value: string): Strengths
    requires index < |tests|
  {
    Collect(work, tests, friends)
  }

  /** Typing "Focus" into the only, empty, test field leaves the saved test
      list empty: the edit is not saved. */
  lemma TestEditLost()
    ensures SavedAfterTestEditAsWritten([], [""], [], 0, "Focus").fromTests == []
    ensures Collect([], [""][0 := "Focus"], []).fromTests == ["Focus"]
  {
    assert Filter([""], Filled) == [];
    assert [""][0 := "Focus"] == ["Focus"];
    assert Filter(["Focus"], Filled) == ["Focus"];
  }

  /** As written, removing a friend saves the record built from the list
      before the removal. */
  function SavedAfterRemoveAsWritten(work: seq<WorkStrength>, tests: seq<string>, friends: seq<Friend>,
                                     index: nat): Strengths
    requires index < |friends|
  {
    Collect(work, tests, friends)
  }

  /** Removing the only friend, who has a name and a strength, leaves that
      friend in the saved record. */
  lemma RemovedFriendStillSaved()
    ensures var f := Friend("Ana", ["Calm"]);
      f in SavedAfterRemoveAsWritten([], [], [f], 0).fromFriends
      && Collect([], [], RemoveAt([f], 0)).fromFriends == []
  {
    var f := Friend("Ana", ["Calm"]);
    assert f.strengths[0] != "";
    assert KeepFriend(f);
    assert Filter([f], KeepFriend) == [f];
  }

  /** Corrected: each edit saves the record built from the edited lists, so
      a non-empty test strength typed in is saved, and a removed friend is
      no longer saved unless another entry equals it. */
  lemma SavedAfterEditsKeepsEdit(work: seq<WorkStrength>, tests: seq<string>, friends: seq<Friend>,
                                 index: nat, value: string)
    requires index < |tests| && value != ""
    ensures value in Collect(work, tests[index := value], friends).fromTests
    ensures index < |friends| && friends[index] !in RemoveAt(friends, index) ==>
      friends[index] !in Collect(work, tests, RemoveAt(friends, index)).fromFriends
  {
    assert tests[index := value][index] == value;
  }

  class StrengthsStep {
    var workStrengths: seq<WorkStrength>
    var testStrengths: seq<string>
    var friendFeedback: seq<Friend>
    /** `formData.strengths` as last written by this step (`None` before). */
    var saved: Option<Strengths>

    /** The step opens on the stored strengths. An absent `strengths` record
        counts as three empty lists; an absent test list as five blanks and
        an absent friend list as three blank friends. */
    constructor(workTasks: seq<Task>, stored: Option<StoredStrengths>)
      ensures var s := if stored.Some? then stored.value else StoredStrengths(Some([]), Some([]), Some([]));
        workStrengths == InitialWork(workTasks, if s.fromWork.Some? then s.fromWork.value else [])
        && testStrengths == (if s.fromTests.Some? then s.fromTests.value else FiveBlanks)
        && friendFeedback == (if s.fromFriends.Some? then s.fromFriends.value
                              else [BlankFriend, BlankFriend, BlankFriend])
      ensures saved.None?
    {
      var s := if stored.Some? then stored.value else StoredStrengths(Some([]), Some([]), Some([]));
      workStrengths := InitialWork(workTasks, if s.fromWork.Some? then s.fromWork.value else []);
      testStrengths := if s.fromTests.Some? then s.fromTests.value else FiveBlanks;
      friendFeedback := if s.fromFriends.Some? then s.fromFriends.value
                        else [BlankFriend, BlankFriend, BlankFriend];
      saved := None;
    }

    /** `updateStrengthsData` on the current lists. */
    method UpdateStrengthsData()
      modifies this
      ensures saved == Some(Collect(workStrengths, testStrengths, friendFeedback))
      ensures workStrengths == old(workStrengths) && testStrengths == old(testStrengths)
      ensures friendFeedback == old(friendFeedback)
    {
      saved := Some(Collect(workStrengths, testStrengths, friendFeedback));
    }

    /** `updateWorkStrength`: one slot of one task's strengths, then saves. */
    method UpdateWorkStrength(taskIndex: nat, strengthIndex: nat, value: string)
      requires taskIndex < |workStrengths| && strengthIndex < |workStrengths[taskIndex].strengths|
      modifies this
      ensures workStrengths == old(workStrengths)[taskIndex := old(workStrengths)[taskIndex].(
                strengths := old(workStrengths)[taskIndex].strengths[strengthIndex := value])]
      ensures testStrengths == old(testStrengths) && friendFeedback == old(friendFeedback)
      ensures saved == Some(Collect(workStrengths, testStrengths, friendFeedback))
    {
      var w := workStrengths[taskIndex];
      workStrengths := workStrengths[taskIndex := w.(strengths := w.strengths[strengthIndex := value])];
      UpdateStrengthsData();
    }

    /** `updateTestStrength`, saving the edited list. */
    method UpdateTestStrength(index: nat, value: string)
      requires index < |testStrengths|
      modifies this
      ensures testStrengths == old(testStrengths)[index := value]
      ensures workStrengths == old(workStrengths) && friendFeedback == old(friendFeedback)
      ensures saved == Some(Collect(workStrengths, testStrengths, friendFeedback))
    {
      testStrengths := testStrengths[index := value];
      UpdateStrengthsData();
    }

    /** `updateFriendFeedback`: the name, or one strength slot, of one friend. */
    method UpdateFriendFeedback(friendIndex: nat, field: FriendField, value: string)
      requires friendIndex < |friendFeedback|
      requires field.Slot? ==> field.k < |friendFeedback[friendIndex].strengths|
      modifies this
      ensures friendFeedback == old(friendFeedback)[friendIndex := SetFriendField(old(friendFeedback)[friendIndex], field, value)]
      ensures workStrengths == old(workStrengths) && testStrengths == old(testStrengths)
      ensures saved == Some(Collect(workStrengths, testStrengths, friendFeedback))
    {
      friendFeedback := friendFeedback[friendIndex := SetFriendField(friendFeedback[friendIndex], field, value)];
      UpdateStrengthsData();
    }

    /** `addFriend`: one blank friend at the end; nothing is saved. */
    method AddFriend()
      modifies this
      ensures friendFeedback == old(friendFeedback) + [BlankFriend]
      ensures workStrengths == old(workStrengths) && testStrengths == old(testStrengths) && saved == old(saved)
    {
      friendFeedback := friendFeedback + [BlankFriend];
    }

    /** `removeFriend`, saving the shortened list. */
    method RemoveFriend(index: nat)
      requires index < |friendFeedback|
      modifies this
      ensures friendFeedback == RemoveAt(old(friendFeedback), index)
      ensures workStrengths == old(workStrengths) && testStrengths == old(testStrengths)
      ensures saved == Some(Collect(workStrengths, testStrengths, friendFeedback))
    {
      friendFeedback := RemoveAt(friendFeedback, index);
      UpdateStrengthsData();
    }

    /** `getAllUniqueStrengths`: work entries, then tests, then friends. */
    method GetAllUniqueStrengths() returns (all: seq<string>)
      ensures all == UniqueStrengths(workStrengths, testStrengths, friendFeedback)
    {
      all := PushWork([], workStrengths);
      all := PushLower(all, testStrengths);
      all := PushFriends(all, friendFeedback);
      var work := FlatWork(workStrengths);
      DistinctKeysConcat([], work, testStrengths);
      DistinctKeysConcat([], work + testStrengths, FlatFriends(friendFeedback));
    }
  }
}
