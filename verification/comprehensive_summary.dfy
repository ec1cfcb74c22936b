/** The figures the summary step (`ComprehensiveSummary`) derives from the
    assessment record: completion, the top problems and requirements, the
    energy balance, the distinct strengths and the dream-job insights. */
module ComprehensiveSummary {
  import opened Wrappers
  import opened Json
  import opened Lists
  import opened JsMath
  import opened Profile
  import Sorting

  /** The six core sections. */
  const CoreSteps: seq<int> := [1, 2, 3, 4, 5, 6]

  /** `step => completedSteps.includes(step)`. */
  function InList(completed: seq<int>): int -> bool
  {
    s => s in completed
  }

  /** `requiredSteps.filter(step => completedSteps.includes(step)).length`. */
  function CoreDone(completed: seq<int>): (n: nat)
    ensures n <= 6
  {
    Count(CoreSteps, InList(completed))
  }

  /** `Math.min(Math.round((completed / 6) * 100), 100)`. */
  function RateOf(done: nat): int
  {
    Min(Round(done as real / 6.0 * 100.0), 100)
  }

  /** `getCompletionRate`. */
  function CompletionRate(completed: seq<int>): (r: int)
  {
    RateOf(CoreDone(completed))
  }

  /** Up to six sections give a rate in [0, 100] that is 100 exactly at six
      and grows with the count. */
  lemma RateOfProps(x: nat, y: nat)
    requires x <= 6 && y <= 6
    ensures 0 <= RateOf(x) <= 100
    ensures RateOf(x) == 100 <==> x == 6
    ensures x <= y ==> RateOf(x) <= RateOf(y)
  {
    var r := x as real / 6.0 * 100.0;
    RoundBounds(r, 0, 100);
    if x == 6 {
      RoundInt(100);
    } else {
      RoundMonotone(r, 500.0 / 6.0);
    }
    if x <= y {
      RoundMonotone(r, y as real / 6.0 * 100.0);
    }
  }

  /** The rate lies in [0, 100], and is 100 exactly when all six core
      sections are listed. */
  lemma CompletionRateFull(completed: seq<int>)
    ensures 0 <= CompletionRate(completed) <= 100
    ensures CompletionRate(completed) == 100 <==> forall s :: 1 <= s <= 6 ==> s in completed
  {
    RateOfProps(CoreDone(completed), 0);
    CoreDoneAll(completed);
  }

  /** All six core sections count exactly when each of 1..6 is listed. */
  lemma CoreDoneAll(completed: seq<int>)
    ensures CoreDone(completed) == 6 <==> forall s :: 1 <= s <= 6 ==> s in completed
  {
    ListedAllRange(CoreSteps, completed, 6);
  }

  /** On the steps 1..n, all steps count exactly when each is listed. */
  lemma ListedAllRange(steps: seq<int>, completed: seq<int>, n: nat)
    requires |steps| == n && forall i :: 0 <= i < n ==> steps[i] == i + 1
    ensures Count(steps, InList(completed)) == n <==> forall s :: 1 <= s <= n ==> s in completed
  {
    ListedAll(steps, completed);
    if forall i :: 0 <= i < n ==> steps[i] in completed {
      forall s | 1 <= s <= n ensures s in completed {
        assert steps[s - 1] == s;
      }
    }
  }

  /** Every step is listed exactly when all of them count. */
  lemma ListedAll(steps: seq<int>, completed: seq<int>)
    ensures Count(steps, InList(completed)) == |steps| <==> forall i :: 0 <= i < |steps| ==> steps[i] in completed
  {
    if forall i :: 0 <= i < |steps| ==> steps[i] in completed {
      FilterAll(steps, InList(completed));
    } else {
      var i :| 0 <= i < |steps| && steps[i] !in completed;
      FilterDropsOne(steps, InList(completed), i);
    }
  }

  /** Listing more core sections never lowers the rate, so ids outside 1..6
      and repeated ids change nothing. */
  lemma CompletionRateMonotone(a: seq<int>, b: seq<int>)
    requires forall s :: 1 <= s <= 6 && s in a ==> s in b
    ensures CompletionRate(a) <= CompletionRate(b)
  {
    CoreListedMonotone(a, b);
    RateOfProps(CoreDone(a), CoreDone(b));
  }

  lemma CoreListedMonotone(a: seq<int>, b: seq<int>)
    requires forall s :: 1 <= s <= 6 && s in a ==> s in b
    ensures CoreDone(a) <= CoreDone(b)
  {
    assert forall i :: 0 <= i < 6 ==> CoreSteps[i] == i + 1;
    ListedMonotone(CoreSteps, a, b);
  }

  lemma ListedMonotone(steps: seq<int>, a: seq<int>, b: seq<int>)
    requires forall i :: 0 <= i < |steps| && steps[i] in a ==> steps[i] in b
    ensures Count(steps, InList(a)) <= Count(steps, InList(b))
  {
    FilterMonotone(steps, InList(a), InList(b));
  }

  /** `[1,2,3,4,5,6,7,8].includes(step)`. */
  predicate IsSection(s: int) { 1 <= s <= 8 }

  /** The completed-sections count shown: listed ids in 1..8, at most 8. */
  function CompletedSections(completed: seq<int>): int
  {
    Min(Count(completed, IsSection), 8)
  }

  /** The count lies in [0, 8]; on a list without duplicates the cap never
      applies. */
  lemma CompletedSectionsProps(completed: seq<int>)
    ensures 0 <= CompletedSections(completed) <= 8
    ensures NoDup(completed) ==> CompletedSections(completed) == Count(completed, IsSection)
  {
    if NoDup(completed) {
      NoDupFilter(completed, IsSection);
      DistinctSections(Filter(completed, IsSection));
    }
  }

  lemma {:induction false} NoDupFilter<T>(s: seq<T>, p: T -> bool)
    requires NoDup(s)
    ensures NoDup(Filter(s, p))
  {
    if s != [] {
      assert NoDup(s[1..]) by {
        forall i, j | 0 <= i < j < |s[1..]| ensures s[1..][i] != s[1..][j] {
          assert s[1..][i] == s[i + 1] && s[1..][j] == s[j + 1];
        }
      }
      NoDupFilter(s[1..], p);
      assert s[0] !in s[1..] by {
        forall k | 0 <= k < |s[1..]| ensures s[1..][k] != s[0] {
          assert s[1..][k] == s[k + 1];
        }
      }
    }
  }

  /** Distinct section ids number at most eight. */
  lemma DistinctSections(s: seq<int>)
    requires NoDup(s)
    requires forall x :: x in s ==> IsSection(x)
    ensures |s| <= 8
  {
    var ids := set x | x in s;
    SetOfDistinct(s);
    assert ids <= {1, 2, 3, 4, 5, 6, 7, 8};
    SubsetCard(ids, {1, 2, 3, 4, 5, 6, 7, 8});
  }

  /** A list without duplicates has as many distinct elements as entries. */
  lemma {:induction false} SetOfDistinct(s: seq<int>)
    requires NoDup(s)
    ensures |set x | x in s| == |s|
  {
    if s != [] {
      assert NoDup(s[1..]) by {
        forall i, j | 0 <= i < j < |s[1..]| ensures s[1..][i] != s[1..][j] {
          assert s[1..][i] == s[i + 1] && s[1..][j] == s[j + 1];
        }
      }
      SetOfDistinct(s[1..]);
      assert s[0] !in s[1..] by {
        forall k | 0 <= k < |s[1..]| ensures s[1..][k] != s[0] {
          assert s[1..][k] == s[k + 1];
        }
      }
      assert (set x | x in s) == (set x | x in s[1..]) + {s[0]};
    }
  }

  lemma SubsetCard(a: set<int>, b: set<int>)
    requires a <= b
    ensures |a| <= |b|
  {
    assert b == a + (b - a);
  }

  /** What the summary shows of a problem. */
  datatype ProblemSummary = ProblemSummary(problem: string, rootCause: string, nextStep: string, category: string)

  predicate Analysed(p: Problem) { p.problem != "" && p.rootCause != "" }

  function Summarise(p: Problem): ProblemSummary
  {
    ProblemSummary(p.problem, p.rootCause, p.nextStep, p.category)
  }

  /** `getTopProblems`. */
  function TopProblems(problems: seq<Problem>): (r: seq<ProblemSummary>)
  {
    var kept := Take(Filter(problems, Analysed), 3);
    seq(|kept|, i requires 0 <= i < |kept| => Summarise(kept[i]))
  }

  /** At most three, each with a problem and a root cause and the summary of
      one of the problems, the first analysed problems in their original
      order; three whenever three are analysed. */
  lemma TopProblemsProps(problems: seq<Problem>)
    ensures |TopProblems(problems)| <= 3
    ensures forall s :: s in TopProblems(problems) ==>
      s.problem != "" && s.rootCause != "" && s in Summaries(problems)
    ensures |Filter(problems, Analysed)| >= 3 ==> |TopProblems(problems)| == 3
    ensures TopProblems(problems) == Summaries(Filter(problems, Analysed)[..|TopProblems(problems)|])
  {
    var f := Filter(problems, Analysed);
    var kept := Take(f, 3);
    var r := TopProblems(problems);
    assert |r| == |kept| && kept == f[..|r|];
    assert r == Summaries(kept);
    forall s | s in r ensures s.problem != "" && s.rootCause != "" && s in Summaries(problems) {
      var i :| 0 <= i < |r| && r[i] == s;
      assert kept[i] in f;
      SummaryOfMember(problems, kept[i]);
    }
  }

  /** The summary of a listed problem is among the summaries. */
  lemma SummaryOfMember(ps: seq<Problem>, p: Problem)
    requires p in ps
    ensures Summarise(p) in Summaries(ps)
  {
    var j :| 0 <= j < |ps| && ps[j] == p;
    assert Summaries(ps)[j] == Summarise(p);
  }

  function Summaries(ps: seq<Problem>): seq<ProblemSummary>
  {
    seq(|ps|, i requires 0 <= i < |ps| => Summarise(ps[i]))
  }

  /** `getEnergyBalance`. */
  datatype EnergyBalance = EnergyBalance(energizing: nat, draining: nat, neutral: nat, total: nat)

  function EnergyBalanceOf(tasks: seq<Task>): EnergyBalance
  {
    EnergyBalance(Count(tasks, (t: Task) => t.energy > 0), Count(tasks, (t: Task) => t.energy < 0),
                  Count(tasks, (t: Task) => t.energy == 0), |tasks|)
  }

  /** Every task is exactly one of energising, draining or neutral. */
  lemma {:induction false} EnergyBalanceSums(tasks: seq<Task>)
    ensures var b := EnergyBalanceOf(tasks);
      b.energizing + b.draining + b.neutral == b.total
  {
    if tasks != [] {
      EnergyBalanceSums(tasks[1..]);
    }
  }

  /** What the summary shows of a requirement. */
  datatype RequirementSummary = RequirementSummary(name: string, importance: int, currentMatch: int, gap: int)

  /** `getTopRequirements`; an unset rank or match (0) reads as 0. */
  function TopRequirements(reqs: seq<Requirement>): (r: seq<RequirementSummary>)
  {
    var kept := Take(reqs, 5);
    seq(|kept|, i requires 0 <= i < |kept| =>
      RequirementSummary(kept[i].name, kept[i].rank, kept[i].currentMatch, 5 - kept[i].currentMatch))
  }

  /** The first five requirements in order, each gap being what the match
      lacks of 5. */
  lemma TopRequirementsProps(reqs: seq<Requirement>)
    ensures var r := TopRequirements(reqs);
      |r| == Min(|reqs|, 5)
      && forall i :: 0 <= i < |r| ==>
           r[i].name == reqs[i].name && r[i].importance == reqs[i].rank
           && r[i].gap + r[i].currentMatch == 5 && r[i].currentMatch == reqs[i].currentMatch
  {
  }

  predicate Filled(s: string) { s != "" }

  /** `getAllStrengths`: the non-empty strengths of work, tests and friends,
      each once, in the order first added to the set. */
  function AllStrengths(s: Strengths): seq<string>
  {
    Distinct([], Filter(FlatWork(s.fromWork) + s.fromTests + FlatFriends(s.fromFriends), Filled))
  }

  /** No duplicates, no empty string, exactly the strengths entered, in
      first-occurrence order. */
  lemma AllStrengthsProps(s: Strengths)
    ensures var all := FlatWork(s.fromWork) + s.fromTests + FlatFriends(s.fromFriends);
      var r := AllStrengths(s);
      NoDup(r)
      && (forall x :: x in r <==> x in all && x != "")
      && IsSubseq(r, all)
  {
    var all := FlatWork(s.fromWork) + s.fromTests + FlatFriends(s.fromFriends);
    var f := Filter(all, Filled);
    DistinctProps([], f);
    FilterIsSubseq(all, Filled);
    assert AllStrengths(s)[0..] == AllStrengths(s);
    SubseqTrans(AllStrengths(s), f, all);
  }

  /** One `forEach` adding the non-empty strings to the set. */
  method AddFilled(acc: seq<string>, xs: seq<string>) returns (r: seq<string>)
    ensures r == Distinct(acc, Filter(xs, Filled))
  {
    r := acc;
    var j := 0;
    while j < |xs|
      invariant 0 <= j <= |xs|
      invariant r == Distinct(acc, Filter(xs[..j], Filled))
    {
      ghost var before := Filter(xs[..j], Filled);
      assert Filter(xs[..j + 1], Filled) == before + Filter([xs[j]], Filled) by {
        assert xs[..j + 1] == xs[..j] + [xs[j]];
        FilterConcat(xs[..j], [xs[j]], Filled);
      }
      if xs[j] != "" {
        assert Filter([xs[j]], Filled) == [xs[j]];
        DistinctSnoc(acc, before, xs[j]);
        if xs[j] !in r {
          r := r + [xs[j]];
        }
      } else {
        assert Filter([xs[j]], Filled) == [];
        assert before + [] == before;
      }
      j := j + 1;
    }
    assert xs[..|xs|] == xs;
  }

  lemma DistinctFilterConcat(acc: seq<string>, a: seq<string>, b: seq<string>)
    ensures Distinct(acc, Filter(a + b, Filled)) == Distinct(Distinct(acc, Filter(a, Filled)), Filter(b, Filled))
  {
    FilterConcat(a, b, Filled);
    DistinctConcat(acc, Filter(a, Filled), Filter(b, Filled));
  }

  /** The loop over `fromWork`. */
  method AddWork(acc: seq<string>, work: seq<WorkStrength>) returns (r: seq<string>)
    ensures r == Distinct(acc, Filter(FlatWork(work), Filled))
  {
    r := acc;
    var i := 0;
    while i < |work|
      invariant 0 <= i <= |work|
      invariant r == Distinct(acc, Filter(FlatWork(work[..i]), Filled))
    {
      assert work[..i + 1][..i] == work[..i];
      r := AddFilled(r, work[i].strengths);
      DistinctFilterConcat(acc, FlatWork(work[..i]), work[i].strengths);
      i := i + 1;
    }
    assert work[..|work|] == work;
  }

  /** The loop over `fromFriends`. */
  method AddFriends(acc: seq<string>, friends: seq<Friend>) returns (r: seq<string>)
    ensures r == Distinct(acc, Filter(FlatFriends(friends), Filled))
  {
    r := acc;
    var k := 0;
    while k < |friends|
      invariant 0 <= k <= |friends|
      invariant r == Distinct(acc, Filter(FlatFriends(friends[..k]), Filled))
    {
      assert friends[..k + 1][..k] == friends[..k];
      r := AddFilled(r, friends[k].strengths);
      DistinctFilterConcat(acc, FlatFriends(friends[..k]), friends[k].strengths);
      k := k + 1;
    }
    assert friends[..|friends|] == friends;
  }

  /** The set-building loops of `getAllStrengths`. */
  method GetAllStrengths(s: Strengths) returns (r: seq<string>)
    ensures r == AllStrengths(s)
  {
    var work := FlatWork(s.fromWork);
    r := AddWork([], s.fromWork);
    r := AddFilled(r, s.fromTests);
    DistinctFilterConcat([], work, s.fromTests);
    r := AddFriends(r, s.fromFriends);
    DistinctFilterConcat([], work + s.fromTests, FlatFriends(s.fromFriends));
  }

  /** `getDreamJobInsights`. */
  datatype Insights = Insights(hasVision: bool, topCategories: seq<(string, int)>)

  function Rating(c: (string, int)): int { c.1 }

  predicate Strong(c: (string, int)) { c.1 >= 4 }

  function DreamJobInsights(d: DreamJob): Insights
  {
    Insights(exists i :: 0 <= i < |d.vision| && d.vision[i].1 != "",
             Sorting.SortDesc(Filter(d.categories, Strong), Rating))
  }

  /** The top categories are exactly the categories rated 4 or more, each as
      often as rated, by non-increasing rating with ties in entry order;
      `hasVision` holds iff some vision answer is non-empty. */
  lemma DreamJobInsightsProps(d: DreamJob, k: int)
    ensures var r := DreamJobInsights(d).topCategories;
      multiset(r) == multiset(Filter(d.categories, Strong))
      && (forall c :: c in r <==> c in d.categories && c.1 >= 4)
      && Sorting.SortedDesc(r, Rating)
      && Sorting.WithKey(r, Rating, k) == Sorting.WithKey(Filter(d.categories, Strong), Rating, k)
    ensures DreamJobInsights(d).hasVision <==> exists v :: v in d.vision && v.1 != ""
  {
    TopCategoriesProps(d.categories, k);
    VisionIff(d.vision);
  }

  /** The top categories: the strong ones, sorted stably by rating. */
  lemma TopCategoriesProps(cats: seq<(string, int)>, k: int)
    ensures var f := Filter(cats, Strong);
      var r := Sorting.SortDesc(f, Rating);
      multiset(r) == multiset(f)
      && (forall c :: c in r <==> c in cats && c.1 >= 4)
      && Sorting.SortedDesc(r, Rating)
      && Sorting.WithKey(r, Rating, k) == Sorting.WithKey(f, Rating, k)
  {
    var f := Filter(cats, Strong);
    var r := Sorting.SortDesc(f, Rating);
    assert multiset(r) == multiset(f) && Sorting.SortedDesc(r, Rating) by {
      Sorting.SortDescSorted(f, Rating);
    }
    assert Sorting.WithKey(r, Rating, k) == Sorting.WithKey(f, Rating, k) by {
      Sorting.SortDescStable(f, Rating, k);
    }
    assert forall c :: c in r <==> c in cats && c.1 >= 4 by {
      SameMembers(r, f);
      StrongMembers(cats);
    }
  }

  /** The strong categories are those rated 4 or more. */
  lemma StrongMembers(cats: seq<(string, int)>)
    ensures forall c :: c in Filter(cats, Strong) <==> c in cats && c.1 >= 4
  {
    forall c ensures c in Filter(cats, Strong) <==> c in cats && c.1 >= 4 {
      assert Strong(c) <==> c.1 >= 4;
    }
  }

  /** Sequences with the same multiset have the same members. */
  lemma SameMembers<T>(r: seq<T>, f: seq<T>)
    requires multiset(r) == multiset(f)
    ensures forall c :: c in r <==> c in f
  {
    forall c ensures c in r <==> c in f {
      assert c in r <==> c in multiset(r);
      assert c in f <==> c in multiset(f);
    }
  }

  /** Some vision answer is non-empty, by index or by membership. */
  lemma VisionIff(vision: seq<(string, string)>)
    ensures (exists i :: 0 <= i < |vision| && vision[i].1 != "") <==> exists v :: v in vision && v.1 != ""
  {
    if exists v :: v in vision && v.1 != "" {
      var v :| v in vision && v.1 != "";
      var i :| 0 <= i < |vision| && vision[i] == v;
    }
  }

  /** `formData.dreamJob?.selectedArchetypes?.[0] || null`. */
  function CareerArchetype(d: DreamJob): (r: Option<string>)
  {
    if d.selectedArchetypes != [] && d.selectedArchetypes[0] != "" then Some(d.selectedArchetypes[0]) else None
  }

  /** The archetype is the first selected one, and none when nothing is
      selected. */
  lemma CareerArchetypeProps(d: DreamJob)
    ensures CareerArchetype(d).Some? ==> CareerArchetype(d).value == d.selectedArchetypes[0]
    ensures d.selectedArchetypes == [] ==> CareerArchetype(d).None?
  {
  }

  /** The running value of `reduce((a, b) => a + b, 0)` over the values of the
      stored wheel object: a number while only numbers have been added; adding
      an object makes `+` concatenate strings, giving a string that holds
      "[object Object]", and every later `+` concatenates again. */
  datatype Total = Number(x: real) | Concatenated

  /** The values a wheel object holds: area scores and the justifications
      object. */
  predicate WheelValue(v: Value) { v.Num? || v.Obj? }

  function Plus(acc: Total, v: Value): Total
    requires WheelValue(v)
  {
    if acc.Number? && v.Num? then Number(acc.x + v.n) else Concatenated
  }

  /** `Object.values(wheel).reduce((a, b) => a + b, 0)`. */
  function Reduce(values: seq<Value>): Total
    requires forall i :: 0 <= i < |values| ==> WheelValue(values[i])
  {
    if values == [] then Number(0.0)
    else Plus(Reduce(values[..|values| - 1]), values[|values| - 1])
  }

  /** `lifeBalanceScore` as written. A string holding '[' never converts to
      a number, so a concatenated total divides to NaN. */
  function LifeBalanceAsWritten(wheel: seq<(string, Value)>): Value
    requires forall i :: 0 <= i < |wheel| ==> WheelValue(wheel[i].1)
  {
    var values := seq(|wheel|, i requires 0 <= i < |wheel| => wheel[i].1);
    match Reduce(values)
    case Number(x) => Num(Round(x / 8.0 * 10.0) as real / 10.0)
    case Concatenated => NaN
  }

  /** Once an object has been added, the total stays concatenated. */
  lemma {:induction false} ReduceWithObject(values: seq<Value>, k: nat)
    requires forall i :: 0 <= i < |values| ==> WheelValue(values[i])
    requires k < |values| && values[k].Obj?
    ensures Reduce(values) == Concatenated
  {
    if k < |values| - 1 {
      ReduceWithObject(values[..|values| - 1], k);
    }
  }

  /** As written: any wheel holding an object among its values, such as the
      justifications object the wheel step adds once a justification is
      typed, stores NaN as the life-balance score. */
  lemma LifeBalanceNaN(wheel: seq<(string, Value)>)
    requires forall i :: 0 <= i < |wheel| ==> WheelValue(wheel[i].1)
    requires exists i :: 0 <= i < |wheel| && wheel[i].1.Obj?
    ensures LifeBalanceAsWritten(wheel) == NaN
  {
    var k :| 0 <= k < |wheel| && wheel[k].1.Obj?;
    ReduceWithObject(seq(|wheel|, i requires 0 <= i < |wheel| => wheel[i].1), k);
  }

  /** The eight area scores at 0, in the order the app lists the areas. */
  function ZeroAreas(): seq<(string, Value)>
  {
    seq(8, i requires 0 <= i < 8 => (LifeAreas[i], Num(0.0)))
  }

  /** The wheel a new assessment starts from: every area at 0 and no
      justifications object. */
  function NewAssessmentWheel(): seq<(string, Value)>
  {
    ZeroAreas()
  }

  /** The new-assessment wheel after a justification has been typed for
      `area`: the spread keeps the eight scores and appends the
      justifications object. */
  function JustifiedWheel(area: string, text: string): seq<(string, Value)>
  {
    ZeroAreas() + [("justifications", Obj([(area, Str(text))]))]
  }

  /** As written, the wheel of a new assessment, numbers only, stores 0. */
  lemma NewAssessmentWheelScore()
    ensures LifeBalanceAsWritten(NewAssessmentWheel()) == Num(0.0)
    ensures LifeBalanceScore(NewAssessmentWheel()) == 0.0
  {
    var w := NewAssessmentWheel();
    var values := seq(|w|, i requires 0 <= i < |w| => w[i].1);
    assert Reduce(values) == Number(0.0) by {
      ReduceZeros(values);
    }
    assert RealSum(AreaValues(w)) == 0.0 by {
      AreaValuesZeros(w);
      RealSumZeros(AreaValues(w));
    }
    RoundInt(0);
  }

  /** As written: once one justification has been typed on the wheel of a
      new assessment, whose areas average 0, the stored score is NaN. */
  lemma JustifiedWheelNaN(area: string, text: string)
    ensures LifeBalanceAsWritten(JustifiedWheel(area, text)) == NaN
    ensures LifeBalanceScore(JustifiedWheel(area, text)) == 0.0
  {
    var w := JustifiedWheel(area, text);
    assert LifeBalanceAsWritten(w) == NaN by {
      assert w[8].1.Obj?;
      LifeBalanceNaN(w);
    }
    assert RealSum(AreaValues(w)) == 0.0 by {
      AreaValuesZeros(w);
      RealSumZeros(AreaValues(w));
    }
    RoundInt(0);
  }

  /** Numbers that are all 0 add up to the number 0. */
  lemma {:induction false} ReduceZeros(values: seq<Value>)
    requires forall i :: 0 <= i < |values| ==> values[i] == Num(0.0)
    ensures Reduce(values) == Number(0.0)
  {
    if values != [] {
      ReduceZeros(values[..|values| - 1]);
    }
  }

  /** Zeros add up to zero. */
  lemma {:induction false} RealSumZeros(s: seq<real>)
    requires forall i :: 0 <= i < |s| ==> s[i] == 0.0
    ensures RealSum(s) == 0.0
  {
    if s != [] {
      RealSumZeros(s[1..]);
    }
  }

  /** A wheel that starts with the eight zero scores reads 0 for every area. */
  lemma AreaValuesZeros(w: seq<(string, Value)>)
    requires |w| >= 8 && w[..8] == ZeroAreas()
    ensures AreaValues(w) == [0.0, 0.0, 0.0, 0.0, 0.0, 0.0, 0.0, 0.0]
  {
    forall i | 0 <= i < 8 ensures AreaValue(w, LifeAreas[i]) == 0.0 {
      assert w[i] == w[..8][i] == (LifeAreas[i], Num(0.0));
      LookupFirst(w, i);
    }
  }

  /** A key found at an index is read from there when no earlier property
      has the same name. */
  lemma {:induction false} LookupFirst(fields: seq<(string, Value)>, k: nat)
    requires k < |fields| && forall j :: 0 <= j < k ==> fields[j].0 != fields[k].0
    ensures Lookup(fields, fields[k].0) == Some(fields[k].1)
  {
    if k > 0 {
      LookupFirst(fields[1..], k - 1);
    }
  }

  /** `wheel[area] || 0` for a numeric score. */
  function AreaValue(wheel: seq<(string, Value)>, area: string): real
  {
    match Lookup(wheel, area)
    case Some(Num(n)) => n
    case _ => 0.0
  }

  function AreaValues(wheel: seq<(string, Value)>): (r: seq<real>)
    ensures |r| == 8
  {
    seq(8, i requires 0 <= i < 8 => AreaValue(wheel, LifeAreas[i]))
  }

  function RealSum(s: seq<real>): real
  {
    if s == [] then 0.0 else s[0] + RealSum(s[1..])
  }

  /** The evidently intended score: the mean of the eight area scores, to
      one decimal. */
  function LifeBalanceScore(wheel: seq<(string, Value)>): real
  {
    Round(RealSum(AreaValues(wheel)) / 8.0 * 10.0) as real / 10.0
  }

  /** Corrected: with every area score in -3..3 the score is a number in
      -3..3 whatever else the wheel holds. */
  lemma LifeBalanceScoreRange(wheel: seq<(string, Value)>)
    requires forall a :: a in LifeAreas ==> -3.0 <= AreaValue(wheel, a) <= 3.0
    ensures -3.0 <= LifeBalanceScore(wheel) <= 3.0
  {
    var v := AreaValues(wheel);
    assert forall i :: 0 <= i < 8 ==> LifeAreas[i] in LifeAreas;
    RealSumBounds(v);
    var x := RealSum(v) / 8.0 * 10.0;
    RoundBounds(x, -30, 30);
  }

  lemma {:induction false} RealSumBounds(s: seq<real>)
    requires forall i :: 0 <= i < |s| ==> -3.0 <= s[i] <= 3.0
    ensures -3.0 * |s| as real <= RealSum(s) <= 3.0 * |s| as real
  {
    if s != [] {
      RealSumBounds(s[1..]);
    }
  }
}
