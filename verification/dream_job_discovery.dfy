/** The career-archetype matching engine of the Dream Job Discovery step: the
    archetype catalog, the extraction of a profile ("insights") from the
    assessment record, the weighted keyword scorer, the top-three ranking, the
    theme finder, and the archetype selection toggle. */
module DreamJobDiscovery {
  import opened Profile
  import opened JsText
  import opened JsMath
  import Lists
  import Sorting

  /** A career archetype: its id and the four keyword lists the scorer reads. */
  datatype Archetype = Archetype(id: string, values: seq<string>, energizingTasks: seq<string>,
                                 strengths: seq<string>, workRequirements: seq<string>)

  /** The four keyword lists of an archetype are non-empty. */
  predicate HasKeywords(a: Archetype)
  {
    a.values != [] && a.energizingTasks != [] && a.strengths != [] && a.workRequirements != []
  }

  function Synthesizer(): Archetype
  {
    Archetype("synthesizer",
      ["Innovation", "Learning", "Impact", "Intellectual Challenge"],
      ["analyzing", "researching", "problem-solving", "strategizing"],
      ["analytical", "strategic", "systems", "critical thinking"],
      ["intellectual stimulation", "variety", "autonomy"])
  }

  function Creator(): Archetype
  {
    Archetype("creator",
      ["Creativity", "Self-expression", "Innovation", "Authenticity"],
      ["designing", "creating", "brainstorming", "writing"],
      ["creativity", "design", "innovation", "artistic"],
      ["creative freedom", "flexible schedule", "inspiring environment"])
  }

  function Coach(): Archetype
  {
    Archetype("coach",
      ["Service", "Growth", "Relationships", "Community"],
      ["teaching", "mentoring", "coaching", "facilitating"],
      ["empathy", "communication", "teaching", "coaching"],
      ["people interaction", "meaningful work", "collaboration"])
  }

  function Leader(): Archetype
  {
    Archetype("leader",
      ["Leadership", "Impact", "Achievement", "Influence"],
      ["leading", "strategizing", "decision-making", "influencing"],
      ["leadership", "strategy", "vision", "influence"],
      ["leadership opportunities", "high impact", "decision authority"])
  }

  function Analyst(): Archetype
  {
    Archetype("analyst",
      ["Accuracy", "Logic", "Discovery", "Excellence"],
      ["analyzing", "researching", "calculating", "investigating"],
      ["analytical", "research", "data", "problem-solving"],
      ["intellectual challenge", "detailed work", "quiet environment"])
  }

  function Communicator(): Archetype
  {
    Archetype("communicator",
      ["Communication", "Influence", "Connection", "Expression"],
      ["presenting", "writing", "networking", "storytelling"],
      ["communication", "persuasion", "writing", "presentation"],
      ["audience interaction", "variety", "public speaking"])
  }

  function Builder(): Archetype
  {
    Archetype("builder",
      ["Craftsmanship", "Results", "Quality", "Progress"],
      ["building", "implementing", "developing", "executing"],
      ["technical", "implementation", "execution", "practical"],
      ["hands-on work", "measurable results", "technical challenges"])
  }

  function Explorer(): Archetype
  {
    Archetype("explorer",
      ["Adventure", "Freedom", "Discovery", "Growth"],
      ["exploring", "traveling", "networking", "discovering"],
      ["adaptability", "curiosity", "networking", "innovation"],
      ["variety", "travel", "new challenges", "flexibility"])
  }

  function Harmonizer(): Archetype
  {
    Archetype("harmonizer",
      ["Harmony", "Efficiency", "Stability", "Service"],
      ["organizing", "coordinating", "optimizing", "supporting"],
      ["organization", "coordination", "efficiency", "process"],
      ["structured environment", "team support", "clear processes"])
  }

  /** The nine archetypes, in display order. */
  function Catalog(): (c: seq<Archetype>)
    ensures |c| == 9
    ensures forall i :: 0 <= i < |c| ==> HasKeywords(c[i])
  {
    [Synthesizer(), Creator(), Coach(), Leader(), Analyst(), Communicator(), Builder(), Explorer(), Harmonizer()]
  }

  // ---------------------------------------------------------------------
  // Profile extraction

  /** The profile the scorer reads. */
  datatype Insights = Insights(strengths: seq<string>, values: seq<string>,
                               highEnergyTasks: seq<string>, topRequirements: seq<string>,
                               satisfyingAreas: seq<string>)

  predicate IsNonEmpty(s: string) { s != "" }

  /** `.filter(s => s)` on a list of strings. */
  function NonEmpty(s: seq<string>): seq<string>
  {
    Lists.Filter(s, IsNonEmpty)
  }

  /** The non-empty strings of each list, list by list: the spread of
      `.filter(s => s)` over the work entries' and the friends' strengths. */
  function Flat(lists: seq<seq<string>>): (r: seq<string>)
    ensures forall s :: s in r ==> s != "" && exists i :: 0 <= i < |lists| && s in lists[i]
    ensures forall i, s :: 0 <= i < |lists| && s in lists[i] && s != "" ==> s in r
  {
    if lists == [] then []
    else Flat(lists[..|lists| - 1]) + NonEmpty(lists[|lists| - 1])
  }

  /** The strengths of each work entry. */
  function WorkLists(ws: seq<WorkStrength>): seq<seq<string>>
  {
    seq(|ws|, i requires 0 <= i < |ws| => ws[i].strengths)
  }

  /** The strengths each friend named. */
  function FriendLists(fs: seq<Friend>): seq<seq<string>>
  {
    seq(|fs|, i requires 0 <= i < |fs| => fs[i].strengths)
  }

  /** All strengths in source order (work, tests, friends), duplicates kept. */
  function AllStrengths(st: Strengths): seq<string>
  {
    Flat(WorkLists(st.fromWork)) + NonEmpty(st.fromTests) + Flat(FriendLists(st.fromFriends))
  }

  /** Names of the tasks rated energy 2 or more, in task order. */
  function HighEnergyNames(ts: seq<Task>): (r: seq<string>)
    ensures |r| <= |ts|
    ensures forall n :: n in r ==> exists i :: 0 <= i < |ts| && ts[i].energy >= 2 && ts[i].name == n
    ensures forall i :: 0 <= i < |ts| && ts[i].energy >= 2 ==> ts[i].name in r
  {
    if ts == [] then []
    else (if ts[0].energy >= 2 then [ts[0].name] else []) + HighEnergyNames(ts[1..])
  }

  /** Names of the first five requirements. */
  function TopRequirementNames(rs: seq<Requirement>): seq<string>
  {
    seq(Lists.Min(|rs|, 5), i requires 0 <= i < Lists.Min(|rs|, 5) => rs[i].name)
  }

  /** A life area rated 2 or more; an unrated area is never satisfying. */
  function IsSatisfying(w: Wheel): string -> bool
  {
    area => area in w.scores && w.scores[area] >= 2
  }

  function SatisfyingAreas(w: Wheel): seq<string>
  {
    Lists.Filter(LifeAreas, IsSatisfying(w))
  }

  /** The profile extracted from an assessment record. */
  function InsightsOf(f: FormData): Insights
  {
    Insights(AllStrengths(f.strengths), f.values.top5, HighEnergyNames(f.workTasks),
             TopRequirementNames(f.workRequirements), SatisfyingAreas(f.wheelOfLife))
  }

  /** The strengths loops: work entries, then tests, then friends. */
  method CollectStrengths(st: Strengths) returns (strengths: seq<string>)
    ensures strengths == AllStrengths(st)
  {
    strengths := [];
    var ws := st.fromWork;
    ghost var work := WorkLists(ws);
    for i := 0 to |ws|
      invariant strengths == Flat(work[..i])
    {
      assert work[..i + 1][..i] == work[..i] && work[i] == ws[i].strengths;
      strengths := strengths + NonEmpty(ws[i].strengths);
    }
    assert work[..|ws|] == work;
    strengths := strengths + NonEmpty(st.fromTests);
    var fs := st.fromFriends;
    ghost var friends := FriendLists(fs);
    var fromFriends: seq<string> := [];
    for i := 0 to |fs|
      invariant fromFriends == Flat(friends[..i])
    {
      assert friends[..i + 1][..i] == friends[..i] && friends[i] == fs[i].strengths;
      fromFriends := fromFriends + NonEmpty(fs[i].strengths);
    }
    assert friends[..|fs|] == friends;
    strengths := strengths + fromFriends;
  }

  /** The life-area loop. */
  method CollectSatisfyingAreas(w: Wheel) returns (areas: seq<string>)
    ensures areas == SatisfyingAreas(w)
  {
    areas := [];
    for i := 0 to |LifeAreas|
      invariant areas == Lists.Filter(LifeAreas[..i], IsSatisfying(w))
    {
      var area := LifeAreas[i];
      assert LifeAreas[..i + 1] == LifeAreas[..i] + [area];
      Lists.FilterConcat(LifeAreas[..i], [area], IsSatisfying(w));
      assert Lists.Filter([area], IsSatisfying(w)) == if IsSatisfying(w)(area) then [area] else [];
      if area in w.scores && w.scores[area] >= 2 {
        areas := areas + [area];
      }
    }
    assert LifeAreas[..|LifeAreas|] == LifeAreas;
  }

  /** Builds the profile with the source's push loops. */
  method GetPersonalInsights(f: FormData) returns (ins: Insights)
    ensures ins == InsightsOf(f)
  {
    var strengths := CollectStrengths(f.strengths);
    var areas := CollectSatisfyingAreas(f.wheelOfLife);
    ins := Insights(strengths, f.values.top5, HighEnergyNames(f.workTasks),
                    TopRequirementNames(f.workRequirements), areas);
  }

  /** Extracted strengths are exactly the non-empty strengths entered anywhere. */
  lemma StrengthsExtracted(st: Strengths, s: string)
    ensures s in AllStrengths(st) <==>
      s != "" && ((exists i :: 0 <= i < |st.fromWork| && s in st.fromWork[i].strengths)
                  || s in st.fromTests
                  || (exists i :: 0 <= i < |st.fromFriends| && s in st.fromFriends[i].strengths))
  {
    var work, friends := WorkLists(st.fromWork), FriendLists(st.fromFriends);
    assert (exists i :: 0 <= i < |work| && s in work[i])
       <==> (exists i :: 0 <= i < |st.fromWork| && s in st.fromWork[i].strengths) by {
      forall i | 0 <= i < |work| ensures work[i] == st.fromWork[i].strengths { }
    }
    assert (exists i :: 0 <= i < |friends| && s in friends[i])
       <==> (exists i :: 0 <= i < |st.fromFriends| && s in st.fromFriends[i].strengths) by {
      forall i | 0 <= i < |friends| ensures friends[i] == st.fromFriends[i].strengths { }
    }
  }

  /** At most five requirements are taken, by name, from the front. */
  lemma TopRequirementsPrefix(rs: seq<Requirement>)
    ensures |TopRequirementNames(rs)| == if |rs| < 5 then |rs| else 5
    ensures forall i :: 0 <= i < |TopRequirementNames(rs)| ==> TopRequirementNames(rs)[i] == rs[i].name
  {
  }

  /** Satisfying areas are the fixed life areas rated at least 2, in the fixed order. */
  lemma SatisfyingAreasExact(w: Wheel)
    ensures forall a :: a in SatisfyingAreas(w) <==> a in LifeAreas && a in w.scores && w.scores[a] >= 2
    ensures Lists.IsSubseq(SatisfyingAreas(w), LifeAreas)
  {
    Lists.FilterIsSubseq(LifeAreas, IsSatisfying(w));
  }

  // ---------------------------------------------------------------------
  // Scoring

  /** Case-insensitive containment in either direction. */
  predicate Related(item: string, keyword: string)
  {
    Contains(Lower(keyword), Lower(item)) || Contains(Lower(item), Lower(keyword))
  }

  /** The item is related to some keyword. */
  predicate MatchesSome(keywords: seq<string>, item: string)
  {
    exists k :: k in keywords && Related(item, k)
  }

  function Matched(keywords: seq<string>): string -> bool
  {
    item => MatchesSome(keywords, item)
  }

  /** How many user items match some keyword; each item counts once. */
  function MatchCount(items: seq<string>, keywords: seq<string>): (n: nat)
    ensures n <= |items|
  {
    Lists.Count(items, Matched(keywords))
  }

  function MinReal(a: real, b: real): real { if a <= b then a else b }

  /** `Math.min(matches / Math.max(items.length, 1), 1) * 100` */
  function SubScore(items: seq<string>, keywords: seq<string>): real
  {
    MinReal(MatchCount(items, keywords) as real / Lists.Max(|items|, 1) as real, 1.0) * 100.0
  }

  /** 100 when 'career' is satisfying, else 50 when any area is, else 25. */
  function BalanceScore(areas: seq<string>): real
  {
    if "career" in areas then 100.0 else if |areas| > 0 then 50.0 else 25.0
  }

  /** 100 when the user picked the archetype, else 0. */
  function SelfSelectedScore(id: string, selected: seq<string>): real
  {
    if id in selected then 100.0 else 0.0
  }

  const ValuesWeight: real := 0.25
  const TasksWeight: real := 0.20
  const StrengthsWeight: real := 0.20
  const RequirementsWeight: real := 0.15
  const BalanceWeight: real := 0.10
  const SelectedWeight: real := 0.10

  lemma WeightsSumToOne()
    ensures ValuesWeight + TasksWeight + StrengthsWeight + RequirementsWeight
            + BalanceWeight + SelectedWeight == 1.0
  {
  }

  datatype Breakdown = Breakdown(values: int, tasks: int, strengths: int, requirements: int,
                                 balance: int, selfSelected: int)

  datatype Factors = Factors(values: seq<string>, tasks: seq<string>, strengths: seq<string>)

  datatype Match = Match(score: int, breakdown: Breakdown, factors: Factors)

  /** The weighted sum before rounding. */
  function WeightedTotal(a: Archetype, ins: Insights, selected: seq<string>): real
  {
    SubScore(ins.values, a.values) * ValuesWeight
    + SubScore(ins.highEnergyTasks, a.energizingTasks) * TasksWeight
    + SubScore(ins.strengths, a.strengths) * StrengthsWeight
    + SubScore(ins.topRequirements, a.workRequirements) * RequirementsWeight
    + BalanceScore(ins.satisfyingAreas) * BalanceWeight
    + SelfSelectedScore(a.id, selected) * SelectedWeight
  }

  /** Some keyword contains the item (the values factor's one direction). */
  predicate InsideSome(keywords: seq<string>, item: string)
  {
    exists k :: k in keywords && Contains(Lower(k), Lower(item))
  }

  /** The item contains some keyword (the tasks and strengths factors' direction). */
  predicate HoldsSome(keywords: seq<string>, item: string)
  {
    exists k :: k in keywords && Contains(Lower(item), Lower(k))
  }

  function InsideSomeOf(keywords: seq<string>): string -> bool { item => InsideSome(keywords, item) }

  function HoldsSomeOf(keywords: seq<string>): string -> bool { item => HoldsSome(keywords, item) }

  function FactorsOf(a: Archetype, ins: Insights): Factors
  {
    Factors(Lists.Filter(ins.values, InsideSomeOf(a.values)),
            Lists.Filter(ins.highEnergyTasks, HoldsSomeOf(a.energizingTasks)),
            Lists.Filter(ins.strengths, HoldsSomeOf(a.strengths)))
  }

  function BreakdownOf(a: Archetype, ins: Insights, selected: seq<string>): Breakdown
  {
    Breakdown(Round(SubScore(ins.values, a.values)),
              Round(SubScore(ins.highEnergyTasks, a.energizingTasks)),
              Round(SubScore(ins.strengths, a.strengths)),
              Round(SubScore(ins.topRequirements, a.workRequirements)),
              Round(BalanceScore(ins.satisfyingAreas)),
              Round(SelfSelectedScore(a.id, selected)))
  }

  /** The match of one archetype against a profile. */
  function MatchOf(a: Archetype, ins: Insights, selected: seq<string>): Match
  {
    Match(Round(WeightedTotal(a, ins, selected)), BreakdownOf(a, ins, selected), FactorsOf(a, ins))
  }

  /** Accumulates the weighted total term by term, as the source does. */
  method CalculateArchetypeMatch(a: Archetype, ins: Insights, selected: seq<string>)
    returns (m: Match)
    ensures m == MatchOf(a, ins, selected)
    ensures 0 <= m.score <= 100
  {
    var total := 0.0;
    var valueScore := SubScore(ins.values, a.values);
    total := total + valueScore * ValuesWeight;
    var taskScore := SubScore(ins.highEnergyTasks, a.energizingTasks);
    total := total + taskScore * TasksWeight;
    var strengthScore := SubScore(ins.strengths, a.strengths);
    total := total + strengthScore * StrengthsWeight;
    var reqScore := SubScore(ins.topRequirements, a.workRequirements);
    total := total + reqScore * RequirementsWeight;
    var balanceScore := BalanceScore(ins.satisfyingAreas);
    total := total + balanceScore * BalanceWeight;
    var selfSelectedScore := SelfSelectedScore(a.id, selected);
    total := total + selfSelectedScore * SelectedWeight;
    ScoreInRange(a, ins, selected);
    m := Match(Round(total),
               Breakdown(Round(valueScore), Round(taskScore), Round(strengthScore),
                         Round(reqScore), Round(balanceScore), Round(selfSelectedScore)),
               FactorsOf(a, ins));
  }

  lemma RatioCapInactive(c: real, d: real)
    requires 0.0 <= c <= d && 1.0 <= d
    ensures 0.0 <= c / d <= 1.0
    ensures MinReal(c / d, 1.0) * 100.0 == c * 100.0 / d
  {
    assert c / d * d == c;
  }

  /** The match count never exceeds the list, so the cap at 1 never changes a
      sub-score; an empty list scores 0 because the denominator is floored at 1. */
  lemma {:induction false} SubScoreExact(items: seq<string>, keywords: seq<string>)
    ensures 0.0 <= SubScore(items, keywords) <= 100.0
    ensures items == [] ==> SubScore(items, keywords) == 0.0
    ensures items != [] ==>
      SubScore(items, keywords) == MatchCount(items, keywords) as real * 100.0 / |items| as real
  {
    var c := MatchCount(items, keywords);
    var d := Lists.Max(|items|, 1);
    RatioCapInactive(c as real, d as real);
    if items == [] {
      assert Lists.Filter(items, Matched(keywords)) == [];
      assert c == 0;
    }
  }

  /** Every sub-score and the total lie in [0, 100]. */
  lemma {:induction false} ScoreInRange(a: Archetype, ins: Insights, selected: seq<string>)
    ensures 0.0 <= WeightedTotal(a, ins, selected) <= 100.0
    ensures 0 <= MatchOf(a, ins, selected).score <= 100
    ensures var b := MatchOf(a, ins, selected).breakdown;
      0 <= b.values <= 100 && 0 <= b.tasks <= 100 && 0 <= b.strengths <= 100
      && 0 <= b.requirements <= 100 && 0 <= b.balance <= 100 && 0 <= b.selfSelected <= 100
  {
    SubScoreExact(ins.values, a.values);
    SubScoreExact(ins.highEnergyTasks, a.energizingTasks);
    SubScoreExact(ins.strengths, a.strengths);
    SubScoreExact(ins.topRequirements, a.workRequirements);
    RoundBounds(WeightedTotal(a, ins, selected), 0, 100);
    RoundBounds(SubScore(ins.values, a.values), 0, 100);
    RoundBounds(SubScore(ins.highEnergyTasks, a.energizingTasks), 0, 100);
    RoundBounds(SubScore(ins.strengths, a.strengths), 0, 100);
    RoundBounds(SubScore(ins.topRequirements, a.workRequirements), 0, 100);
  }

  /** Selecting the archetype adds exactly 10 points to its score. */
  lemma SelfSelectionAddsTen(a: Archetype, ins: Insights, picked: seq<string>, unpicked: seq<string>)
    requires a.id in picked && a.id !in unpicked
    ensures MatchOf(a, ins, picked).score == MatchOf(a, ins, unpicked).score + 10
  {
    assert WeightedTotal(a, ins, picked) == WeightedTotal(a, ins, unpicked) + 10 as real;
    RoundShift(WeightedTotal(a, ins, unpicked), 10);
  }

  /** With nothing entered and the archetype not picked, only the balance
      floor of 25 counts: the score is round(2.5) = 3. */
  lemma EmptyProfileScore(a: Archetype, selected: seq<string>)
    requires a.id !in selected
    ensures MatchOf(a, Insights([], [], [], [], []), selected).score == 3
    ensures MatchOf(a, Insights([], [], [], [], []), selected).breakdown == Breakdown(0, 0, 0, 0, 25, 0)
  {
    var e := Insights([], [], [], [], []);
    SubScoreExact([], a.values);
    SubScoreExact([], a.energizingTasks);
    SubScoreExact([], a.strengths);
    SubScoreExact([], a.workRequirements);
    assert WeightedTotal(a, e, selected) == 2.5;
  }

  lemma SelfMatched(keywords: seq<string>, k: string)
    requires k in keywords
    ensures Matched(keywords)(k)
  {
    ContainsSelf(Lower(k));
    assert Related(k, k);
  }

  /** Every keyword matches itself, so a list matched against itself scores 100. */
  lemma {:induction false} SelfMatchFull(keywords: seq<string>)
    requires keywords != []
    ensures SubScore(keywords, keywords) == 100.0
  {
    SelfMatchCount(keywords);
    SubScoreExact(keywords, keywords);
    FullRatio(|keywords| as real);
  }

  /** Every keyword of a list matches that list. */
  lemma SelfMatchCount(keywords: seq<string>)
    ensures MatchCount(keywords, keywords) == |keywords|
  {
    forall i | 0 <= i < |keywords|
      ensures Matched(keywords)(keywords[i])
    {
      SelfMatched(keywords, keywords[i]);
    }
    Lists.FilterAll(keywords, Matched(keywords));
  }

  lemma FullRatio(n: real)
    requires n >= 1.0
    ensures n * 100.0 / n == 100.0
  {
  }

  /** A profile that copies an archetype's own keyword lists, rates career
      highly and picks the archetype scores exactly 100 for it. */
  lemma PerfectMatch(a: Archetype)
    requires HasKeywords(a)
    ensures MatchOf(a, Insights(a.strengths, a.values, a.energizingTasks,
                                a.workRequirements, ["career"]), [a.id]).score == 100
  {
    var ins := Insights(a.strengths, a.values, a.energizingTasks, a.workRequirements, ["career"]);
    SelfMatchFull(a.values);
    SelfMatchFull(a.energizingTasks);
    SelfMatchFull(a.strengths);
    SelfMatchFull(a.workRequirements);
    assert WeightedTotal(a, ins, [a.id]) == 100.0;
  }

  /** Each matching-factor list is an ordered sub-list of its user list, and
      uses one containment direction only, so it is never longer than the
      corresponding match count. */
  lemma FactorsWithinMatches(a: Archetype, ins: Insights)
    ensures var f := FactorsOf(a, ins);
      Lists.IsSubseq(f.values, ins.values)
      && Lists.IsSubseq(f.tasks, ins.highEnergyTasks)
      && Lists.IsSubseq(f.strengths, ins.strengths)
      && |f.values| <= MatchCount(ins.values, a.values)
      && |f.tasks| <= MatchCount(ins.highEnergyTasks, a.energizingTasks)
      && |f.strengths| <= MatchCount(ins.strengths, a.strengths)
  {
    Lists.FilterIsSubseq(ins.values, InsideSomeOf(a.values));
    Lists.FilterIsSubseq(ins.highEnergyTasks, HoldsSomeOf(a.energizingTasks));
    Lists.FilterIsSubseq(ins.strengths, HoldsSomeOf(a.strengths));
    InsideImpliesMatched(ins.values, a.values);
    HoldsImpliesMatched(ins.highEnergyTasks, a.energizingTasks);
    HoldsImpliesMatched(ins.strengths, a.strengths);
  }

  lemma InsideImpliesMatched(items: seq<string>, keywords: seq<string>)
    ensures |Lists.Filter(items, InsideSomeOf(keywords))| <= MatchCount(items, keywords)
  {
    forall i | 0 <= i < |items| && InsideSomeOf(keywords)(items[i])
      ensures Matched(keywords)(items[i])
    {
      var k :| k in keywords && Contains(Lower(k), Lower(items[i]));
      assert Related(items[i], k);
    }
    Lists.FilterMonotone(items, InsideSomeOf(keywords), Matched(keywords));
  }

  lemma HoldsImpliesMatched(items: seq<string>, keywords: seq<string>)
    ensures |Lists.Filter(items, HoldsSomeOf(keywords))| <= MatchCount(items, keywords)
  {
    forall i | 0 <= i < |items| && HoldsSomeOf(keywords)(items[i])
      ensures Matched(keywords)(items[i])
    {
      var k :| k in keywords && Contains(Lower(items[i]), Lower(k));
      assert Related(items[i], k);
    }
    Lists.FilterMonotone(items, HoldsSomeOf(keywords), Matched(keywords));
  }

  // ---------------------------------------------------------------------
  // Ranking

  /** An archetype with its match. */
  datatype Ranked = Ranked(archetype: Archetype, result: Match)

  function ScoreOf(r: Ranked): int { r.result.score }

  /** Every catalog archetype with its match, in catalog order. */
  function AllMatches(ins: Insights, selected: seq<string>): (r: seq<Ranked>)
    ensures |r| == 9
    ensures forall i :: 0 <= i < 9 ==>
      r[i].archetype == Catalog()[i] && r[i].result == MatchOf(Catalog()[i], ins, selected)
  {
    seq(9, i requires 0 <= i < 9 => Ranked(Catalog()[i], MatchOf(Catalog()[i], ins, selected)))
  }

  /** The three best matches: a stable sort by descending score, then the first three. */
  function TopMatches(ins: Insights, selected: seq<string>): seq<Ranked>
  {
    Sorting.SortDesc(AllMatches(ins, selected), ScoreOf)[..3]
  }

  /** The top three come from a non-increasing permutation of all matches in
      which archetypes of equal score keep catalog order, so every returned
      score is at least every omitted score. */
  lemma TopMatchesRanked(ins: Insights, selected: seq<string>)
    ensures var all := AllMatches(ins, selected);
      var sorted := Sorting.SortDesc(all, ScoreOf);
      |TopMatches(ins, selected)| == 3
      && TopMatches(ins, selected) == sorted[..3]
      && multiset(sorted) == multiset(all)
      && Sorting.SortedDesc(sorted, ScoreOf)
      && (forall i, j :: 0 <= i < 3 <= j < 9 ==> ScoreOf(sorted[i]) >= ScoreOf(sorted[j]))
      && (forall k :: Sorting.WithKey(sorted, ScoreOf, k) == Sorting.WithKey(all, ScoreOf, k))
  {
    var all := AllMatches(ins, selected);
    Sorting.SortDescSorted(all, ScoreOf);
    forall k ensures Sorting.WithKey(Sorting.SortDesc(all, ScoreOf), ScoreOf, k)
                     == Sorting.WithKey(all, ScoreOf, k)
    {
      Sorting.SortDescStable(all, ScoreOf, k);
    }
  }

  // ---------------------------------------------------------------------
  // Themes

  datatype Theme = Theme(kind: string, evidence: seq<string>, source: string)

  /** Strength keyword patterns, already lower case, in declaration order. */
  const StrengthPatterns: seq<(string, seq<string>)> :=
    [ ("creative", ["creativity", "design", "artistic", "innovation"]),
      ("analytical", ["analysis", "problem-solving", "logic", "data"]),
      ("people", ["empathy", "communication", "teaching", "coaching"]),
      ("leadership", ["leadership", "strategy", "vision", "management"]) ]

  /** The lower-cased strength contains one of the keywords. */
  predicate HasKeyword(keywords: seq<string>, strength: string)
  {
    exists k :: k in keywords && Contains(Lower(strength), k)
  }

  function HasKeywordOf(keywords: seq<string>): string -> bool { s => HasKeyword(keywords, s) }

  /** One strengths theme per pattern with evidence, in pattern order. */
  function StrengthThemes(strengths: seq<string>, patterns: seq<(string, seq<string>)>): seq<Theme>
  {
    if patterns == [] then []
    else
      var rest := StrengthThemes(strengths, patterns[..|patterns| - 1]);
      var (kind, keywords) := patterns[|patterns| - 1];
      var evidence := Lists.Filter(strengths, HasKeywordOf(keywords));
      if evidence != [] then rest + [Theme(kind, evidence, "strengths")] else rest
  }

  /** Themes drawn from the top values. */
  function ValueThemes(values: seq<string>): seq<Theme>
  {
    (if "Creativity" in values || "Innovation" in values
     then [Theme("creative", ["Values creativity/innovation"], "values")] else [])
    + (if "Leadership" in values || "Impact" in values
       then [Theme("leadership", ["Values leadership/impact"], "values")] else [])
    + (if "Service" in values || "Community" in values
       then [Theme("people", ["Values service/community"], "values")] else [])
  }

  function ThemesOf(ins: Insights): seq<Theme>
  {
    StrengthThemes(ins.strengths, StrengthPatterns) + ValueThemes(ins.values)
  }

  /** One more pattern adds its theme when it has evidence. */
  lemma StrengthThemesSnoc(strengths: seq<string>, patterns: seq<(string, seq<string>)>, i: nat)
    requires i < |patterns|
    ensures var evidence := Lists.Filter(strengths, HasKeywordOf(patterns[i].1));
      StrengthThemes(strengths, patterns[..i + 1])
      == StrengthThemes(strengths, patterns[..i]) + (if evidence != [] then [Theme(patterns[i].0, evidence, "strengths")] else [])
  {
    assert patterns[..i + 1][..i] == patterns[..i];
  }

  /** The loop over the strength patterns. */
  method PushStrengthThemes(strengths: seq<string>, patterns: seq<(string, seq<string>)>) returns (themes: seq<Theme>)
    ensures themes == StrengthThemes(strengths, patterns)
  {
    themes := [];
    for i := 0 to |patterns|
      invariant themes == StrengthThemes(strengths, patterns[..i])
    {
      StrengthThemesSnoc(strengths, patterns, i);
      var kind, keywords := patterns[i].0, patterns[i].1;
      var matches := Lists.Filter(strengths, HasKeywordOf(keywords));
      if |matches| > 0 {
        themes := themes + [Theme(kind, matches, "strengths")];
      }
    }
    assert patterns[..|patterns|] == patterns;
  }

  /** Pushes the themes pattern by pattern, as the source does. */
  method IdentifyThemes(ins: Insights) returns (themes: seq<Theme>)
    ensures themes == ThemesOf(ins)
  {
    var found := PushStrengthThemes(ins.strengths, StrengthPatterns);
    var fromValues := PushValueThemes(ins.values);
    themes := found + fromValues;
  }

  /** The three value checks, each pushing its theme. */
  method PushValueThemes(values: seq<string>) returns (themes: seq<Theme>)
    ensures themes == ValueThemes(values)
  {
    themes := [];
    if "Creativity" in values || "Innovation" in values {
      themes := themes + [Theme("creative", ["Values creativity/innovation"], "values")];
    }
    if "Leadership" in values || "Impact" in values {
      themes := themes + [Theme("leadership", ["Values leadership/impact"], "values")];
    }
    if "Service" in values || "Community" in values {
      themes := themes + [Theme("people", ["Values service/community"], "values")];
    }
  }

  /** Every strengths theme names a pattern and carries non-empty evidence,
      all of it strengths that contain one of that pattern's keywords. */
  lemma {:induction false} StrengthThemesSound(strengths: seq<string>, patterns: seq<(string, seq<string>)>)
    ensures forall t :: t in StrengthThemes(strengths, patterns) ==>
      t.source == "strengths" && t.evidence != []
      && (exists p :: p in patterns && p.0 == t.kind
            && forall e :: e in t.evidence ==> e in strengths && HasKeyword(p.1, e))
  {
    if patterns != [] {
      var init := patterns[..|patterns| - 1];
      StrengthThemesSound(strengths, init);
      var p := patterns[|patterns| - 1];
      forall t | t in StrengthThemes(strengths, patterns)
        ensures t.source == "strengths" && t.evidence != []
          && (exists p :: p in patterns && p.0 == t.kind && forall e :: e in t.evidence ==> e in strengths && HasKeyword(p.1, e))
      {
        if t in StrengthThemes(strengths, init) {
          var q :| q in init && q.0 == t.kind
                   && forall e :: e in t.evidence ==> e in strengths && HasKeyword(q.1, e);
          assert q in patterns;
        } else {
          assert t == Theme(p.0, Lists.Filter(strengths, HasKeywordOf(p.1)), "strengths");
          assert p in patterns;
        }
      }
    }
  }

  /** A pattern whose keyword occurs in some strength yields a theme of its kind. */
  lemma {:induction false} StrengthThemesComplete(strengths: seq<string>,
                                                  patterns: seq<(string, seq<string>)>, i: nat, s: string)
    requires i < |patterns| && s in strengths && HasKeyword(patterns[i].1, s)
    ensures exists t :: t in StrengthThemes(strengths, patterns) && t.kind == patterns[i].0
  {
    var init := patterns[..|patterns| - 1];
    if i < |patterns| - 1 {
      StrengthThemesComplete(strengths, init, i, s);
      var t :| t in StrengthThemes(strengths, init) && t.kind == init[i].0;
      assert t in StrengthThemes(strengths, patterns);
    } else {
      var evidence := Lists.Filter(strengths, HasKeywordOf(patterns[i].1));
      assert s in evidence;
      assert Theme(patterns[i].0, evidence, "strengths") in StrengthThemes(strengths, patterns);
    }
  }

  // ---------------------------------------------------------------------
  // Archetype selection

  /** The selection buttons: the local selection and the saved dream-job record. */
  class ArchetypeSelection {
    var selected: seq<string>
    var saved: DreamJob

    constructor(dreamJob: DreamJob)
      ensures selected == dreamJob.selectedArchetypes && saved == dreamJob
    {
      selected := dreamJob.selectedArchetypes;
      saved := dreamJob;
    }

    /** Removes every occurrence of a selected id, or appends an unselected
        one, and saves the new selection with the other answers unchanged. */
    method ToggleArchetype(id: string)
      modifies this
      ensures selected == Lists.Toggle(old(selected), id)
      ensures saved == old(saved).(selectedArchetypes := selected)
    {
      if id in selected {
        selected := Lists.Remove(selected, id);
      } else {
        selected := selected + [id];
      }
      saved := saved.(selectedArchetypes := selected);
    }
  }
}
