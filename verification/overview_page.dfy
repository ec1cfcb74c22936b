/** The overview step (`OverviewPage`): the figures it shows about the
    assessment so far. */
module OverviewPage {
  import opened Wrappers
  import opened Json
  import opened Lists
  import opened JsMath
  import opened Profile
  import ComprehensiveSummary

  /** `Object.values(v)`: an object's property values, an array's items, a
      string's characters, nothing for other values. */
  function ValuesOf(v: Value): (r: seq<Value>)
  {
    match v
    case Obj(fields) => seq(|fields|, i requires 0 <= i < |fields| => fields[i].1)
    case Arr(items) => items
    case Str(s) => seq(|s|, i requires 0 <= i < |s| => Str([s[i]]))
    case _ => []
  }

  /** `reduce((a, b) => a + b, 0)` over numbers; NaN absorbs everything. */
  function NumberSum(values: seq<Value>): (r: Value)
    requires forall i :: 0 <= i < |values| ==> IsNumber(values[i])
    ensures IsNumber(r)
  {
    if values == [] then Num(0.0)
    else
      var init := NumberSum(values[..|values| - 1]);
      var last := values[|values| - 1];
      if init.Num? && last.Num? then Num(init.n + last.n) else NaN
  }

  /** `calculateWheelAverage` before `toFixed(1)`: the mean of the numeric
      fields moved from -3..3 onto 0..10, or 0. */
  function WheelAverage(wheel: Option<Value>): Value
  {
    if !Present(wheel) then Num(0.0)
    else
      var values := Filter(ValuesOf(wheel.value), IsNumber);
      if values == [] then Num(0.0)
      else match NumberSum(values)
        case Num(total) => Num((total / |values| as real + 3.0) / 6.0 * 10.0)
        case _ => NaN
  }

  /** Fields that are not numbers, such as the justifications object, do not
      change the average. */
  lemma WheelAverageIgnoresNonNumbers(fields: seq<(string, Value)>, key: string, extra: Value)
    requires !IsNumber(extra)
    ensures WheelAverage(Some(Obj(fields + [(key, extra)]))) == WheelAverage(Some(Obj(fields)))
  {
    var with := fields + [(key, extra)];
    assert ValuesOf(Obj(with)) == ValuesOf(Obj(fields)) + [extra];
    FilterConcat(ValuesOf(Obj(fields)), [extra], IsNumber);
    assert Filter([extra], IsNumber) == [];
    assert Filter(ValuesOf(Obj(fields)), IsNumber) + [] == Filter(ValuesOf(Obj(fields)), IsNumber);
  }

  /** The sum of numbers in -3..3. */
  lemma {:induction false} NumberSumBounds(values: seq<Value>)
    requires forall i :: 0 <= i < |values| ==> values[i].Num? && -3.0 <= values[i].n <= 3.0
    ensures NumberSum(values).Num?
    ensures -3.0 * |values| as real <= NumberSum(values).n <= 3.0 * |values| as real
  {
    if values != [] {
      NumberSumBounds(values[..|values| - 1]);
    }
  }

  /** A mean of values in -3..3 lies in -3..3. */
  lemma MeanBounds(total: real, n: nat)
    requires n > 0 && -3.0 * n as real <= total <= 3.0 * n as real
    ensures -3.0 <= total / n as real <= 3.0
  {
    var q := total / n as real;
    assert q * n as real == total;
    MulStrict(3.0, q, n as real);
    MulStrict(q, -3.0, n as real);
  }

  /** With no wheel, or no numeric field, the average is 0; when every
      numeric field is a score in -3..3 it lies in 0..10. */
  lemma WheelAverageRange(wheel: Option<Value>)
    requires Present(wheel) ==> forall v :: v in ValuesOf(wheel.value) && IsNumber(v) ==> v.Num? && -3.0 <= v.n <= 3.0
    ensures WheelAverage(wheel).Num?
    ensures 0.0 <= WheelAverage(wheel).n <= 10.0
    ensures !Present(wheel) || Filter(ValuesOf(wheel.value), IsNumber) == [] ==> WheelAverage(wheel) == Num(0.0)
  {
    if Present(wheel) {
      var values := Filter(ValuesOf(wheel.value), IsNumber);
      if values != [] {
        assert forall i :: 0 <= i < |values| ==> values[i] in values;
        NumberSumBounds(values);
        MeanBounds(NumberSum(values).n, |values|);
      }
    }
  }

  /** `countAllStrengths`: the number of entries (not of strengths) of the
      three lists, 0 when no strengths are stored. */
  function CountAllStrengths(strengths: Option<Strengths>): nat
  {
    if strengths.None? then 0
    else |strengths.value.fromWork| + |strengths.value.fromTests| + |strengths.value.fromFriends|
  }

  /** A friend counts once however many strengths they named, and adding a
      friend adds exactly one. */
  lemma CountAllStrengthsCountsEntries(s: Strengths, friend: Friend)
    ensures CountAllStrengths(Some(s.(fromFriends := s.fromFriends + [friend]))) == CountAllStrengths(Some(s)) + 1
    ensures CountAllStrengths(Some(Strengths([], [], [Friend("A", ["x", "y", "z"])]))) == 1
  {
  }

  /** `getTopProblems`, `getTopValues` and `getTopRequirements`: the first three
      problems, the top five values and the first five requirements. */
  function TopProblems(form: FormData): seq<Problem> { Take(form.fiveWhyProblems, 3) }

  function TopValues(form: FormData): seq<string> { form.values.top5 }

  function TopRequirements(form: FormData): seq<Requirement> { Take(form.workRequirements, 5) }

  /** The slices are prefixes of at most three and five entries, whole lists
      when shorter, and empty exactly when the list is. */
  lemma SlicesProps(form: FormData)
    ensures |TopProblems(form)| == Min(|form.fiveWhyProblems|, 3)
    ensures TopProblems(form) == form.fiveWhyProblems[..|TopProblems(form)|]
    ensures |TopRequirements(form)| == Min(|form.workRequirements|, 5)
    ensures TopRequirements(form) == form.workRequirements[..|TopRequirements(form)|]
    ensures TopProblems(form) == [] <==> form.fiveWhyProblems == []
  {
  }

  /** The completed-sections count shown, as on the summary page. */
  function CompletedCount(completed: seq<int>): int
  {
    ComprehensiveSummary.CompletedSections(completed)
  }

  /** The percentage in the progress ring. */
  function CompletionPercentage(completed: seq<int>): int
  {
    Min(Round(CompletedCount(completed) as real / 8.0 * 100.0), 100)
  }

  /** The percentage lies in [0, 100], is 100 exactly when all eight sections
      count, and never falls as the count grows. */
  lemma CompletionPercentageProps(a: seq<int>, b: seq<int>)
    ensures 0 <= CompletionPercentage(a) <= 100
    ensures CompletionPercentage(a) == 100 <==> CompletedCount(a) == 8
    ensures CompletedCount(a) <= CompletedCount(b) ==> CompletionPercentage(a) <= CompletionPercentage(b)
  {
    ComprehensiveSummary.CompletedSectionsProps(a);
    ComprehensiveSummary.CompletedSectionsProps(b);
    var x := CompletedCount(a) as real / 8.0 * 100.0;
    RoundBounds(x, 0, 100);
    if CompletedCount(a) == 8 {
      RoundInt(100);
    } else {
      RoundMonotone(x, 87.5);
    }
    if CompletedCount(a) <= CompletedCount(b) {
      RoundMonotone(x, CompletedCount(b) as real / 8.0 * 100.0);
    }
  }
}
