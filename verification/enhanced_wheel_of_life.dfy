/** The wheel-of-life step (`EnhancedWheelOfLifeStep`): a satisfaction score
    in -3..3 for each of the eight life areas, a justification per area, and
    the insights derived from the scores. */
module EnhancedWheelOfLifeStep {
  import opened Wrappers
  import opened Lists
  import opened JsMath
  import opened Profile

  /** `wheelData[area]`, absent when the stored wheel lacks the area. */
  function Score(w: Wheel, area: string): Option<int>
  {
    if area in w.scores then Some(w.scores[area]) else None
  }

  /** `wheelData[a] > wheelData[b]`: false whenever either side is
      `undefined`. */
  predicate Above(x: Option<int>, y: Option<int>)
  {
    x.Some? && y.Some? && x.value > y.value
  }

  /** Every area has a score in -3..3. */
  predicate Rated(w: Wheel)
  {
    forall a :: a in LifeAreas ==> a in w.scores && -3 <= w.scores[a] <= 3
  }

  /** The wheel the step starts from when none is stored. */
  function InitialWheel(): (w: Wheel)
  {
    Wheel(map a | a in LifeAreas :: 0, map[])
  }

  /** `updateCategory`'s new wheel. */
  function WithScore(w: Wheel, area: string, value: int): Wheel
  {
    w.(scores := w.scores[area := value])
  }

  /** `updateJustification`'s new wheel. */
  function WithJustification(w: Wheel, area: string, text: string): Wheel
  {
    w.(justifications := w.justifications[area := text])
  }

  /** `cat => wheelData[cat.id] <= -1`. */
  function IsCritical(w: Wheel): string -> bool
  {
    a => a in w.scores && w.scores[a] <= -1
  }

  /** `getCriticalCategories`. */
  function CriticalCategories(w: Wheel): seq<string>
  {
    Filter(LifeAreas, IsCritical(w))
  }

  /** The critical areas are exactly the areas scored -1 or lower, in the
      fixed area order. */
  lemma CriticalCategoriesProps(w: Wheel)
    ensures forall a :: a in CriticalCategories(w) <==> a in LifeAreas && a in w.scores && w.scores[a] <= -1
    ensures IsSubseq(CriticalCategories(w), LifeAreas)
  {
    FilterIsSubseq(LifeAreas, IsCritical(w));
  }

  /** Scoring an area makes it critical exactly when the new score is -1 or
      lower, and leaves every other area as critical as it was. */
  lemma CriticalAfterScore(w: Wheel, area: string, value: int, other: string)
    requires area in LifeAreas
    ensures area in CriticalCategories(WithScore(w, area, value)) <==> value <= -1
    ensures other != area ==>
      (other in CriticalCategories(WithScore(w, area, value)) <==> other in CriticalCategories(w))
  {
    var w2 := WithScore(w, area, value);
    CriticalCategoriesProps(w);
    CriticalCategoriesProps(w2);
    assert area in w2.scores && w2.scores[area] == value;
    if other != area {
      assert (other in w2.scores && w2.scores[other] <= -1) <==> (other in w.scores && w.scores[other] <= -1);
    }
  }

  /** `categories.reduce((max, cat) => wheelData[cat.id] > wheelData[max.id] ? cat : max)`
      over a non-empty list of areas. */
  function Strongest(w: Wheel, areas: seq<string>): (r: string)
    requires areas != []
    ensures r in areas
  {
    if |areas| == 1 then areas[0]
    else
      var best := Strongest(w, areas[..|areas| - 1]);
      if Above(Score(w, areas[|areas| - 1]), Score(w, best)) then areas[|areas| - 1] else best
  }

  /** When every area is scored, the strongest area has the highest score,
      and every area listed before it scores strictly lower: ties go to the
      earliest area. */
  lemma {:induction false} StrongestIsFirstMax(w: Wheel, areas: seq<string>)
    requires areas != [] && forall a :: a in areas ==> a in w.scores
    ensures forall a :: a in areas ==> w.scores[a] <= w.scores[Strongest(w, areas)]
    ensures forall j :: 0 <= j < IndexOf(areas, Strongest(w, areas)) ==>
      w.scores[areas[j]] < w.scores[Strongest(w, areas)]
  {
    if |areas| > 1 {
      var init := areas[..|areas| - 1];
      var last := areas[|areas| - 1];
      assert areas == init + [last];
      StrongestIsFirstMax(w, init);
      var best := Strongest(w, init);
      if Above(Score(w, last), Score(w, best)) {
        assert w.scores[last] > w.scores[best];
        IndexOfAppended(init, last);
      } else {
        IndexOfPrefix(init, last, best);
      }
    }
  }

  /** An element not in `xs` is found at the end of `xs + [y]`. */
  lemma IndexOfAppended<T>(xs: seq<T>, y: T)
    requires y !in xs
    ensures IndexOf(xs + [y], y) == |xs|
  {
  }

  /** An element of `xs` is found where it is found in `xs`. */
  lemma {:induction false} IndexOfPrefix<T>(xs: seq<T>, y: T, x: T)
    requires x in xs
    ensures IndexOf(xs + [y], x) == IndexOf(xs, x)
  {
    var i := IndexOf(xs, x);
    var k := IndexOf(xs + [y], x);
    assert (xs + [y])[i] == x;
    assert k <= i;
    assert xs[k] == x;
  }

  /** The strongest area of the step, over the eight areas. */
  function StrongestArea(w: Wheel): string
  {
    Strongest(w, LifeAreas)
  }

  /** `cat => wheelData[cat.id] > 0`. */
  function IsPositive(w: Wheel): string -> bool
  {
    a => a in w.scores && w.scores[a] > 0
  }

  /** The "areas above average" count. */
  function PositiveCount(w: Wheel): nat
  {
    Count(LifeAreas, IsPositive(w))
  }

  /** At most the eight areas are positive, and the count is eight exactly
      when every area scores above 0. */
  lemma PositiveCountProps(w: Wheel)
    ensures PositiveCount(w) <= 8
    ensures PositiveCount(w) == 8 <==> forall a :: a in LifeAreas ==> a in w.scores && w.scores[a] > 0
  {
    var p := IsPositive(w);
    CountFull(LifeAreas, p);
    assert forall a :: p(a) <==> a in w.scores && w.scores[a] > 0;
  }

  /** The radar-chart value of a score: -3..3 onto 0..10. */
  function ChartValue(score: int): real
  {
    (score + 3) as real / 6.0 * 10.0
  }

  /** The tooltip's score read back from a chart value. */
  function TooltipScore(value: real): int
  {
    Round(value / 10.0 * 6.0 - 3.0)
  }

  /** The chart places every score in 0..10, and the tooltip recovers it. */
  lemma ChartRoundTrip(score: int)
    requires -3 <= score <= 3
    ensures 0.0 <= ChartValue(score) <= 10.0
    ensures TooltipScore(ChartValue(score)) == score
  {
    assert ChartValue(score) / 10.0 * 6.0 - 3.0 == score as real;
    RoundInt(score);
  }

  /** The step's state; `saved` is `formData.wheelOfLife`. */
  class WheelStep {
    var wheelData: Wheel
    var saved: Option<Wheel>

    /** The step opens on the stored wheel, or all areas at 0. */
    constructor(stored: Option<Wheel>)
      ensures wheelData == (if stored.Some? then stored.value else InitialWheel())
      ensures saved == stored
      ensures stored.None? ==> Rated(wheelData) && wheelData.justifications == map[]
    {
      wheelData := if stored.Some? then stored.value else InitialWheel();
      saved := stored;
    }

    /** `updateCategory`: sets one score and saves. */
    method UpdateCategory(categoryId: string, value: int)
      modifies this
      ensures wheelData == WithScore(old(wheelData), categoryId, value)
      ensures saved == Some(wheelData)
      ensures forall a :: a != categoryId ==> Score(wheelData, a) == Score(old(wheelData), a)
      ensures wheelData.justifications == old(wheelData).justifications
      ensures Rated(old(wheelData)) && -3 <= value <= 3 && categoryId in LifeAreas ==> Rated(wheelData)
    {
      wheelData := WithScore(wheelData, categoryId, value);
      saved := Some(wheelData);
    }

    /** `updateJustification`: sets one justification and saves. */
    method UpdateJustification(categoryId: string, text: string)
      modifies this
      ensures wheelData == WithJustification(old(wheelData), categoryId, text)
      ensures saved == Some(wheelData)
      ensures wheelData.scores == old(wheelData).scores
      ensures forall a :: a != categoryId && a in old(wheelData).justifications ==>
        a in wheelData.justifications && wheelData.justifications[a] == old(wheelData).justifications[a]
    {
      wheelData := WithJustification(wheelData, categoryId, text);
      saved := Some(wheelData);
    }
  }
}
