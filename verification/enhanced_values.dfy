/** The values step (`EnhancedValuesStep`): pick at least ten values, narrow
    them to exactly ten, pick five of those, then rank the five by dragging. */
module EnhancedValuesStep {
  import opened Lists
  import opened Profile

  datatype Phase = Selection | Top10 | Top5 | Ranking

  /** `narrowToTop10`: a chosen value may only be dropped while more than ten
      are chosen; an unchosen one is always added. */
  function NarrowTop10(top10: seq<string>, v: string): (r: seq<string>)
  {
    if v in top10 then (if |top10| > 10 then Remove(top10, v) else top10)
    else top10 + [v]
  }

  /** On a duplicate-free list of at least ten values, narrowing never leaves
      fewer than ten; it adds or drops exactly the clicked value. */
  lemma NarrowTop10KeepsTen(top10: seq<string>, v: string)
    requires NoDup(top10) && |top10| >= 10
    ensures |NarrowTop10(top10, v)| >= 10
    ensures NoDup(NarrowTop10(top10, v))
    ensures v in NarrowTop10(top10, v) <==> v !in top10 || |top10| <= 10
  {
    if v in top10 {
      if |top10| > 10 {
        RemovePresentShrinksByOne(top10, v);
        RemoveKeepsNoDup(top10, v);
      }
    } else {
      ToggleKeepsNoDup(top10, v);
    }
  }

  /** `narrowToTop5`: dropping is always allowed, adding only below five. */
  function NarrowTop5(top5: seq<string>, v: string): (r: seq<string>)
  {
    if v in top5 then Remove(top5, v)
    else if |top5| < 5 then top5 + [v]
    else top5
  }

  /** Narrowing never takes the pick above five, and a click at the cap on an
      unpicked value changes nothing. */
  lemma NarrowTop5Bounded(top5: seq<string>, v: string)
    requires |top5| <= 5
    ensures |NarrowTop5(top5, v)| <= 5
    ensures v !in top5 && |top5| == 5 ==> NarrowTop5(top5, v) == top5
    ensures v in top5 ==> v !in NarrowTop5(top5, v)
    ensures forall w :: w in NarrowTop5(top5, v) ==> w in top5 || w == v
  {
    if v in top5 {
      RemoveIsSubseq(top5, v);
      SubseqLength(Remove(top5, v), top5);
    }
  }

  /** `handleDragEnd`: the dragged value moves to the position of the value it
      is dropped on. */
  function DragEnd(ranked: seq<string>, active: string, over: string): (r: seq<string>)
    requires active in ranked && over in ranked
  {
    if active == over then ranked
    else Move(ranked, IndexOf(ranked, active), IndexOf(ranked, over))
  }

  /** A drag keeps the same values, puts the dragged one where the target
      was, and keeps the length. */
  lemma DragEndPermutes(ranked: seq<string>, active: string, over: string)
    requires active in ranked && over in ranked
    ensures multiset(DragEnd(ranked, active, over)) == multiset(ranked)
    ensures |DragEnd(ranked, active, over)| == |ranked|
    ensures DragEnd(ranked, active, over)[IndexOf(ranked, over)] == active
  {
    if active != over {
      MovePermutes(ranked, IndexOf(ranked, active), IndexOf(ranked, over));
    }
  }

  class ValuesStep {
    var phase: Phase
    var selectedValues: seq<string>
    var top10Values: seq<string>
    var top5Values: seq<string>
    var rankedTop5: seq<string>
    /** `formData.values` as last passed to `updateFormData`. */
    var saved: Values

    /** What the phase guards promise: ten or more picks past the first
        phase, exactly ten past the second, at most five picked in the third
        and a ranking of exactly the five picks in the last. */
    ghost predicate Valid()
      reads this
    {
      (phase != Selection ==> |selectedValues| >= 10)
      && (phase == Top5 || phase == Ranking ==> |top10Values| == 10)
      && (phase == Top5 ==> |top5Values| <= 5)
      && (phase == Ranking ==> |top5Values| == 5 && multiset(rankedTop5) == multiset(top5Values))
    }

    /** The step opens in the selection phase on the saved lists. */
    constructor(values: Values)
      ensures Valid()
      ensures phase == Selection && saved == values
      ensures selectedValues == values.all && top10Values == values.top10
      ensures top5Values == values.top5 && rankedTop5 == values.top5
    {
      phase := Selection;
      selectedValues := values.all;
      top10Values := values.top10;
      top5Values := values.top5;
      rankedTop5 := values.top5;
      saved := values;
    }

    /** `toggleValue`, offered in the selection phase. */
    method ToggleValue(valueId: string)
      requires Valid() && phase == Selection
      modifies this
      ensures Valid()
      ensures selectedValues == Toggle(old(selectedValues), valueId)
      ensures phase == old(phase) && top10Values == old(top10Values) && top5Values == old(top5Values)
      ensures rankedTop5 == old(rankedTop5) && saved == old(saved)
    {
      selectedValues := Toggle(selectedValues, valueId);
    }

    /** `proceedToTop10`, in the selection phase: only with ten or more picks;
        keeps the first ten. */
    method ProceedToTop10()
      requires Valid() && phase == Selection
      modifies this
      ensures Valid()
      ensures |old(selectedValues)| >= 10 ==> phase == Top10 && top10Values == old(selectedValues)[..10]
      ensures |old(selectedValues)| < 10 ==> phase == old(phase) && top10Values == old(top10Values)
      ensures selectedValues == old(selectedValues) && top5Values == old(top5Values)
      ensures rankedTop5 == old(rankedTop5) && saved == old(saved)
    {
      if |selectedValues| >= 10 {
        top10Values := Take(selectedValues, 10);
        phase := Top10;
      }
    }

    /** `narrowToTop10`, offered on the picked values in the top-10 phase. */
    method NarrowToTop10(valueId: string)
      requires Valid() && phase == Top10 && valueId in selectedValues
      modifies this
      ensures Valid()
      ensures top10Values == NarrowTop10(old(top10Values), valueId)
      ensures phase == old(phase) && selectedValues == old(selectedValues) && top5Values == old(top5Values)
      ensures rankedTop5 == old(rankedTop5) && saved == old(saved)
    {
      if valueId in top10Values {
        if |top10Values| > 10 {
          top10Values := Remove(top10Values, valueId);
        }
      } else {
        top10Values := top10Values + [valueId];
      }
    }

    /** `proceedToTop5`, in the top-10 phase: only with exactly ten; starts an
        empty pick. */
    method ProceedToTop5()
      requires Valid() && phase == Top10
      modifies this
      ensures Valid()
      ensures |old(top10Values)| == 10 ==> phase == Top5 && top5Values == []
      ensures |old(top10Values)| != 10 ==> phase == old(phase) && top5Values == old(top5Values)
      ensures selectedValues == old(selectedValues) && top10Values == old(top10Values)
      ensures rankedTop5 == old(rankedTop5) && saved == old(saved)
    {
      if |top10Values| == 10 {
        top5Values := [];
        phase := Top5;
      }
    }

    /** `narrowToTop5`, offered on the top ten in the top-5 phase. */
    method NarrowToTop5(valueId: string)
      requires Valid() && phase == Top5 && valueId in top10Values
      modifies this
      ensures Valid()
      ensures top5Values == NarrowTop5(old(top5Values), valueId)
      ensures |top5Values| <= 5
      ensures phase == old(phase) && selectedValues == old(selectedValues) && top10Values == old(top10Values)
      ensures rankedTop5 == old(rankedTop5) && saved == old(saved)
    {
      NarrowTop5Bounded(top5Values, valueId);
      if valueId in top5Values {
        top5Values := Remove(top5Values, valueId);
      } else if |top5Values| < 5 {
        top5Values := top5Values + [valueId];
      }
    }

    /** `proceedToRanking`, in the top-5 phase: only with exactly five; ranks
        them as picked. */
    method ProceedToRanking()
      requires Valid() && phase == Top5
      modifies this
      ensures Valid()
      ensures |old(top5Values)| == 5 ==> phase == Ranking && rankedTop5 == old(top5Values)
      ensures |old(top5Values)| != 5 ==> phase == old(phase) && rankedTop5 == old(rankedTop5)
      ensures selectedValues == old(selectedValues) && top10Values == old(top10Values)
      ensures top5Values == old(top5Values) && saved == old(saved)
    {
      if |top5Values| == 5 {
        rankedTop5 := top5Values;
        phase := Ranking;
      }
    }

    /** The Back buttons: top-10 to selection, top-5 to top-10, ranking to top-5. */
    method Back()
      requires Valid() && phase != Selection
      modifies this
      ensures Valid()
      ensures phase == (match old(phase) case Top10 => Selection case Top5 => Top10 case _ => Top5)
      ensures selectedValues == old(selectedValues) && top10Values == old(top10Values)
      ensures top5Values == old(top5Values) && rankedTop5 == old(rankedTop5) && saved == old(saved)
    {
      match phase
      case Top10 => phase := Selection;
      case Top5 => phase := Top10;
      case Ranking => phase := Top5;
    }

    /** `handleDragEnd`, on the ranked values in the ranking phase. */
    method HandleDragEnd(active: string, over: string)
      requires Valid() && phase == Ranking && active in rankedTop5 && over in rankedTop5
      modifies this
      ensures Valid()
      ensures rankedTop5 == DragEnd(old(rankedTop5), active, over)
      ensures phase == old(phase) && selectedValues == old(selectedValues) && top10Values == old(top10Values)
      ensures top5Values == old(top5Values) && saved == old(saved)
    {
      DragEndPermutes(rankedTop5, active, over);
      if active != over {
        var oldIndex := IndexOf(rankedTop5, active);
        var newIndex := IndexOf(rankedTop5, over);
        rankedTop5 := Move(rankedTop5, oldIndex, newIndex);
      }
    }

    /** `saveValues`, in the ranking phase: stores the picks with the ranked
        five, which are the five picked values in the user's order. */
    method SaveValues()
      requires Valid() && phase == Ranking
      modifies this
      ensures Valid()
      ensures saved == Values(selectedValues, top10Values, rankedTop5)
      ensures |saved.all| >= 10 && |saved.top10| == 10 && |saved.top5| == 5
      ensures multiset(saved.top5) == multiset(top5Values)
      ensures phase == old(phase) && selectedValues == old(selectedValues) && top10Values == old(top10Values)
      ensures top5Values == old(top5Values) && rankedTop5 == old(rankedTop5)
    {
      assert |rankedTop5| == |multiset(rankedTop5)| == |top5Values|;
      saved := Values(selectedValues, top10Values, rankedTop5);
    }
  }
}
