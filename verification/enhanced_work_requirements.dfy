/** The work-requirements step (`EnhancedWorkRequirementsStep`): pick up to
    ten requirements, rank them, then note why each matters and how well the
    current job meets it (1 to 5). */
module EnhancedWorkRequirementsStep {
  import opened Wrappers
  import opened Lists
  import opened JsMath
  import opened Profile
  import Sorting

  const MaxRequirements: int := 10

  /** A requirement the step offers: id, label and category. */
  datatype CatalogItem = CatalogItem(id: string, name: string, category: string)

  datatype Phase = Selection | Ranking | Details

  /** The error raised when a picked id is not in the catalog (`req.name`
      read on `undefined`). */
  const MissingRequirement: string := "Cannot read properties of undefined (reading 'name')"

  /** `toggleRequirement`: dropping is always allowed, adding only below ten. */
  function ToggleCapped(selected: seq<string>, reqId: string): (r: seq<string>)
  {
    if reqId in selected then Remove(selected, reqId)
    else if |selected| < MaxRequirements then selected + [reqId]
    else selected
  }

  /** The selection never grows past ten; a click on a picked requirement
      removes it, a click on an unpicked one adds it at the end below the cap
      and changes nothing at the cap. */
  lemma ToggleCappedProps(selected: seq<string>, reqId: string)
    requires |selected| <= MaxRequirements
    ensures |ToggleCapped(selected, reqId)| <= MaxRequirements
    ensures reqId in selected ==> reqId !in ToggleCapped(selected, reqId)
    ensures reqId !in selected && |selected| < MaxRequirements ==> ToggleCapped(selected, reqId) == selected + [reqId]
    ensures reqId !in selected && |selected| == MaxRequirements ==> ToggleCapped(selected, reqId) == selected
  {
    if reqId in selected {
      RemoveIsSubseq(selected, reqId);
      SubseqLength(Remove(selected, reqId), selected);
    }
  }

  /** `catalog.find(r => r.id === id)`. */
  function FindItem(catalog: seq<CatalogItem>, id: string): (r: Option<CatalogItem>)
    ensures r.Some? ==> r.value in catalog && r.value.id == id
    ensures r.None? ==> forall c :: c in catalog ==> c.id != id
  {
    if catalog == [] then None
    else if catalog[0].id == id then Some(catalog[0])
    else FindItem(catalog[1..], id)
  }

  /** `formData.workRequirements?.find(wr => wr.id === id)`. */
  function FindSaved(saved: seq<Requirement>, id: string): (r: Option<Requirement>)
    ensures r.Some? ==> r.value in saved && r.value.id == id
    ensures r.None? ==> forall q :: q in saved ==> q.id != id
  {
    if saved == [] then None
    else if saved[0].id == id then Some(saved[0])
    else FindSaved(saved[1..], id)
  }

  /** `x || d` for an integer field whose unset value is 0. */
  function OrDefault(x: int, d: int): int
  {
    if x != 0 then x else d
  }

  /** The ranked entry `proceedToRanking` builds for the id at `index`. */
  function EntryOf(item: CatalogItem, existing: Option<Requirement>, index: int): (r: Requirement)
    ensures r.id == item.id && r.name == item.name && r.category == item.category
  {
    match existing
    case None => Requirement(item.id, item.name, item.category, index + 1, "", 3)
    case Some(e) => Requirement(item.id, item.name, item.category, OrDefault(e.rank, index + 1),
                                e.importance, OrDefault(e.currentMatch, 3))
  }

  /** The entries for `ids[i..]`, numbered from `i`; fails on the first id
      missing from the catalog. */
  function EntriesFrom(catalog: seq<CatalogItem>, saved: seq<Requirement>, ids: seq<string>, i: nat):
    (r: Result<seq<Requirement>, string>)
    requires i <= |ids|
    ensures r.Ok? <==> forall k :: i <= k < |ids| ==> FindItem(catalog, ids[k]).Some?
    ensures r.Err? ==> r.error == MissingRequirement
    ensures r.Ok? ==> |r.value| == |ids| - i
    ensures r.Ok? ==> forall k :: i <= k < |ids| ==>
      r.value[k - i] == EntryOf(FindItem(catalog, ids[k]).value, FindSaved(saved, ids[k]), k)
    decreases |ids| - i
  {
    if i == |ids| then Ok([])
    else match FindItem(catalog, ids[i])
      case None => Err(MissingRequirement)
      case Some(item) =>
        var rest := EntriesFrom(catalog, saved, ids, i + 1);
        if rest.Err? then rest
        else Ok([EntryOf(item, FindSaved(saved, ids[i]), i)] + rest.value)
  }

  function NegRank(r: Requirement): int { -r.rank }

  /** `proceedToRanking`'s list: the entries sorted by ascending rank, which is
      the stable descending sort on the negated rank. */
  function RankedOf(catalog: seq<CatalogItem>, saved: seq<Requirement>, ids: seq<string>):
    Result<seq<Requirement>, string>
  {
    var es := EntriesFrom(catalog, saved, ids, 0);
    if es.Err? then es else Ok(Sorting.SortDesc(es.value, NegRank))
  }

  /** One entry per picked id, in ascending rank order, each with the saved
      rank and match when they are set and `index + 1` and 3 otherwise; the
      step fails exactly when some picked id is not in the catalog. */
  lemma RankedOfProps(catalog: seq<CatalogItem>, saved: seq<Requirement>, ids: seq<string>)
    ensures RankedOf(catalog, saved, ids).Ok? <==> forall k :: 0 <= k < |ids| ==> FindItem(catalog, ids[k]).Some?
    ensures var r := RankedOf(catalog, saved, ids);
      r.Ok? ==>
        |r.value| == |ids|
        && multiset(r.value) == multiset(EntriesFrom(catalog, saved, ids, 0).value)
        && (forall i, j :: 0 <= i < j < |r.value| ==> r.value[i].rank <= r.value[j].rank)
  {
    var es := EntriesFrom(catalog, saved, ids, 0);
    if es.Ok? {
      Sorting.SortDescSorted(es.value, NegRank);
      var r := Sorting.SortDesc(es.value, NegRank);
      forall i, j | 0 <= i < j < |r| ensures r[i].rank <= r[j].rank {
        assert NegRank(r[i]) >= NegRank(r[j]);
      }
    }
  }

  /** Entries whose saved rank is set keep it; the others are numbered by
      their position among the picks. */
  lemma EntryDefaults(item: CatalogItem, existing: Option<Requirement>, index: int)
    ensures existing.None? ==> EntryOf(item, existing, index).rank == index + 1
    ensures existing.None? ==> EntryOf(item, existing, index).currentMatch == 3
    ensures existing.Some? && existing.value.rank != 0 ==> EntryOf(item, existing, index).rank == existing.value.rank
    ensures existing.Some? && existing.value.rank == 0 ==> EntryOf(item, existing, index).rank == index + 1
    ensures existing.Some? && existing.value.currentMatch == 0 ==> EntryOf(item, existing, index).currentMatch == 3
  {
  }

  /** `updateRankOrder`: the ranks become the positions, counted from 1. */
  function Rerank(order: seq<Requirement>): (r: seq<Requirement>)
    ensures |r| == |order|
  {
    seq(|order|, i requires 0 <= i < |order| => order[i].(rank := i + 1))
  }

  /** After reranking the ranks are exactly 1..n in list order, everything
      else is unchanged, and reranking again changes nothing. */
  lemma RerankProps(order: seq<Requirement>)
    ensures forall i :: 0 <= i < |order| ==> Rerank(order)[i].rank == i + 1
    ensures forall i :: 0 <= i < |order| ==> Rerank(order)[i].(rank := 0) == order[i].(rank := 0)
    ensures Rerank(Rerank(order)) == Rerank(order)
    ensures Sorting.SortedDesc(Rerank(order), NegRank)
  {
  }

  /** The two fields the details form edits. */
  datatype Detail = Importance(text: string) | CurrentMatch(score: int)

  /** `{ ...req, [field]: value }`. */
  function WithDetail(req: Requirement, d: Detail): Requirement
  {
    match d
    case Importance(text) => req.(importance := text)
    case CurrentMatch(score) => req.(currentMatch := score)
  }

  /** `updateRequirementDetails`. */
  function UpdateDetails(rs: seq<Requirement>, reqId: string, d: Detail): (r: seq<Requirement>)
    ensures |r| == |rs|
  {
    seq(|rs|, i requires 0 <= i < |rs| => if rs[i].id == reqId then WithDetail(rs[i], d) else rs[i])
  }

  /** Only the edited field of the entries with the id changes; ids, ranks,
      order and length are preserved. */
  lemma UpdateDetailsProps(rs: seq<Requirement>, reqId: string, d: Detail)
    ensures forall i :: 0 <= i < |rs| ==>
      UpdateDetails(rs, reqId, d)[i].id == rs[i].id && UpdateDetails(rs, reqId, d)[i].rank == rs[i].rank
    ensures forall i :: 0 <= i < |rs| && rs[i].id != reqId ==> UpdateDetails(rs, reqId, d)[i] == rs[i]
    ensures forall i :: 0 <= i < |rs| && rs[i].id == reqId ==>
      match d
      case Importance(text) =>
        UpdateDetails(rs, reqId, d)[i] == rs[i].(importance := text)
      case CurrentMatch(score) =>
        UpdateDetails(rs, reqId, d)[i] == rs[i].(currentMatch := score)
    ensures Sorting.SortedDesc(rs, NegRank) ==> Sorting.SortedDesc(UpdateDetails(rs, reqId, d), NegRank)
  {
  }

  /** `Σ (currentMatch || 3)`. */
  function MatchTotal(rs: seq<Requirement>): int
  {
    if rs == [] then 0 else OrDefault(rs[0].currentMatch, 3) + MatchTotal(rs[1..])
  }

  /** Every match, after the default, is a score from 1 to 5. */
  predicate ScoresInRange(rs: seq<Requirement>)
  {
    forall i :: 0 <= i < |rs| ==> 1 <= OrDefault(rs[i].currentMatch, 3) <= 5
  }

  lemma {:induction false} MatchTotalBounds(rs: seq<Requirement>)
    requires ScoresInRange(rs)
    ensures |rs| <= MatchTotal(rs) <= 5 * |rs|
  {
    if rs != [] {
      assert ScoresInRange(rs[1..]) by {
        forall i | 0 <= i < |rs[1..]| ensures 1 <= OrDefault(rs[1..][i].currentMatch, 3) <= 5 {
          assert rs[1..][i] == rs[i + 1];
        }
      }
      MatchTotalBounds(rs[1..]);
    }
  }

  /** `calculateSatisfactionScore`: the matches as a rounded percentage of
      five per requirement. */
  function SatisfactionScore(rs: seq<Requirement>): int
  {
    if |rs| == 0 then 0
    else Round(MatchTotal(rs) as real / (|rs| * 5) as real * 100.0)
  }

  /** With every match in 1..5 the score lies in [20, 100]; a list of all
      fives scores 100. */
  lemma SatisfactionScoreRange(rs: seq<Requirement>)
    requires rs != [] && ScoresInRange(rs)
    ensures 20 <= SatisfactionScore(rs) <= 100
    ensures MatchTotal(rs) == 5 * |rs| ==> SatisfactionScore(rs) == 100
  {
    MatchTotalBounds(rs);
    PercentBounds(MatchTotal(rs), |rs|);
  }

  /** A total between `n` and `5n`, over `5n`, as a rounded percentage. */
  lemma PercentBounds(t: int, n: int)
    requires 0 < n && n <= t <= 5 * n
    ensures 20 <= Round(t as real / (n * 5) as real * 100.0) <= 100
    ensures t == 5 * n ==> Round(t as real / (n * 5) as real * 100.0) == 100
  {
    var d := (n * 5) as real;
    var q := t as real / d;
    QuotientBounds(t as real, d);
    RoundBounds(q * 100.0, 20, 100);
    if t == 5 * n {
      DivSelf(d);
      RoundInt(100);
    }
  }

  lemma QuotientBounds(t: real, d: real)
    requires d > 0.0 && d <= 5.0 * t && t <= d
    ensures 0.2 <= t / d <= 1.0
  {
    var q := t / d;
    assert q * d == t;
    if q < 0.2 {
      MulStrict(q, 0.2, d);
    }
    if q > 1.0 {
      MulStrict(1.0, q, d);
    }
  }

  lemma DivSelf(d: real)
    requires d > 0.0
    ensures d / d == 1.0
  {
  }

  /** `getCardColor`. */
  function CardColor(score: int): string
  {
    match score
    case 1 => "red"
    case 2 => "orange"
    case 3 => "yellow"
    case 4 => "blue"
    case 5 => "green"
    case _ => "gray"
  }

  /** The five scores get five different colours, none of them gray; every
      other value is gray. */
  lemma CardColorProps(a: int, b: int)
    ensures CardColor(a) == "gray" <==> !(1 <= a <= 5)
    ensures 1 <= a <= 5 && 1 <= b <= 5 && a != b ==> CardColor(a) != CardColor(b)
  {
  }

  class RequirementsStep {
    const catalog: seq<CatalogItem>
    var phase: Phase
    var selectedRequirements: seq<string>
    var rankedRequirements: seq<Requirement>
    /** `formData.workRequirements` as last passed to `updateFormData`. */
    var saved: seq<Requirement>
    /** Whether `markStepComplete(3)` and `onComplete` have been called. */
    var completionRequested: bool

    /** Past the selection phase the list is in ascending rank order. */
    ghost predicate Valid()
      reads this
    {
      phase != Selection ==> Sorting.SortedDesc(rankedRequirements, NegRank)
    }

    /** The step opens on the saved list; picks are the saved ids, or the
        names where an id is empty (`r.id || r.name`). */
    constructor(catalog: seq<CatalogItem>, workRequirements: seq<Requirement>)
      ensures Valid()
      ensures this.catalog == catalog && phase == Selection && !completionRequested
      ensures selectedRequirements == seq(|workRequirements|, i requires 0 <= i < |workRequirements| =>
        if workRequirements[i].id != "" then workRequirements[i].id else workRequirements[i].name)
      ensures rankedRequirements == workRequirements && saved == workRequirements
    {
      this.catalog := catalog;
      phase := Selection;
      selectedRequirements := seq(|workRequirements|, i requires 0 <= i < |workRequirements| =>
        if workRequirements[i].id != "" then workRequirements[i].id else workRequirements[i].name);
      rankedRequirements := workRequirements;
      saved := workRequirements;
      completionRequested := false;
    }

    /** `toggleRequirement`, in the selection phase. */
    method ToggleRequirement(reqId: string)
      requires Valid() && phase == Selection
      modifies this
      ensures Valid()
      ensures selectedRequirements == ToggleCapped(old(selectedRequirements), reqId)
      ensures phase == old(phase) && rankedRequirements == old(rankedRequirements)
      ensures saved == old(saved) && completionRequested == old(completionRequested)
    {
      if reqId in selectedRequirements {
        selectedRequirements := Remove(selectedRequirements, reqId);
      } else if |selectedRequirements| < MaxRequirements {
        selectedRequirements := selectedRequirements + [reqId];
      }
    }

    /** `proceedToRanking`, in the selection phase with something picked. A
        pick missing from the catalog raises an error and changes nothing. */
    method ProceedToRanking() returns (error: Option<string>)
      requires Valid() && phase == Selection && |selectedRequirements| > 0
      modifies this
      ensures Valid()
      ensures var r := RankedOf(catalog, old(saved), old(selectedRequirements));
        if r.Ok? then error.None? && phase == Ranking && rankedRequirements == r.value
        else error == Some(r.error) && phase == old(phase) && rankedRequirements == old(rankedRequirements)
      ensures selectedRequirements == old(selectedRequirements)
      ensures saved == old(saved) && completionRequested == old(completionRequested)
    {
      var r := RankedOf(catalog, saved, selectedRequirements);
      if r.Ok? {
        Sorting.SortDescSorted(EntriesFrom(catalog, saved, selectedRequirements, 0).value, NegRank);
        rankedRequirements := r.value;
        phase := Ranking;
        error := None;
      } else {
        error := Some(r.error);
      }
    }

    /** `updateRankOrder`, on the list reordered by dragging. */
    method UpdateRankOrder(newOrder: seq<Requirement>)
      requires Valid() && phase == Ranking
      modifies this
      ensures Valid()
      ensures rankedRequirements == Rerank(newOrder)
      ensures phase == old(phase) && selectedRequirements == old(selectedRequirements)
      ensures saved == old(saved) && completionRequested == old(completionRequested)
    {
      RerankProps(newOrder);
      rankedRequirements := Rerank(newOrder);
    }

    /** The Back button of the ranking phase. */
    method BackToSelection()
      requires Valid() && phase == Ranking
      modifies this
      ensures Valid() && phase == Selection
      ensures selectedRequirements == old(selectedRequirements) && rankedRequirements == old(rankedRequirements)
      ensures saved == old(saved) && completionRequested == old(completionRequested)
    {
      phase := Selection;
    }

    /** `saveAndProceed`: saves the ranking and opens the details. */
    method SaveAndProceed()
      requires Valid() && phase == Ranking
      modifies this
      ensures Valid() && phase == Details
      ensures saved == rankedRequirements
      ensures selectedRequirements == old(selectedRequirements) && rankedRequirements == old(rankedRequirements)
      ensures completionRequested == old(completionRequested)
    {
      saved := rankedRequirements;
      phase := Details;
    }

    /** `updateRequirementDetails`, in the details phase: edits and saves. */
    method UpdateRequirementDetails(reqId: string, d: Detail)
      requires Valid() && phase == Details
      modifies this
      ensures Valid()
      ensures rankedRequirements == UpdateDetails(old(rankedRequirements), reqId, d)
      ensures saved == rankedRequirements
      ensures phase == old(phase) && selectedRequirements == old(selectedRequirements)
      ensures completionRequested == old(completionRequested)
    {
      UpdateDetailsProps(rankedRequirements, reqId, d);
      rankedRequirements := UpdateDetails(rankedRequirements, reqId, d);
      saved := rankedRequirements;
    }

    /** The "Back to Ranking" button. */
    method BackToRanking()
      requires Valid() && phase == Details
      modifies this
      ensures Valid() && phase == Ranking
      ensures selectedRequirements == old(selectedRequirements) && rankedRequirements == old(rankedRequirements)
      ensures saved == old(saved) && completionRequested == old(completionRequested)
    {
      phase := Ranking;
    }

    /** `handleComplete`: saves the list and asks the wizard to mark the
        step complete. */
    method HandleComplete()
      requires Valid() && phase == Details
      modifies this
      ensures Valid()
      ensures saved == rankedRequirements && completionRequested
      ensures phase == old(phase) && selectedRequirements == old(selectedRequirements)
      ensures rankedRequirements == old(rankedRequirements)
    {
      saved := rankedRequirements;
      completionRequested := true;
    }
  }
}
