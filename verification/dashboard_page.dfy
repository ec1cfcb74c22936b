/** The dashboard's summaries of a saved assessment (`DashboardPage`): the
    top archetype and the completion percentage, computed on the assessment
    as stored, whatever its shape. */
module DashboardPage {
  import opened Wrappers
  import opened Json
  import opened Lists
  import opened JsMath

  const NotDetermined: string := "Not determined"

  /** The seven sections the progress counts. */
  const Sections: seq<string> :=
    ["fiveWhyProblems", "workTasks", "workRequirements", "values", "wheelOfLife", "strengths", "dreamJob"]

  /** `v?.length`: arrays and strings have one; an object has one only as a
      property of that name. */
  function LengthOf(v: Option<Value>): Option<Value>
  {
    if v.None? then None
    else match v.value
      case Arr(items) => Some(Num(|items| as real))
      case Str(s) => Some(Num(|s| as real))
      case Obj(fields) => Lookup(fields, "length")
      case _ => None
  }

  /** `v[0]`. */
  function ElementZero(v: Value): Option<Value>
  {
    match v
    case Arr(items) => if items == [] then None else Some(items[0])
    case Str(s) => if s == "" then None else Some(Str([s[0]]))
    case Obj(fields) => Lookup(fields, "0")
    case _ => None
  }

  /** `getTopArchetype` on the stored assessment (`None` when absent). */
  function TopArchetype(data: Option<Value>): Value
  {
    var selected := Prop(Prop(data, "dreamJob"), "selectedArchetypes");
    if !Present(LengthOf(selected)) then Str(NotDetermined)
    else
      var archetype := ElementZero(selected.value);
      if archetype.Some? && archetype.value.Str? then archetype.value
      else if Present(Prop(archetype, "name")) then Prop(archetype, "name").value
      else Str(NotDetermined)
  }

  /** With no assessment, no dream job, or no (or an empty) list of selected
      archetypes, the archetype is not determined. */
  lemma TopArchetypeMissing(data: Option<Value>)
    requires var selected := Prop(Prop(data, "dreamJob"), "selectedArchetypes");
      selected.None? || selected.value == Arr([])
    ensures TopArchetype(data) == Str(NotDetermined)
  {
  }

  /** On a non-empty list the archetype is its first entry when that is a
      string, that entry's name when it is an object with a truthy name,
      and not determined otherwise. */
  lemma TopArchetypeFirst(data: Option<Value>, items: seq<Value>)
    requires Prop(Prop(data, "dreamJob"), "selectedArchetypes") == Some(Arr(items))
    requires items != []
    ensures items[0].Str? ==> TopArchetype(data) == items[0]
    ensures items[0].Obj? && Present(Lookup(items[0].fields, "name")) ==>
      TopArchetype(data) == Lookup(items[0].fields, "name").value
    ensures !items[0].Str? && !items[0].Obj? ==> TopArchetype(data) == Str(NotDetermined)
  {
  }

  /** A string stored in place of the list yields its first character. */
  lemma TopArchetypeOfString(data: Option<Value>, s: string)
    requires Prop(Prop(data, "dreamJob"), "selectedArchetypes") == Some(Str(s))
    requires s != ""
    ensures TopArchetype(data) == Str([s[0]])
  {
  }

  /** The section test of `getAssessmentProgress`. */
  predicate SectionDone(data: Value, section: string)
  {
    var v := Get(data, section);
    v.Some? && Truthy(v.value)
    && ((v.value.Arr? && |v.value.items| > 0)
        || (IsObjectType(v.value) && (v.value.Obj? || v.value.Arr?) && |Entries(v.value)| > 0))
  }

  /** A section counts exactly when it is a non-empty array or an object with
      at least one key, whatever its keys hold. */
  lemma SectionDoneIff(data: Value, section: string)
    ensures SectionDone(data, section) <==>
      match Get(data, section)
      case Some(Arr(items)) => items != []
      case Some(Obj(fields)) => fields != []
      case _ => false
  {
  }

  /** An object whose only field is empty still counts as completed. */
  lemma BlankObjectCounts()
    ensures SectionDone(Obj([("values", Obj([("all", Arr([]))]))]), "values")
  {
  }

  function IsDone(data: Value): string -> bool
  {
    s => SectionDone(data, s)
  }

  /** The number of the given sections that are completed. */
  function CompletedIn(data: Value, sections: seq<string>): (n: nat)
    ensures n <= |sections|
  {
    Count(sections, IsDone(data))
  }

  /** `Math.min(Math.round((completed / sections.length) * 100), 100)`. */
  function Percentage(completed: nat): int
  {
    Min(Round(completed as real / |Sections| as real * 100.0), 100)
  }

  /** `getAssessmentProgress` as a value. */
  function Progress(data: Option<Value>): int
  {
    if !Present(data) then 0 else Percentage(CompletedIn(data.value, Sections))
  }

  /** The `forEach` loop of `getAssessmentProgress`. */
  method CountCompleted(data: Value, sections: seq<string>) returns (completed: nat)
    ensures completed == CompletedIn(data, sections)
  {
    completed := 0;
    var i := 0;
    while i < |sections|
      invariant 0 <= i <= |sections|
      invariant completed == Count(sections[..i], IsDone(data))
    {
      assert sections[..i + 1] == sections[..i] + [sections[i]];
      FilterConcat(sections[..i], [sections[i]], IsDone(data));
      if SectionDone(data, sections[i]) {
        completed := completed + 1;
      }
      i := i + 1;
    }
    assert sections[..|sections|] == sections;
  }

  /** `getAssessmentProgress`. */
  method GetAssessmentProgress(data: Option<Value>) returns (percentage: int)
    ensures percentage == Progress(data)
  {
    if !Present(data) {
      return 0;
    }
    var completed := CountCompleted(data.value, Sections);
    percentage := Percentage(completed);
  }

  /** Up to seven completed sections give a percentage in [0, 100], which is
      100 exactly at seven and grows with the count. */
  lemma PercentageProps(c: nat, d: nat)
    requires c <= 7 && d <= 7
    ensures 0 <= Percentage(c) <= 100
    ensures Percentage(c) == 100 <==> c == 7
    ensures c <= d ==> Percentage(c) <= Percentage(d)
  {
    var x := c as real / 7.0 * 100.0;
    RoundBounds(x, 0, 100);
    if c == 7 {
      RoundInt(100);
    } else {
      RoundMonotone(x, 600.0 / 7.0);
    }
    if c <= d {
      RoundMonotone(x, d as real / 7.0 * 100.0);
    }
  }

  /** Every listed section is complete exactly when all of them count. */
  lemma CompletedAll(data: Value, sections: seq<string>)
    ensures CompletedIn(data, sections) == |sections| <==> forall s :: s in sections ==> SectionDone(data, s)
  {
    if forall s :: s in sections ==> SectionDone(data, s) {
      FilterAll(sections, IsDone(data));
    } else {
      var s :| s in sections && !SectionDone(data, s);
      var i :| 0 <= i < |sections| && sections[i] == s;
      FilterDropsOne(sections, IsDone(data), i);
    }
  }

  /** The percentage is 0 without an assessment, always lies in [0, 100],
      and is 100 exactly when all seven sections are complete. */
  lemma ProgressRange(data: Option<Value>)
    ensures 0 <= Progress(data) <= 100
    ensures !Present(data) ==> Progress(data) == 0
    ensures Progress(data) == 100 <==> Present(data) && forall s :: s in Sections ==> SectionDone(data.value, s)
  {
    if Present(data) {
      var c := CompletedIn(data.value, Sections);
      PercentageProps(c, c);
      CompletedAll(data.value, Sections);
    }
  }

  /** A later assessment with every section of an earlier one completed
      shows at least the earlier percentage. */
  lemma ProgressMonotone(a: Value, b: Value)
    requires Truthy(a) && Truthy(b)
    requires forall s :: s in Sections && SectionDone(a, s) ==> SectionDone(b, s)
    ensures Progress(Some(a)) <= Progress(Some(b))
  {
    CompletedMonotone(a, b, Sections);
    PercentageProps(CompletedIn(a, Sections), CompletedIn(b, Sections));
  }

  lemma CompletedMonotone(a: Value, b: Value, sections: seq<string>)
    requires forall s :: s in sections && SectionDone(a, s) ==> SectionDone(b, s)
    ensures CompletedIn(a, sections) <= CompletedIn(b, sections)
  {
    FilterMonotone(sections, IsDone(a), IsDone(b));
  }
}
