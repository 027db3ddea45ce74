/**
  The progress rail beside the demo: a fixed catalogue of six steps, each
  drawn as completed, current or upcoming from the current step alone, and a
  restart button. Nothing here has state.
 */
module StepsRail {
  import opened Prelude

  datatype StepInfo = StepInfo(id: nat, title: string, desc: string)

  /** `STEPS`. */
  const Steps: seq<StepInfo> := [
    StepInfo(1, "Pick the challenge and your side", "Define it. Pick your side."),
    StepInfo(2, "Pick your friend", "Select who you're challenging."),
    StepInfo(3, "Pick the amount", "Set the stakes."),
    StepInfo(4, "Choose how it ends", "Choose the judge."),
    StepInfo(5, "Event ends", "Time passes..."),
    StepInfo(6, "Winner gets coins", "Paid out automatically.")
  ]

  /** The catalogue has six entries, numbered 1 to 6 in order. */
  lemma CatalogueIsOrdered()
    ensures |Steps| == 6
    ensures forall k :: 0 <= k < |Steps| ==> Steps[k].id == k + 1
  {
  }

  predicate IsCurrent(step: int, id: int)
  {
    step == id
  }

  predicate IsCompleted(step: int, id: int)
  {
    step > id
  }

  datatype Marker = Completed | Current | Upcoming

  /** The marker the rail draws for step `id`; `isCurrent` is tested first. */
  function MarkerOf(step: int, id: int): (m: Marker)
    ensures m == Current <==> IsCurrent(step, id)
    ensures m == Completed <==> IsCompleted(step, id)
    ensures m == Upcoming <==> step < id
  {
    if IsCurrent(step, id) then Current
    else if IsCompleted(step, id) then Completed
    else Upcoming
  }

  /** The markers for the first `n` catalogue ids. */
  function Markers(step: int, n: nat): (ms: seq<Marker>)
    ensures |ms| == n
    ensures forall k :: 0 <= k < n ==> ms[k] == MarkerOf(step, k + 1)
  {
    if n == 0 then [] else Markers(step, n - 1) + [MarkerOf(step, n)]
  }

  /** The rail as drawn: one marker per catalogue entry. */
  function Rail(step: int): (ms: seq<Marker>)
    ensures |ms| == |Steps|
    ensures forall k :: 0 <= k < |Steps| ==> ms[k] == MarkerOf(step, Steps[k].id)
  {
    Markers(step, |Steps|)
  }

  function Count(ms: seq<Marker>, m: Marker): nat
  {
    if ms == [] then 0 else Count(ms[..|ms| - 1], m) + (if ms[|ms| - 1] == m then 1 else 0)
  }

  lemma {:induction false} MarkerCounts(step: int, n: nat)
    requires 1 <= step
    ensures Count(Markers(step, n), Current) == (if step <= n then 1 else 0)
    ensures Count(Markers(step, n), Completed) == (if step - 1 <= n then step - 1 else n)
    ensures Count(Markers(step, n), Upcoming) == (if step <= n then n - step else 0)
  {
    if n > 0 {
      MarkerCounts(step, n - 1);
      assert Markers(step, n)[..n - 1] == Markers(step, n - 1);
    }
  }

  /** For any step 1..6 the rail shows exactly one current step, `step - 1` completed and the rest upcoming. */
  lemma {:induction false} RailCounts(step: int)
    requires 1 <= step <= 6
    ensures Count(Rail(step), Current) == 1
    ensures Count(Rail(step), Completed) == step - 1
    ensures Count(Rail(step), Upcoming) == 6 - step
  {
    MarkerCounts(step, 6);
  }

  /** The description under a step title is expanded only for the current step. */
  predicate DescriptionExpanded(step: int, id: int)
  {
    IsCurrent(step, id)
  }

  /** Exactly one description is expanded, the one of the current step. */
  lemma OneDescriptionExpanded(step: int)
    requires 1 <= step <= 6
    ensures DescriptionExpanded(step, Steps[step - 1].id)
    ensures forall k :: 0 <= k < |Steps| && DescriptionExpanded(step, Steps[k].id) ==> k == step - 1
  {
  }

  /** `disabled={isAnimating || step === 1}` on the restart button. */
  predicate RestartDisabled(step: int, isAnimating: bool)
  {
    isAnimating || step == 1
  }

  /** Restart is offered exactly when nothing animates and the rail shows a completed step. */
  lemma {:induction false} RestartEnabledIffProgress(step: int, isAnimating: bool)
    requires 1 <= step <= 6
    ensures !RestartDisabled(step, isAnimating) <==> !isAnimating && Count(Rail(step), Completed) > 0
  {
    RailCounts(step);
  }

  /** The label inside an upcoming or current marker: `id.toString().padStart(2, "0")`. */
  function IdLabel(id: nat): (text: string)
    ensures |text| >= 2
    ensures ParseDecimal(text) == id
  {
    PaddedDecimalRoundTrip(id, 2);
    PadStart(Decimal(id), 2, '0')
  }

  /** What a marker holds: a check mark once the step is completed, its zero-padded id otherwise. */
  datatype Indicator = CheckMark | Label(text: string)

  function IndicatorOf(step: int, id: nat): (ind: Indicator)
    ensures ind == CheckMark <==> MarkerOf(step, id) == Completed
    ensures ind.Label? ==> ind.text == IdLabel(id)
  {
    if IsCompleted(step, id) then CheckMark else Label(IdLabel(id))
  }

  /** The catalogue ids are labelled "01" to "06". */
  lemma IdLabels(id: nat)
    requires 1 <= id <= 9
    ensures IdLabel(id) == ['0', Digit(id)]
  {
  }

  /** Every label below 100 has two characters and reads back as its id. */
  lemma {:induction false} IdLabelRoundTrip(id: nat)
    requires id < 100
    ensures |IdLabel(id)| == 2
    ensures ParseDecimal(IdLabel(id)) == id
  {
    PaddedDecimalRoundTrip(id, 2);
    if id >= 10 {
      assert Decimal(id) == Decimal(id / 10) + [Digit(id % 10)];
    }
  }
}
