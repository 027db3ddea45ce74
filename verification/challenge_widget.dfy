/**
  The hero widget: a three-step "create a 2-side challenge" card for the
  fixed event "Lakers vs Warriors". Picking a side moves it to step 2 and
  picking a finish mode to step 3; "Create challenge" validates both choices
  in order and reports the first one missing.
 */
module ChallengeWidget {
  import opened Prelude

  datatype Side = Lakers | Warriors

  function SideLabel(side: Side): string
  {
    match side
    case Lakers => "Lakers"
    case Warriors => "Warriors"
  }

  /** The side the friend takes in the "Friend joins" preview: the one the user did not pick. */
  function Opponent(side: Side): (other: Side)
    ensures other != side
  {
    if side == Lakers then Warriors else Lakers
  }

  /** Taking the other side twice comes back to the user's side, and the two labels differ. */
  lemma OpponentInvolution(side: Side)
    ensures Opponent(Opponent(side)) == side
    ensures SideLabel(Opponent(side)) != SideLabel(side)
  {
  }

  datatype FinishMode = BothConfirm | TrustedFriendDecides | AutoCheck

  const PickSideMessage := "Pick a side to continue."
  const ChooseFinishMessage := "Choose how it finishes."

  /**
    The message "Create challenge" reports: the missing side first, then the
    missing finish mode; none once both are chosen.
   */
  function CreateError(side: Option<Side>, mode: Option<FinishMode>): (e: Option<string>)
    ensures e.None? <==> side.Some? && mode.Some?
    ensures side.None? ==> e == Some(PickSideMessage)
    ensures side.Some? && mode.None? ==> e == Some(ChooseFinishMessage)
  {
    if side.None? then Some(PickSideMessage)
    else if mode.None? then Some(ChooseFinishMessage)
    else None
  }

  function Max(a: int, b: int): int
  {
    if a < b then b else a
  }

  /** The step the widget shows for the choices made so far. */
  function ExpectedStep(side: Option<Side>, mode: Option<FinishMode>): (step: int)
    ensures 1 <= step <= 3
    ensures step == 3 <==> mode.Some?
    ensures step == 1 <==> side.None? && mode.None?
  {
    if mode.Some? then 3 else if side.Some? then 2 else 1
  }

  /** Making more choices never moves the expected step back. */
  lemma ExpectedStepMonotone(side: Option<Side>, mode: Option<FinishMode>, side': Option<Side>, mode': Option<FinishMode>)
    requires side.Some? ==> side'.Some?
    requires mode.Some? ==> mode'.Some?
    ensures ExpectedStep(side, mode) <= ExpectedStep(side', mode')
  {
  }

  /** Progress segment `s` (of 1, 2, 3) is lit once the widget has reached step `s`. */
  predicate SegmentLit(step: int, s: int)
  {
    step >= s
  }

  /** The three progress segments as drawn. */
  function Segments(step: int): (lit: seq<bool>)
    ensures |lit| == 3
    ensures forall k :: 0 <= k < 3 ==> lit[k] == SegmentLit(step, k + 1)
  {
    [SegmentLit(step, 1), SegmentLit(step, 2), SegmentLit(step, 3)]
  }

  /** On a step 1..3 exactly the first `step` segments are lit. */
  lemma LitSegmentsArePrefix(step: int)
    requires 1 <= step <= 3
    ensures forall k :: 0 <= k < 3 ==> (Segments(step)[k] <==> k < step)
  {
  }

  /** The "Friend joins" preview is shown from step 2 on, once a side is chosen. */
  predicate FriendPanelVisible(step: int, side: Option<Side>)
  {
    step >= 2 && side.Some?
  }

  /** In any reachable state the preview is shown exactly when a side is chosen. */
  lemma FriendPanelIffSide(side: Option<Side>, mode: Option<FinishMode>)
    ensures FriendPanelVisible(ExpectedStep(side, mode), side) <==> side.Some?
  {
  }

  class Widget {
    var step: int
    var selectedSide: Option<Side>
    var finishMode: Option<FinishMode>
    var error: Option<string>

    /**
      The step is determined by the choices made, and a shown error is the
      one "Create challenge" would report now.
     */
    ghost predicate Valid()
      reads this
    {
      && step == ExpectedStep(selectedSide, finishMode)
      && (error.None? || error == CreateError(selectedSide, finishMode))
    }

    constructor ()
      ensures Valid()
      ensures step == 1 && selectedSide == None && finishMode == None && error == None
    {
      step := 1;
      selectedSide := None;
      finishMode := None;
      error := None;
    }

    /** `handleSideSelect`. */
    method SelectSide(side: Side)
      requires Valid()
      modifies this
      ensures Valid()
      ensures old(selectedSide) == Some(side) ==> unchanged(this)
      ensures old(selectedSide) != Some(side) ==>
                && selectedSide == Some(side)
                && error == None
                && step == Max(old(step), 2)
                && finishMode == old(finishMode)
      ensures old(step) <= step
    {
      if selectedSide == Some(side) {
        return;
      }
      selectedSide := Some(side);
      error := None;
      if step < 2 {
        step := 2;
      }
    }

    /** `handleFinishSelect`. */
    method SelectFinish(mode: FinishMode)
      requires Valid()
      modifies this
      ensures Valid()
      ensures finishMode == Some(mode)
      ensures error == None
      ensures step == Max(old(step), 3) == 3
      ensures selectedSide == old(selectedSide)
      ensures old(step) <= step
    {
      finishMode := Some(mode);
      error := None;
      if step < 3 {
        step := 3;
      }
    }

    /**
      `handleCreate`: reports the first missing choice; with both chosen the
      widget state is left as it is (the page scroll is not modelled).
     */
    method Create()
      requires Valid()
      modifies this
      ensures Valid()
      ensures step == old(step) && selectedSide == old(selectedSide) && finishMode == old(finishMode)
      ensures selectedSide.None? ==> error == Some(PickSideMessage)
      ensures selectedSide.Some? && finishMode.None? ==> error == Some(ChooseFinishMessage)
      ensures selectedSide.Some? && finishMode.Some? ==> unchanged(this) && error == None
    {
      if selectedSide.None? {
        error := Some(PickSideMessage);
        return;
      }
      if finishMode.None? {
        error := Some(ChooseFinishMessage);
        return;
      }
    }
  }

  /**
    "Create challenge" pressed at each stage: before any choice it asks for
    a side; after only a finish mode (the widget already on step 3) it still
    asks for a side; with both it reports nothing.
   */
  method CreateAtEachStage() returns (first: Option<string>, stepWithModeOnly: int, second: Option<string>, last: Option<string>)
    ensures first == Some(PickSideMessage)
    ensures stepWithModeOnly == 3
    ensures second == Some(PickSideMessage)
    ensures last == None
  {
    var w := new Widget();
    w.Create();
    first := w.error;
    w.SelectFinish(AutoCheck);
    stepWithModeOnly := w.step;
    w.Create();
    second := w.error;
    w.SelectSide(Warriors);
    w.Create();
    last := w.error;
  }
}
