/**
  The interactive "create a challenge" demo: the single `ChallengeState`
  record, its initial value, the shallow-merge `updateState`, restart, and
  the timer effect that moves step 5 to step 6.

  Timers are not wall-clock time: scheduling one appends it to `pending`, and
  the event loop later fires any pending timer with `Fire`. Nothing ever
  removes a timer except firing it, as in the component, which keeps no
  handle to cancel them.
 */
module ChallengeShowcase {
  import opened Prelude

  /** The six ordinal stages of the walkthrough. */
  type StepId = n: int | 1 <= n <= 6 witness 1

  datatype FinishMode = BothConfirm | TrustedFriend | AutoCheck

  /** The label each finish mode carries in the component. */
  function ModeLabel(m: FinishMode): string
  {
    match m
    case BothConfirm => "We both confirm"
    case TrustedFriend => "Trusted friend decides"
    case AutoCheck => "Auto-check"
  }

  datatype ChallengeState = ChallengeState(
    step: StepId,
    eventText: string,
    selectedSide: Option<string>,
    opponentHandle: Option<string>,
    amount: Option<int>,
    finishMode: Option<FinishMode>,
    judgeHandle: Option<string>,
    outcome: Option<string>,
    isAnimating: bool,
    isRestarting: bool)

  /** `INITIAL_STATE`. */
  const Initial := ChallengeState(1, "", None, None, None, None, None, None, false, false)

  // ---------------------------------------------------------------------
  // The record seen field by field
  // ---------------------------------------------------------------------

  datatype FieldName =
    | StepField | EventTextField | SelectedSideField | OpponentHandleField | AmountField
    | FinishModeField | JudgeHandleField | OutcomeField | IsAnimatingField | IsRestartingField

  datatype FieldValue =
    | StepValue(step: StepId)
    | TextValue(text: string)
    | NameValue(name: Option<string>)
    | AmountValue(amount: Option<int>)
    | ModeValue(mode: Option<FinishMode>)
    | FlagValue(flag: bool)

  function Get(s: ChallengeState, f: FieldName): FieldValue
  {
    match f
    case StepField => StepValue(s.step)
    case EventTextField => TextValue(s.eventText)
    case SelectedSideField => NameValue(s.selectedSide)
    case OpponentHandleField => NameValue(s.opponentHandle)
    case AmountField => AmountValue(s.amount)
    case FinishModeField => ModeValue(s.finishMode)
    case JudgeHandleField => NameValue(s.judgeHandle)
    case OutcomeField => NameValue(s.outcome)
    case IsAnimatingField => FlagValue(s.isAnimating)
    case IsRestartingField => FlagValue(s.isRestarting)
  }

  /** The fields typed `T | null`. */
  predicate Nullable(f: FieldName)
  {
    f.SelectedSideField? || f.OpponentHandleField? || f.AmountField? || f.FinishModeField?
    || f.JudgeHandleField? || f.OutcomeField?
  }

  predicate IsNull(v: FieldValue)
  {
    match v
    case NameValue(n) => n.None?
    case AmountValue(a) => a.None?
    case ModeValue(m) => m.None?
    case _ => false
  }

  /** The initial state: step 1, no event text, every nullable field null, both flags down. */
  lemma InitialIsBlank(f: FieldName)
    ensures Get(Initial, f) == StepValue(1) <==> f.StepField?
    ensures Get(Initial, f) == TextValue("") <==> f.EventTextField?
    ensures IsNull(Get(Initial, f)) <==> Nullable(f)
    ensures Get(Initial, f) == FlagValue(false) <==> f.IsAnimatingField? || f.IsRestartingField?
  {
  }

  /** Two states that agree on every field are the same state. */
  lemma {:induction false} SameFieldsSameState(a: ChallengeState, b: ChallengeState)
    requires forall f :: Get(a, f) == Get(b, f)
    ensures a == b
  {
    assert Get(a, StepField) == Get(b, StepField);
    assert Get(a, EventTextField) == Get(b, EventTextField);
    assert Get(a, SelectedSideField) == Get(b, SelectedSideField);
    assert Get(a, OpponentHandleField) == Get(b, OpponentHandleField);
    assert Get(a, AmountField) == Get(b, AmountField);
    assert Get(a, FinishModeField) == Get(b, FinishModeField);
    assert Get(a, JudgeHandleField) == Get(b, JudgeHandleField);
    assert Get(a, OutcomeField) == Get(b, OutcomeField);
    assert Get(a, IsAnimatingField) == Get(b, IsAnimatingField);
    assert Get(a, IsRestartingField) == Get(b, IsRestartingField);
  }

  // ---------------------------------------------------------------------
  // Partial<ChallengeState> and the shallow merge
  // ---------------------------------------------------------------------

  /** One key of a `Partial<ChallengeState>`: absent, or present with a value (possibly null). */
  datatype Change<T> = Keep | Put(value: T)

  function Apply<T>(current: T, c: Change<T>): T
  {
    if c.Put? then c.value else current
  }

  datatype Patch = Patch(
    step: Change<StepId>,
    eventText: Change<string>,
    selectedSide: Change<Option<string>>,
    opponentHandle: Change<Option<string>>,
    amount: Change<Option<int>>,
    finishMode: Change<Option<FinishMode>>,
    judgeHandle: Change<Option<string>>,
    outcome: Change<Option<string>>,
    isAnimating: Change<bool>,
    isRestarting: Change<bool>)

  /** The empty update `{}`. */
  const NoChange := Patch(Keep, Keep, Keep, Keep, Keep, Keep, Keep, Keep, Keep, Keep)

  function Lift<T>(c: Change<T>, wrap: T -> FieldValue): Change<FieldValue>
  {
    if c.Put? then Put(wrap(c.value)) else Keep
  }

  /** The key of `p` that names field `f`. */
  function PatchAt(p: Patch, f: FieldName): Change<FieldValue>
  {
    match f
    case StepField => Lift(p.step, x => StepValue(x))
    case EventTextField => Lift(p.eventText, x => TextValue(x))
    case SelectedSideField => Lift(p.selectedSide, x => NameValue(x))
    case OpponentHandleField => Lift(p.opponentHandle, x => NameValue(x))
    case AmountField => Lift(p.amount, x => AmountValue(x))
    case FinishModeField => Lift(p.finishMode, x => ModeValue(x))
    case JudgeHandleField => Lift(p.judgeHandle, x => NameValue(x))
    case OutcomeField => Lift(p.outcome, x => NameValue(x))
    case IsAnimatingField => Lift(p.isAnimating, x => FlagValue(x))
    case IsRestartingField => Lift(p.isRestarting, x => FlagValue(x))
  }

  /** `{ ...prev, ...updates }`: every field present in the update is replaced, every other field is kept. */
  function Merge(s: ChallengeState, p: Patch): (r: ChallengeState)
    ensures forall f :: Get(r, f) == Apply(Get(s, f), PatchAt(p, f))
  {
    ChallengeState(
      Apply(s.step, p.step), Apply(s.eventText, p.eventText),
      Apply(s.selectedSide, p.selectedSide), Apply(s.opponentHandle, p.opponentHandle),
      Apply(s.amount, p.amount), Apply(s.finishMode, p.finishMode),
      Apply(s.judgeHandle, p.judgeHandle), Apply(s.outcome, p.outcome),
      Apply(s.isAnimating, p.isAnimating), Apply(s.isRestarting, p.isRestarting))
  }

  /** The merge is the only state that takes the update's fields and keeps the others. */
  lemma MergeIsUnique(s: ChallengeState, p: Patch, r: ChallengeState)
    requires forall f :: Get(r, f) == Apply(Get(s, f), PatchAt(p, f))
    ensures r == Merge(s, p)
  {
    SameFieldsSameState(r, Merge(s, p));
  }

  /** The update `{}` changes nothing. */
  lemma MergeNothing(s: ChallengeState)
    ensures Merge(s, NoChange) == s
  {
  }

  /** `q` applied after `p`, as one update: a key of `q` wins over the same key of `p`. */
  function Then(p: Patch, q: Patch): Patch
  {
    Patch(
      if q.step.Put? then q.step else p.step,
      if q.eventText.Put? then q.eventText else p.eventText,
      if q.selectedSide.Put? then q.selectedSide else p.selectedSide,
      if q.opponentHandle.Put? then q.opponentHandle else p.opponentHandle,
      if q.amount.Put? then q.amount else p.amount,
      if q.finishMode.Put? then q.finishMode else p.finishMode,
      if q.judgeHandle.Put? then q.judgeHandle else p.judgeHandle,
      if q.outcome.Put? then q.outcome else p.outcome,
      if q.isAnimating.Put? then q.isAnimating else p.isAnimating,
      if q.isRestarting.Put? then q.isRestarting else p.isRestarting)
  }

  /** Two successive `updateState` calls have the effect of the one combined update. */
  lemma MergeThen(s: ChallengeState, p: Patch, q: Patch)
    ensures Merge(Merge(s, p), q) == Merge(s, Then(p, q))
  {
  }

  /** Repeating an update changes nothing more. */
  lemma MergeIdempotent(s: ChallengeState, p: Patch)
    ensures Merge(Merge(s, p), p) == Merge(s, p)
  {
    MergeThen(s, p, p);
    assert Then(p, p) == p;
  }

  // ---------------------------------------------------------------------
  // Timers
  // ---------------------------------------------------------------------

  /** A callback the showcase has handed to `setTimeout`, with its delay in milliseconds. */
  datatype ShowcaseTimer =
    | ResetTimer(delay: nat)    // restart: replace the whole state by the initial one
    | AdvanceTimer(delay: nat)  // step 5 -> 6

  const ResetDelay: nat := 100

  /** The step-5 countdown: 1600 ms, or 0 ms when the platform asks for reduced motion. */
  function AdvanceDelay(reduceMotion: bool): (ms: nat)
    ensures reduceMotion ==> ms == 0
    ensures !reduceMotion ==> ms == 1600
  {
    if reduceMotion then 0 else 1600
  }

  /** The update restart makes at once: only `isRestarting`. */
  const RestartPatch := NoChange.(isRestarting := Put(true))

  /** The update the step-5 timer makes when it fires. */
  const AdvancePatch := NoChange.(step := Put(6), isAnimating := Put(false))

  /** Pressing restart twice leaves the state as pressing it once. */
  lemma RestartTwice(s: ChallengeState)
    ensures Merge(Merge(s, RestartPatch), RestartPatch) == Merge(s, RestartPatch)
    ensures Merge(s, RestartPatch) == s.(isRestarting := true)
  {
    MergeIdempotent(s, RestartPatch);
  }

  /** Whether a timer of kind "advance" is still waiting in `pending`. */
  predicate AdvancePending(pending: seq<ShowcaseTimer>)
  {
    exists t :: t in pending && t.AdvanceTimer?
  }

  /** The component that owns the demo's state. */
  class Showcase {
    var state: ChallengeState
    var pending: seq<ShowcaseTimer>
    /** The reduced-motion preference, read once per session. */
    const reduceMotion: bool

    /**
      While `isAnimating` holds, an advance timer is waiting that will clear
      it, so the rail's restart button is never disabled for good.
     */
    ghost predicate Valid()
      reads this
    {
      state.isAnimating ==> AdvancePending(pending)
    }

    constructor (reduceMotion: bool)
      ensures Valid()
      ensures state == Initial && pending == [] && this.reduceMotion == reduceMotion
    {
      state := Initial;
      pending := [];
      this.reduceMotion := reduceMotion;
    }

    /** `updateState`, as passed to the card, which never writes `isAnimating`. */
    method UpdateState(p: Patch)
      requires Valid() && p.isAnimating.Keep?
      modifies this
      ensures Valid()
      ensures state == Merge(old(state), p) && pending == old(pending)
    {
      state := Merge(state, p);
    }

    /** `handleRestart`: raise `isRestarting` now, reset everything when the timer fires. */
    method Restart()
      requires Valid()
      modifies this
      ensures Valid()
      ensures state == old(state).(isRestarting := true)
      ensures pending == old(pending) + [ResetTimer(ResetDelay)]
    {
      RestartTwice(state);
      UpdateState(RestartPatch);
      pending := pending + [ResetTimer(ResetDelay)];
    }

    /** The effect on `[step, isAnimating]`: on step 5, raise `isAnimating` and start the countdown. */
    method TimerEffect()
      requires Valid()
      modifies this
      ensures Valid()
      ensures old(state.step) == 5 && !old(state.isAnimating) ==>
        state == old(state).(isAnimating := true)
        && pending == old(pending) + [AdvanceTimer(AdvanceDelay(reduceMotion))]
      ensures !(old(state.step) == 5 && !old(state.isAnimating)) ==>
        state == old(state) && pending == old(pending)
    {
      if state.step == 5 && !state.isAnimating {
        state := Merge(state, NoChange.(isAnimating := Put(true)));
        pending := pending + [AdvanceTimer(AdvanceDelay(reduceMotion))];
        assert pending[|pending| - 1].AdvanceTimer?;
      }
    }

    /** The event loop runs the pending timer at index `i`. */
    method Fire(i: nat)
      requires Valid() && i < |pending|
      modifies this
      ensures Valid()
      ensures pending == old(pending[..i] + pending[i + 1..])
      ensures old(pending[i]).ResetTimer? ==> state == Initial
      ensures old(pending[i]).AdvanceTimer? ==> state == old(state).(step := 6, isAnimating := false)
    {
      var t := pending[i];
      pending := pending[..i] + pending[i + 1..];
      match t
      case ResetTimer(_) =>
        state := Initial.(isRestarting := false);
      case AdvanceTimer(_) =>
        state := Merge(state, AdvancePatch);
    }
  }
}
