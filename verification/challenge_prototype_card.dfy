/**
  The card that renders the current step of the demo and wires its controls
  to the showcase's state: side candidates derived from the event text, the
  guarded step handlers, the escrow "locking" overlay, the step-6 reveal and
  the payout figures.

  The card changes the shared record only through its host's `UpdateState`
  (the `updateState` prop); `isLocking`, `showResult` and `showConfetti` are
  its own. Its two timers (the 1500 ms escrow lock and the 1500 ms reveal
  wait) go on its own pending list.
 */
module ChallengePrototypeCard {
  import opened Prelude
  import opened ChallengeShowcase
  import StepsRail

  // ---------------------------------------------------------------------
  // Side candidates
  // ---------------------------------------------------------------------

  const IndiaPakistan: seq<string> := ["India", "Pakistan"]
  const LakersWarriors: seq<string> := ["Lakers", "Warriors"]
  const GenericSides: seq<string> := ["Side A", "Side B"]

  /**
    The side pair for an event text: keywords are looked up in the
    lower-cased text, India/Pakistan first, then Lakers/Warriors, then the
    generic pair.
   */
  function Candidates(eventText: string): (sides: seq<string>)
    ensures |sides| == 2 && sides[0] != sides[1]
    ensures sides == IndiaPakistan || sides == LakersWarriors || sides == GenericSides
  {
    var text := ToLower(eventText);
    if Contains(text, "india") || Contains(text, "pakistan") then IndiaPakistan
    else if Contains(text, "lakers") || Contains(text, "warriors") then LakersWarriors
    else GenericSides
  }

  /**
    The render-time update of the `currentSides` ref as written: three
    branches, the last guarded by a condition, and otherwise the previous
    value of the ref is kept. The guarded branch is always taken when
    reached, so the ref never keeps a stale value.
   */
  function NextSides(previous: seq<string>, eventText: string): (sides: seq<string>)
    ensures sides == Candidates(eventText)
  {
    var text := ToLower(eventText);
    if Contains(text, "india") || Contains(text, "pakistan") then IndiaPakistan
    else if Contains(text, "lakers") || Contains(text, "warriors") then LakersWarriors
    else if !Contains(text, "india") && !Contains(text, "lakers") then GenericSides
    else previous
  }

  /** India/Pakistan is offered exactly when the lower-cased text includes either country. */
  lemma CountriesIff(eventText: string)
    ensures Candidates(eventText) == IndiaPakistan <==>
      Contains(ToLower(eventText), "india") || Contains(ToLower(eventText), "pakistan")
  {
    assert IndiaPakistan[0] != LakersWarriors[0] && IndiaPakistan[0] != GenericSides[0];
  }

  /** Lakers/Warriors is offered exactly when no country but some team is included. */
  lemma TeamsIff(eventText: string)
    ensures Candidates(eventText) == LakersWarriors <==>
      && !(Contains(ToLower(eventText), "india") || Contains(ToLower(eventText), "pakistan"))
      && (Contains(ToLower(eventText), "lakers") || Contains(ToLower(eventText), "warriors"))
  {
    assert LakersWarriors[0] != IndiaPakistan[0] && LakersWarriors[0] != GenericSides[0];
  }

  /** The generic pair is offered exactly when none of the four keywords is included. */
  lemma GenericIff(eventText: string)
    ensures Candidates(eventText) == GenericSides <==>
      && !Contains(ToLower(eventText), "india") && !Contains(ToLower(eventText), "pakistan")
      && !Contains(ToLower(eventText), "lakers") && !Contains(ToLower(eventText), "warriors")
  {
    assert GenericSides[0] != IndiaPakistan[0] && GenericSides[0] != LakersWarriors[0];
  }

  /** The candidates depend on the text only up to letter case. */
  lemma CandidatesIgnoreCase(eventText: string)
    ensures Candidates(ToLower(eventText)) == Candidates(eventText)
  {
    ToLowerIdempotent(eventText);
  }

  /** India/Pakistan takes priority: a text naming both a country and a team gives the countries. */
  lemma CountriesBeforeTeams(eventText: string)
    requires Contains(ToLower(eventText), "india") || Contains(ToLower(eventText), "pakistan")
    ensures Candidates(eventText) == IndiaPakistan
  {
  }

  /**
    A text that names a team and has neither a 'd' nor a 'p' (so cannot
    spell "india" or "pakistan") gives the teams.
   */
  lemma TeamsWithoutCountries(eventText: string)
    requires Contains(ToLower(eventText), "lakers") || Contains(ToLower(eventText), "warriors")
    requires 'd' !in ToLower(eventText) && 'p' !in ToLower(eventText)
    ensures Candidates(eventText) == LakersWarriors
  {
    var text := ToLower(eventText);
    if Contains(text, "india") {
      ContainsHasChar(text, "india", 'd');
    }
    if Contains(text, "pakistan") {
      ContainsHasChar(text, "pakistan", 'p');
    }
  }

  lemma LakersPresetPrefix(eventText: string)
    requires eventText == "Lakers vs Warriors"
    ensures StartsWith(ToLower(eventText), "lakers")
  {
    var lower := ToLower(eventText);
    assert lower[0] == 'l' && lower[1] == 'a' && lower[2] == 'k';
    assert lower[3] == 'e' && lower[4] == 'r' && lower[5] == 's';
    assert lower[..6] == "lakers";
  }

  lemma LakersPresetLetters(eventText: string)
    requires eventText == "Lakers vs Warriors"
    ensures 'd' !in ToLower(eventText) && 'p' !in ToLower(eventText)
  {
    ToLowerAvoids(eventText, 'd');
    ToLowerAvoids(eventText, 'p');
  }

  /** The preset "Lakers vs Warriors" offers Lakers and Warriors. */
  lemma LakersPreset(eventText: string)
    requires eventText == "Lakers vs Warriors"
    ensures Candidates(eventText) == LakersWarriors
  {
    LakersPresetPrefix(eventText);
    LakersPresetLetters(eventText);
    TeamsWithoutCountries(eventText);
  }

  lemma IndiaPresetText(eventText: string)
    requires eventText == "India vs Pakistan"
    ensures StartsWith(ToLower(eventText), "india")
  {
    var lower := ToLower(eventText);
    assert lower[0] == 'i' && lower[1] == 'n' && lower[2] == 'd';
    assert lower[3] == 'i' && lower[4] == 'a';
    assert lower[..5] == "india";
  }

  /** The preset "India vs Pakistan" offers India and Pakistan. */
  lemma IndiaPreset(eventText: string)
    requires eventText == "India vs Pakistan"
    ensures Candidates(eventText) == IndiaPakistan
  {
    IndiaPresetText(eventText);
    CountriesBeforeTeams(eventText);
  }

  // ---------------------------------------------------------------------
  // Guards, outcome and payout
  // ---------------------------------------------------------------------

  const Presets: seq<string> := ["Lakers vs Warriors", "India vs Pakistan"]
  const Amounts: seq<int> := [10, 20, 50]
  const Judges: seq<string> := ["@judge_judy", "@crypto_cop", "@blocks_fan"]

  /** Step 1 may be left once the text has three characters and a side is chosen. */
  predicate CanConfirmStep1(s: ChallengeState)
  {
    |s.eventText| >= 3 && Truthy(s.selectedSide)
  }

  /** The step-1 "Next" button is enabled once the text is non-empty and a side is chosen. */
  predicate ConfirmButtonEnabled(s: ChallengeState)
  {
    s.eventText != "" && Truthy(s.selectedSide)
  }

  /**
    The handler's guard is stricter than the button: whatever it accepts the
    button allows, and a text of one or two characters enables the button
    but is refused by the handler.
   */
  lemma ConfirmGuardStricterThanButton(s: ChallengeState)
    ensures CanConfirmStep1(s) ==> ConfirmButtonEnabled(s)
    ensures 1 <= |s.eventText| < 3 && Truthy(s.selectedSide) ==> ConfirmButtonEnabled(s) && !CanConfirmStep1(s)
  {
  }

  /** The step-2 "Next" button is enabled once the handle is non-empty and has an `@`. */
  predicate OpponentReady(handle: Option<string>)
  {
    Truthy(handle) && Contains(handle.value, "@")
  }

  /** A handle without `@` never unlocks step 2, whatever else it holds. */
  lemma NoAtNoStep3(handle: string)
    requires '@' !in handle
    ensures !OpponentReady(Some(handle))
  {
    if Contains(handle, "@") {
      ContainsHasChar(handle, "@", '@');
    }
  }

  const RevealDelay: nat := 1500
  const LockDelay: nat := 1500

  /** The winner shown after the reveal wait: the user's side, or the first candidate. */
  function RevealWinner(captured: Option<string>, eventText: string): (winner: string)
    ensures Truthy(captured) ==> winner == captured.value
    ensures !Truthy(captured) ==> winner == Candidates(eventText)[0] && winner in Candidates(eventText)
  {
    if Truthy(captured) then captured.value else Candidates(eventText)[0]
  }

  /** The winner under reduced motion: the user's side, or the placeholder "Winner". */
  function ReducedMotionWinner(selected: Option<string>): (winner: string)
    ensures winner != ""
    ensures Truthy(selected) ==> winner == selected.value
    ensures !Truthy(selected) ==> winner == "Winner"
  {
    if Truthy(selected) then selected.value else "Winner"
  }

  /** The demo always lets the user win: once a side is chosen, both reveal paths name it. */
  lemma UserAlwaysWins(selected: Option<string>, eventText: string)
    requires Truthy(selected)
    ensures RevealWinner(selected, eventText) == ReducedMotionWinner(selected) == selected.value
  {
  }

  /** "Total pool" advertised on an amount button: both sides lock `amt`, so it splits into two equal stakes. */
  function Pool(amt: int): (pool: int)
    ensures pool % 2 == 0 && pool / 2 == amt
  {
    amt * 2
  }

  /**
    The figure "You won" and "Sending ... to Vault" show: `(amount || 0) * 2`.
    It is the pool the chosen amount's button advertised, and 0 with no amount
    (a zero amount is falsy and also gives 0, the same figure).
   */
  function Payout(amount: Option<int>): (payout: int)
    ensures amount.Some? ==> payout == Pool(amount.value)
    ensures amount.None? ==> payout == 0
  {
    (if amount.Some? && amount.value != 0 then amount.value else 0) * 2
  }

  // ---------------------------------------------------------------------
  // The card and its handlers
  // ---------------------------------------------------------------------

  datatype CardTimer =
    | LockTimer(delay: nat)                           // escrow overlay, then step 4
    | RevealTimer(delay: nat, captured: Option<string>)  // the "Checking" wait on step 6

  /** The dependency list `[step, outcome, selectedSide]` of the step-6 effect. */
  datatype RevealDeps = RevealDeps(step: StepId, outcome: Option<string>, selectedSide: Option<string>)

  function DepsOf(s: ChallengeState): RevealDeps
  {
    RevealDeps(s.step, s.outcome, s.selectedSide)
  }

  predicate LockPending(pending: seq<CardTimer>)
  {
    exists t :: t in pending && t.LockTimer?
  }

  class PrototypeCard {
    const host: Showcase
    var isLocking: bool
    var showResult: bool
    var showConfetti: bool
    var pending: seq<CardTimer>
    /** The dependencies the step-6 effect last ran with; `None` before the first commit. */
    var lastDeps: Option<RevealDeps>

    /** The escrow overlay is never stuck: while it shows, a lock timer will hide it. */
    ghost predicate Valid()
      reads this, host
    {
      host.Valid() && (isLocking ==> LockPending(pending))
    }

    constructor (host: Showcase)
      requires host.Valid()
      ensures Valid() && this.host == host
      ensures !isLocking && !showResult && !showConfetti && pending == [] && lastDeps == None
    {
      this.host := host;
      isLocking, showResult, showConfetti := false, false, false;
      pending := [];
      lastDeps := None;
    }

    /** `handleEventChange`: only the text changes; a side already chosen stays chosen. */
    method EditEventText(text: string)
      requires Valid()
      modifies this, host
      ensures Valid()
      ensures host.state == old(host.state).(eventText := text)
      ensures host.pending == old(host.pending) && unchanged(this)
    {
      host.UpdateState(NoChange.(eventText := Put(text)));
    }

    /** A preset button: set the text and clear the chosen side. */
    method ChoosePreset(preset: string)
      requires Valid()
      requires preset in Presets
      modifies this, host
      ensures Valid()
      ensures host.state == old(host.state).(eventText := preset, selectedSide := None)
      ensures host.pending == old(host.pending) && unchanged(this)
    {
      host.UpdateState(NoChange.(eventText := Put(preset), selectedSide := Put(None)));
    }

    /** `selectSide`: ignored while animating, otherwise only the side changes. */
    method SelectSide(side: string)
      requires Valid()
      modifies this, host
      ensures Valid()
      ensures old(host.state.isAnimating) ==> host.state == old(host.state)
      ensures !old(host.state.isAnimating) ==> host.state == old(host.state).(selectedSide := Some(side))
      ensures host.pending == old(host.pending) && unchanged(this)
    {
      if host.state.isAnimating {
        return;
      }
      host.UpdateState(NoChange.(selectedSide := Put(Some(side))));
    }

    /** `confirmStep1`: move to step 2 only with three characters of text and a side. */
    method ConfirmStep1()
      requires Valid()
      modifies this, host
      ensures Valid()
      ensures CanConfirmStep1(old(host.state)) ==> host.state == old(host.state).(step := 2)
      ensures !CanConfirmStep1(old(host.state)) ==> host.state == old(host.state)
      ensures host.pending == old(host.pending) && unchanged(this)
    {
      if |host.state.eventText| < 3 {
        return;
      }
      if !Truthy(host.state.selectedSide) {
        return;
      }
      host.UpdateState(NoChange.(step := Put(2)));
    }

    /** The opponent field's `onChange`. */
    method EditOpponent(handle: string)
      requires Valid()
      modifies this, host
      ensures Valid()
      ensures host.state == old(host.state).(opponentHandle := Some(handle))
      ensures host.pending == old(host.pending) && unchanged(this)
    {
      host.UpdateState(NoChange.(opponentHandle := Put(Some(handle))));
    }

    /** The step-2 "Next" button, which is disabled unless the handle is ready. */
    method ConfirmStep2()
      requires Valid()
      modifies this, host
      ensures Valid()
      ensures OpponentReady(old(host.state.opponentHandle)) ==> host.state == old(host.state).(step := 3)
      ensures !OpponentReady(old(host.state.opponentHandle)) ==> host.state == old(host.state)
      ensures host.pending == old(host.pending) && unchanged(this)
    {
      if OpponentReady(host.state.opponentHandle) {
        host.UpdateState(NoChange.(step := Put(3)));
      }
    }

    /**
      `selectAmount`: ignored while animating; otherwise record the amount,
      raise the lock overlay and schedule the move to step 4. It does not
      look at `isLocking`, so a second pick schedules a second timer.
     */
    method SelectAmount(amt: int)
      requires Valid()
      requires amt in Amounts
      modifies this, host
      ensures Valid()
      ensures old(host.state.isAnimating) ==> host.state == old(host.state) && unchanged(this)
      ensures !old(host.state.isAnimating) ==>
        host.state == old(host.state).(amount := Some(amt))
        && isLocking && pending == old(pending) + [LockTimer(LockDelay)]
        && showResult == old(showResult) && showConfetti == old(showConfetti) && lastDeps == old(lastDeps)
      ensures host.pending == old(host.pending)
    {
      if host.state.isAnimating {
        return;
      }
      host.UpdateState(NoChange.(amount := Put(Some(amt))));
      isLocking := true;
      pending := pending + [LockTimer(LockDelay)];
      assert pending[|pending| - 1].LockTimer?;
    }

    /**
      `selectFinishMode`: ignored while animating; otherwise record the mode
      and move to step 5, except for the judge variant, which stays on step 4.
     */
    method SelectFinishMode(mode: FinishMode)
      requires Valid()
      modifies this, host
      ensures Valid()
      ensures old(host.state.isAnimating) ==> host.state == old(host.state)
      ensures !old(host.state.isAnimating) && mode == TrustedFriend ==>
        host.state == old(host.state).(finishMode := Some(mode))
      ensures !old(host.state.isAnimating) && mode != TrustedFriend ==>
        host.state == old(host.state).(finishMode := Some(mode), step := 5)
      ensures host.pending == old(host.pending) && unchanged(this)
    {
      if host.state.isAnimating {
        return;
      }
      host.UpdateState(NoChange.(finishMode := Put(Some(mode))));
      if ModeLabel(mode) != "Trusted friend decides" {
        host.UpdateState(NoChange.(step := Put(5)));
      }
    }

    /** "Back to options" in the judge picker: forget the finish mode. */
    method BackToOptions()
      requires Valid()
      modifies this, host
      ensures Valid()
      ensures host.state == old(host.state).(finishMode := None)
      ensures host.pending == old(host.pending) && unchanged(this)
    {
      host.UpdateState(NoChange.(finishMode := Put(None)));
    }

    /** A judge button: record the judge and move to step 5 in one update. */
    method ChooseJudge(handle: string)
      requires Valid()
      requires handle in Judges
      modifies this, host
      ensures Valid()
      ensures host.state == old(host.state).(judgeHandle := Some(handle), step := 5)
      ensures host.pending == old(host.pending) && unchanged(this)
    {
      host.UpdateState(NoChange.(judgeHandle := Put(Some(handle)), step := Put(5)));
    }

    /**
      The step-6 effect, run after a commit. React runs it only when its
      dependencies differ from the last run. On step 6 with no outcome it
      starts the reveal: at once under reduced motion, otherwise after a
      1500 ms wait holding the side chosen now. Off step 6 it hides the result.
     */
    method RevealEffect()
      requires Valid()
      modifies this, host
      ensures Valid()
      ensures host.pending == old(host.pending)
      ensures old(lastDeps) == Some(DepsOf(old(host.state))) ==>
        host.state == old(host.state) && unchanged(this)
      ensures old(lastDeps) != Some(DepsOf(old(host.state))) ==> lastDeps == Some(DepsOf(old(host.state)))
      ensures (old(lastDeps) != Some(DepsOf(old(host.state))) && old(host.state.step) == 6
               && !Truthy(old(host.state.outcome)) && host.reduceMotion) ==>
          host.state == old(host.state).(outcome := Some(ReducedMotionWinner(old(host.state.selectedSide))))
          && showResult && showConfetti == old(showConfetti) && pending == old(pending)
      ensures (old(lastDeps) != Some(DepsOf(old(host.state))) && old(host.state.step) == 6
               && !Truthy(old(host.state.outcome)) && !host.reduceMotion) ==>
          host.state == old(host.state) && !showResult && !showConfetti
          && pending == old(pending) + [RevealTimer(RevealDelay, old(host.state.selectedSide))]
      ensures (old(lastDeps) != Some(DepsOf(old(host.state))) && old(host.state.step) == 6
               && Truthy(old(host.state.outcome))) ==>
          host.state == old(host.state) && showResult == old(showResult)
          && showConfetti == old(showConfetti) && pending == old(pending)
      ensures old(lastDeps) != Some(DepsOf(old(host.state))) && old(host.state.step) != 6 ==>
        host.state == old(host.state) && !showResult && !showConfetti && pending == old(pending)
      ensures isLocking == old(isLocking)
    {
      var deps := DepsOf(host.state);
      if lastDeps == Some(deps) {
        return;
      }
      lastDeps := Some(deps);
      var s := host.state;
      if s.step == 6 && !Truthy(s.outcome) {
        if host.reduceMotion {
          showResult := true;
          host.UpdateState(NoChange.(outcome := Put(Some(ReducedMotionWinner(s.selectedSide)))));
        } else {
          showResult, showConfetti := false, false;
          pending := pending + [RevealTimer(RevealDelay, s.selectedSide)];
        }
      }
      if s.step != 6 {
        showResult, showConfetti := false, false;
      }
    }

    /** The event loop runs the card's pending timer at index `i`. */
    method Fire(i: nat)
      requires Valid() && i < |pending|
      modifies this, host
      ensures Valid()
      ensures pending == old(pending[..i] + pending[i + 1..])
      ensures host.pending == old(host.pending) && lastDeps == old(lastDeps)
      ensures old(pending[i]).LockTimer? ==>
        !isLocking && host.state == old(host.state).(step := 4)
        && showResult == old(showResult) && showConfetti == old(showConfetti)
      ensures old(pending[i]).RevealTimer? ==>
        host.state == old(host.state).(outcome := Some(RevealWinner(old(pending[i]).captured, old(host.state.eventText))))
        && showResult && showConfetti && isLocking == old(isLocking)
    {
      var t := pending[i];
      if isLocking && t.RevealTimer? {
        ghost var l :| l in pending && l.LockTimer?;
        RemoveKeepsOther(pending, i, l);
      }
      pending := pending[..i] + pending[i + 1..];
      match t
      case LockTimer(_) =>
        isLocking := false;
        host.UpdateState(NoChange.(step := Put(4)));
      case RevealTimer(_, captured) =>
        var winner := RevealWinner(captured, host.state.eventText);
        host.UpdateState(NoChange.(outcome := Put(Some(winner))));
        showResult, showConfetti := true, true;
    }
  }

  /** Steps 1 and 2 of the happy path: the Lakers preset, the Lakers side and a friend's handle. */
  method PickSideAndFriend(card: PrototypeCard)
    requires card.Valid() && card.host.state == Initial && !card.isLocking
    modifies card, card.host
    ensures card.Valid() && !card.isLocking && card.pending == old(card.pending)
    ensures card.host.state == Initial.(eventText := "Lakers vs Warriors", selectedSide := Some("Lakers"),
                                        opponentHandle := Some("@sam"), step := 3)
    ensures card.host.pending == old(card.host.pending) && card.lastDeps == old(card.lastDeps)
  {
    card.ChoosePreset("Lakers vs Warriors");
    card.SelectSide("Lakers");
    assert |card.host.state.eventText| == 18;
    card.ConfirmStep1();
    card.EditOpponent("@sam");
    assert StartsWith("@sam", "@");
    card.ConfirmStep2();
  }

  /** Steps 3 and 4 of the happy path: 20 coins, the lock, and a both-confirm finish. */
  method PickStakesAndFinish(card: PrototypeCard)
    requires card.Valid() && card.pending == [] && !card.host.state.isAnimating
    modifies card, card.host
    ensures card.Valid() && card.pending == []
    ensures card.host.state == old(card.host.state).(amount := Some(20), finishMode := Some(BothConfirm), step := 5)
    ensures card.host.pending == old(card.host.pending) && card.lastDeps == old(card.lastDeps)
  {
    card.SelectAmount(20);
    card.Fire(0);
    card.SelectFinishMode(BothConfirm);
  }

  /** Steps 5 and 6 of the happy path: the countdown, then the reveal naming the user's side. */
  method CountdownAndReveal(card: PrototypeCard)
    requires card.Valid() && card.pending == [] && card.host.pending == [] && card.lastDeps == None
    requires card.host.state.step == 5 && !card.host.state.isAnimating
    requires card.host.state.selectedSide == Some("Lakers") && card.host.state.outcome == None
    modifies card, card.host
    ensures card.host.state == old(card.host.state).(step := 6, outcome := Some("Lakers"))
  {
    var host := card.host;
    host.TimerEffect();
    host.Fire(0);
    card.RevealEffect();
    if !host.reduceMotion {
      card.Fire(0);
    }
  }

  /**
    A whole run of the demo on the Lakers preset: the user backs the Lakers
    for 20 coins with a both-confirm finish, and the reveal names the Lakers
    the winner of a 40-coin pool, with or without reduced motion.
   */
  method HappyPath(reduceMotion: bool) returns (step: int, outcome: Option<string>, payout: int)
    ensures step == 6
    ensures outcome == Some("Lakers")
    ensures payout == 40
  {
    var host := new Showcase(reduceMotion);
    var card := new PrototypeCard(host);
    PickSideAndFriend(card);
    PickStakesAndFinish(card);
    CountdownAndReveal(card);
    step, outcome, payout := host.state.step, host.state.outcome, Payout(host.state.amount);
  }

  /**
    Picking any of the offered amounts on step 3 records it, and the lock
    timer then lowers the overlay and moves the card to step 4, where the
    payout figure is that amount's advertised pool.
   */
  method LockMovesToStep4(k: nat) returns (step: int, amount: Option<int>, locking: bool, payout: int)
    requires k < |Amounts|
    ensures step == 4 && amount == Some(Amounts[k]) && !locking
    ensures payout == Pool(Amounts[k])
  {
    var host := new Showcase(false);
    var card := new PrototypeCard(host);
    PickSideAndFriend(card);
    card.SelectAmount(Amounts[k]);
    card.Fire(0);
    step, amount, locking := host.state.step, host.state.amount, card.isLocking;
    payout := Payout(amount);
  }

  /**
    Restart does not cancel the card's lock timer: an amount picked on
    step 3 just before a restart (which the rail offers there) still moves
    the fresh demo from step 1 to step 4, with no event text, side or amount.
   */
  method StaleLockAfterRestart() returns (restartOffered: bool, stepAfterReset: int, stepAfterLock: int, s: ChallengeState)
    ensures restartOffered
    ensures stepAfterReset == 1
    ensures stepAfterLock == 4
    ensures s.eventText == "" && s.selectedSide == None && s.amount == None
  {
    var host := new Showcase(false);
    var card := new PrototypeCard(host);
    PickSideAndFriend(card);
    card.SelectAmount(10);
    restartOffered := !StepsRail.RestartDisabled(host.state.step, host.state.isAnimating);
    host.Restart();
    host.Fire(0);
    stepAfterReset := host.state.step;
    card.Fire(0);
    stepAfterLock := host.state.step;
    s := host.state;
  }
}
