# A model of the SettleUp landing page's interactive demos

SettleUp is a peer-to-peer "friendly wager" product. Its landing page carries
three small interactive pieces with real behaviour, and this project models
them in Dafny:

- **The six-step challenge demo**, in `challenge_showcase.dfy` and
  `challenge_prototype_card.dfy`.
  - One `ChallengeState` record holds the step (1 to 6), the event text,
    the chosen side, the friend's handle, the amount, the finish mode, the
    judge, the outcome and two flags.
  - The record changes by a shallow merge of a partial update
    (`updateState`), except that restart's timer replaces it with the
    initial state (components/ChallengeShowcase.tsx:49). The model writes
    that merge as `Merge` over a `Patch`, and the replacement as an
    assignment of `Initial` in `Showcase.Fire`.
  - A card reads the record and changes it through guarded handlers:
    side, confirm, friend, amount lock, finish mode, judge and the step-6
    reveal.
  - A showcase owns the record, the restart and the step 5 to 6 countdown.
  - Every `setTimeout` callback becomes an entry on a pending list, and a
    `Fire(i)` method runs any pending entry. Any firing order is therefore
    covered.
  - Each React effect is a method that the caller runs after a state
    change, as React runs the effect after a commit. The
    step-6 effect keeps its dependency list, as React does, and does
    nothing when its dependencies have not changed.
- **The progress rail** (`steps_rail.dfy`): a pure projection of the step
  onto six markers (completed, current or upcoming), plus the restart
  button's enabled state and the zero-padded step labels.
- **The hero widget** (`challenge_widget.dfy`): a three-step card for the
  fixed event "Lakers vs Warriors". Its step only moves forward, and
  "Create challenge" reports the first missing choice.
- **The signup section** (`conversion_cta.dfy`).
  - It has three tabs and an email form whose submission is routed by the
    tab and by whether the email is empty.
  - It has a payment-method modal for founders and an "I'm just interested"
    button.
  - Each network call is split in two: the request that goes out (recorded
    in `inFlight`), and a later `Settle` that receives a success or failure
    outcome.

`prelude.dfy` holds the JavaScript operations these components rely on:

- `string | null` truthiness;
- `toLowerCase`, restricted to ASCII letters;
- `includes`;
- `Number.prototype.toString` on naturals, and `padStart`.

Three behaviours of the code are easy to miss, and the model keeps each
as written:

- **Side candidates.** A pairing is chosen when the lower-cased text
  includes either of its two names
  (components/ChallengePrototypeCard.tsx:56-57). `Candidates` does the same.
- **Pending timers are never cancelled.**
  - Restart (components/ChallengeShowcase.tsx:45-51) does not cancel
    pending timers, so the card's lock timer
    (components/ChallengePrototypeCard.tsx:82-85) stays pending across it.
    `StaleLockAfterRestart` shows that this timer still moves the fresh
    demo from step 1 to step 4, with no text, side or amount.
  - `selectAmount` (components/ChallengePrototypeCard.tsx:76-86) does not
    check `isLocking`, so a second pick schedules a second timer.
- **A changed event text keeps the chosen side**
  (components/ChallengePrototypeCard.tsx:46-48). `EditEventText` keeps it
  too.

## Model

| member | source | states |
|---|---|---|
| Prelude.ToLower | components/ChallengePrototypeCard.tsx:55 | lower-casing keeps the length and maps each character on its own (ASCII letters only) |
| Prelude.Contains | components/ChallengePrototypeCard.tsx:56-58 | `includes`: the empty string is included in every text, and a string longer than the text never is |
| Prelude.ContainsAtSomePosition | components/ChallengePrototypeCard.tsx:56-58 | `includes` holds exactly when the substring occurs at some position, in both directions |
| Prelude.ContainsHasChar | components/ChallengePrototypeCard.tsx:300 | a text that includes a string holds every character of that string |
| Prelude.ToLowerIdempotent | components/ChallengePrototypeCard.tsx:55 | lower-casing an already lower-cased text changes nothing |
| Prelude.Decimal | components/StepsRail.tsx:70 | `toString` of a natural: at least one character, all of them digits, starting with '0' only for 0 |
| Prelude.PadStart | components/StepsRail.tsx:70 | `padStart`: the length is the larger of the text's and the width, the text is kept at the end and every character before it is the pad character |
| Prelude.DecimalRoundTrip | components/StepsRail.tsx:70 | the decimal numeral of n has at least one digit and parses back to n |
| Prelude.PaddedDecimalRoundTrip | components/StepsRail.tsx:70 | zero-padding a numeral to any width keeps its value; the padded length is the larger of the numeral's length and the width |
| ChallengeShowcase.InitialIsBlank | components/ChallengeShowcase.tsx:25-36 | the initial state has step 1 and empty text; a field is null exactly when it is nullable; the false flags are exactly isAnimating and isRestarting |
| ChallengeShowcase.SameFieldsSameState | components/ChallengeShowcase.tsx:12-23 | two states that agree on all ten fields are equal |
| ChallengeShowcase.Merge | components/ChallengeShowcase.tsx:41-43 | every field named in the update takes the update's value; every other field keeps its old value |
| ChallengeShowcase.MergeIsUnique | components/ChallengeShowcase.tsx:41-43 | the merge is the only state that takes the update's fields and keeps the others |
| ChallengeShowcase.MergeNothing | components/ChallengeShowcase.tsx:41-43 | the empty update changes nothing |
| ChallengeShowcase.MergeThen | components/ChallengeShowcase.tsx:41-43 | two successive updates act as one update in which the later keys win |
| ChallengeShowcase.MergeIdempotent | components/ChallengeShowcase.tsx:41-43 | applying the same update twice equals applying it once |
| ChallengeShowcase.AdvanceDelay | components/ChallengeShowcase.tsx:62 | the countdown lasts 0 ms under reduced motion and 1600 ms otherwise |
| ChallengeShowcase.RestartTwice | components/ChallengeShowcase.tsx:45-46 | restart's immediate update sets only isRestarting, and a second restart changes nothing more |
| Prelude.RemoveKeepsOther | components/ChallengePrototypeCard.tsx:82-85 | firing one pending timer leaves every other pending timer in the list, so the card's lock timer stays pending while a reveal timer fires |
| ChallengeShowcase.Showcase.constructor | components/ChallengeShowcase.tsx:39 | the demo starts in the initial state with no pending timer |
| ChallengeShowcase.Showcase.UpdateState | components/ChallengeShowcase.tsx:41-43 | the new state is the merge of the old state and the update; no timer is added |
| ChallengeShowcase.Showcase.Restart | components/ChallengeShowcase.tsx:45-51 | only isRestarting is raised now, and a 100 ms reset timer is added |
| ChallengeShowcase.Showcase.TimerEffect | components/ChallengeShowcase.tsx:58-72 | on step 5 with nothing animating, only isAnimating is raised and one advance timer (0 or 1600 ms) is added; otherwise nothing changes |
| ChallengeShowcase.Showcase.Fire | components/ChallengeShowcase.tsx:48-70 | the fired timer leaves the pending list; a reset timer makes the state exactly the initial state, whatever came before; an advance timer sets step 6 and clears isAnimating and keeps every other field; while isAnimating holds, an advance timer stays pending |
| ChallengePrototypeCard.Candidates | components/ChallengePrototypeCard.tsx:52-58 | the candidates are always two distinct labels: India/Pakistan, Lakers/Warriors or Side A/Side B |
| ChallengePrototypeCard.NextSides | components/ChallengePrototypeCard.tsx:55-58 | the ref update as written, including its guarded third branch, always yields the candidates of the current text, whatever the previous value of the ref |
| ChallengePrototypeCard.CandidatesIgnoreCase | components/ChallengePrototypeCard.tsx:55 | the candidates depend on the text only up to ASCII letter case |
| ChallengePrototypeCard.CountriesIff | components/ChallengePrototypeCard.tsx:55-56 | India/Pakistan is offered iff the lower-cased text includes "india" or "pakistan" |
| ChallengePrototypeCard.TeamsIff | components/ChallengePrototypeCard.tsx:55-57 | Lakers/Warriors is offered iff the lower-cased text includes neither country but "lakers" or "warriors" |
| ChallengePrototypeCard.GenericIff | components/ChallengePrototypeCard.tsx:55-58 | Side A/Side B is offered iff the lower-cased text includes none of the four keywords |
| ChallengePrototypeCard.CountriesBeforeTeams | components/ChallengePrototypeCard.tsx:56 | a text that includes "india" or "pakistan" gives India/Pakistan, whatever team it names |
| ChallengePrototypeCard.TeamsWithoutCountries | components/ChallengePrototypeCard.tsx:56-57 | a text that includes "lakers" or "warriors" and has no 'd' and no 'p' (so cannot spell "india" or "pakistan") gives Lakers/Warriors |
| ChallengePrototypeCard.LakersPreset | components/ChallengePrototypeCard.tsx:227-230 | the preset "Lakers vs Warriors" offers Lakers and Warriors |
| ChallengePrototypeCard.IndiaPreset | components/ChallengePrototypeCard.tsx:227-230 | the preset "India vs Pakistan" offers India and Pakistan |
| ChallengePrototypeCard.CanConfirmStep1 | components/ChallengePrototypeCard.tsx:65-71 | the guard of `confirmStep1` as written: at least 3 characters and a truthy side; ConfirmGuardStricterThanButton relates it to the button |
| ChallengePrototypeCard.ConfirmGuardStricterThanButton | components/ChallengePrototypeCard.tsx:272 | whatever the handler accepts, the step-1 button allows; a text of 1 or 2 characters with a side enables the button but the handler refuses it |
| ChallengePrototypeCard.OpponentReady | components/ChallengePrototypeCard.tsx:300 | the step-2 button's condition as written: a truthy handle that includes "@"; NoAtNoStep3 states what it excludes |
| ChallengePrototypeCard.NoAtNoStep3 | components/ChallengePrototypeCard.tsx:300 | a handle without '@' never enables the step-2 "Next" button |
| ChallengePrototypeCard.RevealWinner | components/ChallengePrototypeCard.tsx:130 | the winner is the user's side when one is chosen, otherwise the first of the current candidates |
| ChallengePrototypeCard.ReducedMotionWinner | components/ChallengePrototypeCard.tsx:118 | the winner is never empty; it is the user's side when one is chosen, otherwise the placeholder "Winner" |
| ChallengePrototypeCard.UserAlwaysWins | components/ChallengePrototypeCard.tsx:116-131 | once a side is chosen, both reveal paths name that side |
| ChallengePrototypeCard.Pool | components/ChallengePrototypeCard.tsx:332 | the advertised pool splits into two equal stakes of the amount |
| ChallengePrototypeCard.Payout | components/ChallengePrototypeCard.tsx:490 | the figure "You won" (and "Sending ... to Vault" at line 578) shows is the pool the chosen amount's button advertised, and 0 with no amount |
| ChallengePrototypeCard.PrototypeCard.constructor | components/ChallengePrototypeCard.tsx:74 | the card starts unlocked, with no result, no confetti and no timer |
| ChallengePrototypeCard.PrototypeCard.EditEventText | components/ChallengePrototypeCard.tsx:46-48 | only eventText changes; a chosen side stays chosen |
| ChallengePrototypeCard.PrototypeCard.ChoosePreset | components/ChallengePrototypeCard.tsx:230 | offered for the two preset texts (line 227); the text becomes the preset and the chosen side is cleared; nothing else changes |
| ChallengePrototypeCard.PrototypeCard.SelectSide | components/ChallengePrototypeCard.tsx:60-63 | while animating, nothing changes; otherwise only selectedSide changes |
| ChallengePrototypeCard.PrototypeCard.ConfirmStep1 | components/ChallengePrototypeCard.tsx:65-72 | step becomes 2 exactly when the text has at least 3 characters and a side is chosen; otherwise nothing changes |
| ChallengePrototypeCard.PrototypeCard.EditOpponent | components/ChallengePrototypeCard.tsx:293 | only opponentHandle changes |
| ChallengePrototypeCard.PrototypeCard.ConfirmStep2 | components/ChallengePrototypeCard.tsx:298-301 | step becomes 3 exactly when the handle is non-empty and includes '@'; otherwise nothing changes |
| ChallengePrototypeCard.PrototypeCard.SelectAmount | components/ChallengePrototypeCard.tsx:76-86 | offered for the amounts 10, 20 and 50 (line 318); while animating, nothing changes; otherwise only amount changes in the record, the lock is raised and a 1500 ms lock timer is added, even when one is already pending |
| ChallengePrototypeCard.PrototypeCard.SelectFinishMode | components/ChallengePrototypeCard.tsx:88-97 | while animating, nothing changes; otherwise finishMode is set, and step becomes 5 unless the mode is "Trusted friend decides" |
| ChallengePrototypeCard.PrototypeCard.BackToOptions | components/ChallengePrototypeCard.tsx:365 | only finishMode is cleared |
| ChallengePrototypeCard.PrototypeCard.ChooseJudge | components/ChallengePrototypeCard.tsx:373 | offered for the three listed judges (line 370); judgeHandle is set and step becomes 5, in one update |
| ChallengePrototypeCard.PrototypeCard.RevealEffect | components/ChallengePrototypeCard.tsx:103-142 | with unchanged deps nothing happens; on step 6 with no outcome it reveals at once under reduced motion, and otherwise hides the result and schedules a 1500 ms wait that holds the current side; off step 6 it hides the result and confetti |
| ChallengePrototypeCard.PrototypeCard.Fire | components/ChallengePrototypeCard.tsx:82-134 | a lock timer (lines 82-85) clears the lock and sets step 4 and nothing else, so the amount is kept; a reveal timer (lines 126-134) sets the outcome to the winner from the captured side and the current text, and shows the result and confetti |
| ChallengePrototypeCard.HappyPath | components/ChallengePrototypeCard.tsx:60-134 | on the Lakers preset with 20 coins and a both-confirm finish, with or without reduced motion, the demo reaches step 6 with outcome "Lakers" and a payout of 40 |
| ChallengePrototypeCard.LockMovesToStep4 | components/ChallengePrototypeCard.tsx:76-86 | for every offered amount, picking it on step 3 and letting the lock timer fire gives step 4, that amount, the overlay lowered and a payout of that amount's pool |
| ChallengePrototypeCard.StaleLockAfterRestart | components/ChallengePrototypeCard.tsx:76-86 | after an amount is picked on step 3, the rail offers restart; the lock timer still pending across the restart moves the freshly reset demo from step 1 to step 4, with no text, side or amount |
| StepsRail.CatalogueIsOrdered | components/StepsRail.tsx:15-22 | the catalogue has six entries with ids 1 to 6 in ascending order |
| StepsRail.MarkerOf | components/StepsRail.tsx:34-35 | a marker is current iff step == id, completed iff step > id, and upcoming iff step < id |
| StepsRail.Rail | components/StepsRail.tsx:33-35 | the rail draws one marker per catalogue entry, each classified by its id |
| StepsRail.MarkerCounts | components/StepsRail.tsx:33-35 | over the first n ids, the counts of current, completed and upcoming markers as functions of step and n |
| StepsRail.RailCounts | components/StepsRail.tsx:33-35 | on steps 1 to 6 exactly one marker is current, step - 1 are completed and 6 - step are upcoming |
| StepsRail.OneDescriptionExpanded | components/StepsRail.tsx:87-90 | exactly one description is expanded: the current step's |
| StepsRail.IndicatorOf | components/StepsRail.tsx:67-71 | a marker holds a check mark iff the step is completed, and otherwise its zero-padded id |
| StepsRail.RestartDisabled | components/StepsRail.tsx:109 | the restart button's disabled condition as written; RestartEnabledIffProgress states what it means |
| StepsRail.RestartEnabledIffProgress | components/StepsRail.tsx:109 | restart is enabled iff nothing animates and at least one step is completed, that is, iff not (isAnimating or step == 1) |
| StepsRail.IdLabel | components/StepsRail.tsx:70 | a marker's label has at least two characters and reads back as the id |
| StepsRail.IdLabels | components/StepsRail.tsx:70 | the ids 1 to 9 are labelled "0" followed by their digit, so "01" to "06" |
| StepsRail.IdLabelRoundTrip | components/StepsRail.tsx:70 | every label of an id below 100 has two characters and reads back as the id |
| ChallengeWidget.Opponent | components/ChallengeWidget.tsx:159 | the friend's side is never the user's side |
| ChallengeWidget.OpponentInvolution | components/ChallengeWidget.tsx:159 | the other side of the other side is the user's side, and the two labels differ |
| ChallengeWidget.CreateError | components/ChallengeWidget.tsx:34-42 | there is no error iff both choices are made; a missing side is reported before a missing mode |
| ChallengeWidget.ExpectedStep | components/ChallengeWidget.tsx:13-31 | the step lies in 1 to 3; it is 3 iff a mode is chosen, and 1 iff nothing is chosen |
| ChallengeWidget.ExpectedStepMonotone | components/ChallengeWidget.tsx:25-31 | making more choices never moves the step back |
| ChallengeWidget.Segments | components/ChallengeWidget.tsx:66-74 | three segments; segment s is lit iff step >= s |
| ChallengeWidget.LitSegmentsArePrefix | components/ChallengeWidget.tsx:71 | on steps 1 to 3 exactly the first `step` segments are lit |
| ChallengeWidget.FriendPanelIffSide | components/ChallengeWidget.tsx:145 | in every reachable state the "Friend joins" preview shows iff a side is chosen |
| ChallengeWidget.Widget.constructor | components/ChallengeWidget.tsx:16-19 | the widget starts on step 1 with no side, no mode and no error |
| ChallengeWidget.Widget.SelectSide | components/ChallengeWidget.tsx:21-26 | re-picking the chosen side changes nothing; a new side is set, the error is cleared and the step becomes max(step, 2); the step never decreases and always matches the choices |
| ChallengeWidget.Widget.SelectFinish | components/ChallengeWidget.tsx:28-32 | the mode is set, the error is cleared and the step becomes max(step, 3) = 3; the side is kept |
| ChallengeWidget.Widget.Create | components/ChallengeWidget.tsx:34-53 | with no side the error is "Pick a side to continue."; with a side but no mode it is "Choose how it finishes."; with both, no widget state changes |
| ChallengeWidget.CreateAtEachStage | components/ChallengeWidget.tsx:21-42 | Create before any choice asks for a side; after only a mode the widget is on step 3 and still asks for a side; with both it reports nothing |
| ConversionCTA.RouteOf | components/ConversionCTA.tsx:20-32 | an empty email is rejected; otherwise the founder tab opens the payment modal and the waitlist tab sends, each case iff its condition (the form exists on those two tabs only) |
| ConversionCTA.EditedStatus | components/ConversionCTA.tsx:153-156 | after an edit an error status becomes idle; any other status is kept |
| ConversionCTA.SettledStatus | components/ConversionCTA.tsx:49-58 | an answered request ends in success iff it succeeded, and in error iff it failed |
| ConversionCTA.Signup.constructor | components/ConversionCTA.tsx:13-17 | empty email, idle status, not loading, the founder tab, the modal closed |
| ConversionCTA.Signup.SubmitData | components/ConversionCTA.tsx:34-47 | loading is raised, the status becomes idle, and one request carrying the current email and the tab's name ("waitlist" or "founder") is sent |
| ConversionCTA.Signup.SubmitForm | components/ConversionCTA.tsx:20-32 | offered on the waitlist and founder tabs, where the form is; an empty email sets error and sends nothing; on the founder tab the modal opens (on its first screen if it was closed) and nothing is sent; otherwise the request is sent |
| ConversionCTA.Signup.Settle | components/ConversionCTA.tsx:49-61 | success sets success, clears the email and closes the modal; failure sets error and keeps the email; loading ends either way |
| ConversionCTA.Signup.Interested | components/ConversionCTA.tsx:65-71 | offered on the interested tab, where its button is; the tracking call goes out and nothing else changes |
| ConversionCTA.Signup.SettleTracking | components/ConversionCTA.tsx:72-79 | the status becomes success whether tracking succeeded or failed |
| ConversionCTA.Signup.SelectTab | components/ConversionCTA.tsx:121-124 | the tab changes and the status becomes idle |
| ConversionCTA.Signup.EditEmail | components/ConversionCTA.tsx:153-156 | the email changes; an error status becomes idle and a success status stays |
| ConversionCTA.Signup.CloseModal | components/ConversionCTA.tsx:87 | only the modal closes |
| ConversionCTA.Signup.ChooseMethod | components/ConversionCTA.tsx:245-251 | from the method choice the modal moves to the GPay or PayPal screen |
| ConversionCTA.Signup.BackToMethods | components/ConversionCTA.tsx:267 | "Back" always returns the modal to the method choice |
| ConversionCTA.Signup.CompletePayment | components/ConversionCTA.tsx:283 | completing the payment sends the registration, as submitData does |
| ConversionCTA.WaitlistSignup | components/ConversionCTA.tsx:20-61 | a waitlist sign-up sends exactly one request with the address and type "waitlist"; on success the field is emptied, on failure the address stays |
| ConversionCTA.FounderSignup | components/ConversionCTA.tsx:27-55 | a founder sign-up sends nothing before the payment is completed, then one request with type "founder"; a successful answer closes the modal |
| ConversionCTA.EmptySubmission | components/ConversionCTA.tsx:22-25 | an empty submission on either form tab sets error, sends nothing and leaves the modal closed |

## Left out

- Rendering is not modelled: JSX, class names, framer-motion props, the trust-line texts and the "Step n of 3" badge. None of them changes state.
- Confetti and coin positions are not modelled. They use `Math.random()` and floating-point offsets and do not affect state.
- Wall-clock time is not modelled. A timer's delay is recorded, but `Fire` may run any pending timer at any moment, so every firing order is allowed. A restart whose 100 ms reset fires after a 1600 ms advance is therefore also covered.
- The reduced-motion preference is a constant of each `Showcase`. The source reads it on every render; that a preference changes mid-session is not modelled.
- `ChallengePrototypeCard.PrototypeCard.RevealEffect`: React also re-runs the effect when `shouldReduceMotion` or `updateState` change. Here those are constant, so only `[step, outcome, selectedSide]` is tracked. The async sequence's first write (hiding the result) is folded into the effect run.
- The card's `isMobile` check on `window.innerWidth`, `focus()` on the event input, `scrollIntoView`, the `classList` highlight in the widget and its 1000 ms removal timer are DOM effects and are left out.
- The `fetch` calls, `res.json()`, toasts and `console.error` are not modelled. Only the success or failure of each request enters the model, as the `ok` argument of `Settle` and `SettleTracking`.
- `Prelude.ToLower` lower-cases ASCII letters only. JavaScript's `toLowerCase` also maps other Unicode letters, and some of them become ASCII: U+212A KELVIN SIGN becomes `k`. So a text "LA\u212AERS" gives Lakers/Warriors in the source but Side A/Side B in `ChallengePrototypeCard.Candidates`.
- `ChallengePrototypeCard.PrototypeCard.SelectAmount` records an unbounded `int`, where JavaScript has a double-precision `number`. It requires one of the buttons' 10, 20 and 50 (components/ChallengePrototypeCard.tsx:318), and for those `Pool` and `Payout` agree with the source; floating-point rounding of other amounts is not modelled.
- The text length in `ChallengePrototypeCard.CanConfirmStep1` counts Dafny characters. JavaScript's `length` counts UTF-16 code units, so the two differ for characters outside the Basic Multilingual Plane.
- Which buttons are on screen at which step is not a precondition of the card's handlers, because the handlers themselves do not check the step. `ConversionCTA.Signup.ChooseMethod`, `BackToMethods` and `CompletePayment` do require the modal screen their button lives on, because the button exists only there; `ChoosePreset`, `SelectAmount` and `ChooseJudge` likewise require one of the values their buttons offer (components/ChallengePrototypeCard.tsx:227, 318, 370). For the same reason `SubmitForm` requires the waitlist or founder tab, where the form is rendered (components/ConversionCTA.tsx:142), and `Interested` requires the interested tab, where its button is rendered (components/ConversionCTA.tsx:203).
- `ConversionCTA.Signup.SubmitForm` does not model the browser's validation of the `type="email"` input (components/ConversionCTA.tsx:143-151). The browser cancels the submission of a non-empty value that is not shaped like an email address (such as "abc"), so `handleFormSubmit` never runs, and it strips surrounding whitespace from the value. The model routes any non-empty string as the handler would, so `WaitlistSignup` and `FounderSignup` also cover addresses the page would never send.
- `ConversionCTA.Signup.SubmitForm` has no precondition on `isLoading`. The disabled submit button is not modelled, so concurrent registrations in flight are allowed; the modal's completion button is never disabled in the source anyway.
- The `settleup:play-demo` window event and the analytics and users HTTP routes are external collaborators and are not part of this model.
