# OpenTrickler firmware: verified models

Dafny models of the parts of the OpenTrickler controller firmware that decide something, and proofs of
what those parts promise. `dafny verify dfyconfig.toml` checks everything.

Each part comes in two forms. A *specification* on values (`TunerModel`, `DhcpModel`, `OtaModel`, ...)
says what one step does; properties are proved about it, over every run. A *class or method* in the
firmware's own shape (`LiveTuner`, `DhcpServer`, `OtaDevice`, `ConfigStore`, `LearnMode`, `ChargeLoop`,
`ChargeStation`, `HttpQuery`, `SessionLog`), with fields, arrays and loops changed in place, is proved to compute exactly
that specification, whole state and all. So a property of the specification is a property of the class.

| part | modules |
|---|---|
| live profile tuner | `Statistics`, `TunerModel`, `TunerRuns`, `TunerLedger`, `TunerNeverWorse`, `TunerVerdict`, `TunerOpening`, `TunerIsolation`, `TunerEdits`, `TunerSmallEdits`, `TunerJudged`, `TunerBudget`, `TunerLimits`, `TunerHistory`, `TunerWindow`, `TunerSteering`, `TunerLanding`, `TunerHeadroom`, `TunerBackOff`, `TunerWatch`, `TunerWitness`, `TunerProbeWitness`, `MissRegister`, `ErrorRing`, `LiveTuner` |
| Learn fit, back-off, confirmation | `Statistics`, `LearnModel`, `LearnSafety`, `LearnGrid`, `LearnWitness`, `LearnMode` |
| charge loop | `ChargeModel`, `ChargeSafety`, `ChargeControl`, `ChargeLoop` |
| judging, logging, learning | `AfterThrow`, `ChargeStation` |
| firmware update | `OtaModel`, `OtaSafety`, `OtaComplete`, `OtaDevice`, `Crc32` |
| configuration in EEPROM | `Crc32`, `CrcResidue`, `EepromModel`, `ConfigModel`, `ConfigStore` |
| DHCP leases | `DhcpModel`, `DhcpSafety`, `DhcpServer` |
| query strings | `QueryModel`, `HttpQuery` |
| session log | `Statistics`, `SessionLog` |

The tuner's model carries a ledger that the firmware does not have: the throws behind each statistics
arm, the first baseline, the last verdict; and beside its search a tally of the probes decided. Nothing the
tuner does depends on ledger or tally (`TunerLedger.LedgerIsNotRead`). `LiveTuner` keeps the ledger as ghost
state, next to the real ring, shift register and counters; the tally is part of its field `search`.

## Where code and documentation part

The code is followed; each difference is a theorem, with an input that shows it.

- *Never worse than it found it* (`README.md:69`, `src/learn_tuner.c:346-349`). What is restored is the
  profile as first seen. What it is judged by is the first full baseline. In a run without edits, from a
  profile inside its limits with a positive fine Kp and coarse speed, that was measured on the profile as
  first seen exactly when no counted throw before it was full went over as the third miss of ten:
  `TunerOpening.OpeningIsTheOriginalIff`; thirteen throws for which it was not:
  `TunerWitness.StartIsNotTheOriginal`. Also, a last profile within 1e-4 of the original in every field is
  kept without comparison (`TunerNeverWorse.NeverWorse`). And after an edit of 1e-4 that the tuner does not
  notice the profile left can differ from the one judged: exactly when is `TunerSmallEdits.KeptDiffersIff`
  for a search that ends between probes and `TunerSmallEdits.KeptAfterProbeDiffersIff` for one that ends on
  a probe; a run for each is `TunerWitness.SmallEditShows` and `TunerProbeWitness.ProbeEndMoves`.
- *A portal edit mid-probe keeps your edit* (`.github/release_notes/v2.4.md:64`). Exactly when it is noticed
  and every edited field is more than 1e-4 from the candidate's or is the accepted one:
  `TunerEdits.EditLandsOnGoodIff`. A field that is not goes back with the candidate
  (`TunerWitness.EditIsLost`), and so does a whole edit that is not noticed (`TunerWitness.UnnoticedEditIsLost`).
- *A fitted profile is safe for the tuner.* It is, unless the coarse motor's minimum lies above its
  maximum (`LearnSafety.FitIsFixedIff`, `LearnWitness.FitIsMoved`); a backed-off one only while the fitted
  handoff, widened by 1.3 a round without a cap, is at most half the charge
  (`LearnSafety.BackedOffIsFixedIff`, `LearnWitness.BackedOffIsMoved`).
- *Each profile has its own tuner.* But the handoff is one setting for all profiles: when one profile's
  tuner moves it by more than 1e-4, the next throw on another profile counts as an outside edit there, and
  that profile's tuner starts over: `AfterThrow.SharedHandoffRestartsIff`, `AfterThrow.TwoProfilesCollide`.
- *Load returns what was saved.* Exactly for revision bytes of zero (`ConfigModel.SaveThenLoadIff`); and
  a record whose first two bytes equal the old revision is taken without a CRC check
  (`ConfigModel.OneByteCorrupted`, `ConfigModel.OldRevisionIsNotChecked`).
- *Paged writes.* An unaligned base wraps inside the page unless the whole write fits into it
  (`EepromModel.PagedIsFlatIff`, `EepromModel.MisalignedGoesWrong`).
- *Leases.* Nothing is held for a client whose hardware address is zero (`DhcpSafety.NobodyHoldsNothing`),
  and an abandoned lease looks taken again for half of every 2^32 ms (`DhcpSafety.ExpiredExactly`).

## Model

| member | source | states |
|---|---|---|
| TunerNeverWorse.NeverWorseAnyRun | src/learn_tuner.c:350-363 | in every run, whatever throws, environments and edits: each entry to CONVERGED has a start measured on ten throws or more and a full baseline, both plain folds of their throws, and leaves the clamped original unless the mean of the last profile's throws plus 0.40 s is below the start's with at most ten points more misses, or the profile is the original to 1e-4; that last profile is the judged one after a probe, and otherwise the live one, within 1e-4 of the accepted one, with the landing speed it is judged with |
| TunerVerdict.LastIsKeptIffFaster | src/learn_tuner.c:350-363 | in every run, at each entry to CONVERGED, on the throws' own times and misses: the last profile is left, clamped, if and only if no field of it is more than 1e-4 from the original's, or the sum of its baseline's times over their number is more than 0.40 s below that of the start's ten throws and its percentage of misses, in whole hundredths, is at most ten points above; otherwise the clamped original |
| TunerNeverWorse.KeptIsExact | src/learn_tuner.c:350-363 | in one environment, with any edits that are noticed: a search that keeps its last profile leaves exactly the profile it judged |
| TunerSmallEdits.KeptDiffersIff | src/learn_tuner.c:350-363 | in one environment, with unnoticed edits as well: a search that ends between probes leaves, but for the coarse Kp, a profile within 1e-4 a field of the judged one, and differs from it if and only if the clamp sets the coarse Kp of the last throw's profile more than 1e-4 from the accepted one, which takes a coarse speed beyond its limits |
| TunerSmallEdits.KeptAfterProbeDiffersIff | src/learn_tuner.c:393-409 | likewise for one that ends on a probe: the clamp of the judged profile is left, which is the accepted one or the candidate kept; the two minima are within 2e-4 and all other fields but the coarse Kp within 1e-4 of it; it differs if and only if a minimum of the judged profile is more than 1e-4 outside its room, or the clamp moves the coarse Kp by more than that |
| TunerWitness.SmallEditShows | src/learn_tuner.c:172-200 | ten throws, the last on a coarse speed 1e-4 above the motor's maximum, after which the profile left differs from the one judged |
| TunerProbeWitness.ProbeEndMoves | src/learn_tuner.c:172-200 | a whole search, throw by throw, that ends on a probe and leaves a landing speed 2e-4 from that of the profile it judged, after one edit of 1e-4 in two fields (for a square root with sqrt(0) = 0) |
| TunerJudged.VerdictRestsOnItsProfile | src/learn_tuner.c:345-363 | in one environment, with any edits that are noticed: the last verdict, the start it was held against and the baseline being measured each rest on throws of one profile up to its landing speed, all but at most the first throw after an edit; a trial's throws all ran on the live candidate |
| TunerNeverWorse.NeverWorse | src/learn_tuner.c:345-363 | without edits, in a fixed environment, from a profile inside its limits: the search ends exactly on the original, or on a profile whose own throws are by more than 0.40 s faster than the start on average and miss at most ten points more often, or that does not differ from the original |
| TunerOpening.OpeningIsTheOriginalIff | src/learn_tuner.c:264-275 | in every run without edits, in one environment, from a profile inside its limits: the start to beat was measured on the profile as first seen, up to its landing speed, if no counted throw before the first baseline was full went over as at least the third miss of the last ten, and only then where that profile's fine Kp and coarse speed are positive; that baseline is not full before the tenth counted throw |
| TunerWitness.StartIsNotTheOriginal | src/learn_tuner.c:509-526 | three throws over and ten short ones, without edits, after which the start to beat is not that of the profile as first seen |
| TunerIsolation.ProbesAreIsolated | src/learn_tuner.c:264-305 | in every calm run: a live candidate differs from the accepted profile, and only in the probed knob's fields; every trial throw ran on it; every baseline throw ran on the accepted profile up to its landing speed; between probes the live profile is the accepted one |
| TunerIsolation.CandidateMovesOneKnob | src/learn_tuner.c:238-259 | the clamp of a one-knob step from a profile inside its limits moves that knob's fields and no others, and lands inside the limits |
| TunerIsolation.ProbeThrow | src/learn_tuner.c:378-409 | one throw of a probe decides at most one probe; undecided it changes neither candidate nor accepted profile; rejected it restores the accepted one |
| TunerIsolation.ProbeStaysPut | src/learn_tuner.c:528-536 | over any number of undecided throws the candidate and the profile to go back to stay the same |
| TunerIsolation.ProbeIsUndone | src/learn_tuner.c:399-408 | from any moment of a probe to its rejection, if that does not end the search: exactly the profile in force before it is back |
| TunerIsolation.ProbeStartsFromLive | src/learn_tuner.c:436-466 | the profile a probe goes back to is the one that was live, up to that throw's landing-speed correction |
| TunerEdits.CandidateStaysOut | src/learn_tuner.c:474-488 | in every run, whatever the next throw during a probe: after an edit each field of the anchor is the accepted profile's, or the edit's where that is more than 1e-4 from the candidate's, and the accepted profile is its clamp; otherwise the anchor stays, and the accepted profile is what it was, clamped, or the anchor, unless the probe was accepted |
| TunerEdits.CandidateLeavesNoTrace | src/learn_tuner.c:393-409 | over any session of throws and edits told from both candidates: two tuners trying different candidates have the same memory and live profile from the first rejection or noticed edit on |
| TunerLedger.LedgerIsNotRead | src/learn_tuner.c:469-575 | tuners that differ only in the model's ledger and tally of probes hand back the same profile and go on differing only there |
| TunerEdits.EditLandsOnGoodIff | src/learn_tuner.c:474-488 | any edit mid-probe starts over from the accepted profile with the edit applied if and only if it is noticed and every edited field moved by more than 1e-4 or was set to the accepted value; noticed, it starts over with each field from the edit, where it moved by more than 1e-4, or from the accepted profile; unnoticed, the probe goes on |
| TunerWitness.EditIsLost | src/learn_tuner.c:474-484 | ten throws into a run an edit of fine Kp and handoff: the fine Kp is taken, the handoff, set to the candidate's value, is not |
| TunerWitness.UnnoticedEditIsLost | src/learn_tuner.c:399-408 | an edit of the handoff alone to the candidate's value: not noticed, and gone after one throw grossly over |
| TunerWindow.EditStartsOver | src/learn_tuner.c:203-217 | in every run, a first throw, or one after a noticed edit between probes, starts over from exactly that profile: it is the anchor, its clamp is measured, window, log and baseline hold this throw alone, the search is as new |
| TunerEdits.RejectedLeavesNoTrace | src/learn_tuner.c:399-408 | on a rejection, tuner and profile come out the same whatever candidate had been live |
| TunerEdits.DifferIff | src/learn_tuner.c:59-69 | two profiles differ exactly when one of the seven fields is more than 1e-4 apart |
| TunerVerdict.ProbeIsKeptIff | src/learn_tuner.c:326-343 | in every run, at every throw of a probe that is no edit, with a baseline of up to forty throws: the probe is decided at its tenth throw, at the miss that throws it out (the second, in the aggressive style the third), or at once by a throw over twice the bracket over; it is accepted exactly when ten throws without such a one have few enough misses, the last allowed one only with three quarters of the margin, a root mean square error at most 1.3 times the baseline's, and a mean time that is lower by more than the least gain and the standard error |
| TunerVerdict.WindowIsCut | src/learn_tuner.c:131-147 | the window's statistics are mean and two-pass sample deviation of its errors, each cut off at twice the bracket |
| TunerHeadroom.BoldProbesHaveRoom | src/learn_tuner.c:277-305 | in every calm run, whenever a probe begins: if its candidate narrows the handoff or raises the fine Kp, the coarse speed or the coarse Kp, at least 1.25 times (aggressive: 0.90) the spreads asked for fit between the mean error and the bracket's edge |
| TunerHeadroom.CandidateIs | src/learn_tuner.c:238-259 | a candidate is the clamp of the accepted profile with one knob turned by its step, a quarter further in the aggressive style; a coarse speed takes its Kp along |
| TunerHeadroom.PicksTheFirst | src/learn_tuner.c:280-304 | the walk over the knobs stops at the first, from the one whose turn it is, that is open, moves something and is not riskier without room; and at none if there is none |
| TunerHeadroom.LooksAgainAfterFour | src/learn_tuner.c:514-526 | a full baseline is looked at when no wait is running, and if nothing comes of it again four throws later |
| TunerBudget.SearchIsBounded | src/learn_tuner.c:203-217 | in every run: rejected plus pinned steps since the search was started are at most 12 (8 after a reopening) plus accepted probes, and throws spent on probes are bounded by ten a decision |
| TunerBudget.TurnBackSpendsOne | src/learn_tuner.c:289-295 | giving a step up lowers by exactly one the number of shortenings that the open knobs have left |
| TunerBudget.GrowthAddsAtMostOne | src/learn_tuner.c:384-388 | lengthening a step by 1.3, up to the maximum, allows at most one more shortening |
| TunerBudget.ReopenedInBudget | src/learn_tuner.c:366-375 | a reopened search has every knob open with a step of 0.15 in the direction it last had, no wait, and so eight shortenings in hand |
| TunerLimits.FixedIffInRange | src/learn_tuner.c:172-200 | a profile is left alone by the clamp if and only if every knob is in its stated range |
| TunerLimits.LimitsAre | src/learn_tuner.c:172-200 | those ranges written out: multiples of the anchor, motor cap, handoff floor and cap |
| TunerLimits.ClampIsNearest | src/learn_tuner.c:172-200 | no profile in range is nearer in any field; the coarse Kp first goes along with the coarse speed, so that the taper keeps its width |
| TunerLimits.ClampIsIdempotent | src/learn_tuner.c:172-200 | clamping twice is clamping once |
| TunerLimits.LimitsHold | src/learn_tuner.c:469-575 | in every run, after each counted throw: every knob in its range for the current anchor and environment, trim at most half the bracket |
| TunerLimits.AnchorIsForever | src/learn_tuner.c:486-488 | without edits the anchor never changes after the first counted throw, and fine max never moves |
| TunerHistory.HistoryIsKept | src/learn_tuner.c:491-543 | in every run: both arms, the start and the last judgement are folds of the throws they stand for, and three times the back-offs is at most the misses |
| TunerWindow.WindowIsRecent | src/learn_tuner.c:489-503 | in every run: the window holds the last twenty errors of the counted throws since the tuner last started over, the miss log all of their misses and passes since then or since a third miss in ten that was over, outside a probe, last cleared it |
| TunerHistory.ArmIsPlain | src/learn_tuner.c:85-100 | up to forty throws an arm is their plain count and sums |
| TunerHistory.MeanIsBetween | src/learn_tuner.c:85-112 | however often an arm was halved, its mean lies between its fastest and slowest throw |
| TunerSteering.LandingFollowsMargin | src/learn_tuner.c:432-466 | the landing law moves the landing speed and no other field, by a quarter at most; up only when over 1.15 times the asked spreads fit the bracket, down only when under 1/1.15 of them do (for a strictly increasing power with 1^0.6 = 1) |
| TunerLanding.ThrowOnlyLands | src/learn_tuner.c:436-466 | in every run, a throw that is no edit, backs nothing off and leaves the mode: the profile is then the clamp of the one it ran on, or after a pass of what the landing law makes of it, written out on the window's errors: a turn at every sixth usable pass, every third below seven tenths of the margin, none between 1/1.15 and 1.15, and a factor of ratio^0.6 between 0.8 and 1.25 |
| TunerBackOff.ThirdMissBacksOff | src/learn_tuner.c:415-429 | in every run, outside a probe and without an edit, a throw over that is at least the third miss of ten: the profile is then the clamp of one slowed in the blamed tube only (bulk speed and Kp by 0.92, its landing by 0.85, handoff by 1.15; or landing speed by 0.85 and fine Kp by 0.92), and the miss log is empty |
| TunerBackOff.TrimIs | src/learn_tuner.c:491-500 | the trim after a throw: fifteen hundredths of the window's mean error less, at most half the bracket either way; unchanged with fewer than eight errors |
| TunerWatch.SearchesAgainIff | src/learn_tuner.c:538-566 | in every run, a settled tuner that is not edited searches again exactly at the sixteenth throw watched in a row of which three or more missed, or whose mean time is more than 1.15 times the reference and 0.3 s; after misses the handoff is widened by 1.15 and the landing slowed by a tenth, after a drift the profile stays |
| TunerWatch.WatchIsKept | src/learn_tuner.c:264-275 | the throws watched and the reference, as history: the start's mean where the time goal closed the search, else the mean of the first sixteen watched since it was last none; a drift makes it none, a run of misses does not; a back-off and a big step of the landing speed start the watch afresh |
| TunerWatch.SteadyIsLeftAlone | src/learn_tuner.c:545-566 | over any number of throws: a settled profile that stays as fast as its reference and misses fewer than three in sixteen is never searched again |
| TunerWatch.GoalEndsSearch | src/learn_tuner.c:264-275 | the throw that makes the start known, if the start meets the time goal, ends the search |
| TunerSteering.TrimOpposesBias | src/learn_tuner.c:491-500 | the aim trim moves with the measured bias if and only if a narrowed bracket has left it beyond its limit on that side; inside its limits it moves by at most fifteen hundredths of the bias, and with fewer than eight errors not at all |
| TunerSteering.AcceptedIsFaster | src/learn_tuner.c:378-392 | an accepted probe leaves as the next baseline its own full trial, faster on average by the style's least gain, with fewer misses than reject a probe and at most 1.3 times the landing spread |
| TunerRuns.ObserveKeepsWf | src/learn_tuner.c:469-575 | kept by every throw: arms of at most forty with no more misses than throws, PROBING only with a full baseline and a known start, window of at most twenty |
| LiveTuner.Device.Observe | src/learn_tuner.c:469-575 | the in-place `tuner_observe`: memory, ring, register and live profile become exactly those of one step of the model |
| LiveTuner.Device.FindKnob | src/learn_tuner.c:277-301 | the loop over the knobs picks, pins and turns back exactly as the recursive specification does |
| LiveTuner.Device.BeginProbe | src/learn_tuner.c:264-305 | `start_probe` in place is the specification's |
| LiveTuner.Device.Verdict | src/learn_tuner.c:326-343 | a probe is kept exactly when the specification keeps it; neither division is by zero |
| LiveTuner.Device.Finish | src/learn_tuner.c:378-409 | `finish_probe` in place is the specification's |
| LiveTuner.Device.Clamp | src/learn_tuner.c:172-200 | the clamp, field by field on the live profile, is the specification's |
| LiveTuner.Device.CountWindow | src/learn_tuner.c:131-147 | the sums taken in slot order are those over the last errors in time order |
| LiveTuner.Device.Log | src/learn_tuner.c:489-503 | ring, trim and shift register hold the last twenty errors, the steered aim and the misses since the last clear |
| LiveTuner.Device.Nudge | src/learn_tuner.c:415-429 | a back-off in place is the specification's |
| LiveTuner.Device.Steer | src/learn_tuner.c:436-466 | the landing law in place is the specification's |
| LiveTuner.Device.Watchdog | src/learn_tuner.c:545-566 | the drift check in place is the specification's |
| ErrorRing.Push | src/learn_tuner.c:492-494 | writing a slot and stepping on keeps the ring equal to the last twenty errors |
| ErrorRing.SumsInSlotOrder | src/learn_tuner.c:131-147 | sums do not depend on where the ring starts |
| MissRegister.PopCountIsCountTrue | src/learn_tuner.c:72-78 | the bits counted are the misses of the window |
| MissRegister.ShiftIn | src/learn_tuner.c:502-503 | a shift and an or put the newest throw into bit 0 of the 32-bit register |
| LearnSafety.ChoiceIsRight | src/learn_mode.cpp:740-844 | for every predictor: if a usable point makes the goal the choice is on the grid and makes it, else it is the fastest on the grid, else the last resort |
| LearnSafety.ChoiceIsTightest | src/learn_mode.cpp:798-812 | where the goal-making points can be told apart, the choice has the least handoff of them, among those the slowest fine landing, among those the fastest throw |
| LearnSafety.ChoiceHasMargin | src/learn_mode.cpp:652-691 | off the last resort, with the products written out: the handoff is above safety factor times three times flow at the coarse landing times lag spread, no wider than the larger of the style's floor and that product plus the style's allowance, and under half the target; the fine landing is at the motor's minimum, or its sigmas times flow times lag spread are at most four fifths of the bracket |
| LearnGrid.OnGridIff | src/learn_mode.cpp:740-795 | a point is searched if and only if its four speeds are on the four axes, written out from the measurements, its landings are no faster than its speeds and its handoff is under half the target; its tapers, handoff and predicted times are the formulas' |
| LearnGrid.LadderEndsAre | src/learn_mode.cpp:698-717 | the ladder's ends are the fastest and the slowest of the rungs that ran |
| LearnGrid.LastResortIs | src/learn_mode.cpp:828-843 | with nothing to use on the grid, the slowest speeds, sized and predicted as any point is |
| LearnGrid.FitIsPredicted | src/learn_mode.cpp:846-872 | off the last resort the times a fit claims are the predictor's for the very profile it writes, Kp times taper is the top speed in both tubes, and the stop scatter is that of the landing speed |
| LearnGrid.BackOffIs | src/learn_mode.cpp:876-902 | every field after one back-off, and times predicted for what comes out |
| LearnSafety.TiesKeepTheFirst | src/learn_mode.cpp:798-817 | of points equal in what is compared, the first one walked past leads |
| LearnSafety.FitIsFixedIff | src/learn_mode.cpp:846-864 | the applied fit is ready for the tuner, and a fixed point of its clamp, for any target from the confirmation target up, if and only if the coarse motor's range is not empty |
| LearnWitness.FitIsMoved | src/learn_mode.cpp:704-705 | a fit, all inputs given, whose coarse speed the tuner moves: the motor's minimum is above its maximum |
| LearnSafety.BackedOffIsFixedIff | src/learn_mode.cpp:876-902 | after n back-offs: fine min at most fine max, Kp times taper the fine max, handoff over the tuner's floor; a fixed point if and only if the fitted handoff times 1.3^n is at most half the charge |
| LearnWitness.BackedOffIsMoved | src/learn_mode.cpp:876-902 | a fit for 0.9 grains whose handoff the tuner pulls back after two back-offs |
| LearnSafety.BackOffIsReady | src/learn_mode.cpp:876-902 | one back-off keeps a profile ready for the tuner and its coarse speed |
| LearnMode.Learn.Search | src/learn_mode.cpp:740-821 | the four nested loops come to the leaders of one pass over the grid |
| LearnMode.Learn.FitProfile | src/learn_mode.cpp:622-872 | `fit_profile` leaves the specification's result |
| LearnMode.Learn.SlowDown | src/learn_mode.cpp:876-902 | `back_off_profile` in place is the specification's |
| LearnMode.Learn.Confirm | src/learn_mode.cpp:1148-1164 | from any fit, last resort included: at most three rounds, each measuring the profile as then written; the profile left is the one the last round measured; success is claimed exactly when the last round met it |
| LearnMode.SuccessIs | src/learn_mode.cpp:1152-1157 | a round is a success exactly when its passes are at least the set percentage of its throws, to a hundredth, or no throws are asked for |
| LearnSafety.FitHasTaper | src/learn_mode.cpp:846-851 | whatever is fitted has a positive fine taper, so that it can be backed off |
| LearnMode.Learn.LadderEnds | src/learn_mode.cpp:698-717 | one pass finds the slowest and the fastest rung that ran |
| LearnMode.Learn.FlowFit | src/learn_mode.cpp:504-512 | the flow per rps that comes out misses the throws by the least squares |
| LearnMode.Learn.Weigh | src/learn_mode.cpp:798-817 | one point against the two leaders |
| Statistics.FlowIsLeastSquares | src/learn_mode.cpp:504-512 | no other slope through the origin fits better |
| Statistics.OnePassIsTwoPass | src/learn_mode.cpp:516-521 | the variance from running sums is the two-pass one, hence not negative |
| ChargeSafety.EveryExitIsAtRest | src/charge_mode.cpp:557-717 | every way out of the loop, and the precharge behind it, leaves both motors last commanded to zero |
| ChargeSafety.CommandsAreSafe | src/charge_mode.cpp:557-687 | every command is zero, inside the motor and profile envelope, or the set reverse speed; after its stop the coarse tube is never driven forward in the loop |
| ChargeSafety.SilenceEndsTheThrow | src/charge_mode.cpp:567-578 | without finite readings the loop is left on the first pass 2000 ms after the last one, within one 200 ms wait, across tick wrap-around |
| ChargeSafety.PredictionStopsNoLater | src/charge_mode.cpp:596-645 | on the same readings prediction stops the coarse tube no later and ends the throw on the same pass |
| ChargeSafety.BulkCarriesHalf | src/charge_mode.cpp:195-201 | whatever the stored handoff, the coarse tube runs for at least half the charge and at most all of it |
| ChargeControl.CommandsFollowReadings | src/charge_mode.cpp:577-687 | in every run, from the readings alone: while the loop runs each tube was last told the clamp, inside motor and profile limits, of Kp times what is missing plus Ki times the sum of that over all readings plus Kd times its change per millisecond, at the weight predicted from the smoothed climb and the lag of the tube that is running; zero for the fine tube once the prediction is at the aim; and the throw is complete exactly at the first reading inside the bracket of the trimmed aim |
| ChargeControl.CoarseTapers | src/charge_mode.cpp:671-680 | with Kp alone the bulk runs at its top speed until top over Kp is missing to its share, then falls with what is missing, never under its floor |
| ChargeControl.FineTapers | src/charge_mode.cpp:650-668 | the fine tube likewise up to the trimmed aim, and with prediction it rests once what is in the air will reach it |
| ChargeControl.BulkStoppedAt | src/charge_mode.cpp:629-697 | after a complete throw the bulk is recorded to have brought the weight predicted at the reading that stopped it, and the whole charge if none had |
| ChargeControl.ReverseMakesTurns | src/charge_mode.cpp:275-309 | the reverse run makes the set turns at the set speed, to the millisecond, for at most fifteen seconds, and is left out exactly when switched off, without turns, without speed or under a millisecond |
| ChargeControl.StopThenReverse | src/charge_mode.cpp:629-646 | at its stop the coarse tube is told zero, and then the reverse speed if there is a reverse run |
| ChargeControl.ReverseEndsIff | src/charge_mode.cpp:580-584 | the reverse run ends with the first reading that comes its length after the stop, as long as the clock does not wrap |
| ChargeControl.PrechargeIs | src/charge_mode.cpp:706-720 | behind a complete throw, and only there, the precharge is sent if it is set |
| ChargeLoop.Charger.WaitForComplete | src/charge_mode.cpp:481-723 | the loop in place sends the specification's commands, and both motors are at rest once it is left |
| ChargeLoop.Charger.HandleWeight | src/charge_mode.cpp:577-687 | one finite reading in place is the specification's |
| ChargeLoop.Charger.Reverse | src/charge_mode.cpp:275-309 | the reverse run at the coarse stop is the specification's |
| AfterThrow.EveryTunerRuns | src/charge_mode.cpp:204-267 | however profiles are switched, edited and learned from, each profile's tuner has gone through a run of its own, so every result about the tuner's runs is one about each profile |
| AfterThrow.TunedHandoffIsUsed | src/charge_mode.cpp:195-267 | after any run, a throw that was learned from leaves a handoff that the charge loop uses uncapped, at least half the charge for the bulk, and a trim of at most half the bracket |
| AfterThrow.SharedHandoffRestartsIff | src/charge_mode.cpp:218-229 | a profile nobody touched keeps its tuner's memory if and only if the shared handoff stands within 1e-4 of where that tuner left it |
| AfterThrow.TwoProfilesCollide | src/charge_mode.cpp:218-266 | two charges on two profiles after which the second profile's tuner starts over |
| AfterThrow.OneProfileIsLeftAlone | src/charge_mode.cpp:251-266 | in a run on one profile every throw runs on exactly what its tuner left, as the results about quiet runs ask |
| AfterThrow.JudgedByDistance | src/charge_mode.cpp:852-870 | a throw passes exactly when it settles within the bracket and its edge, and is over exactly when above |
| AfterThrow.StopIsNotShort | src/charge_mode.cpp:614-625 | a throw that the loop ended is judged short only if the reading fell afterwards or the aim was trimmed down |
| AfterThrow.BlameFollowsBulk | src/charge_mode.cpp:246-256 | the bulk is blamed exactly when the weight predicted at its stop was over its share by more than a quarter of the handoff; or when no reading had stopped it, for handoffs up to twice the charge |
| AfterThrow.ToldHowItSettled | src/charge_mode.cpp:250-256 | the tuner is told the settled distance from the target, and the verdict that goes with it |
| AfterThrow.SameLimitsAsFit | src/charge_mode.cpp:222-245 | for the same settings the limits passed to the tuner are those that the fit is proved against |
| AfterThrow.LearnsOnlyIf | src/charge_mode.cpp:207-216 | with learning off or suppressed, or no such profile, nothing is touched |
| AfterThrow.LoggedAsIs | src/charge_mode.cpp:895-905 | the throw is logged with its own times, weights and verdict |
| ChargeStation.Station.Settled | src/charge_mode.cpp:852-912 | a settled throw is judged, logged exactly once and learned from exactly once, on the log and the selected tuner in place; nothing else changes |
| ChargeStation.Station.LearnPostThrow | src/charge_mode.cpp:204-267 | the adapter in place: the selected device, profile and shared handoff become the specification's, every other tuner and profile stays |
| OtaSafety.RunningImageIsSafe | src/ota.c:112-153 | in every run, any requests, cuts, interleaving with the apply task and flash failures: the running half changes only in an update, which puts there to the last byte the bytes that came in since the upload began, all of them, whose CRC a client named once they were complete and which looks like firmware (written out on its bytes), ones to the sector end, and leaves the rest, staging included, alone |
| OtaSafety.NamedByClient | src/ota.c:292-307 | whenever an image is verified or applied, an earlier verify request named its CRC, at a moment when the upload was complete and the same |
| OtaSafety.ImageIsUpload | src/ota.c:159-260 | while an upload is received, complete, checked or applied, the bytes taken are those of its calls in order |
| OtaSafety.ApplyIsExact | src/ota.c:112-153 | the apply task, which tests no state, copies exactly a checked, complete upload whenever it is there to run; sources are never overwritten before they are read, and a task that could not park the other core changes nothing |
| OtaSafety.CopyCopies | src/ota.c:112-122 | sector by sector, what is copied equals what was staged and nothing else changes |
| OtaSafety.CutsDoNotMatter | src/ota.c:207-244 | any cutting of an upload into calls and buffer chains leaves the state of one call with one buffer, flash failures included |
| OtaSafety.FeedConcat | src/ota.c:221-239 | two stretches in a row do what their concatenation does |
| OtaSafety.LastSectorStaged | src/ota.c:194-204 | after the last flush staging holds the upload and ones to the sector end, the running half is untouched |
| OtaSafety.StepIsSound | src/ota.c:144-318 | every request and task step keeps: received = sectors * 4096 + fill, staged bytes are the upload's, a task exists exactly in APPLYING, and then its length is the upload's rounded up |
| OtaComplete.UploadVerifiesIff | src/ota.c:283-307 | from power-up, an image brought in any cuts, with any other clients' events in between, onto a flash that takes every sector, and then to be verified: it is verified if and only if the CRC named is its own and its bytes look like firmware (a sector at least; a stack pointer in memory on a boundary of eight; the odd address of a routine inside the image; low byte first), and otherwise the update is in error |
| OtaComplete.GoodImageRuns | src/ota.c:112-318 | end to end: such an image, named rightly and applied, is what the running half holds afterwards, to the last byte, with ones to the sector end and everything behind it as it was |
| OtaComplete.OthersDoNothing | src/ota.c:159-318 | while an upload comes in, no other connection, request or task changes anything |
| OtaComplete.UnparkedIsError | src/ota.c:147-153 | a task that could not park the other core ends the update in an error and copies nothing |
| OtaComplete.FinishFreesConnection | src/ota.c:247-260 | a finished connection is no longer the upload's |
| OtaDevice.Updater.PostBegin | src/ota.c:159-191 | `httpd_post_begin` in place, refusals included |
| OtaDevice.Updater.PostData | src/ota.c:207-244 | `httpd_post_receive_data` in place over a chain of buffers |
| OtaDevice.Updater.PostFinished | src/ota.c:247-260 | `httpd_post_finished` in place |
| OtaDevice.Updater.Respond | src/ota.c:283-318 | verify, apply and reset requests in place |
| OtaDevice.Updater.TaskStart | src/ota.c:144-146 | the task works out its length from what has been received |
| OtaDevice.Updater.ApplyTask | src/ota.c:147-153 | the task from its delay on, without a test of the state, and the reset behind it |
| OtaDevice.Updater.FlushBuffer | src/ota.c:194-204 | the padded sector buffer goes to its place in staging |
| OtaDevice.Updater.CopySectors | src/ota.c:112-122 | the copying loop over both arrays |
| Crc32.StepsAgree | src/common.c:61-104 | one table look-up is eight bitwise steps, for every register and byte (RFC 1952, section 8) |
| Crc32.TableIsShifted | src/common.c:61-94 | all 256 table entries are the polynomial's |
| Crc32.StepIsInjective | src/common.c:95-104 | a step is injective in the register and in the byte |
| Crc32.OneByteChangesCrc | src/common.c:95-104 | changing one byte of any message changes its CRC |
| CrcResidue.RecordHasResidue | src/common.c:95-104 | a message followed by its own CRC, low byte first, has the CRC 0x2144DF1C whatever the message, and no bytes have the CRC zero: what start value and final complement are for (RFC 1952, section 8) |
| Crc32.SoftwareCrc32 | src/common.c:95-104 | the table-driven loop computes the CRC |
| Crc32.Crc32Flash | src/ota.c:75-85 | the bitwise loop over flash computes the same CRC |
| EepromModel.PagedIsFlatIff | src/cat24c256_eeprom.c:48-67 | on a chip whose writes wrap inside 64 bytes, paged writing is flat writing for all contents if and only if the base is page-aligned or the write stays in its first page |
| EepromModel.WriteIsPrefix | src/cat24c256_eeprom.c:48-67 | a write that the bus breaks off anywhere is the flat write of what got through before, and of all of it if it reports success |
| EepromModel.EraseBlanks | src/cat24c256_eeprom.c:84-94 | an erase goes on after a refused page: each byte of a page that the bus took is 0xFF, every other byte is as before |
| ConfigModel.SaveIsFlat | src/common.c:186-217 | a save puts the record at its address and leaves every other byte alone |
| ConfigModel.SaveThenLoadIff | src/common.c:107-217 | a load after a save returns the configuration if and only if its revision bytes are zero, or it was refused for them and is the default |
| ConfigModel.OneByteCorrupted | src/common.c:155-173 | a valid record with any one byte changed loads as the default, and stores it, unless it now passes for an old revision; beyond the first two bytes it never does |
| ConfigModel.OldRevisionIsNotChecked | src/common.c:140-152 | a valid record with its second byte changed to the old revision loads without the default |
| ConfigModel.LoadTwiceIff | src/common.c:107-183 | a second load returns the same and changes nothing, unless, and only unless, the default carries the old revision and what was stored carried neither that nor a valid record |
| ConfigModel.EraseRestoresDefaults | src/common.c:155-173 | after an erase every configuration loads as its default if the bus took the pages of its first two bytes |
| ConfigModel.SaveAllThenLoad | src/eeprom.c:66-74 | saving all registered disjoint records, whatever writes the bus refuses: each record whose own writes it took is restored by a load |
| ConfigModel.FirstRegisteredWins | src/eeprom.c:56-74 | handlers are saved newest first, so the first record registered is stored even where a later one has the same place |
| ConfigStore.Eeprom.WriteBytes | src/cat24c256_eeprom.c:48-67 | the page loop in place, with every bus failure |
| ConfigStore.Eeprom.WriteTransaction | src/cat24c256_eeprom.c:33-45 | one transaction, address counter wrapping in the page |
| ConfigStore.Eeprom.SaveConfig | src/common.c:186-217 | `save_config`, out of memory and bus failures included |
| ConfigStore.Eeprom.LoadConfig | src/common.c:107-183 | `load_config` with its migration, default and failure paths: what is loaded, what is written back, and the result, for every answer of the bus and of both allocations |
| ConfigStore.Eeprom.SaveEverything | src/eeprom.c:66-74 | the walk over the handler list saves each record, going on after failures |
| ConfigStore.Eeprom.Erase | src/cat24c256_eeprom.c:84-94 | the page loop in place is the specification's erase, going on after a page that the bus refuses |
| DhcpSafety.LeasesAreExclusive | src/dhcpserver.c:210-268 | over every run in unbounded time: an address acknowledged to one client is acknowledged to another only more than 86,400,000 ms after each acknowledgement to the first (RFC 2131, section 2.2) |
| DhcpSafety.ExpiredExactly | src/dhcpserver.c:224-229 | the 16-bit stamp and the wrapping tick say expired exactly in the half word after the lease ran out, and in the same half of each later word |
| DhcpSafety.OffersAreGood | src/dhcpserver.c:210-239 | silence exactly when every address is another client's running lease; a known client is offered its first entry; an offer can be taken up |
| DhcpSafety.RequestIs | src/dhcpserver.c:241-268 | a request is acknowledged exactly when it names one of the eight addresses of this network and nobody else has that; every other request changes nothing |
| DhcpSafety.ScanEffect | src/dhcpserver.c:212-231 | the scan clears only expired entries and finds a slot exactly when one is free, expired or the client's |
| DhcpSafety.NobodyHoldsNothing | src/dhcpserver.c:256-266 | two clients can be given one address at once if the first's hardware address is zero |
| DhcpServer.Device.Process | src/dhcpserver.c:209-274 | one message on the lease table in place, reply included |
| DhcpServer.Device.FindAddress | src/dhcpserver.c:211-231 | the scan loop in place |
| QueryModel.RoundTrip | src/http_rest.c:2885-2914 | any list of plain names and NUL-free values, each character spelled raw, as `+` or as `%XX` in either case, comes back, `&` and `=` in values included; past the limit the rest is dropped |
| QueryModel.RequestRoundTrip | src/http_rest.c:2885-2914 | the same for a whole request whose query fits the 128-byte buffer |
| QueryModel.EncodeSpells | src/http_rest.c:2885-2887 | every byte string has a spelling: the one the portal's encodeURIComponent writes (RFC 3986, section 2.1) |
| QueryModel.DecodingFirstIsWrong | src/http_rest.c:2885-2887 | decoding before splitting would make two parameters of one |
| QueryModel.OnlyHexDigits | src/http_rest.c:2847-2878 | the characters taken as hex digits are the sixteen in either case |
| QueryModel.SpaceEndsQuery | src/http_rest.c:687-744 | a query ends at its first space |
| QueryModel.NulEndsValue | src/http_rest.c:2910-2914 | what is read of a value stops before the first NUL that it decodes to |
| HttpQuery.DecodeUriInplace | src/http_rest.c:2847-2878 | for every terminated buffer: afterwards the decoded string and a terminator stand in its place, every other byte is as before; it reads only bytes it has not overwritten |
| HttpQuery.DecodeUri | src/http_rest.c:2817-2845 | the copying decoder writes the same string, within a target no longer than the source |
| HttpQuery.ExtractUriParameters | src/http_rest.c:687-744 | cutting in place: the slots point, in order and without overlap, at the names and values of the specification |
| HttpQuery.DecodeValues | src/http_rest.c:2910-2914 | decoding each value where it stands changes that value's string and no other |
| HttpQuery.ParseRequest | src/http_rest.c:2885-2914 | from the raw URI: the decoded path, and slots at the decoded parameters of the query as far as the buffer holds it |
| HttpQuery.AboutToRead | src/http_rest.c:2847-2878 | half way, what the in-place decoder is about to read is still what it was given |
| SessionLog.Log.RecordThrow | src/session_stats.c:53-100 | ring, counters and sums then stand for the session with that throw added |
| SessionLog.Log.Reset | src/session_stats.c:27-35 | and for the empty session |
| SessionLog.Log.Get | src/session_stats.c:141-150 | the i-th record is the i-th oldest of the last min(n, 400) throws, and none beyond |
| SessionLog.CountsAddUp | src/session_stats.c:53-100 | pass + under + over = total, modulo 2^32, and exactly for shorter sessions |
| SessionLog.SdIsOfSession | src/session_stats.c:126-133 | the deviation reported is that of the two-pass variance over the whole session, evicted throws included; the clamp at zero never acts |
| SessionLog.AverageIsBetween | src/session_stats.c:108-111 | the average time is that of the session and lies between the shortest and the longest reported |
| SessionLog.MeanIsOfSession | src/session_stats.c:120-123 | the mean error times the throws is the sum of the errors of the session, evicted throws included |
| SessionLog.RateIsPercentage | src/session_stats.c:114-117 | the success rate times the throws is a hundred times the passes |
| SessionLog.Push | src/session_stats.c:57-75 | one more record keeps the ring equal to the last 400 |

## Left out

- Float rounding: `float` and `double` are `real`; every comparison tolerance (1e-4, 0.001, 0.0005) is kept. Infinities and NaN occur only as readings that are not finite.
- `sqrtf`, `powf` and `predict_throw` are arbitrary functions (only TunerSteering.LandingFollowsMargin needs facts about `powf`); `logf` is only inside the last.
- Simulated tubes and their statistics (tests/): claims about a plant, not about this code.
- FreeRTOS scheduling, mutexes and delays: each task routine is sequential; buttons, readings, clock, bus and flash results are arbitrary inputs.
- TunerHistory.HistoryIsKept: says of which throws an arm is the fold, not that a CONVERGED baseline ran on one profile; it does not, since the throw before a back-off is added after the arm is emptied.
- TunerNeverWorse.NeverWorse: compares with the start as measured, which is the original's only under the condition of TunerOpening.OpeningIsTheOriginalIff.
- TunerVerdict.ProbeIsKeptIff: for baselines of up to forty throws; then older throws fade out of the arm, and the verdict is on what is left of them.
- TunerHeadroom.BoldProbesHaveRoom: for runs without edits in one environment; after an unnoticed edit a candidate can be bolder by 1e-4 than the step makes it.
- TunerWatch.SearchesAgainIff: where the landing law has just made a big step is told by the law's own decision, which TunerLanding writes out.
- ChargeControl.ReverseEndsIff: the source compares ticks without regard to their wrap; a reverse run across the wrap can end early or late.
- OtaComplete.GoodImageRuns: for a flash that takes every write; what a refused one does is in OtaSafety.RunningImageIsSafe.
- TunerOpening.OpeningIsTheOriginalIff: only one way for a fine Kp or coarse speed that is not positive, which a back-off need not lower; nothing for runs with edits, after which the tuner starts over.
- TunerJudged.VerdictRestsOnItsProfile: the first throw of an arm is left open, and so are changes of target or style during a search, which move the profile through the clamp without emptying the arms.
- TunerEdits.CandidateLeavesNoTrace: for edits that are told from both candidates; one within 1e-4 of a candidate's value is not noticed there.
- TunerIsolation.ProbeIsUndone: a rejection that ends the search restores the original or the clamped accepted profile instead; that case is TunerNeverWorse.NeverWorse.
- LearnSafety.ChoiceIsRight: for goals below 1e9 s, the mark that stands for no usable point.
- LearnSafety.FitIsFixedIff: for fits with prediction used; without it the handoff has to swallow the whole tail and no safety factor applies.
- LearnSafety.ChoiceIsTightest: for goal-making points with handoffs equal or more than 0.001 apart and landing speeds equal or more than 1e-4 apart; the tie windows are not transitive, so between closer ones the choice can end above the least.
- `lag_stats`, the ladder and the stable-weight waits of a Learn run: their results are the fit's inputs.
- SessionLog.SdIsOfSession: for sessions of fewer than 2^32 throws; then the divisor wraps and the sums do not.
- ChargeSafety.SilenceEndsTheThrow: for waits of at most 200 ms, the timeout that the loop passes to the scale driver.
- `charge_mode_top_up` and the waits for a settled, removed and returned cup: bounded runs of the fine tube whose result, the settled reading, is an input of ChargeStation.Station.Settled; a settled reading that is not finite, the servo gate and lag tracking are left out too.
- DhcpSafety.LeasesAreExclusive: the clock is read once for a message; the scan loop reads it at each entry, within one message's handling.
- ConfigStore.Eeprom.WriteBytes: a transaction that the bus refuses stores nothing; save handlers are records and places, not code.
- DHCP packets and options: messages are parsed DISCOVER and REQUEST.
- OtaSafety.RunningImageIsSafe: a failed flash write leaves the flash as it was, and the flash commands and the reset in the SDK do what they say; power loss during the copy is not modelled.
- HttpQuery.ParseRequest: parses for every path; the search for a handler, the 404 answer and the handlers are left out.
- Names are not decoded, by the code either; the number of parameters is lwIP's constant, here any limit.
- `fine_motor_cap` and the status text of the tuner: no decision reads them. Its counts of probes, acceptances and throws and its last gain are kept, and nothing is proved about them.
- Display, REST JSON, WiFi, mDNS, DNS, LED and UART code, and the vendored rest of src/http_rest.c.
