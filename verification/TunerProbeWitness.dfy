/**
 A search, throw by throw, that ends on a probe and leaves a profile whose landing speed is 2e-4 from that
 of the profile it judged: an edit of 1e-4 in two fields, too small to be noticed, was accepted with the
 probe before.
 */
module TunerProbeWitness {
  import opened Numeric
  import opened TunerModel
  import opened TunerRuns
  import opened TunerLimits
  import opened TunerLedger
  import opened TunerEdits
  import opened TunerNeverWorse
  import opened TunerSmallEdits
  import opened TunerWitness

  /** Nothing to steer but the coarse Kp: the handoff has no room, the fine Kp and the coarse speed are zero. */
  const BULKLESS := Params(1.0, 1.0, 0.0, 0.0, 0.0, 6.0, 0.25)
  const NARROW := ROOM.(target := 0.5)
  const STARTED := Baseline(true, 30.0, 0)
  const NOTHING_DONE := [false, false, false, false]

  /** The profile with that coarse Kp. */
  function At(kp: real): Params {
    BULKLESS.(coarseKp := kp)
  }

  /** The edit: the fine speed 1e-4 down and the landing speed 1e-4 up. */
  function Edited(p: Params): Params {
    p.(fineMax := 0.9999, fineMin := 1.0001)
  }

  predicate InRoom(kp: real) {
    1.5 <= kp <= 72.0
  }

  function SearchAt(dir: seq<int>, step: seq<real>, done: seq<bool>): Search {
    Search(COARSE_TAPER, dir, step, done, Tally(0, 0, 0, 0, 0))
  }

  /** A probe of the coarse Kp is running, n throws old. */
  predicate Trying(t: Tuner, good: Params, live: Params, s: Search, base: Arm, n: nat, seconds: real) {
    && t.init && t.mode == Probing && t.anchor == BULKLESS && t.good == good && t.seen == live
    && SameSearch(s, t.search) && Shaped(s) && s.knob == COARSE_TAPER && t.base == base && t.trial == Arms(n, seconds)
    && Quiet(t)
  }

  /** No probe is running, and the next throw starts one. */
  predicate Resting(t: Tuner, good: Params, s: Search, base: Arm) {
    && t.init && t.mode == Measuring && t.anchor == BULKLESS && t.good == good && t.seen == good
    && SameSearch(s, t.search) && Shaped(s) && t.base == base && t.trial == EMPTY_ARM && Quiet(t)
  }

  predicate Quiet(t: Tuner) {
    t.wait == 0 && t.start == STARTED && AllZero(t.window.errs) && |t.window.errs| >= ERR_MIN_N
  }

  // ----- one throw

  lemma LoggedQuiet(m: Libm, t: Tuner)
    requires Quiet(t)
    ensures Quiet(LogThrow(m, t, NARROW, Pass, 0.0))
  {
    hide WindowStats, Clampf;
    ZerosGrow(t.window.errs);
  }

  lemma TrialThrow(m: Libm, t: Tuner, good: Params, live: Params, s: Search, base: Arm, n: nat, seconds: real)
    requires Wf(t) && Trying(t, good, live, s, base, n, seconds) && n + 1 < ARM_N && Fixed(BULKLESS, NARROW, live)
    ensures Trying(Step(m, t, Throw(NARROW, PassIn(seconds), live)).t, good, live, s, base, n + 1, seconds)
  {
    hide ClampParams, Differ, LogThrow, FinishProbe, AddThrow, AllZero;
    NoDifference(live);
    LoggedQuiet(m, t);
    LoggedAlike(m, t, NARROW, Pass, 0.0);
    LoggedArms(m, t, NARROW, Pass, 0.0);
    ArmsGrow(n, seconds);
  }

  lemma LoggedArms(m: Libm, t: Tuner, env: Env, result: Verdict, err: real)
    ensures var u := LogThrow(m, t, env, result, err); u.base == t.base && u.trial == t.trial && u.wait == t.wait
  {
    hide WindowStats;
  }

  /** No gain: the accepted profile is back, and the knob has turned. */
  lemma TrialRejected(m: Libm, t: Tuner, good: Params, live: Params, s: Search, base: Arm, seconds: real)
    requires Wf(t) && Trying(t, good, live, s, base, ARM_N - 1, seconds)
    requires Mean(base) <= seconds && Fixed(BULKLESS, NARROW, good) && !AllDone(PassOn(s).done)
    ensures Resting(Step(m, t, Throw(NARROW, PassIn(seconds), live)).t, good, PassOn(s), base)
  {
    hide ClampParams, Differ, LogThrow, AddThrow, AllZero, EnterMonitor, MarginSigma, Variance, ErrRms, StartProbe;
    NoDifference(live);
    LoggedQuiet(m, t);
    LoggedAlike(m, t, NARROW, Pass, 0.0);
    LoggedArms(m, t, NARROW, Pass, 0.0);
    ArmsGrow(ARM_N - 1, seconds);
    assert Mean(Arms(ARM_N, seconds)) == seconds;
    hide Mean;
  }

  /** One throw on the accepted profile, and the next probe starts. */
  lemma ProbeStarts(m: Libm, t: Tuner, good: Params, s: Search, n: nat, seconds: real)
    requires Wf(t) && Resting(t, good, s, Arms(n, seconds)) && ARM_N <= n < 4 * ARM_N
    requires PickKnob(s, BULKLESS, good, NARROW, true, 0).found
    requires PickKnob(s, BULKLESS, good, NARROW, true, 0).s.knob == COARSE_TAPER
    ensures var r := PickKnob(s, BULKLESS, good, NARROW, true, 0).s;
            var live := Candidate(r, BULKLESS, good, NARROW, COARSE_TAPER);
            Trying(Step(m, t, Throw(NARROW, PassIn(seconds), good)).t, good, live, r, Arms(n + 1, seconds), 0, 1.0)
  {
    hide ClampParams, Differ, LogThrow, AddThrow, AllZero, EnterMonitor, PickKnob, LandingLaw, Candidate, MarginOk;
    NoDifference(good);
    LoggedQuiet(m, t);
    LoggedAlike(m, t, NARROW, Pass, 0.0);
    LoggedArms(m, t, NARROW, Pass, 0.0);
    ArmsGrow(n, seconds);
    var u := LogThrow(m, t, NARROW, Pass, 0.0);
    NothingToSteer(m, AddBase(u, Run(good, seconds, 0.0, false)), NARROW, good);
    AllowsAll(m, u.window.errs);
    PickSame(s, u.search, BULKLESS, good, NARROW, true, 0);
    var r, q := PickKnob(s, BULKLESS, good, NARROW, true, 0).s, PickKnob(u.search, BULKLESS, good, NARROW, true, 0).s;
    SameCandidate(r, q, BULKLESS, good, NARROW, COARSE_TAPER);
    assert Fixed(BULKLESS, NARROW, Candidate(r, BULKLESS, good, NARROW, COARSE_TAPER)) by {
      CandidateIsFixed(r, good);
    }
  }

  lemma AllowsAll(m: Libm, errs: seq<real>)
    requires AllZero(errs) && |errs| >= ERR_MIN_N
    ensures MarginOk(m, errs, NARROW)
  {
    ZeroSums(errs, SD_CLIP * NARROW.bracket);
    hide SumClipped, SumSqClipped;
  }

  lemma CandidateIsFixed(s: Search, good: Params)
    requires Shaped(s)
    ensures Fixed(BULKLESS, NARROW, Candidate(s, BULKLESS, good, NARROW, COARSE_TAPER))
  {
    hide ClampParams;
    ClampIsIdempotent(BULKLESS, NARROW, ApplyKnob(good, COARSE_TAPER, ProbeFactor(s.dir[3], s.step[3], NARROW)));
  }

  predicate StepsOn(s: Search, good: Params) {
    && Shaped(s) && s.knob == COARSE_TAPER && !s.done[COARSE_TAPER]
    && Differ(Candidate(s, BULKLESS, good, NARROW, COARSE_TAPER), good)
  }

  /** A clear gain: what was live, edited or not, is the profile to beat, and the next probe has begun. */
  lemma TrialAccepted(m: Libm, t: Tuner, good: Params, live: Params, kept: Params, s: Search, n: nat, slow: real,
                      seconds: real)
    requires m.sqrt(0.0) == 0.0
    requires Wf(t) && Trying(t, good, live, s, Arms(n, slow), ARM_N - 1, seconds) && !Differ(kept, live)
    requires 1 <= n && slow > seconds + 0.3 && StepsOn(Grow(s), kept)
    ensures var next := Candidate(Grow(s), BULKLESS, kept, NARROW, COARSE_TAPER);
            var u := Step(m, t, Throw(NARROW, PassIn(seconds), kept)).t;
            Trying(u, kept, next, Grow(s), Arms(ARM_N, seconds), 0, 1.0)
  {
    hide ClampParams, Differ, LogThrow, AddThrow, AllZero, EnterMonitor, MarginSigma, PickKnob, Candidate, MarginOk,
         AcceptProbe, KeepProbe;
    LoggedQuiet(m, t);
    LoggedAlike(m, t, NARROW, Pass, 0.0);
    LoggedArms(m, t, NARROW, Pass, 0.0);
    ArmsGrow(ARM_N - 1, seconds);
    var u := AddTrial(LogThrow(m, t, NARROW, Pass, 0.0), Run(kept, seconds, 0.0, false));
    Faster(m, n, slow, seconds, MarginSigma(m, u.window.errs, NARROW.bracket));
    Accepted(u, kept);
    AllowsAll(m, u.window.errs);
    var a := AcceptProbe(u, kept);
    PickUnfolds(a.search, BULKLESS, kept, NARROW, true, 0);
    SameCandidate(Grow(s), a.search, BULKLESS, kept, NARROW, COARSE_TAPER);
    assert StartProbe(m, a, NARROW, kept).started;
    CandidateIsFixed(Grow(s), kept);
  }

  lemma Faster(m: Libm, n: nat, slow: real, seconds: real, margin: real)
    requires m.sqrt(0.0) == 0.0 && 1 <= n && slow > seconds + 0.3
    ensures KeepProbe(m, Arms(n, slow), Arms(ARM_N, seconds), margin, NARROW.landSigma, PolicyFor(NARROW))
  {
    NoSpread(n, slow);
    NoSpread(ARM_N, seconds);
    hide Mean, Variance;
  }

  lemma NoSpread(n: nat, seconds: real)
    requires 1 <= n
    ensures Mean(Arms(n, seconds)) == seconds && Variance(Arms(n, seconds)) == 0.0
  {
  }

  lemma Accepted(t: Tuner, p: Params)
    requires Shaped(t.search)
    ensures var a := AcceptProbe(t, p);
            && a == t.(good := p, search := Grow(t.search), base := t.trial, trial := EMPTY_ARM, mode := Measuring,
                       counters := a.counters, ledger := a.ledger)
  {
    hide Mean, Grow;
  }

  /** The last knob is closed by a rejection: the search ends, and the start was beaten. */
  lemma LastRejected(m: Libm, t: Tuner, good: Params, live: Params, s: Search)
    requires Wf(t) && Trying(t, good, live, s, Arms(ARM_N, 10.0), ARM_N - 1, 10.0) && AllDone(PassOn(s).done)
    ensures var o := Step(m, t, Throw(NARROW, PassIn(10.0), live));
            && o.t.mode == Converged && KeptTheLast(o.t) && o.t.ledger.judged.good == good
            && o.p == ClampParams(BULKLESS, NARROW, good)
  {
    hide ClampParams, Differ, LogThrow, AddThrow, AllZero, MarginSigma, Variance, ErrRms, StartProbe;
    NoDifference(live);
    LoggedQuiet(m, t);
    LoggedAlike(m, t, NARROW, Pass, 0.0);
    LoggedArms(m, t, NARROW, Pass, 0.0);
    ArmsGrow(ARM_N - 1, 10.0);
    NoSpread(ARM_N, 10.0);
    hide Mean;
  }

  // ----- whole trials

  lemma {:induction false} PlayConcat(m: Libm, t: Tuner, es: seq<Throw>, more: seq<Throw>)
    requires Wf(t)
    ensures Play(m, t, es + more) == Play(m, Play(m, t, es), more)
  {
    hide Step;
    if more == [] {
      assert es + more == es;
    } else {
      assert (es + more)[..|es + more| - 1] == es + more[..|more| - 1];
      PlayConcat(m, t, es, more[..|more| - 1]);
    }
  }

  lemma {:induction false} Trial(m: Libm, t: Tuner, good: Params, live: Params, s: Search, base: Arm, n: nat,
                                 seconds: real)
    requires Wf(t) && Trying(t, good, live, s, base, 0, 1.0) && n < ARM_N && Fixed(BULKLESS, NARROW, live)
    ensures Trying(Play(m, t, Row(NARROW, live, seconds, n)), good, live, s, base, n, seconds)
  {
    hide Step, Fixed, Row, Quiet;
    if n == 0 {
      EmptyRow(NARROW, live, seconds);
      assert Arms(0, seconds) == Arms(0, 1.0);
    } else {
      Trial(m, t, good, live, s, base, n - 1, seconds);
      RowGrows(NARROW, live, seconds, n);
      TrialThrow(m, Play(m, t, Row(NARROW, live, seconds, n - 1)), good, live, s, base, n - 1, seconds);
    }
  }

  // ----- the other knobs give way without a throw

  function PinOpen(s: Search, k: nat): Search
    requires Shaped(s) && k < KNOBS
  {
    if s.done[k] then s else Pin(s, k)
  }

  /** After a rejection: the knob has turned, and the other three have been given up or shortened. */
  function Turned(s: Search): (r: Search)
    requires Shaped(s)
    ensures Shaped(r)
  {
    PinOpen(PinOpen(PinOpen(PassOn(s), 0), 1), 2).(knob := COARSE_TAPER)
  }

  lemma OnlyTaperMoves(s: Search, kp: real, k: nat)
    requires Shaped(s) && k < COARSE_TAPER && InRoom(kp)
    ensures !Differ(Candidate(s, BULKLESS, At(kp), NARROW, k), At(kp))
  {
  }

  lemma TaperTo(s: Search, kp: real)
    requires Shaped(s) && InRoom(kp) && InRoom(kp * ProbeFactor(s.dir[3], s.step[3], NARROW))
    ensures Candidate(s, BULKLESS, At(kp), NARROW, COARSE_TAPER) == At(kp * ProbeFactor(s.dir[3], s.step[3], NARROW))
  {
  }

  lemma PickFrom(s: Search, kp: real, k: nat)
    requires Shaped(s) && s.knob == 0 && k < COARSE_TAPER && InRoom(kp)
    ensures PickKnob(s, BULKLESS, At(kp), NARROW, true, k)
         == PickKnob(PinOpen(s, k), BULKLESS, At(kp), NARROW, true, k + 1)
    ensures KeepsTaper(s, PinOpen(s, k))
  {
    hide PickKnob, Candidate, Differ, Pin, KeepsTaper;
    OnlyTaperMoves(s, kp, k);
    PickUnfolds(s, BULKLESS, At(kp), NARROW, true, k);
    PinKeepsTaper(s, k);
  }

  predicate KeepsTaper(s: Search, r: Search)
    requires Shaped(s)
  {
    Shaped(r) && r.knob == s.knob && r.dir[3] == s.dir[3] && r.step[3] == s.step[3] && r.done[3] == s.done[3]
  }

  lemma PinKeepsTaper(s: Search, k: nat)
    requires Shaped(s) && k < COARSE_TAPER
    ensures KeepsTaper(s, PinOpen(s, k))
  {
  }

  lemma PicksTaper(s: Search, kp: real)
    requires Shaped(s) && s.knob == COARSE_TAPER && InRoom(kp) && StepsOn(Turned(s), At(kp))
    ensures PickKnob(PassOn(s), BULKLESS, At(kp), NARROW, true, 0) == Pick(Turned(s), true)
  {
    hide PickKnob, Candidate, Differ, PassOn, PinOpen;
    ShapedAfter(s);
    var a := PassOn(s);
    assert a.knob == 0 by { PassOnKnob(s); }
    PickFrom(a, kp, 0);
    var b := PinOpen(a, 0);
    PickFrom(b, kp, 1);
    var c := PinOpen(b, 1);
    PickFrom(c, kp, 2);
    var d := PinOpen(c, 2);
    PickUnfolds(d, BULKLESS, At(kp), NARROW, true, 3);
    SameCandidate(d, Turned(s), BULKLESS, At(kp), NARROW, COARSE_TAPER);
  }

  lemma PassOnKnob(s: Search)
    requires Shaped(s) && s.knob == COARSE_TAPER
    ensures PassOn(s).knob == 0
  {
  }

  /** Ten throws of a probe that gains nothing, and one throw on the accepted profile. */
  function Round(live: Params, good: Params): seq<Throw> {
    Row(NARROW, live, 20.0, 10) + Row(NARROW, good, 20.0, 1)
  }

  lemma RoundTurns(m: Libm, t: Tuner, kp: real, live: Params, s: Search, r: Search, n: nat)
    requires Wf(t) && Trying(t, At(kp), live, s, Arms(n, 20.0), 0, 1.0) && ARM_N <= n < 4 * ARM_N
    requires InRoom(kp) && Fixed(BULKLESS, NARROW, live) && !AllDone(PassOn(s).done)
    requires Shaped(r) && SameSearch(r, Turned(s)) && StepsOn(r, At(kp))
    ensures var next := Candidate(r, BULKLESS, At(kp), NARROW, COARSE_TAPER);
            Trying(Play(m, t, Round(live, At(kp))), At(kp), next, r, Arms(n + 1, 20.0), 0, 1.0)
  {
    hide Step, Fixed, Row, Quiet, Candidate, Differ, PassOn, PickKnob, Turned;
    var good := At(kp);
    Trial(m, t, good, live, s, Arms(n, 20.0), 9, 20.0);
    RowGrows(NARROW, live, 20.0, 10);
    var nine := Play(m, t, Row(NARROW, live, 20.0, 9));
    NoSpread(n, 20.0);
    assert Fixed(BULKLESS, NARROW, good) by { GoodFits(kp); }
    TrialRejected(m, nine, good, live, s, Arms(n, 20.0), 20.0);
    var ten := Play(m, t, Row(NARROW, live, 20.0, 10));
    SameCandidate(r, Turned(s), BULKLESS, good, NARROW, COARSE_TAPER);
    PicksTaper(s, kp);
    ProbeStarts(m, ten, good, PassOn(s), n, 20.0);
    RowGrows(NARROW, good, 20.0, 1);
    EmptyRow(NARROW, good, 20.0);
    PlayConcat(m, t, Row(NARROW, live, 20.0, 10), Row(NARROW, good, 20.0, 1));
    assert Play(m, ten, []) == ten;
  }

  lemma GoodFits(kp: real)
    requires InRoom(kp)
    ensures Fixed(BULKLESS, NARROW, At(kp))
  {
  }

  // ----- the search

  const FIRST_TRIAL := SearchAt([-1, -1, -1, 1], [0.15, 0.12, 0.072, 0.4], NOTHING_DONE)
  const GROWN := SearchAt([-1, -1, -1, 1], [0.15, 0.12, 0.072, 0.5], NOTHING_DONE)
  const DOWN_THIRTY := SearchAt([1, 1, 1, -1], [0.09, 0.072, 0.0432, 0.3], [false, false, true, false])
  const UP_EIGHTEEN := TaperOnly(1, 0.18)
  const DOWN_ELEVEN := TaperOnly(-1, 0.108)
  const UP_SIX := TaperOnly(1, 0.0648)
  const LAST_TRIAL := TaperOnly(1, 0.08424)

  function TaperOnly(dir: int, step: real): Search {
    SearchAt([-1, -1, 1, dir], [0.054, 0.0432, 0.0432, step], [true, true, true, false])
  }

  lemma FirstPick(s: Search)
    requires s == FIRST_SEARCH
    ensures var r := PickKnob(s, BULKLESS, At(6.0), NARROW, true, 0);
            && r.found && SameSearch(FIRST_TRIAL, r.s)
            && Candidate(r.s, BULKLESS, At(6.0), NARROW, COARSE_TAPER) == At(8.4)
  {
    hide PickKnob, Candidate, Differ, PinOpen;
    PickFrom(s, 6.0, 0);
    var b := PinOpen(s, 0);
    PickFrom(b, 6.0, 1);
    var c := PinOpen(b, 1);
    PickFrom(c, 6.0, 2);
    var d := PinOpen(c, 2);
    TaperTo(d, 6.0);
    TaperApart(6.0, 8.4);
    PickUnfolds(d, BULKLESS, At(6.0), NARROW, true, 3);
    assert SameSearch(FIRST_TRIAL, d.(knob := COARSE_TAPER)) by { FirstPins(); }
    SameCandidate(d, d.(knob := COARSE_TAPER), BULKLESS, At(6.0), NARROW, COARSE_TAPER);
  }

  lemma FirstPins()
    ensures SameSearch(FIRST_TRIAL, PinOpen(PinOpen(PinOpen(FIRST_SEARCH, 0), 1), 2).(knob := COARSE_TAPER))
  {
  }

  lemma TaperApart(kp: real, other: real)
    requires Abs(kp - other) > 0.0001
    ensures Differ(At(other), At(kp))
  {
  }

  lemma ThenTurned()
    ensures SameSearch(GROWN, Grow(FIRST_TRIAL)) && SameSearch(LAST_TRIAL, Grow(UP_SIX))
    ensures SameSearch(DOWN_THIRTY, Turned(GROWN)) && !AllDone(PassOn(GROWN).done)
  {
    assert !PassOn(GROWN).done[3];
  }

  lemma ThenClosed()
    ensures SameSearch(UP_EIGHTEEN, Turned(DOWN_THIRTY)) && !AllDone(PassOn(DOWN_THIRTY).done)
  {
    assert !PassOn(DOWN_THIRTY).done[3];
  }

  lemma ThenTaperOnly(dir: int, step: real)
    requires step * 0.6 >= STEP_MIN
    ensures SameSearch(TaperOnly(-dir, step * 0.6), Turned(TaperOnly(dir, step)))
    ensures !AllDone(PassOn(TaperOnly(dir, step)).done)
  {
    assert !PassOn(TaperOnly(dir, step)).done[3];
  }

  lemma LastClosed()
    ensures AllDone(PassOn(LAST_TRIAL).done)
  {
  }

  /** The tenth throw of thirty seconds: the first probe of the taper begins. */
  lemma TenthThrow(m: Libm, t: Tuner)
    requires MeasuringFirst(t, BULKLESS, BULKLESS, 9) && AllZero(t.window.errs) && |t.window.errs| == 9
    requires t.base == Arms(9, 30.0)
    ensures Wf(t)
    ensures var u := Step(m, t, Throw(NARROW, PassIn(30.0), BULKLESS)).t;
            Trying(u, At(6.0), At(8.4), FIRST_TRIAL, Arms(ARM_N, 30.0), 0, 1.0)
  {
    hide ClampParams, WindowStats, BackOff, LandingLaw, PickKnob, Candidate, Differ, AllZero, LogThrow, MarginOk,
         AddThrow, Mean;
    MeasuringIsWf(t, BULKLESS, BULKLESS, 9);
    NoDifference(BULKLESS);
    ArmsGrow(9, 30.0);
    NoSpread(ARM_N, 30.0);
    FirstLogged(m, t);
    var b := AddBase(LogThrow(m, t, NARROW, Pass, 0.0), Run(BULKLESS, 30.0, 0.0, false));
    NothingToSteer(m, b, NARROW, BULKLESS);
    AllowsAll(m, b.window.errs);
    FirstPick(FIRST_SEARCH);
    CandidateIsFixed(PickKnob(FIRST_SEARCH, BULKLESS, At(6.0), NARROW, true, 0).s, At(6.0));
    assert StartProbe(m, b, NARROW, BULKLESS).started;
  }

  lemma FirstLogged(m: Libm, t: Tuner)
    requires t.search == FIRST_SEARCH && AllZero(t.window.errs) && |t.window.errs| == 9
    ensures var u := LogThrow(m, t, NARROW, Pass, 0.0);
            && AllZero(u.window.errs) && |u.window.errs| == 10
            && u == t.(window := u.window, counters := u.counters, ledger := u.ledger)
  {
    hide WindowStats, Clampf;
  }

  lemma First(m: Libm)
    ensures var t := Play(m, FRESH, Row(NARROW, BULKLESS, 30.0, 10));
            Trying(t, At(6.0), At(8.4), FIRST_TRIAL, Arms(ARM_N, 30.0), 0, 1.0)
  {
    hide Step, Fixed, Row, Trying;
    GoodFits(6.0);
    RowMeasures(m, NARROW, BULKLESS, 30.0, 9);
    RowGrows(NARROW, BULKLESS, 30.0, 10);
    AppendOne(m, Row(NARROW, BULKLESS, 30.0, 9), Throw(NARROW, PassIn(30.0), BULKLESS));
    TenthThrow(m, Play(m, FRESH, Row(NARROW, BULKLESS, 30.0, 9)));
  }

  /** Nine throws of a probe on `live`, and a tenth on `kept`, which nobody can tell from it. */
  function Gaining(live: Params, kept: Params, seconds: real): seq<Throw> {
    Row(NARROW, live, seconds, 9) + [Throw(NARROW, PassIn(seconds), kept)]
  }

  lemma GainAccepted(m: Libm, t: Tuner, good: Params, live: Params, kept: Params, s: Search, r: Search, n: nat,
                     slow: real, seconds: real)
    requires m.sqrt(0.0) == 0.0
    requires Wf(t) && Trying(t, good, live, s, Arms(n, slow), 0, 1.0) && !Differ(kept, live)
    requires 1 <= n && slow > seconds + 0.3 && Shaped(r) && SameSearch(r, Grow(s)) && StepsOn(r, kept)
    requires Fixed(BULKLESS, NARROW, live)
    ensures var next := Candidate(r, BULKLESS, kept, NARROW, COARSE_TAPER);
            Trying(Play(m, t, Gaining(live, kept, seconds)), kept, next, r, Arms(ARM_N, seconds), 0, 1.0)
  {
    hide Step, Fixed, Row, Candidate, Differ, Grow;
    Trial(m, t, good, live, s, Arms(n, slow), 9, seconds);
    ShapedAfter(s);
    SameCandidate(r, Grow(s), BULKLESS, kept, NARROW, COARSE_TAPER);
    var es, e := Row(NARROW, live, seconds, 9), Throw(NARROW, PassIn(seconds), kept);
    TrialAccepted(m, Play(m, t, es), good, live, kept, s, n, slow, seconds);
    assert (es + [e])[..|es|] == es;
  }

  lemma TaperSteps(s: Search, kp: real, next: real)
    requires Shaped(s) && s.knob == COARSE_TAPER && !s.done[COARSE_TAPER] && InRoom(kp) && InRoom(next)
    requires next == kp * (1.0 + s.dir[3] as real * s.step[3]) && Abs(kp - next) > 0.0001
    ensures Candidate(s, BULKLESS, At(kp), NARROW, COARSE_TAPER) == At(next) && StepsOn(s, At(kp))
    ensures Fixed(BULKLESS, NARROW, At(next))
  {
    TaperTo(s, kp);
    TaperApart(kp, next);
    GoodFits(next);
  }

  const BEST := At(8.94432)
  const LAST_CANDIDATE := BULKLESS.(coarseKp := 8.94432 * 1.08424, fineMax := 0.9999, fineMin := 0.9999)

  lemma EditedSteps()
    ensures Candidate(LAST_TRIAL, BULKLESS, Edited(BEST), NARROW, COARSE_TAPER) == LAST_CANDIDATE
    ensures StepsOn(LAST_TRIAL, Edited(BEST)) && Fixed(BULKLESS, NARROW, LAST_CANDIDATE) && !Differ(Edited(BEST), BEST)
  {
  }

  /** One gain, and four probes around it that gain nothing. */
  function Around(): seq<Throw> {
    Gaining(At(8.4), At(8.4), 20.0) + Round(At(12.6), At(8.4)) + Round(At(5.88), At(8.4))
        + Round(At(9.912), At(8.4)) + Round(At(7.4928), At(8.4))
  }

  lemma AfterFour(m: Libm, t: Tuner)
    requires m.sqrt(0.0) == 0.0
    requires Wf(t) && Trying(t, At(6.0), At(8.4), FIRST_TRIAL, Arms(ARM_N, 30.0), 0, 1.0)
    ensures Trying(Play(m, t, Around()), At(8.4), BEST, UP_SIX, Arms(14, 20.0), 0, 1.0)
  {
    hide Step, Fixed, Row, Trying, Candidate, Differ, Grow, Turned, Gaining, Round, PassOn, StepsOn;
    ThenTurned();
    ThenClosed();
    NoDifference(At(8.4));
    TaperSteps(GROWN, 8.4, 12.6);
    TaperSteps(DOWN_THIRTY, 8.4, 5.88);
    TaperSteps(UP_EIGHTEEN, 8.4, 9.912);
    TaperSteps(DOWN_ELEVEN, 8.4, 7.4928);
    TaperSteps(UP_SIX, 8.4, 8.94432);
    GoodFits(8.4);
    var es := Gaining(At(8.4), At(8.4), 20.0);
    var u := Play(m, t, es);
    GainAccepted(m, t, At(6.0), At(8.4), At(8.4), FIRST_TRIAL, GROWN, ARM_N, 30.0, 20.0);
    var v := Play(m, u, Round(At(12.6), At(8.4)));
    RoundTurns(m, u, 8.4, At(12.6), GROWN, DOWN_THIRTY, 10);
    var w := Play(m, v, Round(At(5.88), At(8.4)));
    RoundTurns(m, v, 8.4, At(5.88), DOWN_THIRTY, UP_EIGHTEEN, 11);
    var x := Play(m, w, Round(At(9.912), At(8.4)));
    ThenTaperOnly(1, 0.18);
    RoundTurns(m, w, 8.4, At(9.912), UP_EIGHTEEN, DOWN_ELEVEN, 12);
    ThenTaperOnly(-1, 0.108);
    RoundTurns(m, x, 8.4, At(7.4928), DOWN_ELEVEN, UP_SIX, 13);
    PlayConcat(m, t, es, Round(At(12.6), At(8.4)));
    PlayConcat(m, t, es + Round(At(12.6), At(8.4)), Round(At(5.88), At(8.4)));
    PlayConcat(m, t, es + Round(At(12.6), At(8.4)) + Round(At(5.88), At(8.4)), Round(At(9.912), At(8.4)));
    PlayConcat(m, t, es + Round(At(12.6), At(8.4)) + Round(At(5.88), At(8.4)) + Round(At(9.912), At(8.4)),
               Round(At(7.4928), At(8.4)));
  }

  function Session(): seq<Throw> {
    Row(NARROW, BULKLESS, 30.0, 10) + Around() + Gaining(BEST, Edited(BEST), 10.0)
        + Row(NARROW, LAST_CANDIDATE, 10.0, 9)
  }

  lemma BeforeTheLast(m: Libm)
    requires m.sqrt(0.0) == 0.0
    ensures Trying(Play(m, FRESH, Session()), Edited(BEST), LAST_CANDIDATE, LAST_TRIAL, Arms(ARM_N, 10.0), 9, 10.0)
  {
    hide Step, Fixed, Row, Trying, Candidate, Differ, Grow, Gaining, Around, StepsOn;
    First(m);
    var a := Row(NARROW, BULKLESS, 30.0, 10);
    var t := Play(m, FRESH, a);
    AfterFour(m, t);
    var u := Play(m, t, Around());
    var b := Gaining(BEST, Edited(BEST), 10.0);
    var v := Play(m, u, b);
    ThenTurned();
    EditedSteps();
    TaperSteps(UP_SIX, 8.4, 8.94432);
    GainAccepted(m, u, At(8.4), BEST, Edited(BEST), UP_SIX, LAST_TRIAL, 14, 20.0, 10.0);
    Trial(m, v, Edited(BEST), LAST_CANDIDATE, LAST_TRIAL, Arms(ARM_N, 10.0), 9, 10.0);
    PlayConcat(m, FRESH, a, Around());
    PlayConcat(m, FRESH, a + Around(), b);
    PlayConcat(m, FRESH, a + Around() + b, Row(NARROW, LAST_CANDIDATE, 10.0, 9));
  }

  lemma SessionInNarrow()
    ensures OneEnv(Session(), NARROW)
  {
    assert forall es: seq<Throw>, more: seq<Throw> ::
        OneEnv(es, NARROW) && OneEnv(more, NARROW) ==> OneEnv(es + more, NARROW);
    assert forall p, x, n: nat :: OneEnv(Row(NARROW, p, x, n), NARROW);
  }

  /**
   A search that ends on a probe and keeps its last profile, and leaves a landing speed of 0.9999 where the
   profile that it judged had 1.0001. The one edit in it was of 1e-4 in two fields.
   */
  lemma ProbeEndMoves(m: Libm)
    requires m.sqrt(0.0) == 0.0
    ensures var es, e := Session(), Throw(NARROW, PassIn(10.0), LAST_CANDIDATE);
            var t := Play(m, FRESH, es);
            var o := Step(m, t, e);
            && OneEnv(es + [e], NARROW) && t.mode == Probing && o.t.mode == Converged && KeptTheLast(o.t)
            && o.t.ledger.judged.good.fineMin == 1.0001 && o.p.fineMin == 0.9999
  {
    hide Step, Session, KeptTheLast;
    BeforeTheLast(m);
    LastClosed();
    SessionInNarrow();
    LastRejected(m, Play(m, FRESH, Session()), Edited(BEST), LAST_CANDIDATE, LAST_TRIAL);
  }
}
