/**
 The live profile tuner (src/learn_tuner.c) as a state machine on values. One `Observe` is one
 finished throw. The history the firmware keeps in compact form appears here in full: the landing
 errors as the list of the last twenty, the miss register as the list of all throws since it was
 last cleared. A `Ledger` beside the state records what each throw ran on and what the search
 decided; no decision reads it.
 */
module TunerModel {
  import opened Numeric

  const ERR_WINDOW: nat := 20
  const ERR_MIN_N: nat := 8
  const ARM_N: nat := 10
  const MONITOR_N: nat := 16
  const KNOBS: nat := 4

  const STEP_MIN: real := 0.06
  const STEP_MAX: real := 0.50
  const STEP_REOPEN: real := 0.15
  const START_STEPS: seq<real> := [0.25, 0.20, 0.12, 0.40]
  const REOPEN_STEPS: seq<real> := [STEP_REOPEN, STEP_REOPEN, STEP_REOPEN, STEP_REOPEN]

  const PROBE_MARGIN_FRAC: real := 0.75
  const SD_CLIP: real := 2.0
  const LAND_DEADBAND: real := 1.15
  const LAND_EVERY_URGENT: nat := 3
  const LAND_EVERY: nat := 6
  const LAND_STEP: real := 1.25
  const TRIM_GAIN: real := 0.15
  const TRIM_LIMIT: real := 0.50

  const HANDOFF: nat := 0
  const FINE_KP: nat := 1
  const COARSE_MAX: nat := 2
  const COARSE_TAPER: nat := 3

  /** sqrtf and powf(_, 0.6): nothing about them is assumed. */
  datatype Libm = Libm(sqrt: real -> real, pow06: real -> real)

  datatype Params = Params(fineMax: real, fineMin: real, fineKp: real,
                           coarseMax: real, coarseMin: real, coarseKp: real, handoff: real)

  datatype Env = Env(target: real, bracket: real, landSigma: real,
                     coarseMotorCap: real, coarseMotorMin: real, coarseSdFloor: real,
                     handoffCapFrac: real, timeGoal: real, handoffFloor: real, aggressive: bool)

  datatype Verdict = Pass | Over | Under

  /** A measured float: a number, or an infinity or NaN. */
  datatype Reading = Number(v: real) | NotFinite

  datatype Obs = Obs(result: Verdict, total: Reading, error: Reading, coarseRanLong: bool)

  datatype Policy = Policy(riskyMargin: real, rejectMisses: nat, minGain: real, boundMul: real, stepMul: real)

  datatype Mode = Measuring | Probing | Converged

  datatype Arm = Arm(n: nat, misses: nat, sum: real, sumSq: real, errSum: real, errSumSq: real)

  /** One throw counted into an arm: the profile it ran on, and what was seen. */
  datatype Run = Run(on: Params, total: real, err: real, miss: bool)

  /** What the last decision to stop searching looked at. */
  datatype Judgement = Judgement(good: Params, arm: Arm, runs: seq<Run>, live: Params)

  /** Since the search was last started, with `credit` steps in hand: probes decided, throws they took. */
  datatype Tally = Tally(credit: nat, accepted: nat, rejected: nat, pinned: nat, spent: nat)

  /** What the first full baseline was measured on, and whether a back-off had come before it. */
  datatype Opening = Opening(on: Params, runs: seq<Run>, nudged: bool)

  datatype Ledger = Ledger(baseRuns: seq<Run>, trialRuns: seq<Run>, opening: Opening,
                           misses: nat, nudges: nat, nudged: bool, judged: Judgement)

  datatype Window = Window(errs: seq<real>, trim: real, landTick: nat, missLog: seq<bool>)

  datatype Search = Search(knob: nat, dir: seq<int>, step: seq<real>, done: seq<bool>, tally: Tally)

  datatype Baseline = Baseline(known: bool, mean: real, misses: nat)

  /** What the status line and the portal show. The three counts are 16 bits wide. */
  datatype Counters = Counters(probes: nat, accepted: nat, throws: nat, lastGain: real)

  datatype Tuner = Tuner(
    init: bool, anchor: Params, good: Params, seen: Params,
    window: Window, mode: Mode, search: Search, wait: nat, base: Arm, trial: Arm,
    monitorRef: real, start: Baseline, counters: Counters, ledger: Ledger)

  /** The machine's state after a throw: the tuner's memory and the live profile. */
  datatype Outcome = Outcome(t: Tuner, p: Params)

  const ZERO_PARAMS := Params(0.0, 0.0, 0.0, 0.0, 0.0, 0.0, 0.0)
  const EMPTY_ARM := Arm(0, 0, 0.0, 0.0, 0.0, 0.0)
  const NO_OPENING := Opening(ZERO_PARAMS, [], false)
  const EMPTY_LEDGER := Ledger([], [], NO_OPENING, 0, 0, false, Judgement(ZERO_PARAMS, EMPTY_ARM, [], ZERO_PARAMS))

  /** tuner_init: all bytes zero. */
  const FRESH := Tuner(false, ZERO_PARAMS, ZERO_PARAMS, ZERO_PARAMS, Window([], 0.0, 0, []), Measuring,
                       Search(0, [0, 0, 0, 0], [0.0, 0.0, 0.0, 0.0], [false, false, false, false],
                           Tally(0, 0, 0, 0, 0)),
                       0, EMPTY_ARM, EMPTY_ARM, 0.0, Baseline(false, 0.0, 0), Counters(0, 0, 0, 0.0), EMPTY_LEDGER)

  function PolicyFor(env: Env): Policy {
    if env.aggressive then Policy(0.90, 3, 0.20, 1.5, 1.25) else Policy(1.25, 2, 0.30, 1.0, 1.0)
  }

  predicate Differ(a: Params, b: Params) {
    || Abs(a.fineMax - b.fineMax) > 0.0001
    || Abs(a.fineMin - b.fineMin) > 0.0001
    || Abs(a.fineKp - b.fineKp) > 0.0001
    || Abs(a.coarseMax - b.coarseMax) > 0.0001
    || Abs(a.coarseMin - b.coarseMin) > 0.0001
    || Abs(a.coarseKp - b.coarseKp) > 0.0001
    || Abs(a.handoff - b.handoff) > 0.0001
  }

  // ----- arms and windows

  function AddThrow(a: Arm, v: real, err: real, miss: bool): Arm {
    var b := if a.n >= 4 * ARM_N
             then Arm(a.n / 2, a.misses / 2, a.sum * 0.5, a.sumSq * 0.5, a.errSum * 0.5, a.errSumSq * 0.5)
             else a;
    Arm(b.n + 1, if miss then b.misses + 1 else b.misses, b.sum + v, b.sumSq + v * v,
        b.errSum + err, b.errSumSq + err * err)
  }

  function Mean(a: Arm): real {
    if a.n > 0 then a.sum / a.n as real else 0.0
  }

  /** The sample variance from running sums. */
  function OnePass(n: nat, sumSq: real, mean: real): real
    requires n >= 2
  {
    (sumSq - n as real * mean * mean) / (n - 1) as real
  }

  function Variance(a: Arm): real {
    if a.n < 2 then 0.0
    else
      var v := OnePass(a.n, a.sumSq, Mean(a));
      if v > 0.0 then v else 0.0
  }

  function ErrRms(m: Libm, a: Arm): real {
    if a.n > 0 then m.sqrt(a.errSumSq / a.n as real) else 0.0
  }

  /** The last n entries of s, or all of it when it is shorter. */
  function Last<T>(s: seq<T>, n: nat): (r: seq<T>)
    ensures |r| <= n && |r| <= |s|
  {
    if |s| <= n then s else s[|s| - n..]
  }

  function CountTrue(s: seq<bool>): nat {
    if s == [] then 0 else CountTrue(s[..|s| - 1]) + if s[|s| - 1] then 1 else 0
  }

  function RecentMisses(missLog: seq<bool>, n: nat): nat {
    CountTrue(Last(missLog, n))
  }

  function SumClipped(errs: seq<real>, clip: real): real {
    if errs == [] then 0.0 else SumClipped(errs[..|errs| - 1], clip) + Winsor(errs[|errs| - 1], clip)
  }

  function SumSqClipped(errs: seq<real>, clip: real): real {
    if errs == [] then 0.0
    else
      var v := Winsor(errs[|errs| - 1], clip);
      SumSqClipped(errs[..|errs| - 1], clip) + v * v
  }

  /** Two separate tests, as in the loop: with a negative clip the second one decides. */
  function Winsor(v: real, clip: real): real {
    var w := if v > clip then clip else v;
    if w < -clip then -clip else w
  }

  datatype Stats = Stats(mean: real, sd: real)

  function StatsOf(m: Libm, n: nat, sum: real, sumSq: real): Stats {
    var mean := if n > 0 then sum / n as real else 0.0;
    var v := if n > 1 then OnePass(n, sumSq, mean) else 0.0;
    Stats(mean, if v > 0.0 then m.sqrt(v) else 0.0)
  }

  function WindowStats(m: Libm, errs: seq<real>, bracket: real): Stats {
    var clip := SD_CLIP * bracket;
    StatsOf(m, |errs|, SumClipped(errs, clip), SumSqClipped(errs, clip))
  }

  function MarginSigma(m: Libm, errs: seq<real>, bracket: real): real {
    if |errs| < ERR_MIN_N || bracket <= 0.0 then 0.0
    else
      var w := WindowStats(m, errs, bracket);
      var reach := Max(0.0, bracket - Abs(w.mean));
      if w.sd < 0.0001 then 99.0 else reach / w.sd
  }

  // ----- limits

  function ClampParams(anchor: Params, env: Env, p: Params): Params {
    var bm := PolicyFor(env).boundMul;
    var fineKp := if anchor.fineKp > 0.0 then Clampf(p.fineKp, 0.4 * anchor.fineKp, 3.0 * bm * anchor.fineKp)
        else p.fineKp;
    var fineMin0 := if anchor.fineMin > 0.0 then Clampf(p.fineMin, 0.5 * anchor.fineMin, 2.0 * bm * anchor.fineMin)
        else p.fineMin;
    var fineMin := if fineMin0 > p.fineMax then p.fineMax else fineMin0;
    var coarseMax := if anchor.coarseMax > 0.0
        then Clampf(p.coarseMax, CoarseLow(anchor, env), CoarseHigh(anchor, env)) else p.coarseMax;
    var coarseKp0 := if anchor.coarseMax > 0.0 && p.coarseMax > 0.0 && Abs(coarseMax - p.coarseMax) > 0.000001
                     then p.coarseKp * (coarseMax / p.coarseMax) else p.coarseKp;
    var coarseKp := if anchor.coarseKp > 0.0 then Clampf(coarseKp0, 0.25 * anchor.coarseKp, 12.0 * anchor.coarseKp)
        else coarseKp0;
    var coarseMin0 := if p.coarseMin < env.coarseMotorMin then env.coarseMotorMin else p.coarseMin;
    var coarseMin := if coarseMin0 > coarseMax then coarseMax else coarseMin0;
    var handoff := if HandoffHigh(env) > 0.0 then Clampf(p.handoff, HandoffLow(env), HandoffHigh(env)) else p.handoff;
    Params(p.fineMax, fineMin, fineKp, coarseMax, coarseMin, coarseKp, handoff)
  }

  function CoarseHigh(anchor: Params, env: Env): real {
    var hi := 2.0 * PolicyFor(env).boundMul * anchor.coarseMax;
    if env.coarseMotorCap > 0.0 && hi > env.coarseMotorCap then env.coarseMotorCap else hi
  }

  function CoarseLow(anchor: Params, env: Env): real {
    Min(0.5 * anchor.coarseMax, CoarseHigh(anchor, env))
  }

  function HandoffHigh(env: Env): real {
    env.handoffCapFrac * env.target
  }

  /** The narrowest handoff allowed, never above the cap. */
  function HandoffLow(env: Env): real {
    Min(Max(if env.handoffFloor > 0.0 then env.handoffFloor else 0.30, env.coarseSdFloor), HandoffHigh(env))
  }

  // ----- the search

  function AnchorTo(p: Params, ledger: Ledger): Tuner {
    Tuner(true, p, p, p, Window([], 0.0, 0, []), Measuring,
          Search(0, [1, 1, 1, 1], START_STEPS, [false, false, false, false], Tally(12, 0, 0, 0, 0)),
          0, EMPTY_ARM, EMPTY_ARM, 0.0, Baseline(false, 0.0, 0), Counters(0, 0, 0, 0.0),
          Ledger([], [], NO_OPENING, ledger.misses, ledger.nudges, false, ledger.judged))
  }

  predicate AllDone(done: seq<bool>) {
    forall k :: 0 <= k < |done| ==> done[k]
  }

  predicate IsRisky(knob: nat, dir: int) {
    if knob == HANDOFF then dir < 0 else dir > 0
  }

  function ApplyKnob(p: Params, knob: nat, factor: real): Params {
    if knob == HANDOFF then p.(handoff := p.handoff * factor)
    else if knob == FINE_KP then p.(fineKp := p.fineKp * factor)
    else if knob == COARSE_TAPER then p.(coarseKp := p.coarseKp * factor)
    else
      var next := p.coarseMax * factor;
      p.(coarseMax := next,
         coarseKp := if p.coarseMax > 0.0 then p.coarseKp * (next / p.coarseMax) else p.coarseKp)
  }

  predicate Shaped(s: Search) {
    |s.dir| == KNOBS && |s.step| == KNOBS && |s.done| == KNOBS && s.knob < KNOBS
  }

  /** The profile a probe of knob k would put live. */
  function Candidate(s: Search, anchor: Params, good: Params, env: Env, k: nat): Params
    requires k < |s.dir| && k < |s.step|
  {
    ClampParams(anchor, env, ApplyKnob(good, k, ProbeFactor(s.dir[k], s.step[k], env)))
  }

  function ProbeFactor(dir: int, step: real, env: Env): real {
    1.0 + dir as real * step * PolicyFor(env).stepMul
  }

  /** Turn a knob round and shorten its step; too short a step closes the knob. */
  function TurnBack(s: Search, k: nat): Search
    requires k < |s.dir| && k < |s.step| && k < |s.done|
  {
    var shorter := s.step[k] * 0.6;
    s.(dir := s.dir[k := -s.dir[k]], step := s.step[k := shorter],
       done := if shorter < STEP_MIN then s.done[k := true] else s.done)
  }

  /** A step that the limits swallow is given up without a throw. */
  function Pin(s: Search, k: nat): Search
    requires k < |s.dir| && k < |s.step| && k < |s.done|
  {
    TurnBack(s, k).(tally := s.tally.(pinned := s.tally.pinned + 1))
  }

  /** First measurement of the profile as found. The flag says that it already meets the time goal. */
  function RecordStart(t: Tuner, env: Env): (Tuner, bool) {
    if !t.start.known && t.base.n >= ARM_N then
      var mean := Mean(t.base);
      var u := t.(start := Baseline(true, mean, t.base.misses),
                  ledger := t.ledger.(opening := Opening(t.good, t.ledger.baseRuns, t.ledger.nudged)));
      if env.timeGoal > 0.0 && mean <= env.timeGoal
      then (u.(search := u.search.(done := [true, true, true, true]), monitorRef := mean), true)
      else (u, false)
    else (t, false)
  }

  /** The knob to probe next, if one has a legal step that is allowed now: then `found`, and it is `s.knob`. */
  datatype Pick = Pick(s: Search, found: bool)

  function PickKnob(s: Search, anchor: Params, good: Params, env: Env, marginOk: bool, tries: nat): (r: Pick)
    requires Shaped(s) && tries <= KNOBS
    ensures Shaped(r.s)
    decreases KNOBS - tries
  {
    if tries == KNOBS then Pick(s, false)
    else
      var k := (s.knob + tries) % KNOBS;
      if s.done[k] || (IsRisky(k, s.dir[k]) && !marginOk) then PickKnob(s, anchor, good, env, marginOk, tries + 1)
      else if !Differ(Candidate(s, anchor, good, env, k), good) then
        PickKnob(Pin(s, k), anchor, good, env, marginOk, tries + 1)
      else Pick(s.(knob := k), true)
  }

  datatype Start = Start(t: Tuner, p: Params, started: bool)

  function MarginOk(m: Libm, errs: seq<real>, env: Env): bool {
    MarginSigma(m, errs, env.bracket) >= PolicyFor(env).riskyMargin * env.landSigma
  }

  function StartProbe(m: Libm, t: Tuner, env: Env, p: Params): Start
    requires Shaped(t.search)
  {
    var (u, settled) := RecordStart(t, env);
    if settled then Start(u, p, false)
    else
      var pick := PickKnob(u.search, u.anchor, u.good, env, MarginOk(m, u.window.errs, env), 0);
      if pick.found then
        Start(u.(search := pick.s, trial := EMPTY_ARM, mode := Probing,
                 counters := u.counters.(probes := (u.counters.probes + 1) % 0x1_0000),
                 ledger := u.ledger.(trialRuns := [])),
              Candidate(pick.s, u.anchor, u.good, env, pick.s.knob), true)
      else Start(u.(search := pick.s), p, false)
  }

  /** True to keep the candidate. Both arms must hold a throw: their counts are divided by. */
  predicate KeepProbe(m: Libm, base: Arm, trial: Arm, margin: real, landSigma: real, pol: Policy)
    requires base.n > 0 && trial.n > 0
  {
    if trial.misses >= pol.rejectMisses then false
    else if trial.misses + 1 == pol.rejectMisses && trial.misses > 0 && margin < PROBE_MARGIN_FRAC * landSigma
        then false
    else if ErrRms(m, base) > 0.0001 && ErrRms(m, trial) > 1.30 * ErrRms(m, base) then false
    else
      var gain := Mean(base) - Mean(trial);
      var se := m.sqrt(Variance(base) / base.n as real + Variance(trial) / trial.n as real);
      gain > Max(pol.minGain, 1.0 * se)
  }

  /** Clearly faster than the profile as found, and missing at most ten points more often. */
  predicate EarnedItsKeep(now: Arm, start: Baseline) {
    && start.mean - Mean(now) > 0.40
    && now.misses * 100 / (if now.n > 0 then now.n else 1) <= start.misses * 100 / ARM_N + 10
  }

  function EnterMonitor(t: Tuner, p: Params): Outcome {
    var restore := && t.start.known && Differ(t.good, t.anchor) && t.base.n >= ARM_N / 2
                   && !EarnedItsKeep(t.base, t.start);
    var u := t.(mode := Converged, base := EMPTY_ARM,
                ledger := t.ledger.(baseRuns := [], judged := Judgement(t.good, t.base, t.ledger.baseRuns, p)));
    if restore then Outcome(u.(good := t.anchor), t.anchor) else Outcome(u, p)
  }

  function ReopenSearch(t: Tuner): Tuner {
    t.(search := t.search.(done := [false, false, false, false], step := REOPEN_STEPS, tally := Tally(8, 0, 0, 0, 0)),
       mode := Measuring, wait := 0, base := EMPTY_ARM, trial := EMPTY_ARM,
       ledger := t.ledger.(baseRuns := [], trialRuns := []))
  }

  /** The accepted knob's step grows, up to a limit. */
  function Grow(s: Search): Search
    requires Shaped(s)
  {
    s.(step := s.step[s.knob := Min(s.step[s.knob] * 1.3, STEP_MAX)],
       tally := s.tally.(accepted := s.tally.accepted + 1))
  }

  /** The rejected knob turns back, and the next one has its turn. */
  function PassOn(s: Search): Search
    requires Shaped(s)
  {
    TurnBack(s, s.knob).(knob := (s.knob + 1) % KNOBS, tally := s.tally.(rejected := s.tally.rejected + 1))
  }

  /** The trial's throws become the next baseline: they ran on the parameters now in force. */
  function AcceptProbe(t: Tuner, p: Params): Tuner
    requires Shaped(t.search)
  {
    t.(good := p, search := Grow(t.search), base := t.trial, trial := EMPTY_ARM, mode := Measuring,
       counters := t.counters.(accepted := (t.counters.accepted + 1) % 0x1_0000,
           lastGain := Mean(t.base) - Mean(t.trial)),
       ledger := t.ledger.(baseRuns := t.ledger.trialRuns, trialRuns := []))
  }

  function RejectProbe(t: Tuner): Tuner
    requires Shaped(t.search)
  {
    t.(search := PassOn(t.search), trial := EMPTY_ARM, mode := Measuring, ledger := t.ledger.(trialRuns := []))
  }

  function FinishProbe(m: Libm, t: Tuner, env: Env, p: Params): Outcome
    requires Shaped(t.search) && t.base.n > 0 && t.trial.n > 0
  {
    if KeepProbe(m, t.base, t.trial, MarginSigma(m, t.window.errs, env.bracket), env.landSigma, PolicyFor(env)) then
      var s := StartProbe(m, AcceptProbe(t, p), env, p);
      if s.started then Outcome(s.t, s.p)
      else if AllDone(s.t.search.done) then EnterMonitor(s.t, s.t.good)
      else Outcome(s.t, s.t.good)
    else
      var u := RejectProbe(t);
      if AllDone(u.search.done) then EnterMonitor(u, u.good) else Outcome(u, u.good)
  }

  // ----- steady corrections

  function BackOff(p: Params, env: Env, coarseRanLong: bool): Params {
    if coarseRanLong then
      var q := ApplyKnob(p, COARSE_MAX, 0.92);
      q.(coarseMin := Max(env.coarseMotorMin, q.coarseMin * 0.85), handoff := q.handoff * 1.15)
    else
      p.(fineMin := p.fineMin * 0.85, fineKp := p.fineKp * 0.92)
  }

  function NudgeForOver(t: Tuner, env: Env, coarseRanLong: bool, p: Params): Outcome {
    var q := ClampParams(t.anchor, env, BackOff(p, env, coarseRanLong));
    Outcome(t.(good := q, base := EMPTY_ARM, window := t.window.(missLog := []),
               ledger := t.ledger.(baseRuns := [], nudges := t.ledger.nudges + 1, nudged := true)), q)
  }

  function LandingRatio(env: Env, w: Stats): real
    requires w.sd > 0.0001 && env.landSigma > 0.0
  {
    var reach := Max(0.0, env.bracket - Min(Abs(w.mean), 0.25 * env.bracket));
    (reach / w.sd) / env.landSigma
  }

  /** Leave the landing speed alone, with the pace counter at `tick`, or scale it. */
  datatype Landing = Keep(tick: nat) | Scale(factor: real)

  function LandingDecision(m: Libm, window: Window, env: Env): Landing {
    if |window.errs| < ERR_MIN_N || env.landSigma <= 0.0 then Keep(window.landTick)
    else
      var w := WindowStats(m, window.errs, env.bracket);
      if w.sd <= 0.0001 then Keep(window.landTick)
      else
        var ratio := LandingRatio(env, w);
        var tick := window.landTick + 1;
        if tick < (if ratio < 0.70 then LAND_EVERY_URGENT else LAND_EVERY) then Keep(tick)
        else if 1.0 / LAND_DEADBAND <= ratio <= LAND_DEADBAND then Keep(0)
        else Scale(Clampf(m.pow06(ratio), 1.0 / LAND_STEP, LAND_STEP))
  }

  /** A move that changes the throw time too, so that older throws no longer compare. */
  predicate BigMove(before: real, after: real) {
    before > 0.0 && Abs(after / before - 1.0) > 0.05
  }

  function ScaleLanding(p: Params, r: real): Params {
    p.(fineMin := p.fineMin * r)
  }

  function MoveLanding(t: Tuner, env: Env, r: real, p: Params): Outcome {
    var q := ClampParams(t.anchor, env, ScaleLanding(p, r));
    var u := t.(good := t.good.(fineMin := q.fineMin));
    if BigMove(p.fineMin, q.fineMin)
    then Outcome(u.(base := EMPTY_ARM, ledger := u.ledger.(baseRuns := [])), q)
    else Outcome(u, q)
  }

  function LandingLaw(m: Libm, t: Tuner, env: Env, p: Params): Outcome {
    match LandingDecision(m, t.window, env)
    case Keep(tick) => Outcome(t.(window := t.window.(landTick := tick)), p)
    case Scale(factor) => MoveLanding(t.(window := t.window.(landTick := 0)), env, factor, p)
  }

  // ----- one throw

  /** An edit made while a candidate was live: keep the edited fields, take the others from `good`. */
  function KeepEditedFields(p: Params, seen: Params, good: Params): Params {
    Params(if Abs(p.fineMax - seen.fineMax) <= 0.0001 then good.fineMax else p.fineMax,
           if Abs(p.fineMin - seen.fineMin) <= 0.0001 then good.fineMin else p.fineMin,
           if Abs(p.fineKp - seen.fineKp) <= 0.0001 then good.fineKp else p.fineKp,
           if Abs(p.coarseMax - seen.coarseMax) <= 0.0001 then good.coarseMax else p.coarseMax,
           if Abs(p.coarseMin - seen.coarseMin) <= 0.0001 then good.coarseMin else p.coarseMin,
           if Abs(p.coarseKp - seen.coarseKp) <= 0.0001 then good.coarseKp else p.coarseKp,
           if Abs(p.handoff - seen.handoff) <= 0.0001 then good.handoff else p.handoff)
  }

  /** Notice an edit made outside the tuner, and start over from the edited profile. */
  function NoticeEdit(t: Tuner, p: Params): Outcome {
    var q := if t.init && t.mode == Probing && Differ(p, t.seen) then KeepEditedFields(p, t.seen, t.good) else p;
    if !t.init || Differ(q, t.seen) then Outcome(AnchorTo(q, t.ledger), q) else Outcome(t, q)
  }

  /** Landing error window, aim trim and miss log: every throw counts. */
  function LogThrow(m: Libm, t: Tuner, env: Env, result: Verdict, err: real): Tuner {
    var errs := Last(t.window.errs + [err], ERR_WINDOW);
    var limit := TRIM_LIMIT * env.bracket;
    var trim := if |errs| >= ERR_MIN_N
                then Clampf(t.window.trim - TRIM_GAIN * WindowStats(m, errs, env.bracket).mean, -limit, limit)
                else t.window.trim;
    t.(counters := t.counters.(throws := (t.counters.throws + 1) % 0x1_0000),
       window := t.window.(errs := errs, trim := trim, missLog := t.window.missLog + [result != Pass]),
       ledger := t.ledger.(misses := t.ledger.misses + if result != Pass then 1 else 0))
  }

  predicate Cluster(t: Tuner, result: Verdict) {
    result == Over && RecentMisses(t.window.missLog, 10) >= 3
  }

  function AddBase(t: Tuner, r: Run): Tuner {
    t.(base := AddThrow(t.base, r.total, r.err, r.miss), ledger := t.ledger.(baseRuns := t.ledger.baseRuns + [r]))
  }

  function AddTrial(t: Tuner, r: Run): Tuner {
    t.(trial := AddThrow(t.trial, r.total, r.err, r.miss),
       search := t.search.(tally := t.search.tally.(spent := t.search.tally.spent + 1)),
           ledger := t.ledger.(trialRuns := t.ledger.trialRuns + [r]))
  }

  function SteerLanding(m: Libm, t: Tuner, env: Env, result: Verdict, p: Params): Outcome {
    if result == Pass then LandingLaw(m, t, env, p) else Outcome(t, p)
  }

  /** The end of a MEASURING throw: probe once the baseline is full and no wait is running. */
  function ProbeIfReady(m: Libm, t: Tuner, env: Env, p: Params): Outcome
    requires Shaped(t.search)
  {
    var u := if t.wait > 0 then t.(wait := t.wait - 1) else t;
    if u.base.n >= ARM_N && u.wait == 0 then
      var s := StartProbe(m, u, env, p);
      if s.started then Outcome(s.t, s.p)
      else if AllDone(s.t.search.done) then EnterMonitor(s.t, s.p)
      else Outcome(s.t.(wait := 4), s.p)
    else Outcome(u, p)
  }

  function WhileMeasuring(m: Libm, t: Tuner, env: Env, obs: Obs, r: Run, p: Params): Outcome
    requires Shaped(t.search)
  {
    if Cluster(t, obs.result) then NudgeForOver(t, env, obs.coarseRanLong, p)
    else
      var o := SteerLanding(m, AddBase(t, r), env, obs.result, p);
      ProbeIfReady(m, o.t, env, o.p)
  }

  function WhileProbing(m: Libm, t: Tuner, env: Env, obs: Obs, r: Run, p: Params): Outcome
    requires Shaped(t.search) && t.base.n > 0
  {
    var pol := PolicyFor(env);
    var a := AddTrial(t, r);
    var u := if obs.result == Over && r.err > 2.0 * env.bracket then a.(trial := a.trial.(misses := pol.rejectMisses))
        else a;
    if u.trial.n >= ARM_N || u.trial.misses >= pol.rejectMisses then FinishProbe(m, u, env, p) else Outcome(u, p)
  }

  function DriftCheck(t: Tuner, env: Env, p: Params): Outcome {
    if t.base.n < MONITOR_N then Outcome(t, p)
    else
      var mean := Mean(t.base);
      if t.base.misses >= 3 then
        var q := ClampParams(t.anchor, env, p.(handoff := p.handoff * 1.15, fineMin := p.fineMin * 0.90));
        Outcome(ReopenSearch(t.(good := q)), q)
      else if t.monitorRef <= 0.0 then
        Outcome(t.(monitorRef := mean, base := EMPTY_ARM, ledger := t.ledger.(baseRuns := [])), p)
      else if mean > 1.15 * t.monitorRef + 0.3 then Outcome(ReopenSearch(t.(monitorRef := 0.0)), p)
      else Outcome(t.(base := EMPTY_ARM, ledger := t.ledger.(baseRuns := [])), p)
  }

  function WhileConverged(m: Libm, t: Tuner, env: Env, obs: Obs, r: Run, p: Params): Outcome {
    var o := if Cluster(t, obs.result) then NudgeForOver(t, env, obs.coarseRanLong, p) else Outcome(t, p);
    var q := SteerLanding(m, AddBase(o.t, r), env, obs.result, o.p);
    DriftCheck(q.t, env, q.p)
  }

  function Dispatch(m: Libm, t: Tuner, env: Env, obs: Obs, r: Run, p: Params): Outcome
    requires Shaped(t.search) && (t.mode == Probing ==> t.base.n > 0)
  {
    match t.mode
    case Measuring => WhileMeasuring(m, t, env, obs, r, p)
    case Probing => WhileProbing(m, t, env, obs, r, p)
    case Converged => WhileConverged(m, t, env, obs, r, p)
  }

  /** Everything the tuner writes goes through the clamp. */
  function Settle(o: Outcome, env: Env): Outcome {
    var q := ClampParams(o.t.anchor, env, o.p);
    Outcome(o.t.(good := if o.t.mode == Probing then o.t.good else q, seen := q), q)
  }

  predicate Usable(env: Env, obs: Obs) {
    obs.total.Number? && obs.error.Number? && env.bracket > 0.0
  }

  /** What the machine can be in between throws. */
  predicate Wf(t: Tuner) {
    && Shaped(t.search)
    && |t.window.errs| <= ERR_WINDOW
    && t.base.misses <= t.base.n <= 4 * ARM_N && t.trial.misses <= t.trial.n
    && (t.mode == Probing ==> t.start.known && t.base.n >= ARM_N && !t.search.done[t.search.knob] && t.trial.n < ARM_N)
    && (t.mode != Probing ==> t.trial == EMPTY_ARM)
    && (t.mode == Converged ==> t.start.known)
  }

  /** tuner_observe: t is the tuner's memory, p the live profile the throw ran on. */
  function Observe(m: Libm, t: Tuner, env: Env, obs: Obs, p: Params): Outcome
    requires Wf(t)
  {
    if !Usable(env, obs) then Outcome(t, p)
    else
      var o := NoticeEdit(t, p);
      var r := Run(p, obs.total.v, obs.error.v, obs.result != Pass);
      Settle(Dispatch(m, LogThrow(m, o.t, env, obs.result, r.err), env, obs, r, o.p), env)
  }
}
