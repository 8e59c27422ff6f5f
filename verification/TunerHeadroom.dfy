/** Riskier steps are only tried while the landing spread leaves room. */
module TunerHeadroom {
  import opened Numeric
  import opened TunerModel
  import opened TunerRuns
  import opened TunerLimits
  import opened TunerIsolation
  import opened TunerEdits
  import opened TunerNeverWorse
  import opened TunerSteering
  import opened TunerWindow
  import opened TunerBudget
  import opened TunerVerdict

  /** Less for the slow tube to do, a harder push into the target, a faster bulk or a steeper bulk taper. */
  predicate Bolder(c: Params, g: Params) {
    c.handoff < g.handoff || c.fineKp > g.fineKp || c.coarseMax > g.coarseMax || c.coarseKp > g.coarseKp
  }

  predicate NonNegative(g: Params) {
    g.handoff >= 0.0 && g.fineKp >= 0.0 && g.coarseMax >= 0.0 && g.coarseKp >= 0.0
  }

  lemma {:induction false} PickIsAllowed(s: Search, anchor: Params, good: Params, env: Env, marginOk: bool, tries: nat)
    requires WithinBudget(s) && tries <= KNOBS
    ensures var r := PickKnob(s, anchor, good, env, marginOk, tries);
            && WithinBudget(r.s)
            && (r.found ==> !r.s.done[r.s.knob] && (marginOk || !IsRisky(r.s.knob, r.s.dir[r.s.knob])))
    decreases KNOBS - tries
  {
    hide PickKnob, Candidate, Differ, IsRisky, Pin, WithinBudget;
    assert Shaped(s) by { BudgetIsShaped(s); }
    PickUnfolds(s, anchor, good, env, marginOk, tries);
    PickKnobInBudget(s, anchor, good, env, marginOk, tries);
    if tries < KNOBS {
      var k := (s.knob + tries) % KNOBS;
      if s.done[k] || (IsRisky(k, s.dir[k]) && !marginOk) {
        PickIsAllowed(s, anchor, good, env, marginOk, tries + 1);
      } else if !Differ(Candidate(s, anchor, good, env, k), good) {
        PinInBudget(s, k);
        PickIsAllowed(Pin(s, k), anchor, good, env, marginOk, tries + 1);
      }
    }
  }

  lemma BudgetIsShaped(s: Search)
    requires WithinBudget(s)
    ensures Shaped(s)
  {
  }

  lemma Shrinks(x: real, factor: real, y: real)
    requires x >= 0.0 && factor > 0.0 && y == x * factor
    ensures (factor <= 1.0 ==> 0.0 <= y <= x) && (factor >= 1.0 ==> x <= y) && (x > 0.0 ==> y > 0.0)
  {
    ProductNonNegative(x, factor);
    if factor <= 1.0 {
      ProductNonNegative(x, 1.0 - factor);
    } else {
      ProductNonNegative(x, factor - 1.0);
    }
    if x > 0.0 {
      ProductPositive(x, factor);
    }
  }

  lemma ProductPositive(a: real, b: real)
    requires a > 0.0 && b > 0.0
    ensures a * b > 0.0
  {
  }

  lemma UpToOne(y: real, c: real)
    requires 0.0 <= y <= c && 0.0 < c
    ensures 0.0 <= y / c <= 1.0
  {
  }

  lemma Shrunk(kp: real, part: real, z: real)
    requires kp >= 0.0 && 0.0 <= part <= 1.0 && z == kp * part
    ensures 0.0 <= z <= kp
  {
    if part > 0.0 {
      Shrinks(kp, part, z);
    }
  }

  lemma PartOf(kp: real, y: real, c: real, z: real)
    requires kp >= 0.0 && 0.0 <= y <= c && 0.0 < c && z == kp * (y / c)
    ensures 0.0 <= z <= kp
  {
    var part := y / c;
    UpToOne(y, c);
    Shrunk(kp, part, z);
  }

  lemma PartOfPart(full: real, c: real, x: real, kp: real, y: real, z: real)
    requires 0.0 < x && 0.0 < c && kp == full * (x / c) && z == kp * (y / x)
    ensures z == full * (y / c)
  {
    var u, v := x / c, y / x;
    assert u * c == x && v * x == y;
    assert u * v * c == y;
    assert u * v == y / c;
    assert full * u * v == full * (u * v);
  }

  lemma NegativePart(kp: real, y: real, x: real, z: real)
    requires kp >= 0.0 && y < 0.0 && x > 0.0 && z == kp * (y / x)
    ensures z <= 0.0
  {
    assert y / x < 0.0;
  }

  /** Kp scaled down with a speed that goes from c to x, and scaled again with the clamp's x to y. */
  lemma ScaledTwice(full: real, c: real, x: real, y: real, kp: real, z: real)
    requires full >= 0.0 && 0.0 < x <= c && y <= c && kp == full * (x / c) && z == kp * (y / x)
    ensures kp <= full && z <= full
  {
    PartOf(full, x, c, kp);
    if y >= 0.0 {
      PartOfPart(full, c, x, kp, y, z);
      PartOf(full, y, c, z);
    } else {
      NegativePart(kp, y, x, z);
    }
  }

  /** A coarse speed stepped down stays down, and so does its Kp, wherever the clamp puts them. */
  lemma CoarseShrinks(anchor: Params, env: Env, good: Params, factor: real)
    requires InRange(anchor, env, good) && NonNegative(good) && good.coarseMax > 0.0 && 0.0 < factor <= 1.0
    ensures var q := ClampParams(anchor, env, ApplyKnob(good, COARSE_MAX, factor));
            q.coarseMax <= good.coarseMax && q.coarseKp <= good.coarseKp
  {
    hide InRange, ClampParams, ApplyKnob, KpAlong;
    var p := ApplyKnob(good, COARSE_MAX, factor);
    SpeedSteps(good, factor);
    CoarseIsNearest(anchor, env, p, good);
    KpStaysBelow(anchor, good, factor, ClampParams(anchor, env, p).coarseMax);
  }

  lemma SpeedSteps(good: Params, factor: real)
    requires good.coarseMax > 0.0 && 0.0 < factor <= 1.0
    ensures 0.0 < ApplyKnob(good, COARSE_MAX, factor).coarseMax <= good.coarseMax
  {
    hide ApplyKnob;
    var x := good.coarseMax * factor;
    Shrinks(good.coarseMax, factor, x);
    NextSpeed(good, factor, x);
  }

  lemma NextSpeed(good: Params, factor: real, x: real)
    requires x == good.coarseMax * factor
    ensures ApplyKnob(good, COARSE_MAX, factor).coarseMax == x
  {
  }

  lemma KpStaysBelow(anchor: Params, good: Params, factor: real, y: real)
    requires good.coarseKp >= 0.0 && good.coarseMax > 0.0 && 0.0 < factor <= 1.0 && y <= good.coarseMax
    ensures KpAlong(anchor, ApplyKnob(good, COARSE_MAX, factor), y) <= good.coarseKp
  {
    hide ApplyKnob, KpAlong;
    SpeedSteps(good, factor);
    var x := ApplyKnob(good, COARSE_MAX, factor).coarseMax;
    var kp := good.coarseKp * (x / good.coarseMax);
    var z := kp * (y / x);
    Stepped(good, factor, x, kp);
    ScaledTwice(good.coarseKp, good.coarseMax, x, y, kp, z);
    AlongIs(anchor, good, x, kp, y, z);
  }

  lemma AlongIs(anchor: Params, good: Params, x: real, kp: real, y: real, z: real)
    requires 0.0 < x && z == kp * (y / x)
    ensures var k := KpAlong(anchor, good.(coarseMax := x, coarseKp := kp), y); k == kp || k == z
  {
  }

  lemma Stepped(good: Params, factor: real, x: real, kp: real)
    requires good.coarseMax > 0.0 && kp == good.coarseKp * (x / good.coarseMax)
    requires x == ApplyKnob(good, COARSE_MAX, factor).coarseMax
    ensures ApplyKnob(good, COARSE_MAX, factor) == good.(coarseMax := x, coarseKp := kp)
  {
  }

  /** A step that is not risky makes nothing bolder, the clamp included. */
  lemma TimidStep(anchor: Params, env: Env, good: Params, k: nat, factor: real)
    requires k < KNOBS && Fixed(anchor, env, good) && NonNegative(good)
    requires if k == HANDOFF then factor >= 1.0 else 0.0 < factor <= 1.0
    ensures !Bolder(ClampParams(anchor, env, ApplyKnob(good, k, factor)), good)
  {
    hide Fixed, ClampParams, InRange, ApplyKnob, Bolder, NonNegative;
    FixedIffInRange(anchor, env, good);
    ClampOneKnob(anchor, env, good, k, factor);
    var q := ClampParams(anchor, env, ApplyKnob(good, k, factor));
    if k == HANDOFF {
      HandoffStep(anchor, env, good, factor);
      OnlyHandoff(q, good);
    } else if k == FINE_KP {
      KpStep(anchor, env, good, factor);
      OnlyKp(q, good);
    } else if k == COARSE_TAPER {
      TaperStep(anchor, env, good, factor);
      OnlyTaper(q, good);
    } else {
      SpeedStep(anchor, env, good, factor);
      OnlySpeed(q, good);
    }
  }

  lemma OnlyHandoff(q: Params, good: Params)
    requires OnlyKnobMoved(HANDOFF, q, good) && q.handoff >= good.handoff
    ensures !Bolder(q, good)
  {
  }

  lemma OnlyKp(q: Params, good: Params)
    requires OnlyKnobMoved(FINE_KP, q, good) && q.fineKp <= good.fineKp
    ensures !Bolder(q, good)
  {
  }

  lemma OnlyTaper(q: Params, good: Params)
    requires OnlyKnobMoved(COARSE_TAPER, q, good) && q.coarseKp <= good.coarseKp
    ensures !Bolder(q, good)
  {
  }

  lemma OnlySpeed(q: Params, good: Params)
    requires OnlyKnobMoved(COARSE_MAX, q, good) && q.coarseMax <= good.coarseMax && q.coarseKp <= good.coarseKp
    ensures !Bolder(q, good)
  {
  }

  lemma Applied(good: Params, k: nat, factor: real, x: real)
    requires k == HANDOFF || k == FINE_KP || k == COARSE_TAPER
    requires x == (if k == HANDOFF then good.handoff else if k == FINE_KP then good.fineKp else good.coarseKp) * factor
    ensures ApplyKnob(good, k, factor) == if k == HANDOFF then good.(handoff := x)
                                          else if k == FINE_KP then good.(fineKp := x) else good.(coarseKp := x)
  {
  }

  lemma HandoffStep(anchor: Params, env: Env, good: Params, factor: real)
    requires InRange(anchor, env, good) && NonNegative(good) && factor >= 1.0
    ensures ClampParams(anchor, env, ApplyKnob(good, HANDOFF, factor)).handoff >= good.handoff
  {
    hide ClampParams, InRange, ApplyKnob;
    var x := good.handoff * factor;
    Shrinks(good.handoff, factor, x);
    HandoffGrows(anchor, env, good, x);
    Applied(good, HANDOFF, factor, x);
  }

  lemma KpStep(anchor: Params, env: Env, good: Params, factor: real)
    requires InRange(anchor, env, good) && NonNegative(good) && 0.0 < factor <= 1.0
    ensures ClampParams(anchor, env, ApplyKnob(good, FINE_KP, factor)).fineKp <= good.fineKp
  {
    hide ClampParams, InRange, ApplyKnob;
    var x := good.fineKp * factor;
    Shrinks(good.fineKp, factor, x);
    KpShrinks(anchor, env, good, x);
    Applied(good, FINE_KP, factor, x);
  }

  lemma TaperStep(anchor: Params, env: Env, good: Params, factor: real)
    requires InRange(anchor, env, good) && NonNegative(good) && 0.0 < factor <= 1.0
    ensures ClampParams(anchor, env, ApplyKnob(good, COARSE_TAPER, factor)).coarseKp <= good.coarseKp
  {
    hide ClampParams, InRange, ApplyKnob;
    var x := good.coarseKp * factor;
    Shrinks(good.coarseKp, factor, x);
    TaperShrinks(anchor, env, good, x);
    Applied(good, COARSE_TAPER, factor, x);
  }

  lemma SpeedStep(anchor: Params, env: Env, good: Params, factor: real)
    requires InRange(anchor, env, good) && NonNegative(good) && 0.0 < factor <= 1.0
    ensures var q := ClampParams(anchor, env, ApplyKnob(good, COARSE_MAX, factor));
            q.coarseMax <= good.coarseMax && q.coarseKp <= good.coarseKp
  {
    FixedIffInRange(anchor, env, good);
    assert ClampParams(anchor, env, good) == good;
    hide ClampParams, InRange;
    if good.coarseMax > 0.0 {
      CoarseShrinks(anchor, env, good, factor);
    } else {
      assert good.coarseMax * factor == 0.0;
      assert ApplyKnob(good, COARSE_MAX, factor) == good;
    }
  }

  lemma HandoffGrows(anchor: Params, env: Env, good: Params, x: real)
    requires InRange(anchor, env, good) && x >= good.handoff
    ensures ClampParams(anchor, env, good.(handoff := x)).handoff >= good.handoff
  {
  }

  lemma KpShrinks(anchor: Params, env: Env, good: Params, x: real)
    requires InRange(anchor, env, good) && x <= good.fineKp
    ensures ClampParams(anchor, env, good.(fineKp := x)).fineKp <= good.fineKp
  {
  }

  lemma TaperShrinks(anchor: Params, env: Env, good: Params, x: real)
    requires InRange(anchor, env, good) && x <= good.coarseKp
    ensures ClampParams(anchor, env, good.(coarseKp := x)).coarseKp <= good.coarseKp
  {
  }

  /** Without the headroom asked for, a probe's candidate is no bolder than the accepted profile. */
  lemma TimidCandidate(s: Search, anchor: Params, good: Params, env: Env, k: nat)
    requires WithinBudget(s) && k < KNOBS && !s.done[k] && !IsRisky(k, s.dir[k])
    requires Fixed(anchor, env, good) && NonNegative(good)
    ensures !Bolder(Candidate(s, anchor, good, env, k), good)
  {
    hide ClampParams, Bolder, ApplyKnob, Fixed, NonNegative;
    var step := s.step[k];
    assert STEP_MIN <= step <= STEP_MAX && (s.dir[k] == 1 || s.dir[k] == -1);
    TimidFactor(s.dir[k], step, env);
    TimidStep(anchor, env, good, k, ProbeFactor(s.dir[k], step, env));
  }

  lemma TimidFactor(dir: int, step: real, env: Env)
    requires STEP_MIN <= step <= STEP_MAX && (dir == 1 || dir == -1)
    ensures dir == 1 ==> ProbeFactor(dir, step, env) >= 1.0
    ensures dir == -1 ==> 0.0 < ProbeFactor(dir, step, env) <= 1.0
  {
  }

  // ----- over runs

  lemma StartIsTimid(m: Libm, t: Tuner, env: Env, p: Params)
    requires WithinBudget(t.search) && Fixed(t.anchor, env, t.good) && NonNegative(t.good)
    ensures var s := StartProbe(m, t, env, p);
            s.started ==> s.t.good == t.good && (MarginOk(m, t.window.errs, env) || !Bolder(s.p, t.good))
  {
    hide PickKnob, MarginOk, Candidate, Bolder, NonNegative, Fixed, WithinBudget;
    BudgetIsShaped(t.search);
    var (u, settled) := RecordStart(t, env);
    if !settled {
      assert u.search == t.search && u.window == t.window && u.anchor == t.anchor && u.good == t.good;
      var ok := MarginOk(m, u.window.errs, env);
      PickIsAllowed(u.search, u.anchor, u.good, env, ok, 0);
      var pick := PickKnob(u.search, u.anchor, u.good, env, ok, 0);
      if pick.found && !ok {
        BudgetIsShaped(pick.s);
        TimidCandidate(pick.s, u.anchor, u.good, env, pick.s.knob);
      }
    }
  }

  /** Room for a bolder step, or none taken. */
  predicate RoomIfBold(m: Libm, t: Tuner, env: Env, p: Params) {
    NonNegative(t.good) && Bolder(p, t.good) ==> MarginOk(m, t.window.errs, env)
  }

  lemma MeasuringIsTimid(m: Libm, t: Tuner, env: Env, obs: Obs, r: Run)
    requires Shaped(t.search) && t.mode == Measuring && Fixed(t.anchor, env, t.good) && WithinBudget(t.search)
    ensures var d := WhileMeasuring(m, t, env, obs, r, t.good); d.t.mode == Probing ==> RoomIfBold(m, d.t, env, d.p)
  {
    hide Fixed, LandingLaw, StartProbe, EnterMonitor, Cluster, AddBase, ClampParams, BackOff, Bolder, NonNegative,
         MarginOk, WithinBudget;
    if !Cluster(t, obs.result) {
      var a := AddBase(t, r);
      AddedFrame(t, r);
      LandingKeepsFixed(m, a, env);
      LandingLawKeepsSearch(m, a, env, t.good);
      LandingLawKeepsMode(m, a, env, t.good);
      var o := SteerLanding(m, a, env, obs.result, t.good);
      var u := if o.t.wait > 0 then o.t.(wait := o.t.wait - 1) else o.t;
      if u.base.n >= ARM_N && u.wait == 0 {
        StartIfRoom(m, u, env, o.p);
        StartProbeFrame(m, u, env, o.p);
        var s := StartProbe(m, u, env, o.p);
        EnterMonitorTally(s.t, s.p);
      }
    }
  }

  lemma AddedFrame(t: Tuner, r: Run)
    ensures var a := AddBase(t, r);
            a.mode == t.mode && a.good == t.good && a.anchor == t.anchor && a.search == t.search && a.window == t.window
  {
  }

  lemma StartIfRoom(m: Libm, t: Tuner, env: Env, p: Params)
    requires WithinBudget(t.search) && Shaped(t.search) && Fixed(t.anchor, env, t.good)
    ensures var s := StartProbe(m, t, env, p); s.started ==> RoomIfBold(m, s.t, env, s.p)
  {
    hide StartProbe, MarginOk, Bolder, NonNegative, Fixed, WithinBudget;
    StartProbeFrame(m, t, env, p);
    if NonNegative(t.good) {
      StartIsTimid(m, t, env, p);
    }
  }

  lemma ProbingIsTimid(m: Libm, t: Tuner, env: Env, obs: Obs, r: Run, p: Params)
    requires Wf(t) && t.mode == Probing && Fixed(t.anchor, env, p) && WithinBudget(t.search)
    ensures var d := WhileProbing(m, t, env, obs, r, p);
            d.t.mode == Probing && d.t.search.tally.accepted > t.search.tally.accepted ==> RoomIfBold(m, d.t, env, d.p)
  {
    hide FinishProbe, AddThrow, PolicyFor, Fixed, RoomIfBold, WithinBudget;
    AddTrialCounts(t, r);
    var a := AddTrial(t, r);
    SpendingKeepsBudget(t.search, a.search);
    FinishIsTimid(m, a, env, p);
    FinishIsTimid(m, a.(trial := a.trial.(misses := PolicyFor(env).rejectMisses)), env, p);
  }

  lemma FinishIsTimid(m: Libm, t: Tuner, env: Env, p: Params)
    requires Shaped(t.search) && t.base.n > 0 && t.trial.n > 0 && Fixed(t.anchor, env, p) && WithinBudget(t.search)
    requires !t.search.done[t.search.knob]
    ensures var d := FinishProbe(m, t, env, p); d.t.mode == Probing ==> RoomIfBold(m, d.t, env, d.p)
  {
    hide StartProbe, EnterMonitor, MarginSigma, KeepProbe, Mean, Grow, PassOn, PolicyFor, Fixed, RoomIfBold,
         WithinBudget;
    ShapedAfter(t.search);
    GrowInBudget(t.search);
    var a := AcceptProbe(t, p);
    StartIfRoom(m, a, env, p);
    StartProbeFrame(m, a, env, p);
    var s := StartProbe(m, a, env, p);
    EnterMonitorTally(s.t, s.t.good);
    EnterMonitorTally(RejectProbe(t), t.good);
  }

  /** With this throw a probe has begun. */
  predicate Begins(t: Tuner, u: Tuner) {
    u.mode == Probing && (t.mode != Probing || u.search.tally.accepted > t.search.tally.accepted)
  }

  /**
   In every calm run, whenever a probe begins: if its candidate narrows the handoff, or raises the fine Kp, the
   coarse speed or the coarse Kp, then at least 1.25 times the spreads asked for, 0.90 in the aggressive style,
   fit between the mean landing error and the bracket's edge.
   */
  lemma BoldProbesHaveRoom(m: Libm, env: Env, es: seq<Throw>, e: Throw)
    requires CalmRun(m, env, es + [e]) && Begins(Play(m, FRESH, es), Step(m, Play(m, FRESH, es), e).t)
    ensures var u := Step(m, Play(m, FRESH, es), e).t;
            NonNegative(u.good) && Bolder(u.seen, u.good) ==>
              Room(m, u.window.errs, env.bracket) >= (if env.aggressive then 0.90 else 1.25) * env.landSigma
  {
    hide ClampParams, Dispatch, LogThrow, Calm, InRange, Observe, Bolder, NonNegative, Room, Bounded,
         WithinBudget, Fixed;
    assert (es + [e])[..|es|] == es;
    CalmPrefix(m, env, es + [e], |es|);
    CalmAlways(m, env, es);
    SearchIsBounded(m, es);
    var t := Play(m, FRESH, es);
    ObserveCalm(m, t, e.env, e.obs, e.live);
    if Usable(e.env, e.obs) {
      BegunThrow(m, t, e);
      MarginIsRoom(m, Step(m, t, e).t.window.errs, env.bracket);
    } else {
      NotUsable(m, t, e);
    }
  }

  lemma BegunThrow(m: Libm, t: Tuner, e: Throw)
    requires Wf(t) && Usable(e.env, e.obs) && CalmState(t, e.env) && JudgedPure(t.ledger.judged) && Bounded(t)
    requires if t.init then e.live == t.seen else InRange(e.live, e.env, e.live)
    requires Begins(t, Step(m, t, e).t)
    ensures var u := Step(m, t, e).t; RoomIfBold(m, u, e.env, u.seen)
  {
    hide ClampParams, LogThrow, Calm, InRange, RoomIfBold, WithinBudget, Fixed, WhileMeasuring, WhileProbing,
         WhileConverged, Settle, Differ;
    var r := Run(e.live, e.obs.total.v, e.obs.error.v, e.obs.result != Pass);
    ObserveCalm(m, t, e.env, e.obs, e.live);
    var o := NoticeEdit(t, e.live);
    if !t.init {
      EditsEndNothing(m, t, e);
    } else {
      NoDifference(t.seen);
      LogThrowKeepsWf(m, t, e.env, e.obs.result, r.err);
      LoggedAlike(m, t, e.env, e.obs.result, r.err);
      var a := LogThrow(m, t, e.env, e.obs.result, r.err);
      match t.mode {
        case Measuring =>
          CalmGood(t, e.env);
          MeasuringIsTimid(m, a, e.env, e.obs, r);
          SameRoom(m, WhileMeasuring(m, a, e.env, e.obs, r, e.live), e.env);
        case Probing =>
          CandidateFixed(t, e.env, t.seen);
          ProbingIsTimid(m, a, e.env, e.obs, r, e.live);
          SameRoom(m, WhileProbing(m, a, e.env, e.obs, r, e.live), e.env);
        case Converged =>
          ConvergedNeverProbes(m, a, e.env, e.obs, r, e.live);
      }
    }
  }

  lemma CalmGood(t: Tuner, env: Env)
    requires Calm(t, env, t.seen) && t.mode != Probing
    ensures t.seen == t.good && Fixed(t.anchor, env, t.good)
  {
    hide Fixed;
  }

  lemma SameRoom(m: Libm, d: Outcome, env: Env)
    ensures RoomIfBold(m, d.t.(seen := d.p), env, d.p) == RoomIfBold(m, d.t, env, d.p)
  {
    hide MarginOk;
  }

  // ----- how far a probe steps, and when it may

  /** A knob turned by a factor; a coarse speed takes its Kp along, so that the taper stays as wide. */
  function Turned(g: Params, k: nat, factor: real): Params {
    if k == 0 then g.(handoff := g.handoff * factor)
    else if k == 1 then g.(fineKp := g.fineKp * factor)
    else if k == 3 then g.(coarseKp := g.coarseKp * factor)
    else if g.coarseMax > 0.0 then g.(coarseMax := g.coarseMax * factor, coarseKp := g.coarseKp * factor)
    else g.(coarseMax := g.coarseMax * factor)
  }

  lemma SameRatio(x: real, factor: real, y: real)
    requires x > 0.0 && y == x * factor
    ensures y / x == factor
  {
  }

  /**
   A candidate is the accepted profile with one knob turned by its step, a quarter further in the aggressive
   style.
   */
  lemma CandidateIs(s: Search, anchor: Params, good: Params, env: Env, k: nat, factor: real)
    requires Shaped(s) && k < KNOBS
    requires factor == 1.0 + s.dir[k] as real * s.step[k] * (if env.aggressive then 1.25 else 1.0)
    ensures Candidate(s, anchor, good, env, k) == ClampParams(anchor, env, Turned(good, k, factor))
  {
    hide ClampParams, ApplyKnob, Turned, ProbeFactor;
    FactorIs(s.dir[k], s.step[k], env, factor);
    TurnedIs(good, k, factor);
  }

  lemma FactorIs(dir: int, step: real, env: Env, factor: real)
    requires factor == 1.0 + dir as real * step * (if env.aggressive then 1.25 else 1.0)
    ensures ProbeFactor(dir, step, env) == factor
  {
  }

  lemma TurnedIs(good: Params, k: nat, factor: real)
    requires k < KNOBS
    ensures ApplyKnob(good, k, factor) == Turned(good, k, factor)
  {
    if k == COARSE_MAX && good.coarseMax > 0.0 {
      SameRatio(good.coarseMax, factor, good.coarseMax * factor);
    }
  }

  /** While measuring: a baseline that is full is looked at once no wait is running, and four throws later again. */
  lemma LooksAgainAfterFour(m: Libm, t: Tuner, env: Env, obs: Obs, r: Run, p: Params)
    requires Shaped(t.search) && t.mode == Measuring && !Cluster(t, obs.result)
    ensures var d := WhileMeasuring(m, t, env, obs, r, p).t;
            var waited := if t.wait > 0 then t.wait - 1 else 0;
            && (d.mode == Measuring ==> d.wait == if d.base.n >= 10 && waited == 0 then 4 else waited)
            && (d.mode != Measuring ==> waited == 0)
  {
    hide LandingLaw, StartProbe, EnterMonitor, Cluster, AddThrow;
    var a := AddBase(t, r);
    LandingLawTen(m, a, env, p);
    var o := SteerLanding(m, a, env, obs.result, p);
    var u := if o.t.wait > 0 then o.t.(wait := o.t.wait - 1) else o.t;
    StartProbeFrame(m, u, env, o.p);
    EnterMonitorTally(StartProbe(m, u, env, o.p).t, o.p);
  }

  // ----- which knob

  /** An open knob whose next step is allowed, a riskier one only with room, and moves something. */
  predicate CanStep(s: Search, anchor: Params, good: Params, env: Env, room: bool, k: nat)
    requires Shaped(s) && k < KNOBS
  {
    && !s.done[k] && (room || !(if k == 0 then s.dir[k] < 0 else s.dir[k] > 0))
    && Differ(Candidate(s, anchor, good, env, k), good)
  }

  function KnobAt(s: Search, i: nat): (k: nat)
    ensures k < KNOBS
  {
    (s.knob + i) % KNOBS
  }

  lemma StepsAlike(s: Search, r: Search, anchor: Params, good: Params, env: Env, room: bool, k: nat)
    requires Shaped(s) && Shaped(r) && k < KNOBS
    requires r.dir[k] == s.dir[k] && r.step[k] == s.step[k] && r.done[k] == s.done[k]
    ensures CanStep(s, anchor, good, env, room, k) == CanStep(r, anchor, good, env, room, k)
  {
    hide ClampParams, ApplyKnob, ProbeFactor, Differ;
  }

  lemma OthersStay(s: Search, i: nat, j: nat)
    requires Shaped(s) && i < j < KNOBS
    ensures var k, l, r := KnobAt(s, i), KnobAt(s, j), Pin(s, KnobAt(s, i));
            && Shaped(r) && k != l && r.knob == s.knob
            && r.dir[l] == s.dir[l] && r.step[l] == s.step[l] && r.done[l] == s.done[l]
  {
  }

  /** The i-th place of the walk is where it stops. */
  predicate StopsAt(s: Search, anchor: Params, good: Params, env: Env, room: bool, from: nat, i: nat)
    requires Shaped(s)
  {
    && from <= i < KNOBS && CanStep(s, anchor, good, env, room, KnobAt(s, i))
    && forall j :: from <= j < i ==> !CanStep(s, anchor, good, env, room, KnobAt(s, j))
  }

  /** The walk stops at the first knob, from the one whose turn it is, that can step; and at none if none can. */
  lemma {:induction false} PicksTheFirst(s: Search, anchor: Params, good: Params, env: Env, room: bool, from: nat)
    requires Shaped(s) && from <= KNOBS
    ensures var r := PickKnob(s, anchor, good, env, room, from);
            if r.found then exists i :: StopsAt(s, anchor, good, env, room, from, i) && r.s.knob == KnobAt(s, i)
            else forall i :: from <= i < KNOBS ==> !CanStep(s, anchor, good, env, room, KnobAt(s, i))
    decreases KNOBS - from
  {
    hide PickKnob, Candidate, Differ, Pin, CanStep, IsRisky;
    PickUnfolds(s, anchor, good, env, room, from);
    if from < KNOBS {
      var k := KnobAt(s, from);
      CanStepIs(s, anchor, good, env, room, k);
      if CanStep(s, anchor, good, env, room, k) {
        assert StopsAt(s, anchor, good, env, room, from, from);
      } else {
        var next := if s.done[k] || (IsRisky(k, s.dir[k]) && !room) then s else Pin(s, k);
        PinShaped(s, k);
        PicksTheFirst(next, anchor, good, env, room, from + 1);
        RestOfWalk(s, next, anchor, good, env, room, from);
        var r := PickKnob(s, anchor, good, env, room, from);
        if r.found {
          var i :| StopsAt(next, anchor, good, env, room, from + 1, i) && r.s.knob == KnobAt(next, i);
          StopsAlike(s, next, anchor, good, env, room, from, i);
        }
      }
    }
  }

  predicate RestAlike(s: Search, next: Search, anchor: Params, good: Params, env: Env, room: bool, from: nat)
    requires Shaped(s) && Shaped(next)
  {
    forall i :: from < i < KNOBS ==>
      CanStep(next, anchor, good, env, room, KnobAt(next, i))
      == CanStep(s, anchor, good, env, room, KnobAt(s, i))
  }

  /** What is behind a place that was passed does not depend on whether its step was given up. */
  lemma RestOfWalk(s: Search, next: Search, anchor: Params, good: Params, env: Env, room: bool, from: nat)
    requires Shaped(s) && from < KNOBS && Shaped(next) && (next == s || next == Pin(s, KnobAt(s, from)))
    ensures next.knob == s.knob && RestAlike(s, next, anchor, good, env, room, from)
  {
    hide CanStep, Pin;
    PinShaped(s, KnobAt(s, from));
    forall i | from < i < KNOBS
      ensures CanStep(next, anchor, good, env, room, KnobAt(next, i))
           == CanStep(s, anchor, good, env, room, KnobAt(s, i))
    {
      OthersStay(s, from, i);
      StepsAlike(s, next, anchor, good, env, room, KnobAt(s, i));
    }
  }

  lemma StopsAlike(s: Search, next: Search, anchor: Params, good: Params, env: Env, room: bool, from: nat, i: nat)
    requires Shaped(s) && Shaped(next) && next.knob == s.knob && from < KNOBS
    requires StopsAt(next, anchor, good, env, room, from + 1, i)
    requires !CanStep(s, anchor, good, env, room, KnobAt(s, from)) && RestAlike(s, next, anchor, good, env, room, from)
    ensures StopsAt(s, anchor, good, env, room, from, i) && KnobAt(s, i) == KnobAt(next, i)
  {
    hide CanStep;
  }

  lemma PinShaped(s: Search, k: nat)
    requires Shaped(s) && k < KNOBS
    ensures Shaped(Pin(s, k)) && Pin(s, k).knob == s.knob
  {
  }

  lemma CanStepIs(s: Search, anchor: Params, good: Params, env: Env, room: bool, k: nat)
    requires Shaped(s) && k < KNOBS
    ensures CanStep(s, anchor, good, env, room, k) <==>
              !(s.done[k] || (IsRisky(k, s.dir[k]) && !room)) && Differ(Candidate(s, anchor, good, env, k), good)
  {
    hide Candidate, Differ;
  }
}
