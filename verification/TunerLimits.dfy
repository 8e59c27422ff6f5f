/** The limits everything the tuner writes goes through, and the aim trim's own limit. */
module TunerLimits {
  import opened Numeric
  import opened TunerModel
  import opened TunerRuns

  /** A profile that the clamp leaves alone. */
  predicate Fixed(anchor: Params, env: Env, p: Params) {
    ClampParams(anchor, env, p) == p
  }

  /** Where each field may lie, relative to the anchor and the limits in force. */
  predicate InRange(anchor: Params, env: Env, p: Params) {
    var bm := PolicyFor(env).boundMul;
    && (anchor.fineKp > 0.0 ==> 0.4 * anchor.fineKp <= p.fineKp <= 3.0 * bm * anchor.fineKp)
    && p.fineMin <= p.fineMax
    && (anchor.fineMin > 0.0 ==> p.fineMin <= 2.0 * bm * anchor.fineMin
                                 && (p.fineMin < p.fineMax ==> 0.5 * anchor.fineMin <= p.fineMin))
    && (anchor.coarseMax > 0.0 ==> CoarseLow(anchor, env) <= p.coarseMax <= CoarseHigh(anchor, env))
    && (anchor.coarseMax > 0.0 && env.coarseMotorCap > 0.0 ==> p.coarseMax <= env.coarseMotorCap)
    && (anchor.coarseKp > 0.0 ==> 0.25 * anchor.coarseKp <= p.coarseKp <= 12.0 * anchor.coarseKp)
    && p.coarseMin <= p.coarseMax
    && (p.coarseMin < p.coarseMax ==> env.coarseMotorMin <= p.coarseMin)
    && (HandoffHigh(env) > 0.0 ==> HandoffLow(env) <= p.handoff <= HandoffHigh(env))
  }

  /** What these limits are: half to twice the anchor's coarse speed, three times in the aggressive style, and so on. */
  lemma LimitsAre(anchor: Params, env: Env)
    ensures var bm := if env.aggressive then 1.5 else 1.0;
            var fastest := if env.coarseMotorCap > 0.0 then Min(2.0 * bm * anchor.coarseMax, env.coarseMotorCap)
                else 2.0 * bm * anchor.coarseMax;
            var narrowest := if env.handoffFloor > 0.0 then env.handoffFloor else 0.30;
            && PolicyFor(env).boundMul == bm
            && CoarseHigh(anchor, env) == fastest && CoarseLow(anchor, env) == Min(0.5 * anchor.coarseMax, fastest)
            && HandoffHigh(env) == env.handoffCapFrac * env.target
            && HandoffLow(env) == Min(Max(narrowest, env.coarseSdFloor), env.handoffCapFrac * env.target)
  {
  }

  lemma ClampLandsInRange(anchor: Params, env: Env, p: Params)
    ensures var q := ClampParams(anchor, env, p); InRange(anchor, env, q) && q.fineMax == p.fineMax
  {
  }

  /** InRange says everything the clamp insists on. */
  lemma FixedIffInRange(anchor: Params, env: Env, p: Params)
    ensures Fixed(anchor, env, p) <==> InRange(anchor, env, p)
  {
    ClampLandsInRange(anchor, env, p);
  }

  lemma ClampIsIdempotent(anchor: Params, env: Env, p: Params)
    ensures Fixed(anchor, env, ClampParams(anchor, env, p))
  {
    ClampLandsInRange(anchor, env, p);
    FixedIffInRange(anchor, env, ClampParams(anchor, env, p));
  }

  /** No profile in range is nearer, field by field. */
  predicate NoNearer(q: Params, p: Params, r: Params) {
    && Abs(q.fineKp - p.fineKp) <= Abs(r.fineKp - p.fineKp)
    && Abs(q.coarseMax - p.coarseMax) <= Abs(r.coarseMax - p.coarseMax)
    && Abs(q.handoff - p.handoff) <= Abs(r.handoff - p.handoff)
    && (r.fineMax == q.fineMax ==> Abs(q.fineMin - p.fineMin) <= Abs(r.fineMin - p.fineMin))
    && (r.coarseMax == q.coarseMax ==> Abs(q.coarseMin - p.coarseMin) <= Abs(r.coarseMin - p.coarseMin))
  }

  /** The coarse Kp of a profile whose coarse speed the clamp moves, so that the taper keeps its width. */
  function KpAlong(anchor: Params, p: Params, speed: real): real {
    if anchor.coarseMax > 0.0 && p.coarseMax > 0.0 && Abs(speed - p.coarseMax) > 0.000001
    then p.coarseKp * (speed / p.coarseMax) else p.coarseKp
  }

  /**
   The clamp moves no field further than it must. The coarse Kp goes along with the coarse speed first, and is
   then moved no further than it must be.
   */
  lemma ClampIsNearest(anchor: Params, env: Env, p: Params, r: Params)
    requires InRange(anchor, env, r)
    ensures var q := ClampParams(anchor, env, p);
            && NoNearer(q, p, r)
            && Abs(q.coarseKp - KpAlong(anchor, p, q.coarseMax)) <= Abs(r.coarseKp - KpAlong(anchor, p, q.coarseMax))
  {
    hide ClampParams, InRange;
    FineIsNearest(anchor, env, p, r);
    CoarseIsNearest(anchor, env, p, r);
    HandoffIsNearest(anchor, env, p, r);
  }

  lemma FineIsNearest(anchor: Params, env: Env, p: Params, r: Params)
    requires InRange(anchor, env, r)
    ensures var q := ClampParams(anchor, env, p);
            && Abs(q.fineKp - p.fineKp) <= Abs(r.fineKp - p.fineKp)
            && (r.fineMax == q.fineMax ==> Abs(q.fineMin - p.fineMin) <= Abs(r.fineMin - p.fineMin))
  {
    hide CoarseLow, CoarseHigh, HandoffLow, HandoffHigh;
  }

  lemma CoarseIsNearest(anchor: Params, env: Env, p: Params, r: Params)
    requires InRange(anchor, env, r)
    ensures var q := ClampParams(anchor, env, p);
            && Abs(q.coarseMax - p.coarseMax) <= Abs(r.coarseMax - p.coarseMax)
            && (r.coarseMax == q.coarseMax ==> Abs(q.coarseMin - p.coarseMin) <= Abs(r.coarseMin - p.coarseMin))
            && Abs(q.coarseKp - KpAlong(anchor, p, q.coarseMax)) <= Abs(r.coarseKp - KpAlong(anchor, p, q.coarseMax))
  {
    hide KpAlong;
    CoarseKpIs(anchor, env, p);
    CoarseSpeedsAreNearest(anchor, env, p, r);
    hide ClampParams;
    if anchor.coarseKp > 0.0 {
      var kp := KpAlong(anchor, p, ClampParams(anchor, env, p).coarseMax);
      ClampedIsNearest(kp, 0.25 * anchor.coarseKp, 12.0 * anchor.coarseKp, r.coarseKp);
    }
  }

  lemma CoarseKpIs(anchor: Params, env: Env, p: Params)
    ensures var q := ClampParams(anchor, env, p);
            var kp := KpAlong(anchor, p, q.coarseMax);
            q.coarseKp == if anchor.coarseKp > 0.0 then Clampf(kp, 0.25 * anchor.coarseKp, 12.0 * anchor.coarseKp)
                          else kp
  {
    hide HandoffLow, HandoffHigh, CoarseLow, CoarseHigh;
  }

  lemma ClampedIsNearest(v: real, lo: real, hi: real, x: real)
    requires lo <= x <= hi
    ensures Abs(Clampf(v, lo, hi) - v) <= Abs(x - v)
  {
  }

  lemma CoarseSpeedsAreNearest(anchor: Params, env: Env, p: Params, r: Params)
    requires InRange(anchor, env, r)
    ensures var q := ClampParams(anchor, env, p);
            && Abs(q.coarseMax - p.coarseMax) <= Abs(r.coarseMax - p.coarseMax)
            && (r.coarseMax == q.coarseMax ==> Abs(q.coarseMin - p.coarseMin) <= Abs(r.coarseMin - p.coarseMin))
  {
    hide HandoffLow, HandoffHigh, CoarseLow, CoarseHigh;
  }

  lemma HandoffIsNearest(anchor: Params, env: Env, p: Params, r: Params)
    requires InRange(anchor, env, r)
    ensures Abs(ClampParams(anchor, env, p).handoff - p.handoff) <= Abs(r.handoff - p.handoff)
  {
    hide CoarseLow, CoarseHigh;
  }

  // ----- one throw

  /** Nothing outside the tuner moved fine max, so it is what the anchor says everywhere. */
  predicate SameFineMax(t: Tuner, p: Params) {
    p.fineMax == t.anchor.fineMax && t.good.fineMax == t.anchor.fineMax
  }

  /** Past the log, a throw changes neither the error window, nor the trim, nor the anchor, nor fine max. */
  predicate Tame(t: Tuner, p: Params, o: Outcome) {
    && o.t.init == t.init && o.t.anchor == t.anchor
    && o.t.window.errs == t.window.errs && o.t.window.trim == t.window.trim
    && (SameFineMax(t, p) ==> SameFineMax(o.t, o.p))
  }

  lemma ClampKeepsFineMax(anchor: Params, env: Env, p: Params)
    ensures ClampParams(anchor, env, p).fineMax == p.fineMax
  {
  }

  lemma CandidateKeepsFineMax(s: Search, anchor: Params, good: Params, env: Env, k: nat)
    requires k < |s.dir| && k < |s.step|
    ensures Candidate(s, anchor, good, env, k).fineMax == good.fineMax
  {
  }

  lemma StartProbeTame(m: Libm, t: Tuner, env: Env, p: Params)
    requires Shaped(t.search)
    ensures var s := StartProbe(m, t, env, p); Tame(t, p, Outcome(s.t, s.p)) && s.t.good == t.good
  {
    hide Candidate, PickKnob, MarginOk;
    var (u, settled) := RecordStart(t, env);
    if !settled {
      var pick := PickKnob(u.search, u.anchor, u.good, env, MarginOk(m, u.window.errs, env), 0);
      CandidateKeepsFineMax(pick.s, u.anchor, u.good, env, pick.s.knob);
    }
  }

  lemma EnterMonitorTame(t: Tuner, p: Params)
    ensures Tame(t, p, EnterMonitor(t, p))
  {
    hide Differ, EarnedItsKeep;
  }

  lemma FinishProbeTame(m: Libm, t: Tuner, env: Env, p: Params)
    requires Shaped(t.search) && t.base.n > 0 && t.trial.n > 0
    ensures Tame(t, p, FinishProbe(m, t, env, p))
  {
    hide StartProbe, KeepProbe, MarginSigma, EnterMonitor;
    var a := AcceptProbe(t, p);
    var s := StartProbe(m, a, env, p);
    StartProbeTame(m, a, env, p);
    EnterMonitorTame(s.t, s.t.good);
    EnterMonitorTame(RejectProbe(t), t.good);
  }

  lemma LandingLawTame(m: Libm, t: Tuner, env: Env, p: Params)
    ensures Tame(t, p, LandingLaw(m, t, env, p))
  {
    hide ClampParams, LandingDecision, Clampf;
    forall q: Params {
      ClampKeepsFineMax(t.anchor, env, q);
    }
  }

  lemma NudgeTame(t: Tuner, env: Env, coarseRanLong: bool, p: Params)
    ensures Tame(t, p, NudgeForOver(t, env, coarseRanLong, p))
  {
    hide ClampParams;
    ClampKeepsFineMax(t.anchor, env, BackOff(p, env, coarseRanLong));
  }

  lemma DriftCheckTame(t: Tuner, env: Env, p: Params)
    ensures Tame(t, p, DriftCheck(t, env, p))
  {
    hide ClampParams;
    ClampKeepsFineMax(t.anchor, env, p.(handoff := p.handoff * 1.15, fineMin := p.fineMin * 0.90));
  }

  lemma MeasuringTame(m: Libm, t: Tuner, env: Env, obs: Obs, r: Run, p: Params)
    requires Shaped(t.search)
    ensures Tame(t, p, WhileMeasuring(m, t, env, obs, r, p))
  {
    hide NudgeForOver, LandingLaw, StartProbe, EnterMonitor, Cluster;
    NudgeTame(t, env, obs.coarseRanLong, p);
    LandingLawTame(m, AddBase(t, r), env, p);
    var o := SteerLanding(m, AddBase(t, r), env, obs.result, p);
    var u := if o.t.wait > 0 then o.t.(wait := o.t.wait - 1) else o.t;
    assert Shaped(u.search) by { hide Tame; LandingLawKeepsSearch(m, AddBase(t, r), env, p); }
    StartProbeTame(m, u, env, o.p);
    var s := StartProbe(m, u, env, o.p);
    EnterMonitorTame(s.t, s.p);
  }

  lemma LandingLawKeepsSearch(m: Libm, t: Tuner, env: Env, p: Params)
    ensures LandingLaw(m, t, env, p).t.search == t.search
  {
    hide ClampParams, LandingDecision, Clampf;
  }

  lemma ProbingTame(m: Libm, t: Tuner, env: Env, obs: Obs, r: Run, p: Params)
    requires Shaped(t.search) && t.base.n > 0
    ensures Tame(t, p, WhileProbing(m, t, env, obs, r, p))
  {
    hide FinishProbe;
    var a := AddTrial(t, r);
    FinishProbeTame(m, a, env, p);
    FinishProbeTame(m, a.(trial := a.trial.(misses := PolicyFor(env).rejectMisses)), env, p);
  }

  lemma ConvergedTame(m: Libm, t: Tuner, env: Env, obs: Obs, r: Run, p: Params)
    ensures Tame(t, p, WhileConverged(m, t, env, obs, r, p))
  {
    hide NudgeForOver, LandingLaw, DriftCheck, Cluster;
    NudgeTame(t, env, obs.coarseRanLong, p);
    var o := if Cluster(t, obs.result) then NudgeForOver(t, env, obs.coarseRanLong, p) else Outcome(t, p);
    LandingLawTame(m, AddBase(o.t, r), env, o.p);
    var q := SteerLanding(m, AddBase(o.t, r), env, obs.result, o.p);
    DriftCheckTame(q.t, env, q.p);
  }

  lemma DispatchTame(m: Libm, t: Tuner, env: Env, obs: Obs, r: Run, p: Params)
    requires Wf(t)
    ensures Tame(t, p, Dispatch(m, t, env, obs, r, p))
  {
    hide WhileMeasuring, WhileProbing, WhileConverged, Tame;
    match t.mode {
      case Measuring => MeasuringTame(m, t, env, obs, r, p);
      case Probing => ProbingTame(m, t, env, obs, r, p);
      case Converged => ConvergedTame(m, t, env, obs, r, p);
    }
  }

  predicate TrimIdle(t: Tuner) {
    t.init && |t.window.errs| < ERR_MIN_N ==> t.window.trim == 0.0
  }

  lemma ObserveObeysLimits(m: Libm, t: Tuner, env: Env, obs: Obs, p: Params)
    requires Wf(t) && TrimIdle(t)
    ensures var o := Observe(m, t, env, obs, p);
            && TrimIdle(o.t)
            && (Usable(env, obs) ==>
                  && InRange(o.t.anchor, env, o.p) && Abs(o.t.window.trim) <= TRIM_LIMIT * env.bracket
                  && o.t.init && o.t.seen == o.p && (o.t.mode != Probing ==> o.t.good == o.p)
                  && o.t.anchor == NoticeEdit(t, p).t.anchor)
  {
    hide ClampParams, InRange, Dispatch, Differ, KeepEditedFields, WindowStats;
    if Usable(env, obs) {
      var o := NoticeEdit(t, p);
      var r := Run(p, obs.total.v, obs.error.v, obs.result != Pass);
      var u := LogThrow(m, o.t, env, obs.result, r.err);
      var d := Dispatch(m, u, env, obs, r, o.p);
      DispatchTame(m, u, env, obs, r, o.p);
      ClampLandsInRange(d.t.anchor, env, d.p);
    }
  }

  /**
   In every run, whatever the throws, environments and edits: the profile a counted throw leaves
   behind is inside its limits (so clamping it again changes nothing) and the aim trim is at most
   half the bracket.
   */
  lemma LimitsHold(m: Libm, es: seq<Throw>, e: Throw)
    requires Usable(e.env, e.obs)
    ensures var o := Step(m, Play(m, FRESH, es), e);
            && InRange(o.t.anchor, e.env, o.p) && Fixed(o.t.anchor, e.env, o.p)
            && Abs(o.t.window.trim) <= TRIM_LIMIT * e.env.bracket
  {
    hide ClampParams, InRange;
    TrimIdleAlways(m, es);
    var t := Play(m, FRESH, es);
    ObserveObeysLimits(m, t, e.env, e.obs, e.live);
    FixedIffInRange(Step(m, t, e).t.anchor, e.env, Step(m, t, e).p);
  }

  lemma {:induction false} TrimIdleAlways(m: Libm, es: seq<Throw>)
    ensures TrimIdle(Play(m, FRESH, es))
  {
    hide Observe;
    if es != [] {
      var e := es[|es| - 1];
      TrimIdleAlways(m, es[..|es| - 1]);
      ObserveObeysLimits(m, Play(m, FRESH, es[..|es| - 1]), e.env, e.obs, e.live);
    }
  }

  // ----- runs without outside edits

  /** Every throw after the first ran on the profile exactly as the tuner left it. */
  predicate Quiet(m: Libm, es: seq<Throw>) {
    forall i :: 0 <= i < |es| && Play(m, FRESH, es[..i]).init ==> es[i].live == Play(m, FRESH, es[..i]).seen
  }

  lemma QuietPrefix(m: Libm, es: seq<Throw>, n: nat)
    requires Quiet(m, es) && n <= |es|
    ensures Quiet(m, es[..n])
  {
    forall i | 0 <= i < n && Play(m, FRESH, es[..n][..i]).init
      ensures es[..n][i].live == Play(m, FRESH, es[..n][..i]).seen
    {
      assert es[..n][..i] == es[..i];
    }
  }

  lemma QuietLast(m: Libm, es: seq<Throw>)
    requires Quiet(m, es) && es != []
    ensures var t := Play(m, FRESH, es[..|es| - 1]); t.init ==> es[|es| - 1].live == t.seen
  {
    hide Step;
  }

  predicate FineMaxKept(t: Tuner) {
    t.init ==> SameFineMax(t, t.seen)
  }

  lemma QuietStepKeepsAnchor(m: Libm, t: Tuner, e: Throw)
    requires Wf(t) && TrimIdle(t) && FineMaxKept(t) && (t.init ==> e.live == t.seen)
    ensures var o := Step(m, t, e);
            && FineMaxKept(o.t) && (t.init ==> o.t.anchor == t.anchor)
            && (!t.init && Usable(e.env, e.obs) ==> o.t.anchor == e.live)
  {
    hide ClampParams, Dispatch, WindowStats, InRange;
    if Usable(e.env, e.obs) {
      ObserveObeysLimits(m, t, e.env, e.obs, e.live);
      var o := NoticeEdit(t, e.live);
      var r := Run(e.live, e.obs.total.v, e.obs.error.v, e.obs.result != Pass);
      var u := LogThrow(m, o.t, e.env, e.obs.result, r.err);
      var d := Dispatch(m, u, e.env, e.obs, r, o.p);
      DispatchTame(m, u, e.env, e.obs, r, o.p);
      ClampLandsInRange(d.t.anchor, e.env, d.p);
    }
  }

  /** Without outside edits the anchor is the first counted throw's profile for good, and fine max never moves. */
  lemma {:induction false} AnchorIsForever(m: Libm, es: seq<Throw>, n: nat)
    requires Quiet(m, es) && n <= |es| && Play(m, FRESH, es[..n]).init
    ensures var t := Play(m, FRESH, es);
            && t.init && t.anchor == Play(m, FRESH, es[..n]).anchor
            && t.good.fineMax == t.seen.fineMax == t.anchor.fineMax
  {
    hide Step, TrimIdle, Quiet;
    FineMaxAlways(m, es);
    if n == |es| {
      assert es[..n] == es;
    } else {
      var es' := es[..|es| - 1];
      QuietPrefix(m, es, |es| - 1);
      QuietLast(m, es);
      assert es'[..n] == es[..n];
      AnchorIsForever(m, es', n);
      TrimIdleAlways(m, es');
      FineMaxAlways(m, es');
      QuietStepKeepsAnchor(m, Play(m, FRESH, es'), es[|es| - 1]);
      StaysInit(m, Play(m, FRESH, es'), es[|es| - 1]);
    }
  }

  lemma StaysInit(m: Libm, t: Tuner, e: Throw)
    requires Wf(t) && t.init
    ensures Step(m, t, e).t.init
  {
    hide Dispatch, ClampParams, Differ, KeepEditedFields, WindowStats;
    if Usable(e.env, e.obs) {
      var o := NoticeEdit(t, e.live);
      var r := Run(e.live, e.obs.total.v, e.obs.error.v, e.obs.result != Pass);
      DispatchTame(m, LogThrow(m, o.t, e.env, e.obs.result, r.err), e.env, e.obs, r, o.p);
    }
  }

  lemma {:induction false} FineMaxAlways(m: Libm, es: seq<Throw>)
    requires Quiet(m, es)
    ensures FineMaxKept(Play(m, FRESH, es))
  {
    hide Step, FineMaxKept, TrimIdle, Quiet;
    if es == [] {
      NotAnchored();
    } else {
      var es' := es[..|es| - 1];
      QuietPrefix(m, es, |es| - 1);
      QuietLast(m, es);
      FineMaxAlways(m, es');
      TrimIdleAlways(m, es');
      QuietStepKeepsAnchor(m, Play(m, FRESH, es'), es[|es| - 1]);
    }
  }

  lemma NotAnchored()
    ensures FineMaxKept(FRESH)
  {
  }
}
