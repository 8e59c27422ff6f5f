/**
 Edits too small for the tuner to notice, in one environment: how far the profile that a search leaves can
 be from the one that it judged.
 */
module TunerSmallEdits {
  import opened Numeric
  import opened TunerModel
  import opened TunerRuns
  import opened TunerLimits
  import opened TunerLedger
  import opened TunerIsolation
  import opened TunerEdits
  import opened TunerNeverWorse

  // ----- the clamp, near a profile inside its limits

  /** The coarse speed is beyond its limits by more than the clamp overlooks, and the coarse Kp is scaled with it. */
  predicate CoarseClamped(anchor: Params, env: Env, p: Params) {
    Abs(ClampParams(anchor, env, p).coarseMax - p.coarseMax) > 0.000001
  }

  /** The landing speed is over the fine speed, or under its limit with room above, by more than 1e-4. */
  predicate FineMinMoves(anchor: Params, p: Params) {
    || p.fineMin > p.fineMax + 0.0001
    || (anchor.fineMin > 0.0 && p.fineMin + 0.0001 < Min(0.5 * anchor.fineMin, p.fineMax))
  }

  /** The same for the coarse minimum, between the motor's and the coarse speed as clamped. */
  predicate CoarseMinMoves(anchor: Params, env: Env, p: Params) {
    var top := ClampParams(anchor, env, p).coarseMax;
    p.coarseMin > top + 0.0001 || p.coarseMin + 0.0001 < Min(env.coarseMotorMin, top)
  }

  /** Clamping a profile that hardly differs from one inside the limits gives one that hardly differs from that. */
  lemma ClampStaysNear(anchor: Params, env: Env, g: Params, p: Params)
    requires Fixed(anchor, env, g) && !Differ(p, g)
    ensures var q := ClampParams(anchor, env, p);
            && !Differ(q.(coarseKp := g.coarseKp), g)
            && (!CoarseClamped(anchor, env, p) ==> !Differ(q, g))
  {
    FixedIffInRange(anchor, env, g);
    hide Fixed, PolicyFor;
  }

  /** It moves the two minima by 2e-4 at most, any other field but the coarse Kp by 1e-4, and this far exactly when: */
  lemma ClampMovesLittle(anchor: Params, env: Env, g: Params, p: Params)
    requires Fixed(anchor, env, g) && !Differ(p, g)
    ensures var q := ClampParams(anchor, env, p);
            && !Differ(q.(coarseKp := p.coarseKp, fineMin := p.fineMin, coarseMin := p.coarseMin), p)
            && Abs(q.fineMin - p.fineMin) <= 0.0002 && Abs(q.coarseMin - p.coarseMin) <= 0.0002
            && (Abs(q.fineMin - p.fineMin) > 0.0001 <==> FineMinMoves(anchor, p))
            && (Abs(q.coarseMin - p.coarseMin) > 0.0001 <==> CoarseMinMoves(anchor, env, p))
  {
    FixedIffInRange(anchor, env, g);
    hide Fixed, PolicyFor;
  }

  lemma ClampDiffersIff(anchor: Params, env: Env, g: Params, p: Params)
    requires Fixed(anchor, env, g) && !Differ(p, g)
    ensures var q := ClampParams(anchor, env, p);
            Differ(q, p) <==>
              || FineMinMoves(anchor, p) || CoarseMinMoves(anchor, env, p) || Abs(q.coarseKp - p.coarseKp) > 0.0001
  {
    hide ClampParams, Fixed, FineMinMoves, CoarseMinMoves;
    ClampMovesLittle(anchor, env, g, p);
  }

  lemma ClampTwice(anchor: Params, env: Env, p: Params)
    ensures var q := ClampParams(anchor, env, p); ClampParams(anchor, env, q) == q
  {
    ClampIsIdempotent(anchor, env, p);
  }

  /** The clamp treats the landing speed by itself. */
  lemma OthersAsBefore(anchor: Params, env: Env, p: Params, x: real)
    ensures SameButFineMin(ClampParams(anchor, env, p.(fineMin := x)), ClampParams(anchor, env, p))
  {
  }

  /** With the landing speed steered, and judged with that landing speed. */
  lemma SteeredStaysNear(anchor: Params, env: Env, g: Params, live: Params, x: real)
    requires Fixed(anchor, env, g) && !Differ(live, g)
    ensures var q := ClampParams(anchor, env, live.(fineMin := x));
            var judged := g.(fineMin := q.fineMin);
            && ClampParams(anchor, env, q) == q && !Differ(q.(coarseKp := judged.coarseKp), judged)
            && q.coarseKp == ClampParams(anchor, env, live).coarseKp
  {
    hide ClampParams, Fixed;
    ClampStaysNear(anchor, env, g, live);
    ClampTwice(anchor, env, live.(fineMin := x));
    OthersAsBefore(anchor, env, live, x);
  }

  // ----- the profile to go back to, whatever is edited

  /** It hardly differs from one inside the limits. */
  ghost predicate GoodIsNear(t: Tuner, env: Env) {
    t.init ==> exists g :: Fixed(t.anchor, env, g) && !Differ(t.good, g)
  }

  /** A landing speed taken from a profile that hardly differs is hardly outside the limits. */
  lemma SteeredGoodIsNear(anchor: Params, env: Env, good: Params, live: Params, x: real)
    requires Fixed(anchor, env, good) && !Differ(live, good)
    ensures var q := ClampParams(anchor, env, live.(fineMin := x));
            exists g :: Fixed(anchor, env, g) && !Differ(good.(fineMin := q.fineMin), g)
  {
    var q := ClampParams(anchor, env, live.(fineMin := x));
    var g := ClampParams(anchor, env, good.(fineMin := q.fineMin));
    ClampFineMinOnly(anchor, env, good, q.fineMin);
    LandingSpeedsNear(anchor, env, good, live, x);
    assert Fixed(anchor, env, g) && !Differ(good.(fineMin := q.fineMin), g) by {
      hide ClampParams;
    }
  }

  lemma LandingSpeedsNear(anchor: Params, env: Env, good: Params, live: Params, x: real)
    requires Fixed(anchor, env, good) && Abs(live.fineMax - good.fineMax) <= 0.0001
    ensures var q := ClampParams(anchor, env, live.(fineMin := x));
            Abs(ClampParams(anchor, env, good.(fineMin := q.fineMin)).fineMin - q.fineMin) <= 0.0001
  {
    FixedIffInRange(anchor, env, good);
    hide Fixed, PolicyFor;
  }

  lemma MeasuringGood(m: Libm, t: Tuner, env: Env, obs: Obs, r: Run, p: Params)
    requires Shaped(t.search) && t.mode == Measuring
    ensures var d := WhileMeasuring(m, t, env, obs, r, p);
            d.t.mode == Probing ==>
              && d.t.anchor == t.anchor
              && (d.t.good == t.good
                  || exists x :: d.t.good == t.good.(fineMin := ClampParams(t.anchor, env, p.(fineMin := x)).fineMin))
  {
    hide LandingLaw, StartProbe, EnterMonitor, Cluster, AddThrow, ClampParams, BackOff;
    var a := AddBase(t, r);
    LandingLawKeepsSearch(m, a, env, p);
    LandingLawKeepsMode(m, a, env, p);
    LandingLawMoves(m, a, env, p);
    var o := SteerLanding(m, a, env, obs.result, p);
    var u := if o.t.wait > 0 then o.t.(wait := o.t.wait - 1) else o.t;
    if u.base.n >= ARM_N {
      StartProbeFrame(m, u, env, o.p);
      EnterMonitorTally(StartProbe(m, u, env, o.p).t, o.p);
    }
  }

  lemma DispatchGood(m: Libm, t: Tuner, env: Env, obs: Obs, r: Run, p: Params)
    requires Wf(t) && InLimits(t, env) && t.init && GoodIsNear(t, env) && !Differ(p, t.seen)
    ensures var d := Dispatch(m, t, env, obs, r, p).t;
            d.mode == Probing ==> d.anchor == t.anchor && exists g :: Fixed(t.anchor, env, g) && !Differ(d.good, g)
  {
    hide WhileMeasuring, WhileProbing, WhileConverged, ClampParams, Differ, Fixed;
    match t.mode {
      case Measuring =>
        MeasuringGood(m, t, env, obs, r, p);
        var d := WhileMeasuring(m, t, env, obs, r, p).t;
        if d.mode == Probing && d.good != t.good {
          var x :| d.good == t.good.(fineMin := ClampParams(t.anchor, env, p.(fineMin := x)).fineMin);
          SteeredGoodIsNear(t.anchor, env, t.good, p, x);
        }
      case Probing =>
        UndecidedOrRejected(m, t, env, obs, r, p);
      case Converged =>
        ConvergedNeverProbes(m, t, env, obs, r, p);
    }
  }

  lemma StepGoodIsNear(m: Libm, t: Tuner, e: Throw)
    requires Wf(t) && (t.mode == Probing ==> t.init) && InLimits(t, e.env) && GoodIsNear(t, e.env)
    ensures GoodIsNear(Step(m, t, e).t, e.env)
  {
    hide Dispatch, LogThrow, ClampParams, Differ, Fixed, NoticeEdit;
    StepInLimits(m, t, e);
    var u := Step(m, t, e).t;
    if Usable(e.env, e.obs) {
      if !t.init || Differ(e.live, t.seen) {
        EditsEndNothing(m, t, e);
        NoDifference(u.good);
      } else {
        assert NoticeEdit(t, e.live) == Outcome(t, e.live) by { NotNoticed(t, e.live); }
        var r := Run(e.live, e.obs.total.v, e.obs.error.v, e.obs.result != Pass);
        LogThrowKeepsWf(m, t, e.env, e.obs.result, r.err);
        LoggedAlike(m, t, e.env, e.obs.result, r.err);
        LoggedSeen(m, t, e.env, e.obs.result, r.err);
        DispatchGood(m, LogThrow(m, t, e.env, e.obs.result, r.err), e.env, e.obs, r, e.live);
        NoDifference(u.good);
      }
    }
  }

  lemma NotNoticed(t: Tuner, p: Params)
    requires t.init && !Differ(p, t.seen)
    ensures NoticeEdit(t, p) == Outcome(t, p)
  {
    hide Differ;
  }

  lemma LoggedSeen(m: Libm, t: Tuner, env: Env, result: Verdict, err: real)
    ensures LogThrow(m, t, env, result, err).seen == t.seen
  {
    hide WindowStats;
  }

  lemma {:induction false} GoodIsNearAlways(m: Libm, env: Env, es: seq<Throw>)
    requires OneEnv(es, env)
    ensures GoodIsNear(Play(m, FRESH, es), env)
  {
    hide Step, InLimits, Fixed, Differ;
    if es != [] {
      var n := |es| - 1;
      assert OneEnv(es[..n], env);
      GoodIsNearAlways(m, env, es[..n]);
      InLimitsAlways(m, env, es[..n]);
      ProbingIsInit(m, es[..n]);
      StepGoodIsNear(m, Play(m, FRESH, es[..n]), es[n]);
    }
  }

  // ----- what a search leaves

  lemma DiffersInTaperIff(p: Params, g: Params)
    requires !Differ(p.(coarseKp := g.coarseKp), g)
    ensures Differ(p, g) <==> Abs(p.coarseKp - g.coarseKp) > 0.0001
  {
  }

  /**
   A search that ends between probes leaves, but for the coarse Kp, a profile within 1e-4 a field of the one
   it judged; and it differs from it exactly when the clamp sets the coarse Kp of the throw's profile more
   than 1e-4 from the accepted one, which takes a coarse speed beyond its limits.
   */
  lemma KeptDiffersIff(m: Libm, env: Env, es: seq<Throw>, e: Throw)
    requires OneEnv(es + [e], env) && Play(m, FRESH, es).mode == Measuring
    ensures var t := Play(m, FRESH, es);
            var o := Step(m, t, e);
            var judged := o.t.ledger.judged.good;
            o.t.mode == Converged && KeptTheLast(o.t) ==>
              && !Differ(o.p.(coarseKp := judged.coarseKp), judged)
              && (Differ(o.p, judged) <==>
                    Abs(ClampParams(t.anchor, env, e.live).coarseKp - t.good.coarseKp) > 0.0001)
              && (Differ(o.p, judged) ==> CoarseClamped(t.anchor, env, e.live))
  {
    hide Step, Beats, ClampParams, CoarseClamped, Fixed, Differ;
    var t := Play(m, FRESH, es);
    var o := Step(m, t, e);
    var all := es + [e];
    assert all[..|es|] == es && all[|es|] == e && e in all;
    assert OneEnv(es, env) && e.env == env;
    InLimitsAlways(m, env, es);
    NeverWorseAnyRun(m, es, e);
    if o.t.mode == Converged && KeptTheLast(o.t) {
      ConvergedWasInit(m, t, e);
      var j := o.t.ledger.judged;
      ClampStaysNear(t.anchor, env, t.good, e.live);
      if !(j.live == e.live && j.good == t.good) {
        var x :| j.live == ClampParams(t.anchor, env, e.live.(fineMin := x))
            && j.good == t.good.(fineMin := j.live.fineMin);
        SteeredStaysNear(t.anchor, env, t.good, e.live, x);
      }
      DiffersInTaperIff(o.p, j.good);
      DiffersInTaperIff(ClampParams(t.anchor, env, e.live), t.good);
    }
  }

  /**
   A search that ends on a probe leaves the clamp of the profile it judged: the two minima within 2e-4 of
   it, every other field but the coarse Kp within 1e-4. The two profiles differ exactly when in the judged
   one a minimum is more than 1e-4 from where the clamp has room for it, or its coarse Kp is.
   */
  lemma KeptAfterProbeDiffersIff(m: Libm, env: Env, es: seq<Throw>, e: Throw)
    requires OneEnv(es + [e], env) && Play(m, FRESH, es).mode == Probing
    ensures var t := Play(m, FRESH, es);
            var o := Step(m, t, e);
            var judged := o.t.ledger.judged.good;
            o.t.mode == Converged && KeptTheLast(o.t) ==>
              && (judged == t.good || judged == e.live) && o.p == ClampParams(t.anchor, env, judged)
              && !Differ(o.p.(coarseKp := judged.coarseKp, fineMin := judged.fineMin, coarseMin := judged.coarseMin),
                         judged)
              && Abs(o.p.fineMin - judged.fineMin) <= 0.0002 && Abs(o.p.coarseMin - judged.coarseMin) <= 0.0002
              && (Differ(o.p, judged) <==>
                    || FineMinMoves(t.anchor, judged) || CoarseMinMoves(t.anchor, env, judged)
                    || Abs(ClampParams(t.anchor, env, judged).coarseKp - judged.coarseKp) > 0.0001)
  {
    hide Step, Beats, ClampParams, Fixed, Differ, FineMinMoves, CoarseMinMoves;
    var t := Play(m, FRESH, es);
    var o := Step(m, t, e);
    var all := es + [e];
    assert all[..|es|] == es && all[|es|] == e && e in all;
    assert OneEnv(es, env) && e.env == env;
    InLimitsAlways(m, env, es);
    GoodIsNearAlways(m, env, es);
    NeverWorseAnyRun(m, es, e);
    if o.t.mode == Converged && KeptTheLast(o.t) {
      ConvergedWasInit(m, t, e);
      JudgedAfterProbe(m, t, e);
      var judged := o.t.ledger.judged.good;
      var g := if judged == e.live then t.seen else NearGood(t, env);
      ClampMovesLittle(t.anchor, env, g, judged);
      ClampDiffersIff(t.anchor, env, g, judged);
    }
  }

  ghost function NearGood(t: Tuner, env: Env): (g: Params)
    requires GoodIsNear(t, env) && t.init
    ensures Fixed(t.anchor, env, g) && !Differ(t.good, g)
  {
    var g :| Fixed(t.anchor, env, g) && !Differ(t.good, g);
    g
  }

  lemma ConvergedWasInit(m: Libm, t: Tuner, e: Throw)
    requires Wf(t) && t.mode != Converged && Step(m, t, e).t.mode == Converged
    ensures t.init
  {
    hide Step;
    if !Usable(e.env, e.obs) {
      NotUsable(m, t, e);
    } else if !t.init {
      EditsEndNothing(m, t, e);
    }
  }

  /** Ending on a probe, the search judges the candidate that was kept, or the profile before it. */
  lemma JudgedAfterProbe(m: Libm, t: Tuner, e: Throw)
    requires Wf(t) && t.init && t.mode == Probing && Step(m, t, e).t.mode == Converged
    ensures var judged := Step(m, t, e).t.ledger.judged.good; judged == t.good || judged == e.live
  {
    hide WhileProbing, LogThrow, ClampParams, Differ, NoticeEdit;
    if !Usable(e.env, e.obs) {
      NotUsable(m, t, e);
    } else if Differ(e.live, t.seen) {
      EditsEndNothing(m, t, e);
    } else {
      NotNoticed(t, e.live);
      var r := Run(e.live, e.obs.total.v, e.obs.error.v, e.obs.result != Pass);
      LogThrowKeepsWf(m, t, e.env, e.obs.result, r.err);
      LoggedAlike(m, t, e.env, e.obs.result, r.err);
      JudgedWhileProbing(m, LogThrow(m, t, e.env, e.obs.result, r.err), e.env, e.obs, r, e.live);
    }
  }

  lemma JudgedWhileProbing(m: Libm, t: Tuner, env: Env, obs: Obs, r: Run, p: Params)
    requires Wf(t) && t.mode == Probing
    ensures var d := WhileProbing(m, t, env, obs, r, p).t;
            d.mode == Converged ==> d.ledger.judged.good == t.good || d.ledger.judged.good == p
  {
    hide FinishProbe, AddThrow, PolicyFor;
    AddTrialCounts(t, r);
    var a := AddTrial(t, r);
    MonitorAfterProbe(m, a, env, p);
    MonitorAfterProbe(m, a.(trial := a.trial.(misses := PolicyFor(env).rejectMisses)), env, p);
  }
}
