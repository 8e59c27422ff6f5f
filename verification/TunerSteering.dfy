/**
 Which way the tuner pushes: the landing speed follows the margin, the aim follows the bias, and a
 step is kept only when the throws got faster.
 */
module TunerSteering {
  import opened Numeric
  import opened TunerModel
  import opened TunerRuns
  import opened TunerLimits
  import opened TunerIsolation

  /** The facts about `powf(x, 0.6)` that steering needs. */
  ghost predicate Plain(m: Libm) {
    m.pow06(1.0) == 1.0 && forall x, y :: 0.0 <= x < y ==> m.pow06(x) < m.pow06(y)
  }

  /** Landing spreads that fit between the mean, its bias capped, and the bracket's edge. */
  function SpreadsThatFit(env: Env, w: Stats): real
    requires w.sd > 0.0001
  {
    Max(0.0, env.bracket - Min(Abs(w.mean), 0.25 * env.bracket)) / w.sd
  }

  /** Scaling a landing speed inside its limits and clamping it again moves it the same way, and no further. */
  lemma MoveKeepsDirection(t: Tuner, env: Env, r: real, p: Params)
    requires Fixed(t.anchor, env, p) && p.fineMin > 0.0 && 0.8 <= r <= 1.25
    ensures var q := MoveLanding(t, env, r, p).p;
            && SameButFineMin(q, p) && 0.8 * p.fineMin <= q.fineMin <= 1.25 * p.fineMin
            && (r >= 1.0 ==> p.fineMin <= q.fineMin) && (r <= 1.0 ==> q.fineMin <= p.fineMin)
  {
    hide ClampParams, MoveLanding;
    ClampMoves(t.anchor, env, r, p, p.fineMin * r);
    MoveGives(t, env, r, p);
  }

  lemma ClampMoves(anchor: Params, env: Env, r: real, p: Params, x: real)
    requires Fixed(anchor, env, p) && p.fineMin > 0.0 && 0.8 <= r <= 1.25 && x == p.fineMin * r
    ensures var q := ClampParams(anchor, env, p.(fineMin := x));
            && SameButFineMin(q, p) && 0.8 * p.fineMin <= q.fineMin <= 1.25 * p.fineMin
            && (r >= 1.0 ==> p.fineMin <= q.fineMin) && (r <= 1.0 ==> q.fineMin <= p.fineMin)
  {
    hide Fixed, InRange, ClampParams;
    FixedIffInRange(anchor, env, p);
    Scaled(p.fineMin, r, x);
    ClampFineMinOnly(anchor, env, p, x);
    ClampOfScaled(anchor, env, p, x);
  }

  lemma MoveGives(t: Tuner, env: Env, r: real, p: Params)
    ensures MoveLanding(t, env, r, p).p == ClampParams(t.anchor, env, p.(fineMin := p.fineMin * r))
  {
    hide BigMove, ClampParams;
    assert ScaleLanding(p, r) == p.(fineMin := p.fineMin * r);
  }

  lemma Scaled(a: real, r: real, x: real)
    requires a > 0.0 && 0.8 <= r <= 1.25 && x == a * r
    ensures 0.8 * a <= x <= 1.25 * a && (r >= 1.0 ==> a <= x) && (r <= 1.0 ==> x <= a)
  {
    ProductNonNegative(a, r - 0.8);
    ProductNonNegative(a, 1.25 - r);
    if r >= 1.0 {
      ProductNonNegative(a, r - 1.0);
    }
    if r <= 1.0 {
      ProductNonNegative(a, 1.0 - r);
    }
  }

  lemma ProductNonNegative(a: real, b: real)
    requires a >= 0.0 && b >= 0.0
    ensures a * b >= 0.0
  {
  }

  lemma ClampOfScaled(anchor: Params, env: Env, p: Params, x: real)
    requires InRange(anchor, env, p)
    ensures var q := ClampParams(anchor, env, p.(fineMin := x));
            && (x >= p.fineMin ==> p.fineMin <= q.fineMin <= x)
            && (x <= p.fineMin ==> x <= q.fineMin <= p.fineMin)
  {
  }

  lemma FactorFollowsRatio(m: Libm, ratio: real)
    requires Plain(m) && ratio >= 0.0
    ensures var f := Clampf(m.pow06(ratio), 1.0 / LAND_STEP, LAND_STEP);
            && 0.8 <= f <= 1.25 && (ratio > 1.0 ==> f >= 1.0) && (ratio < 1.0 ==> f <= 1.0)
  {
  }

  lemma RatioIsMargin(env: Env, w: Stats)
    requires w.sd > 0.0001 && env.landSigma > 0.0
    ensures LandingRatio(env, w) * env.landSigma == SpreadsThatFit(env, w) && LandingRatio(env, w) >= 0.0
  {
    var reach := Max(0.0, env.bracket - Min(Abs(w.mean), 0.25 * env.bracket));
    QuotientOf(reach, w.sd);
    QuotientOf(reach / w.sd, env.landSigma);
  }

  lemma QuotientOf(a: real, b: real)
    requires a >= 0.0 && b > 0.0
    ensures a / b >= 0.0 && a / b * b == a
  {
  }

  lemma TimesKeepsOrder(a: real, b: real, c: real)
    requires c > 0.0
    ensures a > b ==> a * c > b * c
  {
  }

  /**
   The landing law moves the landing speed and nothing else, by a quarter at most; up only when over
   1.15 times the spreads asked for fit into the bracket, down only when they fit less than once in 1.15.
   */
  lemma LandingFollowsMargin(m: Libm, t: Tuner, env: Env, p: Params)
    requires Plain(m) && Fixed(t.anchor, env, p) && p.fineMin > 0.0
    ensures var q := LandingLaw(m, t, env, p).p;
            var w := WindowStats(m, t.window.errs, env.bracket);
            && SameButFineMin(q, p) && 0.8 * p.fineMin <= q.fineMin <= 1.25 * p.fineMin
            && (q.fineMin > p.fineMin ==> w.sd > 0.0001 && SpreadsThatFit(env, w) > 1.15 * env.landSigma)
            && (q.fineMin < p.fineMin ==> w.sd > 0.0001 && SpreadsThatFit(env, w) * 1.15 < env.landSigma)
  {
    hide Fixed, MoveLanding, WindowStats, LandingRatio, SpreadsThatFit, Plain, Clampf;
    var d := LandingDecision(m, t.window, env);
    if d.Scale? {
      var w := WindowStats(m, t.window.errs, env.bracket);
      var ratio := LandingRatio(env, w);
      RatioIsMargin(env, w);
      FactorFollowsRatio(m, ratio);
      assert d.factor == Clampf(m.pow06(ratio), 1.0 / LAND_STEP, LAND_STEP);
      MoveKeepsDirection(t.(window := t.window.(landTick := 0)), env, d.factor, p);
      TimesKeepsOrder(ratio, LAND_DEADBAND, env.landSigma);
      TimesKeepsOrder(1.0 / LAND_DEADBAND, ratio, env.landSigma);
    }
  }

  // ----- the aim

  /**
   With errors enough to judge by, the trim moves with the bias exactly when the bracket has narrowed so
   far that the trim lies beyond its limit on that side; otherwise it moves against it, by fifteen
   hundredths of it at most, or not at all. With fewer errors it stays.
   */
  lemma TrimOpposesBias(m: Libm, t: Tuner, env: Env, result: Verdict, err: real)
    requires env.bracket > 0.0
    ensures var w := LogThrow(m, t, env, result, err).window;
            var mean := WindowStats(m, w.errs, env.bracket).mean;
            var limit := TRIM_LIMIT * env.bracket;
            var was := t.window.trim;
            && (|w.errs| < ERR_MIN_N ==> w.trim == was)
            && (|w.errs| >= ERR_MIN_N ==>
                  && (mean >= 0.0 ==> (w.trim > was <==> was < -limit))
                  && (mean <= 0.0 ==> (w.trim < was <==> was > limit))
                  && (Abs(was) <= limit ==> Abs(w.trim - was) <= TRIM_GAIN * Abs(mean)))
  {
    hide WindowStats;
  }

  // ----- what is kept

  lemma KeptIsFaster(m: Libm, base: Arm, trial: Arm, margin: real, landSigma: real, pol: Policy)
    requires base.n > 0 && trial.n > 0 && KeepProbe(m, base, trial, margin, landSigma, pol)
    ensures Mean(trial) < Mean(base) - pol.minGain && trial.misses < pol.rejectMisses
    ensures ErrRms(m, base) <= 0.0001 || ErrRms(m, trial) <= 1.30 * ErrRms(m, base)
    ensures trial.misses > 0 ==> trial.misses + 1 < pol.rejectMisses || margin >= PROBE_MARGIN_FRAC * landSigma
  {
    hide Mean, Variance, ErrRms;
  }

  /**
   A throw that ends a probe by accepting it: the throws it leaves as the next baseline are the full
   trial, faster on average than the old baseline by the style's least gain, with fewer misses than
   throw a probe out, landing at most 1.3 times as wide; and the accepted profile is what they ran on.
   */
  lemma AcceptedIsFaster(m: Libm, t: Tuner, e: Throw)
    requires Wf(t) && t.init && t.mode == Probing && !Differ(e.live, t.seen) && Usable(e.env, e.obs)
    requires Step(m, t, e).t.search.tally.accepted > t.search.tally.accepted
    ensures var u := Step(m, t, e).t;
            var pol := PolicyFor(e.env);
            u.mode != Converged ==>
              && u.base.n >= ARM_N && Mean(u.base) < Mean(t.base) - pol.minGain && u.base.misses < pol.rejectMisses
              && (ErrRms(m, t.base) <= 0.0001 || ErrRms(m, u.base) <= 1.30 * ErrRms(m, t.base))
              && u.ledger.baseRuns == t.ledger.trialRuns + [Run(e.live, e.obs.total.v, e.obs.error.v,
                  e.obs.result != Pass)]
              && (u.mode == Probing ==> u.good == e.live)
  {
    hide Observe;
    var r := Run(e.live, e.obs.total.v, e.obs.error.v, e.obs.result != Pass);
    var u := LogThrow(m, t, e.env, e.obs.result, r.err);
    LoggedSame(m, t, e.env, e.obs.result, r.err);
    LogKeepsLedgers(m, t, e.env, e.obs.result, r.err);
    LogThrowKeepsWf(m, t, e.env, e.obs.result, r.err);
    SettledStep(m, t, e);
    hide Step, WhileProbing, LogThrow, Differ, Mean, ErrRms;
    assert WhileProbing(m, u, e.env, e.obs, r, e.live).t.search == Step(m, t, e).t.search;
    ProbingAccepts(m, u, e.env, e.obs, r, e.live);
  }

  lemma LogKeepsLedgers(m: Libm, t: Tuner, env: Env, result: Verdict, err: real)
    ensures var u := LogThrow(m, t, env, result, err);
            u.ledger.trialRuns == t.ledger.trialRuns && u.ledger.baseRuns == t.ledger.baseRuns
  {
    hide WindowStats;
  }

  lemma SettledStep(m: Libm, t: Tuner, e: Throw)
    requires Wf(t) && t.init && t.mode == Probing && !Differ(e.live, t.seen) && Usable(e.env, e.obs)
    ensures var r := Run(e.live, e.obs.total.v, e.obs.error.v, e.obs.result != Pass);
            Wf(LogThrow(m, t, e.env, e.obs.result, r.err)) &&
            Step(m, t, e) == Settle(WhileProbing(m, LogThrow(m, t, e.env, e.obs.result, r.err), e.env, e.obs, r,
                e.live), e.env)
  {
    hide WhileProbing, LogThrow, Settle, Differ;
    var r := Run(e.live, e.obs.total.v, e.obs.error.v, e.obs.result != Pass);
    LogThrowKeepsWf(m, t, e.env, e.obs.result, r.err);
    LoggedSame(m, t, e.env, e.obs.result, r.err);
  }

  lemma ProbingAccepts(m: Libm, t: Tuner, env: Env, obs: Obs, r: Run, p: Params)
    requires Wf(t) && t.mode == Probing
    requires WhileProbing(m, t, env, obs, r, p).t.search.tally.accepted > t.search.tally.accepted
    ensures var u := WhileProbing(m, t, env, obs, r, p).t;
            var pol := PolicyFor(env);
            u.mode != Converged ==>
              && u.base.n >= ARM_N && Mean(u.base) < Mean(t.base) - pol.minGain && u.base.misses < pol.rejectMisses
              && (ErrRms(m, t.base) <= 0.0001 || ErrRms(m, u.base) <= 1.30 * ErrRms(m, t.base))
              && u.ledger.baseRuns == t.ledger.trialRuns + [r] && u.good == p
  {
    hide StartProbe, KeepProbe, Mean, ErrRms, AddThrow, MarginSigma, EarnedItsKeep, Differ;
    var pol := PolicyFor(env);
    var a := AddTrial(t, r);
    AddTrialCounts(t, r);
    var b := if obs.result == Over && r.err > 2.0 * env.bracket then a.(trial := a.trial.(misses := pol.rejectMisses))
        else a;
    var margin := MarginSigma(m, b.window.errs, env.bracket);
    StartProbeFrame(m, AcceptProbe(b, p), env, p);
    if KeepProbe(m, b.base, b.trial, margin, env.landSigma, pol) {
      KeptIsFaster(m, b.base, b.trial, margin, env.landSigma, pol);
    }
  }
}
