/** What a cluster of misses does to the profile. */
module TunerBackOff {
  import opened Numeric
  import opened TunerModel
  import opened TunerRuns
  import opened TunerLimits
  import opened TunerHistory
  import opened TunerEdits
  import opened TunerNeverWorse
  import opened TunerWindow
  import opened TunerVerdict
  import opened TunerWatch

  /** Slower in the tube that is blamed, and in no other: the bulk with its taper as wide as before, or the landing. */
  function Slowed(p: Params, motorMin: real, coarseRanLong: bool): Params {
    if coarseRanLong then
      p.(coarseMax := p.coarseMax * 0.92, coarseKp := if p.coarseMax > 0.0 then p.coarseKp * 0.92 else p.coarseKp,
         coarseMin := Max(motorMin, p.coarseMin * 0.85), handoff := p.handoff * 1.15)
    else p.(fineMin := p.fineMin * 0.85, fineKp := p.fineKp * 0.92)
  }

  lemma BackOffIsSlowed(p: Params, env: Env, coarseRanLong: bool)
    ensures BackOff(p, env, coarseRanLong) == Slowed(p, env.coarseMotorMin, coarseRanLong)
  {
    if coarseRanLong && p.coarseMax > 0.0 {
      SameRatio(p.coarseMax, 0.92, p.coarseMax * 0.92);
    }
  }

  lemma SameRatio(x: real, factor: real, y: real)
    requires x > 0.0 && y == x * factor
    ensures y / x == factor
  {
  }

  lemma NudgedTo(t: Tuner, env: Env, coarseRanLong: bool, p: Params)
    ensures NudgeForOver(t, env, coarseRanLong, p).p
         == ClampParams(t.anchor, env, Slowed(p, env.coarseMotorMin, coarseRanLong))
    ensures NudgeForOver(t, env, coarseRanLong, p).t.anchor == t.anchor
  {
    hide ClampParams, BackOff, Slowed;
    BackOffIsSlowed(p, env, coarseRanLong);
  }

  lemma ClusterBacksOff(m: Libm, t: Tuner, env: Env, obs: Obs, r: Run, p: Params)
    requires Wf(t) && t.mode != Probing && Cluster(t, obs.result)
    ensures var d := Dispatch(m, t, env, obs, r, p);
            d.p == ClampParams(t.anchor, env, Slowed(p, env.coarseMotorMin, obs.coarseRanLong))
            && d.t.anchor == t.anchor && d.t.mode == t.mode
  {
    hide NudgeForOver, ClampParams, Slowed, RecentMisses;
    NudgedTo(t, env, obs.coarseRanLong, p);
    NudgeOn(t, env, obs.coarseRanLong, p);
  }

  /**
   In every run, outside a probe and without an edit: a throw over that is at least the third miss of ten slows
   the tube that is blamed for it, and leaves everything else to the clamp.
   */
  lemma ThirdMissBacksOff(m: Libm, es: seq<Throw>, e: Throw)
    requires var t := Play(m, FRESH, es);
             && t.mode != Probing && Usable(e.env, e.obs) && !StartsOver(t, e)
             && Clears(t, e, t.window.missLog + [true])
    ensures var t := Play(m, FRESH, es);
            var o := Step(m, t, e);
            && o.p == ClampParams(t.anchor, e.env, Slowed(e.live, e.env.coarseMotorMin, e.obs.coarseRanLong))
            && o.t.mode == t.mode && o.t.window.missLog == []
  {
    hide Play, Dispatch, LogThrow, ClampParams, Slowed, Differ, RecentMisses;
    var t := Play(m, FRESH, es);
    StepWindow(m, t, e);
    var r := Run(e.live, e.obs.total.v, e.obs.error.v, e.obs.result != Pass);
    LogThrowKeepsWf(m, t, e.env, e.obs.result, r.err);
    LoggedAlike(m, t, e.env, e.obs.result, r.err);
    LoggedOn(m, t, e.env, e.obs.result, r.err);
    var a := LogThrow(m, t, e.env, e.obs.result, r.err);
    ClusterBacksOff(m, a, e.env, e.obs, r, e.live);
    ClampIsIdempotent(t.anchor, e.env, Slowed(e.live, e.env.coarseMotorMin, e.obs.coarseRanLong));
  }

  /**
   The aim trim after a counted throw, with enough errors: fifteen hundredths of their mean less, at most half
   the bracket.
   */
  lemma TrimIs(m: Libm, t: Tuner, env: Env, result: Verdict, err: real)
    requires env.bracket > 0.0
    ensures var w := LogThrow(m, t, env, result, err).window;
            var half := 0.5 * env.bracket;
            w.trim == if |w.errs| < 8 then t.window.trim
                      else Max(-half, Min(t.window.trim - 0.15 * MeanOf(Cut(w.errs, env.bracket)), half))
  {
    hide WindowStats, MeanOf, Cut, VarianceOf, Last;
    var errs := Last(t.window.errs + [err], ERR_WINDOW);
    if |errs| >= 8 {
      WindowIsCut(m, errs, env.bracket);
    }
  }
}
