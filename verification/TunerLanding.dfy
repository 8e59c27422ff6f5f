/**
 The landing law, written out on the errors in the window, and what a throw without a back-off does to the
 profile.
 */
module TunerLanding {
  import opened Numeric
  import opened TunerModel
  import opened TunerRuns
  import opened TunerLimits
  import opened TunerEdits
  import opened TunerNeverWorse
  import opened TunerWindow
  import opened TunerVerdict
  import opened TunerWatch
  import opened TunerHistory

  /** Standard deviation of the errors cut off at twice the bracket. */
  function Spread(m: Libm, errs: seq<real>, bracket: real): real
    requires |errs| >= 2
  {
    var v := VarianceOf(Cut(errs, bracket));
    if v > 0.0 then m.sqrt(v) else 0.0
  }

  /** Errors enough to judge by, a landing that is asked for, and a spread to speak of. */
  predicate Judged(m: Libm, errs: seq<real>, env: Env) {
    |errs| >= 8 && env.landSigma > 0.0 && Spread(m, errs, env.bracket) > 0.0001
  }

  /** How many times the spreads asked for fit between the mean, its bias capped, and the bracket's edge. */
  function FitRatio(m: Libm, errs: seq<real>, env: Env): real
    requires Judged(m, errs, env)
  {
    var bias := Min(Abs(MeanOf(Cut(errs, env.bracket))), 0.25 * env.bracket);
    (Max(0.0, env.bracket - bias) / Spread(m, errs, env.bracket)) / env.landSigma
  }

  /** Every sixth pass, every third when the margin is plainly gone. */
  function Pace(ratio: real): nat {
    if ratio < 0.70 then 3 else 6
  }

  /** A profile and the passes counted since the landing law last had its turn. */
  datatype Landed = Landed(p: Params, passes: nat)

  /** The landing law: nothing between 1/1.15 and 1.15 times what is asked for, else a step of a quarter at most. */
  function Land(m: Libm, errs: seq<real>, passes: nat, anchor: Params, env: Env, p: Params): Landed {
    if !Judged(m, errs, env) then Landed(p, passes)
    else
      var ratio := FitRatio(m, errs, env);
      if passes + 1 < Pace(ratio) then Landed(p, passes + 1)
      else if 1.0 / 1.15 <= ratio <= 1.15 then Landed(p, 0)
      else Landed(Scaled(anchor, env, p, Max(0.8, Min(m.pow06(ratio), 1.25))), 0)
  }

  lemma StatsAre(m: Libm, errs: seq<real>, bracket: real)
    requires bracket > 0.0 && |errs| >= 2
    ensures WindowStats(m, errs, bracket) == Stats(MeanOf(Cut(errs, bracket)), Spread(m, errs, bracket))
  {
    hide VarianceOf, MeanOf, Cut, WindowStats;
    WindowIsCut(m, errs, bracket);
  }

  lemma FactorIs(x: real)
    ensures Clampf(x, 1.0 / LAND_STEP, LAND_STEP) == Max(0.8, Min(x, 1.25))
  {
  }

  lemma DecisionIs(m: Libm, window: Window, env: Env)
    requires env.bracket > 0.0
    ensures var d := LandingDecision(m, window, env);
            if !Judged(m, window.errs, env) then d == Keep(window.landTick)
            else
              var ratio := FitRatio(m, window.errs, env);
              if window.landTick + 1 < Pace(ratio) then d == Keep(window.landTick + 1)
              else if 1.0 / 1.15 <= ratio <= 1.15 then d == Keep(0)
              else d == Scale(Max(0.8, Min(m.pow06(ratio), 1.25)))
  {
    hide WindowStats, VarianceOf, MeanOf, Cut, Spread;
    if |window.errs| >= 8 {
      StatsAre(m, window.errs, env.bracket);
      if Judged(m, window.errs, env) {
        FactorIs(m.pow06(FitRatio(m, window.errs, env)));
        SameRatio(m, window.errs, env);
      }
    }
  }

  lemma SameRatio(m: Libm, errs: seq<real>, env: Env)
    requires Judged(m, errs, env) && env.bracket > 0.0
    ensures WindowStats(m, errs, env.bracket).sd > 0.0001
    ensures LandingRatio(env, WindowStats(m, errs, env.bracket)) == FitRatio(m, errs, env)
  {
    hide WindowStats, VarianceOf, MeanOf, Cut, Spread;
    StatsAre(m, errs, env.bracket);
  }

  lemma LawIs(m: Libm, t: Tuner, env: Env, p: Params)
    requires env.bracket > 0.0
    ensures var o := LandingLaw(m, t, env, p);
            Landed(o.p, o.t.window.landTick) == Land(m, t.window.errs, t.window.landTick, t.anchor, env, p)
  {
    hide LandingDecision, Judged, FitRatio, Scaled, MoveLanding, Pace;
    DecisionIs(m, t.window, env);
    LandingOn(m, t, env, p);
    MoveKeepsTick(m, t, env, p);
  }

  lemma MoveKeepsTick(m: Libm, t: Tuner, env: Env, p: Params)
    ensures var d := LandingDecision(m, t.window, env);
            LandingLaw(m, t, env, p).t.window.landTick == if d.Keep? then d.tick else 0
  {
    hide LandingDecision, ClampParams;
  }

  /** Steered on a pass, and on a pass only. */
  lemma SteerIs(m: Libm, t: Tuner, env: Env, result: Verdict, p: Params)
    requires env.bracket > 0.0
    ensures var o := SteerLanding(m, t, env, result, p);
            && o.t.mode == t.mode && o.t.anchor == t.anchor && o.t.search == t.search
            && Landed(o.p, o.t.window.landTick)
               == if result == Pass then Land(m, t.window.errs, t.window.landTick, t.anchor, env, p)
                  else Landed(p, t.window.landTick)
  {
    hide LandingLaw, Land;
    LawIs(m, t, env, p);
    LandingOn(m, t, env, p);
    LandingLawKeepsSearch(m, t, env, p);
  }

  lemma MeasuringLands(m: Libm, t: Tuner, env: Env, obs: Obs, r: Run, p: Params)
    requires Shaped(t.search) && t.mode == Measuring && !Cluster(t, obs.result) && env.bracket > 0.0
    ensures var d := WhileMeasuring(m, t, env, obs, r, p);
            d.t.mode == Measuring ==>
              && d.t.anchor == t.anchor
              && Landed(d.p, d.t.window.landTick)
                 == if obs.result == Pass then Land(m, t.window.errs, t.window.landTick, t.anchor, env, p)
                    else Landed(p, t.window.landTick)
  {
    hide SteerLanding, Land, StartProbe, EnterMonitor, Cluster, AddThrow;
    var a := AddBase(t, r);
    SteerIs(m, a, env, obs.result, p);
    var o := SteerLanding(m, a, env, obs.result, p);
    var u := if o.t.wait > 0 then o.t.(wait := o.t.wait - 1) else o.t;
    StartProbeFrame(m, u, env, o.p);
    EnterMonitorTally(StartProbe(m, u, env, o.p).t, o.p);
  }

  lemma ConvergedLands(m: Libm, t: Tuner, env: Env, obs: Obs, r: Run, p: Params)
    requires t.mode == Converged && !Cluster(t, obs.result) && env.bracket > 0.0
    ensures var d := WhileConverged(m, t, env, obs, r, p);
            d.t.mode == Converged ==>
              && d.t.anchor == t.anchor
              && Landed(d.p, d.t.window.landTick)
                 == if obs.result == Pass then Land(m, t.window.errs, t.window.landTick, t.anchor, env, p)
                    else Landed(p, t.window.landTick)
  {
    hide SteerLanding, Land, Cluster, AddThrow, ClampParams, Mean;
    SteerIs(m, AddBase(t, r), env, obs.result, p);
  }

  lemma LoggedTick(m: Libm, t: Tuner, env: Env, result: Verdict, err: real)
    ensures var a := LogThrow(m, t, env, result, err);
            a.window.landTick == t.window.landTick && a.window.errs == Last(t.window.errs + [err], ERR_WINDOW)
  {
    hide WindowStats, Last;
  }

  /**
   In every run a throw that is no edit, backs nothing off, and leaves the tuner measuring or watching as it was,
   leaves the profile that the landing law makes of it after a pass, and otherwise the one it ran on, clamped.
   */
  lemma ThrowOnlyLands(m: Libm, es: seq<Throw>, e: Throw)
    requires var t := Play(m, FRESH, es);
             && t.mode != Probing && Usable(e.env, e.obs) && !StartsOver(t, e)
             && !Clears(t, e, t.window.missLog + [e.obs.result != Pass]) && Step(m, t, e).t.mode == t.mode
    ensures var t := Play(m, FRESH, es);
            var o := Step(m, t, e);
            var landed := if e.obs.result == Pass
                then Land(m, Last(t.window.errs + [e.obs.error.v], 20), t.window.landTick, t.anchor, e.env, e.live)
                else Landed(e.live, t.window.landTick);
            o.p == ClampParams(t.anchor, e.env, landed.p) && o.t.window.landTick == landed.passes
  {
    hide Play, WhileMeasuring, WhileConverged, LogThrow, ClampParams, Differ, RecentMisses, Land, Last;
    var t := Play(m, FRESH, es);
    var r := RunOf(e);
    LogThrowKeepsWf(m, t, e.env, e.obs.result, r.err);
    LoggedAlike(m, t, e.env, e.obs.result, r.err);
    LoggedOn(m, t, e.env, e.obs.result, r.err);
    LoggedTick(m, t, e.env, e.obs.result, r.err);
    var a := LogThrow(m, t, e.env, e.obs.result, r.err);
    if t.mode == Measuring {
      MeasuringLands(m, a, e.env, e.obs, r, e.live);
    } else {
      ConvergedLands(m, a, e.env, e.obs, r, e.live);
    }
  }
}
