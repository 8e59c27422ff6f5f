/** What the landing window and the miss log hold, over whole runs. */
module TunerWindow {
  import opened Numeric
  import opened TunerModel
  import opened TunerRuns
  import opened TunerLimits
  import opened TunerEdits

  /** A throw before which the tuner starts over: the first one, or one after a noticed edit. */
  predicate StartsOver(t: Tuner, e: Throw) {
    !t.init || Differ(e.live, t.seen)
  }

  /** A throw that clears the miss log: over, outside a probe, as at least the third miss of the last ten. */
  predicate Clears(t: Tuner, e: Throw, missLog: seq<bool>) {
    && e.obs.result == Over && (t.mode != Probing || StartsOver(t, e)) && RecentMisses(missLog, 10) >= 3
  }

  /** The errors of the counted throws since the tuner last started over, oldest first. */
  function ErrorsSince(m: Libm, es: seq<Throw>): seq<real> {
    if es == [] then []
    else
      var before, e := es[..|es| - 1], es[|es| - 1];
      if !Usable(e.env, e.obs) then ErrorsSince(m, before)
      else (if StartsOver(Play(m, FRESH, before), e) then [] else ErrorsSince(m, before)) + [e.obs.error.v]
  }

  /** Which counted throws missed, since the tuner last started over or the log was cleared. */
  function MissesSince(m: Libm, es: seq<Throw>): seq<bool> {
    if es == [] then []
    else
      var before, e := es[..|es| - 1], es[|es| - 1];
      var t := Play(m, FRESH, before);
      if !Usable(e.env, e.obs) then MissesSince(m, before)
      else
        var log := (if StartsOver(t, e) then [] else MissesSince(m, before)) + [e.obs.result != Pass];
        if Clears(t, e, log) then [] else log
  }

  /** The aim trim, landing errors and miss log are as before; the counter that paces the landing law may move. */
  predicate WindowKept(t: Tuner, u: Tuner) {
    u.window == t.window.(landTick := u.window.landTick)
  }

  lemma LandingKeepsWindow(m: Libm, t: Tuner, env: Env, p: Params)
    ensures WindowKept(t, LandingLaw(m, t, env, p).t)
  {
    hide ClampParams, LandingDecision, Clampf;
  }

  lemma MeasuringWindow(m: Libm, t: Tuner, env: Env, obs: Obs, r: Run, p: Params)
    requires Shaped(t.search) && !Cluster(t, obs.result)
    ensures WindowKept(t, WhileMeasuring(m, t, env, obs, r, p).t)
  {
    hide LandingLaw, StartProbe, AddThrow, Cluster, Differ, EarnedItsKeep;
    LandingLawKeepsSearch(m, AddBase(t, r), env, p);
    LandingKeepsWindow(m, AddBase(t, r), env, p);
    var o := SteerLanding(m, AddBase(t, r), env, obs.result, p);
    var u := if o.t.wait > 0 then o.t.(wait := o.t.wait - 1) else o.t;
    StartProbeFrame(m, u, env, o.p);
  }

  lemma ProbingWindow(m: Libm, t: Tuner, env: Env, obs: Obs, r: Run, p: Params)
    requires Shaped(t.search) && t.base.n > 0
    ensures WhileProbing(m, t, env, obs, r, p).t.window == t.window
  {
    hide FinishProbe, AddThrow, PolicyFor;
    AddTrialCounts(t, r);
    var a := AddTrial(t, r);
    FinishWindow(m, a, env, p);
    FinishWindow(m, a.(trial := a.trial.(misses := PolicyFor(env).rejectMisses)), env, p);
  }

  lemma FinishWindow(m: Libm, t: Tuner, env: Env, p: Params)
    requires Shaped(t.search) && t.base.n > 0 && t.trial.n > 0
    ensures FinishProbe(m, t, env, p).t.window == t.window
  {
    hide StartProbe, MarginSigma, KeepProbe, Differ, EarnedItsKeep, Grow, PassOn, Mean;
    ShapedAfter(t.search);
    StartProbeFrame(m, AcceptProbe(t, p), env, p);
  }

  lemma ConvergedWindow(m: Libm, t: Tuner, env: Env, obs: Obs, r: Run, p: Params)
    requires !Cluster(t, obs.result)
    ensures WindowKept(t, WhileConverged(m, t, env, obs, r, p).t)
  {
    hide LandingLaw, AddThrow, Cluster, ClampParams;
    LandingKeepsWindow(m, AddBase(t, r), env, p);
  }

  /** A back-off clears the miss log and nothing else of the window. */
  lemma ClusterWindow(m: Libm, t: Tuner, env: Env, obs: Obs, r: Run, p: Params)
    requires Shaped(t.search) && Cluster(t, obs.result)
    ensures WindowKept(t.(window := t.window.(missLog := [])), WhileMeasuring(m, t, env, obs, r, p).t)
    ensures WindowKept(t.(window := t.window.(missLog := [])), WhileConverged(m, t, env, obs, r, p).t)
  {
    hide AddThrow, ClampParams, BackOff, LandingLaw, RecentMisses;
  }

  lemma StepWindow(m: Libm, t: Tuner, e: Throw)
    requires Wf(t) && Usable(e.env, e.obs)
    ensures var u := Step(m, t, e).t.window;
            var log := (if StartsOver(t, e) then [] else t.window.missLog) + [e.obs.result != Pass];
            && u.errs == Last((if StartsOver(t, e) then [] else t.window.errs) + [e.obs.error.v], ERR_WINDOW)
            && u.missLog == (if Clears(t, e, log) then [] else log)
  {
    hide WhileMeasuring, WhileProbing, WhileConverged, ClampParams, Differ, WindowStats, KeepEditedFields, Clampf,
         RecentMisses;
    KeptFieldByField(e.live, t.seen, t.good);
    var o := NoticeEdit(t, e.live);
    var r := Run(e.live, e.obs.total.v, e.obs.error.v, e.obs.result != Pass);
    LogThrowKeepsWf(m, o.t, e.env, e.obs.result, r.err);
    LoggedAlike(m, o.t, e.env, e.obs.result, r.err);
    var a := LogThrow(m, o.t, e.env, e.obs.result, r.err);
    if a.mode == Probing {
      ProbingWindow(m, a, e.env, e.obs, r, o.p);
    } else if Cluster(a, e.obs.result) {
      ClusterWindow(m, a, e.env, e.obs, r, o.p);
    } else if a.mode == Measuring {
      MeasuringWindow(m, a, e.env, e.obs, r, o.p);
    } else {
      ConvergedWindow(m, a, e.env, e.obs, r, o.p);
    }
  }

  lemma LastOfLast(errs: seq<real>, v: real)
    ensures Last(Last(errs, ERR_WINDOW) + [v], ERR_WINDOW) == Last(errs + [v], ERR_WINDOW)
  {
  }

  /**
   In every run the window holds the last twenty errors of the counted throws since the tuner last started
   over, and the miss log holds every counted throw since then, or since a back-off last cleared it.
   */
  lemma {:induction false} WindowIsRecent(m: Libm, es: seq<Throw>)
    ensures var t := Play(m, FRESH, es);
            t.window.errs == Last(ErrorsSince(m, es), ERR_WINDOW) && t.window.missLog == MissesSince(m, es)
  {
    hide Step, Last, StartsOver, Clears;
    if es == [] {
      assert Last<real>([], ERR_WINDOW) == [] by { NothingLast(); }
    } else {
      var before, e := es[..|es| - 1], es[|es| - 1];
      WindowIsRecent(m, before);
      var t := Play(m, FRESH, before);
      if Usable(e.env, e.obs) {
        StepWindow(m, t, e);
        LastOfLast(ErrorsSince(m, before), e.obs.error.v);
      } else {
        NotUsable(m, t, e);
      }
    }
  }

  lemma NothingLast()
    ensures Last<real>([], ERR_WINDOW) == []
  {
  }

  /**
   In every run a first throw, or one after a noticed edit between probes, starts over from exactly that profile:
   it is the anchor, its clamp is what is measured, and of what came before nothing is left but the last verdict.
   */
  lemma EditStartsOver(m: Libm, es: seq<Throw>, e: Throw)
    requires var t := Play(m, FRESH, es); t.mode != Probing && Usable(e.env, e.obs) && StartsOver(t, e)
    ensures var u := Step(m, Play(m, FRESH, es), e).t;
            && u.init && u.mode == Measuring && u.anchor == e.live
            && u.good == u.seen == ClampParams(e.live, e.env, e.live)
            && u.window.errs == [e.obs.error.v] && u.window.missLog == [e.obs.result != Pass] && u.base.n == 1
            && !u.start.known && u.trial == EMPTY_ARM && u.search == AnchorTo(e.live, u.ledger).search
  {
    hide Play, WhileMeasuring, LogThrow, ClampParams, Differ, KeepEditedFields;
    var t := Play(m, FRESH, es);
    var r := Run(e.live, e.obs.total.v, e.obs.error.v, e.obs.result != Pass);
    var anchored := AnchorTo(e.live, t.ledger);
    assert NoticeEdit(t, e.live) == Outcome(anchored, e.live);
    LogThrowKeepsWf(m, anchored, e.env, e.obs.result, r.err);
    LoggedAlike(m, anchored, e.env, e.obs.result, r.err);
    FirstThrow(m, e.live, t.ledger, e.env, e.obs, r);
    FirstIsAll(m, e.live, t.ledger, e.env, e.obs, r);
    SettleKeeps(WhileMeasuring(m, LogThrow(m, anchored, e.env, e.obs.result, r.err), e.env, e.obs, r, e.live), e.env);
  }

  lemma FirstIsAll(m: Libm, p: Params, ledger: Ledger, env: Env, obs: Obs, r: Run)
    requires Wf(AnchorTo(p, ledger))
    ensures var u := LogThrow(m, AnchorTo(p, ledger), env, obs.result, r.err);
            var d := WhileMeasuring(m, u, env, obs, r, p).t;
            && d.init && d.window.errs == [r.err] && d.window.missLog == [obs.result != Pass] && d.base.n == 1
            && !d.start.known && d.trial == EMPTY_ARM && d.search == AnchorTo(p, ledger).search
  {
    hide WindowStats, ClampParams, BackOff, MoveLanding, StartProbe;
    var u := LogThrow(m, AnchorTo(p, ledger), env, obs.result, r.err);
    assert [] + [obs.result != Pass] == [obs.result != Pass] && [] + [r.err] == [r.err];
    assert !Cluster(u, obs.result) by {
      OneMissAtMost(obs.result != Pass);
    }
    assert u.window.errs == [r.err];
  }

  lemma SettleKeeps(o: Outcome, env: Env)
    requires o.t.mode == Measuring
    ensures var u := Settle(o, env).t;
            u == o.t.(good := u.seen, seen := u.seen) && u.seen == ClampParams(o.t.anchor, env, o.p)
  {
    hide ClampParams;
  }
}
