/** Which profiles the verdict that ends a search rests on, in one environment. */
module TunerJudged {
  import opened Numeric
  import opened TunerModel
  import opened TunerRuns
  import opened TunerLimits
  import opened TunerIsolation
  import opened TunerEdits
  import opened TunerNeverWorse

  /** All throws but the first ran on p, up to its landing speed. */
  predicate LaterRan(rs: seq<Run>, p: Params) {
    forall k :: 1 <= k < |rs| ==> SameButFineMin(rs[k].on, p)
  }

  /** So did those of every arm, for the profile that the arm stands for; a trial ran on p, the live candidate. */
  predicate Ran(t: Tuner, p: Params) {
    && (t.mode != Converged ==> LaterRan(t.ledger.baseRuns, t.good))
    && (t.mode == Probing ==> RanOn(t.ledger.trialRuns, p))
    && LaterRan(t.ledger.judged.runs, t.ledger.judged.good)
    && (t.start.known ==> LaterRan(t.ledger.opening.runs, t.ledger.opening.on))
  }

  /** What the clamp will leave alone, unless the arm has just begun. */
  predicate Steady(t: Tuner, env: Env, p: Params) {
    && (t.mode == Measuring ==> |t.ledger.baseRuns| <= 1 || (p == t.good && Fixed(t.anchor, env, p)))
    && (t.mode == Probing ==> t.ledger.trialRuns == [] || Fixed(t.anchor, env, p))
  }

  lemma AddBaseRan(t: Tuner, r: Run, p: Params)
    requires Ran(t, p) && (t.mode == Converged || SameButFineMin(r.on, t.good))
    ensures Ran(AddBase(t, r), p)
  {
    hide AddThrow;
  }

  lemma LandingRan(m: Libm, t: Tuner, env: Env)
    requires Ran(t, t.good) && t.mode == Measuring
    ensures var o := LandingLaw(m, t, env, t.good); Ran(o.t, o.p) && o.t.mode == Measuring
  {
    hide ClampParams, LandingDecision, Clampf;
  }

  lemma StartRan(m: Libm, t: Tuner, env: Env, p: Params)
    requires Shaped(t.search) && Ran(t, p) && t.mode == Measuring
    ensures var s := StartProbe(m, t, env, p); Ran(s.t, s.p) && (s.started ==> s.t.ledger.trialRuns == [])
  {
    hide PickKnob, MarginOk, Candidate, Mean;
  }

  lemma MonitorRan(t: Tuner, p: Params)
    requires Ran(t, p) && t.mode == Measuring
    ensures Ran(EnterMonitor(t, p).t, EnterMonitor(t, p).p)
  {
    hide Differ, EarnedItsKeep;
  }

  lemma MeasuringRan(m: Libm, t: Tuner, env: Env, obs: Obs, r: Run)
    requires Shaped(t.search) && t.mode == Measuring && Ran(t, t.good) && r.on == t.good
    requires Fixed(t.anchor, env, t.good)
    ensures var d := WhileMeasuring(m, t, env, obs, r, t.good); Ran(d.t, d.p) && Steady(d.t, env, d.p)
  {
    hide Fixed, LandingLaw, StartProbe, EnterMonitor, Cluster, AddThrow, ClampParams, BackOff, AddBase, LaterRan;
    if Cluster(t, obs.result) {
      EmptyRan(t.good);
    } else {
      var a := AddBase(t, r);
      AddBaseRan(t, r, t.good);
      AddedFrame(t, r);
      LandingRan(m, a, env);
      LandingKeepsFixed(m, a, env);
      LandingLawKeepsSearch(m, a, env, t.good);
      var o := SteerLanding(m, a, env, obs.result, t.good);
      var u := if o.t.wait > 0 then o.t.(wait := o.t.wait - 1) else o.t;
      StartProbeFrame(m, u, env, o.p);
      StartRan(m, u, env, o.p);
      var s := StartProbe(m, u, env, o.p);
      EnterMonitorTally(s.t, s.p);
      if !s.started {
        MonitorRan(s.t, s.p);
      }
    }
  }

  lemma EmptyRan(p: Params)
    ensures forall q :: LaterRan([], q)
  {
  }

  lemma AddedFrame(t: Tuner, r: Run)
    ensures var a := AddBase(t, r); a.mode == t.mode && a.good == t.good && a.anchor == t.anchor && a.search == t.search
  {
  }

  lemma ProbingRan(m: Libm, t: Tuner, env: Env, obs: Obs, r: Run, p: Params)
    requires Wf(t) && t.mode == Probing && Ran(t, p) && r.on == p
    requires Fixed(t.anchor, env, t.good) && Fixed(t.anchor, env, p)
    ensures var d := WhileProbing(m, t, env, obs, r, p); Ran(d.t, d.p) && Steady(d.t, env, d.p)
  {
    hide Fixed, FinishProbe, AddThrow, PolicyFor;
    AddTrialCounts(t, r);
    var a := AddTrial(t, r);
    FinishRan(m, a, env, p);
    FinishRan(m, a.(trial := a.trial.(misses := PolicyFor(env).rejectMisses)), env, p);
  }

  lemma FinishRan(m: Libm, t: Tuner, env: Env, p: Params)
    requires Shaped(t.search) && t.base.n > 0 && t.trial.n > 0 && t.mode == Probing && Ran(t, p)
    requires Fixed(t.anchor, env, t.good) && Fixed(t.anchor, env, p)
    ensures var d := FinishProbe(m, t, env, p); Ran(d.t, d.p) && Steady(d.t, env, d.p)
  {
    hide Fixed, StartProbe, EnterMonitor, MarginSigma, KeepProbe, Mean, Grow, PassOn, PolicyFor;
    ShapedAfter(t.search);
    var a := AcceptProbe(t, p);
    StartProbeFrame(m, a, env, p);
    StartRan(m, a, env, p);
    var s := StartProbe(m, a, env, p);
    EnterMonitorTally(s.t, s.t.good);
    if !s.started {
      MonitorRan(s.t, s.t.good);
    }
    var u := RejectProbe(t);
    EnterMonitorTally(u, u.good);
    MonitorRan(u, u.good);
  }

  /** Verdict and start are as before. */
  predicate SameVerdict(t: Tuner, u: Tuner) {
    u.ledger.judged == t.ledger.judged && u.ledger.opening == t.ledger.opening && u.start == t.start
  }

  lemma SteadyKeepsVerdict(m: Libm, t: Tuner, env: Env, coarseRanLong: bool, r: Run, p: Params)
    ensures SameVerdict(t, NudgeForOver(t, env, coarseRanLong, p).t) && SameVerdict(t, AddBase(t, r))
    ensures SameVerdict(t, LandingLaw(m, t, env, p).t) && SameVerdict(t, DriftCheck(t, env, p).t)
    ensures NudgeForOver(t, env, coarseRanLong, p).t.mode == t.mode
    ensures AddBase(t, r).mode == t.mode && LandingLaw(m, t, env, p).t.mode == t.mode
  {
    hide ClampParams, LandingDecision, BackOff, BigMove, Mean, AddThrow;
  }

  lemma DriftEmpties(t: Tuner, env: Env, p: Params)
    requires t.mode == Converged
    ensures var u := DriftCheck(t, env, p).t;
            u.mode == Converged || (u.mode == Measuring && u.ledger.baseRuns == [])
  {
    hide ClampParams, Mean;
  }

  lemma ConvergedRan(m: Libm, t: Tuner, env: Env, obs: Obs, r: Run, p: Params)
    requires t.mode == Converged && Ran(t, p)
    ensures var d := WhileConverged(m, t, env, obs, r, p); Ran(d.t, d.p) && Steady(d.t, env, d.p)
  {
    hide NudgeForOver, AddBase, LandingLaw, DriftCheck, Cluster, Fixed, SameButFineMin;
    SteadyKeepsVerdict(m, t, env, obs.coarseRanLong, r, p);
    var o := if Cluster(t, obs.result) then NudgeForOver(t, env, obs.coarseRanLong, p) else Outcome(t, p);
    SteadyKeepsVerdict(m, o.t, env, obs.coarseRanLong, r, o.p);
    var a := AddBase(o.t, r);
    SteadyKeepsVerdict(m, a, env, obs.coarseRanLong, r, o.p);
    var q := SteerLanding(m, a, env, obs.result, o.p);
    SteadyKeepsVerdict(m, q.t, env, obs.coarseRanLong, r, q.p);
    DriftEmpties(q.t, env, q.p);
  }

  lemma DispatchRan(m: Libm, t: Tuner, env: Env, obs: Obs, r: Run, p: Params)
    requires Wf(t) && Ran(t, p) && r.on == p && Fixed(t.anchor, env, t.good) && Fixed(t.anchor, env, p)
    requires t.mode != Probing ==> p == t.good
    ensures var d := Dispatch(m, t, env, obs, r, p); Ran(d.t, d.p) && Steady(d.t, env, d.p)
  {
    hide WhileMeasuring, WhileProbing, WhileConverged, Fixed, Ran, Steady;
    match t.mode {
      case Measuring => MeasuringRan(m, t, env, obs, r);
      case Probing => ProbingRan(m, t, env, obs, r, p);
      case Converged => ConvergedRan(m, t, env, obs, r, p);
    }
  }

  lemma LoggedRan(m: Libm, t: Tuner, env: Env, result: Verdict, err: real, p: Params)
    requires Ran(t, p)
    ensures Ran(LogThrow(m, t, env, result, err), p)
  {
    hide WindowStats, Clampf, SameButFineMin;
  }

  lemma SettledRan(d: Outcome, env: Env)
    requires Ran(d.t, d.p) && Steady(d.t, env, d.p)
    ensures var o := Settle(d, env); Ran(o.t, o.p) && o.t.seen == o.p
  {
    hide ClampParams, SameButFineMin;
  }

  // ----- over a run

  predicate RanState(t: Tuner) {
    && (t.init ==> Ran(t, t.seen))
    && LaterRan(t.ledger.judged.runs, t.ledger.judged.good)
  }

  lemma UneditedRan(m: Libm, t: Tuner, e: Throw)
    requires Wf(t) && t.init && InLimits(t, e.env) && GoodInLimits(t, e.env) && RanState(t)
    requires e.live == t.seen && Usable(e.env, e.obs)
    ensures RanState(Step(m, t, e).t)
  {
    hide Dispatch, LogThrow, Settle, Fixed, Ran, Steady, Differ, LaterRan;
    NoDifference(t.seen);
    var r := Run(e.live, e.obs.total.v, e.obs.error.v, e.obs.result != Pass);
    LogThrowKeepsWf(m, t, e.env, e.obs.result, r.err);
    LoggedAlike(m, t, e.env, e.obs.result, r.err);
    LoggedRan(m, t, e.env, e.obs.result, r.err, t.seen);
    var a := LogThrow(m, t, e.env, e.obs.result, r.err);
    DispatchRan(m, a, e.env, e.obs, r, t.seen);
    SettledRan(Dispatch(m, a, e.env, e.obs, r, t.seen), e.env);
    RanIsJudged(Step(m, t, e).t);
  }

  lemma RanIsJudged(t: Tuner)
    requires Ran(t, t.seen)
    ensures LaterRan(t.ledger.judged.runs, t.ledger.judged.good)
  {
  }

  /** The throw that starts the tuner over is the first of its baseline. */
  lemma EditedRan(m: Libm, t: Tuner, e: Throw)
    requires Wf(t) && Usable(e.env, e.obs) && (!t.init || Differ(e.live, t.seen)) && RanState(t)
    ensures RanState(Step(m, t, e).t)
  {
    hide WhileMeasuring, LogThrow, ClampParams, Differ, KeepEditedFields;
    KeptFieldByField(e.live, t.seen, t.good);
    var q := NoticeEdit(t, e.live).p;
    assert NoticeEdit(t, e.live).t == AnchorTo(q, t.ledger);
    var r := Run(e.live, e.obs.total.v, e.obs.error.v, e.obs.result != Pass);
    FirstThrow(m, q, t.ledger, e.env, e.obs, r);
    LoggedAlike(m, AnchorTo(q, t.ledger), e.env, e.obs.result, r.err);
    FirstRuns(m, q, t.ledger, e.env, e.obs, r);
  }

  lemma FirstRuns(m: Libm, p: Params, ledger: Ledger, env: Env, obs: Obs, r: Run)
    requires Wf(AnchorTo(p, ledger))
    ensures var u := LogThrow(m, AnchorTo(p, ledger), env, obs.result, r.err);
            var d := WhileMeasuring(m, u, env, obs, r, p).t;
            |d.ledger.baseRuns| == 1 && d.ledger.judged == ledger.judged && !d.start.known
  {
    hide WindowStats, ClampParams, BackOff, MoveLanding, StartProbe;
    var u := LogThrow(m, AnchorTo(p, ledger), env, obs.result, r.err);
    assert [] + [obs.result != Pass] == [obs.result != Pass];
    assert !Cluster(u, obs.result) by {
      OneMissAtMost(obs.result != Pass);
    }
    assert |u.window.errs| <= 1;
  }

  lemma {:induction false} RanAlways(m: Libm, env: Env, es: seq<Throw>)
    requires OneEnv(es, env) && AllNoticed(m, es)
    ensures RanState(Play(m, FRESH, es))
  {
    hide Observe, InLimits, GoodInLimits, RanState;
    if es == [] {
      assert RanState(FRESH) by { FreshRan(); }
    } else {
      var n := |es| - 1;
      var t, e := Play(m, FRESH, es[..n]), es[n];
      assert OneEnv(es[..n], env);
      NoticedPrefix(m, es, n);
      RanAlways(m, env, es[..n]);
      GoodInLimitsAlways(m, env, es[..n]);
      InLimitsAlways(m, env, es[..n]);
      if !Usable(e.env, e.obs) {
        NotUsable(m, t, e);
      } else if t.init && e.live == t.seen {
        UneditedRan(m, t, e);
      } else {
        EditedRan(m, t, e);
      }
    }
  }

  lemma FreshRan()
    ensures RanState(FRESH)
  {
  }

  /**
   In one environment, with any edits that the tuner notices: the last verdict, the start that it was held
   against and the baseline now being measured each rest on throws of one profile up to its landing speed,
   the judged, the opening and the accepted one. The first throw of each may be the exception: it can be the
   throw after the edit, on a profile that the clamp had yet to see.
   */
  lemma VerdictRestsOnItsProfile(m: Libm, env: Env, es: seq<Throw>)
    requires OneEnv(es, env) && AllNoticed(m, es) && Play(m, FRESH, es).init
    ensures var t := Play(m, FRESH, es);
            && LaterRan(t.ledger.judged.runs, t.ledger.judged.good)
            && (t.start.known ==> LaterRan(t.ledger.opening.runs, t.ledger.opening.on))
            && (t.mode != Converged ==> LaterRan(t.ledger.baseRuns, t.good))
            && (t.mode == Probing ==> RanOn(t.ledger.trialRuns, t.seen))
  {
    RanAlways(m, env, es);
  }
}
