/**
 The ledger and the tally of probes only record. Nothing the tuner does depends on them: two tuners that
 agree in everything else go on agreeing, and hand back the same profiles.
 */
module TunerLedger {
  import opened Numeric
  import opened TunerModel
  import opened TunerRuns

  /** The same memory, whatever the ledgers and the tallies say. */
  predicate Same(t: Tuner, u: Tuner) {
    u == t.(search := t.search.(tally := u.search.tally), ledger := u.ledger)
  }

  predicate SameSearch(s: Search, r: Search) {
    r == s.(tally := r.tally)
  }

  lemma {:induction false} PickSame(s: Search, r: Search, anchor: Params, good: Params, env: Env, marginOk: bool,
                                    tries: nat)
    requires SameSearch(s, r) && Shaped(s) && tries <= KNOBS
    ensures var a := PickKnob(s, anchor, good, env, marginOk, tries);
            var b := PickKnob(r, anchor, good, env, marginOk, tries);
            SameSearch(a.s, b.s) && a.found == b.found
    decreases KNOBS - tries
  {
    hide PickKnob, Candidate, Differ, Pin, IsRisky;
    PickUnfolds(s, anchor, good, env, marginOk, tries);
    PickUnfolds(r, anchor, good, env, marginOk, tries);
    if tries < KNOBS {
      var k := (s.knob + tries) % KNOBS;
      SameCandidate(s, r, anchor, good, env, k);
      PinSame(s, r, k);
      if s.done[k] || (IsRisky(k, s.dir[k]) && !marginOk) {
        PickSame(s, r, anchor, good, env, marginOk, tries + 1);
      } else if !Differ(Candidate(s, anchor, good, env, k), good) {
        PickSame(Pin(s, k), Pin(r, k), anchor, good, env, marginOk, tries + 1);
      }
    }
  }

  lemma PinSame(s: Search, r: Search, k: nat)
    requires SameSearch(s, r) && Shaped(s) && k < KNOBS
    ensures SameSearch(Pin(s, k), Pin(r, k)) && Shaped(Pin(s, k))
  {
  }

  predicate SameOutcome(a: Outcome, b: Outcome) {
    Same(a.t, b.t) && a.p == b.p
  }

  /** The same throw, but for the profile it is recorded to have run on. */
  predicate SameSeen(r: Run, s: Run) {
    r.total == s.total && r.err == s.err && r.miss == s.miss
  }

  lemma LogSame(m: Libm, t: Tuner, u: Tuner, env: Env, result: Verdict, err: real)
    requires Same(t, u)
    ensures Same(LogThrow(m, t, env, result, err), LogThrow(m, u, env, result, err))
  {
    hide WindowStats, Clampf;
  }

  lemma AddSame(t: Tuner, u: Tuner, r: Run, s: Run)
    requires Same(t, u) && SameSeen(r, s)
    ensures Same(AddBase(t, r), AddBase(u, s)) && Same(AddTrial(t, r), AddTrial(u, s))
  {
    hide AddThrow;
  }

  lemma NudgeSame(t: Tuner, u: Tuner, env: Env, coarseRanLong: bool, p: Params)
    requires Same(t, u)
    ensures SameOutcome(NudgeForOver(t, env, coarseRanLong, p), NudgeForOver(u, env, coarseRanLong, p))
  {
    hide ClampParams, BackOff;
  }

  lemma LandingSame(m: Libm, t: Tuner, u: Tuner, env: Env, p: Params)
    requires Same(t, u)
    ensures SameOutcome(LandingLaw(m, t, env, p), LandingLaw(m, u, env, p))
  {
    hide LandingDecision, BigMove, ClampParams;
    match LandingDecision(m, t.window, env)
    case Keep(_) =>
    case Scale(r) => MoveSame(t.(window := t.window.(landTick := 0)), u.(window := u.window.(landTick := 0)), env,
        r, p);
  }

  lemma MoveSame(t: Tuner, u: Tuner, env: Env, r: real, p: Params)
    requires Same(t, u)
    ensures SameOutcome(MoveLanding(t, env, r, p), MoveLanding(u, env, r, p))
  {
    hide BigMove;
  }

  lemma StartSame(m: Libm, t: Tuner, u: Tuner, env: Env, p: Params)
    requires Same(t, u) && Shaped(t.search)
    ensures var a, b := StartProbe(m, t, env, p), StartProbe(m, u, env, p);
            Same(a.t, b.t) && a.p == b.p && a.started == b.started
  {
    hide PickKnob, ClampParams, ApplyKnob, MarginOk, Mean, PolicyFor;
    var (v, settled) := RecordStart(t, env);
    if !settled {
      var w := RecordStart(u, env).0;
      PickSame(v.search, w.search, v.anchor, v.good, env, MarginOk(m, v.window.errs, env), 0);
    }
  }

  lemma MonitorSame(t: Tuner, u: Tuner, p: Params)
    requires Same(t, u)
    ensures SameOutcome(EnterMonitor(t, p), EnterMonitor(u, p))
  {
    hide Differ, EarnedItsKeep;
  }

  lemma DecideSame(t: Tuner, u: Tuner, p: Params)
    requires Same(t, u) && Shaped(t.search)
    ensures Same(AcceptProbe(t, p), AcceptProbe(u, p)) && Same(RejectProbe(t), RejectProbe(u))
    ensures Shaped(AcceptProbe(t, p).search) && Shaped(RejectProbe(t).search)
  {
    hide Mean;
  }

  lemma FinishSame(m: Libm, t: Tuner, u: Tuner, env: Env, p: Params)
    requires Same(t, u) && Shaped(t.search) && t.base.n > 0 && t.trial.n > 0
    ensures SameOutcome(FinishProbe(m, t, env, p), FinishProbe(m, u, env, p))
  {
    hide KeepProbe, MarginSigma, StartProbe, EnterMonitor, AcceptProbe, RejectProbe, PolicyFor;
    DecideSame(t, u, p);
    var a, b := AcceptProbe(t, p), AcceptProbe(u, p);
    StartSame(m, a, b, env, p);
    var s, w := StartProbe(m, a, env, p), StartProbe(m, b, env, p);
    MonitorSame(s.t, w.t, s.t.good);
    MonitorSame(RejectProbe(t), RejectProbe(u), RejectProbe(t).good);
  }

  lemma SteerSame(m: Libm, t: Tuner, u: Tuner, env: Env, result: Verdict, p: Params)
    requires Same(t, u)
    ensures SameOutcome(SteerLanding(m, t, env, result, p), SteerLanding(m, u, env, result, p))
  {
    hide LandingLaw;
    LandingSame(m, t, u, env, p);
  }

  lemma ReadySame(m: Libm, t: Tuner, u: Tuner, env: Env, p: Params)
    requires Same(t, u) && Shaped(t.search)
    ensures SameOutcome(ProbeIfReady(m, t, env, p), ProbeIfReady(m, u, env, p))
  {
    hide StartProbe, EnterMonitor;
    var a := if t.wait > 0 then t.(wait := t.wait - 1) else t;
    var b := if u.wait > 0 then u.(wait := u.wait - 1) else u;
    StartSame(m, a, b, env, p);
    MonitorSame(StartProbe(m, a, env, p).t, StartProbe(m, b, env, p).t, StartProbe(m, a, env, p).p);
  }

  lemma MeasuringSame(m: Libm, t: Tuner, u: Tuner, env: Env, obs: Obs, r: Run, s: Run, p: Params)
    requires Same(t, u) && Shaped(t.search) && SameSeen(r, s)
    ensures SameOutcome(WhileMeasuring(m, t, env, obs, r, p), WhileMeasuring(m, u, env, obs, s, p))
  {
    hide SteerLanding, ProbeIfReady, AddBase, NudgeForOver;
    NudgeSame(t, u, env, obs.coarseRanLong, p);
    AddSame(t, u, r, s);
    SteerSame(m, AddBase(t, r), AddBase(u, s), env, obs.result, p);
    assert Shaped(SteerLanding(m, AddBase(t, r), env, obs.result, p).t.search) by {
      SteerKeepsShape(m, t, r, env, obs.result, p);
    }
    var o := SteerLanding(m, AddBase(t, r), env, obs.result, p);
    ReadySame(m, o.t, SteerLanding(m, AddBase(u, s), env, obs.result, p).t, env, o.p);
  }

  lemma SteerKeepsShape(m: Libm, t: Tuner, r: Run, env: Env, result: Verdict, p: Params)
    requires Shaped(t.search)
    ensures Shaped(SteerLanding(m, AddBase(t, r), env, result, p).t.search)
  {
    hide LandingDecision, ClampParams, BigMove, AddThrow;
  }

  lemma ProbingSame(m: Libm, t: Tuner, u: Tuner, env: Env, obs: Obs, r: Run, s: Run, p: Params)
    requires Same(t, u) && Shaped(t.search) && SameSeen(r, s) && t.base.n > 0
    ensures SameOutcome(WhileProbing(m, t, env, obs, r, p), WhileProbing(m, u, env, obs, s, p))
  {
    hide FinishProbe, AddThrow, PolicyFor;
    AddSame(t, u, r, s);
    var pol := PolicyFor(env);
    var a, b := AddTrial(t, r), AddTrial(u, s);
    AddTrialCounts(t, r);
    var gross := obs.result == Over && r.err > 2.0 * env.bracket;
    var c := if gross then a.(trial := a.trial.(misses := pol.rejectMisses)) else a;
    var d := if gross then b.(trial := b.trial.(misses := pol.rejectMisses)) else b;
    FinishSame(m, c, d, env, p);
  }

  lemma DriftSame(t: Tuner, u: Tuner, env: Env, p: Params)
    requires Same(t, u)
    ensures SameOutcome(DriftCheck(t, env, p), DriftCheck(u, env, p))
  {
    hide ClampParams, Mean;
  }

  lemma ConvergedSame(m: Libm, t: Tuner, u: Tuner, env: Env, obs: Obs, r: Run, s: Run, p: Params)
    requires Same(t, u) && SameSeen(r, s)
    ensures SameOutcome(WhileConverged(m, t, env, obs, r, p), WhileConverged(m, u, env, obs, s, p))
  {
    hide SteerLanding, DriftCheck, AddBase, NudgeForOver;
    NudgeSame(t, u, env, obs.coarseRanLong, p);
    var o := if Cluster(t, obs.result) then NudgeForOver(t, env, obs.coarseRanLong, p) else Outcome(t, p);
    var w := if Cluster(u, obs.result) then NudgeForOver(u, env, obs.coarseRanLong, p) else Outcome(u, p);
    AddSame(o.t, w.t, r, s);
    SteerSame(m, AddBase(o.t, r), AddBase(w.t, s), env, obs.result, o.p);
    var q := SteerLanding(m, AddBase(o.t, r), env, obs.result, o.p);
    DriftSame(q.t, SteerLanding(m, AddBase(w.t, s), env, obs.result, o.p).t, env, q.p);
  }

  lemma DispatchSame(m: Libm, t: Tuner, u: Tuner, env: Env, obs: Obs, r: Run, s: Run, p: Params)
    requires Same(t, u) && Shaped(t.search) && (t.mode == Probing ==> t.base.n > 0) && SameSeen(r, s)
    ensures SameOutcome(Dispatch(m, t, env, obs, r, p), Dispatch(m, u, env, obs, s, p))
  {
    hide WhileMeasuring, WhileProbing, WhileConverged;
    match t.mode {
      case Measuring => MeasuringSame(m, t, u, env, obs, r, s, p);
      case Probing => ProbingSame(m, t, u, env, obs, r, s, p);
      case Converged => ConvergedSame(m, t, u, env, obs, r, s, p);
    }
  }

  lemma NoticeSame(t: Tuner, u: Tuner, p: Params)
    requires Same(t, u)
    ensures SameOutcome(NoticeEdit(t, p), NoticeEdit(u, p))
  {
    hide Differ, KeepEditedFields;
  }

  lemma SettleSame(a: Outcome, b: Outcome, env: Env)
    requires SameOutcome(a, b)
    ensures SameOutcome(Settle(a, env), Settle(b, env))
  {
    hide ClampParams;
  }

  /** No throw tells two tuners apart that differ in their ledgers. */
  lemma LedgerIsNotRead(m: Libm, t: Tuner, u: Tuner, e: Throw)
    requires Wf(t) && Wf(u) && Same(t, u)
    ensures SameOutcome(Step(m, t, e), Step(m, u, e))
  {
    hide NoticeEdit, LogThrow, Dispatch, Settle;
    if Usable(e.env, e.obs) {
      NoticeSame(t, u, e.live);
      var a, b := NoticeEdit(t, e.live), NoticeEdit(u, e.live);
      var r := Run(e.live, e.obs.total.v, e.obs.error.v, e.obs.result != Pass);
      LogSame(m, a.t, b.t, e.env, e.obs.result, r.err);
      NoticedIsWf(t, e.live);
      LogThrowKeepsWf(m, a.t, e.env, e.obs.result, r.err);
      var c, d := LogThrow(m, a.t, e.env, e.obs.result, r.err), LogThrow(m, b.t, e.env, e.obs.result, r.err);
      DispatchSame(m, c, d, e.env, e.obs, r, r, a.p);
      SettleSame(Dispatch(m, c, e.env, e.obs, r, a.p), Dispatch(m, d, e.env, e.obs, r, a.p), e.env);
    }
  }

  lemma NoticedIsWf(t: Tuner, p: Params)
    requires Wf(t)
    ensures Wf(NoticeEdit(t, p).t)
  {
    hide Differ, KeepEditedFields;
  }
}
