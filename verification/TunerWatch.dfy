/** When a settled tuner searches again, told from the throws that it has watched. */
module TunerWatch {
  import opened Numeric
  import opened TunerModel
  import opened TunerRuns
  import opened TunerLimits
  import opened TunerHistory
  import opened TunerEdits
  import opened TunerNeverWorse
  import opened TunerWindow
  import opened TunerVerdict
  import opened TunerOpening
  import St = Statistics

  const WATCHED: nat := 16

  function RunOf(e: Throw): Run
    requires Usable(e.env, e.obs)
  {
    Run(e.live, e.obs.total.v, e.obs.error.v, e.obs.result != Pass)
  }

  /** A profile with its landing speed scaled, inside the limits. */
  function Scaled(anchor: Params, env: Env, p: Params, factor: real): Params {
    ClampParams(anchor, env, p.(fineMin := p.fineMin * factor))
  }

  predicate FarFrom(before: real, after: real) {
    before > 0.0 && Abs(after / before - 1.0) > 0.05
  }

  /** A pass after which the landing speed is set by more than a twentieth of itself. */
  predicate SteersFar(m: Libm, t: Tuner, e: Throw)
    requires Usable(e.env, e.obs)
  {
    var d := LandingDecision(m, LogThrow(m, t, e.env, e.obs.result, e.obs.error.v).window, e.env);
    && e.obs.result == Pass && d.Scale?
    && FarFrom(e.live.fineMin, Scaled(t.anchor, e.env, e.live, d.factor).fineMin)
  }

  /** The throws watched since the last look, and the mean time that they are held against; zero for none yet. */
  datatype Watch = Watch(runs: seq<Run>, ref: real)

  function MeanTime(rs: seq<Run>): real
    requires rs != []
  {
    St.Sum(Times(rs)) / |rs| as real
  }

  /** A back-off starts the watch afresh, with the throw that caused it as the first. */
  function WithThis(t: Tuner, e: Throw, sofar: seq<Run>): (rs: seq<Run>)
    requires Usable(e.env, e.obs)
    ensures rs != []
  {
    (if Clears(t, e, t.window.missLog + [e.obs.result != Pass]) then [] else sofar) + [RunOf(e)]
  }

  predicate TooManyMisses(rs: seq<Run>) {
    MissesOf(rs) >= 3
  }

  predicate Slower(rs: seq<Run>, ref: real)
    requires rs != []
  {
    ref > 0.0 && MeanTime(rs) > 1.15 * ref + 0.3
  }

  /** Watching on after a throw that was no edit. */
  function WatchOn(m: Libm, t: Tuner, e: Throw, w: Watch): Watch
    requires Usable(e.env, e.obs)
  {
    var rs := WithThis(t, e, w.runs);
    if SteersFar(m, t, e) then Watch([], w.ref)
    else if |rs| < WATCHED then Watch(rs, w.ref)
    else if TooManyMisses(rs) then Watch([], w.ref)
    else if w.ref <= 0.0 then Watch([], MeanTime(rs))
    else if Slower(rs, w.ref) then Watch([], 0.0)
    else Watch([], w.ref)
  }

  /** The start became known with this throw, and it meets the time goal. */
  predicate GoalClosesSearch(t: Tuner, u: Tuner, env: Env) {
    && !t.start.known && u.start.known && |u.ledger.opening.runs| == ARM_N
    && 0.0 < env.timeGoal && MeanTime(u.ledger.opening.runs) <= env.timeGoal
  }

  /**
   The watch over a run. The reference is the start's mean where the time goal closed the search; else the mean
   of the first sixteen throws watched since it was last none. A drift makes it none, a run of misses does not.
   */
  function Watched(m: Libm, es: seq<Throw>): Watch {
    if es == [] then Watch([], 0.0)
    else
      var before, e := es[..|es| - 1], es[|es| - 1];
      var t, w := Play(m, FRESH, before), Watched(m, before);
      if !Usable(e.env, e.obs) then w
      else if StartsOver(t, e) then Watch([], 0.0)
      else if t.mode == Converged then WatchOn(m, t, e, w)
      else
        var u := Play(m, FRESH, es);
        Watch([], if GoalClosesSearch(t, u, e.env) then MeanTime(u.ledger.opening.runs) else w.ref)
  }

  // ----- one throw while settled

  lemma MoveOn(t: Tuner, env: Env, r: real, p: Params)
    ensures var o := MoveLanding(t, env, r, p);
            && o.p == Scaled(t.anchor, env, p, r) && o.t.mode == t.mode && o.t.monitorRef == t.monitorRef
            && o.t.anchor == t.anchor
            && (if FarFrom(p.fineMin, o.p.fineMin) then o.t.base == EMPTY_ARM && o.t.ledger.baseRuns == []
                else o.t.base == t.base && o.t.ledger.baseRuns == t.ledger.baseRuns)
  {
    hide ClampParams;
    assert ScaleLanding(p, r) == p.(fineMin := p.fineMin * r);
  }

  /** What the landing law leaves of tuner and profile. */
  lemma LandingOn(m: Libm, t: Tuner, env: Env, p: Params)
    ensures var o := LandingLaw(m, t, env, p);
            var d := LandingDecision(m, t.window, env);
            && o.t.mode == t.mode && o.t.monitorRef == t.monitorRef && o.t.anchor == t.anchor
            && (d.Keep? ==> o.p == p) && (d.Scale? ==> o.p == Scaled(t.anchor, env, p, d.factor))
            && (if d.Scale? && FarFrom(p.fineMin, o.p.fineMin)
                then o.t.base == EMPTY_ARM && o.t.ledger.baseRuns == []
                else o.t.base == t.base && o.t.ledger.baseRuns == t.ledger.baseRuns)
  {
    hide ClampParams, LandingDecision, MoveLanding, Scaled, FarFrom;
    var d := LandingDecision(m, t.window, env);
    if d.Scale? {
      MoveOn(t.(window := t.window.(landTick := 0)), env, d.factor, p);
    }
  }

  lemma DriftOn(t: Tuner, env: Env, p: Params)
    requires t.mode == Converged && t.base == ArmOf(t.ledger.baseRuns) && |t.ledger.baseRuns| <= WATCHED
    ensures var o := DriftCheck(t, env, p);
            var rs := t.ledger.baseRuns;
            if |rs| < WATCHED then o == Outcome(t, p)
            else if TooManyMisses(rs) then
              && o.t.mode == Measuring && o.t.monitorRef == t.monitorRef && o.t.ledger.baseRuns == []
              && o.p == ClampParams(t.anchor, env, p.(handoff := p.handoff * 1.15, fineMin := p.fineMin * 0.90))
              && o.t.anchor == t.anchor
            else if Slower(rs, t.monitorRef) then
              && o.t.mode == Measuring && o.t.monitorRef == 0.0 && o.t.ledger.baseRuns == [] && o.p == p
              && o.t.anchor == t.anchor
            else
              && o.t == t.(monitorRef := if t.monitorRef <= 0.0 then MeanTime(rs) else t.monitorRef, base := EMPTY_ARM,
                           ledger := o.t.ledger)
              && o.t.ledger.baseRuns == [] && o.p == p
  {
    hide ClampParams, MissesOf, ArmOf, Times;
    ArmHolds(t.ledger.baseRuns);
  }

  /** A back-off empties the baseline. */
  lemma NudgeOn(t: Tuner, env: Env, coarseRanLong: bool, p: Params)
    ensures var o := NudgeForOver(t, env, coarseRanLong, p);
            o.t == t.(good := o.p, base := EMPTY_ARM, window := t.window.(missLog := []), ledger := o.t.ledger)
            && o.t.ledger.baseRuns == []
  {
    hide ClampParams, BackOff;
  }

  lemma AddedOn(t: Tuner, r: Run)
    requires t.base == ArmOf(t.ledger.baseRuns)
    ensures var a := AddBase(t, r);
            && a == t.(base := a.base, ledger := a.ledger) && a.ledger.baseRuns == t.ledger.baseRuns + [r]
            && a.base == ArmOf(a.ledger.baseRuns)
  {
    hide AddThrow;
    var rs := t.ledger.baseRuns;
    assert (rs + [r])[..|rs|] == rs;
  }

  lemma WhileSettled(m: Libm, t: Tuner, e: Throw)
    requires Wf(t) && t.mode == Converged && Usable(e.env, e.obs) && !StartsOver(t, e)
    requires t.base == ArmOf(t.ledger.baseRuns) && |t.ledger.baseRuns| < WATCHED
    ensures var a := LogThrow(m, t, e.env, e.obs.result, e.obs.error.v);
            var d := WhileConverged(m, a, e.env, e.obs, RunOf(e), e.live);
            var w := WatchOn(m, t, e, Watch(t.ledger.baseRuns, t.monitorRef));
            var rs := WithThis(t, e, t.ledger.baseRuns);
            && d.t.ledger.baseRuns == w.runs && d.t.monitorRef == w.ref && |w.runs| < WATCHED
            && (d.t.mode != Converged <==>
                  !SteersFar(m, t, e) && |rs| == WATCHED && (TooManyMisses(rs) || Slower(rs, t.monitorRef)))
            && d.t.anchor == t.anchor
            && (d.t.mode != Converged && e.obs.result != Pass && !Clears(t, e, t.window.missLog + [true]) ==>
                  d.p == if TooManyMisses(rs)
                         then ClampParams(t.anchor, e.env,
                                          e.live.(handoff := e.live.handoff * 1.15, fineMin := e.live.fineMin * 0.90))
                         else e.live)
  {
    hide ClampParams, LandingDecision, LandingLaw, DriftCheck, NudgeForOver, AddBase, ArmOf, MissesOf, Times,
         RecentMisses, Scaled, FarFrom, LogThrow;
    var r := RunOf(e);
    var a := LogThrow(m, t, e.env, e.obs.result, e.obs.error.v);
    LoggedOn(m, t, e.env, e.obs.result, e.obs.error.v);
    assert Cluster(a, e.obs.result) == Clears(t, e, a.window.missLog);
    NudgeOn(a, e.env, e.obs.coarseRanLong, e.live);
    assert ArmOf([]) == EMPTY_ARM by { EmptyArm(); }
    var o := if Cluster(a, e.obs.result) then NudgeForOver(a, e.env, e.obs.coarseRanLong, e.live)
        else Outcome(a, e.live);
    AddedOn(o.t, r);
    var b := AddBase(o.t, r);
    LandingOn(m, b, e.env, o.p);
    var q := SteerLanding(m, b, e.env, e.obs.result, o.p);
    DriftOn(q.t, e.env, q.p);
  }

  lemma LoggedOn(m: Libm, t: Tuner, env: Env, result: Verdict, err: real)
    ensures var a := LogThrow(m, t, env, result, err);
            && a.window.missLog == t.window.missLog + [result != Pass] && a.monitorRef == t.monitorRef
            && a.base == t.base && a.ledger.baseRuns == t.ledger.baseRuns && a.mode == t.mode && a.anchor == t.anchor
            && a.start == t.start && a.search == t.search && a.ledger.opening == t.ledger.opening
  {
    hide WindowStats;
  }

  // ----- the reference

  lemma ProbeKeepsRef(m: Libm, t: Tuner, env: Env, p: Params)
    requires Shaped(t.search)
    ensures var s := StartProbe(m, t, env, p);
            var goal := !t.start.known && t.base.n >= ARM_N && 0.0 < env.timeGoal && Mean(t.base) <= env.timeGoal;
            s.t.monitorRef == if goal then Mean(t.base) else t.monitorRef
  {
    hide PickKnob, MarginOk, Candidate, Mean;
  }

  lemma MonitorKeepsRef(t: Tuner, p: Params)
    ensures EnterMonitor(t, p).t.monitorRef == t.monitorRef && EnterMonitor(t, p).t.ledger.baseRuns == []
    ensures EnterMonitor(t, p).t.start == t.start && EnterMonitor(t, p).t.ledger.opening == t.ledger.opening
  {
    hide Differ, EarnedItsKeep;
  }

  lemma FinishKeepsRef(m: Libm, t: Tuner, env: Env, p: Params)
    requires Shaped(t.search) && t.base.n > 0 && t.trial.n > 0 && t.start.known
    ensures var o := FinishProbe(m, t, env, p);
            && o.t.monitorRef == t.monitorRef
            && (o.t.mode == Converged ==> o.t.ledger.baseRuns == [] || t.mode == Converged)
  {
    hide StartProbe, EnterMonitor, MarginSigma, KeepProbe, Mean, Grow, PassOn, PolicyFor;
    ShapedAfter(t.search);
    var a := AcceptProbe(t, p);
    ProbeKeepsRef(m, a, env, p);
    StartProbeFrame(m, a, env, p);
    var s := StartProbe(m, a, env, p);
    MonitorKeepsRef(s.t, s.t.good);
    MonitorKeepsRef(RejectProbe(t), t.good);
  }

  lemma ProbingKeepsRef(m: Libm, t: Tuner, env: Env, obs: Obs, r: Run, p: Params)
    requires Wf(t) && t.mode == Probing
    ensures var d := WhileProbing(m, t, env, obs, r, p).t;
            d.monitorRef == t.monitorRef && (d.mode == Converged ==> d.ledger.baseRuns == [])
  {
    hide FinishProbe, AddThrow, PolicyFor;
    AddTrialCounts(t, r);
    var a := AddTrial(t, r);
    FinishKeepsRef(m, a, env, p);
    FinishKeepsRef(m, a.(trial := a.trial.(misses := PolicyFor(env).rejectMisses)), env, p);
  }

  lemma MeasuringKeepsRef(m: Libm, t: Tuner, env: Env, obs: Obs, r: Run, p: Params)
    requires Wf(t) && t.mode == Measuring && TenAtStart(t) && t.base == ArmOf(t.ledger.baseRuns)
    ensures var d := WhileMeasuring(m, t, env, obs, r, p).t;
            && (d.mode == Converged ==> d.ledger.baseRuns == [])
            && d.monitorRef == if GoalClosesSearch(t, d, env) then MeanTime(d.ledger.opening.runs) else t.monitorRef
  {
    hide LandingLaw, StartProbe, EnterMonitor, Cluster, NudgeForOver, AddBase, Mean, MeanTime, ArmOf;
    NudgeOn(t, env, obs.coarseRanLong, p);
    var a := AddBase(t, r);
    AddedOn(t, r);
    LandingLawTen(m, a, env, p);
    LandingOn(m, a, env, p);
    assert ArmOf([]) == EMPTY_ARM by { EmptyArm(); }
    var o := SteerLanding(m, a, env, obs.result, p);
    var u := if o.t.wait > 0 then o.t.(wait := o.t.wait - 1) else o.t;
    if u.base.n >= ARM_N && u.wait == 0 {
      StartProbeFrame(m, u, env, o.p);
      ProbeKeepsRef(m, u, env, o.p);
      var s := StartProbe(m, u, env, o.p);
      MonitorKeepsRef(s.t, s.p);
      if !t.start.known {
        assert u.base == ArmOf(u.ledger.baseRuns);
        TenThrows(u.ledger.baseRuns, t.ledger.baseRuns + [r]);
      }
    }
  }

  /** A full baseline that nothing has emptied. */
  lemma TenThrows(rs: seq<Run>, all: seq<Run>)
    requires (rs == all || rs == []) && |all| <= ARM_N && ArmOf(rs).n >= ARM_N
    ensures |rs| == ARM_N && Mean(ArmOf(rs)) == MeanTime(rs)
  {
    ArmHolds(rs);
  }

  lemma SearchKeepsRef(m: Libm, t: Tuner, e: Throw)
    requires Wf(t) && t.mode != Converged && Usable(e.env, e.obs) && !StartsOver(t, e)
    requires TenAtStart(t) && t.base == ArmOf(t.ledger.baseRuns)
    ensures var u := Step(m, t, e).t;
            && (u.mode == Converged ==> u.ledger.baseRuns == [])
            && u.monitorRef == if GoalClosesSearch(t, u, e.env) then MeanTime(u.ledger.opening.runs) else t.monitorRef
  {
    hide WhileMeasuring, WhileProbing, LogThrow, ClampParams, Differ, MeanTime, ArmOf;
    var r := RunOf(e);
    LogThrowKeepsWf(m, t, e.env, e.obs.result, r.err);
    LoggedOn(m, t, e.env, e.obs.result, r.err);
    LoggedTen(m, t, e.env, e.obs.result, r.err);
    var a := LogThrow(m, t, e.env, e.obs.result, r.err);
    if t.mode == Measuring {
      MeasuringKeepsRef(m, a, e.env, e.obs, r, e.live);
    } else {
      ProbingKeepsRef(m, a, e.env, e.obs, r, e.live);
      DispatchKeepsStart(m, a, e.env, e.obs, r, e.live);
    }
  }

  lemma StartsWatch(m: Libm, t: Tuner, e: Throw)
    requires Wf(t) && Usable(e.env, e.obs) && StartsOver(t, e)
    ensures var u := Step(m, t, e).t; u.mode == Measuring && u.monitorRef == 0.0
  {
    hide WhileMeasuring, LogThrow, ClampParams, Differ, KeepEditedFields;
    EditsEndNothing(m, t, e);
    KeptFieldByField(e.live, t.seen, t.good);
    var q := NoticeEdit(t, e.live).p;
    assert NoticeEdit(t, e.live).t == AnchorTo(q, t.ledger);
    var r := RunOf(e);
    LoggedOn(m, AnchorTo(q, t.ledger), e.env, e.obs.result, r.err);
    FirstRef(m, q, t.ledger, e.env, e.obs, r);
  }

  lemma FirstRef(m: Libm, p: Params, ledger: Ledger, env: Env, obs: Obs, r: Run)
    requires Wf(AnchorTo(p, ledger))
    ensures var a := LogThrow(m, AnchorTo(p, ledger), env, obs.result, r.err);
            WhileMeasuring(m, a, env, obs, r, p).t.monitorRef == 0.0
  {
    hide WindowStats, ClampParams, BackOff, MoveLanding, StartProbe;
    var u := LogThrow(m, AnchorTo(p, ledger), env, obs.result, r.err);
    assert [] + [obs.result != Pass] == [obs.result != Pass];
    assert !Cluster(u, obs.result) by {
      OneMissAtMost(obs.result != Pass);
    }
    assert |u.window.errs| <= 1;
  }

  // ----- over runs

  lemma SettledStep(m: Libm, t: Tuner, e: Throw)
    requires Wf(t) && t.mode == Converged && Usable(e.env, e.obs) && !StartsOver(t, e)
    ensures var a := LogThrow(m, t, e.env, e.obs.result, e.obs.error.v);
            && Wf(a) && Step(m, t, e) == Settle(WhileConverged(m, a, e.env, e.obs, RunOf(e), e.live), e.env)
  {
    hide WhileConverged, LogThrow, Settle, Differ;
    LogThrowKeepsWf(m, t, e.env, e.obs.result, e.obs.error.v);
    LoggedOn(m, t, e.env, e.obs.result, e.obs.error.v);
  }

  /** What the watch says is what the tuner has: its reference, and while it is settled its baseline. */
  lemma {:induction false} WatchIsKept(m: Libm, es: seq<Throw>)
    ensures var t, w := Play(m, FRESH, es), Watched(m, es);
            t.monitorRef == w.ref && |w.runs| < WATCHED && (t.mode == Converged ==> t.ledger.baseRuns == w.runs)
  {
    hide Step, StartsOver, WatchOn, GoalClosesSearch, MeanTime, ArmOf, BackOffsPaid;
    if es != [] {
      var before, e := es[..|es| - 1], es[|es| - 1];
      WatchIsKept(m, before);
      HistoryIsKept(m, before);
      TenAlways(m, before);
      var t := Play(m, FRESH, before);
      if !Usable(e.env, e.obs) {
        NotUsable(m, t, e);
      } else if StartsOver(t, e) {
        StartsWatch(m, t, e);
      } else if t.mode == Converged {
        SettledStep(m, t, e);
        hide WhileConverged, Settle, SteersFar, WithThis, TooManyMisses, Slower, Clears, ClampParams;
        WhileSettled(m, t, e);
        SettleKeepsWatch(WhileConverged(m, LogThrow(m, t, e.env, e.obs.result, e.obs.error.v), e.env, e.obs, RunOf(e),
                                        e.live), e.env);
      } else {
        SearchKeepsRef(m, t, e);
      }
    }
  }

  lemma SettleKeepsWatch(o: Outcome, env: Env)
    ensures var u := Settle(o, env);
            u.t.monitorRef == o.t.monitorRef && u.t.ledger == o.t.ledger && u.t.mode == o.t.mode
            && u.p == ClampParams(o.t.anchor, env, o.p)
  {
    hide ClampParams;
  }

  /**
   A settled tuner that is not edited searches again exactly at a sixteenth throw watched in a row of which
   three or more missed, or whose mean is more than 1.15 times the reference and 0.3 s, if there is one. After
   misses the handoff is widened by 1.15 and the landing slowed by a tenth; after a drift the profile stays.
   */
  lemma SearchesAgainIff(m: Libm, es: seq<Throw>, e: Throw)
    requires var t := Play(m, FRESH, es);
             t.mode == Converged && Usable(e.env, e.obs) && !StartsOver(t, e)
    ensures var t, w := Play(m, FRESH, es), Watched(m, es);
            var o := Step(m, t, e);
            var rs := WithThis(t, e, w.runs);
            && (o.t.mode != Converged <==>
                  && !SteersFar(m, t, e) && |rs| == 16
                  && (MissesOf(rs) >= 3 || (w.ref > 0.0 && MeanTime(rs) > 1.15 * w.ref + 0.3)))
            && (o.t.mode != Converged && e.obs.result != Pass && !Clears(t, e, t.window.missLog + [true]) ==>
                  o.p == ClampParams(t.anchor, e.env,
                                     if MissesOf(rs) >= 3
                                     then e.live.(handoff := e.live.handoff * 1.15, fineMin := e.live.fineMin * 0.90)
                                     else e.live))
  {
    hide Step, WhileConverged, Settle, SteersFar, Clears, MeanTime, StartsOver, ClampParams, ArmOf, BackOffsPaid,
         MissesOf, Watched;
    var t := Play(m, FRESH, es);
    WatchIsKept(m, es);
    HistoryIsKept(m, es);
    SettledStep(m, t, e);
    WhileSettled(m, t, e);
    var d := WhileConverged(m, LogThrow(m, t, e.env, e.obs.result, e.obs.error.v), e.env, e.obs, RunOf(e), e.live);
    SettleKeepsWatch(d, e.env);
    ClampIsIdempotent(t.anchor, e.env, e.live.(handoff := e.live.handoff * 1.15, fineMin := e.live.fineMin * 0.90));
  }

  /** No throw of `more` is an edit, or the last of sixteen with three misses or with a mean that has drifted. */
  predicate Steady(m: Libm, es: seq<Throw>, more: seq<Throw>) {
    forall i :: 0 <= i < |more| ==>
      var t, w, e := Play(m, FRESH, es + more[..i]), Watched(m, es + more[..i]), more[i];
      Usable(e.env, e.obs) ==>
        && !StartsOver(t, e)
        && var rs := WithThis(t, e, w.runs);
           |rs| == 16 ==> MissesOf(rs) < 3 && (w.ref > 0.0 ==> MeanTime(rs) <= 1.15 * w.ref + 0.3)
  }

  /** A profile that stays as fast as its reference and seldom misses is never searched again. */
  lemma {:induction false} SteadyIsLeftAlone(m: Libm, es: seq<Throw>, more: seq<Throw>)
    requires Play(m, FRESH, es).mode == Converged && Steady(m, es, more)
    ensures Play(m, FRESH, es + more).mode == Converged
  {
    hide Step, Watched, StartsOver, WithThis, MissesOf, MeanTime;
    if more == [] {
      assert es + more == es;
    } else {
      var n := |more| - 1;
      SteadyPrefix(m, es, more, n);
      SteadyIsLeftAlone(m, es, more[..n]);
      assert (es + more)[..|es + more| - 1] == es + more[..n];
      var t, e := Play(m, FRESH, es + more[..n]), more[n];
      if Usable(e.env, e.obs) {
        SearchesAgainIff(m, es + more[..n], e);
      } else {
        NotUsable(m, t, e);
      }
    }
  }

  lemma SteadyPrefix(m: Libm, es: seq<Throw>, more: seq<Throw>, n: nat)
    requires Steady(m, es, more) && n <= |more|
    ensures Steady(m, es, more[..n])
  {
    hide Play, Watched, StartsOver, WithThis, MissesOf, MeanTime;
    forall i | 0 <= i < n
      ensures more[..n][i] == more[i] && more[..n][..i] == more[..i]
    {
    }
  }

  // ----- the time goal

  lemma GoalSettles(m: Libm, t: Tuner, env: Env, p: Params)
    requires Shaped(t.search) && !t.start.known && t.base.n >= ARM_N && 0.0 < env.timeGoal
             && Mean(t.base) <= env.timeGoal
    ensures var s := StartProbe(m, t, env, p); !s.started && AllDone(s.t.search.done)
  {
    hide Mean, PickKnob;
  }

  lemma GoalEndsMeasuring(m: Libm, t: Tuner, env: Env, obs: Obs, r: Run, p: Params)
    requires Wf(t) && t.mode == Measuring && TenAtStart(t) && t.base == ArmOf(t.ledger.baseRuns)
    ensures var d := WhileMeasuring(m, t, env, obs, r, p).t; GoalClosesSearch(t, d, env) ==> d.mode == Converged
  {
    hide LandingLaw, StartProbe, EnterMonitor, Cluster, NudgeForOver, AddBase, Mean, MeanTime, ArmOf;
    NudgeOn(t, env, obs.coarseRanLong, p);
    var a := AddBase(t, r);
    AddedOn(t, r);
    LandingLawTen(m, a, env, p);
    LandingOn(m, a, env, p);
    assert ArmOf([]) == EMPTY_ARM by { EmptyArm(); }
    var o := SteerLanding(m, a, env, obs.result, p);
    var u := if o.t.wait > 0 then o.t.(wait := o.t.wait - 1) else o.t;
    if u.base.n >= ARM_N && u.wait == 0 {
      StartProbeFrame(m, u, env, o.p);
      var s := StartProbe(m, u, env, o.p);
      MonitorKeepsRef(s.t, s.p);
      EnterMonitorTally(s.t, s.p);
      if !t.start.known {
        assert u.base == ArmOf(u.ledger.baseRuns);
        TenThrows(u.ledger.baseRuns, t.ledger.baseRuns + [r]);
        if 0.0 < env.timeGoal && Mean(u.base) <= env.timeGoal {
          GoalSettles(m, u, env, o.p);
        }
      }
    }
  }

  /** A profile whose first ten throws meet the time goal is not searched: the throw that says so ends the search. */
  lemma GoalEndsSearch(m: Libm, es: seq<Throw>, e: Throw)
    requires var t := Play(m, FRESH, es);
             && t.mode != Converged && Usable(e.env, e.obs) && !StartsOver(t, e)
             && GoalClosesSearch(t, Step(m, t, e).t, e.env)
    ensures Step(m, Play(m, FRESH, es), e).t.mode == Converged
  {
    hide WhileMeasuring, WhileProbing, LogThrow, ClampParams, Differ, MeanTime, ArmOf, BackOffsPaid;
    var t := Play(m, FRESH, es);
    HistoryIsKept(m, es);
    TenAlways(m, es);
    var r := RunOf(e);
    LogThrowKeepsWf(m, t, e.env, e.obs.result, r.err);
    LoggedOn(m, t, e.env, e.obs.result, r.err);
    LoggedTen(m, t, e.env, e.obs.result, r.err);
    GoalEndsMeasuring(m, LogThrow(m, t, e.env, e.obs.result, r.err), e.env, e.obs, r, e.live);
  }
}
