/**
 "Never worse than it found it": what the tuner settles on, at every entry to CONVERGED in every run.
 */
module TunerNeverWorse {
  import opened Numeric
  import opened TunerModel
  import opened TunerRuns
  import opened TunerLimits
  import opened TunerHistory
  import opened TunerIsolation
  import opened TunerEdits
  import opened TunerLedger

  /** Faster on average by more than 0.40 s, and, in whole hundredths, missing at most ten points more often. */
  predicate Beats(now: Arm, start: Baseline) {
    && now.n > 0 && now.sum / now.n as real + 0.40 < start.mean
    && now.misses * 100 / now.n <= start.misses * 10 + 10
  }

  lemma BeatsIsEarned(now: Arm, start: Baseline)
    requires now.n > 0
    ensures EarnedItsKeep(now, start) <==> Beats(now, start)
  {
  }

  /** The profile handed on when the search stops: the original unless the last one beat the start. */
  function Choice(t: Tuner): Params {
    var j := t.ledger.judged;
    if Differ(j.good, t.anchor) && !Beats(j.arm, t.start) then t.anchor else j.live
  }

  /** A verdict on a full baseline, against a start that was measured on a full baseline too. */
  predicate FairlyJudged(t: Tuner) {
    && t.start.known && t.ledger.judged.arm.n >= ARM_N
  }

  /**
   How what is kept relates to what was judged and measured. `good` is the accepted profile before the
   throw, `live` what the throw ran on. A search that ends on a decided probe keeps exactly the profile it
   judged. One that ends while measuring keeps the live profile, or that with its landing speed steered
   and clamped, and judges the accepted profile with the same landing speed.
   */
  ghost predicate KeptIsJudged(j: Judgement, mode: Mode, good: Params, anchor: Params, env: Env, live: Params) {
    if mode == Probing then j.live == j.good
    else
      || (j.live == live && j.good == good)
      || exists x :: j.live == ClampParams(anchor, env, live.(fineMin := x))
          && j.good == good.(fineMin := j.live.fineMin)
  }

  predicate Settled(o: Outcome) {
    o.t.mode == Converged ==> FairlyJudged(o.t) && o.p == Choice(o.t)
  }

  lemma EnterMonitorSettles(t: Tuner, p: Params)
    requires t.start.known && t.base.n >= ARM_N
    ensures Settled(EnterMonitor(t, p))
    ensures var j := EnterMonitor(t, p).t.ledger.judged;
            j.live == p && j.good == t.good && j.arm == t.base && j.runs == t.ledger.baseRuns
    ensures EnterMonitor(t, p).t.anchor == t.anchor && EnterMonitor(t, p).t.mode == Converged
  {
    hide Differ, EarnedItsKeep, Beats;
    BeatsIsEarned(t.base, t.start);
  }

  lemma FinishProbeSettles(m: Libm, t: Tuner, env: Env, p: Params)
    requires Shaped(t.search) && t.start.known && t.base.n >= ARM_N && t.trial.n > 0
    requires t.trial.misses < PolicyFor(env).rejectMisses ==> t.trial.n >= ARM_N
    ensures var o := FinishProbe(m, t, env, p);
            Settled(o) && (o.t.mode == Converged ==> o.t.ledger.judged.live == o.t.ledger.judged.good)
  {
    hide StartProbe, EnterMonitor, MarginSigma, Differ, EarnedItsKeep, Beats, Variance, ErrRms, Mean, Grow, PassOn,
         PolicyFor, Settled;
    ShapedAfter(t.search);
    if KeepProbe(m, t.base, t.trial, MarginSigma(m, t.window.errs, env.bracket), env.landSigma, PolicyFor(env)) {
      var a := AcceptProbe(t, p);
      StartProbeFrame(m, a, env, p);
      var s := StartProbe(m, a, env, p);
      NotConverged(Outcome(s.t, s.p));
      NotConverged(Outcome(s.t, s.t.good));
      EnterMonitorSettles(s.t, s.t.good);
    } else {
      var u := RejectProbe(t);
      NotConverged(Outcome(u, u.good));
      EnterMonitorSettles(u, u.good);
    }
  }

  lemma NotConverged(o: Outcome)
    ensures o.t.mode != Converged ==> Settled(o)
  {
  }

  lemma MeasuringSettles(m: Libm, t: Tuner, env: Env, obs: Obs, r: Run, p: Params)
    requires Shaped(t.search) && t.mode == Measuring
    ensures var o := WhileMeasuring(m, t, env, obs, r, p);
            Settled(o) && (o.t.mode == Converged ==>
              KeptIsJudged(o.t.ledger.judged, Measuring, t.good, t.anchor, env, p))
  {
    hide LandingLaw, StartProbe, EnterMonitor, Cluster, AddThrow, ClampParams, BackOff, Settled;
    NotConverged(NudgeForOver(t, env, obs.coarseRanLong, p));
    var a := AddBase(t, r);
    LandingLawKeepsSearch(m, a, env, p);
    LandingLawKeepsMode(m, a, env, p);
    LandingLawMoves(m, a, env, p);
    var o := SteerLanding(m, a, env, obs.result, p);
    var u := if o.t.wait > 0 then o.t.(wait := o.t.wait - 1) else o.t;
    NotConverged(Outcome(u, o.p));
    if u.base.n >= ARM_N {
      StartProbeFrame(m, u, env, o.p);
      var s := StartProbe(m, u, env, o.p);
      NotConverged(Outcome(s.t, s.p));
      NotConverged(Outcome(s.t.(wait := 4), s.p));
      EnterMonitorSettles(s.t, s.p);
    }
  }

  /** The landing law leaves live and accepted profile alone, or gives both the same landing speed. */
  lemma LandingLawMoves(m: Libm, t: Tuner, env: Env, p: Params)
    ensures var o := LandingLaw(m, t, env, p);
            && o.t.anchor == t.anchor
            && ((o.p == p && o.t.good == t.good)
                || exists x :: o.p == ClampParams(t.anchor, env, p.(fineMin := x))
                    && o.t.good == t.good.(fineMin := o.p.fineMin))
  {
    hide LandingDecision, ClampParams, MoveLanding;
    var d := LandingDecision(m, t.window, env);
    if d.Scale? {
      MoveGivesBoth(t.(window := t.window.(landTick := 0)), env, d.factor, p);
    }
  }

  lemma MoveGivesBoth(t: Tuner, env: Env, r: real, p: Params)
    ensures var o := MoveLanding(t, env, r, p);
            && o.t.anchor == t.anchor && o.t.good == t.good.(fineMin := o.p.fineMin)
            && exists x :: o.p == ClampParams(t.anchor, env, p.(fineMin := x))
  {
    hide BigMove;
    var x := p.fineMin * r;
    assert ScaleLanding(p, r) == p.(fineMin := x);
  }

  lemma LandingLawKeepsMode(m: Libm, t: Tuner, env: Env, p: Params)
    ensures LandingLaw(m, t, env, p).t.mode == t.mode
  {
    hide ClampParams, LandingDecision, Clampf;
  }

  lemma ProbingSettles(m: Libm, t: Tuner, env: Env, obs: Obs, r: Run, p: Params)
    requires Wf(t) && t.mode == Probing
    ensures var o := WhileProbing(m, t, env, obs, r, p);
            Settled(o) && (o.t.mode == Converged ==> o.t.ledger.judged.live == o.t.ledger.judged.good)
  {
    hide FinishProbe, AddThrow, PolicyFor, Settled;
    var pol := PolicyFor(env);
    var a := AddTrial(t, r);
    AddTrialCounts(t, r);
    var u := if obs.result == Over && r.err > 2.0 * env.bracket then a.(trial := a.trial.(misses := pol.rejectMisses))
        else a;
    NotConverged(Outcome(u, p));
    if u.trial.n >= ARM_N || u.trial.misses >= pol.rejectMisses {
      FinishProbeSettles(m, u, env, p);
    }
  }

  lemma DispatchSettles(m: Libm, t: Tuner, env: Env, obs: Obs, r: Run, p: Params)
    requires Wf(t) && t.mode != Converged
    ensures var o := Dispatch(m, t, env, obs, r, p);
            Settled(o) && (o.t.mode == Converged ==>
              KeptIsJudged(o.t.ledger.judged, t.mode, t.good, t.anchor, env, p))
  {
    hide WhileMeasuring, WhileProbing, WhileConverged, Settled;
    match t.mode {
      case Measuring => MeasuringSettles(m, t, env, obs, r, p);
      case Probing => ProbingSettles(m, t, env, obs, r, p);
    }
  }

  /** Between probes the accepted profile is the one that was left live. */
  predicate GoodIsSeen(t: Tuner) {
    t.init && t.mode != Probing ==> t.good == t.seen
  }

  lemma {:induction false} GoodIsSeenAlways(m: Libm, es: seq<Throw>)
    ensures GoodIsSeen(Play(m, FRESH, es))
  {
    hide Dispatch, NoticeEdit, LogThrow, ClampParams;
    if es != [] {
      GoodIsSeenAlways(m, es[..|es| - 1]);
    }
  }

  /** An edit sets the tuner up again, and so does not end a search. */
  lemma EditsEndNothing(m: Libm, t: Tuner, e: Throw)
    requires Wf(t) && Usable(e.env, e.obs) && (!t.init || Differ(e.live, t.seen))
    ensures Step(m, t, e).t.mode == Measuring
  {
    hide WhileMeasuring, LogThrow, ClampParams, Differ, KeepEditedFields;
    KeptFieldByField(e.live, t.seen, t.good);
    var q := NoticeEdit(t, e.live).p;
    assert NoticeEdit(t, e.live).t == AnchorTo(q, t.ledger);
    var r := Run(e.live, e.obs.total.v, e.obs.error.v, e.obs.result != Pass);
    FirstThrow(m, q, t.ledger, e.env, e.obs, r);
    LoggedAlike(m, AnchorTo(q, t.ledger), e.env, e.obs.result, r.err);
  }

  /**
   In every run, with any environments and edits: a throw that ends the search leaves the clamped
   original, or the clamped last profile, and the latter only if that is the original to within
   1e-4 a field or its baseline, of ten throws or more, beat the recorded start by more than 0.40 s
   without missing over ten points more often. That last profile is the one that was judged, after a
   probe; else it is the live profile, which is within 1e-4 of the accepted one, with the landing speed
   that it was judged with.
   */
  lemma NeverWorseAnyRun(m: Libm, es: seq<Throw>, e: Throw)
    requires Play(m, FRESH, es).mode != Converged
    ensures var t := Play(m, FRESH, es);
            var o := Step(m, t, e);
            var j := o.t.ledger.judged;
            o.t.mode == Converged ==>
              && FairlyJudged(o.t)
              && o.p == ClampParams(o.t.anchor, e.env, Choice(o.t))
              && KeptIsJudged(j, t.mode, t.good, t.anchor, e.env, e.live)
              && o.t.anchor == t.anchor && !Differ(e.live, t.seen) && (t.mode == Measuring ==> t.seen == t.good)
              && j.arm == ArmOf(j.runs)
              && o.t.start == Baseline(true, Mean(ArmOf(o.t.ledger.opening.runs)),
                  ArmOf(o.t.ledger.opening.runs).misses)
              && ArmOf(o.t.ledger.opening.runs).n >= ARM_N
  {
    hide ClampParams, Differ, Dispatch, LogThrow, ArmOf, Mean, EarnedItsKeep, Beats, BackOffsPaid, KeptIsJudged;
    var t := Play(m, FRESH, es);
    HistoryIsKept(m, es);
    GoodIsSeenAlways(m, es);
    ObserveRecorded(m, t, e.env, e.obs, e.live);
    if Usable(e.env, e.obs) {
      if !t.init || Differ(e.live, t.seen) {
        EditsEndNothing(m, t, e);
      } else {
        var r := Run(e.live, e.obs.total.v, e.obs.error.v, e.obs.result != Pass);
        LogThrowKeepsWf(m, t, e.env, e.obs.result, r.err);
        LoggedAlike(m, t, e.env, e.obs.result, r.err);
        var u := LogThrow(m, t, e.env, e.obs.result, r.err);
        DispatchSettles(m, u, e.env, e.obs, r, e.live);
        DispatchTame(m, u, e.env, e.obs, r, e.live);
      }
    }
  }

  /**
   In a calm run the promise is exact: the search ends on the original itself, or on a profile whose
   own throws (all of them run on it, up to its landing speed) earned it, or that is the original
   to within 1e-4 a field.
   */
  lemma NeverWorse(m: Libm, env: Env, es: seq<Throw>, e: Throw)
    requires CalmRun(m, env, es + [e]) && Play(m, FRESH, es).mode != Converged
    ensures var o := Step(m, Play(m, FRESH, es), e);
            var j := o.t.ledger.judged;
            o.t.mode == Converged ==>
              || o.p == o.t.anchor
              || (o.p == j.good && !Differ(o.p, o.t.anchor))
              || (&& o.p == j.good && RanLike(j.runs, o.p)
                  && j.arm == ArmOf(j.runs) && j.arm.n >= ARM_N && Beats(j.arm, o.t.start))
  {
    hide ClampParams, Differ, Dispatch, LogThrow, ArmOf, Mean, EarnedItsKeep, Beats, Calm, InRange, Recorded, Observe;
    NeverWorseAnyRun(m, es, e);
    assert (es + [e])[..|es|] == es;
    CalmPrefix(m, env, es + [e], |es|);
    CalmAlways(m, env, es);
    var t := Play(m, FRESH, es);
    ObserveCalm(m, t, e.env, e.obs, e.live);
    CalmChoice(m, t, e);
    var o := Step(m, t, e);
    if o.t.mode == Converged {
      ConvergedIsInit(m, t, e);
      CalmIsJudged(o, env);
    }
  }

  /** One environment all along; profiles may be edited at any moment. */
  predicate OneEnv(es: seq<Throw>, env: Env) {
    forall e :: e in es ==> e.env == env
  }

  /** Every edit is one that the tuner notices. */
  predicate AllNoticed(m: Libm, es: seq<Throw>) {
    forall i :: 0 <= i < |es| && Play(m, FRESH, es[..i]).init ==>
      es[i].live == Play(m, FRESH, es[..i]).seen || Differ(es[i].live, Play(m, FRESH, es[..i]).seen)
  }

  /** The profile left live is inside its limits, and between probes it is the accepted one. */
  predicate InLimits(t: Tuner, env: Env) {
    t.init ==> Fixed(t.anchor, env, t.seen) && (t.mode != Probing ==> t.good == t.seen)
  }

  lemma StepInLimits(m: Libm, t: Tuner, e: Throw)
    requires Wf(t) && (t.mode == Probing ==> t.init) && InLimits(t, e.env)
    ensures InLimits(Step(m, t, e).t, e.env)
  {
    hide Dispatch, NoticeEdit, LogThrow, ClampParams;
    if Usable(e.env, e.obs) {
      var o := NoticeEdit(t, e.live);
      var r := Run(e.live, e.obs.total.v, e.obs.error.v, e.obs.result != Pass);
      NoticedIsWf(t, e.live);
      LogThrowKeepsWf(m, o.t, e.env, e.obs.result, r.err);
      var d := Dispatch(m, LogThrow(m, o.t, e.env, e.obs.result, r.err), e.env, e.obs, r, o.p);
      ClampIsIdempotent(d.t.anchor, e.env, d.p);
    }
  }

  lemma {:induction false} InLimitsAlways(m: Libm, env: Env, es: seq<Throw>)
    requires OneEnv(es, env)
    ensures InLimits(Play(m, FRESH, es), env)
  {
    hide Step;
    if es != [] {
      hide InLimits;
      var n := |es| - 1;
      assert OneEnv(es[..n], env);
      InLimitsAlways(m, env, es[..n]);
      ProbingIsInit(m, es[..n]);
      StepInLimits(m, Play(m, FRESH, es[..n]), es[n]);
    }
  }

  /** The profile to go back to is inside its limits as well. */
  predicate GoodInLimits(t: Tuner, env: Env) {
    t.init ==> Fixed(t.anchor, env, t.good)
  }

  lemma LandingKeepsFixed(m: Libm, t: Tuner, env: Env)
    requires Fixed(t.anchor, env, t.good)
    ensures var o := LandingLaw(m, t, env, t.good);
            o.t.anchor == t.anchor && Fixed(t.anchor, env, o.t.good) && o.p == o.t.good
  {
    hide Fixed, ClampParams, LandingDecision, BigMove;
    forall x: real {
      ClampFineMinOnly(t.anchor, env, t.good, x);
    }
  }

  lemma MeasuringKeepsGood(m: Libm, t: Tuner, env: Env, obs: Obs, r: Run)
    requires Shaped(t.search) && t.mode == Measuring && Fixed(t.anchor, env, t.good)
    ensures var d := WhileMeasuring(m, t, env, obs, r, t.good);
            && (d.t.mode == Probing ==> d.t.anchor == t.anchor && Fixed(t.anchor, env, d.t.good))
            && (d.t.mode == Converged ==> d.t.anchor == t.anchor && d.t.ledger.judged.live == d.t.ledger.judged.good
                                          && Fixed(t.anchor, env, d.t.ledger.judged.good))
  {
    hide Fixed, LandingLaw, StartProbe, EnterMonitor, Cluster, AddThrow, ClampParams, BackOff, Mean;
    var a := AddBase(t, r);
    LandingKeepsFixed(m, a, env);
    LandingLawKeepsSearch(m, a, env, t.good);
    LandingLawKeepsMode(m, a, env, t.good);
    var o := SteerLanding(m, a, env, obs.result, t.good);
    var u := if o.t.wait > 0 then o.t.(wait := o.t.wait - 1) else o.t;
    if u.base.n >= ARM_N {
      StartProbeFrame(m, u, env, o.p);
      var s := StartProbe(m, u, env, o.p);
      EnterMonitorSettles(s.t, s.p);
    }
  }

  lemma ProbingKeepsGood(m: Libm, t: Tuner, env: Env, obs: Obs, r: Run, p: Params)
    requires Wf(t) && t.mode == Probing && Fixed(t.anchor, env, t.good) && Fixed(t.anchor, env, p)
    ensures var d := WhileProbing(m, t, env, obs, r, p);
            && d.t.anchor == t.anchor
            && (d.t.mode == Probing ==> Fixed(t.anchor, env, d.t.good))
            && (d.t.mode == Converged ==> d.t.ledger.judged.live == d.t.ledger.judged.good
                                          && Fixed(t.anchor, env, d.t.ledger.judged.good))
  {
    hide Fixed, StartProbe, KeepProbe, EnterMonitor, MarginSigma, AddThrow, PolicyFor, Grow, PassOn, Mean;
    ShapedAfter(t.search);
    AddTrialCounts(t, r);
    UndecidedOrRejected(m, t, env, obs, r, p);
    var a := AddTrial(t, r);
    var b := a.(trial := a.trial.(misses := PolicyFor(env).rejectMisses));
    MonitorAfterProbe(m, a, env, p);
    MonitorAfterProbe(m, b, env, p);
  }

  lemma MonitorAfterProbe(m: Libm, t: Tuner, env: Env, p: Params)
    requires Shaped(t.search) && t.start.known && t.base.n > 0 && t.trial.n > 0
    ensures var o := FinishProbe(m, t, env, p);
            o.t.mode == Converged ==>
              var j := o.t.ledger.judged; j.live == j.good && (j.good == p || j.good == t.good)
  {
    hide StartProbe, KeepProbe, MarginSigma, PolicyFor, Grow, PassOn, Mean, Differ, EarnedItsKeep, Beats;
    ShapedAfter(t.search);
    StartProbeFrame(m, AcceptProbe(t, p), env, p);
  }

  lemma DispatchKeepsGood(m: Libm, t: Tuner, env: Env, obs: Obs, r: Run, p: Params)
    requires Wf(t) && Fixed(t.anchor, env, t.good) && Fixed(t.anchor, env, p) && (t.mode != Probing ==> p == t.good)
    requires t.mode != Converged
    ensures var d := Dispatch(m, t, env, obs, r, p);
            && (d.t.mode == Probing ==> d.t.anchor == t.anchor && Fixed(t.anchor, env, d.t.good))
            && (d.t.mode == Converged ==> d.t.anchor == t.anchor && d.t.ledger.judged.live == d.t.ledger.judged.good
                                          && Fixed(t.anchor, env, d.t.ledger.judged.good))
  {
    hide WhileMeasuring, WhileProbing, Fixed;
    match t.mode {
      case Measuring => MeasuringKeepsGood(m, t, env, obs, r);
      case Probing => ProbingKeepsGood(m, t, env, obs, r, p);
    }
  }

  lemma ConvergedNeverProbes(m: Libm, t: Tuner, env: Env, obs: Obs, r: Run, p: Params)
    requires t.mode == Converged
    ensures WhileConverged(m, t, env, obs, r, p).t.mode != Probing
  {
    hide ClampParams, LandingDecision, BackOff, BigMove, Mean, AddThrow, Cluster;
  }

  /** A throw without an edit keeps the profile to go back to inside its limits; what ends a search is there as well. */
  lemma UneditedThrow(m: Libm, t: Tuner, e: Throw)
    requires Wf(t) && t.init && InLimits(t, e.env) && GoodInLimits(t, e.env) && e.live == t.seen && Usable(e.env, e.obs)
    ensures var o := Step(m, t, e);
            && GoodInLimits(o.t, e.env)
            && (t.mode != Converged && o.t.mode == Converged ==>
                  o.t.anchor == t.anchor && o.t.ledger.judged.live == o.t.ledger.judged.good
                  && Fixed(t.anchor, e.env, o.t.ledger.judged.good))
  {
    hide Dispatch, LogThrow, ClampParams, Differ;
    assert !Differ(t.seen, t.seen) by { NoDifference(t.seen); }
    var r := Run(e.live, e.obs.total.v, e.obs.error.v, e.obs.result != Pass);
    LogThrowKeepsWf(m, t, e.env, e.obs.result, r.err);
    LoggedAlike(m, t, e.env, e.obs.result, r.err);
    var u := LogThrow(m, t, e.env, e.obs.result, r.err);
    var d := Dispatch(m, u, e.env, e.obs, r, e.live);
    ClampIsIdempotent(d.t.anchor, e.env, d.p);
    if t.mode == Converged {
      assert d.t.mode != Probing by {
        ConvergedNeverProbes(m, u, e.env, e.obs, r, e.live);
        DispatchConverged(m, u, e.env, e.obs, r, e.live);
      }
    } else {
      DispatchKeepsGood(m, u, e.env, e.obs, r, e.live);
    }
  }

  lemma DispatchConverged(m: Libm, t: Tuner, env: Env, obs: Obs, r: Run, p: Params)
    requires t.mode == Converged && Shaped(t.search)
    ensures Dispatch(m, t, env, obs, r, p) == WhileConverged(m, t, env, obs, r, p)
  {
    hide WhileConverged;
  }

  lemma EditedThrow(m: Libm, t: Tuner, e: Throw)
    requires Wf(t) && Usable(e.env, e.obs) && (!t.init || Differ(e.live, t.seen))
    ensures GoodInLimits(Step(m, t, e).t, e.env)
  {
    hide Dispatch, LogThrow, ClampParams, NoticeEdit;
    EditsEndNothing(m, t, e);
    var o := NoticeEdit(t, e.live);
    var r := Run(e.live, e.obs.total.v, e.obs.error.v, e.obs.result != Pass);
    NoticedIsWf(t, e.live);
    LogThrowKeepsWf(m, o.t, e.env, e.obs.result, r.err);
    var d := Dispatch(m, LogThrow(m, o.t, e.env, e.obs.result, r.err), e.env, e.obs, r, o.p);
    ClampIsIdempotent(d.t.anchor, e.env, d.p);
  }

  lemma NoticedPrefix(m: Libm, es: seq<Throw>, n: nat)
    requires AllNoticed(m, es) && n <= |es|
    ensures AllNoticed(m, es[..n])
  {
    hide Play, Differ;
    forall i | 0 <= i < n && Play(m, FRESH, es[..n][..i]).init
      ensures es[..n][i].live == Play(m, FRESH, es[..n][..i]).seen
              || Differ(es[..n][i].live, Play(m, FRESH, es[..n][..i]).seen)
    {
      assert es[..n][..i] == es[..i];
    }
  }

  lemma {:induction false} GoodInLimitsAlways(m: Libm, env: Env, es: seq<Throw>)
    requires OneEnv(es, env) && AllNoticed(m, es)
    ensures GoodInLimits(Play(m, FRESH, es), env)
  {
    hide Observe, InLimits;
    if es != [] {
      var n := |es| - 1;
      var t, e := Play(m, FRESH, es[..n]), es[n];
      assert OneEnv(es[..n], env);
      NoticedPrefix(m, es, n);
      GoodInLimitsAlways(m, env, es[..n]);
      InLimitsAlways(m, env, es[..n]);
      if !Usable(e.env, e.obs) {
        NotUsable(m, t, e);
      } else if t.init && e.live == t.seen {
        UneditedThrow(m, t, e);
      } else {
        EditedThrow(m, t, e);
      }
    }
  }

  /** The search ended on its last profile and not on the original. */
  predicate KeptTheLast(t: Tuner) {
    !(Differ(t.ledger.judged.good, t.anchor) && !Beats(t.ledger.judged.arm, t.start))
  }

  /**
   In one environment, with any edits that the tuner notices: a search that keeps its last profile leaves
   exactly the profile that it judged.
   */
  lemma KeptIsExact(m: Libm, env: Env, es: seq<Throw>, e: Throw)
    requires OneEnv(es + [e], env) && AllNoticed(m, es + [e]) && Play(m, FRESH, es).mode != Converged
    ensures var o := Step(m, Play(m, FRESH, es), e);
            o.t.mode == Converged && KeptTheLast(o.t) ==> o.p == o.t.ledger.judged.good
  {
    hide Step, InLimits, KeptIsJudged, Differ, EarnedItsKeep, Beats;
    var t := Play(m, FRESH, es);
    var all := es + [e];
    assert all[..|es|] == es && all[|es|] == e && e in all;
    assert OneEnv(es, env) && e.env == env;
    NoticedPrefix(m, all, |es|);
    GoodInLimitsAlways(m, env, es);
    InLimitsAlways(m, env, es);
    NeverWorseAnyRun(m, es, e);
    if !Usable(e.env, e.obs) {
      NotUsable(m, t, e);
    } else if t.init && e.live == t.seen {
      UneditedThrow(m, t, e);
    } else {
      assert t.init ==> Differ(e.live, t.seen);
      EditsEndNothing(m, t, e);
    }
  }

  /** In a calm run the clamp has nothing to do to the choice. */
  lemma CalmChoice(m: Libm, t: Tuner, e: Throw)
    requires Wf(t) && CalmState(t, e.env) && JudgedPure(t.ledger.judged) && t.mode != Converged
    requires if t.init then e.live == t.seen else InRange(e.live, e.env, e.live)
    ensures var o := Step(m, t, e); o.t.mode == Converged ==> o.p == Choice(o.t)
  {
    hide ClampParams, Differ, Dispatch, LogThrow, Calm, InRange, EarnedItsKeep, Beats, Settle;
    ObserveCalm(m, t, e.env, e.obs, e.live);
    if Usable(e.env, e.obs) {
      var o := NoticeEdit(t, e.live);
      var r := Run(e.live, e.obs.total.v, e.obs.error.v, e.obs.result != Pass);
      LogThrowKeepsWf(m, o.t, e.env, e.obs.result, r.err);
      LoggedSame(m, o.t, e.env, e.obs.result, r.err);
      DispatchSettles(m, LogThrow(m, o.t, e.env, e.obs.result, r.err), e.env, e.obs, r, e.live);
    }
  }

  lemma ConvergedIsInit(m: Libm, t: Tuner, e: Throw)
    requires Wf(t) && t.mode != Converged && Step(m, t, e).t.mode == Converged
    ensures Step(m, t, e).t.init
  {
    hide Dispatch, ClampParams, Differ, KeepEditedFields, LogThrow;
    if Usable(e.env, e.obs) {
      var o := NoticeEdit(t, e.live);
      var r := Run(e.live, e.obs.total.v, e.obs.error.v, e.obs.result != Pass);
      LogThrowKeepsWf(m, o.t, e.env, e.obs.result, r.err);
      LogThrowKeepsInit(m, o.t, e.env, e.obs.result, r.err);
      DispatchTame(m, LogThrow(m, o.t, e.env, e.obs.result, r.err), e.env, e.obs, r, o.p);
    }
  }

  lemma LogThrowKeepsInit(m: Libm, t: Tuner, env: Env, result: Verdict, err: real)
    ensures LogThrow(m, t, env, result, err).init == t.init
  {
    hide WindowStats;
  }
}
