/**
 One knob at a time, and exact undo: what holds in every run without outside edits, in a fixed
 environment, from a profile that lies inside its own limits.
 */
module TunerIsolation {
  import opened Numeric
  import opened TunerModel
  import opened TunerRuns
  import opened TunerLimits

  /** The same profile but for the landing speed. */
  predicate SameButFineMin(a: Params, b: Params) {
    a == b.(fineMin := a.fineMin)
  }

  /** The fields a probe of knob k may move. A coarse speed step takes its taper and minimum along. */
  predicate OnlyKnobMoved(k: nat, a: Params, b: Params) {
    if k == HANDOFF then a == b.(handoff := a.handoff)
    else if k == FINE_KP then a == b.(fineKp := a.fineKp)
    else if k == COARSE_TAPER then a == b.(coarseKp := a.coarseKp)
    else a == b.(coarseMax := a.coarseMax, coarseKp := a.coarseKp, coarseMin := a.coarseMin)
  }

  predicate RanLike(rs: seq<Run>, p: Params) {
    forall r :: r in rs ==> SameButFineMin(r.on, p)
  }

  predicate RanOn(rs: seq<Run>, p: Params) {
    forall r :: r in rs ==> r.on == p
  }

  predicate ArmsPure(t: Tuner, p: Params) {
    && (t.mode != Converged ==> RanLike(t.ledger.baseRuns, t.good))
    && (t.mode == Probing ==> RanOn(t.ledger.trialRuns, p))
  }

  predicate JudgedPure(j: Judgement) {
    j.live == j.good && RanLike(j.runs, j.good)
  }

  /** The opening baseline ran on one profile: the anchor, unless a back-off had moved it first. */
  predicate OpeningPure(t: Tuner) {
    && (!t.start.known && !t.ledger.nudged ==> SameButFineMin(t.good, t.anchor))
    && (t.start.known ==> RanLike(t.ledger.opening.runs, t.ledger.opening.on))
    && (t.start.known && !t.ledger.opening.nudged ==> SameButFineMin(t.ledger.opening.on, t.anchor))
  }

  /** p is the live profile: the candidate while a probe runs, the accepted profile otherwise. */
  predicate LiveIs(t: Tuner, env: Env, p: Params)
    requires Shaped(t.search)
  {
    if t.mode == Probing
    then p == Candidate(t.search, t.anchor, t.good, env, t.search.knob) && Differ(p, t.good)
    else p == t.good
  }

  predicate Calm(t: Tuner, env: Env, p: Params) {
    && Shaped(t.search)
    && Fixed(t.anchor, env, t.anchor) && Fixed(t.anchor, env, t.good)
    && LiveIs(t, env, p) && ArmsPure(t, p) && JudgedPure(t.ledger.judged) && OpeningPure(t)
    && (t.mode == Probing ==> t.start.known)
  }

  // ----- what the clamp does to a profile inside its limits

  /** A probe's candidate differs from the accepted profile in the probed knob's fields and no others. */
  lemma CandidateMovesOneKnob(s: Search, anchor: Params, good: Params, env: Env, k: nat)
    requires Shaped(s) && k < KNOBS && Fixed(anchor, env, good)
    ensures var c := Candidate(s, anchor, good, env, k);
            OnlyKnobMoved(k, c, good) && Fixed(anchor, env, c)
  {
    ClampOneKnob(anchor, env, good, k, ProbeFactor(s.dir[k], s.step[k], env));
  }

  lemma ClampOneKnob(anchor: Params, env: Env, good: Params, k: nat, factor: real)
    requires k < KNOBS && Fixed(anchor, env, good)
    ensures var c := ClampParams(anchor, env, ApplyKnob(good, k, factor));
            OnlyKnobMoved(k, c, good) && Fixed(anchor, env, c)
  {
    hide Fixed;
    ClampIsIdempotent(anchor, env, ApplyKnob(good, k, factor));
    FixedIffInRange(anchor, env, good);
  }

  lemma ClampFineMinOnly(anchor: Params, env: Env, good: Params, x: real)
    requires Fixed(anchor, env, good)
    ensures var c := ClampParams(anchor, env, good.(fineMin := x));
            SameButFineMin(c, good) && Fixed(anchor, env, c)
  {
    hide Fixed;
    ClampIsIdempotent(anchor, env, good.(fineMin := x));
    FixedIffInRange(anchor, env, good);
  }

  // ----- one throw

  lemma AddBaseCalm(t: Tuner, env: Env, r: Run, p: Params)
    requires Calm(t, env, p) && t.mode != Probing && r.on == p
    ensures Calm(AddBase(t, r), env, p)
  {
    hide Fixed, AddThrow, Candidate;
  }

  lemma LandingLawCalm(m: Libm, t: Tuner, env: Env, p: Params)
    requires Calm(t, env, p) && t.mode != Probing
    ensures var o := LandingLaw(m, t, env, p); Calm(o.t, env, o.p) && o.t.mode == t.mode
  {
    hide Fixed, ClampParams, LandingDecision, Candidate;
    forall x: real {
      ClampFineMinOnly(t.anchor, env, p, x);
    }
  }

  lemma NudgeCalm(t: Tuner, env: Env, coarseRanLong: bool, p: Params)
    requires Calm(t, env, p) && t.mode != Probing
    ensures var o := NudgeForOver(t, env, coarseRanLong, p); Calm(o.t, env, o.p) && o.t.mode == t.mode
  {
    hide Fixed, ClampParams, BackOff, Candidate;
    ClampIsIdempotent(t.anchor, env, BackOff(p, env, coarseRanLong));
  }

  lemma {:induction false} PickKnobMoves(s: Search, anchor: Params, good: Params, env: Env, marginOk: bool, tries: nat)
    requires Shaped(s) && tries <= KNOBS
    ensures var r := PickKnob(s, anchor, good, env, marginOk, tries);
            r.found ==> Differ(Candidate(r.s, anchor, good, env, r.s.knob), good)
    decreases KNOBS - tries
  {
    hide PickKnob, Candidate, Differ, IsRisky, Pin;
    PickUnfolds(s, anchor, good, env, marginOk, tries);
    if tries < KNOBS {
      var k := (s.knob + tries) % KNOBS;
      if s.done[k] || (IsRisky(k, s.dir[k]) && !marginOk) {
        PickKnobMoves(s, anchor, good, env, marginOk, tries + 1);
      } else if !Differ(Candidate(s, anchor, good, env, k), good) {
        PinTally(s, k);
        PickKnobMoves(Pin(s, k), anchor, good, env, marginOk, tries + 1);
      } else {
        SameCandidate(s, s.(knob := k), anchor, good, env, k);
      }
    }
  }

  /** A new probe leaves the accepted profile as it was, and puts the candidate live. */
  lemma StartProbeCalm(m: Libm, t: Tuner, env: Env, p: Params)
    requires Calm(t, env, t.good) && t.mode == Measuring && t.base.n >= ARM_N
    ensures var s := StartProbe(m, t, env, p);
            && (s.started ==> Calm(s.t, env, s.p) && s.t.mode == Probing)
            && (!s.started ==> s.p == p && s.t.mode == Measuring && Calm(s.t, env, s.t.good))
            && s.t.good == t.good
  {
    hide Fixed, PickKnob, MarginOk, Candidate, Differ;
    var (u, settled) := RecordStart(t, env);
    if !settled {
      PickKnobMoves(u.search, u.anchor, u.good, env, MarginOk(m, u.window.errs, env), 0);
    }
  }

  lemma EnterMonitorCalm(t: Tuner, env: Env, p: Params)
    requires Calm(t, env, p) && t.mode == Measuring && t.start.known
    ensures var o := EnterMonitor(t, p); Calm(o.t, env, o.p)
  {
    hide Fixed, Differ, EarnedItsKeep, Candidate;
  }

  lemma FinishProbeCalm(m: Libm, t: Tuner, env: Env, p: Params)
    requires Calm(t, env, p) && t.mode == Probing && t.base.n > 0 && t.trial.n > 0
    requires t.trial.misses < PolicyFor(env).rejectMisses ==> ARM_N <= t.trial.n
    ensures var o := FinishProbe(m, t, env, p); Calm(o.t, env, o.p)
  {
    hide Fixed, StartProbe, EnterMonitor, MarginSigma, Candidate, Differ, Variance, ErrRms, Mean, Grow, PassOn,
         PolicyFor;
    assert Shaped(Grow(t.search)) && Shaped(PassOn(t.search)) by { ShapedAfter(t.search); }
    if KeepProbe(m, t.base, t.trial, MarginSigma(m, t.window.errs, env.bracket), env.landSigma, PolicyFor(env)) {
      var a := AcceptProbe(t, p);
      CandidateFixed(t, env, p);
      StartProbeCalm(m, a, env, p);
      var s := StartProbe(m, a, env, p);
      StartProbeFrame(m, a, env, p);
      if !s.started {
        EnterMonitorCalm(s.t, env, s.t.good);
      }
    } else {
      var u := RejectProbe(t);
      EnterMonitorCalm(u, env, u.good);
    }
  }

  lemma CandidateFixed(t: Tuner, env: Env, p: Params)
    requires Calm(t, env, p) && t.mode == Probing
    ensures Fixed(t.anchor, env, p)
  {
    CandidateMovesOneKnob(t.search, t.anchor, t.good, env, t.search.knob);
  }

  lemma MeasuringCalm(m: Libm, t: Tuner, env: Env, obs: Obs, r: Run, p: Params)
    requires Calm(t, env, p) && t.mode == Measuring && r.on == p
    ensures var o := WhileMeasuring(m, t, env, obs, r, p); Calm(o.t, env, o.p)
  {
    hide Fixed, NudgeForOver, LandingLaw, StartProbe, EnterMonitor, Candidate, Differ, Cluster, AddBase;
    if Cluster(t, obs.result) {
      NudgeCalm(t, env, obs.coarseRanLong, p);
    } else {
      AddBaseCalm(t, env, r, p);
      AddBaseMode(t, r);
      LandingLawCalm(m, AddBase(t, r), env, p);
      var o := SteerLanding(m, AddBase(t, r), env, obs.result, p);
      var u := if o.t.wait > 0 then o.t.(wait := o.t.wait - 1) else o.t;
      if u.base.n >= ARM_N && u.wait == 0 {
        StartProbeCalm(m, u, env, o.p);
        StartProbeFrame(m, u, env, o.p);
        var s := StartProbe(m, u, env, o.p);
        if !s.started {
          EnterMonitorCalm(s.t, env, s.p);
        }
      }
    }
  }

  lemma ProbingCalm(m: Libm, t: Tuner, env: Env, obs: Obs, r: Run, p: Params)
    requires Calm(t, env, p) && t.mode == Probing && t.base.n > 0 && r.on == p
    ensures var o := WhileProbing(m, t, env, obs, r, p); Calm(o.t, env, o.p)
  {
    hide Fixed, FinishProbe, Differ, Candidate, AddThrow, PolicyFor;
    var pol := PolicyFor(env);
    var a := AddTrial(t, r);
    SameCandidate(t.search, a.search, t.anchor, t.good, env, t.search.knob);
    AddTrialCounts(t, r);
    var u := if obs.result == Over && r.err > 2.0 * env.bracket then a.(trial := a.trial.(misses := pol.rejectMisses))
        else a;
    assert Calm(u, env, p);
    if u.trial.n >= ARM_N || u.trial.misses >= pol.rejectMisses {
      FinishProbeCalm(m, u, env, p);
    }
  }

  lemma DriftCheckCalm(t: Tuner, env: Env, p: Params)
    requires Calm(t, env, p) && t.mode == Converged && t.start.known
    ensures var o := DriftCheck(t, env, p); Calm(o.t, env, o.p)
  {
    hide Fixed, ClampParams, Candidate;
    ClampIsIdempotent(t.anchor, env, p.(handoff := p.handoff * 1.15, fineMin := p.fineMin * 0.90));
  }

  lemma ConvergedCalm(m: Libm, t: Tuner, env: Env, obs: Obs, r: Run, p: Params)
    requires Calm(t, env, p) && t.mode == Converged && r.on == p && t.start.known
    ensures var o := WhileConverged(m, t, env, obs, r, p); Calm(o.t, env, o.p)
  {
    hide Fixed, NudgeForOver, LandingLaw, DriftCheck, Candidate, Cluster, AddBase;
    NudgeCalm(t, env, obs.coarseRanLong, p);
    var o := if Cluster(t, obs.result) then NudgeForOver(t, env, obs.coarseRanLong, p) else Outcome(t, p);
    AddBaseMode(o.t, r);
    AddBaseToConvergedCalm(o.t, env, r, o.p);
    LandingLawCalm(m, AddBase(o.t, r), env, o.p);
    var q := SteerLanding(m, AddBase(o.t, r), env, obs.result, o.p);
    KnownStays(m, t, env, obs, r, p);
    DriftCheckCalm(q.t, env, q.p);
  }

  /** After a back-off the throw just counted ran on the profile before it: no purity is claimed here. */
  lemma AddBaseToConvergedCalm(t: Tuner, env: Env, r: Run, p: Params)
    requires Calm(t, env, p) && t.mode == Converged
    ensures Calm(AddBase(t, r), env, p)
  {
    hide Fixed, AddThrow, Candidate;
  }

  lemma KnownStays(m: Libm, t: Tuner, env: Env, obs: Obs, r: Run, p: Params)
    requires t.start.known
    ensures var o := if Cluster(t, obs.result) then NudgeForOver(t, env, obs.coarseRanLong, p) else Outcome(t, p);
            SteerLanding(m, AddBase(o.t, r), env, obs.result, o.p).t.start.known
  {
    hide ClampParams, LandingDecision, BackOff, Cluster, AddThrow;
  }

  lemma DispatchCalm(m: Libm, t: Tuner, env: Env, obs: Obs, r: Run, p: Params)
    requires Wf(t) && Calm(t, env, p) && r.on == p
    ensures var o := Dispatch(m, t, env, obs, r, p); Calm(o.t, env, o.p)
  {
    hide WhileMeasuring, WhileProbing, WhileConverged, Calm;
    match t.mode {
      case Measuring => MeasuringCalm(m, t, env, obs, r, p);
      case Probing => ProbingCalm(m, t, env, obs, r, p);
      case Converged => ConvergedCalm(m, t, env, obs, r, p);
    }
  }

  predicate CalmState(t: Tuner, env: Env) {
    t.init ==> Calm(t, env, t.seen)
  }

  lemma AnchorCalm(env: Env, p: Params, ledger: Ledger)
    requires Fixed(p, env, p) && JudgedPure(ledger.judged)
    ensures Calm(AnchorTo(p, ledger), env, p)
  {
    hide ClampParams;
  }

  lemma LogThrowCalm(m: Libm, t: Tuner, env: Env, result: Verdict, err: real, p: Params)
    requires Calm(t, env, p)
    ensures Calm(LogThrow(m, t, env, result, err), env, p)
  {
    hide ClampParams, WindowStats, Candidate, Fixed, Differ;
  }

  lemma SettleCalm(o: Outcome, env: Env)
    requires Calm(o.t, env, o.p)
    ensures var q := Settle(o, env); q.p == o.p && q.t == o.t.(seen := o.p) && Calm(q.t, env, q.p)
  {
    hide ClampParams, Candidate, Differ;
    if o.t.mode == Probing {
      CandidateFixed(o.t, env, o.p);
    }
  }

  lemma ObserveCalm(m: Libm, t: Tuner, env: Env, obs: Obs, p: Params)
    requires Wf(t) && CalmState(t, env) && JudgedPure(t.ledger.judged)
    requires if t.init then p == t.seen else InRange(p, env, p)
    ensures var o := Observe(m, t, env, obs, p);
            && CalmState(o.t, env) && JudgedPure(o.t.ledger.judged) && (o.t.init ==> o.t.seen == o.p)
            && (Usable(env, obs) ==>
                  var r := Run(p, obs.total.v, obs.error.v, obs.result != Pass);
                  var d := Dispatch(m, LogThrow(m, NoticeEdit(t, p).t, env, obs.result, r.err), env, obs, r, p);
                  o == Outcome(d.t.(seen := d.p), d.p))
  {
    hide ClampParams, Dispatch, LogThrow, Settle, Calm, InRange;
    FixedIffInRange(p, env, p);
    if Usable(env, obs) {
      var o := NoticeEdit(t, p);
      if !t.init {
        AnchorCalm(env, p, t.ledger);
      }
      var r := Run(p, obs.total.v, obs.error.v, obs.result != Pass);
      LogThrowCalm(m, o.t, env, obs.result, r.err, p);
      var u := LogThrow(m, o.t, env, obs.result, r.err);
      assert Wf(u) by { LogThrowKeepsWf(m, o.t, env, obs.result, r.err); }
      DispatchCalm(m, u, env, obs, r, p);
      SettleCalm(Dispatch(m, u, env, obs, r, p), env);
      CalmIsJudged(Dispatch(m, u, env, obs, r, p), env);
    }
  }

  lemma CalmIsJudged(o: Outcome, env: Env)
    requires Calm(o.t, env, o.p)
    ensures JudgedPure(o.t.ledger.judged)
  {
    hide ClampParams, Candidate;
  }

  /** One environment, no outside edits, and a first profile that lies inside its own limits. */
  predicate CalmRun(m: Libm, env: Env, es: seq<Throw>) {
    forall i :: 0 <= i < |es| ==>
      var t := Play(m, FRESH, es[..i]);
      es[i].env == env && if t.init then es[i].live == t.seen else InRange(es[i].live, env, es[i].live)
  }

  lemma CalmPrefix(m: Libm, env: Env, es: seq<Throw>, n: nat)
    requires CalmRun(m, env, es) && n <= |es|
    ensures CalmRun(m, env, es[..n])
  {
    hide Play, InRange;
    forall i | 0 <= i < n
      ensures var t := Play(m, FRESH, es[..n][..i]);
              es[..n][i].env == env && if t.init then es[..n][i].live == t.seen
                  else InRange(es[..n][i].live, env, es[..n][i].live)
    {
      assert es[..n][..i] == es[..i];
    }
  }

  lemma {:induction false} CalmAlways(m: Libm, env: Env, es: seq<Throw>)
    requires CalmRun(m, env, es)
    ensures var t := Play(m, FRESH, es); CalmState(t, env) && JudgedPure(t.ledger.judged)
  {
    hide Observe, Calm, InRange;
    if es != [] {
      var es' := es[..|es| - 1];
      var e := es[|es| - 1];
      CalmPrefix(m, env, es, |es| - 1);
      CalmAlways(m, env, es');
      ObserveCalm(m, Play(m, FRESH, es'), e.env, e.obs, e.live);
    }
  }

  /**
   While a probe runs the live profile is the candidate: it differs from the accepted profile, and
   only in the probed knob's fields; every throw of the trial ran on it, and every throw of the
   baseline ran on the accepted profile up to its landing speed. Between probes the live profile is
   the accepted one. The opening measurement was taken on the profile as found, up to its landing
   speed, unless a back-off came before it.
   */
  lemma ProbesAreIsolated(m: Libm, env: Env, es: seq<Throw>)
    requires CalmRun(m, env, es) && Play(m, FRESH, es).init
    ensures var t := Play(m, FRESH, es);
            && (t.mode == Probing ==>
                  && OnlyKnobMoved(t.search.knob, t.seen, t.good) && Differ(t.seen, t.good)
                  && RanOn(t.ledger.trialRuns, t.seen))
            && (t.mode != Converged ==> RanLike(t.ledger.baseRuns, t.good))
            && (t.mode != Probing ==> t.seen == t.good)
            && Fixed(t.anchor, env, t.seen)
            && (t.start.known && !t.ledger.opening.nudged ==> RanLike(t.ledger.opening.runs, t.anchor))
  {
    hide ClampParams, Candidate, Differ, Fixed;
    CalmAlways(m, env, es);
    var t := Play(m, FRESH, es);
    if t.mode == Probing {
      CandidateMovesOneKnob(t.search, t.anchor, t.good, env, t.search.knob);
    }
  }

  // ----- exact undo

  /** How one throw can leave a running probe. */
  lemma ProbeThrow(m: Libm, t: Tuner, e: Throw)
    requires Wf(t) && t.init && t.mode == Probing && Calm(t, e.env, t.seen) && e.live == t.seen
    ensures var o := Step(m, t, e);
            var was, now := t.search.tally, o.t.search.tally;
            && now.accepted + now.rejected <= was.accepted + was.rejected + 1
            && (now.accepted == was.accepted && now.rejected == was.rejected ==>
                  o.t.mode == Probing && o.t.good == t.good && o.t.seen == t.seen)
            && (now.rejected > was.rejected ==>
                  now.accepted == was.accepted && o.t.mode != Probing
                  && (o.t.mode == Measuring ==> o.t.seen == t.good))
            && (now.accepted > was.accepted && o.t.mode != Converged ==> o.t.good == t.seen)
  {
    hide ClampParams, Candidate, Differ, LogThrow, Settle, Calm, InRange, WhileProbing;
    if Usable(e.env, e.obs) {
      CalmIsJudged(Outcome(t, t.seen), e.env);
      assert !Differ(t.seen, t.seen) by { NoDifference(t.seen); }
      ObserveCalm(m, t, e.env, e.obs, e.live);
      var r := Run(t.seen, e.obs.total.v, e.obs.error.v, e.obs.result != Pass);
      var u := LogThrow(m, t, e.env, e.obs.result, r.err);
      LoggedSame(m, t, e.env, e.obs.result, r.err);
      LogThrowKeepsWf(m, t, e.env, e.obs.result, r.err);
      ProbingOutcomes(m, u, e.env, e.obs, r, t.seen);
    }
  }

  lemma LoggedSame(m: Libm, t: Tuner, env: Env, result: Verdict, err: real)
    ensures var u := LogThrow(m, t, env, result, err);
            u.mode == t.mode && u.search == t.search && u.good == t.good && u.base == t.base && u.trial == t.trial
  {
    hide WindowStats;
  }

  lemma ProbingOutcomes(m: Libm, t: Tuner, env: Env, obs: Obs, r: Run, p: Params)
    requires Wf(t) && t.mode == Probing
    ensures var o := WhileProbing(m, t, env, obs, r, p);
            var was, now := t.search.tally, o.t.search.tally;
            && now.accepted + now.rejected <= was.accepted + was.rejected + 1
            && now.accepted >= was.accepted && now.rejected >= was.rejected
            && (now.accepted == was.accepted && now.rejected == was.rejected ==>
                  o.t.mode == Probing && o.t.good == t.good && o.p == p)
            && (now.rejected > was.rejected ==> o.t.mode != Probing && (o.t.mode == Measuring ==> o.p == t.good))
            && (now.accepted > was.accepted && o.t.mode != Converged ==> o.t.good == p)
  {
    hide StartProbe, KeepProbe, Differ, EarnedItsKeep, MarginSigma, AddThrow, PolicyFor;
    var a := AddTrial(t, r);
    AddTrialCounts(t, r);
    StartProbeFrame(m, AcceptProbe(a, p), env, p);
    var b := a.(trial := a.trial.(misses := PolicyFor(env).rejectMisses));
    StartProbeFrame(m, AcceptProbe(b, p), env, p);
  }

  /** From t on: one environment and no outside edits. */
  predicate Undisturbed(m: Libm, t: Tuner, env: Env, es: seq<Throw>)
    requires Wf(t)
  {
    forall i :: 0 <= i < |es| ==> es[i].env == env && es[i].live == Play(m, t, es[..i]).seen
  }

  predicate SameDecisions(t: Tuner, u: Tuner) {
    u.search.tally.accepted == t.search.tally.accepted && u.search.tally.rejected == t.search.tally.rejected
  }

  lemma UndisturbedPrefix(m: Libm, t: Tuner, env: Env, es: seq<Throw>, n: nat)
    requires Wf(t) && Undisturbed(m, t, env, es) && n <= |es|
    ensures Undisturbed(m, t, env, es[..n])
  {
    hide Play;
    forall i | 0 <= i < n
      ensures es[..n][i].env == env && es[..n][i].live == Play(m, t, es[..n][..i]).seen
    {
      assert es[..n][..i] == es[..i];
    }
  }

  /** No probe is decided by any of the throws. */
  predicate Undecided(m: Libm, t: Tuner, es: seq<Throw>)
    requires Wf(t)
  {
    forall i :: 0 <= i <= |es| ==> SameDecisions(t, Play(m, t, es[..i]))
  }

  lemma UndecidedPrefix(m: Libm, t: Tuner, es: seq<Throw>, n: nat)
    requires Wf(t) && n <= |es| && Undecided(m, t, es)
    ensures Undecided(m, t, es[..n])
  {
    hide Play, SameDecisions;
    forall i | 0 <= i <= n
      ensures SameDecisions(t, Play(m, t, es[..n][..i]))
    {
      assert es[..n][..i] == es[..i];
    }
  }

  lemma UndecidedAt(m: Libm, t: Tuner, es: seq<Throw>)
    requires Wf(t) && Undecided(m, t, es)
    ensures SameDecisions(t, Play(m, t, es)) && (es != [] ==> SameDecisions(t, Play(m, t, es[..|es| - 1])))
  {
    hide Play, SameDecisions;
    assert es[..|es|] == es;
  }

  /** Until it is decided, a probe keeps the same candidate live and the same profile to go back to. */
  lemma {:induction false} ProbeStaysPut(m: Libm, t: Tuner, env: Env, es: seq<Throw>)
    requires Wf(t) && t.init && t.mode == Probing && Calm(t, env, t.seen) && Undisturbed(m, t, env, es)
    requires Undecided(m, t, es)
    ensures var u := Play(m, t, es);
            && u.init && u.mode == Probing && u.good == t.good && u.seen == t.seen && Calm(u, env, u.seen)
  {
    hide Calm, Step, Undecided;
    if es != [] {
      var n := |es| - 1;
      UndecidedAt(m, t, es);
      UndecidedPrefix(m, t, es, n);
      UndisturbedPrefix(m, t, env, es, n);
      ProbeStaysPut(m, t, env, es[..n]);
      var u := Play(m, t, es[..n]);
      ProbeThrow(m, u, es[n]);
      CalmJudgement(u, env);
      StepCalm(m, u, es[n]);
    }
  }

  lemma CalmJudgement(t: Tuner, env: Env)
    requires Calm(t, env, t.seen)
    ensures JudgedPure(t.ledger.judged)
  {
    CalmIsJudged(Outcome(t, t.seen), env);
  }

  lemma StepCalm(m: Libm, t: Tuner, e: Throw)
    requires Wf(t) && t.init && Calm(t, e.env, t.seen) && e.live == t.seen
    ensures var u := Step(m, t, e).t; u.init && Calm(u, e.env, u.seen)
  {
    hide Calm, Observe;
    CalmJudgement(t, e.env);
    ObserveCalm(m, t, e.env, e.obs, e.live);
    StaysInit(m, t, e);
  }

  /**
   A probe that is rejected without ending the search restores, exactly, the profile that was in
   force before it: `t` is any moment of the probe, the last throw of `es` decides it.
   */
  lemma ProbeIsUndone(m: Libm, t: Tuner, env: Env, es: seq<Throw>)
    requires Wf(t) && t.init && t.mode == Probing && Calm(t, env, t.seen) && Undisturbed(m, t, env, es) && es != []
    requires Undecided(m, t, es[..|es| - 1])
    ensures var u := Play(m, t, es);
            && (u.search.tally.rejected > t.search.tally.rejected && u.mode != Converged ==>
                  u.seen == t.good && u.good == t.good && u.search.tally.accepted == t.search.tally.accepted)
            && (u.search.tally.accepted > t.search.tally.accepted && u.mode != Converged ==> u.good == t.seen)
  {
    hide Calm, Step, Undecided;
    var n := |es| - 1;
    UndecidedAt(m, t, es[..n]);
    UndisturbedPrefix(m, t, env, es, n);
    ProbeStaysPut(m, t, env, es[..n]);
    ProbeThrow(m, Play(m, t, es[..n]), es[n]);
    StepCalm(m, Play(m, t, es[..n]), es[n]);
    if Play(m, t, es).mode != Probing {
      CalmOutsideProbe(Play(m, t, es), env);
    }
  }

  lemma CalmOutsideProbe(t: Tuner, env: Env)
    requires Calm(t, env, t.seen) && t.mode != Probing
    ensures t.good == t.seen
  {
    hide Fixed;
  }

  /** What the probe goes back to is the profile it started from, up to that throw's landing-speed correction. */
  lemma ProbeStartsFromLive(m: Libm, t: Tuner, e: Throw)
    requires Wf(t) && t.init && t.mode == Measuring && Calm(t, e.env, t.seen) && e.live == t.seen
    ensures var u := Step(m, t, e).t; u.mode == Probing ==> SameButFineMin(u.good, t.seen)
  {
    hide ClampParams, Candidate, Differ, LogThrow, Settle, Calm, InRange, WhileMeasuring;
    if Usable(e.env, e.obs) {
      CalmJudgement(t, e.env);
      NoDifference(t.seen);
      ObserveCalm(m, t, e.env, e.obs, e.live);
      var r := Run(t.seen, e.obs.total.v, e.obs.error.v, e.obs.result != Pass);
      LoggedSame(m, t, e.env, e.obs.result, r.err);
      LogThrowCalm(m, t, e.env, e.obs.result, r.err, t.seen);
      MeasuringStarts(m, LogThrow(m, t, e.env, e.obs.result, r.err), e.env, e.obs, r, t.seen);
    }
  }

  lemma MeasuringStarts(m: Libm, t: Tuner, env: Env, obs: Obs, r: Run, p: Params)
    requires Calm(t, env, p) && t.mode == Measuring
    ensures var o := WhileMeasuring(m, t, env, obs, r, p); o.t.mode == Probing ==> SameButFineMin(o.t.good, p)
  {
    hide Fixed, NudgeForOver, LandingLaw, StartProbe, Candidate, Differ, Cluster, AddThrow, EarnedItsKeep;
    var a := AddBase(t, r);
    LandingLawFineMinOnly(m, a, env, p);
    LandingLawKeepsSearch(m, a, env, p);
    NudgeStaysMeasuring(t, env, obs.coarseRanLong, p);
    var o := SteerLanding(m, a, env, obs.result, p);
    var u := if o.t.wait > 0 then o.t.(wait := o.t.wait - 1) else o.t;
    StartProbeFrame(m, u, env, o.p);
  }

  lemma NudgeStaysMeasuring(t: Tuner, env: Env, coarseRanLong: bool, p: Params)
    ensures NudgeForOver(t, env, coarseRanLong, p).t.mode == t.mode
  {
  }

  lemma LandingLawFineMinOnly(m: Libm, t: Tuner, env: Env, p: Params)
    requires t.good == p
    ensures var o := LandingLaw(m, t, env, p); o.t.mode == t.mode && SameButFineMin(o.t.good, p)
  {
    hide ClampParams, LandingDecision, Clampf;
  }
}
