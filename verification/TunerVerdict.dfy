/**
 The two verdicts of a search, on the throws themselves: what keeps the last profile when the search ends,
 and what keeps a probe.
 */
module TunerVerdict {
  import opened Numeric
  import opened TunerModel
  import opened TunerRuns
  import opened TunerLimits
  import opened TunerHistory
  import opened TunerIsolation
  import opened TunerEdits
  import opened TunerNeverWorse
  import opened TunerOpening
  import opened TunerSteering
  import St = Statistics

  // ----- an arm and its throws

  function Times(rs: seq<Run>): (r: seq<real>)
    ensures |r| == |rs|
  {
    seq(|rs|, i requires 0 <= i < |rs| => rs[i].total)
  }

  function Errors(rs: seq<Run>): (r: seq<real>)
    ensures |r| == |rs|
  {
    seq(|rs|, i requires 0 <= i < |rs| => rs[i].err)
  }

  /** The arm of these throws, none of which has faded. */
  predicate Holds(a: Arm, rs: seq<Run>) {
    && a.n == |rs| && a.misses == MissesOf(rs)
    && a.sum == St.Sum(Times(rs)) && a.sumSq == St.SumSq(Times(rs)) && a.errSumSq == St.SumSq(Errors(rs))
  }

  lemma {:induction false} ArmHolds(rs: seq<Run>)
    requires |rs| <= 4 * ARM_N
    ensures Holds(ArmOf(rs), rs)
  {
    if rs != [] {
      var n := |rs| - 1;
      ArmHolds(rs[..n]);
      assert Times(rs)[..n] == Times(rs[..n]) && Errors(rs)[..n] == Errors(rs[..n]);
    }
  }

  // ----- the start was measured on ten throws

  predicate TenAtStart(t: Tuner) {
    if t.start.known then |t.ledger.opening.runs| == ARM_N
    else t.mode == Measuring && t.wait == 0 && |t.ledger.baseRuns| < ARM_N && t.base.n == |t.ledger.baseRuns|
  }

  lemma EarlyTen(m: Libm, t: Tuner, env: Env, obs: Obs, r: Run, p: Params)
    requires Wf(t) && !t.start.known && TenAtStart(t)
    ensures TenAtStart(WhileMeasuring(m, t, env, obs, r, p).t)
  {
    hide LandingLaw, PickKnob, EnterMonitor, Cluster, MarginOk, Candidate, Mean, BackOff, ClampParams;
    var a := AddBase(t, r);
    LandingLawTen(m, a, env, p);
    var o := SteerLanding(m, a, env, obs.result, p);
    if o.t.base.n >= ARM_N {
      StartProbeFrame(m, o.t, env, o.p);
      var s := StartProbe(m, o.t, env, o.p);
      MonitorKeepsOpening(s.t, s.p);
    }
  }

  lemma LandingLawTen(m: Libm, t: Tuner, env: Env, p: Params)
    ensures var u := LandingLaw(m, t, env, p).t;
            && u.start == t.start && u.mode == t.mode && u.wait == t.wait && u.search == t.search
            && u.ledger == t.ledger.(baseRuns := u.ledger.baseRuns)
            && ((u.base == t.base && u.ledger.baseRuns == t.ledger.baseRuns)
                || (u.base == EMPTY_ARM && u.ledger.baseRuns == []))
  {
    hide ClampParams, LandingDecision, Clampf;
  }

  lemma LoggedTen(m: Libm, t: Tuner, env: Env, result: Verdict, err: real)
    ensures TenAtStart(LogThrow(m, t, env, result, err)) == TenAtStart(t)
    ensures LogThrow(m, t, env, result, err).start == t.start
  {
    hide WindowStats, Clampf;
  }

  lemma StepTen(m: Libm, t: Tuner, e: Throw)
    requires Wf(t) && TenAtStart(t)
    ensures TenAtStart(Step(m, t, e).t)
  {
    hide WhileMeasuring, WhileProbing, WhileConverged, LogThrow, ClampParams, Differ, KeepEditedFields;
    if Usable(e.env, e.obs) {
      var o := NoticeEdit(t, e.live);
      var r := Run(e.live, e.obs.total.v, e.obs.error.v, e.obs.result != Pass);
      LogThrowKeepsWf(m, o.t, e.env, e.obs.result, r.err);
      LoggedTen(m, o.t, e.env, e.obs.result, r.err);
      var u := LogThrow(m, o.t, e.env, e.obs.result, r.err);
      if u.start.known {
        DispatchKeepsStart(m, u, e.env, e.obs, r, o.p);
      } else {
        EarlyTen(m, u, e.env, e.obs, r, o.p);
      }
    }
  }

  lemma {:induction false} TenAlways(m: Libm, es: seq<Throw>)
    ensures TenAtStart(Play(m, FRESH, es))
  {
    hide Step;
    if es != [] {
      TenAlways(m, es[..|es| - 1]);
      StepTen(m, Play(m, FRESH, es[..|es| - 1]), es[|es| - 1]);
    }
  }

  // ----- the end of a search

  /** A baseline against the ten throws of the start. */
  predicate BeatsThrows(now: Arm, start: seq<Run>) {
    && now.n > 0 && now.sum / now.n as real + 0.40 < St.Sum(Times(start)) / 10.0
    && now.misses * 100 / now.n <= MissesOf(start) * 10 + 10
  }

  /** The same, when none of the baseline's throws has faded. */
  predicate ThrowsBeat(now: seq<Run>, start: seq<Run>) {
    && now != [] && St.Sum(Times(now)) / |now| as real + 0.40 < St.Sum(Times(start)) / 10.0
    && MissesOf(now) * 100 / |now| <= MissesOf(start) * 10 + 10
  }

  /**
   In every run a throw that ends the search leaves the last profile, clamped, if and only if that profile is
   the original to within 1e-4 a field or its baseline beats the start's ten throws; otherwise the original,
   clamped. Up to forty throws the baseline is those throws themselves.
   */
  lemma LastIsKeptIffFaster(m: Libm, es: seq<Throw>, e: Throw)
    requires Play(m, FRESH, es).mode != Converged
    ensures var o := Step(m, Play(m, FRESH, es), e);
            var j, start, anchor := o.t.ledger.judged, o.t.ledger.opening.runs, o.t.anchor;
            o.t.mode == Converged ==>
              && |start| == 10 && j.arm == ArmOf(j.runs)
              && (if DiffersSomewhere(j.good, anchor) && !BeatsThrows(j.arm, start)
                  then o.p == ClampParams(anchor, e.env, anchor) else o.p == ClampParams(anchor, e.env, j.live))
              && (|j.runs| <= 40 ==> (BeatsThrows(j.arm, start) <==> ThrowsBeat(j.runs, start)))
  {
    hide Step, Differ, DiffersSomewhere, ClampParams, ArmOf, MissesOf, Times, KeptIsJudged;
    var o := Step(m, Play(m, FRESH, es), e);
    var j, start := o.t.ledger.judged, o.t.ledger.opening.runs;
    NeverWorseAnyRun(m, es, e);
    assert (es + [e])[..|es|] == es;
    TenAlways(m, es + [e]);
    if o.t.mode == Converged {
      DifferIff(j.good, o.t.anchor);
      ArmHolds(start);
      if |j.runs| <= 40 {
        ArmHolds(j.runs);
      }
    }
  }

  // ----- the window, two-pass

  /** Errors cut off at twice the bracket on either side. */
  function Cut(errs: seq<real>, bracket: real): (r: seq<real>)
    ensures |r| == |errs|
  {
    seq(|errs|, i requires 0 <= i < |errs| => Max(-2.0 * bracket, Min(errs[i], 2.0 * bracket)))
  }

  function MeanOf(xs: seq<real>): real
    requires xs != []
  {
    St.Sum(xs) / |xs| as real
  }

  /** The sample variance. */
  function VarianceOf(xs: seq<real>): real
    requires |xs| >= 2
  {
    St.Spread(xs, MeanOf(xs)) / (|xs| - 1) as real
  }

  /** Square root of the mean square. */
  function RmsOf(m: Libm, xs: seq<real>): real
    requires xs != []
  {
    m.sqrt(St.SumSq(xs) / |xs| as real)
  }

  lemma {:induction false} SumsOfCut(errs: seq<real>, bracket: real)
    requires bracket > 0.0
    ensures SumClipped(errs, 2.0 * bracket) == St.Sum(Cut(errs, bracket))
    ensures SumSqClipped(errs, 2.0 * bracket) == St.SumSq(Cut(errs, bracket))
  {
    if errs != [] {
      var n := |errs| - 1;
      SumsOfCut(errs[..n], bracket);
      assert Cut(errs, bracket)[..n] == Cut(errs[..n], bracket);
    }
  }

  /** The window's statistics are mean and sample deviation of the errors cut off at twice the bracket. */
  lemma WindowIsCut(m: Libm, errs: seq<real>, bracket: real)
    requires bracket > 0.0 && |errs| >= 2
    ensures var xs := Cut(errs, bracket);
            WindowStats(m, errs, bracket)
            == Stats(MeanOf(xs), if VarianceOf(xs) > 0.0 then m.sqrt(VarianceOf(xs)) else 0.0)
  {
    hide SumClipped, SumSqClipped, St.Spread, St.Sum, St.SumSq, Cut;
    var xs := Cut(errs, bracket);
    SumsOfCut(errs, bracket);
    OnePassOf(xs);
    hide OnePass, VarianceOf;
  }

  lemma OnePassOf(xs: seq<real>)
    requires |xs| >= 2
    ensures OnePass(|xs|, St.SumSq(xs), MeanOf(xs)) == VarianceOf(xs) >= 0.0
  {
    hide St.Spread, St.Sum, St.SumSq;
    St.OnePassIsTwoPass(xs, MeanOf(xs));
  }

  lemma VarianceIsSpread(a: Arm, rs: seq<Run>)
    requires Holds(a, rs) && |rs| >= 2
    ensures Variance(a) == VarianceOf(Times(rs))
  {
    hide St.Spread, St.Sum, St.SumSq, Times, OnePass, VarianceOf;
    OnePassOf(Times(rs));
  }

  /** How many landing spreads fit between the mean error and the bracket's edge. */
  function Room(m: Libm, errs: seq<real>, bracket: real): real {
    if |errs| < 8 || bracket <= 0.0 then 0.0
    else
      var xs := Cut(errs, bracket);
      var sd := if VarianceOf(xs) > 0.0 then m.sqrt(VarianceOf(xs)) else 0.0;
      if sd < 0.0001 then 99.0 else Max(0.0, bracket - Abs(MeanOf(xs))) / sd
  }

  lemma MarginIsRoom(m: Libm, errs: seq<real>, bracket: real)
    ensures MarginSigma(m, errs, bracket) == Room(m, errs, bracket)
  {
    hide WindowStats, VarianceOf, MeanOf, Cut;
    if |errs| >= 8 && bracket > 0.0 {
      WindowIsCut(m, errs, bracket);
    }
  }

  // ----- what keeps a probe

  /**
   Fewer misses than throw a probe out, the last one allowed only with room to spare; no wider a landing than
   1.3 times; and faster on average by more than the style's least gain and the standard error.
   */
  predicate Convinces(m: Libm, base: seq<Run>, trial: seq<Run>, room: real, env: Env)
    requires |base| >= 2 && |trial| >= 2
  {
    var out := if env.aggressive then 3 else 2;
    && MissesOf(trial) < out && (MissesOf(trial) == out - 1 ==> room >= 0.75 * env.landSigma)
    && (RmsOf(m, Errors(base)) > 0.0001 ==> RmsOf(m, Errors(trial)) <= 1.30 * RmsOf(m, Errors(base)))
    && MeanOf(Times(base)) - MeanOf(Times(trial)) >
         Max(if env.aggressive then 0.20 else 0.30,
             m.sqrt(VarianceOf(Times(base)) / |base| as real + VarianceOf(Times(trial)) / |trial| as real))
  }

  lemma KeptIfConvincing(m: Libm, a: Arm, base: seq<Run>, b: Arm, trial: seq<Run>, room: real, env: Env)
    requires |base| >= 2 && |trial| >= 2 && Holds(a, base) && Holds(b, trial)
    ensures KeepProbe(m, a, b, room, env.landSigma, PolicyFor(env)) <==> Convinces(m, base, trial, room, env)
  {
    hide St.Spread, St.Sum, St.SumSq, Times, Errors, Variance, VarianceOf, MissesOf;
    VarianceIsSpread(a, base);
    VarianceIsSpread(b, trial);
  }

  lemma {:induction false} ManyThrows(rs: seq<Run>)
    ensures |rs| >= ARM_N ==> ArmOf(rs).n >= ARM_N
    ensures ArmOf(rs).n >= |rs| || ArmOf(rs).n > 20
  {
    if rs != [] {
      ManyThrows(rs[..|rs| - 1]);
    }
  }

  /** What one decision does to the count of probes. */
  lemma FinishCounts(m: Libm, t: Tuner, env: Env, p: Params)
    requires Shaped(t.search) && t.base.n > 0 && t.trial.n > 0
    ensures var u := FinishProbe(m, t, env, p).t;
            var keep := KeepProbe(m, t.base, t.trial, MarginSigma(m, t.window.errs, env.bracket), env.landSigma,
                                  PolicyFor(env));
            && u.search.tally.accepted == t.search.tally.accepted + (if keep then 1 else 0)
            && u.search.tally.rejected == t.search.tally.rejected + (if keep then 0 else 1)
  {
    hide StartProbe, EnterMonitor, MarginSigma, KeepProbe, Mean, PolicyFor;
    ShapedAfter(t.search);
    var a := AcceptProbe(t, p);
    StartProbeFrame(m, a, env, p);
    var s := StartProbe(m, a, env, p);
    EnterMonitorTally(s.t, s.t.good);
    EnterMonitorTally(RejectProbe(t), t.good);
  }

  /** The throw that a probe is decided on, and how, as the arms say. */
  lemma ProbingCounts(m: Libm, t: Tuner, env: Env, obs: Obs, r: Run, p: Params)
    requires Shaped(t.search) && t.base.n > 0
    ensures var was, now := t.search.tally, WhileProbing(m, t, env, obs, r, p).t.search.tally;
            var trial := AddThrow(t.trial, r.total, r.err, r.miss);
            var out := if env.aggressive then 3 else 2;
            var gross := obs.result == Over && r.err > 2.0 * env.bracket;
            var kept := !gross && KeepProbe(m, t.base, trial, MarginSigma(m, t.window.errs, env.bracket), env.landSigma,
                                            PolicyFor(env));
            if gross || trial.misses >= out || trial.n >= ARM_N then
              && now.accepted == was.accepted + (if kept then 1 else 0)
              && now.rejected == was.rejected + (if kept then 0 else 1)
            else now.accepted == was.accepted && now.rejected == was.rejected
  {
    hide FinishProbe, MarginSigma, KeepProbe, AddThrow;
    AddTrialCounts(t, r);
    var a := AddTrial(t, r);
    var b := a.(trial := a.trial.(misses := PolicyFor(env).rejectMisses));
    FinishCounts(m, a, env, p);
    FinishCounts(m, b, env, p);
    ThrownOut(m, b.base, b.trial, MarginSigma(m, t.window.errs, env.bracket), env);
  }

  /** And as the throws say. */
  lemma ProbingDecides(m: Libm, t: Tuner, env: Env, obs: Obs, r: Run, p: Params)
    requires Wf(t) && t.mode == Probing && t.base == ArmOf(t.ledger.baseRuns) && t.trial == ArmOf(t.ledger.trialRuns)
    requires |t.ledger.baseRuns| <= 40
    ensures |t.ledger.baseRuns| >= ARM_N && |t.ledger.trialRuns| < ARM_N
    ensures var was, now := t.search.tally, WhileProbing(m, t, env, obs, r, p).t.search.tally;
            var trial := t.ledger.trialRuns + [r];
            var out := if env.aggressive then 3 else 2;
            var gross := obs.result == Over && r.err > 2.0 * env.bracket;
            var kept := && !gross && |trial| == ARM_N
                        && Convinces(m, t.ledger.baseRuns, trial, Room(m, t.window.errs, env.bracket), env);
            if gross || MissesOf(trial) >= out || |trial| == ARM_N then
              && now.accepted == was.accepted + (if kept then 1 else 0)
              && now.rejected == was.rejected + (if kept then 0 else 1)
            else now.accepted == was.accepted && now.rejected == was.rejected
  {
    hide WhileProbing, FinishProbe, MarginSigma, KeepProbe, Convinces, Room, MissesOf, ArmOf, Times, Errors, PolicyFor,
         AddThrow;
    var trial := t.ledger.trialRuns + [r];
    ManyThrows(t.ledger.trialRuns);
    ArmHolds(t.ledger.baseRuns);
    OneMoreInArm(t.ledger.trialRuns, r);
    ArmHolds(trial);
    ProbingCounts(m, t, env, obs, r, p);
    MarginIsRoom(m, t.window.errs, env.bracket);
    var arm, room := ArmOf(trial), Room(m, t.window.errs, env.bracket);
    ThrownOut(m, t.base, arm, room, env);
    if |trial| == ARM_N {
      KeptIfConvincing(m, t.base, t.ledger.baseRuns, arm, trial, room, env);
    }
  }

  lemma OneMoreInArm(rs: seq<Run>, r: Run)
    ensures ArmOf(rs + [r]) == AddThrow(ArmOf(rs), r.total, r.err, r.miss)
  {
    assert (rs + [r])[..|rs|] == rs;
  }

  lemma ThrownOut(m: Libm, base: Arm, trial: Arm, room: real, env: Env)
    requires base.n > 0 && trial.n > 0
    ensures trial.misses >= (if env.aggressive then 3 else 2) ==>
              !KeepProbe(m, base, trial, room, env.landSigma, PolicyFor(env))
  {
    hide Mean, Variance, ErrRms;
  }

  /**
   In every run, at every throw of a probe that is not an edit: the probe is decided at its tenth throw, at the
   miss that throws it out, or at once by a throw more than twice the bracket over; and it is accepted if and
   only if it got to ten throws without the last and they convince. (For a baseline of up to forty throws.)
   */
  lemma ProbeIsKeptIff(m: Libm, es: seq<Throw>, e: Throw)
    requires var t := Play(m, FRESH, es);
             && t.mode == Probing && Usable(e.env, e.obs) && !Differ(e.live, t.seen) && |t.ledger.baseRuns| <= 40
    ensures var t := Play(m, FRESH, es);
            |t.ledger.baseRuns| >= 10 && |t.ledger.trialRuns| < 10
    ensures var t := Play(m, FRESH, es);
            var u := Step(m, t, e).t;
            var was, now := t.search.tally, u.search.tally;
            var trial := t.ledger.trialRuns + [Run(e.live, e.obs.total.v, e.obs.error.v, e.obs.result != Pass)];
            var errs := Last(t.window.errs + [e.obs.error.v], 20);
            var out := if e.env.aggressive then 3 else 2;
            var gross := e.obs.result == Over && e.obs.error.v > 2.0 * e.env.bracket;
            var kept := && !gross && |trial| == 10
                        && Convinces(m, t.ledger.baseRuns, trial, Room(m, errs, e.env.bracket), e.env);
            if gross || MissesOf(trial) >= out || |trial| == 10 then
              && now.accepted == was.accepted + (if kept then 1 else 0)
              && now.rejected == was.rejected + (if kept then 0 else 1)
            else now.accepted == was.accepted && now.rejected == was.rejected
  {
    hide Play, WhileProbing, LogThrow, Settle, Convinces, Room, MissesOf, ArmOf, Differ, Last, BackOffsPaid;
    var t := Play(m, FRESH, es);
    HistoryIsKept(m, es);
    ProbingIsInit(m, es);
    SettledStep(m, t, e);
    var r := Run(e.live, e.obs.total.v, e.obs.error.v, e.obs.result != Pass);
    LogThrowKeepsWf(m, t, e.env, e.obs.result, r.err);
    LoggedAlike(m, t, e.env, e.obs.result, r.err);
    LoggedErrs(m, t, e.env, e.obs.result, r.err);
    var a := LogThrow(m, t, e.env, e.obs.result, r.err);
    ProbingDecides(m, a, e.env, e.obs, r, e.live);
    SettleKeepsSearch(WhileProbing(m, a, e.env, e.obs, r, e.live), e.env);
  }

  lemma LoggedErrs(m: Libm, t: Tuner, env: Env, result: Verdict, err: real)
    ensures var a := LogThrow(m, t, env, result, err);
            && a.window.errs == Last(t.window.errs + [err], ERR_WINDOW) && a.base == t.base && a.trial == t.trial
            && a.ledger.baseRuns == t.ledger.baseRuns && a.ledger.trialRuns == t.ledger.trialRuns
  {
    hide WindowStats, Last;
  }

  lemma SettleKeepsSearch(o: Outcome, env: Env)
    ensures Settle(o, env).t.search == o.t.search
  {
    hide ClampParams;
  }
}
