/** What the tuner's compact statistics stand for, in every run. */
module TunerHistory {
  import opened Numeric
  import opened TunerModel
  import opened TunerRuns
  import opened TunerLimits

  /** An arm as the fold of the throws counted into it, older throws fading once it is full. */
  function ArmOf(rs: seq<Run>): Arm {
    if rs == [] then EMPTY_ARM
    else
      var r := rs[|rs| - 1];
      AddThrow(ArmOf(rs[..|rs| - 1]), r.total, r.err, r.miss)
  }

  function SumOf(rs: seq<Run>, f: Run -> real): real {
    if rs == [] then 0.0 else SumOf(rs[..|rs| - 1], f) + f(rs[|rs| - 1])
  }

  function MissesOf(rs: seq<Run>): nat {
    if rs == [] then 0 else MissesOf(rs[..|rs| - 1]) + if rs[|rs| - 1].miss then 1 else 0
  }

  /** Up to forty throws an arm is the plain count and the plain sums of its throws. */
  lemma {:induction false} ArmIsPlain(rs: seq<Run>)
    requires |rs| <= 4 * ARM_N
    ensures ArmOf(rs) == Arm(|rs|, MissesOf(rs), SumOf(rs, (r: Run) => r.total),
            SumOf(rs, (r: Run) => r.total * r.total),
                             SumOf(rs, (r: Run) => r.err), SumOf(rs, (r: Run) => r.err * r.err))
  {
    if rs != [] {
      ArmIsPlain(rs[..|rs| - 1]);
    }
  }

  predicate SumBetween(n: nat, sum: real, lo: real, hi: real) {
    n as real * lo <= sum <= n as real * hi
  }

  lemma OneMoreBetween(n: nat, sum: real, v: real, lo: real, hi: real)
    requires SumBetween(n, sum, lo, hi) && lo <= v <= hi
    ensures SumBetween(n + 1, sum + v, lo, hi)
  {
    assert (n + 1) as real * lo == n as real * lo + lo;
    assert (n + 1) as real * hi == n as real * hi + hi;
  }

  lemma MeanOfBetween(n: nat, sum: real, lo: real, hi: real)
    requires n > 0 && SumBetween(n, sum, lo, hi)
    ensures lo <= sum / n as real <= hi
  {
  }

  lemma {:induction false} ArmSumBetween(rs: seq<Run>, lo: real, hi: real)
    requires forall r :: r in rs ==> lo <= r.total <= hi
    ensures var a := ArmOf(rs);
            (rs != [] ==> 1 <= a.n) && a.n <= 4 * ARM_N && SumBetween(a.n, a.sum, lo, hi)
  {
    hide SumBetween;
    if rs == [] {
      assert SumBetween(0, 0.0, lo, hi) by { NoThrows(lo, hi); }
    } else {
      var a := ArmOf(rs[..|rs| - 1]);
      ArmSumBetween(rs[..|rs| - 1], lo, hi);
      if a.n >= 4 * ARM_N {
        HalfBetween(a.sum, lo, hi);
        OneMoreBetween(20, a.sum * 0.5, rs[|rs| - 1].total, lo, hi);
      } else {
        OneMoreBetween(a.n, a.sum, rs[|rs| - 1].total, lo, hi);
      }
    }
  }

  lemma NoThrows(lo: real, hi: real)
    ensures SumBetween(0, 0.0, lo, hi)
  {
  }

  lemma HalfBetween(sum: real, lo: real, hi: real)
    requires SumBetween(40, sum, lo, hi)
    ensures SumBetween(20, sum * 0.5, lo, hi)
  {
  }

  /** However many throws fade out of it, an arm's mean lies between its fastest and slowest throw. */
  lemma MeanIsBetween(rs: seq<Run>, lo: real, hi: real)
    requires rs != [] && forall r :: r in rs ==> lo <= r.total <= hi
    ensures lo <= Mean(ArmOf(rs)) <= hi
  {
    ArmSumBetween(rs, lo, hi);
    MeanOfBetween(ArmOf(rs).n, ArmOf(rs).sum, lo, hi);
  }

  predicate Accounted(t: Tuner) {
    && t.base == ArmOf(t.ledger.baseRuns)
    && t.trial == ArmOf(t.ledger.trialRuns)
    && t.ledger.judged.arm == ArmOf(t.ledger.judged.runs)
    && (t.start.known ==> var a := ArmOf(t.ledger.opening.runs);
                          a.n >= ARM_N && t.start == Baseline(true, Mean(a), a.misses))
  }

  /** Each back-off was paid for with three misses, and the misses still on the log are not spent. */
  predicate BackOffsPaid(t: Tuner) {
    3 * t.ledger.nudges + CountTrue(t.window.missLog) <= t.ledger.misses
  }

  predicate Recorded(t: Tuner) {
    Accounted(t) && BackOffsPaid(t)
  }

  lemma {:induction false} CountTrueConcat(a: seq<bool>, b: seq<bool>)
    ensures CountTrue(a + b) == CountTrue(a) + CountTrue(b)
  {
    if b == [] {
      assert a + b == a;
    } else {
      assert (a + b)[..|a + b| - 1] == a + b[..|b| - 1];
      CountTrueConcat(a, b[..|b| - 1]);
    }
  }

  lemma RecentAtMostAll(missLog: seq<bool>, n: nat)
    ensures RecentMisses(missLog, n) <= CountTrue(missLog)
  {
    if |missLog| > n {
      var cut := |missLog| - n;
      assert missLog == missLog[..cut] + missLog[cut..];
      CountTrueConcat(missLog[..cut], missLog[cut..]);
    }
  }

  lemma AddBaseRecorded(t: Tuner, r: Run)
    requires Recorded(t)
    ensures Recorded(AddBase(t, r))
  {
    hide CountTrue, AddThrow;
    var rs := t.ledger.baseRuns;
    assert (rs + [r])[..|rs|] == rs;
  }

  lemma NudgeRecorded(t: Tuner, env: Env, obs: Obs, p: Params)
    requires Recorded(t) && Cluster(t, obs.result)
    ensures Recorded(NudgeForOver(t, env, obs.coarseRanLong, p).t)
  {
    hide ClampParams, BackOff, AddThrow;
    RecentAtMostAll(t.window.missLog, 10);
  }

  lemma LandingLawRecorded(m: Libm, t: Tuner, env: Env, p: Params)
    requires Recorded(t)
    ensures Recorded(LandingLaw(m, t, env, p).t)
  {
    hide ClampParams, LandingDecision, Clampf, CountTrue, AddThrow;
  }

  lemma StartProbeRecorded(m: Libm, t: Tuner, env: Env, p: Params)
    requires Recorded(t) && Shaped(t.search)
    ensures Recorded(StartProbe(m, t, env, p).t)
  {
    hide Candidate, PickKnob, MarginOk, CountTrue, AddThrow;
  }

  lemma FinishProbeRecorded(m: Libm, t: Tuner, env: Env, p: Params)
    requires Shaped(t.search) && t.base.n > 0 && t.trial.n > 0
    requires Recorded(t.(trial := ArmOf(t.ledger.trialRuns)))
    requires t.trial == ArmOf(t.ledger.trialRuns) || t.trial.misses >= PolicyFor(env).rejectMisses
    ensures Recorded(FinishProbe(m, t, env, p).t)
  {
    hide StartProbe, MarginSigma, CountTrue, AddThrow, Differ, EarnedItsKeep, Variance, ErrRms, Grow, PassOn, PolicyFor;
    if KeepProbe(m, t.base, t.trial, MarginSigma(m, t.window.errs, env.bracket), env.landSigma, PolicyFor(env)) {
      assert Recorded(AcceptProbe(t, p));
      assert Shaped(AcceptProbe(t, p).search) by { ShapedAfter(t.search); }
      StartProbeRecorded(m, AcceptProbe(t, p), env, p);
    }
  }

  lemma MeasuringRecorded(m: Libm, t: Tuner, env: Env, obs: Obs, r: Run, p: Params)
    requires Shaped(t.search) && Recorded(t)
    ensures Recorded(WhileMeasuring(m, t, env, obs, r, p).t)
  {
    hide NudgeForOver, LandingLaw, StartProbe, CountTrue, ArmOf, AddThrow, RecentMisses, Differ, EarnedItsKeep;
    if Cluster(t, obs.result) {
      NudgeRecorded(t, env, obs, p);
    } else {
      AddBaseRecorded(t, r);
      LandingLawRecorded(m, AddBase(t, r), env, p);
      LandingLawKeepsSearch(m, AddBase(t, r), env, p);
      var o := SteerLanding(m, AddBase(t, r), env, obs.result, p);
      var u := if o.t.wait > 0 then o.t.(wait := o.t.wait - 1) else o.t;
      StartProbeRecorded(m, u, env, o.p);
      assert ArmOf([]) == EMPTY_ARM by { EmptyArm(); }
    }
  }

  lemma EmptyArm()
    ensures ArmOf([]) == EMPTY_ARM
  {
  }

  lemma ProbingRecorded(m: Libm, t: Tuner, env: Env, obs: Obs, r: Run, p: Params)
    requires Shaped(t.search) && t.base.n > 0 && Recorded(t)
    ensures Recorded(WhileProbing(m, t, env, obs, r, p).t)
  {
    hide FinishProbe, CountTrue;
    var pol := PolicyFor(env);
    var rs := t.ledger.trialRuns;
    assert (rs + [r])[..|rs|] == rs;
    var a := AddTrial(t, r);
    var u := if obs.result == Over && r.err > 2.0 * env.bracket then a.(trial := a.trial.(misses := pol.rejectMisses))
        else a;
    if u.trial.n >= ARM_N || u.trial.misses >= pol.rejectMisses {
      FinishProbeRecorded(m, u, env, p);
    }
  }

  lemma ConvergedRecorded(m: Libm, t: Tuner, env: Env, obs: Obs, r: Run, p: Params)
    requires Recorded(t)
    ensures Recorded(WhileConverged(m, t, env, obs, r, p).t)
  {
    hide NudgeForOver, LandingLaw, CountTrue, ArmOf, AddThrow, ClampParams, RecentMisses;
    var o := if Cluster(t, obs.result) then NudgeForOver(t, env, obs.coarseRanLong, p) else Outcome(t, p);
    if Cluster(t, obs.result) {
      NudgeRecorded(t, env, obs, p);
    }
    AddBaseRecorded(o.t, r);
    LandingLawRecorded(m, AddBase(o.t, r), env, o.p);
    EmptyArm();
  }

  lemma LogThrowRecorded(m: Libm, t: Tuner, env: Env, result: Verdict, err: real)
    requires Recorded(t)
    ensures Recorded(LogThrow(m, t, env, result, err))
  {
    hide WindowStats, ArmOf;
    var miss := result != Pass;
    assert (t.window.missLog + [miss])[..|t.window.missLog|] == t.window.missLog;
  }

  lemma ObserveRecorded(m: Libm, t: Tuner, env: Env, obs: Obs, p: Params)
    requires Wf(t) && Recorded(t)
    ensures Recorded(Observe(m, t, env, obs, p).t)
  {
    hide WhileMeasuring, WhileProbing, WhileConverged, ClampParams, Differ, LogThrow;
    if Usable(env, obs) {
      var o := NoticeEdit(t, p);
      var r := Run(p, obs.total.v, obs.error.v, obs.result != Pass);
      LogThrowRecorded(m, o.t, env, obs.result, r.err);
      var u := LogThrow(m, o.t, env, obs.result, r.err);
      assert Wf(u) by { LogThrowKeepsWf(m, o.t, env, obs.result, r.err); }
      match u.mode {
        case Measuring => MeasuringRecorded(m, u, env, obs, r, o.p);
        case Probing => ProbingRecorded(m, u, env, obs, r, o.p);
        case Converged => ConvergedRecorded(m, u, env, obs, r, o.p);
      }
    }
  }

  /** In every run the arms are the throws behind them, and back-offs number at most a third of the misses. */
  lemma {:induction false} HistoryIsKept(m: Libm, es: seq<Throw>)
    ensures var t := Play(m, FRESH, es);
            Recorded(t) && 3 * t.ledger.nudges <= t.ledger.misses
  {
    hide Observe;
    if es != [] {
      var e := es[|es| - 1];
      HistoryIsKept(m, es[..|es| - 1]);
      ObserveRecorded(m, Play(m, FRESH, es[..|es| - 1]), e.env, e.obs, e.live);
    }
  }
}
