/** Runs, throw by throw, in which a promise about the tuner does not hold as it stands. */
module TunerWitness {
  import opened Numeric
  import opened TunerModel
  import opened TunerRuns
  import opened TunerLimits
  import opened TunerHistory
  import opened TunerLedger
  import opened TunerEdits
  import opened TunerIsolation
  import opened TunerNeverWorse
  import opened TunerSmallEdits
  import opened TunerOpening

  const PROFILE := Params(2.0, 0.2, 1.0, 3.0, 0.5, 6.0, 2.0)
  const BACKED_OFF := PROFILE.(fineMin := 0.17, fineKp := 0.92)
  /** A coarse speed of three, which is the motor's maximum in ROOM. */
  const NUDGED := PROFILE.(coarseMax := 3.0001)
  const ROOM := Env(40.0, 0.02, 2.0, 3.0, 0.05, 0.1, 0.5, 20.0, 0.3, false)

  const WENT_OVER := Obs(Over, Number(10.0), Number(0.1), false)
  const FELL_SHORT := Obs(Under, Number(10.0), Number(-0.1), false)

  /** A throw of that many seconds, right on the target. */
  function PassIn(seconds: real): Obs {
    Obs(Pass, Number(seconds), Number(0.0), false)
  }

  /** The arm of n such throws. */
  function Arms(n: nat, seconds: real): Arm {
    Arm(n, 0, n as real * seconds, n as real * (seconds * seconds), 0.0, 0.0)
  }

  lemma ArmsGrow(n: nat, seconds: real)
    requires n < 4 * ARM_N
    ensures AddThrow(Arms(n, seconds), seconds, 0.0, false) == Arms(n + 1, seconds)
  {
    assert (n + 1) as real * seconds == n as real * seconds + seconds;
    assert (n + 1) as real * (seconds * seconds) == n as real * (seconds * seconds) + seconds * seconds;
  }

  predicate AllZero(errs: seq<real>) {
    forall k :: 0 <= k < |errs| ==> errs[k] == 0.0
  }

  lemma {:induction false} ZeroSums(errs: seq<real>, clip: real)
    requires AllZero(errs) && clip >= 0.0
    ensures SumClipped(errs, clip) == 0.0 && SumSqClipped(errs, clip) == 0.0
  {
    if errs != [] {
      ZeroSums(errs[..|errs| - 1], clip);
    }
  }

  /** Throws that all land on the target give the landing law nothing to do. */
  lemma NothingToSteer(m: Libm, t: Tuner, env: Env, p: Params)
    requires AllZero(t.window.errs) && env.bracket > 0.0
    ensures LandingLaw(m, t, env, p).p == p && LandingLaw(m, t, env, p).t == t
  {
    ZeroSums(t.window.errs, SD_CLIP * env.bracket);
    hide SumClipped, SumSqClipped, MoveLanding, LandingRatio;
  }

  const FIRST_SEARCH := Search(0, [1, 1, 1, 1], START_STEPS, [false, false, false, false], Tally(12, 0, 0, 0, 0))

  /** Measuring the profile p as first seen, n throws so far. */
  predicate MeasuringFirst(t: Tuner, anchor: Params, p: Params, n: nat) {
    && t.init && t.mode == Measuring && t.anchor == anchor && t.good == p && t.seen == p && t.base.n == n
    && t.wait == 0 && !t.start.known && t.search == FIRST_SEARCH
    && t.trial == EMPTY_ARM && t.base.misses <= n && |t.window.errs| <= ERR_WINDOW
  }

  lemma MeasuringIsWf(t: Tuner, anchor: Params, p: Params, n: nat)
    requires MeasuringFirst(t, anchor, p, n) && n <= ARM_N
    ensures Wf(t)
  {
  }

  /** A throw that neither backs off nor steers nor fills the baseline just counts. */
  lemma OneMore(m: Libm, t: Tuner, env: Env, anchor: Params, p: Params, n: nat, obs: Obs)
    requires MeasuringFirst(t, anchor, p, n) && n + 1 < ARM_N && Usable(env, obs) && Fixed(anchor, env, p)
    requires obs.result == Pass ==> AllZero(t.window.errs) && obs.error.v == 0.0
    requires obs.result == Over ==> RecentMisses(t.window.missLog + [true], 10) < 3
    ensures Wf(t)
    ensures var u := Step(m, t, Throw(env, obs, p)).t;
            && MeasuringFirst(u, anchor, p, n + 1) && u.window.missLog == t.window.missLog + [obs.result != Pass]
            && u.window.errs == Last(t.window.errs + [obs.error.v], ERR_WINDOW)
            && u.base == AddThrow(t.base, obs.total.v, obs.error.v, obs.result != Pass)
  {
    hide ClampParams, Differ, WindowStats, BackOff, StartProbe, LandingLaw, AddThrow;
    MeasuringIsWf(t, anchor, p, n);
    NoDifference(p);
    AddedCounts(t.base, obs.total.v, obs.error.v, obs.result != Pass);
    var r := Run(p, obs.total.v, obs.error.v, obs.result != Pass);
    var a := LogThrow(m, t, env, obs.result, r.err);
    assert a.window.missLog == t.window.missLog + [obs.result != Pass];
    assert !Cluster(a, obs.result);
    if obs.result == Pass {
      ZerosGrow(t.window.errs);
      NothingToSteer(m, AddBase(a, r), env, p);
    }
  }

  lemma AddedCounts(a: Arm, seconds: real, err: real, miss: bool)
    requires a.n < ARM_N && a.misses <= a.n
    ensures var b := AddThrow(a, seconds, err, miss); b.n == a.n + 1 && b.misses <= b.n
  {
  }

  lemma ZerosGrow(errs: seq<real>)
    requires AllZero(errs)
    ensures AllZero(Last(errs + [0.0], ERR_WINDOW))
  {
  }

  lemma FirstOne(m: Libm, env: Env, p: Params, obs: Obs)
    requires Usable(env, obs) && Fixed(p, env, p) && (obs.result == Pass ==> obs.error.v == 0.0)
    ensures var u := Step(m, FRESH, Throw(env, obs, p)).t;
            && MeasuringFirst(u, p, p, 1) && u.window.missLog == [obs.result != Pass]
            && u.window.errs == [obs.error.v]
            && u.base == AddThrow(EMPTY_ARM, obs.total.v, obs.error.v, obs.result != Pass)
  {
    hide ClampParams, Differ, WindowStats, BackOff, StartProbe, LandingLaw, AddThrow;
    AddedCounts(EMPTY_ARM, obs.total.v, obs.error.v, obs.result != Pass);
    var t := AnchorTo(p, EMPTY_LEDGER);
    var r := Run(p, obs.total.v, obs.error.v, obs.result != Pass);
    var a := LogThrow(m, t, env, obs.result, r.err);
    assert a.window.missLog == [obs.result != Pass];
    OneMissAtMost(obs.result != Pass);
    if obs.result == Pass {
      NothingToSteer(m, AddBase(a, r), env, p);
    }
  }

  lemma ProfileFits()
    ensures Fixed(PROFILE, ROOM, PROFILE) && InRange(PROFILE, ROOM, PROFILE) && Fixed(PROFILE, ROOM, BACKED_OFF)
  {
    FixedIffInRange(PROFILE, ROOM, PROFILE);
    FixedIffInRange(PROFILE, ROOM, BACKED_OFF);
  }

  lemma AppendOne(m: Libm, es: seq<Throw>, e: Throw)
    ensures Play(m, FRESH, es + [e]) == Step(m, Play(m, FRESH, es), e).t
  {
    assert (es + [e])[..|es|] == es;
  }

  // ----- nine throws alike

  function Row(env: Env, p: Params, seconds: real, n: nat): seq<Throw> {
    seq(n, _ => Throw(env, PassIn(seconds), p))
  }

  lemma RowGrows(env: Env, p: Params, seconds: real, n: nat)
    requires n > 0
    ensures Row(env, p, seconds, n) == Row(env, p, seconds, n - 1) + [Throw(env, PassIn(seconds), p)]
  {
  }

  lemma {:induction false} RowMeasures(m: Libm, env: Env, p: Params, seconds: real, n: nat)
    requires 1 <= n < ARM_N && env.bracket > 0.0 && Fixed(p, env, p)
    ensures var t := Play(m, FRESH, Row(env, p, seconds, n));
            && MeasuringFirst(t, p, p, n) && AllZero(t.window.errs) && |t.window.errs| == n
            && t.base == Arms(n, seconds)
  {
    hide Step, Fixed, Row, AddThrow;
    var e := Throw(env, PassIn(seconds), p);
    RowGrows(env, p, seconds, n);
    AppendOne(m, Row(env, p, seconds, n - 1), e);
    ArmsGrow(n - 1, seconds);
    if n == 1 {
      EmptyRow(env, p, seconds);
      FirstOne(m, env, p, PassIn(seconds));
    } else {
      RowMeasures(m, env, p, seconds, n - 1);
      var t := Play(m, FRESH, Row(env, p, seconds, n - 1));
      ZerosGrow(t.window.errs);
      OneMore(m, t, env, p, p, n - 1, PassIn(seconds));
    }
  }

  lemma EmptyRow(env: Env, p: Params, seconds: real)
    ensures Row(env, p, seconds, 0) == []
  {
  }

  // ----- an edit too small to be noticed

  /** The tenth throw meets the time goal: nothing is searched, and the profile left live is kept. */
  lemma TenthSettles(m: Libm, t: Tuner)
    requires MeasuringFirst(t, PROFILE, PROFILE, 9) && AllZero(t.window.errs) && t.base == Arms(9, 10.0)
    ensures Wf(t)
    ensures var o := Step(m, t, Throw(ROOM, PassIn(10.0), NUDGED));
            && o.t.mode == Converged && o.t.ledger.judged.good == PROFILE && o.t.anchor == PROFILE
            && o.p == ClampParams(PROFILE, ROOM, NUDGED)
  {
    hide ClampParams, WindowStats, BackOff, LandingLaw, PickKnob, Beats;
    MeasuringIsWf(t, PROFILE, PROFILE, 9);
    assert !Differ(NUDGED, PROFILE) && !Differ(PROFILE, PROFILE);
    var r := Run(NUDGED, 10.0, 0.0, false);
    var a := LogThrow(m, t, ROOM, Pass, 0.0);
    assert AllZero(a.window.errs);
    ZerosGrow(t.window.errs);
    NothingToSteer(m, AddBase(a, r), ROOM, NUDGED);
    var b := AddBase(a, r);
    assert b.base.n == 10 && b.base.sum == 100.0 && Mean(b.base) == 10.0;
    hide Mean, Differ, LogThrow, AddBase;
    assert StartProbe(m, b, ROOM, NUDGED).t.search.done == [true, true, true, true];
  }

  /**
   An edit too small to be noticed can leave a profile that differs from the one judged: the coarse speed
   is raised by 1e-4 above the motor's maximum, the clamp brings it back, and scales the coarse Kp with it.
   */
  lemma SmallEditShows(m: Libm)
    ensures var es, e := Row(ROOM, PROFILE, 10.0, 9), Throw(ROOM, PassIn(10.0), NUDGED);
            var t := Play(m, FRESH, es);
            var o := Step(m, t, e);
            && OneEnv(es + [e], ROOM) && t.mode == Measuring && o.t.mode == Converged && KeptTheLast(o.t)
            && !Differ(e.live, t.seen) && CoarseClamped(t.anchor, ROOM, e.live) && Differ(o.p, o.t.ledger.judged.good)
  {
    hide Step, Beats;
    ProfileFits();
    RowMeasures(m, ROOM, PROFILE, 10.0, 9);
    TenthSettles(m, Play(m, FRESH, Row(ROOM, PROFILE, 10.0, 9)));
    var q := ClampParams(PROFILE, ROOM, NUDGED);
    assert q.coarseMax == 3.0 && q.coarseKp == 6.0 * (3.0 / 3.0001);
  }

  // ----- a start that was not the original

  /** Three throws over, the third of which backs the profile off, and ten short ones. */
  function Opening(n: nat): seq<Throw> {
    seq(n, i => if i < 3 then Throw(ROOM, WENT_OVER, PROFILE) else Throw(ROOM, FELL_SHORT, BACKED_OFF))
  }

  lemma OpeningGrows(m: Libm, n: nat)
    requires n > 0
    ensures var e := if n <= 3 then Throw(ROOM, WENT_OVER, PROFILE) else Throw(ROOM, FELL_SHORT, BACKED_OFF);
            Opening(n) == Opening(n - 1) + [e] && Play(m, FRESH, Opening(n))
                == Step(m, Play(m, FRESH, Opening(n - 1)), e).t
  {
    hide Step;
    var e := if n <= 3 then Throw(ROOM, WENT_OVER, PROFILE) else Throw(ROOM, FELL_SHORT, BACKED_OFF);
    assert Opening(n) == Opening(n - 1) + [e];
    AppendOne(m, Opening(n - 1), e);
  }

  lemma TwoOvers(m: Libm)
    ensures Opening(0) == []
    ensures MeasuringFirst(Play(m, FRESH, Opening(1)), PROFILE, PROFILE, 1)
    ensures var t := Play(m, FRESH, Opening(2));
            MeasuringFirst(t, PROFILE, PROFILE, 2) && t.window.missLog == [true, true]
  {
    hide Step, Fixed;
    ProfileFits();
    OpeningGrows(m, 1);
    FirstOne(m, ROOM, PROFILE, WENT_OVER);
    OpeningGrows(m, 2);
    var t := Play(m, FRESH, Opening(1));
    assert [true] + [true] == [true, true];
    CountOfTwo();
    OneMore(m, t, ROOM, PROFILE, PROFILE, 1, WENT_OVER);
  }

  lemma CountOfTwo()
    ensures RecentMisses([true, true], 10) == 2 && RecentMisses([true, true, true], 10) == 3
  {
    assert Last([true, true], 10) == [true, true] && Last([true, true, true], 10) == [true, true, true];
    assert [true, true, true][..2] == [true, true] && [true, true][..1] == [true] && [true][..0] == [];
    assert CountTrue([true]) == CountTrue([]) + 1;
    assert CountTrue([true, true]) == CountTrue([true]) + 1;
    assert CountTrue([true, true, true]) == CountTrue([true, true]) + 1;
  }

  lemma ThirdOver(m: Libm)
    ensures MeasuringFirst(Play(m, FRESH, Opening(3)), PROFILE, BACKED_OFF, 0)
  {
    hide WindowStats, Play, Differ, StartProbe, LandingLaw;
    TwoOvers(m);
    OpeningGrows(m, 3);
    ProfileFits();
    NoDifference(PROFILE);
    var t := Play(m, FRESH, Opening(2));
    var a := LogThrow(m, t, ROOM, Over, 0.1);
    assert a.window.missLog == [true, true, true];
    CountOfTwo();
    assert Cluster(a, Over);
    BacksOffTo();
    hide ClampParams, BackOff, LogThrow;
    assert NudgeForOver(a, ROOM, false, PROFILE).p == BACKED_OFF;
  }

  lemma BacksOffTo()
    ensures ClampParams(PROFILE, ROOM, BackOff(PROFILE, ROOM, false)) == BACKED_OFF
  {
  }

  lemma {:induction false} ShortThrows(m: Libm, n: nat)
    requires 3 <= n < 13
    ensures MeasuringFirst(Play(m, FRESH, Opening(n)), PROFILE, BACKED_OFF, n - 3)
  {
    hide Step, Fixed;
    if n == 3 {
      ThirdOver(m);
    } else {
      ShortThrows(m, n - 1);
      OpeningGrows(m, n);
      ProfileFits();
      OneMore(m, Play(m, FRESH, Opening(n - 1)), ROOM, PROFILE, BACKED_OFF, n - 4, FELL_SHORT);
    }
  }

  /** The tenth short throw fills the baseline, and the start is known. */
  lemma TenthShort(m: Libm)
    ensures var t := Play(m, FRESH, Opening(13)); t.init && t.start.known && t.anchor == PROFILE
  {
    hide WindowStats, Play, ClampParams, EnterMonitor, PickKnob, Candidate;
    ShortThrows(m, 12);
    OpeningGrows(m, 13);
    NoDifference(BACKED_OFF);
    hide Differ;
    var t := Play(m, FRESH, Opening(12));
    var r := Run(BACKED_OFF, 10.0, -0.1, true);
    var a := AddBase(LogThrow(m, t, ROOM, Under, -0.1), r);
    MeasuringIsWf(t, PROFILE, BACKED_OFF, 9);
    LogThrowKeepsWf(m, t, ROOM, Under, -0.1);
    StartProbeFrame(m, a, ROOM, BACKED_OFF);
    MonitorKeepsOpening(StartProbe(m, a, ROOM, BACKED_OFF).t, StartProbe(m, a, ROOM, BACKED_OFF).p);
    LoggedAlike(m, t, ROOM, Under, -0.1);
    DispatchTame(m, LogThrow(m, t, ROOM, Under, -0.1), ROOM, FELL_SHORT, r, BACKED_OFF);
  }

  lemma OpeningIsCalm(m: Libm)
    ensures CalmRun(m, ROOM, Opening(13))
  {
    hide Step, InRange;
    var es := Opening(13);
    ProfileFits();
    TwoOvers(m);
    forall i | 0 <= i < 13
      ensures var t := Play(m, FRESH, es[..i]);
              es[i].env == ROOM && if t.init then es[i].live == t.seen else InRange(es[i].live, ROOM, es[i].live)
    {
      assert es[..i] == Opening(i);
      if i >= 3 {
        ShortThrows(m, i);
      }
    }
  }

  /**
   A run without edits in which the start to beat is not that of the profile as first seen: the third
   throw over backs the profile off before the first baseline is full.
   */
  lemma StartIsNotTheOriginal(m: Libm)
    ensures var es := Opening(13);
            var t := Play(m, FRESH, es);
            && CalmRun(m, ROOM, es) && t.init && t.start.known && ThirdMissTooEarly(m, es)
            && !SameButFineMin(t.ledger.opening.on, t.anchor)
  {
    hide Step, CalmRun;
    var es := Opening(13);
    OpeningIsCalm(m);
    TenthShort(m);
    TwoOvers(m);
    assert es[..2] == Opening(2) && es[..3] == Opening(3);
    assert ThirdMissAt(es, 2) by {
      ThreeSeen();
      CountOfTwo();
    }
    OpeningIsTheOriginalIff(m, ROOM, es);
  }

  lemma ThreeSeen()
    ensures MissesSeen(Opening(3)) == [true, true, true]
  {
    assert Opening(3)[..2] == Opening(2) && Opening(2)[..1] == Opening(1) && Opening(1)[..0] == [];
    assert MissesSeen(Opening(1)) == MissesSeen([]) + [true];
    assert MissesSeen(Opening(2)) == MissesSeen(Opening(1)) + [true];
    assert MissesSeen(Opening(3)) == MissesSeen(Opening(2)) + [true];
  }

  // ----- edits made while a probe runs

  const CANDIDATE := PROFILE.(handoff := 2.5)
  const HANDOFF_TO := Edit(Untouched, Untouched, Untouched, Untouched, Untouched, Untouched, To(2.5))

  predicate ProbingHandoff(t: Tuner) {
    && t.init && t.mode == Probing && t.anchor == PROFILE && t.good == PROFILE && t.seen == CANDIDATE
    && Shaped(t.search) && t.search.knob == HANDOFF && t.search.step == START_STEPS
    && t.search.done == [false, false, false, false] && t.base.n == ARM_N && t.trial == EMPTY_ARM
  }

  lemma WiderHandoff(s: Search)
    requires Shaped(s) && s.dir == FIRST_SEARCH.dir && s.step == START_STEPS
    ensures Candidate(s, PROFILE, PROFILE, ROOM, HANDOFF) == CANDIDATE && Differ(CANDIDATE, PROFILE)
    ensures ClampParams(PROFILE, ROOM, CANDIDATE) == CANDIDATE
  {
  }

  /** The tenth throw misses the time goal of twenty seconds: the first probe widens the handoff. */
  lemma TenthProbes(m: Libm, t: Tuner)
    requires MeasuringFirst(t, PROFILE, PROFILE, 9) && AllZero(t.window.errs) && t.base == Arms(9, 21.0)
    ensures Wf(t) && ProbingHandoff(Step(m, t, Throw(ROOM, PassIn(21.0), PROFILE)).t)
  {
    hide ClampParams, WindowStats, BackOff, LandingLaw, PickKnob, Candidate, Differ;
    MeasuringIsWf(t, PROFILE, PROFILE, 9);
    NoDifference(PROFILE);
    var r := Run(PROFILE, 21.0, 0.0, false);
    var b := AddBase(LogThrow(m, t, ROOM, Pass, 0.0), r);
    ZerosGrow(t.window.errs);
    NothingToSteer(m, b, ROOM, PROFILE);
    assert b.base.n == 10 && b.base.sum == 210.0 && Mean(b.base) == 21.0;
    hide Mean, LogThrow, AddBase;
    WiderHandoff(FIRST_SEARCH);
    PickUnfolds(FIRST_SEARCH, PROFILE, PROFILE, ROOM, MarginOk(m, b.window.errs, ROOM), 0);
    hide MarginOk;
    var s := StartProbe(m, b, ROOM, PROFILE);
    assert s.started && s.p == CANDIDATE;
  }

  lemma FirstProbe(m: Libm)
    ensures ProbingHandoff(Play(m, FRESH, Row(ROOM, PROFILE, 21.0, 10)))
  {
    hide Step, Fixed, Row, ProbingHandoff;
    ProfileFits();
    RowMeasures(m, ROOM, PROFILE, 21.0, 9);
    RowGrows(ROOM, PROFILE, 21.0, 10);
    AppendOne(m, Row(ROOM, PROFILE, 21.0, 9), Throw(ROOM, PassIn(21.0), PROFILE));
    TenthProbes(m, Play(m, FRESH, Row(ROOM, PROFILE, 21.0, 9)));
  }

  /** A noticed edit of which half is lost: the fine Kp is taken, the handoff set to the candidate's is not. */
  lemma EditIsLost(m: Libm)
    ensures var t := Play(m, FRESH, Row(ROOM, PROFILE, 21.0, 10));
            var e := HANDOFF_TO.(fineKp := To(1.2));
            && t.init && t.mode == Probing && Differ(Apply(e, t.seen), t.seen)
            && Apply(e, t.good) == PROFILE.(fineKp := 1.2, handoff := 2.5)
            && NoticeEdit(t, Apply(e, t.seen)).p == PROFILE.(fineKp := 1.2)
  {
    hide Play, Row;
    FirstProbe(m);
  }

  /** An edit that is not noticed, and lost with the candidate: one throw grossly over, and the handoff is back. */
  lemma UnnoticedEditIsLost(m: Libm)
    ensures var t := Play(m, FRESH, Row(ROOM, PROFILE, 21.0, 10));
            var live := Apply(HANDOFF_TO, t.seen);
            && t.init && t.mode == Probing && !Differ(live, t.seen)
            && live.handoff == 2.5 && Step(m, t, Throw(ROOM, WENT_OVER, live)).p.handoff == 2.0
  {
    hide Play, Row, Step;
    FirstProbe(m);
    NoDifference(CANDIDATE);
    RejectedAtOnce(m, Play(m, FRESH, Row(ROOM, PROFILE, 21.0, 10)));
  }

  lemma RejectedAtOnce(m: Libm, t: Tuner)
    requires Wf(t) && ProbingHandoff(t)
    ensures Step(m, t, Throw(ROOM, WENT_OVER, CANDIDATE)).p == PROFILE
  {
    hide ClampParams, WindowStats, MarginSigma, Differ, Variance, ErrRms;
    NoDifference(CANDIDATE);
    ProfileFits();
    assert PassOn(t.search).done[0] == false;
  }
}
