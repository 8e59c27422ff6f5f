/**
 What the start to beat was measured on. The comment above `enter_monitor` (src/learn_tuner.c:346-349)
 says that the profile as first seen was measured for a full arm. That is so exactly when no
 back-off came before the first baseline was full: a back-off empties the baseline and changes the
 profile, but the anchor, which a disappointing search restores, stays as it was.
 */
module TunerOpening {
  import opened Numeric
  import opened TunerModel
  import opened TunerRuns
  import opened TunerLimits
  import opened TunerIsolation

  /** Until the start is known the profile has only been backed off, and its landing speed steered. */
  predicate OnlyLowered(t: Tuner) {
    var g, a := t.good, t.anchor;
    && (!t.start.known ==>
          && t.mode == Measuring && g.fineKp <= a.fineKp && g.coarseMax <= a.coarseMax
          && (t.ledger.nudged ==> g.fineKp < a.fineKp || g.coarseMax < a.coarseMax))
    && (t.start.known && t.ledger.opening.nudged ==>
          t.ledger.opening.on.fineKp < a.fineKp || t.ledger.opening.on.coarseMax < a.coarseMax)
  }

  lemma NudgeLowers(t: Tuner, env: Env, coarseRanLong: bool, p: Params)
    requires p == t.good && t.anchor.fineKp > 0.0 && t.anchor.coarseMax > 0.0 && OnlyLowered(t)
    requires Fixed(t.anchor, env, p) && Fixed(t.anchor, env, t.anchor) && !t.start.known
    ensures OnlyLowered(NudgeForOver(t, env, coarseRanLong, p).t)
  {
    var q := ClampParams(t.anchor, env, BackOff(p, env, coarseRanLong));
    FixedIffInRange(t.anchor, env, p);
    FixedIffInRange(t.anchor, env, t.anchor);
    assert q.fineKp <= t.anchor.fineKp && q.coarseMax <= t.anchor.coarseMax
           && (q.fineKp < t.anchor.fineKp || q.coarseMax < t.anchor.coarseMax) by {
      hide Fixed, PolicyFor;
      BackOffLowers(t.anchor, env, p, coarseRanLong);
    }
  }

  lemma BackOffLowers(anchor: Params, env: Env, p: Params, coarseRanLong: bool)
    requires anchor.fineKp > 0.0 && anchor.coarseMax > 0.0
    requires InRange(anchor, env, p) && InRange(anchor, env, anchor)
    requires p.fineKp <= anchor.fineKp && p.coarseMax <= anchor.coarseMax
    ensures var q := ClampParams(anchor, env, BackOff(p, env, coarseRanLong));
            && q.fineKp <= anchor.fineKp && q.coarseMax <= anchor.coarseMax
            && (q.fineKp < anchor.fineKp || q.coarseMax < anchor.coarseMax)
  {
  }

  // ----- once known, the start stays what it was

  predicate StartKept(t: Tuner, u: Tuner) {
    t.start.known ==> u.start == t.start && u.ledger.opening == t.ledger.opening && u.anchor == t.anchor
  }

  lemma SteadyKeepsStart(m: Libm, t: Tuner, env: Env, coarseRanLong: bool, r: Run, p: Params)
    ensures StartKept(t, NudgeForOver(t, env, coarseRanLong, p).t)
    ensures StartKept(t, AddBase(t, r)) && StartKept(t, LandingLaw(m, t, env, p).t)
    ensures StartKept(t, EnterMonitor(t, p).t) && StartKept(t, DriftCheck(t, env, p).t)
  {
    hide ClampParams, LandingDecision, BackOff, AddThrow, Differ, EarnedItsKeep, Mean;
  }

  lemma FinishProbeKeepsStart(m: Libm, t: Tuner, env: Env, p: Params)
    requires Shaped(t.search) && t.base.n > 0 && t.trial.n > 0
    ensures StartKept(t, FinishProbe(m, t, env, p).t)
  {
    hide StartProbe, EnterMonitor, KeepProbe, MarginSigma, Grow, PassOn;
    ShapedAfter(t.search);
    var a := AcceptProbe(t, p);
    StartProbeFrame(m, a, env, p);
    var s := StartProbe(m, a, env, p);
    EnterMonitorKeepsStart(s.t, s.t.good);
    EnterMonitorKeepsStart(RejectProbe(t), t.good);
  }

  lemma EnterMonitorKeepsStart(t: Tuner, p: Params)
    ensures StartKept(t, EnterMonitor(t, p).t)
  {
    hide Differ, EarnedItsKeep;
  }

  lemma DispatchKeepsStart(m: Libm, t: Tuner, env: Env, obs: Obs, r: Run, p: Params)
    requires Wf(t) && t.start.known
    ensures StartKept(t, Dispatch(m, t, env, obs, r, p).t)
  {
    hide NudgeForOver, AddBase, LandingLaw, StartProbe, EnterMonitor, FinishProbe, DriftCheck, Cluster, AddThrow,
         PolicyFor;
    SteadyKeepsStart(m, t, env, obs.coarseRanLong, r, p);
    match t.mode {
      case Measuring =>
        var a := AddBase(t, r);
        SteadyKeepsStart(m, a, env, obs.coarseRanLong, r, p);
        AddBaseKeepsSearch(t, r);
        LandingLawKeepsSearch(m, a, env, p);
        var o := SteerLanding(m, a, env, obs.result, p);
        var u := if o.t.wait > 0 then o.t.(wait := o.t.wait - 1) else o.t;
        StartProbeFrame(m, u, env, o.p);
        var s := StartProbe(m, u, env, o.p);
        EnterMonitorKeepsStart(s.t, s.p);
      case Probing =>
        var a := AddTrial(t, r);
        AddTrialCounts(t, r);
        FinishProbeKeepsStart(m, a, env, p);
        FinishProbeKeepsStart(m, a.(trial := a.trial.(misses := PolicyFor(env).rejectMisses)), env, p);
      case Converged =>
        var o := if Cluster(t, obs.result) then NudgeForOver(t, env, obs.coarseRanLong, p) else Outcome(t, p);
        SteadyKeepsStart(m, o.t, env, obs.coarseRanLong, r, o.p);
        var a := AddBase(o.t, r);
        SteadyKeepsStart(m, a, env, obs.coarseRanLong, r, o.p);
        var q := SteerLanding(m, a, env, obs.result, o.p);
        SteadyKeepsStart(m, q.t, env, obs.coarseRanLong, r, q.p);
    }
  }

  lemma AddBaseKeepsSearch(t: Tuner, r: Run)
    ensures AddBase(t, r).search == t.search
  {
  }

  // ----- until then, only back-offs and the landing law touch the profile

  lemma OpeningThrow(m: Libm, t: Tuner, env: Env, obs: Obs, r: Run, p: Params)
    requires Wf(t) && OnlyLowered(t) && !t.start.known && p == t.good
    requires Fixed(t.anchor, env, p) && Fixed(t.anchor, env, t.anchor) && t.anchor.fineKp > 0.0
             && t.anchor.coarseMax > 0.0
    ensures OnlyLowered(Dispatch(m, t, env, obs, r, p).t)
  {
    hide NudgeForOver, LandingLaw, PickKnob, EnterMonitor, Cluster, AddThrow, MarginOk, Candidate, Fixed, Mean;
    NudgeLowers(t, env, obs.coarseRanLong, p);
    var a := AddBase(t, r);
    LandingLawOpens(m, a, env, p);
    var o := SteerLanding(m, a, env, obs.result, p);
    var u := if o.t.wait > 0 then o.t.(wait := o.t.wait - 1) else o.t;
    assert OnlyLowered(u) && Shaped(u.search);
    if u.base.n >= ARM_N {
      StartProbeOpens(m, u, env, o.p);
      var s := StartProbe(m, u, env, o.p);
      EnterMonitorKeepsStart(s.t, s.p);
    }
  }

  lemma LandingLawOpens(m: Libm, t: Tuner, env: Env, p: Params)
    requires OnlyLowered(t) && !t.start.known
    ensures var o := LandingLaw(m, t, env, p); OnlyLowered(o.t) && !o.t.start.known && o.t.search == t.search
  {
    hide ClampParams, LandingDecision;
  }

  lemma StartProbeOpens(m: Libm, t: Tuner, env: Env, p: Params)
    requires Shaped(t.search) && OnlyLowered(t) && !t.start.known && t.base.n >= ARM_N
    ensures var s := StartProbe(m, t, env, p); OnlyLowered(s.t) && s.t.start.known
  {
    hide PickKnob, MarginOk, Candidate, Mean;
  }

  predicate Opened(t: Tuner) {
    t.init && t.anchor.fineKp > 0.0 && t.anchor.coarseMax > 0.0 ==> OnlyLowered(t)
  }

  lemma OpenedStep(m: Libm, t: Tuner, e: Throw)
    requires Wf(t) && Opened(t) && CalmState(t, e.env) && JudgedPure(t.ledger.judged)
    requires if t.init then e.live == t.seen else InRange(e.live, e.env, e.live)
    ensures Opened(Step(m, t, e).t)
  {
    hide ClampParams, Dispatch, LogThrow, Settle, Calm, InRange, OnlyLowered;
    ObserveCalm(m, t, e.env, e.obs, e.live);
    if Usable(e.env, e.obs) {
      NoDifference(e.live);
      FixedIffInRange(e.live, e.env, e.live);
      var o := NoticeEdit(t, e.live);
      if !t.init {
        AnchorCalm(e.env, e.live, t.ledger);
        AnchorLowered(e.live, t.ledger);
      }
      var r := Run(e.live, e.obs.total.v, e.obs.error.v, e.obs.result != Pass);
      var u := LogThrow(m, o.t, e.env, e.obs.result, r.err);
      LogThrowKeepsWf(m, o.t, e.env, e.obs.result, r.err);
      LogThrowCalm(m, o.t, e.env, e.obs.result, r.err, e.live);
      LogThrowLowered(m, o.t, e.env, e.obs.result, r.err);
      DispatchTame(m, u, e.env, e.obs, r, e.live);
      if u.anchor.fineKp > 0.0 && u.anchor.coarseMax > 0.0 {
        DispatchLowered(m, u, e.env, e.obs, r, e.live);
      }
      SeenApart(Dispatch(m, u, e.env, e.obs, r, e.live));
    }
  }

  lemma DispatchLowered(m: Libm, t: Tuner, env: Env, obs: Obs, r: Run, p: Params)
    requires Wf(t) && Calm(t, env, p) && OnlyLowered(t) && t.anchor.fineKp > 0.0 && t.anchor.coarseMax > 0.0
    ensures OnlyLowered(Dispatch(m, t, env, obs, r, p).t)
  {
    hide Dispatch, Fixed, Candidate;
    if t.start.known {
      DispatchKeepsStart(m, t, env, obs, r, p);
    } else {
      OpeningThrow(m, t, env, obs, r, p);
    }
  }

  lemma AnchorLowered(p: Params, ledger: Ledger)
    ensures OnlyLowered(AnchorTo(p, ledger))
  {
  }

  lemma LogThrowLowered(m: Libm, t: Tuner, env: Env, result: Verdict, err: real)
    ensures var u := LogThrow(m, t, env, result, err); OnlyLowered(u) == OnlyLowered(t) && u.anchor == t.anchor
  {
    hide WindowStats;
  }

  lemma SeenApart(d: Outcome)
    ensures OnlyLowered(d.t.(seen := d.p)) == OnlyLowered(d.t)
  {
  }

  lemma {:induction false} OpenedAlways(m: Libm, env: Env, es: seq<Throw>)
    requires CalmRun(m, env, es)
    ensures Opened(Play(m, FRESH, es))
  {
    hide Observe, Calm, InRange, OnlyLowered;
    if es != [] {
      var n := |es| - 1;
      CalmPrefix(m, env, es, n);
      OpenedAlways(m, env, es[..n]);
      CalmAlways(m, env, es[..n]);
      OpenedStep(m, Play(m, FRESH, es[..n]), es[n]);
    }
  }

  // ----- when a back-off comes first, told from the throws alone

  /** The counted throws of a run, in order: true for a miss. */
  function MissesSeen(es: seq<Throw>): seq<bool> {
    if es == [] then []
    else
      var e := es[|es| - 1];
      MissesSeen(es[..|es| - 1]) + if Usable(e.env, e.obs) then [e.obs.result != Pass] else []
  }

  /** Throw i is counted, went over, and is at least the third miss of the last ten. */
  predicate ThirdMissAt(es: seq<Throw>, i: nat)
    requires i < |es|
  {
    Usable(es[i].env, es[i].obs) && es[i].obs.result == Over && RecentMisses(MissesSeen(es[..i + 1]), 10) >= 3
  }

  /** Such a throw came while the first baseline was not yet full. */
  predicate ThirdMissTooEarly(m: Libm, es: seq<Throw>) {
    exists i :: 0 <= i < |es| && ThirdMissAt(es, i) && !Play(m, FRESH, es[..i]).start.known
  }

  /** After a run with these misses, which had such a throw or not. */
  predicate Tracks(t: Tuner, misses: seq<bool>, tooEarly: bool) {
    && (!t.init ==> misses == [] && !t.start.known && !tooEarly)
    && (!t.start.known ==> t.base.n <= |misses| && t.mode == Measuring)
    && (t.init && !t.start.known ==>
          (t.ledger.nudged <==> tooEarly) && (!t.ledger.nudged ==> t.window.missLog == misses))
    && (t.start.known ==> t.init && ARM_N <= |misses| && (t.ledger.opening.nudged <==> tooEarly))
  }

  predicate BackOffIsThirdMiss(m: Libm, es: seq<Throw>) {
    Tracks(Play(m, FRESH, es), MissesSeen(es), ThirdMissTooEarly(m, es))
  }

  lemma OneMoreSeen(m: Libm, es: seq<Throw>, e: Throw)
    ensures MissesSeen(es + [e]) == MissesSeen(es) + if Usable(e.env, e.obs) then [e.obs.result != Pass] else []
    ensures ThirdMissTooEarly(m, es + [e]) <==>
              ThirdMissTooEarly(m, es) || (ThirdMissAt(es + [e], |es|) && !Play(m, FRESH, es).start.known)
  {
    hide Step, Usable;
    var all := es + [e];
    assert all[..|es|] == es;
    forall i | 0 <= i < |es|
      ensures ThirdMissAt(all, i) == ThirdMissAt(es, i) && Play(m, FRESH, all[..i]) == Play(m, FRESH, es[..i])
    {
      assert all[..i + 1] == es[..i + 1] && all[..i] == es[..i];
    }
  }

  /** One throw while the start is not known. */
  lemma EarlyThrow(m: Libm, t: Tuner, env: Env, obs: Obs, r: Run, p: Params)
    requires Wf(t) && !t.start.known && t.mode == Measuring
    ensures var d := Dispatch(m, t, env, obs, r, p).t;
            && (Cluster(t, obs.result) ==> !d.start.known && d.ledger.nudged && d.mode == Measuring && d.base.n == 0)
            && (!Cluster(t, obs.result) ==>
                  && d.ledger.nudged == t.ledger.nudged && d.window.missLog == t.window.missLog
                  && (d.start.known ==> d.ledger.opening.nudged == t.ledger.nudged && t.base.n + 1 >= ARM_N)
                  && (!d.start.known ==> d.mode == Measuring && d.base.n <= t.base.n + 1))
  {
    hide ClampParams, LandingDecision, PickKnob, EnterMonitor, Cluster, MarginOk, Candidate, Mean, BackOff, BigMove;
    var a := AddBase(t, r);
    LandingLawKeepsEarly(m, a, env, p);
    var o := SteerLanding(m, a, env, obs.result, p);
    var u := if o.t.wait > 0 then o.t.(wait := o.t.wait - 1) else o.t;
    if u.base.n >= ARM_N {
      StartProbeFrame(m, u, env, o.p);
      var s := StartProbe(m, u, env, o.p);
      MonitorKeepsOpening(s.t, s.p);
    }
  }

  lemma LandingLawKeepsEarly(m: Libm, t: Tuner, env: Env, p: Params)
    ensures var u := LandingLaw(m, t, env, p).t;
            && u.ledger.nudged == t.ledger.nudged && u.window.missLog == t.window.missLog && u.start == t.start
            && u.mode == t.mode && u.base.n <= t.base.n && u.search == t.search && u.wait == t.wait
  {
    hide ClampParams, LandingDecision, BigMove;
  }

  lemma MonitorKeepsOpening(t: Tuner, p: Params)
    ensures var u := EnterMonitor(t, p).t;
            && u.start == t.start && u.ledger.opening == t.ledger.opening && u.ledger.nudged == t.ledger.nudged
            && u.window == t.window
  {
    hide Differ, EarnedItsKeep;
  }

  lemma LoggedEarly(m: Libm, t: Tuner, env: Env, result: Verdict, err: real)
    ensures var u := LogThrow(m, t, env, result, err);
            && u.start == t.start && u.ledger.nudged == t.ledger.nudged && u.ledger.opening == t.ledger.opening
            && u.window.missLog == t.window.missLog + [result != Pass] && u.base == t.base && u.mode == t.mode
            && u.init == t.init && u.anchor == t.anchor
  {
    hide WindowStats;
  }

  /** What one counted throw makes of it: `u` is the tuner with the throw logged. */
  lemma TracksCounted(m: Libm, t: Tuner, u: Tuner, env: Env, obs: Obs, r: Run, p: Params,
                      misses: seq<bool>, tooEarly: bool)
    requires Wf(u) && Tracks(t, misses, tooEarly) && u.init && u.start == t.start && u.mode == t.mode
    requires u.ledger.nudged == t.ledger.nudged && u.ledger.opening == t.ledger.opening && u.base == t.base
    requires !t.init ==> t.base.n == 0 && !t.ledger.nudged && t.window.missLog == []
    requires u.window.missLog == t.window.missLog + [obs.result != Pass]
    ensures var more := misses + [obs.result != Pass];
            Tracks(Dispatch(m, u, env, obs, r, p).t, more,
                   tooEarly || (obs.result == Over && RecentMisses(more, 10) >= 3 && !t.start.known))
  {
    hide Dispatch, RecentMisses;
    DispatchTame(m, u, env, obs, r, p);
    if t.start.known {
      DispatchKeepsStart(m, u, env, obs, r, p);
    } else {
      EarlyThrow(m, u, env, obs, r, p);
    }
  }

  lemma TracksStep(m: Libm, t: Tuner, e: Throw, misses: seq<bool>, tooEarly: bool)
    requires Wf(t) && Tracks(t, misses, tooEarly) && (t.init ==> e.live == t.seen)
    ensures var counted := Usable(e.env, e.obs);
            var more := misses + if counted then [e.obs.result != Pass] else [];
            Tracks(Step(m, t, e).t, more,
                   tooEarly || (counted && e.obs.result == Over && RecentMisses(more, 10) >= 3 && !t.start.known))
  {
    hide Dispatch, LogThrow, ClampParams, Differ, RecentMisses;
    if Usable(e.env, e.obs) {
      NoDifference(e.live);
      var was := if t.init then t else AnchorTo(e.live, t.ledger).(init := false);
      var o := NoticeEdit(t, e.live);
      assert o == Outcome(was.(init := true), e.live);
      var r := Run(e.live, e.obs.total.v, e.obs.error.v, e.obs.result != Pass);
      LoggedEarly(m, o.t, e.env, e.obs.result, r.err);
      LogThrowKeepsWf(m, o.t, e.env, e.obs.result, r.err);
      var u := LogThrow(m, o.t, e.env, e.obs.result, r.err);
      TracksCounted(m, was, u, e.env, e.obs, r, e.live, misses, tooEarly);
      SettledTracks(Dispatch(m, u, e.env, e.obs, r, e.live), e.env, misses + [e.obs.result != Pass],
                    tooEarly || (e.obs.result == Over && RecentMisses(misses + [e.obs.result != Pass], 10) >= 3
                                 && !t.start.known));
    } else {
      assert misses + [] == misses;
    }
  }

  lemma SettledTracks(o: Outcome, env: Env, misses: seq<bool>, tooEarly: bool)
    requires Tracks(o.t, misses, tooEarly)
    ensures Tracks(Settle(o, env).t, misses, tooEarly)
  {
    hide ClampParams;
  }

  lemma BackOffStep(m: Libm, es: seq<Throw>, e: Throw)
    requires BackOffIsThirdMiss(m, es)
    requires Play(m, FRESH, es).init ==> e.live == Play(m, FRESH, es).seen
    ensures BackOffIsThirdMiss(m, es + [e])
  {
    hide ThirdMissTooEarly, Step, MissesSeen, Tracks, RecentMisses, Usable;
    assert (es + [e])[..|es|] == es && (es + [e])[..|es| + 1] == es + [e];
    OneMoreSeen(m, es, e);
    TracksStep(m, Play(m, FRESH, es), e, MissesSeen(es), ThirdMissTooEarly(m, es));
  }

  lemma {:induction false} BackOffsAreThirdMisses(m: Libm, env: Env, es: seq<Throw>)
    requires CalmRun(m, env, es)
    ensures BackOffIsThirdMiss(m, es)
  {
    hide Step, BackOffIsThirdMiss, InRange;
    if es == [] {
      NoThrowsYet(m);
    } else {
      var n := |es| - 1;
      CalmPrefix(m, env, es, n);
      BackOffsAreThirdMisses(m, env, es[..n]);
      BackOffStep(m, es[..n], es[n]);
      assert es[..n] + [es[n]] == es;
    }
  }

  lemma NoThrowsYet(m: Libm)
    ensures BackOffIsThirdMiss(m, [])
  {
  }

  /**
   In a calm run the start to beat was measured on the profile as first seen, up to its landing speed, if no
   counted throw went over as the third miss of ten before the first baseline was full; and only then where
   that profile's fine Kp and coarse speed are positive, so that backing off lowers one of them. Up to the
   tenth counted throw no start is known.
   */
  lemma OpeningIsTheOriginalIff(m: Libm, env: Env, es: seq<Throw>)
    requires CalmRun(m, env, es)
    requires Play(m, FRESH, es).init && Play(m, FRESH, es).start.known
    ensures var t := Play(m, FRESH, es);
            && RanLike(t.ledger.opening.runs, t.ledger.opening.on)
            && (!ThirdMissTooEarly(m, es) ==> SameButFineMin(t.ledger.opening.on, t.anchor))
            && (t.anchor.fineKp > 0.0 && t.anchor.coarseMax > 0.0 ==>
                  (SameButFineMin(t.ledger.opening.on, t.anchor) <==> !ThirdMissTooEarly(m, es)))
    ensures forall i :: 0 <= i < |es| && |MissesSeen(es[..i])| < ARM_N ==> !Play(m, FRESH, es[..i]).start.known
  {
    hide Step, Fixed, LiveIs, ArmsPure, InRange, ThirdMissTooEarly;
    OpenedAlways(m, env, es);
    CalmAlways(m, env, es);
    BackOffsAreThirdMisses(m, env, es);
    forall i | 0 <= i < |es| && |MissesSeen(es[..i])| < ARM_N
      ensures !Play(m, FRESH, es[..i]).start.known
    {
      CalmPrefix(m, env, es, i);
      BackOffsAreThirdMisses(m, env, es[..i]);
    }
  }
}
