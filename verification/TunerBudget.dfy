/**
 How long a search can go on for nothing: a knob's step can only be shortened so often before the
 knob closes, and only an accepted probe lengthens it again.
 */
module TunerBudget {
  import opened Numeric
  import opened TunerModel
  import opened TunerRuns

  /** How often a step can still be shortened before it is too short. */
  function Rank(step: real): nat
    decreases step * 50.0
  {
    if step < STEP_MIN then 0 else 1 + Rank(step * 0.6)
  }

  function KnobRank(s: Search, k: nat): nat
    requires Shaped(s) && k < KNOBS
  {
    if s.done[k] then 0 else Rank(s.step[k])
  }

  /** What the open knobs have left between them. */
  function OpenRank(s: Search): nat
    requires Shaped(s)
  {
    KnobRank(s, 0) + KnobRank(s, 1) + KnobRank(s, 2) + KnobRank(s, 3)
  }

  predicate OpenStepsLong(s: Search)
    requires Shaped(s)
  {
    forall k: nat :: k < KNOBS && !s.done[k] ==> STEP_MIN <= s.step[k] <= STEP_MAX
  }

  /** Every knob points up or down. */
  predicate Directed(s: Search)
    requires Shaped(s)
  {
    forall k: nat :: k < KNOBS ==> s.dir[k] == 1 || s.dir[k] == -1
  }

  predicate WithinBudget(s: Search) {
    && Shaped(s) && Directed(s) && OpenStepsLong(s) && (s.tally.credit == 12 || s.tally.credit == 8)
    && OpenRank(s) + s.tally.rejected + s.tally.pinned <= s.tally.credit + s.tally.accepted
  }

  lemma {:induction false} RankMonotone(a: real, b: real)
    requires a <= b
    ensures Rank(a) <= Rank(b)
    decreases b * 50.0
  {
    if STEP_MIN <= a {
      RankMonotone(a * 0.6, b * 0.6);
    }
  }

  /** Growing a step by 1.3 lets it be shortened once more at most: 1.3 times 0.6 is below one. */
  lemma GrowthAddsAtMostOne(step: real)
    requires STEP_MIN <= step
    ensures Rank(Min(step * 1.3, STEP_MAX)) <= Rank(step) + 1
  {
    RankMonotone(Min(step * 1.3, STEP_MAX) * 0.6, step);
  }

  lemma StartRanks()
    ensures Rank(0.25) == 3 && Rank(0.20) == 3 && Rank(0.12) == 2 && Rank(0.40) == 4 && Rank(STEP_REOPEN) == 2
  {
    assert Rank(0.054) == 0 && Rank(0.0432) == 0 && Rank(0.05184) == 0;
    assert Rank(0.09) == 1 && Rank(0.072) == 1 && Rank(0.0864) == 1;
    assert Rank(0.15) == 2 && Rank(0.12) == 2 && Rank(0.144) == 2;
    assert Rank(0.24) == 3;
  }

  lemma TurnBackSpendsOne(s: Search, k: nat)
    requires Shaped(s) && OpenStepsLong(s) && k < KNOBS && !s.done[k]
    ensures Shaped(TurnBack(s, k)) && OpenStepsLong(TurnBack(s, k))
    ensures OpenRank(TurnBack(s, k)) == OpenRank(s) - 1
  {
    var u := TurnBack(s, k);
    forall j: nat | j < KNOBS && j != k
      ensures KnobRank(u, j) == KnobRank(s, j)
    {
    }
    assert KnobRank(u, k) == KnobRank(s, k) - 1;
    assert k == 0 || k == 1 || k == 2 || k == 3;
  }

  lemma {:induction false} PickKnobInBudget(s: Search, anchor: Params, good: Params, env: Env, marginOk: bool,
                                            tries: nat)
    requires WithinBudget(s) && tries <= KNOBS
    ensures WithinBudget(PickKnob(s, anchor, good, env, marginOk, tries).s)
    decreases KNOBS - tries
  {
    hide PickKnob, Candidate, Differ, WithinBudget, Pin, IsRisky;
    BudgetIsDirected(s);
    PickUnfolds(s, anchor, good, env, marginOk, tries);
    if tries < KNOBS {
      var k := (s.knob + tries) % KNOBS;
      if s.done[k] || (IsRisky(k, s.dir[k]) && !marginOk) {
        PickKnobInBudget(s, anchor, good, env, marginOk, tries + 1);
      } else if !Differ(Candidate(s, anchor, good, env, k), good) {
        PinInBudget(s, k);
        PickKnobInBudget(Pin(s, k), anchor, good, env, marginOk, tries + 1);
      } else {
        OtherKnobInBudget(s, k);
      }
    }
  }

  lemma OtherKnobInBudget(s: Search, k: nat)
    requires WithinBudget(s) && k < KNOBS
    ensures WithinBudget(s.(knob := k))
  {
    SameStepsSameRank(s, s.(knob := k));
  }

  lemma PinInBudget(s: Search, k: nat)
    requires WithinBudget(s) && k < KNOBS && !s.done[k]
    ensures WithinBudget(Pin(s, k)) && Shaped(Pin(s, k))
  {
    TurnBackSpendsOne(s, k);
    SameStepsSameRank(TurnBack(s, k), Pin(s, k));
  }

  lemma PassOnInBudget(s: Search)
    requires WithinBudget(s) && !s.done[s.knob]
    ensures WithinBudget(PassOn(s))
  {
    TurnBackSpendsOne(s, s.knob);
    SameStepsSameRank(TurnBack(s, s.knob), PassOn(s));
  }

  lemma GrowInBudget(s: Search)
    requires WithinBudget(s) && !s.done[s.knob]
    ensures WithinBudget(Grow(s))
  {
    var k, u := s.knob, Grow(s);
    GrowthAddsAtMostOne(s.step[k]);
    forall j: nat | j < KNOBS && j != k
      ensures KnobRank(u, j) == KnobRank(s, j)
    {
    }
    assert KnobRank(u, k) <= KnobRank(s, k) + 1;
    assert k == 0 || k == 1 || k == 2 || k == 3;
  }

  lemma SameStepsSameRank(s: Search, u: Search)
    requires Shaped(s) && Shaped(u) && s.step == u.step && s.done == u.done
    ensures OpenRank(s) == OpenRank(u) && OpenStepsLong(s) == OpenStepsLong(u)
  {
  }

  lemma FreshSearchInBudget(p: Params, ledger: Ledger)
    ensures WithinBudget(AnchorTo(p, ledger).search)
  {
    StartRanks();
  }

  lemma ReopenedInBudget(t: Tuner)
    requires Shaped(t.search) && Directed(t.search)
    ensures WithinBudget(ReopenSearch(t).search)
    ensures var u := ReopenSearch(t);
            && u.search.step == [0.15, 0.15, 0.15, 0.15] && u.search.done == [false, false, false, false]
            && u.search.dir == t.search.dir && u.search.knob == t.search.knob && u.wait == 0 && u.mode == Measuring
  {
    StartRanks();
  }

  lemma BudgetIsDirected(s: Search)
    requires WithinBudget(s)
    ensures Shaped(s) && Directed(s)
  {
  }

  // ----- one throw

  lemma StartProbeInBudget(m: Libm, t: Tuner, env: Env, p: Params)
    requires WithinBudget(t.search)
    ensures WithinBudget(StartProbe(m, t, env, p).t.search)
  {
    hide PickKnob, MarginOk, Candidate;
    var (u, settled) := RecordStart(t, env);
    if !settled {
      PickKnobInBudget(u.search, u.anchor, u.good, env, MarginOk(m, u.window.errs, env), 0);
    }
  }

  lemma FinishProbeInBudget(m: Libm, t: Tuner, env: Env, p: Params)
    requires WithinBudget(t.search) && !t.search.done[t.search.knob] && t.base.n > 0 && t.trial.n > 0
    ensures WithinBudget(FinishProbe(m, t, env, p).t.search)
  {
    hide StartProbe, KeepProbe, MarginSigma, Grow, PassOn, Differ, EarnedItsKeep, OpenRank, OpenStepsLong;
    GrowInBudget(t.search);
    PassOnInBudget(t.search);
    StartProbeInBudget(m, AcceptProbe(t, p), env, p);
  }

  /** Throws spent in probes: ten for each one decided, and those of the one under way. */
  predicate SpendingCovered(t: Tuner) {
    t.search.tally.spent <= ARM_N * (t.search.tally.accepted + t.search.tally.rejected) + t.trial.n
  }

  predicate Bounded(t: Tuner) {
    t.init ==> WithinBudget(t.search) && SpendingCovered(t)
  }

  lemma StartProbeCovered(m: Libm, t: Tuner, env: Env, p: Params)
    requires Shaped(t.search) && t.mode == Measuring && t.trial.n == 0 && SpendingCovered(t)
    ensures SpendingCovered(StartProbe(m, t, env, p).t)
  {
    hide PickKnob, MarginOk, Candidate;
    var (u, settled) := RecordStart(t, env);
    if !settled {
      PickKnobTally(u.search, u.anchor, u.good, env, MarginOk(m, u.window.errs, env), 0);
    }
  }

  lemma MeasuringBounded(m: Libm, t: Tuner, env: Env, obs: Obs, r: Run, p: Params)
    requires Wf(t) && t.init && t.mode == Measuring && Bounded(t)
    ensures Bounded(WhileMeasuring(m, t, env, obs, r, p).t)
  {
    hide WithinBudget, Cluster, ClampParams, BackOff, StartProbe, LandingDecision, EarnedItsKeep, Differ;
    if !Cluster(t, obs.result) {
      var o := SteerLanding(m, AddBase(t, r), env, obs.result, p);
      var u := if o.t.wait > 0 then o.t.(wait := o.t.wait - 1) else o.t;
      StartProbeInBudget(m, u, env, o.p);
      StartProbeCovered(m, u, env, o.p);
    }
  }

  lemma FinishProbeCovered(m: Libm, t: Tuner, env: Env, p: Params)
    requires Shaped(t.search) && SpendingCovered(t) && t.base.n > 0 && 0 < t.trial.n <= ARM_N
    ensures SpendingCovered(FinishProbe(m, t, env, p).t)
  {
    hide StartProbe, KeepProbe, MarginSigma, Differ, EarnedItsKeep;
    StartProbeCovered(m, AcceptProbe(t, p), env, p);
  }

  lemma ProbingBounded(m: Libm, t: Tuner, env: Env, obs: Obs, r: Run, p: Params)
    requires Wf(t) && t.init && t.mode == Probing && Bounded(t)
    ensures Bounded(WhileProbing(m, t, env, obs, r, p).t)
  {
    hide WithinBudget, FinishProbe;
    var pol := PolicyFor(env);
    var a := AddTrial(t, r);
    SpendingKeepsBudget(t.search, a.search);
    var u := if obs.result == Over && r.err > 2.0 * env.bracket then a.(trial := a.trial.(misses := pol.rejectMisses))
        else a;
    if u.trial.n >= ARM_N || u.trial.misses >= pol.rejectMisses {
      FinishProbeInBudget(m, u, env, p);
      FinishProbeCovered(m, u, env, p);
    }
  }

  lemma SpendingKeepsBudget(s: Search, u: Search)
    requires WithinBudget(s) && u == s.(tally := s.tally.(spent := u.tally.spent))
    ensures WithinBudget(u)
  {
    SameStepsSameRank(s, u);
  }

  lemma ConvergedBounded(m: Libm, t: Tuner, env: Env, obs: Obs, r: Run, p: Params)
    requires Wf(t) && t.init && t.mode == Converged && Bounded(t)
    ensures Bounded(WhileConverged(m, t, env, obs, r, p).t)
  {
    hide WithinBudget, Cluster, ClampParams, BackOff, LandingDecision;
    var o := if Cluster(t, obs.result) then NudgeForOver(t, env, obs.coarseRanLong, p) else Outcome(t, p);
    var q := SteerLanding(m, AddBase(o.t, r), env, obs.result, o.p);
    BudgetIsDirected(t.search);
    assert q.t.search == t.search;
    ReopenedInBudget(q.t);
    ReopenedInBudget(q.t.(monitorRef := 0.0));
    ReopenedInBudget(q.t.(good := ClampParams(q.t.anchor, env,
        q.p.(handoff := q.p.handoff * 1.15, fineMin := q.p.fineMin * 0.90))));
  }

  lemma ObserveBounded(m: Libm, t: Tuner, env: Env, obs: Obs, p: Params)
    requires Wf(t) && Bounded(t)
    ensures Bounded(Observe(m, t, env, obs, p).t)
  {
    hide WithinBudget, WhileMeasuring, WhileProbing, WhileConverged, ClampParams, Differ, WindowStats;
    if Usable(env, obs) {
      var o := NoticeEdit(t, p);
      FreshSearchInBudget(o.p, t.ledger);
      var r := Run(p, obs.total.v, obs.error.v, obs.result != Pass);
      var u := LogThrow(m, o.t, env, obs.result, r.err);
      match u.mode {
        case Measuring => MeasuringBounded(m, u, env, obs, r, o.p);
        case Probing => ProbingBounded(m, u, env, obs, r, o.p);
        case Converged => ConvergedBounded(m, u, env, obs, r, o.p);
      }
    }
  }

  /**
   In every run, with any throws, environments and edits: since the profile was last anchored the
   steps given up number at most 12 (8 once drift has reopened the search) plus the probes accepted,
   and the throws spent on probes are at most ten a decision, the one under way included.
   */
  lemma {:induction false} SearchIsBounded(m: Libm, es: seq<Throw>)
    ensures var t := Play(m, FRESH, es);
            && Bounded(t)
            && (t.init ==>
                  && (t.search.tally.credit == 12 || t.search.tally.credit == 8)
                  && t.search.tally.rejected + t.search.tally.pinned <= t.search.tally.credit + t.search.tally.accepted
                  && t.search.tally.spent <= ARM_N * (t.search.tally.credit + 2 * t.search.tally.accepted) + ARM_N - 1)
  {
    if es != [] {
      var e := es[|es| - 1];
      SearchIsBounded(m, es[..|es| - 1]);
      ObserveBounded(m, Play(m, FRESH, es[..|es| - 1]), e.env, e.obs, e.live);
    }
  }
}
