/** Runs of the tuner: any list of throws, from power-up, with any environment and any edits. */
module TunerRuns {
  import opened Numeric
  import opened TunerModel

  /** One call of tuner_observe: `live` is the profile as the caller passes it in. */
  datatype Throw = Throw(env: Env, obs: Obs, live: Params)

  function Step(m: Libm, t: Tuner, e: Throw): (o: Outcome)
    requires Wf(t)
    ensures Wf(o.t)
  {
    ObserveKeepsWf(m, t, e.env, e.obs, e.live);
    Observe(m, t, e.env, e.obs, e.live)
  }

  /** The tuner after a list of throws. */
  function Play(m: Libm, t: Tuner, es: seq<Throw>): (r: Tuner)
    requires Wf(t)
    ensures Wf(r)
  {
    if es == [] then t else Step(m, Play(m, t, es[..|es| - 1]), es[|es| - 1]).t
  }

  // ----- the machine's shape is kept

  lemma PickUnfolds(s: Search, anchor: Params, good: Params, env: Env, marginOk: bool, tries: nat)
    requires Shaped(s) && tries <= KNOBS
    ensures PickKnob(s, anchor, good, env, marginOk, tries) ==
            if tries == KNOBS then Pick(s, false)
            else
              var k := (s.knob + tries) % KNOBS;
              if s.done[k] || (IsRisky(k, s.dir[k]) && !marginOk) then
                PickKnob(s, anchor, good, env, marginOk, tries + 1)
              else if !Differ(Candidate(s, anchor, good, env, k), good) then
                PickKnob(Pin(s, k), anchor, good, env, marginOk, tries + 1)
              else Pick(s.(knob := k), true)
  {
    hide Candidate, Differ, Pin, IsRisky;
  }

  lemma {:induction false} PickKnobIsOpen(s: Search, anchor: Params, good: Params, env: Env, marginOk: bool, tries: nat)
    requires Shaped(s) && tries <= KNOBS
    ensures var r := PickKnob(s, anchor, good, env, marginOk, tries);
            r.found ==> !r.s.done[r.s.knob]
    decreases KNOBS - tries
  {
    hide PickKnob, Candidate, Differ, IsRisky, Pin;
    PickUnfolds(s, anchor, good, env, marginOk, tries);
    if tries < KNOBS {
      var k := (s.knob + tries) % KNOBS;
      if s.done[k] || (IsRisky(k, s.dir[k]) && !marginOk) {
        PickKnobIsOpen(s, anchor, good, env, marginOk, tries + 1);
      } else if !Differ(Candidate(s, anchor, good, env, k), good) {
        PinTally(s, k);
        PickKnobIsOpen(Pin(s, k), anchor, good, env, marginOk, tries + 1);
      }
    }
  }

  lemma StartProbeKeepsWf(m: Libm, t: Tuner, env: Env, p: Params)
    requires Wf(t) && t.mode == Measuring && t.base.n >= ARM_N
    ensures var s := StartProbe(m, t, env, p);
            && Wf(s.t) && s.t.mode == (if s.started then Probing else Measuring)
            && (!s.started ==> s.p == p)
            && s.t.base == t.base && s.t.good == t.good && s.t.anchor == t.anchor && s.t.start.known
  {
    hide ClampParams, Differ, ApplyKnob, MarginSigma, PickKnob, Candidate;
    var (u, settled) := RecordStart(t, env);
    if !settled {
      PickKnobIsOpen(u.search, u.anchor, u.good, env, MarginOk(m, u.window.errs, env), 0);
    }
  }

  lemma FinishProbeKeepsWf(m: Libm, t: Tuner, env: Env, p: Params)
    requires Wf(t.(trial := EMPTY_ARM)) && t.mode == Probing && t.trial.n > 0
    requires t.trial.misses < PolicyFor(env).rejectMisses ==>
             ARM_N <= t.trial.n <= 4 * ARM_N && t.trial.misses <= t.trial.n
    ensures Wf(FinishProbe(m, t, env, p).t)
  {
    hide ClampParams, Differ, MarginSigma, StartProbe;
    if KeepProbe(m, t.base, t.trial, MarginSigma(m, t.window.errs, env.bracket), env.landSigma, PolicyFor(env)) {
      StartProbeKeepsWf(m, AcceptProbe(t, p), env, p);
    }
  }

  lemma LandingLawKeepsWf(m: Libm, t: Tuner, env: Env, p: Params)
    requires Wf(t) && t.mode != Probing
    ensures var o := LandingLaw(m, t, env, p);
            Wf(o.t) && o.t.mode == t.mode
  {
    hide ClampParams, Clampf, LandingDecision;
  }

  lemma AddBaseKeepsWf(t: Tuner, r: Run)
    requires Wf(t)
    ensures Wf(AddBase(t, r)) && AddBase(t, r).mode == t.mode
  {
  }

  lemma MeasuringKeepsWf(m: Libm, t: Tuner, env: Env, obs: Obs, r: Run, p: Params)
    requires Wf(t) && t.mode == Measuring
    ensures Wf(WhileMeasuring(m, t, env, obs, r, p).t)
  {
    hide ClampParams, Cluster, LandingLaw, AddBase, StartProbe, BackOff, Differ;
    if !Cluster(t, obs.result) {
      AddBaseKeepsWf(t, r);
      LandingLawKeepsWf(m, AddBase(t, r), env, p);
      var o := SteerLanding(m, AddBase(t, r), env, obs.result, p);
      var u := if o.t.wait > 0 then o.t.(wait := o.t.wait - 1) else o.t;
      if u.base.n >= ARM_N && u.wait == 0 {
        StartProbeKeepsWf(m, u, env, o.p);
      }
    }
  }

  lemma ProbingKeepsWf(m: Libm, t: Tuner, env: Env, obs: Obs, r: Run, p: Params)
    requires Wf(t) && t.mode == Probing
    ensures Wf(WhileProbing(m, t, env, obs, r, p).t)
  {
    hide FinishProbe;
    var pol := PolicyFor(env);
    var a := AddTrial(t, r);
    var u := if obs.result == Over && r.err > 2.0 * env.bracket then a.(trial := a.trial.(misses := pol.rejectMisses))
        else a;
    if u.trial.n >= ARM_N || u.trial.misses >= pol.rejectMisses {
      FinishProbeKeepsWf(m, u, env, p);
    }
  }

  lemma ConvergedKeepsWf(m: Libm, t: Tuner, env: Env, obs: Obs, r: Run, p: Params)
    requires Wf(t) && t.mode == Converged
    ensures Wf(WhileConverged(m, t, env, obs, r, p).t)
  {
    hide ClampParams, LandingLaw, Cluster, BackOff, AddBase;
    var o := if Cluster(t, obs.result) then NudgeForOver(t, env, obs.coarseRanLong, p) else Outcome(t, p);
    AddBaseKeepsWf(o.t, r);
    LandingLawKeepsWf(m, AddBase(o.t, r), env, o.p);
  }

  lemma ObserveKeepsWf(m: Libm, t: Tuner, env: Env, obs: Obs, p: Params)
    requires Wf(t)
    ensures Wf(Observe(m, t, env, obs, p).t)
  {
    hide ClampParams, WhileMeasuring, WhileProbing, WhileConverged, WindowStats, Differ;
    if Usable(env, obs) {
      var o := NoticeEdit(t, p);
      var r := Run(p, obs.total.v, obs.error.v, obs.result != Pass);
      var u := LogThrow(m, o.t, env, obs.result, r.err);
      match u.mode {
        case Measuring => MeasuringKeepsWf(m, u, env, obs, r, o.p);
        case Probing => ProbingKeepsWf(m, u, env, obs, r, o.p);
        case Converged => ConvergedKeepsWf(m, u, env, obs, r, o.p);
      }
    }
  }

  // ----- small facts the proofs share

  lemma SameCandidate(s: Search, u: Search, anchor: Params, good: Params, env: Env, k: nat)
    requires Shaped(s) && u.dir == s.dir && u.step == s.step && k < KNOBS
    ensures Candidate(u, anchor, good, env, k) == Candidate(s, anchor, good, env, k)
  {
    hide ClampParams, ApplyKnob, ProbeFactor;
  }

  lemma ShapedAfter(s: Search)
    requires Shaped(s)
    ensures Shaped(Grow(s)) && Shaped(PassOn(s))
  {
  }

  lemma AddTrialCounts(t: Tuner, r: Run)
    ensures AddTrial(t, r).trial.n > 0
  {
  }

  lemma AddBaseMode(t: Tuner, r: Run)
    ensures AddBase(t, r).mode == t.mode
  {
  }

  lemma LogThrowKeepsWf(m: Libm, t: Tuner, env: Env, result: Verdict, err: real)
    requires Wf(t)
    ensures Wf(LogThrow(m, t, env, result, err))
  {
    hide WindowStats;
  }

  lemma {:induction false} PickKnobTally(s: Search, anchor: Params, good: Params, env: Env, marginOk: bool, tries: nat)
    requires Shaped(s) && tries <= KNOBS
    ensures var r := PickKnob(s, anchor, good, env, marginOk, tries);
            r.s.tally == s.tally.(pinned := r.s.tally.pinned)
    decreases KNOBS - tries
  {
    hide PickKnob, Candidate, Differ, IsRisky, Pin;
    PickUnfolds(s, anchor, good, env, marginOk, tries);
    if tries < KNOBS {
      var k := (s.knob + tries) % KNOBS;
      if s.done[k] || (IsRisky(k, s.dir[k]) && !marginOk) {
        PickKnobTally(s, anchor, good, env, marginOk, tries + 1);
      } else if !Differ(Candidate(s, anchor, good, env, k), good) {
        PinTally(s, k);
        PickKnobTally(Pin(s, k), anchor, good, env, marginOk, tries + 1);
      }
    }
  }

  lemma PinTally(s: Search, k: nat)
    requires Shaped(s) && k < KNOBS
    ensures Shaped(Pin(s, k)) && Pin(s, k).tally == s.tally.(pinned := s.tally.pinned + 1)
  {
  }

  /** Everything that starting a probe can change, and how. */
  lemma StartProbeFrame(m: Libm, t: Tuner, env: Env, p: Params)
    requires Shaped(t.search)
    ensures var s := StartProbe(m, t, env, p);
            var u := s.t;
            && u == t.(search := u.search, trial := u.trial, mode := u.mode, monitorRef := u.monitorRef,
                       start := u.start, counters := u.counters, ledger := u.ledger)
            && u.mode == (if s.started then Probing else t.mode) && (!s.started ==> s.p == p)
            && Shaped(u.search) && u.search.tally.accepted == t.search.tally.accepted
            && u.search.tally.rejected == t.search.tally.rejected
            && u.ledger == t.ledger.(trialRuns := u.ledger.trialRuns, opening := u.ledger.opening)
            && (if !t.start.known && t.base.n >= ARM_N
                then u.start.known && u.ledger.opening == Opening(t.good, t.ledger.baseRuns, t.ledger.nudged)
                else u.start == t.start && u.ledger.opening == t.ledger.opening)
  {
    hide PickKnob, MarginOk, Candidate, Mean;
    var (u, settled) := RecordStart(t, env);
    if !settled {
      PickKnobTally(u.search, u.anchor, u.good, env, MarginOk(m, u.window.errs, env), 0);
    }
  }

  lemma NotUsable(m: Libm, t: Tuner, e: Throw)
    requires Wf(t) && !Usable(e.env, e.obs)
    ensures Step(m, t, e) == Outcome(t, e.live)
  {
  }

  lemma NoDifference(p: Params)
    ensures !Differ(p, p)
  {
  }
}
