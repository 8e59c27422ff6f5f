/**
 The tuner as the firmware runs it (src/learn_tuner.c): an object updated in place, with the error
 ring, the miss register and the live profile edited field by field. Every method is proved to do to
 this object exactly what TunerModel's function does to its value, so what is proved about
 runs of the model holds of this object.
 */
module LiveTuner {
  import opened Numeric
  import opened TunerModel
  import opened TunerRuns
  import opened MissRegister
  import opened ErrorRing

  const REGISTER_BITS: nat := 32

  /** The profile the tuner is handed and edits. */
  class LiveProfile {
    var at: Params

    constructor (p: Params)
      ensures at == p
    {
      at := p;
    }
  }

  class Device {
    const libm: Libm
    const err: array<real>

    var init: bool
    var anchor: Params
    var good: Params
    var seen: Params
    var errCount: nat
    var errNext: nat
    var trim: real
    var landTick: nat
    var missBits: nat
    var mode: Mode
    var search: Search
    var wait: nat
    var base: Arm
    var trial: Arm
    var monitorRef: real
    var start: Baseline
    var counters: Counters

    ghost var errs: seq<real>
    ghost var missLog: seq<bool>
    ghost var ledger: Ledger

    ghost function State(): Tuner
      reads this
    {
      Tuner(init, anchor, good, seen, Window(errs, trim, landTick, missLog), mode,
            search, wait, base, trial, monitorRef, start, counters, ledger)
    }

    /** The ring holds the last errors, the register the last misses. */
    ghost predicate Mirrors()
      reads this, err
    {
      && err.Length == ERR_WINDOW && Holds(err[..], errCount, errNext, errs)
      && missBits == Low(Bits(missLog), REGISTER_BITS)
    }

    ghost predicate Valid()
      reads this, err
    {
      Mirrors() && Wf(State())
    }

    constructor (m: Libm)
      ensures Valid() && State() == FRESH && libm == m && fresh(err)
    {
      libm := m;
      err := new real[ERR_WINDOW](_ => 0.0);
      init, mode := false, Measuring;
      anchor, good, seen := ZERO_PARAMS, ZERO_PARAMS, ZERO_PARAMS;
      errCount, errNext, trim, landTick, missBits := 0, 0, 0.0, 0, 0;
      search, wait, base, trial, monitorRef := FRESH.search, 0, EMPTY_ARM, EMPTY_ARM, 0.0;
      start, counters := FRESH.start, FRESH.counters;
      errs, missLog, ledger := [], [], EMPTY_LEDGER;
      new;
      RegisterOfNothing(REGISTER_BITS);
    }

    // ----- statistics

    /** Misses among the last n throws: mask the register, then count its bits. */
    method CountRecent(n: nat) returns (c: nat)
      requires Mirrors() && n <= REGISTER_BITS
      ensures c == RecentMisses(missLog, n)
    {
      MaskedBits(missLog, missBits, REGISTER_BITS, n);
      PopCountIsCountTrue(Last(missLog, n));
      var bits := Low(missBits, n);
      c := 0;
      while bits != 0
        invariant c + PopCount(bits) == RecentMisses(missLog, n)
      {
        c := c + bits % 2;
        bits := bits / 2;
      }
    }

    lemma RingIsFull()
      requires Mirrors()
      ensures errCount == |errs| <= err.Length == ERR_WINDOW
    {
    }

    method CountWindow(bracket: real) returns (w: Stats)
      requires Mirrors()
      ensures w == WindowStats(libm, errs, bracket)
    {
      hide Holds, Low, Bits, SumClipped, SumSqClipped, Winsor, StatsOf;
      RingIsFull();
      var clip := SD_CLIP * bracket;
      var sum, sumSq := SumRing(clip);
      SumsInSlotOrder(err[..], errCount, errNext, errs, clip);
      w := StatsOf(libm, errCount, sum, sumSq);
    }

    /** The loop over the slots in use. */
    method SumRing(clip: real) returns (sum: real, sumSq: real)
      requires errCount <= err.Length
      ensures sum == SumClipped(err[..][..errCount], clip) && sumSq == SumSqClipped(err[..][..errCount], clip)
    {
      hide SumClipped, SumSqClipped, Winsor;
      ghost var ring := err[..];
      NoSlots(clip);
      assert ring[..0] == [];
      sum, sumSq := 0.0, 0.0;
      var i := 0;
      while i < errCount
        invariant i <= errCount && sum == SumClipped(ring[..i], clip) && sumSq == SumSqClipped(ring[..i], clip)
      {
        var v := Clipped(err[i], clip);
        OneMoreSlot(ring, i, clip);
        sum := sum + v;
        sumSq := sumSq + v * v;
        i := i + 1;
      }
    }

    method Clipped(x: real, clip: real) returns (v: real)
      ensures v == Winsor(x, clip)
    {
      v := x;
      if v > clip { v := clip; }
      if v < -clip { v := -clip; }
    }

    method Margin(bracket: real) returns (r: real)
      requires Mirrors()
      ensures r == MarginSigma(libm, errs, bracket)
    {
      hide WindowStats, Low, Bits, Holds;
      RingIsFull();
      if errCount < ERR_MIN_N || bracket <= 0.0 { return 0.0; }
      var w := CountWindow(bracket);
      var reach := bracket - Abs(w.mean);
      if reach < 0.0 { reach := 0.0; }
      if w.sd < 0.0001 { return 99.0; }
      return reach / w.sd;
    }

    // ----- limits

    method ClampFine(env: Env, p: LiveProfile)
      modifies p
      ensures var q := ClampParams(anchor, env, old(p.at)); p.at == old(p.at).(fineKp := q.fineKp, fineMin := q.fineMin)
    {
      hide CoarseLow, CoarseHigh, HandoffLow;
      var a, bm := anchor, PolicyFor(env).boundMul;
      if a.fineKp > 0.0 { p.at := p.at.(fineKp := Clampf(p.at.fineKp, 0.4 * a.fineKp, 3.0 * bm * a.fineKp)); }
      if a.fineMin > 0.0 { p.at := p.at.(fineMin := Clampf(p.at.fineMin, 0.5 * a.fineMin, 2.0 * bm * a.fineMin)); }
      if p.at.fineMin > p.at.fineMax { p.at := p.at.(fineMin := p.at.fineMax); }
    }

    method ClampCoarseSpeed(env: Env, p: LiveProfile)
      modifies p
      ensures var c := if anchor.coarseMax > 0.0
              then Clampf(old(p.at).coarseMax, CoarseLow(anchor, env), CoarseHigh(anchor, env))
                       else old(p.at).coarseMax;
              p.at == old(p.at).(coarseMax := c,
                coarseKp := if anchor.coarseMax > 0.0 && old(p.at).coarseMax > 0.0
                    && Abs(c - old(p.at).coarseMax) > 0.000001
                            then old(p.at).coarseKp * (c / old(p.at).coarseMax) else old(p.at).coarseKp)
    {
      hide PolicyFor, Clampf;
      var a, bm := anchor, PolicyFor(env).boundMul;
      if a.coarseMax > 0.0 {
        var hi := 2.0 * bm * a.coarseMax;
        if env.coarseMotorCap > 0.0 && hi > env.coarseMotorCap { hi := env.coarseMotorCap; }
        var lo := 0.5 * a.coarseMax;
        if lo > hi { lo := hi; }
        assert hi == CoarseHigh(a, env) && lo == CoarseLow(a, env);
        var before := p.at.coarseMax;
        p.at := p.at.(coarseMax := Clampf(p.at.coarseMax, lo, hi));
        if before > 0.0 && Abs(p.at.coarseMax - before) > 0.000001 {
          p.at := p.at.(coarseKp := p.at.coarseKp * (p.at.coarseMax / before));
        }
      }
    }

    method ClampCoarse(env: Env, p: LiveProfile)
      modifies p
      ensures var q := ClampParams(anchor, env, old(p.at));
              p.at == old(p.at).(coarseMax := q.coarseMax, coarseKp := q.coarseKp, coarseMin := q.coarseMin)
    {
      hide CoarseLow, CoarseHigh, HandoffLow;
      var a := anchor;
      ClampCoarseSpeed(env, p);
      if a.coarseKp > 0.0 { p.at := p.at.(coarseKp := Clampf(p.at.coarseKp, 0.25 * a.coarseKp, 12.0 * a.coarseKp)); }
      if p.at.coarseMin < env.coarseMotorMin { p.at := p.at.(coarseMin := env.coarseMotorMin); }
      if p.at.coarseMin > p.at.coarseMax { p.at := p.at.(coarseMin := p.at.coarseMax); }
    }

    method ClampHandoff(env: Env, p: LiveProfile)
      modifies p
      ensures p.at == old(p.at).(handoff := ClampParams(anchor, env, old(p.at)).handoff)
    {
      hide PolicyFor, Clampf, CoarseLow, CoarseHigh;
      var hHi := env.handoffCapFrac * env.target;
      var hLo := Max(if env.handoffFloor > 0.0 then env.handoffFloor else 0.30, env.coarseSdFloor);
      if hHi < hLo { hLo := hHi; }
      assert hHi == HandoffHigh(env) && hLo == HandoffLow(env);
      if hHi > 0.0 { p.at := p.at.(handoff := Clampf(p.at.handoff, hLo, hHi)); }
    }

    /** The hard limits, field by field. */
    method Clamp(env: Env, p: LiveProfile)
      modifies p
      ensures p.at == ClampParams(anchor, env, old(p.at))
    {
      hide ClampParams;
      ghost var p0 := p.at;
      ClampFine(env, p);
      ghost var p1 := p.at;
      ClampCoarse(env, p);
      ghost var p2 := p.at;
      ClampHandoff(env, p);
      ClampByParts(anchor, env, p0, p1, p2, p.at);
    }

    // ----- starting over

    method ClearRing()
      requires err.Length == ERR_WINDOW
      modifies this`errCount, this`errNext, this`missBits, this`errs, this`missLog, err
      ensures Mirrors() && errs == [] && missLog == []
    {
      var i := 0;
      while i < ERR_WINDOW
        invariant i <= ERR_WINDOW
      {
        err[i] := 0.0;
        i := i + 1;
      }
      errCount, errNext, missBits, errs, missLog := 0, 0, 0, [], [];
      RegisterOfNothing(REGISTER_BITS);
    }

    /** The part of the memory that anchoring leaves zero. */
    method ClearFields()
      modifies this`trim, this`landTick, this`wait, this`base, this`trial, this`monitorRef, this`start, this`counters
      ensures trim == 0.0 && landTick == 0 && wait == 0 && base == EMPTY_ARM && trial == EMPTY_ARM
      ensures monitorRef == 0.0 && start == Baseline(false, 0.0, 0) && counters == Counters(0, 0, 0, 0.0)
    {
      trim, landTick, wait, base, trial, monitorRef := 0.0, 0, 0, EMPTY_ARM, EMPTY_ARM, 0.0;
      start, counters := Baseline(false, 0.0, 0), Counters(0, 0, 0, 0.0);
    }

    method SetAnchor(p: Params)
      modifies this`init, this`anchor, this`good, this`seen, this`mode, this`search, this`ledger
      ensures init && anchor == p && good == p && seen == p && mode == Measuring
      ensures search == AnchorTo(p, old(ledger)).search && ledger == AnchorTo(p, old(ledger)).ledger
    {
      init, anchor, good, seen, mode := true, p, p, p, Measuring;
      search := FreshSearch();
      ledger := Ledger([], [], NO_OPENING, ledger.misses, ledger.nudges, false, ledger.judged);
    }

    /** Forget everything (memset) and start over from p. The ledger is not part of the memory. */
    method Anchor(p: Params)
      requires err.Length == ERR_WINDOW
      modifies this, err
      ensures State() == AnchorTo(p, old(ledger)) && Mirrors()
    {
      hide Low, Bits, Holds;
      ClearFields();
      SetAnchor(p);
      ClearRing();
    }

    method FreshSearch() returns (s: Search)
      ensures s == Search(0, [1, 1, 1, 1], START_STEPS, [false, false, false, false], Tally(12, 0, 0, 0, 0))
    {
      s := FRESH.search.(tally := Tally(12, 0, 0, 0, 0));
      var k := 0;
      while k < KNOBS
        invariant k <= KNOBS && |s.dir| == |s.step| == KNOBS && s.knob == 0
        invariant s.done == FRESH.search.done && s.tally == Tally(12, 0, 0, 0, 0)
        invariant forall j :: 0 <= j < k ==> s.dir[j] == 1 && s.step[j] == 0.25
      {
        s := s.(dir := s.dir[k := 1], step := s.step[k := 0.25]);
        k := k + 1;
      }
      s := s.(step := s.step[FINE_KP := 0.20]);
      s := s.(step := s.step[COARSE_MAX := 0.12]);
      s := s.(step := s.step[COARSE_TAPER := 0.40]);
      assert s.dir == [1, 1, 1, 1] && s.step == START_STEPS;
    }

    // ----- probes

    method EverythingDone() returns (all: bool)
      requires |search.done| == KNOBS
      ensures all == AllDone(search.done)
    {
      var k := 0;
      while k < KNOBS
        invariant k <= KNOBS && forall j :: 0 <= j < k ==> search.done[j]
      {
        if !search.done[k] { return false; }
        k := k + 1;
      }
      return true;
    }

    /** Turn knob k round with a shorter step, and close it when the step is too short. */
    method ShortenStep(k: nat)
      requires Shaped(search) && k < KNOBS
      modifies this`search
      ensures search == TurnBack(old(search), k)
    {
      search := search.(dir := search.dir[k := -search.dir[k]]);
      search := search.(step := search.step[k := search.step[k] * 0.6]);
      if search.step[k] < STEP_MIN { search := search.(done := search.done[k := true]); }
    }

    /** A step that the limits swallow. */
    method GiveUpStep(k: nat)
      requires Shaped(search) && k < KNOBS
      modifies this`search
      ensures search == Pin(old(search), k) && Shaped(search)
    {
      ShortenStep(k);
      search := search.(tally := search.tally.(pinned := search.tally.pinned + 1));
    }

    method CloseAll()
      requires Shaped(search)
      modifies this`search
      ensures search == old(search).(done := [true, true, true, true])
    {
      var k := 0;
      while k < KNOBS
        invariant k <= KNOBS && |search.done| == KNOBS && forall j :: 0 <= j < k ==> search.done[j]
        invariant search == old(search).(done := search.done)
      {
        search := search.(done := search.done[k := true]);
        k := k + 1;
      }
      assert search.done == [true, true, true, true];
    }

    /** The first full baseline is the start to beat. True when it already meets the time goal. */
    method MeasureStart(env: Env) returns (settled: bool)
      requires Mirrors() && Shaped(search)
      modifies this`start, this`ledger, this`search, this`monitorRef
      ensures RecordStart(old(State()), env) == (State(), settled)
    {
      hide Mean, Low, Bits, Holds;
      settled := false;
      if !start.known && base.n >= ARM_N {
        start := Baseline(true, Mean(base), base.misses);
        ledger := ledger.(opening := Opening(good, ledger.baseRuns, ledger.nudged));
        if env.timeGoal > 0.0 && start.mean <= env.timeGoal {
          CloseAll();
          monitorRef := start.mean;
          settled := true;
        }
      }
    }

    /** Walk the knobs from the current one until one has a legal step that is allowed now. */
    method FindKnob(env: Env, marginOk: bool) returns (found: bool, live: Params)
      requires Shaped(search)
      modifies this`search
      ensures PickKnob(old(search), anchor, good, env, marginOk, 0) == Pick(search, found)
      ensures found ==> Shaped(search) && live == Candidate(search, anchor, good, env, search.knob)
    {
      hide ClampParams, ApplyKnob, Differ, ProbeFactor, IsRisky, Pin;
      live := good;
      var tries := 0;
      while tries < KNOBS
        invariant tries <= KNOBS && Shaped(search)
        invariant PickKnob(search, anchor, good, env, marginOk, tries)
                  == PickKnob(old(search), anchor, good, env, marginOk, 0)
      {
        var k := (search.knob + tries) % KNOBS;
        if !search.done[k] && (marginOk || !IsRisky(k, search.dir[k])) {
          var cand := new LiveProfile(ApplyKnob(good, k, ProbeFactor(search.dir[k], search.step[k], env)));
          Clamp(env, cand);
          if Differ(cand.at, good) {
            SameCandidate(search, search.(knob := k), anchor, good, env, k);
            search := search.(knob := k);
            return true, cand.at;
          }
          GiveUpStep(k);
        }
        tries := tries + 1;
      }
      return false, live;
    }

    /** Try to put a candidate live. */
    method BeginProbe(env: Env, p: LiveProfile) returns (started: bool)
      requires Mirrors() && Shaped(search)
      modifies this, p
      ensures Mirrors()
      ensures Start(State(), p.at, started) == StartProbe(libm, old(State()), env, old(p.at))
    {
      hide ClampParams, ApplyKnob, Differ, MarginSigma, RecordStart, Candidate, Low, Bits, Holds, PickKnob, PolicyFor;
      RecordStartShaped(State(), env);
      var settled := MeasureStart(env);
      if settled { return false; }
      var margin := Margin(env.bracket);
      var marginOk := margin >= PolicyFor(env).riskyMargin * env.landSigma;
      var found, cand := FindKnob(env, marginOk);
      if !found { return false; }
      PutLive(cand, p);
      return true;
    }

    method PutLive(cand: Params, p: LiveProfile)
      modifies p, this`trial, this`mode, this`counters, this`ledger
      ensures p.at == cand
      ensures State() == old(State()).(trial := EMPTY_ARM, mode := Probing,
                                       counters := old(counters).(probes := (old(counters.probes) + 1) % 0x1_0000),
                                       ledger := old(ledger).(trialRuns := []))
    {
      p.at := cand;
      trial := EMPTY_ARM;
      mode := Probing;
      counters := counters.(probes := (counters.probes + 1) % 0x1_0000);
      ledger := ledger.(trialRuns := []);
    }

    /** Decide whether a finished probe is kept. */
    method Verdict(margin: real, env: Env) returns (keep: bool)
      requires base.n > 0 && trial.n > 0
      ensures keep == KeepProbe(libm, base, trial, margin, env.landSigma, PolicyFor(env))
    {
      hide PolicyFor, Mean, Variance;
      var pol := PolicyFor(env);
      if trial.misses >= pol.rejectMisses { return false; }
      if trial.misses + 1 == pol.rejectMisses && trial.misses > 0
          && margin < PROBE_MARGIN_FRAC * env.landSigma { return false; }
      var baseRms := ErrRms(libm, base);
      if baseRms > 0.0001 && ErrRms(libm, trial) > 1.30 * baseRms { return false; }
      var gain := Mean(base) - Mean(trial);
      var se := libm.sqrt(Variance(base) / base.n as real + Variance(trial) / trial.n as real);
      var needed := Max(pol.minGain, 1.0 * se);
      return gain > needed;
    }

    /** Settle into watching, on the original unless the search earned its keep. */
    method Watch(p: LiveProfile)
      modifies this`good, this`mode, this`base, this`ledger, p
      ensures Outcome(State(), p.at) == EnterMonitor(old(State()), old(p.at))
    {
      hide Differ, Mean;
      ghost var judged := Judgement(good, base, ledger.baseRuns, p.at);
      if start.known && Differ(good, anchor) && base.n >= ARM_N / 2 {
        var now := Mean(base);
        var clearlyFaster := start.mean - now > 0.40;
        var noWorseMisses := base.misses * 100 / (if base.n > 0 then base.n else 1) <= start.misses * 100 / ARM_N + 10;
        if !(clearlyFaster && noWorseMisses) {
          p.at := anchor;
          good := anchor;
        }
      }
      mode := Converged;
      base := EMPTY_ARM;
      ledger := ledger.(baseRuns := [], judged := judged);
    }

    method ReopenKnobs()
      requires Shaped(search)
      modifies this`search
      ensures search == old(search).(done := [false, false, false, false], step := REOPEN_STEPS,
                                     tally := Tally(8, 0, 0, 0, 0))
    {
      var k := 0;
      while k < KNOBS
        invariant k <= KNOBS && |search.done| == |search.step| == KNOBS
        invariant search == old(search).(done := search.done, step := search.step)
        invariant forall j :: 0 <= j < k ==> !search.done[j] && search.step[j] == STEP_REOPEN
      {
        search := search.(done := search.done[k := false], step := search.step[k := STEP_REOPEN]);
        k := k + 1;
      }
      assert search.done == [false, false, false, false] && search.step == REOPEN_STEPS;
      search := search.(tally := Tally(8, 0, 0, 0, 0));
    }

    method MeasureAgain()
      modifies this`mode, this`wait, this`base, this`trial, this`ledger
      ensures mode == Measuring && wait == 0 && base == trial == EMPTY_ARM
      ensures ledger == old(ledger).(baseRuns := [], trialRuns := [])
    {
      mode, wait, base, trial := Measuring, 0, EMPTY_ARM, EMPTY_ARM;
      ledger := ledger.(baseRuns := [], trialRuns := []);
    }

    method Reopen()
      requires Shaped(search)
      modifies this`search, this`mode, this`wait, this`base, this`trial, this`ledger
      ensures State() == ReopenSearch(old(State()))
    {
      ReopenKnobs();
      MeasureAgain();
    }

    /** The accepted knob's step grows, and the gain is noted. */
    method Reward()
      requires Shaped(search)
      modifies this`search, this`counters
      ensures search == Grow(old(search))
      ensures counters == old(counters).(accepted := (old(counters).accepted + 1) % 0x1_0000,
              lastGain := Mean(base) - Mean(trial))
    {
      hide Mean;
      counters := counters.(lastGain := Mean(base) - Mean(trial));
      counters := counters.(accepted := (counters.accepted + 1) % 0x1_0000);
      var k := search.knob;
      search := search.(step := search.step[k := Min(search.step[k] * 1.3, STEP_MAX)]);
      search := search.(tally := search.tally.(accepted := search.tally.accepted + 1));
    }

    method Accept(p: LiveProfile)
      requires Shaped(search)
      modifies this`good, this`search, this`base, this`trial, this`mode, this`counters, this`ledger
      ensures State() == AcceptProbe(old(State()), p.at)
    {
      hide Mean, Grow;
      Reward();
      good := p.at;
      base := trial;
      trial := EMPTY_ARM;
      mode := Measuring;
      ledger := ledger.(baseRuns := ledger.trialRuns, trialRuns := []);
    }

    method Reject()
      requires Shaped(search)
      modifies this`search, this`trial, this`mode, this`ledger
      ensures State() == RejectProbe(old(State()))
    {
      var k := search.knob;
      ShortenStep(k);
      search := search.(knob := (k + 1) % KNOBS, tally := search.tally.(rejected := search.tally.rejected + 1));
      trial := EMPTY_ARM;
      mode := Measuring;
      ledger := ledger.(trialRuns := []);
    }

    method Finish(env: Env, p: LiveProfile)
      requires Mirrors() && Shaped(search) && base.n > 0 && trial.n > 0
      modifies this, p
      ensures Mirrors()
      ensures Outcome(State(), p.at) == FinishProbe(libm, old(State()), env, old(p.at))
    {
      hide MarginSigma, StartProbe, KeepProbe, EnterMonitor, AcceptProbe, RejectProbe, Low, Bits, Holds;
      DecidedShaped(State(), p.at);
      var margin := Margin(env.bracket);
      var keep := Verdict(margin, env);
      if keep {
        Accept(p);
        StartProbeShaped(libm, State(), env, p.at);
        var started := BeginProbe(env, p);
        if !started {
          p.at := good;
          var all := EverythingDone();
          if all { Watch(p); }
        }
      } else {
        Reject();
        p.at := good;
        var all := EverythingDone();
        if all { Watch(p); }
      }
    }

    // ----- steady corrections

    method BackOffLive(env: Env, coarseRanLong: bool, p: LiveProfile)
      modifies p
      ensures p.at == BackOff(old(p.at), env, coarseRanLong)
    {
      if coarseRanLong {
        p.at := ApplyKnob(p.at, COARSE_MAX, 0.92);
        p.at := p.at.(coarseMin := Max(env.coarseMotorMin, p.at.coarseMin * 0.85));
        p.at := p.at.(handoff := p.at.handoff * 1.15);
      } else {
        p.at := p.at.(fineMin := p.at.fineMin * 0.85);
        p.at := p.at.(fineKp := p.at.fineKp * 0.92);
      }
    }

    /** A cluster of misses outside a probe: back off, and start counting misses afresh. */
    method Nudge(env: Env, coarseRanLong: bool, p: LiveProfile)
      requires Mirrors()
      modifies this`good, this`base, this`missBits, this`missLog, this`ledger, p
      ensures Mirrors()
      ensures Outcome(State(), p.at) == NudgeForOver(old(State()), env, coarseRanLong, old(p.at))
    {
      hide BackOff, ClampParams, Low, Bits, Holds;
      BackOffLive(env, coarseRanLong, p);
      Clamp(env, p);
      good := p.at;
      base := EMPTY_ARM;
      missBits, missLog := 0, [];
      RegisterOfNothing(REGISTER_BITS);
      ledger := ledger.(baseRuns := [], nudges := ledger.nudges + 1, nudged := true);
    }

    /** Whether the observed margin asks for another landing speed now. */
    method DecideLanding(env: Env) returns (d: Landing)
      requires Mirrors()
      ensures d == LandingDecision(libm, State().window, env)
    {
      hide WindowStats, LandingRatio, Low, Bits, Holds;
      RingIsFull();
      if errCount < ERR_MIN_N || env.landSigma <= 0.0 { return Keep(landTick); }
      var w := CountWindow(env.bracket);
      if w.sd <= 0.0001 { return Keep(landTick); }
      var ratio := LandingRatio(env, w);
      var tick := landTick + 1;
      var every := if ratio < 0.70 then LAND_EVERY_URGENT else LAND_EVERY;
      if tick < every { return Keep(tick); }
      if ratio <= LAND_DEADBAND && ratio >= 1.0 / LAND_DEADBAND { return Keep(0); }
      ratio := libm.pow06(ratio);
      ratio := Clampf(ratio, 1.0 / LAND_STEP, LAND_STEP);
      return Scale(ratio);
    }

    /** Steer the landing speed until the observed margin is what was asked for. */
    method Steer(env: Env, p: LiveProfile)
      requires Mirrors()
      modifies this`landTick, this`good, this`base, this`ledger, p
      ensures Mirrors()
      ensures Outcome(State(), p.at) == LandingLaw(libm, old(State()), env, old(p.at))
    {
      hide MoveLanding, LandingDecision, Low, Bits, Holds;
      var d := DecideLanding(env);
      if d.Keep? {
        landTick := d.tick;
        return;
      }
      landTick := 0;
      MoveLive(env, d.factor, p);
    }

    /** Scale the landing speed; a big move makes the baseline stale. */
    method MoveLive(env: Env, factor: real, p: LiveProfile)
      requires Mirrors()
      modifies this`good, this`base, this`ledger, p
      ensures Mirrors()
      ensures Outcome(State(), p.at) == MoveLanding(old(State()), env, factor, old(p.at))
    {
      hide ClampParams, Low, Bits, Holds, BigMove, ScaleLanding;
      var before := p.at.fineMin;
      p.at := ScaleLanding(p.at, factor);
      Clamp(env, p);
      good := good.(fineMin := p.at.fineMin);
      if BigMove(before, p.at.fineMin) {
        base, ledger := EMPTY_ARM, ledger.(baseRuns := []);
      }
    }

    /** Watching: drift or a run of misses reopens the search. */
    method Watchdog(env: Env, p: LiveProfile)
      requires Mirrors() && Shaped(search)
      modifies this`good, this`search, this`mode, this`wait, this`base, this`trial, this`monitorRef, this`ledger, p
      ensures Mirrors()
      ensures Outcome(State(), p.at) == DriftCheck(old(State()), env, old(p.at))
    {
      hide ClampParams, ReopenSearch, Mean, Low, Bits, Holds;
      if base.n < MONITOR_N { return; }
      var mean := Mean(base);
      if base.misses >= 3 {
        p.at := p.at.(handoff := p.at.handoff * 1.15);
        p.at := p.at.(fineMin := p.at.fineMin * 0.90);
        Clamp(env, p);
        good := p.at;
        Reopen();
      } else if monitorRef <= 0.0 {
        monitorRef := mean;
        base, ledger := EMPTY_ARM, ledger.(baseRuns := []);
      } else if mean > 1.15 * monitorRef + 0.3 {
        monitorRef := 0.0;
        Reopen();
      } else {
        base, ledger := EMPTY_ARM, ledger.(baseRuns := []);
      }
    }

    // ----- one throw

    /** An edit made outside the tuner starts it over; fields a probe had moved are put back first. */
    method Notice(p: LiveProfile)
      requires Mirrors()
      modifies this, err, p
      ensures Mirrors()
      ensures Outcome(State(), p.at) == NoticeEdit(old(State()), old(p.at))
    {
      hide Low, Bits, Holds, Differ, KeepEditedFields;
      if init && mode == Probing && Differ(p.at, seen) { PutBack(p); }
      if !init || Differ(p.at, seen) { Anchor(p.at); }
    }

    method PutBackFine(p: LiveProfile)
      modifies p
      ensures var q := KeepEditedFields(old(p.at), seen, good);
              p.at == old(p.at).(fineMax := q.fineMax, fineMin := q.fineMin, fineKp := q.fineKp)
    {
      if Abs(p.at.fineMax - seen.fineMax) <= 0.0001 { p.at := p.at.(fineMax := good.fineMax); }
      if Abs(p.at.fineMin - seen.fineMin) <= 0.0001 { p.at := p.at.(fineMin := good.fineMin); }
      if Abs(p.at.fineKp - seen.fineKp) <= 0.0001 { p.at := p.at.(fineKp := good.fineKp); }
    }

    method PutBack(p: LiveProfile)
      modifies p
      ensures p.at == KeepEditedFields(old(p.at), seen, good)
    {
      PutBackFine(p);
      if Abs(p.at.coarseMax - seen.coarseMax) <= 0.0001 { p.at := p.at.(coarseMax := good.coarseMax); }
      if Abs(p.at.coarseMin - seen.coarseMin) <= 0.0001 { p.at := p.at.(coarseMin := good.coarseMin); }
      if Abs(p.at.coarseKp - seen.coarseKp) <= 0.0001 { p.at := p.at.(coarseKp := good.coarseKp); }
      if Abs(p.at.handoff - seen.handoff) <= 0.0001 { p.at := p.at.(handoff := good.handoff); }
    }

    /** Write the error into the ring, over the oldest once the ring is full. */
    method RecordError(x: real)
      requires Mirrors()
      modifies this`errCount, this`errNext, this`errs, err
      ensures Mirrors() && errs == Last(old(errs) + [x], ERR_WINDOW)
    {
      hide Low, Bits;
      Push(err[..], errCount, errNext, errs, x);
      ghost var ring := err[..];
      err[errNext] := x;
      assert err[..] == ring[errNext := x];
      errNext := (errNext + 1) % ERR_WINDOW;
      if errCount < ERR_WINDOW { errCount := errCount + 1; }
      errs := Last(errs + [x], ERR_WINDOW);
    }

    /** The aim trim takes out a share of the mean error, inside half the bracket. */
    method UpdateTrim(env: Env)
      requires Mirrors()
      modifies this`trim
      ensures trim == if |errs| >= ERR_MIN_N
                      then Clampf(old(trim) - TRIM_GAIN * WindowStats(libm, errs, env.bracket).mean,
                                  -(TRIM_LIMIT * env.bracket), TRIM_LIMIT * env.bracket)
                      else old(trim)
    {
      hide Low, Bits, Holds, WindowStats;
      RingIsFull();
      if errCount >= ERR_MIN_N {
        var w := CountWindow(env.bracket);
        var limit := TRIM_LIMIT * env.bracket;
        trim := Clampf(trim - TRIM_GAIN * w.mean, -limit, limit);
      }
    }

    method ShiftMiss(miss: bool)
      requires missBits == Low(Bits(missLog), REGISTER_BITS)
      modifies this`missBits, this`missLog
      ensures missBits == Low(Bits(missLog), REGISTER_BITS) && missLog == old(missLog) + [miss]
    {
      hide Low, Bits;
      ShiftIn(missLog, miss, missBits, REGISTER_BITS);
      missBits := Low(2 * missBits + (if miss then 1 else 0), REGISTER_BITS);
      missLog := missLog + [miss];
    }

    method LogWindow(env: Env, miss: bool, x: real)
      requires Mirrors()
      modifies this`errCount, this`errNext, this`errs, this`trim, this`missBits, this`missLog, err
      ensures Mirrors()
      ensures errs == Last(old(errs) + [x], ERR_WINDOW) && missLog == old(missLog) + [miss]
      ensures trim == if |errs| >= ERR_MIN_N
                      then Clampf(old(trim) - TRIM_GAIN * WindowStats(libm, errs, env.bracket).mean,
                                  -(TRIM_LIMIT * env.bracket), TRIM_LIMIT * env.bracket)
                      else old(trim)
    {
      hide Low, Bits, Holds, WindowStats, Clampf, Last;
      RecordError(x);
      UpdateTrim(env);
      ShiftMiss(miss);
    }

    method CountThrow(miss: bool)
      modifies this`counters, this`ledger
      ensures counters == old(counters).(throws := (old(counters).throws + 1) % 0x1_0000)
      ensures ledger == old(ledger).(misses := old(ledger).misses + if miss then 1 else 0)
    {
      counters := counters.(throws := (counters.throws + 1) % 0x1_0000);
      ledger := ledger.(misses := ledger.misses + if miss then 1 else 0);
    }

    method Log(env: Env, result: Verdict, x: real)
      requires Mirrors()
      modifies this`counters, this`errCount, this`errNext, this`errs, this`trim, this`missBits, this`missLog,
               this`ledger, err
      ensures Mirrors()
      ensures State() == LogThrow(libm, old(State()), env, result, x)
    {
      hide Low, Bits, Holds, WindowStats, Clampf, Last;
      CountThrow(result != Pass);
      LogWindow(env, result != Pass, x);
    }

    method IsCluster(result: Verdict) returns (c: bool)
      requires Mirrors()
      ensures c == Cluster(State(), result)
    {
      var recent := CountRecent(10);
      c := result == Over && recent >= 3;
    }

    method CountBase(r: Run)
      modifies this`base, this`ledger
      ensures State() == AddBase(old(State()), r)
    {
      base := AddThrow(base, r.total, r.err, r.miss);
      ledger := ledger.(baseRuns := ledger.baseRuns + [r]);
    }

    method CountTrial(r: Run)
      modifies this`trial, this`search, this`ledger
      ensures State() == AddTrial(old(State()), r)
    {
      trial := AddThrow(trial, r.total, r.err, r.miss);
      search := search.(tally := search.tally.(spent := search.tally.spent + 1));
      ledger := ledger.(trialRuns := ledger.trialRuns + [r]);
    }

    method ProbeWhenReady(env: Env, p: LiveProfile)
      requires Mirrors() && Shaped(search)
      modifies this, p
      ensures Mirrors()
      ensures Outcome(State(), p.at) == ProbeIfReady(libm, old(State()), env, old(p.at))
    {
      hide StartProbe, EnterMonitor, Low, Bits, Holds;
      if wait > 0 { wait := wait - 1; }
      if base.n >= ARM_N && wait == 0 {
        StartProbeShaped(libm, State(), env, p.at);
        var started := BeginProbe(env, p);
        if !started {
          var all := EverythingDone();
          if all { Watch(p); } else { wait := 4; }
        }
      }
    }

    method Measure(env: Env, obs: Obs, r: Run, p: LiveProfile)
      requires Mirrors() && Shaped(search)
      modifies this, p
      ensures Mirrors()
      ensures Outcome(State(), p.at) == WhileMeasuring(libm, old(State()), env, obs, r, old(p.at))
    {
      hide NudgeForOver, AddBase, LandingLaw, ProbeIfReady, Cluster, Low, Bits, Holds;
      SteadyShaped(libm, State(), env, obs, r, p.at);
      var cluster := IsCluster(obs.result);
      if cluster {
        Nudge(env, obs.coarseRanLong, p);
      } else {
        CountBase(r);
        if obs.result == Pass { Steer(env, p); }
        ProbeWhenReady(env, p);
      }
    }

    method Probe(env: Env, obs: Obs, r: Run, p: LiveProfile)
      requires Mirrors() && Shaped(search) && base.n > 0
      modifies this, p
      ensures Mirrors()
      ensures Outcome(State(), p.at) == WhileProbing(libm, old(State()), env, obs, r, old(p.at))
    {
      hide FinishProbe, PolicyFor, AddThrow, Low, Bits, Holds;
      AddTrialCounts(State(), r);
      CountTrial(r);
      var pol := PolicyFor(env);
      if obs.result == Over && r.err > 2.0 * env.bracket { trial := trial.(misses := pol.rejectMisses); }
      if trial.n >= ARM_N || trial.misses >= pol.rejectMisses { Finish(env, p); }
    }

    method Monitor(env: Env, obs: Obs, r: Run, p: LiveProfile)
      requires Mirrors() && Shaped(search)
      modifies this, p
      ensures Mirrors()
      ensures Outcome(State(), p.at) == WhileConverged(libm, old(State()), env, obs, r, old(p.at))
    {
      hide NudgeForOver, AddBase, LandingLaw, DriftCheck, Cluster, Low, Bits, Holds;
      SteadyShaped(libm, State(), env, obs, r, p.at);
      var cluster := IsCluster(obs.result);
      if cluster { Nudge(env, obs.coarseRanLong, p); }
      CountBase(r);
      if obs.result == Pass { Steer(env, p); }
      Watchdog(env, p);
    }

    method RunMode(env: Env, obs: Obs, r: Run, p: LiveProfile)
      requires Mirrors() && Shaped(search) && (mode == Probing ==> base.n > 0)
      modifies this, p
      ensures Mirrors()
      ensures Outcome(State(), p.at) == Dispatch(libm, old(State()), env, obs, r, old(p.at))
    {
      hide WhileMeasuring, WhileProbing, WhileConverged, Low, Bits, Holds;
      match mode {
        case Measuring => Measure(env, obs, r, p);
        case Probing => Probe(env, obs, r, p);
        case Converged => Monitor(env, obs, r, p);
      }
    }

    /**
     Called after every throw with the live profile, which it edits. One call is one step of the
     model, so the object is a run of the model however often, and with whatever, it is called.
     */
    method Observe(env: Env, obs: Obs, p: LiveProfile)
      requires Valid()
      modifies this, err, p
      ensures Valid()
      ensures Outcome(State(), p.at) == Step(libm, old(State()), Throw(env, obs, old(p.at)))
    {
      hide NoticeEdit, LogThrow, Dispatch, ClampParams, Wf, Low, Bits, Holds;
      ObserveKeepsWf(libm, State(), env, obs, p.at);
      if !obs.total.Number? || !obs.error.Number? || env.bracket <= 0.0 { return; }
      ReadyToRun(libm, State(), env, obs, p.at);
      var r := Run(p.at, obs.total.v, obs.error.v, obs.result != Pass);
      Notice(p);
      Log(env, obs.result, r.err);
      RunMode(env, obs, r, p);
      Clamp(env, p);
      if mode != Probing { good := p.at; }
      seen := p.at;
    }
  }

  lemma SteadyShaped(m: Libm, t: Tuner, env: Env, obs: Obs, r: Run, p: Params)
    ensures NudgeForOver(t, env, obs.coarseRanLong, p).t.search == t.search
    ensures forall u: Tuner :: AddBase(u, r).search == u.search
    ensures forall u: Tuner, q: Params :: LandingLaw(m, u, env, q).t.search == u.search
  {
    hide ClampParams, LandingDecision, BackOff;
  }

  lemma ReadyToRun(m: Libm, t: Tuner, env: Env, obs: Obs, p: Params)
    requires Wf(t) && Usable(env, obs)
    ensures var u := LogThrow(m, NoticeEdit(t, p).t, env, obs.result, obs.error.v);
            Shaped(u.search) && (u.mode == Probing ==> u.base.n > 0)
  {
    hide Differ, KeepEditedFields, WindowStats;
  }

  lemma DecidedShaped(t: Tuner, p: Params)
    requires Shaped(t.search)
    ensures Shaped(AcceptProbe(t, p).search) && Shaped(RejectProbe(t).search)
  {
  }

  lemma StartProbeShaped(m: Libm, t: Tuner, env: Env, p: Params)
    requires Shaped(t.search)
    ensures Shaped(StartProbe(m, t, env, p).t.search)
  {
    hide PickKnob, MarginOk, Candidate;
  }

  /** The limits on the fine tube, on the bulk and on the handoff do not look at each other's fields. */
  lemma ClampByParts(anchor: Params, env: Env, p0: Params, p1: Params, p2: Params, p3: Params)
    requires p1 == p0.(fineKp := ClampParams(anchor, env, p0).fineKp, fineMin := ClampParams(anchor, env, p0).fineMin)
    requires var q := ClampParams(anchor, env, p1);
             p2 == p1.(coarseMax := q.coarseMax, coarseKp := q.coarseKp, coarseMin := q.coarseMin)
    requires p3 == p2.(handoff := ClampParams(anchor, env, p2).handoff)
    ensures p3 == ClampParams(anchor, env, p0)
  {
  }

  lemma RecordStartShaped(t: Tuner, env: Env)
    requires Shaped(t.search)
    ensures Shaped(RecordStart(t, env).0.search)
  {
  }

  lemma NoSlots(clip: real)
    ensures SumClipped([], clip) == 0.0 && SumSqClipped([], clip) == 0.0
  {
  }

  lemma RegisterOfNothing(width: nat)
    ensures Low(Bits([]), width) == 0
  {
  }
}
