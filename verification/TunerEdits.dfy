/**
 Edits made outside the tuner at any moment, and what an unverified candidate can leave behind.
 */
module TunerEdits {
  import opened Numeric
  import opened TunerModel
  import opened TunerRuns
  import opened TunerLimits
  import opened TunerLedger

  datatype Field = Untouched | To(v: real)

  /** A Learn fit or a portal edit: some fields of the live profile get new values. */
  datatype Edit = Edit(fineMax: Field, fineMin: Field, fineKp: Field,
                       coarseMax: Field, coarseMin: Field, coarseKp: Field, handoff: Field)

  function Set(f: Field, x: real): real {
    if f.To? then f.v else x
  }

  function Apply(e: Edit, p: Params): Params {
    Params(Set(e.fineMax, p.fineMax), Set(e.fineMin, p.fineMin), Set(e.fineKp, p.fineKp),
           Set(e.coarseMax, p.coarseMax), Set(e.coarseMin, p.coarseMin), Set(e.coarseKp, p.coarseKp),
           Set(e.handoff, p.handoff))
  }

  /** The tuner tells an edited field by its distance from what it left there. */
  predicate Told(f: Field, seen: real, good: real) {
    f.To? ==> Abs(f.v - seen) > 0.0001 || f.v == good
  }

  predicate AllTold(e: Edit, seen: Params, good: Params) {
    && Told(e.fineMax, seen.fineMax, good.fineMax) && Told(e.fineMin, seen.fineMin, good.fineMin)
    && Told(e.fineKp, seen.fineKp, good.fineKp) && Told(e.coarseMax, seen.coarseMax, good.coarseMax)
    && Told(e.coarseMin, seen.coarseMin, good.coarseMin) && Told(e.coarseKp, seen.coarseKp, good.coarseKp)
    && Told(e.handoff, seen.handoff, good.handoff)
  }

  /**
   An edit made while a candidate is live starts the tuner over from the accepted profile with that edit,
   as if no probe had been running, exactly when it is noticed, some field having moved by more than 1e-4,
   and every edited field has moved by more than 1e-4 or was set to the accepted value. If it is noticed,
   a field set to within 1e-4 of the candidate's is lost: there the accepted value stands. If it is not, the
   probe goes on.
   */
  lemma EditLandsOnGoodIff(t: Tuner, e: Edit)
    requires t.init && t.mode == Probing
    ensures var live, wanted := Apply(e, t.seen), Apply(e, t.good);
            var o := NoticeEdit(t, live);
            && (o == Outcome(AnchorTo(wanted, t.ledger), wanted) <==>
                  Differ(live, t.seen) && AllTold(e, t.seen, t.good))
            && (Differ(live, t.seen) ==> o.t == AnchorTo(o.p, t.ledger) && GoodOrEdited(o.p, live, t.seen, t.good))
            && (!Differ(live, t.seen) ==> o == Outcome(t, live))
  {
    var live := Apply(e, t.seen);
    KeptFieldByField(live, t.seen, t.good);
    KeptIfTold(e, t.seen, t.good);
    AnchoredMeasures(Apply(e, t.good), t.ledger);
    hide AnchorTo, GoodOrEdited, AllTold, Differ, KeepEditedFields, Apply;
  }

  lemma KeptIfTold(e: Edit, seen: Params, good: Params)
    ensures KeepEditedFields(Apply(e, seen), seen, good) == Apply(e, good) <==> AllTold(e, seen, good)
  {
  }

  lemma AnchoredMeasures(p: Params, ledger: Ledger)
    ensures AnchorTo(p, ledger).mode == Measuring
  {
  }

  /**
   A rejected candidate leaves no trace: had any other profile been live instead, the tuner and the
   profile it hands back would be the same.
   */
  lemma RejectedLeavesNoTrace(m: Libm, t: Tuner, env: Env, obs: Obs, r: Run, p: Params, q: Params)
    requires Wf(t) && t.mode == Probing
    requires WhileProbing(m, t, env, obs, r, p).t.search.tally.rejected > t.search.tally.rejected
    ensures WhileProbing(m, t, env, obs, r, p) == WhileProbing(m, t, env, obs, r, q)
  {
    hide StartProbe, MarginSigma, KeepProbe, AddThrow, PolicyFor, EnterMonitor;
    var a := AddTrial(t, r);
    AddTrialCounts(t, r);
    StartProbeFrame(m, AcceptProbe(a, p), env, p);
    var b := a.(trial := a.trial.(misses := PolicyFor(env).rejectMisses));
    StartProbeFrame(m, AcceptProbe(b, p), env, p);
    EnterMonitorTally(StartProbe(m, AcceptProbe(a, p), env, p).t, StartProbe(m, AcceptProbe(a, p), env, p).t.good);
    EnterMonitorTally(StartProbe(m, AcceptProbe(b, p), env, p).t, StartProbe(m, AcceptProbe(b, p), env, p).t.good);
  }

  lemma EnterMonitorTally(t: Tuner, p: Params)
    ensures EnterMonitor(t, p).t.search == t.search && EnterMonitor(t, p).t.mode == Converged
  {
  }

  // ----- where the fields of the anchor and the accepted profile come from

  const FIELDS: nat := 7

  function FieldOf(p: Params, i: nat): real
    requires i < FIELDS
  {
    if i == 0 then p.fineMax else if i == 1 then p.fineMin else if i == 2 then p.fineKp
    else if i == 3 then p.coarseMax else if i == 4 then p.coarseMin else if i == 5 then p.coarseKp
    else p.handoff
  }

  /** Some field is more than 1e-4 from the other profile's. */
  predicate DiffersSomewhere(a: Params, b: Params) {
    exists i: nat :: i < FIELDS && Abs(FieldOf(a, i) - FieldOf(b, i)) > 0.0001
  }

  lemma DifferIff(a: Params, b: Params)
    ensures Differ(a, b) <==> DiffersSomewhere(a, b)
  {
    assert FieldOf(a, 0) == a.fineMax && FieldOf(a, 1) == a.fineMin && FieldOf(a, 2) == a.fineKp
           && FieldOf(a, 3) == a.coarseMax && FieldOf(a, 4) == a.coarseMin && FieldOf(a, 5) == a.coarseKp
           && FieldOf(a, 6) == a.handoff;
    assert FieldOf(b, 0) == b.fineMax && FieldOf(b, 1) == b.fineMin && FieldOf(b, 2) == b.fineKp
           && FieldOf(b, 3) == b.coarseMax && FieldOf(b, 4) == b.coarseMin && FieldOf(b, 5) == b.coarseKp
           && FieldOf(b, 6) == b.handoff;
  }

  /** Field by field: told apart from the candidate's and so the edit's, or the accepted profile's. */
  predicate GoodOrEdited(q: Params, live: Params, seen: Params, good: Params) {
    forall i: nat :: i < FIELDS ==>
      if Abs(FieldOf(live, i) - FieldOf(seen, i)) > 0.0001 then FieldOf(q, i) == FieldOf(live, i)
      else FieldOf(q, i) == FieldOf(good, i)
  }

  lemma KeptFieldByField(live: Params, seen: Params, good: Params)
    ensures GoodOrEdited(KeepEditedFields(live, seen, good), live, seen, good)
    ensures Differ(live, seen) ==> Differ(KeepEditedFields(live, seen, good), seen)
  {
    KeptStillDiffers(live, seen, good);
    hide Abs, Differ;
  }

  lemma KeptStillDiffers(live: Params, seen: Params, good: Params)
    ensures Differ(live, seen) ==> Differ(KeepEditedFields(live, seen, good), seen)
  {
    hide Abs;
  }

  /** A throw that follows an edit only sets the tuner up again. */
  lemma FirstThrow(m: Libm, p: Params, ledger: Ledger, env: Env, obs: Obs, r: Run)
    requires Wf(AnchorTo(p, ledger))
    ensures var u := LogThrow(m, AnchorTo(p, ledger), env, obs.result, r.err);
            var d := WhileMeasuring(m, u, env, obs, r, p);
            d.t.mode == Measuring && d.t.anchor == p && d.t.good == p && d.p == p
  {
    hide WindowStats, ClampParams, BackOff, MoveLanding, StartProbe;
    var u := LogThrow(m, AnchorTo(p, ledger), env, obs.result, r.err);
    assert [] + [obs.result != Pass] == [obs.result != Pass];
    assert !Cluster(u, obs.result) by {
      OneMissAtMost(obs.result != Pass);
    }
    assert |u.window.errs| <= 1;
  }

  lemma OneMissAtMost(miss: bool)
    ensures RecentMisses([miss], 10) <= 1
  {
    assert Last([miss], 10) == [miss] && [miss][..0] == [];
    assert CountTrue([miss]) == CountTrue([]) + if miss then 1 else 0;
  }

  /** The accepted profile is p, or p clamped, or where the search ended the clamped anchor. */
  predicate OneOf(u: Tuner, p: Params, env: Env) {
    if u.mode == Probing then u.good == p
    else
      || u.good == ClampParams(u.anchor, env, p)
      || (u.mode == Converged && u.good == ClampParams(u.anchor, env, u.anchor))
  }

  /**
   In every run, whatever the next throw, its environment and its edits: an unverified candidate is not
   where the anchor or the accepted profile come from. After an edit each field of both is the accepted
   profile's or one edited by more than 1e-4. After any other throw the anchor stays, and the accepted
   profile stays or gives way to the anchor; only an acceptance puts the profile of the trial there.
   */
  lemma CandidateStaysOut(m: Libm, es: seq<Throw>, e: Throw)
    requires Play(m, FRESH, es).mode == Probing
    ensures var t := Play(m, FRESH, es);
            var u := Step(m, t, e).t;
            && t.init
            && (!Usable(e.env, e.obs) ==> u == t)
            && (Usable(e.env, e.obs) && Differ(e.live, t.seen) ==>
                  && u.mode == Measuring && GoodOrEdited(u.anchor, e.live, t.seen, t.good)
                  && u.good == ClampParams(u.anchor, e.env, u.anchor) && u.seen == u.good)
            && (Usable(e.env, e.obs) && !Differ(e.live, t.seen) ==>
                  && u.anchor == t.anchor
                  && OneOf(u, if u.search.tally.accepted > t.search.tally.accepted then e.live else t.good, e.env))
  {
    hide Play, OneOf, Dispatch, NoticeEdit, LogThrow;
    ProbingIsInit(m, es);
    if Usable(e.env, e.obs) {
      OneProbeThrow(m, Play(m, FRESH, es), e);
    }
  }

  lemma {:induction false} ProbingIsInit(m: Libm, es: seq<Throw>)
    ensures Play(m, FRESH, es).mode == Probing ==> Play(m, FRESH, es).init
  {
    hide Step;
    if es != [] {
      ProbingIsInit(m, es[..|es| - 1]);
      StepIsInit(m, Play(m, FRESH, es[..|es| - 1]), es[|es| - 1]);
    }
  }

  lemma StepIsInit(m: Libm, t: Tuner, e: Throw)
    requires Wf(t) && (t.mode == Probing ==> t.init)
    ensures Step(m, t, e).t.mode == Probing ==> Step(m, t, e).t.init
  {
    hide Dispatch, ClampParams, Differ, KeepEditedFields, LogThrow;
    if Usable(e.env, e.obs) {
      var o := NoticeEdit(t, e.live);
      var r := Run(e.live, e.obs.total.v, e.obs.error.v, e.obs.result != Pass);
      LogThrowKeepsWf(m, o.t, e.env, e.obs.result, r.err);
      LoggedAlike(m, o.t, e.env, e.obs.result, r.err);
      DispatchTame(m, LogThrow(m, o.t, e.env, e.obs.result, r.err), e.env, e.obs, r, o.p);
    }
  }

  lemma LoggedAlike(m: Libm, t: Tuner, env: Env, result: Verdict, err: real)
    ensures var u := LogThrow(m, t, env, result, err);
            u.init == t.init && u.anchor == t.anchor && u.good == t.good && u.mode == t.mode && u.search == t.search
  {
    hide WindowStats;
  }

  lemma OneProbeThrow(m: Libm, t: Tuner, e: Throw)
    requires Wf(t) && t.init && t.mode == Probing && Usable(e.env, e.obs)
    ensures var u := Step(m, t, e).t;
            && (Differ(e.live, t.seen) ==>
                  && u.mode == Measuring && GoodOrEdited(u.anchor, e.live, t.seen, t.good)
                  && u.good == ClampParams(u.anchor, e.env, u.anchor) && u.seen == u.good)
            && (!Differ(e.live, t.seen) ==>
                  && u.anchor == t.anchor
                  && OneOf(u, if u.search.tally.accepted > t.search.tally.accepted then e.live else t.good, e.env))
  {
    hide WhileProbing, WhileMeasuring, LogThrow, ClampParams, Differ, KeepEditedFields, GoodOrEdited;
    var r := Run(e.live, e.obs.total.v, e.obs.error.v, e.obs.result != Pass);
    if Differ(e.live, t.seen) {
      var q := KeepEditedFields(e.live, t.seen, t.good);
      KeptFieldByField(e.live, t.seen, t.good);
      FirstThrow(m, q, t.ledger, e.env, e.obs, r);
      LoggedAlike(m, AnchorTo(q, t.ledger), e.env, e.obs.result, r.err);
    } else {
      LoggedAlike(m, t, e.env, e.obs.result, r.err);
      LogThrowKeepsWf(m, t, e.env, e.obs.result, r.err);
      UndecidedOrRejected(m, LogThrow(m, t, e.env, e.obs.result, r.err), e.env, e.obs, r, e.live);
    }
  }

  lemma UndecidedOrRejected(m: Libm, t: Tuner, env: Env, obs: Obs, r: Run, p: Params)
    requires Wf(t) && t.mode == Probing
    ensures var d := WhileProbing(m, t, env, obs, r, p);
            && d.t.anchor == t.anchor
            && var from := if d.t.search.tally.accepted > t.search.tally.accepted then p else t.good;
            if d.t.mode == Probing then d.t.good == from
            else d.p == from || (d.t.mode == Converged && d.p == t.anchor)
  {
    hide StartProbe, KeepProbe, Differ, EarnedItsKeep, MarginSigma, AddThrow, PolicyFor;
    var a := AddTrial(t, r);
    AddTrialCounts(t, r);
    var b := a.(trial := a.trial.(misses := PolicyFor(env).rejectMisses));
    StartProbeFrame(m, AcceptProbe(a, p), env, p);
    StartProbeFrame(m, AcceptProbe(b, p), env, p);
  }

  // ----- two candidates, one history

  /** A throw of a session: the surroundings, what was seen, and what was edited before it. */
  datatype Deed = Deed(env: Env, obs: Obs, edit: Edit)

  const NO_EDIT := Edit(Untouched, Untouched, Untouched, Untouched, Untouched, Untouched, Untouched)

  function Do(m: Libm, t: Tuner, d: Deed): (u: Tuner)
    requires Wf(t)
    ensures Wf(u)
  {
    Step(m, t, Throw(d.env, d.obs, Apply(d.edit, t.seen))).t
  }

  function DoAll(m: Libm, t: Tuner, ds: seq<Deed>): (u: Tuner)
    requires Wf(t)
    ensures Wf(u)
    decreases |ds|
  {
    if ds == [] then t else DoAll(m, Do(m, t, ds[0]), ds[1..])
  }

  /** The same memory but for the profile last left live. */
  predicate SameButSeen(t: Tuner, u: Tuner) {
    Same(t.(seen := u.seen), u)
  }

  /** Both probing, with different candidates perhaps, and alike in everything else. */
  predicate Twins(t: Tuner, u: Tuner) {
    t.init && t.mode == Probing && SameButSeen(t, u)
  }

  /** The edit is noticed, and told from both candidates; or there is none. */
  predicate TellsBoth(t: Tuner, u: Tuner, e: Edit) {
    || e == NO_EDIT
    || (Differ(Apply(e, t.seen), t.seen) && AllTold(e, t.seen, t.good)
        && Differ(Apply(e, u.seen), u.seen) && AllTold(e, u.seen, u.good))
  }

  predicate Accepts(m: Libm, t: Tuner, d: Deed)
    requires Wf(t)
  {
    d.edit == NO_EDIT && Do(m, t, d).search.tally.accepted > t.search.tally.accepted
  }

  /** While the two are apart, edits can be told from both candidates and neither is accepted. */
  predicate NeverAccepted(m: Libm, t: Tuner, u: Tuner, ds: seq<Deed>)
    requires Wf(t) && Wf(u)
    decreases |ds|
  {
    ds == [] || Same(t, u)
    || (TellsBoth(t, u, ds[0].edit) && !Accepts(m, t, ds[0])
        && NeverAccepted(m, Do(m, t, ds[0]), Do(m, u, ds[0]), ds[1..]))
  }

  /**
   Non-interference, over any session: two tuners that are trying out different candidates, given the
   same throws and edits, have the same memory and the same live profile from the first rejection or
   noticed edit on. Until then all but the candidate is the same in both.
   */
  lemma {:induction false} CandidateLeavesNoTrace(m: Libm, t: Tuner, u: Tuner, ds: seq<Deed>)
    requires Wf(t) && Wf(u) && Twins(t, u) && NeverAccepted(m, t, u, ds)
    ensures var t', u' := DoAll(m, t, ds), DoAll(m, u, ds);
            if forall k :: 0 <= k <= |ds| ==> DoAll(m, t, ds[..k]).mode == Probing then Twins(t', u') else Same(t', u')
    decreases |ds|
  {
    hide Do, TellsBoth;
    assert DoAll(m, t, ds[..0]) == t;
    if ds != [] {
      var t1, u1 := Do(m, t, ds[0]), Do(m, u, ds[0]);
      forall k | 1 <= k <= |ds|
        ensures DoAll(m, t, ds[..k]) == DoAll(m, t1, ds[1..][..k - 1])
      {
        assert ds[..k][1..] == ds[1..][..k - 1];
      }
      if Same(t, u) {
        SameForever(m, t, u, ds);
        assert ds[..|ds|] == ds;
      } else {
        TwinsStep(m, t, u, ds[0]);
        if t1.mode == Probing {
          CandidateLeavesNoTrace(m, t1, u1, ds[1..]);
          assert forall k :: 0 <= k <= |ds| - 1 ==> DoAll(m, t1, ds[1..][..k]) == DoAll(m, t, ds[..k + 1]);
        } else {
          assert DoAll(m, t, ds[..1]) == DoAll(m, t1, ds[1..][..0]) == t1;
          SameForever(m, t1, u1, ds[1..]);
        }
      }
    }
  }

  lemma {:induction false} SameForever(m: Libm, t: Tuner, u: Tuner, ds: seq<Deed>)
    requires Wf(t) && Wf(u) && Same(t, u)
    ensures Same(DoAll(m, t, ds), DoAll(m, u, ds))
    ensures t.init && DoAll(m, t, ds).mode == Probing ==> Twins(DoAll(m, t, ds), DoAll(m, u, ds))
    decreases |ds|
  {
    hide Step;
    if ds != [] {
      var e := Throw(ds[0].env, ds[0].obs, Apply(ds[0].edit, t.seen));
      LedgerIsNotRead(m, t, u, e);
      if t.init {
        StaysInit(m, t, e);
      }
      SameForever(m, Do(m, t, ds[0]), Do(m, u, ds[0]), ds[1..]);
    }
  }

  /** One throw: decided the same way in both, and then nothing is left of the difference. */
  lemma TwinsStep(m: Libm, t: Tuner, u: Tuner, d: Deed)
    requires Wf(t) && Wf(u) && Twins(t, u) && TellsBoth(t, u, d.edit) && !Accepts(m, t, d)
    ensures var t', u' := Do(m, t, d), Do(m, u, d);
            if t'.mode == Probing then Twins(t', u') else Same(t', u')
  {
    hide WhileProbing, WhileMeasuring, LogThrow, ClampParams, Differ, KeepEditedFields, AllTold, Settle;
    if Usable(d.env, d.obs) {
      if d.edit == NO_EDIT {
        NoDifference(t.seen);
        NoDifference(u.seen);
        assert Apply(NO_EDIT, t.seen) == t.seen && Apply(NO_EDIT, u.seen) == u.seen;
        TwinsUndisturbed(m, t, u, d);
      } else {
        TwinsEdited(m, t, u, d);
      }
    }
  }

  lemma TwinsUndisturbed(m: Libm, t: Tuner, u: Tuner, d: Deed)
    requires Wf(t) && Wf(u) && Twins(t, u) && d.edit == NO_EDIT && !Accepts(m, t, d) && Usable(d.env, d.obs)
    requires !Differ(t.seen, t.seen) && !Differ(u.seen, u.seen)
    ensures var t', u' := Do(m, t, d), Do(m, u, d);
            if t'.mode == Probing then Twins(t', u') else Same(t', u')
  {
    hide WhileProbing, LogThrow, Differ, KeepEditedFields, Settle;
    var r := Run(t.seen, d.obs.total.v, d.obs.error.v, d.obs.result != Pass);
    var s := Run(u.seen, d.obs.total.v, d.obs.error.v, d.obs.result != Pass);
    LoggedTwins(m, t, u, d.env, d.obs.result, r.err);
    LogThrowKeepsWf(m, t, d.env, d.obs.result, r.err);
    LogThrowKeepsWf(m, u, d.env, d.obs.result, r.err);
    var a, b := LogThrow(m, t, d.env, d.obs.result, r.err), LogThrow(m, u, d.env, d.obs.result, r.err);
    var v, w := WhileProbing(m, a, d.env, d.obs, r, t.seen), WhileProbing(m, b, d.env, d.obs, s, u.seen);
    assert Do(m, t, d) == Settle(v, d.env).t && Do(m, u, d) == Settle(w, d.env).t;
    SettledTwins(v, w, d.env);
    TwinsProbing(m, a, b, d.env, d.obs, r, s, t.seen, u.seen);
  }

  lemma LoggedTwins(m: Libm, t: Tuner, u: Tuner, env: Env, result: Verdict, err: real)
    requires Twins(t, u)
    ensures var a, b := LogThrow(m, t, env, result, err), LogThrow(m, u, env, result, err);
            Twins(a, b) && a.search == t.search
  {
    hide WindowStats, Clampf;
  }

  lemma SettledTwins(v: Outcome, w: Outcome, env: Env)
    ensures Settle(v, env).t.search == v.t.search && Settle(v, env).t.mode == v.t.mode
    ensures Twins(v.t, w.t) ==> Twins(Settle(v, env).t, Settle(w, env).t)
    ensures SameButSeen(v.t, w.t) && v.p == w.p ==> Same(Settle(v, env).t, Settle(w, env).t)
  {
    hide ClampParams;
  }

  lemma TwinsProbing(m: Libm, t: Tuner, u: Tuner, env: Env, obs: Obs, r: Run, s: Run, p: Params, q: Params)
    requires Wf(t) && Wf(u) && Twins(t, u) && SameSeen(r, s)
    requires WhileProbing(m, t, env, obs, r, p).t.search.tally.accepted <= t.search.tally.accepted
    ensures var v, w := WhileProbing(m, t, env, obs, r, p), WhileProbing(m, u, env, obs, s, q);
            if v.t.mode == Probing then Twins(v.t, w.t) else SameButSeen(v.t, w.t) && v.p == w.p
  {
    hide FinishProbe, AddThrow, PolicyFor;
    AddTrialCounts(t, r);
    var a, b := AddTrial(t, r), AddTrial(u, s);
    var x := PolicyFor(env).rejectMisses;
    FinishTwins(m, a, b, env, p, q);
    FinishTwins(m, a.(trial := a.trial.(misses := x)), b.(trial := b.trial.(misses := x)), env, p, q);
  }

  lemma FinishTwins(m: Libm, t: Tuner, u: Tuner, env: Env, p: Params, q: Params)
    requires Shaped(t.search) && Twins(t, u) && t.base.n > 0 && t.trial.n > 0
    ensures var v, w := FinishProbe(m, t, env, p), FinishProbe(m, u, env, q);
            v.t.search.tally.accepted <= t.search.tally.accepted ==>
              v.t.mode != Probing && SameButSeen(v.t, w.t) && v.p == w.p
  {
    hide StartProbe, KeepProbe, EnterMonitor, AcceptProbe, RejectProbe, MarginSigma, PolicyFor;
    AcceptCounts(t, p);
    StartProbeFrame(m, AcceptProbe(t, p), env, p);
    var s := StartProbe(m, AcceptProbe(t, p), env, p);
    EnterMonitorTally(s.t, s.t.good);
    RejectTwins(t, u);
  }

  lemma AcceptCounts(t: Tuner, p: Params)
    requires Shaped(t.search)
    ensures AcceptProbe(t, p).search.tally.accepted == t.search.tally.accepted + 1 && Shaped(AcceptProbe(t, p).search)
  {
    hide Mean;
  }

  lemma RejectTwins(t: Tuner, u: Tuner)
    requires Shaped(t.search) && Twins(t, u)
    ensures var a, b := RejectProbe(t), RejectProbe(u);
            && SameButSeen(a, b) && a.mode == Measuring && a.good == b.good && a.search.done == b.search.done
            && SameButSeen(EnterMonitor(a, a.good).t, EnterMonitor(b, b.good).t)
            && EnterMonitor(a, a.good).p == EnterMonitor(b, b.good).p && EnterMonitor(a, a.good).t.mode == Converged
  {
    hide Differ, EarnedItsKeep;
  }

  lemma TwinsEdited(m: Libm, t: Tuner, u: Tuner, d: Deed)
    requires Wf(t) && Wf(u) && Twins(t, u) && TellsBoth(t, u, d.edit) && d.edit != NO_EDIT && Usable(d.env, d.obs)
    ensures var t', u' := Do(m, t, d), Do(m, u, d); t'.mode != Probing && Same(t', u')
  {
    hide WhileMeasuring, LogThrow, ClampParams, Differ, KeepEditedFields, AllTold, Settle;
    EditLandsOnGoodIff(t, d.edit);
    EditLandsOnGoodIff(u, d.edit);
    var p := Apply(d.edit, t.good);
    var r := Run(Apply(d.edit, t.seen), d.obs.total.v, d.obs.error.v, d.obs.result != Pass);
    var s := Run(Apply(d.edit, u.seen), d.obs.total.v, d.obs.error.v, d.obs.result != Pass);
    FirstThrow(m, p, t.ledger, d.env, d.obs, r);
    LoggedAlike(m, AnchorTo(p, t.ledger), d.env, d.obs.result, r.err);
    LoggedAlike(m, AnchorTo(p, u.ledger), d.env, d.obs.result, r.err);
    LogSame(m, AnchorTo(p, t.ledger), AnchorTo(p, u.ledger), d.env, d.obs.result, r.err);
    var a := LogThrow(m, AnchorTo(p, t.ledger), d.env, d.obs.result, r.err);
    var b := LogThrow(m, AnchorTo(p, u.ledger), d.env, d.obs.result, r.err);
    MeasuringSame(m, a, b, d.env, d.obs, r, s, p);
    SettleSame(WhileMeasuring(m, a, d.env, d.obs, r, p), WhileMeasuring(m, b, d.env, d.obs, s, p), d.env);
    SettledTwins(WhileMeasuring(m, a, d.env, d.obs, r, p), WhileMeasuring(m, b, d.env, d.obs, s, p), d.env);
  }
}
