/** Judging, logging and learning as the firmware does them, on the tuners and the log in place. */
module ChargeStation {
  import opened AfterThrow
  import T = TunerModel
  import R = TunerRuns
  import C = ChargeModel
  import S = SessionLog
  import L = LiveTuner

  class Station {
    const libm: T.Libm
    const tuner: seq<L.Device>
    const log: S.Log
    var profiles: seq<T.Params>
    var handoff: real
    var pending: bool            // a completed throw that has not been logged yet

    ghost function Devices(): set<L.Device> {
      set d | d in tuner
    }

    ghost function Rings(): set<array<real>>
      reads Devices()
    {
      set d | d in tuner :: d.err
    }

    ghost predicate Apart() {
      forall i, j :: 0 <= i < j < |tuner| ==> tuner[i] != tuner[j] && tuner[i].err != tuner[j].err
    }

    /** The tuners are in order. */
    ghost predicate Ready()
      reads this, Devices(), Rings()
    {
      && |tuner| == PROFILES && |profiles| == PROFILES && Apart()
      && forall i :: 0 <= i < PROFILES ==> tuner[i].Valid() && tuner[i].libm == libm
    }

    ghost predicate Valid()
      reads this, Devices(), Rings(), log, log.buffer
    {
      Ready() && log.Valid()
    }

    ghost function Now(): World
      reads this, Devices()
    {
      World(seq(|tuner|, i requires 0 <= i < |tuner| reads Devices() => tuner[i].State()), profiles, handoff)
    }

    constructor (m: T.Libm, devices: seq<L.Device>, l: S.Log, stored: seq<T.Params>, h: real)
      requires |devices| == PROFILES && |stored| == PROFILES && l.Valid()
      requires forall i, j :: 0 <= i < j < |devices| ==> devices[i] != devices[j] && devices[i].err != devices[j].err
      requires forall i :: 0 <= i < PROFILES ==>
                 devices[i].Valid() && devices[i].libm == m && devices[i].State() == T.FRESH
      ensures Valid() && PowerUp(Now()) && !pending && libm == m && tuner == devices && log == l
      ensures profiles == stored && handoff == h
    {
      libm, tuner, log := m, devices, l;
      profiles, handoff, pending := stored, h, false;
    }

    lemma IsWhole()
      requires Ready()
      ensures Whole(Now()) && |tuner| == PROFILES && |profiles| == PROFILES
    {
    }

    lemma Picked(k: nat)
      requires Ready() && k < PROFILES
      ensures tuner[k].Valid() && tuner[k].libm == libm && Now().tuners[k] == tuner[k].State()
      ensures tuner[k] in Devices() && tuner[k].err in Rings()
      ensures forall i :: 0 <= i < PROFILES && i != k ==> tuner[i] != tuner[k] && tuner[i].err != tuner[k].err
    {
    }

    /** learn_post_throw. */
    method LearnPostThrow(k: nat, s: Settings, f: Finished)
      requires Ready()
      modifies this`profiles, this`handoff, Devices(), Rings()
      ensures Ready() && Whole(old(Now())) && Now() == Learn(libm, old(Now()), k, s, f)
    {
      IsWhole();
      hide T.Wf, R.Step, R.Play;
      if !s.learn { return; }
      if s.suppressed { return; }
      if k >= PROFILES { return; }
      var env := T.Env(s.target, s.bracket, s.landSigma, s.coarseMotorCap, s.coarseMotorMin,
                       (if s.aggressive then 2.0 else 3.0) * s.tailSd, C.HANDOFF_MAX_FRAC, s.timeGoal,
                       if s.aggressive then 0.15 else 0.30, s.aggressive);
      var obs := ObsOf(s, f, handoff);
      Tune(k, env, obs);
    }

    /** The part of learn_post_throw around tuner_observe. */
    method Tune(k: nat, env: T.Env, obs: T.Obs)
      requires Ready() && k < PROFILES
      modifies this`profiles, this`handoff, Devices(), Rings()
      ensures Ready() && Whole(old(Now()))
      ensures var w := old(Now());
              var o := R.Step(libm, w.tuners[k], R.Throw(env, obs, LiveAt(w, k)));
              Now() == World(w.tuners[k := o.t], w.profiles[k := o.p], o.p.handoff)
    {
      IsWhole();
      Picked(k);
      hide T.Wf, R.Step, Ready, Whole;
      var params := new L.LiveProfile(profiles[k].(handoff := handoff));
      tuner[k].Observe(env, obs, params);
      profiles := profiles[k := params.at];
      handoff := params.at.handoff;
      OthersStay(k);
    }

    /** Another device's state does not depend on this one's. */
    twostate lemma OthersStay(k: nat)
      requires old(Ready()) && k < PROFILES && |tuner| == PROFILES && |profiles| == PROFILES
      requires tuner[k].Valid()
      requires forall i :: 0 <= i < PROFILES && i != k ==> unchanged(tuner[i], tuner[i].err)
      ensures Ready() && Now() == World(old(Now()).tuners[k := tuner[k].State()], profiles, handoff)
    {
      forall i | 0 <= i < PROFILES && i != k
        ensures tuner[i].Valid() && tuner[i].State() == old(tuner[i].State())
      {
        assert old(tuner[i].Valid());
      }
    }

    /** The settled throw: judged, and then, once, logged and learned from. */
    method Settled(k: nat, mode: nat, s: Settings, f: Finished) returns (verdict: S.Result)
      requires Valid()
      modifies this`profiles, this`handoff, this`pending, Devices(), Rings(), log, log.buffer
      ensures Valid() && !pending && Whole(old(Now()))
      ensures verdict == Judge(s.target, s.bracket, f.settled)
      ensures log.throws == old(log.throws) + if old(pending) then [RecordOf(k, mode, s, f)] else []
      ensures Now() == if old(pending) then Learn(libm, old(Now()), k, s, f) else old(Now())
    {
      var error := s.target - f.settled;
      verdict := S.Pass;
      if error < -(s.bracket + C.EDGE) {
        verdict := S.Over;
      } else if error > s.bracket + C.EDGE {
        verdict := S.Under;
      }
      IsWhole();
      hide Learn, Whole;
      if pending {
        pending := false;
        log.RecordThrow(S.Throw(s.target, f.settled, f.totalS, f.coarseS, s.bracket, verdict, k, mode, f.uptimeMs));
        assert Now() == old(Now());
        LearnPostThrow(k, s, f);
      }
    }
  }
}
