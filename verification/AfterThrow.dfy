/**
 What happens once a throw has settled (src/charge_mode.cpp:204-267, 852-912): it is judged, logged, and
 handed to the tuner of the selected profile. Every profile has a tuner of its own, but the handoff is
 one setting that they all share.
 */
module AfterThrow {
  import opened Numeric
  import T = TunerModel
  import R = TunerRuns
  import Limits = TunerLimits
  import Edits = TunerEdits
  import C = ChargeModel
  import K = ChargeControl
  import LM = LearnModel
  import LS = LearnSafety
  import S = SessionLog

  const PROFILES: nat := 8

  /** What the selected style and the motors allow, as they are when the throw ends. */
  datatype Settings = Settings(learn: bool, suppressed: bool, target: real, bracket: real, landSigma: real,
                               coarseMotorCap: real, coarseMotorMin: real, tailSd: real, timeGoal: real,
                               aggressive: bool)

  /** A settled throw, as the charge loop and the scale leave it. */
  datatype Finished = Finished(settled: real, totalS: real, coarseS: real, coarseStop: real, uptimeMs: nat)

  /** The stored profiles and their tuners. A profile's own handoff field is not used: `handoff` is. */
  datatype World = World(tuners: seq<T.Tuner>, profiles: seq<T.Params>, handoff: real)

  predicate Whole(w: World) {
    |w.tuners| == PROFILES && |w.profiles| == PROFILES && forall k :: 0 <= k < PROFILES ==> T.Wf(w.tuners[k])
  }

  function Judge(target: real, bracket: real, settled: real): S.Result {
    var error := target - settled;
    if error < -(bracket + C.EDGE) then S.Over
    else if error > bracket + C.EDGE then S.Under
    else S.Pass
  }

  function LiveAt(w: World, k: nat): T.Params
    requires k < |w.profiles|
  {
    w.profiles[k].(handoff := w.handoff)
  }

  function EnvOf(s: Settings): T.Env {
    T.Env(s.target, s.bracket, s.landSigma, s.coarseMotorCap, s.coarseMotorMin,
          (if s.aggressive then 2.0 else 3.0) * s.tailSd, C.HANDOFF_MAX_FRAC, s.timeGoal,
          if s.aggressive then 0.15 else 0.30, s.aggressive)
  }

  function ObsOf(s: Settings, f: Finished, handoff: real): T.Obs {
    var verdict := match Judge(s.target, s.bracket, f.settled)
                   case Over => T.Over
                   case Under => T.Under
                   case Pass => T.Pass;
    T.Obs(verdict, T.Number(f.totalS), T.Number(f.settled - s.target),
          f.coarseStop - (s.target - C.HandoffForTarget(s.target, handoff)) > 0.25 * handoff)
  }

  /** The throw that the tuner of profile k gets to see. */
  function Seen(w: World, k: nat, s: Settings, f: Finished): R.Throw
    requires k < |w.profiles|
  {
    R.Throw(EnvOf(s), ObsOf(s, f, w.handoff), LiveAt(w, k))
  }

  predicate Learns(k: nat, s: Settings) {
    s.learn && !s.suppressed && k < PROFILES
  }

  /** learn_post_throw. */
  function Learn(m: T.Libm, w: World, k: nat, s: Settings, f: Finished): World
    requires Whole(w)
  {
    if !Learns(k, s) then w
    else
      var o := R.Step(m, w.tuners[k], Seen(w, k, s, f));
      World(w.tuners[k := o.t], w.profiles[k := o.p], o.p.handoff)
  }

  function RecordOf(k: nat, mode: nat, s: Settings, f: Finished): S.Throw {
    S.Throw(s.target, f.settled, f.totalS, f.coarseS, s.bracket, Judge(s.target, s.bracket, f.settled), k, mode,
        f.uptimeMs)
  }

  // ----- the verdict

  /** A reading on the edge passes; the three verdicts are the three cases of the distance. */
  lemma JudgedByDistance(target: real, bracket: real, settled: real)
    requires bracket >= 0.0
    ensures Judge(target, bracket, settled) == S.Pass <==> Abs(settled - target) <= bracket + C.EDGE
    ensures Judge(target, bracket, settled) == S.Over <==> settled - target > bracket + C.EDGE
  {
  }

  /** A throw that the charge loop ended is short only if powder left the pan or the aim was trimmed down. */
  lemma StopIsNotShort(c: C.Setup, w: real, settled: real)
    requires c.bracket >= 0.0 && C.AtTarget(c, w) && w <= settled && c.trim >= 0.0
    ensures Judge(c.target, c.bracket, settled) != S.Under
  {
  }

  /** What the tuner is told: how far from the target the throw settled, and on which side of the bracket. */
  lemma ToldHowItSettled(s: Settings, f: Finished, handoff: real)
    requires s.bracket >= 0.0
    ensures var o := ObsOf(s, f, handoff);
            var error := f.settled - s.target;
            && o.error == T.Number(error) && o.total == T.Number(f.totalS)
            && (o.result == T.Over <==> error > s.bracket + 0.0005)
            && (o.result == T.Under <==> error < -(s.bracket + 0.0005))
            && (o.result == T.Pass <==> Abs(error) <= s.bracket + 0.0005)
  {
  }

  /** Learning is off, or suppressed while Learn runs, or no profile is selected: then nothing is touched. */
  lemma LearnsOnlyIf(m: T.Libm, w: World, k: nat, s: Settings, f: Finished)
    requires Whole(w) && (!s.learn || s.suppressed || k >= PROFILES)
    ensures Learn(m, w, k, s, f) == w
  {
    hide R.Step;
  }

  /** The throw as it is logged. */
  lemma LoggedAsIs(k: nat, mode: nat, s: Settings, f: Finished)
    requires s.bracket >= 0.0
    ensures var r := RecordOf(k, mode, s, f);
            && r.target == s.target && r.actual == f.settled && r.totalS == f.totalS && r.coarseS == f.coarseS
            && r.bracket == s.bracket && r.profile == k && r.mode == mode && r.uptimeMs == f.uptimeMs
            && (r.result == S.Pass <==> Abs(f.settled - s.target) <= s.bracket + 0.0005)
  {
  }

  /**
   The bulk is blamed exactly when what it had brought, by the prediction it was stopped on, was over its share by
   more than a quarter of the handoff; or when no reading had stopped it, for any handoff up to twice the charge.
   */
  lemma BlameFollowsBulk(c: C.Setup, start: nat, ins: seq<C.Input>, i: C.Input, s: Settings, f: Finished)
    requires c.target == s.target > 0.0
    requires C.Run(c, start, ins).status == C.Running && C.Run(c, start, ins + [i]).status == C.Complete
    requires f.coarseStop == C.BulkBrought(c, C.Run(c, start, ins + [i]))
    ensures var rs, long := K.Readings(ins), ObsOf(s, f, c.handoff).coarseRanLong;
            && (long <==> K.BulkStop(c, start, rs) - K.BulkShare(c) > 0.25 * c.handoff)
            && (K.BulkRuns(c, start, rs) && 0.0 < c.handoff < 2.0 * c.target ==> long)
  {
    hide C.Run, C.BulkBrought, K.BulkRuns;
    K.BulkStoppedAt(c, start, ins, i);
    K.ShareIs(c);
  }

  /** The limits that the adapter passes for a charge are those that the fit was made for. */
  lemma SameLimitsAsFit(c: LM.Settings, r: LM.Result, s: Settings)
    requires s.bracket == c.bracket && s.aggressive == c.aggressive && s.landSigma == Clampf(c.landSigma, 1.0, 4.0)
    requires s.coarseMotorCap == c.coarseMotorMax as real && s.coarseMotorMin == c.coarseMotorMin
    requires s.tailSd == r.tailSd && s.timeGoal == if 0.0 < c.goal < 120.0 then c.goal else 0.0
    ensures EnvOf(s) == LS.EnvFor(c, r, s.target)
  {
  }

  // ----- runs: any profiles, settings and edits

  datatype Event =
    | Done(k: nat, s: Settings, f: Finished)
    | EditProfile(k: nat, p: T.Params)
    | EditHandoff(handoff: real)

  function Next(m: T.Libm, w: World, e: Event): World
    requires Whole(w)
  {
    match e
    case Done(k, s, f) => Learn(m, w, k, s, f)
    case EditProfile(k, p) => if k < PROFILES then w.(profiles := w.profiles[k := p]) else w
    case EditHandoff(h) => w.(handoff := h)
  }

  function After(m: T.Libm, start: World, es: seq<Event>): (w: World)
    requires Whole(start)
    ensures Whole(w)
  {
    if es == [] then start else Next(m, After(m, start, es[..|es| - 1]), es[|es| - 1])
  }

  /** The throws of a run that the tuner of profile k sees. */
  function ThrowsOf(m: T.Libm, start: World, k: nat, es: seq<Event>): seq<R.Throw>
    requires Whole(start) && k < PROFILES
  {
    if es == [] then []
    else
      var e := es[|es| - 1];
      var before := es[..|es| - 1];
      ThrowsOf(m, start, k, before)
      + if e.Done? && e.k == k && Learns(k, e.s) then [Seen(After(m, start, before), k, e.s, e.f)] else []
  }

  predicate PowerUp(w: World) {
    Whole(w) && forall k :: 0 <= k < PROFILES ==> w.tuners[k] == T.FRESH
  }

  /**
   However profiles are switched and edited, each tuner has gone through a run of its own, so everything
   proved of a tuner's runs holds of each profile's.
   */
  lemma {:induction false} EveryTunerRuns(m: T.Libm, start: World, k: nat, es: seq<Event>)
    requires PowerUp(start) && k < PROFILES
    ensures After(m, start, es).tuners[k] == R.Play(m, T.FRESH, ThrowsOf(m, start, k, es))
  {
    hide R.Step, Seen, Learns;
    if es != [] {
      var before := es[..|es| - 1];
      EveryTunerRuns(m, start, k, before);
      var mine := ThrowsOf(m, start, k, before);
      var e := es[|es| - 1];
      if e.Done? && e.k == k && Learns(k, e.s) {
        var last := Seen(After(m, start, before), k, e.s, e.f);
        assert (mine + [last])[..|mine|] == mine;
      } else {
        assert mine + [] == mine;
      }
    }
  }

  /**
   After a throw that was learned from, at a positive target: the stored handoff is one that the charge
   loop uses as it is, the bulk gets the rest of the charge, at least half, and the aim trim is at most
   half the bracket.
   */
  lemma TunedHandoffIsUsed(m: T.Libm, start: World, es: seq<Event>, k: nat, s: Settings, f: Finished, c: C.Setup)
    requires PowerUp(start) && Learns(k, s) && 0.0 < s.target && 0.0 < s.bracket
    requires var w := After(m, start, es + [Done(k, s, f)]); c.target == s.target && c.handoff == w.handoff
    ensures var w := After(m, start, es + [Done(k, s, f)]);
            && 0.0 < w.handoff <= 0.5 * s.target && C.HandoffFor(c) == w.handoff
            && C.CoarseTarget(c) == s.target - w.handoff >= 0.5 * s.target
            && Abs(w.tuners[k].window.trim) <= 0.5 * s.bracket
  {
    hide R.Step, R.Play, Limits.Fixed;
    var w := After(m, start, es);
    assert (es + [Done(k, s, f)])[..|es|] == es;
    EveryTunerRuns(m, start, k, es);
    Limits.LimitsHold(m, ThrowsOf(m, start, k, es), Seen(w, k, s, f));
    HandoffPositive(s);
  }

  lemma HandoffPositive(s: Settings)
    requires 0.0 < s.target
    ensures 0.0 < T.HandoffLow(EnvOf(s)) <= T.HandoffHigh(EnvOf(s)) == 0.5 * s.target
  {
  }

  /** The tuner of a profile whose own fields were left alone. */
  predicate LeftAlone(w: World, k: nat)
    requires Whole(w) && k < PROFILES
  {
    w.tuners[k].init && w.profiles[k].(handoff := w.tuners[k].seen.handoff) == w.tuners[k].seen
  }

  /**
   The shared handoff ties the tuners together. A profile that nobody touched keeps its tuner's memory
   exactly while the handoff stands within 1e-4 of where that tuner left it; once another profile's
   tuner has moved it further, the next throw counts as an outside edit and the tuner starts over.
   */
  lemma SharedHandoffRestartsIff(w: World, k: nat)
    requires Whole(w) && k < PROFILES && LeftAlone(w, k)
    ensures var o := T.NoticeEdit(w.tuners[k], LiveAt(w, k));
            var near := Abs(w.handoff - w.tuners[k].seen.handoff) <= 0.0001;
            && (near ==> o.t == w.tuners[k])
            && (!near ==> o.t == T.AnchorTo(o.p, w.tuners[k].ledger) && o.p.handoff == w.handoff)
  {
    hide T.AnchorTo;
  }

  // ----- two profiles in turn

  const PLAIN := T.Params(2.0, 0.2, 1.0, 3.0, 0.5, 3.0, 0.0)
  const HEAVY := Settings(true, false, 40.0, 0.02, 2.0, 5.0, 0.05, 0.0, 0.0, false)
  const LANDED := Finished(40.0, 10.0, 5.0, 38.0, 0)

  /** Eight like profiles and a handoff of two grains. */
  function Bench(): (w: World)
    ensures PowerUp(w)
  {
    World(seq(PROFILES, _ => T.FRESH), seq(PROFILES, _ => PLAIN), 2.0)
  }

  /** A tuner's first throw leaves the profile clamped to its own limits. */
  lemma FirstLeaves(m: T.Libm, e: R.Throw)
    requires T.Usable(e.env, e.obs)
    ensures var o := R.Step(m, T.FRESH, e);
            o.t.init && o.t.mode == T.Measuring && o.t.seen == o.p == T.ClampParams(e.live, e.env, e.live)
  {
    hide T.ClampParams, T.WhileMeasuring, T.LogThrow;
    var r := T.Run(e.live, e.obs.total.v, e.obs.error.v, e.obs.result != T.Pass);
    Edits.FirstThrow(m, e.live, T.EMPTY_LEDGER, e.env, e.obs, r);
    Edits.LoggedAlike(m, T.AnchorTo(e.live, T.EMPTY_LEDGER), e.env, e.obs.result, r.err);
    var u := T.LogThrow(m, T.AnchorTo(e.live, T.EMPTY_LEDGER), e.env, e.obs.result, r.err);
    R.LogThrowKeepsWf(m, T.AnchorTo(e.live, T.EMPTY_LEDGER), e.env, e.obs.result, r.err);
    Limits.DispatchTame(m, u, e.env, e.obs, r, e.live);
  }

  /**
   One charge on the second profile, a lighter one on the first, and the second profile's tuner starts
   over, although nobody has touched that profile: the lighter charge has pulled the handoff in.
   */
  lemma TwoProfilesCollide(m: T.Libm)
    ensures var light := HEAVY.(target := 3.0);
            var es := [Done(1, HEAVY, LANDED), Done(0, light, LANDED.(settled := 3.0))];
            var w := After(m, Bench(), es);
            && LeftAlone(w, 1) && w.tuners[1].seen.handoff == 2.0 && w.handoff == 1.5
            && T.NoticeEdit(w.tuners[1], LiveAt(w, 1)).t == T.AnchorTo(LiveAt(w, 1), w.tuners[1].ledger)
  {
    hide R.Step, T.AnchorTo;
    var light, lands := HEAVY.(target := 3.0), LANDED.(settled := 3.0);
    var es := [Done(1, HEAVY, LANDED), Done(0, light, lands)];
    var w0 := Bench();
    var first := es[..1];
    assert first == [es[0]] && first[..0] == [];
    assert After(m, w0, first[..0]) == w0;
    var w1 := After(m, w0, first);
    assert w1 == Next(m, w0, first[0]) == Learn(m, w0, 1, HEAVY, LANDED);
    FirstLeaves(m, Seen(w0, 1, HEAVY, LANDED));
    FirstLeaves(m, Seen(w1, 0, light, lands));
    ClampsTo();
    var w := After(m, w0, es);
    assert w == Learn(m, w1, 0, light, lands);
    assert w.tuners[1] == w1.tuners[1] && w.profiles[1] == w1.profiles[1];
    hide Learn, After, T.Differ;
    SharedHandoffRestartsIff(w, 1);
  }

  lemma ClampsTo()
    ensures var p := PLAIN.(handoff := 2.0);
            && T.ClampParams(p, EnvOf(HEAVY), p) == p
            && T.ClampParams(p, EnvOf(HEAVY.(target := 3.0)), p).handoff == 1.5
  {
  }

  /** So in a run in which one profile is used, and nothing edited, that profile is always left alone. */
  lemma {:induction false} OneProfileIsLeftAlone(m: T.Libm, start: World, k: nat, es: seq<Event>)
    requires PowerUp(start) && k < PROFILES && forall e :: e in es ==> e.Done? && e.k == k
    ensures var w := After(m, start, es);
            && (w.tuners[k].init ==> LiveAt(w, k) == w.tuners[k].seen)
            && Limits.Quiet(m, ThrowsOf(m, start, k, es))
  {
    hide R.Step;
    if es != [] {
      var before := es[..|es| - 1];
      OneProfileIsLeftAlone(m, start, k, before);
      EveryTunerRuns(m, start, k, before);
      var w, e, mine := After(m, start, before), es[|es| - 1], ThrowsOf(m, start, k, before);
      if Learns(k, e.s) {
        var last := Seen(w, k, e.s, e.f);
        LeavesWhatItSees(m, w.tuners[k], last);
        forall i | 0 <= i < |mine + [last]| && R.Play(m, T.FRESH, (mine + [last])[..i]).init
          ensures (mine + [last])[i].live == R.Play(m, T.FRESH, (mine + [last])[..i]).seen
        {
          assert (mine + [last])[..i] == mine[..i];
          assert mine[..|mine|] == mine;
        }
      } else {
        assert mine + [] == mine;
      }
    }
  }

  lemma LeavesWhatItSees(m: T.Libm, t: T.Tuner, e: R.Throw)
    requires T.Wf(t)
    ensures var o := R.Step(m, t, e);
            if T.Usable(e.env, e.obs) then o.t.seen == o.p else o.t == t && o.p == e.live
  {
    hide T.ClampParams, T.Dispatch, T.LogThrow, T.NoticeEdit;
  }
}
