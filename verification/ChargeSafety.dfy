/** What holds of a throw for every sequence of buttons, readings and times. */
module ChargeSafety {
  import opened Numeric
  import opened ChargeModel

  lemma LastSaid(log: seq<Command>, m: Motor, speed: real, of: Motor)
    ensures LastTold(log + [Command(m, speed)], of) == if m == of || m == Both then speed else LastTold(log, of)
  {
    assert (log + [Command(m, speed)])[..|log|] == log;
  }

  /** On every way out both motors were last told to stop, the precharge after a complete throw included. */
  predicate AtRest(log: seq<Command>) {
    LastTold(log, Coarse) == 0.0 && LastTold(log, Fine) == 0.0
  }

  /** The loop's view of the scale, apart from what it does to the motors. */
  predicate SameView(l: Loop, u: Loop) {
    && u.status == l.status && u.rate == l.rate && u.lastWeight == l.lastWeight && u.haveLast == l.haveLast
    && u.lastSample == l.lastSample && u.lastValid == l.lastValid
  }

  lemma MotorsApart(c: Setup, l: Loop, now: nat)
    ensures SameView(l, EndBackoff(l, now)) && EndBackoff(l, now).moving == l.moving
    ensures SameView(l, StopCoarse(c, l, now)) && !StopCoarse(c, l, now).moving
  {
    hide BackoffRun;
  }

  lemma DrivesApart(c: Setup, l: Loop, fineError: real, coarseError: real, elapsed: nat)
    ensures var r := DriveCoarse(c, DriveFine(c, l, fineError, elapsed), coarseError, elapsed);
            SameView(l, r) && r.moving == l.moving
  {
    hide FineSpeed, Drive, Limited;
  }

  /** What a pass does to everything but the motors does not depend on them. */
  lemma ScaleView(c: Setup, l: Loop, now: nat, w: real)
    ensures var r := OnWeight(c, l, now, w);
            && r.rate == Rate(l, now, w) && r.lastWeight == w && r.haveLast && r.lastValid == now
            && r.lastSample == (if AtTarget(c, w) then l.lastSample else now)
            && r.status == (if AtTarget(c, w) then Complete else l.status)
            && r.moving == (l.moving && (AtTarget(c, w)
                || CoarseTarget(c) - Predicted(c, Rate(l, now, w), l.moving, w) > 0.0))
  {
    hide Rate, Predicted, AtTarget, StopCoarse, DriveFine, DriveCoarse, EndBackoff, Elapsed, CoarseTarget;
    MotorsApart(c, l.(lastValid := now), now);
    var l1 := EndBackoff(l.(lastValid := now), now).(rate := Rate(l, now, w), lastWeight := w, haveLast := true);
    var predicted := Predicted(c, Rate(l, now, w), l.moving, w);
    MotorsApart(c, l1.(stopWeight := predicted), now);
    var l2 := if CoarseTarget(c) - predicted <= 0.0 && l.moving then StopCoarse(c, l1.(stopWeight := predicted), now)
        else l1;
    DrivesApart(c, l2, Aim(c) - predicted, CoarseTarget(c) - predicted, Elapsed(now, l.lastSample));
  }

  lemma LeavesAtRest(c: Setup, l: Loop, i: Input)
    requires l.status == Running && Pass(c, l, i).status != Running
    ensures AtRest(Pass(c, l, i).log)
  {
    hide Rate, Predicted, AtTarget, StopCoarse, DriveFine, DriveCoarse, EndBackoff, LastTold, Elapsed, CoarseTarget;
    match i {
      case Rst =>
        LastSaid(l.log, Both, 0.0, Coarse);
        LastSaid(l.log, Both, 0.0, Fine);
      case Missing(at) =>
        LastSaid(l.log, Both, 0.0, Coarse);
        LastSaid(l.log, Both, 0.0, Fine);
      case Weight(at, w) =>
        ScaleView(c, l, at, w);
        var log := EndBackoff(l.(lastValid := at), at).log;
        LastSaid(log, Fine, 0.0, Fine);
        LastSaid(log + [Command(Fine, 0.0)], Coarse, 0.0, Fine);
        LastSaid(log + [Command(Fine, 0.0)], Coarse, 0.0, Coarse);
    }
  }

  lemma {:induction false} EveryExitIsAtRest(c: Setup, start: nat, ins: seq<Input>)
    ensures var l := Run(c, start, ins);
            l.status != Running ==> AtRest(l.log) && AtRest(Closing(c, l))
  {
    hide Pass, LastTold;
    if ins != [] {
      var before := Run(c, start, ins[..|ins| - 1]);
      EveryExitIsAtRest(c, start, ins[..|ins| - 1]);
      if before.status == Running {
        if Run(c, start, ins).status != Running {
          LeavesAtRest(c, before, ins[|ins| - 1]);
        }
      } else {
        LeftStaysLeft(c, before, ins[|ins| - 1]);
      }
      var log := Run(c, start, ins).log;
      var filled := log + [Command(Coarse, c.prechargeSpeed)];
      assert log + [Command(Coarse, c.prechargeSpeed), Command(Coarse, 0.0)] == filled + [Command(Coarse, 0.0)];
      LastSaid(log, Coarse, c.prechargeSpeed, Fine);
      LastSaid(filled, Coarse, 0.0, Coarse);
      LastSaid(filled, Coarse, 0.0, Fine);
    }
  }

  lemma LeftStaysLeft(c: Setup, l: Loop, i: Input)
    requires l.status != Running
    ensures Pass(c, l, i) == l
  {
  }

  // ----- commands inside the loop

  /** The reverse speed is a reverse speed, the others are zero or inside the envelope. */
  predicate Allowed(c: Setup, k: Command) {
    || k.speed == 0.0
    || (k.motor == Fine && FineMin(c) <= k.speed <= Max(FineMin(c), FineMax(c)))
    || (k.motor == Coarse && CoarseMin(c) <= k.speed <= Max(CoarseMin(c), CoarseMax(c)))
    || (k.motor == Coarse && k.speed == BackoffRun(c).speed < 0.0)
  }

  /** Commands are allowed; from the coarse stop on the coarse tube is only stopped or reversed. */
  predicate LogSafe(c: Setup, l: Loop) {
    && (forall k :: 0 <= k < |l.log| ==> Allowed(c, l.log[k]))
    && l.stopAt <= |l.log|
    && (!l.moving ==> forall k :: l.stopAt <= k < |l.log| && l.log[k].motor != Fine ==> l.log[k].speed <= 0.0)
    && (l.backing ==> !l.moving)
  }

  lemma SayKeepsSafe(c: Setup, l: Loop, m: Motor, speed: real)
    requires LogSafe(c, l) && Allowed(c, Command(m, speed)) && (m != Fine && !l.moving ==> speed <= 0.0)
    ensures LogSafe(c, Say(l, m, speed))
  {
  }

  lemma EndBackoffSafe(c: Setup, l: Loop, now: nat)
    requires LogSafe(c, l)
    ensures LogSafe(c, EndBackoff(l, now)) && EndBackoff(l, now).moving == l.moving
  {
    hide Allowed;
    assert Allowed(c, Command(Coarse, 0.0)) by { ZeroAllowed(c, Coarse); }
    SayKeepsSafe(c, l, Coarse, 0.0);
  }

  lemma ZeroAllowed(c: Setup, m: Motor)
    ensures Allowed(c, Command(m, 0.0))
  {
  }

  lemma StopCoarseSafe(c: Setup, l: Loop, now: nat)
    requires LogSafe(c, l) && l.moving
    ensures LogSafe(c, StopCoarse(c, l, now))
  {
    hide BackoffRun;
    ReverseAllowed(c);
    var s := Say(l, Coarse, 0.0).(moving := false, stopAt := |l.log|);
    assert LogSafe(c, s);
    if BackoffRun(c).ms != 0 {
      SayKeepsSafe(c, s, Coarse, BackoffRun(c).speed);
    }
  }

  lemma ReverseAllowed(c: Setup)
    ensures BackoffRun(c).ms != 0 ==> BackoffRun(c).speed < 0.0
  {
  }

  lemma LimitedInRange(x: real, lo: real, hi: real)
    ensures lo <= Limited(x, lo, hi) <= Max(lo, hi)
  {
  }

  lemma DriveFineSafe(c: Setup, l: Loop, error: real, elapsed: nat)
    requires LogSafe(c, l)
    ensures var r := DriveFine(c, l, error, elapsed); LogSafe(c, r) && r.moving == l.moving && r.backing == l.backing
  {
    hide Drive, Limited, FineMin, FineMax, BackoffRun;
    LimitedInRange(Drive(c.fine, error, l.fineI + error, l.fineLast, elapsed), FineMin(c), FineMax(c));
    SayKeepsSafe(c, l, Fine, FineSpeed(c, l, error, elapsed));
  }

  lemma DriveCoarseSafe(c: Setup, l: Loop, error: real, elapsed: nat)
    requires LogSafe(c, l)
    ensures LogSafe(c, DriveCoarse(c, l, error, elapsed))
  {
    hide Drive, Limited, CoarseMin, CoarseMax, BackoffRun;
    if l.moving && !l.backing {
      var x := Drive(c.coarse, error, l.coarseI + error, l.coarseLast, elapsed);
      LimitedInRange(x, CoarseMin(c), CoarseMax(c));
      SayKeepsSafe(c, l, Coarse, Limited(x, CoarseMin(c), CoarseMax(c)));
    }
  }

  lemma PassSafe(c: Setup, l: Loop, i: Input)
    requires LogSafe(c, l)
    ensures LogSafe(c, Pass(c, l, i))
  {
    hide Rate, Predicted, AtTarget, Elapsed, Allowed, EndBackoff, StopCoarse, DriveFine, DriveCoarse, CoarseTarget;
    ZeroAllowed(c, Both);
    ZeroAllowed(c, Fine);
    ZeroAllowed(c, Coarse);
    if l.status == Running {
      if i.Weight? {
        var now, w := i.at, i.w;
        var rate := Rate(l, now, w);
        EndBackoffSafe(c, l.(lastValid := now), now);
        var l1 := EndBackoff(l.(lastValid := now), now).(rate := rate, lastWeight := w, haveLast := true);
        SayKeepsSafe(c, l1, Fine, 0.0);
        SayKeepsSafe(c, Say(l1, Fine, 0.0), Coarse, 0.0);
        var predicted := Predicted(c, rate, l.moving, w);
        var coarseError, fineError := CoarseTarget(c) - predicted, Aim(c) - predicted;
        var l2 := if coarseError <= 0.0 && l.moving then StopCoarse(c, l1.(stopWeight := predicted), now) else l1;
        if coarseError <= 0.0 && l.moving {
          assert LogSafe(c, l1.(stopWeight := predicted));
          StopCoarseSafe(c, l1.(stopWeight := predicted), now);
        }
        var elapsed := Elapsed(now, l.lastSample);
        DriveFineSafe(c, l2, fineError, elapsed);
        DriveCoarseSafe(c, DriveFine(c, l2, fineError, elapsed), coarseError, elapsed);
      } else {
        SayKeepsSafe(c, l, Both, 0.0);
      }
    }
  }

  /**
   For every run: each command in the loop is zero, or a forward speed inside the profile's and motor's
   envelope, or the set reverse speed on the coarse tube; and once the coarse tube has been stopped it is
   never driven forward again before the loop is left.
   */
  lemma {:induction false} CommandsAreSafe(c: Setup, start: nat, ins: seq<Input>)
    ensures LogSafe(c, Run(c, start, ins))
  {
    hide Pass, LogSafe;
    if ins == [] {
      StartSafe(c, start);
    } else {
      CommandsAreSafe(c, start, ins[..|ins| - 1]);
      PassSafe(c, Run(c, start, ins[..|ins| - 1]), ins[|ins| - 1]);
    }
  }

  lemma StartSafe(c: Setup, start: nat)
    ensures LogSafe(c, Start(start))
  {
  }

  // ----- losing the scale

  function At(i: Input): nat {
    if i.Rst? then 0 else i.at
  }

  /** Pass k has no reading, and ends at most 200 ms after the one before it. */
  predicate SilentPass(since: nat, ins: seq<Input>, k: nat)
    requires k < |ins|
  {
    var from := if k == 0 then since else At(ins[k - 1]);
    ins[k].Missing? && from <= At(ins[k]) <= from + 200
  }

  predicate Silent(since: nat, ins: seq<Input>) {
    forall k :: 0 <= k < |ins| ==> SilentPass(since, ins, k)
  }

  function Passes(c: Setup, l: Loop, ins: seq<Input>): Loop {
    if ins == [] then l else Pass(c, Passes(c, l, ins[..|ins| - 1]), ins[|ins| - 1])
  }

  lemma ElapsedIs(now: nat, since: nat)
    requires since <= now < since + WORD
    ensures Elapsed(now, since) == now - since
  {
  }

  /**
   Without finite readings the loop is left at the first pass that ends 2000 ms after the last one, and
   so, with waits of at most 200 ms, less than 2200 ms after it; until then it runs on unchanged.
   */
  lemma {:induction false} SilenceEndsTheThrow(c: Setup, l: Loop, ins: seq<Input>)
    requires l.status == Running && Silent(l.lastValid, ins) && ins != []
    ensures var late := At(ins[|ins| - 1]) >= l.lastValid + 2000;
            && (Passes(c, l, ins).status == Exited <==> late)
            && (!late ==> Passes(c, l, ins) == l)
    ensures l.lastValid <= At(ins[|ins| - 1])
    ensures Passes(c, l, ins[..|ins| - 1]).status == Running ==>
            At(ins[|ins| - 1]) < l.lastValid + 2000 + 200
  {
    var n := |ins| - 1;
    var before := ins[..n];
    assert SilentPass(l.lastValid, ins, n);
    if n == 0 {
      ElapsedIs(At(ins[0]), l.lastValid);
      assert Passes(c, l, before) == l;
    } else {
      assert Silent(l.lastValid, before) by {
        forall k | 0 <= k < n
          ensures SilentPass(l.lastValid, before, k)
        {
          assert SilentPass(l.lastValid, ins, k);
        }
      }
      SilenceEndsTheThrow(c, l, before);
      if Passes(c, l, before).status == Running {
        ElapsedIs(At(ins[n]), l.lastValid);
      }
    }
  }

  // ----- prediction stops the coarse tube no later

  /** The same throw with and without prediction: the same view of the scale, and the coarse tube no longer running. */
  predicate NoLater(on: Loop, off: Loop) {
    && on.status == off.status && on.rate == off.rate && on.lastWeight == off.lastWeight && on.haveLast == off.haveLast
    && on.lastSample == off.lastSample && on.lastValid == off.lastValid
    && 0.0 <= on.rate && (on.moving ==> off.moving)
  }

  lemma RateNonNegative(l: Loop, now: nat, w: real)
    requires l.rate >= 0.0
    ensures Rate(l, now, w) >= 0.0
  {
  }

  lemma PredictionIsAhead(c: Setup, rate: real, moving: bool, w: real)
    requires rate >= 0.0
    ensures Predicted(c, rate, moving, w) >= w
  {
    LagNonNegative(c, moving);
    TimesNonNegative(rate, Lag(c, moving));
  }

  lemma LagNonNegative(c: Setup, moving: bool)
    ensures Lag(c, moving) >= 0.0
  {
  }

  lemma TimesNonNegative(a: real, b: real)
    requires a >= 0.0 && b >= 0.0
    ensures a * b >= 0.0
  {
  }

  lemma PassNoLater(c: Setup, on: Loop, off: Loop, i: Input)
    requires NoLater(on, off)
    ensures NoLater(Pass(c.(predict := true), on, i), Pass(c.(predict := false), off, i))
  {
    hide OnWeight, Rate, Predicted;
    if i.Weight? && on.status == Running {
      var now, w := i.at, i.w;
      ScaleView(c.(predict := true), on, now, w);
      ScaleView(c.(predict := false), off, now, w);
      SameRate(on, off, now, w);
      RateNonNegative(on, now, w);
      PredictionIsAhead(c.(predict := true), Rate(on, now, w), on.moving, w);
      NoPrediction(c.(predict := false), Rate(off, now, w), off.moving, w);
    }
  }

  lemma NoPrediction(c: Setup, rate: real, moving: bool, w: real)
    requires !c.predict
    ensures Predicted(c, rate, moving, w) == w
  {
  }

  lemma SameRate(on: Loop, off: Loop, now: nat, w: real)
    requires NoLater(on, off)
    ensures Rate(on, now, w) == Rate(off, now, w)
  {
    hide Elapsed;
  }

  /** On the same readings prediction stops the coarse tube no later, and ends the throw on the same pass. */
  lemma {:induction false} PredictionStopsNoLater(c: Setup, start: nat, ins: seq<Input>)
    ensures NoLater(Run(c.(predict := true), start, ins), Run(c.(predict := false), start, ins))
  {
    hide Pass;
    if ins != [] {
      PredictionStopsNoLater(c, start, ins[..|ins| - 1]);
      PassNoLater(c, Run(c.(predict := true), start, ins[..|ins| - 1]),
          Run(c.(predict := false), start, ins[..|ins| - 1]), ins[|ins| - 1]);
    }
  }

  // ----- the handoff

  /** However wide the stored handoff, the bulk carries at least half a positive charge, and at most all of it. */
  lemma BulkCarriesHalf(c: Setup)
    requires c.target > 0.0
    ensures 0.5 * c.target <= CoarseTarget(c) <= c.target
    ensures 0.0 <= c.handoff <= 0.5 * c.target ==> CoarseTarget(c) == c.target - c.handoff
  {
  }
}
