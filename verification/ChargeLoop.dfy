/** The charge loop as the firmware runs it: one loop, locals updated in place, commands sent as it goes. */
module ChargeLoop {
  import opened Numeric
  import opened ChargeModel
  import opened ChargeSafety

  class Charger {
    const setup: Setup
    var sent: seq<Command>
    var l: Loop                // the loop's locals

    constructor (c: Setup)
      ensures setup == c && sent == []
    {
      setup := c;
      sent := [];
      l := ChargeModel.Start(0);
    }

    method SetSpeed(m: Motor, speed: real)
      modifies this`l, this`sent
      ensures l == Say(old(l), m, speed) && sent == old(sent) + [Command(m, speed)]
    {
      l := l.(log := l.log + [Command(m, speed)]);
      sent := sent + [Command(m, speed)];
    }

    method Reverse(now: nat)
      requires sent == l.log
      modifies this`l, this`sent
      ensures l == BackOff(setup, old(l), now) && sent == l.log
    {
      if !setup.backoff { return; }
      if setup.backoffTurns <= 0.0 { return; }
      var speed := setup.backoffSpeed;
      if speed <= 0.0 { speed := CoarseMin(setup); }
      if speed <= 0.0 { return; }
      var ms := Whole((setup.backoffTurns / speed) * 1000.0);
      if ms == 0 { return; }
      if ms > BACKOFF_MAX_MS { ms := BACKOFF_MAX_MS; }
      SetSpeed(Coarse, -speed);
      l := l.(backing := true, backEnd := (Tick(now) + ms) % WORD);
    }

    /** One finite reading. */
    method HandleWeight(now: nat, w: real)
      requires sent == l.log
      modifies this`l, this`sent
      ensures l == OnWeight(setup, old(l), now, w) && sent == l.log
    {
      hide Rate, Predicted, AtTarget, Drive, BackoffRun, Elapsed, CoarseTarget, Limited, DriveFine, DriveCoarse;
      ghost var l0 := l;
      l := l.(lastValid := now);
      if l.backing && Tick(now) >= l.backEnd {
        SetSpeed(Coarse, 0.0);
        l := l.(backing := false);
      }
      var rate := Rate(l, now, w);
      SameRateSeen(l0, l, now, w);
      l := l.(rate := rate, lastWeight := w, haveLast := true);
      ghost var l1 := l;
      assert l1 == EndBackoff(l0.(lastValid := now), now).(rate := rate, lastWeight := w, haveLast := true);
      if AtTarget(setup, w) {
        SetSpeed(Fine, 0.0);
        SetSpeed(Coarse, 0.0);
        l := l.(status := Complete);
        return;
      }
      var predicted := Predicted(setup, rate, l.moving, w);
      var coarseError := CoarseTarget(setup) - predicted;
      var fineError := Aim(setup) - predicted;
      if coarseError <= 0.0 && l.moving {
        l := l.(moving := false, stopAt := |l.log|, stopWeight := predicted);
        SetSpeed(Coarse, 0.0);
        Reverse(now);
      }
      ghost var l2 := l;
      assert l2 == if coarseError <= 0.0 && l0.moving then StopCoarse(setup, l1.(stopWeight := predicted), now) else l1;
      StopKeepsSample(setup, l1.(stopWeight := predicted), now);
      DriveMotors(now, coarseError, fineError);
    }

    method DriveMotors(now: nat, coarseError: real, fineError: real)
      requires sent == l.log
      modifies this`l, this`sent
      ensures var elapsed := Elapsed(now, old(l).lastSample);
              l == DriveCoarse(setup, DriveFine(setup, old(l), fineError, elapsed), coarseError, elapsed)
                     .(lastSample := now, fineLast := fineError, coarseLast := coarseError)
      ensures sent == l.log
    {
      hide Drive, Limited, CoarseMin, CoarseMax, FineMin, FineMax;
      var elapsed := Elapsed(now, l.lastSample);
      l := l.(fineI := l.fineI + fineError);
      var speed := Limited(Drive(setup.fine, fineError, l.fineI, l.fineLast, elapsed), FineMin(setup), FineMax(setup));
      if setup.predict && fineError <= 0.0 { speed := 0.0; }
      SetSpeed(Fine, speed);
      if l.moving && !l.backing {
        l := l.(coarseI := l.coarseI + coarseError);
        speed := Limited(Drive(setup.coarse, coarseError, l.coarseI, l.coarseLast, elapsed), CoarseMin(setup),
            CoarseMax(setup));
        SetSpeed(Coarse, speed);
      }
      l := l.(lastSample := now, fineLast := fineError, coarseLast := coarseError);
    }

    /**
     charge_mode_wait_for_complete on a stream of buttons and readings. Left true, the throw is over, one
     way or another, and the commands sent leave both motors at rest.
     */
    method WaitForComplete(start: nat, ins: seq<Input>) returns (left: bool)
      modifies this`l, this`sent
      ensures l == Run(setup, start, ins) && left == (l.status != Running)
      ensures sent == Closing(setup, l)
      ensures left ==> AtRest(sent)
    {
      hide Pass, Closing, AtRest, OnWeight;
      sent := [];
      l := ChargeModel.Start(start);
      var i := 0;
      while i < |ins| && l.status == Running
        invariant i <= |ins| && sent == l.log && l == Run(setup, start, ins[..i])
      {
        var input := ins[i];
        assert ins[..i + 1][..i] == ins[..i];
        PassCases(setup, l, input);
        match input {
          case Rst =>
            SetSpeed(Both, 0.0);
            l := l.(status := Exited);
          case Missing(at) =>
            if Elapsed(at, l.lastValid) >= SCALE_TIMEOUT_MS {
              SetSpeed(Both, 0.0);
              l := l.(status := Exited);
            }
          case Weight(at, w) => HandleWeight(at, w);
        }
        i := i + 1;
      }
      RunIsOver(setup, start, ins, i);
      EveryExitIsAtRest(setup, start, ins);
      left := l.status != Running;
      Precharge();
    }

    method Precharge()
      requires sent == l.log
      modifies this`sent
      ensures sent == Closing(setup, l)
    {
      if l.status == Complete && setup.precharge {
        sent := sent + [Command(Coarse, setup.prechargeSpeed)];
        sent := sent + [Command(Coarse, 0.0)];
      }
    }
  }

  lemma StopKeepsSample(c: Setup, l: Loop, now: nat)
    ensures StopCoarse(c, l, now).lastSample == l.lastSample
  {
  }

  lemma SameRateSeen(l: Loop, u: Loop, now: nat, w: real)
    requires u.rate == l.rate && u.lastWeight == l.lastWeight && u.haveLast == l.haveLast
             && u.lastSample == l.lastSample
    ensures Rate(u, now, w) == Rate(l, now, w)
  {
    hide Elapsed;
  }

  lemma PassCases(c: Setup, l: Loop, i: Input)
    requires l.status == Running
    ensures Pass(c, l, i) == match i
                             case Rst => Say(l, Both, 0.0).(status := Exited)
                             case Missing(at) =>
                               (if Elapsed(at, l.lastValid) >= SCALE_TIMEOUT_MS
                                then Say(l, Both, 0.0).(status := Exited) else l)
                             case Weight(at, w) => OnWeight(c, l, at, w)
  {
    hide OnWeight, Elapsed;
  }

  /** Inputs after the loop has been left are not read. */
  lemma {:induction false} RunIsOver(c: Setup, start: nat, ins: seq<Input>, i: nat)
    requires i <= |ins| && (i < |ins| ==> Run(c, start, ins[..i]).status != Running)
    ensures Run(c, start, ins) == Run(c, start, ins[..i])
    decreases |ins|
  {
    hide Pass;
    if i == |ins| {
      assert ins[..i] == ins;
    } else {
      var n := |ins| - 1;
      assert ins[..n][..i] == ins[..i];
      RunIsOver(c, start, ins[..n], i);
      LeftStaysLeft(c, Run(c, start, ins[..n]), ins[n]);
    }
  }
}
