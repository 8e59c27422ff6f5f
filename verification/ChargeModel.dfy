/**
 One throw (src/charge_mode.cpp:481-723): a control loop over buttons, scale readings and a wrapping
 millisecond tick, with every motor command it gives.
 */
module ChargeModel {
  import opened Numeric

  const WORD: nat := 0x1_0000_0000
  const SCALE_TIMEOUT_MS: nat := 2000
  const BACKOFF_MAX_MS: nat := 15000
  const HANDOFF_MAX_FRAC: real := 0.50
  const EDGE: real := 0.0005

  datatype Motor = Coarse | Fine | Both

  datatype Command = Command(motor: Motor, speed: real)

  datatype Gains = Gains(p: real, i: real, d: real)

  /** Profile and settings, and what the motors allow. */
  datatype Setup = Setup(target: real, trim: real, bracket: real, handoff: real,
                         predict: bool, coarseLag: real, fineLag: real, coarse: Gains, fine: Gains,
                         coarseMin: real, coarseMax: real, fineMin: real, fineMax: real,
                         motorCoarseMin: real, motorCoarseMax: real, motorFineMin: real, motorFineMax: real,
                         backoff: bool, backoffTurns: real, backoffSpeed: real,
                         precharge: bool, prechargeSpeed: real)

  /** One pass of the loop: the RST button, or else a reading or none, at a time. */
  datatype Input = Rst | Missing(at: nat) | Weight(at: nat, w: real)

  datatype Status = Running | Exited | Complete

  datatype Loop = Loop(status: Status, moving: bool, backing: bool, backEnd: nat,
                       rate: real, lastWeight: real, haveLast: bool, lastSample: nat, lastValid: nat,
                       coarseI: real, fineI: real, coarseLast: real, fineLast: real,
                       log: seq<Command>, stopAt: nat, stopWeight: real)

  function Tick(at: nat): nat {
    at % WORD
  }

  /** Unsigned 32-bit difference of two ticks. */
  function Elapsed(now: nat, since: nat): nat {
    (Tick(now) + WORD - Tick(since)) % WORD
  }

  /** A whole real, rounded down, as the cast to an unsigned integer does. */
  function Whole(x: real): nat
    requires x >= 0.0
  {
    x.Floor
  }

  function CoarseMin(c: Setup): real { Max(c.motorCoarseMin, c.coarseMin) }

  function CoarseMax(c: Setup): real { Min(c.motorCoarseMax, c.coarseMax) }

  function FineMin(c: Setup): real { Max(c.motorFineMin, c.fineMin) }

  function FineMax(c: Setup): real { Min(c.motorFineMax, c.fineMax) }

  /** handoff_for_target. */
  function HandoffForTarget(target: real, handoff: real): real {
    var cap := HANDOFF_MAX_FRAC * target;
    var h := if cap > 0.0 && handoff > cap then cap else handoff;
    if h < 0.0 then 0.0 else h
  }

  function HandoffFor(c: Setup): real {
    HandoffForTarget(c.target, c.handoff)
  }

  function CoarseTarget(c: Setup): real {
    Max(0.0, c.target - HandoffFor(c))
  }

  function Aim(c: Setup): real {
    c.target + c.trim
  }

  function Lag(c: Setup, moving: bool): real {
    Max(0.0, Min(if moving then c.coarseLag else c.fineLag, 3.0))
  }

  function Say(l: Loop, m: Motor, speed: real): Loop {
    l.(log := l.log + [Command(m, speed)])
  }

  /** Speed and length of the reverse run at the coarse stop; no length for none. */
  datatype Reverse = Reverse(speed: real, ms: nat)

  function BackoffRun(c: Setup): Reverse {
    if !c.backoff || c.backoffTurns <= 0.0 then Reverse(0.0, 0)
    else
      var speed := if c.backoffSpeed <= 0.0 then CoarseMin(c) else c.backoffSpeed;
      if speed <= 0.0 then Reverse(0.0, 0)
      else
        var ms := Whole((c.backoffTurns / speed) * 1000.0);
        Reverse(-speed, if ms > BACKOFF_MAX_MS then BACKOFF_MAX_MS else ms)
  }

  /** coarse_trickler_backoff. */
  function BackOff(c: Setup, l: Loop, now: nat): Loop {
    var r := BackoffRun(c);
    if r.ms == 0 then l
    else Say(l, Coarse, r.speed).(backing := true, backEnd := (Tick(now) + r.ms) % WORD)
  }

  function Start(at: nat): Loop {
    Loop(Running, true, false, 0, 0.0, 0.0, false, at, at, 0.0, 0.0, 0.0, 0.0, [], 0, 0.0)
  }

  /** The reverse run ends with the first reading at or after its tick. */
  function EndBackoff(l: Loop, now: nat): Loop {
    if l.backing && Tick(now) >= l.backEnd then Say(l, Coarse, 0.0).(backing := false) else l
  }

  /** Smoothed rate of climb, never negative. */
  function Rate(l: Loop, now: nat, w: real): real {
    var dt := Elapsed(now, l.lastSample) as real / 1000.0;
    if l.haveLast && dt > 0.0 then 0.6 * l.rate + 0.4 * Max(0.0, (w - l.lastWeight) / dt) else l.rate
  }

  function Predicted(c: Setup, rate: real, moving: bool, w: real): real {
    if c.predict then w + rate * Lag(c, moving) else w
  }

  predicate AtTarget(c: Setup, w: real) {
    Aim(c) - w < c.bracket + EDGE
  }

  function Drive(g: Gains, error: real, integral: real, last: real, elapsed: nat): real {
    var d := if elapsed > 0 then (error - last) / elapsed as real else 0.0;
    g.p * error + g.i * integral + g.d * d
  }

  function Limited(x: real, lo: real, hi: real): real {
    Max(lo, Min(x, hi))
  }

  /** The coarse stop: motor off, then the short reverse run if there is one. */
  function StopCoarse(c: Setup, l: Loop, now: nat): Loop {
    BackOff(c, Say(l, Coarse, 0.0).(moving := false, stopAt := |l.log|), now)
  }

  /** Speed of the fine tube for this reading. */
  function FineSpeed(c: Setup, l: Loop, error: real, elapsed: nat): real {
    if c.predict && error <= 0.0 then 0.0
    else Limited(Drive(c.fine, error, l.fineI + error, l.fineLast, elapsed), FineMin(c), FineMax(c))
  }

  function DriveFine(c: Setup, l: Loop, error: real, elapsed: nat): Loop {
    Say(l, Fine, FineSpeed(c, l, error, elapsed)).(fineI := l.fineI + error)
  }

  function DriveCoarse(c: Setup, l: Loop, error: real, elapsed: nat): Loop {
    if l.moving && !l.backing then
      Say(l, Coarse, Limited(Drive(c.coarse, error, l.coarseI + error, l.coarseLast, elapsed), CoarseMin(c),
          CoarseMax(c)))
        .(coarseI := l.coarseI + error)
    else l
  }

  /** A finite reading. */
  function OnWeight(c: Setup, l: Loop, now: nat, w: real): Loop {
    var rate := Rate(l, now, w);
    var l1 := EndBackoff(l.(lastValid := now), now).(rate := rate, lastWeight := w, haveLast := true);
    if AtTarget(c, w) then Say(Say(l1, Fine, 0.0), Coarse, 0.0).(status := Complete)
    else
      var predicted := Predicted(c, rate, l.moving, w);
      var coarseError, fineError := CoarseTarget(c) - predicted, Aim(c) - predicted;
      var l2 := if coarseError <= 0.0 && l.moving then StopCoarse(c, l1.(stopWeight := predicted), now) else l1;
      var elapsed := Elapsed(now, l.lastSample);
      DriveCoarse(c, DriveFine(c, l2, fineError, elapsed), coarseError, elapsed)
        .(lastSample := now, fineLast := fineError, coarseLast := coarseError)
  }

  /** One pass of the loop; none once it has been left. */
  function Pass(c: Setup, l: Loop, i: Input): Loop {
    if l.status != Running then l
    else
      match i
      case Rst => Say(l, Both, 0.0).(status := Exited)
      case Missing(at) =>
        if Elapsed(at, l.lastValid) >= SCALE_TIMEOUT_MS then Say(l, Both, 0.0).(status := Exited) else l
      case Weight(at, w) => OnWeight(c, l, at, w)
  }

  function Run(c: Setup, start: nat, ins: seq<Input>): Loop {
    if ins == [] then Start(start) else Pass(c, Run(c, start, ins[..|ins| - 1]), ins[|ins| - 1])
  }

  /** What the bulk is believed to have brought: all of it if the coarse tube was never stopped. */
  function BulkBrought(c: Setup, l: Loop): real {
    if l.moving then c.target else l.stopWeight
  }

  /** After a complete throw: the gate closes, and the coarse tube may be filled for the next one. */
  function Closing(c: Setup, l: Loop): seq<Command> {
    if l.status == Complete && c.precharge then l.log + [Command(Coarse, c.prechargeSpeed), Command(Coarse, 0.0)]
        else l.log
  }

  /** The last speed a motor was told; at rest before the first command. */
  function LastTold(log: seq<Command>, m: Motor): real {
    if log == [] then 0.0
    else
      var last := log[|log| - 1];
      if last.motor == m || last.motor == Both then last.speed else LastTold(log[..|log| - 1], m)
  }
}
