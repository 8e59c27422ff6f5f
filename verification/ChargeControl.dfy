/** What the charge loop tells the motors, as a function of the readings so far. */
module ChargeControl {
  import opened Numeric
  import opened ChargeModel
  import opened ChargeSafety

  datatype Reading = Reading(at: nat, w: real)

  /** The finite readings among what the loop has seen. */
  function Readings(ins: seq<Input>): seq<Reading> {
    if ins == [] then []
    else
      var i := ins[|ins| - 1];
      Readings(ins[..|ins| - 1]) + if i.Weight? then [Reading(i.at, i.w)] else []
  }

  function Before(rs: seq<Reading>): seq<Reading>
    requires rs != []
  {
    rs[..|rs| - 1]
  }

  function Newest(rs: seq<Reading>): Reading
    requires rs != []
  {
    rs[|rs| - 1]
  }

  /** Milliseconds since the reading before, or since the start, on a clock of 32 bits. */
  function Gap(start: nat, rs: seq<Reading>): int
    requires rs != []
  {
    (Newest(rs).at - if |rs| == 1 then start else rs[|rs| - 2].at) % 0x1_0000_0000
  }

  /** Grains a second: three fifths of what it was and two fifths of the last step, which counts for none if it fell. */
  function Climb(start: nat, rs: seq<Reading>): real {
    if |rs| <= 1 then 0.0
    else
      var gap, was := Gap(start, rs), Climb(start, Before(rs));
      if gap == 0 then was
      else 0.6 * was + 0.4 * Max(0.0, (Newest(rs).w - rs[|rs| - 2].w) / (gap as real / 1000.0))
  }

  /** The share of the charge that the bulk is to bring. */
  function BulkShare(c: Setup): real {
    if c.target <= 0.0 then 0.0 else c.target - Max(0.0, Min(c.handoff, 0.5 * c.target))
  }

  function LagFor(c: Setup, bulk: bool): real {
    Max(0.0, Min(if bulk then c.coarseLag else c.fineLag, 3.0))
  }

  /** The weight that the motors are driven by: the reading, with prediction what is in the air on top. */
  function Ahead(c: Setup, start: nat, rs: seq<Reading>): real
    requires rs != []
    decreases |rs|, 0
  {
    Newest(rs).w + if c.predict then Climb(start, rs) * LagFor(c, BulkRuns(c, start, Before(rs))) else 0.0
  }

  /** None of the readings has stopped the bulk. */
  predicate BulkRuns(c: Setup, start: nat, rs: seq<Reading>)
    decreases |rs|, 1
  {
    rs == [] || (BulkRuns(c, start, Before(rs)) && Ahead(c, start, rs) < BulkShare(c))
  }

  /** How far the weight is from a goal. */
  function Short(c: Setup, start: nat, rs: seq<Reading>, goal: real): real
    requires rs != []
  {
    goal - Ahead(c, start, rs)
  }

  /** The sum of these over all readings so far. */
  function ShortSum(c: Setup, start: nat, rs: seq<Reading>, goal: real): real {
    if rs == [] then 0.0 else ShortSum(c, start, Before(rs), goal) + Short(c, start, rs, goal)
  }

  /** Its change since the reading before, which counts as none for the first, over the milliseconds. */
  function ShortChange(c: Setup, start: nat, rs: seq<Reading>, goal: real): real
    requires rs != []
  {
    var was := if |rs| == 1 then 0.0 else Short(c, start, Before(rs), goal);
    if Gap(start, rs) == 0 then 0.0 else (Short(c, start, rs, goal) - was) / Gap(start, rs) as real
  }

  /** Proportional, integral and derivative share. */
  function Wanted(c: Setup, start: nat, rs: seq<Reading>, goal: real, g: Gains): real
    requires rs != []
  {
    g.p * Short(c, start, rs, goal) + g.i * ShortSum(c, start, rs, goal) + g.d * ShortChange(c, start, rs, goal)
  }

  /** Inside profile and motor limits; the lower one wins. */
  function Held(x: real, lo: real, hi: real): real {
    Max(lo, Min(x, hi))
  }

  function CoarseWanted(c: Setup, start: nat, rs: seq<Reading>): real
    requires rs != []
  {
    Held(Wanted(c, start, rs, BulkShare(c), c.coarse), Max(c.motorCoarseMin, c.coarseMin),
         Min(c.motorCoarseMax, c.coarseMax))
  }

  function FineWanted(c: Setup, start: nat, rs: seq<Reading>): real
    requires rs != []
  {
    var goal := c.target + c.trim;
    if c.predict && Short(c, start, rs, goal) <= 0.0 then 0.0
    else Held(Wanted(c, start, rs, goal, c.fine), Max(c.motorFineMin, c.fineMin), Min(c.motorFineMax, c.fineMax))
  }

  // ----- the loop's variables are these

  lemma ShareIs(c: Setup)
    ensures CoarseTarget(c) == BulkShare(c)
  {
  }

  lemma ElapsedIsDifference(now: nat, since: nat)
    ensures Elapsed(now, since) == (now - since) % 0x1_0000_0000
  {
    var w := WORD;
    var a, b := now / w, since / w;
    assert now == a * w + now % w && since == b * w + since % w;
    var d := now % w + w - since % w;
    assert now - since == (a - b - 1) * w + d;
    ModAdd(a - b - 1, d);
  }

  lemma ModAdd(k: int, d: int)
    ensures (k * 0x1_0000_0000 + d) % 0x1_0000_0000 == d % 0x1_0000_0000
  {
  }

  predicate Follows(c: Setup, start: nat, rs: seq<Reading>, l: Loop) {
    && l.rate == Climb(start, rs) && l.haveLast == (rs != [])
    && l.lastSample == (if rs == [] then start else Newest(rs).at)
    && (rs != [] ==> l.lastWeight == Newest(rs).w)
    && l.moving == BulkRuns(c, start, rs)
    && (l.moving ==> !l.backing && l.coarseI == ShortSum(c, start, rs, BulkShare(c)))
    && l.fineI == ShortSum(c, start, rs, Aim(c))
    && l.coarseLast == (if rs == [] then 0.0 else Short(c, start, rs, BulkShare(c)))
    && l.fineLast == (if rs == [] then 0.0 else Short(c, start, rs, Aim(c)))
  }

  lemma OneMore(rs: seq<Reading>, r: Reading)
    ensures var all := rs + [r]; all != [] && Before(all) == rs && Newest(all) == r
    ensures rs != [] ==> (rs + [r])[|rs + [r]| - 2] == Newest(rs)
  {
  }

  lemma GapIs(c: Setup, start: nat, rs: seq<Reading>, l: Loop, now: nat, w: real)
    requires Follows(c, start, rs, l)
    ensures Elapsed(now, l.lastSample) == Gap(start, rs + [Reading(now, w)])
  {
    hide Climb, BulkRuns, Ahead, ShortSum, Elapsed;
    OneMore(rs, Reading(now, w));
    ElapsedIsDifference(now, l.lastSample);
  }

  lemma RateFollows(c: Setup, start: nat, rs: seq<Reading>, l: Loop, now: nat, w: real)
    requires Follows(c, start, rs, l)
    ensures Rate(l, now, w) == Climb(start, rs + [Reading(now, w)])
  {
    hide BulkRuns, Ahead, ShortSum, Elapsed, Gap;
    OneMore(rs, Reading(now, w));
    GapIs(c, start, rs, l, now, w);
  }

  lemma AheadFollows(c: Setup, start: nat, rs: seq<Reading>, l: Loop, now: nat, w: real)
    requires Follows(c, start, rs, l)
    ensures Predicted(c, Rate(l, now, w), l.moving, w) == Ahead(c, start, rs + [Reading(now, w)])
  {
    hide Rate, Climb, ShortSum, BulkRuns;
    OneMore(rs, Reading(now, w));
    RateFollows(c, start, rs, l, now, w);
  }

  /** Only the motors and the coarse stop differ. */
  predicate SameControl(l: Loop, u: Loop) {
    && SameView(l, u)
    && u.coarseI == l.coarseI && u.fineI == l.fineI && u.coarseLast == l.coarseLast && u.fineLast == l.fineLast
  }

  lemma StopsApart(c: Setup, l: Loop, now: nat)
    ensures var e := EndBackoff(l, now);
            && SameControl(l, e) && e.moving == l.moving && (e.backing ==> l.backing) && e.stopWeight == l.stopWeight
    ensures SameControl(l, StopCoarse(c, l, now)) && !StopCoarse(c, l, now).moving
    ensures StopCoarse(c, l, now).stopWeight == l.stopWeight
  {
    hide BackoffRun;
  }

  lemma WantedIs(c: Setup, start: nat, rs: seq<Reading>, goal: real, g: Gains, error: real, sum: real, was: real,
                 elapsed: nat)
    requires rs != [] && error == Short(c, start, rs, goal) && sum == ShortSum(c, start, rs, goal)
    requires elapsed == Gap(start, rs) && was == (if |rs| == 1 then 0.0 else Short(c, start, Before(rs), goal))
    ensures Drive(g, error, sum, was, elapsed) == Wanted(c, start, rs, goal, g)
  {
    hide Ahead, ShortSum, Gap, Short;
  }

  /** One reading short of the aim: what the motors are told, and that the loop's variables keep up. */
  lemma ReadingFollows(c: Setup, start: nat, rs: seq<Reading>, l: Loop, now: nat, w: real)
    requires Follows(c, start, rs, l) && !AtTarget(c, w)
    ensures var r := OnWeight(c, l, now, w);
            var all := rs + [Reading(now, w)];
            && Follows(c, start, all, r) && r.status == l.status
            && LastTold(r.log, Fine) == FineWanted(c, start, all)
            && (r.moving ==> LastTold(r.log, Coarse) == CoarseWanted(c, start, all))
            && r.stopWeight == (if l.moving && !r.moving then Ahead(c, start, all) else l.stopWeight)
  {
    hide Rate, Predicted, AtTarget, StopCoarse, EndBackoff, CoarseTarget, Climb, Gap, Elapsed, Wanted,
         ShortChange, Drive, LastTold;
    var all := rs + [Reading(now, w)];
    OneMore(rs, Reading(now, w));
    ShareIs(c);
    RateFollows(c, start, rs, l, now, w);
    AheadFollows(c, start, rs, l, now, w);
    GapIs(c, start, rs, l, now, w);
    var l0 := l.(lastValid := now);
    StopsApart(c, l0, now);
    var rate, predicted := Rate(l, now, w), Predicted(c, Rate(l, now, w), l.moving, w);
    var l1 := EndBackoff(l0, now).(rate := rate, lastWeight := w, haveLast := true);
    StopsApart(c, l1.(stopWeight := predicted), now);
    var coarseError, fineError := CoarseTarget(c) - predicted, Aim(c) - predicted;
    var l2 := if coarseError <= 0.0 && l.moving then StopCoarse(c, l1.(stopWeight := predicted), now) else l1;
    var elapsed := Elapsed(now, l.lastSample);
    WantedIs(c, start, all, Aim(c), c.fine, fineError, l.fineI + fineError, l.fineLast, elapsed);
    if l2.moving {
      WantedIs(c, start, all, BulkShare(c), c.coarse, coarseError, l.coarseI + coarseError, l.coarseLast, elapsed);
    }
    Told(c, l2, fineError, coarseError, elapsed);
  }

  /** What the two drives say last. */
  lemma Told(c: Setup, l: Loop, fineError: real, coarseError: real, elapsed: nat)
    ensures var r := DriveCoarse(c, DriveFine(c, l, fineError, elapsed), coarseError, elapsed);
            && LastTold(r.log, Fine) == FineSpeed(c, l, fineError, elapsed)
            && (l.moving && !l.backing ==>
                  LastTold(r.log, Coarse)
                  == Limited(Drive(c.coarse, coarseError, l.coarseI + coarseError, l.coarseLast, elapsed),
                             CoarseMin(c), CoarseMax(c)))
            && r.moving == l.moving && r.backing == l.backing && r.fineI == l.fineI + fineError
            && (l.moving && !l.backing ==> r.coarseI == l.coarseI + coarseError)
            && r.stopWeight == l.stopWeight && SameView(l, r)
  {
    hide Drive, Limited, FineSpeed, LastTold;
    var fine := FineSpeed(c, l, fineError, elapsed);
    LastSaid(l.log, Fine, fine, Fine);
    var coarse := Limited(Drive(c.coarse, coarseError, l.coarseI + coarseError, l.coarseLast, elapsed), CoarseMin(c),
                          CoarseMax(c));
    LastSaid(l.log + [Command(Fine, fine)], Coarse, coarse, Fine);
    LastSaid(l.log + [Command(Fine, fine)], Coarse, coarse, Coarse);
  }

  // ----- over runs

  /** What the bulk had brought, or was believed to, when a reading stopped it; the whole charge if none has. */
  function BulkStop(c: Setup, start: nat, rs: seq<Reading>): real {
    if BulkRuns(c, start, rs) then c.target
    else if BulkRuns(c, start, Before(rs)) then Ahead(c, start, rs)
    else BulkStop(c, start, Before(rs))
  }

  /** While the loop runs: its variables, what the motors were last told, and where the bulk stopped. */
  predicate Controlled(c: Setup, start: nat, rs: seq<Reading>, l: Loop) {
    && Follows(c, start, rs, l)
    && (rs != [] ==> LastTold(l.log, Fine) == FineWanted(c, start, rs)
                     && (BulkRuns(c, start, rs) ==> LastTold(l.log, Coarse) == CoarseWanted(c, start, rs)))
    && BulkBrought(c, l) == BulkStop(c, start, rs)
  }

  lemma ReadingControlled(c: Setup, start: nat, rs: seq<Reading>, l: Loop, now: nat, w: real)
    requires Controlled(c, start, rs, l) && l.status == Running && !AtTarget(c, w)
    ensures Controlled(c, start, rs + [Reading(now, w)], OnWeight(c, l, now, w))
  {
    hide OnWeight, Follows, AtTarget, LastTold, FineWanted, CoarseWanted, Ahead;
    OneMore(rs, Reading(now, w));
    ReadingFollows(c, start, rs, l, now, w);
    MovesIfRuns(c, start, rs, l);
    MovesIfRuns(c, start, rs + [Reading(now, w)], OnWeight(c, l, now, w));
  }

  lemma MovesIfRuns(c: Setup, start: nat, rs: seq<Reading>, l: Loop)
    requires Follows(c, start, rs, l)
    ensures l.moving == BulkRuns(c, start, rs)
  {
    hide BulkRuns, Climb, ShortSum, Short, Gap;
  }

  lemma StartControlled(c: Setup, start: nat)
    ensures Controlled(c, start, [], Start(start))
  {
  }

  /** A reading inside the bracket of the trimmed aim, or over it. */
  predicate There(c: Setup, w: real) {
    c.target + c.trim - w < c.bracket + 0.0005
  }

  /**
   In every run, as long as the loop has not been left: the fine tube was last told the speed that the readings
   so far want, and the coarse tube, until one of them has stopped it, likewise. The loop is left complete
   exactly at the first reading that is there.
   */
  lemma {:induction false} CommandsFollowReadings(c: Setup, start: nat, ins: seq<Input>)
    ensures var l, rs := Run(c, start, ins), Readings(ins);
            l.status == Running ==>
              && Controlled(c, start, rs, l)
              && forall r :: r in rs ==> !There(c, r.w)
    ensures ins != [] && Run(c, start, ins[..|ins| - 1]).status == Running ==>
              (Run(c, start, ins).status == Complete <==> ins[|ins| - 1].Weight? && There(c, ins[|ins| - 1].w))
  {
    hide Controlled, OnWeight, Elapsed;
    if ins == [] {
      StartControlled(c, start);
    } else {
      var n := |ins| - 1;
      CommandsFollowReadings(c, start, ins[..n]);
      var l, i := Run(c, start, ins[..n]), ins[n];
      assert Readings(ins[..n]) + [] == Readings(ins[..n]);
      if l.status == Running && i.Weight? {
        EndsWhenThere(c, l, i.at, i.w);
        if !There(c, i.w) {
          ReadingControlled(c, start, Readings(ins[..n]), l, i.at, i.w);
        }
      }
    }
  }

  lemma EndsWhenThere(c: Setup, l: Loop, now: nat, w: real)
    ensures AtTarget(c, w) == There(c, w)
    ensures OnWeight(c, l, now, w).status == if There(c, w) then Complete else l.status
  {
    hide Rate, Predicted, StopCoarse, DriveFine, DriveCoarse, EndBackoff, Elapsed, CoarseTarget;
    ScaleView(c, l, now, w);
  }

  /** When the throw is complete: where the bulk had stopped. */
  lemma BulkStoppedAt(c: Setup, start: nat, ins: seq<Input>, i: Input)
    requires Run(c, start, ins).status == Running && Run(c, start, ins + [i]).status == Complete
    ensures BulkBrought(c, Run(c, start, ins + [i])) == BulkStop(c, start, Readings(ins))
  {
    hide OnWeight, Elapsed, Follows, LastTold;
    assert (ins + [i])[..|ins|] == ins;
    CommandsFollowReadings(c, start, ins);
    CommandsFollowReadings(c, start, ins + [i]);
    var l := Run(c, start, ins);
    EndsWhenThere(c, l, i.at, i.w);
    EndKeepsStop(c, l, i.at, i.w);
  }

  lemma EndKeepsStop(c: Setup, l: Loop, now: nat, w: real)
    requires AtTarget(c, w)
    ensures var r := OnWeight(c, l, now, w); r.moving == l.moving && r.stopWeight == l.stopWeight
  {
    hide Rate, Predicted, AtTarget, Elapsed;
  }

  // ----- a proportional profile, as the fit writes it

  lemma HeldProportional(kp: real, short: real, lo: real, hi: real, x: real)
    requires kp > 0.0 && lo <= hi && x == kp * short
    ensures short >= hi / kp ==> Held(x, lo, hi) == hi
    ensures lo / kp <= short <= hi / kp ==> Held(x, lo, hi) == x
    ensures short <= lo / kp ==> Held(x, lo, hi) == lo
  {
    Compared(kp, short, lo, x);
    Compared(kp, short, hi, x);
  }

  lemma Compared(kp: real, short: real, y: real, x: real)
    requires kp > 0.0 && x == kp * short
    ensures (short >= y / kp <==> x >= y) && (short <= y / kp <==> x <= y)
  {
    var q := y / kp;
    Undone(y, kp, q);
    SignOf(short - q, kp, x - y);
  }

  lemma Undone(y: real, kp: real, q: real)
    requires kp > 0.0 && q == y / kp
    ensures kp * q == y
  {
  }

  lemma SignOf(d: real, kp: real, z: real)
    requires kp > 0.0 && z == kp * d
    ensures (d >= 0.0 <==> z >= 0.0) && (d <= 0.0 <==> z <= 0.0)
  {
  }

  /** Where only the proportional gain is set, what is wanted is that share of what is missing. */
  lemma OnlyProportional(c: Setup, start: nat, rs: seq<Reading>, goal: real, g: Gains)
    requires rs != [] && g.i == 0.0 && g.d == 0.0
    ensures Wanted(c, start, rs, goal, g) == g.p * Short(c, start, rs, goal)
  {
    hide Short, ShortSum, ShortChange;
    NoShare(ShortSum(c, start, rs, goal));
    NoShare(ShortChange(c, start, rs, goal));
  }

  lemma NoShare(x: real)
    ensures 0.0 * x == 0.0
  {
  }

  /**
   The coarse tube runs at its top speed until top over Kp is missing to the bulk's share, then falls with what
   is missing, and never under its floor.
   */
  lemma CoarseTapers(c: Setup, start: nat, rs: seq<Reading>)
    requires rs != [] && c.coarse.p > 0.0 && c.coarse.i == 0.0 && c.coarse.d == 0.0
    requires Max(c.motorCoarseMin, c.coarseMin) <= Min(c.motorCoarseMax, c.coarseMax)
    ensures var lo, hi := Max(c.motorCoarseMin, c.coarseMin), Min(c.motorCoarseMax, c.coarseMax);
            var kp, short := c.coarse.p, Short(c, start, rs, BulkShare(c));
            && (short >= hi / kp ==> CoarseWanted(c, start, rs) == hi)
            && (lo / kp <= short <= hi / kp ==> CoarseWanted(c, start, rs) == kp * short)
            && (short <= lo / kp ==> CoarseWanted(c, start, rs) == lo)
  {
    hide Ahead, Wanted, BulkShare, Held, Short;
    OnlyProportional(c, start, rs, BulkShare(c), c.coarse);
    HeldProportional(c.coarse.p, Short(c, start, rs, BulkShare(c)), Max(c.motorCoarseMin, c.coarseMin),
                     Min(c.motorCoarseMax, c.coarseMax), Wanted(c, start, rs, BulkShare(c), c.coarse));
  }

  /** The fine tube likewise, up to the trimmed aim; with prediction it rests once what is in the air will reach it. */
  lemma FineTapers(c: Setup, start: nat, rs: seq<Reading>)
    requires rs != [] && c.fine.p > 0.0 && c.fine.i == 0.0 && c.fine.d == 0.0
    requires Max(c.motorFineMin, c.fineMin) <= Min(c.motorFineMax, c.fineMax)
    ensures var lo, hi := Max(c.motorFineMin, c.fineMin), Min(c.motorFineMax, c.fineMax);
            var kp, short := c.fine.p, Short(c, start, rs, c.target + c.trim);
            && (c.predict && short <= 0.0 ==> FineWanted(c, start, rs) == 0.0)
            && (!c.predict || short > 0.0 ==>
                  && (short >= hi / kp ==> FineWanted(c, start, rs) == hi)
                  && (lo / kp <= short <= hi / kp ==> FineWanted(c, start, rs) == kp * short)
                  && (short <= lo / kp ==> FineWanted(c, start, rs) == lo))
  {
    hide Ahead, Wanted, Held, Short;
    OnlyProportional(c, start, rs, c.target + c.trim, c.fine);
    HeldProportional(c.fine.p, Short(c, start, rs, c.target + c.trim), Max(c.motorFineMin, c.fineMin),
                     Min(c.motorFineMax, c.fineMax), Wanted(c, start, rs, c.target + c.trim, c.fine));
  }

  // ----- the reverse run

  /** The set speed, or where none is set the slowest forward one. */
  function ReverseSpeed(c: Setup): real {
    if c.backoffSpeed > 0.0 then c.backoffSpeed else Max(c.motorCoarseMin, c.coarseMin)
  }

  /**
   At the coarse stop the tube runs back the set turns, to the millisecond, or for fifteen seconds; not at all
   when that is switched off, there are no turns or no speed, or it would take less than a millisecond.
   */
  lemma ReverseMakesTurns(c: Setup)
    ensures var r, speed := BackoffRun(c), ReverseSpeed(c);
            if !c.backoff || c.backoffTurns <= 0.0 || speed <= 0.0 then r.ms == 0
            else
              && (r.ms > 0 ==> r.speed == -speed)
              && r.ms <= 15000 && r.ms as real <= c.backoffTurns / speed * 1000.0
              && (r.ms < 15000 ==> c.backoffTurns / speed * 1000.0 < (r.ms + 1) as real)
  {
    if c.backoff && c.backoffTurns > 0.0 && ReverseSpeed(c) > 0.0 {
      PositiveQuotient(c.backoffTurns, ReverseSpeed(c));
    }
  }

  lemma PositiveQuotient(a: real, b: real)
    requires a > 0.0 && b > 0.0
    ensures a / b > 0.0
  {
  }

  /** When a reading stops the bulk: the tube is told to stop, and then, if there is a reverse run, to run back. */
  lemma StopThenReverse(c: Setup, l: Loop, now: nat)
    ensures var r, s := BackoffRun(c), StopCoarse(c, l, now);
            && s.log == l.log + [Command(Coarse, 0.0)] + (if r.ms > 0 then [Command(Coarse, r.speed)] else [])
            && (r.ms > 0 ==> s.backing && s.backEnd == (now + r.ms) % 0x1_0000_0000)
  {
    hide BackoffRun;
  }

  /** It ends with the first reading that comes at least that much later, as long as the clock does not wrap. */
  lemma ReverseEndsIff(c: Setup, l: Loop, stopped: nat, now: nat)
    requires l.backing && l.backEnd == (stopped + BackoffRun(c).ms) % 0x1_0000_0000
    requires stopped <= now < 0x1_0000_0000 && stopped + BackoffRun(c).ms < 0x1_0000_0000
    ensures var e := EndBackoff(l, now);
            if now - stopped >= BackoffRun(c).ms then !e.backing && e.log == l.log + [Command(Coarse, 0.0)] else e == l
  {
    hide BackoffRun;
  }

  /** Behind a complete throw, where it is set, the coarse tube is filled for the next one; nothing else is sent. */
  lemma PrechargeIs(c: Setup, l: Loop)
    ensures Closing(c, l) == l.log + if l.status == Complete && c.precharge
                                     then [Command(Coarse, c.prechargeSpeed), Command(Coarse, 0.0)] else []
  {
    assert l.log + [] == l.log;
  }
}
