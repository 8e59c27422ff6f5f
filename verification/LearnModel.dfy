/**
 The Learn fit (src/learn_mode.cpp:639-902): a grid of fine landing speed, fine speed, coarse speed and
 coarse landing speed, searched for the tightest handoff that makes the time goal. The throw-time
 predictor is a parameter: nothing about it is assumed.
 */
module LearnModel {
  import opened Numeric

  const SEARCH_STEPS: nat := 12
  const LAND_STEPS: nat := 6
  const COARSE_LAND_STEPS: nat := 6
  const UNUSABLE: real := 1_000_000_000.0

  const FINE_TAPER_MIN: real := 0.20
  const COARSE_TAPER_MIN: real := 0.50
  const TAPER_TAIL_MULT: real := 3.0
  const FINE_LAND_FLOW: real := 0.06
  const BRACKET_USE_FRAC: real := 0.80
  const COARSE_EXTRAP_MULT: real := 1.25
  const STOP_SAFETY_MIN: real := 1.0
  const STOP_SAFETY_MAX: real := 5.0
  const LAND_SIGMA_MIN: real := 1.0
  const LAND_SIGMA_MAX: real := 4.0

  /** One rung of the coarse ladder, as the fit reads it. */
  datatype Rung = Rung(timeS: real, speed: real)

  /** What was measured on the two tubes. */
  datatype Measured = Measured(coarseK: real, fineK: real, lagMean: real, coarseLag: real, fineLag: real,
                               coarseLagSd: real, fineLagSd: real, dead: real, ladder: seq<Rung>)

  /** The settings in force: the motors' limits (the upper ones whole numbers) and the Learn configuration. */
  datatype Settings = Settings(target: real, bracket: real, goal: real, stopSafety: real, landSigma: real,
      aggressive: bool,
                               coarseMotorMin: real, fineMotorMin: real, coarseMotorMax: nat, fineMotorMax: nat,
                               coarseCeiling: real, fineCeiling: real)

  /** What the predictor is asked. */
  datatype Shape = Shape(target: real, coarseFlow: real, coarseLandFlow: real, coarseTaper: real,
                         fineFlow: real, fineLandFlow: real, fineSpeed: real, fineLandSpeed: real,
                         dead: real, handoff: real, fineTaper: real)

  datatype Times = Times(coarse: real, fine: real)

  type Predictor = Shape -> Times

  /** A point of the grid, with its predicted times. */
  datatype Point = Point(coarse: real, fine: real, fineLand: real, coarseLand: real,
                         handoff: real, fineTaper: real, coarseTaper: real, times: Times, total: real)

  // ----- what the search is run on

  function LagUsed(m: Measured): real {
    Min(3.0, Max(0.0, m.lagMean))
  }

  predicate PredictUsed(m: Measured) {
    LagUsed(m) > 0.05
  }

  function CoarseLagErr(m: Measured): real {
    if PredictUsed(m) then Max(m.coarseLagSd, 0.02) else Max(m.coarseLag, 0.05)
  }

  function FineLagErr(m: Measured): real {
    if PredictUsed(m) then Max(m.fineLagSd, 0.02) else Max(m.fineLag, 0.05)
  }

  function SafetyMult(m: Measured, c: Settings): real {
    Clampf(if PredictUsed(m) then c.stopSafety else 1.0, STOP_SAFETY_MIN, STOP_SAFETY_MAX)
  }

  function StopMargin(c: Settings): real {
    if c.aggressive then 0.05 else 0.15
  }

  function StopMin(c: Settings): real {
    if c.aggressive then 0.15 else 0.30
  }

  function LandSigma(c: Settings): real {
    Clampf(c.landSigma, LAND_SIGMA_MIN, LAND_SIGMA_MAX)
  }

  function CoarseFloor(c: Settings): real {
    Max(c.coarseMotorMin, 0.05)
  }

  function FineFloor(c: Settings): real {
    Max(c.fineMotorMin, 0.05)
  }

  function FineTop(c: Settings): real {
    Min(c.fineCeiling, c.fineMotorMax as real)
  }

  /** The landing speed whose error just fits the bracket. */
  function LandCeiling(m: Measured, c: Settings): real {
    if m.fineK > 0.0 && FineLagErr(m) > 0.0
    then BRACKET_USE_FRAC * c.bracket / (LandSigma(c) * m.fineK * FineLagErr(m))
    else LandHeuristic(m, c)
  }

  function LandHeuristic(m: Measured, c: Settings): real {
    if m.fineK > 0.0 then FINE_LAND_FLOW / m.fineK else FineFloor(c)
  }

  function LandHigh(m: Measured, c: Settings): real {
    Max(FineFloor(c), Min(LandCeiling(m, c), FineTop(c)))
  }

  function LandLow(m: Measured, c: Settings): real {
    Max(FineFloor(c), Min(LandHeuristic(m, c), LandHigh(m, c)))
  }

  /** Fastest and slowest rung that ran; zero for none. */
  function LadderMax(ladder: seq<Rung>): real {
    if ladder == [] then 0.0
    else
      var rest, r := LadderMax(ladder[..|ladder| - 1]), ladder[|ladder| - 1];
      if r.timeS > 0.0 && r.speed > rest then r.speed else rest
  }

  function LadderMin(ladder: seq<Rung>): real {
    if ladder == [] then 0.0
    else
      var rest, r := LadderMin(ladder[..|ladder| - 1]), ladder[|ladder| - 1];
      if r.timeS > 0.0 && (rest <= 0.0 || r.speed < rest) then r.speed else rest
  }

  /** The fastest coarse speed worth trying, when the fastest rung that ran was `fast`. */
  function TopFrom(c: Settings, fast: real): real {
    var top := Min(c.coarseCeiling, c.coarseMotorMax as real);
    Max(CoarseFloor(c), if fast > 0.0 then Min(top, fast * COARSE_EXTRAP_MULT) else top)
  }

  function CoarseTop(m: Measured, c: Settings): real {
    TopFrom(c, LadderMax(m.ladder))
  }

  function CoarseLandLow(m: Measured, c: Settings): real {
    Max(CoarseFloor(c), LadderMin(m.ladder))
  }

  /** The safety factor times three sigma of the stop scatter at a coarse landing speed. */
  function Cover(m: Measured, c: Settings, coarseLand: real): real {
    SafetyMult(m, c) * 3.0 * (m.coarseK * coarseLand) * CoarseLagErr(m)
  }

  /** The handoff that a coarse landing speed demands. */
  function HandoffFor(m: Measured, c: Settings, coarseLand: real): real {
    Max(StopMin(c), Cover(m, c, coarseLand) + StopMargin(c))
  }

  /** The stop scatter itself, one sigma. */
  function TailSd(m: Measured, coarseLand: real): real {
    m.coarseLagSd * m.coarseK * coarseLand
  }

  function FineTaperFor(m: Measured, fine: real): real {
    Max(FINE_TAPER_MIN, TAPER_TAIL_MULT * m.fineLag * Flow(m.fineK, fine))
  }

  function CoarseTaperFor(m: Measured, coarse: real): real {
    Max(COARSE_TAPER_MIN, TAPER_TAIL_MULT * m.coarseLag * Flow(m.coarseK, coarse))
  }

  // ----- the grid, in the order it is walked

  function FineLandAt(m: Measured, c: Settings, li: nat): real {
    Max(FineFloor(c), LandLow(m, c) + (LandHigh(m, c) - LandLow(m, c)) * (li as real / (LAND_STEPS - 1) as real))
  }

  function FineAt(c: Settings, fi: nat): real {
    FineTop(c) * (fi as real / SEARCH_STEPS as real)
  }

  function CoarseAt(m: Measured, c: Settings, ci: nat): real {
    PartOf(CoarseTop(m, c), ci)
  }

  function PartOf(top: real, n: nat): real {
    top * (n as real / SEARCH_STEPS as real)
  }

  function CoarseLandAt(m: Measured, c: Settings, coarse: real, cl: nat): real {
    LandAbove(c, CoarseLandLow(m, c), coarse, cl)
  }

  function LandAbove(c: Settings, low: real, coarse: real, cl: nat): real {
    var v := low + (coarse - low) * (cl as real / (COARSE_LAND_STEPS - 1) as real);
    Max(CoarseFloor(c), Min(v, coarse))
  }

  /** Flow of a tube at a speed. */
  function Flow(k: real, speed: real): real {
    k * speed
  }

  function PointAt(m: Measured, c: Settings, predict: Predictor, fineLand: real, fine: real, coarse: real,
      coarseLand: real): Point {
    var handoff, fineTaper, coarseTaper := HandoffFor(m, c, coarseLand), FineTaperFor(m, fine),
        CoarseTaperFor(m, coarse);
    var times := predict(Shape(c.target, Flow(m.coarseK, coarse), Flow(m.coarseK, coarseLand), coarseTaper,
                               Flow(m.fineK, fine), Flow(m.fineK, fineLand), fine, fineLand, m.dead, handoff,
                               fineTaper));
    Point(coarse, fine, fineLand, coarseLand, handoff, fineTaper, coarseTaper, times, times.coarse + times.fine)
  }

  /** The bulk has to carry at least half the charge. */
  predicate Legal(c: Settings, handoff: real) {
    handoff < 0.5 * c.target
  }

  function CoarseLands(m: Measured, c: Settings, predict: Predictor, fineLand: real, fine: real, coarse: real,
      n: nat): seq<Point> {
    if n == 0 then []
    else
      var p := PointAt(m, c, predict, fineLand, fine, coarse, CoarseLandAt(m, c, coarse, n - 1));
      CoarseLands(m, c, predict, fineLand, fine, coarse, n - 1) + if Legal(c, p.handoff) then [p] else []
  }

  function Coarses(m: Measured, c: Settings, predict: Predictor, fineLand: real, fine: real, n: nat): seq<Point> {
    if n == 0 then []
    else
      var coarse := CoarseAt(m, c, n);
      Coarses(m, c, predict, fineLand, fine, n - 1)
      + if coarse < CoarseFloor(c) then [] else CoarseLands(m, c, predict, fineLand, fine, coarse, COARSE_LAND_STEPS)
  }

  function Fines(m: Measured, c: Settings, predict: Predictor, fineLand: real, n: nat): seq<Point> {
    if n == 0 then []
    else
      var fine := FineAt(c, n);
      Fines(m, c, predict, fineLand, n - 1)
      + if fine < fineLand then [] else Coarses(m, c, predict, fineLand, fine, SEARCH_STEPS)
  }

  function FineLands(m: Measured, c: Settings, predict: Predictor, n: nat): seq<Point> {
    if n == 0 then []
    else FineLands(m, c, predict, n - 1) + Fines(m, c, predict, FineLandAt(m, c, n - 1), SEARCH_STEPS)
  }

  function Grid(m: Measured, c: Settings, predict: Predictor): seq<Point> {
    FineLands(m, c, predict, LAND_STEPS)
  }

  // ----- the selection

  /** `best` is the choice among the points that make the goal, `fastest` among all. */
  datatype Leaders = Leaders(found: bool, best: Point, fastest: Point)

  /** Tightest handoff, on a tie the slower fine landing, on another tie the faster throw. */
  predicate Better(p: Point, best: Point) {
    || p.handoff < best.handoff - 0.001
    || (p.handoff < best.handoff + 0.001
        && (p.fineLand < best.fineLand - 0.0001 || (p.fineLand < best.fineLand + 0.0001 && p.total < best.total)))
  }

  function Consider(l: Leaders, goal: real, p: Point): Leaders {
    var l' := if p.total <= goal && (!l.found || Better(p, l.best)) then l.(found := true, best := p) else l;
    if p.total < l'.fastest.total then l'.(fastest := p) else l'
  }

  function Survey(l: Leaders, goal: real, ps: seq<Point>): Leaders {
    if ps == [] then l else Consider(Survey(l, goal, ps[..|ps| - 1]), goal, ps[|ps| - 1])
  }

  function NoPoint(m: Measured, c: Settings): Point {
    Point(CoarseFloor(c), LandLow(m, c), LandLow(m, c), CoarseLandLow(m, c), 0.0, FINE_TAPER_MIN, COARSE_TAPER_MIN,
          Times(0.0, 0.0), UNUSABLE)
  }

  function Start(m: Measured, c: Settings): Leaders {
    Leaders(false, NoPoint(m, c), NoPoint(m, c))
  }

  /** Nothing usable: the slowest bulk, and the handoff that it demands. */
  function LastResort(m: Measured, c: Settings, predict: Predictor): Point {
    var fine := Max(LandLow(m, c), FineTop(c) / SEARCH_STEPS as real);
    PointAt(m, c, predict, LandLow(m, c), fine, CoarseFloor(c), CoarseFloor(c))
  }

  function Chosen(l: Leaders): Point {
    if l.found then l.best else l.fastest
  }

  function Choose(m: Measured, c: Settings, predict: Predictor): Point {
    var p := Chosen(Survey(Start(m, c), c.goal, Grid(m, c, predict)));
    if p.total >= UNUSABLE then LastResort(m, c, predict) else p
  }

  // ----- the result, and what is done with it

  datatype Result = Result(coarseK: real, fineK: real, coarseMin: real, coarseMax: real, coarseKp: real,
      coarseTaper: real,
                           fineMin: real, fineMax: real, fineKp: real, fineTaper: real,
                           handoff: real, tailSd: real, dead: real, times: Times, total: real, meetsGoal: bool)

  function ResultOf(m: Measured, c: Settings, p: Point): Result {
    var coarseMin := Min(p.coarseLand, p.coarse);
    Result(m.coarseK, m.fineK, coarseMin, p.coarse,
           if p.coarseTaper > 0.0 then p.coarse / p.coarseTaper else p.coarse, p.coarseTaper,
           p.fineLand, p.fine, if p.fineTaper > 0.0 then p.fine / p.fineTaper else p.fine, p.fineTaper,
           p.handoff, TailSd(m, coarseMin), m.dead, p.times, p.total, p.total <= c.goal)
  }

  /** fit_profile. */
  function Fit(m: Measured, c: Settings, predict: Predictor): Result {
    ResultOf(m, c, Choose(m, c, predict))
  }

  /** The throw that a result describes. */
  function ShapeOf(c: Settings, r: Result): Shape {
    Shape(c.target, Flow(r.coarseK, r.coarseMax), Flow(r.coarseK, r.coarseMin), r.coarseTaper,
          Flow(r.fineK, r.fineMax), Flow(r.fineK, r.fineMin), r.fineMax, r.fineMin, r.dead, r.handoff, r.fineTaper)
  }

  function Predicted(c: Settings, r: Result, predict: Predictor): Result {
    var t := predict(ShapeOf(c, r));
    r.(times := t, total := t.coarse + t.fine, meetsGoal := t.coarse + t.fine <= c.goal)
  }

  function Quotient(a: real, b: real): real
    requires b != 0.0
  {
    a / b
  }

  /** The scatter of the tail goes with the speed the bulk stops at. */
  function Scatter(sd: real, now: real, was: real): real
    requires was != 0.0
  {
    sd * (now / was)
  }

  /** back_off_profile: slower landings, a wider handoff and taper. */
  function BackOff(r: Result, c: Settings, predict: Predictor): Result
    requires r.fineTaper > 0.0
  {
    var fineMin := Max(FineFloor(c), r.fineMin * 0.7);
    var fineMax := Max(fineMin, r.fineMax * 0.85);
    var fineTaper := r.fineTaper * 1.4;
    var coarseMin := Max(CoarseFloor(c), r.coarseMin * 0.7);
    var slower := r.(fineMin := fineMin, fineMax := fineMax, fineTaper := fineTaper,
        fineKp := Quotient(fineMax, fineTaper),
                     handoff := r.handoff * 1.3, coarseMin := coarseMin,
                     tailSd := if r.coarseMin > 0.0 then Scatter(r.tailSd, coarseMin, r.coarseMin) else r.tailSd);
    Predicted(c, slower, predict)
  }
}
