/** What the fit chooses, and that the live tuner finds nothing to correct in it. */
module LearnSafety {
  import opened Numeric
  import opened LearnModel
  import T = TunerModel
  import L = TunerLimits

  // ----- the selection, over any points

  predicate Surveyed(l: Leaders, start: Point, goal: real, ps: seq<Point>) {
    && (l.found <==> exists p :: p in ps && p.total <= goal)
    && (l.found ==> l.best in ps && l.best.total <= goal)
    && (!l.found ==> l.best == start)
    && (l.fastest == start || l.fastest in ps)
    && l.fastest.total <= start.total
    && (forall p :: p in ps ==> l.fastest.total <= p.total)
  }

  lemma {:induction false} SurveyIsRight(start: Point, goal: real, ps: seq<Point>)
    ensures Surveyed(Survey(Leaders(false, start, start), goal, ps), start, goal, ps)
  {
    if ps != [] {
      var n := |ps| - 1;
      SurveyIsRight(start, goal, ps[..n]);
      var l := Survey(Leaders(false, start, start), goal, ps[..n]);
      assert ps == ps[..n] + [ps[n]];
      ConsiderIsRight(l, start, goal, ps[..n], ps[n]);
    }
  }

  lemma ConsiderIsRight(l: Leaders, start: Point, goal: real, ps: seq<Point>, p: Point)
    requires Surveyed(l, start, goal, ps)
    ensures Surveyed(Consider(l, goal, p), start, goal, ps + [p])
  {
    hide Better;
    assert p in ps + [p];
    assert forall q :: q in ps + [p] <==> q in ps || q == p;
  }

  predicate OnGrid(m: Measured, c: Settings, predict: Predictor, p: Point) {
    p in Grid(m, c, predict)
  }

  /** A point whose predicted time is short of the mark that stands for "no throw at all". */
  predicate Usable(p: Point) {
    p.total < UNUSABLE
  }

  /**
   Whatever the predictor says, with a goal below the mark: if a usable point makes the goal, the choice
   is on the grid and makes it; else, if any is usable, it is the fastest on the grid; else the last resort.
   */
  lemma ChoiceIsRight(m: Measured, c: Settings, predict: Predictor)
    requires c.goal < UNUSABLE
    ensures var p := Choose(m, c, predict);
            if exists q :: OnGrid(m, c, predict, q) && Usable(q) && q.total <= c.goal then
              OnGrid(m, c, predict, p) && p.total <= c.goal
            else if exists q :: OnGrid(m, c, predict, q) && Usable(q) then
              OnGrid(m, c, predict, p) && Usable(p) && forall q :: OnGrid(m, c, predict, q) ==> p.total <= q.total
            else p == LastResort(m, c, predict)
  {
    hide Grid, LastResort, NoPoint;
    var start := NoPoint(m, c);
    StartTotal(m, c);
    SurveyIsRight(start, c.goal, Grid(m, c, predict));
  }

  lemma StartTotal(m: Measured, c: Settings)
    ensures NoPoint(m, c).total == UNUSABLE == 1_000_000_000.0
  {
  }

  /** Of points that cannot be told apart by what is compared, the first one walked past leads. */
  lemma TiesKeepTheFirst(l: Leaders, goal: real, p: Point)
    ensures var r := Consider(l, goal, p);
            && (p.total == l.fastest.total ==> r.fastest == l.fastest)
            && (l.found && p.handoff == l.best.handoff && p.fineLand == l.best.fineLand && p.total == l.best.total ==>
                  r.best == l.best)
  {
  }

  // ----- which of the points that make the goal

  /** Tighter handoff first, then slower fine landing, then faster throw. */
  predicate Precedes(p: Point, q: Point) {
    || p.handoff < q.handoff
    || (p.handoff == q.handoff && (p.fineLand < q.fineLand || (p.fineLand == q.fineLand && p.total <= q.total)))
  }

  /** Handoffs equal or more than 0.001 apart, and landing speeds equal or more than 1e-4 apart. */
  predicate ToldApart(p: Point, q: Point) {
    && (p.handoff == q.handoff || Abs(p.handoff - q.handoff) > 0.001)
    && (p.fineLand == q.fineLand || Abs(p.fineLand - q.fineLand) > 0.0001)
  }

  predicate AllToldApart(goal: real, ps: seq<Point>) {
    forall p, q :: p in ps && q in ps && p.total <= goal && q.total <= goal ==> ToldApart(p, q)
  }

  predicate BestIsFirst(l: Leaders, goal: real, ps: seq<Point>) {
    l.found ==> l.best in ps && l.best.total <= goal && forall q :: q in ps && q.total <= goal ==> Precedes(l.best, q)
  }

  lemma {:induction false} SurveyPrefers(start: Point, goal: real, ps: seq<Point>)
    requires AllToldApart(goal, ps)
    ensures BestIsFirst(Survey(Leaders(false, start, start), goal, ps), goal, ps)
  {
    hide ToldApart, Precedes;
    if ps != [] {
      var n := |ps| - 1;
      assert ps == ps[..n] + [ps[n]];
      SurveyPrefers(start, goal, ps[..n]);
      SurveyIsRight(start, goal, ps[..n]);
      var l := Survey(Leaders(false, start, start), goal, ps[..n]);
      ConsiderPrefers(l, start, goal, ps[..n], ps[n]);
    }
  }

  lemma ConsiderPrefers(l: Leaders, start: Point, goal: real, ps: seq<Point>, p: Point)
    requires AllToldApart(goal, ps + [p]) && BestIsFirst(l, goal, ps) && Surveyed(l, start, goal, ps)
    ensures BestIsFirst(Consider(l, goal, p), goal, ps + [p])
  {
    hide ToldApart, Precedes, Better;
    assert p in ps + [p] && forall q :: q in ps + [p] <==> q in ps || q == p;
    PrecedesItself(p);
    if l.found && p.total <= goal {
      assert ToldApart(p, l.best);
      BetterIsFirst(p, l.best);
      forall q | q in ps && q.total <= goal && Better(p, l.best)
        ensures Precedes(p, q)
      {
        PrecedesThrough(p, l.best, q);
      }
    }
  }

  lemma PrecedesItself(p: Point)
    ensures Precedes(p, p)
  {
  }

  lemma BetterIsFirst(p: Point, best: Point)
    requires ToldApart(p, best)
    ensures Better(p, best) ==> Precedes(p, best)
    ensures !Better(p, best) ==> Precedes(best, p)
  {
  }

  lemma PrecedesThrough(p: Point, q: Point, r: Point)
    requires Precedes(p, q) && Precedes(q, r)
    ensures Precedes(p, r)
  {
  }

  /**
   Where the goal-making points can be told apart, the choice has the least handoff of them all, among
   those the slowest fine landing, and among those the fastest throw.
   */
  lemma ChoiceIsTightest(m: Measured, c: Settings, predict: Predictor, q: Point)
    requires c.goal < UNUSABLE && AllToldApart(c.goal, Grid(m, c, predict))
    requires OnGrid(m, c, predict, q) && q.total <= c.goal
    ensures Precedes(Choose(m, c, predict), q) && Choose(m, c, predict).handoff <= q.handoff
  {
    hide Grid, LastResort, NoPoint, AllToldApart, Better, Consider;
    StartTotal(m, c);
    SurveyIsRight(NoPoint(m, c), c.goal, Grid(m, c, predict));
    SurveyPrefers(NoPoint(m, c), c.goal, Grid(m, c, predict));
  }

  // ----- every point of the grid

  predicate Sane(m: Measured, c: Settings, p: Point) {
    && FineFloor(c) <= p.fineLand <= LandHigh(m, c) && p.fineLand <= p.fine <= FineTop(c)
    && CoarseFloor(c) <= p.coarse <= CoarseTop(m, c) && CoarseFloor(c) <= p.coarseLand <= p.coarse
    && p.handoff == HandoffFor(m, c, p.coarseLand) && Legal(c, p.handoff)
    && p.fineTaper == FineTaperFor(m, p.fine) && p.coarseTaper == CoarseTaperFor(m, p.coarse)
  }

  predicate AllSane(m: Measured, c: Settings, ps: seq<Point>) {
    forall p :: p in ps ==> Sane(m, c, p)
  }

  lemma Between(lo: real, hi: real, part: real)
    requires lo <= hi && 0.0 <= part <= 1.0
    ensures lo <= lo + (hi - lo) * part <= hi
  {
  }

  lemma FineLandInRange(m: Measured, c: Settings, li: nat)
    requires li < LAND_STEPS
    ensures FineFloor(c) <= FineLandAt(m, c, li) <= LandHigh(m, c)
  {
    hide LandCeiling, LandHeuristic;
    Between(LandLow(m, c), LandHigh(m, c), li as real / (LAND_STEPS - 1) as real);
  }

  lemma UpTo(top: real, n: nat)
    requires n <= SEARCH_STEPS && 0.0 <= top
    ensures top * (n as real / SEARCH_STEPS as real) <= top
  {
    var part := n as real / SEARCH_STEPS as real;
    assert 0.0 <= part <= 1.0;
    Between(0.0, top, part);
  }

  lemma CoarseLandInRange(m: Measured, c: Settings, coarse: real, cl: nat)
    requires CoarseFloor(c) <= coarse
    ensures CoarseFloor(c) <= CoarseLandAt(m, c, coarse, cl) <= coarse
  {
  }

  lemma {:induction false} CoarseLandsSane(m: Measured, c: Settings, predict: Predictor, fineLand: real, fine: real,
      coarse: real, n: nat)
    requires FineFloor(c) <= fineLand <= LandHigh(m, c) && fineLand <= fine <= FineTop(c)
    requires CoarseFloor(c) <= coarse <= CoarseTop(m, c)
    ensures AllSane(m, c, CoarseLands(m, c, predict, fineLand, fine, coarse, n))
  {
    hide LandHigh, CoarseTop, HandoffFor, FineTaperFor, CoarseTaperFor, CoarseLandAt, FineTop;
    if n > 0 {
      CoarseLandsSane(m, c, predict, fineLand, fine, coarse, n - 1);
      CoarseLandInRange(m, c, coarse, n - 1);
    }
  }

  lemma {:induction false} CoarsesSane(m: Measured, c: Settings, predict: Predictor, fineLand: real, fine: real, n: nat)
    requires FineFloor(c) <= fineLand <= LandHigh(m, c) && fineLand <= fine <= FineTop(c) && n <= SEARCH_STEPS
    ensures AllSane(m, c, Coarses(m, c, predict, fineLand, fine, n))
  {
    hide LandHigh, Sane, CoarseLands, FineTop, CoarseTop;
    if n > 0 {
      CoarsesSane(m, c, predict, fineLand, fine, n - 1);
      var coarse := CoarseAt(m, c, n);
      if CoarseFloor(c) <= coarse {
        CoarseTopPositive(m, c);
        UpTo(CoarseTop(m, c), n);
        CoarseLandsSane(m, c, predict, fineLand, fine, coarse, COARSE_LAND_STEPS);
      }
    }
  }

  lemma CoarseTopPositive(m: Measured, c: Settings)
    ensures CoarseTop(m, c) >= CoarseFloor(c) > 0.0
  {
  }

  lemma FineAtInRange(c: Settings, n: nat)
    requires n <= SEARCH_STEPS && 0.0 <= FineTop(c)
    ensures FineAt(c, n) <= FineTop(c)
  {
    hide FineTop;
    var top := FineTop(c);
    UpTo(top, n);
    assert FineAt(c, n) == top * (n as real / SEARCH_STEPS as real);
  }

  lemma {:induction false} FinesSane(m: Measured, c: Settings, predict: Predictor, fineLand: real, n: nat)
    requires FineFloor(c) <= fineLand <= LandHigh(m, c) && n <= SEARCH_STEPS
    ensures AllSane(m, c, Fines(m, c, predict, fineLand, n))
  {
    hide LandHigh, Sane, Coarses, FineTop;
    if n > 0 {
      FinesSane(m, c, predict, fineLand, n - 1);
      var fine := FineAt(c, n);
      if fineLand <= fine {
        if FineTop(c) < 0.0 {
          NonPositivePart(FineTop(c), n);
          assert false;
        }
        FineAtInRange(c, n);
        CoarsesSane(m, c, predict, fineLand, fine, SEARCH_STEPS);
      }
    }
  }

  lemma NonPositivePart(top: real, n: nat)
    requires top <= 0.0
    ensures top * (n as real / SEARCH_STEPS as real) <= 0.0
  {
    var part := n as real / SEARCH_STEPS as real;
    assert 0.0 <= part;
  }

  lemma {:induction false} GridIsSane(m: Measured, c: Settings, predict: Predictor, n: nat)
    requires n <= LAND_STEPS
    ensures AllSane(m, c, FineLands(m, c, predict, n))
  {
    hide Sane, Fines, FineLandAt;
    if n > 0 {
      GridIsSane(m, c, predict, n - 1);
      FineLandInRange(m, c, n - 1);
      FinesSane(m, c, predict, FineLandAt(m, c, n - 1), SEARCH_STEPS);
    }
  }

  lemma ChoiceIsSane(m: Measured, c: Settings, predict: Predictor)
    requires c.goal < UNUSABLE && exists q :: OnGrid(m, c, predict, q) && Usable(q)
    ensures Sane(m, c, Choose(m, c, predict))
  {
    hide Choose, Sane, FineLands;
    ChoiceIsRight(m, c, predict);
    GridIsSane(m, c, predict, LAND_STEPS);
  }

  lemma SaneHasMargin(m: Measured, c: Settings, p: Point)
    requires Sane(m, c, p)
    ensures StopMin(c) <= p.handoff < 0.5 * c.target
    ensures Cover(m, c, p.coarseLand) < p.handoff <= Max(StopMin(c), Cover(m, c, p.coarseLand) + StopMargin(c))
    ensures p.fineLand <= LandCeiling(m, c) || p.fineLand == FineFloor(c)
  {
    hide LandCeiling, SafetyMult, CoarseLagErr, CoarseTop, FineTop, FineTaperFor, CoarseTaperFor, Cover;
  }

  /** Spread of a tube's lag: with prediction its measured deviation, without it the lag itself. */
  function SpreadOf(m: Measured, sd: real, lag: real): real {
    if m.lagMean > 0.05 then Max(sd, 0.02) else Max(lag, 0.05)
  }

  /** Powder that may be in the air when the bulk stops at this speed: three spreads of lag, times the safety factor. */
  function StopTail(m: Measured, c: Settings, coarseLand: real): real {
    (if m.lagMean > 0.05 then Clampf(c.stopSafety, 1.0, 5.0) else 1.0) * 3.0 * (m.coarseK * coarseLand)
    * SpreadOf(m, m.coarseLagSd, m.coarseLag)
  }

  /**
   The handoff is the style's floor at least, holds all of that powder, is no wider than floor or powder and the
   style's allowance demand, and leaves half the charge to the bulk. The landing is at the motor's minimum, or
   that many sigmas of what it leaves in the air fit into four fifths of the bracket.
   */
  predicate HasMargin(m: Measured, c: Settings, p: Point) {
    var least, allowance := if c.aggressive then 0.15 else 0.30, if c.aggressive then 0.05 else 0.15;
    var tail := StopTail(m, c, p.coarseLand);
    && tail < p.handoff <= Max(least, tail + allowance) && least <= p.handoff < 0.5 * c.target
    && (p.fineLand == Max(c.fineMotorMin, 0.05) || LandingFits(m, c, p.fineLand))
  }

  predicate LandingFits(m: Measured, c: Settings, land: real) {
    Clampf(c.landSigma, 1.0, 4.0) * (m.fineK * land) * SpreadOf(m, m.fineLagSd, m.fineLag) <= 0.8 * c.bracket
  }

  lemma CoverIsTail(m: Measured, c: Settings, land: real)
    ensures Cover(m, c, land) == StopTail(m, c, land)
  {
  }

  lemma SameQuotient(a: real, s: real, k: real, e: real, a': real, s': real, e': real)
    requires a == a' && s == s' > 0.0 && e == e' > 0.0 && k > 0.0
    ensures s * k * e > 0.0 && a / (s * k * e) == a' / (s' * k * e')
  {
    Positive(s, k);
    Positive(s * k, e);
  }

  lemma CeilingIsQuotient(m: Measured, c: Settings)
    requires m.fineK > 0.0
    ensures var sigma, err := Clampf(c.landSigma, 1.0, 4.0), SpreadOf(m, m.fineLagSd, m.fineLag);
            sigma > 0.0 && err > 0.0 && sigma * m.fineK * err > 0.0
            && LandCeiling(m, c) == 0.8 * c.bracket / (sigma * m.fineK * err)
  {
    SameQuotient(BRACKET_USE_FRAC * c.bracket, LandSigma(c), m.fineK, FineLagErr(m), 0.8 * c.bracket,
                 Clampf(c.landSigma, 1.0, 4.0), SpreadOf(m, m.fineLagSd, m.fineLag));
  }

  lemma UnderQuotient(x: real, a: real, b: real, q: real)
    requires b > 0.0 && q == a / b && x <= q
    ensures x * b <= a
  {
    QuotientTimes(a, b, q);
    ProductNonNegative(q - x, b);
  }

  lemma QuotientTimes(a: real, b: real, q: real)
    requires b > 0.0 && q == a / b
    ensures q * b == a
  {
  }

  lemma Fits(land: real, budget: real, s: real, k: real, e: real, q: real)
    requires s > 0.0 && k > 0.0 && e > 0.0 && s * k * e > 0.0 && q == budget / (s * k * e) && land <= q
    ensures s * (k * land) * e <= budget
  {
    UnderQuotient(land, budget, s * k * e, q);
    Rearranged(land, s, k, e);
  }

  lemma LandsInBracket(m: Measured, c: Settings, land: real)
    requires land <= LandCeiling(m, c) && m.fineK > 0.0
    ensures LandingFits(m, c, land)
  {
    hide LandCeiling, Clampf, SpreadOf;
    CeilingIsQuotient(m, c);
    Fits(land, 0.8 * c.bracket, Clampf(c.landSigma, 1.0, 4.0), m.fineK, SpreadOf(m, m.fineLagSd, m.fineLag),
         LandCeiling(m, c));
  }

  lemma Positive(a: real, b: real)
    requires a > 0.0 && b > 0.0
    ensures a * b > 0.0
  {
  }

  lemma Rearranged(x: real, a: real, b: real, e: real)
    ensures x * (a * b * e) == a * (b * x) * e
  {
  }

  /** Off the last resort what is chosen has its margins, on the handoff and on the landing. */
  lemma ChoiceHasMargin(m: Measured, c: Settings, predict: Predictor)
    requires c.goal < UNUSABLE && exists q :: OnGrid(m, c, predict, q) && Usable(q)
    ensures HasMargin(m, c, Choose(m, c, predict))
  {
    hide Choose, Sane, LandCeiling, SafetyMult, CoarseLagErr, Cover, StopTail, SpreadOf, LandingFits, Grid;
    ChoiceIsSane(m, c, predict);
    var p := Choose(m, c, predict);
    SaneHasMargin(m, c, p);
    CoverIsTail(m, c, p.coarseLand);
    SaneLandsFine(m, c, p);
    if m.fineK <= 0.0 {
      NoFineFlow(m, c);
    } else if p.fineLand <= LandCeiling(m, c) {
      LandsInBracket(m, c, p.fineLand);
    }
  }

  lemma NoFineFlow(m: Measured, c: Settings)
    requires m.fineK <= 0.0
    ensures LandCeiling(m, c) == FineFloor(c)
  {
  }

  lemma SaneLandsFine(m: Measured, c: Settings, p: Point)
    requires Sane(m, c, p)
    ensures 0.0 < FineFloor(c) <= p.fineLand
  {
  }

  // ----- the fit and the live tuner

  /** Flows and spreads as they come out of the measurements. */
  predicate Physical(m: Measured) {
    m.coarseK >= 0.0 && m.coarseLagSd >= 0.0
  }

  /** The profile that the fit writes, as the tuner is handed it. */
  function ProfileOf(r: Result): T.Params {
    T.Params(r.fineMax, r.fineMin, r.fineKp, r.coarseMax, r.coarseMin, r.coarseKp, r.handoff)
  }

  /** The limits the charge loop passes the tuner, for a charge of `target` grains after this fit. */
  function EnvFor(c: Settings, r: Result, target: real): T.Env {
    T.Env(target, c.bracket, LandSigma(c), c.coarseMotorMax as real, c.coarseMotorMin, ScatterFloor(c, r),
          0.50, if 0.0 < c.goal < 120.0 then c.goal else 0.0, StopMin(c), c.aggressive)
  }

  function ScatterFloor(c: Settings, r: Result): real {
    (if c.aggressive then 2.0 else 3.0) * r.tailSd
  }

  /** What keeps the tuner from moving a fitted profile, apart from the cap on the handoff. */
  predicate TunerReady(c: Settings, r: Result) {
    && 0.0 < r.fineMin <= r.fineMax && 0.0 < r.fineTaper && r.fineKp * r.fineTaper == r.fineMax
    && FineFloor(c) <= r.fineMin && CoarseFloor(c) <= r.coarseMin <= r.coarseMax
    && 0.0 < r.coarseKp
    && StopMin(c) <= r.handoff && 0.0 <= r.tailSd && ScatterFloor(c, r) <= r.handoff
  }

  lemma CoversScatter(m: Measured, c: Settings, p: Point)
    requires Physical(m) && PredictUsed(m) && Sane(m, c, p)
    ensures 0.0 <= TailSd(m, p.coarseLand) && 3.0 * TailSd(m, p.coarseLand) <= p.handoff
  {
    hide Sane, SafetyMult, Cover, TailSd;
    SaneHasMargin(m, c, p);
    SaneLands(m, c, p);
    assert CoarseFloor(c) > 0.0;
    SafetyAtLeastOne(m, c);
    CoverIsEnough(m, c, p.coarseLand);
  }

  lemma CoverIsEnough(m: Measured, c: Settings, land: real)
    requires Physical(m) && PredictUsed(m) && land >= 0.0 && SafetyMult(m, c) >= 1.0
    ensures 0.0 <= 3.0 * TailSd(m, land) <= Cover(m, c, land)
  {
    hide SafetyMult;
    var flow, mult, err := m.coarseK * land, SafetyMult(m, c), CoarseLagErr(m);
    ProductNonNegative(m.coarseK, land);
    ProductNonNegative(m.coarseLagSd, flow);
    ScaleUp(mult, flow, err, m.coarseLagSd);
    Associate(m.coarseLagSd, m.coarseK, land);
  }

  lemma Associate(a: real, b: real, c: real)
    ensures a * b * c == a * (b * c)
  {
  }

  lemma SaneLands(m: Measured, c: Settings, p: Point)
    requires Sane(m, c, p)
    ensures CoarseFloor(c) <= p.coarseLand <= p.coarse
  {
  }

  lemma SafetyAtLeastOne(m: Measured, c: Settings)
    ensures 1.0 <= SafetyMult(m, c)
  {
  }

  lemma ProductNonNegative(a: real, b: real)
    requires a >= 0.0 && b >= 0.0
    ensures a * b >= 0.0
  {
  }

  lemma ScaleUp(mult: real, flow: real, err: real, sd: real)
    requires flow >= 0.0 && err >= sd >= 0.0 && mult >= 1.0
    ensures mult * 3.0 * flow * err >= 3.0 * (sd * flow)
  {
    var x := flow * err;
    ProductNonNegative(flow, err - sd);
    ProductNonNegative(flow, err);
    ProductNonNegative(mult - 1.0, x);
    ThreeTimes(mult, flow, err);
  }

  lemma ThreeTimes(mult: real, flow: real, err: real)
    ensures mult * 3.0 * flow * err == 3.0 * (mult * (flow * err))
  {
  }

  lemma TapersPositive(m: Measured, c: Settings, p: Point)
    requires Sane(m, c, p)
    ensures 0.0 < p.fineTaper && 0.0 < p.coarseTaper && 0.0 < p.fineLand <= p.fine && 0.0 < p.coarseLand <= p.coarse
    ensures FineFloor(c) <= p.fineLand && CoarseFloor(c) <= p.coarseLand && StopMin(c) <= p.handoff
  {
    hide LandHigh, CoarseTop, FineTop, SafetyMult, CoarseLagErr;
  }

  lemma RatioTimes(a: real, b: real)
    requires b > 0.0
    ensures a / b * b == a && (a > 0.0 ==> a / b > 0.0)
  {
  }

  lemma SaneIsReady(m: Measured, c: Settings, p: Point)
    requires Physical(m) && PredictUsed(m) && Sane(m, c, p)
    ensures TunerReady(c, ResultOf(m, c, p))
  {
    hide Sane, PredictUsed, StopMin, FineFloor, CoarseFloor, TailSd;
    CoversScatter(m, c, p);
    TapersPositive(m, c, p);
    RatioTimes(p.fine, p.fineTaper);
    RatioTimes(p.coarse, p.coarseTaper);
    var r := ResultOf(m, c, p);
    assert r.coarseMin == p.coarseLand && r.tailSd == TailSd(m, p.coarseLand);
    assert ScatterFloor(c, r) <= 3.0 * r.tailSd;
  }

  /** Where the motor's limits are in order the fitted coarse speed is one the motor can run. */
  predicate WithinCap(c: Settings, r: Result) {
    c.coarseMotorMax as real > 0.0 ==> r.coarseMax <= c.coarseMotorMax as real
  }

  /**
   A tuner anchored on a ready profile leaves it alone exactly when the coarse speed is one the motor
   can run and the handoff is at most half the charge.
   */
  lemma ReadyIsFixedIff(c: Settings, r: Result, target: real)
    requires TunerReady(c, r) && 0.0 < target
    ensures var p := ProfileOf(r);
            L.Fixed(p, EnvFor(c, r, target), p) <==> WithinCap(c, r) && r.handoff <= 0.50 * target
  {
    hide L.Fixed;
    var p, env := ProfileOf(r), EnvFor(c, r, target);
    L.FixedIffInRange(p, env, p);
    KpPositive(r.fineKp, r.fineTaper, r.fineMax);
    assert T.HandoffHigh(env) == 0.50 * target > 0.0;
  }

  lemma KpPositive(kp: real, taper: real, top: real)
    requires kp * taper == top && taper > 0.0 && top > 0.0
    ensures kp > 0.0
  {
  }

  lemma SaneWithinCap(m: Measured, c: Settings, p: Point)
    requires Sane(m, c, p)
    ensures WithinCap(c, ResultOf(m, c, p)) <==> c.coarseMotorMax == 0 || p.coarse <= c.coarseMotorMax as real
    ensures CoarseFloor(c) <= c.coarseMotorMax as real ==> WithinCap(c, ResultOf(m, c, p))
    ensures c.coarseMotorMax > 0 && CoarseFloor(c) > c.coarseMotorMax as real ==> !WithinCap(c, ResultOf(m, c, p))
  {
    hide HandoffFor, FineTaperFor, CoarseTaperFor, LandHigh, FineTop;
  }

  /**
   With prediction used and some usable point, a tuner that runs in the same style and is anchored on
   the applied fit leaves it alone, for every target from the confirmation target up, exactly when
   the coarse motor's minimum (at least 0.05 rps) does not exceed its maximum.
   */
  lemma FitIsFixedIff(m: Measured, c: Settings, predict: Predictor, target: real)
    requires Physical(m) && PredictUsed(m) && c.goal < UNUSABLE && c.target <= target
    requires exists q :: OnGrid(m, c, predict, q) && Usable(q)
    ensures var r := Fit(m, c, predict);
            && TunerReady(c, r)
            && (L.Fixed(ProfileOf(r), EnvFor(c, r, target), ProfileOf(r)) <==>
                  c.coarseMotorMax == 0 || CoarseFloor(c) <= c.coarseMotorMax as real)
  {
    hide Choose, Sane, WithinCap, CoarseFloor, TunerReady, PredictUsed, L.Fixed, EnvFor;
    ChoiceIsSane(m, c, predict);
    var p := Choose(m, c, predict);
    SaneIsReady(m, c, p);
    SaneHasMargin(m, c, p);
    SaneWithinCap(m, c, p);
    StopMinPositive(c);
    ReadyIsFixedIff(c, Fit(m, c, predict), target);
    assert Fit(m, c, predict).handoff == p.handoff < 0.5 * c.target;
    if c.coarseMotorMax == 0 {
      NoCap(c, Fit(m, c, predict));
    }
  }

  lemma NoCap(c: Settings, r: Result)
    requires c.coarseMotorMax == 0
    ensures WithinCap(c, r)
  {
  }

  lemma StopMinPositive(c: Settings)
    ensures 0.0 < StopMin(c)
  {
  }

  // ----- backing off

  function BackOffs(r: Result, c: Settings, predict: Predictor, n: nat): (b: Result)
    requires r.fineTaper > 0.0
    ensures b.fineTaper > 0.0
    decreases n
  {
    if n == 0 then r else BackOff(BackOffs(r, c, predict, n - 1), c, predict)
  }

  lemma {:induction false} BackOffsAreReady(r: Result, c: Settings, predict: Predictor, n: nat)
    requires TunerReady(c, r)
    ensures var b := BackOffs(r, c, predict, n); TunerReady(c, b) && b.coarseMax == r.coarseMax
  {
    hide BackOff, TunerReady;
    TaperPositive(c, r);
    if n > 0 {
      BackOffsAreReady(r, c, predict, n - 1);
      BackOffIsReady(BackOffs(r, c, predict, n - 1), c, predict);
    }
  }

  lemma TaperPositive(c: Settings, r: Result)
    requires TunerReady(c, r)
    ensures r.fineTaper > 0.0
  {
  }

  /** 1.3 to the n. */
  function Widened(n: nat): real {
    if n == 0 then 1.0 else 1.3 * Widened(n - 1)
  }

  lemma {:induction false} BackOffsWiden(r: Result, c: Settings, predict: Predictor, n: nat)
    requires r.fineTaper > 0.0
    ensures BackOffs(r, c, predict, n).handoff == r.handoff * Widened(n)
  {
    hide Max, ShapeOf, Scatter, Quotient, FineFloor, CoarseFloor;
    if n > 0 {
      BackOffsWiden(r, c, predict, n - 1);
      var b := BackOffs(r, c, predict, n - 1);
      assert BackOff(b, c, predict).handoff == b.handoff * 1.3;
      Regroup(r.handoff, Widened(n - 1));
    }
  }

  lemma Regroup(h: real, w: real)
    ensures (h * w) * 1.3 == h * (1.3 * w)
  {
  }

  /** Whatever came out of the fit, last resort included, can be backed off. */
  lemma FitHasTaper(m: Measured, c: Settings, predict: Predictor)
    requires c.goal < UNUSABLE
    ensures Fit(m, c, predict).fineTaper > 0.0
  {
    hide Grid, Survey, Sane, HandoffFor, CoarseTaperFor, LandLow, FineTop, CoarseFloor;
    ChoiceIsRight(m, c, predict);
    if exists q :: OnGrid(m, c, predict, q) && Usable(q) {
      ChoiceIsSane(m, c, predict);
      TapersPositive(m, c, Choose(m, c, predict));
    }
  }

  lemma BackOffIsReady(r: Result, c: Settings, predict: Predictor)
    requires TunerReady(c, r)
    ensures TunerReady(c, BackOff(r, c, predict)) && BackOff(r, c, predict).coarseMax == r.coarseMax
  {
    hide FineFloor, StopMin, ShapeOf;
    StopMinPositive(c);
    var b := BackOff(r, c, predict);
    assert FineFloor(c) > 0.0 by { FloorPositive(c); }
    assert b.fineMin <= r.fineMin;
    RatioTimes(b.fineMax, b.fineTaper);
    assert b.coarseMin <= r.coarseMin;
    TailFollows(r, c, predict);
    assert ScatterFloor(c, b) <= ScatterFloor(c, r);
  }

  lemma TailFollows(r: Result, c: Settings, predict: Predictor)
    requires r.fineTaper > 0.0 && 0.0 <= r.tailSd && 0.0 < BackOff(r, c, predict).coarseMin <= r.coarseMin
    ensures 0.0 <= BackOff(r, c, predict).tailSd <= r.tailSd
  {
    hide Max, CoarseFloor, ShapeOf, Scatter, Quotient;
    ScatterShrinks(r.tailSd, r.coarseMin, BackOff(r, c, predict).coarseMin);
  }

  lemma FloorPositive(c: Settings)
    ensures FineFloor(c) > 0.0
  {
  }

  lemma ScatterShrinks(sd: real, was: real, now: real)
    requires 0.0 <= sd && 0.0 < now <= was
    ensures 0.0 <= Scatter(sd, now, was) <= sd
  {
    var part := now / was;
    assert 0.0 <= part <= 1.0;
    Between(0.0, sd, part);
  }

  /**
   After any number of back-offs the profile is still ready for the tuner: fine minimum at most fine
   maximum, Kp times taper the maximum, the handoff over the tuner's floor. It is left alone exactly
   when the fitted handoff, widened by 1.3 each time, is still at most half the charge.
   */
  lemma BackedOffIsFixedIff(m: Measured, c: Settings, predict: Predictor, n: nat, target: real)
    requires Physical(m) && PredictUsed(m) && c.goal < UNUSABLE && 0.0 < target
    requires exists q :: OnGrid(m, c, predict, q) && Usable(q)
    requires c.coarseMotorMax == 0 || CoarseFloor(c) <= c.coarseMotorMax as real
    ensures var r := Fit(m, c, predict);
            && r.fineTaper > 0.0
            && var b := BackOffs(r, c, predict, n);
            && TunerReady(c, b)
            && (L.Fixed(ProfileOf(b), EnvFor(c, b, target), ProfileOf(b)) <==> r.handoff * Widened(n) <= 0.50 * target)
  {
    hide Fit, CoarseFloor, TunerReady, WithinCap, PredictUsed, L.Fixed, EnvFor, BackOffs, Widened, OnGrid;
    FitIsReady(m, c, predict);
    var r := Fit(m, c, predict);
    TaperPositive(c, r);
    BackOffsAreReady(r, c, predict, n);
    BackOffsWiden(r, c, predict, n);
    var b := BackOffs(r, c, predict, n);
    SameCap(c, r, b);
    ReadyIsFixedIff(c, b, target);
  }

  lemma SameCap(c: Settings, r: Result, b: Result)
    requires WithinCap(c, r) && b.coarseMax == r.coarseMax
    ensures WithinCap(c, b)
  {
  }

  lemma FitIsReady(m: Measured, c: Settings, predict: Predictor)
    requires Physical(m) && PredictUsed(m) && c.goal < UNUSABLE
    requires exists q :: OnGrid(m, c, predict, q) && Usable(q)
    requires c.coarseMotorMax == 0 || CoarseFloor(c) <= c.coarseMotorMax as real
    ensures TunerReady(c, Fit(m, c, predict)) && WithinCap(c, Fit(m, c, predict))
  {
    hide Choose, Sane, CoarseFloor, TunerReady, PredictUsed, ResultOf, OnGrid, WithinCap;
    ChoiceIsSane(m, c, predict);
    var p := Choose(m, c, predict);
    SaneIsReady(m, c, p);
    SaneWithinCap(m, c, p);
    if c.coarseMotorMax == 0 {
      NoCap(c, Fit(m, c, predict));
    }
  }
}
