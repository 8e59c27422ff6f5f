/** What the fit searches: four axes, every combination that leaves half the charge to the bulk, and nothing else. */
module LearnGrid {
  import opened Numeric
  import opened LearnModel
  import opened LearnSafety

  // ----- the axes

  /** The fastest of the rungs that ran, and the slowest. */
  predicate IsFastest(ladder: seq<Rung>, fast: real) {
    && (forall r :: r in ladder && r.timeS > 0.0 ==> r.speed <= fast)
    && (fast == 0.0 || exists r :: r in ladder && r.timeS > 0.0 && r.speed == fast)
  }

  predicate IsSlowest(ladder: seq<Rung>, slow: real) {
    if exists r :: r in ladder && r.timeS > 0.0 then
      && (forall r :: r in ladder && r.timeS > 0.0 ==> slow <= r.speed)
      && exists r :: r in ladder && r.timeS > 0.0 && r.speed == slow
    else slow == 0.0
  }

  lemma {:induction false} LadderEndsAre(ladder: seq<Rung>)
    requires forall r :: r in ladder && r.timeS > 0.0 ==> r.speed > 0.0
    ensures IsFastest(ladder, LadderMax(ladder)) && IsSlowest(ladder, LadderMin(ladder))
  {
    if ladder != [] {
      var n := |ladder| - 1;
      LadderEndsAre(ladder[..n]);
      assert ladder == ladder[..n] + [ladder[n]];
    }
  }

  /** The landing whose sigmas just fit into four fifths of the bracket. */
  function BracketLanding(m: Measured, c: Settings): real {
    if m.fineK > 0.0
    then 0.8 * c.bracket / (Clampf(c.landSigma, 1.0, 4.0) * m.fineK * SpreadOf(m, m.fineLagSd, m.fineLag))
    else Max(c.fineMotorMin, 0.05)
  }

  /** A few kernels a second. */
  function KernelLanding(m: Measured, c: Settings): real {
    if m.fineK > 0.0 then 0.06 / m.fineK else Max(c.fineMotorMin, 0.05)
  }

  /** The fastest fine landing: as fast as the bracket allows, and the tube. */
  function FastestLanding(m: Measured, c: Settings): real {
    Max(Max(c.fineMotorMin, 0.05), Min(BracketLanding(m, c), Min(c.fineCeiling, c.fineMotorMax as real)))
  }

  function SlowestLanding(m: Measured, c: Settings): real {
    Max(Max(c.fineMotorMin, 0.05), Min(KernelLanding(m, c), FastestLanding(m, c)))
  }

  /** The i-th of six values from one to another. */
  function Sixth(from: real, to: real, i: nat): real {
    from + (to - from) * (i as real / 5.0)
  }

  /** Six landing speeds of the fine tube. */
  function FineLandings(m: Measured, c: Settings, li: nat): real {
    Sixth(SlowestLanding(m, c), FastestLanding(m, c), li)
  }

  /** Twelfths of the fine tube's top speed. */
  function FineSpeeds(c: Settings, fi: nat): real {
    Min(c.fineCeiling, c.fineMotorMax as real) * (fi as real / 12.0)
  }

  /** Twelfths of the coarse tube's top speed, which is at most a quarter over the fastest rung that ran. */
  function CoarseSpeeds(c: Settings, fast: real, ci: nat): real {
    var top := Min(c.coarseCeiling, c.coarseMotorMax as real);
    Max(Max(c.coarseMotorMin, 0.05), if fast > 0.0 then Min(top, 1.25 * fast) else top) * (ci as real / 12.0)
  }

  /** Landing speeds of the coarse tube: six, from the slowest rung that ran up to the full speed. */
  function CoarseLandings(c: Settings, slow: real, coarse: real, cl: nat): real {
    var floor := Max(c.coarseMotorMin, 0.05);
    var low := Max(floor, slow);
    Max(floor, Min(Sixth(low, coarse, cl), coarse))
  }

  // ----- the points

  /** What the point at four places on the axes is, and what the predictor was asked about it. */
  predicate Predicts(m: Measured, c: Settings, predict: Predictor, p: Point) {
    && p.times == predict(Shape(c.target, Flow(m.coarseK, p.coarse), Flow(m.coarseK, p.coarseLand), p.coarseTaper,
                                Flow(m.fineK, p.fine), Flow(m.fineK, p.fineLand), p.fine, p.fineLand, m.dead,
                                p.handoff, p.fineTaper))
    && p.total == p.times.coarse + p.times.fine
  }

  /** A taper holds three times what is in the air at full speed. */
  function Taper(least: real, lag: real, flow: real): real {
    Max(least, 3.0 * lag * flow)
  }

  /** The tapers, and the handoff that the landing demands. */
  predicate Sized(m: Measured, c: Settings, p: Point) {
    && p.fineTaper == Taper(0.20, m.fineLag, Flow(m.fineK, p.fine))
    && p.coarseTaper == Taper(0.50, m.coarseLag, Flow(m.coarseK, p.coarse))
    && p.handoff == Max(if c.aggressive then 0.15 else 0.30,
                        StopTail(m, c, p.coarseLand) + (if c.aggressive then 0.05 else 0.15))
  }

  predicate OnAxes(m: Measured, c: Settings, p: Point, li: nat, fi: nat, ci: nat, cl: nat) {
    && li < 6 && 1 <= fi <= 12 && 1 <= ci <= 12 && cl < 6
    && p.fineLand == FineLandings(m, c, li) && p.fine == FineSpeeds(c, fi)
    && p.coarse == CoarseSpeeds(c, LadderMax(m.ladder), ci)
    && p.coarseLand == CoarseLandings(c, LadderMin(m.ladder), p.coarse, cl)
  }

  /** The landings of a tube are no faster than its full speed, and half the charge is left to the bulk. */
  predicate Allowed(c: Settings, p: Point) {
    p.fineLand <= p.fine && Max(c.coarseMotorMin, 0.05) <= p.coarse && p.handoff < 0.5 * c.target
  }

  lemma PointIs(m: Measured, c: Settings, predict: Predictor, fineLand: real, fine: real, coarse: real,
                coarseLand: real)
    ensures var p := PointAt(m, c, predict, fineLand, fine, coarse, coarseLand);
            && p.fineLand == fineLand && p.fine == fine && p.coarse == coarse && p.coarseLand == coarseLand
            && Sized(m, c, p) && Predicts(m, c, predict, p)
  {
    hide StopTail, SafetyMult, CoarseLagErr, Cover, Flow;
    CoverIsTail(m, c, coarseLand);
  }

  /** A point is what its four speeds make it. */
  lemma PointFrom(m: Measured, c: Settings, predict: Predictor, p: Point)
    requires Sized(m, c, p) && Predicts(m, c, predict, p)
    ensures p == PointAt(m, c, predict, p.fineLand, p.fine, p.coarse, p.coarseLand)
  {
    hide PointAt, StopTail, Flow, Taper;
    PointIs(m, c, predict, p.fineLand, p.fine, p.coarse, p.coarseLand);
  }

  lemma CeilingIs(m: Measured, c: Settings)
    ensures LandCeiling(m, c) == BracketLanding(m, c) && LandHeuristic(m, c) == KernelLanding(m, c)
  {
    if m.fineK > 0.0 {
      CeilingIsQuotient(m, c);
      hide LandCeiling;
    }
  }

  lemma LandingEnds(m: Measured, c: Settings)
    ensures LandHigh(m, c) == FastestLanding(m, c) && LandLow(m, c) == SlowestLanding(m, c)
    ensures FineFloor(c) <= LandLow(m, c) <= LandHigh(m, c)
  {
    hide LandCeiling, LandHeuristic, BracketLanding, KernelLanding;
    CeilingIs(m, c);
  }

  lemma SixthIsBetween(from: real, to: real, i: nat)
    requires from <= to && i < 6
    ensures from <= Sixth(from, to, i) <= to
  {
    Between(from, to, i as real / 5.0);
  }

  lemma FineLandUnfolds(m: Measured, c: Settings, li: nat)
    ensures FineLandAt(m, c, li) == Max(FineFloor(c), Sixth(LandLow(m, c), LandHigh(m, c), li))
  {
    hide LandHigh, LandLow;
  }

  lemma FineLandingIs(m: Measured, c: Settings, li: nat)
    requires li < LAND_STEPS
    ensures FineLandAt(m, c, li) == FineLandings(m, c, li)
  {
    hide LandHigh, LandLow, FastestLanding, SlowestLanding, Sixth, FineLandAt;
    LandingEnds(m, c);
    FineLandUnfolds(m, c, li);
    SixthIsBetween(LandLow(m, c), LandHigh(m, c), li);
  }

  lemma CoarseLandingIs(m: Measured, c: Settings, coarse: real, cl: nat)
    ensures CoarseLandAt(m, c, coarse, cl) == CoarseLandings(c, LadderMin(m.ladder), coarse, cl)
  {
    hide LadderMin;
  }

  lemma SpeedsAre(m: Measured, c: Settings, i: nat)
    ensures FineAt(c, i) == FineSpeeds(c, i) && CoarseAt(m, c, i) == CoarseSpeeds(c, LadderMax(m.ladder), i)
  {
    hide LadderMax;
  }

  // ----- the walk

  lemma {:induction false} InCoarseLands(m: Measured, c: Settings, predict: Predictor, fineLand: real, fine: real,
                                         coarse: real, n: nat, p: Point)
    ensures p in CoarseLands(m, c, predict, fineLand, fine, coarse, n) <==>
              && Legal(c, p.handoff)
              && exists cl: nat ::
                   cl < n && p == PointAt(m, c, predict, fineLand, fine, coarse, CoarseLandAt(m, c, coarse, cl))
  {
    hide PointAt, CoarseLandAt, Legal;
    if n > 0 {
      InCoarseLands(m, c, predict, fineLand, fine, coarse, n - 1, p);
    }
  }

  lemma {:induction false} InCoarses(m: Measured, c: Settings, predict: Predictor, fineLand: real, fine: real,
                                     n: nat, p: Point)
    ensures p in Coarses(m, c, predict, fineLand, fine, n) <==>
              exists ci: nat :: 1 <= ci <= n && CoarseFloor(c) <= CoarseAt(m, c, ci)
                && p in CoarseLands(m, c, predict, fineLand, fine, CoarseAt(m, c, ci), COARSE_LAND_STEPS)
  {
    hide CoarseLands, CoarseAt, CoarseFloor;
    if n > 0 {
      InCoarses(m, c, predict, fineLand, fine, n - 1, p);
    }
  }

  lemma {:induction false} InFines(m: Measured, c: Settings, predict: Predictor, fineLand: real, n: nat, p: Point)
    ensures p in Fines(m, c, predict, fineLand, n) <==>
              exists fi: nat :: 1 <= fi <= n && fineLand <= FineAt(c, fi)
                && p in Coarses(m, c, predict, fineLand, FineAt(c, fi), SEARCH_STEPS)
  {
    hide Coarses, FineAt;
    if n > 0 {
      InFines(m, c, predict, fineLand, n - 1, p);
    }
  }

  lemma {:induction false} InFineLands(m: Measured, c: Settings, predict: Predictor, n: nat, p: Point)
    ensures p in FineLands(m, c, predict, n) <==>
              exists li: nat :: li < n && p in Fines(m, c, predict, FineLandAt(m, c, li), SEARCH_STEPS)
  {
    hide Fines, FineLandAt;
    if n > 0 {
      InFineLands(m, c, predict, n - 1, p);
    }
  }

  /** The points searched are exactly the combinations of the four axes that are allowed. */
  lemma OnGridIff(m: Measured, c: Settings, predict: Predictor, p: Point)
    ensures OnGrid(m, c, predict, p) <==>
              && Sized(m, c, p) && Predicts(m, c, predict, p) && Allowed(c, p)
              && exists li: nat, fi: nat, ci: nat, cl: nat :: OnAxes(m, c, p, li, fi, ci, cl)
  {
    hide Sized, Predicts, FineLandAt, FineAt, CoarseAt, CoarseLandAt, FineLandings, FineSpeeds, CoarseSpeeds,
         CoarseLandings,
         PointAt, LadderMax, LadderMin;
    if OnGrid(m, c, predict, p) {
      FromGrid(m, c, predict, p);
    }
    if Sized(m, c, p) && Predicts(m, c, predict, p) && Allowed(c, p)
        && exists li: nat, fi: nat, ci: nat, cl: nat :: OnAxes(m, c, p, li, fi, ci, cl) {
      var li: nat, fi: nat, ci: nat, cl: nat :| OnAxes(m, c, p, li, fi, ci, cl);
      ToGrid(m, c, predict, p, li, fi, ci, cl);
    }
  }

  lemma FromGrid(m: Measured, c: Settings, predict: Predictor, p: Point)
    requires OnGrid(m, c, predict, p)
    ensures Sized(m, c, p) && Predicts(m, c, predict, p) && Allowed(c, p)
    ensures exists li: nat, fi: nat, ci: nat, cl: nat :: OnAxes(m, c, p, li, fi, ci, cl)
  {
    hide Sized, Predicts, FineLandAt, FineAt, CoarseAt, CoarseLandAt, FineLandings, FineSpeeds, CoarseSpeeds,
         CoarseLandings,
         PointAt, LadderMax, LadderMin, FineLands, Fines, Coarses, CoarseLands;
    InFineLands(m, c, predict, LAND_STEPS, p);
    var li: nat :| li < LAND_STEPS && p in Fines(m, c, predict, FineLandAt(m, c, li), SEARCH_STEPS);
    var fineLand := FineLandAt(m, c, li);
    InFines(m, c, predict, fineLand, SEARCH_STEPS, p);
    var fi: nat :| 1 <= fi <= SEARCH_STEPS && fineLand <= FineAt(c, fi)
        && p in Coarses(m, c, predict, fineLand, FineAt(c, fi), SEARCH_STEPS);
    var fine := FineAt(c, fi);
    InCoarses(m, c, predict, fineLand, fine, SEARCH_STEPS, p);
    var ci: nat :| 1 <= ci <= SEARCH_STEPS && CoarseFloor(c) <= CoarseAt(m, c, ci)
        && p in CoarseLands(m, c, predict, fineLand, fine, CoarseAt(m, c, ci), COARSE_LAND_STEPS);
    var coarse := CoarseAt(m, c, ci);
    InCoarseLands(m, c, predict, fineLand, fine, coarse, COARSE_LAND_STEPS, p);
    var cl: nat :| cl < COARSE_LAND_STEPS
        && p == PointAt(m, c, predict, fineLand, fine, coarse, CoarseLandAt(m, c, coarse, cl));
    PointIs(m, c, predict, fineLand, fine, coarse, CoarseLandAt(m, c, coarse, cl));
    FineLandingIs(m, c, li);
    SpeedsAre(m, c, fi);
    SpeedsAre(m, c, ci);
    CoarseLandingIs(m, c, coarse, cl);
    assert OnAxes(m, c, p, li, fi, ci, cl);
  }

  lemma ToGrid(m: Measured, c: Settings, predict: Predictor, p: Point, li: nat, fi: nat, ci: nat, cl: nat)
    requires Sized(m, c, p) && Predicts(m, c, predict, p) && Allowed(c, p) && OnAxes(m, c, p, li, fi, ci, cl)
    ensures OnGrid(m, c, predict, p)
  {
    hide Sized, Predicts, FineLandAt, FineAt, CoarseAt, CoarseLandAt, FineLandings, FineSpeeds, CoarseSpeeds,
         CoarseLandings,
         PointAt, LadderMax, LadderMin, FineLands, Fines, Coarses, CoarseLands;
    PointFrom(m, c, predict, p);
    FineLandingIs(m, c, li);
    SpeedsAre(m, c, fi);
    SpeedsAre(m, c, ci);
    CoarseLandingIs(m, c, p.coarse, cl);
    InCoarseLands(m, c, predict, p.fineLand, p.fine, p.coarse, COARSE_LAND_STEPS, p);
    InCoarses(m, c, predict, p.fineLand, p.fine, SEARCH_STEPS, p);
    InFines(m, c, predict, p.fineLand, SEARCH_STEPS, p);
    InFineLands(m, c, predict, LAND_STEPS, p);
  }

  // ----- what is written down

  /** The fit says of its own profile what the predictor does, and sizes Kp and tail by the speeds chosen. */
  lemma FitIsPredicted(m: Measured, c: Settings, predict: Predictor)
    requires c.goal < UNUSABLE && exists q :: OnGrid(m, c, predict, q) && Usable(q)
    ensures var r := Fit(m, c, predict);
            && r.times == predict(ShapeOf(c, r)) && r.total == r.times.coarse + r.times.fine
            && r.meetsGoal == (r.total <= c.goal)
            && r.fineKp * r.fineTaper == r.fineMax && r.coarseKp * r.coarseTaper == r.coarseMax
            && r.fineTaper >= 0.20 && r.coarseTaper >= 0.50
            && r.tailSd == ScatterAt(m, r.coarseMin)
  {
    hide Choose, OnGrid, StopTail, Flow, Sane, TailSd, Taper, OnAxes;
    var p := Choose(m, c, predict);
    ChoiceIsRight(m, c, predict);
    OnGridIff(m, c, predict, p);
    ChoiceIsSane(m, c, predict);
    SaneLands(m, c, p);
    TapersAtLeast(m, p);
    TimesQuotient(p.fine, p.fineTaper);
    TimesQuotient(p.coarse, p.coarseTaper);
    TailIs(m, Min(p.coarseLand, p.coarse));
  }

  lemma TapersAtLeast(m: Measured, p: Point)
    ensures Taper(0.20, m.fineLag, Flow(m.fineK, p.fine)) >= 0.20
    ensures Taper(0.50, m.coarseLag, Flow(m.coarseK, p.coarse)) >= 0.50
  {
  }

  /** Stop scatter at a coarse landing speed. */
  function ScatterAt(m: Measured, land: real): real {
    m.coarseLagSd * m.coarseK * land
  }

  lemma TailIs(m: Measured, land: real)
    ensures TailSd(m, land) == ScatterAt(m, land)
  {
  }

  lemma TimesQuotient(a: real, b: real)
    requires b > 0.0
    ensures a / b * b == a
  {
  }

  /** With nothing to use on the grid: the slowest of everything, sized as any point is. */
  lemma LastResortIs(m: Measured, c: Settings, predict: Predictor)
    ensures var p := LastResort(m, c, predict);
            && Sized(m, c, p) && Predicts(m, c, predict, p)
            && p.coarse == p.coarseLand == Max(c.coarseMotorMin, 0.05)
            && p.fineLand == SlowestLanding(m, c)
            && p.fine == Max(SlowestLanding(m, c), Min(c.fineCeiling, c.fineMotorMax as real) / 12.0)
  {
    hide Sized, Predicts, PointAt, LandLow, LandHigh, SlowestLanding, FastestLanding, BracketLanding;
    LandingEnds(m, c);
    PointIs(m, c, predict, LandLow(m, c), Max(LandLow(m, c), FineTop(c) / SEARCH_STEPS as real), CoarseFloor(c),
            CoarseFloor(c));
  }

  /**
   One back-off: both landings slower by three tenths down to the motors' minima, the fine tube by fifteen
   hundredths, its taper wider by four tenths, the handoff by three; the bulk's full speed stays, the stop
   scatter goes with its landing speed, and the times are the predictor's for what comes out.
   */
  lemma BackOffIs(r: Result, c: Settings, predict: Predictor)
    requires r.fineTaper > 0.0
    ensures var b := BackOff(r, c, predict);
            && b.fineMin == Max(Max(c.fineMotorMin, 0.05), 0.7 * r.fineMin)
            && b.fineMax == Max(b.fineMin, 0.85 * r.fineMax)
            && b.fineTaper == 1.4 * r.fineTaper && b.fineKp * b.fineTaper == b.fineMax && b.handoff == 1.3 * r.handoff
            && b.coarseMin == Max(Max(c.coarseMotorMin, 0.05), 0.7 * r.coarseMin)
            && b.coarseMax == r.coarseMax && b.coarseKp == r.coarseKp && b.coarseTaper == r.coarseTaper
            && (r.coarseMin > 0.0 ==> b.tailSd * r.coarseMin == r.tailSd * b.coarseMin)
            && b.times == predict(ShapeOf(c, b)) && b.total == b.times.coarse + b.times.fine
            && b.meetsGoal == (b.total <= c.goal)
  {
    hide Flow, Quotient, Scatter;
    var b := BackOff(r, c, predict);
    QuotientTimes(b.fineMax, b.fineTaper);
    if r.coarseMin > 0.0 {
      ScatterTimes(r.tailSd, b.coarseMin, r.coarseMin);
    }
  }

  lemma QuotientTimes(a: real, b: real)
    requires b > 0.0
    ensures Quotient(a, b) * b == a
  {
  }

  lemma ScatterTimes(sd: real, now: real, was: real)
    requires was > 0.0
    ensures Scatter(sd, now, was) * was == sd * now
  {
    var part := now / was;
    assert part * was == now;
    assert sd * part * was == sd * (part * was);
  }
}
