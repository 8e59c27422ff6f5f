/** Fits, with every input written out, that the live tuner does not leave alone. */
module LearnWitness {
  import opened Numeric
  import opened LearnModel
  import opened LearnSafety
  import T = TunerModel
  import L = TunerLimits

  // ----- what the grid holds

  lemma {:induction false} HasCoarseLand(m: Measured, c: Settings, predict: Predictor, fineLand: real, fine: real,
      coarse: real,
                                         cl: nat, n: nat)
    requires cl < n && Legal(c, HandoffFor(m, c, CoarseLandAt(m, c, coarse, cl)))
    ensures PointAt(m, c, predict, fineLand, fine, coarse, CoarseLandAt(m, c, coarse, cl))
         in CoarseLands(m, c, predict, fineLand, fine, coarse, n)
  {
    hide HandoffFor, CoarseLandAt, FineTaperFor, CoarseTaperFor;
    if cl < n - 1 {
      HasCoarseLand(m, c, predict, fineLand, fine, coarse, cl, n - 1);
    }
  }

  lemma HasCoarse(m: Measured, c: Settings, predict: Predictor, fineLand: real, fine: real, p: Point)
    requires CoarseFloor(c) <= CoarseAt(m, c, SEARCH_STEPS)
    requires p in CoarseLands(m, c, predict, fineLand, fine, CoarseAt(m, c, SEARCH_STEPS), COARSE_LAND_STEPS)
    ensures p in Coarses(m, c, predict, fineLand, fine, SEARCH_STEPS)
  {
    hide CoarseLands, CoarseAt, CoarseFloor;
  }

  lemma HasFine(m: Measured, c: Settings, predict: Predictor, fineLand: real, p: Point)
    requires fineLand <= FineAt(c, SEARCH_STEPS)
    requires p in Coarses(m, c, predict, fineLand, FineAt(c, SEARCH_STEPS), SEARCH_STEPS)
    ensures p in Fines(m, c, predict, fineLand, SEARCH_STEPS)
  {
    hide Coarses, FineAt;
  }

  lemma {:induction false} HasFirstLand(m: Measured, c: Settings, predict: Predictor, p: Point, n: nat)
    requires 1 <= n && p in Fines(m, c, predict, FineLandAt(m, c, 0), SEARCH_STEPS)
    ensures p in FineLands(m, c, predict, n)
  {
    hide Fines, FineLandAt;
    if n == 1 {
      assert FineLands(m, c, predict, 0) == [];
    } else {
      HasFirstLand(m, c, predict, p, n - 1);
    }
  }

  /** The fastest tubes, the slowest landings: on the grid when the handoff they ask for is legal. */
  function Corner(m: Measured, c: Settings, predict: Predictor): Point {
    var coarse := CoarseAt(m, c, SEARCH_STEPS);
    PointAt(m, c, predict, FineLandAt(m, c, 0), FineAt(c, SEARCH_STEPS), coarse, CoarseLandAt(m, c, coarse, 0))
  }

  lemma CornerOnGrid(m: Measured, c: Settings, predict: Predictor)
    requires FineLandAt(m, c, 0) <= FineAt(c, SEARCH_STEPS) && CoarseFloor(c) <= CoarseAt(m, c, SEARCH_STEPS)
    requires Legal(c, HandoffFor(m, c, CoarseLandAt(m, c, CoarseAt(m, c, SEARCH_STEPS), 0)))
    ensures OnGrid(m, c, predict, Corner(m, c, predict))
  {
    hide FineLandAt, FineAt, CoarseAt, CoarseLandAt, HandoffFor, PointAt, Fines, Coarses, CoarseLands, FineLands,
         CoarseFloor;
    var fineLand, fine, coarse := FineLandAt(m, c, 0), FineAt(c, SEARCH_STEPS), CoarseAt(m, c, SEARCH_STEPS);
    HasCoarseLand(m, c, predict, fineLand, fine, coarse, 0, COARSE_LAND_STEPS);
    HasCoarse(m, c, predict, fineLand, fine, Corner(m, c, predict));
    HasFine(m, c, predict, fineLand, Corner(m, c, predict));
    HasFirstLand(m, c, predict, Corner(m, c, predict), LAND_STEPS);
  }

  // ----- the inputs

  const MEASURED := Measured(1.0, 0.5, 0.6, 0.5, 0.7, 0.03, 0.03, 0.3, [])

  /** Any throw takes ten seconds. */
  const PREDICTOR: Predictor := s => Times(2.0, 8.0)

  /** A coarse motor whose minimum speed is set above its maximum. */
  const CROSSED := Settings(40.0, 0.02, 20.0, 1.5, 2.0, false, 2.0, 0.05, 1, 5, 5.0, 5.0)

  /** A charge of nine tenths of a grain. */
  const LIGHT := Settings(0.9, 0.02, 20.0, 1.5, 2.0, false, 0.05, 0.05, 5, 5, 5.0, 5.0)

  /** A throw that takes ten seconds is one that can be used. */
  lemma CornerUsable(c: Settings)
    ensures Usable(Corner(MEASURED, c, PREDICTOR))
  {
    hide HandoffFor, FineTaperFor, CoarseTaperFor, FineLandAt, FineAt, CoarseAt, CoarseLandAt;
  }

  lemma FineLandFits(c: Settings)
    requires c == CROSSED || c == LIGHT
    ensures FineLandAt(MEASURED, c, 0) <= FineAt(c, SEARCH_STEPS)
  {
    hide LandCeiling, LandHeuristic;
  }

  lemma CoarseFits(c: Settings)
    requires c == CROSSED || c == LIGHT
    ensures CoarseFloor(c) <= CoarseAt(MEASURED, c, SEARCH_STEPS)
  {
  }

  lemma HandoffFits(c: Settings)
    requires c == CROSSED || c == LIGHT
    ensures Legal(c, HandoffFor(MEASURED, c, CoarseLandAt(MEASURED, c, CoarseAt(MEASURED, c, SEARCH_STEPS), 0)))
  {
  }

  lemma Searched(c: Settings)
    requires c == CROSSED || c == LIGHT
    ensures OnGrid(MEASURED, c, PREDICTOR, Corner(MEASURED, c, PREDICTOR)) && Usable(Corner(MEASURED, c, PREDICTOR))
  {
    hide OnGrid, Corner, Usable, FineLandAt, FineAt, CoarseAt, CoarseLandAt, HandoffFor, CoarseFloor;
    FineLandFits(c);
    CoarseFits(c);
    HandoffFits(c);
    CornerOnGrid(MEASURED, c, PREDICTOR);
    CornerUsable(c);
  }

  /** With the motor's limits crossed the tuner moves the fitted coarse speed at the first throw. */
  lemma FitIsMoved()
    ensures var r := Fit(MEASURED, CROSSED, PREDICTOR);
            TunerReady(CROSSED, r) && !L.Fixed(ProfileOf(r), EnvFor(CROSSED, r, 40.0), ProfileOf(r))
  {
    hide Fit, TunerReady, L.Fixed, OnGrid, Corner;
    Searched(CROSSED);
    FitIsFixedIff(MEASURED, CROSSED, PREDICTOR, 40.0);
  }

  /** For a light charge two back-offs widen the handoff past half of it, and the tuner pulls it back. */
  lemma BackedOffIsMoved()
    ensures var r := Fit(MEASURED, LIGHT, PREDICTOR);
            && r.fineTaper > 0.0
            && var b := BackOffs(r, LIGHT, PREDICTOR, 2);
            && TunerReady(LIGHT, b) && !L.Fixed(ProfileOf(b), EnvFor(LIGHT, b, 0.9), ProfileOf(b))
  {
    hide Choose, TunerReady, L.Fixed, OnGrid, Corner, BackOffs;
    Searched(LIGHT);
    BackedOffIsFixedIff(MEASURED, LIGHT, PREDICTOR, 2, 0.9);
    ChoiceHasMargin(MEASURED, LIGHT, PREDICTOR);
    assert Widened(2) == 1.3 * (1.3 * 1.0) by {
      assert Widened(1) == 1.3 * Widened(0);
    }
    assert Fit(MEASURED, LIGHT, PREDICTOR).handoff >= 0.30;
  }
}
