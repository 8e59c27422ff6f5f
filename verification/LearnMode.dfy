/** The Learn routine as the firmware runs it: the search as nested loops, the result edited in place. */
module LearnMode {
  import opened Numeric
  import opened Statistics
  import opened LearnModel
  import opened LearnSafety

  /** What a round of confirmation throws gave: stopped, or passes out of throws. */
  datatype Round = Aborted | Counted(pass: nat, total: nat)

  class Learn {
    var result: Result
    var resultValid: bool
    var profile: Result        // what was last written to the selected profile
    var rounds: nat
    var met: bool

    constructor (r: Result)
      ensures !resultValid && rounds == 0 && !met
    {
      result, profile, resultValid, rounds, met := r, r, false, 0, false;
    }

    /** fit_flow_per_rps. */
    method FlowFit(ts: seq<Sample>) returns (k: real)
      ensures k == FlowPerRps(ts)
      ensures Den(ts) > 0.0 ==> forall j: real :: Misfit(ts, k) <= Misfit(ts, j)
    {
      hide Misfit;
      var num, den := 0.0, 0.0;
      var i := 0;
      while i < |ts|
        invariant i <= |ts| && num == Num(ts[..i]) && den == Den(ts[..i])
      {
        assert ts[..i + 1][..i] == ts[..i];
        if ts[i].timeS > 0.0 {
          num := num + Product(ts[i].flow, ts[i].speed);
          den := den + Product(ts[i].speed, ts[i].speed);
        }
        i := i + 1;
      }
      assert ts[..i] == ts;
      k := if den > 0.0 then num / den else 0.0;
      forall j: real | Den(ts) > 0.0
        ensures Misfit(ts, k) <= Misfit(ts, j)
      {
        FlowIsLeastSquares(ts, j);
      }
    }

    /** The slowest and the fastest rung that ran. */
    method LadderEnds(ladder: seq<Rung>) returns (slow: real, fast: real)
      ensures slow == LadderMin(ladder) && fast == LadderMax(ladder)
    {
      slow, fast := 0.0, 0.0;
      var i := 0;
      while i < |ladder|
        invariant i <= |ladder| && slow == LadderMin(ladder[..i]) && fast == LadderMax(ladder[..i])
      {
        assert ladder[..i + 1][..i] == ladder[..i];
        if ladder[i].timeS > 0.0 && ladder[i].speed > fast { fast := ladder[i].speed; }
        if ladder[i].timeS > 0.0 && (slow <= 0.0 || ladder[i].speed < slow) { slow := ladder[i].speed; }
        i := i + 1;
      }
      assert ladder[..i] == ladder;
    }

    /** One point against the leaders. */
    method Weigh(l: Leaders, goal: real, p: Point) returns (r: Leaders)
      ensures r == Consider(l, goal, p)
    {
      r := l;
      var better := !l.found;
      if l.found && p.handoff < l.best.handoff - 0.001 {
        better := true;
      } else if l.found && p.handoff < l.best.handoff + 0.001 {
        if p.fineLand < l.best.fineLand - 0.0001 {
          better := true;
        } else if p.fineLand < l.best.fineLand + 0.0001 && p.total < l.best.total {
          better := true;
        }
      }
      if p.total <= goal && better { r := r.(found := true, best := p); }
      if p.total < r.fastest.total { r := r.(fastest := p); }
    }

    method SearchCoarseLands(m: Measured, c: Settings, predict: Predictor, fineLand: real, fine: real, coarse: real,
                             low: real, l: Leaders)
      returns (r: Leaders)
      requires low == CoarseLandLow(m, c)
      ensures r == Survey(l, c.goal, CoarseLands(m, c, predict, fineLand, fine, coarse, COARSE_LAND_STEPS))
    {
      hide Consider, PointAt, LandAbove, CoarseLandLow, CoarseLands, Survey;
      NoCoarseLands(m, c, predict, fineLand, fine, coarse, l);
      r := l;
      var cl := 0;
      while cl < COARSE_LAND_STEPS
        invariant cl <= COARSE_LAND_STEPS
        invariant r == Survey(l, c.goal, CoarseLands(m, c, predict, fineLand, fine, coarse, cl))
      {
        var p := PointAt(m, c, predict, fineLand, fine, coarse, LandAbove(c, low, coarse, cl));
        ghost var before := CoarseLands(m, c, predict, fineLand, fine, coarse, cl);
        OneMoreLand(m, c, predict, fineLand, fine, coarse, low, cl);
        cl := cl + 1;
        if p.handoff >= 0.5 * c.target {
          assert before + [] == before;
          continue;
        }
        SurveyOne(l, c.goal, before, p);
        r := Weigh(r, c.goal, p);
      }
    }

    method SearchCoarses(m: Measured, c: Settings, predict: Predictor, fineLand: real, fine: real, low: real,
        top: real, l: Leaders)
      returns (r: Leaders)
      requires low == CoarseLandLow(m, c) && top == CoarseTop(m, c)
      ensures r == Survey(l, c.goal, Coarses(m, c, predict, fineLand, fine, SEARCH_STEPS))
    {
      hide CoarseLands, PartOf, CoarseFloor, CoarseTop, CoarseLandLow;
      r := l;
      var ci := 1;
      while ci <= SEARCH_STEPS
        invariant 1 <= ci <= SEARCH_STEPS + 1
        invariant r == Survey(l, c.goal, Coarses(m, c, predict, fineLand, fine, ci - 1))
      {
        var coarse := PartOf(top, ci);
        ghost var before := Coarses(m, c, predict, fineLand, fine, ci - 1);
        ci := ci + 1;
        if coarse < CoarseFloor(c) {
          assert before + [] == before;
          continue;
        }
        SurveyConcat(l, c.goal, before, CoarseLands(m, c, predict, fineLand, fine, coarse, COARSE_LAND_STEPS));
        r := SearchCoarseLands(m, c, predict, fineLand, fine, coarse, low, r);
      }
    }

    method SearchFines(m: Measured, c: Settings, predict: Predictor, fineLand: real, low: real, top: real, l: Leaders)
      returns (r: Leaders)
      requires low == CoarseLandLow(m, c) && top == CoarseTop(m, c)
      ensures r == Survey(l, c.goal, Fines(m, c, predict, fineLand, SEARCH_STEPS))
    {
      hide Coarses, FineAt, CoarseTop, CoarseLandLow;
      r := l;
      var fi := 1;
      while fi <= SEARCH_STEPS
        invariant 1 <= fi <= SEARCH_STEPS + 1
        invariant r == Survey(l, c.goal, Fines(m, c, predict, fineLand, fi - 1))
      {
        var fine := FineAt(c, fi);
        ghost var before := Fines(m, c, predict, fineLand, fi - 1);
        fi := fi + 1;
        if fine < fineLand {
          assert before + [] == before;
          continue;
        }
        SurveyConcat(l, c.goal, before, Coarses(m, c, predict, fineLand, fine, SEARCH_STEPS));
        r := SearchCoarses(m, c, predict, fineLand, fine, low, top, r);
      }
    }

    method Search(m: Measured, c: Settings, predict: Predictor) returns (r: Leaders)
      ensures r == Survey(Start(m, c), c.goal, Grid(m, c, predict))
    {
      hide Fines, FineLandAt, Start;
      var slow, fast := LadderEnds(m.ladder);
      var low, top := Max(CoarseFloor(c), slow), TopFrom(c, fast);
      var l := Start(m, c);
      r := l;
      var li := 0;
      while li < LAND_STEPS
        invariant li <= LAND_STEPS && r == Survey(l, c.goal, FineLands(m, c, predict, li))
      {
        var fineLand := FineLandAt(m, c, li);
        SurveyConcat(l, c.goal, FineLands(m, c, predict, li), Fines(m, c, predict, fineLand, SEARCH_STEPS));
        r := SearchFines(m, c, predict, fineLand, low, top, r);
        li := li + 1;
      }
    }

    /** fit_profile. */
    method FitProfile(m: Measured, c: Settings, predict: Predictor)
      modifies this`result, this`resultValid
      ensures result == Fit(m, c, predict) && resultValid
    {
      hide Grid, Survey, LastResort, ResultOf, Start;
      var l := Search(m, c, predict);
      var best := l.best;
      if !l.found { best := l.fastest; }
      if best.total >= UNUSABLE { best := LastResort(m, c, predict); }
      result := ResultOf(m, c, best);
      resultValid := true;
    }

    /** back_off_profile. */
    method SlowDown(c: Settings, predict: Predictor)
      requires result.fineTaper > 0.0
      modifies this`result
      ensures result == BackOff(old(result), c, predict)
    {
      hide Max, FineFloor, CoarseFloor, ShapeOf, Quotient, Scatter;
      var r := result;
      result := result.(fineMin := Max(FineFloor(c), r.fineMin * 0.7));
      result := result.(fineMax := Max(result.fineMin, r.fineMax * 0.85));
      result := result.(fineTaper := r.fineTaper * 1.4);
      result := result.(fineKp := Quotient(result.fineMax, result.fineTaper));
      result := result.(handoff := r.handoff * 1.3);
      result := result.(coarseMin := Max(CoarseFloor(c), r.coarseMin * 0.7));
      if r.coarseMin > 0.0 { result := result.(tailSd := Scatter(r.tailSd, result.coarseMin, r.coarseMin)); }
      var t := predict(ShapeOf(c, result));
      result := result.(times := t, total := t.coarse + t.fine, meetsGoal := t.coarse + t.fine <= c.goal);
    }

    method ApplyToProfile() returns (ok: bool)
      modifies this`profile
      ensures ok == resultValid && profile == if ok then result else old(profile)
    {
      if !resultValid { return false; }
      profile := result;
      return true;
    }

    /**
     The confirmation rounds: `outcome(k)` is what round k gave. Each round measures the profile as it
     was then written, a missed round but the last backs it off once, and the profile left at the end
     is the one that the last round measured.
     */
    method Confirm(c: Settings, predict: Predictor, throwsPerRound: nat, minSuccess: real, outcome: nat -> Round)
      returns (ok: bool, ghost measured: seq<Result>)
      requires resultValid && profile == result && result.fineTaper > 0.0
      modifies this`result, this`profile, this`rounds, this`met
      ensures 1 <= rounds <= 3 && |measured| == rounds
      ensures forall k :: 0 <= k < rounds ==> measured[k] == BackOffs(old(result), c, predict, k)
      ensures profile == result == measured[rounds - 1]
      ensures met <==> ok && Success(throwsPerRound, outcome(rounds), minSuccess)
      ensures ok <==> outcome(rounds) != Aborted
      ensures forall k :: 1 <= k < rounds ==> outcome(k) != Aborted && !Success(throwsPerRound, outcome(k), minSuccess)
      ensures rounds < 3 && ok ==> met
    {
      hide BackOff;
      ok, rounds, met, measured := true, 0, false, [];
      while true
        invariant rounds < MAX_ROUNDS && ok && !met && resultValid && profile == result && |measured| == rounds
        invariant result == BackOffs(old(result), c, predict, rounds)
        invariant forall k :: 0 <= k < rounds ==> measured[k] == BackOffs(old(result), c, predict, k)
        invariant forall k :: 1 <= k <= rounds ==>
                  outcome(k) != Aborted && !Success(throwsPerRound, outcome(k), minSuccess)
        decreases MAX_ROUNDS - rounds
      {
        rounds := rounds + 1;
        measured := measured + [profile];
        var r := outcome(rounds);
        if r == Aborted {
          ok := false;
          break;
        }
        if throwsPerRound == 0 {
          met := true;
          break;
        }
        if RateOf(r) + 0.01 >= minSuccess {
          met := true;
          break;
        }
        if rounds == MAX_ROUNDS { break; }
        SlowDown(c, predict);
        var _ := ApplyToProfile();
      }
    }
  }

  const MAX_ROUNDS: nat := 3

  /** Passes in percent of the throws; a counted round has at least one when any are configured. */
  function RateOf(r: Round): real {
    if r.Counted? && r.total > 0 then 100.0 * r.pass as real / r.total as real else 0.0
  }

  predicate Success(throwsPerRound: nat, r: Round, minSuccess: real) {
    throwsPerRound == 0 || RateOf(r) + 0.01 >= minSuccess
  }

  /** A round is a success when at least that many of a hundred throws pass, to a hundredth. */
  lemma SuccessIs(throwsPerRound: nat, pass: nat, total: nat, minSuccess: real)
    requires total > 0
    ensures Success(throwsPerRound, Counted(pass, total), minSuccess) <==>
              throwsPerRound == 0 || 100.0 * pass as real >= (minSuccess - 0.01) * total as real
  {
    var n, rate := total as real, 100.0 * pass as real / total as real;
    assert rate * n == 100.0 * pass as real;
    if rate >= minSuccess - 0.01 {
      NotLess(rate, minSuccess - 0.01, n);
    } else {
      Less(rate, minSuccess - 0.01, n);
    }
  }

  lemma NotLess(a: real, b: real, n: real)
    requires a >= b && n > 0.0
    ensures a * n >= b * n
  {
  }

  lemma Less(a: real, b: real, n: real)
    requires a < b && n > 0.0
    ensures a * n < b * n
  {
  }

  lemma NoCoarseLands(m: Measured, c: Settings, predict: Predictor, fineLand: real, fine: real, coarse: real,
                      l: Leaders)
    ensures Survey(l, c.goal, CoarseLands(m, c, predict, fineLand, fine, coarse, 0)) == l
  {
  }

  lemma OneMoreLand(m: Measured, c: Settings, predict: Predictor, fineLand: real, fine: real, coarse: real, low: real,
                    cl: nat)
    requires low == CoarseLandLow(m, c)
    ensures var p := PointAt(m, c, predict, fineLand, fine, coarse, LandAbove(c, low, coarse, cl));
            CoarseLands(m, c, predict, fineLand, fine, coarse, cl + 1)
            == CoarseLands(m, c, predict, fineLand, fine, coarse, cl) + if p.handoff >= 0.5 * c.target then [] else [p]
  {
    hide PointAt, LandAbove, CoarseLandLow;
  }

  lemma SurveyOne(l: Leaders, goal: real, ps: seq<Point>, p: Point)
    ensures Survey(l, goal, ps + [p]) == Consider(Survey(l, goal, ps), goal, p)
  {
    assert (ps + [p])[..|ps|] == ps;
  }

  lemma {:induction false} SurveyConcat(l: Leaders, goal: real, ps: seq<Point>, qs: seq<Point>)
    ensures Survey(l, goal, ps + qs) == Survey(Survey(l, goal, ps), goal, qs)
  {
    hide Consider;
    if qs == [] {
      assert ps + qs == ps;
    } else {
      assert (ps + qs)[..|ps + qs| - 1] == ps + qs[..|qs| - 1];
      SurveyConcat(l, goal, ps, qs[..|qs| - 1]);
    }
  }
}
