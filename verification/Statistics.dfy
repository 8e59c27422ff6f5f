/** Sums, least squares and the one-pass variance, as the fit and the session log compute them. */
module Statistics {

  function Sq(x: real): real {
    x * x
  }

  function Sum(xs: seq<real>): real {
    if xs == [] then 0.0 else Sum(xs[..|xs| - 1]) + xs[|xs| - 1]
  }

  function SumSq(xs: seq<real>): real {
    if xs == [] then 0.0 else SumSq(xs[..|xs| - 1]) + Sq(xs[|xs| - 1])
  }

  /** Squared distance of the whole list from one value. */
  function Spread(xs: seq<real>, c: real): real {
    if xs == [] then 0.0 else Spread(xs[..|xs| - 1], c) + Sq(xs[|xs| - 1] - c)
  }

  /** The same from the sums. */
  function Expanded(sumSq: real, sum: real, n: real, c: real): real {
    sumSq - 2.0 * c * sum + n * c * c
  }

  /** The numerator that the firmware computes. */
  function Numerator(sumSq: real, n: real, mean: real): real {
    sumSq - n * mean * mean
  }

  lemma OneMoreValue(sumSq: real, sum: real, n: real, x: real, c: real)
    ensures Expanded(sumSq, sum, n, c) + Sq(x - c) == Expanded(sumSq + Sq(x), sum + x, n + 1.0, c)
  {
    assert (x - c) * (x - c) == x * x - 2.0 * c * x + c * c;
    assert (n + 1.0) * c * c == n * c * c + c * c;
    assert 2.0 * c * (sum + x) == 2.0 * c * sum + 2.0 * c * x;
  }

  lemma SquareNonNegative(x: real)
    ensures Sq(x) >= 0.0
  {
  }

  lemma NothingExpands(c: real)
    ensures Expanded(0.0, 0.0, 0.0, c) == 0.0
  {
  }

  lemma {:induction false} SpreadExpands(xs: seq<real>, c: real)
    ensures Spread(xs, c) == Expanded(SumSq(xs), Sum(xs), |xs| as real, c) && Spread(xs, c) >= 0.0
  {
    hide Sq, Expanded;
    if xs == [] {
      NothingExpands(c);
    } else {
      var n, x := |xs| - 1, xs[|xs| - 1];
      SpreadExpands(xs[..n], c);
      OneMoreValue(SumSq(xs[..n]), Sum(xs[..n]), n as real, x, c);
      SquareNonNegative(x - c);
    }
  }

  lemma AtTheMean(sumSq: real, sum: real, n: real, mean: real)
    requires n > 0.0 && mean == sum / n
    ensures Expanded(sumSq, sum, n, mean) == Numerator(sumSq, n, mean)
  {
    assert sum == n * mean;
    assert 2.0 * mean * sum == 2.0 * (n * mean * mean);
  }

  lemma QuotientNonNegative(a: real, b: real)
    requires a >= 0.0 && b > 0.0
    ensures a / b >= 0.0
  {
  }

  /** The variance from running sums is the one from the list itself, and so it is not negative. */
  lemma OnePassIsTwoPass(xs: seq<real>, mean: real)
    requires |xs| >= 2 && mean == Sum(xs) / |xs| as real
    ensures Numerator(SumSq(xs), |xs| as real, mean) / (|xs| - 1) as real == Spread(xs, mean) / (|xs| - 1) as real
    ensures Numerator(SumSq(xs), |xs| as real, mean) / (|xs| - 1) as real >= 0.0
  {
    hide Numerator, Expanded;
    SpreadExpands(xs, mean);
    AtTheMean(SumSq(xs), Sum(xs), |xs| as real, mean);
    QuotientNonNegative(Spread(xs, mean), (|xs| - 1) as real);
  }

  // ----- least squares through the origin

  /** One calibration throw: how long it ran, its speed and its flow. */
  datatype Sample = Sample(timeS: real, speed: real, flow: real)

  function Product(a: real, b: real): real {
    a * b
  }

  function Num(ts: seq<Sample>): real {
    if ts == [] then 0.0
    else
      var t := ts[|ts| - 1];
      Num(ts[..|ts| - 1]) + if t.timeS <= 0.0 then 0.0 else Product(t.flow, t.speed)
  }

  function Den(ts: seq<Sample>): real {
    if ts == [] then 0.0
    else
      var t := ts[|ts| - 1];
      Den(ts[..|ts| - 1]) + if t.timeS <= 0.0 then 0.0 else Product(t.speed, t.speed)
  }

  function FlowPerRps(ts: seq<Sample>): real {
    if Den(ts) > 0.0 then Num(ts) / Den(ts) else 0.0
  }

  function Miss(t: Sample, k: real): real {
    Sq(t.flow - k * t.speed)
  }

  /** How far the throws that ran are from flow = k times speed. */
  function Misfit(ts: seq<Sample>, k: real): real {
    if ts == [] then 0.0
    else
      var t := ts[|ts| - 1];
      Misfit(ts[..|ts| - 1], k) + if t.timeS <= 0.0 then 0.0 else Miss(t, k)
  }

  /** How much worse j fits than k. */
  function Loss(den: real, num: real, k: real, j: real): real {
    (j - k) * (j + k) * den - 2.0 * (j - k) * num
  }

  lemma OneMoreThrow(den: real, num: real, t: Sample, k: real, j: real)
    ensures Loss(den, num, k, j) + Miss(t, j) - Miss(t, k)
         == Loss(den + Product(t.speed, t.speed), num + Product(t.flow, t.speed), k, j)
  {
    var f, s := t.flow, t.speed;
    var x := (j - k) * (j + k);
    assert (f - j * s) * (f - j * s) == f * f - 2.0 * j * (f * s) + j * j * (s * s);
    assert (f - k * s) * (f - k * s) == f * f - 2.0 * k * (f * s) + k * k * (s * s);
    assert x == j * j - k * k;
    assert x * (s * s) == j * j * (s * s) - k * k * (s * s);
    assert x * (den + s * s) == x * den + x * (s * s);
    assert (j - k) * (num + f * s) == (j - k) * num + (j - k) * (f * s);
    assert (j - k) * (f * s) == j * (f * s) - k * (f * s);
  }

  lemma NoLoss(k: real, j: real)
    ensures Loss(0.0, 0.0, k, j) == 0.0
  {
  }

  lemma {:induction false} MisfitDifference(ts: seq<Sample>, k: real, j: real)
    ensures Misfit(ts, j) - Misfit(ts, k) == Loss(Den(ts), Num(ts), k, j)
  {
    hide Loss, Miss, Product;
    if ts == [] {
      NoLoss(k, j);
    } else {
      var n, t := |ts| - 1, ts[|ts| - 1];
      MisfitDifference(ts[..n], k, j);
      OneMoreThrow(Den(ts[..n]), Num(ts[..n]), t, k, j);
    }
  }

  /** No other flow per rps fits the throws better. */
  lemma FlowIsLeastSquares(ts: seq<Sample>, j: real)
    requires Den(ts) > 0.0
    ensures Misfit(ts, FlowPerRps(ts)) <= Misfit(ts, j)
  {
    hide Loss, Num, Den, Misfit;
    var k, d := FlowPerRps(ts), Den(ts);
    MisfitDifference(ts, k, j);
    LossAtBest(d, Num(ts), k, j);
  }

  lemma LossAtBest(d: real, num: real, k: real, j: real)
    requires d > 0.0 && k == num / d
    ensures Loss(d, num, k, j) >= 0.0
  {
    var x := j - k;
    assert num == k * d;
    assert x * (j + k) * d - 2.0 * x * (k * d) == x * x * d;
    assert x * x >= 0.0;
  }

  lemma {:induction false} FlowNonNegative(ts: seq<Sample>)
    requires forall t :: t in ts ==> t.speed >= 0.0 && t.flow >= 0.0
    ensures Num(ts) >= 0.0 && FlowPerRps(ts) >= 0.0
  {
    if ts != [] {
      FlowNonNegative(ts[..|ts| - 1]);
    }
    if Den(ts) > 0.0 {
      QuotientNonNegative(Num(ts), Den(ts));
    }
  }
}
