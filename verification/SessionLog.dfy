/**
 * The session log (src/session_stats.c): a ring of the last throws and running totals over all of
 * them. Counters wrap at 32 bits; sums are exact.
 */
module SessionLog {
  import opened Options
  import opened Statistics

  const SESSION_LOG_MAX: nat := 400
  const WORD: nat := 0x1_0000_0000

  /** A 32-bit counter. */
  function Wrap(n: nat): nat {
    n % WORD
  }

  lemma WrapSteps(n: nat)
    ensures Wrap(Wrap(n) + 1) == Wrap(n + 1)
  {
  }

  lemma WrapSmall(n: nat)
    requires n < WORD
    ensures Wrap(n) == n && Wrap(n + 1) == (if n + 1 == WORD then 0 else n + 1)
  {
  }

  lemma WrapAddsUp(a: nat, b: nat, c: nat)
    ensures Wrap(Wrap(a) + Wrap(b) + Wrap(c)) == Wrap(a + b + c)
  {
    var d := Wrap(a) + Wrap(b) + Wrap(c);
    assert a + b + c == d + WORD * (a / WORD + b / WORD + c / WORD);
    WrapShift(d, a / WORD + b / WORD + c / WORD);
  }

  lemma {:induction false} WrapShift(d: nat, k: nat)
    ensures Wrap(d + WORD * k) == Wrap(d)
  {
    if k > 0 {
      WrapShift(d, k - 1);
    }
  }

  datatype Result = Pass | Under | Over

  /** What is handed over after a throw, and when. */
  datatype Throw = Throw(target: real, actual: real, totalS: real, coarseS: real, bracket: real,
                         result: Result, profile: nat, mode: nat, uptimeMs: nat)

  datatype Record = Record(number: nat, thrown: Throw)

  // ----- the session as a list

  function Errors(ts: seq<Throw>): (r: seq<real>)
    ensures |r| == |ts|
  {
    seq(|ts|, k requires 0 <= k < |ts| => ts[k].actual - ts[k].target)
  }

  function Times(ts: seq<Throw>): (r: seq<real>)
    ensures |r| == |ts|
  {
    seq(|ts|, k requires 0 <= k < |ts| => ts[k].totalS)
  }

  function Count(ts: seq<Throw>, result: Result): (n: nat)
    ensures n <= |ts|
  {
    if ts == [] then 0 else Count(ts[..|ts| - 1], result) + if ts[|ts| - 1].result == result then 1 else 0
  }

  /** The record of the k-th throw of the session. */
  function RecordOf(ts: seq<Throw>, k: nat): Record
    requires k < |ts|
  {
    Record(Wrap(k + 1), ts[k])
  }

  function Kept(ts: seq<Throw>): nat {
    if |ts| < SESSION_LOG_MAX then |ts| else SESSION_LOG_MAX
  }

  /** The last four hundred. */
  lemma KeptIs(ts: seq<Throw>)
    ensures Kept(ts) == if |ts| < 400 then |ts| else 400
  {
  }

  /** `least` is among the values and not above any of them. */
  ghost predicate IsLeast(xs: seq<real>, least: real) {
    (exists k :: 0 <= k < |xs| && xs[k] == least) && forall k :: 0 <= k < |xs| ==> least <= xs[k]
  }

  ghost predicate IsGreatest(xs: seq<real>, greatest: real) {
    (exists k :: 0 <= k < |xs| && xs[k] == greatest) && forall k :: 0 <= k < |xs| ==> xs[k] <= greatest
  }

  lemma {:induction false} EveryThrowCounts(ts: seq<Throw>)
    ensures Count(ts, Pass) + Count(ts, Under) + Count(ts, Over) == |ts|
  {
    if ts != [] {
      EveryThrowCounts(ts[..|ts| - 1]);
    }
  }

  lemma LogOneMore(ts: seq<Throw>, t: Throw)
    ensures Errors(ts + [t]) == Errors(ts) + [t.actual - t.target]
    ensures Times(ts + [t]) == Times(ts) + [t.totalS]
    ensures forall r :: Count(ts + [t], r) == Count(ts, r) + if t.result == r then 1 else 0
  {
    assert (ts + [t])[..|ts|] == ts;
  }

  lemma SumOneMore(xs: seq<real>, x: real)
    ensures Sum(xs + [x]) == Sum(xs) + x && SumSq(xs + [x]) == SumSq(xs) + Sq(x)
  {
    assert (xs + [x])[..|xs|] == xs;
  }

  lemma LeastOneMore(xs: seq<real>, least: real, x: real)
    requires IsLeast(xs, least)
    ensures IsLeast(xs + [x], if x < least then x else least)
  {
    var k :| 0 <= k < |xs| && xs[k] == least;
    assert (xs + [x])[k] == least && (xs + [x])[|xs|] == x;
  }

  lemma GreatestOneMore(xs: seq<real>, greatest: real, x: real)
    requires IsGreatest(xs, greatest)
    ensures IsGreatest(xs + [x], if x > greatest then x else greatest)
  {
    var k :| 0 <= k < |xs| && xs[k] == greatest;
    assert (xs + [x])[k] == greatest && (xs + [x])[|xs|] == x;
  }

  lemma {:induction false} SumBetween(xs: seq<real>, lo: real, hi: real)
    requires forall k :: 0 <= k < |xs| ==> lo <= xs[k] <= hi
    ensures lo * |xs| as real <= Sum(xs) <= hi * |xs| as real
  {
    if xs != [] {
      SumBetween(xs[..|xs| - 1], lo, hi);
      var n := (|xs| - 1) as real;
      assert |xs| as real == n + 1.0;
      assert lo * (n + 1.0) == lo * n + lo && hi * (n + 1.0) == hi * n + hi;
    }
  }

  /** The average time lies between the shortest and the longest. */
  lemma AverageBetween(xs: seq<real>, lo: real, hi: real)
    requires xs != [] && IsLeast(xs, lo) && IsGreatest(xs, hi)
    ensures lo <= Sum(xs) / |xs| as real <= hi
  {
    SumBetween(xs, lo, hi);
    QuotientBetween(Sum(xs), |xs| as real, lo, hi);
  }

  lemma QuotientBetween(a: real, n: real, lo: real, hi: real)
    requires n > 0.0 && lo * n <= a <= hi * n
    ensures lo <= a / n <= hi
  {
    MultiplyBack(a, n);
    AtLeast(n, a / n, lo);
    AtLeast(n, hi, a / n);
  }

  lemma MultiplyBack(a: real, n: real)
    requires n > 0.0
    ensures (a / n) * n == a
  {
  }

  lemma AtLeast(n: real, x: real, y: real)
    requires n > 0.0 && x * n >= y * n
    ensures x >= y
  {
    assert (x - y) * n >= 0.0;
  }

  /** The sample variance of the errors of a session, in two passes. */
  ghost function Variance(xs: seq<real>): real
    requires |xs| >= 2
  {
    Spread(xs, Sum(xs) / |xs| as real) / (|xs| - 1) as real
  }

  // ----- the running totals

  datatype Summary = Summary(total: nat, pass: nat, under: nat, over: nat, sumTime: real, sumErr: real, sumErrSq: real,
                             minTime: real, maxTime: real, startMs: nat, lastMs: nat)

  function Counted(s: Summary, result: Result): nat {
    match result case Pass => s.pass case Under => s.under case Over => s.over
  }

  ghost predicate CountsOf(s: Summary, ts: seq<Throw>) {
    s.total == Wrap(|ts|) && forall r :: Counted(s, r) == Wrap(Count(ts, r))
  }

  ghost predicate SumsOf(s: Summary, ts: seq<Throw>) {
    s.sumTime == Sum(Times(ts)) && s.sumErr == Sum(Errors(ts)) && s.sumErrSq == SumSq(Errors(ts))
  }

  ghost predicate ExtremesOf(s: Summary, ts: seq<Throw>) {
    0 < |ts| < WORD ==> IsLeast(Times(ts), s.minTime) && IsGreatest(Times(ts), s.maxTime)
  }

  /** The totals are those of the whole session. */
  ghost predicate SummaryOf(s: Summary, ts: seq<Throw>) {
    && CountsOf(s, ts) && SumsOf(s, ts) && ExtremesOf(s, ts)
    && (ts != [] ==> s.lastMs == ts[|ts| - 1].uptimeMs)
  }

  const NOTHING := Summary(0, 0, 0, 0, 0.0, 0.0, 0.0, 0.0, 0.0, 0, 0)

  lemma NothingYet(now: nat)
    ensures SummaryOf(NOTHING.(startMs := now), [])
  {
  }

  function Bump(s: Summary, result: Result): Summary {
    match result
    case Pass => s.(pass := Wrap(s.pass + 1))
    case Under => s.(under := Wrap(s.under + 1))
    case Over => s.(over := Wrap(s.over + 1))
  }

  /** The totals after one more throw. */
  function Added(s: Summary, t: Throw): Summary {
    var err := t.actual - t.target;
    var n := Wrap(s.total + 1);
    Bump(s, t.result).(total := n, sumTime := s.sumTime + t.totalS, sumErr := s.sumErr + err,
                       sumErrSq := s.sumErrSq + Sq(err), lastMs := t.uptimeMs,
                       minTime := if n == 1 || t.totalS < s.minTime then t.totalS else s.minTime,
                       maxTime := if n == 1 || t.totalS > s.maxTime then t.totalS else s.maxTime)
  }

  lemma CountsAdded(s: Summary, ts: seq<Throw>, t: Throw)
    requires CountsOf(s, ts)
    ensures CountsOf(Added(s, t), ts + [t])
  {
    hide Wrap, Count;
    WrapSteps(|ts|);
    LogOneMore(ts, t);
    WrapSteps(Count(ts, t.result));
  }

  lemma SumsAdded(s: Summary, ts: seq<Throw>, t: Throw)
    requires SumsOf(s, ts)
    ensures SumsOf(Added(s, t), ts + [t])
  {
    hide Wrap, Count, Sum, SumSq, Sq, Times, Errors;
    LogOneMore(ts, t);
    SumOneMore(Times(ts), t.totalS);
    SumOneMore(Errors(ts), t.actual - t.target);
  }

  lemma OneIsLeast(x: real)
    ensures IsLeast([x], x) && IsGreatest([x], x)
  {
    assert [x][0] == x;
  }

  lemma ExtremesAdded(s: Summary, ts: seq<Throw>, t: Throw)
    requires s.total == Wrap(|ts|) && ExtremesOf(s, ts)
    ensures ExtremesOf(Added(s, t), ts + [t])
  {
    hide Wrap, Count, Sum, SumSq, Sq, Times, Errors, IsLeast, IsGreatest;
    LogOneMore(ts, t);
    if |ts| + 1 < WORD {
      WrapSmall(|ts|);
      if ts == [] {
        assert Times(ts) + [t.totalS] == [t.totalS];
        OneIsLeast(t.totalS);
      } else {
        LeastOneMore(Times(ts), s.minTime, t.totalS);
        GreatestOneMore(Times(ts), s.maxTime, t.totalS);
      }
    }
  }

  lemma SummaryAdded(s: Summary, ts: seq<Throw>, t: Throw)
    requires SummaryOf(s, ts)
    ensures SummaryOf(Added(s, t), ts + [t])
  {
    hide CountsOf, SumsOf, ExtremesOf;
    CountsAdded(s, ts, t);
    SumsAdded(s, ts, t);
    TotalOf(s, ts);
    ExtremesAdded(s, ts, t);
  }

  lemma TotalOf(s: Summary, ts: seq<Throw>)
    requires CountsOf(s, ts)
    ensures s.total == Wrap(|ts|) && s.pass == Wrap(Count(ts, Pass))
  {
    assert Counted(s, Pass) == Wrap(Count(ts, Pass));
  }

  /** Every throw is counted once, and in one of the three. */
  lemma CountsAddUp(s: Summary, ts: seq<Throw>)
    requires SummaryOf(s, ts)
    ensures Wrap(s.pass + s.under + s.over) == s.total
    ensures |ts| < WORD ==> s.pass + s.under + s.over == s.total == |ts|
  {
    hide SumsOf, ExtremesOf, Wrap, Count;
    assert Counted(s, Pass) == Wrap(Count(ts, Pass));
    assert Counted(s, Under) == Wrap(Count(ts, Under));
    assert Counted(s, Over) == Wrap(Count(ts, Over));
    EveryThrowCounts(ts);
    WrapAddsUp(Count(ts, Pass), Count(ts, Under), Count(ts, Over));
    if |ts| < WORD {
      WrapSmall(|ts|);
      WrapSmall(Count(ts, Pass));
      WrapSmall(Count(ts, Under));
      WrapSmall(Count(ts, Over));
    }
  }

  // ----- what is read off the totals

  function AverageTime(s: Summary): real {
    if s.total == 0 then 0.0 else s.sumTime / s.total as real
  }

  function SuccessRate(s: Summary): real {
    if s.total == 0 then 0.0 else 100.0 * s.pass as real / s.total as real
  }

  function ErrorMean(s: Summary): real {
    if s.total == 0 then 0.0 else s.sumErr / s.total as real
  }

  function ErrorSd(s: Summary, sqrt: real -> real): real {
    if s.total < 2 then 0.0
    else
      var n := s.total as real;
      var variance := Numerator(s.sumErrSq, n, s.sumErr / n) / (n - 1.0);
      sqrt(if variance < 0.0 then 0.0 else variance)
  }

  lemma AverageIsBetween(s: Summary, ts: seq<Throw>)
    requires SummaryOf(s, ts) && 0 < |ts| < WORD
    ensures AverageTime(s) == Sum(Times(ts)) / |ts| as real && s.minTime <= AverageTime(s) <= s.maxTime
  {
    hide Wrap, Times, Sum, CountsOf, IsLeast, IsGreatest;
    TotalOf(s, ts);
    WrapSmall(|ts|);
    AverageBetween(Times(ts), s.minTime, s.maxTime);
  }

  /** The mean error times the throws is the sum of the errors of the session, evicted throws included. */
  lemma MeanIsOfSession(s: Summary, ts: seq<Throw>)
    requires SummaryOf(s, ts) && 0 < |ts| < WORD
    ensures ErrorMean(s) * |ts| as real == Sum(Errors(ts))
  {
    hide Wrap, Errors, Sum, CountsOf, ExtremesOf;
    TotalOf(s, ts);
    WrapSmall(|ts|);
    MultiplyBack(Sum(Errors(ts)), |ts| as real);
  }

  lemma RateIsPercentage(s: Summary, ts: seq<Throw>)
    requires SummaryOf(s, ts) && 0 < |ts| < WORD
    ensures SuccessRate(s) * |ts| as real == 100.0 * Count(ts, Pass) as real && 0.0 <= SuccessRate(s) <= 100.0
  {
    hide Wrap, Count, CountsOf, ExtremesOf, SumsOf;
    TotalOf(s, ts);
    WrapSmall(|ts|);
    WrapSmall(Count(ts, Pass));
    MultiplyBack(100.0 * Count(ts, Pass) as real, |ts| as real);
    QuotientBetween(100.0 * Count(ts, Pass) as real, |ts| as real, 0.0, 100.0);
  }

  /** Throws that left the ring still count, and the clamp at zero never acts. */
  lemma SdIsOfSession(s: Summary, ts: seq<Throw>, sqrt: real -> real)
    requires SummaryOf(s, ts) && 2 <= |ts| < WORD
    ensures Variance(Errors(ts)) >= 0.0 && ErrorSd(s, sqrt) == sqrt(Variance(Errors(ts)))
  {
    hide Wrap, Errors, Sum, SumSq, Numerator, Spread, CountsOf, ExtremesOf;
    TotalOf(s, ts);
    WrapSmall(|ts|);
    OnePassIsTwoPass(Errors(ts), s.sumErr / |ts| as real);
  }

  // ----- the ring

  /** The slots hold the youngest throws, each where its number puts it. */
  ghost predicate Holds(ring: seq<Record>, ts: seq<Throw>) {
    |ring| == SESSION_LOG_MAX
    && forall k :: |ts| - Kept(ts) <= k < |ts| ==> ring[k % SESSION_LOG_MAX] == RecordOf(ts, k)
  }

  lemma Push(ring: seq<Record>, ts: seq<Throw>, t: Throw)
    requires Holds(ring, ts)
    ensures Holds(ring[|ts| % SESSION_LOG_MAX := Record(Wrap(|ts| + 1), t)], ts + [t])
  {
    var n, ts' := |ts|, ts + [t];
    var ring' := ring[n % SESSION_LOG_MAX := Record(Wrap(n + 1), t)];
    forall k | |ts'| - Kept(ts') <= k < |ts'|
      ensures ring'[k % SESSION_LOG_MAX] == RecordOf(ts', k)
    {
      if k < n {
        SlotsDiffer(k, n);
        assert ts'[k] == ts[k];
      }
    }
  }

  lemma SlotsDiffer(k: nat, n: nat)
    requires k < n < k + SESSION_LOG_MAX
    ensures k % SESSION_LOG_MAX != n % SESSION_LOG_MAX
  {
  }

  /** Where the firmware looks for the `idx`-th oldest. */
  lemma OldestSlot(n: nat, kept: nat, idx: nat)
    requires idx < kept <= SESSION_LOG_MAX && kept <= n
    ensures ((n % SESSION_LOG_MAX + SESSION_LOG_MAX - kept) % SESSION_LOG_MAX + idx) % SESSION_LOG_MAX
         == (n - kept + idx) % SESSION_LOG_MAX
  {
    var laps, r := n / SESSION_LOG_MAX, n % SESSION_LOG_MAX;
    if kept <= r {
      Laps(r - kept + idx, laps);
    } else {
      Laps(r + SESSION_LOG_MAX - kept + idx, laps - 1);
    }
  }

  lemma {:induction false} Laps(d: nat, k: nat)
    ensures (d + SESSION_LOG_MAX * k) % SESSION_LOG_MAX == d % SESSION_LOG_MAX
  {
    if k > 0 {
      Laps(d, k - 1);
    }
  }

  // ----- the log itself

  class Log {
    const buffer: array<Record>
    var head: nat
    var count: nat
    var number: nat
    var summary: Summary
    /** All throws since the last reset. */
    ghost var throws: seq<Throw>

    ghost predicate Valid()
      reads this, buffer
    {
      && Holds(buffer[..], throws) && SummaryOf(summary, throws)
      && head == |throws| % SESSION_LOG_MAX && count == Kept(throws) && number == Wrap(|throws|)
    }

    constructor (now: nat)
      ensures Valid() && fresh(buffer) && throws == [] && summary.startMs == now
    {
      var blank := Record(0, Throw(0.0, 0.0, 0.0, 0.0, 0.0, Pass, 0, 0, 0));
      buffer := new Record[SESSION_LOG_MAX](i => blank);
      head, count, number := 0, 0, 0;
      summary := NOTHING.(startMs := now);
      throws := [];
      NothingYet(now);
    }

    method Reset(now: nat)
      requires Valid()
      modifies this
      ensures Valid() && throws == [] && summary.startMs == now
    {
      hide SummaryOf;
      summary := NOTHING.(startMs := now);
      NothingYet(now);
      head, count, number := 0, 0, 0;
      throws := [];
    }

    method RecordThrow(t: Throw)
      requires Valid()
      modifies this, buffer
      ensures Valid() && throws == old(throws) + [t] && summary.startMs == old(summary.startMs)
    {
      hide SummaryOf, Holds, Wrap;
      ghost var ring := buffer[..];
      WrapSteps(|throws|);
      Push(ring, throws, t);
      SummaryAdded(summary, throws, t);
      number := Wrap(number + 1);
      HasAllSlots(ring, throws);
      buffer[head] := Record(number, t);
      assert buffer[..] == ring[head := Record(number, t)];
      head := (head + 1) % SESSION_LOG_MAX;
      if count < SESSION_LOG_MAX {
        count := count + 1;
      }
      AddToSummary(t);
      throws := throws + [t];
    }

    method AddToSummary(t: Throw)
      modifies this`summary
      ensures summary == Added(old(summary), t)
    {
      var err := t.actual - t.target;
      summary := summary.(total := Wrap(summary.total + 1));
      match t.result {
        case Pass => summary := summary.(pass := Wrap(summary.pass + 1));
        case Under => summary := summary.(under := Wrap(summary.under + 1));
        case Over => summary := summary.(over := Wrap(summary.over + 1));
      }
      summary := summary.(sumTime := summary.sumTime + t.totalS);
      summary := summary.(sumErr := summary.sumErr + err);
      summary := summary.(sumErrSq := summary.sumErrSq + Sq(err));
      if summary.total == 1 {
        summary := summary.(minTime := t.totalS, maxTime := t.totalS);
      } else {
        if t.totalS < summary.minTime {
          summary := summary.(minTime := t.totalS);
        }
        if t.totalS > summary.maxTime {
          summary := summary.(maxTime := t.totalS);
        }
      }
      summary := summary.(lastMs := t.uptimeMs);
    }

    /** The `idx`-th oldest of the throws that are kept. */
    method Get(idx: nat) returns (r: Option<Record>)
      requires Valid()
      ensures r == if idx < Kept(throws) then Some(RecordOf(throws, |throws| - Kept(throws) + idx)) else None
    {
      hide SummaryOf;
      if idx >= count {
        return None;
      }
      var start := (head + SESSION_LOG_MAX - count) % SESSION_LOG_MAX;
      var slot := (start + idx) % SESSION_LOG_MAX;
      OldestSlot(|throws|, count, idx);
      r := Some(buffer[slot]);
    }
  }

  lemma HasAllSlots(ring: seq<Record>, ts: seq<Throw>)
    requires Holds(ring, ts)
    ensures |ring| == SESSION_LOG_MAX
  {
  }
}
