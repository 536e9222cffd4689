/** The decaying mean of a process's think time, kept in integers scaled by 256. */
module ThinkTime {

  datatype Mean = Mean(samples: nat, total: nat, mean: nat)

  const INITIAL := Mean(0, 0, 0)

  /** Division by eight as the code does it, rounding down. */
  function Eighth(x: nat): (r: nat)
    ensures 8 * r <= x <= 8 * r + 7
  {
    x / 8
  }

  function Over(a: nat, n: nat): (r: nat)
    requires n > 0
    ensures r * n <= a < r * n + n
  {
    Division(a, n);
    a / n
  }

  lemma Division(a: nat, n: nat)
    requires n > 0
    ensures (a / n) * n <= a < (a / n) * n + n
  {
    assert a == n * (a / n) + a % n;
  }

  /** Seven eighths of the past and one eighth of the new sample; the divisions round down. */
  function Update(s: Mean, t: nat): Mean {
    var samples := Eighth(7 * s.samples + 256);
    var total := Eighth(7 * s.total + 256 * t);
    Mean(samples, total, Over(total + 128, samples))
  }

  function History(ts: seq<nat>): (s: Mean)
    decreases |ts|
  {
    if |ts| == 0 then INITIAL else Update(History(ts[..|ts| - 1]), ts[|ts| - 1])
  }

  predicate Within(ts: seq<nat>, low: nat, high: nat) { forall i :: 0 <= i < |ts| ==> low <= ts[i] <= high }

  lemma Scale(a: int, b: int, m: nat)
    requires a <= b
    ensures a * m <= b * m
  {}

  /** The accumulated rounding of both sums stays bounded, however long the history is. */
  lemma {:induction false} DriftBounded(ts: seq<nat>, low: nat, high: nat)
    requires Within(ts, low, high)
    ensures var s := History(ts);
            && (|ts| > 0 ==> 32 <= s.samples <= 249)
            && s.samples * low - 7 <= s.total <= s.samples * high + 7 * high
    decreases |ts|
  {
    if |ts| > 0 {
      var rest, t := ts[..|ts| - 1], ts[|ts| - 1];
      DriftBounded(rest, low, high);
      Drift(History(rest), t, low, high);
    }
  }

  lemma Products(n: nat, n': nat, low: nat, high: nat)
    requires 8 * n' <= 7 * n + 256 <= 8 * n' + 7
    ensures 8 * (n' * low) <= 7 * (n * low) + 256 * low
    ensures 7 * (n * high) + 249 * high <= 8 * (n' * high)
  {
    Scale(8 * n', 7 * n + 256, low);
    Scale(7 * n + 249, 8 * n', high);
    Factored(n', low);
    Factored(n', high);
    Spread(n, 256, low);
    Spread(n, 249, high);
  }

  lemma Factored(n: int, x: int)
    ensures (8 * n) * x == 8 * (n * x)
  {}

  lemma Spread(n: int, c: int, x: int)
    ensures (7 * n + c) * x == 7 * (n * x) + c * x
  {}

  /** With the products named, the step is linear. */
  lemma Linear(total: int, total': int, t: int, low: int, high: int, x: int, x': int, y: int, y': int)
    requires low <= t <= high && 0 <= low && 8 * total' <= 7 * total + 256 * t <= 8 * total' + 7
    requires 8 * x' <= 7 * x + 256 * low && 7 * y + 249 * high <= 8 * y'
    requires x - 7 <= total <= y + 7 * high
    ensures x' - 7 <= total' <= y' + 7 * high
  {}

  lemma Drift(s: Mean, t: nat, low: nat, high: nat)
    requires low <= t <= high && s.samples <= 249
    requires s.samples * low - 7 <= s.total <= s.samples * high + 7 * high
    ensures var s' := Update(s, t);
            && 32 <= s'.samples <= 249
            && s'.samples * low - 7 <= s'.total <= s'.samples * high + 7 * high
  {
    hide Eighth, Over;
    var s' := Update(s, t);
    var n, n' := s.samples, s'.samples;
    Products(n, n', low, high);
    Linear(s.total, s'.total, t, low, high, n * low, n' * low, n * high, n' * high);
  }

  /** A quotient compared with whole numbers. */
  lemma Quotient(a: nat, n: nat, k: nat)
    requires n > 0
    ensures a >= k * n ==> Over(a, n) >= k
    ensures a < k * n + n ==> Over(a, n) <= k
  {
    hide Over;
    var q := Over(a, n);
    if q < k { Scale(q + 1, k, n); assert (q + 1) * n == q * n + n; }
    if q > k { Scale(k + 1, q, n); assert (k + 1) * n == k * n + n; }
  }

  /** For every history of samples in [low, high] the divisor is between 32 and 249, and the mean lies
      between `low` and a little above `high`, despite the rounding at every step. */
  lemma MeanBounded(ts: seq<nat>, low: nat, high: nat)
    requires Within(ts, low, high) && |ts| > 0
    ensures var s := History(ts);
            32 <= s.samples <= 249 && low <= s.mean <= high + (7 * high + 128) / 32
  {
    hide Eighth, Over;
    DriftBounded(ts, low, high);
    var s := History(ts);
    assert s.mean == Over(s.total + 128, s.samples);
    hide History;
    MeanOf(s.total, s.samples, low, high);
  }

  lemma MeanOf(total: nat, n: nat, low: nat, high: nat)
    requires 32 <= n && n * low - 7 <= total <= n * high + 7 * high
    ensures low <= Over(total + 128, n) <= high + (7 * high + 128) / 32
  {
    hide Over;
    var extra := (7 * high + 128) / 32;
    assert 7 * high + 128 < 32 * (extra + 1);
    Room(n, high, extra);
    Quotient(total + 128, n, low);
    Quotient(total + 128, n, high + extra);
    assert low * n == n * low;
  }

  lemma Room(n: nat, high: nat, extra: nat)
    requires 32 <= n && 7 * high + 128 < 32 * (extra + 1)
    ensures n * high + 7 * high + 128 < (high + extra) * n + n
  {
    Scale(32, n, extra + 1);
    assert (high + extra) * n + n == n * high + n * (extra + 1);
  }

  class IoContext {
    var lastEndRequest: nat
    var samples: nat
    var total: nat
    var mean: nat

    ghost function View(): Mean
      reads this
    {
      Mean(samples, total, mean)
    }

    /** `cfq_update_io_thinktime`: the sample is cut off at twice the idle slice. */
    method UpdateThinkTime(jiffies: nat, sliceIdle: nat)
      requires jiffies >= lastEndRequest
      modifies this`samples, this`total, this`mean
      ensures var elapsed := jiffies - lastEndRequest;
              View() == Update(old(View()), if elapsed <= 2 * sliceIdle then elapsed else 2 * sliceIdle)
    {
      var elapsed := jiffies - lastEndRequest;
      var ttime := if elapsed <= 2 * sliceIdle then elapsed else 2 * sliceIdle;
      samples := Eighth(7 * samples + 256);
      total := Eighth(7 * total + 256 * ttime);
      mean := Over(total + 128, samples);
    }
  }
}
