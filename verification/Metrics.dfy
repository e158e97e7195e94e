/** Server-wide counters, and a round-trip average that folds its samples every thousand. */
module Metrics {

  const MAX_RTT_SAMPLES := 1000

  datatype State = State(
    connections: nat,
    disconnections: nat,
    upgrades: nat,
    errors: nat,
    pollingCount: int,
    websocketCount: int,
    rttSum: real,
    rttCount: nat)

  const Initial := State(0, 0, 0, 0, 0, 0, 0.0, 0)

  function OnConnection(m: State, webSocket: bool): State {
    if webSocket then m.(connections := m.connections + 1, websocketCount := m.websocketCount + 1)
    else m.(connections := m.connections + 1, pollingCount := m.pollingCount + 1)
  }

  function OnDisconnection(m: State, webSocket: bool): State {
    if webSocket then m.(disconnections := m.disconnections + 1, websocketCount := m.websocketCount - 1)
    else m.(disconnections := m.disconnections + 1, pollingCount := m.pollingCount - 1)
  }

  function OnUpgrade(m: State): State {
    m.(upgrades := m.upgrades + 1, pollingCount := m.pollingCount - 1, websocketCount := m.websocketCount + 1)
  }

  function OnError(m: State): State {
    m.(errors := m.errors + 1)
  }

  /** A sample; at the limit the samples so far are replaced by their average. */
  function OnRtt(m: State, rtt: int): State {
    var sum, count := m.rttSum + rtt as real, m.rttCount + 1;
    if count >= MAX_RTT_SAMPLES then m.(rttSum := sum / count as real, rttCount := 1)
    else m.(rttSum := sum, rttCount := count)
  }

  function Average(m: State): real {
    if m.rttCount > 0 then m.rttSum / m.rttCount as real else 0.0
  }

  /** Rounds half up. */
  function Round(x: real): int {
    (x + 0.5).Floor
  }

  // ----- the average -----

  function Sampled(m: State, samples: seq<int>): State {
    if samples == [] then m else OnRtt(Sampled(m, samples[..|samples| - 1]), samples[|samples| - 1])
  }

  function Smallest(samples: seq<int>): int
    requires samples != []
  {
    var last := samples[|samples| - 1];
    if |samples| == 1 then last
    else var before := Smallest(samples[..|samples| - 1]); if last < before then last else before
  }

  function Largest(samples: seq<int>): int
    requires samples != []
  {
    var last := samples[|samples| - 1];
    if |samples| == 1 then last
    else var before := Largest(samples[..|samples| - 1]); if last > before then last else before
  }

  /** The sum is that of `rttCount` numbers between low and high. */
  predicate Between(m: State, low: int, high: int) {
    && 0 < m.rttCount < MAX_RTT_SAMPLES
    && low as real * m.rttCount as real <= m.rttSum <= high as real * m.rttCount as real
  }

  lemma CancelFactor(a: real, b: real, d: real)
    requires d > 0.0 && a * d <= b * d
    ensures a <= b
  {
    assert (a - b) * d <= 0.0;
  }

  lemma QuotientBetween(sum: real, count: real, low: real, high: real)
    requires count > 0.0 && low * count <= sum <= high * count
    ensures low <= sum / count <= high
  {
    var q := sum / count;
    assert q * count == sum;
    CancelFactor(low, q, count);
    CancelFactor(q, high, count);
  }

  lemma OneMore(low: real, count: real)
    ensures low * (count + 1.0) == low * count + low
  {}

  lemma SumBetween(sum: real, rtt: real, count: real, low: real, high: real)
    requires low * count <= sum <= high * count && low <= rtt <= high
    ensures low * (count + 1.0) <= sum + rtt <= high * (count + 1.0)
  {
    OneMore(low, count);
    OneMore(high, count);
  }

  lemma OnRttBetween(m: State, rtt: int, low: int, high: int)
    requires low <= rtt <= high
    requires if m.rttCount == 0 then m.rttSum == 0.0 else Between(m, low, high)
    ensures Between(OnRtt(m, rtt), low, high)
  {
    var count := m.rttCount + 1;
    SumBetween(m.rttSum, rtt as real, m.rttCount as real, low as real, high as real);
    assert count as real == m.rttCount as real + 1.0;
    QuotientBetween(m.rttSum + rtt as real, count as real, low as real, high as real);
  }

  lemma Widen(m: State, low: int, high: int, low': int, high': int)
    requires Between(m, low, high) && low' <= low && high <= high'
    ensures Between(m, low', high')
  {
    assert low' as real * m.rttCount as real <= low as real * m.rttCount as real;
    assert high as real * m.rttCount as real <= high' as real * m.rttCount as real;
  }

  lemma {:induction false} SampledBetween(samples: seq<int>)
    requires samples != []
    ensures Between(Sampled(Initial, samples), Smallest(samples), Largest(samples))
  {
    var before, last := samples[..|samples| - 1], samples[|samples| - 1];
    if before == [] {
      assert Sampled(Initial, samples) == OnRtt(Initial, last);
      OnRttBetween(Initial, last, last, last);
    } else {
      SampledBetween(before);
      Widen(Sampled(Initial, before), Smallest(before), Largest(before), Smallest(samples), Largest(samples));
      OnRttBetween(Sampled(Initial, before), last, Smallest(samples), Largest(samples));
    }
  }

  /**
   * After any samples, across every fold, the average lies between the smallest and
   * the largest of them, and so does the rounded one.
   */
  lemma AverageBetweenSamples(samples: seq<int>)
    requires samples != []
    ensures var m := Sampled(Initial, samples);
            && 0 < m.rttCount < MAX_RTT_SAMPLES
            && Smallest(samples) as real <= Average(m) <= Largest(samples) as real
            && Smallest(samples) <= Round(Average(m)) <= Largest(samples)
  {
    var m := Sampled(Initial, samples);
    SampledBetween(samples);
    QuotientBetween(m.rttSum, m.rttCount as real, Smallest(samples) as real, Largest(samples) as real);
  }

  // ----- the mean -----

  function Sum(samples: seq<int>): int {
    if samples == [] then 0 else Sum(samples[..|samples| - 1]) + samples[|samples| - 1]
  }

  /** How many samples the average stands for: it starts again from one at each thousandth. */
  function Weight(n: nat): nat {
    if n == 0 then 0 else (n - 1) % 999 + 1
  }

  lemma WeightGrows(n: nat)
    ensures Weight(n + 1) == (if Weight(n) + 1 >= MAX_RTT_SAMPLES then 1 else Weight(n) + 1)
  {}

  lemma {:induction false} CountIsWeight(samples: seq<int>)
    ensures Sampled(Initial, samples).rttCount == Weight(|samples|)
  {
    if samples != [] {
      CountIsWeight(samples[..|samples| - 1]);
      WeightGrows(|samples| - 1);
    }
  }

  lemma QuotientTimes(sum: real, count: real)
    requires count != 0.0
    ensures sum / count * count == sum
  {}

  lemma {:induction false} SumIsTotal(samples: seq<int>)
    requires |samples| < MAX_RTT_SAMPLES
    ensures Sampled(Initial, samples).rttSum == Sum(samples) as real
  {
    if samples != [] {
      SumIsTotal(samples[..|samples| - 1]);
      CountIsWeight(samples[..|samples| - 1]);
    }
  }

  /** The average of n samples moves by one more sample. */
  predicate Moves(before: real, after: real, n: nat, rtt: int) {
    after * (n + 1) as real == before * n as real + rtt as real
  }

  lemma OnRttMoves(m: State, rtt: int)
    requires m.rttCount > 0 || m.rttSum == 0.0
    ensures Moves(Average(m), Average(OnRtt(m, rtt)), m.rttCount, rtt)
  {
    var sum, count := m.rttSum + rtt as real, m.rttCount + 1;
    QuotientTimes(sum, count as real);
    if m.rttCount > 0 {
      QuotientTimes(m.rttSum, m.rttCount as real);
    }
    if count >= MAX_RTT_SAMPLES {
      assert Average(OnRtt(m, rtt)) == sum / count as real / 1.0;
    }
  }

  lemma NoSamples(samples: seq<int>)
    ensures var m := Sampled(Initial, samples); m.rttCount > 0 || m.rttSum == 0.0
  {
    CountIsWeight(samples);
  }

  /** Up to 999 samples the average is their mean. */
  lemma AverageIsMean(samples: seq<int>)
    requires 0 < |samples| < MAX_RTT_SAMPLES
    ensures Average(Sampled(Initial, samples)) == Sum(samples) as real / |samples| as real
  {
    SumIsTotal(samples);
    CountIsWeight(samples);
  }

  /**
   * At any time one more sample moves the average as much as each of those weighs that the
   * average stands for, and folding them does not move it.
   */
  lemma AverageMoves(samples: seq<int>, next: int)
    ensures var m := Sampled(Initial, samples); Moves(Average(m), Average(OnRtt(m, next)), Weight(|samples|), next)
  {
    CountIsWeight(samples);
    NoSamples(samples);
    OnRttMoves(Sampled(Initial, samples), next);
  }

  /** Rounding is to the nearest integer, halves going up. */
  lemma RoundsHalfUp(x: real)
    ensures Round(x) as real - 0.5 <= x < Round(x) as real + 0.5
  {}

  // ----- the counters object -----

  class ServerMetrics {
    var connections: nat
    var disconnections: nat
    var upgrades: nat
    var errors: nat
    var pollingCount: int
    var websocketCount: int
    var rttSum: real
    var rttCount: nat

    ghost function Abs(): State
      reads this
    {
      State(connections, disconnections, upgrades, errors, pollingCount, websocketCount, rttSum, rttCount)
    }

    constructor ()
      ensures Abs() == Initial
    {
      connections, disconnections, upgrades, errors := 0, 0, 0, 0;
      pollingCount, websocketCount := 0, 0;
      rttSum, rttCount := 0.0, 0;
    }

    method CountConnection(webSocket: bool)
      modifies this
      ensures Abs() == OnConnection(old(Abs()), webSocket)
    {
      connections := connections + 1;
      if webSocket {
        websocketCount := websocketCount + 1;
      } else {
        pollingCount := pollingCount + 1;
      }
    }

    method CountDisconnection(webSocket: bool)
      modifies this
      ensures Abs() == OnDisconnection(old(Abs()), webSocket)
    {
      disconnections := disconnections + 1;
      if webSocket {
        websocketCount := websocketCount - 1;
      } else {
        pollingCount := pollingCount - 1;
      }
    }

    method CountUpgrade()
      modifies this
      ensures Abs() == OnUpgrade(old(Abs()))
    {
      upgrades := upgrades + 1;
      pollingCount := pollingCount - 1;
      websocketCount := websocketCount + 1;
    }

    method CountError()
      modifies this
      ensures Abs() == OnError(old(Abs()))
    {
      errors := errors + 1;
    }

    method AddRtt(rtt: int)
      modifies this
      ensures Abs() == OnRtt(old(Abs()), rtt)
    {
      rttSum := rttSum + rtt as real;
      rttCount := rttCount + 1;
      if rttCount >= MAX_RTT_SAMPLES {
        rttSum := rttSum / rttCount as real;
        rttCount := 1;
      }
    }

    /** The average as reported: rounded, and 0 without samples. */
    method AverageRtt() returns (avg: int)
      ensures avg == if Abs().rttCount > 0 then Round(Average(Abs())) else 0
    {
      avg := if rttCount > 0 then (rttSum / rttCount as real + 0.5).Floor else 0;
    }
  }
}
