/**
 Startup-gate statistics of one sensor, and the batch analyser of a recorded session.

 Times are integers in microseconds and rates are whole hertz, so every comparison that the
 program makes on floats is made here on exact rationals, by multiplying out the rate.
 */
module StartupGate {
  import opened Wrappers

  const MICROS := 1_000_000

  /** One sample as the gate sees it; `wall` is the monotonic arrival time. */
  datatype Sample = Sample(address: string, timestamp: Option<int>, rate: Option<nat>, wall: int)

  datatype Stats = Stats(
    expectedRate: Option<nat>,
    lastTimestamp: Option<int>,
    firstWall: Option<int>,
    lastWall: Option<int>,
    packets: nat,
    gaps: nat,
    dropped: nat)

  // ---------------------------------------------------------------- interval arithmetic

  /** Python's `round`: to the nearest integer, ties to the even one. */
  function RoundHalfEven(n: int, d: nat): int
    requires d > 0
  {
    var q, r := n / d, n % d;
    if 2 * r < d then q else if 2 * r > d then q + 1 else if q % 2 == 0 then q else q + 1
  }

  /** The gate compares with the truncated threshold `int(1.5 * period)`. */
  predicate GateGap(observed: int, rate: nat)
    requires rate > 0
  {
    observed > 1_500_000 / rate
  }

  /** The analyser compares with the untruncated threshold `1.5 * period`. */
  predicate BatchGap(observed: int, rate: nat)
    requires rate > 0
  {
    observed * rate > 1_500_000
  }

  function Missing(observed: int, rate: nat): nat
    requires rate > 0
  {
    var n := RoundHalfEven(observed * rate, MICROS) - 1;
    if n > 0 then n else 0
  }

  /** What one interval adds to the drop estimate. */
  function Drop(observed: int, rate: nat): nat
    requires rate > 0
  {
    if BatchGap(observed, rate) then Missing(observed, rate) else 0
  }

  lemma DivisionThreshold(n: int, m: nat, d: nat)
    requires d > 0
    ensures n > m / d <==> n * d > m
  {
    var q, r := m / d, m % d;
    assert m == q * d + r;
    if n > q {
      assert n * d >= (q + 1) * d == q * d + d;
    } else {
      assert n * d <= q * d;
    }
  }

  /** Truncating the threshold changes nothing on integer timestamps. */
  lemma SameGapTest(observed: int, rate: nat)
    requires rate > 0
    ensures GateGap(observed, rate) == BatchGap(observed, rate)
  {
    DivisionThreshold(observed, 1_500_000, rate);
  }

  /** Every detected gap counts at least one drop, so the gate's early return is never taken. */
  lemma GapDropsAPacket(observed: int, rate: nat)
    requires rate > 0 && GateGap(observed, rate)
    ensures Missing(observed, rate) >= 1
  {
    SameGapTest(observed, rate);
    var n := observed * rate;
    assert n == MICROS * (n / MICROS) + n % MICROS;
  }

  /**
   Exactly which intervals are counted as `k` periods: the open window of half a period on
   either side of `k` periods, plus its end points that round to `k` because `k` is even.
   The lower end of the window of two periods is the gap threshold itself and is excluded.
   */
  lemma DropCountsPeriods(observed: int, rate: nat, k: nat)
    requires rate > 0 && k >= 2
    ensures Drop(observed, rate) == k - 1 <==>
            var n := 2 * observed * rate;
            || (2 * k - 1) * MICROS < n < (2 * k + 1) * MICROS
            || (k % 2 == 0 && k > 2 && n == (2 * k - 1) * MICROS)
            || (k % 2 == 0 && n == (2 * k + 1) * MICROS)
  {
    var n := observed * rate;
    assert 2 * observed * rate == 2 * n;
    SameGapTest(observed, rate);
    if BatchGap(observed, rate) {
      GapDropsAPacket(observed, rate);
    }
  }

  // ---------------------------------------------------------------- the incremental gate

  function Fresh(expectedRate: Option<nat>): Stats {
    Stats(expectedRate, None, None, None, 0, 0, 0)
  }

  function RecordGap(st: Stats, timestamp: Option<int>): Stats {
    if timestamp.None? || st.lastTimestamp.None? || st.expectedRate.None? || st.expectedRate.value == 0 then st
    else
      var observed := timestamp.value - st.lastTimestamp.value;
      var rate := st.expectedRate.value;
      if !GateGap(observed, rate) || Missing(observed, rate) == 0 then st
      else st.(gaps := st.gaps + 1, dropped := st.dropped + Missing(observed, rate))
  }

  function Record(st: Stats, s: Sample): Stats {
    var rated := if st.expectedRate.None? && s.rate.Some? && s.rate.value != 0
                 then st.(expectedRate := s.rate) else st;
    var gapped := if rated.firstWall.None? then rated.(firstWall := Some(s.wall))
                  else RecordGap(rated, s.timestamp);
    gapped.(lastTimestamp := s.timestamp, lastWall := Some(s.wall), packets := gapped.packets + 1)
  }

  function RecordAll(st: Stats, samples: seq<Sample>): Stats {
    if samples == [] then st else Record(RecordAll(st, samples[..|samples| - 1]), samples[|samples| - 1])
  }

  function Duration(st: Stats): (d: nat)
    ensures st.firstWall.Some? && st.lastWall.Some? && d > 0 ==> d == st.lastWall.value - st.firstWall.value
  {
    if st.firstWall.None? || st.lastWall.None? || st.lastWall.value < st.firstWall.value then 0
    else st.lastWall.value - st.firstWall.value
  }

  /** The mutable record that Core keeps for each address. */
  class SensorStats {
    var expectedRate: Option<nat>
    var lastTimestamp: Option<int>
    var firstWall: Option<int>
    var lastWall: Option<int>
    var packets: nat
    var gaps: nat
    var dropped: nat

    function Abs(): Stats
      reads this
    {
      Stats(expectedRate, lastTimestamp, firstWall, lastWall, packets, gaps, dropped)
    }

    constructor (expected: Option<nat>)
      ensures Abs() == Fresh(expected)
    {
      expectedRate := expected;
      lastTimestamp, firstWall, lastWall := None, None, None;
      packets, gaps, dropped := 0, 0, 0;
    }

    method ResetForAttempt()
      modifies this
      ensures Abs() == Fresh(old(expectedRate))
    {
      lastTimestamp, firstWall, lastWall := None, None, None;
      packets, gaps, dropped := 0, 0, 0;
    }

    method RecordSample(s: Sample)
      modifies this
      ensures Abs() == Record(old(Abs()), s)
    {
      if expectedRate.None? && s.rate.Some? && s.rate.value != 0 {
        expectedRate := s.rate;
      }
      if firstWall.None? {
        firstWall := Some(s.wall);
      } else {
        RecordGapIfNeeded(s.timestamp);
      }
      lastTimestamp := s.timestamp;
      lastWall := Some(s.wall);
      packets := packets + 1;
    }

    method RecordGapIfNeeded(timestamp: Option<int>)
      modifies this`gaps, this`dropped
      ensures Abs() == RecordGap(old(Abs()), timestamp)
    {
      if timestamp.None? || lastTimestamp.None? || expectedRate.None? || expectedRate.value == 0 {
        return;
      }
      var observed := timestamp.value - lastTimestamp.value;
      if !GateGap(observed, expectedRate.value) {
        return;
      }
      var missing := Missing(observed, expectedRate.value);
      if missing == 0 {
        return;
      }
      gaps := gaps + 1;
      dropped := dropped + missing;
    }
  }

  // ---------------------------------------------------------------- the batch analyser

  function Intervals(ts: seq<int>): seq<int> {
    if |ts| < 2 then [] else Intervals(ts[..|ts| - 1]) + [ts[|ts| - 1] - ts[|ts| - 2]]
  }

  /** The intervals over the threshold; a rate of zero makes the threshold a NaN, over which nothing is. */
  function GapsOf(intervals: seq<int>, rate: nat): seq<int> {
    if intervals == [] || rate == 0 then []
    else
      var last := intervals[|intervals| - 1];
      GapsOf(intervals[..|intervals| - 1], rate) + (if BatchGap(last, rate) then [last] else [])
  }

  function SumMissing(gaps: seq<int>, rate: nat): nat {
    if gaps == [] || rate == 0 then 0
    else SumMissing(gaps[..|gaps| - 1], rate) + Missing(gaps[|gaps| - 1], rate)
  }

  function Timestamps(samples: seq<Sample>): seq<int>
    requires forall i :: 0 <= i < |samples| ==> samples[i].timestamp.Some?
  {
    seq(|samples|, i requires 0 <= i < |samples| => samples[i].timestamp.value)
  }

  /** The rate the gate works with once the first sample has arrived. */
  predicate GateRate(expected: Option<nat>, first: Sample, rate: nat) {
    (if expected.None? && first.rate.Some? && first.rate.value != 0 then first.rate else expected) == Some(rate)
  }

  /** One more interval adds itself to the gaps, and its drops to the total, exactly when it is a gap. */
  lemma ExtendGaps(before: seq<int>, step: int, rate: nat)
    requires rate > 0
    ensures var gaps, more := GapsOf(before, rate), GapsOf(before + [step], rate);
            && |more| == |gaps| + (if BatchGap(step, rate) then 1 else 0)
            && SumMissing(more, rate) == SumMissing(gaps, rate) + Drop(step, rate)
  {
    var gaps := GapsOf(before, rate);
    assert (before + [step])[..|before|] == before;
    if BatchGap(step, rate) {
      assert (gaps + [step])[..|gaps|] == gaps;
    } else {
      assert gaps + [] == gaps;
    }
  }

  /** What one sample adds to the gate's counters, in the analyser's terms. */
  lemma RecordAddsDrop(st: Stats, s: Sample, rate: nat)
    requires st.firstWall.Some? && st.expectedRate == Some(rate)
    requires st.lastTimestamp.Some? && s.timestamp.Some? && rate > 0
    ensures var next, step := Record(st, s), s.timestamp.value - st.lastTimestamp.value;
            && next.expectedRate == Some(rate)
            && next.gaps == st.gaps + (if BatchGap(step, rate) then 1 else 0)
            && next.dropped == st.dropped + Drop(step, rate)
  {
    var step := s.timestamp.value - st.lastTimestamp.value;
    SameGapTest(step, rate);
    if GateGap(step, rate) {
      GapDropsAPacket(step, rate);
    }
  }

  /** The gate's counters say what the analyser would say of the timestamps `ts`. */
  ghost predicate Agree(st: Stats, ts: seq<int>, rate: nat) {
    var gaps := GapsOf(Intervals(ts), rate);
    && st.packets == |ts| > 0
    && st.firstWall.Some?
    && st.expectedRate == Some(rate)
    && st.lastTimestamp == Some(ts[|ts| - 1])
    && st.gaps == |gaps|
    && st.dropped == SumMissing(gaps, rate)
  }

  lemma AgreeStep(st: Stats, ts: seq<int>, s: Sample, rate: nat)
    requires Agree(st, ts, rate) && s.timestamp.Some?
    ensures Agree(Record(st, s), ts + [s.timestamp.value], rate)
  {
    var more, step := ts + [s.timestamp.value], s.timestamp.value - ts[|ts| - 1];
    assert more[..|ts|] == ts;
    assert Intervals(more) == Intervals(ts) + [step];
    if rate > 0 {
      RecordAddsDrop(st, s, rate);
      ExtendGaps(Intervals(ts), step, rate);
    }
  }

  /** The incremental gate and the batch analyser agree on every recording. */
  lemma {:induction false} GateMatchesAnalyser(expected: Option<nat>, samples: seq<Sample>, rate: nat)
    requires samples != []
    requires forall i :: 0 <= i < |samples| ==> samples[i].timestamp.Some?
    requires GateRate(expected, samples[0], rate)
    ensures Agree(RecordAll(Fresh(expected), samples), Timestamps(samples), rate)
  {
    var n := |samples|;
    var front := samples[..n - 1];
    if n == 1 {
      assert RecordAll(Fresh(expected), front) == Fresh(expected);
      assert Intervals(Timestamps(samples)) == [];
    } else {
      GateMatchesAnalyser(expected, front, rate);
      AgreeStep(RecordAll(Fresh(expected), front), Timestamps(front), samples[n - 1], rate);
      assert Timestamps(samples) == Timestamps(front) + [samples[n - 1].timestamp.value];
    }
  }

  // ---------------------------------------------------------------- samples on a regular grid

  /** Sample `k` lies strictly within a quarter period of grid slot `slots[k]`; slots only go forward. */
  ghost predicate OnGrid(ts: seq<int>, rate: nat, origin: real, slots: seq<int>) {
    && |slots| == |ts|
    && (forall k :: 0 <= k < |ts| ==>
          var off := (ts[k] * rate) as real - origin - (slots[k] * MICROS) as real;
          -(MICROS as real) < 4.0 * off < MICROS as real)
    && (forall k :: 1 <= k < |ts| ==> slots[k - 1] < slots[k])
  }

  lemma IntervalOnGrid(ts: seq<int>, rate: nat, origin: real, slots: seq<int>, k: nat)
    requires rate > 0 && OnGrid(ts, rate, origin, slots) && 1 <= k < |ts|
    ensures Drop(ts[k] - ts[k - 1], rate) == slots[k] - slots[k - 1] - 1
  {
    var step, periods := ts[k] - ts[k - 1], slots[k] - slots[k - 1];
    var n := step * rate;
    assert n == ts[k] * rate - ts[k - 1] * rate;
    assert periods * MICROS == slots[k] * MICROS - slots[k - 1] * MICROS;
    assert -MICROS < 2 * (n - periods * MICROS) < MICROS;
    assert 2 * step * rate == 2 * n;
    if periods >= 2 {
      DropCountsPeriods(step, rate, periods);
    } else {
      assert !BatchGap(step, rate);
    }
  }

  lemma GridPrefix(ts: seq<int>, rate: nat, origin: real, slots: seq<int>)
    requires OnGrid(ts, rate, origin, slots) && ts != []
    ensures OnGrid(ts[..|ts| - 1], rate, origin, slots[..|ts| - 1])
  {
  }

  /** On a grid, packets received plus packets estimated lost is the number of slots spanned. */
  lemma {:induction false} GridConservation(ts: seq<int>, rate: nat, origin: real, slots: seq<int>)
    requires rate > 0 && ts != [] && OnGrid(ts, rate, origin, slots)
    ensures |ts| + SumMissing(GapsOf(Intervals(ts), rate), rate) == slots[|slots| - 1] - slots[0] + 1
  {
    var n := |ts|;
    if n > 1 {
      var front := ts[..n - 1];
      GridPrefix(ts, rate, origin, slots);
      GridConservation(front, rate, origin, slots[..n - 1]);
      IntervalOnGrid(ts, rate, origin, slots, n - 1);
      ExtendGaps(Intervals(front), ts[n - 1] - ts[n - 2], rate);
    }
  }

  /** The same conservation for the counters that the gate itself keeps. */
  lemma GateConservesSlots(expected: Option<nat>, samples: seq<Sample>, rate: nat, origin: real, slots: seq<int>)
    requires samples != [] && rate > 0
    requires forall i :: 0 <= i < |samples| ==> samples[i].timestamp.Some?
    requires GateRate(expected, samples[0], rate)
    requires OnGrid(Timestamps(samples), rate, origin, slots)
    ensures var st := RecordAll(Fresh(expected), samples);
            && st.packets + st.dropped == slots[|slots| - 1] - slots[0] + 1
            && (st.gaps == 0 <==> st.dropped == 0)
  {
    GateMatchesAnalyser(expected, samples, rate);
    GridConservation(Timestamps(samples), rate, origin, slots);
    GapsAllDrop(Intervals(Timestamps(samples)), rate);
  }

  lemma {:induction false} GapsAllDrop(intervals: seq<int>, rate: nat)
    ensures var gaps := GapsOf(intervals, rate);
            SumMissing(gaps, rate) >= |gaps| && (gaps == [] ==> SumMissing(gaps, rate) == 0)
  {
    if intervals != [] && rate > 0 {
      var last, front := intervals[|intervals| - 1], intervals[..|intervals| - 1];
      GapsAllDrop(front, rate);
      assert intervals == front + [last];
      ExtendGaps(front, last, rate);
      if BatchGap(last, rate) {
        SameGapTest(last, rate);
        GapDropsAPacket(last, rate);
      }
    }
  }

  lemma OneInterval(a: int, b: int, rate: nat)
    requires rate > 0 && !BatchGap(b - a, rate)
    ensures Intervals([a, b]) == [b - a] && GapsOf([b - a], rate) == []
  {
    assert [a, b][..1] == [a];
    assert Intervals([a]) == [];
    assert [b - a][..0] == [];
    assert GapsOf([], rate) == [];
  }

  // ---------------------------------------------------------------- at exactly a quarter period

  /** `observed` is at most half a period away from `periods` of them, the ends included. */
  predicate Near(observed: int, rate: nat, periods: nat) {
    (2 * periods - 1) * MICROS <= 2 * observed * rate <= (2 * periods + 1) * MICROS
  }

  /**
   By how much the drops of such an interval are off: an even number of periods is counted right at both
   ends, except two periods at the lower end, which is the threshold; an odd number from three on is rounded
   away at both ends.
   */
  function Error(observed: int, rate: nat, periods: nat): int {
    var n := 2 * observed * rate;
    if n == (2 * periods - 1) * MICROS && (periods == 2 || (periods % 2 == 1 && periods > 2)) then -1
    else if n == (2 * periods + 1) * MICROS && periods % 2 == 1 && periods > 2 then 1
    else 0
  }

  lemma DropIsOffBy(observed: int, rate: nat, periods: nat)
    requires rate > 0 && periods > 0 && Near(observed, rate, periods)
    ensures Drop(observed, rate) == periods - 1 + Error(observed, rate, periods)
  {
    assert 2 * observed * rate == 2 * (observed * rate);
    if periods == 1 {
      assert !BatchGap(observed, rate);
    } else {
      DropCountsPeriods(observed, rate, periods);
      if 2 * observed * rate == (2 * periods - 1) * MICROS {
        if periods == 2 {
          assert !BatchGap(observed, rate);
        } else {
          DropCountsPeriods(observed, rate, periods - 1);
        }
      } else if 2 * observed * rate == (2 * periods + 1) * MICROS {
        DropCountsPeriods(observed, rate, periods + 1);
      }
    }
  }

  /** Sample `k` lies within a quarter period of grid slot `slots[k]`, the ends included. */
  ghost predicate NearGrid(ts: seq<int>, rate: nat, origin: real, slots: seq<int>) {
    && |slots| == |ts|
    && (forall k :: 0 <= k < |ts| ==>
          var off := (ts[k] * rate) as real - origin - (slots[k] * MICROS) as real;
          -(MICROS as real) <= 4.0 * off <= MICROS as real)
    && (forall k :: 1 <= k < |ts| ==> slots[k - 1] < slots[k])
  }

  lemma IntervalIsNear(ts: seq<int>, rate: nat, origin: real, slots: seq<int>, k: nat)
    requires NearGrid(ts, rate, origin, slots) && 1 <= k < |ts|
    ensures Near(ts[k] - ts[k - 1], rate, slots[k] - slots[k - 1])
  {
    var step, periods := ts[k] - ts[k - 1], slots[k] - slots[k - 1];
    assert step * rate == ts[k] * rate - ts[k - 1] * rate;
    assert periods * MICROS == slots[k] * MICROS - slots[k - 1] * MICROS;
    assert -MICROS <= 2 * (step * rate - periods * MICROS) <= MICROS;
    assert 2 * step * rate == 2 * (step * rate);
  }

  lemma NearGridPrefix(ts: seq<int>, rate: nat, origin: real, slots: seq<int>)
    requires NearGrid(ts, rate, origin, slots) && ts != []
    ensures NearGrid(ts[..|ts| - 1], rate, origin, slots[..|ts| - 1])
  {
  }

  lemma IntervalsExtend(ts: seq<int>)
    requires |ts| > 1
    ensures Intervals(ts) == Intervals(ts[..|ts| - 1]) + [ts[|ts| - 1] - ts[|ts| - 2]]
  {
  }

  /** How far the whole recording is off. */
  function TotalError(ts: seq<int>, rate: nat, slots: seq<int>): int
    requires |slots| == |ts| && forall k :: 1 <= k < |ts| ==> slots[k - 1] < slots[k]
  {
    if |ts| <= 1 then 0
    else
      var n := |ts| - 1;
      TotalError(ts[..n], rate, slots[..n]) + Error(ts[n] - ts[n - 1], rate, slots[n] - slots[n - 1])
  }

  /**
   Within a quarter period, ends included, packets received plus packets estimated lost is off from the
   slots spanned by exactly the total error; so slots are conserved exactly when the errors cancel.
   */
  lemma {:induction false} GridBalance(ts: seq<int>, rate: nat, origin: real, slots: seq<int>)
    requires rate > 0 && ts != [] && NearGrid(ts, rate, origin, slots)
    ensures |ts| + SumMissing(GapsOf(Intervals(ts), rate), rate) == slots[|slots| - 1] - slots[0] + 1 + TotalError(ts, rate, slots)
  {
    if |ts| > 1 {
      NearGridPrefix(ts, rate, origin, slots);
      GridBalance(ts[..|ts| - 1], rate, origin, slots[..|ts| - 1]);
      BalanceStep(ts, rate, origin, slots);
    }
  }

  lemma BalanceStep(ts: seq<int>, rate: nat, origin: real, slots: seq<int>)
    requires rate > 0 && |ts| > 1 && NearGrid(ts, rate, origin, slots)
    ensures var n := |ts| - 1;
            var step, periods := ts[n] - ts[n - 1], slots[n] - slots[n - 1];
            SumMissing(GapsOf(Intervals(ts), rate), rate) ==
              SumMissing(GapsOf(Intervals(ts[..n]), rate), rate) + periods - 1 + Error(step, rate, periods)
  {
    var n := |ts| - 1;
    IntervalIsNear(ts, rate, origin, slots, n);
    DropIsOffBy(ts[n] - ts[n - 1], rate, slots[n] - slots[n - 1]);
    IntervalsExtend(ts);
    ExtendGaps(Intervals(ts[..n]), ts[n] - ts[n - 1], rate);
  }

  /** At exactly a quarter period the claim fails: two slots apart, one and a half periods observed. */
  lemma QuarterPeriodIsTooFar()
    ensures var ts, slots := [250_000, 1_750_000], [0, 2];
            && (forall k :: 0 <= k < 2 ==>
                  var off := ts[k] - slots[k] * MICROS;
                  -MICROS <= 4 * off <= MICROS)
            && |ts| + SumMissing(GapsOf(Intervals(ts), 1), 1) != slots[1] - slots[0] + 1
  {
    OneInterval(250_000, 1_750_000, 1);
    assert SumMissing([], 1) == 0;
  }
}
