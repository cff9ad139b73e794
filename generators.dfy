// Evenly spaced arrays of doubles for sweeping a parameter: linear ranges by
// step or by count, and logarithmic ones. The logarithm is a parameter
// `logOf(x, base)`; doubles are reals, so the infinite and NaN quotients of a
// zero step are written out where the source reaches them.

module Generators {
  import opened Wrappers
  import opened Numerics

  /** The number of points `range` allocates: round((end - start) / step),
      narrowed to int. A zero step divides to NaN (rounded to 0) when the
      bounds agree and to +infinity (rounded to the largest long, narrowed to
      -1) when they do not. */
  function RangeCount(start: real, end: real, step: real): (count: int)
    ensures IntMin <= count <= IntMax
    ensures step == 0.0 ==> (count == 0 <==> end == start)
    ensures step == 0.0 && end != start ==> count == -1
  {
    if step == 0.0 then
      (if end == start then 0 else Wrap32(LongMax))
    else
      Wrap32(RoundLong((end - start) / step))
  }

  /** For a positive step and a span of fewer than 2^31 - 1 steps the count is
      the nearest whole number of steps, so the points stop within half a step
      of `end`. */
  lemma RangeCountNearest(start: real, end: real, step: real)
    requires step > 0.0 && start <= end
    requires (end - start) / step < IntMax as real
    ensures 0 <= RangeCount(start, end, step)
    ensures (end - start) - step / 2.0 < RangeCount(start, end, step) as real * step <= (end - start) + step / 2.0
  {
    var q := (end - start) / step;
    assert 0.0 <= q;
    assert 0 <= (q + 0.5).Floor <= IntMax;
    var n := RoundLong(q);
    assert q - 0.5 < n as real <= q + 0.5;
    assert RangeCount(start, end, step) == n;
    assert q * step == end - start;
    var below, above := n as real - (q - 0.5), (q + 0.5) - n as real;
    assert 0.0 < below * step && 0.0 <= above * step;
    assert below * step == n as real * step - (q - 0.5) * step;
    assert above * step == (q + 0.5) * step - n as real * step;
    assert (q - 0.5) * step == (end - start) - step / 2.0;
    assert (q + 0.5) * step == (end - start) + step / 2.0;
  }

  /** The i-th point of a linear array. */
  function Point(start: real, step: real, i: int): real
  {
    start + i as real * step
  }

  /** `getData(start, step, count)`: point i is start + i * step; a negative
      count cannot be allocated. */
  method GetData(start: real, step: real, count: int) returns (r: Result<array<real>>)
    ensures count < 0 <==> r == Err(NegativeArraySize(count))
    ensures count >= 0 <==> r.Ok?
    ensures r.Ok? ==> fresh(r.value) && r.value.Length == count
    ensures r.Ok? ==> forall i :: 0 <= i < count ==> r.value[i] == Point(start, step, i)
  {
    if count < 0 {
      return Err(NegativeArraySize(count));
    }
    var data := new real[count];
    for i := 0 to count
      invariant forall k :: 0 <= k < i ==> data[k] == Point(start, step, k)
    {
      data[i] := start + i as real * step;
    }
    r := Ok(data);
  }

  /** `range(start, end, step)`: RangeCount points from `start` by `step`. */
  method Range(start: real, end: real, step: real) returns (r: Result<array<real>>)
    ensures end < start ==> r == Err(IllegalArgument("start"))
    ensures start <= end && RangeCount(start, end, step) < 0 ==>
      r == Err(NegativeArraySize(RangeCount(start, end, step)))
    ensures r.Ok? ==> start <= end && fresh(r.value) && r.value.Length == RangeCount(start, end, step)
    ensures r.Ok? ==> forall i :: 0 <= i < r.value.Length ==> r.value[i] == Point(start, step, i)
  {
    if end < start {
      return Err(IllegalArgument("start"));
    }
    r := GetData(start, step, RangeCount(start, end, step));
  }

  /** The step `space` divides the span by; with no points it is never used. */
  function SpaceStep(start: real, end: real, count: int): real
  {
    if count == 0 then 0.0 else (end - start) / count as real
  }

  /** `space(start, end, count)`: `count` points from `start` that split
      [start, end] into equal parts. */
  method Space(start: real, end: real, count: int) returns (r: Result<array<real>>)
    ensures end < start ==> r == Err(IllegalArgument("start"))
    ensures start <= end && count < 0 ==> r == Err(NegativeArraySize(count))
    ensures start <= end && count >= 0 ==> r.Ok?
    ensures r.Ok? ==> fresh(r.value) && r.value.Length == count
    ensures r.Ok? ==> forall i :: 0 <= i < count ==> r.value[i] == Point(start, SpaceStep(start, end, count), i)
  {
    if end < start {
      return Err(IllegalArgument("start"));
    }
    r := GetData(start, SpaceStep(start, end, count), count);
  }

  /** The points of `space` start at `start`, rise by equal steps, and stay
      below `end` (the end itself is not a point) unless the span is empty. */
  lemma SpacePoints(start: real, end: real, count: nat, i: nat)
    requires start <= end && i < count
    ensures Point(start, SpaceStep(start, end, count), 0) == start
    ensures start <= Point(start, SpaceStep(start, end, count), i)
    ensures start < end ==> Point(start, SpaceStep(start, end, count), i) < end
    ensures Point(start, SpaceStep(start, end, count), count) == end
  {
    var step := (end - start) / count as real;
    assert step * count as real == end - start;
    assert 0.0 <= step;
    assert 0.0 <= i as real * step;
    if start < end {
      assert 0.0 < step;
      assert i as real * step < count as real * step;
    }
  }

  /** The i-th point of a logarithmic array: the span times one plus the
      logarithm of (i + 1) / count, added to `start`. */
  function LogPoint(start: real, end: real, base: real, count: int, i: int,
                    logOf: (real, real) -> real): real
    requires count != 0
  {
    start + (end - start) * (1.0 + logOf((i + 1) as real / count as real, base))
  }

  /** `getDataLog(start, end, base, count)`. */
  method GetDataLog(start: real, end: real, base: real, count: int, logOf: (real, real) -> real)
    returns (r: Result<array<real>>)
    ensures count < 0 <==> r == Err(NegativeArraySize(count))
    ensures count >= 0 <==> r.Ok?
    ensures r.Ok? ==> fresh(r.value) && r.value.Length == count
    ensures r.Ok? ==> forall i :: 0 <= i < count ==> r.value[i] == LogPoint(start, end, base, count, i, logOf)
  {
    if count < 0 {
      return Err(NegativeArraySize(count));
    }
    var data := new real[count];
    var span := end - start;
    for i := 0 to count
      invariant forall k :: 0 <= k < i ==> data[k] == LogPoint(start, end, base, count, k, logOf)
    {
      data[i] := start + span * (1.0 + logOf((i + 1) as real / count as real, base));
    }
    r := Ok(data);
  }

  /** `spaceLog(start, end, count)`: `count` points in base 10. */
  method SpaceLog(start: real, end: real, count: int, logOf: (real, real) -> real)
    returns (r: Result<array<real>>)
    ensures end < start ==> r == Err(IllegalArgument("start"))
    ensures start <= end && count < 0 ==> r == Err(NegativeArraySize(count))
    ensures start <= end && count >= 0 ==> r.Ok?
    ensures r.Ok? ==> fresh(r.value) && r.value.Length == count
    ensures r.Ok? ==> forall i :: 0 <= i < count ==> r.value[i] == LogPoint(start, end, 10.0, count, i, logOf)
  {
    if end < start {
      return Err(IllegalArgument("start"));
    }
    r := GetDataLog(start, end, 10.0, count, logOf);
  }

  /** The number of points of `rangeLog`: round(log(end / start, base)), narrowed to int. */
  function RangeLogCount(start: real, end: real, base: real, logOf: (real, real) -> real): (count: int)
    requires start != 0.0
    ensures IntMin <= count <= IntMax
  {
    Wrap32(RoundLong(logOf(end / start, base)))
  }

  /** `rangeLog(start, end, base)`. */
  method RangeLog(start: real, end: real, base: real, logOf: (real, real) -> real)
    returns (r: Result<array<real>>)
    requires end < start || start != 0.0
    ensures end < start ==> r == Err(IllegalArgument("start"))
    ensures start <= end && RangeLogCount(start, end, base, logOf) < 0 ==>
      r == Err(NegativeArraySize(RangeLogCount(start, end, base, logOf)))
    ensures r.Ok? ==> fresh(r.value) && r.value.Length == RangeLogCount(start, end, base, logOf)
    ensures r.Ok? ==> forall i :: 0 <= i < r.value.Length ==>
      r.value[i] == LogPoint(start, end, base, r.value.Length, i, logOf)
  {
    if end < start {
      return Err(IllegalArgument("start"));
    }
    r := GetDataLog(start, end, base, RangeLogCount(start, end, base, logOf), logOf);
  }

  /** Whenever the logarithm of 1 is 0, the last logarithmic point is `end`;
      and when the logarithm is never positive below 1, no point passes it. */
  lemma LogPointsEndAtEnd(start: real, end: real, base: real, count: nat, i: nat,
                          logOf: (real, real) -> real)
    requires 0 < count && i < count && start <= end
    requires logOf(1.0, base) == 0.0
    ensures LogPoint(start, end, base, count, count - 1, logOf) == end
    ensures logOf((i + 1) as real / count as real, base) <= 0.0 ==>
      LogPoint(start, end, base, count, i, logOf) <= end
  {
    assert count as real / count as real == 1.0;
    var l := logOf((i + 1) as real / count as real, base);
    if l <= 0.0 {
      assert (end - start) * (1.0 + l) <= (end - start) * 1.0;
    }
  }
}
