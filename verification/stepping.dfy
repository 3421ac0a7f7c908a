/** Step-and-clamp rules behind the increase/decrease shortcuts of the tool
    option sliders. The widgets (IntSliders, DoubleSliders) read their value,
    apply one of these rules and write the result back; the rules themselves
    are pure arithmetic and are specified and proved here. */
module Stepping {

  /** The brush size whose "cross-like" shape is hard to use; pencil mode
      skips it when stepping. */
  const CrossSize: int := 3

  /** A size a step may stop on: in pencil mode every size but the cross. */
  predicate Allowed(size: int, pencilMode: bool) {
    !(pencilMode && size == CrossSize)
  }

  /** One step up of an integer size: +1, skip the cross in pencil mode,
      then cap at maxValue. The result is the least allowed size above `v`,
      unless that lies beyond the cap. */
  function IncreaseInt(v: int, maxValue: int, pencilMode: bool): (r: int)
    ensures r <= maxValue
    ensures v < maxValue ==> v < r
    ensures v >= maxValue ==> r == maxValue
    ensures Allowed(r, pencilMode) || r == maxValue
    ensures forall u :: v < u < r ==> !Allowed(u, pencilMode)
  {
    var stepped := v + 1;
    var skipped := if stepped == CrossSize && pencilMode then stepped + 1 else stepped;
    if skipped > maxValue then maxValue else skipped
  }

  /** One step down of an integer size: -1, skip the cross in pencil mode,
      then floor at minValue. The result is the greatest allowed size below
      `v`, unless that lies beneath the floor. */
  function DecreaseInt(v: int, minValue: int, pencilMode: bool): (r: int)
    ensures r >= minValue
    ensures v > minValue ==> r < v
    ensures v <= minValue ==> r == minValue
    ensures Allowed(r, pencilMode) || r == minValue
    ensures forall u :: r < u < v ==> !Allowed(u, pencilMode)
  {
    var stepped := v - 1;
    var skipped := if stepped == CrossSize && pencilMode then stepped - 1 else stepped;
    if skipped < minValue then minValue else skipped
  }

  /** Stepping up and then down returns to an allowed size inside the range. */
  lemma DecreaseUndoesIncrease(v: int, minValue: int, maxValue: int, pencilMode: bool)
    requires minValue <= v < maxValue && Allowed(v, pencilMode)
    ensures DecreaseInt(IncreaseInt(v, maxValue, pencilMode), minValue, pencilMode) == v
  {
  }

  /** Stepping down and then up returns to an allowed size inside the range. */
  lemma IncreaseUndoesDecrease(v: int, minValue: int, maxValue: int, pencilMode: bool)
    requires minValue < v <= maxValue && Allowed(v, pencilMode)
    ensures IncreaseInt(DecreaseInt(v, minValue, pencilMode), maxValue, pencilMode) == v
  {
  }

  /** The value after `n` presses of the increase shortcut. */
  function IncreaseTimes(v: int, maxValue: int, pencilMode: bool, n: nat): int
    decreases n
  {
    if n == 0 then v else IncreaseTimes(IncreaseInt(v, maxValue, pencilMode), maxValue, pencilMode, n - 1)
  }

  /** The value after `n` presses of the decrease shortcut. */
  function DecreaseTimes(v: int, minValue: int, pencilMode: bool, n: nat): int
    decreases n
  {
    if n == 0 then v else DecreaseTimes(DecreaseInt(v, minValue, pencilMode), minValue, pencilMode, n - 1)
  }

  /** Pressing increase often enough always reaches the maximum and stays there. */
  lemma {:induction false} IncreaseTimesReachesMax(v: int, maxValue: int, pencilMode: bool, n: nat)
    requires v <= maxValue && n >= maxValue - v
    ensures IncreaseTimes(v, maxValue, pencilMode, n) == maxValue
    decreases n
  {
    if n > 0 {
      IncreaseTimesReachesMax(IncreaseInt(v, maxValue, pencilMode), maxValue, pencilMode, n - 1);
    }
  }

  /** Pressing decrease often enough always reaches the minimum and stays there. */
  lemma {:induction false} DecreaseTimesReachesMin(v: int, minValue: int, pencilMode: bool, n: nat)
    requires minValue <= v && n >= v - minValue
    ensures DecreaseTimes(v, minValue, pencilMode, n) == minValue
    decreases n
  {
    if n > 0 {
      DecreaseTimesReachesMin(DecreaseInt(v, minValue, pencilMode), minValue, pencilMode, n - 1);
    }
  }

  /** In pencil mode a run of increases starting from an allowed size never
      lands on the cross unless the maximum itself is the cross. */
  lemma {:induction false} IncreaseTimesAvoidsCross(v: int, maxValue: int, n: nat)
    requires Allowed(v, true) && maxValue != CrossSize
    ensures Allowed(IncreaseTimes(v, maxValue, true, n), true)
    decreases n
  {
    if n > 0 {
      IncreaseTimesAvoidsCross(IncreaseInt(v, maxValue, true), maxValue, n - 1);
    }
  }

  /** In pencil mode a run of decreases starting from an allowed size never
      lands on the cross unless the minimum itself is the cross. */
  lemma {:induction false} DecreaseTimesAvoidsCross(v: int, minValue: int, n: nat)
    requires Allowed(v, true) && minValue != CrossSize
    ensures Allowed(DecreaseTimes(v, minValue, true, n), true)
    decreases n
  {
    if n > 0 {
      DecreaseTimesAvoidsCross(DecreaseInt(v, minValue, true), minValue, n - 1);
    }
  }

  /** The (first, second) value of a two-ended min/max slider. */
  datatype IntPair = IntPair(first: int, second: int)

  /** A pair inside the range with its ends in order. */
  predicate PairInRange(p: IntPair, minValue: int, maxValue: int) {
    minValue <= p.first <= p.second <= maxValue
  }

  /** Increase of the max end: the skip rule and the cap at maxValue. */
  function IncreaseMax(p: IntPair, maxValue: int, pencilMode: bool): (q: IntPair)
    ensures q.first == p.first && q.second <= maxValue
    ensures p.second < maxValue ==> p.second < q.second
    ensures Allowed(q.second, pencilMode) || q.second == maxValue
  {
    p.(second := IncreaseInt(p.second, maxValue, pencilMode))
  }

  /** Decrease of the max end: the skip rule and a floor at the min end; the
      range minimum plays no part. */
  function DecreaseMax(p: IntPair, pencilMode: bool): (q: IntPair)
    ensures q.first == p.first && q.first <= q.second
    ensures p.first < p.second ==> q.second < p.second
    ensures Allowed(q.second, pencilMode) || q.second == q.first
  {
    p.(second := DecreaseInt(p.second, p.first, pencilMode))
  }

  /** Increase of the min end: +1 capped at the max end, no skip rule. */
  function IncreaseMin(p: IntPair): (q: IntPair)
    ensures q.second == p.second && q.first <= q.second
    ensures p.first < p.second ==> q.first == p.first + 1
  {
    p.(first := IncreaseInt(p.first, p.second, false))
  }

  /** Decrease of the min end: -1 floored at the range minimum, no skip rule. */
  function DecreaseMin(p: IntPair, minValue: int): (q: IntPair)
    ensures q.second == p.second && q.first >= minValue
    ensures p.first > minValue ==> q.first == p.first - 1
  {
    p.(first := DecreaseInt(p.first, minValue, false))
  }

  /** Each of the four pair steps keeps an in-range, ordered pair in range and
      ordered. */
  lemma PairStepsPreserveRange(p: IntPair, minValue: int, maxValue: int, pencilMode: bool)
    requires PairInRange(p, minValue, maxValue)
    ensures PairInRange(IncreaseMax(p, maxValue, pencilMode), minValue, maxValue)
    ensures PairInRange(DecreaseMax(p, pencilMode), minValue, maxValue)
    ensures PairInRange(IncreaseMin(p), minValue, maxValue)
    ensures PairInRange(DecreaseMin(p, minValue), minValue, maxValue)
  {
  }

  /** One step up of a real value: +1 capped at maxValue (exact arithmetic). */
  function IncreaseReal(v: real, maxValue: real): (r: real)
    ensures r <= maxValue
    ensures r == v + 1.0 || r == maxValue
    ensures v + 1.0 <= maxValue ==> r == v + 1.0
    ensures v <= maxValue ==> v <= r
  {
    if v + 1.0 > maxValue then maxValue else v + 1.0
  }

  /** One step down of a real value: -1 floored at minValue (exact arithmetic). */
  function DecreaseReal(v: real, minValue: real): (r: real)
    ensures r >= minValue
    ensures r == v - 1.0 || r == minValue
    ensures v - 1.0 >= minValue ==> r == v - 1.0
    ensures v >= minValue ==> r <= v
  {
    if v - 1.0 < minValue then minValue else v - 1.0
  }

  /** Stepping a real value up then down (or down then up) away from the
      bounds returns it unchanged. */
  lemma RealStepsInverse(v: real, minValue: real, maxValue: real)
    ensures minValue + 1.0 <= v + 1.0 <= maxValue ==> DecreaseReal(IncreaseReal(v, maxValue), minValue) == v
    ensures minValue <= v - 1.0 && v <= maxValue ==> IncreaseReal(DecreaseReal(v, minValue), maxValue) == v
  {
  }
}
