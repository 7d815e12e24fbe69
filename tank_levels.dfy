/**
 * The threshold evaluator of the diptank monitor: the fill percentage of a
 * tank and its Low / Optimal / High status against the tank's own minimum
 * and maximum thresholds (both given in percent).
 */
module TankLevels {

  /** A tank row of the store. Levels and capacities are in litres, thresholds in percent. */
  datatype Tank = Tank(
    location: string,
    capacity: real,
    currentLevel: real,
    minThreshold: real,
    maxThreshold: real)

  /** A tank whose level lies within [0, capacity]: the invariant every committed write keeps. */
  predicate LevelInBounds(t: Tank)
  {
    0.0 <= t.currentLevel <= t.capacity
  }

  /**
   * Fill percentage of `level` in a tank of `capacity`; a capacity that is
   * zero or negative yields 0 instead of a division by zero.
   */
  function Percentage(level: real, capacity: real): (p: real)
    ensures capacity <= 0.0 ==> p == 0.0
    ensures capacity > 0.0 ==> p * capacity == level * 100.0
    ensures capacity > 0.0 && 0.0 <= level <= capacity ==> 0.0 <= p <= 100.0
    ensures capacity > 0.0 && level == capacity ==> p == 100.0
  {
    if capacity > 0.0 then level / capacity * 100.0 else 0.0
  }

  /** The fill percentage of a tank's stored level. */
  function FillPercentage(t: Tank): real
  {
    Percentage(t.currentLevel, t.capacity)
  }

  /** A fuller tank never shows a smaller percentage. */
  lemma PercentageMonotone(a: real, b: real, capacity: real)
    requires a <= b
    ensures Percentage(a, capacity) <= Percentage(b, capacity)
  {
    if capacity > 0.0 {
      var pa, pb := Percentage(a, capacity), Percentage(b, capacity);
      assert (pb - pa) * capacity == (b - a) * 100.0;
      if pb < pa {
        assert (pb - pa) * capacity < 0.0;
      }
    }
  }

  datatype TankStatus = Low | Optimal | High

  /**
   * Status of one tank: Low below the minimum, otherwise High strictly above
   * the maximum, otherwise Optimal. Low is checked first, so with
   * inconsistent thresholds (max < pct < min) the tank reads Low.
   */
  function Status(pct: real, minThreshold: real, maxThreshold: real): (s: TankStatus)
    ensures s == Low <==> pct < minThreshold
    ensures s == High <==> minThreshold <= pct && maxThreshold < pct
    ensures s == Optimal <==> minThreshold <= pct <= maxThreshold
    ensures minThreshold <= maxThreshold ==> (s == High <==> maxThreshold < pct)
  {
    if pct < minThreshold then Low
    else if pct > maxThreshold then High
    else Optimal
  }

  /** The status the per-tank display shows for a stored tank. */
  function TankStatusOf(t: Tank): TankStatus
  {
    Status(FillPercentage(t), t.minThreshold, t.maxThreshold)
  }
}
