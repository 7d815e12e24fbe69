/**
 * The pump controller and the sensor simulation as transitions of the
 * monitor's state: the process-wide selection and pump flag, and the store
 * (tank rows by id, plus the append-only sensor-reading and alert tables).
 * Each locked transaction of the desktop monitor is one transition here.
 */
module PumpControl {
  import opened Wrappers
  import opened TankLevels

  /** Litres the pump adds per cycle. */
  const PumpFlowRate: real := 50.0

  datatype AlertKind = LowWater | HighWater

  /** A sensor-reading row: the tank it belongs to and the level recorded. */
  datatype SensorReading = SensorReading(tankId: int, waterLevel: real)

  /** An alert row; its message text is presentation and is not modelled. */
  datatype Alert = Alert(tankId: int, kind: AlertKind)

  datatype State = State(
    selected: Option<int>,
    pumpRunning: bool,
    tanks: map<int, Tank>,
    readings: seq<SensorReading>,
    alerts: seq<Alert>)

  /** Python truthiness of the selected id: `None` and `0` both read as "no tank selected". */
  predicate HasSelection(selected: Option<int>)
  {
    selected.Some? && selected.value != 0
  }

  /** Every stored tank keeps its level within [0, capacity]. */
  predicate StoreInBounds(tanks: map<int, Tank>)
  {
    forall id :: id in tanks ==> LevelInBounds(tanks[id])
  }

  /** Outcome of reading a tank row: the row, `DoesNotExist`, or a store error. */
  datatype Lookup = Found(tank: Tank) | Missing | Unavailable

  /** Fetching tank `id`; `storeUp` is false when the store raises an error. */
  function Fetch(tanks: map<int, Tank>, id: int, storeUp: bool): (r: Lookup)
    ensures r.Found? <==> storeUp && id in tanks
    ensures r.Found? ==> r.tank == tanks[id]
    ensures r == Missing <==> storeUp && id !in tanks
  {
    if !storeUp then Unavailable
    else if id in tanks then Found(tanks[id])
    else Missing
  }

  function Min(a: real, b: real): real
  {
    if b < a then b else a
  }

  function Max(a: real, b: real): real
  {
    if b > a then b else a
  }

  /** Clamping into [0, capacity], as `max(0.0, min(capacity, level))`. */
  function Clamp(level: real, capacity: real): (r: real)
    ensures 0.0 <= capacity ==> 0.0 <= r <= capacity
    ensures 0.0 <= level <= capacity ==> r == level
    ensures capacity < 0.0 ==> r == 0.0
  {
    Max(0.0, Min(capacity, level))
  }

  /**
   * Starting or stopping the pump. With no tank selected nothing happens;
   * otherwise the pump ends in the requested state, which makes a repeated
   * request a no-op.
   */
  function Toggle(s: State, turnOn: bool): (r: State)
    ensures !HasSelection(s.selected) ==> r == s
    ensures HasSelection(s.selected) ==> r == s.(pumpRunning := turnOn)
  {
    if !HasSelection(s.selected) then s
    else if turnOn && !s.pumpRunning then s.(pumpRunning := true)
    else if !turnOn && s.pumpRunning then s.(pumpRunning := false)
    else s
  }

  /** A second identical request changes nothing. */
  lemma ToggleIdempotent(s: State, turnOn: bool)
    ensures Toggle(Toggle(s, turnOn), turnOn) == Toggle(s, turnOn)
  {
  }

  /**
   * The automatic check against the stored level of the selected tank:
   * start below the minimum when stopped, stop at or above the maximum when
   * running, and request a stop when the tank cannot be read.
   */
  function AutoCheck(s: State, storeUp: bool): (r: State)
    ensures r == s.(pumpRunning := r.pumpRunning)
    ensures !HasSelection(s.selected) ==> r == s
    ensures HasSelection(s.selected) && !Fetch(s.tanks, s.selected.value, storeUp).Found? ==> !r.pumpRunning
    ensures !s.pumpRunning && r.pumpRunning ==>
              HasSelection(s.selected) && s.selected.value in s.tanks && storeUp
              && FillPercentage(s.tanks[s.selected.value]) < s.tanks[s.selected.value].minThreshold
    ensures s.pumpRunning && !r.pumpRunning ==>
              HasSelection(s.selected)
              && (!Fetch(s.tanks, s.selected.value, storeUp).Found?
                  || FillPercentage(s.tanks[s.selected.value]) >= s.tanks[s.selected.value].maxThreshold)
    ensures HasSelection(s.selected) && storeUp && s.selected.value in s.tanks ==>
              var t := s.tanks[s.selected.value];
              && (FillPercentage(t) < t.minThreshold && !s.pumpRunning ==> r.pumpRunning)
              && (FillPercentage(t) >= t.maxThreshold && s.pumpRunning ==> !r.pumpRunning)
  {
    if !HasSelection(s.selected) then s
    else
      match Fetch(s.tanks, s.selected.value, storeUp)
      case Found(t) =>
        var pct := FillPercentage(t);
        if pct < t.minThreshold && !s.pumpRunning then Toggle(s, true)
        else if pct >= t.maxThreshold && s.pumpRunning then Toggle(s, false)
        else s
      case Missing => Toggle(s, false)
      case Unavailable => Toggle(s, false)
  }

  /** The pump action the thresholds call for on their own. */
  datatype PumpAction = StartPump | StopPump | NoChange

  function DesiredAction(t: Tank): PumpAction
  {
    var pct := FillPercentage(t);
    if pct < t.minThreshold then StartPump
    else if pct >= t.maxThreshold then StopPump
    else NoChange
  }

  function Apply(action: PumpAction, running: bool): bool
  {
    match action
    case StartPump => true
    case StopPump => false
    case NoChange => running
  }

  /**
   * With consistent thresholds (minimum not above maximum) the automatic
   * check on a readable tank does exactly what the thresholds call for.
   */
  lemma AutoCheckFollowsThresholds(s: State)
    requires HasSelection(s.selected) && s.selected.value in s.tanks
    requires s.tanks[s.selected.value].minThreshold <= s.tanks[s.selected.value].maxThreshold
    ensures AutoCheck(s, true).pumpRunning == Apply(DesiredAction(s.tanks[s.selected.value]), s.pumpRunning)
  {
  }

  /**
   * With the minimum above the maximum the check disagrees with the
   * thresholds: a running pump below the minimum but at the maximum is stopped.
   */
  lemma AutoCheckWithCrossedThresholds()
    ensures var t := Tank("yard", 100.0, 50.0, 60.0, 40.0);
            var s := State(Some(1), true, map[1 := t], [], []);
            DesiredAction(t) == StartPump && !AutoCheck(s, true).pumpRunning
  {
  }

  /** The result of one pass of the pump loop: the new state and whether the loop goes on. */
  datatype CycleOutcome = CycleOutcome(state: State, keepRunning: bool)

  /**
   * One pass of the pump loop. A stopped pump ends the loop; with no tank
   * selected the pass does nothing; a tank that cannot be read stops the
   * pump; a tank at or above its maximum stops the pump without a write;
   * otherwise the level rises by the flow rate, capped at the capacity, a
   * reading is recorded, and an overshoot past the maximum records a
   * high-water alert and stops the pump.
   */
  function Cycle(s: State, storeUp: bool): (r: CycleOutcome)
    ensures r.state.selected == s.selected
    ensures r.state.tanks.Keys == s.tanks.Keys
    ensures r.keepRunning <==> r.state.pumpRunning
    ensures !s.pumpRunning ==> r == CycleOutcome(s, false)
    ensures StoreInBounds(s.tanks) ==> StoreInBounds(r.state.tanks)
    ensures r.state.readings == s.readings ==> r.state.tanks == s.tanks && r.state.alerts == s.alerts
    ensures r.state.readings != s.readings ==>
              HasSelection(s.selected) && s.selected.value in s.tanks &&
              var id := s.selected.value;
              && r.state.tanks == s.tanks[id := s.tanks[id].(currentLevel := r.state.tanks[id].currentLevel)]
              && r.state.readings == s.readings + [SensorReading(id, r.state.tanks[id].currentLevel)]
    ensures r.state.alerts == s.alerts || (r.state.alerts == s.alerts + [Alert(s.selected.value, HighWater)] && !r.keepRunning)
  {
    if !s.pumpRunning then CycleOutcome(s, false)
    else if !HasSelection(s.selected) then CycleOutcome(s, true)
    else
      var id := s.selected.value;
      match Fetch(s.tanks, id, storeUp)
      case Missing => CycleOutcome(Toggle(s, false), false)
      case Unavailable => CycleOutcome(Toggle(s, false), false)
      case Found(t) =>
        if FillPercentage(t) >= t.maxThreshold then CycleOutcome(Toggle(s, false), false)
        else
          var newLevel := Min(t.capacity, t.currentLevel + PumpFlowRate);
          var written := s.(tanks := s.tanks[id := t.(currentLevel := newLevel)],
                            readings := s.readings + [SensorReading(id, newLevel)]);
          if Percentage(newLevel, t.capacity) > t.maxThreshold then
            CycleOutcome(Toggle(written.(alerts := written.alerts + [Alert(id, HighWater)]), false), false)
          else
            CycleOutcome(written, true)
  }

  /** A tank that cannot be read stops the pump and the loop, and nothing is written. */
  lemma CycleStopsOnLookupFailure(s: State, storeUp: bool)
    requires s.pumpRunning && HasSelection(s.selected)
    requires !Fetch(s.tanks, s.selected.value, storeUp).Found?
    ensures Cycle(s, storeUp) == CycleOutcome(s.(pumpRunning := false), false)
  {
  }

  /** At or above the maximum, the pass stops the pump and writes nothing. */
  lemma CycleStopsAtMaximum(s: State)
    requires s.pumpRunning && HasSelection(s.selected) && s.selected.value in s.tanks
    requires FillPercentage(s.tanks[s.selected.value]) >= s.tanks[s.selected.value].maxThreshold
    ensures Cycle(s, true) == CycleOutcome(s.(pumpRunning := false), false)
  {
  }

  /**
   * Below the maximum, the pass raises the level to min(capacity, level +
   * flow rate): never lower, never above the capacity; it records exactly
   * one reading of the new level, and a high-water alert and a stop exactly
   * when the new percentage is above the maximum.
   */
  lemma CycleFillsBelowMaximum(s: State)
    requires s.pumpRunning && HasSelection(s.selected) && s.selected.value in s.tanks
    requires LevelInBounds(s.tanks[s.selected.value])
    requires FillPercentage(s.tanks[s.selected.value]) < s.tanks[s.selected.value].maxThreshold
    ensures var id, t, r := s.selected.value, s.tanks[s.selected.value], Cycle(s, true);
            var level := r.state.tanks[id].currentLevel;
            && r.state.tanks == s.tanks[id := t.(currentLevel := level)]
            && t.currentLevel <= level <= t.capacity
            && level <= t.currentLevel + PumpFlowRate
            && (level == t.capacity || level == t.currentLevel + PumpFlowRate)
            && r.state.readings == s.readings + [SensorReading(id, level)]
            && (Percentage(level, t.capacity) > t.maxThreshold <==> r.state.alerts == s.alerts + [Alert(id, HighWater)])
            && (Percentage(level, t.capacity) <= t.maxThreshold <==> r.state.alerts == s.alerts)
            && (r.keepRunning <==> Percentage(level, t.capacity) <= t.maxThreshold)
  {
  }

  /**
   * The pump loop, with the store's availability on each pass given in
   * advance. Over any number of passes the selection is kept, no tank is
   * added or removed, levels stay within bounds, and the reading and alert
   * tables only grow.
   */
  function Run(s: State, availability: seq<bool>): (r: State)
    ensures r.selected == s.selected
    ensures r.tanks.Keys == s.tanks.Keys
    ensures StoreInBounds(s.tanks) ==> StoreInBounds(r.tanks)
    ensures |s.readings| <= |r.readings| && r.readings[..|s.readings|] == s.readings
    ensures |s.alerts| <= |r.alerts| && r.alerts[..|s.alerts|] == s.alerts
    decreases |availability|
  {
    if availability == [] then s
    else
      var c := Cycle(s, availability[0]);
      if c.keepRunning then
        var r := Run(c.state, availability[1..]);
        assert r.readings[..|s.readings|] == r.readings[..|c.state.readings|][..|s.readings|];
        assert r.alerts[..|s.alerts|] == r.alerts[..|c.state.alerts|][..|s.alerts|];
        r
      else c.state
  }

  /**
   * With the store available, a pump filling a readable tank with a
   * maximum of at most 100% has stopped within n + 1 passes once n passes
   * of the flow rate would cover the space left in the tank.
   */
  lemma {:induction false} PumpStopsWhenFull(s: State, n: nat)
    requires s.pumpRunning && HasSelection(s.selected) && s.selected.value in s.tanks
    requires var t := s.tanks[s.selected.value];
             0.0 < t.capacity && LevelInBounds(t) && t.maxThreshold <= 100.0
             && (n as real) * PumpFlowRate >= t.capacity - t.currentLevel
    ensures !Run(s, seq(n + 1, _ => true)).pumpRunning
    decreases n
  {
    var all := seq(n + 1, _ => true);
    var id, t := s.selected.value, s.tanks[s.selected.value];
    var c := Cycle(s, true);
    assert all[0] && all[1..] == seq(n, _ => true);
    if c.keepRunning {
      CycleFillsBelowMaximum(s);
      var level := c.state.tanks[id].currentLevel;
      if n == 0 {
        assert false;
      }
      assert ((n - 1) as real) * PumpFlowRate >= t.capacity - level;
      PumpStopsWhenFull(c.state, n - 1);
    }
  }

  /**
   * A maximum above 100% is never reached: a pump filling a full tank keeps
   * running pass after pass, recording the same level each time.
   */
  lemma {:induction false} PumpNeverStopsAboveFull(s: State, n: nat)
    requires s.pumpRunning && HasSelection(s.selected) && s.selected.value in s.tanks
    requires var t := s.tanks[s.selected.value];
             0.0 < t.capacity && t.currentLevel == t.capacity && t.maxThreshold > 100.0
    ensures Run(s, seq(n, _ => true)).pumpRunning
    ensures Run(s, seq(n, _ => true)).tanks == s.tanks
    decreases n
  {
    if n > 0 {
      var all := seq(n, _ => true);
      assert all[0] && all[1..] == seq(n - 1, _ => true);
      var id, t := s.selected.value, s.tanks[s.selected.value];
      var c := Cycle(s, true);
      assert c.state.tanks[id] == t;
      assert c.state.tanks == s.tanks;
      PumpNeverStopsAboveFull(c.state, n - 1);
    }
  }

  /** The alert a reading at `pct` raises: low water first, else high water, else none. */
  function AlertsFor(id: int, pct: real, t: Tank): (r: seq<Alert>)
    ensures |r| <= 1
    ensures r == [] <==> Status(pct, t.minThreshold, t.maxThreshold) == Optimal
    ensures r == [Alert(id, LowWater)] <==> Status(pct, t.minThreshold, t.maxThreshold) == TankStatus.Low
    ensures r == [Alert(id, HighWater)] <==> Status(pct, t.minThreshold, t.maxThreshold) == TankStatus.High
  {
    if pct < t.minThreshold then [Alert(id, LowWater)]
    else if pct > t.maxThreshold then [Alert(id, HighWater)]
    else []
  }

  /** Storing `newLevel` for tank `id`, with its reading and the alert the new percentage raises. */
  function Record(s: State, id: int, t: Tank, newLevel: real): (r: State)
    ensures r.selected == s.selected && r.pumpRunning == s.pumpRunning
    ensures r.tanks == s.tanks[id := t.(currentLevel := newLevel)]
    ensures r.readings == s.readings + [SensorReading(id, newLevel)]
    ensures |s.alerts| <= |r.alerts| <= |s.alerts| + 1 && r.alerts[..|s.alerts|] == s.alerts
    ensures |r.alerts| == |s.alerts| <==> Status(Percentage(newLevel, t.capacity), t.minThreshold, t.maxThreshold) == Optimal
  {
    s.(tanks := s.tanks[id := t.(currentLevel := newLevel)],
       readings := s.readings + [SensorReading(id, newLevel)],
       alerts := s.alerts + AlertsFor(id, Percentage(newLevel, t.capacity), t))
  }

  /**
   * A manual sensor reading on the selected tank: perturb the level by
   * `draw` times the capacity (`draw` is the uniform draw in [-0.05, 0.05]),
   * clamp it into [0, capacity], store it, record a reading, raise at most
   * one alert, then run the automatic pump check on the new level. Without
   * a selection, or when the tank cannot be read, nothing changes.
   */
  function Simulate(s: State, draw: real, storeUp: bool): (r: State)
    requires -0.05 <= draw <= 0.05
    ensures r.selected == s.selected && r.tanks.Keys == s.tanks.Keys
    ensures !HasSelection(s.selected) || !Fetch(s.tanks, s.selected.value, storeUp).Found? ==> r == s
    ensures StoreInBounds(s.tanks) ==> StoreInBounds(r.tanks)
    ensures |s.readings| <= |r.readings| <= |s.readings| + 1 && r.readings[..|s.readings|] == s.readings
  {
    if !HasSelection(s.selected) then s
    else
      var id := s.selected.value;
      match Fetch(s.tanks, id, storeUp)
      case Found(t) =>
        var newLevel := Clamp(t.currentLevel + draw * t.capacity, t.capacity);
        AutoCheck(Record(s, id, t, newLevel), true)
      case Missing => s
      case Unavailable => s
  }

  lemma ProductNonnegative(a: real, b: real)
    requires 0.0 <= a && 0.0 <= b
    ensures 0.0 <= a * b
  {
  }

  /** A perturbation of at most 5% of the capacity, clamped, moves the level by at most 5% of the capacity. */
  lemma ClampedStep(level: real, capacity: real, draw: real)
    requires -0.05 <= draw <= 0.05
    requires 0.0 <= level <= capacity
    ensures var r := Clamp(level + draw * capacity, capacity);
            0.0 <= r <= capacity && -0.05 * capacity <= r - level <= 0.05 * capacity
  {
    ProductNonnegative(draw + 0.05, capacity);
    ProductNonnegative(0.05 - draw, capacity);
  }

  /**
   * What a manual reading does to the store: the selected tank gets a level
   * within [0, capacity] at most 5% of the capacity away from the old one,
   * exactly one reading of that level is recorded, and at most one alert,
   * whose kind matches the tank's new status. The selection is kept.
   */
  lemma SimulateEffect(s: State, draw: real)
    requires -0.05 <= draw <= 0.05
    requires HasSelection(s.selected) && s.selected.value in s.tanks
    requires LevelInBounds(s.tanks[s.selected.value])
    ensures var id, t, r := s.selected.value, s.tanks[s.selected.value], Simulate(s, draw, true);
            var level := r.tanks[id].currentLevel;
            var pct := Percentage(level, t.capacity);
            && r.selected == s.selected
            && r.tanks == s.tanks[id := t.(currentLevel := level)]
            && 0.0 <= level <= t.capacity
            && -0.05 * t.capacity <= level - t.currentLevel <= 0.05 * t.capacity
            && r.readings == s.readings + [SensorReading(id, level)]
            && r.alerts == s.alerts + AlertsFor(id, pct, t)
            && r == AutoCheck(r.(pumpRunning := s.pumpRunning), true)
  {
    ClampedStep(s.tanks[s.selected.value].currentLevel, s.tanks[s.selected.value].capacity, draw);
  }

  /**
   * Clearing the selected-tank display as the code does it: the selection
   * is dropped first, so the stop request that follows finds no tank and
   * the pump flag is left as it was.
   */
  function ClearAsWritten(s: State): (r: State)
    ensures r.selected == None && !HasSelection(r.selected)
    ensures r.pumpRunning == s.pumpRunning
    ensures r == s.(selected := None)
  {
    Toggle(s.(selected := None), false)
  }

  /** The pump only runs while a tank is selected. */
  predicate PumpNeedsSelection(s: State)
  {
    s.pumpRunning ==> HasSelection(s.selected)
  }

  /** Clearing as written, while the pump runs, leaves the pump running with no tank selected. */
  lemma ClearAsWrittenLeavesPumpRunning()
    ensures var s := State(Some(5), true, map[], [], []);
            PumpNeedsSelection(s) && !PumpNeedsSelection(ClearAsWritten(s))
  {
  }

  /** Clearing the selected-tank display as intended: no tank selected and the pump off. */
  function ClearCorrected(s: State): (r: State)
    ensures r.selected == None && !r.pumpRunning
    ensures r == s.(selected := None, pumpRunning := false)
    ensures PumpNeedsSelection(r)
  {
    s.(selected := None, pumpRunning := false)
  }

  /**
   * Refreshing the selected-tank display: a selection that is not a
   * readable tank (no selection, a missing row, a store error) is cleared
   * as the code clears it; otherwise only labels change.
   */
  function Refresh(s: State, storeUp: bool): (r: State)
    ensures HasSelection(s.selected) && Fetch(s.tanks, s.selected.value, storeUp).Found? ==> r == s
    ensures !(HasSelection(s.selected) && Fetch(s.tanks, s.selected.value, storeUp).Found?) ==> r == s.(selected := None)
  {
    if HasSelection(s.selected) then
      match Fetch(s.tanks, s.selected.value, storeUp)
      case Found(_) => s
      case Missing => ClearAsWritten(s)
      case Unavailable => ClearAsWritten(s)
    else ClearAsWritten(s)
  }

  /** `Refresh` over the corrected clear. */
  function RefreshCorrected(s: State, storeUp: bool): (r: State)
    ensures HasSelection(s.selected) && Fetch(s.tanks, s.selected.value, storeUp).Found? ==> r == s
    ensures !(HasSelection(s.selected) && Fetch(s.tanks, s.selected.value, storeUp).Found?) ==> r == ClearCorrected(s)
  {
    if HasSelection(s.selected) && Fetch(s.tanks, s.selected.value, storeUp).Found? then s
    else ClearCorrected(s)
  }

  /**
   * Choosing a tank: the selection is set, the display refresh clears it
   * when it is not a readable tank, and the automatic check then runs on
   * what remains selected. The refresh and the check read the store
   * separately; `refreshUp` and `checkUp` say whether each read succeeds.
   */
  function Select(s: State, id: Option<int>, refreshUp: bool, checkUp: bool): (r: State)
    ensures r.tanks == s.tanks && r.readings == s.readings && r.alerts == s.alerts
    ensures HasSelection(id) && Fetch(s.tanks, id.value, refreshUp).Found? ==>
              r == AutoCheck(s.(selected := id), checkUp)
    ensures !(HasSelection(id) && Fetch(s.tanks, id.value, refreshUp).Found?) ==>
              r == s.(selected := None)
  {
    AutoCheck(Refresh(s.(selected := id), refreshUp), checkUp)
  }

  /** `Select` over the corrected clear. */
  function SelectCorrected(s: State, id: Option<int>, refreshUp: bool, checkUp: bool): (r: State)
    ensures r.tanks == s.tanks && r.readings == s.readings && r.alerts == s.alerts
    ensures HasSelection(id) && Fetch(s.tanks, id.value, refreshUp).Found? ==>
              r == AutoCheck(s.(selected := id), checkUp)
    ensures !(HasSelection(id) && Fetch(s.tanks, id.value, refreshUp).Found?) ==>
              r == s.(selected := None, pumpRunning := false)
  {
    AutoCheck(RefreshCorrected(s.(selected := id), refreshUp), checkUp)
  }

  /** Selecting a tank id that is not in the store leaves nothing selected and the pump flag as it was. */
  lemma SelectMissingTank(s: State, id: int, checkUp: bool)
    requires id !in s.tanks
    ensures Select(s, Some(id), true, checkUp).selected == None
    ensures Select(s, Some(id), true, checkUp).pumpRunning == s.pumpRunning
  {
  }

  /**
   * Pumping into tank 5 and then selecting id 9, which is not in the store,
   * leaves nothing selected and the pump running.
   */
  lemma SelectMissingTankLeavesPumpRunning()
    ensures var s := State(Some(5), true, map[5 := Tank("east", 1000.0, 100.0, 20.0, 90.0)], [], []);
            var r := Select(s, Some(9), true, true);
            PumpNeedsSelection(s) && r.selected == None && r.pumpRunning && !PumpNeedsSelection(r)
  {
  }

  /** With the corrected clear, selecting a missing tank id leaves nothing selected and the pump off. */
  lemma SelectCorrectedMissingTank(s: State, id: int, checkUp: bool)
    requires id !in s.tanks
    ensures SelectCorrected(s, Some(id), true, checkUp).selected == None
    ensures !SelectCorrected(s, Some(id), true, checkUp).pumpRunning
  {
  }

  /**
   * A readable tank whose automatic check then meets a store error: the
   * selection is kept and a running pump is stopped.
   */
  lemma SelectThenCheckFails(s: State, id: int)
    requires id != 0 && id in s.tanks
    ensures Select(s, Some(id), true, false) == s.(selected := Some(id), pumpRunning := false)
  {
  }

  /** With the corrected clear, every transition keeps the pump from running without a selected tank. */
  lemma TransitionsKeepPumpNeedsSelection(s: State, turnOn: bool, storeUp: bool, checkUp: bool, draw: real, id: Option<int>)
    requires PumpNeedsSelection(s)
    requires -0.05 <= draw <= 0.05
    ensures PumpNeedsSelection(Toggle(s, turnOn))
    ensures PumpNeedsSelection(AutoCheck(s, storeUp))
    ensures PumpNeedsSelection(Cycle(s, storeUp).state)
    ensures PumpNeedsSelection(Simulate(s, draw, storeUp))
    ensures PumpNeedsSelection(RefreshCorrected(s, storeUp))
    ensures PumpNeedsSelection(SelectCorrected(s, id, storeUp, checkUp))
  {
  }

  /** Threshold scenario: 1000 L of 10000 L (10%) with thresholds 20/90 reads Low and starts the pump. */
  lemma LowTankStartsPump()
    ensures var t := Tank("north", 10000.0, 1000.0, 20.0, 90.0);
            var s := State(Some(7), false, map[7 := t], [], []);
            TankStatusOf(t) == TankStatus.Low && DesiredAction(t) == StartPump && AutoCheck(s, true).pumpRunning
  {
  }

  /**
   * Pump scenario: at 9980 L of 10000 L (99.8%) with a maximum of 90% the
   * pass stops the pump before adding water, so no reading and no alert are
   * recorded.
   */
  lemma NearlyFullTankStopsWithoutWrite()
    ensures var t := Tank("north", 10000.0, 9980.0, 20.0, 90.0);
            var s := State(Some(7), true, map[7 := t], [], []);
            var c := Cycle(s, true);
            !c.keepRunning && c.state.tanks == s.tanks && c.state.readings == [] && c.state.alerts == []
  {
  }

  /**
   * Overshoot scenario: at 80 L of 100 L with a maximum of 90% one pass adds
   * the flow, caps the level at 100 L, records it, raises a high-water
   * alert and stops the pump.
   */
  lemma OvershootRaisesHighWater()
    ensures var t := Tank("south", 100.0, 80.0, 20.0, 90.0);
            var s := State(Some(3), true, map[3 := t], [], []);
            var c := Cycle(s, true);
            && !c.keepRunning && !c.state.pumpRunning
            && c.state.tanks[3].currentLevel == 100.0
            && c.state.readings == [SensorReading(3, 100.0)]
            && c.state.alerts == [Alert(3, HighWater)]
  {
  }
}
