/**
 * The desktop monitor's controller: the selected tank id and the pump flag
 * it keeps as process-wide state, and the store it reads and writes. Each
 * method performs the steps of one handler in order and is proved to end
 * in the state the matching transition of `PumpControl` describes.
 */
module Monitor {
  import opened Wrappers
  import opened TankLevels
  import opened PumpControl

  class DiptankMonitor {
    var selectedTankId: Option<int>
    var pumpRunning: bool
    var tanks: map<int, Tank>
    var readings: seq<SensorReading>
    var alerts: seq<Alert>

    /** The monitor's state as a value. */
    function Snapshot(): State
      reads this
    {
      State(selectedTankId, pumpRunning, tanks, readings, alerts)
    }

    /** Start-up over an existing store: no tank selected and the pump off. */
    constructor (store: map<int, Tank>, storedReadings: seq<SensorReading>, storedAlerts: seq<Alert>)
      ensures Snapshot() == State(None, false, store, storedReadings, storedAlerts)
    {
      selectedTankId := None;
      pumpRunning := false;
      tanks := store;
      readings := storedReadings;
      alerts := storedAlerts;
    }

    /**
     * Starting or stopping the pump. `threadStarted` reports that this call
     * is the one that launches the pump loop.
     */
    method TogglePump(turnOn: bool) returns (threadStarted: bool)
      modifies this
      ensures Snapshot() == Toggle(old(Snapshot()), turnOn)
      ensures threadStarted <==> HasSelection(old(selectedTankId)) && turnOn && !old(pumpRunning)
    {
      threadStarted := false;
      if !HasSelection(selectedTankId) {
        return;
      }
      if turnOn && !pumpRunning {
        pumpRunning := true;
        threadStarted := true;
      } else if !turnOn && pumpRunning {
        pumpRunning := false;
      }
    }

    /** The automatic pump check on the stored level of the selected tank. */
    method CheckAndTogglePumpAuto(storeUp: bool)
      modifies this
      ensures Snapshot() == AutoCheck(old(Snapshot()), storeUp)
    {
      if HasSelection(selectedTankId) {
        match Fetch(tanks, selectedTankId.value, storeUp)
        case Found(tank) =>
          var pct := FillPercentage(tank);
          if pct < tank.minThreshold && !pumpRunning {
            var _ := TogglePump(true);
          } else if pct >= tank.maxThreshold && pumpRunning {
            var _ := TogglePump(false);
          }
        case Missing =>
          var _ := TogglePump(false);
        case Unavailable =>
          var _ := TogglePump(false);
      }
    }

    /**
     * Clearing the selected-tank display: drop the selection, then request a
     * stop, which finds no tank selected and so leaves the pump flag as it was.
     */
    method ClearSelectedTankDisplay()
      modifies this
      ensures Snapshot() == ClearAsWritten(old(Snapshot()))
    {
      selectedTankId := None;
      var _ := TogglePump(false);
    }

    /** Refreshing the selected-tank display, which clears a selection that cannot be read. */
    method UpdateSelectedTankDisplay(storeUp: bool)
      modifies this
      ensures Snapshot() == Refresh(old(Snapshot()), storeUp)
    {
      if HasSelection(selectedTankId) {
        match Fetch(tanks, selectedTankId.value, storeUp)
        case Found(_) =>
        case Missing =>
          ClearSelectedTankDisplay();
        case Unavailable =>
          ClearSelectedTankDisplay();
      } else {
        ClearSelectedTankDisplay();
      }
    }

    /**
     * Choosing a tank in the selector, followed by the automatic pump check;
     * `refreshUp` and `checkUp` say whether the store read of the refresh
     * and that of the check succeed.
     */
    method OnTankSelected(id: Option<int>, refreshUp: bool, checkUp: bool)
      modifies this
      ensures Snapshot() == Select(old(Snapshot()), id, refreshUp, checkUp)
    {
      selectedTankId := id;
      UpdateSelectedTankDisplay(refreshUp);
      CheckAndTogglePumpAuto(checkUp);
    }

    /**
     * A manual sensor reading; `draw` is the value `random.uniform(-0.05,
     * 0.05)` returned, and `storeUp` is false when the store raises an
     * error, which rolls the whole transaction back.
     */
    method SimulateSensorReading(draw: real, storeUp: bool)
      requires -0.05 <= draw <= 0.05
      modifies this
      ensures Snapshot() == Simulate(old(Snapshot()), draw, storeUp)
    {
      if !HasSelection(selectedTankId) {
        return;
      }
      var id := selectedTankId.value;
      var lookup := Fetch(tanks, id, storeUp);
      if !lookup.Found? {
        return;
      }
      var tank := lookup.tank;
      var fluctuation := draw * tank.capacity;
      var newLevel := tank.currentLevel + fluctuation;
      newLevel := Max(0.0, Min(tank.capacity, newLevel));
      ghost var recorded := Record(old(Snapshot()), id, tank, newLevel);
      assert Simulate(old(Snapshot()), draw, storeUp) == AutoCheck(recorded, true);
      RecordReading(id, tank, newLevel);
      UpdateSelectedTankDisplay(true);
      assert Snapshot() == recorded;
      CheckAndTogglePumpAuto(true);
    }

    /** Saving a new level for a tank, its sensor reading, and a low- or high-water alert when one is due. */
    method RecordReading(id: int, tank: Tank, newLevel: real)
      modifies this
      ensures Snapshot() == Record(old(Snapshot()), id, tank, newLevel)
    {
      var updated := tank.(currentLevel := newLevel);
      tanks := tanks[id := updated];
      readings := readings + [SensorReading(id, newLevel)];
      var pct := Percentage(newLevel, updated.capacity);
      if pct < updated.minThreshold {
        alerts := alerts + [Alert(id, LowWater)];
      } else if pct > updated.maxThreshold {
        alerts := alerts + [Alert(id, HighWater)];
      }
    }

    /** One pass of the pump loop; `keepRunning` is false where the loop ends. */
    method PumpCycle(storeUp: bool) returns (keepRunning: bool)
      modifies this
      ensures Snapshot() == Cycle(old(Snapshot()), storeUp).state
      ensures keepRunning == Cycle(old(Snapshot()), storeUp).keepRunning
    {
      if !pumpRunning {
        return false;
      }
      if !HasSelection(selectedTankId) {
        return true;
      }
      var id := selectedTankId.value;
      var lookup := Fetch(tanks, id, storeUp);
      if !lookup.Found? {
        var _ := TogglePump(false);
        return false;
      }
      var tank := lookup.tank;
      if FillPercentage(tank) >= tank.maxThreshold {
        var _ := TogglePump(false);
        return false;
      }
      var newLevel := tank.currentLevel + PumpFlowRate;
      newLevel := Min(tank.capacity, newLevel);
      tanks := tanks[id := tank.(currentLevel := newLevel)];
      readings := readings + [SensorReading(id, newLevel)];
      if Percentage(newLevel, tank.capacity) > tank.maxThreshold {
        alerts := alerts + [Alert(id, HighWater)];
        var _ := TogglePump(false);
        return false;
      }
      return true;
    }

    /**
     * The pump loop, run for at most `|availability|` passes; pass `i` sees
     * the store available exactly when `availability[i]` holds.
     */
    method PumpSimulationLoop(availability: seq<bool>)
      modifies this
      ensures Snapshot() == Run(old(Snapshot()), availability)
    {
      var i := 0;
      while i < |availability|
        invariant 0 <= i <= |availability|
        invariant Run(old(Snapshot()), availability) == Run(Snapshot(), availability[i..])
      {
        assert availability[i..][1..] == availability[i + 1..];
        var keepRunning := PumpCycle(availability[i]);
        if !keepRunning {
          return;
        }
        i := i + 1;
      }
    }
  }
}
