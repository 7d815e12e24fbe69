/**
 * The telemetry aggregator: the global rollup over every tank and the
 * per-location rollups, both classified on the fixed 20% / 50% scale that is
 * independent of the tanks' own thresholds.
 */
module Rollups {
  import opened TankLevels
  import opened StringOrder

  /** The two quantities the rollups add up over tanks. */
  datatype Measure = Volume | Capacity

  function Amount(t: Tank, m: Measure): real
  {
    match m
    case Volume => t.currentLevel
    case Capacity => t.capacity
  }

  /** `sum(...)` of one measure over `tanks`, added in listing order. */
  function Sum(tanks: seq<Tank>, m: Measure): real
  {
    if tanks == [] then 0.0
    else Sum(tanks[..|tanks| - 1], m) + Amount(tanks[|tanks| - 1], m)
  }

  /** One measure summed over the tanks whose location string is exactly `location`. */
  function SumAt(tanks: seq<Tank>, location: string, m: Measure): real
  {
    if tanks == [] then 0.0
    else
      var last := tanks[|tanks| - 1];
      SumAt(tanks[..|tanks| - 1], location, m) + (if last.location == location then Amount(last, m) else 0.0)
  }

  /** The tanks whose location string is exactly `location`, in listing order. */
  function AtLocation(tanks: seq<Tank>, location: string): seq<Tank>
  {
    if tanks == [] then []
    else
      var last := tanks[|tanks| - 1];
      AtLocation(tanks[..|tanks| - 1], location) + (if last.location == location then [last] else [])
  }

  /** The distinct location strings of `tanks`. */
  function Locations(tanks: seq<Tank>): set<string>
  {
    if tanks == [] then {}
    else Locations(tanks[..|tanks| - 1]) + {tanks[|tanks| - 1].location}
  }

  lemma SumAppend(tanks: seq<Tank>, t: Tank, m: Measure)
    ensures Sum(tanks + [t], m) == Sum(tanks, m) + Amount(t, m)
  {
    assert (tanks + [t])[..|tanks|] == tanks;
  }

  /** Appending a tank adds its amount to its own location's sum only. */
  lemma SumAtAppend(tanks: seq<Tank>, t: Tank, location: string, m: Measure)
    ensures SumAt(tanks + [t], location, m)
         == SumAt(tanks, location, m) + (if t.location == location then Amount(t, m) else 0.0)
  {
    assert (tanks + [t])[..|tanks|] == tanks;
  }

  /** A location group holds exactly the tanks of the listing whose location string is that one. */
  lemma {:induction false} AtLocationExact(tanks: seq<Tank>, location: string)
    ensures forall t :: t in AtLocation(tanks, location) <==> t in tanks && t.location == location
  {
    if tanks != [] {
      var init, last := tanks[..|tanks| - 1], tanks[|tanks| - 1];
      assert tanks == init + [last];
      AtLocationExact(init, location);
    }
  }

  /** The per-location sum is the sum over that location's group of tanks. */
  lemma {:induction false} SumAtIsGroupSum(tanks: seq<Tank>, location: string, m: Measure)
    ensures SumAt(tanks, location, m) == Sum(AtLocation(tanks, location), m)
  {
    if tanks != [] {
      var init, last := tanks[..|tanks| - 1], tanks[|tanks| - 1];
      SumAtIsGroupSum(init, location, m);
      if last.location == location {
        SumAppend(AtLocation(init, location), last, m);
      } else {
        assert AtLocation(tanks, location) == AtLocation(init, location);
      }
    }
  }

  /** Every tank's location is among the locations, and only an empty listing has none. */
  lemma {:induction false} LocationsCover(tanks: seq<Tank>)
    ensures forall t :: t in tanks ==> t.location in Locations(tanks)
    ensures Locations(tanks) == {} <==> tanks == []
  {
    if tanks != [] {
      var init, last := tanks[..|tanks| - 1], tanks[|tanks| - 1];
      assert tanks == init + [last];
      LocationsCover(init);
    }
  }

  /** A location that no tank has sums to zero. */
  lemma {:induction false} SumAtOutside(tanks: seq<Tank>, location: string, m: Measure)
    requires location !in Locations(tanks)
    ensures SumAt(tanks, location, m) == 0.0
  {
    if tanks != [] {
      SumAtOutside(tanks[..|tanks| - 1], location, m);
    }
  }

  /** The sums of a listing whose tanks all keep their level in bounds stay in bounds. */
  lemma {:induction false} SumsInBounds(tanks: seq<Tank>)
    requires forall t :: t in tanks ==> LevelInBounds(t)
    ensures 0.0 <= Sum(tanks, Volume) <= Sum(tanks, Capacity)
  {
    if tanks != [] {
      var init, last := tanks[..|tanks| - 1], tanks[|tanks| - 1];
      assert tanks == init + [last];
      assert last in tanks;
      SumsInBounds(init);
    }
  }

  /** Accumulated litres: the sum of current levels and the sum of capacities. */
  datatype Totals = Totals(currentLevel: real, capacity: real)

  function Part(totals: Totals, m: Measure): real
  {
    match m
    case Volume => totals.currentLevel
    case Capacity => totals.capacity
  }

  function TotalOf(tanks: seq<Tank>): Totals
  {
    Totals(Sum(tanks, Volume), Sum(tanks, Capacity))
  }

  function TotalAt(tanks: seq<Tank>, location: string): Totals
  {
    Totals(SumAt(tanks, location, Volume), SumAt(tanks, location, Capacity))
  }

  /** A location's totals are the totals of exactly the tanks with that location string. */
  lemma TotalAtIsGroupTotal(tanks: seq<Tank>, location: string)
    ensures TotalAt(tanks, location) == TotalOf(AtLocation(tanks, location))
    ensures forall t :: t in AtLocation(tanks, location) <==> t in tanks && t.location == location
  {
    SumAtIsGroupSum(tanks, location, Volume);
    SumAtIsGroupSum(tanks, location, Capacity);
    AtLocationExact(tanks, location);
  }

  datatype RollupStatus = Critical | Low | Optimal

  /** Classification of an aggregate percentage: Critical below 20, Low below 50, else Optimal. */
  function Classify(pct: real): (s: RollupStatus)
    ensures s == Critical <==> pct < 20.0
    ensures s == RollupStatus.Low <==> 20.0 <= pct < 50.0
    ensures s == RollupStatus.Optimal <==> 50.0 <= pct
  {
    if pct < 20.0 then Critical
    else if pct < 50.0 then RollupStatus.Low
    else RollupStatus.Optimal
  }

  /** Totals with their percentage (0 when the total capacity is not positive) and status. */
  datatype Summary = Summary(totals: Totals, percentage: real, status: RollupStatus)

  function Summarize(totals: Totals): (r: Summary)
    ensures r.totals == totals
    ensures totals.capacity <= 0.0 ==> r.percentage == 0.0 && r.status == Critical
    ensures totals.capacity > 0.0 ==> r.percentage * totals.capacity == totals.currentLevel * 100.0
    ensures 0.0 <= totals.currentLevel <= totals.capacity ==> 0.0 <= r.percentage <= 100.0
    ensures r.status == Critical <==> r.percentage < 20.0
    ensures r.status == RollupStatus.Optimal <==> 50.0 <= r.percentage
  {
    var pct := Percentage(totals.currentLevel, totals.capacity);
    Summary(totals, pct, Classify(pct))
  }

  /** The overall summary across every tank of the store. */
  function GlobalSummary(tanks: seq<Tank>): (r: Summary)
    ensures r.totals.capacity <= 0.0 ==> r.percentage == 0.0 && r.status == Critical
    ensures tanks == [] ==> r == Summary(Totals(0.0, 0.0), 0.0, Critical)
  {
    Summarize(TotalOf(tanks))
  }

  /** When every tank keeps its level in bounds, the overall percentage lies in [0, 100]. */
  lemma GlobalPercentageInBounds(tanks: seq<Tank>)
    requires forall t :: t in tanks ==> LevelInBounds(t)
    ensures 0.0 <= GlobalSummary(tanks).percentage <= 100.0
  {
    SumsInBounds(tanks);
  }

  /** The sum, over the listed locations, of one measure of the tanks at each. */
  function SumOver(tanks: seq<Tank>, locations: seq<string>, m: Measure): real
  {
    if locations == [] then 0.0
    else SumOver(tanks, locations[..|locations| - 1], m) + SumAt(tanks, locations[|locations| - 1], m)
  }

  /**
   * Adding one tank to the listing adds its amount to the one location
   * group it belongs to, if that location is listed, and nothing otherwise.
   */
  lemma {:induction false} SumOverAppend(tanks: seq<Tank>, t: Tank, locations: seq<string>, m: Measure)
    requires Distinct(locations)
    ensures SumOver(tanks + [t], locations, m)
         == SumOver(tanks, locations, m) + (if t.location in locations then Amount(t, m) else 0.0)
  {
    if locations != [] {
      var init, last := locations[..|locations| - 1], locations[|locations| - 1];
      assert Distinct(init);
      SumOverAppend(tanks, t, init, m);
      SumAtAppend(tanks, t, last, m);
      assert t.location in locations <==> t.location in init || t.location == last;
    }
  }

  lemma {:induction false} SumOverNoTanks(locations: seq<string>, m: Measure)
    ensures SumOver([], locations, m) == 0.0
  {
    if locations != [] {
      SumOverNoTanks(locations[..|locations| - 1], m);
    }
  }

  /**
   * Grouping by location loses and duplicates nothing: summing the groups of
   * a list of distinct locations that covers every tank's location gives
   * the global sum.
   */
  lemma {:induction false} PartitionSum(tanks: seq<Tank>, locations: seq<string>, m: Measure)
    requires Distinct(locations)
    requires forall t :: t in tanks ==> t.location in locations
    ensures SumOver(tanks, locations, m) == Sum(tanks, m)
  {
    if tanks == [] {
      SumOverNoTanks(locations, m);
    } else {
      var init, last := tanks[..|tanks| - 1], tanks[|tanks| - 1];
      assert tanks == init + [last];
      assert last in tanks;
      PartitionSum(init, locations, m);
      SumOverAppend(init, last, locations, m);
    }
  }

  /**
   * The accumulation loop: for each tank, add its level and capacity to
   * the entry of its location, creating a zero entry (the default) on
   * first sight. `keys` lists the locations in order of first appearance.
   */
  method AggregateByLocation(tanks: seq<Tank>) returns (data: map<string, Totals>, keys: seq<string>)
    ensures data.Keys == Locations(tanks)
    ensures forall loc :: loc in data ==> data[loc] == TotalAt(tanks, loc)
    ensures Distinct(keys) && forall loc :: loc in keys <==> loc in data
  {
    data, keys := map[], [];
    var i := 0;
    while i < |tanks|
      invariant 0 <= i <= |tanks|
      invariant data.Keys == Locations(tanks[..i])
      invariant forall loc :: loc in data ==> data[loc] == TotalAt(tanks[..i], loc)
      invariant Distinct(keys) && forall loc :: loc in keys <==> loc in data
    {
      var tank := tanks[i];
      assert tanks[..i + 1] == tanks[..i] + [tank];
      forall loc, m ensures SumAt(tanks[..i + 1], loc, m)
                         == SumAt(tanks[..i], loc, m) + (if tank.location == loc then Amount(tank, m) else 0.0) {
        SumAtAppend(tanks[..i], tank, loc, m);
      }
      if tank.location !in data {
        SumAtOutside(tanks[..i], tank.location, Volume);
        SumAtOutside(tanks[..i], tank.location, Capacity);
        data := data[tank.location := Totals(0.0, 0.0)];
        keys := keys + [tank.location];
      }
      var entry := data[tank.location];
      data := data[tank.location := entry.(currentLevel := entry.currentLevel + tank.currentLevel)];
      entry := data[tank.location];
      data := data[tank.location := entry.(capacity := entry.capacity + tank.capacity)];
      i := i + 1;
    }
    assert tanks[..i] == tanks;
  }

  /** One location's rollup, as the per-location display lists it. */
  datatype LocationSummary = LocationSummary(location: string, summary: Summary)

  function Names(rows: seq<LocationSummary>): (r: seq<string>)
    ensures |r| == |rows| && forall k :: 0 <= k < |rows| ==> r[k] == rows[k].location
  {
    seq(|rows|, k requires 0 <= k < |rows| => rows[k].location)
  }

  /** The sum of one measure over the rows' totals. */
  function Combined(rows: seq<LocationSummary>, m: Measure): real
  {
    if rows == [] then 0.0
    else
      Combined(rows[..|rows| - 1], m) + Part(rows[|rows| - 1].summary.totals, m)
  }

  lemma CombinedAppend(rows: seq<LocationSummary>, row: LocationSummary, m: Measure)
    ensures Combined(rows + [row], m) == Combined(rows, m) + Part(row.summary.totals, m)
  {
    assert (rows + [row])[..|rows|] == rows;
  }

  lemma SumOverPrefix(tanks: seq<Tank>, locations: seq<string>, i: nat, m: Measure)
    requires i < |locations|
    ensures SumOver(tanks, locations[..i + 1], m) == SumOver(tanks, locations[..i], m) + SumAt(tanks, locations[i], m)
  {
    assert locations[..i + 1][..i] == locations[..i];
  }

  /**
   * The display loop over the sorted locations: one row per location with
   * the accumulated totals, their percentage and their status.
   */
  method SummarizeLocations(tanks: seq<Tank>, data: map<string, Totals>, locations: seq<string>)
    returns (rows: seq<LocationSummary>)
    requires forall loc :: loc in locations ==> loc in data && data[loc] == TotalAt(tanks, loc)
    ensures Names(rows) == locations
    ensures forall k :: 0 <= k < |rows| ==> rows[k].summary == Summarize(TotalAt(tanks, locations[k]))
    ensures forall m :: Combined(rows, m) == SumOver(tanks, locations, m)
  {
    rows := [];
    var i := 0;
    while i < |locations|
      invariant 0 <= i <= |locations|
      invariant Names(rows) == locations[..i]
      invariant forall k :: 0 <= k < i ==> rows[k].summary == Summarize(TotalAt(tanks, locations[k]))
      invariant forall m :: Combined(rows, m) == SumOver(tanks, locations[..i], m)
    {
      var location := locations[i];
      var row := LocationSummary(location, Summarize(data[location]));
      forall m ensures Combined(rows + [row], m) == SumOver(tanks, locations[..i + 1], m) {
        CombinedAppend(rows, row, m);
        SumOverPrefix(tanks, locations, i, m);
        assert Part(data[location], m) == SumAt(tanks, location, m);
      }
      assert Names(rows + [row]) == locations[..i + 1];
      rows := rows + [row];
      i := i + 1;
    }
    assert locations[..i] == locations;
  }

  /**
   * The per-location display: one row per location, in sorted order, each
   * carrying that location's totals, percentage and status; the rows
   * together account for exactly the global totals.
   */
  method RollupByLocation(tanks: seq<Tank>) returns (rows: seq<LocationSummary>)
    ensures Increasing(Names(rows)) && Distinct(Names(rows))
    ensures forall loc :: loc in Names(rows) <==> loc in Locations(tanks)
    ensures forall k :: 0 <= k < |rows| ==> rows[k].summary == Summarize(TotalAt(tanks, rows[k].location))
    ensures Combined(rows, Volume) == Sum(tanks, Volume) && Combined(rows, Capacity) == Sum(tanks, Capacity)
    ensures tanks == [] <==> rows == []
  {
    var data, keys := AggregateByLocation(tanks);
    var sortedLocations := Sort(keys);
    SortSameStrings(keys);
    rows := SummarizeLocations(tanks, data, sortedLocations);
    LocationsCover(tanks);
    PartitionSum(tanks, sortedLocations, Volume);
    PartitionSum(tanks, sortedLocations, Capacity);
    if tanks != [] {
      assert tanks[0].location in sortedLocations;
    }
  }
}
