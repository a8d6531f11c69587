/** `src/hooks/useEarthquakeFilters.js`: the filter criteria a user sets, the
    records that pass them, and the per-band counts of those records. The
    three criteria are state updated by setters; the filtered list and the
    counts are recomputed from the current criteria and the current records
    whenever asked. */
module EarthquakeFilters {
  import opened JsValues
  import opened JsStrings
  import opened JsArrays

  /** The `properties` of a feed record that the filters read. `place` is
      `None` when it is `null` or missing. */
  datatype Properties = Properties(mag: Magnitude, place: Option<string>, time: Stamp)

  /** A GeoJSON Feature of the feed; `coordinates` is its Position
      `[lng, lat, depth]`. The filters never look at it. */
  datatype Quake = Quake(id: string, properties: Properties, coordinates: seq<real>)

  /** `filterMagnitude`, `selectedRegion` and `timeFilter`. */
  datatype Criteria = Criteria(filterMagnitude: real, selectedRegion: string, timeFilter: string)

  /** The initial state: no minimum beyond 0, every region, the whole day. */
  const DefaultCriteria := Criteria(0.0, "all", "24h")

  // ---------------------------------------------------------------- the three tests

  /** `eq.properties.mag >= filterMagnitude`. */
  predicate MagnitudePasses(filterMagnitude: real, eq: Quake)
  {
    AtLeast(eq.properties.mag, filterMagnitude)
  }

  /** `eq.properties.place?.toLowerCase() || ''`. */
  function PlaceText(eq: Quake): string
  {
    match eq.properties.place
    case Some(p) => Lower(p)
    case None => ""
  }

  /** `place.includes(selectedRegion.toLowerCase())`. */
  predicate RegionMatches(selectedRegion: string, eq: Quake)
  {
    Contains(PlaceText(eq), Lower(selectedRegion))
  }

  /** The window of each time filter key in milliseconds; any other key,
      `'24h'` included, has none. */
  function TimeLimit(timeFilter: string): (r: Option<int>)
    ensures r.Some? <==> timeFilter == "1h" || timeFilter == "6h" || timeFilter == "12h"
    ensures timeFilter == "1h" ==> r == Some(3600000)
    ensures timeFilter == "6h" ==> r == Some(21600000)
    ensures timeFilter == "12h" ==> r == Some(43200000)
  {
    if timeFilter == "1h" then Some(1 * 60 * 60 * 1000)
    else if timeFilter == "6h" then Some(6 * 60 * 60 * 1000)
    else if timeFilter == "12h" then Some(12 * 60 * 60 * 1000)
    else None
  }

  /** `now - eq.properties.time <= timeLimit`; a missing time is NaN and
      fails, a `null` time is 0. */
  predicate WithinWindow(now: int, timeLimit: int, eq: Quake)
  {
    match StampNumber(eq.properties.time)
    case Some(t) => now - t <= timeLimit
    case None => false
  }

  // ---------------------------------------------------------------- the steps

  function MagnitudeTest(filterMagnitude: real): Quake -> bool
  {
    eq => MagnitudePasses(filterMagnitude, eq)
  }

  function RegionTest(selectedRegion: string): Quake -> bool
  {
    eq => RegionMatches(selectedRegion, eq)
  }

  function TimeTest(now: int, timeLimit: int): Quake -> bool
  {
    eq => WithinWindow(now, timeLimit, eq)
  }

  // ---------------------------------------------------------------- the specification

  /** Whether a record belongs in the filtered list: it passes the magnitude
      threshold, matches the region unless that is `'all'`, and lies within
      the time window unless the key is `'24h'` or names no window. */
  predicate Selected(c: Criteria, now: int, eq: Quake)
  {
    && MagnitudePasses(c.filterMagnitude, eq)
    && (c.selectedRegion == "all" || RegionMatches(c.selectedRegion, eq))
    && (c.timeFilter == "24h" || TimeLimit(c.timeFilter).None? ||
        WithinWindow(now, TimeLimit(c.timeFilter).value, eq))
  }

  function Keeps(c: Criteria, now: int): Quake -> bool
  {
    eq => Selected(c, now, eq)
  }

  /** The filtered list `filteredEarthquakes` is the input, in its order,
      restricted to the selected records. */
  function FilterEarthquakes(earthquakes: seq<Quake>, c: Criteria, now: int): (r: seq<Quake>)
    ensures |r| <= |earthquakes|
    ensures forall i :: 0 <= i < |r| ==> Selected(c, now, r[i])
    ensures forall eq :: multiset(r)[eq] == if Selected(c, now, eq) then multiset(earthquakes)[eq] else 0
  {
    Filter(earthquakes, Keeps(c, now))
  }

  // ---------------------------------------------------------------- statistics

  /** `stats`: the length of the filtered list and the size of each band. */
  datatype Stats = Stats(total: nat, major: nat, strong: nat, moderate: nat, light: nat, minor: nat, micro: nat)

  predicate IsMajor(eq: Quake) { AtLeast(eq.properties.mag, 7.0) }
  predicate IsStrong(eq: Quake) { AtLeast(eq.properties.mag, 6.0) && Below(eq.properties.mag, 7.0) }
  predicate IsModerate(eq: Quake) { AtLeast(eq.properties.mag, 5.0) && Below(eq.properties.mag, 6.0) }
  predicate IsLight(eq: Quake) { AtLeast(eq.properties.mag, 4.0) && Below(eq.properties.mag, 5.0) }
  predicate IsMinor(eq: Quake) { AtLeast(eq.properties.mag, 3.0) && Below(eq.properties.mag, 4.0) }
  predicate IsMicro(eq: Quake) { Below(eq.properties.mag, 3.0) }
  predicate HasNoMagnitude(eq: Quake) { eq.properties.mag.Undefined? }

  /** Each band count is the length of the filtered list filtered again by
      the band's test; no count exceeds the total. */
  function ComputeStats(filtered: seq<Quake>): (st: Stats)
    ensures st.total == |filtered|
    ensures st.major <= st.total && st.strong <= st.total && st.moderate <= st.total
    ensures st.light <= st.total && st.minor <= st.total && st.micro <= st.total
  {
    Stats(|filtered|,
          |Filter(filtered, IsMajor)|,
          |Filter(filtered, IsStrong)|,
          |Filter(filtered, IsModerate)|,
          |Filter(filtered, IsLight)|,
          |Filter(filtered, IsMinor)|,
          |Filter(filtered, IsMicro)|)
  }

  function BandSum(st: Stats): nat
  {
    st.major + st.strong + st.moderate + st.light + st.minor + st.micro
  }

  function Indicator(b: bool): nat
  {
    if b then 1 else 0
  }

  /** The six band tests are pairwise disjoint; a record with a magnitude
      (a number, or `null` as 0) is in exactly one, a record without one is
      in none. */
  lemma BandsPartition(eq: Quake)
    ensures Indicator(IsMajor(eq)) + Indicator(IsStrong(eq)) + Indicator(IsModerate(eq)) +
            Indicator(IsLight(eq)) + Indicator(IsMinor(eq)) + Indicator(IsMicro(eq))
            == if HasNoMagnitude(eq) then 0 else 1
  {
  }

  /** The band counts add up to the total less the records without a
      magnitude, which are counted in the total and in no band. */
  lemma {:induction false} BandSumPlusMissing(filtered: seq<Quake>)
    ensures BandSum(ComputeStats(filtered)) + |Filter(filtered, HasNoMagnitude)| == ComputeStats(filtered).total
    decreases |filtered|
  {
    if filtered != [] {
      BandSumPlusMissing(filtered[1..]);
      BandsPartition(filtered[0]);
    }
  }

  /** When every record has a magnitude, the bands add up to the total. */
  lemma BandSumIsTotal(filtered: seq<Quake>)
    requires forall i :: 0 <= i < |filtered| ==> !filtered[i].properties.mag.Undefined?
    ensures BandSum(ComputeStats(filtered)) == ComputeStats(filtered).total
  {
    BandSumPlusMissing(filtered);
    assert Filter(filtered, HasNoMagnitude) == [];
  }

  // ---------------------------------------------------------------- the hook

  /** The hook's state: the three criteria, each with its setter. */
  class FilterState {
    var filterMagnitude: real
    var selectedRegion: string
    var timeFilter: string

    function Current(): Criteria
      reads this
    {
      Criteria(filterMagnitude, selectedRegion, timeFilter)
    }

    constructor ()
      ensures Current() == DefaultCriteria
    {
      filterMagnitude := 0.0;
      selectedRegion := "all";
      timeFilter := "24h";
    }

    method SetFilterMagnitude(m: real)
      modifies this
      ensures Current() == old(Current()).(filterMagnitude := m)
    {
      filterMagnitude := m;
    }

    method SetSelectedRegion(region: string)
      modifies this
      ensures Current() == old(Current()).(selectedRegion := region)
    {
      selectedRegion := region;
    }

    method SetTimeFilter(key: string)
      modifies this
      ensures Current() == old(Current()).(timeFilter := key)
    {
      timeFilter := key;
    }

    /** The hook's derived values for the records `earthquakes` at time
        `now`: the list narrowed step by step (magnitude, then region, then
        time), which is the specification's single filter, and its counts. */
    method Derive(earthquakes: seq<Quake>, now: int) returns (filteredEarthquakes: seq<Quake>, stats: Stats)
      ensures filteredEarthquakes == FilterEarthquakes(earthquakes, Current(), now)
      ensures stats == ComputeStats(filteredEarthquakes)
    {
      ghost var c := Current();
      var filtered := Filter(earthquakes, MagnitudeTest(filterMagnitude));
      ghost var kept: Quake -> bool := MagnitudeTest(filterMagnitude);

      var region := selectedRegion;
      if region != "all" {
        ghost var both: Quake -> bool := eq => kept(eq) && RegionMatches(region, eq);
        FilterThenFilter(earthquakes, kept, RegionTest(region), both);
        filtered := Filter(filtered, RegionTest(region));
        kept := both;
      }

      if timeFilter != "24h" {
        var timeLimit := TimeLimit(timeFilter);
        if timeLimit.Some? {
          ghost var both: Quake -> bool := eq => kept(eq) && WithinWindow(now, timeLimit.value, eq);
          FilterThenFilter(earthquakes, kept, TimeTest(now, timeLimit.value), both);
          filtered := Filter(filtered, TimeTest(now, timeLimit.value));
          kept := both;
        }
      }

      assert forall eq :: kept(eq) == Selected(c, now, eq);
      FilterCongruent(earthquakes, kept, Keeps(c, now));
      filteredEarthquakes := filtered;
      stats := ComputeStats(filtered);
    }
  }
}
