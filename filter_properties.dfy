/** What the filter pipeline of `useEarthquakeFilters` guarantees: it only
    deletes records and keeps their order, each test behaves as JavaScript
    makes it behave on `null` and missing fields, the default criteria keep
    every record with a non-negative magnitude, re-filtering changes nothing,
    a higher threshold narrows the result, and the statistics use the same
    bands as the magnitude label. */
module FilterProperties {
  import opened JsValues
  import opened JsStrings
  import opened JsArrays
  import opened EarthquakeUtils
  import opened EarthquakeFilters

  /** Nothing is reordered, duplicated or added: the filtered list is an
      order-preserving subsequence of the input. */
  lemma FilteredIsSubsequence(earthquakes: seq<Quake>, c: Criteria, now: int)
    ensures IsSubsequence(FilterEarthquakes(earthquakes, c, now), earthquakes)
  {
    FilterIsSubsequence(earthquakes, Keeps(c, now));
  }

  /** The magnitude test: a number passes when it reaches the threshold,
      `null` passes exactly when 0 does, and a missing magnitude never
      passes, even against a threshold of 0. */
  lemma MagnitudeStep(filterMagnitude: real, eq: Quake)
    ensures eq.properties.mag.Num? ==>
      (MagnitudePasses(filterMagnitude, eq) <==> eq.properties.mag.value >= filterMagnitude)
    ensures eq.properties.mag.Null? ==> (MagnitudePasses(filterMagnitude, eq) <==> filterMagnitude <= 0.0)
    ensures eq.properties.mag.Undefined? ==> !MagnitudePasses(filterMagnitude, eq)
  {
  }

  /** The region test ignores letter case on both sides: it holds exactly
      when the lower-cased region occurs somewhere in the lower-cased place. */
  lemma {:induction false} RegionStep(selectedRegion: string, eq: Quake)
    ensures RegionMatches(selectedRegion, eq) <==> exists i :: OccursAt(PlaceText(eq), Lower(selectedRegion), i)
    ensures RegionMatches(selectedRegion, eq) == RegionMatches(Lower(selectedRegion), eq)
  {
    ContainsIff(PlaceText(eq), Lower(selectedRegion));
    LowerIdempotent(selectedRegion);
  }

  /** A record without a place reads as the empty string, which matches no
      region with a non-empty name. */
  lemma MissingPlaceNeverMatches(selectedRegion: string, eq: Quake)
    requires eq.properties.place.None? && selectedRegion != ""
    ensures !RegionMatches(selectedRegion, eq)
  {
    ContainsEmpty("", Lower(selectedRegion));
  }

  /** A place that ends in the region's name, in any letter case, matches
      the region. */
  lemma PlaceEndingInRegion(eq: Quake, head: string, tail: string, selectedRegion: string)
    requires eq.properties.place == Some(head + tail)
    requires Lower(tail) == Lower(selectedRegion)
    ensures RegionMatches(selectedRegion, eq)
  {
    LowerAppend(head, tail);
    OccursAtEnd(Lower(head), Lower(tail));
    ContainsIff(PlaceText(eq), Lower(selectedRegion));
  }

  /** "Offshore Northern California" is found by the region `california`. */
  lemma RegionExample(eq: Quake)
    requires eq.properties.place == Some("Offshore Northern California")
    ensures RegionMatches("california", eq)
  {
    assert "Offshore Northern California" == "Offshore Northern " + "California";
    LowerOfCalifornia();
    PlaceEndingInRegion(eq, "Offshore Northern ", "California", "california");
  }

  /** Selecting any region of the list other than `'all'` finds every place
      that ends in that region's caption, whatever the letter case. */
  lemma SelectedRegionFindsCaption(eq: Quake, i: int, head: string)
    requires 1 <= i < |Regions|
    requires eq.properties.place == Some(head + Regions[i].caption)
    ensures RegionMatches(Regions[i].value, eq)
  {
    RegionValuesAreCaptions();
    RegionValuesLowercase();
    PlaceEndingInRegion(eq, head, Regions[i].caption, Regions[i].value);
  }

  lemma LowerOfCalifornia()
    ensures Lower("California") == "california"
    ensures Lower("california") == "california"
  {
  }

  /** Within a window (`1h`, `6h`, `12h`) a record without a time is
      dropped. */
  lemma MissingTimeDropped(c: Criteria, now: int, eq: Quake)
    requires c.timeFilter == "1h" || c.timeFilter == "6h" || c.timeFilter == "12h"
    requires eq.properties.time.Undefined?
    ensures !Selected(c, now, eq)
  {
  }

  /** A key that names no window filters exactly as `24h`: no time
      constraint at all. */
  lemma UnknownTimeKeyIsWholeDay(earthquakes: seq<Quake>, c: Criteria, now: int)
    requires TimeLimit(c.timeFilter).None?
    ensures FilterEarthquakes(earthquakes, c, now) == FilterEarthquakes(earthquakes, c.(timeFilter := "24h"), now)
  {
    FilterCongruent(earthquakes, Keeps(c, now), Keeps(c.(timeFilter := "24h"), now));
  }

  /** With the one-hour window, a record 61 min 40 s old is dropped and one
      58 min 20 s old is kept. */
  lemma TimeWindowExample(now: int, old1: Quake, recent: Quake)
    requires old1.properties.mag == Num(2.5) && old1.properties.time == Num(now - 3700000)
    requires recent.properties.mag == Num(2.5) && recent.properties.time == Num(now - 3500000)
    ensures !Selected(Criteria(0.0, "all", "1h"), now, old1)
    ensures Selected(Criteria(0.0, "all", "1h"), now, recent)
  {
  }

  /** The initial criteria keep every record, in order, when each magnitude
      is `null` or a non-negative number. */
  lemma DefaultCriteriaKeepAll(earthquakes: seq<Quake>, now: int)
    requires forall i :: 0 <= i < |earthquakes| ==>
      earthquakes[i].properties.mag.Null? ||
      (earthquakes[i].properties.mag.Num? && earthquakes[i].properties.mag.value >= 0.0)
    ensures FilterEarthquakes(earthquakes, DefaultCriteria, now) == earthquakes
  {
    FilterKeepsAll(earthquakes, Keeps(DefaultCriteria, now));
  }

  /** Even the initial criteria drop negative and missing magnitudes. */
  lemma DefaultCriteriaDropNegative(earthquakes: seq<Quake>, now: int, eq: Quake)
    requires eq.properties.mag.Undefined? || (eq.properties.mag.Num? && eq.properties.mag.value < 0.0)
    ensures eq !in FilterEarthquakes(earthquakes, DefaultCriteria, now)
  {
    var r := FilterEarthquakes(earthquakes, DefaultCriteria, now);
    assert multiset(r)[eq] == 0;
  }

  /** Filtering the filtered list again with the same criteria at the same
      time returns it unchanged. */
  lemma FilteringIsIdempotent(earthquakes: seq<Quake>, c: Criteria, now: int)
    ensures FilterEarthquakes(FilterEarthquakes(earthquakes, c, now), c, now) == FilterEarthquakes(earthquakes, c, now)
  {
    FilterIdempotent(earthquakes, Keeps(c, now));
  }

  /** Raising the magnitude threshold, other criteria fixed, keeps a
      subsequence of what the lower threshold kept. */
  lemma RaisingThresholdNarrows(earthquakes: seq<Quake>, c: Criteria, now: int, higher: real)
    requires c.filterMagnitude <= higher
    ensures IsSubsequence(FilterEarthquakes(earthquakes, c.(filterMagnitude := higher), now),
                          FilterEarthquakes(earthquakes, c, now))
  {
    FilterStronger(earthquakes, Keeps(c.(filterMagnitude := higher), now), Keeps(c, now));
  }

  /** The statistics count a record with a magnitude in the band its label
      names; a record without one is labelled "Micro" but counted in no band. */
  lemma StatsBandsMatchLabel(eq: Quake)
    ensures !HasNoMagnitude(eq) ==>
      && (IsMajor(eq) <==> MagnitudeLabel(eq.properties.mag) == "Major")
      && (IsStrong(eq) <==> MagnitudeLabel(eq.properties.mag) == "Strong")
      && (IsModerate(eq) <==> MagnitudeLabel(eq.properties.mag) == "Moderate")
      && (IsLight(eq) <==> MagnitudeLabel(eq.properties.mag) == "Light")
      && (IsMinor(eq) <==> MagnitudeLabel(eq.properties.mag) == "Minor")
      && (IsMicro(eq) <==> MagnitudeLabel(eq.properties.mag) == "Micro")
    ensures HasNoMagnitude(eq) ==> MagnitudeLabel(eq.properties.mag) == "Micro" && !IsMicro(eq)
  {
  }

  /** The magnitude step drops every record without a magnitude, so under
      any criteria the band counts of the filtered list add up to its
      length. */
  lemma FilteredStatsAddUp(earthquakes: seq<Quake>, c: Criteria, now: int)
    ensures var st := ComputeStats(FilterEarthquakes(earthquakes, c, now));
      BandSum(st) == st.total
  {
    var filtered := FilterEarthquakes(earthquakes, c, now);
    BandSumIsTotal(filtered);
  }
}
