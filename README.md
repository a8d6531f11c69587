# Earthquake visualizer: filter pipeline and display helpers in Dafny

This project models the logic of an earthquake map front end that reads the
USGS "all earthquakes, past day" GeoJSON feed. Two source files hold that
logic:

- `src/utils/earthquakeUtils.js` holds pure display helpers:
  - the magnitude colour, label and marker size;
  - the relative-time text;
  - the equirectangular projection of longitude/latitude onto the 900 × 450 map canvas;
  - the depth colour;
  - the list of selectable regions.
- `src/hooks/useEarthquakeFilters.js` is a React hook. It holds three filter
  criteria as state: a minimum magnitude, a region name and a time-window key.
  From them it derives the list of records that pass and their counts per
  magnitude band.

Modules, one per concern:

| file | module | what it holds |
|---|---|---|
| `js_values.dfy` | `JsValues` | a numeric feed property as a number, `null` or missing, and how `>=`/`<` treat each (null is 0, missing is NaN) |
| `js_strings.dfy` | `JsStrings` | `toLowerCase` (ASCII), `includes`, decimal rendering of an integer |
| `js_arrays.dfy` | `JsArrays` | `Array.prototype.filter` and its order/multiplicity facts |
| `earthquake_utils.dfy` | `EarthquakeUtils` | every export of `earthquakeUtils.js` |
| `earthquake_filters.dfy` | `EarthquakeFilters` | the record shape, the criteria, the three tests, the filtered list, the statistics and the hook as a class `FilterState` |
| `filter_properties.dfy` | `FilterProperties` | what the pipeline guarantees |

How the model is built:

- **The hook as a class.** The criteria are the fields of `FilterState`. The
  constructor sets the `useState` defaults, and there is one setter per field.
- **`Derive` follows the source.** It narrows a local `filtered` step by step:
  magnitude, then region, then the time window, as the hook does. It is proved
  equal to the specification `FilterEarthquakes`, which is a single filter by
  the conjunction `Selected` of the three tests.
- **The clock is a parameter.** The hook and `formatTime` read the clock; here
  the time is the parameter `now`.
- **Records are the raw feed features.** There is no normalising step: the
  source reads `properties.mag`, `properties.place`, `properties.time` and
  `geometry.coordinates` directly.
- **Exact numbers.** Magnitudes, depths and coordinates are `real`; times are
  `int` milliseconds.

Behaviour the model pins down:

- A missing magnitude fails every comparison. So the magnitude step always
  drops it, even against a threshold of 0. As a result the band counts of the
  hook's filtered list always add up to its length (`FilteredStatsAddUp`).
- `null` compares as 0: it passes a threshold of 0 and counts as "micro".
- `getMagnitudeLabel` and `getMagnitudeColor` put a missing magnitude in
  "Micro". The statistics count such a record in no band.
- Any time key other than `1h`, `6h` and `12h` applies no time constraint. A
  missing time fails every active window.
- `formatTime` of a timestamp in the future yields negative hours and minutes
  (minutes down to −60). The cause is JavaScript's `%`, which keeps the sign of
  the dividend. A stamp five seconds ahead reads "-1h -1m ago"
  (`FutureStampExample`).

What the code does not do, though a reader might expect it:

- It has no record normaliser and no malformed-record error path: records
  are read as the feed delivers them.
- Its classifiers have no "unknown" band: a missing magnitude is labelled
  "Micro".
- `getMagnitudeSize` itself maps a missing magnitude to NaN, not 4. Only the
  map's `mag || 0` makes it 4.
- Any unrecognised time key behaves as `24h`.

## Model

| member | source | states |
|---|---|---|
| `JsValues.ComparisonCoercion` | src/hooks/useEarthquakeFilters.js:38-43 | a missing magnitude fails both `>=` and `<`; any other magnitude satisfies exactly one of them; `null` compares as 0 |
| `JsStrings.Lower` | src/hooks/useEarthquakeFilters.js:13-14 | lowercasing keeps the length, maps each upper-case ASCII letter to its lower-case partner, keeps every other character, and leaves no upper-case letter |
| `JsStrings.LowerIdempotent` | src/hooks/useEarthquakeFilters.js:13-14 | lowercasing twice is lowercasing once |
| `JsStrings.LowerAppend` | src/hooks/useEarthquakeFilters.js:13 | lowercasing distributes over concatenation |
| `JsStrings.ContainsIff` | src/hooks/useEarthquakeFilters.js:14 | `includes` holds exactly when the needle occurs at some index of the haystack |
| `JsStrings.ContainsEmpty` | src/hooks/useEarthquakeFilters.js:13-14 | every string includes `''`; `''` includes only `''` |
| `JsStrings.NatDigits` | src/utils/earthquakeUtils.js:31 | a natural number renders as a non-empty string of decimal digits with no leading zero |
| `JsStrings.DecimalRoundTrip` | src/utils/earthquakeUtils.js:31-33 | the decimal text of any integer, sign included, parses back to that integer |
| `JsArrays.Filter` | src/hooks/useEarthquakeFilters.js:9 | `filter` keeps only passing elements, each passing element keeps its full multiplicity, and failing elements vanish |
| `JsArrays.FilterIsSubsequence` | src/hooks/useEarthquakeFilters.js:9-33 | a filter's result is an order-preserving subsequence of its input |
| `JsArrays.FilterThenFilter` | src/hooks/useEarthquakeFilters.js:9-31 | two filters in sequence equal one filter by the conjunction of their tests |
| `JsArrays.FilterIdempotent` | src/hooks/useEarthquakeFilters.js:9-33 | filtering a filtered list by the same test changes nothing |
| `JsArrays.FilterStronger` | src/hooks/useEarthquakeFilters.js:9 | a test that implies another keeps a subsequence of what the other keeps |
| `JsArrays.FilterAppend` | src/hooks/useEarthquakeFilters.js:9 | filtering distributes over concatenation |
| `EarthquakeUtils.MagnitudeColor` | src/utils/earthquakeUtils.js:1-8 | major colour iff magnitude ≥ 7; strong iff in [6,7); moderate iff in [5,6); light iff in [4,5); minor iff in [3,4); micro iff below 3 or missing; `null` counts as 0 |
| `EarthquakeUtils.MagnitudeLabel` | src/utils/earthquakeUtils.js:14-21 | "Major" iff magnitude ≥ 7; "Strong" iff in [6,7); "Moderate" iff in [5,6); "Light" iff in [4,5); "Minor" iff in [3,4); "Micro" iff below 3 or missing |
| `EarthquakeUtils.ColorAgreesWithLabel` | src/utils/earthquakeUtils.js:1-21 | for every magnitude, the colour is the colour of the label, so the two classifiers never disagree |
| `EarthquakeUtils.LabelExamples` | src/utils/earthquakeUtils.js:14-21 | 7.0 is Major, 6.999 Strong, 2.9 Micro, −1 Micro, and `null` and missing are Micro |
| `EarthquakeUtils.MagnitudeSize` | src/utils/earthquakeUtils.js:10-12 | the size lies in [4, 30]; it equals 5·m exactly when 0.8 ≤ m ≤ 6; it is 4 at or below 0.8 and 30 at or above 6 |
| `EarthquakeUtils.MagnitudeSizeMonotone` | src/utils/earthquakeUtils.js:10-12 | a larger magnitude never gets a smaller size |
| `EarthquakeUtils.MarkerMagnitude` | src/components/earthquake/EarthquakeMap.jsx:199 | the map's fallback to 0 keeps a numeric magnitude and turns `null` or missing into 0 |
| `EarthquakeUtils.MissingMagnitudeSmallestMarker` | src/components/earthquake/EarthquakeMap.jsx:199-204 | the map draws a record without a magnitude at the minimum size 4 |
| `EarthquakeUtils.TruncRem` | src/utils/earthquakeUtils.js:28 | JavaScript's `%` by a positive modulus: the dividend is the quotient truncated toward zero times n plus the remainder, and the remainder lies in [0, n) for a non-negative dividend and in (−n, 0] for a negative one |
| `EarthquakeUtils.FormatTime` | src/utils/earthquakeUtils.js:23-36 | minutes-only text iff 0 ≤ diff < 1 h, with minutes in [0,59] the whole minutes elapsed; hours-and-minutes text iff diff < 0 or 1 h ≤ diff < 24 h, with hours = ⌊diff/1 h⌋; for diff ≥ 0 the hours are in [1,23] and the minutes in [0,59], the whole minutes past the hour; for a future stamp hours ≤ −1 and minutes = ⌊(diff % 1 h)/1 min⌋ with JavaScript's `%`, so in [−60,0]; locale text iff diff ≥ 24 h |
| `EarthquakeUtils.FutureStampExample` | src/utils/earthquakeUtils.js:26-33 | a stamp 5 s in the future gives hours −1 and minutes −1, shown as "-1h -1m ago" |
| `EarthquakeUtils.RenderElapsed` | src/utils/earthquakeUtils.js:30-35 | the two relative forms have a text and the locale form has none here; each text ("{m} min ago", "{h}h {m}m ago") reads back to exactly the hours and minutes it shows |
| `EarthquakeUtils.RecentTimeText` | src/utils/earthquakeUtils.js:30-31 | within the first hour the text is "⌊diff/60000⌋ min ago", with a value in [0, 59] |
| `EarthquakeUtils.SameDayTimeText` | src/utils/earthquakeUtils.js:32-33 | within the first day (from one hour on) the text is "{hours}h {minutes}m ago" |
| `EarthquakeUtils.ConvertCoordinates` | src/utils/earthquakeUtils.js:39-43 | the point determines its input: lng = x·360/900 − 180 and lat = 90 − y·180/450; x is in [0,900] iff lng is in [−180,180], and y is in [0,450] iff lat is in [−90,90], so there is no clamping |
| `EarthquakeUtils.ProjectionRoundTrip` | src/utils/earthquakeUtils.js:39-43 | projecting and then inverting gives the input back, in both directions |
| `EarthquakeUtils.ProjectionCorners` | src/utils/earthquakeUtils.js:40-41 | (−180, 90) maps to (0, 0), (180, −90) to (900, 450), and (0, 0) to (450, 225) |
| `EarthquakeUtils.ProjectionMonotone` | src/utils/earthquakeUtils.js:40-41 | x depends only on the longitude and increases with it; y depends only on the latitude and decreases as it grows |
| `EarthquakeUtils.DepthColor` | src/utils/earthquakeUtils.js:45-52 | each of the six colours is returned iff the depth is in its band: ≥ 300, [100,300), [70,100), [35,70), [10,35), < 10 |
| `EarthquakeUtils.DepthColorMonotone` | src/utils/earthquakeUtils.js:45-52 | a deeper event never gets a shallower band |
| `EarthquakeUtils.RegionValuesDistinct` | src/utils/earthquakeUtils.js:54-65 | the list has 10 entries, starts with `'all'`, and its values are pairwise distinct |
| `EarthquakeUtils.RegionValuesLowercase` | src/utils/earthquakeUtils.js:54-65 | every region value is its own lowercase, so lowercasing a selected value is a no-op |
| `EarthquakeUtils.RegionValuesAreCaptions` | src/utils/earthquakeUtils.js:56-64 | every region after `'all'` has as value its caption lower-cased |
| `EarthquakeFilters.TimeLimit` | src/hooks/useEarthquakeFilters.js:20-24 | a window exists exactly for `1h`, `6h` and `12h`: 3 600 000, 21 600 000 and 43 200 000 ms |
| `EarthquakeFilters.FilterEarthquakes` | src/hooks/useEarthquakeFilters.js:8-34 | the result is no longer than the input, every record in it is selected, and each selected record keeps its multiplicity while the others vanish |
| `EarthquakeFilters.ComputeStats` | src/hooks/useEarthquakeFilters.js:36-44 | `total` is the length of the filtered list and no band count exceeds it |
| `EarthquakeFilters.BandsPartition` | src/hooks/useEarthquakeFilters.js:38-43 | the six band tests are pairwise disjoint; a record with a magnitude is in exactly one; a record without one is in none |
| `EarthquakeFilters.BandSumPlusMissing` | src/hooks/useEarthquakeFilters.js:36-44 | the six counts plus the number of records without a magnitude equal the total |
| `EarthquakeFilters.BandSumIsTotal` | src/hooks/useEarthquakeFilters.js:37-43 | when every record has a magnitude, major+strong+moderate+light+minor+micro = total |
| `EarthquakeFilters.FilterState.constructor` | src/hooks/useEarthquakeFilters.js:4-6 | the initial criteria are (0, `'all'`, `'24h'`) |
| `EarthquakeFilters.FilterState.SetFilterMagnitude` | src/hooks/useEarthquakeFilters.js:4 | sets the threshold and leaves the other criteria as they were |
| `EarthquakeFilters.FilterState.SetSelectedRegion` | src/hooks/useEarthquakeFilters.js:5 | sets the region and leaves the other criteria as they were |
| `EarthquakeFilters.FilterState.SetTimeFilter` | src/hooks/useEarthquakeFilters.js:6 | sets the time key and leaves the other criteria as they were |
| `EarthquakeFilters.FilterState.Derive` | src/hooks/useEarthquakeFilters.js:8-44 | the step-by-step narrowing (magnitude, region, time) equals the single filter by the conjunction of the current criteria; the stats are those of that list |
| `FilterProperties.FilteredIsSubsequence` | src/hooks/useEarthquakeFilters.js:9-33 | the filtered list is an order-preserving subsequence of the records: nothing is reordered, duplicated or added |
| `FilterProperties.MagnitudeStep` | src/hooks/useEarthquakeFilters.js:9 | a number passes iff it reaches the threshold; `null` passes iff the threshold is ≤ 0; a missing magnitude never passes |
| `FilterProperties.RegionStep` | src/hooks/useEarthquakeFilters.js:11-16 | a record matches iff the lowercased region occurs in the lowercased place; the region's letter case does not matter |
| `FilterProperties.MissingPlaceNeverMatches` | src/hooks/useEarthquakeFilters.js:13 | a record without a place matches no non-empty region |
| `FilterProperties.PlaceEndingInRegion` | src/hooks/useEarthquakeFilters.js:13-14 | a place ending in the region's name, in any case, matches it |
| `FilterProperties.SelectedRegionFindsCaption` | src/hooks/useEarthquakeFilters.js:11-16 | selecting any listed region other than `'all'` matches every place ending in that region's caption, in any letter case |
| `FilterProperties.RegionExample` | src/hooks/useEarthquakeFilters.js:11-16 | "Offshore Northern California" matches `california` |
| `FilterProperties.MissingTimeDropped` | src/hooks/useEarthquakeFilters.js:26-29 | under a 1h/6h/12h window a record without a time is dropped |
| `FilterProperties.UnknownTimeKeyIsWholeDay` | src/hooks/useEarthquakeFilters.js:18-31 | a time key naming no window filters exactly as `'24h'` |
| `FilterProperties.TimeWindowExample` | src/hooks/useEarthquakeFilters.js:27-29 | with the 1h window, a record 3 700 000 ms old is dropped and one 3 500 000 ms old is kept |
| `FilterProperties.DefaultCriteriaKeepAll` | src/hooks/useEarthquakeFilters.js:4-33 | under the initial criteria the result is the input whenever every magnitude is `null` or ≥ 0 |
| `FilterProperties.DefaultCriteriaDropNegative` | src/hooks/useEarthquakeFilters.js:9 | even under the initial criteria, records with a negative or missing magnitude are removed |
| `FilterProperties.FilteringIsIdempotent` | src/hooks/useEarthquakeFilters.js:9-33 | re-filtering the result with the same criteria and time returns it unchanged |
| `FilterProperties.RaisingThresholdNarrows` | src/hooks/useEarthquakeFilters.js:9 | a higher threshold, other criteria fixed, yields a subsequence of the lower threshold's result |
| `FilterProperties.StatsBandsMatchLabel` | src/hooks/useEarthquakeFilters.js:38-43 | for a record with a magnitude, each stats band holds iff the magnitude label names that band; a record without one is labelled "Micro" but is in no band |
| `FilterProperties.FilteredStatsAddUp` | src/hooks/useEarthquakeFilters.js:36-44 | under any criteria the six band counts of the filtered list add up to its total |

## Left out

- Fetching the feed (`src/hooks/useEarthquakeData.js`) is left out: the network request, the five-minute polling, and the loading and error flags. It is I/O and timing. Its only logic replaces the record list wholesale, so here the records are simply the parameter of `Derive`.
- The components under `src/components/` are left out: SVG drawing, pan and zoom, the list's display cut to 20 entries, dark-mode queries. This is presentation. Only the map's `mag || 0` is kept (`MarkerMagnitude`).
- React's `useMemo`/`useState` scheduling is left out. `Derive` recomputes from the current criteria and records every time.
- Floating point is not modelled: reals are exact, with no IEEE rounding, NaN, `toFixed` or overflow. A NaN threshold (from `parseFloat`) and a non-integer `time` are not representable.
- `getMagnitudeSize` of a missing magnitude (NaN) is not modelled: `MagnitudeSize` takes a real, and the map never passes a missing value.
- `getDepthColor` of a missing depth is not modelled: `DepthColor` takes a real.
- `FormatTime`: the locale-dependent date text of the ≥ 24 h branch is not rendered (`RenderElapsed` gives `None`). Its timestamp is an integer, so `formatTime` of a missing or `null` time is not modelled.
- `TimeLimit`: a key that names a property of JavaScript's object prototype (such as `toString`) would yield a function and drop every record. Such keys are not modelled: the UI only sends `1h`, `6h`, `12h` and `24h`.
- `JsStrings.Lower` covers ASCII letters only. Unicode case mapping is not modelled.
- A non-string `place` (which would make `toLowerCase` throw) is not modelled.
