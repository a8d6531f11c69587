/** The display helpers of `src/utils/earthquakeUtils.js`: magnitude colour,
    marker size and label, relative time, the equirectangular projection onto
    the 900 x 450 map canvas, the depth colour and the list of selectable
    regions. All are pure; the clock `formatTime` reads becomes the `now`
    parameter. */
module EarthquakeUtils {
  import opened JsValues
  import opened JsStrings

  // ---------------------------------------------------------------- magnitude

  const MajorColor := "hsl(var(--earthquake-major))"
  const StrongColor := "hsl(var(--earthquake-strong))"
  const ModerateColor := "hsl(var(--earthquake-moderate))"
  const LightColor := "hsl(var(--earthquake-light))"
  const MinorColor := "hsl(var(--earthquake-minor))"
  const MicroColor := "hsl(var(--earthquake-micro))"

  /** `getMagnitudeColor(properties.mag)`. The bands are half-open: major from
      7, strong [6, 7), moderate [5, 6), light [4, 5), minor [3, 4), and micro
      below 3, which also takes a missing magnitude (NaN passes no threshold);
      `null` is magnitude 0. */
  function MagnitudeColor(magnitude: Magnitude): (r: string)
    ensures var v := MagnitudeNumber(magnitude);
      && (r == MajorColor <==> v.Some? && 7.0 <= v.value)
      && (r == StrongColor <==> v.Some? && 6.0 <= v.value < 7.0)
      && (r == ModerateColor <==> v.Some? && 5.0 <= v.value < 6.0)
      && (r == LightColor <==> v.Some? && 4.0 <= v.value < 5.0)
      && (r == MinorColor <==> v.Some? && 3.0 <= v.value < 4.0)
      && (r == MicroColor <==> v.None? || v.value < 3.0)
  {
    if AtLeast(magnitude, 7.0) then MajorColor
    else if AtLeast(magnitude, 6.0) then StrongColor
    else if AtLeast(magnitude, 5.0) then ModerateColor
    else if AtLeast(magnitude, 4.0) then LightColor
    else if AtLeast(magnitude, 3.0) then MinorColor
    else MicroColor
  }

  /** `getMagnitudeLabel(properties.mag)`, with the same bands as the colour. */
  function MagnitudeLabel(magnitude: Magnitude): (r: string)
    ensures var v := MagnitudeNumber(magnitude);
      && (r == "Major" <==> v.Some? && 7.0 <= v.value)
      && (r == "Strong" <==> v.Some? && 6.0 <= v.value < 7.0)
      && (r == "Moderate" <==> v.Some? && 5.0 <= v.value < 6.0)
      && (r == "Light" <==> v.Some? && 4.0 <= v.value < 5.0)
      && (r == "Minor" <==> v.Some? && 3.0 <= v.value < 4.0)
      && (r == "Micro" <==> v.None? || v.value < 3.0)
  {
    if AtLeast(magnitude, 7.0) then "Major"
    else if AtLeast(magnitude, 6.0) then "Strong"
    else if AtLeast(magnitude, 5.0) then "Moderate"
    else if AtLeast(magnitude, 4.0) then "Light"
    else if AtLeast(magnitude, 3.0) then "Minor"
    else "Micro"
  }

  /** The colour each label is drawn in. */
  function LabelColor(name: string): string
  {
    if name == "Major" then MajorColor
    else if name == "Strong" then StrongColor
    else if name == "Moderate" then ModerateColor
    else if name == "Light" then LightColor
    else if name == "Minor" then MinorColor
    else MicroColor
  }

  /** The colour and the label never disagree: the colour of a magnitude is
      the colour of its label. */
  lemma ColorAgreesWithLabel(magnitude: Magnitude)
    ensures MagnitudeColor(magnitude) == LabelColor(MagnitudeLabel(magnitude))
  {
  }

  /** Boundary cases of the label. */
  lemma LabelExamples()
    ensures MagnitudeLabel(Num(7.0)) == "Major"
    ensures MagnitudeLabel(Num(6.999)) == "Strong"
    ensures MagnitudeLabel(Num(2.9)) == "Micro"
    ensures MagnitudeLabel(Num(-1.0)) == "Micro"
    ensures MagnitudeLabel(Null) == "Micro" && MagnitudeLabel(Undefined) == "Micro"
  {
  }

  /** `getMagnitudeSize`: `Math.max(4, Math.min(30, magnitude * 5))`, the
      marker diameter. It stays within [4, 30] and is exactly five times the
      magnitude where that lies in the range, i.e. for 0.8 <= m <= 6. */
  function MagnitudeSize(magnitude: real): (r: real)
    ensures 4.0 <= r <= 30.0
    ensures r == 5.0 * magnitude <==> 0.8 <= magnitude <= 6.0
    ensures magnitude <= 0.8 ==> r == 4.0
    ensures magnitude >= 6.0 ==> r == 30.0
  {
    var capped := if 30.0 < magnitude * 5.0 then 30.0 else magnitude * 5.0;
    if 4.0 > capped then 4.0 else capped
  }

  /** A larger magnitude never draws a smaller marker. */
  lemma MagnitudeSizeMonotone(a: real, b: real)
    requires a <= b
    ensures MagnitudeSize(a) <= MagnitudeSize(b)
  {
  }

  /** The map draws each marker from `properties.mag || 0`: a missing or
      `null` magnitude (and 0) become 0, any other number is kept. */
  function MarkerMagnitude(magnitude: Magnitude): (r: real)
    ensures magnitude.Num? ==> r == magnitude.value
    ensures !magnitude.Num? ==> r == 0.0
  {
    match magnitude
    case Num(x) => x
    case _ => 0.0
  }

  /** So a record without a magnitude gets the smallest marker, 4. */
  lemma MissingMagnitudeSmallestMarker(magnitude: Magnitude)
    requires !magnitude.Num?
    ensures MagnitudeSize(MarkerMagnitude(magnitude)) == 4.0
  {
  }

  // ---------------------------------------------------------------- time

  const MinuteMs := 60000
  const HourMs := 3600000
  const DayMs := 86400000

  /** What `formatTime` shows: minutes alone within the first hour, hours and
      minutes below a day, otherwise the locale date and time of the stamp. */
  datatype Elapsed =
    | MinutesAgo(minutes: int)
    | HoursAgo(hours: int, minutes: int)
    | LocaleDateTime(timestamp: int)

  /** JavaScript's `%`, whose remainder takes the sign of the dividend: what
      is left of `a` once the quotient, truncated toward zero, times `n` is
      taken away. */
  function TruncRem(a: int, n: int): (r: int)
    requires n > 0
    ensures a == (if a >= 0 then a / n else -((-a) / n)) * n + r
    ensures a >= 0 ==> 0 <= r < n
    ensures a < 0 ==> -n < r <= 0
  {
    if a >= 0 then a % n
    else
      assert -a == ((-a) / n) * n + (-a) % n;
      -((-a) % n)
  }

  /** `formatTime(timestamp)` read at time `now` (both epoch milliseconds).
      The hours are `Math.floor(diff / 3600000)` and the minutes are
      `Math.floor((diff % 3600000) / 60000)`. Within [0, 1 h) the result is
      the whole minutes elapsed (0 to 59); within [1 h, 24 h) the whole hours
      (1 to 23) and the whole minutes past them (0 to 59); from a day on, the
      locale date. A stamp in the future gives negative hours and minutes. */
  function FormatTime(timestamp: int, now: int): (r: Elapsed)
    ensures var diff := now - timestamp;
      && (r.MinutesAgo? <==> 0 <= diff < HourMs)
      && (r.HoursAgo? <==> diff < 0 || HourMs <= diff < DayMs)
      && (r.LocaleDateTime? <==> DayMs <= diff)
      && (r.MinutesAgo? ==>
            0 <= r.minutes <= 59 && r.minutes * MinuteMs <= diff < (r.minutes + 1) * MinuteMs)
      && (r.HoursAgo? ==> r.hours * HourMs <= diff < (r.hours + 1) * HourMs)
      && (r.HoursAgo? && 0 <= diff ==>
            1 <= r.hours <= 23 && 0 <= r.minutes <= 59 &&
            r.hours * HourMs + r.minutes * MinuteMs <= diff < r.hours * HourMs + (r.minutes + 1) * MinuteMs)
      && (r.HoursAgo? && diff < 0 ==>
            r.hours <= -1 && -60 <= r.minutes <= 0 &&
            r.minutes * MinuteMs <= TruncRem(diff, HourMs) < (r.minutes + 1) * MinuteMs)
      && (r.LocaleDateTime? ==> r.timestamp == timestamp)
  {
    var diff := now - timestamp;
    var hours := diff / HourMs;
    var minutes := TruncRem(diff, HourMs) / MinuteMs;
    if hours == 0 then MinutesAgo(minutes)
    else if hours < 24 then HoursAgo(hours, minutes)
    else LocaleDateTime(timestamp)
  }

  /** A stamp five seconds in the future is shown as "-1h -1m ago". */
  lemma FutureStampExample(now: int)
    ensures FormatTime(now + 5000, now) == HoursAgo(-1, -1)
    ensures RenderElapsed(FormatTime(now + 5000, now)) == Some("-1h -1m ago")
  {
    assert TruncRem(-5000, HourMs) == -5000;
    assert NatDigits(1) == "1";
    assert DecimalString(-1) == "-1";
    assert DecimalString(-1) + "h " + DecimalString(-1) + "m ago" == "-1h -1m ago";
  }

  /** The text of the two relative forms; the locale form depends on the
      browser's locale and is not modelled (`None`). Every text reads back
      to the form it shows. */
  function RenderElapsed(e: Elapsed): (r: Option<string>)
    ensures r.None? <==> e.LocaleDateTime?
    ensures r.Some? ==> ReadElapsed(r.value) == Some(e)
  {
    match e
    case MinutesAgo(m) =>
      MinutesTextReadsBack(m);
      Some(DecimalString(m) + " min ago")
    case HoursAgo(h, m) =>
      HoursTextReadsBack(h, m);
      Some(DecimalString(h) + "h " + DecimalString(m) + "m ago")
    case LocaleDateTime(_) => None
  }

  /** Reading a relative-time text: "<m> min ago" or "<h>h <m>m ago". */
  function ReadElapsed(text: string): Option<Elapsed>
  {
    if EndsWith(text, " min ago") then
      Some(MinutesAgo(ParseDecimal(text[..|text| - 8])))
    else if EndsWith(text, "m ago") then
      var body := text[..|text| - 5];
      var k := IndexOf(body, 'h');
      if k + 2 <= |body| then Some(HoursAgo(ParseDecimal(body[..k]), ParseDecimal(body[k + 2..])))
      else None
    else None
  }

  predicate EndsWith(s: string, suffix: string)
  {
    |suffix| <= |s| && s[|s| - |suffix|..] == suffix
  }

  /** The index of the first `c` in `s`, or `|s|` when there is none. */
  function IndexOf(s: string, c: char): (k: nat)
    ensures k <= |s|
  {
    if s == [] then 0 else if s[0] == c then 0 else 1 + IndexOf(s[1..], c)
  }

  lemma {:induction false} IndexOfAfter(x: string, c: char, y: string)
    requires forall i :: 0 <= i < |x| ==> x[i] != c
    ensures IndexOf(x + [c] + y, c) == |x|
    decreases |x|
  {
    if x != [] {
      assert (x + [c] + y)[1..] == x[1..] + [c] + y;
      IndexOfAfter(x[1..], c, y);
    }
  }

  lemma DecimalHasNoLetters(n: int)
    ensures forall i :: 0 <= i < |DecimalString(n)| ==> DecimalString(n)[i] != 'h' && DecimalString(n)[i] != ' '
  {
  }

  lemma MinutesTextReadsBack(m: int)
    ensures ReadElapsed(DecimalString(m) + " min ago") == Some(MinutesAgo(m))
  {
    var text := DecimalString(m) + " min ago";
    assert text[|text| - 8..] == " min ago";
    assert text[..|text| - 8] == DecimalString(m);
    DecimalRoundTrip(m);
  }

  lemma HoursTextReadsBack(h: int, m: int)
    ensures ReadElapsed(DecimalString(h) + "h " + DecimalString(m) + "m ago") == Some(HoursAgo(h, m))
  {
    var hs, ms := DecimalString(h), DecimalString(m);
    var text := hs + "h " + ms + "m ago";
    var body := hs + "h " + ms;
    assert text == body + "m ago";
    assert text[|text| - 5..] == "m ago";
    DecimalHasNoLetters(m);
    assert text[|text| - 8..] != " min ago" by {
      assert text[|text| - 5] == 'm';
    }
    assert text[..|text| - 5] == body;
    DecimalHasNoLetters(h);
    assert body == hs + ['h'] + (" " + ms);
    IndexOfAfter(hs, 'h', " " + ms);
    assert body[..|hs|] == hs;
    assert body[|hs| + 2..] == ms;
    DecimalRoundTrip(h);
    DecimalRoundTrip(m);
  }

  /** Within the first hour the text is "<whole minutes> min ago". */
  lemma RecentTimeText(timestamp: int, now: int)
    requires 0 <= now - timestamp < HourMs
    ensures RenderElapsed(FormatTime(timestamp, now)) == Some(DecimalString((now - timestamp) / MinuteMs) + " min ago")
    ensures 0 <= (now - timestamp) / MinuteMs <= 59
  {
  }

  /** Within the first day the text is "<h>h <m>m ago" with h the whole hours
      and m the whole minutes past them. */
  lemma SameDayTimeText(timestamp: int, now: int)
    requires HourMs <= now - timestamp < DayMs
    ensures var diff := now - timestamp;
      RenderElapsed(FormatTime(timestamp, now)) ==
        Some(DecimalString(diff / HourMs) + "h " + DecimalString((diff % HourMs) / MinuteMs) + "m ago")
  {
  }

  // ---------------------------------------------------------------- projection

  const CanvasWidth := 900.0
  const CanvasHeight := 450.0

  datatype Point = Point(x: real, y: real)

  /** `convertCoordinates(lng, lat)`: the equirectangular projection onto the
      900 x 450 canvas, longitude to x and latitude (north up) to y. It
      neither clamps nor rejects: the canvas is reached exactly by longitudes
      in [-180, 180] and latitudes in [-90, 90], and the map is invertible. */
  function ConvertCoordinates(lng: real, lat: real): (p: Point)
    ensures lng == p.x * 360.0 / CanvasWidth - 180.0
    ensures lat == 90.0 - p.y * 180.0 / CanvasHeight
    ensures -180.0 <= lng <= 180.0 <==> 0.0 <= p.x <= CanvasWidth
    ensures -90.0 <= lat <= 90.0 <==> 0.0 <= p.y <= CanvasHeight
  {
    Point((lng + 180.0) / 360.0 * CanvasWidth, (90.0 - lat) / 180.0 * CanvasHeight)
  }

  datatype Geo = Geo(lng: real, lat: real)

  /** The inverse projection, from canvas point to longitude and latitude. */
  function CanvasToGeo(p: Point): Geo
  {
    Geo(p.x * 360.0 / CanvasWidth - 180.0, 90.0 - p.y * 180.0 / CanvasHeight)
  }

  /** Projecting and reading back gives the input, in both directions. */
  lemma ProjectionRoundTrip(lng: real, lat: real, p: Point)
    ensures CanvasToGeo(ConvertCoordinates(lng, lat)) == Geo(lng, lat)
    ensures ConvertCoordinates(CanvasToGeo(p).lng, CanvasToGeo(p).lat) == p
  {
  }

  /** The corners and centre of the world land on the corners and centre of
      the canvas. */
  lemma ProjectionCorners()
    ensures ConvertCoordinates(-180.0, 90.0) == Point(0.0, 0.0)
    ensures ConvertCoordinates(180.0, -90.0) == Point(CanvasWidth, CanvasHeight)
    ensures ConvertCoordinates(0.0, 0.0) == Point(CanvasWidth / 2.0, CanvasHeight / 2.0)
  {
  }

  /** x depends on the longitude alone and grows with it; y depends on the
      latitude alone and shrinks as it grows. */
  lemma ProjectionMonotone(lng1: real, lat1: real, lng2: real, lat2: real)
    ensures ConvertCoordinates(lng1, lat1).x == ConvertCoordinates(lng1, lat2).x
    ensures ConvertCoordinates(lng1, lat1).y == ConvertCoordinates(lng2, lat1).y
    ensures lng1 < lng2 ==> ConvertCoordinates(lng1, lat1).x < ConvertCoordinates(lng2, lat1).x
    ensures lat1 < lat2 ==> ConvertCoordinates(lng1, lat1).y > ConvertCoordinates(lng1, lat2).y
  {
  }

  // ---------------------------------------------------------------- depth

  const DeepestColor := "hsl(0 84% 30%)"
  const VeryDeepColor := "hsl(22 90% 35%)"
  const DeepColor := "hsl(35 91% 40%)"
  const IntermediateColor := "hsl(52 98% 45%)"
  const ShallowColor := "hsl(81 100% 50%)"
  const SurfaceColor := "hsl(142 71% 55%)"

  /** `getDepthColor(depth)` in km: six half-open bands with lower bounds 300,
      100, 70, 35 and 10, and everything below 10 (negative depths too) in
      the last one. */
  function DepthColor(depth: real): (r: string)
    ensures r == DeepestColor <==> 300.0 <= depth
    ensures r == VeryDeepColor <==> 100.0 <= depth < 300.0
    ensures r == DeepColor <==> 70.0 <= depth < 100.0
    ensures r == IntermediateColor <==> 35.0 <= depth < 70.0
    ensures r == ShallowColor <==> 10.0 <= depth < 35.0
    ensures r == SurfaceColor <==> depth < 10.0
  {
    if depth >= 300.0 then DeepestColor
    else if depth >= 100.0 then VeryDeepColor
    else if depth >= 70.0 then DeepColor
    else if depth >= 35.0 then IntermediateColor
    else if depth >= 10.0 then ShallowColor
    else SurfaceColor
  }

  /** A deeper event never gets a shallower band. */
  lemma DepthColorMonotone(d1: real, d2: real)
    requires d1 <= d2
    ensures DepthRank(DepthColor(d1)) <= DepthRank(DepthColor(d2))
  {
  }

  function DepthRank(color: string): nat
  {
    if color == DeepestColor then 5
    else if color == VeryDeepColor then 4
    else if color == DeepColor then 3
    else if color == IntermediateColor then 2
    else if color == ShallowColor then 1
    else 0
  }

  // ---------------------------------------------------------------- regions

  datatype Region = Region(value: string, caption: string)

  /** `regions`: the choices of the region selector. */
  const Regions: seq<Region> := [
    Region("all", "All Regions"),
    Region("california", "California"),
    Region("alaska", "Alaska"),
    Region("nevada", "Nevada"),
    Region("hawaii", "Hawaii"),
    Region("oklahoma", "Oklahoma"),
    Region("puerto rico", "Puerto Rico"),
    Region("japan", "Japan"),
    Region("chile", "Chile"),
    Region("indonesia", "Indonesia")
  ]

  /** The region values, in order. */
  function RegionValues(): (vs: seq<string>)
    ensures |vs| == |Regions|
    ensures forall i :: 0 <= i < |Regions| ==> vs[i] == Regions[i].value
  {
    seq(|Regions|, i requires 0 <= i < |Regions| => Regions[i].value)
  }

  /** The list opens with the "no constraint" choice and its values are
      pairwise distinct. */
  lemma RegionValuesDistinct()
    ensures |Regions| == 10 && Regions[0].value == "all"
    ensures forall i, j :: 0 <= i < j < |Regions| ==> Regions[i].value != Regions[j].value
  {
    var vs := RegionValues();
    assert vs == ["all", "california", "alaska", "nevada", "hawaii", "oklahoma",
                  "puerto rico", "japan", "chile", "indonesia"];
  }

  /** Every region value is already lower case, so lowercasing a selected
      value leaves it as it is. */
  lemma RegionValuesLowercase()
    ensures forall i :: 0 <= i < |Regions| ==> Lower(Regions[i].value) == Regions[i].value
  {
    forall i | 0 <= i < |Regions|
      ensures Lower(Regions[i].value) == Regions[i].value
    {
      var v := Regions[i].value;
      assert forall k :: 0 <= k < |v| ==> 'a' <= v[k] <= 'z' || v[k] == ' ';
      LowerOfLowercase(v);
    }
  }

  /** Apart from `'all'`, each value is its caption lower-cased: the region
      searched for is the name the selector shows. */
  lemma RegionValuesAreCaptions()
    ensures forall i :: 1 <= i < |Regions| ==> Lower(Regions[i].caption) == Regions[i].value
  {
    forall i | 1 <= i < |Regions|
      ensures Lower(Regions[i].caption) == Regions[i].value
    {
      CaptionLowersToValue(Regions[i].caption, Regions[i].value);
    }
  }

  lemma CaptionLowersToValue(caption: string, value: string)
    requires |caption| == |value|
    requires forall k :: 0 <= k < |caption| ==> LowerChar(caption[k]) == value[k]
    ensures Lower(caption) == value
  {
  }
}
