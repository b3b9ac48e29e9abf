/** The National Weather Service records the handlers read, and the two text formatters:
    `formatAlert` for one alert and the five-line block for one forecast period. */
module Weather {
  import opened Wrappers
  import opened Text

  /** The `properties` of one alert feature; every field may be absent. */
  datatype AlertProperties = AlertProperties(
    event: Option<string>,
    areaDesc: Option<string>,
    severity: Option<string>,
    status: Option<string>,
    headline: Option<string>)

  datatype AlertFeature = AlertFeature(properties: AlertProperties)

  /** The parsed body of `/alerts?area=...`; `features` may be missing. */
  datatype AlertsResponse = AlertsResponse(features: Option<seq<AlertFeature>>)

  /** The `properties` of a grid point: the URL of its forecast, if any. */
  datatype PointsProperties = PointsProperties(forecast: Option<string>)

  /** The parsed body of `/points/...`; `properties` may be missing. */
  datatype PointsResponse = PointsResponse(properties: Option<PointsProperties>)

  /** One forecast period; every field may be absent. The temperature is an integral number. */
  datatype ForecastPeriod = ForecastPeriod(
    name: Option<string>,
    temperature: Option<int>,
    temperatureUnit: Option<string>,
    windSpeed: Option<string>,
    windDirection: Option<string>,
    shortForecast: Option<string>)

  datatype ForecastProperties = ForecastProperties(periods: Option<seq<ForecastPeriod>>)

  /** The parsed body of a forecast URL; `properties` and `periods` may be missing. */
  datatype ForecastResponse = ForecastResponse(properties: Option<ForecastProperties>)

  /** An optional field that, when present, holds no line break. */
  predicate SingleLine(v: Option<string>) {
    v.Some? ==> '\n' !in v.value
  }

  lemma OrDefaultSingleLine(v: Option<string>, fallback: string)
    requires SingleLine(v) && '\n' !in fallback
    ensures '\n' !in OrDefault(v, fallback)
  {
  }

  /** The six lines `formatAlert` joins: each field after its label, or the field's default
      when it is absent or empty, and a closing `---`. */
  function AlertLines(p: AlertProperties): (r: seq<string>)
    ensures |r| == 6 && r[5] == "---"
  {
    [ "Event: " + OrDefault(p.event, "Unknown"),
      "Area: " + OrDefault(p.areaDesc, "Unknown"),
      "Severity: " + OrDefault(p.severity, "Unknown"),
      "Status: " + OrDefault(p.status, "Unknown"),
      "Headline: " + OrDefault(p.headline, "No headline"),
      "---" ]
  }

  /** `formatAlert(feature)`: a block that opens with the event line and closes with `---`. */
  function FormatAlert(feature: AlertFeature): (r: string)
    ensures |r| >= 3 && r[|r| - 3..] == "---"
    ensures var first := "Event: " + OrDefault(feature.properties.event, "Unknown");
      |first| <= |r| && r[..|first|] == first
  {
    JoinLinesEnds(AlertLines(feature.properties));
    JoinLines(AlertLines(feature.properties))
  }

  predicate AlertSingleLine(p: AlertProperties) {
    SingleLine(p.event) && SingleLine(p.areaDesc) && SingleLine(p.severity)
    && SingleLine(p.status) && SingleLine(p.headline)
  }

  /** An alert whose fields hold no line break formats to exactly six lines: the labelled
      fields with their defaults, then `---`. */
  lemma FormatAlertLines(feature: AlertFeature)
    requires AlertSingleLine(feature.properties)
    ensures |SplitLines(FormatAlert(feature))| == 6
    ensures SplitLines(FormatAlert(feature)) == AlertLines(feature.properties)
  {
    var p := feature.properties;
    OrDefaultSingleLine(p.event, "Unknown");
    OrDefaultSingleLine(p.areaDesc, "Unknown");
    OrDefaultSingleLine(p.severity, "Unknown");
    OrDefaultSingleLine(p.status, "Unknown");
    OrDefaultSingleLine(p.headline, "No headline");
    var lines := AlertLines(p);
    assert forall i :: 0 <= i < |lines| ==> '\n' !in lines[i];
    SplitJoinLines(lines);
  }

  /** The degree sign exactly as the source spells it: the two characters U+00C2 U+00B0. */
  const Degree: string := "\U{00C2}\U{00B0}"

  /** `${period.temperature || "Unknown"}`: zero is falsy, so a temperature of 0 reads
      "Unknown" just like a missing one. */
  function TemperatureText(t: Option<int>): (r: string)
    ensures r == "Unknown" <==> t.None? || t.value == 0
    ensures t.Some? && t.value != 0 ==> r == IntToString(t.value)
    ensures '\n' !in r
  {
    if t.Some? && t.value != 0 then
      var s := IntToString(t.value);
      assert s[0] != 'U';
      s
    else "Unknown"
  }

  /** A temperature that is shown reads back as the same number. */
  lemma TemperatureReadBack(t: Option<int>)
    requires t.Some? && t.value != 0
    ensures ParseInt(TemperatureText(t)) == t.value
  {
    IntToStringRoundTrip(t.value);
  }

  /** The five lines of one forecast period before they are joined. */
  function PeriodLines(p: ForecastPeriod): (r: seq<string>)
    ensures |r| == 5 && r[4] == "---"
  {
    [ OrDefault(p.name, "Unknown") + ":",
      "Temperature: " + TemperatureText(p.temperature) + Degree + OrDefault(p.temperatureUnit, "F"),
      "Wind: " + OrDefault(p.windSpeed, "Unknown") + " " + OrDefault(p.windDirection, ""),
      OrDefault(p.shortForecast, "No forecast available"),
      "---" ]
  }

  /** The block the forecast handler builds for one period: it opens with the period's name
      and a colon, and closes with `---`. */
  function FormatPeriod(p: ForecastPeriod): (r: string)
    ensures |r| >= 3 && r[|r| - 3..] == "---"
    ensures var first := OrDefault(p.name, "Unknown") + ":";
      |first| <= |r| && r[..|first|] == first
  {
    JoinLinesEnds(PeriodLines(p));
    JoinLines(PeriodLines(p))
  }

  predicate PeriodSingleLine(p: ForecastPeriod) {
    SingleLine(p.name) && SingleLine(p.temperatureUnit) && SingleLine(p.windSpeed)
    && SingleLine(p.windDirection) && SingleLine(p.shortForecast)
  }

  /** A period whose fields hold no line break formats to exactly five lines: the name, the
      temperature, the wind, the short forecast, then `---`. */
  lemma FormatPeriodLines(p: ForecastPeriod)
    requires PeriodSingleLine(p)
    ensures |SplitLines(FormatPeriod(p))| == 5
    ensures SplitLines(FormatPeriod(p)) == PeriodLines(p)
  {
    OrDefaultSingleLine(p.name, "Unknown");
    OrDefaultSingleLine(p.temperatureUnit, "F");
    OrDefaultSingleLine(p.windSpeed, "Unknown");
    OrDefaultSingleLine(p.windDirection, "");
    OrDefaultSingleLine(p.shortForecast, "No forecast available");
    var lines := PeriodLines(p);
    assert forall i :: 0 <= i < |lines| ==> '\n' !in lines[i];
    SplitJoinLines(lines);
  }
}
