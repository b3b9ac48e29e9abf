/** The three tools the server registers: `authenticate`, `get_alerts` and `get_forecast`.
    Each weather handler is a function from the authentication flag, its arguments and the
    parsed results of the fetches it may issue (`None` where the fetch failed) to the return
    statement it reaches, whose text is `Answer.Text()`, and the fetches it actually issued,
    in order. */
module Tools {
  import opened Wrappers
  import opened Text
  import opened Auth
  import opened Weather

  /** An upstream request to the weather service. */
  datatype Request =
    | AlertsForArea(area: string)
    | GridPoint(latitude: real, longitude: real)
    | ForecastAt(url: string)

  /** A coordinate argument: its value in degrees and the way JavaScript displays it. */
  datatype Coordinate = Coordinate(degrees: real, shown: string)

  /** The return statements of the two weather handlers. `Text()` is the text each returns. */
  datatype Answer =
    | AuthenticationRequired
    | AlertsUnavailable
    | NoActiveAlerts(stateCode: string)
    | AlertsListed(stateCode: string, alerts: seq<string>)
    | GridPointUnavailable(latitude: Coordinate, longitude: Coordinate)
    | ForecastUrlMissing
    | ForecastUnavailable
    | NoForecastPeriods
    | ForecastListed(latitude: Coordinate, longitude: Coordinate, periods: seq<string>)
  {
    function Text(): string {
      match this
      case AuthenticationRequired => AuthRequiredText
      case AlertsUnavailable => AlertsFailedText
      case NoActiveAlerts(code) => NoAlertsText(code)
      case AlertsListed(code, alerts) => AlertsText(code, alerts)
      case GridPointUnavailable(latitude, longitude) => GridPointFailedText(latitude, longitude)
      case ForecastUrlMissing => ForecastUrlMissingText
      case ForecastUnavailable => ForecastFailedText
      case NoForecastPeriods => NoPeriodsText
      case ForecastListed(latitude, longitude, periods) => ForecastText(latitude, longitude, periods)
    }

    /** Which return statement this is. */
    function Outcome(): Outcome {
      match this
      case AuthenticationRequired => NeedsAuthentication
      case AlertsUnavailable => AlertsFetchFailed
      case NoActiveAlerts(_) => NoAlerts
      case AlertsListed(_, _) => AlertsShown
      case GridPointUnavailable(_, _) => GridPointFetchFailed
      case ForecastUrlMissing => NoForecastUrl
      case ForecastUnavailable => ForecastFetchFailed
      case NoForecastPeriods => NoPeriods
      case ForecastListed(_, _, _) => ForecastShown
    }
  }

  /** The kinds of return statement, without the data they carry. */
  datatype Outcome =
    | NeedsAuthentication
    | AlertsFetchFailed | NoAlerts | AlertsShown
    | GridPointFetchFailed | NoForecastUrl | ForecastFetchFailed | NoPeriods | ForecastShown

  // The longer messages are written as concatenations of shorter literals: the verifier reads
  // the first characters of a short literal directly, and of a long one only slowly.
  const AuthRequiredText: string :=
    "Authentication required. "
    + "Please use the 'authenticate' tool with your GitHub personal access token first."
  const AlertsFailedText: string := "Failed to retrieve alerts data"
  const ForecastUrlMissingText: string := "Failed to get " + "forecast URL from grid point data"
  const ForecastFailedText: string := "Failed to retrieve forecast data"
  const NoPeriodsText: string := "No forecast periods available"

  function NoAlertsText(stateCode: string): string {
    "No active alerts for " + stateCode
  }

  function GridPointFailedText(latitude: Coordinate, longitude: Coordinate): string {
    "Failed to retrieve grid " + "point data for coordinates: " + latitude.shown + ", " + longitude.shown
    + ". This location may not be supported by the NWS API (only US locations are supported)."
  }

  /** `alertsText`: the header, an empty line, then the formatted alerts joined by line breaks. */
  function AlertsText(stateCode: string, alerts: seq<string>): string {
    "Active alerts for " + stateCode + ":" + "\n\n" + JoinLines(alerts)
  }

  /** `forecastText`: the header, an empty line, then the period blocks joined by line breaks. */
  function ForecastText(latitude: Coordinate, longitude: Coordinate, periods: seq<string>): string {
    "Forecast for " + latitude.shown + ", " + longitude.shown + ":" + "\n\n" + JoinLines(periods)
  }

  /** The character at `i`, or a space past the end. */
  function CharAt(text: string, i: nat): char {
    if i < |text| then text[i] else ' '
  }

  /** The kind of return statement a text comes from, told by at most three of its characters. */
  function ReadOutcome(text: string): Outcome {
    // "Au"thentication required / "Ac"tive alerts for
    if CharAt(text, 0) == 'A' then (if CharAt(text, 1) == 'u' then NeedsAuthentication else AlertsShown)
    // "No a"ctive alerts / "No f"orecast periods
    else if CharAt(text, 0) == 'N' then (if CharAt(text, 3) == 'a' then NoAlerts else NoPeriods)
    // "Fo"recast for; every other text starts "Fa"iled to
    else if CharAt(text, 1) == 'o' then ForecastShown
    // "Failed to g"et forecast URL / "Failed to r"etrieve
    else if CharAt(text, 10) == 'g' then NoForecastUrl
    // "Failed to retrieve a"lerts / "g"rid point / "f"orecast data
    else if CharAt(text, 19) == 'a' then AlertsFetchFailed
    else if CharAt(text, 19) == 'g' then GridPointFetchFailed
    else ForecastFetchFailed
  }

  /** The texts of `get_alerts` read back as their own outcomes. */
  lemma ReadAlertsTexts(stateCode: string, alerts: seq<string>)
    ensures ReadOutcome(AuthenticationRequired.Text()) == NeedsAuthentication
    ensures ReadOutcome(AlertsUnavailable.Text()) == AlertsFetchFailed
    ensures ReadOutcome(NoActiveAlerts(stateCode).Text()) == NoAlerts
    ensures ReadOutcome(AlertsListed(stateCode, alerts).Text()) == AlertsShown
  {
    assert AuthRequiredText[0] == 'A' && AuthRequiredText[1] == 'u';
    assert AlertsFailedText[0] == 'F' && AlertsFailedText[1] == 'a' && AlertsFailedText[10] == 'r'
      && AlertsFailedText[19] == 'a';
    assert NoAlertsText(stateCode)[0] == 'N' && NoAlertsText(stateCode)[3] == 'a';
    assert AlertsText(stateCode, alerts)[0] == 'A' && AlertsText(stateCode, alerts)[1] == 'c';
  }

  /** The texts `get_forecast` adds read back as their own outcomes. */
  lemma ReadForecastTexts(latitude: Coordinate, longitude: Coordinate, periods: seq<string>)
    ensures ReadOutcome(GridPointUnavailable(latitude, longitude).Text()) == GridPointFetchFailed
    ensures ReadOutcome(ForecastUrlMissing.Text()) == NoForecastUrl
    ensures ReadOutcome(ForecastUnavailable.Text()) == ForecastFetchFailed
    ensures ReadOutcome(NoForecastPeriods.Text()) == NoPeriods
    ensures ReadOutcome(ForecastListed(latitude, longitude, periods).Text()) == ForecastShown
  {
    var grid := GridPointFailedText(latitude, longitude);
    assert grid[0] == 'F' && grid[1] == 'a' && grid[10] == 'r' && grid[19] == 'g';
    assert ForecastUrlMissingText[0] == 'F' && ForecastUrlMissingText[1] == 'a' && ForecastUrlMissingText[10] == 'g';
    assert ForecastFailedText[0] == 'F' && ForecastFailedText[1] == 'a' && ForecastFailedText[10] == 'r'
      && ForecastFailedText[19] == 'f';
    assert NoPeriodsText[0] == 'N' && NoPeriodsText[3] == 'f';
    var listing := ForecastText(latitude, longitude, periods);
    assert listing[0] == 'F' && listing[1] == 'o';
  }

  /** Every return statement has a text of its own: the text tells which one was taken. */
  lemma OutcomeReadBack(a: Answer)
    ensures ReadOutcome(a.Text()) == a.Outcome()
  {
    match a
    case AuthenticationRequired => ReadAlertsTexts("", []);
    case AlertsUnavailable => ReadAlertsTexts("", []);
    case NoActiveAlerts(code) => ReadAlertsTexts(code, []);
    case AlertsListed(code, alerts) => ReadAlertsTexts(code, alerts);
    case GridPointUnavailable(latitude, longitude) => ReadForecastTexts(latitude, longitude, []);
    case ForecastUrlMissing => ReadForecastTexts(Coordinate(0.0, "0"), Coordinate(0.0, "0"), []);
    case ForecastUnavailable => ReadForecastTexts(Coordinate(0.0, "0"), Coordinate(0.0, "0"), []);
    case NoForecastPeriods => ReadForecastTexts(Coordinate(0.0, "0"), Coordinate(0.0, "0"), []);
    case ForecastListed(latitude, longitude, periods) => ReadForecastTexts(latitude, longitude, periods);
  }

  /** Answers of different kinds never share a text. */
  lemma TextsDiffer(a: Answer, b: Answer)
    requires a.Outcome() != b.Outcome()
    ensures a.Text() != b.Text()
  {
    OutcomeReadBack(a);
    OutcomeReadBack(b);
  }

  /** The answer a handler returns and the requests it issued on the way. */
  datatype Reply = Reply(answer: Answer, requests: seq<Request>)

  const SuccessPrefix: string := "Successfully authenticated as "
  const SuccessSuffix: string := ". You can now use weather tools."

  /** The user name a success text announces, if the text is a success text. */
  function ReadUsername(text: string): Option<string> {
    if |text| >= |SuccessPrefix| + |SuccessSuffix|
       && text[..|SuccessPrefix|] == SuccessPrefix
       && text[|text| - |SuccessSuffix|..] == SuccessSuffix
    then Some(text[|SuccessPrefix|..|text| - |SuccessSuffix|])
    else None
  }

  const FailurePrefix: string := "Authentication failed: "
  const FailureSuffix: string := ". Please provide a valid GitHub personal access token."

  /** The reason a failure text reports, if the text is a failure text. */
  function ReadError(text: string): Option<string> {
    if |text| >= |FailurePrefix| + |FailureSuffix|
       && text[..|FailurePrefix|] == FailurePrefix
       && text[|text| - |FailureSuffix|..] == FailureSuffix
    then Some(text[|FailurePrefix|..|text| - |FailureSuffix|])
    else None
  }

  /** The text the `authenticate` tool returns for the result of `authenticateWithGitHub`:
      it announces success exactly for a verified token and names the user it was verified as,
      and it reports failure exactly for a rejected token and names the reason. */
  function AuthenticateText(result: AuthResult): (r: string)
    ensures ReadUsername(r) == if result.Verified? then Some(result.username) else None
    ensures ReadError(r) == if result.Rejected? then Some(result.error) else None
  {
    match result
    case Verified(username) =>
      var text := SuccessPrefix + username + SuccessSuffix;
      assert text[..|SuccessPrefix|] == SuccessPrefix;
      assert text[|text| - |SuccessSuffix|..] == SuccessSuffix;
      assert text[|SuccessPrefix|..|text| - |SuccessSuffix|] == username;
      assert text[0] == 'S' && FailurePrefix[0] == 'A';
      assert |text| >= |FailurePrefix| ==> text[..|FailurePrefix|][0] != FailurePrefix[0];
      text
    case Rejected(error) =>
      var text := FailurePrefix + error + FailureSuffix;
      assert text[..|FailurePrefix|] == FailurePrefix;
      assert text[|text| - |FailureSuffix|..] == FailureSuffix;
      assert text[|FailurePrefix|..|text| - |FailureSuffix|] == error;
      assert text[0] == 'A' && SuccessPrefix[0] == 'S';
      assert |text| >= |SuccessPrefix| ==> text[..|SuccessPrefix|][0] != SuccessPrefix[0];
      text
  }

  /** The `authenticate` tool: verify the token, update the session, report the outcome. */
  method HandleAuthenticate(session: Session, token: string, lookup: Lookup) returns (text: string)
    modifies session
    ensures session.State() == Authenticate(old(session.State()), token, lookup).0
    ensures text == AuthenticateText(Authenticate(old(session.State()), token, lookup).1)
  {
    var result := session.AuthenticateWithGitHub(token, lookup);
    text := AuthenticateText(result);
  }

  /** `alertsData.features || []`: an array, even an empty one, is kept. */
  function Features(alerts: AlertsResponse): (r: seq<AlertFeature>)
    ensures alerts.features.Some? ==> r == alerts.features.value
    ensures alerts.features.None? ==> r == []
  {
    alerts.features.GetOr([])
  }

  /** `features.map(formatAlert)`. */
  function FormatAlerts(features: seq<AlertFeature>): (r: seq<string>)
    ensures |r| == |features|
    ensures forall i :: 0 <= i < |features| ==> r[i] == FormatAlert(features[i])
  {
    seq(|features|, i requires 0 <= i < |features| => FormatAlert(features[i]))
  }

  /** The `get_alerts` handler. `state` has the two characters the input schema demands;
      `alertsData` is what the one alerts request returned, `None` if it failed. */
  function GetAlerts(authenticated: bool, state: string, alertsData: Option<AlertsResponse>): (r: Reply)
    requires |state| == 2
    ensures !authenticated ==> r == Reply(AuthenticationRequired, [])
    ensures authenticated ==> r.requests == [AlertsForArea(Upper(state))]
    ensures authenticated && alertsData.None? ==> r.answer == AlertsUnavailable
    ensures authenticated && alertsData.Some? && Features(alertsData.value) == [] ==>
      r.answer == NoActiveAlerts(Upper(state))
  {
    if !authenticated then Reply(AuthenticationRequired, [])
    else
      var stateCode := Upper(state);
      var requests := [AlertsForArea(stateCode)];
      if alertsData.None? then Reply(AlertsUnavailable, requests)
      else
        var features := Features(alertsData.value);
        if |features| == 0 then Reply(NoActiveAlerts(stateCode), requests)
        else Reply(AlertsListed(stateCode, FormatAlerts(features)), requests)
  }

  /** The return `get_alerts` reaches for these inputs, by the conditions it tests in order. */
  function AlertsBranch(authenticated: bool, alertsData: Option<AlertsResponse>): Outcome {
    if !authenticated then NeedsAuthentication
    else if alertsData.None? then AlertsFetchFailed
    else if Features(alertsData.value) == [] then NoAlerts
    else AlertsShown
  }

  /** The text of `get_alerts` tells exactly which condition stopped the handler, or that
      alerts were listed. */
  lemma AlertsOutcomes(authenticated: bool, state: string, alertsData: Option<AlertsResponse>)
    requires |state| == 2
    ensures ReadOutcome(GetAlerts(authenticated, state, alertsData).answer.Text())
      == AlertsBranch(authenticated, alertsData)
  {
    OutcomeReadBack(GetAlerts(authenticated, state, alertsData).answer);
  }

  /** The six lines of every alert, in the order of the features. */
  function AlertBlocks(features: seq<AlertFeature>): (r: seq<seq<string>>)
    ensures |r| == |features|
    ensures forall k :: 0 <= k < |features| ==> r[k] == AlertLines(features[k].properties)
  {
    seq(|features|, k requires 0 <= k < |features| => AlertLines(features[k].properties))
  }

  /** The link from `get_alerts` to its listing: with some features, the handler lists them
      under the upper-cased state code. */
  lemma AlertsListingAnswer(state: string, alertsData: Option<AlertsResponse>)
    requires |state| == 2
    requires alertsData.Some? && Features(alertsData.value) != []
    ensures GetAlerts(true, state, alertsData).answer ==
      AlertsListed(Upper(state), FormatAlerts(Features(alertsData.value)))
  {
  }

  /** A listing of alerts is the header line, an empty line, then the six lines of every
      alert in the order of the features, for a state code and fields without line breaks. */
  lemma AlertsListing(stateCode: string, features: seq<AlertFeature>)
    requires '\n' !in stateCode && |features| > 0
    requires forall k :: 0 <= k < |features| ==> AlertSingleLine(features[k].properties)
    ensures SplitLines(AlertsText(stateCode, FormatAlerts(features)))
      == ["Active alerts for " + stateCode + ":", ""] + Flatten(AlertBlocks(features))
  {
    var parts := FormatAlerts(features);
    var blocks := AlertBlocks(features);
    forall k | 0 <= k < |parts| ensures SplitLines(parts[k]) == blocks[k] {
      FormatAlertLines(features[k]);
    }
    Listing("Active alerts for " + stateCode + ":", parts, blocks);
  }

  /** Line `j` of alert `i` is line `2 + 6 * i + j` of a listing of alerts, for a state code
      and fields without line breaks. */
  lemma AlertsListingAt(stateCode: string, features: seq<AlertFeature>, i: nat, j: nat)
    requires '\n' !in stateCode && i < |features| && j < 6
    requires forall k :: 0 <= k < |features| ==> AlertSingleLine(features[k].properties)
    ensures |SplitLines(AlertsText(stateCode, FormatAlerts(features)))| == 2 + 6 * |features|
    ensures SplitLines(AlertsText(stateCode, FormatAlerts(features)))[2 + 6 * i + j]
      == AlertLines(features[i].properties)[j]
  {
    var blocks := AlertBlocks(features);
    AlertsListing(stateCode, features);
    FlattenAt(blocks, 6, i, j);
    BlockStartIsProduct(6, i);
    BlockStartIsProduct(6, |blocks|);
  }

  /** `pointsData.properties?.forecast`, when it is truthy. */
  function ForecastUrl(points: PointsResponse): (r: Option<string>)
    ensures r.Some? <==> (points.properties.Some? && points.properties.value.forecast.Some?
                          && points.properties.value.forecast.value != "")
    ensures r.Some? ==> r == points.properties.value.forecast && r.value != ""
  {
    if points.properties.Some? && points.properties.value.forecast.Some?
       && points.properties.value.forecast.value != ""
    then points.properties.value.forecast
    else None
  }

  /** `forecastData.properties?.periods || []`. */
  function Periods(forecast: ForecastResponse): (r: seq<ForecastPeriod>)
    ensures forecast.properties.Some? && forecast.properties.value.periods.Some? ==>
      r == forecast.properties.value.periods.value
    ensures forecast.properties.None? || forecast.properties.value.periods.None? ==> r == []
  {
    if forecast.properties.Some? then forecast.properties.value.periods.GetOr([]) else []
  }

  /** `periods.map(...)` with the five-line block of each period. */
  function FormatPeriods(periods: seq<ForecastPeriod>): (r: seq<string>)
    ensures |r| == |periods|
    ensures forall i :: 0 <= i < |periods| ==> r[i] == FormatPeriod(periods[i])
  {
    seq(|periods|, i requires 0 <= i < |periods| => FormatPeriod(periods[i]))
  }

  predicate InRange(latitude: Coordinate, longitude: Coordinate) {
    -90.0 <= latitude.degrees <= 90.0 && -180.0 <= longitude.degrees <= 180.0
  }

  /** The `get_forecast` handler, for coordinates the input schema admits. `pointsData` is
      what the grid-point request returned and `forecastData` what the forecast request would
      return; `None` where the request failed. */
  function GetForecast(authenticated: bool, latitude: Coordinate, longitude: Coordinate,
                       pointsData: Option<PointsResponse>, forecastData: Option<ForecastResponse>): (r: Reply)
    requires InRange(latitude, longitude)
    ensures !authenticated ==> r == Reply(AuthenticationRequired, [])
    ensures authenticated ==> 1 <= |r.requests| <= 2 && r.requests[0] == GridPoint(latitude.degrees, longitude.degrees)
    ensures |r.requests| == 2 <==> authenticated && pointsData.Some? && ForecastUrl(pointsData.value).Some?
    ensures |r.requests| == 2 ==> r.requests[1] == ForecastAt(ForecastUrl(pointsData.value).value)
    ensures authenticated && pointsData.None? ==> r.answer == GridPointUnavailable(latitude, longitude)
    ensures authenticated && pointsData.Some? && ForecastUrl(pointsData.value).None? ==>
      r.answer == ForecastUrlMissing
    ensures |r.requests| == 2 && forecastData.None? ==> r.answer == ForecastUnavailable
    ensures |r.requests| == 2 && forecastData.Some? && Periods(forecastData.value) == [] ==>
      r.answer == NoForecastPeriods
  {
    if !authenticated then Reply(AuthenticationRequired, [])
    else
      var pointsRequest := [GridPoint(latitude.degrees, longitude.degrees)];
      if pointsData.None? then Reply(GridPointUnavailable(latitude, longitude), pointsRequest)
      else
        var url := ForecastUrl(pointsData.value);
        if url.None? then Reply(ForecastUrlMissing, pointsRequest)
        else
          var requests := pointsRequest + [ForecastAt(url.value)];
          if forecastData.None? then Reply(ForecastUnavailable, requests)
          else
            var periods := Periods(forecastData.value);
            if |periods| == 0 then Reply(NoForecastPeriods, requests)
            else Reply(ForecastListed(latitude, longitude, FormatPeriods(periods)), requests)
  }

  /** Once `get_forecast` has returned before its forecast request, the forecast result is
      never consulted: any other forecast result gives the same reply. */
  lemma ForecastNotConsulted(authenticated: bool, latitude: Coordinate, longitude: Coordinate,
                             pointsData: Option<PointsResponse>, forecastData: Option<ForecastResponse>,
                             otherForecast: Option<ForecastResponse>)
    requires InRange(latitude, longitude)
    requires !authenticated || pointsData.None? || ForecastUrl(pointsData.value).None?
    ensures GetForecast(authenticated, latitude, longitude, pointsData, forecastData) ==
      GetForecast(authenticated, latitude, longitude, pointsData, otherForecast)
    ensures |GetForecast(authenticated, latitude, longitude, pointsData, forecastData).requests| <= 1
  {
  }

  /** The return `get_forecast` reaches for these inputs, by the conditions it tests in order. */
  function ForecastBranch(authenticated: bool, pointsData: Option<PointsResponse>,
                          forecastData: Option<ForecastResponse>): Outcome
  {
    if !authenticated then NeedsAuthentication
    else if pointsData.None? then GridPointFetchFailed
    else if ForecastUrl(pointsData.value).None? then NoForecastUrl
    else if forecastData.None? then ForecastFetchFailed
    else if Periods(forecastData.value) == [] then NoPeriods
    else ForecastShown
  }

  /** The text of `get_forecast` tells exactly which condition stopped the handler, or that
      the forecast was listed. */
  lemma ForecastOutcomes(authenticated: bool, latitude: Coordinate, longitude: Coordinate,
                         pointsData: Option<PointsResponse>, forecastData: Option<ForecastResponse>)
    requires InRange(latitude, longitude)
    ensures ReadOutcome(GetForecast(authenticated, latitude, longitude, pointsData, forecastData).answer.Text())
      == ForecastBranch(authenticated, pointsData, forecastData)
  {
    var a := GetForecast(authenticated, latitude, longitude, pointsData, forecastData).answer;
    ForecastAnswerOutcome(authenticated, latitude, longitude, pointsData, forecastData);
    OutcomeReadBack(a);
  }

  lemma ForecastAnswerOutcome(authenticated: bool, latitude: Coordinate, longitude: Coordinate,
                              pointsData: Option<PointsResponse>, forecastData: Option<ForecastResponse>)
    requires InRange(latitude, longitude)
    ensures GetForecast(authenticated, latitude, longitude, pointsData, forecastData).answer.Outcome()
      == ForecastBranch(authenticated, pointsData, forecastData)
  {
    if authenticated && pointsData.Some? && ForecastUrl(pointsData.value).Some? && forecastData.Some?
       && Periods(forecastData.value) != [] {
      ForecastListingAnswer(latitude, longitude, pointsData, forecastData);
    }
  }

  /** The five lines of every period, in order. */
  function PeriodBlocks(periods: seq<ForecastPeriod>): (r: seq<seq<string>>)
    ensures |r| == |periods|
    ensures forall k :: 0 <= k < |periods| ==> r[k] == PeriodLines(periods[k])
  {
    seq(|periods|, k requires 0 <= k < |periods| => PeriodLines(periods[k]))
  }

  /** The link from `get_forecast` to its listing: with a forecast URL and some periods, the
      handler lists them under the coordinates. */
  lemma ForecastListingAnswer(latitude: Coordinate, longitude: Coordinate, pointsData: Option<PointsResponse>,
                              forecastData: Option<ForecastResponse>)
    requires InRange(latitude, longitude)
    requires pointsData.Some? && ForecastUrl(pointsData.value).Some? && forecastData.Some?
    requires Periods(forecastData.value) != []
    ensures GetForecast(true, latitude, longitude, pointsData, forecastData).answer ==
      ForecastListed(latitude, longitude, FormatPeriods(Periods(forecastData.value)))
  {
  }

  /** A forecast is the header line, an empty line, then the five lines of every period in
      order, for coordinate displays and fields without line breaks. */
  lemma ForecastListing(latitude: Coordinate, longitude: Coordinate, periods: seq<ForecastPeriod>)
    requires '\n' !in latitude.shown && '\n' !in longitude.shown && |periods| > 0
    requires forall k :: 0 <= k < |periods| ==> PeriodSingleLine(periods[k])
    ensures SplitLines(ForecastText(latitude, longitude, FormatPeriods(periods)))
      == ["Forecast for " + latitude.shown + ", " + longitude.shown + ":", ""] + Flatten(PeriodBlocks(periods))
  {
    var parts := FormatPeriods(periods);
    var blocks := PeriodBlocks(periods);
    forall k | 0 <= k < |parts| ensures SplitLines(parts[k]) == blocks[k] {
      FormatPeriodLines(periods[k]);
    }
    Listing("Forecast for " + latitude.shown + ", " + longitude.shown + ":", parts, blocks);
  }

  /** Line `j` of period `i` is line `2 + 5 * i + j` of a forecast, for coordinate displays
      and fields without line breaks. */
  lemma ForecastListingAt(latitude: Coordinate, longitude: Coordinate, periods: seq<ForecastPeriod>, i: nat, j: nat)
    requires '\n' !in latitude.shown && '\n' !in longitude.shown && i < |periods| && j < 5
    requires forall k :: 0 <= k < |periods| ==> PeriodSingleLine(periods[k])
    ensures |SplitLines(ForecastText(latitude, longitude, FormatPeriods(periods)))| == 2 + 5 * |periods|
    ensures SplitLines(ForecastText(latitude, longitude, FormatPeriods(periods)))[2 + 5 * i + j]
      == PeriodLines(periods[i])[j]
  {
    var blocks := PeriodBlocks(periods);
    ForecastListing(latitude, longitude, periods);
    FlattenAt(blocks, 5, i, j);
    BlockStartIsProduct(5, i);
    BlockStartIsProduct(5, |blocks|);
  }

  /** The gate: after any series of `authenticate` calls from start-up, both weather tools
      issue a request exactly when one of the calls was verified; until then they answer
      "Authentication required" and issue none. */
  lemma GateOpensOnVerification(attempts: seq<Attempt>, state: string, alertsData: Option<AlertsResponse>,
                                latitude: Coordinate, longitude: Coordinate,
                                pointsData: Option<PointsResponse>, forecastData: Option<ForecastResponse>)
    requires |state| == 2 && InRange(latitude, longitude)
    ensures GetAlerts(Run(Initial, attempts).IsAuthenticated(), state, alertsData).requests != []
      <==> exists i :: 0 <= i < |attempts| && attempts[i].lookup.Success?
    ensures GetForecast(Run(Initial, attempts).IsAuthenticated(), latitude, longitude, pointsData, forecastData).requests != []
      <==> exists i :: 0 <= i < |attempts| && attempts[i].lookup.Success?
    ensures (forall i :: 0 <= i < |attempts| ==> attempts[i].lookup.Failure?) ==>
      GetAlerts(Run(Initial, attempts).IsAuthenticated(), state, alertsData) == Reply(AuthenticationRequired, [])
      && GetForecast(Run(Initial, attempts).IsAuthenticated(), latitude, longitude, pointsData, forecastData)
         == Reply(AuthenticationRequired, [])
  {
    RunAuthenticated(Initial, attempts);
  }

  /** `get_alerts` as the server runs it: the gate is the session's `isAuthenticated()` at the
      moment of the call. */
  method AlertsTool(session: Session, state: string, alertsData: Option<AlertsResponse>) returns (r: Reply)
    requires |state| == 2
    ensures r == GetAlerts(session.IsAuthenticated(), state, alertsData)
    ensures !session.State().IsAuthenticated() ==> r == Reply(AuthenticationRequired, [])
  {
    r := GetAlerts(session.IsAuthenticated(), state, alertsData);
  }

  /** `get_forecast` as the server runs it, gated by the session in the same way. */
  method ForecastTool(session: Session, latitude: Coordinate, longitude: Coordinate,
                      pointsData: Option<PointsResponse>, forecastData: Option<ForecastResponse>) returns (r: Reply)
    requires InRange(latitude, longitude)
    ensures r == GetForecast(session.IsAuthenticated(), latitude, longitude, pointsData, forecastData)
    ensures !session.State().IsAuthenticated() ==> r == Reply(AuthenticationRequired, [])
  {
    r := GetForecast(session.IsAuthenticated(), latitude, longitude, pointsData, forecastData);
  }
}
