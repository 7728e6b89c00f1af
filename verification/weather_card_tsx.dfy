/** The typed weather card (WeatherCard.tsx): a city name is geocoded, the
    first match's coordinates are used for the forecast, and every write after
    the `await`s is guarded by the cycle's `cancelled` flag. The cleanup does not
    stop the requests themselves. */
module WeatherCardTsx {
  import opened Common
  import opened Text
  import opened Lifecycle
  import opened OpenMeteo

  const FailureMessage: string := "Failed to load weather. Try a different city or check network."

  /** The weather-code table of `formatWeatherCode`. */
  const WeatherLabels: map<int, string> := map[
    0 := "Clear",
    1 := "Mainly clear",
    2 := "Partly cloudy",
    3 := "Overcast",
    45 := "Fog",
    48 := "Depositing rime fog",
    51 := "Drizzle: light",
    53 := "Drizzle: moderate",
    55 := "Drizzle: dense",
    61 := "Rain: slight",
    63 := "Rain: moderate",
    65 := "Rain: heavy",
    71 := "Snow: slight",
    73 := "Snow: moderate",
    75 := "Snow: heavy",
    80 := "Rain showers: slight",
    81 := "Rain showers: moderate",
    82 := "Rain showers: violent",
    95 := "Thunderstorm",
    96 := "Thunderstorm w/ hail",
    99 := "Thunderstorm w/ heavy hail"
  ]

  /** The human label of a weather code; total, with "Unknown" for every code
      outside the table. */
  function FormatWeatherCode(code: int): (text: string)
    ensures text != "Unknown" <==>
              code in {0, 1, 2, 3, 45, 48, 51, 53, 55, 61, 63, 65, 71, 73, 75, 80, 81, 82, 95, 96, 99}
    ensures code == 3 ==> text == "Overcast"
    ensures code == 0 ==> text == "Clear"
    ensures code == 99 ==> text == "Thunderstorm w/ heavy hail"
  {
    if code in WeatherLabels then WeatherLabels[code] else "Unknown"
  }

  /** No two codes of the table share a label, so a shown label names its code. */
  lemma WeatherLabelsDistinct(a: int, b: int)
    requires a in WeatherLabels && b in WeatherLabels
    ensures FormatWeatherCode(a) == FormatWeatherCode(b) <==> a == b
  {
  }

  /** The location heading: the place name, followed by ", " and the country
      when the country is present and not empty. */
  function ResolvedName(place: Place): (heading: string)
    ensures place.name <= heading
    ensures heading == place.name <==> !Truthy(place.country)
    ensures Truthy(place.country) ==> heading[|place.name|..] == ", " + place.country.value
  {
    place.name + (if Truthy(place.country) then ", " + place.country.value else "")
  }

  /** The city a form submission selects: the trimmed input, or the default
      city when the input is blank. */
  function SubmittedCity(input: string, defaultCity: string): (city: string)
    ensures AllSpace(input) ==> city == defaultCity
    ensures !AllSpace(input) ==> city == Trim(input) && city != []
                                 && !IsSpace(city[0]) && !IsSpace(city[|city| - 1])
  {
    var t := Trim(input);
    if t != [] then t else defaultCity
  }

  /** Submitting the selected city again selects the same city, so it starts no
      new cycle (when the default city is itself trimmed). */
  lemma ResubmitIsStable(input: string, defaultCity: string)
    requires defaultCity == [] || (!IsSpace(defaultCity[0]) && !IsSpace(defaultCity[|defaultCity| - 1]))
    ensures SubmittedCity(SubmittedCity(input, defaultCity), defaultCity) == SubmittedCity(input, defaultCity)
  {
    if AllSpace(input) {
      TrimOfTrimmed(defaultCity);
    } else {
      TrimIdempotent(input);
    }
  }

  /** On the card: submitting the selected city again starts no cycle and
      changes nothing. */
  lemma ResubmitStartsNothing(c: Card, input: string, defaultCity: string)
    requires defaultCity == [] || (!IsSpace(defaultCity[0]) && !IsSpace(defaultCity[|defaultCity| - 1]))
    ensures var once := Step(c, Submit(input, defaultCity));
            Step(once, Submit(SubmittedCity(input, defaultCity), defaultCity)) == once
  {
    ResubmitIsStable(input, defaultCity);
  }

  /** The first geocoding match, when geocoding succeeded at all: no match for
      a failed request, a status that is not ok, a malformed body, a missing or
      empty `results`. */
  function FirstPlace(geo: Reply<GeocodeBody>): (place: Option<Place>)
    ensures place.Some? <==> Payload(geo).Some? && Payload(geo).value.results.Some?
                             && |Payload(geo).value.results.value| > 0
    ensures place.Some? ==> place.value == Payload(geo).value.results.value[0]
  {
    var body: Option<GeocodeBody> := Payload(geo);
    if body.Some? && body.value.results.Some? && |body.value.results.value| > 0
    then Some(body.value.results.value[0])
    else None
  }

  /** What the network answers one cycle: the geocoding reply, and the reply the
      forecast request would get if it is issued. */
  datatype Replies = Replies(geocode: Reply<GeocodeBody>, forecast: Reply<ForecastBody>)

  datatype Outcome = Loaded(place: Place, current: Option<CurrentWeather>) | Failed

  /** The forecast request a cycle issues, if any, and how the cycle ends. */
  datatype Attempt = Attempt(forecastRequest: Option<Request>, outcome: Outcome)

  /** The two sequential requests of `fetchWeather`. */
  function FetchWeather(replies: Replies): (a: Attempt)
    // the forecast is requested only after a successful geocoding, and for
    // exactly the first match's coordinates
    ensures a.forecastRequest.Some? <==> FirstPlace(replies.geocode).Some?
    ensures a.forecastRequest.Some? ==>
              var p := FirstPlace(replies.geocode).value;
              a.forecastRequest.value == Forecast(p.latitude, p.longitude)
    // all or nothing: the cycle loads only when both requests succeeded
    ensures a.outcome.Loaded? <==> FirstPlace(replies.geocode).Some? && Payload(replies.forecast).Some?
    ensures a.outcome.Loaded? ==>
              && Some(a.outcome.place) == FirstPlace(replies.geocode)
              && Payload(replies.forecast) == Some(ForecastBody(a.outcome.current))
  {
    match FirstPlace(replies.geocode)
    case None => Attempt(None, Failed)
    case Some(p) =>
      Attempt(
        Some(Forecast(p.latitude, p.longitude)),
        match Payload(replies.forecast)
        case Some(body) => Loaded(p, body.currentWeather)
        case None => Failed)
  }

  datatype State = State(loading: bool, error: Option<string>, weather: Option<CurrentWeather>, resolvedName: string)

  /** `sent` logs the requests of the cycles: a cycle's geocoding request when
      it starts, and its forecast request, if any, when the cycle completes. */
  datatype Card = Card(tracker: Tracker<string>, state: State, sent: seq<Request>)

  type Trace = seq<Event<string, Replies>>

  function Initial(defaultCity: string): Card {
    Card(Unmounted(), State(true, None, None, defaultCity), [])
  }

  /** The first effect run, for the initial city. */
  function Mount(defaultCity: string): Event<string, Replies> {
    Start(defaultCity)
  }

  /** A form submission; React starts no effect when the city is unchanged. */
  function Submit(input: string, defaultCity: string): Event<string, Replies> {
    Start(SubmittedCity(input, defaultCity))
  }

  predicate Inv(c: Card) {
    && Valid(c.tracker)
    && LoadingTracksLive(c.tracker, c.state.loading)
    && (c.state.loading ==> c.state.error.None?)
    && (c.state.error.Some? ==> c.state.error.value == FailureMessage)
  }

  /** The writes of an uncancelled completion. A forecast without
      `current_weather` still counts as loaded: the weather becomes absent. */
  function Settle(s: State, outcome: Outcome): State {
    match outcome
    case Loaded(place, current) => s.(weather := current, resolvedName := ResolvedName(place), loading := false)
    case Failed => s.(error := Some(FailureMessage), loading := false)
  }

  function ForecastRequests(a: Attempt): seq<Request> {
    if a.forecastRequest.Some? then [a.forecastRequest.value] else []
  }

  function Step(c: Card, e: Event<string, Replies>): (r: Card)
    ensures Inv(c) ==> Inv(r)
    ensures c.sent <= r.sent
    ensures e.Start? && c.tracker.key == Some(e.key) ==> r == c
    // a new city: geocoding is requested for it, loading on, error cleared,
    // the shown weather and heading kept
    ensures e.Start? && c.tracker.key != Some(e.key) ==>
              && r.sent == c.sent + [Geocode(e.key)]
              && r.tracker.started == c.tracker.started + [e.key]
              && r.state == c.state.(loading := true, error := None)
    // a failed geocoding never leads to a forecast request
    ensures e.Complete? && FirstPlace(e.outcome.geocode).None? ==> r.sent == c.sent
    // a cycle that is still running requests the forecast for the first match,
    // even if it has been cancelled
    ensures e.Complete? && e.cycle in c.tracker.inflight && FirstPlace(e.outcome.geocode).Some? ==>
              var p := FirstPlace(e.outcome.geocode).value;
              r.sent == c.sent + [Forecast(p.latitude, p.longitude)]
    // a cancelled cycle writes nothing
    ensures e.Complete? && c.tracker.live != Some(e.cycle) ==>
              r.state == c.state && r.tracker.live == c.tracker.live
    // the live cycle: every failure gives the one fixed message, the weather
    // and heading kept
    ensures e.Complete? && c.tracker.live == Some(e.cycle) && e.cycle in c.tracker.inflight ==>
              && !r.state.loading
              && (FetchWeather(e.outcome).outcome.Failed? ==>
                    r.state == c.state.(loading := false, error := Some(FailureMessage)))
              && (FetchWeather(e.outcome).outcome.Loaded? ==>
                    && r.state.error == c.state.error
                    && r.state.weather == FetchWeather(e.outcome).outcome.current
                    && r.state.resolvedName == ResolvedName(FirstPlace(e.outcome.geocode).value))
    ensures e.Cleanup? ==> r.state == c.state && r.sent == c.sent && r.tracker.live.None?
  {
    match e
    case Start(city) =>
      if c.tracker.key == Some(city) then c
      else Card(Rerun(c.tracker, city, true), c.state.(loading := true, error := None), c.sent + [Geocode(city)])
    case Complete(id, replies) =>
      if id !in c.tracker.inflight then c
      else
        var a := FetchWeather(replies);
        var s := if c.tracker.live == Some(id) then Settle(c.state, a.outcome) else c.state;
        Card(Settled(c.tracker, id), s, c.sent + ForecastRequests(a))
    case Cleanup =>
      Card(Disposed(c.tracker), c.state, c.sent)
  }

  function Run(c: Card, trace: Trace): (r: Card)
    ensures Inv(c) ==> Inv(r)
    ensures c.sent <= r.sent
    decreases |trace|
  {
    if trace == [] then c else Run(Step(c, trace[0]), trace[1..])
  }

  lemma RunAppend(c: Card, t: Trace, e: Event<string, Replies>)
    ensures Run(c, t + [e]) == Step(Run(c, t), e)
    decreases |t|
  {
    if t != [] {
      assert (t + [e])[1..] == t[1..] + [e];
      RunAppend(Step(c, t[0]), t[1..], e);
    }
  }

  /** Whatever happens, the only error the card ever shows is the fixed
      message, and never together with the spinner. */
  lemma OnlyFixedMessage(defaultCity: string, trace: Trace)
    ensures var s := Run(Initial(defaultCity), trace).state;
            && (s.error.Some? ==> s.error.value == FailureMessage)
            && !(s.loading && s.error.Some?)
  {
  }

  /** Once a cycle has been cancelled, its completion and any later completions
      of cancelled cycles change neither the weather, the heading, the error nor
      `loading`. */
  lemma {:induction false} StaleCompletionsChangeNothing(c: Card, late: Trace)
    requires forall i :: 0 <= i < |late| ==> late[i].Complete? && c.tracker.live != Some(late[i].cycle)
    ensures Run(c, late).state == c.state
    ensures Run(c, late).tracker.live == c.tracker.live
    decreases |late|
  {
    if late != [] {
      assert forall i :: 0 <= i < |late[1..]| ==> late[1..][i] == late[i + 1];
      StaleCompletionsChangeNothing(Step(c, late[0]), late[1..]);
    }
  }

  /** A city searched for that does not exist, whether the geocoder leaves
      `results` out or sends it empty: the card reports the fixed message and
      only the geocoding request was made. */
  lemma CityNotFound(defaultCity: string, status: nat, body: GeocodeBody, fc: Reply<ForecastBody>)
    requires IsOk(status)
    requires body.results.None? || body.results == Some([])
    ensures var trace: Trace := [Mount(defaultCity), Complete(0, Replies(Response(status, Json(body)), fc))];
            var c := Run(Initial(defaultCity), trace);
            && c.state.error == Some(FailureMessage)
            && !c.state.loading
            && c.sent == [Geocode(defaultCity)]
  {
    var e0 := Mount(defaultCity);
    var e1: Event<string, Replies> := Complete(0, Replies(Response(status, Json(body)), fc));
    var c0 := Initial(defaultCity);
    RunAppend(c0, [], e0);
    RunAppend(c0, [e0], e1);
    assert [e0] + [e1] == [e0, e1];
  }

  /** What the card shows below the form. */
  datatype View = View(spinner: bool, errorCard: Option<string>, report: Option<(string, CurrentWeather)>)

  /** The three guards of the markup: the spinner while loading, the error
      card for a truthy error, and the report, headed by the resolved name,
      only when neither shows and weather is present. */
  function Render(s: State): (v: View)
    ensures v.spinner <==> s.loading
    ensures v.errorCard.Some? <==> Truthy(s.error)
    ensures v.errorCard.Some? ==> v.errorCard == s.error
    ensures v.report.Some? <==> !s.loading && !Truthy(s.error) && s.weather.Some?
    ensures v.report.Some? ==> v.report.value == (s.resolvedName, s.weather.value)
  {
    View(
      s.loading,
      if Truthy(s.error) then s.error else None,
      if !s.loading && !Truthy(s.error) && s.weather.Some? then Some((s.resolvedName, s.weather.value)) else None)
  }

  /** In every reachable configuration at most one of the spinner, the error
      card and the report is shown. */
  lemma ViewsExclusive(defaultCity: string, trace: Trace)
    ensures var v := Render(Run(Initial(defaultCity), trace).state);
            && !(v.spinner && v.errorCard.Some?)
            && !(v.spinner && v.report.Some?)
            && !(v.errorCard.Some? && v.report.Some?)
  {
    OnlyFixedMessage(defaultCity, trace);
  }
}
