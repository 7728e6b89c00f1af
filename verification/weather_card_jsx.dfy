/** The untyped weather card (WeatherCard.jsx): coordinates come from the
    device or from a fixed fallback, one forecast request is made per
    coordinate value, the cleanup aborts it, and the `finally` that clears
    `loading` is not guarded. */
module WeatherCardJsx {
  import opened Common
  import opened Text
  import opened Lifecycle
  import opened OpenMeteo

  datatype Coords = Coords(lat: real, lon: real)

  /** The fallback position (Kigali). */
  const DefaultCoords: Coords := Coords(-1.9441, 30.0619)

  const NoWeatherMessage: string := "No current weather returned"

  /** What asking the browser for the position gives: no geolocation API, a
      position, or an error (permission denied, unavailable, timed out). */
  datatype Geolocation = Unsupported | Located(latitude: real, longitude: real) | PositionError

  /** The coordinates the card settles on. */
  function CoordsFor(g: Geolocation): (c: Coords)
    ensures g.Located? ==> c == Coords(g.latitude, g.longitude)
    ensures !g.Located? ==> c == DefaultCoords
  {
    match g
    case Located(lat, lon) => Coords(lat, lon)
    case _ => DefaultCoords
  }

  /** The message of the error thrown for a response that is not ok. */
  function StatusMessage(status: nat): (message: string)
    ensures "Weather API " < message
    ensures message[|"Weather API "|..] == DecimalOf(status)
  {
    "Weather API " + DecimalOf(status)
  }

  /** Distinct statuses give distinct messages, and none of them reads like the
      missing-weather message. */
  lemma StatusMessagesDistinct(a: nat, b: nat)
    ensures StatusMessage(a) == StatusMessage(b) <==> a == b
    ensures StatusMessage(a) != NoWeatherMessage
  {
    if StatusMessage(a) == StatusMessage(b) {
      PrefixedDecimalInjective("Weather API ", a, b);
    }
    assert StatusMessage(a)[0] == 'W' != NoWeatherMessage[0];
  }

  /** The error a live cycle reports for a reply, if any. */
  function ErrorOf(reply: Reply<ForecastBody>): (message: Option<string>)
    ensures message.None? <==> Payload(reply).Some? && Payload(reply).value.currentWeather.Some?
    ensures reply.NetworkError? ==> message == Some(reply.message)
    ensures reply.Response? && !IsOk(reply.status) ==> message == Some(StatusMessage(reply.status))
    ensures reply.Response? && IsOk(reply.status) && reply.body.Malformed? ==> message == Some(reply.body.message)
    ensures Payload(reply).Some? && Payload(reply).value.currentWeather.None? ==> message == Some(NoWeatherMessage)
  {
    match reply
    case NetworkError(m) => Some(m)
    case Response(status, body) =>
      if !IsOk(status) then Some(StatusMessage(status))
      else match body
        case Malformed(m) => Some(m)
        case Json(forecast) => if forecast.currentWeather.None? then Some(NoWeatherMessage) else None
  }

  datatype State = State(weather: Option<CurrentWeather>, loading: bool, error: Option<string>)

  /** The trigger key is the `coords` state, `None` while it is still `null`. */
  datatype Card = Card(tracker: Tracker<Option<Coords>>, state: State)

  type Trace = seq<Event<Option<Coords>, Reply<ForecastBody>>>

  function Initial(): Card {
    Card(Unmounted(), State(None, false, None))
  }

  /** The effect's first run, while `coords` is still `null`. */
  function Mount(): Event<Option<Coords>, Reply<ForecastBody>> {
    Start(None)
  }

  /** The geolocation callback (or the immediate fallback) sets `coords`. */
  function Locate(g: Geolocation): Event<Option<Coords>, Reply<ForecastBody>> {
    Start(Some(CoordsFor(g)))
  }

  function Settle(s: State, reply: Reply<ForecastBody>): State {
    match ErrorOf(reply)
    case Some(m) => s.(error := Some(m), loading := false)
    case None => s.(weather := Payload(reply).value.currentWeather, loading := false)
  }

  predicate Inv(c: Card) {
    && Valid(c.tracker)
    && (c.state.loading ==> c.state.error.None? && c.tracker.inflight != {})
    && (forall i :: 0 <= i < |c.tracker.started| ==> c.tracker.started[i].Some?)
  }

  function Step(c: Card, e: Event<Option<Coords>, Reply<ForecastBody>>): (r: Card)
    ensures Inv(c) ==> Inv(r)
    ensures e.Start? && c.tracker.key == Some(e.key) ==> r == c
    // while the coordinates are null no cycle starts and nothing is written
    ensures e.Start? && e.key.None? ==> r.tracker.started == c.tracker.started && r.state == c.state
    // coordinates: one forecast request for exactly them, loading on, error cleared
    ensures e.Start? && e.key.Some? && c.tracker.key != Some(e.key) ==>
              && r.tracker.started == c.tracker.started + [e.key]
              && r.state == State(c.state.weather, true, None)
    // an aborted cycle never writes the weather or an error, yet clears loading
    ensures e.Complete? && c.tracker.live != Some(e.cycle) ==>
              && r.state.weather == c.state.weather && r.state.error == c.state.error
              && r.tracker.live == c.tracker.live
              && (e.cycle in c.tracker.inflight ==> !r.state.loading)
    ensures e.Complete? && c.tracker.live == Some(e.cycle) && e.cycle in c.tracker.inflight ==>
              && !r.state.loading
              && (ErrorOf(e.outcome).Some? ==> r.state == State(c.state.weather, false, ErrorOf(e.outcome)))
              && (ErrorOf(e.outcome).None? ==>
                    r.state == State(Payload(e.outcome).value.currentWeather, false, c.state.error)
                    && r.state.weather.Some?)
    ensures e.Cleanup? ==> r.state == c.state && r.tracker.live.None?
  {
    match e
    case Start(k) =>
      if c.tracker.key == Some(k) then c
      else if k.None? then Card(Rerun(c.tracker, k, false), c.state)
      else Card(Rerun(c.tracker, k, true), c.state.(loading := true, error := None))
    case Complete(id, reply) =>
      if id !in c.tracker.inflight then c
      else if c.tracker.live == Some(id) then Card(Settled(c.tracker, id), Settle(c.state, reply))
      else Card(Settled(c.tracker, id), c.state.(loading := false))
    case Cleanup =>
      Card(Disposed(c.tracker), c.state)
  }

  function Run(c: Card, trace: Trace): (r: Card)
    ensures Inv(c) ==> Inv(r)
    decreases |trace|
  {
    if trace == [] then c else Run(Step(c, trace[0]), trace[1..])
  }

  lemma RunAppend(c: Card, t: Trace, e: Event<Option<Coords>, Reply<ForecastBody>>)
    ensures Run(c, t + [e]) == Step(Run(c, t), e)
    decreases |t|
  {
    if t != [] {
      assert (t + [e])[1..] == t[1..] + [e];
      RunAppend(Step(c, t[0]), t[1..], e);
    }
  }

  /** No request is ever made without coordinates, and the spinner is never
      shown together with an error. */
  lemma NoRequestWithoutCoords(trace: Trace)
    ensures var c := Run(Initial(), trace);
            && (forall i :: 0 <= i < |c.tracker.started| ==> c.tracker.started[i].Some?)
            && (c.state.loading ==> c.state.error.None?)
  {
  }

  /** After mount and the position lookup, exactly one forecast request has
      been made, for the device position or, when there is none, for the
      fallback coordinates; the card is loading. */
  lemma FirstRequestCoords(g: Geolocation)
    ensures var c := Run(Initial(), [Mount(), Locate(g)]);
            && c.tracker.started == [Some(CoordsFor(g))]
            && (!g.Located? ==> c.tracker.started == [Some(DefaultCoords)])
            && c.state.loading
            && Render(c.state) == Spinner
  {
    var e0 := Mount();
    var e1 := Locate(g);
    var c0 := Initial();
    RunAppend(c0, [], e0);
    RunAppend(c0, [e0], e1);
    assert [e0] + [e1] == [e0, e1];
  }

  /** Aborted cycles can only ever clear `loading`. */
  lemma {:induction false} AbortedCompletionsKeepWeather(c: Card, late: Trace)
    requires forall i :: 0 <= i < |late| ==> late[i].Complete? && c.tracker.live != Some(late[i].cycle)
    ensures Run(c, late).state.weather == c.state.weather
    ensures Run(c, late).state.error == c.state.error
    ensures Run(c, late).tracker.live == c.tracker.live
    decreases |late|
  {
    if late != [] {
      assert forall i :: 0 <= i < |late[1..]| ==> late[1..][i] == late[i + 1];
      AbortedCompletionsKeepWeather(Step(c, late[0]), late[1..]);
    }
  }

  /** What the card renders, by precedence. */
  datatype Screen = Spinner | ErrorCard(message: string) | Waiting | Report(weather: CurrentWeather)

  function Render(s: State): (v: Screen)
    ensures v == Spinner <==> s.loading
    ensures v.ErrorCard? <==> !s.loading && Truthy(s.error)
    ensures v == Waiting <==> !s.loading && !Truthy(s.error) && s.weather.None?
    ensures v.Report? ==> Some(v.weather) == s.weather
    ensures v.ErrorCard? ==> Some(v.message) == s.error
  {
    if s.loading then Spinner
    else if Truthy(s.error) then ErrorCard(s.error.value)
    else if s.weather.None? then Waiting
    else Report(s.weather.value)
  }
}
