/** The fetch cycle shared by the four cards, seen as React runs it: a
    `useEffect` keyed on one dependency (the trigger key). Whenever the key
    changes, React first runs the previous run's cleanup, then the effect body,
    which may start one asynchronous cycle; the cycle later completes exactly
    once. The cards differ only in what they do with the completion, so this
    module keeps the bookkeeping and each card module keeps its own state. */
module Lifecycle {
  import opened Common

  /** One step of a card's history: the dependency takes a value (mount or a
      change), cycle `cycle` completes with what the network gave it, or the
      component is torn down and its last cleanup runs. */
  datatype Event<K, O> = Start(key: K) | Complete(cycle: nat, outcome: O) | Cleanup

  /** `key` is the dependency value the effect last ran with (`None` before
      mount); `started[i]` is the key cycle `i` was started for; `live` is the
      cycle whose cleanup has not run yet; `inflight` holds the cycles that have
      not completed. */
  datatype Tracker<K> = Tracker(key: Option<K>, live: Option<nat>, started: seq<K>, inflight: set<nat>)

  function Unmounted<K>(): Tracker<K> {
    Tracker(None, None, [], {})
  }

  /** Cycles are numbered in start order, the live cycle is the newest one and
      was started for the current key. */
  predicate Valid<K(==)>(t: Tracker<K>) {
    && (forall i :: i in t.inflight ==> i < |t.started|)
    && (t.live.Some? ==> t.live.value + 1 == |t.started| && t.key == Some(t.started[t.live.value]))
  }

  /** The dependency changed to `k`: the live cycle's cleanup runs, and a new
      cycle starts when the effect body gets past its guard (`starts`). */
  function Rerun<K>(t: Tracker<K>, k: K, starts: bool): Tracker<K> {
    if starts then Tracker(Some(k), Some(|t.started|), t.started + [k], t.inflight + {|t.started|})
    else Tracker(Some(k), None, t.started, t.inflight)
  }

  /** Cycle `id` has completed. */
  function Settled<K>(t: Tracker<K>, id: nat): Tracker<K> {
    t.(inflight := t.inflight - {id})
  }

  /** The component is torn down: the live cycle's cleanup runs. */
  function Disposed<K>(t: Tracker<K>): Tracker<K> {
    t.(live := None)
  }

  /** For the cards whose every post-await write is guarded: while a cycle is
      live, `loading` is set exactly when that cycle has not completed. */
  predicate LoadingTracksLive<K>(t: Tracker<K>, loading: bool) {
    t.live.Some? ==> (loading <==> t.live.value in t.inflight)
  }
}

/** The JSON the GitHub user endpoint returns, reduced to the fields the cards read. */
module GitHubApi {
  import opened Common

  /** `name` is `null` when the user has not set a display name. */
  datatype User = User(
    avatarUrl: string,
    name: Option<string>,
    login: string,
    bio: Option<string>,
    publicRepos: nat,
    followers: nat,
    following: nat,
    htmlUrl: string)
}

/** The JSON shapes of the Open-Meteo geocoding and forecast endpoints, and the
    requests the weather cards issue. Coordinates and readings are carried as
    opaque numbers: nothing computes with them. */
module OpenMeteo {
  import opened Common

  datatype Place = Place(name: string, latitude: real, longitude: real, country: Option<string>)

  /** `results` is absent when nothing matched. */
  datatype GeocodeBody = GeocodeBody(results: Option<seq<Place>>)

  datatype CurrentWeather = CurrentWeather(
    temperature: real,
    windspeed: real,
    winddirection: real,
    weathercode: int,
    time: string)

  /** `current_weather` may be missing from a forecast. */
  datatype ForecastBody = ForecastBody(currentWeather: Option<CurrentWeather>)

  datatype Request = Geocode(city: string) | Forecast(latitude: real, longitude: real)
}
