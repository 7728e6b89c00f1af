# Developer Dashboard: fetch cycles and theme, in Dafny

This project models the logic of a small React dashboard that shows a GitHub
profile card and a weather card and keeps a light/dark theme. The app exists in
two parallel copies, a typed one (`.tsx`/`.ts`) and an untyped one (`.jsx`/`.js`),
and the two copies behave differently. Each copy of each card is modelled in its
own module:

- **Fetch cycles.** Each card runs a `useEffect` keyed on a trigger: the
  username, the city, or the coordinates. A card is an immutable
  `Card(tracker, state)`, driven by a trace of events: `Start(key)`,
  `Complete(cycle, outcome)` and `Cleanup`.
  - `Start(key)` means the dependency took a value. React runs the previous
    cleanup, then the effect.
  - `Complete(cycle, outcome)` means a cycle's awaits resolved with the network
    replies in `outcome`.
  - `Cleanup` means the component was torn down.
  - `Lifecycle.Tracker` records which cycle is live and which have not completed.
    A cycle's `cancelled` flag (typed cards), or its aborted `AbortController`
    (untyped cards), is set exactly when it is no longer the live cycle.
- **Weather codes, labels and inputs.** The module also covers:
  - the weather-code table;
  - the location heading;
  - city submission, with JavaScript `trim`;
  - the two display-name fallbacks;
  - the geolocation fallback to the default coordinates.
- **Theme.** The theme code reads `localStorage` and the `prefers-color-scheme`
  query, both modelled as a `Browser.Page` value, and writes the `dark` class
  and the stored value. The typed app's toggle and effect are modelled by
  `App`.

Network replies, geolocation results and the system preference are inputs to
the model. Nothing is fetched.

## Model

| member | source | states |
|---|---|---|
| `WeatherCardTsx.FormatWeatherCode` | developer-dashboard/src/components/WeatherCard.tsx:25-50 | total; the label differs from "Unknown" exactly for the 21 listed codes (3 is "Overcast"), every other integer gives "Unknown" |
| `WeatherCardTsx.WeatherLabelsDistinct` | developer-dashboard/src/components/WeatherCard.tsx:26-48 | no two codes of the table share a label |
| `WeatherCardTsx.ResolvedName` | developer-dashboard/src/components/WeatherCard.tsx:89 | the heading starts with the place name; it is exactly the name when the country is absent or empty, else the name followed by ", " and the country |
| `Text.Trim` | developer-dashboard/src/components/WeatherCard.tsx:113 | the result is a slice of the input with only JavaScript white space before and after it, has no white space at either end, and is empty exactly when the input is all white space |
| `Text.TrimStart` | developer-dashboard/src/components/WeatherCard.tsx:113 | the result is a suffix of the input, and every character dropped is white space |
| `Text.TrimEnd` | developer-dashboard/src/components/WeatherCard.tsx:113 | the result is a prefix of the input, and every character dropped is white space |
| `Text.TrimIdempotent` | developer-dashboard/src/components/WeatherCard.tsx:113 | trimming a trimmed string changes nothing |
| `Text.TrimOfTrimmed` | developer-dashboard/src/components/WeatherCard.tsx:113 | a string with no white space at either end is its own trimmed form |
| `WeatherCardTsx.SubmittedCity` | developer-dashboard/src/components/WeatherCard.tsx:113 | a blank input selects the default city; any other input selects its non-empty trimmed form |
| `WeatherCardTsx.ResubmitIsStable` | developer-dashboard/src/components/WeatherCard.tsx:113 | submitting the selected city again selects the same city |
| `WeatherCardTsx.ResubmitStartsNothing` | developer-dashboard/src/components/WeatherCard.tsx:109-114 | on any card, submitting the city just selected leaves the card exactly as the first submission left it: no new cycle starts |
| `WeatherCardTsx.FirstPlace` | developer-dashboard/src/components/WeatherCard.tsx:75-78 | a place is found exactly when geocoding answered ok with a parsable body and a non-empty `results`; it is the first result |
| `WeatherCardTsx.FetchWeather` | developer-dashboard/src/components/WeatherCard.tsx:70-85 | the forecast is requested iff geocoding found a place, and with exactly that place's latitude and longitude; the cycle loads iff both requests succeed |
| `WeatherCardTsx.Step` | developer-dashboard/src/components/WeatherCard.tsx:65-101 | preserves the card invariant; an unchanged city starts nothing; a new city logs one geocoding request, sets loading and clears the error, keeping weather and heading; a failed geocoding issues no forecast request; a cancelled cycle still requests the forecast but writes nothing; the live cycle's every failure gives the one fixed message |
| `WeatherCardTsx.Run` | developer-dashboard/src/components/WeatherCard.tsx:65-101 | requests once issued stay in the log; every trace preserves the invariant: spinner on exactly while the live cycle is outstanding, no error while loading, only the fixed message as error |
| `WeatherCardTsx.OnlyFixedMessage` | developer-dashboard/src/components/WeatherCard.tsx:91-92 | in every reachable state the only error is "Failed to load weather. Try a different city or check network.", never shown while loading |
| `WeatherCardTsx.StaleCompletionsChangeNothing` | developer-dashboard/src/components/WeatherCard.tsx:87-99 | once a cycle's cleanup has run, any sequence of late completions of cancelled cycles leaves weather, heading, error and loading unchanged |
| `WeatherCardTsx.CityNotFound` | developer-dashboard/src/components/WeatherCard.tsx:72-94 | an ok geocoding reply whose `results` is missing or empty ends with the fixed message, loading off, and only the geocoding request sent |
| `WeatherCardTsx.Render` | developer-dashboard/src/components/WeatherCard.tsx:127-129 | the spinner shows exactly while loading, the error card exactly for a truthy error, and the report, with the resolved name, exactly when neither shows and weather is present |
| `WeatherCardTsx.ViewsExclusive` | developer-dashboard/src/components/WeatherCard.tsx:127-129 | in every reachable state at most one of spinner, error card and report is shown |
| `GitHubCardTsx.Step` | developer-dashboard/src/components/GitHubCard.tsx:24-44 | preserves the invariant; a new username starts one request, sets loading, clears the error and keeps the profile; a completion other than the live one writes nothing; live success stores the profile and leaves the error; any live failure, a non-2xx status included, gives the fixed message without the status and keeps the profile |
| `GitHubCardTsx.Run` | developer-dashboard/src/components/GitHubCard.tsx:20-44 | from any state satisfying the invariant, every trace keeps it |
| `GitHubCardTsx.ReachableInv` | developer-dashboard/src/components/GitHubCard.tsx:20-44 | starting from loading on, no error and no profile, every reachable state satisfies the invariant |
| `GitHubCardTsx.StaleCompletionsChangeNothing` | developer-dashboard/src/components/GitHubCard.tsx:33-43 | after `isCancelled` is set, late completions mutate none of data, error and loading |
| `GitHubCardTsx.OutOfOrderResolution` | developer-dashboard/src/components/GitHubCard.tsx:24-44 | a username replaced before its reply leaves no trace, whichever reply arrives first |
| `GitHubCardTsx.Render` | developer-dashboard/src/components/GitHubCard.tsx:49-51 | the spinner shows exactly while loading, the error card exactly for a truthy error, and the profile exactly when neither shows and a profile is present |
| `GitHubCardTsx.ViewsExclusive` | developer-dashboard/src/components/GitHubCard.tsx:49-51 | in every reachable state at most one of spinner, error card and profile is shown, and an error card carries the fixed message |
| `GitHubCardTsx.DisplayName` | developer-dashboard/src/components/GitHubCard.tsx:56 | `name ?? login`: a present name, even an empty one, is shown; only a missing name falls back to the login |
| `Text.DecimalOf` | developer-dashboard/src/components/GitHubCard.jsx:19 | a status is rendered as a non-empty string of decimal digits without leading zeros |
| `Text.ValueOfDecimal` | developer-dashboard/src/components/GitHubCard.jsx:19 | the decimal rendering of a number reads back as that number |
| `GitHubCardJsx.StatusMessage` | developer-dashboard/src/components/GitHubCard.jsx:18-20 | the message is "GitHub returned " followed by the status in decimal |
| `GitHubCardJsx.StatusMessageInjective` | developer-dashboard/src/components/GitHubCard.jsx:19 | two statuses give the same message exactly when they are equal |
| `GitHubCardJsx.NotFoundMessage` | developer-dashboard/src/components/GitHubCard.jsx:19 | a 404 response is reported as "GitHub returned 404" |
| `GitHubCardJsx.NonOkStatusShown` | developer-dashboard/src/components/GitHubCard.jsx:14-35 | a fresh card whose request gets a non-2xx status ends with no profile, loading off and the error card showing the status message |
| `GitHubCardJsx.ErrorOf` | developer-dashboard/src/components/GitHubCard.jsx:16-24 | there is no error iff the reply is ok and parsed; a non-2xx status gives its status message; a rejection gives its own message |
| `GitHubCardJsx.Step` | developer-dashboard/src/components/GitHubCard.jsx:10-31 | an empty username aborts the old cycle and starts no request; a new non-empty one starts one request with loading on and the error cleared; an aborted cycle never sets data or error but does clear loading; the live cycle stores the profile or its error |
| `GitHubCardJsx.Run` | developer-dashboard/src/components/GitHubCard.jsx:10-31 | every trace keeps the invariant: no request for an empty username, no error while loading |
| `GitHubCardJsx.NoRequestForEmptyUsername` | developer-dashboard/src/components/GitHubCard.jsx:11 | in every reachable state no request was ever made for an empty username |
| `GitHubCardJsx.AbortedCompletionsKeepData` | developer-dashboard/src/components/GitHubCard.jsx:23-30 | any sequence of late completions of aborted cycles leaves profile and error unchanged |
| `GitHubCardJsx.AbortClearsLoadingOfNewerCycle` | developer-dashboard/src/components/GitHubCard.jsx:25-30 | a superseded cycle's `finally` turns loading off while the newer request is outstanding, and the card then shows the previous user's profile under the new username |
| `GitHubCardJsx.OutOfOrderResolution` | developer-dashboard/src/components/GitHubCard.jsx:10-31 | once both replies are in, a replaced username leaves no trace, whichever reply arrived first |
| `GitHubCardJsx.Render` | developer-dashboard/src/components/GitHubCard.jsx:33-37 | precedence: the prompt exactly for an empty username whatever the state, then the spinner, then the error card, then the profile if there is one, else nothing |
| `GitHubCardJsx.DisplayName` | developer-dashboard/src/components/GitHubCard.jsx:42 | `name \|\| login`: a missing or empty name falls back to the login |
| `GitHubCardJsx.DisplayNamesDiffer` | developer-dashboard/src/components/GitHubCard.jsx:42 | the two copies head a profile differently exactly when the name is empty and the login is not |
| `WeatherCardJsx.CoordsFor` | developer-dashboard/src/components/WeatherCard.jsx:23-30 | a device position is used as it is; with no geolocation API or a position error the default coordinates (-1.9441, 30.0619) are used |
| `WeatherCardJsx.StatusMessage` | developer-dashboard/src/components/WeatherCard.jsx:43 | the message is "Weather API " followed by the status in decimal |
| `WeatherCardJsx.StatusMessagesDistinct` | developer-dashboard/src/components/WeatherCard.jsx:43-45 | distinct statuses give distinct messages, none equal to "No current weather returned" |
| `WeatherCardJsx.ErrorOf` | developer-dashboard/src/components/WeatherCard.jsx:39-48 | no error iff the reply is ok, parsed and carries `current_weather`; a non-2xx status gives its status message, a missing `current_weather` gives "No current weather returned" |
| `WeatherCardJsx.Step` | developer-dashboard/src/components/WeatherCard.jsx:33-55 | null coordinates start no cycle and write nothing; new coordinates start one request for exactly them; an aborted cycle never sets weather or error but clears loading; a live failure keeps the previous weather |
| `WeatherCardJsx.Run` | developer-dashboard/src/components/WeatherCard.jsx:33-55 | every trace keeps the invariant: no request without coordinates, no error while loading |
| `WeatherCardJsx.NoRequestWithoutCoords` | developer-dashboard/src/components/WeatherCard.jsx:34 | in every reachable state no request was ever made while coordinates were null |
| `WeatherCardJsx.FirstRequestCoords` | developer-dashboard/src/components/WeatherCard.jsx:21-42 | after mount and the position lookup exactly one request is out, for the device position or the default coordinates, and the spinner shows |
| `WeatherCardJsx.AbortedCompletionsKeepWeather` | developer-dashboard/src/components/WeatherCard.jsx:47-54 | late completions of aborted cycles leave weather and error unchanged |
| `WeatherCardJsx.Render` | developer-dashboard/src/components/WeatherCard.jsx:57-59 | precedence: spinner while loading, then the error card, then "Waiting for coordinates..." when there is no weather, then the report |
| `ThemeTs.Parse` | utils/theme.ts:3-4 | exactly "light" and "dark" are accepted, each as the theme of that name |
| `ThemeTs.ParseName` | utils/theme.ts:3-4 | the name of every theme is accepted back as that theme, so a persisted theme survives a reload |
| `ThemeTs.LoadInitialTheme` | utils/theme.ts:1-6 | light without a window; a persisted "light" or "dark" wins over the system preference; otherwise dark iff the system prefers dark |
| `ThemeJs.GetInitialTheme` | developer-dashboard/src/utils/theme.js:2-9 | "light" without a window; any non-empty stored string returned unvalidated; otherwise "dark" iff the system prefers dark, else "light" |
| `ThemeJs.ApplyTheme` | developer-dashboard/src/utils/theme.js:11-19 | the dark class is set iff the theme is "dark", the stored "theme" becomes the theme, and no other key or setting changes |
| `ThemeJs.ApplyThenLoad` | developer-dashboard/src/utils/theme.js:2-19 | a non-empty theme applied is what the next load returns, whatever the system preference |
| `ThemeJs.LoadersAgree` | developer-dashboard/src/utils/theme.js:4-5 | the two loaders agree exactly when the stored value is absent, empty, "light" or "dark" |
| `App.Toggle` | developer-dashboard/src/App.tsx:22 | the toggle always changes the theme: dark goes to light, light to dark |
| `App.ToggleInvolution` | developer-dashboard/src/App.tsx:22 | toggling twice is the identity |
| `App.Launch` | developer-dashboard/src/App.tsx:8-18 | the first render takes the loaded theme, and the effect leaves the class and the stored value in line with it |
| `App.Click` | developer-dashboard/src/App.tsx:10-22 | after a toggle the dark class is present iff the theme is dark, and the stored "theme" equals the theme |
| `App.Clicks` | developer-dashboard/src/App.tsx:10-22 | after any number of toggles page and state stay in line, and an even number restores the theme |
| `App.ReloadRestoresTheme` | developer-dashboard/src/App.tsx:8-17 | after any number of toggles a reload through `loadInitialTheme` restores the current theme, even if the system preference changed |
| `App.DarkSystemPreference` | developer-dashboard/src/App.tsx:8 | with nothing stored and a dark system preference the app starts dark with the dark class set |

## Left out

- The clock intervals of both weather cards are left out. They use timers and `Date`, and are independent of the fetch cycles.
- `Navbar.tsx`, `ErrorCard.tsx`, `Loading.tsx` and all markup and CSS are left out. Render functions keep only which block is shown and its data.
- `App.tsx` imports `loadInitialTheme` from `./utils/theme`, but the only file beside it at that path is `src/utils/theme.js`, which has no such export. The model takes the loader to be the one in `utils/theme.ts`.
- `App.jsx` is layout. Its trimming of the username means the untyped GitHub card normally sees trimmed keys. The model accepts any key.
- Real I/O is not modelled: `fetch`, JSON parsing, `navigator.geolocation`, `localStorage`, `matchMedia` and `classList`. Their results are inputs (`Reply`, `Geolocation`, `Page`).
- Floating-point values are opaque `real`s with no arithmetic. This covers temperatures, wind and coordinates.
- `encodeURIComponent` (typed cards) is not modelled. Requests record the raw username or city.
- React scheduling is reduced to two rules: a changed dependency runs the previous cleanup before the new effect, and an unchanged one starts nothing. Dependencies are compared by value. The untyped weather card sets `coords` once, so object identity does not matter there.
- Each completion is one atomic step. All state writes happen after the last `await`, and the model does not split a cycle's awaits into separate steps. As a consequence, the typed weather card's request log `sent` records a cycle's forecast request when the cycle completes, not when its geocoding answers: a cycle still waiting for its forecast has no `Forecast` entry yet, and a superseded cycle's forecast can appear after a newer city's `Geocode` entry.
- A JSON body that parses but has an unexpected shape (for example `null`) is not modelled. Bodies are either of the expected shape or malformed.
- `WeatherCardTsx.FormatWeatherCode`: weather codes are integers here. A fractional JavaScript number would also give "Unknown".
- The typed cards throw 'Geocoding failed', 'City not found', 'Weather fetch failed' and `GitHub responded <status>`, but each `catch` replaces that text with one fixed message. The model keeps only the fixed message.
