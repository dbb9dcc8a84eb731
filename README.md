# Finance dashboard — a Dafny model of the chart page's logic

The application is a single browser page, `script.js`. It asks the Twelve Data API
for one stock's daily or intraday quotes. It draws them as candlesticks, with an
optional volume histogram and an optional 20-period moving-average (MA) line. It
keeps the user's settings in `localStorage`. This project models what the page
does with its state:

- **Series** (`series.dfy`): upstream records become candles, coloured volume
  bars and the trailing moving average. `Series.CalculateMA` keeps the source's
  loop and is proved against the specification predicate `IsMovingAverage`.
- **Viewport** (`viewport.dfy`): the zoom buttons' logical ranges.
- **Text** (`text.dfy`): `trim()` on the API key, `toUpperCase()` on the symbol,
  and the `year-MM-DD` text of `helpers.formatDate` with its zero padding.
- **Prefs** (`prefs.dfy`): the `localStorage` keys. It models the JavaScript
  truthiness of `getItem`, so a missing key and an empty string both mean
  "nothing saved". It also gives the restoration function that page start-up
  follows.
- **Api** (`api.dfy`): what a time-series fetch can return, and which of its
  three branches loadAllData takes for each result.
- **Dashboard** (`dashboard.dfy`): one `class App` holding the page's state:
  - the module-level variables (`Settings`);
  - the form inputs (`Form`);
  - what is shown besides the chart (`Feedback`);
  - the chart and its three series (`Chart`);
  - `localStorage` (`store`);
  - the requests sent so far.

  Each event handler and each start-up step is a method. The intended
  handlers and start-up steps each state the whole new state and keep
  `Valid()`: volume bars and MA points are either empty or computed from
  exactly the candles shown, and the volume series keeps its fixed colour
  pair, and while the volume overlay is on there is one bar per candle. Three
  members model the defects as written:
  - `LoadAllDataAsWritten` keeps `Valid()` except on a successful load, where
    only the volume bars are still known to match the candles.
  - `StartupAsWritten` keeps `Valid()` but leaves the chart without series.
  - `ToggleVolumeAsWritten` breaks `Valid()` exactly when it switches the
    overlay on over candles that have no bars.

  There is one exception to "the whole new state": after an autoload,
  `Startup` does not restate the load's effect (see "## Left out").

The network result is a method parameter (`Api.FetchResult`), and so is the
current date (`Dashboard.Today`). The chart library is represented by the data
and options the page hands it.

The source has three defects; "## Findings" lists them. Each is modelled twice:
once as written, with the consequence proved, and once as evidently intended.
The rest of the model uses the intended version.

## Model

| member | source | states |
|---|---|---|
| Series.VolumeColor | script.js:241 | the up colour exactly when close >= open, the down colour exactly when close < open |
| Series.Candles | script.js:226-235 | one candle per record, in order, with the record's time and four prices |
| Series.VolumeBars | script.js:237-243 | one bar per record, in order, with the record's time and volume, coloured by the record's own open/close |
| Series.Volumes | script.js:237-240 | the volume attached to each candle point: the record's own volume, position by position |
| Series.VolumeFromCandles | script.js:379-389 | the toggle's rebuilt bars: one per candle shown, with that candle's time, the volume attached to the point at the same position, and the colour from its open/close |
| Series.ClosesOf | script.js:249-251 | the MA input on a load: one (datetime, close) per record |
| Series.ClosesOfCandles | script.js:402-405 | the MA input on the toggle: one (time, close) per candle |
| Series.CalculateMA | script.js:275-285 | the loop computes the trailing mean: one point per window end from `period-1` on, timed at that end, valued at the mean of the `period` closes ending there; none when there are fewer than `period` records |
| Series.ClosesAgree | script.js:249-251 | the load's MA input and the toggle's MA input, read back from the candles, are the same sequence |
| Series.LoadedVolumeMatches | script.js:226-243 | the bars of a load line up with the candles of the same load: same times, colour from the same open/close |
| Series.RebuiltVolumeMatches | script.js:379-389 | the bars rebuilt by the toggle line up with the candles they were built from, whatever volumes the points carry |
| Series.RebuiltVolumeIsLoadedVolume | script.js:379-389 | with the volumes a load attaches to its candles, the toggle rebuilds exactly the load's bars (the intended reading of line 387, see "## Findings") |
| Series.MovingAverageUnique | script.js:275-285 | the moving average is a function of its input: two results for the same data are equal |
| Series.SumCloses | script.js:278 | the `reduce` of the window's closes, folded from the left from 0: zero for an empty window, the close itself for one (its bounds and its constant case are the two lemmas below) |
| Series.SumClosesBounds | script.js:278 | a window sum lies between its length times the lowest close and its length times the highest close |
| Series.MovingAverageWithinWindow | script.js:275-285 | every MA value lies between the lowest and the highest close of its window |
| Series.SumClosesConstant | script.js:278 | n equal closes sum to n times that close |
| Viewport.ZoomInRange | script.js:362-368 | a range exists exactly when some bar was loaded; it ends at the count and starts 50 bars earlier, clipped at 0 |
| Viewport.ZoomOutRange | script.js:369-373 | from bar 0 to the count, for every count |
| Viewport.ZoomInWithinZoomOut | script.js:362-373 | the zoomed-in range lies inside the zoomed-out range for the same data |
| Text.TrimStart | script.js:417 | a suffix of the input; the cut prefix is all white space; the result does not start with white space |
| Text.TrimEnd | script.js:417 | a prefix of the input; the cut suffix is all white space; the result does not end with white space |
| Text.IsJsSpace | script.js:417 | the ECMAScript white-space and line-terminator code points, the set `trim()` removes (its properties are in `Text.JsSpaceCharacters`) |
| Text.JsSpaceCharacters | script.js:417 | space, tab, line feed and carriage return are white space; no ASCII letter or digit is, so trimming never cuts into a key |
| Text.LeadingSpaces | script.js:417 | the number of leading white-space characters: all characters before it are white space and the one at it is not |
| Text.Trim | script.js:417 | no longer than the input; when non-empty it neither starts nor ends with white space |
| Text.TrimEmpty | script.js:417-422 | the trimmed key is empty exactly when the input is all white space; only a non-empty key switches the widget to the badge |
| Text.TrimOfPadded | script.js:417 | any white space around a text that neither starts nor ends with white space is removed, and exactly that text remains |
| Text.TrimIdempotent | script.js:417 | trimming twice is trimming once |
| Text.ToUpper | script.js:333 | same length; a character changes exactly when it is a lower-case ASCII letter, and then it becomes its capital; no lower-case ASCII letter remains |
| Text.ToUpperEmpty | script.js:333-334 | the upper-cased symbol is empty exactly when the input is |
| Text.NatToString | script.js:270-272 | non-empty decimal digits with no leading zero (just "0" for 0), one digit for a value below 10, two for one below 100 |
| Text.NatToStringRoundTrip | script.js:270-273 | the decimal text of a number reads back as that number |
| Text.LeadingZero | script.js:271-272 | a leading '0' does not change the value of a digit string |
| Text.PadStart2 | script.js:271-272 | `padStart(2, '0')`: length max(2, n), the input as suffix, zeros before it, digits kept |
| Text.Pad2RoundTrip | script.js:271-272 | a number below 100, padded, is two digits long and still reads as that number |
| Text.FormatDate | script.js:268-274 | for a calendar month and day the text is six characters longer than the year's digits, with a dash right after the year and another three places later |
| Text.FormatDateFields | script.js:268-274 | the date text is the year digits, a dash, two month digits, a dash and two day digits, each reading back as its field |
| Text.StartOfYear | script.js:546-547 | the first of January is written `year-01-01` |
| Prefs.Stored | script.js:492-533 | the saved value counts exactly when the key is present with a non-empty string, and is that string |
| Prefs.Restore | script.js:492-535 | a setting changes only to the non-empty value saved under its key, and every non-empty saved value is taken; the two colours change only together, and only when both are saved |
| Prefs.SavedOr | script.js:493-518 | a saved value replaces the current one; with nothing saved the current one stays |
| Prefs.SavedColors | script.js:530-535 | both colours are restored when both are saved, and neither otherwise |
| Prefs.RestoreNothingSaved | script.js:492-535 | an empty store changes no setting |
| Prefs.RestoreSavedColors | script.js:530-535 | after the colour handler saves both colours, start-up restores both if both are non-empty, otherwise neither |
| Prefs.RestoreSavedApiKey | script.js:492-495 | a key saved by the key input comes back at start-up unless it was saved empty |
| Prefs.RestoreRoundTrip | script.js:492-535 | saving every setting under its key and restarting restores every setting, when none is empty |
| Prefs.StoredOtherKey | script.js:511-535 | writing one key leaves what start-up reads under any other key unchanged |
| Api.FailureDetail | script.js:308 | the upstream message when present and non-empty, else the fixed "no data" text; never empty |
| Api.Classify | script.js:300-317 | values are applied exactly when the status is "ok" with at least one value; a thrown fetch, or "ok" without `values`, ends in the catch; every other payload is rejected with its detail |
| Dashboard.ThemeEntry | script.js:184-189 | the chart gets theme options exactly for the three configured theme names |
| Dashboard.ThemeDefined | script.js:77-78 | `THEME_CONFIGS[name]` is truthy for every configured theme, and for a name without an entry exactly when it is inherited from `Object.prototype` |
| Dashboard.VolumeSeriesColors | script.js:115-125 | the same fixed colour pair for every theme |
| Dashboard.BannerAfter | script.js:294-316 | no banner exactly on success; the message banner on a rejection; the connection banner on a failure |
| Dashboard.App.constructor | script.js:36-44 | the initial variables: default interval and theme, count 0, both overlays off, empty key, no chart |
| Dashboard.App.ApplyTheme | script.js:76-94 | a name whose entry is not truthy changes nothing; any other name goes on the body and into the store, and a configured theme's entry also goes onto the chart once the chart exists |
| Dashboard.App.UpdateChartColors | script.js:97-112 | once the candle series exists, the colour inputs go to it and to the store; before that nothing changes |
| Dashboard.App.UpdateVolumeSeriesColors | script.js:115-130 | the volume series gets the fixed pair, which leaves the state as it was |
| Dashboard.App.Initialize | script.js:184-224 | the intended initialize: a chart with the theme's entry, candle colours from the inputs, fixed volume colours, a hidden left axis and three empty series |
| Dashboard.App.InitializeAsWritten | script.js:184-193 | the chart object is created with the theme's entry, then the misspelled `DOMEElements` throws before any series exists |
| Dashboard.App.UpdateData | script.js:226-235 | the candle series shows the records' candles, each point carrying its record's volume (the correction of line 387's defect), and the count is the number of records |
| Dashboard.App.UpdateVolumeData | script.js:237-247 | the volume series shows the records' bars; the left axis is shown if the overlay is on |
| Dashboard.App.UpdateMaData | script.js:249-252 | the MA series shows the 20-period moving average of the records' closes |
| Dashboard.App.LoadEffect | script.js:290-320 | the whole effect of one load (the error branches and the values branch), stated once for every caller |
| Dashboard.App.LoadAllData | script.js:290-320 | the intended loadAllData: with no key only the key banner appears and nothing is sent; otherwise one request goes out, and then either the three series and the count are replaced and the symbol is saved, or the series are cleared and the message shown, or only the fetch error shows; the indicator ends hidden and `Valid()` holds |
| Dashboard.App.ApplyValues | script.js:302-305 | the three updates leave the volume bars and the MA derived from the new candles |
| Dashboard.App.LoadAllDataAsWritten | script.js:290-320 | as written: a successful payload replaces the candles and the bars, then the bare `calculateMA` throws; the fetch-error banner shows, the symbol is not saved, the old MA line stays and only the volume bars are still known to match the candles; without a key and on every other fetch result it has `LoadEffect` and keeps `Valid()` |
| Dashboard.App.LoadButtonClicked | script.js:332-339 | an empty symbol changes nothing; otherwise the upper-cased symbol is loaded with the current interval and the date inputs |
| Dashboard.App.IntervalClicked | script.js:342-355 | the interval becomes current and is saved; then, if the symbol input holds a symbol, that symbol is reloaded with the new interval |
| Dashboard.App.ColorPicked | script.js:358-359 | the colour inputs take the new values, which go to the candle series and the store |
| Dashboard.App.ZoomIn | script.js:362-368 | with no bars nothing changes; otherwise the visible range is the last 50 bars, clipped at 0 |
| Dashboard.App.ZoomOut | script.js:369-373 | the visible range is bar 0 to the count |
| Dashboard.App.ResetZoom | script.js:374-376 | the time scale fits the content; nothing else changes |
| Dashboard.App.ToggleVolume | script.js:379-397 | the intended toggle: the flag flips; switched on, the bars are rebuilt from the candles shown with the volume each point carries and the axis shows; switched off, the bars are emptied and the axis hidden; `Valid()` is kept |
| Dashboard.App.ToggleVolumeAsWritten | script.js:379-397 | as written: the flag flips; switched on over any candle, reading `originalData.volume` throws and the bars and the axis stay as they were; over no candle, and switched off, as intended; `Valid()` fails exactly when the overlay goes on over candles without bars |
| Dashboard.App.ToggleMa | script.js:400-413 | the flag flips; switched on, the MA is recomputed from the candles shown; switched off, it is emptied |
| Dashboard.App.ApiKeyInput | script.js:416-423 | the trimmed text becomes the key and is saved, even when empty; the badge shows only for a non-empty key |
| Dashboard.App.EditApiKey | script.js:425-429 | the key input shows again |
| Dashboard.App.Restored | script.js:492-535 | the state restoration leaves: the settings become `Restore` of the store; the key widget follows whether a key was saved; a restored theme whose entry is truthy goes on the body and into the store |
| Dashboard.App.RestorePreferences | script.js:492-535 | start-up restoration has the `Restored` effect, keeps `Valid()` and leaves the chart untouched |
| Dashboard.App.RestoreKeyAndSymbol | script.js:492-505 | a saved key becomes the key and the input's text and shows the badge; without one the badge stays hidden; a saved symbol fills the symbol input |
| Dashboard.App.RestoreTheme | script.js:507-514 | a saved theme becomes current; the current theme is applied either way |
| Dashboard.App.RestoreIntervalAndColors | script.js:516-535 | a saved interval becomes current; the colour inputs change only when both colours are saved |
| Dashboard.App.Startup | script.js:492-550 | intended start-up: settings restored, overlay flags kept, key widget chosen, chart built with the restored theme and colours, listeners attached; with no autoload, the whole `Restored` effect and the fresh chart with three empty series; when both a key and a symbol were saved, the saved symbol is loaded from the first of this year to today |
| Dashboard.App.StartupAsWritten | script.js:492-539 | as written: start-up has the `Restored` effect, then initialize throws after creating the chart object with the theme's options; no series exists, no listener is attached and nothing is loaded |
| Dashboard.StaleMovingAverage | script.js:249-252 | a witness for the MA defect, for any twenty dates: the MA line the toggle drew for a first load is not the moving average of the candles of a second load for the same dates with other closes |

## Left out

- The DOM plumbing (element lookups, `style.display`, class lists): only the
  state they show is modelled (`Feedback`, the chart's axis flag).
- The interval buttons' `active` classes (script.js:344-345, 519-527) do not
  appear in the model.
- `fetch`, the URL text and `response.json()` (script.js:163-175) are left out.
  Their outcome is a parameter. A `null` JSON body reaches the catch clause,
  just as a thrown fetch does, so `Thrown` covers it.
- The symbol autocomplete and its debounce (script.js:432-489) are not modelled.
- Concurrency is not modelled. A load runs to completion within one method, so
  overlapping `async` loads are not represented. The loading indicator is
  shown only in its final state, hidden.
- The internals of LightweightCharts are not modelled. A series is the data
  and options the page hands it, and `candleSeries.data()` gives back the
  points the page set.
- Dashboard.App.ToggleVolume: models the corrected page, where updateData
  attaches each record's volume to its candle point and the toggle reads it
  back by position (`Chart.candleVolumes`). As written, updateData gives the
  candle series no volume (script.js:227-233), so the read at script.js:387
  throws; `Dashboard.App.ToggleVolumeAsWritten` models that. Whether some
  version of the chart library adds an `originalData` field of its own is
  outside the model.
- `parseFloat`, NaN and IEEE rounding are not modelled. Prices and volumes are
  already-parsed `real`s, and the sums are exact.
- The `Date` object: `formatDate` is modelled as applied to the calendar fields
  year, month and day, which start-up receives as `Today`.
- The contents of THEME_CONFIGS (script.js:47-69) are not modelled. Only the
  theme names matter, so an applied theme is represented by its name.
- Dashboard.ThemeDefined: a name inherited from `Object.prototype` (only a
  hand-edited `chartTheme` reaches one) passes applyTheme's check.
  `chart.applyOptions` then receives a function or `Object.prototype` itself,
  which has no enumerable option. The model takes the chart as unchanged. What
  the chart library does with such a value is outside the model.
- Keyboard shortcuts (script.js:471-479) are not modelled as events. They only
  click the zoom buttons, whose handlers are modelled.
- Window resizing (script.js:254-260, 468) is not modelled. It only resizes the
  chart.
- Users typing in the inputs are not modelled as events. Their values are
  fields of `Form`, set by the constructor and by the handlers that read them.
- Text.ToUpper: upper-cases the ASCII letters only, whereas JavaScript's
  `toUpperCase` covers all of Unicode. Ticker symbols are ASCII.
- Series.CalculateMA: requires a period of at least 1. For a period of 0 or
  less the source starts at a negative index. Reading `datetime` of that
  `undefined` element throws a TypeError, even on empty data. Every caller
  passes 20.
- Dashboard.App.Startup: after an autoload it states the restored settings,
  the key widget, the chart's stage, theme and candle colours, the dates and
  the request, and on success the candles and the count. It does not restate
  the rest of the load's effect (banner, store, volume and MA series, count on
  a failure), which `Dashboard.App.LoadAllData`'s contract gives.
- A load sets the volume and MA series whatever the toggle flags say
  (script.js:302-305). The model keeps that behaviour as written. With the
  volume overlay off, the bars are set while the axis stays hidden, and the MA
  line is drawn even when the MA toggle is off.

## Findings

| source | as written | input that shows it | evidently intended | confidence | as-written member | corrected member |
|---|---|---|---|---|---|---|
| script.js:250 | `chartHandler.updateMaData` calls a bare `calculateMA`, but only `helpers.calculateMA` exists; the ReferenceError happens after the candles and bars are replaced, so the catch shows the connection error, the symbol is not saved and the previous MA line stays over the new candles | with line 193 corrected (otherwise no series exists): load twenty daily records, switch the MA on (as written, only the toggle draws the line), then load twenty records for the same dates with other closes | call `helpers.calculateMA(data, 20)` | high, not executed | Dashboard.App.LoadAllDataAsWritten, Dashboard.StaleMovingAverage | Dashboard.App.LoadAllData |
| script.js:387 | the volume toggle rebuilds the bars from `candleSeries.data()` and reads `d.originalData.volume`, but updateData hands the candle series only time and prices (lines 227-233), so `d.originalData` is undefined and the TypeError stops the handler after the flag has flipped and the button is marked active, before the bars or the axis change | with line 193 corrected: load one or more records, then press the volume toggle three times (on, off, on); after the third press the overlay is on and the button active, but there are no bars and the left axis is hidden | attach each record's volume to its candle point in updateData (or keep the loaded volumes) so the toggle can read it back | likely, not executed | Dashboard.App.ToggleVolumeAsWritten | Dashboard.App.UpdateData, Dashboard.App.ToggleVolume, Series.RebuiltVolumeIsLoadedVolume |
| script.js:193 | `chartHandler.initialize` reads `DOMEElements.downColorInput`; the ReferenceError stops page start-up after the chart object is created, so no series exists, no listener is attached and the saved symbol is never loaded | any page load | read `DOMElements.downColorInput` | high, not executed | Dashboard.App.InitializeAsWritten, Dashboard.App.StartupAsWritten | Dashboard.App.Initialize, Dashboard.App.Startup |
