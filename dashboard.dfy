/**
 * The page's application state and its event handlers: loadAllData, the theme and
 * colour handlers, the zoom buttons, the volume and MA toggles, the API-key input
 * and start-up restoration. The module-level variables of the page, the values of
 * its form inputs, what it shows, the chart with its three series and
 * `localStorage` are the fields of one object.
 *
 * Three defects of the page are modelled both as written and as evidently intended:
 * - chartHandler.initialize reads `DOMEElements` (a misspelling of `DOMElements`),
 *   which throws a ReferenceError (InitializeAsWritten / StartupAsWritten);
 * - chartHandler.updateMaData calls a bare `calculateMA`, which is not in scope;
 *   only `helpers.calculateMA` exists (LoadAllDataAsWritten);
 * - the volume toggle reads `originalData.volume` of each candle point, which
 *   updateData never supplies, so the read throws (ToggleVolumeAsWritten).
 * The rest of the model uses the intended definitions.
 */
module Dashboard {
  import opened Common
  import opened Series
  import opened Viewport
  import opened Text
  import opened Prefs
  import opened Api

  const DefaultTheme: string := "tradingview-theme"
  const DefaultInterval: string := "1day"

  /** The names THEME_CONFIGS has an entry for; the entries themselves are not modelled. */
  const ThemeNames: set<string> := {"tradingview-theme", "light-theme", "modern-dark-theme"}

  /**
   * The properties every object literal inherits from `Object.prototype`. Each is
   * a function or an object, so `THEME_CONFIGS[name]` is truthy for these names
   * too, though none of them has an enumerable option to give the chart.
   */
  const InheritedNames: set<string> := {
    "constructor", "__proto__", "hasOwnProperty", "isPrototypeOf", "propertyIsEnumerable",
    "toString", "toLocaleString", "valueOf",
    "__defineGetter__", "__defineSetter__", "__lookupGetter__", "__lookupSetter__"}

  /**
   * The theme options `THEME_CONFIGS[name]` gives the chart: the entry of a
   * configured theme, named by its key, or `None` (`undefined`, or an inherited
   * property with no option of its own) for every other name.
   */
  function ThemeEntry(name: string): (r: Option<string>)
    ensures r.Some? <==> name in ThemeNames
    ensures r.Some? ==> r.value == name
  {
    if name in ThemeNames then Some(name) else None
  }

  /**
   * Whether `THEME_CONFIGS[name]` is truthy, which is applyTheme's test: for the
   * configured themes and for the names inherited from `Object.prototype`.
   */
  predicate ThemeDefined(name: string): (b: bool)
    ensures ThemeEntry(name).Some? ==> b
    ensures b && ThemeEntry(name).None? <==> name in InheritedNames
  {
    name in ThemeNames || name in InheritedNames
  }

  /** uiHandler.updateVolumeSeriesColors' choice of colours: the same pair for every theme. */
  function VolumeSeriesColors(themeName: string): (c: (string, string))
    ensures c == (UpVolumeColor, DownVolumeColor)
  {
    if themeName == "light-theme" then (UpVolumeColor, DownVolumeColor)
    else (UpVolumeColor, DownVolumeColor)
  }

  /** The page's module-level variables (`apiHandler.API_KEY` among them). */
  datatype Settings = Settings(
    apiKey: string, interval: string, theme: string,
    lastLoadedDataCount: nat, isVolumeVisible: bool, isMaVisible: bool)

  /** The values of the form inputs. */
  datatype Form = Form(
    symbol: string, startDate: string, endDate: string,
    apiKey: string, upColor: string, downColor: string)

  /** Which of the two API-key widgets shows: the text input or the "saved" badge. */
  datatype KeyView = Editing | Saved

  /**
   * What the page shows besides the chart: the API-key widget, the theme class on
   * `<body>` (`None`: as the markup has it), the error banner and the loading indicator.
   */
  datatype Feedback = Feedback(keyView: KeyView, bodyTheme: Option<string>, error: Option<Banner>, loading: bool)

  /** How far the chart is built: nothing, the chart object only, or the chart with its three series. */
  datatype Stage = NoChart | ChartOnly | WithSeries

  /** The visible range of the time scale, as last set by the page. */
  datatype VisibleRange = Initial | Logical(range: LogicalRange) | Fitted

  /**
   * The chart: how far it is built, the theme entry applied (`None`: library
   * defaults), the options of its series, whether the left price scale shows, its
   * visible range, and the data set on each of the three series. `candleVolumes`
   * is the `originalData.volume` the intended updateData attaches to each candle
   * point, position by position.
   */
  datatype Chart = Chart(
    stage: Stage, theme: Option<string>,
    candleUpColor: string, candleDownColor: string,
    volumeUpColor: string, volumeDownColor: string,
    volumeAxisVisible: bool, visibleRange: VisibleRange,
    candles: seq<Candle>, candleVolumes: seq<real>, volume: seq<VolumeBar>, ma: seq<MaPoint>)

  /** The chart library's state before chartHandler.initialize runs. */
  const NoChartYet: Chart := Chart(NoChart, None, "", "", "", "", false, Initial, [], [], [], [])

  /**
   * A consistent chart: once the series exist the volume series keeps its fixed
   * colour pair, every candle point carries a volume, and the volume bars and the
   * moving average shown are each either empty or derived from the candles shown.
   */
  ghost predicate ChartValid(c: Chart) {
    && |c.candleVolumes| == |c.candles|
    && (c.stage == WithSeries ==> c.volumeUpColor == UpVolumeColor && c.volumeDownColor == DownVolumeColor)
    && OverlaysDerived(c.candles, c.volume, c.ma)
  }

  /** The banner loadAllData leaves once past the key check. */
  function BannerAfter(o: LoadOutcome): (b: Option<Banner>)
    ensures b.None? <==> o.Apply?
    ensures o.Reject? ==> b == Some(LoadFailed(o.detail))
    ensures o.Fail? ==> b == Some(FetchFailed)
  {
    match o
    case Apply(_) => None
    case Reject(detail) => Some(LoadFailed(detail))
    case Fail => Some(FetchFailed)
  }

  class App {
    /** `localStorage`. */
    var store: map<string, string>
    var settings: Settings
    var form: Form
    var feedback: Feedback
    var chart: Chart
    /** Whether setupEventListeners has run. */
    var listening: bool
    /** Every time-series request sent, in order. */
    var requests: seq<Request>

    /**
     * The state between two events: a consistent chart, one volume bar per candle
     * while the volume overlay is on, listeners only on a chart with series, and
     * no load in flight.
     */
    ghost predicate Valid()
      reads this
    {
      && ChartValid(chart)
      && (settings.isVolumeVisible ==> |chart.volume| == |chart.candles|)
      && (listening ==> chart.stage == WithSeries)
      && !feedback.loading
    }

    /** The settings start-up restores, as they stand. */
    function CurrentPrefs(): (p: SavedSettings)
      reads this
    {
      SavedSettings(settings.apiKey, form.symbol, settings.theme, settings.interval, form.upColor, form.downColor)
    }

    /**
     * The page as the module-level declarations and the markup leave it, before
     * the start-up code runs; `page` holds the markup's values of the inputs.
     */
    constructor (page: Form, saved: map<string, string>)
      ensures Valid() && store == saved
      ensures settings == Settings("", DefaultInterval, DefaultTheme, 0, false, false)
      ensures form == page && feedback == Feedback(Editing, None, None, false)
      ensures chart == NoChartYet && !listening && requests == []
    {
      store := saved;
      settings := Settings("", DefaultInterval, DefaultTheme, 0, false, false);
      form := page;
      feedback := Feedback(Editing, None, None, false);
      chart := NoChartYet;
      listening := false;
      requests := [];
    }

    // -------------------------------------------------------------------------
    // uiHandler

    /**
     * uiHandler.applyTheme: a name with a truthy entry goes on the body and into the
     * store, and a configured theme's entry onto the chart once it exists; any other
     * name changes nothing.
     */
    method ApplyTheme(themeName: string)
      requires Valid()
      modifies this`feedback, this`chart, this`store
      ensures Valid()
      ensures !ThemeDefined(themeName) ==> unchanged(this)
      ensures ThemeDefined(themeName) ==>
        && feedback == old(feedback).(bodyTheme := Some(themeName))
        && chart == (if old(chart).stage == NoChart || themeName !in ThemeNames then old(chart)
                     else old(chart).(theme := Some(themeName)))
        && store == old(store)[ThemeKey := themeName]
    {
      if !ThemeDefined(themeName) {
        return;
      }
      feedback := feedback.(bodyTheme := Some(themeName));
      if chart.stage != NoChart {
        var theme := ThemeEntry(themeName);
        if theme.Some? {
          chart := chart.(theme := theme);
        }
        if settings.isVolumeVisible {
          UpdateVolumeSeriesColors(themeName);
        }
      }
      store := store[ThemeKey := themeName];
    }

    /** uiHandler.updateChartColors: the colour inputs go to the candle series and the store, once it exists. */
    method UpdateChartColors()
      requires Valid()
      modifies this`chart, this`store
      ensures Valid()
      ensures old(chart).stage != WithSeries ==> unchanged(this)
      ensures old(chart).stage == WithSeries ==>
        && chart == old(chart).(candleUpColor := form.upColor, candleDownColor := form.downColor)
        && store == old(store)[UpColorKey := form.upColor][DownColorKey := form.downColor]
    {
      if chart.stage == WithSeries {
        chart := chart.(candleUpColor := form.upColor, candleDownColor := form.downColor);
        store := store[UpColorKey := form.upColor][DownColorKey := form.downColor];
      }
    }

    /**
     * uiHandler.updateVolumeSeriesColors: the volume series gets the fixed pair,
     * whatever the theme, which is the pair it already has.
     */
    method UpdateVolumeSeriesColors(themeName: string)
      requires Valid()
      modifies this`chart
      ensures Valid() && unchanged(this)
      ensures old(chart).stage == WithSeries ==>
        chart == old(chart).(volumeUpColor := UpVolumeColor, volumeDownColor := DownVolumeColor)
    {
      if chart.stage == WithSeries {
        var colors := VolumeSeriesColors(themeName);
        chart := chart.(volumeUpColor := colors.0, volumeDownColor := colors.1);
      }
    }

    // -------------------------------------------------------------------------
    // chartHandler

    /**
     * chartHandler.initialize, as evidently intended (every input read through
     * `DOMElements`): the chart gets the current theme's entry, the candle series the
     * colour inputs, the volume series its fixed pair and a hidden axis; all three
     * series start empty.
     */
    method Initialize()
      requires Valid() && chart.stage == NoChart
      modifies this`chart
      ensures Valid()
      ensures chart == Chart(WithSeries, ThemeEntry(settings.theme), form.upColor, form.downColor,
                             UpVolumeColor, DownVolumeColor, false, Initial, [], [], [], [])
    {
      chart := Chart(WithSeries, ThemeEntry(settings.theme), form.upColor, form.downColor,
                     UpVolumeColor, DownVolumeColor, false, Initial, [], [], [], []);
    }

    /**
     * chartHandler.initialize as written: the chart is created with the current
     * theme's entry, then reading `DOMEElements` throws, so no series is created.
     */
    method InitializeAsWritten()
      requires Valid() && chart.stage == NoChart
      modifies this`chart
      ensures Valid()
      ensures chart == old(chart).(stage := ChartOnly, theme := ThemeEntry(settings.theme))
    {
      chart := chart.(stage := ChartOnly, theme := ThemeEntry(settings.theme));
      // ReferenceError: DOMEElements is not defined. The handler stops here.
    }

    /**
     * chartHandler.updateData, with each record's volume attached to its candle
     * point as `originalData.volume`, which the volume toggle reads (as written the
     * points carry no `originalData`): the candle series shows one candle per
     * record and the count is kept.
     */
    method UpdateData(values: seq<Record>)
      modifies this`chart, this`settings
      ensures chart == old(chart).(candles := Candles(values), candleVolumes := Volumes(values))
      ensures settings == old(settings).(lastLoadedDataCount := |values|)
    {
      chart := chart.(candles := Candles(values), candleVolumes := Volumes(values));
      settings := settings.(lastLoadedDataCount := |values|);
    }

    /** chartHandler.updateVolumeData: the volume series shows one coloured bar per record. */
    method UpdateVolumeData(values: seq<Record>)
      modifies this`chart
      ensures chart == old(chart).(volume := VolumeBars(values),
                                   volumeAxisVisible := settings.isVolumeVisible || old(chart).volumeAxisVisible)
    {
      chart := chart.(volume := VolumeBars(values),
                      volumeAxisVisible := settings.isVolumeVisible || chart.volumeAxisVisible);
    }

    /** chartHandler.updateMaData, calling helpers.calculateMA as intended. */
    method UpdateMaData(values: seq<Record>)
      modifies this`chart
      ensures chart == old(chart).(ma := chart.ma)
      ensures IsMovingAverage(ClosesOf(values), MaPeriod, chart.ma)
    {
      var maData := CalculateMA(ClosesOf(values), MaPeriod);
      chart := chart.(ma := maData);
    }

    // -------------------------------------------------------------------------
    // loadAllData

    /**
     * The effect of one loadAllData call for request `req`, relative to the state
     * before it, except that `store0` and `settings0` stand for the store and the
     * settings it started from. Without a key only the error shows. Otherwise the
     * request goes out and, by the fetch result: the three series are replaced with
     * the records' candles, volume bars and moving average and the symbol is saved;
     * or the three series are emptied and the message shown; or the fetch error
     * shows and nothing else changes. The loading indicator ends hidden.
     */
    twostate predicate LoadEffect(req: Request, fetch: FetchResult, store0: map<string, string>, settings0: Settings)
      reads this
    {
      if settings0.apiKey == "" then
        && feedback == old(feedback).(error := Some(MissingApiKey))
        && requests == old(requests) && chart == old(chart) && settings == settings0 && store == store0
      else
        && req.apiKey == settings0.apiKey
        && requests == old(requests) + [req]
        && feedback == old(feedback).(error := BannerAfter(Classify(fetch)), loading := false)
        && match Classify(fetch)
           case Apply(values) =>
             && chart == old(chart).(candles := Candles(values), candleVolumes := Volumes(values),
                                     volume := VolumeBars(values), ma := chart.ma,
                                     volumeAxisVisible := settings0.isVolumeVisible || old(chart).volumeAxisVisible)
             && IsMovingAverage(ClosesOf(values), MaPeriod, chart.ma)
             && settings == settings0.(lastLoadedDataCount := |values|)
             && store == store0[LastSymbolKey := req.symbol]
           case Reject(_) =>
             chart == old(chart).(candles := [], candleVolumes := [], volume := [], ma := []) && settings == settings0 && store == store0
           case Fail =>
             chart == old(chart) && settings == settings0 && store == store0
    }

    /** loadAllData, with the intended `helpers.calculateMA`; fetch is the outcome of the upstream call. */
    method LoadAllData(symbol: string, interval: string, startDate: string, endDate: string, fetch: FetchResult)
      requires Valid() && chart.stage == WithSeries
      modifies this`feedback, this`requests, this`chart, this`settings, this`store
      ensures Valid()
      ensures LoadEffect(Request(symbol, interval, startDate, endDate, old(settings).apiKey), fetch, old(store), old(settings))
    {
      if settings.apiKey == "" {
        feedback := feedback.(error := Some(MissingApiKey));
        return;
      }
      feedback := feedback.(error := None, loading := true);
      requests := requests + [Request(symbol, interval, startDate, endDate, settings.apiKey)];
      var outcome := Classify(fetch);
      match outcome {
        case Apply(values) =>
          ApplyValues(values);
          store := store[LastSymbolKey := symbol];
        case Reject(detail) =>
          chart := chart.(candles := [], candleVolumes := [], volume := [], ma := []);
        case Fail =>
      }
      feedback := feedback.(error := BannerAfter(outcome), loading := false);
    }

    /** The three updates of a successful load, which leave every series derived from the new candles. */
    method ApplyValues(values: seq<Record>)
      requires ChartValid(chart)
      modifies this`chart, this`settings
      ensures ChartValid(chart)
      ensures chart == old(chart).(candles := Candles(values), candleVolumes := Volumes(values),
                                   volume := VolumeBars(values), ma := chart.ma, volumeAxisVisible := settings.isVolumeVisible || old(chart).volumeAxisVisible)
      ensures IsMovingAverage(ClosesOf(values), MaPeriod, chart.ma)
      ensures settings == old(settings).(lastLoadedDataCount := |values|)
    {
      UpdateData(values);
      UpdateVolumeData(values);
      UpdateMaData(values);
      ClosesAgree(values);
      LoadedVolumeMatches(values);
    }

    /**
     * loadAllData as written: on a successful payload the candles and the volume
     * bars are replaced, then the bare `calculateMA` throws, so the catch shows the
     * fetch error, the symbol is not saved and the old moving average stays, so
     * only the volume bars are still known to match the candles. Without a key, and
     * on every other fetch result, it behaves as the intended loadAllData.
     */
    method LoadAllDataAsWritten(symbol: string, interval: string, startDate: string, endDate: string, fetch: FetchResult)
      requires Valid() && chart.stage == WithSeries
      modifies this`feedback, this`requests, this`chart, this`settings, this`store
      ensures !feedback.loading
      ensures old(settings).apiKey == "" || !Classify(fetch).Apply? ==>
        && Valid()
        && LoadEffect(Request(symbol, interval, startDate, endDate, old(settings).apiKey), fetch, old(store), old(settings))
      ensures old(settings).apiKey != "" && Classify(fetch).Apply? ==>
        var values := Classify(fetch).values;
        && requests == old(requests) + [Request(symbol, interval, startDate, endDate, old(settings).apiKey)]
        && chart == old(chart).(candles := Candles(values), candleVolumes := Volumes(values), volume := VolumeBars(values),
                                volumeAxisVisible := old(settings).isVolumeVisible || old(chart).volumeAxisVisible)
        && settings == old(settings).(lastLoadedDataCount := |values|)
        && store == old(store) && feedback == old(feedback).(error := Some(FetchFailed), loading := false)
        && ChartValid(chart.(ma := []))
    {
      if settings.apiKey == "" {
        feedback := feedback.(error := Some(MissingApiKey));
        return;
      }
      feedback := feedback.(error := None, loading := true);
      requests := requests + [Request(symbol, interval, startDate, endDate, settings.apiKey)];
      var outcome := Classify(fetch);
      match outcome {
        case Apply(values) =>
          UpdateData(values);
          UpdateVolumeData(values);
          LoadedVolumeMatches(values);
          // ReferenceError: calculateMA is not defined; the catch clause shows the fetch error.
          outcome := Fail;
        case Reject(detail) =>
          chart := chart.(candles := [], candleVolumes := [], volume := [], ma := []);
        case Fail =>
      }
      feedback := feedback.(error := BannerAfter(outcome), loading := false);
    }

    // -------------------------------------------------------------------------
    // setupEventListeners

    /** The load button: the upper-cased symbol input, when non-empty, is loaded with the current interval and dates. */
    method LoadButtonClicked(fetch: FetchResult)
      requires Valid() && listening
      modifies this`feedback, this`requests, this`chart, this`settings, this`store
      ensures Valid()
      ensures form.symbol == "" ==> unchanged(this)
      ensures form.symbol != "" ==>
        LoadEffect(Request(ToUpper(form.symbol), old(settings).interval, form.startDate, form.endDate, old(settings).apiKey),
                   fetch, old(store), old(settings))
    {
      var symbol := ToUpper(form.symbol);
      ToUpperEmpty(form.symbol);
      if symbol != "" {
        LoadAllData(symbol, settings.interval, form.startDate, form.endDate, fetch);
      }
    }

    /** An interval button: the interval becomes current and is saved, then the symbol, if any, is reloaded with it. */
    method IntervalClicked(interval: string, fetch: FetchResult)
      requires Valid() && listening
      modifies this`feedback, this`requests, this`chart, this`settings, this`store
      ensures Valid()
      ensures form.symbol == "" ==>
        && settings == old(settings).(interval := interval) && store == old(store)[IntervalKey := interval]
        && requests == old(requests) && chart == old(chart) && feedback == old(feedback)
      ensures form.symbol != "" ==>
        LoadEffect(Request(ToUpper(form.symbol), interval, form.startDate, form.endDate, old(settings).apiKey),
                   fetch, old(store)[IntervalKey := interval], old(settings).(interval := interval))
    {
      settings := settings.(interval := interval);
      store := store[IntervalKey := interval];
      LoadButtonClicked(fetch);
    }

    /** The two colour pickers, when either changes: the inputs take the new values and those colours are applied. */
    method ColorPicked(up: string, down: string)
      requires Valid() && listening
      modifies this`form, this`chart, this`store
      ensures Valid()
      ensures form == old(form).(upColor := up, downColor := down)
      ensures chart == old(chart).(candleUpColor := up, candleDownColor := down)
      ensures store == old(store)[UpColorKey := up][DownColorKey := down]
    {
      form := form.(upColor := up, downColor := down);
      UpdateChartColors();
    }

    /** Zoom-in: the last fifty bars, when there is any bar; otherwise nothing changes. */
    method ZoomIn()
      requires Valid() && listening
      modifies this`chart
      ensures Valid()
      ensures settings.lastLoadedDataCount == 0 ==> unchanged(this)
      ensures settings.lastLoadedDataCount > 0 ==>
        var n := settings.lastLoadedDataCount;
        chart == old(chart).(visibleRange := Logical(LogicalRange(if n > ZoomInBars then n - ZoomInBars else 0, n)))
    {
      match ZoomInRange(settings.lastLoadedDataCount) {
        case Some(r) => chart := chart.(visibleRange := Logical(r));
        case None =>
      }
    }

    /** Zoom-out: every loaded bar. */
    method ZoomOut()
      requires Valid() && listening
      modifies this`chart
      ensures Valid()
      ensures chart == old(chart).(visibleRange := Logical(LogicalRange(0, settings.lastLoadedDataCount)))
    {
      chart := chart.(visibleRange := Logical(ZoomOutRange(settings.lastLoadedDataCount)));
    }

    /** Reset: the time scale fits the content. */
    method ResetZoom()
      requires Valid() && listening
      modifies this`chart
      ensures Valid()
      ensures chart == old(chart).(visibleRange := Fitted)
    {
      chart := chart.(visibleRange := Fitted);
    }

    /**
     * The volume toggle: the flag flips; switched on, the bars are rebuilt from the
     * candles shown, each with the volume its point carries, and the axis shows;
     * switched off, the bars and the axis go.
     */
    method ToggleVolume()
      requires Valid() && listening
      modifies this`settings, this`chart
      ensures Valid()
      ensures settings == old(settings).(isVolumeVisible := !old(settings).isVolumeVisible)
      ensures settings.isVolumeVisible ==>
        chart == old(chart).(volume := VolumeFromCandles(old(chart).candles, old(chart).candleVolumes), volumeAxisVisible := true)
      ensures !settings.isVolumeVisible ==> chart == old(chart).(volume := [], volumeAxisVisible := false)
    {
      settings := settings.(isVolumeVisible := !settings.isVolumeVisible);
      if settings.isVolumeVisible {
        RebuiltVolumeMatches(chart.candles, chart.candleVolumes);
        chart := chart.(volume := VolumeFromCandles(chart.candles, chart.candleVolumes), volumeAxisVisible := true);
      } else {
        chart := chart.(volume := [], volumeAxisVisible := false);
      }
    }

    /**
     * The volume toggle as written: the candle points carry no `originalData`, so
     * switched on over any candle the read of `originalData.volume` throws after
     * the flag has flipped and before the bars or the axis change. Over no candle,
     * and switched off, it behaves as the intended toggle. The state is left
     * inconsistent exactly when the overlay goes on over candles without bars,
     * as after switching it off and on again.
     */
    method ToggleVolumeAsWritten()
      requires Valid() && listening
      modifies this`settings, this`chart
      ensures settings == old(settings).(isVolumeVisible := !old(settings).isVolumeVisible)
      ensures settings.isVolumeVisible && old(chart).candles == [] ==> chart == old(chart).(volume := [], volumeAxisVisible := true)
      ensures settings.isVolumeVisible && old(chart).candles != [] ==> chart == old(chart)
      ensures !settings.isVolumeVisible ==> chart == old(chart).(volume := [], volumeAxisVisible := false)
      ensures Valid() <==> !(settings.isVolumeVisible && old(chart).candles != [] && old(chart).volume == [])
    {
      settings := settings.(isVolumeVisible := !settings.isVolumeVisible);
      if settings.isVolumeVisible {
        if chart.candles == [] {
          chart := chart.(volume := [], volumeAxisVisible := true);
        }
        // Otherwise: TypeError, `d.originalData` is undefined. The handler stops here.
      } else {
        chart := chart.(volume := [], volumeAxisVisible := false);
      }
    }

    /**
     * The MA toggle: the flag flips; switched on, the moving average is computed
     * from the candles shown; switched off, the line is emptied.
     */
    method ToggleMa()
      requires Valid() && listening
      modifies this`settings, this`chart
      ensures Valid()
      ensures settings == old(settings).(isMaVisible := !old(settings).isMaVisible)
      ensures chart == old(chart).(ma := chart.ma)
      ensures settings.isMaVisible ==> IsMovingAverage(ClosesOfCandles(chart.candles), MaPeriod, chart.ma)
      ensures !settings.isMaVisible ==> chart.ma == []
    {
      settings := settings.(isMaVisible := !settings.isMaVisible);
      if settings.isMaVisible {
        var maData := CalculateMA(ClosesOfCandles(chart.candles), MaPeriod);
        chart := chart.(ma := maData);
      } else {
        chart := chart.(ma := []);
      }
    }

    /**
     * The API-key input: the trimmed text becomes the key and is saved, even when
     * empty; only a non-empty key switches to the "saved" badge.
     */
    method ApiKeyInput(value: string)
      requires Valid() && listening
      modifies this`form, this`settings, this`store, this`feedback
      ensures Valid()
      ensures form == old(form).(apiKey := value) && settings == old(settings).(apiKey := Trim(value))
      ensures store == old(store)[ApiKeyKey := Trim(value)]
      ensures feedback == if Trim(value) != "" then old(feedback).(keyView := Saved) else old(feedback)
    {
      form := form.(apiKey := value);
      var key := Trim(value);
      settings := settings.(apiKey := key);
      store := store[ApiKeyKey := key];
      if key != "" {
        feedback := feedback.(keyView := Saved);
      }
    }

    /** The edit-key button: the key input shows again. */
    method EditApiKey()
      requires Valid() && listening
      modifies this`feedback
      ensures Valid() && feedback == old(feedback).(keyView := Editing)
    {
      feedback := feedback.(keyView := Editing);
    }

    // -------------------------------------------------------------------------
    // Page start-up

    /**
     * The state start-up restoration leaves, relative to the state before it: the
     * settings are `Restore` of the store, the key widget follows whether a key was
     * saved, and a restored theme with a truthy entry is on the body and in the store.
     */
    twostate predicate Restored()
      reads this
    {
      var p, key := Restore(old(store), old(CurrentPrefs())), Stored(old(store), ApiKeyKey);
      && CurrentPrefs() == p
      && settings == old(settings).(apiKey := p.apiKey, theme := p.theme, interval := p.interval)
      && form == old(form).(symbol := p.symbol, apiKey := SavedOr(key, old(form).apiKey),
                            upColor := p.upColor, downColor := p.downColor)
      && feedback == old(feedback).(keyView := if key.Some? then Saved else Editing,
                                    bodyTheme := if ThemeDefined(p.theme) then Some(p.theme) else old(feedback).bodyTheme)
      && store == (if ThemeDefined(p.theme) then old(store)[ThemeKey := p.theme] else old(store))
    }

    /**
     * Start-up restoration up to the colour inputs: each saved setting replaces
     * its default, the current theme is applied (the chart does not exist yet, so
     * only the page and the store see it), and the key widget is chosen.
     */
    method RestorePreferences()
      requires Valid() && chart.stage == NoChart
      modifies this`settings, this`form, this`feedback, this`chart, this`store
      ensures Valid() && Restored() && chart == old(chart)
    {
      ghost var saved := store;
      RestoreKeyAndSymbol();
      RestoreTheme();
      StoredOtherKey(saved, ThemeKey, settings.theme, IntervalKey);
      StoredOtherKey(saved, ThemeKey, settings.theme, UpColorKey);
      StoredOtherKey(saved, ThemeKey, settings.theme, DownColorKey);
      RestoreIntervalAndColors();
    }

    /** The saved key, when there is one, becomes the key and the key input's text; the symbol input likewise. */
    method RestoreKeyAndSymbol()
      requires Valid()
      modifies this`settings, this`form, this`feedback
      ensures Valid()
      ensures var key, symbol := Stored(store, ApiKeyKey), Stored(store, LastSymbolKey);
        && settings == old(settings).(apiKey := SavedOr(key, old(settings).apiKey))
        && form == old(form).(apiKey := SavedOr(key, old(form).apiKey), symbol := SavedOr(symbol, old(form).symbol))
        && feedback == old(feedback).(keyView := if key.Some? then Saved else Editing)
    {
      var savedApiKey := Stored(store, ApiKeyKey);
      if savedApiKey.Some? {
        settings := settings.(apiKey := savedApiKey.value);
        form := form.(apiKey := savedApiKey.value);
        feedback := feedback.(keyView := Saved);
      } else {
        feedback := feedback.(keyView := Editing);
      }
      var savedSymbol := Stored(store, LastSymbolKey);
      if savedSymbol.Some? {
        form := form.(symbol := savedSymbol.value);
      }
    }

    /** The saved theme, when there is one, becomes current; then the current theme is applied. */
    method RestoreTheme()
      requires Valid() && chart.stage == NoChart
      modifies this`settings, this`feedback, this`chart, this`store
      ensures Valid()
      ensures var theme := SavedOr(Stored(old(store), ThemeKey), old(settings).theme);
        && settings == old(settings).(theme := theme)
        && feedback == old(feedback).(bodyTheme := if ThemeDefined(theme) then Some(theme) else old(feedback).bodyTheme)
        && store == (if ThemeDefined(theme) then old(store)[ThemeKey := theme] else old(store))
        && chart == old(chart)
    {
      var savedTheme := Stored(store, ThemeKey);
      if savedTheme.Some? {
        settings := settings.(theme := savedTheme.value);
      }
      ApplyTheme(settings.theme);
    }

    /** The saved interval, when there is one, becomes current; the two colour inputs only when both are saved. */
    method RestoreIntervalAndColors()
      requires Valid()
      modifies this`settings, this`form
      ensures Valid()
      ensures var colors := SavedColors(Stored(store, UpColorKey), Stored(store, DownColorKey),
                                        (old(form).upColor, old(form).downColor));
        && settings == old(settings).(interval := SavedOr(Stored(store, IntervalKey), old(settings).interval))
        && form == old(form).(upColor := colors.0, downColor := colors.1)
    {
      var savedInterval := Stored(store, IntervalKey);
      if savedInterval.Some? {
        settings := settings.(interval := savedInterval.value);
      }
      var savedUpColor, savedDownColor := Stored(store, UpColorKey), Stored(store, DownColorKey);
      if savedUpColor.Some? && savedDownColor.Some? {
        form := form.(upColor := savedUpColor.value, downColor := savedDownColor.value);
      }
    }

    /**
     * Page start-up as evidently intended: restore the settings, build the chart,
     * attach the listeners and, when both a key and a symbol were saved, load the
     * saved symbol from the first of this year to today. `today` stands for the
     * calendar fields of `new Date()`, `fetch` for the outcome of that load.
     */
    method Startup(today: Today, fetch: FetchResult)
      requires Valid() && chart.stage == NoChart
      modifies this
      ensures Valid() && listening
      ensures CurrentPrefs() == Restore(old(store), old(CurrentPrefs()))
      ensures settings.isVolumeVisible == old(settings).isVolumeVisible && settings.isMaVisible == old(settings).isMaVisible
      ensures feedback.keyView == (if Stored(old(store), ApiKeyKey).Some? then Saved else Editing)
      ensures chart.stage == WithSeries && chart.theme == ThemeEntry(settings.theme)
      ensures chart.candleUpColor == form.upColor && chart.candleDownColor == form.downColor
      ensures var auto := Stored(old(store), ApiKeyKey).Some? && Stored(old(store), LastSymbolKey).Some?;
        && (!auto ==> && Restored() && requests == old(requests)
                      && chart == Chart(WithSeries, ThemeEntry(settings.theme), form.upColor, form.downColor,
                                        UpVolumeColor, DownVolumeColor, false, Initial, [], [], [], []))
        && (auto ==> && form.startDate == FormatDate(today.year, 1, 1)
                     && form.endDate == FormatDate(today.year, today.month, today.day)
                     && requests == old(requests) + [Request(old(store)[LastSymbolKey], settings.interval,
                                                             form.startDate, form.endDate, settings.apiKey)])
        && (auto && Classify(fetch).Apply? ==>
              chart.candles == Candles(Classify(fetch).values)
              && settings.lastLoadedDataCount == |Classify(fetch).values|)
    {
      var saved := store;
      RestorePreferences();
      Initialize();
      listening := true;
      var savedApiKey, savedSymbol := Stored(saved, ApiKeyKey), Stored(saved, LastSymbolKey);
      if savedApiKey.Some? && savedSymbol.Some? {
        form := form.(endDate := FormatDate(today.year, today.month, today.day),
                      startDate := FormatDate(today.year, 1, 1));
        LoadAllData(savedSymbol.value, settings.interval, form.startDate, form.endDate, fetch);
      }
    }

    /**
     * Page start-up as written: the settings are restored and the theme applied,
     * then chartHandler.initialize throws, so no series exists, no listener is
     * attached and no saved symbol is loaded.
     */
    method StartupAsWritten()
      requires Valid() && chart.stage == NoChart
      modifies this
      ensures Valid() && Restored()
      ensures chart == old(chart).(stage := ChartOnly, theme := ThemeEntry(settings.theme))
      ensures !listening && requests == old(requests)
    {
      RestorePreferences();
      InitializeAsWritten();
    }
  }

  /** The calendar fields of `new Date()` that start-up reads. */
  datatype Today = Today(year: nat, month: nat, day: nat)

  /**
   * The stale line the bare `calculateMA` leaves behind. Twenty records, one per
   * date of `dates`, are loaded and the MA toggle draws their average; a second
   * load for the same dates (another symbol, higher closes) replaces the candles
   * but, as written, not the line. The line of the first load is not the moving
   * average of the second load's candles, so LoadAllDataAsWritten breaks the
   * invariant LoadAllData keeps.
   */
  lemma StaleMovingAverage(dates: seq<string>)
    requires |dates| == 20
    ensures var first := seq(20, i requires 0 <= i < 20 => Record(dates[i], 10.0, 12.0, 9.0, 11.0, 100.0));
            var second := seq(20, i requires 0 <= i < 20 => Record(dates[i], 11.0, 13.0, 10.0, 12.0, 200.0));
            var staleMa := [MaPoint(dates[19], 11.0)];
            && IsMovingAverage(ClosesOfCandles(Candles(first)), MaPeriod, staleMa)
            && !IsMovingAverage(ClosesOfCandles(Candles(second)), MaPeriod, staleMa)
  {
    var first := seq(20, i requires 0 <= i < 20 => Record(dates[i], 10.0, 12.0, 9.0, 11.0, 100.0));
    var second := seq(20, i requires 0 <= i < 20 => Record(dates[i], 11.0, 13.0, 10.0, 12.0, 200.0));
    var staleMa := [MaPoint(dates[19], 11.0)];
    var data := ClosesOfCandles(Candles(first));
    assert |data| == 20;
    assert forall j :: 0 <= j < 20 ==> data[j].close == 11.0;
    assert data[0..20] == data;
    SumClosesConstant(data, 11.0);
    assert staleMa[0] == MaPoint(data[19].datetime, SumCloses(data[0..20]) / 20.0);
    var other := ClosesOfCandles(Candles(second));
    assert |other| == 20;
    assert forall j :: 0 <= j < 20 ==> other[j].close == 12.0;
    assert other[0..20] == other;
    SumClosesConstant(other, 12.0);
    assert SumCloses(other[0..20]) / 20.0 == 12.0;
  }
}
