/**
 * The preferences the page keeps in `localStorage`, and how page start-up reads
 * them back. The store is a plain string-to-string map.
 */
module Prefs {
  import opened Common

  const ApiKeyKey: string := "twelveDataApiKey"
  const LastSymbolKey: string := "lastSymbol"
  const ThemeKey: string := "chartTheme"
  const IntervalKey: string := "chartInterval"
  const UpColorKey: string := "upColor"
  const DownColorKey: string := "downColor"

  /**
   * `localStorage.getItem(key)` used as a JavaScript condition: a missing key
   * (`null`) and a stored empty string both count as "nothing saved".
   */
  function Stored(store: map<string, string>, key: string): (r: Option<string>)
    ensures r.Some? <==> key in store && store[key] != ""
    ensures r.Some? ==> r.value == store[key]
  {
    if key in store && store[key] != "" then Some(store[key]) else None
  }

  /** The settings start-up restores: API key, symbol input, theme, interval and the two colour inputs. */
  datatype SavedSettings = SavedSettings(apiKey: string, symbol: string, theme: string, interval: string, upColor: string, downColor: string)

  /** A saved value replaces the current one; with nothing saved the current one stays. */
  function SavedOr(saved: Option<string>, current: string): (r: string)
    ensures saved.Some? ==> r == saved.value
    ensures saved.None? ==> r == current
  {
    if saved.Some? then saved.value else current
  }

  /** The two colours are restored only together: both when both are saved, neither otherwise. */
  function SavedColors(up: Option<string>, down: Option<string>, current: (string, string)): (r: (string, string))
    ensures up.Some? && down.Some? ==> r == (up.value, down.value)
    ensures up.None? || down.None? ==> r == current
  {
    if up.Some? && down.Some? then (up.value, down.value) else current
  }

  /**
   * Start-up restoration: each setting is taken from the store when something is
   * saved under its key and kept otherwise; the two colours only together.
   */
  function Restore(store: map<string, string>, before: SavedSettings): (p: SavedSettings)
    ensures p.apiKey != before.apiKey ==> ApiKeyKey in store && store[ApiKeyKey] == p.apiKey != ""
    ensures p.symbol != before.symbol ==> LastSymbolKey in store && store[LastSymbolKey] == p.symbol != ""
    ensures p.theme != before.theme ==> ThemeKey in store && store[ThemeKey] == p.theme != ""
    ensures p.interval != before.interval ==> IntervalKey in store && store[IntervalKey] == p.interval != ""
    ensures (p.upColor, p.downColor) != (before.upColor, before.downColor) ==>
      && UpColorKey in store && store[UpColorKey] == p.upColor != ""
      && DownColorKey in store && store[DownColorKey] == p.downColor != ""
    ensures ApiKeyKey in store && store[ApiKeyKey] != "" ==> p.apiKey == store[ApiKeyKey]
    ensures LastSymbolKey in store && store[LastSymbolKey] != "" ==> p.symbol == store[LastSymbolKey]
    ensures ThemeKey in store && store[ThemeKey] != "" ==> p.theme == store[ThemeKey]
    ensures IntervalKey in store && store[IntervalKey] != "" ==> p.interval == store[IntervalKey]
    ensures UpColorKey in store && store[UpColorKey] != "" && DownColorKey in store && store[DownColorKey] != "" ==>
      p.upColor == store[UpColorKey] && p.downColor == store[DownColorKey]
  {
    var colors := SavedColors(Stored(store, UpColorKey), Stored(store, DownColorKey), (before.upColor, before.downColor));
    SavedSettings(
      SavedOr(Stored(store, ApiKeyKey), before.apiKey),
      SavedOr(Stored(store, LastSymbolKey), before.symbol),
      SavedOr(Stored(store, ThemeKey), before.theme),
      SavedOr(Stored(store, IntervalKey), before.interval),
      colors.0, colors.1)
  }

  /** An empty store restores nothing. */
  lemma RestoreNothingSaved(before: SavedSettings)
    ensures Restore(map[], before) == before
  {
  }

  /**
   * Colours are restored only as a pair: after the colour handler saves both,
   * the next start-up restores both when both are non-empty and neither otherwise.
   */
  lemma RestoreSavedColors(store: map<string, string>, before: SavedSettings, up: string, down: string)
    ensures var p := Restore(store[UpColorKey := up][DownColorKey := down], before);
            (p.upColor, p.downColor) == if up != "" && down != "" then (up, down) else (before.upColor, before.downColor)
  {
  }

  /** A key saved by the API-key handler comes back at start-up, unless it was saved empty. */
  lemma RestoreSavedApiKey(store: map<string, string>, before: SavedSettings, key: string)
    ensures Restore(store[ApiKeyKey := key], before).apiKey == if key != "" then key else before.apiKey
  {
  }

  /**
   * Persisting every setting and restarting reproduces every setting, provided
   * none of them is empty.
   */
  lemma RestoreRoundTrip(store: map<string, string>, before: SavedSettings, p: SavedSettings)
    requires p.apiKey != "" && p.symbol != "" && p.theme != "" && p.interval != ""
    requires p.upColor != "" && p.downColor != ""
    ensures Restore(store[ApiKeyKey := p.apiKey][LastSymbolKey := p.symbol][ThemeKey := p.theme]
                         [IntervalKey := p.interval][UpColorKey := p.upColor][DownColorKey := p.downColor], before) == p
  {
  }

  /** Writing one key leaves what start-up reads under every other key as it was. */
  lemma StoredOtherKey(store: map<string, string>, written: string, value: string, key: string)
    requires key != written
    ensures Stored(store[written := value], key) == Stored(store, key)
  {
  }
}
