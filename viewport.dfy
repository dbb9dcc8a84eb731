/**
 * The visible-range arithmetic behind the zoom buttons. Both ranges are logical
 * (bar-index) ranges computed from the number of bars of the last successful load.
 */
module Viewport {
  import opened Common

  /** A visible logical range `{ from, to }` in bar-index units. */
  datatype LogicalRange = LogicalRange(from: int, to: int)

  /** How many trailing bars zoom-in shows. */
  const ZoomInBars: nat := 50

  function Min(a: int, b: int): int {
    if a <= b then a else b
  }

  /**
   * Zoom-in: the last fifty bars, clipped at bar 0, and only when that range is
   * non-empty; `None` means the button changes nothing.
   */
  function ZoomInRange(count: nat): (r: Option<LogicalRange>)
    ensures r.Some? <==> count > 0
    ensures r.Some? ==> && r.value.to == count
                        && r.value.from == (if count > ZoomInBars then count - ZoomInBars else 0)
                        && r.value.to - r.value.from == Min(ZoomInBars, count)
  {
    var from := if count - ZoomInBars > 0 then count - ZoomInBars else 0;
    var to := count;
    if from < to then Some(LogicalRange(from, to)) else None
  }

  /** Zoom-out: every loaded bar, whatever the count. */
  function ZoomOutRange(count: nat): (r: LogicalRange)
    ensures r.from == 0 && r.to == count
  {
    LogicalRange(0, count)
  }

  /** A zoomed-in range always lies inside the zoomed-out range of the same data. */
  lemma ZoomInWithinZoomOut(count: nat)
    requires count > 0
    ensures var inner, outer := ZoomInRange(count).value, ZoomOutRange(count);
            outer.from <= inner.from < inner.to == outer.to
  {
  }
}
