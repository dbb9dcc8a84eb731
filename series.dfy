/**
 * The series transformer of the chart page: upstream quote records become candle
 * points, coloured volume bars and a trailing moving average
 * (chartHandler.updateData / updateVolumeData / updateMaData and helpers.calculateMA).
 *
 * Prices and volumes are `real`: the model takes every numeric field as already
 * parsed, so `parseFloat`, NaN and floating-point rounding are not part of it.
 */
module Series {
  import opened Common

  /** One record of the API's `values` array, its numeric fields parsed. */
  datatype Record = Record(datetime: string, open: real, high: real, low: real, close: real, volume: real)

  /** One point handed to the candlestick series. */
  datatype Candle = Candle(time: string, open: real, high: real, low: real, close: real)

  /** One bar handed to the volume histogram; `color` overrides the series colours. */
  datatype VolumeBar = VolumeBar(time: string, value: real, color: string)

  /** What calculateMA reads of each element: its `datetime` and its `close`. */
  datatype ClosePoint = ClosePoint(datetime: string, close: real)

  /** One point of the moving-average line. */
  datatype MaPoint = MaPoint(time: string, value: real)

  /** Colour of a volume bar whose close is at or above its open. */
  const UpVolumeColor: string := "rgba(38, 166, 154, 0.4)"
  /** Colour of a volume bar whose close is below its open. */
  const DownVolumeColor: string := "rgba(239, 83, 80, 0.4)"

  /** The period every caller of calculateMA passes. */
  const MaPeriod: nat := 20

  /** The colour rule of a volume bar, on the bar's own open and close. */
  function VolumeColor(open: real, close: real): (c: string)
    ensures c == UpVolumeColor <==> close >= open
    ensures c == DownVolumeColor <==> close < open
  {
    if close >= open then UpVolumeColor else DownVolumeColor
  }

  function CandleOf(item: Record): Candle {
    Candle(item.datetime, item.open, item.high, item.low, item.close)
  }

  /** The candle data set by updateData: one candle per record, in input order. */
  function Candles(values: seq<Record>): (r: seq<Candle>)
    ensures |r| == |values|
    ensures forall i :: 0 <= i < |values| ==>
      && r[i].time == values[i].datetime
      && r[i].open == values[i].open && r[i].high == values[i].high
      && r[i].low == values[i].low && r[i].close == values[i].close
  {
    MapSeq(values, CandleOf)
  }

  function VolumeBarOf(item: Record): VolumeBar {
    VolumeBar(item.datetime, item.volume, VolumeColor(item.open, item.close))
  }

  /** The volume data set by updateVolumeData: one bar per record, in input order. */
  function VolumeBars(values: seq<Record>): (r: seq<VolumeBar>)
    ensures |r| == |values|
    ensures forall i :: 0 <= i < |values| ==>
      && r[i].time == values[i].datetime
      && r[i].value == values[i].volume
      && (r[i].color == UpVolumeColor <==> values[i].close >= values[i].open)
      && (r[i].color == DownVolumeColor <==> values[i].close < values[i].open)
  {
    MapSeq(values, VolumeBarOf)
  }

  /**
   * The volume each candle point carries as `originalData.volume` once updateData
   * attaches it: the record's own volume, position by position.
   */
  function Volumes(values: seq<Record>): (r: seq<real>)
    ensures |r| == |values|
    ensures forall i :: 0 <= i < |values| ==> r[i] == values[i].volume
  {
    MapSeq(values, (item: Record) => item.volume)
  }

  /**
   * The volume data rebuilt from the candle series when the volume overlay is
   * switched on: per point its time, the volume it carries (`volumes`, by
   * position) and the colour from its own open and close.
   */
  function VolumeFromCandles(candles: seq<Candle>, volumes: seq<real>): (r: seq<VolumeBar>)
    requires |volumes| == |candles|
    ensures |r| == |candles|
    ensures forall i :: 0 <= i < |candles| ==>
      && r[i].time == candles[i].time
      && r[i].value == volumes[i]
      && r[i].color == VolumeColor(candles[i].open, candles[i].close)
  {
    seq(|candles|, i requires 0 <= i < |candles| => VolumeBar(candles[i].time, volumes[i], VolumeColor(candles[i].open, candles[i].close)))
  }

  function RecordClose(item: Record): ClosePoint {
    ClosePoint(item.datetime, item.close)
  }

  /** The moving-average input on a load: the raw records themselves. */
  function ClosesOf(values: seq<Record>): (r: seq<ClosePoint>)
    ensures |r| == |values|
    ensures forall i :: 0 <= i < |values| ==> r[i] == ClosePoint(values[i].datetime, values[i].close)
  {
    MapSeq(values, RecordClose)
  }

  function CandleClose(d: Candle): ClosePoint {
    ClosePoint(d.time, d.close)
  }

  /** The moving-average input on the MA toggle: `{datetime: d.time, close: d.close}` per candle. */
  function ClosesOfCandles(candles: seq<Candle>): (r: seq<ClosePoint>)
    ensures |r| == |candles|
    ensures forall i :: 0 <= i < |candles| ==> r[i] == ClosePoint(candles[i].time, candles[i].close)
  {
    MapSeq(candles, CandleClose)
  }

  /**
   * The `reduce((acc, curr) => acc + curr.close, 0)` of a window, folded from the
   * left from 0: zero for no closes and the close itself for one (the bounds
   * and the constant case are the lemmas below).
   */
  function SumCloses(s: seq<ClosePoint>): (r: real)
    ensures s == [] ==> r == 0.0
    ensures |s| == 1 ==> r == s[0].close
  {
    if s == [] then 0.0 else SumCloses(s[..|s| - 1]) + s[|s| - 1].close
  }

  /**
   * `ma` is the trailing moving average of `data` over `period`: one point per
   * position from `period - 1` on, timed at that position, valued at the mean of
   * the `period` closes that end there.
   */
  ghost predicate IsMovingAverage(data: seq<ClosePoint>, period: nat, ma: seq<MaPoint>)
    requires period >= 1
  {
    && |ma| == (if |data| >= period then |data| - period + 1 else 0)
    && forall k :: 0 <= k < |ma| ==>
         ma[k] == MaPoint(data[k + period - 1].datetime, SumCloses(data[k..k + period]) / (period as real))
  }

  /** helpers.calculateMA: a loop over the window ends, pushing one point per window. */
  method CalculateMA(data: seq<ClosePoint>, period: nat) returns (maData: seq<MaPoint>)
    requires period >= 1
    ensures IsMovingAverage(data, period, maData)
  {
    maData := [];
    var i := period - 1;
    while i < |data|
      invariant period - 1 <= i
      invariant i <= |data| || i == period - 1
      invariant |maData| == i - (period - 1)
      invariant forall k :: 0 <= k < |maData| ==>
        maData[k] == MaPoint(data[k + period - 1].datetime, SumCloses(data[k..k + period]) / (period as real))
    {
      var sum := SumCloses(data[i - period + 1..i + 1]);
      maData := maData + [MaPoint(data[i].datetime, sum / (period as real))];
      i := i + 1;
    }
  }

  /** Volume bars agree with candles bar by bar: same times, colour from the same open/close. */
  ghost predicate VolumeMatches(volume: seq<VolumeBar>, candles: seq<Candle>) {
    && |volume| == |candles|
    && forall i :: 0 <= i < |volume| ==>
         volume[i].time == candles[i].time && volume[i].color == VolumeColor(candles[i].open, candles[i].close)
  }

  /**
   * The overlays shown are derived from the candles shown: the volume bars and the
   * moving average are each empty or computed from exactly these candles.
   */
  ghost predicate OverlaysDerived(candles: seq<Candle>, volume: seq<VolumeBar>, ma: seq<MaPoint>) {
    && (volume == [] || VolumeMatches(volume, candles))
    && (ma == [] || IsMovingAverage(ClosesOfCandles(candles), MaPeriod, ma))
  }

  // ---------------------------------------------------------------------------
  // Properties

  /** The two routes to the MA input (load: records, toggle: candles) give the same sequence. */
  lemma ClosesAgree(values: seq<Record>)
    ensures ClosesOfCandles(Candles(values)) == ClosesOf(values)
  {
    var a, b := ClosesOfCandles(Candles(values)), ClosesOf(values);
    assert |a| == |b|;
    forall i | 0 <= i < |a| ensures a[i] == b[i] { }
  }

  /** The volume bars of a load agree with the candles of the same load. */
  lemma LoadedVolumeMatches(values: seq<Record>)
    ensures VolumeMatches(VolumeBars(values), Candles(values))
  {
  }

  /** The volume bars rebuilt on the toggle agree with the candles they were built from. */
  lemma RebuiltVolumeMatches(candles: seq<Candle>, volumes: seq<real>)
    requires |volumes| == |candles|
    ensures VolumeMatches(VolumeFromCandles(candles, volumes), candles)
  {
  }

  /**
   * Rebuilding the volume bars from the candles of a load, with the volumes
   * the load attached to them, reproduces the bars of that load exactly.
   */
  lemma RebuiltVolumeIsLoadedVolume(values: seq<Record>)
    ensures VolumeFromCandles(Candles(values), Volumes(values)) == VolumeBars(values)
  {
    var a, b := VolumeFromCandles(Candles(values), Volumes(values)), VolumeBars(values);
    assert |a| == |b|;
    forall i | 0 <= i < |a| ensures a[i] == b[i] {
      assert a[i].color == VolumeColor(values[i].open, values[i].close);
    }
  }

  /** A moving average is determined by its input: two results for the same data are equal. */
  lemma MovingAverageUnique(data: seq<ClosePoint>, period: nat, m1: seq<MaPoint>, m2: seq<MaPoint>)
    requires period >= 1
    requires IsMovingAverage(data, period, m1) && IsMovingAverage(data, period, m2)
    ensures m1 == m2
  {
    assert |m1| == |m2|;
    forall k | 0 <= k < |m1| ensures m1[k] == m2[k] { }
  }

  /** A window sum lies between its length times the lowest and the highest close. */
  lemma {:induction false} SumClosesBounds(s: seq<ClosePoint>, lo: real, hi: real)
    requires forall j :: 0 <= j < |s| ==> lo <= s[j].close <= hi
    ensures (|s| as real) * lo <= SumCloses(s) <= (|s| as real) * hi
  {
    if s != [] {
      var init, last := s[..|s| - 1], s[|s| - 1];
      assert forall j :: 0 <= j < |init| ==> init[j] == s[j];
      SumClosesBounds(init, lo, hi);
      assert SumCloses(s) == SumCloses(init) + last.close;
      var n := |init| as real;
      assert (|s| as real) * lo == n * lo + lo && (|s| as real) * hi == n * hi + hi;
    }
  }

  /** Each moving-average value lies between the lowest and the highest close of its window. */
  lemma MovingAverageWithinWindow(data: seq<ClosePoint>, period: nat, ma: seq<MaPoint>, k: nat, lo: real, hi: real)
    requires period >= 1 && IsMovingAverage(data, period, ma) && k < |ma|
    requires forall j :: k <= j < k + period ==> lo <= data[j].close <= hi
    ensures lo <= ma[k].value <= hi
  {
    var w := data[k..k + period];
    assert ma[k].value == SumCloses(w) / (period as real);
    assert forall j :: 0 <= j < |w| ==> lo <= w[j].close <= hi by {
      forall j | 0 <= j < |w| ensures lo <= w[j].close <= hi {
        assert w[j] == data[k + j];
      }
    }
    SumClosesBounds(w, lo, hi);
    MeanBounds(SumCloses(w), period as real, lo, hi);
  }

  lemma MeanBounds(x: real, p: real, lo: real, hi: real)
    requires p > 0.0 && p * lo <= x <= p * hi
    ensures lo <= x / p <= hi
  {
    var q := x / p;
    assert x == q * p;
    assert (q - lo) * p >= 0.0 && (hi - q) * p >= 0.0;
  }

  /** Sum of `n` equal closes. */
  lemma {:induction false} SumClosesConstant(s: seq<ClosePoint>, c: real)
    requires forall j :: 0 <= j < |s| ==> s[j].close == c
    ensures SumCloses(s) == (|s| as real) * c
  {
    if s != [] {
      SumClosesConstant(s[..|s| - 1], c);
    }
  }
}
