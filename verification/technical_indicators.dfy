/** The KDJ stochastic indicator: rolling highest/lowest prices over
    `kperiods` bars, the K line, its three-bar moving average D, the J line,
    and the textual signal derived from the latest values.

    Prices are reals: float rounding and the numpy array conversion are not
    modelled. The D period is fixed at 3, as the offsets `x + 2` and the two
    `None` placeholders in the code assume. */
module TechnicalIndicators {
  import opened Wrappers
  import opened Strings

  const DPeriods := 3

  /** Python's `max` of a non-empty window. */
  function Max(s: seq<real>): (r: real)
    requires |s| > 0
    ensures r in s
    ensures forall i :: 0 <= i < |s| ==> s[i] <= r
    decreases |s|
  {
    if |s| == 1 then s[0]
    else
      var m := Max(s[..|s| - 1]);
      assert s == s[..|s| - 1] + [s[|s| - 1]];
      if s[|s| - 1] > m then s[|s| - 1] else m
  }

  /** Python's `min` of a non-empty window. */
  function Min(s: seq<real>): (r: real)
    requires |s| > 0
    ensures r in s
    ensures forall i :: 0 <= i < |s| ==> r <= s[i]
    decreases |s|
  {
    if |s| == 1 then s[0]
    else
      var m := Min(s[..|s| - 1]);
      assert s == s[..|s| - 1] + [s[|s| - 1]];
      if s[|s| - 1] < m then s[|s| - 1] else m
  }

  /** One K value: where `close` sits in the range `[lowest, highest]`, in
      percent, with 50 for a flat range (the guard against division by zero). */
  function Rsv(close: real, highest: real, lowest: real): (k: real)
    ensures highest == lowest ==> k == 50.0
    ensures highest != lowest ==> k * (highest - lowest) == (close - lowest) * 100.0
  {
    if highest == lowest then 50.0 else (close - lowest) * 100.0 / (highest - lowest)
  }

  /** K lies in [0, 100] whenever the close lies inside the window's range.
      The window ends one bar before the close, so this is not automatic. */
  lemma RsvBounds(close: real, highest: real, lowest: real)
    requires lowest <= close <= highest
    ensures 0.0 <= Rsv(close, highest, lowest) <= 100.0
  {
    if highest != lowest {
      var k := Rsv(close, highest, lowest);
      var w := highest - lowest;
      assert w > 0.0;
      assert k * w == (close - lowest) * 100.0;
      assert 0.0 <= close - lowest <= w;
      assert (close - lowest) * 100.0 <= 100.0 * w;
      DivideOutPositive(k, w, 0.0, 100.0);
    }
  }

  /** From `lo * w <= k * w <= hi * w` and `w > 0`, `lo <= k <= hi`. */
  lemma DivideOutPositive(k: real, w: real, lo: real, hi: real)
    requires w > 0.0 && lo * w <= k * w <= hi * w
    ensures lo <= k <= hi
  {
  }

  /** The loop that fills `array_highest` and `array_lowest`: entry `x`
      covers the bars `x .. x + kperiods - 1`. There are `n - kperiods`
      entries, so the window ending at the last bar is never formed. */
  method RollingExtremes(highs: seq<real>, lows: seq<real>, kperiods: nat) returns (highest: seq<real>, lowest: seq<real>)
    requires 0 < kperiods <= |highs| && |lows| == |highs|
    ensures |highest| == |highs| - kperiods && |lowest| == |highs| - kperiods
    ensures forall x :: 0 <= x < |highest| ==> highest[x] == Max(highs[x..x + kperiods])
    ensures forall x :: 0 <= x < |lowest| ==> lowest[x] == Min(lows[x..x + kperiods])
  {
    highest, lowest := [], [];
    var x := 0;
    while x < |highs| - kperiods
      invariant 0 <= x <= |highs| - kperiods
      invariant |highest| == x && |lowest| == x
      invariant forall i :: 0 <= i < x ==> highest[i] == Max(highs[i..i + kperiods])
      invariant forall i :: 0 <= i < x ==> lowest[i] == Min(lows[i..i + kperiods])
    {
      highest := highest + [Max(highs[x..x + kperiods])];
      lowest := lowest + [Min(lows[x..x + kperiods])];
      x := x + 1;
    }
  }

  /** The K loop: bar `x` (from `kperiods` on) is measured against the
      window of the `kperiods` bars before it. */
  method KValues(closes: seq<real>, highest: seq<real>, lowest: seq<real>, kperiods: nat) returns (kvalue: seq<real>)
    requires kperiods <= |closes|
    requires |highest| == |closes| - kperiods && |lowest| == |highest|
    ensures |kvalue| == |closes| - kperiods
    ensures forall i :: 0 <= i < |kvalue| ==> kvalue[i] == Rsv(closes[i + kperiods], highest[i], lowest[i])
  {
    kvalue := [];
    var x := kperiods;
    while x < |closes|
      invariant kperiods <= x <= |closes|
      invariant |kvalue| == x - kperiods
      invariant forall i :: 0 <= i < |kvalue| ==> kvalue[i] == Rsv(closes[i + kperiods], highest[i], lowest[i])
    {
      var k := if highest[x - kperiods] == lowest[x - kperiods] then 50.0
               else (closes[x] - lowest[x - kperiods]) * 100.0 / (highest[x - kperiods] - lowest[x - kperiods]);
      kvalue := kvalue + [k];
      x := x + 1;
    }
  }

  /** K as a function of the prices: one value per bar from `kperiods` on,
      measured against the `kperiods` bars before it. */
  predicate IsKOf(highs: seq<real>, lows: seq<real>, closes: seq<real>, kperiods: nat, kvalue: seq<real>)
    requires 0 < kperiods <= |highs| && |lows| == |highs| && |closes| == |highs|
  {
    && |kvalue| == |highs| - kperiods
    && forall i :: 0 <= i < |kvalue| ==>
         kvalue[i] == Rsv(closes[i + kperiods], Max(highs[i..i + kperiods]), Min(lows[i..i + kperiods]))
  }

  /** `sum(s)`. */
  function Sum(s: seq<real>): real {
    if |s| == 0 then 0.0 else Sum(s[..|s| - 1]) + s[|s| - 1]
  }

  /** D as the code builds it: two `None` placeholders, then the mean of
      each run of three consecutive K values, aligned with the last K of the
      run. D is as long as K when K has at least two values, else it is
      just the two placeholders. */
  predicate IsDOf(kvalue: seq<real>, dvalue: seq<Option<real>>) {
    && |dvalue| == (if |kvalue| >= 2 then |kvalue| else 2)
    && dvalue[0] == None && dvalue[1] == None
    && forall i :: 2 <= i < |dvalue| ==> dvalue[i] == Some((kvalue[i - 2] + kvalue[i - 1] + kvalue[i]) / 3.0)
  }

  /** The D loop. */
  method DValues(kvalue: seq<real>) returns (dvalue: seq<Option<real>>)
    ensures IsDOf(kvalue, dvalue)
  {
    dvalue := [None, None];
    var x := 0;
    while x < |kvalue| - DPeriods + 1
      invariant 0 <= x && (x <= |kvalue| - 2 || x == 0)
      invariant |dvalue| == x + 2
      invariant dvalue[0] == None && dvalue[1] == None
      invariant forall i :: 2 <= i < |dvalue| ==> dvalue[i] == Some((kvalue[i - 2] + kvalue[i - 1] + kvalue[i]) / 3.0)
    {
      var window := kvalue[x..x + DPeriods];
      assert window == [kvalue[x], kvalue[x + 1], kvalue[x + 2]];
      assert Sum(window) == kvalue[x] + kvalue[x + 1] + kvalue[x + 2] by {
        assert window[..2] == [kvalue[x], kvalue[x + 1]];
        assert window[..2][..1] == [kvalue[x]];
        assert window[..2][..1][..0] == [];
        assert Sum([kvalue[x]]) == kvalue[x];
        assert Sum([kvalue[x], kvalue[x + 1]]) == kvalue[x] + kvalue[x + 1];
      }
      dvalue := dvalue + [Some(Sum(window) / DPeriods as real)];
      x := x + 1;
    }
  }

  /** The shape `DValues` produces: placeholders at 0 and 1, values after. */
  predicate IsDSeries(kvalue: seq<real>, dvalue: seq<Option<real>>) {
    && |dvalue| == (if |kvalue| >= 2 then |kvalue| else 2)
    && dvalue[0].None? && dvalue[1].None?
    && forall i :: 2 <= i < |dvalue| ==> dvalue[i].Some?
  }

  /** J as the code builds it: placeholders at 0 and 1, then `3 * D - 2 * K`
      at each later index. */
  predicate IsJOf(kvalue: seq<real>, dvalue: seq<Option<real>>, jvalue: seq<Option<real>>)
    requires IsDSeries(kvalue, dvalue)
  {
    && |jvalue| == |dvalue|
    && jvalue[0] == None && jvalue[1] == None
    && forall i :: 2 <= i < |jvalue| ==> jvalue[i] == Some(3.0 * dvalue[i].value - 2.0 * kvalue[i])
  }

  lemma DSeriesShape(kvalue: seq<real>, dvalue: seq<Option<real>>)
    requires IsDOf(kvalue, dvalue)
    ensures IsDSeries(kvalue, dvalue)
  {
    forall i | 2 <= i < |dvalue| ensures dvalue[i].Some? {
      assert dvalue[i] == Some((kvalue[i - 2] + kvalue[i - 1] + kvalue[i]) / 3.0);
    }
  }

  /** The J loop. It computes `3 * D - 2 * K`, the reverse of the
      `3 * K - 2 * D` its comment names; its guard always holds. */
  method JValues(kvalue: seq<real>, dvalue: seq<Option<real>>) returns (jvalue: seq<Option<real>>)
    requires IsDSeries(kvalue, dvalue)
    ensures IsJOf(kvalue, dvalue, jvalue)
  {
    jvalue := [None, None];
    var x := 0;
    while x < |dvalue| - DPeriods + 1
      invariant 0 <= x <= |dvalue| - 2
      invariant |jvalue| == x + 2
      invariant jvalue[0] == None && jvalue[1] == None
      invariant forall i :: 2 <= i < |jvalue| ==> jvalue[i] == Some(3.0 * dvalue[i].value - 2.0 * kvalue[i])
    {
      if dvalue[x + 2].Some? && x + 2 < |kvalue| {
        jvalue := jvalue + [Some(dvalue[x + 2].value * 3.0 - kvalue[x + 2] * 2.0)];
      }
      x := x + 1;
    }
  }

  /** What `calculate_kdj` returns when it does not return `None`. */
  datatype Kdj = Kdj(
    kValues: seq<real>,
    dValues: seq<Option<real>>,
    jValues: seq<Option<real>>,
    latestK: real,
    latestD: real,
    latestJ: real,
    signal: string)

  /** A KDJ result of the prices: the three series as the loops build them,
      one entry per bar from `kperiods` on, the latest value of each, and
      the signal derived from those latest values. */
  predicate IsKdjOf(highs: seq<real>, lows: seq<real>, closes: seq<real>, kperiods: nat, kdj: Kdj)
    requires 0 < kperiods <= |highs| && |lows| == |highs| && |closes| == |highs|
  {
    var m := |highs| - kperiods;
    && IsKOf(highs, lows, closes, kperiods, kdj.kValues)
    && IsDOf(kdj.kValues, kdj.dValues)
    && IsDSeries(kdj.kValues, kdj.dValues)
    && IsJOf(kdj.kValues, kdj.dValues, kdj.jValues)
    && m >= 2 && |kdj.kValues| == m && |kdj.dValues| == m && |kdj.jValues| == m
    && kdj.latestK == kdj.kValues[m - 1]
    && kdj.dValues[m - 1] == Some(kdj.latestD)
    && kdj.jValues[m - 1] == Some(kdj.latestJ)
    && kdj.signal == Signal(kdj.latestK, kdj.latestD, kdj.latestJ)
  }

  /** The three loops of `calculate_kdj` one after the other. */
  method KdjSeries(highs: seq<real>, lows: seq<real>, closes: seq<real>, kperiods: nat)
    returns (kvalue: seq<real>, dvalue: seq<Option<real>>, jvalue: seq<Option<real>>)
    requires 0 < kperiods <= |highs| && |lows| == |highs| && |closes| == |highs|
    ensures IsKOf(highs, lows, closes, kperiods, kvalue)
    ensures IsDOf(kvalue, dvalue) && IsDSeries(kvalue, dvalue)
    ensures IsJOf(kvalue, dvalue, jvalue)
  {
    var highest, lowest := RollingExtremes(highs, lows, kperiods);
    kvalue := KValues(closes, highest, lowest, kperiods);
    dvalue := DValues(kvalue);
    DSeriesShape(kvalue, dvalue);
    jvalue := JValues(kvalue, dvalue);
  }

  /** `calculate_kdj(highs, lows, closes, kperiods, 3)`. The result is `None`
      with fewer than `kperiods` bars, with a zero period (the empty window
      makes `max` raise), and whenever one of the latest K, D, J is missing:
      the log line formats them with `:.2f`, which raises on `None`, and the
      handler turns that into `None`. So a result needs `kperiods + 3` bars. */
  method CalculateKdj(highs: seq<real>, lows: seq<real>, closes: seq<real>, kperiods: nat) returns (r: Option<Kdj>)
    requires |lows| == |highs| && |closes| == |highs|
    ensures r.Some? <==> 0 < kperiods && kperiods + 3 <= |highs|
    ensures r.Some? ==> 0 < kperiods <= |highs| && IsKdjOf(highs, lows, closes, kperiods, r.value)
  {
    if |highs| < kperiods {
      return None;
    }
    if kperiods == 0 {
      // Every window is empty: `max` raises, or there is no K at all.
      return None;
    }
    var kvalue, dvalue, jvalue := KdjSeries(highs, lows, closes, kperiods);
    var latestK := if |kvalue| > 0 then Some(kvalue[|kvalue| - 1]) else None;
    var latestD := dvalue[|dvalue| - 1];
    var latestJ := jvalue[|jvalue| - 1];
    if latestK.None? || latestD.None? || latestJ.None? {
      return None;
    }
    var signal := AnalyzeSignal(latestK, latestD, latestJ);
    r := Some(Kdj(kvalue, dvalue, jvalue, latestK.value, latestD.value, latestJ.value, signal.value));
  }

  const InsufficientData := "数据不足"
  const Neutral := "中立"
  const StrongRise := "强势上升信号"
  const WeakRise := "弱势上升信号"
  const StrongFall := "强势下跌信号"
  const WeakFall := "弱势下跌信号"
  const JAboveLimit := "J值超过上限(100)，可能过热"
  const JBelowLimit := "J值超过下限(0)，可能过冷"
  const Overbought := "超买区域"
  const Oversold := "超卖区域"

  /** The trend branch of `analyze_kdj_signal`. Its four conditions exclude
      each other, so each label fires exactly when its own condition holds,
      whatever the order of the `elif` chain. */
  function TrendLabel(k: real, d: real): (t: Option<string>)
    ensures t == Some(StrongRise) <==> k > d && k > 50.0 && d > 50.0
    ensures t == Some(WeakRise) <==> k > d && k < 50.0
    ensures t == Some(StrongFall) <==> k < d && k < 50.0 && d < 50.0
    ensures t == Some(WeakFall) <==> k < d && k > 50.0
    ensures t.Some? ==> t.value in {StrongRise, WeakRise, StrongFall, WeakFall}
    ensures k == d ==> t.None?
  {
    if k > d && k > 50.0 && d > 50.0 then Some(StrongRise)
    else if k > d && k < 50.0 then Some(WeakRise)
    else if k < d && k < 50.0 && d < 50.0 then Some(StrongFall)
    else if k < d && k > 50.0 then Some(WeakFall)
    else None
  }

  /** The J branch: above 100 or below 0, never both. */
  function JLabel(j: real): (t: Option<string>)
    ensures t == Some(JAboveLimit) <==> j > 100.0
    ensures t == Some(JBelowLimit) <==> j < 0.0
    ensures t.Some? ==> t.value in {JAboveLimit, JBelowLimit}
  {
    if j > 100.0 then Some(JAboveLimit)
    else if j < 0.0 then Some(JBelowLimit)
    else None
  }

  /** The zone branch: both lines above 80, or both below 20. */
  function ZoneLabel(k: real, d: real): (t: Option<string>)
    ensures t == Some(Overbought) <==> k > 80.0 && d > 80.0
    ensures t == Some(Oversold) <==> k < 20.0 && d < 20.0
    ensures t.Some? ==> t.value in {Overbought, Oversold}
  {
    if k > 80.0 && d > 80.0 then Some(Overbought)
    else if k < 20.0 && d < 20.0 then Some(Oversold)
    else None
  }

  function AsSeq(o: Option<string>): seq<string> {
    if o.Some? then [o.value] else []
  }

  /** The labels that fire, in the order trend, J, zone. */
  function Labels(k: real, d: real, j: real): (ls: seq<string>)
    ensures |ls| == (if TrendLabel(k, d).Some? then 1 else 0) + (if JLabel(j).Some? then 1 else 0)
                    + (if ZoneLabel(k, d).Some? then 1 else 0)
    ensures |ls| <= 3
    ensures TrendLabel(k, d).Some? ==> ls[0] == TrendLabel(k, d).value
    ensures JLabel(j).Some? ==> ls[if TrendLabel(k, d).Some? then 1 else 0] == JLabel(j).value
    ensures ZoneLabel(k, d).Some? ==> ls[|ls| - 1] == ZoneLabel(k, d).value
  {
    AsSeq(TrendLabel(k, d)) + AsSeq(JLabel(j)) + AsSeq(ZoneLabel(k, d))
  }

  /** Each trend label appears in the signal list exactly when its own
      condition holds. */
  lemma TrendLabelsFire(k: real, d: real, j: real)
    ensures StrongRise in Labels(k, d, j) <==> k > d && k > 50.0 && d > 50.0
    ensures WeakRise in Labels(k, d, j) <==> k > d && k < 50.0
    ensures StrongFall in Labels(k, d, j) <==> k < d && k < 50.0 && d < 50.0
    ensures WeakFall in Labels(k, d, j) <==> k < d && k > 50.0
  {
    assert JLabel(j).Some? ==> JLabel(j).value[0] == 'J';
    assert ZoneLabel(k, d).Some? ==> ZoneLabel(k, d).value[0] == '超';
  }

  /** Each J label appears in the signal list exactly when its own condition holds. */
  lemma JLabelsFire(k: real, d: real, j: real)
    ensures JAboveLimit in Labels(k, d, j) <==> j > 100.0
    ensures JBelowLimit in Labels(k, d, j) <==> j < 0.0
  {
    assert TrendLabel(k, d).Some? ==> TrendLabel(k, d).value[0] in {'强', '弱'};
    assert ZoneLabel(k, d).Some? ==> ZoneLabel(k, d).value[0] == '超';
  }

  /** Each zone label appears in the signal list exactly when its own condition holds. */
  lemma ZoneLabelsFire(k: real, d: real, j: real)
    ensures Overbought in Labels(k, d, j) <==> k > 80.0 && d > 80.0
    ensures Oversold in Labels(k, d, j) <==> k < 20.0 && d < 20.0
  {
    assert TrendLabel(k, d).Some? ==> TrendLabel(k, d).value[0] in {'强', '弱'};
    assert JLabel(j).Some? ==> JLabel(j).value[0] == 'J';
  }

  /** Every label starts with a character that neither `数据不足` nor `中立` starts with. */
  lemma LabelsAreNotFallbacks(k: real, d: real, j: real)
    ensures forall i :: 0 <= i < |Labels(k, d, j)| ==>
      |Labels(k, d, j)[i]| > 0 && Labels(k, d, j)[i][0] in {'强', '弱', 'J', '超'}
  {
  }

  /** The signal text for present K, D and J: the fired labels joined by
      `" | "`, or `中立` when none fired. */
  function Signal(k: real, d: real, j: real): (r: string)
    ensures r == Neutral <==> Labels(k, d, j) == []
    ensures r != InsufficientData
    ensures |Labels(k, d, j)| == 1 ==> r == Labels(k, d, j)[0]
    ensures |Labels(k, d, j)| == 2 ==> r == Labels(k, d, j)[0] + " | " + Labels(k, d, j)[1]
    ensures |Labels(k, d, j)| == 3 ==>
      r == Labels(k, d, j)[0] + " | " + Labels(k, d, j)[1] + " | " + Labels(k, d, j)[2]
    ensures |Labels(k, d, j)| > 0 ==> var first := Labels(k, d, j)[0]; |first| <= |r| && r[..|first|] == first
  {
    var ls := Labels(k, d, j);
    LabelsAreNotFallbacks(k, d, j);
    if |ls| == 0 then Neutral
    else
      var r := Join(ls, " | ");
      assert r[0] == ls[0][0];
      assert |ls| >= 2 ==> Join(ls, " | ") == ls[0] + " | " + Join(ls[1..], " | ");
      assert |ls| == 3 ==> Join(ls[1..], " | ") == ls[1] + " | " + ls[2];
      r
  }

  /** `analyze_kdj_signal(k, d, j)`. `None` for the result means the call
      raises: with K and D present, comparing a missing J with 100 is a
      `TypeError`. */
  function AnalyzeSignal(k: Option<real>, d: Option<real>, j: Option<real>): (r: Option<string>)
    ensures r == Some(InsufficientData) <==> k.None? || d.None?
    ensures r.None? <==> k.Some? && d.Some? && j.None?
    ensures k.Some? && d.Some? && j.Some? ==> r == Some(Signal(k.value, d.value, j.value))
  {
    if k.None? || d.None? then Some(InsufficientData)
    else if j.None? then None
    else Some(Signal(k.value, d.value, j.value))
  }
}
