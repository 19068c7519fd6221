/** Trend classification of a price forecast (stock_trend_model.py). The
    Prophet forecast is supplied by the caller as its `yhat` column. */
module StockTrend {
  import opened Outcomes

  /** The three messages `analyze_trend` returns; they are stored verbatim. */
  const Upward := "\n\U{1F4C8} The stock trend is UPWARD."
  const Downward := "\n\U{1F4C9} The stock trend is DOWNWARD."
  const Stable := "\n\U{2796} The stock trend is STABLE."

  /** Number of trailing forecast points the slope looks at. */
  const Window := 10

  /** `tail(10)`: the last ten values, or all of them when there are fewer. */
  function Tail(yhat: seq<real>): (t: seq<real>)
    ensures |t| == if |yhat| < Window then |yhat| else Window
    ensures forall i :: 0 <= i < |t| ==> t[i] == yhat[|yhat| - |t| + i]
  {
    if |yhat| <= Window then yhat else yhat[|yhat| - Window..]
  }

  /** Index in the whole forecast of the first value of the tail. */
  function TailStart(yhat: seq<real>): nat
  {
    if |yhat| <= Window then 0 else |yhat| - Window
  }

  /** The message for a tail that runs from `first` to `last`, by the sign of
      the difference alone. */
  function Direction(first: real, last: real): (m: string)
    ensures m in {Upward, Downward, Stable}
  {
    if last > first then Upward else if last < first then Downward else Stable
  }

  /** `analyze_trend`: the sign of `(last - first) / 10` over the tail picks
      the message, with exact comparison against zero. An empty forecast has
      no last element (`iloc[-1]` raises). */
  function AnalyzeTrend(yhat: seq<real>): (r: Result<string>)
    ensures r.Err? <==> |yhat| == 0
    ensures r.Err? ==> r.error == IndexOutOfRange
    ensures r.Ok? ==> r.value == Direction(yhat[TailStart(yhat)], yhat[|yhat| - 1])
    ensures r.Ok? ==> (r.value == Upward <==> yhat[|yhat| - 1] > yhat[TailStart(yhat)])
    ensures r.Ok? ==> (r.value == Downward <==> yhat[|yhat| - 1] < yhat[TailStart(yhat)])
    ensures r.Ok? ==> (r.value == Stable <==> yhat[|yhat| - 1] == yhat[TailStart(yhat)])
  {
    var last10 := Tail(yhat);
    if |last10| == 0 then Err(IndexOutOfRange)
    else
      var trendSlope := (last10[|last10| - 1] - last10[0]) / 10.0;
      if trendSlope > 0.0 then Ok(Upward)
      else if trendSlope < 0.0 then Ok(Downward)
      else Ok(Stable)
  }

  /** The three messages are different, so the biconditionals above pick
      exactly one. */
  lemma MessagesDistinct()
    ensures Upward != Downward && Upward != Stable && Downward != Stable
  {
    assert Upward[1] != Downward[1];
    assert Upward[1] != Stable[1];
    assert Downward[1] != Stable[1];
  }

  /** Only the two end points of the tail matter: two forecasts of the same
      length whose tails start and end at the same values have the same trend,
      whatever lies in between or before. */
  lemma TrendIgnoresInterior(a: seq<real>, b: seq<real>)
    requires |a| == |b| > 0
    requires a[|a| - 1] == b[|b| - 1] && a[TailStart(a)] == b[TailStart(b)]
    ensures AnalyzeTrend(a) == AnalyzeTrend(b)
  {
  }

  /** Values that precede the last ten points never influence the trend. */
  lemma {:induction false} HistoryIsIgnored(history: seq<real>, recent: seq<real>)
    requires |recent| >= Window
    ensures AnalyzeTrend(history + recent) == AnalyzeTrend(recent)
  {
    var all := history + recent;
    assert TailStart(all) == |history| + TailStart(recent);
    assert all[TailStart(all)] == recent[TailStart(recent)];
    assert all[|all| - 1] == recent[|recent| - 1];
    MessagesDistinct();
  }

  /** A single forecast point has no slope and reads as stable; a shorter
      series is not rejected, its slope is still divided by ten. */
  lemma SinglePointIsStable(x: real)
    ensures AnalyzeTrend([x]) == Ok(Stable)
  {
  }

  /** Ten points from 100 to 120, 80 or 100. */
  lemma TenPointExamples(mid: seq<real>)
    requires |mid| == 8
    ensures AnalyzeTrend([100.0] + mid + [120.0]) == Ok(Upward)
    ensures AnalyzeTrend([100.0] + mid + [80.0]) == Ok(Downward)
    ensures AnalyzeTrend([100.0] + mid + [100.0]) == Ok(Stable)
  {
    var up, down, flat := [100.0] + mid + [120.0], [100.0] + mid + [80.0], [100.0] + mid + [100.0];
    assert up[0] == 100.0 && up[9] == 120.0;
    assert down[0] == 100.0 && down[9] == 80.0;
    assert flat[0] == 100.0 && flat[9] == 100.0;
    MessagesDistinct();
  }
}
