/** What every bar series must satisfy before research begins
    (apps/api/app/backtest/data_contract.py). */
module DataContract {
  import opened Decimals
  import opened Outcomes

  datatype Bar = Bar(open: real, high: real, low: real, close: real, volume: real)

  /** Low and high bracket the other prices, all of them positive. */
  ghost predicate SoundBar(b: Bar) {
    && 0.0 < b.low <= b.open <= b.high && b.low <= b.close <= b.high && b.volume >= 0.0
  }

  /** A time without a zone is None. */
  ghost predicate SoundSeries(bars: seq<Bar>, times: seq<Option<int>>) {
    && |bars| == |times|
    && (forall t <- times :: t.Some?)
    && (forall i, j :: 0 <= i < j < |times| ==> times[i].value < times[j].value)
    && (forall b <- bars :: SoundBar(b))
  }

  /** One pass, stopping at the first bad bar. */
  method ValidateBarSeries(bars: seq<Bar>, times: seq<Option<int>>) returns (refusal: Option<string>)
    ensures refusal.None? <==> SoundSeries(bars, times)
  {
    if |bars| != |times| {
      return Some("length");
    }
    var previous: Option<int> := None;
    for index := 0 to |bars|
      invariant SoundSeries(bars[..index], times[..index])
      invariant previous == if index == 0 then None else times[index - 1]
    {
      var b := bars[index];
      assert b in bars && times[index] in times;
      if times[index].None? {
        return Some("timezone");
      }
      if previous.Some? && times[index].value <= previous.value {
        return Some("increasing");
      }
      previous := times[index];
      if Min(Min(b.open, b.high), Min(b.low, b.close)) <= 0.0 {
        return Some("positive");
      }
      if b.volume < 0.0 {
        return Some("volume");
      }
      if b.high < Max(b.open, Max(b.low, b.close)) {
        return Some("high");
      }
      if b.low > Min(b.open, Min(b.high, b.close)) {
        return Some("low");
      }
    }
    assert bars[..|bars|] == bars && times[..|bars|] == times;
    refusal := None;
  }
}
