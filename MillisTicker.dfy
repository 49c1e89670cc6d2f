/** The ticker decorator that reads a nanosecond clock and reports milliseconds. */
module MillisTicker {
  import opened Wrappers
  import opened Decimal
  import opened Durations

  /** The decorated ticker, reduced to the nanosecond value it reads. */
  datatype Ticker = Ticker(nanos: Int64)

  datatype MillisecondsTicker = MillisecondsTicker(ticker: Ticker)

  /** The constructor: a null ticker is rejected (checkNotNull). */
  function NewTicker(ticker: Option<Ticker>): (r: Option<MillisecondsTicker>)
    ensures r.Some? <==> ticker.Some?
    ensures r.Some? ==> r.value.ticker == ticker.value
  {
    if ticker.None? then None else Some(MillisecondsTicker(ticker.value))
  }

  /** read(): passes the decorated ticker's reading through unchanged. */
  function Read(t: MillisecondsTicker): (r: Int64)
    ensures r == t.ticker.nanos
  {
    t.ticker.nanos
  }

  /** readMillis(): the reading in whole milliseconds, truncated toward zero. */
  function ReadMillis(t: MillisecondsTicker): (r: Int64)
    ensures Read(t) >= 0 ==> 0 <= r && r * 1_000_000 <= Read(t) < r * 1_000_000 + 1_000_000
    ensures Read(t) < 0 ==> r <= 0 && Read(t) <= r * 1_000_000 < Read(t) + 1_000_000
  {
    Convert(Read(t), NANOSECONDS, MILLISECONDS)
  }

  /** A later reading never reports fewer milliseconds. */
  lemma ReadMillisMonotone(a: MillisecondsTicker, b: MillisecondsTicker)
    requires Read(a) <= Read(b)
    ensures ReadMillis(a) <= ReadMillis(b)
  {
    ConvertMonotone(Read(a), Read(b), NANOSECONDS, MILLISECONDS);
  }

  /** Milliseconds read back as nanoseconds round-trip exactly. */
  lemma ReadMillisOfWholeMillis(ms: Int64)
    requires -9_223_372_036_854 <= ms <= 9_223_372_036_854
    ensures ms * 1_000_000 == Convert(ms, MILLISECONDS, NANOSECONDS)
    ensures ReadMillis(MillisecondsTicker(Ticker(ms * 1_000_000))) == ms
  {
    ConvertRoundTrip(ms, MILLISECONDS, NANOSECONDS);
  }
}
