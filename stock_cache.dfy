/**
  The per-ticker cache of market data kept by the authentication provider:
  two module-level dictionaries, one holding the data fetched for a ticker and
  one holding when it was fetched, a ten-minute validity window, fill on miss
  and clear on sign-out. The clock (`Date.now()`) is passed in, and the three
  HTTP requests are given as the outcomes they will have.
 */
module StockCache {
  import opened JsValues

  /** How long a cached entry is served, in milliseconds (ten minutes). */
  const CacheDurationMs: int := 600000

  /** A price payload: only its closing price is read by the client. */
  datatype Quote = Quote(close: Option<real>)

  /** A sentiment payload: the overall and the ticker-specific score. */
  datatype SentimentScores = SentimentScores(overallSentimentScore: Option<real>, tickerSentimentScore: Option<real>)

  /** What is cached for a ticker: the three response bodies (each may be absent). */
  datatype StockData = StockData(price: Option<Quote>, sentiment: Option<SentimentScores>, intraday: Option<Quote>)

  /** The cache lifetime is ten minutes, not five. */
  lemma CacheDurationIsTenMinutes()
    ensures CacheDurationMs == 10 * 60 * 1000
  {
  }

  class StockDataCache {
    /** `stockDataCache`: the data last fetched per ticker. */
    var entries: map<string, StockData>
    /** `cacheTimestamps`: when each entry was stored, in epoch milliseconds. */
    var timestamps: map<string, int>

    /** Both dictionaries are written and deleted together, so they have the same keys. */
    ghost predicate Valid()
      reads this
    {
      entries.Keys == timestamps.Keys
    }

    /** Both dictionaries start empty when the module is loaded. */
    constructor ()
      ensures Valid()
      ensures entries == map[] && timestamps == map[]
    {
      entries := map[];
      timestamps := map[];
    }

    /**
      `isCacheValid(ticker)` at time `now`: a missing timestamp (or a zero one,
      which is falsy) is never valid; otherwise the entry is valid strictly
      before `timestamp + 600000`, so it is stale at exactly ten minutes.
     */
    function IsCacheValid(ticker: string, now: int): (valid: bool)
      reads this
      ensures ticker !in timestamps || timestamps[ticker] == 0 ==> !valid
      ensures ticker in timestamps && timestamps[ticker] != 0 ==>
        (valid <==> now < timestamps[ticker] + CacheDurationMs)
    {
      if ticker !in timestamps || timestamps[ticker] == 0 then false
      else now - timestamps[ticker] < CacheDurationMs
    }

    /** A request for `ticker` at `now` is answered from the cache. */
    predicate Hit(ticker: string, now: int)
      reads this
    {
      ticker in entries && IsCacheValid(ticker, now)
    }

    /**
      `fetchStockData(ticker)`: a hit returns the stored data without any
      request and changes nothing. A miss posts the price, sentiment and
      intraday requests one after another; if one fails, its error is rethrown
      before the cache is written, so neither dictionary changes and the later
      requests are never sent. When all three succeed, the three bodies are
      stored under `ticker` with the time `completedAt` at which the last
      response arrived; every other ticker is left as it was.
     */
    method FetchStockData(ticker: string, now: int, completedAt: int,
                          price: Result<Option<Quote>, string>,
                          sentiment: Result<Option<SentimentScores>, string>,
                          intraday: Result<Option<Quote>, string>)
      returns (r: Result<StockData, string>, requests: nat)
      modifies this
      ensures old(Valid()) ==> Valid()
      ensures old(Hit(ticker, now)) ==>
        && r == Success(old(entries[ticker])) && requests == 0
        && entries == old(entries) && timestamps == old(timestamps)
      ensures !old(Hit(ticker, now)) && price.Success? && sentiment.Success? && intraday.Success? ==>
        && r == Success(StockData(price.value, sentiment.value, intraday.value)) && requests == 3
        && entries == old(entries)[ticker := r.value]
        && timestamps == old(timestamps)[ticker := completedAt]
      ensures !old(Hit(ticker, now)) && price.Failure? ==>
        r == Failure(price.error) && requests == 1
      ensures !old(Hit(ticker, now)) && price.Success? && sentiment.Failure? ==>
        r == Failure(sentiment.error) && requests == 2
      ensures !old(Hit(ticker, now)) && price.Success? && sentiment.Success? && intraday.Failure? ==>
        r == Failure(intraday.error) && requests == 3
      ensures r.Failure? ==> entries == old(entries) && timestamps == old(timestamps)
    {
      if ticker in entries && IsCacheValid(ticker, now) {
        return Success(entries[ticker]), 0;
      }
      requests := 1;
      if price.Failure? {
        return Failure(price.error), requests;
      }
      requests := 2;
      if sentiment.Failure? {
        return Failure(sentiment.error), requests;
      }
      requests := 3;
      if intraday.Failure? {
        return Failure(intraday.error), requests;
      }
      var data := StockData(price.value, sentiment.value, intraday.value);
      entries := entries[ticker := data];
      timestamps := timestamps[ticker := completedAt];
      r := Success(data);
    }

    /**
      `clearCache()`: for every key of the data dictionary, delete it from both
      dictionaries. The data dictionary ends empty; a timestamp whose key had
      no data entry would survive, which cannot happen while `Valid()` holds.
     */
    method ClearCache()
      modifies this
      ensures entries == map[]
      ensures timestamps == old(timestamps) - old(entries.Keys)
      ensures old(Valid()) ==> Valid() && timestamps == map[]
    {
      var data, times := entries, timestamps;
      var keys := data.Keys;
      ghost var removed: set<string> := {};
      while keys != {}
        invariant forall k :: k in data <==> k in keys
        invariant keys + removed == entries.Keys && keys !! removed
        invariant forall k :: k in times <==> k in timestamps && k !in removed
        invariant forall k :: k in times ==> times[k] == timestamps[k]
        decreases |keys|
      {
        var key :| key in keys;
        data := data - {key};
        times := times - {key};
        keys := keys - {key};
        removed := removed + {key};
      }
      assert times.Keys == (timestamps - removed).Keys;
      entries, timestamps := data, times;
    }

    /**
      The authentication listener: when the user becomes signed out (`user` is
      `None`) the cache is cleared; a signed-in user leaves it untouched.
     */
    method OnAuthStateChanged(user: Option<string>)
      modifies this
      ensures user.None? ==> entries == map[]
      ensures user.None? && old(Valid()) ==> timestamps == map[]
      ensures user.Some? ==> entries == old(entries) && timestamps == old(timestamps)
      ensures old(Valid()) ==> Valid()
    {
      if user.None? {
        ClearCache();
      }
    }
  }

  /**
    Validity only ever runs out: an entry valid at `later` was valid at every
    earlier time since it was stored, and one stale at `earlier` stays stale.
   */
  lemma ExpiryIsMonotone(cache: StockDataCache, ticker: string, earlier: int, later: int)
    requires ticker in cache.timestamps && cache.timestamps[ticker] <= earlier <= later
    ensures cache.IsCacheValid(ticker, later) ==> cache.IsCacheValid(ticker, earlier)
  {
  }

  /** An entry stored at `t` (non-zero) is valid for the whole window and stale from `t + 600000` on. */
  lemma ValidityWindow(cache: StockDataCache, ticker: string, now: int)
    requires ticker in cache.timestamps && cache.timestamps[ticker] != 0
    ensures cache.IsCacheValid(ticker, now) <==> now < cache.timestamps[ticker] + CacheDurationMs
    ensures !cache.IsCacheValid(ticker, cache.timestamps[ticker] + CacheDurationMs)
  {
  }
}
