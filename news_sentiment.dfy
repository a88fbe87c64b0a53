/**
  The news-sentiment panel: how fresh an article is, the ten-article limit
  per ticker, and the load sequence (portfolio first, then the news for its
  tickers) with its two error messages. The elapsed time since publication is
  passed in instead of being read from the clock.
 */
module NewsSentiment {
  import opened JsValues
  import opened JsArrays

  const OneHourMs: int := 60 * 60 * 1000
  const OneDayMs: int := 24 * OneHourMs
  const OneWeekMs: int := 7 * OneDayMs

  /** The largest number of articles kept for one ticker. */
  const ArticlesPerTicker: nat := 10

  const NoStocksMessage := "No stocks found in the portfolio."
  const FetchFailedMessage := "Failed to fetch news sentiment data."

  /** The four freshness categories, from freshest to stalest. */
  datatype Freshness = Breaking | Fresh | SomewhatFresh | Stale
  {
    /** The category text shown on the article. */
    function Category(): string
    {
      match this
      case Breaking => "Breaking News! (last hour)"
      case Fresh => "Fresh (within 24h)"
      case SomewhatFresh => "Somewhat Fresh (within 7 days)"
      case Stale => "Stale (more than 7 days)"
    }

    /** The text colour of the category. */
    function Colour(): string
    {
      match this
      case Breaking => "text-green-600"
      case Fresh => "text-yellow-600"
      case SomewhatFresh => "text-blue-600"
      case Stale => "text-gray-500"
    }

    /** 0 for the freshest category up to 3 for the stalest. */
    function Age(): (k: nat)
      ensures k <= 3
    {
      match this
      case Breaking => 0
      case Fresh => 1
      case SomewhatFresh => 2
      case Stale => 3
    }
  }

  /**
    `getFreshnessCategory`, on the milliseconds elapsed since publication:
    each bound is inclusive, so an article exactly one hour old is still
    breaking news, and an article dated in the future is breaking news too.
   */
  function GetFreshnessCategory(elapsedMs: int): (f: Freshness)
    ensures f == Breaking <==> elapsedMs <= 3600000
    ensures f == Fresh <==> 3600000 < elapsedMs <= 86400000
    ensures f == SomewhatFresh <==> 86400000 < elapsedMs <= 604800000
    ensures f == Stale <==> 604800000 < elapsedMs
  {
    if elapsedMs <= OneHourMs then Breaking
    else if elapsedMs <= OneDayMs then Fresh
    else if elapsedMs <= OneWeekMs then SomewhatFresh
    else Stale
  }

  /** An older article is never in a fresher category. */
  lemma FreshnessIsMonotone(a: int, b: int)
    requires a <= b
    ensures GetFreshnessCategory(a).Age() <= GetFreshnessCategory(b).Age()
  {
  }

  /** Every category can be reached, and the labels and colours of different categories differ. */
  lemma CategoriesAreDistinct(f: Freshness, g: Freshness)
    ensures f != g ==> f.Category() != g.Category() && f.Colour() != g.Colour()
    ensures GetFreshnessCategory(0) == Breaking && GetFreshnessCategory(OneHourMs + 1) == Fresh
    ensures GetFreshnessCategory(OneDayMs + 1) == SomewhatFresh && GetFreshnessCategory(OneWeekMs + 1) == Stale
  {
  }

  /**
    The loop that builds `limitedNewsByTicker`: for every key of the response,
    store `slice(0, 10)` of its articles. The result has exactly the
    response's keys, and each list is the first `min(length, 10)` articles in
    their original order.
   */
  method LimitNewsByTicker<A>(raw: map<string, seq<A>>) returns (limited: map<string, seq<A>>)
    ensures limited.Keys == raw.Keys
    ensures forall t :: t in raw ==> limited[t] == raw[t][..Min(|raw[t]|, ArticlesPerTicker)]
    ensures forall t :: t in raw ==> |limited[t]| <= ArticlesPerTicker
  {
    limited := map[];
    var pending := raw.Keys;
    while pending != {}
      invariant pending <= raw.Keys
      invariant limited.Keys == raw.Keys - pending
      invariant forall t :: t in limited ==> limited[t] == raw[t][..Min(|raw[t]|, ArticlesPerTicker)]
      decreases |pending|
    {
      var ticker :| ticker in pending;
      SlicePrefix(raw[ticker], ArticlesPerTicker);
      limited := limited[ticker := Slice(raw[ticker], 0, ArticlesPerTicker)];
      pending := pending - {ticker};
    }
  }

  /** The panel's state once a load has finished. */
  datatype NewsState<A> = NewsState(newsByTicker: map<string, seq<A>>, error: Option<string>, loading: bool)

  /** The one field of a portfolio entry the panel reads. */
  datatype PortfolioStock = PortfolioStock(ticker: string)

  /**
    `fetchPortfolioAndNews`, run from the panel's `prior` state: read the
    portfolio; with no stocks, set "No stocks found in the portfolio." and
    send no news request; otherwise post the tickers, in portfolio order, for
    their news and keep at most ten articles per ticker. Either request
    failing sets "Failed to fetch news sentiment data.". The news map is only
    written on success and the error only on failure, so each keeps its prior
    value otherwise. Loading is over in every case. `news` answers the post
    for a list of tickers; `newsRequested` says whether it was sent.
   */
  method FetchPortfolioAndNews<A>(prior: NewsState<A>,
                                  portfolio: Result<seq<PortfolioStock>, string>,
                                  news: seq<string> -> Result<map<string, seq<A>>, string>)
    returns (state: NewsState<A>, newsRequested: bool)
    ensures !state.loading
    ensures portfolio.Failure? ==>
      !newsRequested && state == NewsState(prior.newsByTicker, Some(FetchFailedMessage), false)
    ensures portfolio.Success? && |portfolio.value| == 0 ==>
      !newsRequested && state == NewsState(prior.newsByTicker, Some(NoStocksMessage), false)
    ensures newsRequested <==> portfolio.Success? && |portfolio.value| > 0
    ensures newsRequested ==>
      var tickers := seq(|portfolio.value|, i requires 0 <= i < |portfolio.value| => portfolio.value[i].ticker);
      match news(tickers)
      case Failure(_) => state == NewsState(prior.newsByTicker, Some(FetchFailedMessage), false)
      case Success(raw) =>
        && state.error == prior.error
        && state.newsByTicker.Keys == raw.Keys
        && forall t :: t in raw ==> state.newsByTicker[t] == raw[t][..Min(|raw[t]|, ArticlesPerTicker)]
  {
    if portfolio.Failure? {
      return NewsState(prior.newsByTicker, Some(FetchFailedMessage), false), false;
    }
    var stocks := portfolio.value;
    var tickers := seq(|stocks|, i requires 0 <= i < |stocks| => stocks[i].ticker);
    if |tickers| == 0 {
      return NewsState(prior.newsByTicker, Some(NoStocksMessage), false), false;
    }
    newsRequested := true;
    var response := news(tickers);
    if response.Failure? {
      return NewsState(prior.newsByTicker, Some(FetchFailedMessage), false), newsRequested;
    }
    var limited := LimitNewsByTicker(response.value);
    state := NewsState(limited, prior.error, false);
  }

  /** The state the panel mounts with: no news, no error, loading. */
  function InitialNewsState<A>(): NewsState<A>
  {
    NewsState(map[], None, true)
  }

  /** What the panel renders. */
  datatype View = LoadingView | ErrorView(message: string) | NoNewsView | TickerButtons(tickers: set<string>)

  /** The panel shows its loading message from the moment it mounts. */
  lemma MountShowsLoading<A>()
    ensures Render(InitialNewsState<A>()) == LoadingView
  {
  }

  /**
    The render guards in order: loading, then an error, then an empty news
    map ("No news available for the selected tickers."), else one button per
    ticker of the news map.
   */
  function Render<A>(state: NewsState<A>): (v: View)
    ensures state.loading ==> v == LoadingView
    ensures !state.loading && state.error.Some? && state.error.value != "" ==> v == ErrorView(state.error.value)
    ensures v.TickerButtons? ==> v.tickers == state.newsByTicker.Keys && |v.tickers| > 0
    ensures v == NoNewsView <==> !state.loading && (state.error.None? || state.error.value == "") && state.newsByTicker == map[]
    ensures !state.loading && (state.error.None? || state.error.value == "") && state.newsByTicker != map[] ==>
      v == TickerButtons(state.newsByTicker.Keys)
  {
    if state.loading then LoadingView
    else if state.error.Some? && state.error.value != "" then ErrorView(state.error.value)
    else if |state.newsByTicker.Keys| == 0 then NoNewsView
    else TickerButtons(state.newsByTicker.Keys)
  }
}
