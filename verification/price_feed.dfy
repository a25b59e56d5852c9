/**
  The price tracker: the fixed coin list, the one batched request per cycle, the
  feed state `{prices, loading, error, lastUpdated}` with its fetch transitions,
  and the choice of what is drawn (error view, spinner or grid of cards).

  A fetch is split into a `Start` event (the synchronous part before the first
  `await`) and a `Complete` event (the response or the thrown error, followed by
  the `finally`), so that overlapping fetches started by the timer and by the
  Refresh button can be interleaved.
 */
module PriceFeed {
  import opened Js
  import opened Formatters

  /** A tracked coin: its price API id, ticker and display name. */
  datatype Coin = Coin(id: string, symbol: string, name: string)

  const Coins: seq<Coin> := [
    Coin("bitcoin", "BTC", "Bitcoin"),
    Coin("ethereum", "ETH", "Ethereum"),
    Coin("solana", "SOL", "Solana"),
    Coin("cardano", "ADA", "Cardano"),
    Coin("ripple", "XRP", "XRP"),
    Coin("polkadot", "DOT", "Polkadot"),
    Coin("litecoin", "LTC", "Litecoin"),
    Coin("chainlink", "LINK", "Chainlink"),
    Coin("uniswap", "UNI", "Uniswap"),
    Coin("aave", "AAVE", "Aave"),
    Coin("tether", "USDT", "Tether"),
    Coin("usd-coin", "USDC", "USDC")
  ]

  /** The ids of the coin list, in list order. */
  function CoinIds(): (ids: seq<string>)
    ensures |ids| == |Coins|
    ensures forall i :: 0 <= i < |Coins| ==> ids[i] == Coins[i].id
  {
    seq(|Coins|, i requires 0 <= i < |Coins| => Coins[i].id)
  }

  /**
    The `ids` query parameter of the single request: all ids joined by commas,
    so it starts with the first id and holds every id's characters plus one
    comma between each neighbouring pair.
   */
  function IdsParameter(): (ids: string)
    ensures CoinIds()[0] <= ids
    ensures |ids| == TotalLength(CoinIds()) + |Coins| - 1
  {
    Join(CoinIds(), ',')
  }

  /**
    One request per cycle asks for every coin at once: the `ids` parameter
    splits back into exactly the twelve ids, in list order.
   */
  lemma IdsParameterListsEveryCoin()
    ensures Split(IdsParameter(), ',') == CoinIds()
    ensures |Split(IdsParameter(), ',')| == 12
  {
    CoinIdsHaveNoComma();
    SplitJoin(CoinIds(), ',');
  }

  /** No listed id contains a comma, so the comma-join can be undone. */
  lemma CoinIdsHaveNoComma()
    ensures FreeOf(CoinIds(), ',')
  {
  }

  /** One coin's entry of the API response; every number may be null or missing. */
  datatype Quote = Quote(usd: Option<real>, change24h: Option<real>, marketCap: Option<real>, volume24h: Option<real>)

  /** The parsed response: coin id to quote. */
  type Snapshot = map<string, Quote>

  /** A timestamp (the `new Date()` of a successful fetch). */
  type Time = int

  datatype FeedState = FeedState(prices: Snapshot, loading: bool, error: Option<string>, lastUpdated: Option<Time>)

  /** The state at mount: no prices, loading, no error, never updated. */
  const Initial: FeedState := FeedState(map[], true, None, None)

  /** How one request ended. */
  datatype Outcome =
    | Ok(data: Snapshot)          // `response.ok` and the body parsed
    | NotOk                       // a non-success HTTP status
    | Threw(message: string)      // the fetch or the body parse threw; `""` for no message

  datatype Event = Start | Complete(outcome: Outcome, now: Time)

  const HttpErrorMessage: string := "Failed to fetch prices from CoinGecko API"
  const FallbackMessage: string := "Failed to fetch cryptocurrency prices"

  /** The message `setError` receives in the `catch`: `err.message || fallback`. */
  function ErrorMessage(o: Outcome): (m: string)
    requires !o.Ok?
    ensures m != ""
    ensures o.Threw? && o.message != "" ==> m == o.message
    ensures o.Threw? && o.message == "" ==> m == FallbackMessage
    ensures o.NotOk? ==> m == HttpErrorMessage
  {
    match o
    case NotOk => HttpErrorMessage
    case Threw(msg) => if msg == "" then FallbackMessage else msg
  }

  /** The start of `fetchPrices`: loading is set and any error is cleared; data stays. */
  function StartFetch(s: FeedState): (r: FeedState)
    ensures r.loading && r.error.None?
    ensures r.prices == s.prices && r.lastUpdated == s.lastUpdated
  {
    s.(loading := true, error := None)
  }

  /**
    The end of `fetchPrices`: success replaces the prices wholesale and stamps
    the time; failure records a message and keeps the old data; either way the
    `finally` clears loading.
   */
  function CompleteFetch(s: FeedState, o: Outcome, now: Time): (r: FeedState)
    ensures !r.loading
    ensures o.Ok? ==> r.prices == o.data && r.lastUpdated == Some(now) && r.error == s.error
    ensures !o.Ok? ==> r.prices == s.prices && r.lastUpdated == s.lastUpdated
    ensures !o.Ok? ==> Truthy(r.error)
    ensures !o.Ok? ==> r.error == Some(ErrorMessage(o))
  {
    var settled :=
      match o
      case Ok(data) => s.(prices := data, lastUpdated := Some(now))
      case _ => s.(error := Some(ErrorMessage(o)));
    settled.(loading := false)
  }

  function Step(s: FeedState, e: Event): FeedState {
    match e
    case Start => StartFetch(s)
    case Complete(o, now) => CompleteFetch(s, o, now)
  }

  /** Applies the events in order. */
  function Run(s: FeedState, events: seq<Event>): FeedState
    decreases |events|
  {
    if |events| == 0 then s else Run(Step(s, events[0]), events[1..])
  }

  lemma {:induction false} RunAppend(s: FeedState, events: seq<Event>, e: Event)
    ensures Run(s, events + [e]) == Step(Run(s, events), e)
    decreases |events|
  {
    if |events| > 0 {
      assert (events + [e])[1..] == events[1..] + [e];
      RunAppend(Step(s, events[0]), events[1..], e);
    }
  }

  /**
    The feed invariant: a recorded error is never the empty string, and prices
    are only non-empty once a fetch has succeeded (which stamps `lastUpdated`).
   */
  predicate Valid(s: FeedState) {
    && (s.error.Some? ==> s.error.value != "")
    && (s.lastUpdated.None? ==> s.prices == map[])
  }

  lemma StepPreservesValid(s: FeedState, e: Event)
    requires Valid(s)
    ensures Valid(Step(s, e))
  {
  }

  lemma {:induction false} RunPreservesValid(s: FeedState, events: seq<Event>)
    requires Valid(s)
    ensures Valid(Run(s, events))
    decreases |events|
  {
    if |events| > 0 {
      StepPreservesValid(s, events[0]);
      RunPreservesValid(Step(s, events[0]), events[1..]);
    }
  }

  /** Every state reachable from mount satisfies the invariant. */
  lemma ReachableValid(events: seq<Event>)
    ensures Valid(Run(Initial, events))
  {
    RunPreservesValid(Initial, events);
  }

  /**
    Overlapping fetches are not serialised: whatever else happened, the last
    completion decides `loading` (always false) and, on success, the prices.
   */
  lemma LastCompletionWins(s: FeedState, events: seq<Event>, o: Outcome, now: Time)
    ensures !Run(s, events + [Complete(o, now)]).loading
    ensures o.Ok? ==> Run(s, events + [Complete(o, now)]).prices == o.data
    ensures !o.Ok? ==> Run(s, events + [Complete(o, now)]).prices == Run(s, events).prices
  {
    RunAppend(s, events, Complete(o, now));
  }

  /** A failed fetch does not wipe the data of an earlier successful one. */
  lemma FailureKeepsPreviousSnapshot(s: FeedState, data: Snapshot, t1: Time, o: Outcome, t2: Time)
    requires !o.Ok?
    ensures Run(s, [Start, Complete(Ok(data), t1), Start, Complete(o, t2)]).prices == data
    ensures Run(s, [Start, Complete(Ok(data), t1), Start, Complete(o, t2)]).lastUpdated == Some(t1)
  {
    var events := [Start, Complete(Ok(data), t1), Start, Complete(o, t2)];
    var s1 := StartFetch(s);
    var s2 := CompleteFetch(s1, Ok(data), t1);
    var s3 := StartFetch(s2);
    assert Run(s, events) == Run(s1, events[1..]);
    assert Run(s1, events[1..]) == Run(s2, events[2..]);
    assert Run(s2, events[2..]) == Run(s3, events[3..]);
    assert Run(s3, events[3..]) == CompleteFetch(s3, o, t2);
  }

  /** The race: with two requests in flight, the first to finish clears `loading` for both. */
  lemma LoadingClearedWhileRequestPending(s: FeedState, o: Outcome, now: Time)
    ensures !Run(s, [Start, Start, Complete(o, now)]).loading
  {
    var events := [Start, Start, Complete(o, now)];
    var s2 := StartFetch(StartFetch(s));
    assert Run(s, events) == Run(StartFetch(s), events[1..]);
    assert Run(StartFetch(s), events[1..]) == Run(s2, events[2..]);
    assert Run(s2, events[2..]) == CompleteFetch(s2, o, now);
  }

  // ---------------------------------------------------------------- view

  /** One price card: the coin and its four rendered figures. */
  datatype Card = Card(coin: Coin, price: Display, change: ChangeDisplay, marketCap: Display, volume: Display)

  /** What the tracker draws below its header. */
  datatype Body = Spinner | Grid(cards: seq<Card>, lastUpdated: Option<Time>)

  /** The whole tracker: the error box with Retry, or the header (Refresh disabled while loading) and a body. */
  datatype View = ErrorView(message: string) | Dashboard(refreshDisabled: bool, body: Body)

  const NoQuote: Quote := Quote(None, None, None, None)

  /** `prices[id]`, read with optional chaining: a missing coin has every field undefined. */
  function QuoteFor(prices: Snapshot, id: string): Quote {
    if id in prices then prices[id] else NoQuote
  }

  /** The card of one coin: each figure is `field || 0` passed to its formatter. */
  function CardFor(prices: Snapshot, coin: Coin): (c: Card)
    ensures c.coin == coin
    ensures c.price == FormatPrice(OrZero(QuoteFor(prices, coin.id).usd))
    ensures c.change == FormatChange(OrZero(QuoteFor(prices, coin.id).change24h))
    ensures c.marketCap == FormatMarketCap(OrZero(QuoteFor(prices, coin.id).marketCap))
    ensures c.volume == FormatVolume(OrZero(QuoteFor(prices, coin.id).volume24h))
    ensures !c.price.Abbreviated? && !HasSuffix(c.volume, T)
    ensures c.change.arrow == Up <==> OrZero(QuoteFor(prices, coin.id).change24h) >= 0.0
    ensures Denotes(c.price) == OrZero(QuoteFor(prices, coin.id).usd)
    ensures Denotes(c.marketCap) == OrZero(QuoteFor(prices, coin.id).marketCap)
    ensures Denotes(c.volume) == OrZero(QuoteFor(prices, coin.id).volume24h)
    ensures Signed(c.change) == OrZero(QuoteFor(prices, coin.id).change24h)
    ensures coin.id !in prices ==>
      && c.price == NotAvailable && c.marketCap == NotAvailable && c.volume == NotAvailable
      && c.change == ChangeDisplay(Up, 0.0)
  {
    var q := QuoteFor(prices, coin.id);
    ChangeRoundTrip(OrZero(q.change24h));
    Card(coin,
         FormatPrice(OrZero(q.usd)),
         FormatChange(OrZero(q.change24h)),
         FormatMarketCap(OrZero(q.marketCap)),
         FormatVolume(OrZero(q.volume24h)))
  }

  /** The grid: one card per listed coin, in list order, whatever the snapshot holds. */
  function Cards(prices: Snapshot): (cards: seq<Card>)
    ensures |cards| == |Coins|
    ensures forall i :: 0 <= i < |Coins| ==> cards[i] == CardFor(prices, Coins[i])
  {
    seq(|Coins|, i requires 0 <= i < |Coins| => CardFor(prices, Coins[i]))
  }

  /**
    The render: a truthy error takes precedence over everything; otherwise the
    spinner shows only while loading with no prices at all; otherwise the grid.
   */
  function Render(s: FeedState): (v: View)
    ensures v.ErrorView? <==> Truthy(s.error)
    ensures v.ErrorView? ==> v.message == s.error.value
    ensures v.Dashboard? ==> v.refreshDisabled == s.loading
    ensures v.Dashboard? && v.body.Spinner? <==> !Truthy(s.error) && s.loading && |s.prices| == 0
    ensures v.Dashboard? && v.body.Grid? ==>
      v.body.cards == Cards(s.prices) && v.body.lastUpdated == s.lastUpdated
  {
    if Truthy(s.error) then ErrorView(s.error.value)
    else if s.loading && |s.prices| == 0 then Dashboard(s.loading, Spinner)
    else Dashboard(s.loading, Grid(Cards(s.prices), s.lastUpdated))
  }

  /** In a valid state the error view shows exactly when an error is recorded. */
  lemma ErrorViewIffError(s: FeedState)
    requires Valid(s)
    ensures Render(s).ErrorView? <==> s.error.Some?
  {
  }

  /** The first render after mount is the spinner. */
  lemma MountShowsSpinner()
    ensures Render(Initial) == Dashboard(true, Spinner)
  {
  }

  /** A fetch that has just started never shows the error view; a failed one always does. */
  lemma StartHidesErrorFailureShowsIt(s: FeedState, o: Outcome, now: Time)
    requires !o.Ok?
    ensures Render(StartFetch(s)).Dashboard?
    ensures Render(CompleteFetch(s, o, now)).ErrorView?
  {
  }

  /** Once a fetch has completed, the spinner is gone for good (until a later start with no data). */
  lemma CompletedFetchShowsNoSpinner(s: FeedState, o: Outcome, now: Time)
    ensures Render(CompleteFetch(s, o, now)) != Dashboard(false, Spinner)
    ensures Render(CompleteFetch(s, o, now)).Dashboard? ==> Render(CompleteFetch(s, o, now)).body.Grid?
  {
  }

  /**
    The race, second face: an older request that fails after a newer one
    started leaves its error behind, and the newer request's fresh prices are
    then hidden behind the error view.
   */
  lemma StaleErrorHidesFreshSnapshot(s: FeedState, data: Snapshot, t1: Time, t2: Time)
    ensures Run(s, [Start, Start, Complete(NotOk, t1), Complete(Ok(data), t2)]).prices == data
    ensures Render(Run(s, [Start, Start, Complete(NotOk, t1), Complete(Ok(data), t2)])).ErrorView?
  {
    var events := [Start, Start, Complete(NotOk, t1), Complete(Ok(data), t2)];
    var s2 := StartFetch(StartFetch(s));
    var s3 := CompleteFetch(s2, NotOk, t1);
    assert Run(s, events) == Run(StartFetch(s), events[1..]);
    assert Run(StartFetch(s), events[1..]) == Run(s2, events[2..]);
    assert Run(s2, events[2..]) == Run(s3, events[3..]);
    assert Run(s3, events[3..]) == CompleteFetch(s3, Ok(data), t2);
  }

  /** A coin the response leaves out renders "N/A" three times and "▲ 0.00%". */
  lemma MissingCoinRendersNotAvailable(prices: Snapshot, i: int)
    requires 0 <= i < |Coins|
    requires Coins[i].id !in prices
    ensures Cards(prices)[i].price == NotAvailable
    ensures Cards(prices)[i].marketCap == NotAvailable
    ensures Cards(prices)[i].volume == NotAvailable
    ensures Cards(prices)[i].change == ChangeDisplay(Up, 0.0)
  {
  }
}
