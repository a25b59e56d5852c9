# DeFi price tracker — a Dafny model of its dashboard logic

The dashboard polls a public price API for twelve fixed coins and shows, per coin,
price, 24-hour change, market cap and volume; a header widget connects one of three
injected browser wallets (MetaMask, Phantom, Subwallet) only to display its address.

This project models the logic behind that page as pure functions over immutable
datatypes:

- `Formatters` (formatters.dfy): `formatPrice`, `formatMarketCap`, `formatVolume` as
  tier choices (`NotAvailable`, `Dollars`, or a mantissa with suffix M/B/T) over `real`,
  and the 24h change as an arrow plus magnitude. Each display carries the unrounded amount
  whose digits it prints, and `Denotes` reads it back, so every formatter is proved to
  lose nothing before the digit rounding.
- `PriceFeed` (price_feed.dfy): the coin list, the single batched `ids` parameter, the
  feed state `{prices, loading, error, lastUpdated}`, `fetchPrices` split into a
  `Start` and a `Complete` event so overlapping fetches can interleave, and the render
  choice between error view, spinner and grid of cards.
- `WalletConnect` (wallet_connect.dfy): provider detection over a `Host` value standing
  for the browser globals, the three connect flows with their guards, `formatAddress`,
  and the widget's render.
- `App` (app.dfy): the page's wallet session, its connect and disconnect handlers, and
  sequences of user clicks driving it.
- `Js` (js_values.dfy): the JavaScript semantics the above lean on: nullable values,
  string truthiness, `x || 0`, and `Array.prototype.join` with a `Split` that undoes it.

Network I/O, timers, clocks and the browser are parameters: an API response is an
`Outcome`, the time of a successful fetch is a `Time` argument, and each provider's
answer is an `AccountsResponse` or `KeyResponse` input.

Volume has no T tier: 2.3e12 shows as `$2300.00B` (PriceTracker.jsx:87-88), while
market cap shows the same value as `$2.30T`. `FormatVolume` and
`VolumeAgreesWithMarketCapBelowTrillion` state this asymmetry.

Two consequences of letting overlapping fetches race are proved rather than fixed:
the first completion clears `loading` while another request is still in flight, and an
older request that fails after a newer one started leaves an error that hides the newer
request's fresh prices. `formatAddress` also lengthens 13- and 14-character addresses
(`ShortLongAddressesGrow`).

## Model

| member | source | states |
|---|---|---|
| Js.Join | src/components/PriceTracker.jsx:32 | `join` of no parts is ""; otherwise the result starts with the first part and has all parts' characters plus one separator per neighbouring pair |
| Js.SplitJoin | src/components/PriceTracker.jsx:32 | splitting the comma-join of a non-empty list of parts gives back the parts, provided no part contains a comma |
| Js.SplitAtFirstSeparator | src/components/PriceTracker.jsx:32 | the first separator of a join ends the first piece, the rest splits independently |
| Js.SplitWithoutSeparator | src/components/PriceTracker.jsx:32 | a string without the separator is a single piece |
| Js.OrZero | src/components/PriceTracker.jsx:140-143 | `x || 0` maps a null or missing number to 0 and keeps any present number |
| Formatters.FormatPrice | src/components/PriceTracker.jsx:61-69 | "N/A" exactly for a zero price; otherwise plain currency of exactly that price, never a suffix |
| Formatters.FormatMarketCap | src/components/PriceTracker.jsx:71-83 | N/A iff 0; T iff ≥ 1e12; B iff 1e9 ≤ v < 1e12; M iff 1e6 ≤ v < 1e9; currency iff nonzero and < 1e6; the display denotes v; the unrounded mantissa is ≥ 1, and < 1000 below T |
| Formatters.FormatVolume | src/components/PriceTracker.jsx:85-94 | never T; B iff ≥ 1e9, including ≥ 1e12; M iff 1e6 ≤ v < 1e9; N/A iff 0; the display denotes v; the unrounded mantissa is ≥ 1, and < 1000 in M |
| Formatters.VolumeAgreesWithMarketCapBelowTrillion | src/components/PriceTracker.jsx:71-94 | volume and market cap render alike below 1e12; at or above it market cap says T and volume says B with a mantissa 1000 times larger |
| Formatters.FormatChange | src/components/PriceTracker.jsx:164-171 | arrow is up iff change ≥ 0; the unrounded magnitude is the absolute value |
| Formatters.ChangeRoundTrip | src/components/PriceTracker.jsx:169-171 | arrow and unrounded magnitude together give back the signed change |
| Formatters.ZeroChangeShowsUp | src/components/PriceTracker.jsx:141 | a zero (or missing) change shows the up arrow with magnitude 0 |
| Formatters.MarketCapExamples | src/components/PriceTracker.jsx:73-88 | 1.5e12 shows as 1.5 T, 2.3e9 as 2.3 B, and a 2.3e12 volume as 2300 B |
| PriceFeed.CoinIds | src/components/PriceTracker.jsx:6-19 | the id list has one entry per listed coin, in list order |
| PriceFeed.IdsParameter | src/components/PriceTracker.jsx:32 | the `ids` parameter starts with "bitcoin" and is exactly the ids' characters plus eleven commas |
| PriceFeed.CoinIdsHaveNoComma | src/components/PriceTracker.jsx:7-18 | no listed coin id contains a comma |
| PriceFeed.IdsParameterListsEveryCoin | src/components/PriceTracker.jsx:32-33 | the one request's `ids` parameter splits back into exactly the twelve ids in list order |
| PriceFeed.ErrorMessage | src/components/PriceTracker.jsx:36-45 | the recorded message is never empty: the HTTP message for a bad status, the thrown message, or the fallback when that is empty |
| PriceFeed.StartFetch | src/components/PriceTracker.jsx:28-29 | a fetch start sets loading and clears the error, leaving prices and timestamp alone |
| PriceFeed.CompleteFetch | src/components/PriceTracker.jsx:35-48 | loading ends false either way; success replaces prices wholesale and stamps the time; failure keeps prices and time and records exactly `ErrorMessage` of the outcome, a truthy string |
| PriceFeed.RunAppend | src/components/PriceTracker.jsx:27-48 | running one more event continues from where the earlier events left the state |
| PriceFeed.StepPreservesValid | src/components/PriceTracker.jsx:27-48 | each fetch event keeps errors non-empty and prices empty until a success |
| PriceFeed.RunPreservesValid | src/components/PriceTracker.jsx:27-48 | any event sequence keeps that invariant |
| PriceFeed.ReachableValid | src/components/PriceTracker.jsx:22-48 | every state reachable from mount satisfies the invariant |
| PriceFeed.LastCompletionWins | src/components/PriceTracker.jsx:41-47 | after any history, the last completion leaves loading false and, on success, its own data as the prices |
| PriceFeed.FailureKeepsPreviousSnapshot | src/components/PriceTracker.jsx:36-45 | a failure after a success keeps that success's prices and timestamp |
| PriceFeed.LoadingClearedWhileRequestPending | src/components/PriceTracker.jsx:46-48 | with two fetches in flight, the first completion already clears loading |
| PriceFeed.StaleErrorHidesFreshSnapshot | src/components/PriceTracker.jsx:28-48 | an older fetch failing after a newer one started leaves the newer prices stored but shows the error view |
| PriceFeed.CardFor | src/components/PriceTracker.jsx:139-183 | each figure is its formatter applied to the field or 0, so it denotes that value; the price is never suffixed and the volume never T; the arrow is up iff the change or 0 is ≥ 0; a coin missing from the response renders N/A three times and an up arrow with 0 |
| PriceFeed.Cards | src/components/PriceTracker.jsx:138-187 | one card per listed coin in list order, whatever the response holds |
| PriceFeed.Render | src/components/PriceTracker.jsx:105-196 | error view iff the error is truthy; spinner iff no error, loading and no prices; otherwise the grid with all cards and the timestamp; Refresh disabled while loading |
| PriceFeed.ErrorViewIffError | src/components/PriceTracker.jsx:105 | in a valid state the error view shows exactly when an error is recorded |
| PriceFeed.MountShowsSpinner | src/components/PriceTracker.jsx:22-25 | the state at mount renders the spinner with Refresh disabled |
| PriceFeed.StartHidesErrorFailureShowsIt | src/components/PriceTracker.jsx:28-45 | right after a start no error view shows; after a failure it always does |
| PriceFeed.CompletedFetchShowsNoSpinner | src/components/PriceTracker.jsx:131 | after any completion the body is the grid unless the error view shows |
| PriceFeed.MissingCoinRendersNotAvailable | src/components/PriceTracker.jsx:139-143 | the grid card of a coin absent from the response shows N/A for price, cap and volume and up 0 change |
| WalletConnect.HasMetaMask | src/components/WalletConnect.jsx:13-15 | detection requires `window.ethereum` defined and flagged `isMetaMask`; both together detect it |
| WalletConnect.HasPhantom | src/components/WalletConnect.jsx:17-19 | detection requires `window.phantom` defined and carrying `solana`; both together detect it |
| WalletConnect.HasSubwallet | src/components/WalletConnect.jsx:21-23 | detected exactly when `window.subwallet` is defined |
| WalletConnect.AlertText | src/components/WalletConnect.jsx:29-83 | a not-installed alert starts with the provider's name; a failure alert ends with the thrown message |
| WalletConnect.ConnectWithAccounts | src/components/WalletConnect.jsx:67-85 | not detected alerts "not installed"; a throw alerts failure; `onConnect` fires iff detected and the list is non-empty, with its first address; an empty list does nothing |
| WalletConnect.ConnectMetaMask | src/components/WalletConnect.jsx:26-45 | not detected alerts and never connects; connects iff detected and accounts non-empty, with accounts[0] and "MetaMask"; a throw alerts; an empty list is silent: no onConnect and no alert |
| WalletConnect.ConnectSubwallet | src/components/WalletConnect.jsx:67-85 | not detected alerts; connects iff detected and the first emitted list is non-empty, with its first address and "Subwallet"; a throw alerts; an empty list is silent: no onConnect and no alert |
| WalletConnect.ConnectPhantom | src/components/WalletConnect.jsx:48-64 | not detected alerts; connects iff detected and a key is returned, with that key and "Phantom"; a throw alerts; never silent |
| WalletConnect.FormatAddress | src/components/WalletConnect.jsx:94-98 | "" for ""; addresses of length ≤ 12 unchanged; longer ones become 15 characters: the first six, "...", the last six |
| WalletConnect.FormatAddressIdempotent | src/components/WalletConnect.jsx:94-98 | formatting a formatted address changes nothing |
| WalletConnect.FormatAddressCollides | src/components/WalletConnect.jsx:97 | two long addresses display alike iff their first six and last six characters agree |
| WalletConnect.ShortLongAddressesGrow | src/components/WalletConnect.jsx:96-97 | 13- and 14-character addresses come out longer than they went in |
| WalletConnect.FormatAddressExamples | src/components/WalletConnect.jsx:94-98 | "0x1234567890abcdef" shows as "0x1234...abcdef"; an 8-character address is unchanged |
| WalletConnect.OfferedProviders | src/components/WalletConnect.jsx:121-135 | a connect button is offered exactly for each detected provider, once each, in the order MetaMask, Phantom, Subwallet |
| WalletConnect.RenderWidget | src/components/WalletConnect.jsx:100-143 | status with the formatted address iff connected; otherwise exactly the `OfferedProviders` buttons, one per detected provider, and "No Wallets Found" iff none of the three is detected |
| WalletConnect.NoWalletsFoundIffNoButtons | src/components/WalletConnect.jsx:121-140 | "No Wallets Found" shows exactly when no connect button is offered |
| App.HandleConnect | src/App.jsx:11-15 | the session becomes connected with exactly the given address and type; it is well formed iff the type is one of the three provider labels |
| App.HandleDisconnect | src/App.jsx:17-21 | the session becomes disconnected with empty address and type, which is well formed |
| App.ConnectForgetsPriorSession | src/App.jsx:11-15 | connect yields exactly connected with the given address and type, whatever the prior session |
| App.RepeatedConnectKeepsLast | src/App.jsx:11-15 | of two successive connects, the second result remains |
| App.DisconnectResetsAndIsIdempotent | src/App.jsx:7-21 | disconnect returns exactly the page-load session, and twice is the same as once |
| App.ApplyAttempt | src/App.jsx:11-15 | only a connecting flow changes the session, to its address and type |
| App.Perform | src/App.jsx:11-21 | disconnect resets; an undetected provider, a throw or an empty account list leaves the session unchanged; a connecting flow sets the session to its result |
| App.PerformPreservesWellFormed | src/App.jsx:7-21 | each click keeps a disconnected session blank and a connected one labelled with a provider |
| App.PerformAllPreservesWellFormed | src/App.jsx:7-21 | any click sequence keeps that invariant |
| App.ReachableWellFormed | src/App.jsx:7-9 | every session reachable from page load is well formed |
| App.UndetectedClicksNeverConnect | src/components/WalletConnect.jsx:28-31 | any number of clicks on undetected providers leaves the session unchanged |
| App.RepeatedSuccessfulConnect | src/components/WalletConnect.jsx:37-39 | two successful MetaMask connects leave the second account as the session |

## Left out

- Network I/O: `fetch`, `response.json()` and the price API's wire format. A response is an `Outcome` whose `Ok` case carries the parsed map.
- The 30-second `setInterval`, its `clearInterval` and the `useEffect` lifecycle. The model has `Start` and `Complete` events that any timer tick or click may produce.
- Real asynchronous interleaving. It is represented only as the order of `Start` and `Complete` events.
- Digit rendering: `Intl.NumberFormat`, `toFixed(2)` and `toLocaleTimeString`. These are floating-point and locale formatting. The model keeps the unrounded mantissa or amount whose digits are printed, and `lastUpdated` as an abstract time.
- FormatMarketCap, FormatVolume: the mantissa bound (< 1000 in the B and M tiers) is about the unrounded mantissa. `toFixed(2)` can round it up to 1000.00, so 999 999 000 000 prints `$1000.00B` and 999 999 000 prints `$1000.00M`.
- FormatChange: the magnitude is unrounded, so `ChangeRoundTrip` is about the unrounded value. A small negative change such as -0.001 prints as "▼0.00%", a down arrow with a zero magnitude.
- JavaScript numbers other than finite reals: the model assumes every number is finite. NaN cannot come out of a JSON response, and `|| 0` maps null or missing values to 0, but a literal too large for a double (`1e400`) parses to Infinity, which the model does not represent.
- A response body that is not an object (for example JSON `null`). The snapshot is always a map.
- `window.ethereum` or `window.phantom` being `null`. Then `typeof` is `"object"` and reading `isMetaMask` or `solana` throws inside `hasMetaMask` or `hasPhantom` (src/components/WalletConnect.jsx:13-19). The host model has only "undefined" or an object.
- `alert` and `console.error` are host calls. Alerts appear as the `Alerted` result and its `AlertText`; console output is not modelled.
- Subwallet's subscription lifetime: only the first emitted account list is modelled. Later emissions and the subscription that outlives a disconnect are an external callback API.
- Address lengths count Dafny characters rather than UTF-16 code units. The two agree for the ASCII addresses the providers return.
- JSX and CSS rendering, the `showMenu` toggle, and the coin emoji column. These are presentation only.
