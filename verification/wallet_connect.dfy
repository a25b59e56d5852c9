/**
  The wallet widget: detection of the three injected providers, the three
  connect flows with their guards, the address abbreviation, and what the
  widget draws. The browser globals (`window.ethereum`, `window.phantom`,
  `window.subwallet`) are a `Host` value and every provider answer is an input;
  a flow's result is an `Attempt` telling the caller whether `onConnect` fires
  and with what, or which alert is shown instead.
 */
module WalletConnect {
  import opened Js

  datatype Provider = MetaMask | Phantom | Subwallet

  /** `window.ethereum`, when defined: only its `isMetaMask` flag matters. */
  datatype Ethereum = Ethereum(isMetaMask: bool)

  /** `window.phantom`, when defined: whether it carries a `solana` object. */
  datatype PhantomGlobal = PhantomGlobal(hasSolana: bool)

  /** What the page sees of the browser's injected globals. */
  datatype Host = Host(ethereum: Option<Ethereum>, phantom: Option<PhantomGlobal>, subwalletDefined: bool)

  /** `hasMetaMask`: `window.ethereum` is defined AND flags itself as MetaMask. */
  predicate HasMetaMask(h: Host)
    ensures HasMetaMask(h) ==> h.ethereum.Some? && h.ethereum.value.isMetaMask
    ensures h.ethereum == Some(Ethereum(true)) ==> HasMetaMask(h)
  {
    h.ethereum.Some? && h.ethereum.value.isMetaMask
  }

  /** `hasPhantom`: `window.phantom` is defined AND has a `solana` member. */
  predicate HasPhantom(h: Host)
    ensures HasPhantom(h) ==> h.phantom.Some? && h.phantom.value.hasSolana
    ensures h.phantom == Some(PhantomGlobal(true)) ==> HasPhantom(h)
  {
    h.phantom.Some? && h.phantom.value.hasSolana
  }

  /** `hasSubwallet`: `window.subwallet` is defined. */
  predicate HasSubwallet(h: Host)
    ensures HasSubwallet(h) <==> h.subwalletDefined
  {
    h.subwalletDefined
  }

  predicate Detected(p: Provider, h: Host) {
    match p
    case MetaMask => HasMetaMask(h)
    case Phantom => HasPhantom(h)
    case Subwallet => HasSubwallet(h)
  }

  /** The wallet type handed to `onConnect`, also the button caption. */
  function Label(p: Provider): string {
    match p
    case MetaMask => "MetaMask"
    case Phantom => "Phantom"
    case Subwallet => "Subwallet"
  }

  function InstallUrl(p: Provider): string {
    match p
    case MetaMask => "https://metamask.io"
    case Phantom => "https://phantom.app"
    case Subwallet => "https://www.subwallet.app"
  }

  /** The blocking notifications of the connect flows. */
  datatype Alert = NotInstalled(provider: Provider) | ConnectFailed(provider: Provider, message: string)

  /** The text of the browser alert: a not-installed notice names the provider first, a failure ends with the thrown message. */
  function AlertText(a: Alert): (text: string)
    ensures a.NotInstalled? ==> Label(a.provider) <= text
    ensures a.ConnectFailed? ==> |text| >= |a.message| && text[|text| - |a.message|..] == a.message
  {
    match a
    case NotInstalled(p) =>
      var notice := Label(p) + " is not installed. Please install it from " + InstallUrl(p);
      assert notice[..|Label(p)|] == Label(p);
      notice
    case ConnectFailed(p, m) => "Failed to connect to " + Label(p) + ": " + m
  }

  /** How a connect flow ends: `onConnect(address, label)`, an alert, or nothing at all. */
  datatype Attempt = Connected(address: string, walletType: string) | Alerted(alert: Alert) | Silent

  /** A provider call answering with an ordered list of addresses, or throwing. */
  datatype AccountsResponse = Accounts(addresses: seq<string>) | AccountsThrew(message: string)

  /** Phantom's `connect()`: a public key (as its string), or a throw. */
  datatype KeyResponse = PublicKey(key: string) | KeyThrew(message: string)

  /**
    The shared shape of the MetaMask and Subwallet flows: not detected alerts and
    stops (the provider is never asked); a throw alerts; a non-empty list connects
    its first address; an empty list does nothing.
   */
  function ConnectWithAccounts(p: Provider, h: Host, response: AccountsResponse): (r: Attempt)
    requires p != Phantom
    ensures !Detected(p, h) ==> r == Alerted(NotInstalled(p))
    ensures r.Connected? <==> Detected(p, h) && response.Accounts? && |response.addresses| > 0
    ensures r.Connected? ==> r.address == response.addresses[0] && r.walletType == Label(p)
    ensures Detected(p, h) && response.AccountsThrew? ==> r == Alerted(ConnectFailed(p, response.message))
    ensures r == Silent <==> Detected(p, h) && response == Accounts([])
  {
    if !Detected(p, h) then Alerted(NotInstalled(p))
    else match response
      case AccountsThrew(m) => Alerted(ConnectFailed(p, m))
      case Accounts(addresses) =>
        if |addresses| > 0 then Connected(addresses[0], Label(p)) else Silent
  }

  /** `connectMetaMask`, answered by `eth_requestAccounts`. */
  function ConnectMetaMask(h: Host, response: AccountsResponse): (r: Attempt)
    ensures !HasMetaMask(h) ==> r == Alerted(NotInstalled(MetaMask))
    ensures r.Connected? <==> HasMetaMask(h) && response.Accounts? && |response.addresses| > 0
    ensures r.Connected? ==> r == Connected(response.addresses[0], "MetaMask")
    ensures HasMetaMask(h) && response.AccountsThrew? ==> r == Alerted(ConnectFailed(MetaMask, response.message))
    ensures r == Silent <==> HasMetaMask(h) && response == Accounts([])
  {
    ConnectWithAccounts(MetaMask, h, response)
  }

  /** `connectSubwallet`, answered by the first account list its subscription emits. */
  function ConnectSubwallet(h: Host, firstEmission: AccountsResponse): (r: Attempt)
    ensures !HasSubwallet(h) ==> r == Alerted(NotInstalled(Subwallet))
    ensures r.Connected? <==> HasSubwallet(h) && firstEmission.Accounts? && |firstEmission.addresses| > 0
    ensures r.Connected? ==> r == Connected(firstEmission.addresses[0], "Subwallet")
    ensures HasSubwallet(h) && firstEmission.AccountsThrew? ==> r == Alerted(ConnectFailed(Subwallet, firstEmission.message))
    ensures r == Silent <==> HasSubwallet(h) && firstEmission == Accounts([])
  {
    ConnectWithAccounts(Subwallet, h, firstEmission)
  }

  /** `connectPhantom`: once detected, any key the provider returns is connected. */
  function ConnectPhantom(h: Host, response: KeyResponse): (r: Attempt)
    ensures !HasPhantom(h) ==> r == Alerted(NotInstalled(Phantom))
    ensures r.Connected? <==> HasPhantom(h) && response.PublicKey?
    ensures r.Connected? ==> r.address == response.key && r.walletType == "Phantom"
    ensures HasPhantom(h) && response.KeyThrew? ==> r == Alerted(ConnectFailed(Phantom, response.message))
    ensures r != Silent
  {
    if !HasPhantom(h) then Alerted(NotInstalled(Phantom))
    else match response
      case KeyThrew(m) => Alerted(ConnectFailed(Phantom, m))
      case PublicKey(k) => Connected(k, Label(Phantom))
  }

  // ---------------------------------------------------------------- address

  /** The abbreviated form: first six, "...", last six characters. */
  predicate IsAbbreviationOf(r: string, address: string) {
    && |address| > 12
    && |r| == 15
    && r[..6] == address[..6]
    && r[6..9] == "..."
    && r[9..] == address[|address| - 6..]
  }

  /** `formatAddress`: "" for a falsy address, short ones unchanged, long ones abbreviated. */
  function FormatAddress(address: string): (r: string)
    ensures address == "" ==> r == ""
    ensures |address| <= 12 ==> r == address
    ensures |address| > 12 ==> IsAbbreviationOf(r, address)
  {
    if address == "" then ""
    else if |address| <= 12 then address
    else address[..6] + "..." + address[|address| - 6..]
  }

  /** Formatting an already formatted address changes nothing. */
  lemma FormatAddressIdempotent(address: string)
    ensures FormatAddress(FormatAddress(address)) == FormatAddress(address)
  {
  }

  /** Two long addresses display alike exactly when their first and last six characters agree. */
  lemma FormatAddressCollides(a: string, b: string)
    requires |a| > 12 && |b| > 12
    ensures FormatAddress(a) == FormatAddress(b) <==> a[..6] == b[..6] && a[|a| - 6..] == b[|b| - 6..]
  {
  }

  /** Addresses of 13 and 14 characters come out longer than they went in. */
  lemma ShortLongAddressesGrow(address: string)
    requires 12 < |address| < 15
    ensures |FormatAddress(address)| > |address|
  {
  }

  /** The worked examples: an 18-character address abbreviated, an 8-character one kept. */
  lemma FormatAddressExamples()
    ensures FormatAddress("0x1234567890abcdef") == "0x1234...abcdef"
    ensures FormatAddress("0x123456") == "0x123456"
  {
  }

  // ---------------------------------------------------------------- view

  /** What the widget draws: the connected status with a Disconnect button, or the connect buttons. */
  datatype WidgetView = Status(shownAddress: string, walletType: string) | Buttons(offered: seq<Provider>, noWalletsFound: bool)

  /** The position of a provider's button in the widget. */
  function Rank(p: Provider): nat {
    match p
    case MetaMask => 0
    case Phantom => 1
    case Subwallet => 2
  }

  /** The connect buttons of the detected providers, in the order MetaMask, Phantom, Subwallet. */
  function OfferedProviders(h: Host): (offered: seq<Provider>)
    ensures forall p :: p in offered <==> Detected(p, h)
    ensures forall i, j :: 0 <= i < j < |offered| ==> Rank(offered[i]) < Rank(offered[j])
    ensures |offered| <= 3
  {
    (if HasMetaMask(h) then [MetaMask] else [])
    + (if HasPhantom(h) then [Phantom] else [])
    + (if HasSubwallet(h) then [Subwallet] else [])
  }

  /** The widget's render, from the props `connected`, `walletAddress`, `walletType`. */
  function RenderWidget(connected: bool, walletAddress: string, walletType: string, h: Host): (v: WidgetView)
    ensures v.Status? <==> connected
    ensures v.Status? ==> v.shownAddress == FormatAddress(walletAddress) && v.walletType == walletType
    ensures v.Buttons? ==> v.offered == OfferedProviders(h)
    ensures v.Buttons? ==> forall p :: p in v.offered <==> Detected(p, h)
    ensures v.Buttons? ==> (v.noWalletsFound <==> !HasMetaMask(h) && !HasPhantom(h) && !HasSubwallet(h))
  {
    if connected then Status(FormatAddress(walletAddress), walletType)
    else Buttons(OfferedProviders(h), !HasMetaMask(h) && !HasPhantom(h) && !HasSubwallet(h))
  }

  /** "No Wallets Found" shows exactly when there is no connect button to offer. */
  lemma NoWalletsFoundIffNoButtons(h: Host)
    ensures RenderWidget(false, "", "", h).noWalletsFound <==> |RenderWidget(false, "", "", h).offered| == 0
  {
  }
}
