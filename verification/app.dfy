/**
  The page's wallet session `{connected, walletAddress, walletType}`, owned by
  the top-level component and changed only by its two handlers, and the user
  actions that drive it through the widget's connect flows.
 */
module App {
  import opened WalletConnect

  datatype Session = Session(connected: bool, address: string, walletType: string)

  /** The session at page load: disconnected, empty address and type. */
  const Disconnected: Session := Session(false, "", "")

  /** `handleWalletConnect(address, type)`: the whole session is replaced. */
  function HandleConnect(s: Session, address: string, walletType: string): (r: Session)
    ensures r.connected && r.address == address && r.walletType == walletType
    ensures WellFormed(r) <==> walletType in {"MetaMask", "Phantom", "Subwallet"}
  {
    Session(true, address, walletType)
  }

  /** `handleWalletDisconnect`: back to the page-load session. */
  function HandleDisconnect(s: Session): (r: Session)
    ensures !r.connected && r.address == "" && r.walletType == ""
    ensures WellFormed(r)
  {
    Disconnected
  }

  /** Connect ignores the prior session: from any two sessions it gives the same result. */
  lemma ConnectForgetsPriorSession(s1: Session, s2: Session, address: string, walletType: string)
    ensures HandleConnect(s1, address, walletType) == HandleConnect(s2, address, walletType)
    ensures HandleConnect(s1, address, walletType).connected
    ensures HandleConnect(s1, address, walletType).address == address
    ensures HandleConnect(s1, address, walletType).walletType == walletType
  {
  }

  /** Of two successive connects, the second one's result is what remains. */
  lemma RepeatedConnectKeepsLast(s: Session, a1: string, t1: string, a2: string, t2: string)
    ensures HandleConnect(HandleConnect(s, a1, t1), a2, t2) == HandleConnect(s, a2, t2)
  {
  }

  /** Disconnect returns to the initial session and is idempotent. */
  lemma DisconnectResetsAndIsIdempotent(s: Session)
    ensures HandleDisconnect(s) == Disconnected
    ensures HandleDisconnect(HandleDisconnect(s)) == HandleDisconnect(s)
    ensures HandleDisconnect(Disconnected) == Disconnected
  {
  }

  /** The `onConnect` callback applied to a flow's result: only `Connected` changes anything. */
  function ApplyAttempt(s: Session, a: Attempt): (r: Session)
    ensures !a.Connected? ==> r == s
    ensures a.Connected? ==> r.connected && r.address == a.address && r.walletType == a.walletType
  {
    match a
    case Connected(address, walletType) => HandleConnect(s, address, walletType)
    case _ => s
  }

  /** The user's actions on the widget, each with the host and provider answer it met. */
  datatype Action =
    | ClickMetaMask(host: Host, response: AccountsResponse)
    | ClickPhantom(host: Host, keyResponse: KeyResponse)
    | ClickSubwallet(host: Host, firstEmission: AccountsResponse)
    | ClickDisconnect

  /** The flow an action runs, as the widget reports it upward. */
  function AttemptOf(a: Action): Attempt
    requires !a.ClickDisconnect?
  {
    match a
    case ClickMetaMask(h, resp) => ConnectMetaMask(h, resp)
    case ClickPhantom(h, resp) => ConnectPhantom(h, resp)
    case ClickSubwallet(h, resp) => ConnectSubwallet(h, resp)
  }

  /** Whether the action's provider was detected by its host. */
  predicate ActionDetected(a: Action)
    requires !a.ClickDisconnect?
  {
    match a
    case ClickMetaMask(h, _) => HasMetaMask(h)
    case ClickPhantom(h, _) => HasPhantom(h)
    case ClickSubwallet(h, _) => HasSubwallet(h)
  }

  /** Whether the provider threw instead of answering. */
  predicate ActionThrew(a: Action)
    requires !a.ClickDisconnect?
  {
    match a
    case ClickMetaMask(_, resp) => resp.AccountsThrew?
    case ClickPhantom(_, resp) => resp.KeyThrew?
    case ClickSubwallet(_, resp) => resp.AccountsThrew?
  }

  function Perform(s: Session, a: Action): (r: Session)
    ensures a.ClickDisconnect? ==> r == Disconnected
    ensures !a.ClickDisconnect? && AttemptOf(a).Connected? ==>
      r == Session(true, AttemptOf(a).address, AttemptOf(a).walletType)
    ensures !a.ClickDisconnect? && !ActionDetected(a) ==> r == s
    ensures !a.ClickDisconnect? && ActionThrew(a) ==> r == s
    ensures a.ClickMetaMask? && a.response == Accounts([]) ==> r == s
    ensures a.ClickSubwallet? && a.firstEmission == Accounts([]) ==> r == s
  {
    match a
    case ClickDisconnect => HandleDisconnect(s)
    case _ => ApplyAttempt(s, AttemptOf(a))
  }

  /** Performs the actions in order. */
  function PerformAll(s: Session, actions: seq<Action>): Session
    decreases |actions|
  {
    if |actions| == 0 then s else PerformAll(Perform(s, actions[0]), actions[1..])
  }

  /**
    The session invariant: a disconnected session is blank, and a connected one
    names one of the three providers.
   */
  predicate WellFormed(s: Session) {
    && (!s.connected ==> s.address == "" && s.walletType == "")
    && (s.connected ==> s.walletType in {"MetaMask", "Phantom", "Subwallet"})
  }

  lemma PerformPreservesWellFormed(s: Session, a: Action)
    requires WellFormed(s)
    ensures WellFormed(Perform(s, a))
  {
  }

  lemma {:induction false} PerformAllPreservesWellFormed(s: Session, actions: seq<Action>)
    requires WellFormed(s)
    ensures WellFormed(PerformAll(s, actions))
    decreases |actions|
  {
    if |actions| > 0 {
      PerformPreservesWellFormed(s, actions[0]);
      PerformAllPreservesWellFormed(Perform(s, actions[0]), actions[1..]);
    }
  }

  /** Every session reachable from page load is well formed. */
  lemma ReachableWellFormed(actions: seq<Action>)
    ensures WellFormed(PerformAll(Disconnected, actions))
  {
    PerformAllPreservesWellFormed(Disconnected, actions);
  }

  /**
    Clicking a provider that is not detected, any number of times, never
    changes the session.
   */
  lemma {:induction false} UndetectedClicksNeverConnect(s: Session, actions: seq<Action>)
    requires forall i :: 0 <= i < |actions| ==> !actions[i].ClickDisconnect? && !ActionDetected(actions[i])
    ensures PerformAll(s, actions) == s
    decreases |actions|
  {
    if |actions| > 0 {
      UndetectedClicksNeverConnect(Perform(s, actions[0]), actions[1..]);
    }
  }

  /** Two successful MetaMask connects leave the second result, whatever came before. */
  lemma RepeatedSuccessfulConnect(s: Session, h: Host, first: seq<string>, second: seq<string>)
    requires HasMetaMask(h) && |first| > 0 && |second| > 0
    ensures PerformAll(s, [ClickMetaMask(h, Accounts(first)), ClickMetaMask(h, Accounts(second))])
      == Session(true, second[0], "MetaMask")
  {
    var actions := [ClickMetaMask(h, Accounts(first)), ClickMetaMask(h, Accounts(second))];
    var s1 := Perform(s, actions[0]);
    assert PerformAll(s, actions) == PerformAll(s1, actions[1..]);
    assert PerformAll(s1, actions[1..]) == PerformAll(Perform(s1, actions[1]), actions[2..]);
  }
}
