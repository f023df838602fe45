/** The wallet session hook: the connected account and two flags, changed by a silent
    probe at start-up, an interactive connect request and a local disconnect; and the
    short display form of an address. The injected provider is not modelled: whether it
    is present and what it answers are inputs. */
module Web3 {
  import opened Wrappers

  /** The provider's answer to an accounts request: the account list, or the error it
      threw, with its numeric code. */
  datatype Reply = Accounts(list: seq<string>) | Failure(code: int, message: string)

  /** The provider's error code for "the user rejected the request". */
  const UserRejectedCode: int := 4001

  /** The blocking alert `connectWallet` raises, if any. */
  datatype Notice = NoNotice | NotInstalled | RejectedByUser | ConnectError(message: string)

  /** The hook's three state fields. `account` is `null` while disconnected. */
  datatype Session = Session(account: Option<string>, isConnected: bool, isConnecting: bool)

  /** `useState(null)`, `useState(false)`, `useState(false)`. */
  const Initial := Session(None, false, false)

  /** The account and the connected flag are only ever set together and cleared together. */
  predicate Paired(s: Session) {
    s.isConnected <==> s.account.Some?
  }

  /** The account a reply offers: its first entry, if the list is not empty. */
  function Offered(reply: Reply): (a: Option<string>)
    ensures a.Some? <==> reply.Accounts? && |reply.list| > 0
    ensures a.Some? ==> a.value == reply.list[0]
  {
    if reply.Accounts? && |reply.list| > 0 then Some(reply.list[0]) else None
  }

  /** `checkConnection`: the non-interactive probe. `provider` is `None` when no wallet
      is injected, otherwise the reply to the accounts query. Errors are swallowed. */
  function Check(s: Session, provider: Option<Reply>): (r: Session)
    ensures r.isConnecting == s.isConnecting
    ensures provider.None? ==> r == s
    ensures provider.Some? && Offered(provider.value).Some? ==>
              r.account == Offered(provider.value) && r.isConnected
    ensures provider.Some? && Offered(provider.value).None? ==> r == s
    ensures Paired(s) ==> Paired(r)
  {
    if provider.None? then s
    else
      var reply := provider.value;
      if reply.Accounts? then
        if |reply.list| > 0 then s.(account := Some(reply.list[0]), isConnected := true) else s
      else s
  }

  /** What one call of `connectWallet` leaves behind and returns. */
  datatype ConnectResult = ConnectResult(session: Session, connected: bool, notice: Notice)

  /** `connectWallet`: the interactive request, run to completion. */
  function Connect(s: Session, provider: Option<Reply>): (r: ConnectResult)
    ensures provider.None? ==> r == ConnectResult(s, false, NotInstalled)
    ensures provider.Some? ==> !r.session.isConnecting
    ensures r.connected <==> provider.Some? && Offered(provider.value).Some?
    ensures r.connected ==> r.session.account == Offered(provider.value) && r.session.isConnected
    ensures !r.connected ==> r.session.account == s.account && r.session.isConnected == s.isConnected
    ensures r.notice == RejectedByUser <==>
              provider.Some? && provider.value.Failure? && provider.value.code == UserRejectedCode
    ensures r.notice.ConnectError? <==>
              provider.Some? && provider.value.Failure? && provider.value.code != UserRejectedCode
    ensures r.notice.ConnectError? ==> r.notice.message == provider.value.message
    ensures r.notice == NotInstalled <==> provider.None?
    ensures provider.Some? && provider.value.Accounts? ==> r.notice == NoNotice
    ensures Paired(s) ==> Paired(r.session)
  {
    if provider.None? then ConnectResult(s, false, NotInstalled)
    else
      var busy := s.(isConnecting := true);
      var reply := provider.value;
      match reply
      case Accounts(list) =>
        if |list| > 0 then
          ConnectResult(busy.(account := Some(list[0]), isConnected := true, isConnecting := false), true, NoNotice)
        else
          ConnectResult(busy.(isConnecting := false), false, NoNotice)
      case Failure(code, message) =>
        var notice := if code == UserRejectedCode then RejectedByUser else ConnectError(message);
        ConnectResult(busy.(isConnecting := false), false, notice)
  }

  /** `disconnectWallet`: forgets the account locally. */
  function Disconnect(s: Session): (r: Session)
    ensures r.account.None? && !r.isConnected && Paired(r)
    ensures r.isConnecting == s.isConnecting
  {
    s.(account := None, isConnected := false)
  }

  /** Disconnecting twice is disconnecting once. */
  lemma DisconnectIdempotent(s: Session)
    ensures Disconnect(Disconnect(s)) == Disconnect(s)
  {
  }

  /** The interactive request and the silent probe adopt the same account from the
      same answer; the request additionally leaves `isConnecting` false. */
  lemma ConnectAgreesWithCheck(s: Session, reply: Reply)
    ensures Connect(s, Some(reply)).session == Check(s, Some(reply)).(isConnecting := false)
  {
  }

  /** A call of one of the hook's three operations, with the provider's answer. */
  datatype WalletEvent = Probe(provider: Option<Reply>) | Request(provider: Option<Reply>) | Forget

  function Apply(s: Session, e: WalletEvent): (r: Session) {
    match e
    case Probe(p) => Check(s, p)
    case Request(p) => Connect(s, p).session
    case Forget => Disconnect(s)
  }

  function Replay(s: Session, events: seq<WalletEvent>): (r: Session)
    decreases |events|
  {
    if events == [] then s else Replay(Apply(s, events[0]), events[1..])
  }

  /** Whatever the provider answers and in whatever order the three operations run,
      a session that starts paired and not connecting (as the hook's initial state
      is) stays paired and is never left connecting. */
  lemma {:induction false} ReplayKeepsPairing(s: Session, events: seq<WalletEvent>)
    requires Paired(s) && !s.isConnecting
    ensures Paired(Replay(s, events)) && !Replay(s, events).isConnecting
    decreases |events|
  {
    if events != [] {
      ReplayKeepsPairing(Apply(s, events[0]), events[1..]);
    }
  }

  // ---------------------------------------------------------------------------
  // formatAddress

  /** JavaScript's index normalisation for `String.prototype.slice`: a negative index
      counts from the end, and every index is clamped into [0, n]. */
  function SliceIndex(n: nat, i: int): (k: nat)
    ensures k <= n
    ensures 0 <= i <= n ==> k == i
    ensures i < 0 && n + i >= 0 ==> k == n + i
  {
    if i < 0 then (if n + i < 0 then 0 else n + i)
    else if i > n then n
    else i
  }

  /** `s.slice(begin, end)`: the characters between the normalised indices, empty
      when the normalised range is empty. */
  function JsSlice(s: string, begin: int, end: int): (r: string)
    ensures |r| <= |s|
    ensures 0 <= begin <= end <= |s| ==> r == s[begin..end]
    ensures 0 <= begin && |s| <= end ==> r == s[Min(begin, |s|)..]
    ensures begin < 0 && end >= |s| ==> r == s[Max(|s| + begin, 0)..]
    ensures SliceIndex(|s|, end) <= SliceIndex(|s|, begin) ==> r == ""
  {
    var b, e := SliceIndex(|s|, begin), SliceIndex(|s|, end);
    if b < e then s[b..e] else ""
  }

  function Min(a: int, b: int): (m: int) { if a < b then a else b }
  function Max(a: int, b: int): (m: int) { if a < b then b else a }

  /** `formatAddress`: empty for a missing or empty address, otherwise
      `address.slice(0, 6) + "..." + address.slice(-4)`. */
  function FormatAddress(address: Option<string>): (r: string)
    ensures address.None? || address.value == "" ==> r == ""
  {
    if address.None? || address.value == "" then ""
    else
      var a := address.value;
      JsSlice(a, 0, 6) + "..." + JsSlice(a, -4, |a|)
  }

  /** For any non-empty address the result is its first six characters (all of
      it, if shorter), an ellipsis, and its last four (all of it, if shorter); so the
      two parts overlap below ten characters, and the result has length 13 exactly
      when the address has at least six. */
  lemma FormatAddressShape(a: string)
    requires a != ""
    ensures FormatAddress(Some(a)) == a[..Min(6, |a|)] + "..." + a[Max(|a| - 4, 0)..]
    ensures |FormatAddress(Some(a))| == 13 <==> |a| >= 6
  {
    assert JsSlice(a, 0, 6) == a[..Min(6, |a|)];
    assert JsSlice(a, -4, |a|) == a[Max(|a| - 4, 0)..];
  }

  /** The display form of a full-length address keeps its first six and last four
      characters apart, around the ellipsis. */
  lemma FormatLongAddress(a: string)
    requires |a| >= 10
    ensures var r := FormatAddress(Some(a));
            |r| == 13 && r[..6] == a[..6] && r[6..9] == "..." && r[9..] == a[|a| - 4..]
  {
    FormatAddressShape(a);
  }

  lemma FormatAddressExample()
    ensures FormatAddress(Some("0xABCDEF1234567890")) == "0xABCD...7890"
    ensures FormatAddress(Some("")) == "" && FormatAddress(None) == ""
  {
    FormatLongAddress("0xABCDEF1234567890");
  }

  /** The hook's state, updated in place by its three operations. */
  class WalletSession {
    var account: Option<string>
    var isConnected: bool
    var isConnecting: bool

    function State(): (s: Session)
      reads this
    {
      Session(account, isConnected, isConnecting)
    }

    constructor ()
      ensures State() == Initial
    {
      account := None;
      isConnected := false;
      isConnecting := false;
    }

    method CheckConnection(provider: Option<Reply>)
      modifies this
      ensures State() == Check(old(State()), provider)
    {
      if provider.Some? {
        var reply := provider.value;
        if reply.Accounts? && |reply.list| > 0 {
          account := Some(reply.list[0]);
          isConnected := true;
        }
      }
    }

    method ConnectWallet(provider: Option<Reply>) returns (connected: bool, notice: Notice)
      modifies this
      ensures ConnectResult(State(), connected, notice) == Connect(old(State()), provider)
    {
      if provider.None? {
        return false, NotInstalled;
      }
      isConnecting := true;
      connected, notice := false, NoNotice;
      match provider.value {
        case Accounts(list) =>
          if |list| > 0 {
            account := Some(list[0]);
            isConnected := true;
            connected := true;
          }
        case Failure(code, message) =>
          notice := if code == UserRejectedCode then RejectedByUser else ConnectError(message);
      }
      isConnecting := false;
    }

    method DisconnectWallet()
      modifies this
      ensures State() == Disconnect(old(State()))
    {
      account := None;
      isConnected := false;
    }
  }
}
