/**
 * The DFU peer L2CAP channel: its connection states, what it tells its clients
 * and the upgrade library, and the bounded retries of a connection attempt.
 */
module DfuPeer {
  import opened Common

  type Address = nat

  const ACL_CONNECT_RETRY_LIMIT: nat := 20
  const SDP_SEARCH_RETRY_LIMIT: nat := 10

  datatype State =
    | Initialise | Idle | Disconnected
    | ConnectingAcl | ConnectingSdpSearch | ConnectingLocal | ConnectingRemote
    | Connected | Disconnecting
  {
    predicate Connecting() { ConnectingAcl? || ConnectingSdpSearch? || ConnectingLocal? || ConnectingRemote? }
    /** The phase in which startup requests are retried. */
    predicate Attempting() { ConnectingAcl? || ConnectingSdpSearch? }
  }

  /** Messages to clients (the first two) and to the upgrade library. */
  datatype Out =
    | PeerStarted | PeerDisconnected
    | ConnectFailed | ConnectSucceeded | DisconnectInd | TransportConnect | TransportDisconnect

  /** What the rest of the system answers while a message is handled. */
  datatype Env = Env(
    peerAddr: Option<Address>,   // the paired peer, if known
    amPrimary: bool,
    silentCommit: bool,
    dfuReset: bool,              // the device rebooted as part of an upgrade
    linkLoss: bool,
    blocked: bool,
    aclConnected: bool,
    aclLocal: bool)

  datatype SdpResult = Found | Malformed | Retry | Refused

  datatype L2capStatus = Success(configured: bool) | Pending | Failed

  datatype Message =
    | L2capRegisterCfm(success: bool)
    | SdpRegisterCfm(success: bool)
    | SdpSearchCfm(result: SdpResult)
    | L2capConnectInd(psmMatches: bool, isPeer: bool)
    | L2capConnectCfm(status: L2capStatus)
    | L2capDisconnectInd(sinkMatches: bool)
    | L2capDisconnectCfm
    | StartupReq(addr: Address)
    | PeerConnectReq
    | PeerDisconnectReq

  /** A message to the peer task, or a call of one of its public functions. */
  datatype Event =
    | Receive(message: Message)
    | InitiateLink
    | InitiateDisconnection
    | SetRole(primary: bool)

  /** `startups` counts the startup requests posted and not yet delivered. */
  datatype Peer = Peer(
    state: State,
    isPrimary: bool,
    peerAddr: Address,
    aclAttempts: nat,
    sdpAttempts: nat,
    startups: nat,
    libConnected: bool,
    out: seq<Out>)

  const INITIAL: Peer := Peer(Initialise, false, 0, 0, 0, 0, false, [])

  // ----- entry actions -------------------------------------------------------

  function Link(p: Peer, env: Env): Peer {
    var q := p.(aclAttempts := 0, sdpAttempts := 0);
    if p.state != Idle then q.(out := p.out + [ConnectFailed])
    else if env.peerAddr.Some? then q.(peerAddr := env.peerAddr.value, startups := p.startups + 1)
    else q
  }

  function Unlink(p: Peer): Peer {
    if p.state == Connected || p.state.Connecting() then p.(state := Disconnecting) else p
  }

  /** Assigned without the entry action on several error paths. */
  function Fail(p: Peer): Peer {
    p.(state := Disconnected, out := p.out + [ConnectFailed])
  }

  /** Everyone is told that the channel has gone, and it falls back to Idle. */
  function Drop(p: Peer, env: Env): Peer {
    var told :=
      if p.state == Connected || p.state == Disconnecting then
        [if p.isPrimary then DisconnectInd else TransportDisconnect]
      else if env.silentCommit then []
      else [ConnectFailed];
    p.(state := Idle, isPrimary := false, libConnected := false, out := p.out + told + [PeerDisconnected])
  }

  /** Entry to Disconnected from p.state; for a silent commit start over. */
  function EnterDisconnected(p: Peer, env: Env): Peer {
    if env.silentCommit && !env.linkLoss && !env.blocked && env.amPrimary
    then Link(Drop(p, env).(isPrimary := true), env)
    else Drop(p, env)
  }

  function EnterConnected(p: Peer, env: Env): Peer {
    p.(state := if env.dfuReset && env.silentCommit && env.amPrimary then Disconnecting else Connected,
       libConnected := true,
       isPrimary := env.amPrimary,
       out := p.out + [if env.amPrimary then ConnectSucceeded else TransportConnect, PeerStarted])
  }

  function EnterSdpSearch(p: Peer, env: Env): Peer {
    if env.peerAddr.None? then Fail(p) else p.(state := ConnectingSdpSearch)
  }

  // ----- messages ------------------------------------------------------------

  /** A startup request finds the ACL up: search, search again, or give up. */
  function Proceed(p: Peer, addr: Address, env: Env): Peer {
    if !env.aclLocal && p.peerAddr != addr then EnterDisconnected(p, env)
    else if p.state == ConnectingAcl then EnterSdpSearch(p.(peerAddr := addr), env)
    else
      var q := p.(sdpAttempts := (p.sdpAttempts + 1) % 0x10000);
      if q.sdpAttempts <= SDP_SEARCH_RETRY_LIMIT then EnterSdpSearch(q, env) else EnterDisconnected(q, env)
  }

  /** Handle a startup request taken off the queue. Waiting for the ACL puts it
      back; every other outcome cancels all that are queued. */
  function OnStartup(p: Peer, addr: Address, env: Env): Peer
    requires p.startups > 0
  {
    var q := p.(startups := p.startups - 1);
    if p.state.Attempting() && !env.aclConnected && p.aclAttempts < ACL_CONNECT_RETRY_LIMIT then
      p.(aclAttempts := p.aclAttempts + 1)
    else if p.state == Idle then p.(state := ConnectingAcl)
    else
      var r := if p.state.Attempting() && env.aclConnected then Proceed(q, addr, env)
               else if p.state.Attempting() then EnterDisconnected(q, env)
               else if p.state == Connected then q
               else Fail(q);
      r.(startups := 0)
  }

  function OnSdpSearch(p: Peer, result: SdpResult, env: Env): Peer {
    if p.state != ConnectingSdpSearch then p
    else match result
      case Found =>
        p.(state := ConnectingLocal,
           out := if env.peerAddr == Some(p.peerAddr) then p.out else p.out + [ConnectFailed])
      case Retry => p.(startups := p.startups + 1)
      case _ => EnterDisconnected(p, env)
  }

  function OnConnectInd(p: Peer, psmMatches: bool, isPeer: bool): Peer {
    if !psmMatches then Fail(p)
    else if p.state == Idle && isPeer then p.(state := ConnectingRemote)
    else p
  }

  function OnConnectCfm(p: Peer, status: L2capStatus, env: Env): Peer {
    if p.state == ConnectingLocal || p.state == ConnectingRemote then
      match status
      case Success(configured) => if configured then EnterConnected(p, env) else Fail(p)
      case Pending => p
      case Failed => EnterDisconnected(p, env)
    else if status.Success? then p
    else Fail(p)
  }

  function Handle(p: Peer, m: Message, env: Env): Peer
    requires m.StartupReq? ==> p.startups > 0
  {
    match m
    case L2capRegisterCfm(success) => if success then p else p.(state := Disconnected)
    case SdpRegisterCfm(success) => p.(state := if success then Idle else Disconnected)
    case SdpSearchCfm(result) => OnSdpSearch(p, result, env)
    case L2capConnectInd(psmMatches, isPeer) => OnConnectInd(p, psmMatches, isPeer)
    case L2capConnectCfm(status) => OnConnectCfm(p, status, env)
    case L2capDisconnectInd(sinkMatches) => if sinkMatches then EnterDisconnected(p, env) else p
    case L2capDisconnectCfm => if p.state == Disconnecting then EnterDisconnected(p, env) else p
    case StartupReq(addr) => OnStartup(p, addr, env)
    case PeerConnectReq => Link(p, env)
    case PeerDisconnectReq => Unlink(p)
  }

  /** While disconnecting every message but the disconnect confirm is dropped. */
  function Dispatch(p: Peer, m: Message, env: Env): Peer
    requires m.StartupReq? ==> p.startups > 0
  {
    if p.state == Disconnecting && !m.L2capDisconnectCfm? then
      if m.StartupReq? then p.(startups := p.startups - 1) else p
    else Handle(p, m, env)
  }

  /** A startup request can only be delivered if one was posted. */
  predicate Deliverable(p: Peer, e: Event) {
    e.Receive? && e.message.StartupReq? ==> p.startups > 0
  }

  function Step(p: Peer, e: Event, env: Env): Peer
    requires Deliverable(p, e)
  {
    match e
    case Receive(m) => Dispatch(p, m, env)
    case InitiateLink => Link(p, env)
    case InitiateDisconnection => Unlink(p)
    case SetRole(primary) => p.(isPrimary := primary)
  }
}
