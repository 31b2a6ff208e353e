/**
 * What the DFU peer channel answers to each message, told by its fields and by what
 * clients and the library hear; and that a link request leads to a connection.
 */
module DfuPeerAnswers {
  import opened Common
  import opened DfuPeer
  import opened DfuPeerRuns

  // ----- the two ways a channel goes -----------------------------------------

  /** The channel has fallen back to Idle. Whoever drives the library is told first
      (the client end by a disconnection, an attempt by a failure unless a silent
      commit is on), then the clients; for a silent commit the primary starts over. */
  ghost predicate Falls(p: Peer, n: Peer, env: Env) {
    && n.state == Idle && !n.libConnected
    && (p.state == Connected || p.state == Disconnecting ==>
          n.out == p.out + [if p.isPrimary then DisconnectInd else TransportDisconnect, PeerDisconnected])
    && (p.state != Connected && p.state != Disconnecting ==>
          n.out == p.out + if env.silentCommit then [PeerDisconnected] else [ConnectFailed, PeerDisconnected])
    && (StartsOver(env) ==>
          n.isPrimary && n.aclAttempts == 0 && n.sdpAttempts == 0
          && n.peerAddr == if env.peerAddr.Some? then env.peerAddr.value else p.peerAddr)
    && (!StartsOver(env) ==> !n.isPrimary && n.aclAttempts == p.aclAttempts && n.peerAddr == p.peerAddr)
  }

  ghost predicate StartsOver(env: Env) { env.silentCommit && !env.linkLoss && !env.blocked && env.amPrimary }

  /** One more startup request is queued if it starts over with the peer known. */
  ghost predicate RequeuesIfStartingOver(p: Peer, n: Peer, env: Env) {
    && n.startups == p.startups + (if StartsOver(env) && env.peerAddr.Some? then 1 else 0)
    && (!StartsOver(env) ==> n.sdpAttempts == p.sdpAttempts)
  }

  /** The state is set to Disconnected and only the library is told. */
  ghost predicate Fails(p: Peer, n: Peer) {
    n == p.(state := Disconnected, startups := n.startups, peerAddr := n.peerAddr, sdpAttempts := n.sdpAttempts,
            out := p.out + [ConnectFailed])
  }

  lemma {:induction false} FallsHere(p: Peer, env: Env)
    ensures Falls(p, EnterDisconnected(p, env), env) && RequeuesIfStartingOver(p, EnterDisconnected(p, env), env)
  {
  }

  // ----- requests ------------------------------------------------------------

  /** From Idle with the peer known, a link request leaves one more startup request to
      be delivered and nothing else to be seen; from any other state the library is
      told that it failed; the retry counters are reset. */
  lemma {:induction false} LinkAnswers(p: Peer, e: Event, env: Env, addr: Address)
    requires e == InitiateLink || (e == Receive(PeerConnectReq) && p.state != Disconnecting)
    ensures var n := Step(p, e, env);
            && n.aclAttempts == 0 && n.sdpAttempts == 0
            && n.state == p.state && n.isPrimary == p.isPrimary && n.libConnected == p.libConnected
            && (p.state == Idle && env.peerAddr.Some? ==>
                  && n.startups == p.startups + 1 && Deliverable(n, Receive(StartupReq(addr)))
                  && n.peerAddr == env.peerAddr.value && n.out == p.out)
            && (!(p.state == Idle && env.peerAddr.Some?) ==> n.startups == p.startups && n.peerAddr == p.peerAddr)
            && (p.state == Idle ==> n.out == p.out)
            && (p.state != Idle ==> n.out == p.out + [ConnectFailed])
  {
  }

  lemma {:induction false} DisconnectRequestAnswers(p: Peer, e: Event, env: Env)
    requires e == InitiateDisconnection || e == Receive(PeerDisconnectReq)
    ensures Step(p, e, env) ==
            if p.state in {Connected, ConnectingAcl, ConnectingSdpSearch, ConnectingLocal, ConnectingRemote}
            then p.(state := Disconnecting) else p
  {
  }

  lemma {:induction false} SetRoleAnswers(p: Peer, primary: bool, env: Env)
    ensures var n := Step(p, SetRole(primary), env); n.isPrimary == primary && n == p.(isPrimary := n.isPrimary)
  {
  }

  // ----- startup requests ----------------------------------------------------

  /** Waiting for the ACL, in Idle, or where no attempt can be made. */
  lemma {:induction false} StartupWaits(p: Peer, addr: Address, env: Env)
    requires p.startups > 0 && p.state != Disconnecting
    ensures var n := Step(p, Receive(StartupReq(addr)), env);
            && (p.state == Idle ==> n == p.(state := ConnectingAcl))
            && (p.state == Connected ==> n == p.(startups := 0))
            && (p.state in {Initialise, Disconnected, ConnectingLocal, ConnectingRemote} ==>
                  Fails(p, n) && n.startups == 0)
            && (p.state in {ConnectingAcl, ConnectingSdpSearch} && !env.aclConnected && p.aclAttempts < 20 ==>
                  n == p.(aclAttempts := p.aclAttempts + 1))
            && (p.state in {ConnectingAcl, ConnectingSdpSearch} && !env.aclConnected && p.aclAttempts >= 20 ==>
                  Falls(p, n, env) && n.startups == 0)
  {
  }

  /** With the ACL up: the service search begins, or is tried again up to ten times;
      not if the link is not ours and not to the stored peer. */
  lemma {:induction false} StartupProceeds(p: Peer, addr: Address, env: Env)
    requires p.startups > 0 && p.state in {ConnectingAcl, ConnectingSdpSearch} && env.aclConnected
    ensures var n := Step(p, Receive(StartupReq(addr)), env);
            var ours := env.aclLocal || p.peerAddr == addr;
            var tries := (p.sdpAttempts + 1) % 0x10000;
            var more := p.state == ConnectingAcl || tries <= 10;
            && n.startups == 0
            && (!ours || !more ==> Falls(p, n, env))
            && (ours && more && env.peerAddr.None? ==> Fails(p, n))
            && (ours && more && env.peerAddr.Some? ==>
                  n == p.(state := ConnectingSdpSearch, startups := 0,
                          peerAddr := if p.state == ConnectingAcl then addr else p.peerAddr,
                          sdpAttempts := if p.state == ConnectingAcl then p.sdpAttempts else tries))
  {
  }

  // ----- confirms and indications --------------------------------------------

  lemma {:induction false} RegistrationAnswers(p: Peer, success: bool, env: Env)
    requires p.state != Disconnecting
    ensures Step(p, Receive(L2capRegisterCfm(success)), env) == if success then p else p.(state := Disconnected)
    ensures Step(p, Receive(SdpRegisterCfm(success)), env) == p.(state := if success then Idle else Disconnected)
  {
  }

  lemma {:induction false} SearchAnswers(p: Peer, result: SdpResult, env: Env)
    requires p.state != Disconnecting
    ensures var n := Step(p, Receive(SdpSearchCfm(result)), env);
            && (p.state != ConnectingSdpSearch ==> n == p)
            && (p.state == ConnectingSdpSearch ==>
                  && (result == Found && env.peerAddr == Some(p.peerAddr) ==> n == p.(state := ConnectingLocal))
                  && (result == Found && env.peerAddr != Some(p.peerAddr) ==>
                        n == p.(state := ConnectingLocal, out := p.out + [ConnectFailed]))
                  && (result == Retry ==> n == p.(startups := p.startups + 1))
                  && (result == Malformed || result == Refused ==>
                        Falls(p, n, env) && RequeuesIfStartingOver(p, n, env)))
  {
  }

  lemma {:induction false} ConnectIndAnswers(p: Peer, psmMatches: bool, isPeer: bool, env: Env)
    requires p.state != Disconnecting
    ensures Step(p, Receive(L2capConnectInd(psmMatches, isPeer)), env) ==
            if !psmMatches then p.(state := Disconnected, out := p.out + [ConnectFailed])
            else if p.state == Idle && isPeer then p.(state := ConnectingRemote)
            else p
  {
  }

  lemma {:induction false} ConnectCfmAnswers(p: Peer, status: L2capStatus, env: Env)
    requires p.state != Disconnecting
    ensures var n := Step(p, Receive(L2capConnectCfm(status)), env);
            var connecting := p.state in {ConnectingLocal, ConnectingRemote};
            var drops := env.dfuReset && env.silentCommit && env.amPrimary;
            && (connecting && status == Success(true) ==>
                  n == p.(state := if drops then Disconnecting else Connected,
                          libConnected := true, isPrimary := env.amPrimary,
                          out := p.out + [if env.amPrimary then ConnectSucceeded else TransportConnect, PeerStarted]))
            && (connecting && status == Success(false) ==>
                  n == p.(state := Disconnected, out := p.out + [ConnectFailed]))
            && (connecting && status == Pending ==> n == p)
            && (connecting && status == Failed ==> Falls(p, n, env) && RequeuesIfStartingOver(p, n, env))
            && (!connecting && status.Success? ==> n == p)
            && (!connecting && !status.Success? ==> n == p.(state := Disconnected, out := p.out + [ConnectFailed]))
  {
  }

  lemma {:induction false} DisconnectAnswers(p: Peer, sinkMatches: bool, env: Env)
    ensures p.state != Disconnecting && sinkMatches ==>
              var n := Step(p, Receive(L2capDisconnectInd(sinkMatches)), env);
              Falls(p, n, env) && RequeuesIfStartingOver(p, n, env)
    ensures !sinkMatches ==> Step(p, Receive(L2capDisconnectInd(sinkMatches)), env) == p
    ensures var n := Step(p, Receive(L2capDisconnectCfm), env);
            if p.state == Disconnecting then Falls(p, n, env) && RequeuesIfStartingOver(p, n, env) else n == p
  {
    FallsHere(p, env);
  }

  /** While disconnecting, messages other than the confirm change nothing but the queue
      they are taken from. */
  lemma {:induction false} DisconnectingDrops(p: Peer, m: Message, env: Env)
    requires p.state == Disconnecting && Deliverable(p, Receive(m)) && m != L2capDisconnectCfm
    ensures Step(p, Receive(m), env) == p.(startups := if m.StartupReq? then p.startups - 1 else p.startups)
  {
  }

  // ----- an attempt never ends in silence ------------------------------------

  /** x was told between p and n. */
  ghost predicate Tells(p: Peer, n: Peer, x: Out) {
    exists k :: |p.out| <= k < |n.out| && n.out[k] == x
  }

  lemma {:induction false} TellsAt(p: Peer, n: Peer, told: seq<Out>, k: nat)
    requires n.out == p.out + told && k < |told|
    ensures Tells(p, n, told[k])
  {
    assert n.out[|p.out| + k] == told[k];
  }

  /** How an attempt may end. */
  ghost predicate EndsTold(p: Peer, n: Peer, env: Env) {
    || (n.state == Connected && Tells(p, n, PeerStarted))
    || n.state == Disconnecting
    || (Tells(p, n, ConnectFailed) && (n.state == Idle || n.state == Disconnected))
    || (env.silentCommit && Tells(p, n, PeerDisconnected) && n.state == Idle)
  }

  lemma {:induction false} FallEndsTold(p: Peer, n: Peer, env: Env)
    requires p.state.Connecting() && Falls(p, n, env)
    ensures EndsTold(p, n, env)
  {
    TellsAt(p, n, if env.silentCommit then [PeerDisconnected] else [ConnectFailed, PeerDisconnected], 0);
  }

  lemma {:induction false} FailEndsTold(p: Peer, n: Peer, env: Env)
    requires Fails(p, n)
    ensures EndsTold(p, n, env)
  {
    TellsAt(p, n, [ConnectFailed], 0);
  }

  lemma {:induction false} StartupEndsTold(p: Peer, addr: Address, env: Env)
    requires p.state.Connecting() && p.startups > 0
    ensures var n := Step(p, Receive(StartupReq(addr)), env); n.state.Connecting() || EndsTold(p, n, env)
  {
    var n := Step(p, Receive(StartupReq(addr)), env);
    StartupWaits(p, addr, env);
    if p.state.Attempting() && env.aclConnected { StartupProceeds(p, addr, env); }
    if Fails(p, n) { FailEndsTold(p, n, env); }
    if Falls(p, n, env) { FallEndsTold(p, n, env); }
  }

  lemma {:induction false} ConnectCfmEndsTold(p: Peer, status: L2capStatus, env: Env)
    requires p.state.Connecting()
    ensures var n := Step(p, Receive(L2capConnectCfm(status)), env); n.state.Connecting() || EndsTold(p, n, env)
  {
    var n := Step(p, Receive(L2capConnectCfm(status)), env);
    ConnectCfmAnswers(p, status, env);
    if Fails(p, n) {
      FailEndsTold(p, n, env);
    } else if Falls(p, n, env) {
      FallEndsTold(p, n, env);
    } else if n.state == Connected {
      TellsAt(p, n, [if env.amPrimary then ConnectSucceeded else TransportConnect, PeerStarted], 1);
    }
  }

  lemma {:induction false} MessageEndsTold(p: Peer, m: Message, env: Env)
    requires p.state.Connecting() && Deliverable(p, Receive(m))
    requires !m.L2capRegisterCfm? && !m.SdpRegisterCfm?
    ensures var n := Step(p, Receive(m), env); n.state.Connecting() || EndsTold(p, n, env)
  {
    var n := Step(p, Receive(m), env);
    match m {
      case SdpSearchCfm(result) =>
        SearchAnswers(p, result, env);
        if Falls(p, n, env) { FallEndsTold(p, n, env); }
      case L2capConnectInd(psmMatches, isPeer) =>
        ConnectIndAnswers(p, psmMatches, isPeer, env);
        if Fails(p, n) { FailEndsTold(p, n, env); }
      case L2capConnectCfm(status) => ConnectCfmEndsTold(p, status, env);
      case L2capDisconnectInd(sinkMatches) =>
        DisconnectAnswers(p, sinkMatches, env);
        if Falls(p, n, env) { FallEndsTold(p, n, env); }
      case L2capDisconnectCfm => DisconnectAnswers(p, false, env);
      case StartupReq(addr) => StartupEndsTold(p, addr, env);
      case PeerConnectReq => LinkAnswers(p, Receive(m), env, 0);
      case PeerDisconnectReq => DisconnectRequestAnswers(p, Receive(m), env);
    }
  }

  /** A connection attempt that ends is connected and announced, is being disconnected,
      or the library was told that it failed, unless a silent commit is on; the
      registration confirms, which reset the channel, apart. */
  lemma {:induction false} AttemptsEndTold(p: Peer, e: Event, env: Env)
    requires p.state.Connecting() && Deliverable(p, e)
    requires !(e.Receive? && (e.message.L2capRegisterCfm? || e.message.SdpRegisterCfm?))
    ensures var n := Step(p, e, env); n.state.Connecting() || EndsTold(p, n, env)
  {
    match e {
      case Receive(m) => MessageEndsTold(p, m, env);
      case InitiateLink => LinkAnswers(p, e, env, 0);
      case InitiateDisconnection => DisconnectRequestAnswers(p, e, env);
      case SetRole(_) =>
    }
  }

  // ----- a link request leads to a connection --------------------------------

  /** The messages of an attempt that goes well. */
  ghost function Connecting(addr: Address, env: Env): seq<Input> {
    [Input(InitiateLink, env),
     Input(Receive(StartupReq(addr)), env),
     Input(Receive(StartupReq(addr)), env),
     Input(Receive(SdpSearchCfm(Found)), env),
     Input(Receive(L2capConnectCfm(Success(true))), env)]
  }

  /** From any Idle state with the peer known and the ACL up, they end connected: the
      library and the clients are told so, and nothing else. */
  lemma {:induction false} OutgoingConnects(p: Peer, addr: Address, env: Env)
    requires p.state == Idle && env.peerAddr == Some(addr) && env.aclConnected
    requires !(env.dfuReset && env.silentCommit && env.amPrimary)
    ensures DeliverableRun(p, Connecting(addr, env))
    ensures var n := AfterAll(p, Connecting(addr, env));
            && n.state == Connected && n.libConnected && n.peerAddr == addr && n.startups == 0
            && n.isPrimary == env.amPrimary
            && n.out == p.out + [if env.amPrimary then ConnectSucceeded else TransportConnect, PeerStarted]
  {
    var run := Connecting(addr, env);
    var asked := Step(p, run[0].event, env);
    var waiting := Step(asked, run[1].event, env);
    assert waiting.state == ConnectingAcl && waiting.startups > 0;
    var searching := Step(waiting, run[2].event, env);
    assert searching.state == ConnectingSdpSearch && searching.startups == 0 && searching.peerAddr == addr;
    var opening := Step(searching, run[3].event, env);
    assert opening.state == ConnectingLocal;
    var connected := Step(opening, run[4].event, env);
    ReachedByFive(p, run, asked, waiting, searching, opening, connected);
  }

  lemma {:induction false} ReachedByFive(
      p: Peer, run: seq<Input>, a: Peer, b: Peer, c: Peer, d: Peer, e: Peer)
    requires |run| == 5
    requires Deliverable(p, run[0].event) && a == Step(p, run[0].event, run[0].env)
    requires Deliverable(a, run[1].event) && b == Step(a, run[1].event, run[1].env)
    requires Deliverable(b, run[2].event) && c == Step(b, run[2].event, run[2].env)
    requires Deliverable(c, run[3].event) && d == Step(c, run[3].event, run[3].env)
    requires Deliverable(d, run[4].event) && e == Step(d, run[4].event, run[4].env)
    ensures DeliverableRun(p, run) && AfterAll(p, run) == e
  {
    var r1, r2, r3, r4 := run[1..], run[2..], run[3..], run[4..];
    assert r4[1..] == [] && DeliverableRun(e, []);
    assert r3[1..] == r4 && DeliverableRun(d, r4) && AfterAll(d, r4) == e;
    assert r2[1..] == r3 && DeliverableRun(c, r3) && AfterAll(c, r3) == e;
    assert r1[1..] == r2 && DeliverableRun(b, r2) && AfterAll(b, r2) == e;
    assert DeliverableRun(a, r1) && AfterAll(a, r1) == e;
  }
}
