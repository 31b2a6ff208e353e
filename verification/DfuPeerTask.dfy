/**
 * The DFU peer task: a record changed in place by message handlers and state
 * entry actions, proved against DfuPeer.
 */
module DfuPeerTasks {
  import opened Common
  import opened DfuPeer
  import opened DfuPeerRuns

  class DfuPeerTask {
    var state: State
    var isPrimary: bool
    var peerAddr: Address
    var aclAttempts: nat
    var sdpAttempts: nat
    /** Startup requests in this task's message queue. */
    var startups: nat
    /** The upgrade library's record of the peer connection. */
    var libConnected: bool
    var out: seq<Out>

    ghost function Value(): Peer
      reads this
    {
      Peer(state, isPrimary, peerAddr, aclAttempts, sdpAttempts, startups, libConnected, out)
    }

    /** What clients and the library have been told agrees with the state, and the
        retry counters are in range. */
    ghost predicate Valid()
      reads this
    {
      Consistent(Value()) && Counted(Value())
    }

    constructor ()
      ensures Valid() && Value() == INITIAL
    {
      state, isPrimary, peerAddr := Initialise, false, 0;
      aclAttempts, sdpAttempts, startups, libConnected, out := 0, 0, 0, false, [];
    }

    method Send(o: Out)
      modifies this`out
      ensures out == old(out) + [o]
    {
      out := out + [o];
    }

    method SendL2capConnectFailure()
      modifies this`out
      ensures out == old(out) + [ConnectFailed]
    {
      Send(ConnectFailed);
    }

    method SetRoleTo(primary: bool)
      modifies this
      ensures Value() == old(Value()).(isPrimary := primary)
    {
      isPrimary := primary;
    }

    method InitiateLinkToPeer(env: Env)
      modifies this
      ensures Value() == Link(old(Value()), env)
      ensures old(state) == Idle && env.peerAddr.Some? ==>
                startups == old(startups) + 1 && peerAddr == env.peerAddr.value && state == Idle
    {
      aclAttempts, sdpAttempts := 0, 0;
      if state != Idle {
        SendL2capConnectFailure();
        return;
      }
      if env.peerAddr.Some? {
        peerAddr := env.peerAddr.value;
        startups := startups + 1;
      }
    }

    method InitiatePeerLinkDisconnection(env: Env)
      modifies this
      ensures Value() == Unlink(old(Value()))
      decreases 1
    {
      match state
      case Connected | ConnectingAcl | ConnectingSdpSearch | ConnectingLocal | ConnectingRemote =>
        SetState(Disconnecting, env);
      case _ =>
    }

    /** The state after SetState: the new state's entry action has run. */
    ghost function Entered(p: Peer, newState: State, env: Env): Peer {
      match newState
      case Disconnected => EnterDisconnected(p, env)
      case Connected => EnterConnected(p, env)
      case ConnectingSdpSearch => EnterSdpSearch(p, env)
      case _ => p.(state := newState)
    }

    method SetState(newState: State, env: Env)
      modifies this
      ensures Value() == Entered(old(Value()), newState, env)
      decreases if newState == Connected then 3 else 0
    {
      var oldState := state;
      state := newState;
      match newState
      case Disconnected => OnDisconnected(oldState, env);
      case ConnectingSdpSearch => SdpSearch(env);
      case Connected => OnConnected(env);
      case _ =>
    }

    method OnConnected(env: Env)
      requires state == Connected
      modifies this
      ensures Value() == EnterConnected(old(Value()), env)
      decreases 2
    {
      libConnected := true;
      SetRoleTo(env.amPrimary);
      if isPrimary {
        Send(ConnectSucceeded);
      } else {
        Send(TransportConnect);
      }
      Send(PeerStarted);
      if env.dfuReset && env.silentCommit {
        if isPrimary {
          InitiatePeerLinkDisconnection(env);
        }
      }
    }

    method OnDisconnected(oldState: State, env: Env)
      modifies this
      ensures Value() == EnterDisconnected(old(Value()).(state := oldState), env)
    {
      libConnected := false;
      if oldState == Connected || oldState == Disconnecting {
        if isPrimary {
          Send(DisconnectInd);
        } else {
          Send(TransportDisconnect);
        }
      } else if !env.silentCommit {
        SendL2capConnectFailure();
      }
      isPrimary := false;
      state := Idle;
      Send(PeerDisconnected);
      if env.silentCommit && !env.linkLoss && !env.blocked {
        SetRoleTo(env.amPrimary);
        if env.amPrimary {
          InitiateLinkToPeer(env);
        }
      }
    }

    method SdpSearch(env: Env)
      requires state == ConnectingSdpSearch
      modifies this
      ensures Value() == EnterSdpSearch(old(Value()), env)
    {
      if env.peerAddr.None? {
        state := Disconnected;
        SendL2capConnectFailure();
      }
    }

    method Error()
      modifies this
      ensures Value() == Fail(old(Value()))
    {
      state := Disconnected;
      SendL2capConnectFailure();
    }

    /** A startup request with the ACL up: search, search again, or give up. */
    method ProceedOnAcl(addr: Address, env: Env)
      requires state.Attempting()
      modifies this
      ensures Value() == Proceed(old(Value()), addr, env)
    {
      if env.aclLocal || peerAddr == addr {
        if state == ConnectingAcl {
          peerAddr := addr;
          SetState(ConnectingSdpSearch, env);
        } else {
          sdpAttempts := (sdpAttempts + 1) % 0x10000;
          if sdpAttempts <= SDP_SEARCH_RETRY_LIMIT {
            SetState(ConnectingSdpSearch, env);
          } else {
            SetState(Disconnected, env);
          }
        }
      } else {
        SetState(Disconnected, env);
      }
    }

    /** A startup request during an attempt; `again` if it has been posted again. */
    method ContinueAttempt(addr: Address, env: Env) returns (again: bool)
      requires state.Attempting()
      modifies this
      ensures again <==> !env.aclConnected && old(aclAttempts) < ACL_CONNECT_RETRY_LIMIT
      ensures again ==> Value() == old(Value()).(aclAttempts := old(aclAttempts) + 1, startups := old(startups) + 1)
      ensures !again ==> Value() == if env.aclConnected then Proceed(old(Value()), addr, env)
                                    else EnterDisconnected(old(Value()), env)
    {
      again := false;
      if env.aclConnected {
        ProceedOnAcl(addr, env);
      } else if aclAttempts >= ACL_CONNECT_RETRY_LIMIT {
        SetState(Disconnected, env);
      } else {
        aclAttempts := aclAttempts + 1;
        startups := startups + 1;
        again := true;
      }
    }

    method StartupInAttempt(addr: Address, env: Env)
      requires startups > 0 && state.Attempting()
      modifies this
      ensures Value() == OnStartup(old(Value()), addr, env)
    {
      startups := startups - 1;
      var again := ContinueAttempt(addr, env);
      if !again {
        startups := 0;
      }
    }

    /** The request has been taken off the queue; some paths put it back. */
    method HandleInternalStartupRequest(addr: Address, env: Env)
      requires startups > 0
      modifies this
      ensures Value() == OnStartup(old(Value()), addr, env)
    {
      match state {
        case ConnectingAcl | ConnectingSdpSearch =>
          StartupInAttempt(addr, env);
          return;
        case Idle =>
          SetState(ConnectingAcl, env);
          return;
        case Connected =>
        case _ => Error();
      }
      startups := 0;
    }

    method ConnectL2cap(addr: Address, env: Env)
      modifies this
      ensures Value() == if env.peerAddr == Some(addr) then old(Value()) else Fail(old(Value()))
    {
      if env.peerAddr.None? || addr != env.peerAddr.value {
        state := Disconnected;
        SendL2capConnectFailure();
      }
    }

    method HandleSdpServiceSearchAttributeCfm(result: SdpResult, env: Env)
      modifies this
      ensures Value() == OnSdpSearch(old(Value()), result, env)
    {
      match state
      case ConnectingSdpSearch =>
        if result == Found {
          ConnectL2cap(peerAddr, env);
          SetState(ConnectingLocal, env);
        } else if result == Malformed {
          SetState(Disconnected, env);
        } else if result == Retry {
          startups := startups + 1;
        } else {
          SetState(Disconnected, env);
        }
      case _ =>
    }

    method HandleL2capConnectInd(psmMatches: bool, isPeer: bool, env: Env)
      modifies this
      ensures Value() == OnConnectInd(old(Value()), psmMatches, isPeer)
    {
      if !psmMatches {
        state := Disconnected;
        SendL2capConnectFailure();
        return;
      }
      match state
      case Idle => if isPeer { SetState(ConnectingRemote, env); }
      case _ =>
    }

    method HandleL2capConnectCfm(status: L2capStatus, env: Env)
      modifies this
      ensures Value() == OnConnectCfm(old(Value()), status, env)
    {
      match state
      case ConnectingLocal | ConnectingRemote =>
        if status.Success? {
          if !status.configured {
            state := Disconnected;
            SendL2capConnectFailure();
            return;
          }
          SetState(Connected, env);
        } else if status.Failed? {
          SetState(Disconnected, env);
        }
      case _ =>
        if !status.Success? {
          state := Disconnected;
          SendL2capConnectFailure();
        }
    }

    method HandleMessage(m: Message, env: Env)
      requires m.StartupReq? ==> startups > 0
      modifies this
      ensures Value() == Dispatch(old(Value()), m, env)
      ensures old(Valid()) && Lawful(old(Value()), Receive(m)) ==> Valid()
    {
      if Valid() { KeepsValid(Receive(m), env); }
      if state == Disconnecting && !m.L2capDisconnectCfm? {
        if m.StartupReq? { startups := startups - 1; }
        return;
      }
      match m
      case L2capRegisterCfm(success) => if !success { state := Disconnected; }
      case SdpRegisterCfm(success) =>
        if success { SetState(Idle, env); } else { state := Disconnected; }
      case SdpSearchCfm(result) => HandleSdpServiceSearchAttributeCfm(result, env);
      case L2capConnectInd(psmMatches, isPeer) => HandleL2capConnectInd(psmMatches, isPeer, env);
      case L2capConnectCfm(status) => HandleL2capConnectCfm(status, env);
      case L2capDisconnectInd(sinkMatches) => if sinkMatches { SetState(Disconnected, env); }
      case L2capDisconnectCfm => if state == Disconnecting { SetState(Disconnected, env); }
      case StartupReq(addr) => HandleInternalStartupRequest(addr, env);
      case PeerConnectReq => InitiateLinkToPeer(env);
      case PeerDisconnectReq => InitiatePeerLinkDisconnection(env);
    }

    /** The specified step keeps the invariant, if the event is lawful. */
    lemma {:induction false} KeepsValid(e: Event, env: Env)
      requires Valid() && Deliverable(Value(), e)
      ensures Counted(Step(Value(), e, env))
      ensures Lawful(Value(), e) ==> Consistent(Step(Value(), e, env))
    {
      StepCounted(Value(), e, env);
      if Lawful(Value(), e) { StepConsistent(Value(), e, env); }
    }

    /** A message or a call from outside. A startup request handled during an attempt
        ends it or uses up one of its retries; disconnecting ends only with the
        confirm, in Idle. */
    method HandleEvent(e: Event, env: Env)
      requires Deliverable(Value(), e)
      modifies this
      ensures Value() == Step(old(Value()), e, env)
      ensures old(Valid()) && Lawful(old(Value()), e) ==> Valid()
      ensures old(Valid()) && old(state).Attempting() && e.Receive? && e.message.StartupReq? && state.Attempting() ==>
                0 <= Left(Value()) < Left(old(Value()))
      ensures old(state) == Disconnecting ==>
                state == if e == Receive(L2capDisconnectCfm) then Idle else Disconnecting
    {
      if Valid() {
        KeepsValid(e, env);
        if state.Attempting() && e.Receive? && e.message.StartupReq? {
          StartupUsesRetry(Value(), e.message.addr, env);
        }
      }
      if state == Disconnecting { DisconnectingLeavesForIdle(Value(), e, env); }
      match e
      case Receive(m) => HandleMessage(m, env);
      case InitiateLink => InitiateLinkToPeer(env);
      case InitiateDisconnection => InitiatePeerLinkDisconnection(env);
      case SetRole(primary) => SetRoleTo(primary);
    }
  }
}
