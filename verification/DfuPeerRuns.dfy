/** Properties of every run of the DFU peer channel. */
module DfuPeerRuns {
  import opened DfuPeer

  datatype Input = Input(event: Event, env: Env)

  /** The service-record registration is confirmed while the upgrade library has
      no peer connection (in the firmware: during initialisation). */
  ghost predicate Lawful(p: Peer, e: Event) {
    && Deliverable(p, e)
    && (e == Receive(SdpRegisterCfm(true)) && p.state != Disconnecting ==> !p.libConnected)
  }

  ghost predicate LawfulRun(p: Peer, run: seq<Input>)
    decreases |run|
  {
    run != [] ==> Lawful(p, run[0].event) && LawfulRun(Step(p, run[0].event, run[0].env), run[1..])
  }

  ghost function After(p: Peer, run: seq<Input>): Peer
    requires LawfulRun(p, run)
    decreases |run|
  {
    if run == [] then p else After(Step(p, run[0].event, run[0].env), run[1..])
  }

  // ----- what clients and the library are told -------------------------------

  /** The last start or disconnection announced was a start. */
  ghost predicate LastStarted(out: seq<Out>) {
    out != [] && (out[|out| - 1].PeerStarted? || (!out[|out| - 1].PeerDisconnected? && LastStarted(out[..|out| - 1])))
  }

  /** Between any two starts there is a disconnection. */
  ghost predicate Alternating(out: seq<Out>) {
    forall i, j :: 0 <= i < j < |out| && out[i].PeerStarted? && out[j].PeerStarted?
                   ==> exists k :: i < k < j && out[k].PeerDisconnected?
  }

  ghost predicate Consistent(p: Peer) {
    && Alternating(p.out)
    && (p.libConnected <==> LastStarted(p.out))
    && (p.state == Connected ==> p.libConnected)
    && (p.state == Initialise || p.state == Idle || p.state.Connecting() ==> !p.libConnected)
  }

  lemma {:induction false} LastStartedAfter(out: seq<Out>, o: Out)
    ensures LastStarted(out + [o]) <==> o.PeerStarted? || (!o.PeerDisconnected? && LastStarted(out))
  {
    assert (out + [o])[..|out + [o]| - 1] == out;
  }

  /** Nothing but ends of a connection since a start that is not the last word. */
  lemma {:induction false} StartWasEnded(out: seq<Out>, i: nat)
    requires i < |out| && out[i].PeerStarted? && !LastStarted(out)
    ensures exists k :: i < k < |out| && out[k].PeerDisconnected?
  {
    var n := |out| - 1;
    if !out[n].PeerDisconnected? {
      StartWasEnded(out[..n], i);
      var k :| i < k < n && out[..n][k].PeerDisconnected?;
      assert out[k].PeerDisconnected?;
    }
  }

  lemma {:induction false} AlternatingAfter(out: seq<Out>, o: Out)
    requires Alternating(out) && (o.PeerStarted? ==> !LastStarted(out))
    ensures Alternating(out + [o])
  {
    var more := out + [o];
    forall i, j | 0 <= i < j < |more| && more[i].PeerStarted? && more[j].PeerStarted?
      ensures exists k :: i < k < j && more[k].PeerDisconnected?
    {
      if j == |out| {
        StartWasEnded(out, i);
        var k :| i < k < |out| && out[k].PeerDisconnected?;
        assert more[k].PeerDisconnected?;
      } else {
        var k :| i < k < j && out[k].PeerDisconnected?;
        assert more[k].PeerDisconnected?;
      }
    }
  }

  lemma {:induction false} TellsOne(p: Peer, o: Out)
    requires Alternating(p.out) && (o.PeerStarted? ==> !LastStarted(p.out))
    ensures Alternating(p.out + [o])
    ensures LastStarted(p.out + [o]) <==> o.PeerStarted? || (!o.PeerDisconnected? && LastStarted(p.out))
  {
    AlternatingAfter(p.out, o);
    LastStartedAfter(p.out, o);
  }

  lemma {:induction false} LinkConsistent(p: Peer, env: Env)
    requires Consistent(p)
    ensures Consistent(Link(p, env))
  {
    TellsOne(p, ConnectFailed);
  }

  lemma {:induction false} FailConsistent(p: Peer)
    requires Consistent(p)
    ensures Consistent(Fail(p))
  {
    TellsOne(p, ConnectFailed);
  }

  lemma {:induction false} DropConsistent(p: Peer, env: Env)
    requires Alternating(p.out)
    ensures Consistent(Drop(p, env))
  {
    var first := if p.state == Connected || p.state == Disconnecting
                 then (if p.isPrimary then DisconnectInd else TransportDisconnect) else ConnectFailed;
    AlternatingAfter(p.out, first);
    AlternatingAfter(p.out + [first], PeerDisconnected);
    AlternatingAfter(p.out, PeerDisconnected);
    LastStartedAfter(p.out + [first], PeerDisconnected);
    LastStartedAfter(p.out, PeerDisconnected);
    assert p.out + [] == p.out;
  }

  lemma {:induction false} DisconnectConsistent(p: Peer, env: Env)
    requires Alternating(p.out)
    ensures Consistent(EnterDisconnected(p, env)) && EnterDisconnected(p, env).state == Idle
  {
    DropConsistent(p, env);
    LinkConsistent(Drop(p, env).(isPrimary := true), env);
  }

  lemma {:induction false} ConnectConsistent(p: Peer, env: Env)
    requires Consistent(p) && p.state.Connecting()
    ensures Consistent(EnterConnected(p, env))
  {
    var first := if env.amPrimary then ConnectSucceeded else TransportConnect;
    AlternatingAfter(p.out, first);
    LastStartedAfter(p.out, first);
    AlternatingAfter(p.out + [first], PeerStarted);
    LastStartedAfter(p.out + [first], PeerStarted);
    assert p.out + [first, PeerStarted] == p.out + [first] + [PeerStarted];
  }

  lemma {:induction false} SearchConsistent(p: Peer, env: Env)
    requires Consistent(p) && p.state.Attempting()
    ensures Consistent(EnterSdpSearch(p, env))
  {
    FailConsistent(p);
  }

  lemma {:induction false} ProceedConsistent(p: Peer, addr: Address, env: Env)
    requires Consistent(p) && p.state.Attempting()
    ensures Consistent(Proceed(p, addr, env))
  {
    if !env.aclLocal && p.peerAddr != addr {
      DisconnectConsistent(p, env);
    } else if p.state == ConnectingAcl {
      SearchConsistent(p.(peerAddr := addr), env);
    } else {
      var q := p.(sdpAttempts := (p.sdpAttempts + 1) % 0x10000);
      SearchConsistent(q, env);
      DisconnectConsistent(q, env);
    }
  }

  lemma {:induction false} StartupConsistent(p: Peer, addr: Address, env: Env)
    requires Consistent(p) && p.startups > 0
    ensures Consistent(OnStartup(p, addr, env))
  {
    var q := p.(startups := p.startups - 1);
    if p.state.Attempting() {
      ProceedConsistent(q, addr, env);
      DisconnectConsistent(q, env);
    } else {
      FailConsistent(q);
    }
  }

  lemma {:induction false} ConnectCfmConsistent(p: Peer, status: L2capStatus, env: Env)
    requires Consistent(p)
    ensures Consistent(OnConnectCfm(p, status, env))
  {
    if (p.state == ConnectingLocal || p.state == ConnectingRemote) && status == Success(true) {
      ConnectConsistent(p, env);
    } else if (p.state == ConnectingLocal || p.state == ConnectingRemote) && status == Failed {
      DisconnectConsistent(p, env);
    } else {
      FailConsistent(p);
    }
  }

  lemma {:induction false} SearchCfmConsistent(p: Peer, result: SdpResult, env: Env)
    requires Consistent(p)
    ensures Consistent(OnSdpSearch(p, result, env))
  {
    if result == Found { TellsOne(p, ConnectFailed); } else { DisconnectConsistent(p, env); }
  }

  lemma {:induction false} ConnectIndConsistent(p: Peer, psmMatches: bool, isPeer: bool)
    requires Consistent(p)
    ensures Consistent(OnConnectInd(p, psmMatches, isPeer))
  {
    FailConsistent(p);
  }

  lemma {:induction false} HandleConsistent(p: Peer, m: Message, env: Env)
    requires Consistent(p) && Lawful(p, Receive(m)) && p.state != Disconnecting
    ensures Consistent(Handle(p, m, env))
  {
    match m
    case L2capRegisterCfm(_) =>
    case SdpRegisterCfm(_) =>
    case SdpSearchCfm(result) => SearchCfmConsistent(p, result, env);
    case L2capConnectInd(psmMatches, isPeer) => ConnectIndConsistent(p, psmMatches, isPeer);
    case L2capConnectCfm(status) => ConnectCfmConsistent(p, status, env);
    case L2capDisconnectInd(_) => DisconnectConsistent(p, env);
    case L2capDisconnectCfm =>
    case StartupReq(addr) => StartupConsistent(p, addr, env);
    case PeerConnectReq => LinkConsistent(p, env);
    case PeerDisconnectReq =>
  }

  lemma {:induction false} StepConsistent(p: Peer, e: Event, env: Env)
    requires Consistent(p) && Lawful(p, e)
    ensures Consistent(Step(p, e, env))
  {
    match e
    case Receive(m) =>
      if p.state != Disconnecting {
        HandleConsistent(p, m, env);
      } else if m.L2capDisconnectCfm? {
        DisconnectConsistent(p, env);
      }
    case InitiateLink => LinkConsistent(p, env);
    case InitiateDisconnection =>
    case SetRole(_) =>
  }

  /** In every run: a DFU_PEER_DISCONNECTED separates any two DFU_PEER_STARTED, and
      the library's connected status, which is true exactly from a start to the
      next disconnection, is true in Connected and false in Idle and while
      connecting. */
  lemma {:induction false} RunConsistent(p: Peer, run: seq<Input>)
    requires Consistent(p) && LawfulRun(p, run)
    ensures Consistent(After(p, run))
    decreases |run|
  {
    if run != [] {
      StepConsistent(p, run[0].event, run[0].env);
      RunConsistent(Step(p, run[0].event, run[0].env), run[1..]);
    }
  }

  lemma {:induction false} EveryRunConsistent(run: seq<Input>)
    requires LawfulRun(INITIAL, run)
    ensures var p := After(INITIAL, run);
            && Alternating(p.out)
            && (p.state == Connected ==> p.libConnected)
            && (p.state == Idle || p.state.Connecting() ==> !p.libConnected)
            && (p.libConnected <==> LastStarted(p.out))
  {
    RunConsistent(INITIAL, run);
  }

  const CONFIRM: Event := Receive(SdpRegisterCfm(true))

  /** A connection accepted from the peer, as two inputs. */
  ghost function Accepting(env: Env): seq<Input> {
    [Input(Receive(L2capConnectInd(true, true)), env), Input(Receive(L2capConnectCfm(Success(true))), env)]
  }

  /** Two starts with no disconnection between them. */
  lemma {:induction false} StartsTwice(out: seq<Out>, o: Out)
    requires LastStarted(out) && !o.PeerStarted? && !o.PeerDisconnected?
    ensures !Alternating(out + [o, PeerStarted])
  {
    var i := LastStartAt(out);
    var more := out + [o, PeerStarted];
    assert more[i].PeerStarted? && more[|out| + 1].PeerStarted?;
    forall k | i < k < |out| + 1 ensures !more[k].PeerDisconnected? {
      assert k == |out| || more[k] == out[k];
    }
  }

  lemma {:induction false} LastStartAt(out: seq<Out>) returns (i: nat)
    requires LastStarted(out)
    ensures i < |out| && out[i].PeerStarted?
    ensures forall k :: i < k < |out| ==> !out[k].PeerDisconnected?
  {
    i := |out| - 1;
    if !out[i].PeerStarted? {
      i := LastStartAt(out[..|out| - 1]);
    }
  }

  /** A confirm that comes while the library is connected makes the channel accept
      a second connection, whose start follows the first one's. */
  lemma {:induction false} LateConfirmBreaks(p: Peer, env: Env)
    requires Consistent(p) && p.state != Disconnecting && p.libConnected
    ensures var q := Step(p, CONFIRM, env);
            LawfulRun(q, Accepting(env)) && !Alternating(After(q, Accepting(env)).out)
  {
    var q, run := Step(p, CONFIRM, env), Accepting(env);
    var r := Step(q, run[0].event, env);
    assert r == q.(state := ConnectingRemote);
    var s := Step(r, run[1].event, env);
    StartsTwice(p.out, if env.amPrimary then ConnectSucceeded else TransportConnect);
    assert run[1..][1..] == [];
    assert LawfulRun(s, []) && LawfulRun(r, run[1..]);
    assert After(r, run[1..]) == s;
  }

  /** The condition on the registration confirm is exact: from any consistent state
      every run after the confirm keeps starts and disconnections alternating if
      and only if the library is not connected when it comes. */
  lemma {:induction false} RegisterConfirmIff(p: Peer, env: Env)
    requires Consistent(p) && p.state != Disconnecting
    ensures (forall run :: LawfulRun(Step(p, CONFIRM, env), run) ==> Alternating(After(Step(p, CONFIRM, env), run).out))
            <==> !p.libConnected
  {
    var q := Step(p, CONFIRM, env);
    if p.libConnected {
      LateConfirmBreaks(p, env);
    } else {
      StepConsistent(p, CONFIRM, env);
      forall run | LawfulRun(q, run) ensures Alternating(After(q, run).out) { RunConsistent(q, run); }
    }
  }

  /** Such a state is reached by registering and accepting one connection. */
  lemma {:induction false} ConnectedReached(env: Env)
    requires !env.silentCommit
    ensures var run := [Input(CONFIRM, env)] + Accepting(env);
            && LawfulRun(INITIAL, run)
            && After(INITIAL, run).state == Connected && After(INITIAL, run).libConnected
  {
    var run := [Input(CONFIRM, env)] + Accepting(env);
    assert run[1..] == Accepting(env) && run[1..][1..][1..] == [];
    var idle := Step(INITIAL, CONFIRM, env);
    var connecting := Step(idle, run[1].event, env);
    var connected := Step(connecting, run[2].event, env);
    assert LawfulRun(connected, []);
    assert LawfulRun(connecting, run[1..][1..]) && After(connecting, run[1..][1..]) == connected;
    assert LawfulRun(idle, run[1..]) && After(idle, run[1..]) == connected;
  }

  /** Disconnecting is left only by the disconnect confirm, and then for Idle. */
  lemma {:induction false} DisconnectingLeavesForIdle(p: Peer, e: Event, env: Env)
    requires p.state == Disconnecting && Deliverable(p, e)
    ensures Step(p, e, env).state == if e == Receive(L2capDisconnectCfm) then Idle else Disconnecting
  {
  }

  // ----- any run at all ------------------------------------------------------

  ghost predicate DeliverableRun(p: Peer, run: seq<Input>)
    decreases |run|
  {
    run != [] ==> Deliverable(p, run[0].event) && DeliverableRun(Step(p, run[0].event, run[0].env), run[1..])
  }

  ghost function AfterAll(p: Peer, run: seq<Input>): Peer
    requires DeliverableRun(p, run)
    decreases |run|
  {
    if run == [] then p else AfterAll(Step(p, run[0].event, run[0].env), run[1..])
  }

  // ----- connection attempts terminate ---------------------------------------

  /** The retries that an attempt has left. */
  ghost function Left(p: Peer): int {
    (ACL_CONNECT_RETRY_LIMIT - p.aclAttempts) + (SDP_SEARCH_RETRY_LIMIT + 1 - p.sdpAttempts)
      + if p.state == ConnectingAcl then 1 else 0
  }

  /** Counters stay in range; a spent search counter means nothing is under way. */
  ghost predicate Counted(p: Peer) {
    && p.aclAttempts <= ACL_CONNECT_RETRY_LIMIT
    && p.sdpAttempts <= SDP_SEARCH_RETRY_LIMIT + 1
    && (p.sdpAttempts == SDP_SEARCH_RETRY_LIMIT + 1 ==> p.startups == 0 && !p.state.Attempting())
  }

  lemma {:induction false} ResetCounted(p: Peer, env: Env)
    requires Counted(p)
    ensures Counted(Link(p, env)) && Counted(EnterDisconnected(p, env))
  {
  }

  lemma {:induction false} StartupCounted(p: Peer, addr: Address, env: Env)
    requires Counted(p) && p.startups > 0
    ensures Counted(OnStartup(p, addr, env))
  {
    var q := p.(startups := p.startups - 1);
    assert p.state.Attempting() && env.aclConnected ==> Counted(Proceed(q, addr, env).(startups := 0));
    ResetCounted(q, env);
  }

  lemma {:induction false} L2capCounted(p: Peer, status: L2capStatus, env: Env)
    requires Counted(p)
    ensures Counted(OnConnectCfm(p, status, env))
  {
    ResetCounted(p, env);
  }

  lemma {:induction false} SearchCounted(p: Peer, result: SdpResult, env: Env)
    requires Counted(p)
    ensures Counted(OnSdpSearch(p, result, env))
  {
    ResetCounted(p, env);
  }

  lemma {:induction false} HandleCounted(p: Peer, m: Message, env: Env)
    requires Counted(p) && Deliverable(p, Receive(m))
    ensures Counted(Handle(p, m, env))
  {
    match m {
      case StartupReq(addr) => StartupCounted(p, addr, env);
      case L2capConnectCfm(status) => L2capCounted(p, status, env);
      case SdpSearchCfm(result) => SearchCounted(p, result, env);
      case _ => ResetCounted(p, env);
    }
  }

  lemma {:induction false} StepCounted(p: Peer, e: Event, env: Env)
    requires Counted(p) && Deliverable(p, e)
    ensures Counted(Step(p, e, env))
  {
    match e {
      case Receive(m) => HandleCounted(p, m, env);
      case InitiateLink => ResetCounted(p, env);
      case InitiateDisconnection =>
      case SetRole(_) =>
    }
  }

  lemma {:induction false} RunCounted(p: Peer, run: seq<Input>)
    requires Counted(p) && DeliverableRun(p, run)
    ensures Counted(AfterAll(p, run))
    decreases |run|
  {
    if run != [] {
      StepCounted(p, run[0].event, run[0].env);
      RunCounted(Step(p, run[0].event, run[0].env), run[1..]);
    }
  }

  /** A startup request handled during an attempt ends the attempt or uses up one
      of the retries it has left, of which there are at most 32. */
  lemma {:induction false} StartupUsesRetry(p: Peer, addr: Address, env: Env)
    requires Counted(p) && p.startups > 0 && p.state.Attempting()
    ensures var q := Step(p, Receive(StartupReq(addr)), env);
            q.state.Attempting() ==> 0 <= Left(q) < Left(p) <= 32
  {
  }

  /** Everything else leaves the attempt or the retries alone. */
  lemma {:induction false} OthersKeepRetries(p: Peer, e: Event, env: Env)
    requires Counted(p) && Deliverable(p, e) && p.state.Attempting()
    requires e != InitiateLink && e != Receive(PeerConnectReq) && !(e.Receive? && e.message.StartupReq?)
    ensures var q := Step(p, e, env); q.state.Attempting() ==> Left(q) == Left(p)
  {
  }

  ghost function StartupsIn(run: seq<Input>): nat {
    if run == [] then 0
    else StartupsIn(run[1..]) + if run[0].event.Receive? && run[0].event.message.StartupReq? then 1 else 0
  }

  /** The run stays in the attempt and asks for no new connection. */
  ghost predicate OneAttempt(p: Peer, run: seq<Input>)
    requires DeliverableRun(p, run)
    decreases |run|
  {
    && p.state.Attempting()
    && (run != [] ==>
          && run[0].event != InitiateLink && run[0].event != Receive(PeerConnectReq)
          && OneAttempt(Step(p, run[0].event, run[0].env), run[1..]))
  }

  /** However long a single attempt lasts, it handles at most Left(p) startup
      requests. */
  lemma {:induction false} AttemptHandlesFewStartups(p: Peer, run: seq<Input>)
    requires Counted(p) && DeliverableRun(p, run) && OneAttempt(p, run)
    ensures StartupsIn(run) <= Left(p) - Left(AfterAll(p, run)) && 0 <= Left(AfterAll(p, run))
    decreases |run|
  {
    if run != [] {
      var q := Step(p, run[0].event, run[0].env);
      StepCounted(p, run[0].event, run[0].env);
      if run[0].event.Receive? && run[0].event.message.StartupReq? {
        StartupUsesRetry(p, run[0].event.message.addr, run[0].env);
      } else {
        OthersKeepRetries(p, run[0].event, run[0].env);
      }
      AttemptHandlesFewStartups(q, run[1..]);
    }
  }

  /** So in every run, any attempt handles at most 32 startup requests, whether or
      not a silent commit is on: a restart after a disconnection is a new attempt,
      and one begun by a startup request has its request cancelled. */
  lemma {:induction false} AttemptsTerminate(before: seq<Input>, run: seq<Input>)
    requires DeliverableRun(INITIAL, before) && DeliverableRun(AfterAll(INITIAL, before), run)
    requires OneAttempt(AfterAll(INITIAL, before), run)
    ensures StartupsIn(run) <= 32
  {
    RunCounted(INITIAL, before);
    AttemptHandlesFewStartups(AfterAll(INITIAL, before), run);
  }
}
