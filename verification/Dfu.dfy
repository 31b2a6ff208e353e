/**
 * The DFU domain of one device: the lock word that holds back the start
 * indication until the peer has erased, the lock word that holds back the hash
 * check until the peer's data transfer is over, and the queues they gate.
 */
module Dfu {

  /** peerDataTransferStatus; the message system reads it as a lock word, and
      only Completed is zero. */
  datatype Transfer = Completed | Started | NotStarted

  datatype Log =
    | RequestSent
    | ReplySent(success: bool)
    | ReplyReceived(success: bool)
    | StartQueued(id: nat)
    | StartNotified(id: nat)
    | StartedAtOnce
    | Ended(aborted: bool)
    | PeerInitialised
    | TransferStarted
    | TransferEnded
    | UpgradeCompleted
    | HashStarted(gated: bool)

  datatype Event =
    | EarlyErase(primary: bool, libPrimary: bool, blocked: bool)
    | StartDataInd(primary: bool)
    | EndDataInd(aborted: bool)
    | EraseRequest(primary: bool, initOk: bool, wait: bool)
    | EraseReply(primary: bool, success: bool)
    | EraseStatus(primary: bool, success: bool)
    | DeliverStart(startsPeer: bool)
    | PeerInit
    | EndDataTransfer
    | StatusDone
    | HashRequest(gated: bool)
    | DeliverHash(k: nat)

  /** `starts` and `hashes` are undelivered messages, oldest first; a start keeps
      its serial number, a hash request whether it is gated. */
  datatype Domain = Domain(
    eraseLock: bool,
    starts: seq<nat>,
    serial: nat,
    transfer: Transfer,
    hashes: seq<bool>,
    log: seq<Log>)

  /** Zeroed memory: both lock words are open. */
  const BOOT: Domain := Domain(false, [], 0, Completed, [], [])

  predicate Deliverable(d: Domain, e: Event) {
    && (e.DeliverStart? ==> d.starts != [] && !d.eraseLock)
    && (e.DeliverHash? ==> e.k < |d.hashes| && (d.hashes[e.k] ==> d.transfer == Completed))
  }

  function Note(d: Domain, x: Log): Domain { d.(log := d.log + [x]) }

  function Step(d: Domain, e: Event): Domain
    requires Deliverable(d, e)
  {
    match e
    case EarlyErase(primary, libPrimary, blocked) =>
      if libPrimary && !blocked && primary then Note(d.(eraseLock := true), RequestSent) else d
    case StartDataInd(primary) =>
      if primary then Note(d.(starts := d.starts + [d.serial], serial := d.serial + 1), StartQueued(d.serial))
      else Note(d, StartedAtOnce)
    case EndDataInd(aborted) =>
      Note(d.(starts := [], transfer := if aborted then NotStarted else d.transfer), Ended(aborted))
    case EraseRequest(primary, initOk, wait) =>
      if primary || (initOk && wait) then d else Note(d, ReplySent(initOk))
    case EraseReply(primary, success) =>
      if !primary then d
      else Note(if success then d.(eraseLock := false) else d.(starts := []), ReplyReceived(success))
    case EraseStatus(primary, success) => if primary then d else Note(d, ReplySent(success))
    case DeliverStart(startsPeer) =>
      var n := Note(d.(starts := d.starts[1..]), StartNotified(d.starts[0]));
      if startsPeer then Note(n.(transfer := Started), TransferStarted) else n
    case PeerInit => Note(d.(transfer := NotStarted), PeerInitialised)
    case EndDataTransfer => Note(d.(transfer := Completed), TransferEnded)
    case StatusDone => Note(d.(transfer := NotStarted), UpgradeCompleted)
    case HashRequest(gated) => d.(hashes := d.hashes + [gated])
    case DeliverHash(k) => Note(d.(hashes := d.hashes[..k] + d.hashes[k + 1..]), HashStarted(d.hashes[k]))
  }

  ghost predicate LawfulRun(d: Domain, run: seq<Event>)
    decreases |run|
  {
    run != [] ==> Deliverable(d, run[0]) && LawfulRun(Step(d, run[0]), run[1..])
  }

  ghost function After(d: Domain, run: seq<Event>): Domain
    requires LawfulRun(d, run)
    decreases |run|
  {
    if run == [] then d else After(Step(d, run[0]), run[1..])
  }

  // ----- what the log must look like -----------------------------------------

  /** A success reply was received since the last erase request. */
  ghost predicate SuccessSinceRequest(log: seq<Log>) {
    log != [] &&
    (log[|log| - 1] == ReplyReceived(true) || (!log[|log| - 1].RequestSent? && SuccessSinceRequest(log[..|log| - 1])))
  }

  /** Queued starts are called off by the end of data and by a failure reply. */
  predicate CallsOff(x: Log) { x.Ended? || x == ReplyReceived(false) }

  /** The peer transfer is open again, or was never begun. */
  predicate Reopens(x: Log) { x.TransferStarted? || x.UpgradeCompleted? || x.PeerInitialised? || x == Ended(true) }

  /** Start `id` was queued, and nothing has called starts off since. */
  ghost predicate QueuedAndLive(log: seq<Log>, id: nat) {
    log != [] &&
    (log[|log| - 1] == StartQueued(id) || (!CallsOff(log[|log| - 1]) && QueuedAndLive(log[..|log| - 1], id)))
  }

  /** The last change of the peer transfer was its end: no peer start, upgrade
      completion, abort or initialisation came after it. */
  ghost predicate TransferOver(log: seq<Log>) {
    log != [] &&
    (log[|log| - 1].TransferEnded? || (!Reopens(log[|log| - 1]) && TransferOver(log[..|log| - 1])))
  }

  /** What may be logged as x after `before`. */
  ghost predicate Allowed(before: seq<Log>, x: Log) {
    && (x.StartNotified? ==>
          (RequestSent in before ==> SuccessSinceRequest(before)) && QueuedAndLive(before, x.id))
    && (x == HashStarted(true) && PeerInitialised in before ==> TransferOver(before))
  }

  ghost predicate AllAllowed(log: seq<Log>) {
    forall i :: 0 <= i < |log| ==> Allowed(log[..i], log[i])
  }

  lemma {:induction false} AllAllowedAfter(log: seq<Log>, x: Log)
    requires AllAllowed(log) && Allowed(log, x)
    ensures AllAllowed(log + [x])
  {
    var more := log + [x];
    forall i | 0 <= i < |more| ensures Allowed(more[..i], more[i]) {
      assert more[..i] == log[..i];
      if i == |log| { assert log[..i] == log; }
    }
  }

  /** How the lock words and queues agree with the log. */
  ghost predicate Tracked(d: Domain) {
    && AllAllowed(d.log)
    && (RequestSent in d.log && !d.eraseLock ==> SuccessSinceRequest(d.log))
    && (forall k :: 0 <= k < |d.starts| ==> QueuedAndLive(d.log, d.starts[k]))
    && (PeerInitialised in d.log ==> (d.transfer == Completed <==> TransferOver(d.log)))
  }

  lemma {:induction false} Extended(log: seq<Log>, x: Log)
    ensures SuccessSinceRequest(log + [x])
       <==> x == ReplyReceived(true) || (!x.RequestSent? && SuccessSinceRequest(log))
    ensures forall id :: QueuedAndLive(log + [x], id)
                    <==> x == StartQueued(id) || (!CallsOff(x) && QueuedAndLive(log, id))
    ensures TransferOver(log + [x]) <==> x.TransferEnded? || (!Reopens(x) && TransferOver(log))
  {
    assert (log + [x])[|log + [x]| - 1] == x && (log + [x])[..|log + [x]| - 1] == log;
  }

  /** A step that logs x keeps the agreement if it moves the lock words and queues
      as x says. */
  lemma {:induction false} NoteTracked(d: Domain, n: Domain, x: Log)
    requires Tracked(d) && n.log == d.log + [x] && Allowed(d.log, x)
    requires n.eraseLock || x == ReplyReceived(true) || (!d.eraseLock && !x.RequestSent?)
    requires forall k :: 0 <= k < |n.starts| ==>
               x == StartQueued(n.starts[k]) || (n.starts[k] in d.starts && !CallsOff(x))
    requires n.transfer == Completed <==> x.TransferEnded? || (!Reopens(x) && d.transfer == Completed)
    ensures Tracked(n)
  {
    Extended(d.log, x);
    AllAllowedAfter(d.log, x);
  }

  lemma {:induction false} NotifiedTracked(d: Domain)
    requires Tracked(d) && d.starts != [] && !d.eraseLock
    ensures Tracked(Note(d.(starts := d.starts[1..]), StartNotified(d.starts[0])))
  {
    var rest := d.starts[1..];
    assert forall k :: 0 <= k < |rest| ==> rest[k] == d.starts[k + 1];
    NoteTracked(d, Note(d.(starts := rest), StartNotified(d.starts[0])), StartNotified(d.starts[0]));
  }

  lemma {:induction false} PeerStartTracked(d: Domain)
    requires Tracked(d)
    ensures Tracked(Note(d.(transfer := Started), TransferStarted))
  {
    NoteTracked(d, Note(d.(transfer := Started), TransferStarted), TransferStarted);
  }

  lemma {:induction false} DeliveredStartTracked(d: Domain, startsPeer: bool)
    requires Tracked(d) && d.starts != [] && !d.eraseLock
    ensures Tracked(Step(d, DeliverStart(startsPeer)))
  {
    NotifiedTracked(d);
    PeerStartTracked(Note(d.(starts := d.starts[1..]), StartNotified(d.starts[0])));
  }

  /** Indications from the upgrade library. */
  lemma {:induction false} IndicationTracked(d: Domain, e: Event)
    requires Tracked(d) && (e.EarlyErase? || e.StartDataInd? || e.EndDataInd?)
    ensures Tracked(Step(d, e))
  {
    match e {
      case EarlyErase(_, _, _) => NoteTracked(d, Note(d.(eraseLock := true), RequestSent), RequestSent);
      case StartDataInd(primary) =>
        NoteTracked(d, Step(d, e), if primary then StartQueued(d.serial) else StartedAtOnce);
      case EndDataInd(aborted) => NoteTracked(d, Step(d, e), Ended(aborted));
    }
  }

  /** Erase traffic between the devices. */
  lemma {:induction false} EraseTracked(d: Domain, e: Event)
    requires Tracked(d) && (e.EraseRequest? || e.EraseReply? || e.EraseStatus?)
    ensures Tracked(Step(d, e))
  {
    match e {
      case EraseRequest(_, initOk, _) => NoteTracked(d, Note(d, ReplySent(initOk)), ReplySent(initOk));
      case EraseStatus(_, success) => NoteTracked(d, Note(d, ReplySent(success)), ReplySent(success));
      case EraseReply(primary, success) =>
        if primary { NoteTracked(d, Step(d, e), ReplyReceived(success)); }
    }
  }

  /** The peer transfer and the hash checks it gates. */
  lemma {:induction false} TransferTracked(d: Domain, e: Event)
    requires Tracked(d) && Deliverable(d, e)
    requires e.PeerInit? || e.EndDataTransfer? || e.StatusDone? || e.HashRequest? || e.DeliverHash?
    ensures Tracked(Step(d, e))
  {
    match e {
      case PeerInit => NoteTracked(d, Step(d, e), PeerInitialised);
      case EndDataTransfer => NoteTracked(d, Step(d, e), TransferEnded);
      case StatusDone => NoteTracked(d, Step(d, e), UpgradeCompleted);
      case HashRequest(_) =>
      case DeliverHash(k) => NoteTracked(d, Step(d, e), HashStarted(d.hashes[k]));
    }
  }

  lemma {:induction false} StepTracked(d: Domain, e: Event)
    requires Tracked(d) && Deliverable(d, e)
    ensures Tracked(Step(d, e))
  {
    if e.DeliverStart? {
      DeliveredStartTracked(d, e.startsPeer);
    } else if e.EarlyErase? || e.StartDataInd? || e.EndDataInd? {
      IndicationTracked(d, e);
    } else if e.EraseRequest? || e.EraseReply? || e.EraseStatus? {
      EraseTracked(d, e);
    } else {
      TransferTracked(d, e);
    }
  }

  // ----- what single events open and close -----------------------------------

  /** No gated hash check can be delivered. */
  ghost predicate HashesHeld(d: Domain) {
    forall k :: 0 <= k < |d.hashes| && d.hashes[k] ==> !Deliverable(d, DeliverHash(k))
  }

  ghost predicate StartsHeld(d: Domain) {
    forall b :: !Deliverable(d, DeliverStart(b))
  }

  /** What can be delivered, and what the log says of the peer, is the same. */
  ghost predicate SameGates(d: Domain, s: Domain) {
    && (forall e :: Deliverable(d, e) <==> Deliverable(s, e))
    && (SuccessSinceRequest(d.log) <==> SuccessSinceRequest(s.log))
    && (TransferOver(d.log) <==> TransferOver(s.log))
  }

  lemma {:induction false} ReplySentKeepsGates(d: Domain, primary: bool, success: bool)
    ensures SameGates(d, Step(d, EraseStatus(primary, success)))
  {
    Extended(d.log, ReplySent(success));
  }

  lemma {:induction false} PeerInitHolds(d: Domain)
    ensures var s := Step(d, PeerInit);
            PeerInitialised in s.log && !TransferOver(s.log) && HashesHeld(s)
  {
    Extended(d.log, PeerInitialised);
  }

  lemma {:induction false} StatusDoneHolds(d: Domain)
    ensures var s := Step(d, StatusDone);
            !TransferOver(s.log) && HashesHeld(s)
  {
    Extended(d.log, UpgradeCompleted);
  }

  lemma {:induction false} EndTransferOpens(d: Domain)
    ensures var s := Step(d, EndDataTransfer);
            TransferOver(s.log) && forall k :: 0 <= k < |s.hashes| ==> Deliverable(s, DeliverHash(k))
  {
    Extended(d.log, TransferEnded);
  }

  lemma {:induction false} EndDataHolds(d: Domain, aborted: bool)
    ensures var s := Step(d, EndDataInd(aborted));
            && (forall id :: !QueuedAndLive(s.log, id)) && StartsHeld(s)
            && (aborted ==> !TransferOver(s.log) && HashesHeld(s))
  {
    Extended(d.log, Ended(aborted));
  }

  lemma {:induction false} ReplyOpensOrCallsOff(d: Domain, success: bool)
    ensures var s := Step(d, EraseReply(true, success));
            && (success ==> SuccessSinceRequest(s.log))
            && (success && s.starts != [] ==> forall b :: Deliverable(s, DeliverStart(b)))
            && (!success ==> (forall id :: !QueuedAndLive(s.log, id)) && StartsHeld(s))
  {
    Extended(d.log, ReplyReceived(success));
  }

  // ----- what each entry of the log stands for -------------------------------

  /** x was logged by the step from d to s. */
  ghost predicate Logs(d: Domain, s: Domain, x: Log) {
    exists i :: |d.log| <= i < |s.log| && s.log[i] == x
  }

  /** A device asks its peer to erase exactly when told to as the library's and its own
      primary, not blocked; it answers, as secondary, exactly a request it need not
      wait for or cannot serve, and the end of its own erase; and it takes note of a
      reply exactly as primary. */
  lemma {:induction false} EraseLogExact(d: Domain, e: Event, b: bool)
    requires Deliverable(d, e)
    ensures var s := Step(d, e);
            && d.log <= s.log
            && (Logs(d, s, RequestSent) <==> e.EarlyErase? && e.primary && e.libPrimary && !e.blocked)
            && (Logs(d, s, ReplySent(b)) <==>
                  || (e.EraseRequest? && !e.primary && e.initOk == b && (b ==> !e.wait))
                  || (e.EraseStatus? && !e.primary && e.success == b))
            && (Logs(d, s, ReplyReceived(b)) <==> e == EraseReply(true, b))
  {
    LogsHere(d, e);
  }

  /** A start is queued on the primary and notified at once on the secondary; a queued
      one is notified when delivered, and may begin the peer transfer. */
  lemma {:induction false} StartLogExact(d: Domain, e: Event, id: nat, b: bool)
    requires Deliverable(d, e)
    ensures var s := Step(d, e);
            && (Logs(d, s, StartQueued(id)) <==> e == StartDataInd(true) && id == d.serial)
            && (Logs(d, s, StartedAtOnce) <==> e == StartDataInd(false))
            && (Logs(d, s, StartNotified(id)) <==> e.DeliverStart? && id == d.starts[0])
            && (Logs(d, s, TransferStarted) <==> e == DeliverStart(true))
            && (Logs(d, s, Ended(b)) <==> e == EndDataInd(b))
  {
    LogsHere(d, e);
  }

  lemma {:induction false} TransferLogExact(d: Domain, e: Event, b: bool)
    requires Deliverable(d, e)
    ensures var s := Step(d, e);
            && (Logs(d, s, PeerInitialised) <==> e == PeerInit)
            && (Logs(d, s, TransferEnded) <==> e == EndDataTransfer)
            && (Logs(d, s, UpgradeCompleted) <==> e == StatusDone)
            && (Logs(d, s, HashStarted(b)) <==> e.DeliverHash? && b == d.hashes[e.k])
  {
    LogsHere(d, e);
  }

  /** A step logs nothing, one entry, or a start and the transfer it begins. */
  lemma {:induction false} LogsHere(d: Domain, e: Event)
    requires Deliverable(d, e)
    ensures var s := Step(d, e);
            && d.log <= s.log && |s.log| <= |d.log| + 2
            && (forall x :: Logs(d, s, x) <==> (|s.log| > |d.log| && s.log[|d.log|] == x)
                                               || (|s.log| > |d.log| + 1 && s.log[|d.log| + 1] == x))
  {
  }

  /** What happens to the two queues: starts are only added by an indication on the
      primary, only taken from the front by their delivery, and all dropped by the end
      of data or a failure reply to the primary; hash checks are only added by their
      request, with its gate, and only taken by their own delivery. */
  lemma {:induction false} QueuesExact(d: Domain, e: Event)
    requires Deliverable(d, e)
    ensures var s := Step(d, e);
            && (e == StartDataInd(true) ==> s.starts == d.starts + [d.serial] && s.serial == d.serial + 1)
            && (e != StartDataInd(true) ==> s.serial == d.serial)
            && (e.DeliverStart? ==> d.starts == [d.starts[0]] + s.starts)
            && (e.EndDataInd? || e == EraseReply(true, false) ==> s.starts == [])
            && (e != StartDataInd(true) && !e.DeliverStart? && !e.EndDataInd? && e != EraseReply(true, false) ==>
                  s.starts == d.starts)
            && (e.HashRequest? ==> s.hashes == d.hashes + [e.gated])
            && (e.DeliverHash? ==> d.hashes == s.hashes[..e.k] + [d.hashes[e.k]] + s.hashes[e.k..])
            && (!e.HashRequest? && !e.DeliverHash? ==> s.hashes == d.hashes)
  {
  }

  /** The erase lock is closed exactly by a request and opened exactly by a success
      reply to the primary. */
  lemma {:induction false} EraseLockExact(d: Domain, e: Event)
    requires Deliverable(d, e)
    ensures var s := Step(d, e);
            s.eraseLock == if Logs(d, s, RequestSent) then true
                           else if e == EraseReply(true, true) then false
                           else d.eraseLock
  {
    EraseLogExact(d, e, true);
  }

  /** An ungated check can be delivered as soon as it is requested, whatever the state
      of the peer transfer. */
  lemma {:induction false} UngatedHashNeverWaits(d: Domain)
    ensures var s := Step(d, HashRequest(false)); Deliverable(s, DeliverHash(|d.hashes|))
  {
  }

  // ----- every run -----------------------------------------------------------

  /** In every run: a start is notified, once an erase request has been sent, only
      if a success reply came since the latest request; it was queued with no
      failure reply and no end of data since; and, once the peer task is
      initialised, a gated hash check starts only if the last change of the peer
      transfer was its end. */
  lemma {:induction false} EveryRunTracked(d: Domain, run: seq<Event>)
    requires Tracked(d) && LawfulRun(d, run)
    ensures Tracked(After(d, run))
    decreases |run|
  {
    if run != [] {
      StepTracked(d, run[0]);
      EveryRunTracked(Step(d, run[0]), run[1..]);
    }
  }

  lemma {:induction false} StartsAndHashesAreGated(run: seq<Event>, i: nat)
    requires LawfulRun(BOOT, run) && i < |After(BOOT, run).log|
    ensures Allowed(After(BOOT, run).log[..i], After(BOOT, run).log[i])
  {
    EveryRunTracked(BOOT, run);
  }

  /** The peer transfer has never been begun, ended or initialised. */
  ghost predicate Untouched(log: seq<Log>) {
    forall i :: 0 <= i < |log| ==> !Reopens(log[i]) && !log[i].TransferEnded?
  }

  /** The hash lock is open exactly when the transfer is over or was never touched. */
  ghost predicate LockExact(d: Domain) {
    d.transfer == Completed <==> TransferOver(d.log) || Untouched(d.log)
  }

  lemma {:induction false} NoteLockExact(d: Domain, n: Domain, x: Log)
    requires LockExact(d) && n.log == d.log + [x]
    requires n.transfer == Completed <==> x.TransferEnded? || (!Reopens(x) && d.transfer == Completed)
    ensures LockExact(n)
  {
    Extended(d.log, x);
    assert n.log[|d.log|] == x && forall i :: 0 <= i < |d.log| ==> n.log[i] == d.log[i];
  }

  lemma {:induction false} StepLockExact(d: Domain, e: Event)
    requires LockExact(d) && Deliverable(d, e)
    ensures LockExact(Step(d, e))
  {
    var s := Step(d, e);
    if e.DeliverStart? {
      var n := Note(d.(starts := d.starts[1..]), StartNotified(d.starts[0]));
      NoteLockExact(d, n, StartNotified(d.starts[0]));
      NoteLockExact(n, Note(n.(transfer := Started), TransferStarted), TransferStarted);
    } else if |s.log| > |d.log| {
      NoteLockExact(d, s, s.log[|d.log|]);
    }
  }

  lemma {:induction false} RunLockExact(d: Domain, run: seq<Event>)
    requires LockExact(d) && LawfulRun(d, run)
    ensures LockExact(After(d, run))
    decreases |run|
  {
    if run != [] {
      StepLockExact(d, run[0]);
      RunLockExact(Step(d, run[0]), run[1..]);
    }
  }

  /** Exactly when the gate fails: in every state a run reaches, a queued gated check
      can be delivered although the transfer is not over, if and only if the
      transfer has never been touched. Initialisation touches it. */
  lemma {:induction false} HashGateFailsIff(run: seq<Event>, k: nat)
    requires LawfulRun(BOOT, run) && k < |After(BOOT, run).hashes| && After(BOOT, run).hashes[k]
    ensures var d := After(BOOT, run);
            Deliverable(d, DeliverHash(k)) && !TransferOver(d.log) <==> Untouched(d.log)
  {
    RunLockExact(BOOT, run);
    if Untouched(After(BOOT, run).log) { UntouchedIsNotOver(After(BOOT, run).log); }
  }

  lemma {:induction false} UntouchedIsNotOver(log: seq<Log>)
    requires Untouched(log)
    ensures !TransferOver(log)
  {
    if log != [] { UntouchedIsNotOver(log[..|log| - 1]); }
  }

  /** Before initialisation the zeroed lock word lets a gated check through. */
  lemma {:induction false} UninitialisedHashIsNotGated()
    ensures var run := [HashRequest(true), DeliverHash(0)];
            LawfulRun(BOOT, run) && HashStarted(true) in After(BOOT, run).log && !TransferOver(After(BOOT, run).log)
  {
    var run := [HashRequest(true), DeliverHash(0)];
    var d := Step(BOOT, run[0]);
    assert d.hashes == [true];
    var s := Step(d, DeliverHash(0));
    assert s.log == [HashStarted(true)];
    assert run[1..] == [DeliverHash(0)] && run[1..][1..] == [];
    assert LawfulRun(d, run[1..]);
    assert After(d, run[1..]) == s;
    assert s.log[..0] == [];
  }
}
