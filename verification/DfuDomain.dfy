/**
 * The DFU domain's task data and handlers, proved against Dfu. Valid() is the
 * invariant of every run, so each handler keeps it and may rely on it.
 */
module DfuDomains {
  import opened Dfu

  class DfuDomain {
    var peerEraseDone: bool      // reversed sense: true holds the start back
    var starts: seq<nat>
    var serial: nat
    var peerDataTransferStatus: Transfer
    var hashes: seq<bool>
    var log: seq<Log>

    ghost function Value(): Domain
      reads this
    {
      Domain(peerEraseDone, starts, serial, peerDataTransferStatus, hashes, log)
    }

    /** The lock words and queues agree with what has happened. */
    ghost predicate Valid()
      reads this
    {
      Tracked(Value())
    }

    constructor ()
      ensures Valid() && Value() == BOOT
    {
      peerEraseDone, starts, serial, peerDataTransferStatus, hashes, log := false, [], 0, Completed, [], [];
    }

    method Record(x: Log)
      modifies this`log
      ensures log == old(log) + [x]
    {
      log := log + [x];
    }

    method SetPeerDataTransferStatus(status: Transfer)
      modifies this`peerDataTransferStatus
      ensures peerDataTransferStatus == status
    {
      peerDataTransferStatus := status;
    }

    /** Sending a reply leaves every gate as it was. */
    method PeerEraseCompletedTx(primary: bool, success: bool)
      requires Valid()
      modifies this
      ensures Valid() && Value() == Step(old(Value()), EraseStatus(primary, success))
      ensures log == if primary then old(log) else old(log) + [ReplySent(success)]
      ensures SameGates(old(Value()), Value())
    {
      ReplySentKeepsGates(Value(), primary, success);
      var isSecondary := !primary;
      if isSecondary {
        Record(ReplySent(success));
      }
      StepTracked(old(Value()), EraseStatus(primary, success));
      assert Value() == Step(old(Value()), EraseStatus(primary, success));
    }

    /** After a success every start still queued can be delivered, and a success since
        the request is on record; after a failure no queued start is left or live. */
    method PeerEraseCompletedRx(primary: bool, success: bool)
      requires Valid()
      modifies this
      ensures Valid() && Value() == Step(old(Value()), EraseReply(primary, success))
      ensures primary && success ==> SuccessSinceRequest(log)
      ensures primary && success && starts != [] ==> forall b :: Deliverable(Value(), DeliverStart(b))
      ensures primary && !success ==> forall id :: !QueuedAndLive(log, id)
      ensures primary && !success ==> StartsHeld(Value())
    {
      if primary {
        ReplyOpensOrCallsOff(Value(), success);
        if success {
          peerEraseDone := false;
        } else {
          starts := [];
        }
        Record(ReplyReceived(success));
      }
      StepTracked(old(Value()), EraseReply(primary, success));
      assert Value() == Step(old(Value()), EraseReply(primary, success));
    }

    /** After a request no start can be delivered, whatever was received before. */
    method PeerEraseStartTx(primary: bool)
      requires Valid()
      modifies this
      ensures Valid() && Value() == Step(old(Value()), EarlyErase(primary, true, false))
      ensures primary ==> RequestSent in log && !SuccessSinceRequest(log)
      ensures primary ==> StartsHeld(Value())
    {
      if primary {
        Extended(log, RequestSent);
        peerEraseDone := true;
        Record(RequestSent);
      }
      StepTracked(old(Value()), EarlyErase(primary, true, false));
      assert Value() == Step(old(Value()), EarlyErase(primary, true, false));
    }

    method PeerEraseStartRx(primary: bool, initOk: bool, wait: bool)
      requires Valid()
      modifies this
      ensures Valid() && Value() == Step(old(Value()), EraseRequest(primary, initOk, wait))
      ensures !primary && (!initOk || !wait) ==> log == old(log) + [ReplySent(initOk)]
      ensures primary || (initOk && wait) ==> log == old(log)
    {
      ghost var next := Step(Value(), EraseRequest(primary, initOk, wait));
      StepTracked(Value(), EraseRequest(primary, initOk, wait));
      var isSecondary := !primary;
      if isSecondary {
        if initOk {
          if !wait {
            PeerEraseCompletedTx(primary, true);
          }
        } else {
          PeerEraseCompletedTx(primary, false);
        }
      }
      assert Value() == next;
    }

    method NotifyEarlyErase(primary: bool, libPrimary: bool, blocked: bool)
      requires Valid()
      modifies this
      ensures Valid() && Value() == Step(old(Value()), EarlyErase(primary, libPrimary, blocked))
    {
      if libPrimary && !blocked {
        PeerEraseStartTx(primary);
      }
    }

    /** On the primary the start is queued and live, and comes out only once a success
        since the latest request, if there was one, is on record. */
    method HandleStartDataInd(primary: bool)
      requires Valid()
      modifies this
      ensures Valid() && Value() == Step(old(Value()), StartDataInd(primary))
      ensures primary ==> QueuedAndLive(log, old(serial)) && old(serial) in starts
      ensures primary && RequestSent in log && !SuccessSinceRequest(log) ==>
                StartsHeld(Value())
    {
      if primary {
        Extended(log, StartQueued(serial));
        Record(StartQueued(serial));
        starts, serial := starts + [serial], serial + 1;
      } else {
        Record(StartedAtOnce);
      }
      StepTracked(old(Value()), StartDataInd(primary));
      assert Value() == Step(old(Value()), StartDataInd(primary));
    }

    /** No start queued before is live or can be delivered any more; an abort reopens
        the peer transfer, so no gated hash check can be delivered. */
    method HandleEndDataInd(aborted: bool)
      requires Valid()
      modifies this
      ensures Valid() && Value() == Step(old(Value()), EndDataInd(aborted))
      ensures forall id :: !QueuedAndLive(log, id)
      ensures StartsHeld(Value())
      ensures aborted ==> !TransferOver(log) && HashesHeld(Value())
    {
      EndDataHolds(Value(), aborted);
      starts := [];
      Record(Ended(aborted));
      if aborted {
        SetPeerDataTransferStatus(NotStarted);
      }
      StepTracked(old(Value()), EndDataInd(aborted));
      assert Value() == Step(old(Value()), EndDataInd(aborted));
    }

    method StartPeerDfu(startsPeer: bool)
      modifies this`peerDataTransferStatus, this`log
      ensures peerDataTransferStatus == (if startsPeer then Started else old(peerDataTransferStatus))
      ensures log == old(log) + if startsPeer then [TransferStarted] else []
    {
      if startsPeer {
        SetPeerDataTransferStatus(Started);
        Record(TransferStarted);
      }
    }

    /** DFU_INTERNAL_START_DATA_IND_ON_PEER_ERASE_DONE is delivered: if the peer was
        asked to erase, it has reported success since; and the start has not been
        called off since it was queued. */
    method HandleStartOnPeerEraseDone(startsPeer: bool)
      requires Valid() && Deliverable(Value(), DeliverStart(startsPeer))
      modifies this
      ensures Valid() && Value() == Step(old(Value()), DeliverStart(startsPeer))
      ensures RequestSent in old(log) ==> SuccessSinceRequest(old(log))
      ensures QueuedAndLive(old(log), old(starts)[0])
    {
      Record(StartNotified(starts[0]));
      starts := starts[1..];
      StartPeerDfu(startsPeer);
      StepTracked(old(Value()), DeliverStart(startsPeer));
      assert Value() == Step(old(Value()), DeliverStart(startsPeer));
    }

    /** A check requested while blocked or primary is held until the peer transfer is
        over, once the peer task is initialised. */
    method HandleHashCheckRequest(blocked: bool, primary: bool)
      requires Valid()
      modifies this`hashes
      ensures Valid() && Value() == Step(old(Value()), HashRequest(blocked || primary))
      ensures (blocked || primary) && PeerInitialised in log ==>
                (Deliverable(Value(), DeliverHash(|old(hashes)|)) <==> TransferOver(log))
    {
      if blocked || primary {
        hashes := hashes + [true];
      } else {
        hashes := hashes + [false];
      }
    }

    /** DFU_INTERNAL_CONTINUE_HASH_CHECK_REQUEST is delivered: a gated check starts only
        when the last change of the peer transfer was its end. */
    method HandleContinueHashCheck(k: nat)
      requires Valid() && Deliverable(Value(), DeliverHash(k))
      modifies this
      ensures Valid() && Value() == Step(old(Value()), DeliverHash(k))
      ensures old(hashes)[k] && PeerInitialised in old(log) ==> TransferOver(old(log))
    {
      Record(HashStarted(hashes[k]));
      hashes := hashes[..k] + hashes[k + 1..];
      StepTracked(old(Value()), DeliverHash(k));
      assert Value() == Step(old(Value()), DeliverHash(k));
    }

    /** From here on gated hash checks are held. */
    method HandlePeerInit()
      requires Valid()
      modifies this
      ensures Valid() && Value() == Step(old(Value()), PeerInit)
      ensures PeerInitialised in log && !TransferOver(log) && HashesHeld(Value())
    {
      ghost var next := Step(Value(), PeerInit);
      StepTracked(Value(), PeerInit);
      PeerInitHolds(Value());
      SetPeerDataTransferStatus(NotStarted);
      Record(PeerInitialised);
      assert Value() == next;
    }

    /** The transfer is over and every queued hash check can be delivered. */
    method HandlePeerEndDataTransfer()
      requires Valid()
      modifies this
      ensures Valid() && Value() == Step(old(Value()), EndDataTransfer)
      ensures TransferOver(log)
      ensures forall k :: 0 <= k < |hashes| ==> Deliverable(Value(), DeliverHash(k))
    {
      EndTransferOpens(Value());
      SetPeerDataTransferStatus(Completed);
      Record(TransferEnded);
      StepTracked(old(Value()), EndDataTransfer);
      assert Value() == Step(old(Value()), EndDataTransfer);
    }

    /** A completed upgrade holds gated hash checks again. */
    method HandleStatusDone()
      requires Valid()
      modifies this
      ensures Valid() && Value() == Step(old(Value()), StatusDone)
      ensures !TransferOver(log) && HashesHeld(Value())
    {
      StatusDoneHolds(Value());
      SetPeerDataTransferStatus(NotStarted);
      Record(UpgradeCompleted);
      StepTracked(old(Value()), StatusDone);
      assert Value() == Step(old(Value()), StatusDone);
    }

    /** Any event the message system can deliver: the class takes the specified step. */
    method HandleEvent(e: Event)
      requires Valid() && Deliverable(Value(), e)
      modifies this
      ensures Valid() && Value() == Step(old(Value()), e)
    {
      match e
      case EarlyErase(primary, libPrimary, blocked) => NotifyEarlyErase(primary, libPrimary, blocked);
      case StartDataInd(primary) => HandleStartDataInd(primary);
      case EndDataInd(aborted) => HandleEndDataInd(aborted);
      case EraseRequest(primary, initOk, wait) => PeerEraseStartRx(primary, initOk, wait);
      case EraseReply(primary, success) => PeerEraseCompletedRx(primary, success);
      case EraseStatus(primary, success) => PeerEraseCompletedTx(primary, success);
      case DeliverStart(startsPeer) => HandleStartOnPeerEraseDone(startsPeer);
      case PeerInit => HandlePeerInit();
      case EndDataTransfer => HandlePeerEndDataTransfer();
      case StatusDone => HandleStatusDone();
      case HashRequest(gated) => HandleHashCheckRequest(gated, false);
      case DeliverHash(k) => HandleContinueHashCheck(k);
    }
  }
}
