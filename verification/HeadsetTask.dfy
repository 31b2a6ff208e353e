/**
 * The headset task data and the wired audio controller's, with their handlers,
 * proved against HeadsetSm. `ok` is false where the firmware panics. Valid() is the
 * invariant of every run, so each handler keeps it and may rely on it.
 */
module HeadsetTasks {
  import opened Common
  import opened HeadsetSm
  import opened HeadsetSmRuns
  import Answers = HeadsetAnswers

  class HeadsetTask {
    const coexist: bool
    var state: AppState
    var pauseWiredController: bool
    var wiredConnected: bool
    var disconnectLock: bool
    var completes: seq<nat>
    var timeouts: seq<nat>
    var serial: nat
    var log: seq<Log>

    ghost function Value(): Headset
      reads this
    {
      Headset(state, pauseWiredController, wiredConnected, disconnectLock, completes, timeouts, serial, log)
    }

    /** Deletion is guarded, requests are numbered, and a paused controller has
        recorded wired status TRUE. */
    ghost predicate Valid()
      reads this
    {
      Sound(Value())
    }

    constructor (coexist: bool)
      ensures this.coexist == coexist && Valid() && Value() == BOOT
    {
      this.coexist := coexist;
      state, pauseWiredController, wiredConnected, disconnectLock := Null, false, false, false;
      completes, timeouts, serial, log := [], [], 0, [];
    }

    method Record(x: Log)
      modifies this`log
      ensures log == old(log) + [x]
    {
      log := log + [x];
    }

    // ----- wired audio controller --------------------------------------------

    method ControllerDisable(env: Env)
      modifies this`wiredConnected, this`pauseWiredController
      ensures wiredConnected == WiredActive(coexist, env) && pauseWiredController
    {
      if coexist {
        wiredConnected := env.lineIn;
      } else {
        wiredConnected := env.lineIn || env.usb;
      }
      pauseWiredController := true;
    }

    method HandleCurrentWiredStatus(env: Env) returns (ok: bool)
      requires Valid()
      modifies this
      ensures var wired := WiredActive(coexist, env);
              var r := if wired == old(wiredConnected) then Some(old(Value()))
                       else if wired then HeadsetSm.WiredAudioConnected(coexist, old(Value()), env)
                       else HeadsetSm.WiredAudioDisconnected(coexist, old(Value()), env);
              (ok <==> r.Some?) && (ok ==> Value() == r.value)
      ensures ok ==> Valid()
    {
      ok := true;
      var isWiredConnected := env.lineIn || (!coexist && env.usb);
      if isWiredConnected != wiredConnected {
        if isWiredConnected {
          ok := WiredAudioConnected(env);
        } else {
          ok := WiredAudioDisconnected(env);
        }
      }
    }

    method ControllerEnable(env: Env) returns (ok: bool)
      requires Valid()
      modifies this
      ensures ok <==> Enable(coexist, old(Value()), env).Some?
      ensures ok ==> Value() == Enable(coexist, old(Value()), env).value
      ensures ok ==> Valid()
    {
      ok := true;
      if pauseWiredController {
        ok := HandleCurrentWiredStatus(env);
        pauseWiredController := false;
      }
    }

    method ControllerHandleMessage(m: WiredMessage, env: Env) returns (ok: bool)
      requires Valid()
      modifies this
      ensures ok <==> OnWired(coexist, old(Value()), m, env).Some?
      ensures ok ==> Value() == OnWired(coexist, old(Value()), m, env).value
      ensures ok ==> Valid()
      ensures (!old(pauseWiredController) && Answers.Insertion(coexist, m, env) && WiredActive(coexist, env)
               && old(state) in {PoweringOn, Idle, Busy})
              ==> ok && Answers.TakenByWire(old(Value()), Value())
      ensures (!old(pauseWiredController) && Answers.Removal(coexist, m, env) && !env.lineIn && !env.usb
               && old(state) == Busy)
              ==> ok && state == Idle && log == old(log) + [TopologyStarted]
    {
      if !pauseWiredController && Answers.Insertion(coexist, m, env) {
        Answers.InsertionAnswers(coexist, Value(), m, env);
      }
      if !pauseWiredController && Answers.Removal(coexist, m, env) {
        Answers.RemovalAnswers(coexist, Value(), m, env);
      }
      ok := true;
      if pauseWiredController { return; }
      match m
      case WiredConnect => ok := WiredAudioConnected(env);
      case UsbEnumerated =>
        if !coexist && env.usbEnabled { ok := WiredAudioConnected(env); }
      case UsbDeconfigured =>
        if !coexist && env.usbEnabled {
          if !env.lineIn && !env.usb { ok := WiredAudioDisconnected(env); }
        }
      case WiredDisconnect =>
        if !env.lineIn && !env.usb { ok := WiredAudioDisconnected(env); }
    }

    // ----- state machine -----------------------------------------------------

    method EnterBusy(env: Env)
      requires state == Busy
      modifies this`wiredConnected, this`pauseWiredController, this`log
      ensures Value() == HeadsetSm.Enter(coexist, old(Value()), Busy, env)
    {
      if env.lineIn || (!coexist && env.usb) {
        ControllerDisable(env);
        Record(TopologyStopped);
      }
    }

    method ExitBusy(env: Env)
      requires state == Busy
      modifies this`log
      ensures Value() == HeadsetSm.Leave(coexist, old(Value()), env)
    {
      if !(env.lineIn || (!coexist && env.usb)) {
        Record(TopologyStarted);
      }
    }

    method ExitState(env: Env) returns (ok: bool)
      modifies this`log
      ensures ok <==> state != FactoryReset
      ensures ok ==> Value() == HeadsetSm.Leave(coexist, old(Value()), env)
    {
      ok := true;
      match state
      case FactoryReset => ok := false;
      case Busy => ExitBusy(env);
      case _ =>
    }

    method EnterState(newState: AppState, env: Env) returns (ok: bool)
      modifies this
      ensures ok <==> newState != Null
      ensures ok ==> Value() == HeadsetSm.Enter(coexist, old(Value()), newState, env)
    {
      ok := true;
      state := newState;
      match newState
      case FactoryReset => if timeouts != [] { timeouts := timeouts[1..]; }
      case Busy => EnterBusy(env);
      case Null => ok := false;
      case _ =>
    }

    method ChangeState(newState: AppState, env: Env) returns (ok: bool)
      requires Valid()
      modifies this
      ensures ok <==> HeadsetSm.SetState(coexist, old(Value()), newState, env).Some?
      ensures ok ==> Value() == HeadsetSm.SetState(coexist, old(Value()), newState, env).value
      ensures ok ==> Valid()
    {
      ok := ExitState(env);
      if ok {
        ok := EnterState(newState, env);
      }
      if ok { SetStateSound(coexist, old(Value()), newState, env); }
    }

    method WiredAudioConnected(env: Env) returns (ok: bool)
      requires Valid()
      modifies this
      ensures ok <==> HeadsetSm.WiredAudioConnected(coexist, old(Value()), env).Some?
      ensures ok ==> Value() == HeadsetSm.WiredAudioConnected(coexist, old(Value()), env).value
      ensures ok ==> Valid()
    {
      ok := true;
      match state
      case PoweringOn | Idle | Busy => ok := ChangeState(Busy, env);
      case _ =>
    }

    method WiredAudioDisconnected(env: Env) returns (ok: bool)
      requires Valid()
      modifies this
      ensures ok <==> HeadsetSm.WiredAudioDisconnected(coexist, old(Value()), env).Some?
      ensures ok ==> Value() == HeadsetSm.WiredAudioDisconnected(coexist, old(Value()), env).value
      ensures ok ==> Valid()
    {
      ok := true;
      match state
      case Busy => ok := ChangeState(Idle, env);
      case _ =>
    }

    /** A resume from a pause cannot panic, ends the pause, and leaves the headset not
        busy if wired audio has gone. */
    method HandleTopologyStopCfm(env: Env) returns (ok: bool)
      requires Valid()
      modifies this
      ensures ok <==> Step(coexist, old(Value()), TopologyStopCfm, env).Some?
      ensures ok ==> Valid() && Value() == Step(coexist, old(Value()), TopologyStopCfm, env).value
      ensures old(pauseWiredController) && old(state) != PoweringOff ==>
                ok && !pauseWiredController && (!WiredActive(coexist, env) ==> state != Busy)
    {
      if state == PoweringOff {
        ok := ChangeState(Limbo, env);
      } else {
        ok := ControllerEnable(env);
      }
    }

    // ----- deletion of paired handsets ---------------------------------------

    /** The request is live at once; its completion waits for the lock exactly if a
        handset was connected. */
    method InitiateLinkDisconnection(connected: bool)
      requires Valid() && (state == Idle || state == Busy)
      modifies this
      ensures Valid() && Value() == Request(old(Value()), connected)
      ensures Live(log, old(serial)) && (Justified(log) <==> !connected)
      ensures Deliverable(Value(), DeliverComplete) <==> !connected
    {
      RequestOpensIff(Value(), connected);
      StepSound(coexist, Value(), DeleteHandsets(connected), Env(false, false, false));
      var disconnectingLink := connected;
      if !disconnectingLink {
        disconnectLock := false;
      } else {
        disconnectLock := true;
      }
      Record(Requested(serial, connected));
      completes := completes + [serial];
      timeouts := timeouts + [serial];
      serial := serial + 1;
    }

    method HandleInternalDeleteHandsets(connected: bool)
      requires Valid()
      modifies this
      ensures Valid() && Value() == Request(old(Value()), connected)
    {
      match state
      case Idle | Busy => InitiateLinkDisconnection(connected);
      case _ =>
    }

    /** Afterwards a waiting completion can be delivered exactly if deletion is
        justified: no handset is left, or it was justified before. */
    method UpdateDisconnectingLink(stillConnected: bool, env: Env)
      requires Valid()
      modifies this
      ensures Valid() && Some(Value()) == Step(coexist, old(Value()), HandsetDisconnected(stillConnected), env)
      ensures Justified(log) <==> !stillConnected || Justified(old(log))
      ensures completes != [] ==> (Deliverable(Value(), DeliverComplete) <==> Justified(log))
    {
      IndicationOpensIff(coexist, Value(), stillConnected, env);
      StepSound(coexist, Value(), HandsetDisconnected(stillConnected), env);
      Record(Indicated(stillConnected));
      if disconnectLock {
        if !stillConnected {
          disconnectLock := false;
        }
      }
    }

    /** SM_INTERNAL_LINK_DISCONNECTION_COMPLETE is delivered: the deletion is justified
        since the latest request, and no timer has ended its own request. */
    method HandleLinkDisconnectionComplete(env: Env)
      requires Valid() && Deliverable(Value(), DeliverComplete)
      modifies this
      ensures Valid() && Some(Value()) == Step(coexist, old(Value()), DeliverComplete, env)
      ensures Justified(old(log)) && Live(old(log), old(completes)[0])
    {
      DeliverableIsJustified(Value());
      StepSound(coexist, Value(), DeliverComplete, env);
      Record(Deleted(completes[0]));
      completes := completes[1..];
      if timeouts != [] { timeouts := timeouts[1..]; }
    }

    /** SM_INTERNAL_TIMEOUT_LINK_DISCONNECTION is delivered: with the lock held, no
        request made so far can delete any more; otherwise none is affected. */
    method LinkDisconnectionTimeout(k: nat, env: Env)
      requires Valid() && Deliverable(Value(), FireTimeout(k))
      modifies this
      ensures Valid() && Some(Value()) == Step(coexist, old(Value()), FireTimeout(k), env)
      ensures old(disconnectLock) ==> (forall id :: !Live(log, id)) && !Deliverable(Value(), DeliverComplete)
      ensures !old(disconnectLock) ==> forall id :: Live(log, id) <==> Live(old(log), id)
      ensures !old(disconnectLock) ==> completes == old(completes)
      ensures Justified(log) <==> Justified(old(log))
    {
      TimeoutEndsRequests(coexist, Value(), k, env);
      StepSound(coexist, Value(), FireTimeout(k), env);
      Record(TimedOut(timeouts[k], disconnectLock));
      timeouts := timeouts[..k] + timeouts[k + 1..];
      if disconnectLock {
        completes := [];
        disconnectLock := false;
      }
    }

    /** Any event that can be delivered: the class takes the specified step. */
    method HandleEvent(e: Event, env: Env) returns (ok: bool)
      requires Valid() && Deliverable(Value(), e)
      modifies this
      ensures ok <==> Step(coexist, old(Value()), e, env).Some?
      ensures ok ==> Valid() && Value() == Step(coexist, old(Value()), e, env).value
    {
      ok := true;
      match e
      case ChangeState(newState) => ok := ChangeState(newState, env);
      case Wired(m) => ok := ControllerHandleMessage(m, env);
      case TopologyStopCfm => ok := HandleTopologyStopCfm(env);
      case DeleteHandsets(connected) => HandleInternalDeleteHandsets(connected);
      case HandsetDisconnected(stillConnected) => UpdateDisconnectingLink(stillConnected, env);
      case DeliverComplete => HandleLinkDisconnectionComplete(env);
      case FireTimeout(k) => LinkDisconnectionTimeout(k, env);
    }
  }
}
