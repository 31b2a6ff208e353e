/**
 * The headset application state machine with the wired audio controller it
 * pauses and resumes, and the lock that guards deletion of paired handsets.
 */
module HeadsetSm {
  import opened Common

  datatype AppState = Null | FactoryReset | Limbo | PoweringOn | Pairing | Idle | Busy | Terminating | PoweringOff

  /** What the audio and USB drivers report while one message is handled. */
  datatype Env = Env(lineIn: bool, usb: bool, usbEnabled: bool)

  datatype Log =
    | Requested(id: nat, connected: bool)   // a deletion request, and whether a handset was connected
    | Indicated(stillConnected: bool)       // a disconnected indication
    | TimedOut(id: nat, held: bool)         // a request's timer, and whether the lock was held
    | Deleted(id: nat)
    | TopologyStopped
    | TopologyStarted

  datatype WiredMessage = WiredConnect | WiredDisconnect | UsbEnumerated | UsbDeconfigured

  datatype Event =
    | ChangeState(newState: AppState)       // any caller of headsetSetState
    | Wired(message: WiredMessage)
    | TopologyStopCfm
    | DeleteHandsets(connected: bool)
    | HandsetDisconnected(stillConnected: bool)
    | DeliverComplete
    | FireTimeout(k: nat)

  /** `completes` and `timeouts` are the undelivered completion messages and
      timers of deletion requests, oldest first, by request number. */
  datatype Headset = Headset(
    state: AppState,
    paused: bool,
    wiredConnected: bool,
    lock: bool,
    completes: seq<nat>,
    timeouts: seq<nat>,
    serial: nat,
    log: seq<Log>)

  const BOOT: Headset := Headset(Null, false, false, false, [], [], 0, [])

  /** Wired audio is present. With USB coexistence only the line-in counts. */
  predicate WiredActive(coexist: bool, env: Env) { env.lineIn || (!coexist && env.usb) }

  function Note(h: Headset, x: Log): Headset { h.(log := h.log + [x]) }

  function CancelFirst(queue: seq<nat>): seq<nat> { if queue == [] then [] else queue[1..] }

  /** Exit actions: leaving Busy without wired audio restarts Bluetooth. */
  function Leave(coexist: bool, h: Headset, env: Env): Headset {
    if h.state == Busy && !WiredActive(coexist, env) then Note(h, TopologyStarted) else h
  }

  /** Entry actions: entering Busy with wired audio pauses the controller, which
      records the wired status, and stops Bluetooth. */
  function Enter(coexist: bool, h: Headset, new': AppState, env: Env): Headset {
    if new' == Busy && WiredActive(coexist, env) then
      Note(h.(state := Busy, paused := true, wiredConnected := true), TopologyStopped)
    else if new' == FactoryReset then h.(state := FactoryReset, timeouts := CancelFirst(h.timeouts))
    else h.(state := new')
  }

  /** Exit the old state, enter the new one. None is a panic. */
  function SetState(coexist: bool, h: Headset, new': AppState, env: Env): Option<Headset> {
    if h.state == FactoryReset || new' == Null then None
    else Some(Enter(coexist, Leave(coexist, h, env), new', env))
  }

  function WiredAudioConnected(coexist: bool, h: Headset, env: Env): Option<Headset> {
    if h.state in {PoweringOn, Idle, Busy} then SetState(coexist, h, Busy, env) else Some(h)
  }

  function WiredAudioDisconnected(coexist: bool, h: Headset, env: Env): Option<Headset> {
    if h.state == Busy then SetState(coexist, h, Idle, env) else Some(h)
  }

  function OnWired(coexist: bool, h: Headset, m: WiredMessage, env: Env): Option<Headset> {
    if h.paused then Some(h)
    else if m == WiredConnect || (m == UsbEnumerated && !coexist && env.usbEnabled) then
      WiredAudioConnected(coexist, h, env)
    else if (m == WiredDisconnect || (m == UsbDeconfigured && !coexist && env.usbEnabled))
            && !env.lineIn && !env.usb then
      WiredAudioDisconnected(coexist, h, env)
    else Some(h)
  }

  /** Resume the controller: report a wired status that changed since the pause. */
  function Enable(coexist: bool, h: Headset, env: Env): Option<Headset> {
    if !h.paused then Some(h)
    else
      var wired := WiredActive(coexist, env);
      var r := if wired == h.wiredConnected then Some(h)
               else if wired then WiredAudioConnected(coexist, h, env)
               else WiredAudioDisconnected(coexist, h, env);
      if r.None? then None else Some(r.value.(paused := false))
  }

  function Request(h: Headset, connected: bool): Headset {
    if h.state != Idle && h.state != Busy then h
    else
      Note(h.(lock := connected, completes := h.completes + [h.serial], timeouts := h.timeouts + [h.serial],
              serial := h.serial + 1),
           Requested(h.serial, connected))
  }

  /** Completions wait for the lock; timers can fire at any time. */
  predicate Deliverable(h: Headset, e: Event) {
    && (e.DeliverComplete? ==> h.completes != [] && !h.lock)
    && (e.FireTimeout? ==> e.k < |h.timeouts|)
  }

  function Step(coexist: bool, h: Headset, e: Event, env: Env): Option<Headset>
    requires Deliverable(h, e)
  {
    match e
    case ChangeState(newState) => SetState(coexist, h, newState, env)
    case Wired(m) => OnWired(coexist, h, m, env)
    case TopologyStopCfm =>
      if h.state == PoweringOff then SetState(coexist, h, Limbo, env) else Enable(coexist, h, env)
    case DeleteHandsets(connected) => Some(Request(h, connected))
    case HandsetDisconnected(stillConnected) =>
      Some(Note(h.(lock := h.lock && stillConnected), Indicated(stillConnected)))
    case DeliverComplete =>
      Some(Note(h.(completes := h.completes[1..], timeouts := CancelFirst(h.timeouts)), Deleted(h.completes[0])))
    case FireTimeout(k) =>
      Some(Note(h.(timeouts := h.timeouts[..k] + h.timeouts[k + 1..],
                   completes := if h.lock then [] else h.completes,
                   lock := false),
                TimedOut(h.timeouts[k], h.lock)))
  }
}
