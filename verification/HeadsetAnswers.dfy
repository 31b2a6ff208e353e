/**
 * What the headset state machine and the wired audio controller answer to each
 * event, told by state, record and log; and that deletions asked for happen.
 */
module HeadsetAnswers {
  import opened Common
  import opened HeadsetSm
  import opened HeadsetSmRuns

  // ----- wired audio ---------------------------------------------------------

  /** Wired audio is there; with USB coexistence USB audio does not count. */
  ghost predicate Wired(coexist: bool, env: Env) { env.lineIn || (env.usb && !coexist) }

  /** An event the controller takes for an insertion. */
  ghost predicate Insertion(coexist: bool, m: WiredMessage, env: Env) {
    m == WiredConnect || (m == UsbEnumerated && env.usbEnabled && !coexist)
  }

  /** An event the controller takes for a removal. */
  ghost predicate Removal(coexist: bool, m: WiredMessage, env: Env) {
    m == WiredDisconnect || (m == UsbDeconfigured && env.usbEnabled && !coexist)
  }

  /** Headset h has become busy with wired audio: the controller is paused with TRUE on
      record and Bluetooth is stopped. */
  ghost predicate TakenByWire(h: Headset, n: Headset) {
    n == h.(state := Busy, paused := true, wiredConnected := true, log := h.log + [TopologyStopped])
  }

  /** An insertion, while not paused and with wired audio there, takes a headset that is
      powering on, idle or busy, and changes nothing in any other state. */
  lemma {:induction false} InsertionAnswers(coexist: bool, h: Headset, m: WiredMessage, env: Env)
    requires !h.paused && Insertion(coexist, m, env)
    ensures var n := Step(coexist, h, Event.Wired(m), env);
            && n.Some?
            && (h.state in {PoweringOn, Idle, Busy} && Wired(coexist, env) ==> TakenByWire(h, n.value))
            && (h.state !in {PoweringOn, Idle, Busy} ==> n.value == h)
            && (h.state in {PoweringOn, Idle} && !Wired(coexist, env) ==> n.value == h.(state := Busy))
            && (h.state == Busy && !Wired(coexist, env) ==> n.value == h.(log := h.log + [TopologyStarted]))
  {
  }

  /** A removal, while not paused and with nothing left, takes a busy headset back to
      idle and restarts Bluetooth, and changes nothing in any other state, nor while
      some wired audio is left. */
  lemma {:induction false} RemovalAnswers(coexist: bool, h: Headset, m: WiredMessage, env: Env)
    requires !h.paused && Removal(coexist, m, env)
    ensures Step(coexist, h, Event.Wired(m), env) ==
            Some(if h.state == Busy && !env.lineIn && !env.usb
                 then h.(state := Idle, log := h.log + [TopologyStarted]) else h)
  {
  }

  /** While paused, and for USB events that do not concern it, the controller does
      nothing. */
  lemma {:induction false} OtherwiseIgnored(coexist: bool, h: Headset, m: WiredMessage, env: Env)
    requires h.paused || (!Insertion(coexist, m, env) && !Removal(coexist, m, env))
    ensures Step(coexist, h, Event.Wired(m), env) == Some(h)
  {
  }

  /** The confirm that Bluetooth has stopped: a headset powering off goes to limbo;
      otherwise a paused controller resumes, and nothing happens if it was not paused. */
  lemma {:induction false} StopCfmAnswers(coexist: bool, h: Headset, env: Env)
    requires PausedWhileWired(h)
    ensures Step(coexist, h, TopologyStopCfm, env) ==
            Some(if h.state == PoweringOff then h.(state := Limbo)
                 else if h.paused && h.state == Busy && !Wired(coexist, env)
                 then h.(state := Idle, paused := false, log := h.log + [TopologyStarted])
                 else h.(paused := false))
  {
  }

  /** A whole session on the wire, from any idle headset: the insertion takes it, the
      stop confirm resumes the controller, and the removal gives Bluetooth back. */
  lemma {:induction false} WireSession(coexist: bool, h: Headset, on: Env, off: Env)
    requires h.state == Idle && !h.paused && on.lineIn && !off.lineIn && !off.usb
    ensures var run := [Input(Event.Wired(WiredConnect), on), Input(TopologyStopCfm, on),
                        Input(Event.Wired(WiredDisconnect), off)];
            && LawfulRun(coexist, h, run)
            && After(coexist, h, run) ==
               h.(wiredConnected := true, log := h.log + [TopologyStopped, TopologyStarted])
  {
    var run := [Input(Event.Wired(WiredConnect), on), Input(TopologyStopCfm, on),
                Input(Event.Wired(WiredDisconnect), off)];
    InsertionAnswers(coexist, h, WiredConnect, on);
    var taken := Step(coexist, h, run[0].event, on).value;
    StopCfmAnswers(coexist, taken, on);
    var resumed := Step(coexist, taken, TopologyStopCfm, on).value;
    RemovalAnswers(coexist, resumed, WiredDisconnect, off);
    var idle := Step(coexist, resumed, run[2].event, off).value;
    assert idle.log == h.log + [TopologyStopped, TopologyStarted];
    RunOfThree(coexist, h, run, taken, resumed, idle);
  }

  lemma {:induction false} RunOfThree(coexist: bool, h: Headset, run: seq<Input>, a: Headset, b: Headset, c: Headset)
    requires |run| == 3
    requires Deliverable(h, run[0].event) && Step(coexist, h, run[0].event, run[0].env) == Some(a)
    requires Deliverable(a, run[1].event) && Step(coexist, a, run[1].event, run[1].env) == Some(b)
    requires Deliverable(b, run[2].event) && Step(coexist, b, run[2].event, run[2].env) == Some(c)
    ensures LawfulRun(coexist, h, run) && After(coexist, h, run) == c
  {
    var r1, r2 := run[1..], run[2..];
    assert r2[1..] == [] && LawfulRun(coexist, c, []);
    assert r1[1..] == r2 && LawfulRun(coexist, b, r2) && After(coexist, b, r2) == c;
    assert LawfulRun(coexist, a, r1) && After(coexist, a, r1) == c;
  }

  // ----- changes of state ----------------------------------------------------

  /** A change of state panics exactly out of a factory reset or into the null state;
      otherwise Bluetooth is restarted on leaving Busy without wired audio and stopped,
      with the controller paused and TRUE on record, on entering it with; a factory
      reset cancels the oldest timer; nothing else changes. */
  lemma {:induction false} ChangeAnswers(coexist: bool, h: Headset, new': AppState, env: Env)
    ensures var n := Step(coexist, h, ChangeState(new'), env);
            var wired := Wired(coexist, env);
            && (n.None? <==> h.state == FactoryReset || new' == Null)
            && (n.Some? ==>
                  && n.value.state == new'
                  && n.value.paused == (h.paused || (new' == Busy && wired))
                  && n.value.wiredConnected == (h.wiredConnected || (new' == Busy && wired))
                  && n.value.log == h.log + (if h.state == Busy && !wired then [TopologyStarted] else [])
                                    + (if new' == Busy && wired then [TopologyStopped] else [])
                  && (new' == FactoryReset && h.timeouts != [] ==> h.timeouts == [h.timeouts[0]] + n.value.timeouts)
                  && (new' != FactoryReset || h.timeouts == [] ==> n.value.timeouts == h.timeouts)
                  && n.value.lock == h.lock && n.value.completes == h.completes && n.value.serial == h.serial)
  {
  }

  // ----- deletion of paired handsets -----------------------------------------

  /** A request is made exactly when idle or busy: it gets the next number, its
      completion is queued, its timer is started, and the lock is set exactly if a
      handset is connected. */
  lemma {:induction false} RequestAnswers(coexist: bool, h: Headset, connected: bool, env: Env)
    ensures var n := Step(coexist, h, DeleteHandsets(connected), env);
            && n.Some?
            && (h.state != Idle && h.state != Busy ==> n.value == h)
            && (h.state == Idle || h.state == Busy ==>
                  n.value == h.(lock := connected, serial := h.serial + 1, completes := h.completes + [h.serial],
                                timeouts := h.timeouts + [h.serial],
                                log := h.log + [Requested(h.serial, connected)]))
  {
  }

  /** A completion delivered deletes for the oldest request and cancels the oldest timer. */
  lemma {:induction false} CompletionAnswers(coexist: bool, h: Headset, env: Env)
    requires Deliverable(h, DeliverComplete)
    ensures var n := Step(coexist, h, DeliverComplete, env);
            && n.Some?
            && h.completes == [h.completes[0]] + n.value.completes
            && n.value.log == h.log + [Deleted(h.completes[0])]
            && n.value.timeouts == (if h.timeouts == [] then [] else h.timeouts[1..])
            && n.value == h.(completes := n.value.completes, timeouts := n.value.timeouts, log := n.value.log)
  {
  }

  /** An indication only ever opens a held lock, and only when no handset is left. */
  lemma {:induction false} IndicationAnswers(coexist: bool, h: Headset, stillConnected: bool, env: Env)
    ensures Step(coexist, h, HandsetDisconnected(stillConnected), env) ==
            Some(h.(lock := if stillConnected then h.lock else false, log := h.log + [Indicated(stillConnected)]))
  {
  }

  /** A timer takes itself off; if the lock is held it opens it and drops every queued
      completion. */
  lemma {:induction false} TimerAnswers(coexist: bool, h: Headset, k: nat, env: Env)
    requires k < |h.timeouts|
    ensures var n := Step(coexist, h, FireTimeout(k), env);
            && n.Some? && !n.value.lock
            && h.timeouts == n.value.timeouts[..k] + [h.timeouts[k]] + n.value.timeouts[k..]
            && n.value.completes == (if h.lock then [] else h.completes)
            && n.value.log == h.log + [TimedOut(h.timeouts[k], h.lock)]
            && n.value.state == h.state && n.value.serial == h.serial
            && n.value.paused == h.paused && n.value.wiredConnected == h.wiredConnected
  {
  }

  /** A deletion asked for happens: with a handset connected, once it is gone. */
  lemma {:induction false} DeletionHappens(coexist: bool, h: Headset, env: Env)
    requires (h.state == Idle || h.state == Busy) && h.completes == []
    ensures var run := [Input(DeleteHandsets(true), env), Input(HandsetDisconnected(false), env),
                        Input(DeliverComplete, env)];
            && LawfulRun(coexist, h, run)
            && After(coexist, h, run).log ==
               h.log + [Requested(h.serial, true), Indicated(false), Deleted(h.serial)]
  {
    var run := [Input(DeleteHandsets(true), env), Input(HandsetDisconnected(false), env), Input(DeliverComplete, env)];
    RequestAnswers(coexist, h, true, env);
    var asked := Step(coexist, h, run[0].event, env).value;
    IndicationAnswers(coexist, asked, false, env);
    var gone := Step(coexist, asked, run[1].event, env).value;
    CompletionAnswers(coexist, gone, env);
    var deleted := Step(coexist, gone, DeliverComplete, env).value;
    assert deleted.log == h.log + [Requested(h.serial, true), Indicated(false), Deleted(h.serial)];
    RunOfThree(coexist, h, run, asked, gone, deleted);
  }
}
