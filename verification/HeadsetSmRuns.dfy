/** Properties of every run of the headset state machine. */
module HeadsetSmRuns {
  import opened HeadsetSm

  datatype Input = Input(event: Event, env: Env)

  ghost predicate LawfulRun(coexist: bool, h: Headset, run: seq<Input>)
    decreases |run|
  {
    run != [] ==>
      && Deliverable(h, run[0].event)
      && var n := Step(coexist, h, run[0].event, run[0].env); n.Some? && LawfulRun(coexist, n.value, run[1..])
  }

  ghost function After(coexist: bool, h: Headset, run: seq<Input>): Headset
    requires LawfulRun(coexist, h, run)
    decreases |run|
  {
    if run == [] then h else After(coexist, Step(coexist, h, run[0].event, run[0].env).value, run[1..])
  }

  // ----- deletion of paired handsets -----------------------------------------

  /** Since the latest request: it found no handset connected, or a disconnected
      indication was handled with none left. */
  ghost predicate Justified(log: seq<Log>) {
    log != [] &&
    var x := log[|log| - 1];
    x == Indicated(false) || (if x.Requested? then !x.connected else Justified(log[..|log| - 1]))
  }

  /** Request `id` was made, and no timer has fired with the lock held since. */
  ghost predicate Live(log: seq<Log>, id: nat) {
    log != [] &&
    var x := log[|log| - 1];
    (x.Requested? && x.id == id) || (!(x.TimedOut? && x.held) && Live(log[..|log| - 1], id))
  }

  /** Every deletion in the log was justified, and its request live, when it happened. */
  ghost predicate SafeLog(log: seq<Log>) {
    forall i :: 0 <= i < |log| && log[i].Deleted? ==> Justified(log[..i]) && Live(log[..i], log[i].id)
  }

  ghost predicate Guarded(h: Headset) {
    && SafeLog(h.log)
    && (h.completes != [] ==> (!h.lock <==> Justified(h.log)))
    && (h.lock ==> !Justified(h.log))
    && (forall k :: 0 <= k < |h.completes| ==> Live(h.log, h.completes[k]))
  }

  lemma {:induction false} Extended(log: seq<Log>, x: Log)
    ensures Justified(log + [x]) <==> x == Indicated(false) || (if x.Requested? then !x.connected else Justified(log))
    ensures forall id :: Live(log + [x], id)
                    <==> (x.Requested? && x.id == id) || (!(x.TimedOut? && x.held) && Live(log, id))
    ensures SafeLog(log) && (x.Deleted? ==> Justified(log) && Live(log, x.id)) ==> SafeLog(log + [x])
  {
    var more := log + [x];
    assert more[|more| - 1] == x && more[..|more| - 1] == log;
    if SafeLog(log) && (x.Deleted? ==> Justified(log) && Live(log, x.id)) {
      forall i | 0 <= i < |more| && more[i].Deleted? ensures Justified(more[..i]) && Live(more[..i], more[i].id) {
        if i < |log| { assert more[..i] == log[..i]; }
      }
    }
  }

  lemma {:induction false} NoteGuarded(h: Headset, n: Headset, x: Log)
    requires Guarded(h) && n.log == h.log + [x]
    requires x.Deleted? ==> Justified(h.log) && Live(h.log, x.id)
    requires n.lock ==> (x.Requested? && x.connected) || (h.lock && !x.Requested? && x != Indicated(false))
    requires n.completes != [] && !n.lock ==>
               || x == Indicated(false)
               || (x.Requested? && !x.connected)
               || (!x.Requested? && h.completes != [] && !h.lock)
    requires forall k :: 0 <= k < |n.completes| ==>
               (x.Requested? && x.id == n.completes[k]) || (n.completes[k] in h.completes && !(x.TimedOut? && x.held))
    ensures Guarded(n)
  {
    Extended(h.log, x);
  }

  lemma {:induction false} SetStateGuarded(coexist: bool, h: Headset, new': AppState, env: Env)
    requires Guarded(h) && SetState(coexist, h, new', env).Some?
    ensures Guarded(SetState(coexist, h, new', env).value)
  {
    var left := Leave(coexist, h, env);
    if left != h { NoteGuarded(h, left, TopologyStarted); }
    if new' == Busy && WiredActive(coexist, env) {
      NoteGuarded(left, Enter(coexist, left, new', env), TopologyStopped);
    }
  }

  lemma {:induction false} StepGuarded(coexist: bool, h: Headset, e: Event, env: Env)
    requires Guarded(h) && Deliverable(h, e) && Step(coexist, h, e, env).Some?
    ensures Guarded(Step(coexist, h, e, env).value)
  {
    var n := Step(coexist, h, e, env).value;
    if e.ChangeState? {
      SetStateGuarded(coexist, h, e.newState, env);
    } else if e.Wired? || e.TopologyStopCfm? {
      AudioStep(coexist, h, e, env);
      if SetState(coexist, h, n.state, env).Some? { SetStateGuarded(coexist, h, n.state, env); }
    } else if |n.log| > |h.log| {
      NoteGuarded(h, n, n.log[|h.log|]);
    } else {
      assert n == h;
    }
  }

  /** For any interleaving of requests, timers and indications: handsets are
      deleted only when that is justified since the latest request, a request
      never deletes once a timer has fired with the lock held, and a queued
      completion is held back by the lock exactly while it is not justified. */
  lemma {:induction false} DeletionGuarded(coexist: bool, h: Headset, run: seq<Input>)
    requires Guarded(h) && LawfulRun(coexist, h, run)
    ensures Guarded(After(coexist, h, run))
    decreases |run|
  {
    if run != [] {
      StepGuarded(coexist, h, run[0].event, run[0].env);
      DeletionGuarded(coexist, Step(coexist, h, run[0].event, run[0].env).value, run[1..]);
    }
  }

  lemma {:induction false} EveryDeletionJustified(coexist: bool, run: seq<Input>)
    requires LawfulRun(coexist, BOOT, run)
    ensures SafeLog(After(coexist, BOOT, run).log)
  {
    DeletionGuarded(coexist, BOOT, run);
  }

  /** Once a timer of request `id` has fired with the lock held, that request is
      no longer live, whatever happens next short of a new request. */
  lemma {:induction false} TimedOutStaysDead(log: seq<Log>, i: nat, id: nat)
    requires i < |log| && log[i] == TimedOut(id, true)
    requires forall k :: i < k < |log| ==> !(log[k].Requested? && log[k].id == id)
    ensures !Live(log, id)
    decreases |log|
  {
    if i < |log| - 1 {
      TimedOutStaysDead(log[..|log| - 1], i, id);
    }
  }

  /** Request numbers grow and are not reused. */
  ghost predicate Numbered(h: Headset) {
    && (forall k :: 0 <= k < |h.timeouts| ==> h.timeouts[k] < h.serial)
    && (forall i :: 0 <= i < |h.log| && Names(h.log[i]) ==> h.log[i].id < h.serial)
    && (forall i, j :: 0 <= i < j < |h.log| && Names(h.log[i]) && h.log[j].Requested? ==> h.log[i].id < h.log[j].id)
  }

  predicate Names(x: Log) { x.Requested? || x.TimedOut? }

  lemma {:induction false} NoteNumbered(h: Headset, n: Headset, x: Log)
    requires Numbered(h) && n.log == h.log + [x] && h.serial <= n.serial
    requires Names(x) ==> x.id < n.serial
    requires x.Requested? ==> x.id == h.serial
    requires forall k :: 0 <= k < |n.timeouts| ==> n.timeouts[k] < n.serial
    ensures Numbered(n)
  {
  }

  lemma {:induction false} SetStateNumbered(coexist: bool, h: Headset, new': AppState, env: Env)
    requires Numbered(h) && SetState(coexist, h, new', env).Some?
    ensures Numbered(SetState(coexist, h, new', env).value)
  {
    var left := Leave(coexist, h, env);
    if left != h { NoteNumbered(h, left, TopologyStarted); }
    if new' == Busy && WiredActive(coexist, env) {
      NoteNumbered(left, Enter(coexist, left, new', env), TopologyStopped);
    }
  }

  /** What the audio events do is at most one change of state, apart from the pause. */
  lemma {:induction false} AudioStep(coexist: bool, h: Headset, e: Event, env: Env)
    requires (e.Wired? || e.TopologyStopCfm?) && Step(coexist, h, e, env).Some?
    ensures var n := Step(coexist, h, e, env).value;
            || n == h.(paused := n.paused)
            || (SetState(coexist, h, n.state, env).Some?
                && n == SetState(coexist, h, n.state, env).value.(paused := n.paused))
  {
  }

  lemma {:induction false} StepNumbered(coexist: bool, h: Headset, e: Event, env: Env)
    requires Numbered(h) && Deliverable(h, e) && Step(coexist, h, e, env).Some?
    ensures Numbered(Step(coexist, h, e, env).value)
  {
    var n := Step(coexist, h, e, env).value;
    if e.ChangeState? {
      SetStateNumbered(coexist, h, e.newState, env);
    } else if e.Wired? || e.TopologyStopCfm? {
      AudioStep(coexist, h, e, env);
      if SetState(coexist, h, n.state, env).Some? { SetStateNumbered(coexist, h, n.state, env); }
    } else if |n.log| > |h.log| {
      NoteNumbered(h, n, n.log[|h.log|]);
    } else {
      assert n == h;
    }
  }

  lemma {:induction false} RunNumbered(coexist: bool, h: Headset, run: seq<Input>)
    requires Numbered(h) && LawfulRun(coexist, h, run)
    ensures Numbered(After(coexist, h, run))
    decreases |run|
  {
    if run != [] {
      StepNumbered(coexist, h, run[0].event, run[0].env);
      RunNumbered(coexist, Step(coexist, h, run[0].event, run[0].env).value, run[1..]);
    }
  }

  /** A request whose timer fires with the lock still held never deletes. */
  lemma {:induction false} TimedOutRequestNeverDeletes(coexist: bool, run: seq<Input>, i: nat, j: nat)
    requires LawfulRun(coexist, BOOT, run)
    requires i < j < |After(coexist, BOOT, run).log|
    requires After(coexist, BOOT, run).log[i].TimedOut? && After(coexist, BOOT, run).log[i].held
    ensures After(coexist, BOOT, run).log[j] != Deleted(After(coexist, BOOT, run).log[i].id)
  {
    var h := After(coexist, BOOT, run);
    DeletionGuarded(coexist, BOOT, run);
    RunNumbered(coexist, BOOT, run);
    TimedOutStaysDead(h.log[..j], i, h.log[i].id);
  }

  // ----- pausing and resuming the wired audio controller ---------------------

  /** While paused, the recorded wired status is TRUE. */
  ghost predicate PausedWhileWired(h: Headset) { h.paused ==> h.wiredConnected }

  lemma {:induction false} StepPausedWhileWired(coexist: bool, h: Headset, e: Event, env: Env)
    requires PausedWhileWired(h) && Deliverable(h, e) && Step(coexist, h, e, env).Some?
    ensures PausedWhileWired(Step(coexist, h, e, env).value)
  {
  }

  lemma {:induction false} RunPausedWhileWired(coexist: bool, h: Headset, run: seq<Input>)
    requires PausedWhileWired(h) && LawfulRun(coexist, h, run)
    ensures PausedWhileWired(After(coexist, h, run))
    decreases |run|
  {
    if run != [] {
      StepPausedWhileWired(coexist, h, run[0].event, run[0].env);
      RunPausedWhileWired(coexist, Step(coexist, h, run[0].event, run[0].env).value, run[1..]);
    }
  }

  /** Resuming from a pause, in any state a run reaches: it cannot panic, never
      takes the "connected" branch, and never loses a removal. If wired audio has
      gone a busy headset becomes idle and restarts Bluetooth; otherwise nothing
      but the pause flag changes. */
  lemma {:induction false} ResumeNeverLosesRemoval(coexist: bool, run: seq<Input>, env: Env)
    requires LawfulRun(coexist, BOOT, run)
    requires After(coexist, BOOT, run).paused && After(coexist, BOOT, run).state != PoweringOff
    ensures var h := After(coexist, BOOT, run);
            var n := Step(coexist, h, TopologyStopCfm, env);
            && n.Some? && !n.value.paused
            && (!WiredActive(coexist, env) ==> n.value.state != Busy)
            && n.value == if !WiredActive(coexist, env) && h.state == Busy
                          then Note(h.(state := Idle, paused := false), TopologyStarted)
                          else h.(paused := false)
  {
    RunPausedWhileWired(coexist, BOOT, run);
  }

  /** The invariant is what makes that true: had the status been recorded as FALSE,
      resuming with wired audio present would pause again and at once drop the
      pause. */
  lemma {:induction false} ResumeWithoutRecordWouldDropPause()
    ensures var h := BOOT.(state := Idle, paused := true, wiredConnected := false);
            var n := Enable(false, h, Env(true, false, false));
            n.Some? && n.value.state == Busy && TopologyStopped in n.value.log && !n.value.paused
  {
    assert (BOOT.log + [TopologyStopped])[0] == TopologyStopped;
  }

  // ----- all three invariants together ---------------------------------------

  ghost predicate Sound(h: Headset) { Guarded(h) && Numbered(h) && PausedWhileWired(h) }

  lemma {:induction false} SetStateSound(coexist: bool, h: Headset, new': AppState, env: Env)
    requires Sound(h) && SetState(coexist, h, new', env).Some?
    ensures Sound(SetState(coexist, h, new', env).value)
  {
    SetStateGuarded(coexist, h, new', env);
    SetStateNumbered(coexist, h, new', env);
  }

  lemma {:induction false} StepSound(coexist: bool, h: Headset, e: Event, env: Env)
    requires Sound(h) && Deliverable(h, e) && Step(coexist, h, e, env).Some?
    ensures Sound(Step(coexist, h, e, env).value)
  {
    StepGuarded(coexist, h, e, env);
    StepNumbered(coexist, h, e, env);
    StepPausedWhileWired(coexist, h, e, env);
  }

  /** A request is live at once, and its completion can be delivered exactly if no
      handset was connected. */
  lemma {:induction false} RequestOpensIff(h: Headset, connected: bool)
    requires h.state == Idle || h.state == Busy
    ensures var n := Request(h, connected);
            && Live(n.log, h.serial) && (Justified(n.log) <==> !connected)
            && (Deliverable(n, DeliverComplete) <==> !connected)
  {
    Extended(h.log, Requested(h.serial, connected));
  }

  /** After an indication a waiting completion can be delivered exactly if deletion is
      justified, which it is if no handset is left and otherwise as before. */
  lemma {:induction false} IndicationOpensIff(coexist: bool, h: Headset, stillConnected: bool, env: Env)
    requires Sound(h)
    ensures var n := Step(coexist, h, HandsetDisconnected(stillConnected), env).value;
            && (Justified(n.log) <==> !stillConnected || Justified(h.log))
            && (n.completes != [] ==> (Deliverable(n, DeliverComplete) <==> Justified(n.log)))
  {
    Extended(h.log, Indicated(stillConnected));
    StepGuarded(coexist, h, HandsetDisconnected(stillConnected), env);
  }

  /** A completion that can be delivered is justified, and its request is live. */
  lemma {:induction false} DeliverableIsJustified(h: Headset)
    requires Sound(h) && Deliverable(h, DeliverComplete)
    ensures Justified(h.log) && Live(h.log, h.completes[0])
  {
  }

  /** A timer that finds the lock held ends every request made so far; one that does
      not changes none. */
  lemma {:induction false} TimeoutEndsRequests(coexist: bool, h: Headset, k: nat, env: Env)
    requires k < |h.timeouts|
    ensures var n := Step(coexist, h, FireTimeout(k), env).value;
            && (h.lock ==> (forall id :: !Live(n.log, id)) && !Deliverable(n, DeliverComplete))
            && (!h.lock ==> (forall id :: Live(n.log, id) <==> Live(h.log, id)) && n.completes == h.completes)
            && (Justified(n.log) <==> Justified(h.log))
  {
    Extended(h.log, TimedOut(h.timeouts[k], h.lock));
  }
}
