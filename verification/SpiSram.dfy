/**
 * Pending transfers of the 23LC1024 SPI RAM driver, on values. Accepted transfers
 * are numbered in the order they were accepted; `pending` lists those numbers as
 * the driver's list holds them, newest first.
 */
module SpiSram {
  import opened Common

  const CMD_READ: Byte := 0x03
  const CMD_WRITE: Byte := 0x02

  datatype Transfer = Transfer(handle: nat, cb: Option<nat>, context: nat, header: seq<Byte>)
  datatype Completion = Completion(serial: nat, success: bool)
  datatype Call = Call(cb: nat, context: nat, success: bool)

  datatype State = State(
    accepted: seq<Transfer>,
    pending: seq<nat>,
    done: seq<Completion>,
    fired: seq<Call>,
    count: int,
    countMax: int)

  const EMPTY := State([], [], [], [], 0, 0)

  /** `outcome` is what the bit-serial layer answers: a handle, or a refusal. */
  datatype Event =
    | Write(offset: nat, cb: Option<nat>, context: nat, outcome: Option<nat>)
    | Read(offset: nat, cb: Option<nat>, context: nat, outcome: Option<nat>)
    | Complete(handle: nat, success: bool)
    | OtherMessage

  // ----- the header ----------------------------------------------------------

  function Header(cmd: Byte, offset: nat): seq<Byte> {
    [cmd, offset / 0x1_0000 % 0x100, offset / 0x100 % 0x100, offset % 0x100]
  }

  function Address(header: seq<Byte>): nat
    requires |header| == 4
  {
    (header[1] as int) * 0x1_0000 + (header[2] as int) * 0x100 + header[3]
  }

  /** The chip sees the offset asked for exactly when it fits in 24 bits. */
  lemma {:induction false} HeaderCarriesOffset(cmd: Byte, offset: nat)
    ensures Address(Header(cmd, offset)) == offset % 0x100_0000
    ensures Address(Header(cmd, offset)) == offset <==> offset < 0x100_0000
  {
    assert offset / 0x100 / 0x100 == offset / 0x1_0000;
    assert offset / 0x1_0000 / 0x100 == offset / 0x100_0000;
  }

  // ----- steps ---------------------------------------------------------------

  function Accept(s: State, t: Transfer): State {
    s.(accepted := s.accepted + [t], pending := [|s.accepted|] + s.pending, count := s.count + 1)
  }

  function NotePeak(s: State): State {
    if s.count > s.countMax then s.(countMax := s.count) else s
  }

  /** Place of the first listed transfer with the handle; the length if none. */
  function Find(accepted: seq<Transfer>, pending: seq<nat>, handle: nat): (i: nat)
    ensures i <= |pending|
    ensures i < |pending| ==> pending[i] < |accepted| && accepted[pending[i]].handle == handle
    ensures forall j :: 0 <= j < i && pending[j] < |accepted| ==> accepted[pending[j]].handle != handle
  {
    if pending == [] || (pending[0] < |accepted| && accepted[pending[0]].handle == handle) then 0
    else 1 + Find(accepted, pending[1..], handle)
  }

  function Without<T>(s: seq<T>, i: nat): (r: seq<T>)
    requires i < |s|
    ensures |r| == |s| - 1
  {
    s[..i] + s[i + 1..]
  }

  function Called(t: Transfer, success: bool): seq<Call> {
    if t.cb.Some? then [Call(t.cb.value, t.context, success)] else []
  }

  /** Take the i-th listed transfer off and make its callback. */
  function Remove(s: State, i: nat, success: bool): State
    requires i < |s.pending| && s.pending[i] < |s.accepted|
  {
    s.(pending := Without(s.pending, i),
       done := s.done + [Completion(s.pending[i], success)],
       fired := s.fired + Called(s.accepted[s.pending[i]], success),
       count := s.count - 1)
  }

  function Finish(s: State, handle: nat, success: bool): State {
    var i := Find(s.accepted, s.pending, handle);
    if i == |s.pending| then s else Remove(s, i, success)
  }

  function Step(s: State, e: Event): State {
    match e
    case Write(offset, cb, context, outcome) =>
      if outcome.None? then s
      else NotePeak(Accept(s, Transfer(outcome.value, cb, context, Header(CMD_WRITE, offset))))
    case Read(offset, cb, context, outcome) =>
      if outcome.None? then s
      else Accept(s, Transfer(outcome.value, cb, context, Header(CMD_READ, offset)))
    case Complete(handle, success) => Finish(s, handle, success)
    case OtherMessage => s
  }

  ghost function Run(events: seq<Event>): State {
    if events == [] then EMPTY else Step(Run(events[..|events| - 1]), events[|events| - 1])
  }

  // ----- the ledger every run keeps ------------------------------------------

  ghost function Finished(done: seq<Completion>): multiset<nat> {
    if done == [] then multiset{} else Finished(done[..|done| - 1]) + multiset{done[|done| - 1].serial}
  }

  /** The callbacks owed for the completions, in their order. */
  ghost function Owed(accepted: seq<Transfer>, done: seq<Completion>): seq<Call> {
    if done == [] then []
    else
      var c := done[|done| - 1];
      Owed(accepted, done[..|done| - 1])
      + (if c.serial < |accepted| then Called(accepted[c.serial], c.success) else [])
  }

  ghost function Tally(done: seq<Completion>, pending: seq<nat>): multiset<nat> {
    Finished(done) + multiset(pending)
  }

  /** Transfer k is listed or completed, and only once, exactly when it was accepted. */
  ghost predicate OnceEach(s: State) {
    forall k: nat :: Tally(s.done, s.pending)[k] == if k < |s.accepted| then 1 else 0
  }

  ghost predicate NewestFirst(pending: seq<nat>) {
    forall i, j :: 0 <= i < j < |pending| ==> pending[i] > pending[j]
  }

  ghost predicate Ledger(s: State) {
    && s.count == |s.pending|
    && |s.accepted| == |s.done| + |s.pending|
    && OnceEach(s)
    && NewestFirst(s.pending)
    && (forall i :: 0 <= i < |s.pending| ==> s.pending[i] < |s.accepted|)
    && (forall i :: 0 <= i < |s.done| ==> s.done[i].serial < |s.accepted|)
    && s.fired == Owed(s.accepted, s.done)
  }

  lemma {:induction false} OwedUnchanged(accepted: seq<Transfer>, t: Transfer, done: seq<Completion>)
    requires forall i :: 0 <= i < |done| ==> done[i].serial < |accepted|
    ensures Owed(accepted + [t], done) == Owed(accepted, done)
  {
    if done != [] { OwedUnchanged(accepted, t, done[..|done| - 1]); }
  }

  lemma {:induction false} AcceptKeepsLedger(s: State, t: Transfer)
    requires Ledger(s)
    ensures Ledger(Accept(s, t))
  {
    var r := Accept(s, t);
    OwedUnchanged(s.accepted, t, s.done);
    assert Tally(r.done, r.pending) == Tally(s.done, s.pending) + multiset{|s.accepted|} by {
      assert multiset(r.pending) == multiset{|s.accepted|} + multiset(s.pending);
    }
  }

  lemma {:induction false} WithoutMultiset(s: seq<nat>, i: nat)
    requires i < |s|
    ensures multiset(Without(s, i)) + multiset{s[i]} == multiset(s)
  {
    assert s == s[..i] + [s[i]] + s[i + 1..];
  }

  lemma {:induction false} WithoutKeepsOrder(s: seq<nat>, i: nat, n: nat)
    requires i < |s| && NewestFirst(s) && forall j :: 0 <= j < |s| ==> s[j] < n
    ensures NewestFirst(Without(s, i))
    ensures forall j :: 0 <= j < |s| - 1 ==> Without(s, i)[j] < n
  {
  }

  lemma {:induction false} FinishKeepsTally(s: State, i: nat, c: Completion)
    requires i < |s.pending| && c.serial == s.pending[i]
    ensures Tally(s.done + [c], Without(s.pending, i)) == Tally(s.done, s.pending)
  {
    WithoutMultiset(s.pending, i);
    assert (s.done + [c])[..|s.done|] == s.done;
  }

  lemma {:induction false} OwedAfter(accepted: seq<Transfer>, done: seq<Completion>, c: Completion)
    requires c.serial < |accepted|
    ensures Owed(accepted, done + [c]) == Owed(accepted, done) + Called(accepted[c.serial], c.success)
  {
    assert (done + [c])[..|done|] == done;
  }

  lemma {:induction false} RemoveKeepsLedger(s: State, i: nat, success: bool)
    requires Ledger(s) && i < |s.pending|
    ensures Ledger(Remove(s, i, success))
  {
    WithoutKeepsOrder(s.pending, i, |s.accepted|);
    FinishKeepsTally(s, i, Completion(s.pending[i], success));
    OwedAfter(s.accepted, s.done, Completion(s.pending[i], success));
  }

  /** In every run the count is the length of the list, accepted transfers are the
      completed ones and the listed ones with none lost or doubled, the list keeps
      the order of acceptance, and the callbacks made are those of the completed
      transfers that have one, in completion order: refused transfers never fire. */
  lemma {:induction false} EveryRunBalances(events: seq<Event>)
    ensures Ledger(Run(events))
  {
    if events != [] {
      var before, e := Run(events[..|events| - 1]), events[|events| - 1];
      EveryRunBalances(events[..|events| - 1]);
      match e {
        case Write(offset, cb, context, outcome) =>
          if outcome.Some? {
            AcceptKeepsLedger(before, Transfer(outcome.value, cb, context, Header(CMD_WRITE, offset)));
          }
        case Read(offset, cb, context, outcome) =>
          if outcome.Some? {
            AcceptKeepsLedger(before, Transfer(outcome.value, cb, context, Header(CMD_READ, offset)));
          }
        case Complete(handle, success) =>
          var i := Find(before.accepted, before.pending, handle);
          if i < |before.pending| { RemoveKeepsLedger(before, i, success); }
        case OtherMessage =>
      }
    }
  }

  /** A refused transfer, and any other message, changes nothing. */
  lemma {:induction false} OthersChangeNothing(s: State, e: Event)
    requires e.OtherMessage? || ((e.Write? || e.Read?) && e.outcome.None?)
    ensures Step(s, e) == s
  {
  }

  // ----- which transfer a completion finishes --------------------------------

  ghost predicate Listed(s: State, k: nat) { k in s.pending }

  /** A completion carrying transfer k's handle finishes k exactly when no transfer
      accepted after k and still listed has been given the same handle. */
  lemma {:induction false} FinishesOwnIff(s: State, k: nat, success: bool)
    requires Ledger(s) && Listed(s, k)
    ensures var r := Finish(s, s.accepted[k].handle, success);
            !Listed(r, k) <==> (forall m: nat :: Listed(s, m) && m > k ==> s.accepted[m].handle != s.accepted[k].handle)
  {
    var at :| 0 <= at < |s.pending| && s.pending[at] == k;
    var i := Find(s.accepted, s.pending, s.accepted[k].handle);
    assert i <= at;
    if i < at { assert Listed(s, s.pending[i]); }
  }

  /** What finishing transfer k leaves: its own entry gone, the others as they
      were, and its callback, if it has one, made once with the result. */
  ghost predicate FinishedOnly(s: State, r: State, k: nat, success: bool) {
    && r.accepted == s.accepted
    && (exists i :: 0 <= i < |s.pending| && s.pending[i] == k && r.pending == Without(s.pending, i))
    && r.done == s.done + [Completion(k, success)]
    && (k < |s.accepted| ==> r.fired == s.fired + Called(s.accepted[k], success))
    && r.count == s.count - 1
  }

  /** With handles not reused while outstanding, listed handles stay distinct. */
  ghost predicate Distinct(s: State) {
    && (forall i :: 0 <= i < |s.pending| ==> s.pending[i] < |s.accepted|)
    && (forall i, j :: 0 <= i < j < |s.pending| ==> s.accepted[s.pending[i]].handle != s.accepted[s.pending[j]].handle)
  }

  /** No listed transfer has the handle. */
  ghost predicate Unused(s: State, handle: nat) {
    forall i :: 0 <= i < |s.pending| && s.pending[i] < |s.accepted| ==> s.accepted[s.pending[i]].handle != handle
  }

  ghost predicate FreshHandle(s: State, e: Event) {
    (e.Write? || e.Read?) && e.outcome.Some?
    ==> Unused(s, e.outcome.value)
  }

  ghost predicate FreshHandles(events: seq<Event>) {
    forall n :: 0 <= n < |events| ==> FreshHandle(Run(events[..n]), events[n])
  }

  lemma {:induction false} AcceptKeepsDistinct(s: State, t: Transfer)
    requires Distinct(s)
    requires Unused(s, t.handle)
    ensures Distinct(Accept(s, t))
  {
    var r := Accept(s, t);
    assert forall i :: 0 < i < |r.pending| ==> r.pending[i] == s.pending[i - 1];
  }

  lemma {:induction false} FinishKeepsDistinct(s: State, handle: nat, success: bool)
    requires Distinct(s)
    ensures Distinct(Finish(s, handle, success))
  {
    var i, r := Find(s.accepted, s.pending, handle), Finish(s, handle, success);
    if i < |s.pending| {
      assert forall j :: 0 <= j < |r.pending| ==> r.pending[j] == s.pending[if j < i then j else j + 1];
    }
  }

  lemma {:induction false} StepKeepsDistinct(s: State, e: Event)
    requires Distinct(s) && FreshHandle(s, e)
    ensures Distinct(Step(s, e))
  {
    match e {
      case Write(offset, cb, context, outcome) =>
        if outcome.Some? { AcceptKeepsDistinct(s, Transfer(outcome.value, cb, context, Header(CMD_WRITE, offset))); }
      case Read(offset, cb, context, outcome) =>
        if outcome.Some? { AcceptKeepsDistinct(s, Transfer(outcome.value, cb, context, Header(CMD_READ, offset))); }
      case Complete(handle, success) => FinishKeepsDistinct(s, handle, success);
      case OtherMessage =>
    }
  }

  lemma {:induction false} HandlesStayDistinct(events: seq<Event>)
    requires FreshHandles(events)
    ensures Distinct(Run(events))
  {
    if events != [] {
      var shorter := events[..|events| - 1];
      forall n | 0 <= n < |shorter| ensures FreshHandle(Run(shorter[..n]), shorter[n]) {
        assert shorter[..n] == events[..n];
      }
      HandlesStayDistinct(shorter);
      StepKeepsDistinct(Run(shorter), events[|events| - 1]);
    }
  }

  /** In every run with fresh handles, the completion of any outstanding transfer
      unlinks exactly that transfer and fires exactly its callback. */
  lemma {:induction false} CompletionFinishesItsOwn(events: seq<Event>, k: nat, success: bool)
    requires FreshHandles(events) && Listed(Run(events), k)
    ensures k < |Run(events).accepted|
    ensures FinishedOnly(Run(events), Finish(Run(events), Run(events).accepted[k].handle, success), k, success)
  {
    var s := Run(events);
    EveryRunBalances(events);
    HandlesStayDistinct(events);
    var at :| 0 <= at < |s.pending| && s.pending[at] == k;
    var i := Find(s.accepted, s.pending, s.accepted[k].handle);
    assert i == at;
  }

  /** A handle no listed transfer has changes nothing, nor does a refusal. */
  lemma {:induction false} UnknownHandleIgnored(s: State, handle: nat, success: bool)
    requires Ledger(s)
    ensures Finish(s, handle, success) == s <==>
            forall i :: 0 <= i < |s.pending| ==> s.accepted[s.pending[i]].handle != handle
  {
    var i := Find(s.accepted, s.pending, handle);
    if i < |s.pending| { assert |Finish(s, handle, success).pending| < |s.pending|; }
  }

  // ----- each caller's own callback ------------------------------------------

  /** The event is a transfer that the bit-serial layer took. */
  ghost predicate Taken(e: Event) { (e.Write? || e.Read?) && e.outcome.Some? }

  /** The taken transfers of a run, in order. */
  ghost function Submitted(events: seq<Event>): seq<Event> {
    if events == [] then []
    else
      Submitted(events[..|events| - 1])
      + if Taken(events[|events| - 1]) then [events[|events| - 1]] else []
  }

  /** The driver has this transfer of its caller on record: the handle it was given,
      the caller's own callback and context, and the command and address bytes. */
  ghost predicate AsSubmitted(e: Event, t: Transfer) {
    && Taken(e) && t.handle == e.outcome.value && t.cb == e.cb && t.context == e.context
    && |t.header| == 4 && t.header[0] == (if e.Write? then 0x02 else 0x03)
    && Address(t.header) == e.offset % 0x100_0000
  }

  lemma {:induction false} StepAccepts(s: State, e: Event)
    ensures var n := Step(s, e);
            && (Taken(e) ==> |n.accepted| == |s.accepted| + 1 && AsSubmitted(e, n.accepted[|s.accepted|]))
            && (Taken(e) ==> n.accepted[..|s.accepted|] == s.accepted)
            && (!Taken(e) ==> n.accepted == s.accepted)
  {
    if Taken(e) {
      HeaderCarriesOffset(if e.Write? then CMD_WRITE else CMD_READ, e.offset);
    }
  }

  /** In every run the accepted transfers are, in order, those the callers submitted and
      the bit-serial layer took, each with its caller's own handle, callback, context,
      command and address. */
  lemma {:induction false} AcceptedAsSubmitted(events: seq<Event>)
    ensures var s := Run(events);
            && |s.accepted| == |Submitted(events)|
            && forall k :: 0 <= k < |s.accepted| ==> AsSubmitted(Submitted(events)[k], s.accepted[k])
  {
    if events != [] {
      var before := events[..|events| - 1];
      AcceptedAsSubmitted(before);
      StepAccepts(Run(before), events[|events| - 1]);
      var s := Run(events);
      forall k | 0 <= k < |s.accepted| ensures AsSubmitted(Submitted(events)[k], s.accepted[k]) {
        if k < |Run(before).accepted| { assert s.accepted[k] == Run(before).accepted[k]; }
      }
    }
  }

  /** The callbacks owed to the callers for the completions, in their order. */
  ghost function OwedToCallers(submitted: seq<Event>, done: seq<Completion>): seq<Call> {
    if done == [] then []
    else
      var c := done[|done| - 1];
      OwedToCallers(submitted, done[..|done| - 1])
      + if c.serial < |submitted| && Taken(submitted[c.serial]) && submitted[c.serial].cb.Some?
        then [Call(submitted[c.serial].cb.value, submitted[c.serial].context, c.success)] else []
  }

  lemma {:induction false} OwedIsToCallers(submitted: seq<Event>, accepted: seq<Transfer>, done: seq<Completion>)
    requires |submitted| == |accepted| && forall k :: 0 <= k < |accepted| ==> AsSubmitted(submitted[k], accepted[k])
    ensures Owed(accepted, done) == OwedToCallers(submitted, done)
  {
    if done != [] { OwedIsToCallers(submitted, accepted, done[..|done| - 1]); }
  }

  /** In every run the callbacks made are exactly those the callers gave for their
      completed transfers, each once, with the caller's own context and the result of
      its own completion. */
  lemma {:induction false} CallersHearOnce(events: seq<Event>)
    ensures Run(events).fired == OwedToCallers(Submitted(events), Run(events).done)
    ensures OnceEach(Run(events))
  {
    EveryRunBalances(events);
    AcceptedAsSubmitted(events);
    OwedIsToCallers(Submitted(events), Run(events).accepted, Run(events).done);
  }

  // ----- the recorded peak ---------------------------------------------------

  ghost function Peak(events: seq<Event>): nat {
    if events == [] then 0
    else
      var before, now := Peak(events[..|events| - 1]), |Run(events).pending|;
      if now > before then now else before
  }

  predicate AcceptedWrite(e: Event) { e.Write? && e.outcome.Some? }

  /** The largest number outstanding just after an accepted write. */
  ghost function WritePeak(events: seq<Event>): nat {
    if events == [] then 0
    else
      var before, now := WritePeak(events[..|events| - 1]), |Run(events).pending|;
      if AcceptedWrite(events[|events| - 1]) && now > before then now else before
  }

  /** What countMax records, exactly. */
  lemma {:induction false} PeakRecorded(events: seq<Event>)
    ensures Run(events).countMax == WritePeak(events) <= Peak(events)
  {
    if events != [] {
      EveryRunBalances(events[..|events| - 1]);
      PeakRecorded(events[..|events| - 1]);
    }
  }

  lemma {:induction false} PeakReached(events: seq<Event>) returns (n: nat)
    requires WritePeak(events) > 0
    ensures n < |events| && AcceptedWrite(events[n]) && |Run(events[..n + 1]).pending| == WritePeak(events)
  {
    var m := |events| - 1;
    if AcceptedWrite(events[m]) && |Run(events).pending| > WritePeak(events[..m]) {
      n := m;
      assert events[..n + 1] == events;
    } else {
      n := PeakReached(events[..m]);
      assert events[..m][..n + 1] == events[..n + 1];
    }
  }

  lemma {:induction false} PeakBounds(events: seq<Event>, n: nat)
    requires n < |events| && AcceptedWrite(events[n])
    ensures |Run(events[..n + 1]).pending| <= WritePeak(events)
  {
    var m := |events| - 1;
    if n == m {
      assert events[..n + 1] == events;
    } else {
      PeakBounds(events[..m], n);
      assert events[..m][..n + 1] == events[..n + 1];
    }
  }

  /** countMax is the largest number ever outstanding exactly when that number was
      outstanding just after some accepted write (or was zero). */
  lemma {:induction false} PeakIsLargestIff(events: seq<Event>)
    ensures Run(events).countMax == Peak(events) <==>
            || Peak(events) == 0
            || exists n :: 0 <= n < |events| && AcceptedWrite(events[n])
                           && |Run(events[..n + 1]).pending| == Peak(events)
  {
    PeakRecorded(events);
    if WritePeak(events) > 0 {
      var n := PeakReached(events);
    }
    if n :| 0 <= n < |events| && AcceptedWrite(events[n]) && |Run(events[..n + 1]).pending| == Peak(events) {
      PeakBounds(events, n);
    }
  }

  /** Reads are not recorded: one outstanding read leaves the peak at zero. */
  lemma {:induction false} ReadsAreNotRecorded()
    ensures var run := [Read(0, None, 0, Some(7))];
            Run(run).countMax == 0 && |Run(run).pending| == 1
  {
    var run := [Read(0, None, 0, Some(7))];
    assert run[..0] == [];
    assert Run(run[..0]) == EMPTY;
  }
}
