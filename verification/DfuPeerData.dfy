/**
 * The data path of the DFU peer channel during one connected period: PDUs wait
 * in the L2CAP source; the primary hands each to the upgrade library and drops
 * it at once, the secondary hands one over and drops it when it is confirmed.
 */
module DfuPeerData {
  import opened Common

  /** A PDU is never empty: SourceBoundary reports 0 when no data waits. */
  type Pdu = p: seq<Byte> | |p| > 0 witness [0]

  /** Drop n bytes from the front of the source. */
  function SourceDrop(source: seq<Pdu>, n: nat): seq<Pdu> {
    if source == [] || n == 0 then source
    else if n >= |source[0]| then SourceDrop(source[1..], n - |source[0]|)
    else [source[0][n..]] + source[1..]
  }

  function SourceBoundary(source: seq<Pdu>): nat {
    if source == [] then 0 else |source[0]|
  }

  datatype Event =
    | Arrive(pdu: Pdu)                          // the stream receives a PDU
    | MoreData(fromLink: bool, inUse: bool)     // data indication; inUse: the upgrade transport is connected
    | DataCfm(size: nat, inUse: bool)           // the library confirms a request

  /** `handed` is what the library has been given, `arrived` what was received. */
  datatype Channel = Channel(source: seq<Pdu>, processing: bool, handed: seq<Pdu>, arrived: seq<Pdu>)

  const EMPTY: Channel := Channel([], false, [], [])

  class DataTask {
    const isPrimary: bool
    var source: seq<Pdu>
    var processing: bool
    var handed: seq<Pdu>
    ghost var arrived: seq<Pdu>

    ghost function Value(): Channel
      reads this
    {
      Channel(source, processing, handed, arrived)
    }

    constructor (isPrimary: bool)
      ensures this.isPrimary == isPrimary && Value() == EMPTY
    {
      this.isPrimary := isPrimary;
      source, processing, handed, arrived := [], false, [], [];
    }

    method Receive(pdu: Pdu)
      modifies this
      ensures Value() == Step(isPrimary, old(Value()), Arrive(pdu))
    {
      source, arrived := source + [pdu], arrived + [pdu];
    }

    method L2capProcessData(inUse: bool)
      modifies this
      ensures Value() == Process(isPrimary, old(Value()), inUse)
    {
      if isPrimary {
        var size := SourceBoundary(source);
        while size != 0
          invariant size == SourceBoundary(source)
          invariant handed + source == old(handed) + old(source)
          invariant arrived == old(arrived) && processing == old(processing)
          decreases |source|
        {
          handed := handed + [source[0]];
          DropsFirst(source);
          source := SourceDrop(source, size);
          size := SourceBoundary(source);
        }
        assert handed == handed + source;
      } else if SourceBoundary(source) != 0 && !processing && inUse {
        handed := handed + [source[0]];
        processing := true;
      }
    }

    method HandleMMD(fromLink: bool, inUse: bool)
      modifies this
      ensures Value() == Step(isPrimary, old(Value()), MoreData(fromLink, inUse))
    {
      if fromLink {
        L2capProcessData(inUse);
      }
    }

    method HandleTransportDataCfm(size: nat, inUse: bool)
      modifies this
      ensures Value() == Step(isPrimary, old(Value()), DataCfm(size, inUse))
    {
      if !isPrimary {
        source := SourceDrop(source, size);
        processing := false;
      }
      L2capProcessData(inUse);
    }
  }

  lemma {:induction false} DropsFirst(source: seq<Pdu>)
    requires source != []
    ensures SourceDrop(source, |source[0]|) == source[1..]
  {
    assert SourceDrop(source[1..], 0) == source[1..];
  }

  // ----- specification -------------------------------------------------------

  /** The primary drains the source; the secondary offers its first PDU. */
  function Process(isPrimary: bool, c: Channel, inUse: bool): Channel {
    if isPrimary then c.(handed := c.handed + c.source, source := [])
    else if c.source != [] && !c.processing && inUse then c.(handed := c.handed + [c.source[0]], processing := true)
    else c
  }

  function Step(isPrimary: bool, c: Channel, e: Event): Channel {
    match e
    case Arrive(pdu) => c.(source := c.source + [pdu], arrived := c.arrived + [pdu])
    case MoreData(fromLink, inUse) => if fromLink then Process(isPrimary, c, inUse) else c
    case DataCfm(size, inUse) =>
      Process(isPrimary, if isPrimary then c else c.(source := SourceDrop(c.source, size), processing := false), inUse)
  }

  /** The library confirms a request it was given, with that request's size. */
  ghost predicate Lawful(isPrimary: bool, c: Channel, e: Event) {
    e.DataCfm? && !isPrimary ==> c.processing && c.source != [] && e.size == |c.source[0]|
  }

  ghost predicate LawfulRun(isPrimary: bool, c: Channel, run: seq<Event>)
    decreases |run|
  {
    run != [] ==> Lawful(isPrimary, c, run[0]) && LawfulRun(isPrimary, Step(isPrimary, c, run[0]), run[1..])
  }

  ghost function After(isPrimary: bool, c: Channel, run: seq<Event>): Channel
    decreases |run|
  {
    if run == [] then c else After(isPrimary, Step(isPrimary, c, run[0]), run[1..])
  }

  /** PDUs in the source that the library has not been given. */
  ghost function Owed(c: Channel): seq<Pdu> {
    if c.processing && c.source != [] then c.source[1..] else c.source
  }

  /** What has arrived is what has been handed over, followed by what is owed; a
      PDU being processed is the last one handed over and the first in the source. */
  ghost predicate InOrder(isPrimary: bool, c: Channel) {
    && (c.processing ==> !isPrimary && c.source != [])
    && c.arrived == c.handed + Owed(c)
    && (c.processing ==> c.handed != [] && c.handed[|c.handed| - 1] == c.source[0])
  }

  lemma {:induction false} StepInOrder(isPrimary: bool, c: Channel, e: Event)
    requires InOrder(isPrimary, c) && Lawful(isPrimary, c, e)
    ensures InOrder(isPrimary, Step(isPrimary, c, e))
  {
    match e
    case Arrive(pdu) =>
      if c.processing { assert (c.source + [pdu])[1..] == c.source[1..] + [pdu]; }
    case MoreData(_, _) =>
      if c.source != [] { assert c.handed + c.source == c.handed + [c.source[0]] + c.source[1..]; }
    case DataCfm(size, _) =>
      if !isPrimary {
        DropsFirst(c.source);
        var rest := c.source[1..];
        if rest != [] { assert c.handed + rest == c.handed + [rest[0]] + rest[1..]; }
      }
  }

  /** Every PDU reaches the library exactly once and in arrival order: what it has
      been handed is always an initial part of what arrived, the rest is still in
      the source, and at most one PDU is handed over and unconfirmed. */
  lemma {:induction false} DeliveredOnceInOrder(isPrimary: bool, c: Channel, run: seq<Event>)
    requires InOrder(isPrimary, c) && LawfulRun(isPrimary, c, run)
    ensures InOrder(isPrimary, After(isPrimary, c, run))
    decreases |run|
  {
    if run != [] {
      StepInOrder(isPrimary, c, run[0]);
      DeliveredOnceInOrder(isPrimary, Step(isPrimary, c, run[0]), run[1..]);
    }
  }

  lemma {:induction false} PeriodDeliversInOrder(isPrimary: bool, run: seq<Event>)
    requires LawfulRun(isPrimary, EMPTY, run)
    ensures var c := After(isPrimary, EMPTY, run);
            && c.handed <= c.arrived
            && c.arrived == c.handed + Owed(c)
  {
    DeliveredOnceInOrder(isPrimary, EMPTY, run);
  }

  /** The secondary hands over a PDU only when none is unconfirmed. */
  lemma {:induction false} StopAndWait(c: Channel, e: Event)
    requires InOrder(false, c) && Lawful(false, c, e)
    ensures var d := Step(false, c, e);
            && |c.handed| <= |d.handed| <= |c.handed| + 1
            && (|d.handed| > |c.handed| ==> d.processing && (!c.processing || e.DataCfm?))
  {
  }

  /** Until the confirm comes, nothing more is handed over, however much arrives.
      The flag outlives a connection: a period that begins with it set hands over
      nothing before a confirm. */
  lemma {:induction false} WaitsForConfirm(c: Channel, run: seq<Event>)
    requires c.processing && forall k :: 0 <= k < |run| ==> !run[k].DataCfm?
    ensures After(false, c, run).processing && After(false, c, run).handed == c.handed
    decreases |run|
  {
    if run != [] {
      WaitsForConfirm(Step(false, c, run[0]), run[1..]);
    }
  }

  /** After each data event with the transport in use the source is empty or the
      secondary is processing a PDU. */
  lemma {:induction false} NothingWaits(isPrimary: bool, c: Channel, e: Event)
    requires InOrder(isPrimary, c) && Lawful(isPrimary, c, e)
    requires (e.MoreData? && e.fromLink && e.inUse) || (e.DataCfm? && e.inUse)
    ensures var d := Step(isPrimary, c, e); d.source == [] || (!isPrimary && d.processing)
  {
  }

  /** With the transport not in use the secondary is handed nothing, whatever comes. */
  lemma {:induction false} NotInUseHandsNothing(c: Channel, e: Event)
    requires e.Arrive? || !e.inUse
    ensures Step(false, c, e).handed == c.handed
  {
  }

  /** What a data event hands over: everything waiting on the primary; on the secondary
      the first PDU waiting, if none is in process once a confirm has been taken. Data
      of another link, and arrivals, hand over nothing. */
  lemma {:induction false} HandsOver(isPrimary: bool, c: Channel, e: Event)
    requires InOrder(isPrimary, c) && Lawful(isPrimary, c, e)
    ensures var d := Step(isPrimary, c, e);
            && (e.Arrive? || (e.MoreData? && !e.fromLink) ==> d.handed == c.handed)
            && (isPrimary && (e.DataCfm? || (e.MoreData? && e.fromLink)) ==>
                  d.handed == c.handed + c.source && d.source == [])
            && (!isPrimary && e.MoreData? && e.fromLink && e.inUse && !c.processing && c.source != [] ==>
                  d.handed == c.handed + [c.source[0]] && d.processing && d.source == c.source)
            && (!isPrimary && e.DataCfm? && e.inUse && |c.source| > 1 ==>
                  d.handed == c.handed + [c.source[1]] && d.processing && d.source == c.source[1..])
            && (!isPrimary && e.DataCfm? && |c.source| == 1 ==> d.handed == c.handed && !d.processing && d.source == [])
  {
    if !isPrimary && e.DataCfm? { DropsFirst(c.source); }
  }

  function Bytes(source: seq<Pdu>): nat {
    if source == [] then 0 else |source[0]| + Bytes(source[1..])
  }

  lemma {:induction false} DropCounts(source: seq<Pdu>, n: nat)
    ensures Bytes(SourceDrop(source, n)) == if n <= Bytes(source) then Bytes(source) - n else 0
    decreases |source|
  {
    if source != [] && n != 0 {
      if n >= |source[0]| {
        DropCounts(source[1..], n - |source[0]|);
      } else {
        var d := SourceDrop(source, n);
        assert d[0] == source[0][n..] && d[1..] == source[1..];
      }
    }
  }

  lemma {:induction false} DropsAll(source: seq<Pdu>, n: nat)
    requires n >= Bytes(source)
    ensures SourceDrop(source, n) == []
    decreases |source|
  {
    if source != [] { DropsAll(source[1..], n - |source[0]|); }
  }

  /** Dropping n bytes drops exactly the first PDU if n is its size, or if it is the
      only one and n is larger. */
  lemma {:induction false} DropsFirstIff(source: seq<Pdu>, n: nat)
    requires source != []
    ensures SourceDrop(source, n) == source[1..] <==> n == |source[0]| || (|source| == 1 && n >= |source[0]|)
  {
    assert source == [source[0]] + source[1..];
    DropCounts(source, n);
    if |source| == 1 {
      assert source[1..] == [] && Bytes(source) == |source[0]|;
      if n >= |source[0]| { DropsAll(source, n); }
    } else {
      DropsFirst(source);
      assert Bytes(source[1..]) > 0;
    }
  }

  /** The size the library confirms matters exactly: the order is kept if and only
      if it is the size of the PDU in process, or that PDU is the last one waiting
      and the size is larger. */
  lemma {:induction false} ConfirmSizeIff(c: Channel, size: nat, inUse: bool)
    requires InOrder(false, c) && c.processing
    ensures InOrder(false, Step(false, c, DataCfm(size, inUse)))
       <==> size == |c.source[0]| || (|c.source| == 1 && size >= |c.source[0]|)
  {
    var rest := SourceDrop(c.source, size);
    DropsFirstIff(c.source, size);
    var d := Step(false, c, DataCfm(size, inUse));
    assert d.handed + Owed(d) == c.handed + rest by {
      if rest != [] { assert c.handed + rest == c.handed + [rest[0]] + rest[1..]; }
    }
    if c.handed + rest == c.handed + c.source[1..] {
      assert rest == (c.handed + rest)[|c.handed|..];
      assert c.source[1..] == (c.handed + c.source[1..])[|c.handed|..];
    }
  }
}
