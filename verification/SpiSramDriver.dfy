/** The driver's heap list of pending transfers, refining module SpiSram. */
module SpiSramDrivers {
  import opened Common
  import opened SpiSram

  class Node {
    var handle: nat
    var cb: Option<nat>
    var context: nat
    var header: seq<Byte>
    var next: Node?

    constructor (cb: Option<nat>, context: nat, header: seq<Byte>, next: Node?)
      ensures this.cb == cb && this.context == context && this.header == header && this.next == next
    {
      this.handle, this.cb, this.context, this.header, this.next := 0, cb, context, header, next;
    }
  }

  ghost function Record(n: Node): Transfer
    reads n
  {
    Transfer(n.handle, n.cb, n.context, n.header)
  }

  ghost predicate Linked(head: Node?, nodes: seq<Node>)
    reads nodes
  {
    && head == At(nodes, 0)
    && (forall i, j :: 0 <= i < j < |nodes| ==> nodes[i] != nodes[j])
    && (forall i {:trigger nodes[i].next} :: 0 <= i < |nodes| ==> nodes[i].next == At(nodes, i + 1))
  }

  ghost predicate Recorded(nodes: seq<Node>, accepted: seq<Transfer>, pending: seq<nat>)
    reads nodes
  {
    && |nodes| == |pending|
    && (forall i :: 0 <= i < |nodes| ==> pending[i] < |accepted| && Record(nodes[i]) == accepted[pending[i]])
  }

  ghost function At(nodes: seq<Node>, i: nat): Node? {
    if i < |nodes| then nodes[i] else null
  }

  ghost function Previous(nodes: seq<Node>, i: nat): Node? {
    if 0 < i <= |nodes| then nodes[i - 1] else null
  }

  class SpiSramDriver {
    var xfers: Node?
    var count: int
    var countMax: int
    /** Callbacks made so far. */
    var fired: seq<Call>
    ghost var nodes: seq<Node>
    ghost var accepted: seq<Transfer>
    ghost var pending: seq<nat>
    ghost var done: seq<Completion>

    ghost function Value(): State
      reads this
    {
      State(accepted, pending, done, fired, count, countMax)
    }

    ghost predicate Valid()
      reads this, nodes
    {
      Linked(xfers, nodes) && Recorded(nodes, accepted, pending)
    }

    constructor ()
      ensures Valid() && Value() == EMPTY && nodes == []
    {
      xfers, count, countMax, fired := null, 0, 0, [];
      nodes, accepted, pending, done := [], [], [], [];
    }

    /** Links an accepted transfer in front. */
    method Push(xfer: Node, handle: nat)
      requires Valid() && xfer !in nodes && xfer.next == xfers
      modifies this, xfer
      ensures Valid() && nodes == [xfer] + old(nodes)
      ensures Value() == Accept(old(Value()), old(Record(xfer)).(handle := handle))
    {
      xfer.handle := handle;
      xfers := xfer;
      count := count + 1;
      nodes, pending := [xfer] + nodes, [|accepted|] + pending;
      accepted := accepted + [Record(xfer)];
    }

    method Write(offset: nat, cb: Option<nat>, context: nat, outcome: Option<nat>) returns (ok: bool)
      requires Valid()
      modifies this
      ensures Valid() && ok == outcome.Some?
      ensures Value() == Step(old(Value()), Event.Write(offset, cb, context, outcome))
      ensures ok ==> |nodes| == |old(nodes)| + 1 && nodes[0].cb == cb && nodes[0].context == context
                     && nodes[0].handle == outcome.value && nodes[1..] == old(nodes)
    {
      var xfer := new Node(cb, context, Header(CMD_WRITE, offset), xfers);
      if outcome.None? { return false; }
      Push(xfer, outcome.value);
      if count > countMax {
        countMax := count;
      }
      return true;
    }

    method Read(offset: nat, cb: Option<nat>, context: nat, outcome: Option<nat>) returns (ok: bool)
      requires Valid()
      modifies this
      ensures Valid() && ok == outcome.Some?
      ensures Value() == Step(old(Value()), Event.Read(offset, cb, context, outcome))
      ensures ok ==> |nodes| == |old(nodes)| + 1 && nodes[0].cb == cb && nodes[0].context == context
                     && nodes[0].handle == outcome.value && nodes[1..] == old(nodes)
    {
      var xfer := new Node(cb, context, Header(CMD_READ, offset), xfers);
      if outcome.None? { return false; }
      Push(xfer, outcome.value);
      return true;
    }

    /** The first listed node with the handle and the one before it. */
    method Search(handle: nat) returns (prev: Node?, cur: Node?)
      requires Valid()
      ensures cur == At(nodes, Find(accepted, pending, handle))
      ensures prev == Previous(nodes, Find(accepted, pending, handle))
    {
      ghost var i := 0;
      prev, cur := null, xfers;
      while cur != null && cur.handle != handle
        invariant i <= |nodes|
        invariant cur == At(nodes, i)
        invariant prev == Previous(nodes, i)
        invariant forall j :: 0 <= j < i ==> accepted[pending[j]].handle != handle
        decreases |nodes| - i
      {
        prev, cur, i := cur, cur.next, i + 1;
      }
      assert i == Find(accepted, pending, handle);
    }

    /** Takes node i off the list, leaving every node's record alone. */
    method Unlink(prev: Node?, cur: Node, ghost i: nat)
      requires Linked(xfers, nodes) && i < |nodes| && cur == nodes[i]
      requires prev == Previous(nodes, i)
      modifies this`xfers, this`nodes, nodes
      ensures nodes == Without(old(nodes), i) && Linked(xfers, nodes)
      ensures forall j :: 0 <= j < |old(nodes)| ==> Record(old(nodes)[j]) == old(Record(nodes[j]))
    {
      if prev == null {
        xfers := cur.next;
      } else {
        prev.next := cur.next;
      }
      nodes := Without(nodes, i);
    }

    /** Takes node i off and enters its completion. */
    method TakeOff(prev: Node?, cur: Node, ghost i: nat, ghost success: bool)
      requires Valid() && i < |nodes| && cur == nodes[i]
      requires prev == Previous(nodes, i)
      modifies this`xfers, this`nodes, this`pending, this`done, nodes
      ensures Valid() && nodes == Without(old(nodes), i) && pending == Without(old(pending), i)
      ensures done == old(done) + [Completion(old(pending)[i], success)]
      ensures Record(cur) == old(Record(cur))
    {
      ghost var was, before := nodes, pending;
      Unlink(prev, cur, i);
      pending, done := Without(pending, i), done + [Completion(pending[i], success)];
      forall j | 0 <= j < |nodes|
        ensures pending[j] < |accepted| && Record(nodes[j]) == accepted[pending[j]]
      {
        var k := if j < i then j else j + 1;
        assert nodes[j] == was[k] && pending[j] == before[k];
        assert Record(was[k]) == old(Record(nodes[k]));
      }
    }

    /** Takes node i off, counts it down and makes its callback. */
    method FinishTransfer(prev: Node?, cur: Node, ghost i: nat, success: bool)
      requires Valid() && i < |nodes| && cur == nodes[i]
      requires prev == Previous(nodes, i)
      modifies this, nodes
      ensures Valid() && nodes == Without(old(nodes), i)
      ensures pending == Without(old(pending), i) && count == old(count) - 1
      ensures done == old(done) + [Completion(old(pending)[i], success)]
      ensures fired == old(fired) + Called(old(accepted)[old(pending)[i]], success)
      ensures accepted == old(accepted) && countMax == old(countMax)
    {
      TakeOff(prev, cur, i, success);
      count := count - 1;
      Fire(cur, success);
    }

    method BitserialMsgHandler(handle: nat, success: bool)
      requires Valid()
      modifies this, nodes
      ensures Valid()
      ensures Value() == Step(old(Value()), Complete(handle, success))
      ensures nodes == WithoutFound(old(nodes), Find(old(accepted), old(pending), handle))
    {
      var prev, cur := Search(handle);
      if cur != null {
        FinishTransfer(prev, cur, Find(accepted, pending, handle), success);
      }
    }

    /** Makes the transfer's callback, if it has one. */
    method Fire(xfer: Node, success: bool)
      modifies this`fired
      ensures fired == old(fired) + Called(Record(xfer), success)
    {
      if xfer.cb.Some? {
        fired := fired + [Call(xfer.cb.value, xfer.context, success)];
      }
    }
  }

  ghost function WithoutFound(nodes: seq<Node>, i: nat): seq<Node> {
    if i < |nodes| then Without(nodes, i) else nodes
  }
}
