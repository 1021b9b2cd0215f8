/** Properties of the mailbox layer as a client sees them: FIFO delivery,
    termination of a receiver's wait by the close message, and what moving a
    dispatcher does to the destructors of the two dispatchers involved. */
module MailboxProperties {
  import opened Messaging

  /** The queue entries that pushing `msgs` in order appends. */
  function Wrap(msgs: seq<Payload>): (r: seq<WrappedMessage>)
    ensures |r| == |msgs|
    ensures forall i :: 0 <= i < |msgs| ==> r[i].contents == msgs[i]
  {
    seq(|msgs|, i requires 0 <= i < |msgs| => Wrapped(msgs[i]))
  }

  /** Pushing `msgs` through `s` appends their wrappers to its target. */
  method SendAll(s: Sender, msgs: seq<Payload>)
    modifies if s.target == null then {} else {s.target}
    ensures s.target != null ==> s.target.items == old(s.target.items) + Wrap(msgs)
  {
    for i := 0 to |msgs|
      invariant s.target != null ==> s.target.items == old(s.target.items) + Wrap(msgs[..i])
    {
      s.Send(msgs[i]);
      assert Wrap(msgs[..i + 1]) == Wrap(msgs[..i]) + [Wrapped(msgs[i])];
    }
    assert msgs[..|msgs|] == msgs;
  }

  /** FIFO round trip: pushing `msgs` into an empty queue and then popping as
      many times yields the same payloads in the same order, and leaves the
      queue empty. */
  method PushAllThenPopAll(msgs: seq<Payload>) returns (popped: seq<WrappedMessage>, left: nat)
    ensures |popped| == |msgs| && left == 0
    ensures forall i :: 0 <= i < |msgs| ==> popped[i].contents == msgs[i]
  {
    var q := new Queue();
    for i := 0 to |msgs|
      invariant |q.items| == i
      invariant forall k :: 0 <= k < i ==> q.items[k].contents == msgs[k]
    {
      q.Push(msgs[i]);
    }
    ghost var pushed := q.items;
    popped := [];
    for i := 0 to |msgs|
      invariant q.items == pushed[i..] && popped == pushed[..i]
    {
      var m := q.WaitAndPop();
      popped := popped + [m];
    }
    left := |q.items|;
  }

  /** A receiver whose queue gets `before` (no close among them), then the
      close message, then `after`: its wait ends by the close message, and the
      messages sent after the close are still queued, in order. */
  method CloseEndsWait(before: seq<Payload>, after: seq<Payload>) returns (exit: Exit, left: seq<WrappedMessage>)
    requires forall i :: 0 <= i < |before| ==> before[i] != CloseQueue
    ensures exit == CloseQueueThrown
    ensures left == Wrap(after)
  {
    var r := new Receiver();
    var s := r.AsSender();
    SendAll(s, before);
    s.Send(CloseQueue);
    SendAll(s, after);
    var items := r.q.items;
    assert items == Wrap(before) + [Wrapped(CloseQueue)] + Wrap(after);
    assert items[..|before|] == Wrap(before);
    assert items[|before| + 1..] == Wrap(after);
    DrainStopsAtFirstClose(items, |before|);
    var d := r.Wait();
    exit := d.Destroy();
    left := r.q.items;
  }

  /** A null sender changes no queue. */
  method NullSendChangesNothing(q: Queue, msg: Payload) returns (before: seq<WrappedMessage>, after: seq<WrappedMessage>)
    ensures after == before
  {
    before := q.items;
    var s := new Sender();
    s.Send(msg);
    after := q.items;
  }

  /** As written, the move constructor leaves both dispatchers unchained, so
      both destructors drain the one queue: with a single close message queued,
      the first destructor consumes it and the second waits for ever. */
  method MovedFromDispatcherAlsoDrains() returns (first: Exit, second: Exit)
    ensures first == CloseQueueThrown && second == BlockedForever
  {
    var r := new Receiver();
    var s := r.AsSender();
    s.Send(CloseQueue);
    var source := r.Wait();
    var moved := new Dispatcher.Move(source);
    first := moved.Destroy();
    second := source.Destroy();
  }

  /** With the move constructor that marks its source as chained, only the
      dispatcher moved into drains; the source's destructor returns at once. */
  method HandOffLeavesOneDrainer() returns (first: Exit, second: Exit)
    ensures first == CloseQueueThrown && second == Normal
  {
    var r := new Receiver();
    var s := r.AsSender();
    s.Send(CloseQueue);
    var source := r.Wait();
    var moved := new Dispatcher.MoveHandingOff(source);
    first := moved.Destroy();
    second := source.Destroy();
  }
}
