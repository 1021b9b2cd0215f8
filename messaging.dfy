/** The mailbox layer of the `messaging` library: an unbounded FIFO of
    type-erased messages (`Queue`), a possibly-null handle that pushes into one
    (`Sender`), the base dispatcher that drains a queue until it sees the
    library's close message (`Dispatcher`), and the `Receiver` that owns a queue.

    Type erasure is replaced by a closed datatype of payloads, the thrown
    `close_queue` by a returned outcome, and blocking on an empty queue either by
    a precondition (a single pop) or by the outcome `BlockedForever` (the drain
    loop, once nothing is left to pop). */
module Messaging {

  /** What a message carries. `CloseQueue` is the library's own close message;
      `User` stands for a message of any other type, named by `typeName`. */
  datatype Payload = CloseQueue | User(typeName: string, fields: seq<int>)

  /** A queue entry: one payload wrapped behind the common message base. */
  datatype WrappedMessage = Wrapped(contents: Payload)

  /** The unbounded FIFO at the heart of a mailbox. `items[0]` is the head. */
  class Queue {
    var items: seq<WrappedMessage>

    constructor ()
      ensures items == []
    {
      items := [];
    }

    /** Wraps `msg` and appends it at the tail. */
    method Push(msg: Payload)
      modifies this
      ensures items == old(items) + [Wrapped(msg)]
      ensures |items| == |old(items)| + 1 && items[..|old(items)|] == old(items)
      ensures items[|items| - 1].contents == msg
    {
      items := items + [Wrapped(msg)];
    }

    /** Removes and returns the head. The source blocks until the queue is not
        empty; with no other thread to push, the model requires it. */
    method WaitAndPop() returns (msg: WrappedMessage)
      requires items != []
      modifies this
      ensures msg == old(items)[0] && items == old(items)[1..]
      ensures old(items) == [msg] + items
    {
      msg := items[0];
      items := items[1..];
    }
  }

  /** A handle to a queue; a default-constructed handle has no target. */
  class Sender {
    const target: Queue?

    /** The default constructor: a null handle. */
    constructor ()
      ensures target == null
    {
      target := null;
    }

    constructor Over(q: Queue)
      ensures target == q
    {
      target := q;
    }

    /** Pushes `msg` into the target queue; through a null handle it does
        nothing, and the frame lets it change no queue at all. */
    method Send(msg: Payload)
      modifies if target == null then {} else {target}
      ensures target != null ==> target.items == old(target.items) + [Wrapped(msg)]
    {
      if target != null {
        target.Push(msg);
      }
    }
  }

  /** The result of `Dispatcher.Dispatch`: it returns a flag, or throws the
      close message. */
  datatype DispatchResult = Returned(handled: bool) | ThrowsCloseQueue

  /** How a drain (or a destructor that may drain) ends: normally, by the
      close message being thrown, or by waiting forever on an empty queue. */
  datatype Exit = Normal | CloseQueueThrown | BlockedForever

  /** What the drain loop does to a queue holding `s`: it pops and dispatches
      until a dispatch throws the close message, or until it would block. The
      second component is what is left in the queue. */
  function Drain(s: seq<WrappedMessage>): (Exit, seq<WrappedMessage>)
  {
    if s == [] then (BlockedForever, [])
    else if Dispatcher.Dispatch(s[0]).ThrowsCloseQueue? then (CloseQueueThrown, s[1..])
    else Drain(s[1..])
  }

  /** No entry of `s` is the close message. */
  predicate NoClose(s: seq<WrappedMessage>)
  {
    forall i :: 0 <= i < |s| ==> s[i].contents != CloseQueue
  }

  /** The base link of a dispatch chain over one queue. A dispatcher that is
      not `chained` drains its queue when it is destroyed. */
  class Dispatcher {
    const q: Queue
    var chained: bool

    constructor (q: Queue)
      ensures this.q == q && !chained
    {
      this.q := q;
      chained := false;
    }

    /** The move constructor as written: it takes over the queue and the flag,
        then clears the flag of `other`, so `other` still drains. */
    constructor Move(other: Dispatcher)
      modifies other
      ensures q == other.q && chained == old(other.chained)
      ensures !other.chained
    {
      q := other.q;
      chained := other.chained;
      new;
      other.chained := false;
    }

    /** The move constructor as its comment intends: `other` is marked chained,
        so it must not wait for messages any more. */
    constructor MoveHandingOff(other: Dispatcher)
      modifies other
      ensures q == other.q && chained == old(other.chained)
      ensures other.chained
    {
      q := other.q;
      chained := other.chained;
      new;
      other.chained := true;
    }

    /** The destructor: drains the queue exactly when the dispatcher is not
        chained, and otherwise leaves it untouched. */
    method Destroy() returns (exit: Exit)
      modifies q
      ensures chained == old(chained)
      ensures chained ==> exit == Normal && q.items == old(q.items)
      ensures !chained ==> (exit, q.items) == Drain(old(q.items))
    {
      if !chained {
        exit := WaitAndDispatch();
      } else {
        exit := Normal;
      }
    }

    /** The endless pop-and-dispatch loop. It can only leave by the close
        message being thrown; the loop condition marks the point where the
        source would block for ever on an empty queue. */
    method WaitAndDispatch() returns (exit: Exit)
      modifies q
      ensures (exit, q.items) == Drain(old(q.items))
      ensures exit != Normal
    {
      while q.items != []
        invariant Drain(q.items) == Drain(old(q.items))
        decreases |q.items|
      {
        var msg := q.WaitAndPop();
        var result := Dispatch(msg);
        if result.ThrowsCloseQueue? {
          return CloseQueueThrown;
        }
      }
      return BlockedForever;
    }

    /** Recognises the close message, which it signals by throwing; every
        other message is reported as not handled. */
    static function Dispatch(msg: WrappedMessage): (r: DispatchResult)
      ensures r == ThrowsCloseQueue <==> msg.contents == CloseQueue
      ensures r != ThrowsCloseQueue ==> r == Returned(false)
    {
      match msg.contents
      case CloseQueue => ThrowsCloseQueue
      case User(_, _) => Returned(false)
    }
  }

  /** Owns a queue, hands out senders to it and dispatchers over it. */
  class Receiver {
    const q: Queue

    constructor ()
      ensures fresh(q) && q.items == []
    {
      q := new Queue();
    }

    /** The conversion to a sender: a handle on the receiver's own queue. */
    method AsSender() returns (s: Sender)
      ensures fresh(s) && s.target == q
    {
      s := new Sender.Over(q);
    }

    /** A fresh, unchained dispatcher over the receiver's own queue, which
        therefore drains when it is destroyed. */
    method Wait() returns (d: Dispatcher)
      ensures fresh(d) && d.q == q && !d.chained
    {
      d := new Dispatcher(q);
    }
  }

  /** The drain consumes everything up to and including the first close
      message and leaves exactly what follows it. */
  lemma {:induction false} DrainStopsAtFirstClose(s: seq<WrappedMessage>, i: nat)
    requires i < |s| && s[i].contents == CloseQueue && NoClose(s[..i])
    ensures Drain(s) == (CloseQueueThrown, s[i + 1..])
  {
    if i > 0 {
      assert s[0] == s[..i][0];
      assert s[1..][..i - 1] == s[..i][1..];
      DrainStopsAtFirstClose(s[1..], i - 1);
      assert s[1..][i..] == s[i + 1..];
    }
  }

  /** Without a close message the drain discards everything and then waits
      for ever. */
  lemma {:induction false} DrainWithoutCloseBlocks(s: seq<WrappedMessage>)
    requires NoClose(s)
    ensures Drain(s) == (BlockedForever, [])
  {
    if s != [] {
      assert NoClose(s[1..]) by {
        forall i | 0 <= i < |s| - 1 ensures s[1..][i].contents != CloseQueue {
          assert s[1..][i] == s[i + 1];
        }
      }
      DrainWithoutCloseBlocks(s[1..]);
    }
  }

  /** The drain ends by the close message exactly when the queue holds one;
      otherwise it empties the queue and waits for ever. */
  lemma {:induction false} DrainEndsIffClose(s: seq<WrappedMessage>)
    ensures Drain(s).0 == CloseQueueThrown <==> !NoClose(s)
    ensures Drain(s).0 == BlockedForever <==> NoClose(s)
    ensures Drain(s).0 == BlockedForever ==> Drain(s).1 == []
  {
    if s != [] && s[0].contents != CloseQueue {
      DrainEndsIffClose(s[1..]);
      if NoClose(s[1..]) {
        forall i | 0 <= i < |s| ensures s[i].contents != CloseQueue {
          if i > 0 { assert s[i] == s[1..][i - 1]; }
        }
      } else {
        var i :| 0 <= i < |s[1..]| && s[1..][i].contents == CloseQueue;
        assert s[i + 1].contents == CloseQueue;
      }
    }
  }

  /** Messages queued behind a close message stay queued: they survive the
      drain in order, after whatever preceded them. */
  lemma {:induction false} DrainKeepsLaterMessages(s: seq<WrappedMessage>, t: seq<WrappedMessage>)
    requires !NoClose(s)
    ensures Drain(s + t) == (CloseQueueThrown, Drain(s).1 + t)
  {
    assert s != [];
    assert (s + t)[0] == s[0];
    if s[0].contents == CloseQueue {
      assert (s + t)[1..] == s[1..] + t;
    } else {
      assert !NoClose(s[1..]) by {
        var i :| 0 <= i < |s| && s[i].contents == CloseQueue;
        assert s[1..][i - 1] == s[i];
      }
      assert (s + t)[1..] == s[1..] + t;
      DrainKeepsLaterMessages(s[1..], t);
    }
  }
}
