/**
 The message queue of the traffic light, taken sequentially.

 `send` pushes onto the back of a vector and `receive` takes the back element
 and pops it, so the "queue" hands values out last-in, first-out. The mutex,
 the condition variable and the blocking wait are not modelled: the wait
 predicate "the vector is non-empty" becomes the precondition of `Receive`.
 */
module MessageQueues {

  /** The pending messages, oldest first; the back of the vector is the end of `queue`. */
  class MessageQueue<T> {
    var queue: seq<T>

    constructor ()
      ensures queue == []
    {
      queue := [];
    }

    /** Appends `msg` at the back: one more element, every earlier one in place. */
    method Send(msg: T)
      modifies this
      ensures queue == old(queue) + [msg]
      ensures |queue| == |old(queue)| + 1
    {
      queue := queue + [msg];
    }

    /** Takes the most recently sent message off the back; the rest stays in place. */
    method Receive() returns (msg: T)
      requires queue != []
      modifies this
      ensures msg == old(queue)[|old(queue)| - 1]
      ensures queue == old(queue)[..|old(queue)| - 1]
      ensures old(queue) == queue + [msg]
    {
      msg := queue[|queue| - 1];
      queue := queue[..|queue| - 1];
    }
  }

  /** The order in which a stack gives back what was pushed: the last element first. */
  function Reverse<T>(s: seq<T>): (r: seq<T>)
    ensures |r| == |s|
    ensures forall i :: 0 <= i < |s| ==> r[i] == s[|s| - 1 - i]
  {
    if s == [] then [] else [s[|s| - 1]] + Reverse(s[..|s| - 1])
  }

  /**
   What `n` receives in a row take from the pending messages `s`: the messages
   received, in the order received, and the messages left behind.
   */
  function ReceiveMany<T>(s: seq<T>, n: nat): (r: (seq<T>, seq<T>))
    requires n <= |s|
    ensures |r.0| == n
    ensures s == r.1 + Reverse(r.0)
  {
    if n == 0 then ([], s)
    else
      var earlier := ReceiveMany(s[..|s| - 1], n - 1);
      ([s[|s| - 1]] + earlier.0, earlier.1)
  }

  /**
   Last-in, first-out round trip: whatever is already pending, sending `vs` and
   then receiving `|vs|` times returns `vs` backwards and leaves the queue as it was.
   */
  lemma {:induction false} SendAllReceiveAll<T>(s: seq<T>, vs: seq<T>)
    ensures ReceiveMany(s + vs, |vs|) == (Reverse(vs), s)
  {
    if vs == [] {
      assert s + vs == s;
    } else {
      var n := |vs|;
      assert (s + vs)[..|s + vs| - 1] == s + vs[..n - 1];
      assert (s + vs)[|s + vs| - 1] == vs[n - 1];
      SendAllReceiveAll(s, vs[..n - 1]);
    }
  }

  /**
   The receives of `ReceiveMany` taken one at a time from the front of the list:
   the (i+1)-th receive takes element |s|-1-i.
   */
  lemma {:induction false} ReceiveManyStep<T>(s: seq<T>, i: nat)
    requires i < |s|
    ensures ReceiveMany(s, i + 1).0 == ReceiveMany(s, i).0 + [s[|s| - 1 - i]]
  {
    var p := s[..|s| - 1];
    var back := [s[|s| - 1]];
    if i == 0 {
      assert ReceiveMany(s, 1).0 == back + ReceiveMany(p, 0).0;
    } else {
      ReceiveManyStep(p, i - 1);
      assert p[|p| - 1 - (i - 1)] == s[|s| - 1 - i];
      calc {
        ReceiveMany(s, i + 1).0;
        back + ReceiveMany(p, i).0;
        back + (ReceiveMany(p, i - 1).0 + [s[|s| - 1 - i]]);
        (back + ReceiveMany(p, i - 1).0) + [s[|s| - 1 - i]];
        ReceiveMany(s, i).0 + [s[|s| - 1 - i]];
      }
    }
  }

  /** `n` calls of `Receive` in a row on one queue do what `ReceiveMany` describes. */
  method ReceiveN<T>(q: MessageQueue<T>, n: nat) returns (got: seq<T>)
    requires n <= |q.queue|
    modifies q
    ensures (got, q.queue) == ReceiveMany(old(q.queue), n)
  {
    ghost var s := q.queue;
    got := [];
    var i := 0;
    while i < n
      invariant 0 <= i <= n
      invariant got == ReceiveMany(s, i).0
      invariant q.queue == ReceiveMany(s, i).1
    {
      ReceiveManyStep(s, i);
      assert q.queue == s[..|s| - i];
      assert ReceiveMany(s, i + 1).1 == s[..|s| - i - 1];
      var msg := q.Receive();
      got := got + [msg];
      i := i + 1;
    }
  }

  /**
   Sends every value of `vs` in order, then receives as many times: the values come
   back in reverse order and the queue ends as it began, whatever was pending.
   */
  method SendAllThenReceiveAll<T>(q: MessageQueue<T>, vs: seq<T>) returns (got: seq<T>)
    modifies q
    ensures got == Reverse(vs)
    ensures q.queue == old(q.queue)
  {
    ghost var before := q.queue;
    for i := 0 to |vs|
      invariant q.queue == before + vs[..i]
    {
      q.Send(vs[i]);
      assert vs[..i + 1] == vs[..i] + [vs[i]];
    }
    assert vs[..|vs|] == vs;
    got := ReceiveN(q, |vs|);
    SendAllReceiveAll(before, vs);
  }

  /** Three sends followed by three receives on one queue: v3, v2, v1 come back and the queue is as before. */
  method SendThreeReceiveThree<T>(q: MessageQueue<T>, v1: T, v2: T, v3: T) returns (r1: T, r2: T, r3: T)
    modifies q
    ensures r1 == v3 && r2 == v2 && r3 == v1
    ensures q.queue == old(q.queue)
  {
    ghost var before := q.queue;
    q.Send(v1);
    q.Send(v2);
    q.Send(v3);
    assert q.queue == before + [v1, v2, v3];
    r1 := q.Receive();
    r2 := q.Receive();
    assert q.queue == before + [v1];
    r3 := q.Receive();
  }
}
