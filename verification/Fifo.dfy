/** The bounded first-in first-out queue behind both of the gateway's queues, as a value:
    the classes below refine it and the concurrent models step it. */
module Fifo {
  datatype PushResult = Pushed | Full | Closed

  datatype Queue<T> = Queue(capacity: nat, items: seq<T>, closed: bool, accepted: nat, rejectedFull: nat)

  ghost predicate Bounded<T>(q: Queue<T>) {
    |q.items| <= q.capacity
  }

  function Push<T>(q: Queue<T>, x: T): (r: (Queue<T>, PushResult))
    ensures Bounded(q) ==> Bounded(r.0)
  {
    if q.closed then (q, Closed)
    else if |q.items| >= q.capacity then (q.(rejectedFull := q.rejectedFull + 1), Full)
    else (q.(items := q.items + [x], accepted := q.accepted + 1), Pushed)
  }

  function Pop<T>(q: Queue<T>): (r: Queue<T>)
    requires q.items != []
    ensures [q.items[0]] + r.items == q.items
  {
    q.(items := q.items[1..])
  }

  function Close<T>(q: Queue<T>): Queue<T> {
    q.(closed := true)
  }

  function Drain<T>(q: Queue<T>): Queue<T> {
    q.(items := [])
  }
}

/** BoundedQueue<T> of include/gateway/bounded_queue.hpp: each method body is one critical section. */
module RawQueue {
  import opened Fifo

  class BoundedQueue<T> {
    const capacity: nat
    var queue: seq<T>
    var closed: bool
    var accepted: nat
    var rejectedFull: nat
    // Everything ever accepted and everything ever handed out, in order.
    ghost var pushed: seq<T>
    ghost var popped: seq<T>

    ghost predicate Valid() reads this {
      && 0 < capacity
      && Bounded(View())
      && accepted == |pushed|
      && pushed == popped + queue
    }

    ghost function View(): Queue<T> reads this {
      Queue(capacity, queue, closed, accepted, rejectedFull)
    }

    /** The original's constructor throws on a zero capacity. */
    constructor (capacity: nat)
      requires 0 < capacity
      ensures Valid() && View() == Queue(capacity, [], false, 0, 0)
      ensures pushed == popped == []
    {
      this.capacity := capacity;
      queue, closed, accepted, rejectedFull := [], false, 0, 0;
      pushed, popped := [], [];
    }

    method TryPush(value: T) returns (r: PushResult)
      requires Valid()
      modifies this
      ensures Valid() && (View(), r) == Push(old(View()), value)
      ensures r == Closed <==> old(closed)
      ensures r == Full <==> !old(closed) && |old(queue)| == capacity
      ensures queue == if r == Pushed then old(queue) + [value] else old(queue)
      ensures closed == old(closed) && rejectedFull == if r == Full then old(rejectedFull) + 1 else old(rejectedFull)
      ensures popped == old(popped)
      ensures pushed == old(pushed) + if r == Pushed then [value] else []
    {
      if closed {
        return Closed;
      }
      if |queue| >= capacity {
        rejectedFull := rejectedFull + 1;
        return Full;
      }
      queue := queue + [value];
      accepted := accepted + 1;
      pushed := pushed + [value];
      return Pushed;
    }

    /** The precondition is what the condition variable waits for. */
    method WaitPop() returns (ok: bool, value: seq<T>)
      requires Valid() && (closed || queue != [])
      modifies this
      ensures Valid() && pushed == old(pushed)
      ensures ok <==> old(queue) != []
      ensures ok ==> value == old(queue)[..1] && View() == Pop(old(View())) && popped == old(popped) + value
      ensures !ok ==> value == [] && View() == old(View()) && popped == pushed
    {
      if queue == [] {
        return false, [];
      }
      value := [queue[0]];
      queue := queue[1..];
      popped := popped + value;
      ok := true;
    }

    method CloseQueue()
      requires Valid()
      modifies this
      ensures Valid() && View() == Close(old(View()))
      ensures pushed == old(pushed) && popped == old(popped)
    {
      closed := true;
    }
  }
}

/** ControlQueue of src/core/control.cpp: a bounded queue that can also be emptied in one batch. */
module ControlQueues {
  import opened Fifo

  datatype Batch<T> = AllocationFailed | Cancelled(items: seq<T>)

  class ControlQueue<T> {
    const capacity: nat
    var queue: seq<T>
    var closed: bool
    var maxSize: nat
    var accepted: nat
    var rejectedFull: nat
    var cancelled: nat
    // History: what was accepted, what left (in order), and how many of those the worker took.
    ghost var pushed: seq<T>
    ghost var left: seq<T>
    ghost var taken: nat

    ghost predicate Valid() reads this {
      && 0 < capacity
      && Bounded(View())
      && accepted == |pushed|
      && pushed == left + queue
      && taken + cancelled == |left|
      && |queue| <= maxSize <= capacity
    }

    ghost function View(): Queue<T> reads this {
      Queue(capacity, queue, closed, accepted, rejectedFull)
    }

    constructor (capacity: nat)
      requires 0 < capacity
      ensures Valid() && View() == Queue(capacity, [], false, 0, 0)
      ensures pushed == left == [] && taken == cancelled == 0
    {
      this.capacity := capacity;
      queue, closed, maxSize, accepted, rejectedFull, cancelled := [], false, 0, 0, 0, 0;
      pushed, left, taken := [], [], 0;
    }

    method TryPush(operation: T) returns (r: PushResult)
      requires Valid()
      modifies this
      ensures Valid() && (View(), r) == Push(old(View()), operation)
      ensures r == Closed <==> old(closed)
      ensures r == Full <==> !old(closed) && |old(queue)| == capacity
      ensures queue == if r == Pushed then old(queue) + [operation] else old(queue)
      ensures closed == old(closed) && rejectedFull == if r == Full then old(rejectedFull) + 1 else old(rejectedFull)
      ensures left == old(left) && taken == old(taken) && cancelled == old(cancelled)
      ensures pushed == old(pushed) + if r == Pushed then [operation] else []
      ensures maxSize == if |queue| > old(maxSize) then |queue| else old(maxSize)
    {
      if closed {
        return Closed;
      }
      if |queue| >= capacity {
        rejectedFull := rejectedFull + 1;
        return Full;
      }
      queue := queue + [operation];
      maxSize := if maxSize < |queue| then |queue| else maxSize;
      accepted := accepted + 1;
      pushed := pushed + [operation];
      return Pushed;
    }

    /** The precondition is what the condition variable waits for. */
    method WaitPop() returns (ok: bool, operation: seq<T>)
      requires Valid() && (closed || queue != [])
      modifies this
      ensures Valid() && pushed == old(pushed) && cancelled == old(cancelled)
      ensures ok <==> old(queue) != []
      ensures ok ==> operation == old(queue)[..1] && View() == Pop(old(View()))
      ensures ok ==> left == old(left) + operation && taken == old(taken) + 1
      ensures !ok ==> operation == [] && View() == old(View()) && left == pushed && taken == old(taken)
    {
      if queue == [] {
        return false, [];
      }
      operation := [queue[0]];
      queue := queue[1..];
      left, taken := left + operation, taken + 1;
      ok := true;
    }

    method CloseQueue()
      requires Valid()
      modifies this
      ensures Valid() && View() == Close(old(View()))
      ensures pushed == old(pushed) && left == old(left)
      ensures taken == old(taken) && cancelled == old(cancelled)
    {
      closed := true;
    }

    /** Moves everything pending into one batch; reserving the batch is the only step that can fail,
        and it fails before anything is popped. */
    method CancelPending(reserveFails: bool) returns (batch: Batch<T>)
      requires Valid()
      modifies this
      ensures Valid() && pushed == old(pushed) && taken == old(taken)
      ensures reserveFails ==> batch == AllocationFailed && View() == old(View()) && left == old(left)
      ensures reserveFails ==> cancelled == old(cancelled)
      ensures !reserveFails ==> batch == Cancelled(old(queue)) && View() == Drain(old(View()))
      ensures !reserveFails ==> left == pushed && cancelled == old(cancelled) + |old(queue)|
    {
      if reserveFails {
        return AllocationFailed;
      }
      var items: seq<T> := [];
      while queue != []
        invariant unchanged(`closed) && unchanged(`accepted) && unchanged(`rejectedFull) && unchanged(`maxSize)
        invariant unchanged(`pushed) && unchanged(`taken)
        invariant items + queue == old(queue) && left == old(left) + items
        invariant cancelled == old(cancelled) + |items|
        decreases |queue|
      {
        assert items + [queue[0]] + queue[1..] == items + queue;
        items, left := items + [queue[0]], left + [queue[0]];
        queue := queue[1..];
        cancelled := cancelled + 1;
      }
      assert left + [] == left;
      batch := Cancelled(items);
    }
  }
}
