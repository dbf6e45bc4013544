/** The bounded queue: its lock-protected sections as functions, and the class whose methods are those sections. */
module Queues {
  import opened Core

  datatype Queue<T> = Queue(capacity: nat, items: seq<T>, closed: bool)

  datatype PushVerdict = Accepted | Refused | MustWaitForSpace

  datatype PopVerdict<T> = Took(item: T) | Finished | MustWaitForItem

  /** One evaluation of push() under the lock. */
  function PushSection<T>(q: Queue<T>, value: T): (Queue<T>, PushVerdict)
  {
    if q.closed then (q, Refused)
    else if |q.items| < q.capacity then (q.(items := q.items + [value]), Accepted)
    else (q, MustWaitForSpace)
  }

  /** One evaluation of pop() under the lock. */
  function PopSection<T>(q: Queue<T>): (Queue<T>, PopVerdict<T>)
  {
    if q.items != [] then (q.(items := q.items[1..]), Took(q.items[0]))
    else if q.closed then (q, Finished)
    else (q, MustWaitForItem)
  }

  /** close() under the lock; the flag says whether this call must notify. */
  function CloseSection<T>(q: Queue<T>): (Queue<T>, bool)
  {
    (q.(closed := true), !q.closed)
  }

  /** close_and_drain() under the lock. */
  function DrainSection<T>(q: Queue<T>): (Queue<T>, seq<T>)
  {
    (q.(closed := true, items := []), q.items)
  }

  class BlockingQueue<T> {
    const capacity: nat
    var items: seq<T>
    var closed: bool

    ghost predicate Valid()
      reads this
    {
      0 < capacity && |items| <= capacity
    }

    ghost function Model(): Queue<T>
      reads this
    {
      Queue(capacity, items, closed)
    }

    constructor (capacity: nat)
      requires 0 < capacity
      ensures Valid() && Model() == Queue(capacity, [], false)
    {
      this.capacity := capacity;
      items := [];
      closed := false;
    }

    /** The public construction path: a capacity of zero is refused. */
    static method Make(capacity: nat) returns (q: Option<BlockingQueue<T>>)
      ensures q.None? <==> capacity == 0
      ensures q.Some? ==> fresh(q.value) && q.value.Valid() && q.value.Model() == Queue(capacity, [], false)
    {
      if capacity == 0 {
        return None;
      }
      var made := new BlockingQueue<T>(capacity);
      q := Some(made);
    }

    method Push(value: T) returns (verdict: PushVerdict)
      requires Valid()
      modifies this
      ensures Valid() && (Model(), verdict) == PushSection(old(Model()), value)
      ensures verdict.Accepted? <==> !old(closed) && old(|items|) < capacity
      ensures verdict.Refused? <==> old(closed)
      ensures verdict.Accepted? ==> items == old(items) + [value]
      ensures !verdict.Accepted? ==> items == old(items)
      ensures closed == old(closed)
    {
      if !closed && |items| >= capacity {
        return MustWaitForSpace;
      }
      if closed {
        return Refused;
      }
      items := items + [value];
      verdict := Accepted;
    }

    method Pop() returns (verdict: PopVerdict<T>)
      requires Valid()
      modifies this
      ensures Valid() && (Model(), verdict) == PopSection(old(Model()))
      ensures verdict.Took? <==> old(items) != []
      ensures verdict.Took? ==> old(items) == [verdict.item] + items
      ensures verdict.Finished? <==> closed && old(items) == []
      ensures !verdict.Took? ==> items == old(items)
      ensures closed == old(closed)
    {
      if !closed && items == [] {
        return MustWaitForItem;
      }
      if items == [] {
        return Finished;
      }
      verdict := Took(items[0]);
      items := items[1..];
    }

    method Close() returns (mustNotify: bool)
      requires Valid()
      modifies this
      ensures Valid() && (Model(), mustNotify) == CloseSection(old(Model()))
      ensures closed && items == old(items) && (mustNotify <==> !old(closed))
    {
      if closed {
        return false;
      }
      closed := true;
      mustNotify := true;
    }

    method CloseAndDrain() returns (drained: seq<T>)
      requires Valid()
      modifies this
      ensures Valid() && (Model(), drained) == DrainSection(old(Model()))
      ensures closed && items == [] && drained == old(items)
    {
      closed := true;
      drained := [];
      var i := 0;
      while i < |items|
        invariant 0 <= i <= |items|
        invariant items == old(items) && closed
        invariant drained == items[..i]
      {
        drained := drained + [items[i]];
        i := i + 1;
      }
      assert drained == old(items);
      items := [];
    }
  }
}
