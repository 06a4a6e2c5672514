/** LeakyBondedQueue: a bounded queue that drops its oldest item to make room. */
module LeakyQueues {
  import opened Options

  /** The last n items of s, or all of s when it is shorter. */
  function Last<T>(s: seq<T>, n: nat): (r: seq<T>)
    ensures |r| <= n && |r| <= |s| && r == s[|s| - |r|..]
  {
    if |s| <= n then s else s[|s| - n..]
  }

  /** Dropping early makes no difference: what a bounded queue keeps of an extended history
      depends only on what it kept before. */
  lemma {:induction false} LastOfLast<T>(history: seq<T>, x: T, n: nat)
    requires n >= 1
    ensures Last(Last(history, n) + [x], n) == Last(history + [x], n)
  {
    if |history| >= n {
      var kept := Last(history, n);
      assert (kept + [x])[1..] == kept[1..] + [x];
      assert (history + [x])[|history| + 1 - n..] == history[|history| + 1 - n..] + [x];
      assert kept[1..] == history[|history| + 1 - n..];
    }
  }

  class LeakyBondedQueue<T> {
    const capacity: nat
    var queue: seq<T>

    ghost predicate Valid()
      reads this
    {
      1 <= capacity && |queue| <= capacity
    }

    constructor (capacity: nat)
      requires capacity >= 1
      ensures Valid() && queue == [] && this.capacity == capacity
    {
      this.capacity := capacity;
      queue := [];
    }

    method Enqueue(newItem: T)
      requires Valid()
      modifies `queue
      ensures Valid() && queue == Last(old(queue) + [newItem], capacity)
    {
      if |queue| + 1 > capacity {
        queue := queue[1..];
      }
      queue := queue + [newItem];
    }

    /** The popped item, if any, together with the queue is everything there was. */
    method EnqueueWithPop(newItem: T) returns (oldItem: Option<T>)
      requires Valid()
      modifies `queue
      ensures Valid() && queue == Last(old(queue) + [newItem], capacity)
      ensures oldItem.Some? <==> |old(queue)| == capacity
      ensures (if oldItem.Some? then [oldItem.value] else []) + queue == old(queue) + [newItem]
    {
      oldItem := None;
      if |queue| + 1 > capacity {
        oldItem := Some(queue[0]);
        queue := queue[1..];
      }
      queue := queue + [newItem];
    }

    /** Popping an empty standard queue is undefined. */
    method Dequeue() returns (item: T)
      requires Valid() && queue != []
      modifies `queue
      ensures Valid() && [item] + queue == old(queue)
    {
      item := queue[0];
      queue := queue[1..];
    }

    method Clear()
      requires Valid()
      modifies `queue
      ensures Valid() && queue == []
    {
      while queue != []
        invariant Valid()
        decreases |queue|
      {
        queue := queue[1..];
      }
    }
  }
}
