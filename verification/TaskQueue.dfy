// services/acquisition/queue.py: the in-memory queue, kept sorted by (scheduled time, task id).
module TaskQueue {
  import opened Prelude
  import opened Sorting
  import opened RateLimiter

  datatype QueueItem = QueueItem(taskId: Id, scheduledAt: Time)

  predicate ItemLe(a: QueueItem, b: QueueItem) {
    a.scheduledAt < b.scheduledAt || (a.scheduledAt == b.scheduledAt && a.taskId <= b.taskId)
  }

  lemma ItemLeIsTotalOrder()
    ensures TotalOrder(ItemLe)
  {
  }

  function Due(items: seq<QueueItem>, now: Time): seq<QueueItem> {
    if items == [] then []
    else Due(items[..|items| - 1], now) + if items[|items| - 1].scheduledAt <= now then [items[|items| - 1]] else []
  }

  function Later(items: seq<QueueItem>, now: Time): seq<QueueItem> {
    if items == [] then []
    else Later(items[..|items| - 1], now) + if items[|items| - 1].scheduledAt <= now then [] else [items[|items| - 1]]
  }

  lemma {:induction false} NothingLater(items: seq<QueueItem>, now: Time)
    requires forall x :: x in items ==> x.scheduledAt <= now
    ensures Later(items, now) == []
  {
    if items != [] { NothingLater(items[..|items| - 1], now); }
  }

  // Popping cuts a sorted queue in two: nothing is reordered, lost or duplicated, and the cut is at now.
  lemma {:induction false} PopCutsQueue(items: seq<QueueItem>, now: Time)
    requires Sorted(items, ItemLe)
    ensures Due(items, now) + Later(items, now) == items
    ensures forall x :: x in Due(items, now) ==> x.scheduledAt <= now
    ensures forall x :: x in Later(items, now) ==> x.scheduledAt > now
  {
    if items != [] {
      var init, last := items[..|items| - 1], items[|items| - 1];
      PopCutsQueue(init, now);
      assert items == init + [last];
      if last.scheduledAt <= now {
        forall x | x in init ensures x.scheduledAt <= now {
          var i :| 0 <= i < |init| && init[i] == x;
          assert ItemLe(items[i], items[|items| - 1]);
        }
        NothingLater(init, now);
      }
    }
  }

  // The queue has gained this one item and is still in order.
  ghost predicate Gained(queue: seq<QueueItem>, queue': seq<QueueItem>, item: QueueItem) {
    && multiset(queue') == multiset(queue) + multiset{item}
    && (InTimeOrder(queue) ==> InTimeOrder(queue'))
  }

  // By time, and at one time by task id.
  ghost predicate InTimeOrder(queue: seq<QueueItem>) {
    forall i, j :: 0 <= i < j < |queue| ==>
      queue[i].scheduledAt < queue[j].scheduledAt ||
      (queue[i].scheduledAt == queue[j].scheduledAt && queue[i].taskId <= queue[j].taskId)
  }

  lemma InsertGains(queue: seq<QueueItem>, item: QueueItem)
    ensures Gained(queue, Insert(queue, item, ItemLe), item)
  {
    InsertPermutes(queue, item, ItemLe);
    if InTimeOrder(queue) {
      ItemLeIsTotalOrder();
      assert Sorted(queue, ItemLe);
      InsertKeepsSorted(queue, item, ItemLe);
    }
  }

  class InMemoryQueueAdapter {
    var items: seq<QueueItem>

    constructor ()
      ensures items == []
    {
      items := [];
    }

    method Enqueue(taskId: Id, scheduledAt: Time) returns (jobId: Id)
      modifies this
      ensures items == Insert(old(items), QueueItem(taskId, scheduledAt), ItemLe)
      ensures Gained(old(items), items, QueueItem(taskId, scheduledAt))
      ensures jobId == taskId
    {
      InsertGains(items, QueueItem(taskId, scheduledAt));
      items := Insert(items, QueueItem(taskId, scheduledAt), ItemLe);
      jobId := taskId;
    }

    method PopDue(now: Time) returns (due: seq<QueueItem>)
      modifies this
      ensures due == Due(old(items), now) && items == Later(old(items), now)
      ensures InTimeOrder(old(items)) ==>
                && due + items == old(items)
                && (forall x :: x in due ==> x.scheduledAt <= now) && (forall x :: x in items ==> now < x.scheduledAt)
    {
      if InTimeOrder(items) {
        assert Sorted(items, ItemLe);
        PopCutsQueue(items, now);
      }
      due := [];
      var remaining := [];
      for i := 0 to |items|
        invariant due == Due(items[..i], now) && remaining == Later(items[..i], now)
        invariant items == old(items)
      {
        assert items[..i + 1][..i] == items[..i];
        if items[i].scheduledAt <= now {
          due := due + [items[i]];
        } else {
          remaining := remaining + [items[i]];
        }
      }
      assert items[..|items|] == items;
      items := remaining;
    }
  }

  // The queue after an enqueue is the only sorted list of the old items and the new one.
  lemma EnqueueIsTheSortedList(items: seq<QueueItem>, x: QueueItem, r: seq<QueueItem>)
    requires Sorted(items, ItemLe)
    ensures r == Insert(items, x, ItemLe) <==> Sorted(r, ItemLe) && multiset(r) == multiset(items) + multiset{x}
  {
    ItemLeIsTotalOrder();
    InsertKeepsSorted(items, x, ItemLe);
    InsertPermutes(items, x, ItemLe);
    if Sorted(r, ItemLe) && multiset(r) == multiset(items) + multiset{x} {
      SortedUnique(r, Insert(items, x, ItemLe), ItemLe);
    }
  }
}
