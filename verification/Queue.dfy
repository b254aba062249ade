/** The bounded in-memory queue: a ring buffer that grows when an interrupted batch is put back. */
module RingQueue {
  import opened Events

  /** What the queue does to an abstract sequence. The class below is proved against these, and
      the concurrent pipeline model is stated with them. */

  /** All-or-nothing admission. */
  predicate Fits(size: nat, capacity: nat, extra: nat) {
    size + extra <= capacity
  }

  /** How many events of a batch the drop-newest policy lets in. */
  function Admissible(size: nat, capacity: nat, extra: nat): nat {
    if capacity <= size then 0 else if extra <= capacity - size then extra else capacity - size
  }

  datatype DropPolicy = Reject | DropNewest

  /** How many of n new events a handler gets in. */
  function Accepted(policy: DropPolicy, size: nat, capacity: nat, n: nat): nat {
    match policy
    case Reject => if Fits(size, capacity, n) then n else 0
    case DropNewest => Admissible(size, capacity, n)
  }

  /** Whether it reaches the notification. */
  predicate Appends(policy: DropPolicy, size: nat, capacity: nat, n: nat) {
    match policy
    case Reject => Fits(size, capacity, n)
    case DropNewest => size < capacity
  }

  /** The capacity after `extra` events were put back at the front. */
  function CapacityAfterRestore(size: nat, capacity: nat, extra: nat): nat {
    if Fits(size, capacity, extra) then capacity else size + extra
  }

  /** How many events a drain of at most `max` takes; a non-positive `max` means all. */
  function DrainCount(size: nat, max: int): nat {
    if max <= 0 || size < max then size else max
  }

  /** The slot of the i-th live event. */
  function Slot(head: nat, i: nat, capacity: nat): nat {
    if head + i < capacity then head + i else head + i - capacity
  }

  /** How far slot `k` lies behind the head, going round. */
  function Offset(head: nat, k: nat, capacity: nat): int {
    if head <= k then k - head else k + capacity - head
  }

  lemma ModuloOfSum(r: nat, capacity: nat)
    requires r < capacity
    ensures (capacity + r) % capacity == r
  {
  }

  /** Reduces a position that is at most one turn ahead. */
  method Wrap(position: nat, capacity: nat) returns (slot: nat)
    requires position < 2 * capacity
    ensures slot == if position < capacity then position else position - capacity
  {
    slot := position % capacity;
    if position >= capacity { ModuloOfSum(position - capacity, capacity); }
  }

  /** The live window of a ring, oldest event first. */
  ghost function View(slots: seq<Event>, head: nat, size: nat): (view: seq<Event>)
    requires head < |slots| && size <= |slots|
    ensures |view| == size
  {
    seq(size, i requires 0 <= i < size => slots[Slot(head, i, |slots|)])
  }

  lemma ViewAt(slots: seq<Event>, head: nat, size: nat, i: nat)
    requires head < |slots| && i < size <= |slots|
    ensures View(slots, head, size)[i] == slots[Slot(head, i, |slots|)]
  {
  }

  /** Every slot outside the live window holds the zero event. */
  ghost predicate DeadSlotsAreZero(slots: seq<Event>, head: nat, size: nat)
    requires head < |slots|
  {
    forall k: nat :: k < |slots| && size <= Offset(head, k, |slots|) ==> slots[k] == ZERO_EVENT
  }

  lemma WriteBehindTail(slots: seq<Event>, head: nat, size: nat, e: Event)
    requires head < |slots| && size < |slots|
    requires DeadSlotsAreZero(slots, head, size)
    ensures var after := slots[Slot(head, size, |slots|) := e];
            View(after, head, size + 1) == View(slots, head, size) + [e]
            && DeadSlotsAreZero(after, head, size + 1)
  {
  }

  lemma WriteBeforeHead(slots: seq<Event>, head: nat, size: nat, e: Event)
    requires head < |slots| && size < |slots|
    requires DeadSlotsAreZero(slots, head, size)
    ensures var front := Slot(head, |slots| - 1, |slots|);
            var after := slots[front := e];
            View(after, front, size + 1) == [e] + View(slots, head, size)
            && DeadSlotsAreZero(after, front, size + 1)
  {
  }

  /** Clearing the first `count` live slots and moving the head past them drops `count` events. */
  lemma ClearFromHead(slots: seq<Event>, after: seq<Event>, head: nat, size: nat, count: nat)
    requires head < |slots| == |after| && count <= size <= |slots|
    requires DeadSlotsAreZero(slots, head, size)
    requires forall k: nat :: k < |slots| ==>
      after[k] == if Offset(head, k, |slots|) < count then ZERO_EVENT else slots[k]
    ensures var front := if count == |slots| then head else Slot(head, count, |slots|);
            View(after, front, size - count) == View(slots, head, size)[count..]
            && DeadSlotsAreZero(after, front, size - count)
  {
  }

  /** What Drain leaves: an emptied ring starts again at slot 0. */
  lemma DrainedRing(slots: seq<Event>, after: seq<Event>, head: nat, size: nat, count: nat)
    requires head < |slots| == |after| && count <= size <= |slots|
    requires DeadSlotsAreZero(slots, head, size)
    requires forall k: nat :: k < |slots| ==>
      after[k] == if Offset(head, k, |slots|) < count then ZERO_EVENT else slots[k]
    ensures var front := if size == count then 0 else Slot(head, count, |slots|);
            && front < |slots|
            && View(slots, head, size)[..count] + View(after, front, size - count) == View(slots, head, size)
            && DeadSlotsAreZero(after, front, size - count)
  {
    ClearFromHead(slots, after, head, size, count);
  }

  lemma ExtendFront<T>(batch: seq<T>, n: nat, rest: seq<T>)
    requires n < |batch|
    ensures [batch[n]] + (batch[n + 1..] + rest) == batch[n..] + rest
  {
  }

  class Queue {
    var items: array<Event>
    var head: nat
    var size: nat
    var capacity: nat
    var notified: bool

    ghost predicate Valid()
      reads this, items
    {
      && 0 < capacity == items.Length
      && head < capacity
      && size <= capacity
      && DeadSlotsAreZero(items[..], head, size)
    }

    ghost function Contents(): (view: seq<Event>)
      reads this, items
      requires Valid()
      ensures |view| == size
    {
      View(items[..], head, size)
    }

    constructor (max: nat)
      requires 0 < max
      ensures Valid() && fresh(items)
      ensures Contents() == [] && capacity == max && !notified
    {
      items := new Event[max](_ => ZERO_EVENT);
      head, size, capacity, notified := 0, 0, max, false;
    }

    /** Appends a batch that is known to fit. */
    method Append(batch: seq<Event>)
      requires Valid() && Fits(size, capacity, |batch|)
      modifies this`size, items
      ensures Valid() && Contents() == old(Contents()) + batch
    {
      hide DeadSlotsAreZero, View;
      for n := 0 to |batch|
        invariant Valid() && size == old(size) + n
        invariant Contents() == old(Contents()) + batch[..n]
      {
        ghost var slots := items[..];
        var index := Wrap(head + size, capacity);
        items[index] := batch[n];
        WriteBehindTail(slots, head, size, batch[n]);
        assert items[..] == slots[index := batch[n]];
        size := size + 1;
      }
    }

    method Enqueue(batch: seq<Event>) returns (ok: bool)
      requires Valid()
      modifies this`size, this`notified, items
      ensures Valid()
      ensures ok <==> old(size) + |batch| <= capacity
      ensures ok ==> Contents() == old(Contents()) + batch && notified
      ensures !ok ==> Contents() == old(Contents()) && notified == old(notified)
    {
      if size + |batch| > capacity {
        return false;
      }
      Append(batch);
      notified := true;
      return true;
    }

    method DropNewest(batch: seq<Event>) returns (dropped: nat)
      requires Valid()
      modifies this`size, this`notified, items
      ensures Valid()
      ensures dropped == if old(size) + |batch| <= capacity then 0 else old(size) + |batch| - capacity
      ensures dropped == |batch| - Admissible(old(size), capacity, |batch|)
      ensures dropped > 0 ==> size == capacity
      ensures Contents() == old(Contents()) + batch[..|batch| - dropped]
      ensures notified == (old(notified) || old(size) < capacity)
    {
      var available := capacity - size;
      if available <= 0 {
        return |batch|;
      }
      if |batch| <= available {
        Append(batch);
        notified := true;
        assert batch[..|batch|] == batch;
        return 0;
      }
      Append(batch[..available]);
      notified := true;
      return |batch| - available;
    }

    method Grow(wanted: nat)
      requires Valid() && 0 < wanted && size <= wanted
      modifies this`items, this`head, this`capacity
      ensures Valid() && fresh(items)
      ensures capacity == wanted && Contents() == old(Contents())
    {
      var bigger := new Event[wanted](_ => ZERO_EVENT);
      for i := 0 to size
        modifies bigger
        invariant forall j :: 0 <= j < i ==> bigger[j] == old(Contents())[j]
        invariant forall j :: i <= j < wanted ==> bigger[j] == ZERO_EVENT
      {
        var index := Wrap(head + i, capacity);
        bigger[i] := items[index];
      }
      items := bigger;
      head := 0;
      capacity := wanted;
    }

    method Prepend(batch: seq<Event>)
      requires Valid()
      modifies this, items
      ensures Valid() && (items == old(items) || fresh(items))
      ensures Contents() == batch + old(Contents())
      ensures capacity == CapacityAfterRestore(old(size), old(capacity), |batch|)
      ensures capacity == if size <= old(capacity) then old(capacity) else size
      ensures notified
    {
      if size + |batch| > capacity {
        Grow(size + |batch|);
      }
      PutBack(batch);
      notified := true;
    }

    /** The loop of Prepend: last event first, so that the batch keeps its order. */
    method PutBack(batch: seq<Event>)
      requires Valid() && Fits(size, capacity, |batch|)
      modifies this`head, this`size, items
      ensures Valid() && Contents() == batch + old(Contents())
    {
      hide DeadSlotsAreZero, View;
      assert batch[|batch|..] + Contents() == Contents();
      for n := |batch| downto 0
        invariant Valid() && size == old(size) + |batch| - n
        invariant Contents() == batch[n..] + old(Contents())
      {
        ghost var slots, before := items[..], Contents();
        var front := Wrap(head - 1 + capacity, capacity);
        WriteBeforeHead(slots, head, size, batch[n]);
        items[front] := batch[n];
        assert items[..] == slots[front := batch[n]];
        head := front;
        size := size + 1;
        assert Contents() == View(slots[front := batch[n]], front, size) == [batch[n]] + before;
        ExtendFront(batch, n, old(Contents()));
      }
    }

    method Drain(max: int) returns (drained: array<Event>)
      requires Valid()
      modifies this`head, this`size, items
      ensures Valid() && fresh(drained)
      ensures drained.Length == DrainCount(old(size), max)
      ensures drained.Length == if 0 < max <= old(size) then max else old(size)
      ensures drained[..] + Contents() == old(Contents())
    {
      hide DeadSlotsAreZero, View;
      if size == 0 {
        drained := new Event[0];
        return;
      }
      var count := if max <= 0 || max > size then size else max;
      ghost var slots := items[..];
      drained := MoveOut(count);
      DrainedRing(slots, items[..], head, size, count);
      head := Wrap(head + count, capacity);
      size := size - count;
      if size == 0 {
        head := 0;
      }
    }

    /** The loop of Drain: copies the first `count` live events out and clears their slots. */
    method MoveOut(count: nat) returns (drained: array<Event>)
      requires Valid() && count <= size
      modifies items
      ensures fresh(drained) && drained[..] == old(Contents())[..count]
      ensures forall k: nat :: k < capacity ==>
        items[k] == if Offset(head, k, capacity) < count then ZERO_EVENT else old(items[k])
    {
      hide View, DeadSlotsAreZero;
      ghost var slots, view := items[..], Contents();
      drained := new Event[count](_ => ZERO_EVENT);
      for i := 0 to count
        modifies drained, items
        invariant drained[..i] == view[..i]
        invariant forall k: nat :: k < capacity ==>
          items[k] == if Offset(head, k, capacity) < i then ZERO_EVENT else slots[k]
      {
        var index := Wrap(head + i, capacity);
        assert Offset(head, index, capacity) == i;
        ViewAt(slots, head, size, i);
        drained[i] := items[index];
        items[index] := ZERO_EVENT;
      }
      assert drained[..count] == drained[..];
    }

    method Len() returns (n: nat)
      requires Valid()
      ensures n == |Contents()|
    {
      n := size;
    }
  }

  /** A batch that a handler offers under its policy. */
  datatype Offered = Offered(policy: DropPolicy, batch: seq<Event>)

  /** What a series of offers adds to a queue of this size. */
  function Arriving(size: nat, capacity: nat, offers: seq<Offered>): (events: seq<Event>)
    ensures size <= capacity ==> size + |events| <= capacity
  {
    if offers == [] then []
    else
      var front, last := Arriving(size, capacity, offers[..|offers| - 1]), offers[|offers| - 1];
      front + last.batch[..Accepted(last.policy, size + |front|, capacity, |last.batch|)]
  }

  /** The round trip of an interrupted flush: whatever arrived between drain and restore, under either
      policy, and even if the restore overflows a wrapped ring, the queue then holds what was put back,
      the untouched rest, and the arrivals. Putting back all that was drained undoes the drain. */
  method DrainOfferRestore(q: Queue, max: int, offers: seq<Offered>, unsettled: seq<Event>)
    returns (ghost drained: seq<Event>)
    requires q.Valid()
    modifies q, q.items
    ensures q.Valid()
    ensures drained == old(q.Contents())[..DrainCount(old(q.size), max)]
    ensures var arrived := Arriving(old(q.size) - |drained|, old(q.capacity), offers);
            && q.Contents() == unsettled + old(q.Contents())[|drained|..] + arrived
            && (unsettled == drained ==> q.Contents() == old(q.Contents()) + arrived)
            && q.capacity == if q.size <= old(q.capacity) then old(q.capacity) else q.size
  {
    hide View, DeadSlotsAreZero;
    ghost var before := q.Contents();
    var batch := q.Drain(max);
    drained := batch[..];
    ghost var rest := q.Contents();
    assert rest == before[|drained|..] && drained == before[..|drained|];
    Offer(q, offers);
    ghost var arrived := Arriving(|rest|, q.capacity, offers);
    q.Prepend(unsettled);
    assert unsettled + (rest + arrived) == unsettled + rest + arrived;
  }

  method OfferOne(q: Queue, offer: Offered)
    requires q.Valid()
    modifies q`size, q`notified, q.items
    ensures q.Valid()
    ensures q.Contents() == old(q.Contents()) + offer.batch[..Accepted(offer.policy, old(q.size), q.capacity, |offer.batch|)]
  {
    hide View, DeadSlotsAreZero;
    var batch := offer.batch;
    assert batch[..|batch|] == batch && batch[..0] == [];
    if offer.policy.Reject? {
      var ok := q.Enqueue(batch);
    } else {
      var dropped := q.DropNewest(batch);
    }
  }

  method Offer(q: Queue, offers: seq<Offered>)
    requires q.Valid()
    modifies q`size, q`notified, q.items
    ensures q.Valid() && q.Contents() == old(q.Contents()) + Arriving(old(q.size), q.capacity, offers)
  {
    hide View, DeadSlotsAreZero, Accepted;
    for i := 0 to |offers|
      invariant q.Valid() && q.Contents() == old(q.Contents()) + Arriving(old(q.size), q.capacity, offers[..i])
    {
      assert offers[..i + 1][..i] == offers[..i];
      OfferOne(q, offers[i]);
    }
    assert offers[..|offers|] == offers;
  }
}
