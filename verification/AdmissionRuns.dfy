/** Handlers that admit batches at the same time. The queue operation of a handler is one step under
    the queue's lock; its counters are raised afterwards, one by one, while others go on. */
module AdmissionRuns {
  import opened Events
  import opened RingQueue

  /** A handler between its queue operation and its last counter. */
  datatype Handler = Handler(kept: nat, lost: nat, lostCounted: bool)

  /** `log` is everything admitted, `refused` the events of batches turned away for want of room,
      `offered` those of all batches that got as far as the queue. */
  datatype Counts = Counts(items: seq<Event>, capacity: nat, log: seq<Event>, handlers: seq<Handler>,
                           accepted: nat, dropped: nat, refused: nat, offered: nat)

  datatype Move =
    | Offer(policy: DropPolicy, batch: seq<Event>)
    | CountDropped(i: nat)
    | CountAccepted(i: nat)
    | Deliver(items: seq<Event>, capacity: nat)  // the batcher drains or restores

  predicate Possible(s: Counts, move: Move) {
    match move
    case Offer(_, _) => true
    case CountDropped(i) => i < |s.handlers| && !s.handlers[i].lostCounted
    case CountAccepted(i) => i < |s.handlers| && s.handlers[i].lostCounted
    case Deliver(_, _) => true
  }

  function Next(s: Counts, move: Move): Counts
    requires Possible(s, move)
  {
    match move
    case Offer(policy, batch) =>
      var kept := Accepted(policy, |s.items|, s.capacity, |batch|);
      if policy.Reject? && !Fits(|s.items|, s.capacity, |batch|) then
        s.(refused := s.refused + |batch|, offered := s.offered + |batch|)
      else
        s.(items := s.items + batch[..kept], log := s.log + batch[..kept], offered := s.offered + |batch|,
           handlers := s.handlers + [Handler(kept, |batch| - kept, policy.Reject?)])
    case CountDropped(i) =>
      s.(dropped := s.dropped + s.handlers[i].lost, handlers := s.handlers[i := s.handlers[i].(lostCounted := true)])
    case CountAccepted(i) =>
      s.(accepted := s.accepted + s.handlers[i].kept, handlers := s.handlers[..i] + s.handlers[i + 1..])
    case Deliver(items, capacity) => s.(items := items, capacity := capacity)
  }

  predicate IsRun(start: nat, moves: seq<Move>)
    decreases |moves|, 0
  {
    moves == [] || (IsRun(start, moves[..|moves| - 1]) && Possible(CountsAfter(start, moves[..|moves| - 1]), moves[|moves| - 1]))
  }

  function CountsAfter(start: nat, moves: seq<Move>): Counts
    requires IsRun(start, moves)
    decreases |moves|, 1
  {
    if moves == [] then Counts([], start, [], [], 0, 0, 0, 0)
    else Next(CountsAfter(start, moves[..|moves| - 1]), moves[|moves| - 1])
  }

  /** The events of all batches offered in a run. */
  function TotalOffered(moves: seq<Move>): nat {
    if moves == [] then 0
    else
      var last := moves[|moves| - 1];
      TotalOffered(moves[..|moves| - 1]) + if last.Offer? then |last.batch| else 0
  }

  function KeptBy(handlers: seq<Handler>): nat {
    if handlers == [] then 0 else handlers[0].kept + KeptBy(handlers[1..])
  }

  /** What handlers lost but have not counted yet. */
  function LostBy(handlers: seq<Handler>): nat {
    if handlers == [] then 0 else (if handlers[0].lostCounted then 0 else handlers[0].lost) + LostBy(handlers[1..])
  }

  lemma {:induction false} SumsOfConcat(a: seq<Handler>, b: seq<Handler>)
    ensures KeptBy(a + b) == KeptBy(a) + KeptBy(b) && LostBy(a + b) == LostBy(a) + LostBy(b)
  {
    if a == [] {
      assert a + b == b;
    } else {
      SumsOfConcat(a[1..], b);
      assert (a + b)[1..] == a[1..] + b;
    }
  }

  /** The sums with the i-th handler taken out, and with another in its place. */
  lemma SumsWithout(handlers: seq<Handler>, i: nat, h: Handler)
    requires i < |handlers|
    ensures var without := handlers[..i] + handlers[i + 1..];
            && KeptBy(handlers) == KeptBy(without) + handlers[i].kept
            && LostBy(handlers) == LostBy(without) + LostBy([handlers[i]])
            && KeptBy(handlers[i := h]) == KeptBy(without) + h.kept
            && LostBy(handlers[i := h]) == LostBy(without) + LostBy([h])
  {
    var front, back := handlers[..i], handlers[i + 1..];
    SumsOfConcat(front, back);
    SumsOfConcat(front, [handlers[i]] + back);
    SumsOfConcat(front, [h] + back);
    SumsOfConcat([handlers[i]], back);
    SumsOfConcat([h], back);
    assert handlers == front + ([handlers[i]] + back) && handlers[i := h] == front + ([h] + back);
  }

  ghost predicate Counted(s: Counts) {
    && s.accepted + KeptBy(s.handlers) == |s.log|
    && s.dropped + LostBy(s.handlers) + s.refused + |s.log| == s.offered
  }

  lemma OfferKeepsCounted(s: Counts, policy: DropPolicy, batch: seq<Event>)
    requires Counted(s)
    ensures Counted(Next(s, Offer(policy, batch)))
  {
    var kept := Accepted(policy, |s.items|, s.capacity, |batch|);
    SumsOfConcat(s.handlers, [Handler(kept, |batch| - kept, policy.Reject?)]);
  }

  lemma MoveKeepsCounted(s: Counts, move: Move)
    requires Counted(s) && Possible(s, move)
    ensures Counted(Next(s, move))
  {
    match move
    case Offer(policy, batch) => OfferKeepsCounted(s, policy, batch);
    case CountDropped(i) => SumsWithout(s.handlers, i, s.handlers[i].(lostCounted := true));
    case CountAccepted(i) => SumsWithout(s.handlers, i, s.handlers[i]);
    case Deliver(_, _) =>
  }

  /** However handlers interleave with each other and with deliveries: the accepted counter and what
      handlers at work have yet to add to it make up the admission log, and every event offered was
      admitted, dropped or refused. Once no handler is at work the counters tell it all. */
  lemma {:induction false} CountedOverEveryRun(start: nat, moves: seq<Move>)
    requires IsRun(start, moves)
    ensures var s := CountsAfter(start, moves);
            && Counted(s)
            && s.offered == TotalOffered(moves)
            && (s.handlers == [] ==> s.accepted == |s.log| && s.accepted + s.dropped + s.refused == s.offered)
  {
    if moves != [] {
      var n := |moves| - 1;
      CountedOverEveryRun(start, moves[..n]);
      MoveKeepsCounted(CountsAfter(start, moves[..n]), moves[n]);
    }
  }
}
