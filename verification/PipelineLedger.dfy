/** Conservation: every admitted event is somewhere, exactly as often as it was admitted or put back. */
module PipelineLedger {
  import opened Events
  import opened RingQueue
  import opened Elastic
  import opened Retry
  import opened Pipeline
  import opened PipelineOrder

  /** The admission log as a multiset of admission numbers. */
  ghost function Log(admitted: nat): (log: multiset<nat>)
    ensures forall t: nat :: log[t] == if t < admitted then 1 else 0
  {
    if admitted == 0 then multiset{} else Log(admitted - 1) + multiset{admitted - 1}
  }

  ghost function Settled(l: Ledger): multiset<nat> {
    l.indexed + l.failed + l.exhausted + l.discarded
  }

  /** Admitted or put back after settling, on one side; settled, in flight or queued, on the other. */
  ghost predicate Balance(log: multiset<nat>, requeued: multiset<nat>, settled: multiset<nat>,
                          pending: multiset<nat>, queued: multiset<nat>)
  {
    forall t: nat :: log[t] + requeued[t] == settled[t] + pending[t] + queued[t]
  }

  lemma BalanceIsEquality(log: multiset<nat>, requeued: multiset<nat>, settled: multiset<nat>,
                          pending: multiset<nat>, queued: multiset<nat>)
    requires Balance(log, requeued, settled, pending, queued)
    ensures log + requeued == settled + pending + queued
  {
    forall t: nat
      ensures (log + requeued)[t] == (settled + pending + queued)[t]
    {
    }
  }

  /** What the accounts are about: the log, the ledger, the events in flight and the queue. */
  datatype Books = Books(admitted: nat, ledger: Ledger, pending: seq<Event>, items: seq<Event>)

  function BooksOf(m: Moment): Books {
    Books(m.data.admitted, m.data.ledger, PendingOf(m.work), m.data.items)
  }

  ghost predicate Balanced(b: Books) {
    && Balance(Log(b.admitted), b.ledger.requeued, Settled(b.ledger), multiset(Tags(b.pending)), multiset(Tags(b.items)))
    && CountersTrue(b.ledger)
  }

  /** The ways the accounts can move. */
  datatype Move =
    | Stays
    | Renames(named: seq<Event>)
    | Grows(n: nat)
    | Takes(k: nat)
    | Counts(reply: Reply)
    | Settles(outcome: Outcome)
    | GivesBack
    | Requeues(batch: seq<Event>)

  ghost predicate Legal(b: Books, move: Move) {
    match move
    case Renames(named) => Tags(named) == Tags(b.pending)
    case Takes(k) => b.pending == [] && k <= |b.items|
    case Settles(outcome) => (outcome.Exhausted? || outcome.Discarded?) && outcome.pending == b.pending
    case Requeues(_) => b.pending == []
    case _ => true
  }

  function Post(b: Books, move: Move): Books
    requires move.Takes? ==> move.k <= |b.items|
  {
    match move
    case Stays => b
    case Renames(named) => b.(pending := named)
    case Grows(n) => b.(admitted := b.admitted + n, items := b.items + NewEvents(b.admitted, n))
    case Takes(k) => b.(pending := b.items[..k], items := b.items[k..])
    case Counts(reply) =>
      b.(ledger := Count(b.ledger, Classify(b.pending, reply)), pending := Try(b.pending, reply).Left())
    case Settles(outcome) => b.(ledger := CountOutcome(b.ledger, outcome), pending := [])
    case GivesBack => b.(pending := [], items := b.pending + b.items)
    case Requeues(batch) =>
      b.(ledger := b.ledger.(requeued := b.ledger.requeued + multiset(Tags(batch))), items := batch + b.items)
  }

  /** What the goroutine holds about a response is what some response says, and it gives events back
      only when it has seen its context cancelled. */
  ghost predicate Truthful(w: Work, cancelled: bool) {
    && (w.Deciding? ==> w.result.err ==> w.result.retry == [] || w.result.retry == w.flight.pending)
    && (w.Returned? && w.outcome.GivenBack? ==> cancelled)
  }

  lemma {:induction false} SameTags(xs: seq<Event>, ys: seq<Event>)
    requires multiset(xs) == multiset(ys)
    ensures multiset(Tags(xs)) == multiset(Tags(ys))
    decreases |xs|
  {
    if xs == [] {
      assert |multiset(ys)| == 0;
    } else {
      TakeHead(xs);
      assert xs[0] in multiset(ys);
      var others := TakeOut(ys, xs[0]);
      Cancel(multiset(xs), multiset(xs[1..]), multiset(others), xs[0]);
      SameTags(xs[1..], others);
    }
  }

  lemma Cancel(whole: multiset<Event>, a: multiset<Event>, b: multiset<Event>, e: Event)
    requires whole == a + multiset{e} && whole == b + multiset{e}
    ensures a == b
  {
    assert a == whole - multiset{e} && b == whole - multiset{e};
  }

  lemma TakeHead(xs: seq<Event>)
    requires xs != []
    ensures multiset(xs) == multiset(xs[1..]) + multiset{xs[0]}
    ensures multiset(Tags(xs)) == multiset(Tags(xs[1..])) + multiset{xs[0].tag}
  {
    assert xs == [xs[0]] + xs[1..];
    assert Tags(xs) == [xs[0].tag] + Tags(xs[1..]);
  }

  lemma TakeOut(ys: seq<Event>, e: Event) returns (others: seq<Event>)
    requires e in multiset(ys)
    ensures multiset(ys) == multiset(others) + multiset{e}
    ensures multiset(Tags(ys)) == multiset(Tags(others)) + multiset{e.tag}
  {
    var i :| 0 <= i < |ys| && ys[i] == e;
    others := ys[..i] + ys[i + 1..];
    assert ys == ys[..i] + [e] + ys[i + 1..];
    var t := Tags(ys);
    assert t == t[..i] + [e.tag] + t[i + 1..];
    assert Tags(others) == t[..i] + t[i + 1..];
  }

  /** A partition of events is a partition of admission numbers. */
  lemma TagsPartition(whole: seq<Event>, a: seq<Event>, b: seq<Event>, c: seq<Event>)
    requires multiset(whole) == multiset(a) + multiset(b) + multiset(c)
    ensures multiset(Tags(whole)) == multiset(Tags(a)) + multiset(Tags(b)) + multiset(Tags(c))
  {
    assert multiset(a + b + c) == multiset(whole);
    SameTags(whole, a + b + c);
    TagsConcat(a + b, c);
    TagsConcat(a, b);
  }

  lemma TagsSplit(a: seq<Event>, b: seq<Event>)
    ensures multiset(Tags(a + b)) == multiset(Tags(a)) + multiset(Tags(b))
  {
    TagsConcat(a, b);
  }

  lemma LogStep(admitted: nat)
    ensures Log(admitted + 1) == Log(admitted) + multiset{admitted}
  {
  }

  lemma NewEventsStep(first: nat, n: nat)
    ensures NewEvents(first, n + 1) == NewEvents(first, n) + [Event(first + n, "")]
    ensures var next: nat := first + n;
            multiset(Tags(NewEvents(first, n + 1))) == multiset(Tags(NewEvents(first, n))) + multiset{next}
  {
    var last := [Event(first + n, "")];
    assert NewEvents(first, n + 1) == NewEvents(first, n) + last;
    TagsSplit(NewEvents(first, n), last);
    assert Tags(last) == [first + n];
  }

  lemma {:induction false} LogGrows(admitted: nat, n: nat)
    ensures Log(admitted + n) == Log(admitted) + multiset(Tags(NewEvents(admitted, n)))
  {
    hide Log, NewEvents, Tags;
    if n == 0 {
      assert NewEvents(admitted, 0) == [] && Tags([]) == [];
    } else {
      LogGrows(admitted, n - 1);
      NewEventsStep(admitted, n - 1);
      LogStep(admitted + n - 1);
    }
  }

  lemma SizeOfTags(events: seq<Event>)
    ensures |multiset(Tags(events))| == |events|
  {
  }

  lemma CountShifts(log: multiset<nat>, l: Ledger, result: BulkResult, pending: multiset<nat>, queued: multiset<nat>, left: multiset<nat>)
    requires Balance(log, l.requeued, Settled(l), pending, queued)
    requires pending == multiset(Tags(result.indexed)) + multiset(Tags(result.failed)) + left
    ensures Balance(log, l.requeued, Settled(Count(l, result)), left, queued)
  {
  }

  /** The two counters are the sizes of what they count. */
  ghost predicate CountersTrue(l: Ledger) {
    && l.bulkIndexed == |l.indexed|
    && l.bulkFailed == |l.failed| + |l.exhausted|
  }

  lemma CountKeepsCounters(l: Ledger, result: BulkResult)
    requires CountersTrue(l)
    ensures CountersTrue(Count(l, result))
  {
    SizeOfTags(result.indexed);
    SizeOfTags(result.failed);
  }

  lemma TryPartitionsTags(t: Try)
    ensures multiset(Tags(t.pending)) ==
      multiset(Tags(t.Result().indexed)) + multiset(Tags(t.Result().failed)) + multiset(Tags(t.Left()))
  {
    TrySettles(t);
    TagsPartition(t.pending, t.Result().indexed, t.Result().failed, t.Left());
  }

  lemma CountingBalances(b: Books, reply: Reply)
    requires Balanced(b)
    ensures Balanced(Post(b, Counts(reply)))
  {
    hide Log, Classify, Settled, Tags;
    var t := Try(b.pending, reply);
    TryPartitionsTags(t);
    CountKeepsCounters(b.ledger, t.Result());
    CountShifts(Log(b.admitted), b.ledger, t.Result(), multiset(Tags(b.pending)), multiset(Tags(b.items)), multiset(Tags(t.Left())));
  }

  lemma Absorb(log: multiset<nat>, requeued: multiset<nat>, settled: multiset<nat>, pending: multiset<nat>,
               queued: multiset<nat>, after: multiset<nat>)
    requires Balance(log, requeued, settled, pending, queued)
    requires forall t: nat :: after[t] == settled[t] + pending[t]
    ensures Balance(log, requeued, after, multiset{}, queued)
  {
  }

  lemma OutcomeKeepsCounters(l: Ledger, outcome: Outcome)
    requires CountersTrue(l)
    ensures CountersTrue(CountOutcome(l, outcome))
  {
    if outcome.Exhausted? {
      SizeOfTags(outcome.pending);
    }
  }

  lemma OutcomeSettles(l: Ledger, outcome: Outcome)
    requires outcome.Exhausted? || outcome.Discarded?
    ensures forall t: nat :: Settled(CountOutcome(l, outcome))[t] == Settled(l)[t] + multiset(Tags(outcome.pending))[t]
  {
  }

  lemma SettlingBalances(b: Books, outcome: Outcome)
    requires Balanced(b) && Legal(b, Settles(outcome))
    ensures Balanced(Post(b, Settles(outcome)))
  {
    var after := CountOutcome(b.ledger, outcome);
    OutcomeKeepsCounters(b.ledger, outcome);
    OutcomeSettles(b.ledger, outcome);
    Absorb(Log(b.admitted), b.ledger.requeued, Settled(b.ledger), multiset(Tags(b.pending)), multiset(Tags(b.items)), Settled(after));
    assert Tags([]) == [];
  }

  lemma BothGrow(log: multiset<nat>, requeued: multiset<nat>, settled: multiset<nat>, pending: multiset<nat>,
                 queued: multiset<nat>, more: multiset<nat>)
    requires Balance(log, requeued, settled, pending, queued)
    ensures Balance(log + more, requeued, settled, pending, queued + more)
  {
  }

  lemma GrowingBalances(b: Books, n: nat)
    requires Balanced(b)
    ensures Balanced(Post(b, Grows(n)))
  {
    hide Log, Settled;
    LogGrows(b.admitted, n);
    TagsSplit(b.items, NewEvents(b.admitted, n));
    BothGrow(Log(b.admitted), b.ledger.requeued, Settled(b.ledger), multiset(Tags(b.pending)), multiset(Tags(b.items)),
             multiset(Tags(NewEvents(b.admitted, n))));
  }

  lemma TakingBalances(b: Books, k: nat)
    requires Balanced(b) && Legal(b, Takes(k))
    ensures Balanced(Post(b, Takes(k)))
  {
    TagsSplit(b.items[..k], b.items[k..]);
    assert b.items[..k] + b.items[k..] == b.items;
  }

  lemma RequeueingBalances(b: Books, batch: seq<Event>)
    requires Balanced(b) && Legal(b, Requeues(batch))
    ensures Balanced(Post(b, Requeues(batch)))
  {
    TagsSplit(batch, b.items);
  }

  lemma GivingBackBalances(b: Books)
    requires Balanced(b)
    ensures Balanced(Post(b, GivesBack))
  {
    TagsSplit(b.pending, b.items);
  }

  /** No move creates or loses an event. */
  lemma MoveBalances(b: Books, move: Move)
    requires Balanced(b) && Legal(b, move)
    ensures Balanced(Post(b, move))
  {
    match move
    case Grows(n) => GrowingBalances(b, n);
    case Takes(k) => TakingBalances(b, k);
    case Counts(reply) => CountingBalances(b, reply);
    case Settles(outcome) => SettlingBalances(b, outcome);
    case GivesBack => GivingBackBalances(b);
    case Requeues(batch) => RequeueingBalances(b, batch);
    case _ =>
  }

  lemma TakeBatchMoves(c: Config, m: Moment)
    requires m.work.Draining?
    ensures var move := Takes(DrainCount(|m.data.items|, c.maxBatchSize));
            Legal(BooksOf(m), move) && BooksOf(AfterTakeBatch(c, m)) == Post(BooksOf(m), move)
  {
  }

  /** Every act is one of the moves. */
  lemma ActMoves(c: Config, m: Moment, who: Who, cancelled: bool, act: Act) returns (move: Move)
    requires Truthful(m.work, cancelled) && ActEnabled(m, cancelled, act)
    ensures Legal(BooksOf(m), move)
    ensures BooksOf(AfterAct(c, m, who, cancelled, act)) == Post(BooksOf(m), move)
  {
    hide AfterTakeBatch, AfterDecision, AfterConclude, AfterRequest, AfterFailToBuild, AfterRespond, Legal, Post, Classify, FreshDraw, Honest;
    match act
    case TakeBatch =>
      move := Takes(DrainCount(|m.data.items|, c.maxBatchSize));
      TakeBatchMoves(c, m);
    case Request(drawn) => move := RequestMoves(m, drawn);
    case FailToBuild(drawn, identified) => move := FailToBuildMoves(m, drawn, identified);
    case Respond(reply) =>
      move := Counts(reply);
      RespondMoves(m, reply);
    case Decision => move := DecisionMoves(c, m, cancelled);
    case Conclude => move := ConcludeMoves(m, who, cancelled);
    case _ =>
      move := Stays;
      StayingMoves(BooksOf(m));
  }

  lemma StayingMoves(b: Books)
    ensures Legal(b, Stays) && Post(b, Stays) == b
  {
  }

  lemma RequestMoves(m: Moment, drawn: seq<string>) returns (move: Move)
    requires m.work.Sending? && |drawn| == |m.work.flight.pending|
    ensures Legal(BooksOf(m), move) && BooksOf(AfterRequest(m, drawn)) == Post(BooksOf(m), move)
  {
    hide Learn;
    move := Renames(AfterRequest(m, drawn).work.flight.pending);
  }

  lemma FailToBuildMoves(m: Moment, drawn: seq<string>, identified: nat) returns (move: Move)
    requires m.work.Sending? && |drawn| == |m.work.flight.pending|
    ensures Legal(BooksOf(m), move) && BooksOf(AfterFailToBuild(m, drawn, identified)) == Post(BooksOf(m), move)
  {
    hide Learn;
    move := Renames(AfterFailToBuild(m, drawn, identified).work.flight.pending);
  }

  lemma RespondMoves(m: Moment, reply: Reply)
    requires m.work.Awaiting?
    ensures Legal(BooksOf(m), Counts(reply)) && BooksOf(AfterRespond(m, reply)) == Post(BooksOf(m), Counts(reply))
  {
    hide Classify;
  }

  lemma DecisionMoves(c: Config, m: Moment, cancelled: bool) returns (move: Move)
    requires Truthful(m.work, cancelled) && m.work.Deciding?
    ensures Legal(BooksOf(m), move)
    ensures BooksOf(AfterDecision(c, m, cancelled)) == Post(BooksOf(m), move)
  {
    var w := AfterDecision(c, m, cancelled).work;
    move := if w.Returned? && (w.outcome.Exhausted? || w.outcome.Discarded?) then Settles(w.outcome) else Stays;
  }

  lemma ConcludeMoves(m: Moment, who: Who, cancelled: bool) returns (move: Move)
    requires Truthful(m.work, cancelled) && m.work.Returned?
    ensures Legal(BooksOf(m), move)
    ensures BooksOf(AfterConclude(m, who, cancelled)) == Post(BooksOf(m), move)
  {
    var outcome := m.work.outcome;
    move := if outcome.Finished? || !cancelled then Stays
            else if outcome.GivenBack? then GivesBack
            else Requeues(m.work.batch);
    assert m.data.ledger.requeued + multiset{} == m.data.ledger.requeued;
  }

  lemma ActKeepsTruth(c: Config, m: Moment, who: Who, cancelled: bool, act: Act)
    requires Truthful(m.work, cancelled) && ActEnabled(m, cancelled, act)
    ensures Truthful(AfterAct(c, m, who, cancelled, act).work, cancelled)
  {
    if act.Respond? {
      ClassifyPartitions(m.work.flight.pending, act.reply);
    }
  }

  /** No admitted event is ever missing; and unless something was put back after settling, each one
      is in exactly one place, once. */
  lemma NothingLost(m: Moment, t: nat)
    requires Balanced(BooksOf(m)) && t < m.data.admitted
    ensures t in Settled(m.data.ledger) || t in Tags(Line(m))
    ensures m.data.ledger.requeued == multiset{} ==>
      Settled(m.data.ledger)[t] + multiset(Tags(Line(m)))[t] == 1
  {
    var l, pending, items := m.data.ledger, PendingOf(m.work), m.data.items;
    TagsSplit(pending, items);
    assert (Log(m.data.admitted) + l.requeued)[t] ==
             Settled(l)[t] + multiset(Tags(pending))[t] + multiset(Tags(items))[t];
    assert t in Tags(Line(m)) <==> multiset(Tags(Line(m)))[t] > 0;
  }
}
