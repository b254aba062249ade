/** First in, first out: whatever happens, what is pending and what is queued keep the admission
    order, and nothing in them is duplicated. */
module PipelineOrder {
  import opened Events
  import opened Sequences
  import opened RingQueue
  import opened Elastic
  import opened Retry
  import opened Pipeline
  import opened PipelineLifecycle

  /** The batch a goroutine holds, as it would be put back if the race on cancellation is lost. */
  function BatchOf(w: Work): seq<Event> {
    match w
    case Sending(_, f) => f.batch
    case Awaiting(_, f) => f.batch
    case Deciding(_, f, _) => f.batch
    case Waiting(_, f) => f.batch
    case Returned(_, batch, _) => batch
    case _ => []
  }

  /** What of it still has to be delivered. */
  function PendingOf(w: Work): seq<Event> {
    match w
    case Sending(_, f) => f.pending
    case Awaiting(_, f) => f.pending
    case Deciding(_, f, r) => if r.err && r.retry == [] then f.pending else r.retry
    case Waiting(_, f) => f.pending
    case Returned(_, _, outcome) => if outcome.GivenBack? then outcome.pending else []
    case _ => []
  }

  ghost predicate WorkOrdered(w: Work) {
    match w
    case Sending(_, f) => Subsequence(f.pending, f.batch) && (f.attempt == 0 ==> f.pending == f.batch)
    case Awaiting(_, f) => Subsequence(f.pending, f.batch)
    case Waiting(_, f) => Subsequence(f.pending, f.batch)
    case Deciding(_, f, r) => Subsequence(f.pending, f.batch) && Subsequence(r.retry, f.batch)
    case Returned(_, batch, outcome) => Subsequence(Pending(outcome), batch)
    case _ => true
  }

  /** Admission numbers increase along the line and none lies ahead of the log. */
  ghost predicate LineUp(line: seq<Event>, admitted: nat) {
    && Increasing(Tags(line))
    && forall i :: 0 <= i < |line| ==> line[i].tag < admitted
  }

  ghost predicate InOrder(m: Moment) {
    && WorkOrdered(m.work)
    && LineUp(BatchOf(m.work) + m.data.items, m.data.admitted)
  }

  lemma {:induction false} TagsSubsequence(xs: seq<Event>, ys: seq<Event>)
    requires Subsequence(xs, ys)
    ensures Subsequence(Tags(xs), Tags(ys))
    decreases |ys|
  {
    if xs != [] {
      assert Tags(ys)[1..] == Tags(ys[1..]);
      if xs[0] == ys[0] && Subsequence(xs[1..], ys[1..]) {
        TagsSubsequence(xs[1..], ys[1..]);
        assert Tags(xs)[1..] == Tags(xs[1..]);
      } else {
        TagsSubsequence(xs, ys[1..]);
      }
    }
  }

  lemma {:induction false} SubsequenceBeforeRest<T>(xs: seq<T>, ys: seq<T>, rest: seq<T>)
    requires Subsequence(xs, ys)
    ensures Subsequence(xs + rest, ys + rest)
    decreases |rest|
  {
    if rest == [] {
      assert xs + rest == xs && ys + rest == ys;
    } else {
      var front, last := rest[..|rest| - 1], rest[|rest| - 1];
      SubsequenceBeforeRest(xs, ys, front);
      SubsequenceAppend(xs + front, ys + front, last);
      assert xs + rest == (xs + front) + [last] && ys + rest == (ys + front) + [last];
    }
  }

  /** Leaving events out at the front leaves the rest of the line in order. */
  lemma LineShortens(back: seq<Event>, batch: seq<Event>, rest: seq<Event>, admitted: nat)
    requires Subsequence(back, batch) && LineUp(batch + rest, admitted)
    ensures LineUp(back + rest, admitted)
  {
    SubsequenceBeforeRest(back, batch, rest);
    TagsSubsequence(back + rest, batch + rest);
    SubsequenceOfIncreasing(Tags(back + rest), Tags(batch + rest));
    forall i | 0 <= i < |back + rest|
      ensures (back + rest)[i].tag < admitted
    {
      assert Tags(back + rest)[i] in Tags(batch + rest);
    }
  }

  lemma LineGrows(line: seq<Event>, admitted: nat, n: nat)
    requires LineUp(line, admitted)
    ensures LineUp(line + NewEvents(admitted, n), admitted + n)
  {
  }

  /** Identifiers do not matter for the order. */
  lemma LineRenamed(batch: seq<Event>, named: seq<Event>, rest: seq<Event>, admitted: nat)
    requires LineUp(batch + rest, admitted) && Tags(named) == Tags(batch)
    ensures LineUp(named + rest, admitted)
  {
    TagsConcat(batch, rest);
    TagsConcat(named, rest);
    forall i | 0 <= i < |named + rest|
      ensures (named + rest)[i].tag < admitted
    {
      assert (named + rest)[i].tag == Tags(named + rest)[i] == Tags(batch + rest)[i] == (batch + rest)[i].tag;
    }
  }

  lemma TakeBatchKeepsOrder(c: Config, m: Moment)
    requires InOrder(m) && m.work.Draining?
    ensures InOrder(AfterTakeBatch(c, m))
  {
    var items := m.data.items;
    var k := DrainCount(|items|, c.maxBatchSize);
    var batch, rest := items[..k], items[k..];
    assert [] + items == items;
    SubsequenceReflexive(batch);
    assert items == batch + rest;
  }

  lemma IdentifiersKeepOrder(f: Flight, count: nat, drawn: seq<string>, mode: Mode)
    requires |drawn| == |f.pending| && WorkOrdered(Sending(mode, f))
    requires f.attempt > 0 ==> AllIdentified(f.pending)
    ensures var g := WithIdentifiers(f, count, drawn);
            Tags(g.batch) == Tags(f.batch) && Subsequence(g.pending, g.batch)
  {
    var g := WithIdentifiers(f, count, drawn);
    if f.attempt == 0 {
      SubsequenceReflexive(g.pending);
    } else {
      IdentifiedStay(f.pending, count, drawn);
    }
  }

  lemma RequestKeepsOrder(m: Moment, drawn: seq<string>)
    requires InOrder(m) && m.work.Sending? && |drawn| == |m.work.flight.pending|
    requires m.work.flight.attempt > 0 ==> AllIdentified(m.work.flight.pending)
    ensures InOrder(AfterRequest(m, drawn))
  {
    var f := m.work.flight;
    IdentifiersKeepOrder(f, |f.pending|, drawn, m.work.mode);
    LineRenamed(f.batch, WithIdentifiers(f, |f.pending|, drawn).batch, m.data.items, m.data.admitted);
  }

  lemma FailToBuildKeepsOrder(m: Moment, drawn: seq<string>, identified: nat)
    requires InOrder(m) && m.work.Sending? && |drawn| == |m.work.flight.pending|
    requires m.work.flight.attempt > 0 ==> AllIdentified(m.work.flight.pending)
    ensures InOrder(AfterFailToBuild(m, drawn, identified))
  {
    var f := m.work.flight;
    IdentifiersKeepOrder(f, identified, drawn, m.work.mode);
    LineRenamed(f.batch, WithIdentifiers(f, identified, drawn).batch, m.data.items, m.data.admitted);
  }

  lemma RespondKeepsOrder(m: Moment, reply: Reply)
    requires InOrder(m) && m.work.Awaiting?
    ensures InOrder(AfterRespond(m, reply))
  {
    var f := m.work.flight;
    ClassifyPartitions(f.pending, reply);
    SubsequenceTransitive(Classify(f.pending, reply).retry, f.pending, f.batch);
  }

  lemma ConcludeKeepsOrder(m: Moment, who: Who, cancelled: bool)
    requires InOrder(m) && m.work.Returned?
    ensures InOrder(AfterConclude(m, who, cancelled))
  {
    var batch, outcome, items := m.work.batch, m.work.outcome, m.data.items;
    var m' := AfterConclude(m, who, cancelled);
    var back := if outcome.Finished? || !cancelled then [] else if outcome.GivenBack? then outcome.pending else batch;
    SubsequenceReflexive(batch);
    LineShortens(back, batch, items, m.data.admitted);
    assert BatchOf(m'.work) + m'.data.items == m'.data.items;
    assert m'.data.items == back + items;
  }

  lemma ActKeepsOrder(c: Config, m: Moment, who: Who, cancelled: bool, act: Act)
    requires InOrder(m) && ActEnabled(m, cancelled, act)
    requires m.work.Sending? && m.work.flight.attempt > 0 ==> AllIdentified(m.work.flight.pending)
    ensures InOrder(AfterAct(c, m, who, cancelled, act))
  {
    match act
    case TakeBatch => TakeBatchKeepsOrder(c, m);
    case Request(drawn) => RequestKeepsOrder(m, drawn);
    case FailToBuild(drawn, identified) => FailToBuildKeepsOrder(m, drawn, identified);
    case Respond(reply) => RespondKeepsOrder(m, reply);
    case Conclude => ConcludeKeepsOrder(m, who, cancelled);
    case _ =>
  }

  lemma ProduceKeepsOrder(m: Moment, policy: DropPolicy, n: nat)
    requires InOrder(m)
    ensures InOrder(m.(data := AfterProduce(m.data, policy, n)))
  {
    var d, batch := m.data, BatchOf(m.work);
    if Appends(policy, |d.items|, d.capacity, n) {
      var k := Accepted(policy, |d.items|, d.capacity, n);
      LineGrows(batch + d.items, d.admitted, k);
      assert (batch + d.items) + NewEvents(d.admitted, k) == batch + (d.items + NewEvents(d.admitted, k));
    }
  }

  /** What a goroutine still has to deliver, followed by the queue. */
  function Line(m: Moment): seq<Event> {
    PendingOf(m.work) + m.data.items
  }

  lemma LineInOrder(m: Moment)
    requires InOrder(m)
    ensures LineUp(Line(m), m.data.admitted)
  {
    var w := m.work;
    if EmptyHanded(w) || (w.Returned? && !w.outcome.GivenBack?) || (w.Deciding? && !w.result.err && w.result.retry == []) {
      assert Subsequence([], BatchOf(w));
    }
    LineShortens(PendingOf(w), BatchOf(w), m.data.items, m.data.admitted);
  }

  /** Read against the admission log itself: whatever `log` holds at the admission numbers, the
      events in flight and in the queue are a subsequence of it. */
  lemma LineIsSubsequenceOfLog<T>(m: Moment, log: seq<T>)
    requires InOrder(m) && |log| == m.data.admitted
    ensures Increasing(Tags(Line(m)))
    ensures forall i :: 0 <= i < |Line(m)| ==> Tags(Line(m))[i] < |log|
    ensures Subsequence(Pick(log, Tags(Line(m))), log)
  {
    LineInOrder(m);
    IncreasingPicksSubsequence(log, Tags(Line(m)));
  }
}
