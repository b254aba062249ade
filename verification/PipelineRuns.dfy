/** The results: what holds after every run of the collector, however its steps interleave. */
module PipelineRuns {
  import opened Events
  import opened Sequences
  import opened RingQueue
  import opened Pipeline
  import opened PipelineLifecycle
  import opened PipelineOrder
  import opened PipelineLedger
  import opened PipelineDocuments
  import opened PipelineWakeup

  ghost predicate AllTruthful(s: State) {
    && (s.runner.Working? ==> Truthful(s.runner.work, s.runCancelled))
    && (s.shutdown.Final? ==> Truthful(s.shutdown.work, s.drainCancelled))
  }

  ghost predicate Flow(m: Moment) {
    InOrder(m) && Balanced(BooksOf(m)) && Documented(m)
  }

  ghost predicate Inv(c: Config, s: State) {
    && Ordered(s)
    && Bounded(c, s)
    && NoLostWakeup(c, s)
    && AllTruthful(s)
    && Flow(Active(s))
  }

  lemma InitInv(c: Config)
    requires IsConfig(c)
    ensures Inv(c, Init(c))
  {
    assert Log(0) == multiset{};
    assert Tags([]) == [];
  }

  lemma ActKeepsFlow(c: Config, m: Moment, who: Who, cancelled: bool, act: Act)
    requires Flow(m) && Truthful(m.work, cancelled) && ActEnabled(m, cancelled, act)
    ensures Flow(AfterAct(c, m, who, cancelled, act))
  {
    ActKeepsOrder(c, m, who, cancelled, act);
    ActKeepsDocumented(c, m, who, cancelled, act);
    var move := ActMoves(c, m, who, cancelled, act);
    MoveBalances(BooksOf(m), move);
  }

  lemma ProduceKeepsFlow(m: Moment, policy: DropPolicy, n: nat)
    requires Flow(m)
    ensures Flow(m.(data := AfterProduce(m.data, policy, n)))
  {
    ProduceKeepsOrder(m, policy, n);
    ProduceDocumented(m, policy, n);
    ProduceBalances(m, policy, n);
  }

  lemma ProduceBalances(m: Moment, policy: DropPolicy, n: nat)
    requires Balanced(BooksOf(m))
    ensures Balanced(BooksOf(m.(data := AfterProduce(m.data, policy, n))))
  {
    var d := m.data;
    if Appends(policy, |d.items|, d.capacity, n) {
      var k := Accepted(policy, |d.items|, d.capacity, n);
      assert BooksOf(m.(data := AfterProduce(d, policy, n))) == Post(BooksOf(m), Grows(k));
      MoveBalances(BooksOf(m), Grows(k));
    }
  }

  /** Whether a goroutine without a batch checks, starts or sleeps makes no difference. */
  lemma IdleKeepsFlow(m: Moment, m': Moment)
    requires Flow(m) && m'.data == m.data && EmptyHanded(m.work) && EmptyHanded(m'.work)
    ensures Flow(m')
  {
    assert BooksOf(m') == BooksOf(m) && BatchOf(m'.work) == BatchOf(m.work) == [];
  }

  lemma TokenKeepsFlow(m: Moment, token: bool, notifying: bool)
    requires Flow(m)
    ensures Flow(m.(data := m.data.(token := token, notifying := notifying)))
  {
  }

  lemma FlowKept(c: Config, s: State, step: Step)
    requires Ordered(s) && AllTruthful(s) && Flow(Active(s)) && Enabled(c, s, step)
    ensures Flow(Active(After(c, s, step)))
  {
    var m, m' := Active(s), Active(After(c, s, step));
    StepExplained(c, s, step);
    match step
    case Consume(who, act) => ActKeepsFlow(c, m, who, Cancelled(s, who), act);
    case Produce(policy, n) => ProduceKeepsFlow(m, policy, n);
    case Notify => TokenKeepsFlow(m, true, false);
    case ReceiveToken => TokenKeepsFlow(m, false, m.data.notifying);
    case ServerApplies(e) => ApplyKeepsFlow(m, e);
    case _ => if m' != m { IdleKeepsFlow(m, m'); }
  }

  lemma ApplyKeepsFlow(m: Moment, e: Event)
    requires Flow(m) && e in m.data.cloud.sent && e.id !in m.data.cloud.store
    ensures Flow(m.(data := m.data.(cloud := m.data.cloud.(store := m.data.cloud.store[e.id := e.tag]))))
  {
    ApplyDocumented(m, e);
  }

  lemma TruthKept(c: Config, s: State, step: Step)
    requires AllTruthful(s) && Ordered(s) && Enabled(c, s, step)
    ensures AllTruthful(After(c, s, step))
  {
    match step
    case Consume(who, act) => ActKeepsTruth(c, MomentOf(s, who), who, Cancelled(s, who), act);
    case _ =>
  }

  lemma InvKept(c: Config, s: State, step: Step)
    requires IsConfig(c) && Inv(c, s) && Enabled(c, s, step)
    ensures Inv(c, After(c, s, step))
  {
    OrderedKept(c, s, step);
    BoundedKept(c, s, step);
    WakeupKept(c, s, step);
    TruthKept(c, s, step);
    FlowKept(c, s, step);
  }

  lemma {:induction false} InvOverEveryRun(c: Config, steps: seq<Step>)
    requires IsConfig(c) && IsRun(c, steps)
    ensures Inv(c, StateAfter(c, steps))
  {
    if steps == [] {
      InitInv(c);
    } else {
      var n := |steps| - 1;
      InvOverEveryRun(c, steps[..n]);
      InvKept(c, StateAfter(c, steps[..n]), steps[n]);
    }
  }

  /** Order: after every run, the events still to be delivered followed by the queue are a subsequence
      of the admission log, so no restore reorders or duplicates anything. */
  lemma OrderOverEveryRun<T>(c: Config, steps: seq<Step>, log: seq<T>)
    requires IsConfig(c) && IsRun(c, steps)
    requires |log| == StateAfter(c, steps).data.admitted
    ensures var line := Tags(Line(Active(StateAfter(c, steps))));
            && Increasing(line)
            && (forall i :: 0 <= i < |line| ==> line[i] < |log|)
            && Subsequence(Pick(log, line), log)
  {
    InvOverEveryRun(c, steps);
    LineIsSubsequenceOfLog(Active(StateAfter(c, steps)), log);
  }

  /** Conservation: the log, together with what was put back after settling, is exactly what was
      indexed, refused, given up after the last retry, discarded, in flight or queued. */
  lemma ConservationOverEveryRun(c: Config, steps: seq<Step>)
    requires IsConfig(c) && IsRun(c, steps)
    ensures var s := StateAfter(c, steps);
            var l := s.data.ledger;
            var waiting := multiset(Tags(Line(Active(s))));
            && Log(s.data.admitted) + l.requeued == l.indexed + l.failed + l.exhausted + l.discarded + waiting
            && l.bulkIndexed == |l.indexed|
            && l.bulkFailed == |l.failed| + |l.exhausted|
  {
    InvOverEveryRun(c, steps);
    var m := Active(StateAfter(c, steps));
    LineBalance(m);
  }

  lemma LineBalance(m: Moment)
    requires Balanced(BooksOf(m))
    ensures var l := m.data.ledger;
            Log(m.data.admitted) + l.requeued ==
              l.indexed + l.failed + l.exhausted + l.discarded + multiset(Tags(Line(m)))
    ensures CountersTrue(m.data.ledger)
  {
    var l, pending, queued := m.data.ledger, multiset(Tags(PendingOf(m.work))), multiset(Tags(m.data.items));
    BalanceIsEquality(Log(m.data.admitted), l.requeued, Settled(l), pending, queued);
    TagsSplit(PendingOf(m.work), m.data.items);
    assert Settled(l) + pending + queued == Settled(l) + (pending + queued);
  }

  /** The race on cancellation: flush finds its context cancelled although the retry loop, which had
      looked just before, had already given up on the batch. */
  ghost predicate LosesRace(s: State, step: Step) {
    && step.Consume? && step.act.Conclude?
    && IsWorking(s, step.who) && Cancelled(s, step.who)
    && var w := MomentOf(s, step.who).work;
       w.Returned? && (w.outcome.Exhausted? || w.outcome.Discarded?) && w.batch != []
  }

  /** No step of the run is lost to it. */
  ghost predicate RaceFree(c: Config, steps: seq<Step>)
    requires IsRun(c, steps)
  {
    steps == [] || (
      && RaceFree(c, steps[..|steps| - 1])
      && !LosesRace(StateAfter(c, steps[..|steps| - 1]), steps[|steps| - 1]))
  }

  /** Settled events are put back at that step and at no other; what was put back stays on the books. */
  lemma RequeuedExactlyWhen(c: Config, s: State, step: Step)
    requires Enabled(c, s, step)
    ensures var before, after := s.data.ledger.requeued, After(c, s, step).data.ledger.requeued;
            (after != before <==> LosesRace(s, step)) && |before| <= |after| && (after != before ==> |before| < |after|)
  {
    if step.Consume? {
      ActRequeues(c, MomentOf(s, step.who), step.who, Cancelled(s, step.who), step.act);
    }
  }

  lemma ActRequeues(c: Config, m: Moment, who: Who, cancelled: bool, act: Act)
    requires ActEnabled(m, cancelled, act)
    ensures var before, after := m.data.ledger.requeued, AfterAct(c, m, who, cancelled, act).data.ledger.requeued;
            && (after != before <==>
                  act.Conclude? && cancelled && (m.work.outcome.Exhausted? || m.work.outcome.Discarded?) && m.work.batch != [])
            && |before| <= |after| && (after != before ==> |before| < |after|)
  {
    if act.Conclude? {
      var r, batch := m.data.ledger.requeued, m.work.batch;
      assert r + multiset{} == r && Tags([]) == [];
      assert batch != [] ==> |r + multiset(Tags(batch))| > |r|;
    }
  }

  lemma {:induction false} NothingRequeuedExactlyWhen(c: Config, steps: seq<Step>)
    requires IsRun(c, steps)
    ensures StateAfter(c, steps).data.ledger.requeued == multiset{} <==> RaceFree(c, steps)
  {
    if steps != [] {
      var n := |steps| - 1;
      NothingRequeuedExactlyWhen(c, steps[..n]);
      RequeuedExactlyWhen(c, StateAfter(c, steps[..n]), steps[n]);
    }
  }

  /** The partition is exact on exactly the runs free of that race. */
  lemma ExactExactlyWhen(c: Config, steps: seq<Step>)
    requires IsConfig(c) && IsRun(c, steps)
    ensures var s := StateAfter(c, steps);
            Log(s.data.admitted) == Settled(s.data.ledger) + multiset(Tags(Line(Active(s)))) <==> RaceFree(c, steps)
  {
    ConservationOverEveryRun(c, steps);
    NothingRequeuedExactlyWhen(c, steps);
    var s := StateAfter(c, steps);
    Difference(Log(s.data.admitted), s.data.ledger.requeued, Settled(s.data.ledger) + multiset(Tags(Line(Active(s)))));
  }

  lemma Difference(a: multiset<nat>, extra: multiset<nat>, b: multiset<nat>)
    requires a + extra == b
    ensures a == b <==> extra == multiset{}
  {
    assert |a| + |extra| == |b|;
  }

  /** No admitted event is ever missing, race or no race. */
  lemma NothingLostOverEveryRun(c: Config, steps: seq<Step>, t: nat)
    requires IsConfig(c) && IsRun(c, steps)
    requires t < StateAfter(c, steps).data.admitted
    ensures var s := StateAfter(c, steps);
            t in Settled(s.data.ledger) || t in Tags(Line(Active(s)))
  {
    InvOverEveryRun(c, steps);
    NothingLost(Active(StateAfter(c, steps)), t);
  }

  /** Documents: no event ever has two, every event counted as indexed has one, and there is none
      that was not admitted. */
  lemma DocumentsOverEveryRun(c: Config, steps: seq<Step>)
    requires IsConfig(c) && IsRun(c, steps)
    ensures var s := StateAfter(c, steps);
            var store := s.data.cloud.store;
            && (forall a, b :: a in store && b in store && store[a] == store[b] ==> a == b)
            && (forall t :: t in s.data.ledger.indexed ==> exists id :: id in store && store[id] == t)
            && (forall id :: id in store ==> store[id] < s.data.admitted)
  {
    InvOverEveryRun(c, steps);
    var s := StateAfter(c, steps);
    var cloud := s.data.cloud;
    forall a, b | a in cloud.store && b in cloud.store && cloud.store[a] == cloud.store[b]
      ensures a == b
    {
      OneDocumentEach(cloud, a, b);
    }
    forall t | t in s.data.ledger.indexed
      ensures exists id :: id in cloud.store && cloud.store[id] == t
    {
      IndexedHasDocument(cloud, s.data.ledger.indexed, t);
    }
    forall id | id in cloud.store
      ensures cloud.store[id] < s.data.admitted
    {
      assert KnownAs(cloud.names, Event(cloud.store[id], id));
    }
  }

  /** No lost wakeup: when Run is parked with a full batch waiting and its last flushes succeeded, the
      token is there, or a handler is about to put it there. */
  lemma WakeupOverEveryRun(c: Config, steps: seq<Step>)
    requires IsConfig(c) && IsRun(c, steps)
    ensures var s := StateAfter(c, steps);
            s.runner.Parked? && !LastLoopFailed(c, steps) && |s.data.items| >= c.maxBatchSize ==> s.data.token || s.data.notifying
  {
    InvOverEveryRun(c, steps);
    StalledExactlyWhen(c, steps);
  }

  /** Growth: the queue never holds more than its configured size and one batch for each of the two
      contexts; capacity never falls below the configured size. */
  lemma CapacityOverEveryRun(c: Config, steps: seq<Step>)
    requires IsConfig(c) && IsRun(c, steps)
    ensures var d := StateAfter(c, steps).data;
            && |d.items| <= d.capacity
            && c.maxQueueSize <= d.capacity <= c.maxQueueSize + 2 * c.maxBatchSize
            && |d.ledger.requeued| <= 2 * c.maxBatchSize
  {
    InvOverEveryRun(c, steps);
  }

  /** Shutdown: the final drain has the queue to itself, after Run has ended and not-ready was reported. */
  lemma SingleConsumerOverEveryRun(c: Config, steps: seq<Step>)
    requires IsConfig(c) && IsRun(c, steps)
    ensures var s := StateAfter(c, steps);
            && !(s.runner.Working? && s.shutdown.Final?)
            && (s.shutdown.Final? ==> s.runner.Exited? && s.done && !s.ready && s.runCancelled)
  {
    InvOverEveryRun(c, steps);
    SingleConsumer(StateAfter(c, steps));
  }
}
