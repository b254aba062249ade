/** Runs that show why the results in PipelineRuns say what they say and no more. */
module PipelineWitness {
  import opened Events
  import opened RingQueue
  import opened Elastic
  import opened Retry
  import opened Pipeline

  ghost predicate Reachable(c: Config, s: State) {
    exists steps :: IsRun(c, steps) && StateAfter(c, steps) == s
  }

  lemma InitReachable(c: Config)
    ensures Reachable(c, Init(c))
  {
    assert IsRun(c, []) && StateAfter(c, []) == Init(c);
  }

  lemma StepReachable(c: Config, s: State, step: Step)
    requires Reachable(c, s) && Enabled(c, s, step)
    ensures Reachable(c, After(c, s, step))
  {
    var steps :| IsRun(c, steps) && StateAfter(c, steps) == s;
    var longer := steps + [step];
    assert longer[..|longer| - 1] == steps;
    assert IsRun(c, longer) && StateAfter(c, longer) == After(c, s, step);
  }

  /** A state in which Run sleeps on an empty queue, with capacity for two events. */
  function Idle(c: Config): State {
    Init(c).(runner := Parked, ready := true)
  }

  /** Two events admitted, the batch taken and sent, at the given batch size. */
  function SentState(c: Config, batch: seq<Event>, rest: seq<Event>): State {
    Idle(c).(
      runner := Working(Awaiting(Full, Flight(batch, batch, 0))),
      data := EmptyData(c).(
        items := rest,
        admitted := 2,
        cloud := Cloud(Learn(map[], batch), set e | e in batch, map[])))
  }

  /** From the start to two queued events and a woken batcher. */
  lemma TwoEventsWaiting(c: Config)
    requires 0 < c.maxBatchSize <= 2 && 2 <= c.maxQueueSize
    ensures Reachable(c, Idle(c).(runner := Working(Draining(Full)),
                                  data := EmptyData(c).(items := NewEvents(0, 2), admitted := 2)))
  {
    InitReachable(c);
    StepReachable(c, Init(c), RunStart);
    var s := Idle(c);
    var full := EmptyData(c).(items := NewEvents(0, 2), admitted := 2);
    assert [] + NewEvents(0, 2) == NewEvents(0, 2);
    StepReachable(c, s, Produce(Reject, 2));
    var s1 := s.(data := full.(notifying := true));
    assert After(c, s, Produce(Reject, 2)) == s1;
    StepReachable(c, s1, Notify);
    var s2 := s.(data := full.(token := true));
    StepReachable(c, s2, ReceiveToken);
    var s3 := s.(runner := Woken, data := full);
    StepReachable(c, s3, WokenCheck);
    var s4 := s.(runner := Working(Checking(Full)), data := full);
    StepReachable(c, s4, Consume(TheRunner, ReadLength));
    var s5 := s.(runner := Working(CheckingContext(Full)), data := full);
    StepReachable(c, s5, Consume(TheRunner, ReadContext));
    var s6 := s.(runner := Working(Starting(Full)), data := full);
    StepReachable(c, s6, Consume(TheRunner, EnterFlush));
  }

  /** The batch is taken and sent. */
  lemma BatchSent(c: Config, blank: seq<Event>, rest: seq<Event>, drawn: seq<string>, batch: seq<Event>)
    requires 0 < c.maxBatchSize <= 2 && 2 <= c.maxQueueSize && |blank| == c.maxBatchSize == |drawn|
    requires NewEvents(0, 2) == blank + rest && batch == Identify(blank, |blank|, drawn)
    requires FreshDraw(map[], drawn)
    ensures Reachable(c, SentState(c, batch, rest))
  {
    TwoEventsWaiting(c);
    var s0 := Idle(c).(runner := Working(Draining(Full)), data := EmptyData(c).(items := NewEvents(0, 2), admitted := 2));
    StepReachable(c, s0, Consume(TheRunner, TakeBatch));
    var s1 := s0.(runner := Working(Sending(Full, Flight(blank, blank, 0))), data := s0.data.(items := rest));
    assert NewEvents(0, 2)[..|blank|] == blank && NewEvents(0, 2)[|blank|..] == rest;
    assert After(c, s0, Consume(TheRunner, TakeBatch)) == s1;
    StepReachable(c, s1, Consume(TheRunner, Request(drawn)));
    assert {} + (set e | e in batch) == set e | e in batch;
    assert After(c, s1, Consume(TheRunner, Request(drawn))) == SentState(c, batch, rest);
  }

  /** A response is counted, and what it says decided on, without another attempt left. */
  lemma ResponseDecided(c: Config, s: State, batch: seq<Event>, reply: Reply, outcome: Outcome)
    requires c.maxRetries == 0 && Reachable(c, s) && !s.runCancelled
    requires s.runner == Working(Awaiting(Full, Flight(batch, batch, 0)))
    requires !reply.BuildError? && Honest(s.data.cloud.store, batch, reply)
    requires Decide(0, 0, batch, Classify(batch, reply), false) == Return(outcome)
    ensures Reachable(c, s.(runner := Working(Returned(Full, batch, outcome)),
                            data := s.data.(ledger := CountOutcome(Count(s.data.ledger, Classify(batch, reply)), outcome))))
  {
    StepReachable(c, s, Consume(TheRunner, Respond(reply)));
    StepReachable(c, After(c, s, Consume(TheRunner, Respond(reply))), Consume(TheRunner, Decision));
  }

  /** Cancelled after the batch was given up, before flush looks. */
  lemma CancelledThenRequeued(c: Config, s: State, mode: Mode, batch: seq<Event>, outcome: Outcome)
    requires Reachable(c, s) && s.shutdown.Serving? && !s.data.notifying
    requires s.runner == Working(Returned(mode, batch, outcome)) && (outcome.Exhausted? || outcome.Discarded?)
    ensures exists t :: Reachable(c, t) && t.data == PutBack(s.data, TheRunner, batch, outcome)
  {
    hide PutBack;
    StepReachable(c, s, Signal);
    var s1 := s.(shutdown := StoppingServer);
    StepReachable(c, s1, StopBatcher);
    var s2 := s1.(shutdown := Selecting, runCancelled := true);
    StepReachable(c, s2, Consume(TheRunner, Conclude));
  }

  /** The race on cancellation: of a batch of two, the first event is indexed and the second is to be
      retried; retries are used up, so the batch is given up; then the context is cancelled, before
      flush looks; and both events go back into the queue although both are settled. */
  lemma RaceRequeuesSettledEvents()
    ensures var c := Config(2, 2, 0);
            exists s :: Reachable(c, s) && 0 in s.data.ledger.indexed && 1 in s.data.ledger.exhausted
                        && Tags(s.data.items) == [0, 1] && s.data.ledger.requeued == multiset{0, 1}
  {
    var c := Config(2, 2, 0);
    var a, b := Event(0, "a"), Event(1, "b");
    var batch := [a, b];
    BatchSent(c, [Event(0, ""), Event(1, "")], [], ["a", "b"], batch);
    var s := SentState(c, batch, []);
    assert a in s.data.cloud.sent by { assert a == batch[0]; }
    StepReachable(c, s, ServerApplies(a));
    var s1 := After(c, s, ServerApplies(a));
    var reply, outcome := Response(200, Decoded(true, [201, 429])), Exhausted([b]);
    TwoItems(a, b);
    ResponseDecided(c, s1, batch, reply, outcome);
    var ledger := CountOutcome(Count(s.data.ledger, BulkResult([a], [], [b], false)), outcome);
    var s2 := s1.(runner := Working(Returned(Full, batch, outcome)), data := s1.data.(ledger := ledger));
    CancelledThenRequeued(c, s2, Full, batch, outcome);
    var t :| Reachable(c, t) && t.data == PutBack(s2.data, TheRunner, batch, outcome);
    RequeuedBoth(s.data.ledger, a, b, ledger, t.data, s2.data);
  }

  lemma RequeuedBoth(empty: Ledger, a: Event, b: Event, ledger: Ledger, after: Data, before: Data)
    requires empty == Ledger(multiset{}, multiset{}, multiset{}, multiset{}, multiset{}, 0, 0)
    requires a.tag == 0 && b.tag == 1
    requires ledger == CountOutcome(Count(empty, BulkResult([a], [], [b], false)), Exhausted([b]))
    requires before.ledger == ledger && before.items == []
    requires after == PutBack(before, TheRunner, [a, b], Exhausted([b]))
    ensures 0 in after.ledger.indexed && 1 in after.ledger.exhausted
    ensures Tags(after.items) == [0, 1] && after.ledger.requeued == multiset{0, 1}
  {
    assert [a, b] + [] == [a, b] && Tags([a, b]) == [0, 1];
    assert Tags([a]) == [0] && Tags([b]) == [1] && Tags([]) == [];
    assert multiset{} + multiset([0, 1]) == multiset{0, 1};
  }

  lemma TwoItems(a: Event, b: Event)
    ensures Classify([a, b], Response(200, Decoded(true, [201, 429]))) == BulkResult([a], [], [b], false)
  {
    var batch, items := [a, b], [201, 429];
    assert batch[..1] == [a] && items[..1] == [201] && [a][..0] == [] && [201][..0] == [];
    assert Chosen([], [], Stored) == [] && Chosen([], [], Refused) == [] && Chosen([], [], Retryable) == [];
    assert Chosen([a], [201], Stored) == [a] && Chosen([a], [201], Refused) == [] && Chosen([a], [201], Retryable) == [];
    assert Chosen(batch, items, Stored) == [a] && Chosen(batch, items, Refused) == []
           && Chosen(batch, items, Retryable) == [b];
  }

  /** The collector with one event admitted, and Run at a given place. */
  function OneEvent(c: Config, runner: Runner, items: seq<Event>): State {
    Idle(c).(runner := runner, data := EmptyData(c).(items := items, admitted := 1, token := true))
  }

  lemma OneEventArrives(c: Config)
    requires IsConfig(c)
    ensures Reachable(c, OneEvent(c, Parked, [Event(0, "")]))
  {
    var s := OneEvent(c, Parked, [Event(0, "")]);
    InitReachable(c);
    StepReachable(c, Init(c), RunStart);
    assert [] + NewEvents(0, 1) == [Event(0, "")];
    StepReachable(c, Idle(c), Produce(Reject, 1));
    assert After(c, Idle(c), Produce(Reject, 1)) == s.(data := s.data.(notifying := true, token := false));
    StepReachable(c, s.(data := s.data.(notifying := true, token := false)), Notify);
  }

  /** Run takes the event at the next tick. */
  lemma OneEventTaken(c: Config)
    requires IsConfig(c)
    ensures var batch := [Event(0, "")];
            Reachable(c, OneEvent(c, Working(Sending(All, Flight(batch, batch, 0))), []))
  {
    hide Reachable, AfterProduce;
    var batch := [Event(0, "")];
    OneEventArrives(c);
    StepReachable(c, OneEvent(c, Parked, batch), Tick);
    StepReachable(c, OneEvent(c, Working(Checking(All)), batch), Consume(TheRunner, ReadLength));
    StepReachable(c, OneEvent(c, Working(CheckingContext(All)), batch), Consume(TheRunner, ReadContext));
    StepReachable(c, OneEvent(c, Working(Starting(All)), batch), Consume(TheRunner, EnterFlush));
    StepReachable(c, OneEvent(c, Working(Draining(All)), batch), Consume(TheRunner, TakeBatch));
    assert batch[..1] == batch && batch[1..] == [];
  }

  /** A payload that cannot be built is given up without being counted. */
  lemma FailedBuildDiscards(c: Config, s: State, batch: seq<Event>, drawn: seq<string>) returns (s': State)
    requires Reachable(c, s) && !s.runCancelled && FreshDraw(s.data.cloud.names, drawn) && |drawn| == |batch|
    requires s.runner == Working(Sending(All, Flight(batch, batch, 0)))
    ensures Reachable(c, s') && s'.runner == Working(Returned(All, batch, Discarded(batch)))
    ensures s'.shutdown == s.shutdown && s'.data.items == s.data.items && s'.data.notifying == s.data.notifying
    ensures s'.data.ledger == s.data.ledger.(discarded := s.data.ledger.discarded + multiset(Tags(batch)))
  {
    hide Learn, Tags, FreshDraw;
    StepReachable(c, s, Consume(TheRunner, FailToBuild(drawn, 0)));
    var s1 := After(c, s, Consume(TheRunner, FailToBuild(drawn, 0)));
    assert Identify(batch, 0, drawn) == batch;
    StepReachable(c, s1, Consume(TheRunner, Decision));
    s' := After(c, s1, Consume(TheRunner, Decision));
  }

  /** No configuration is safe from either: an event whose payload cannot be built is discarded without
      being counted, then the context is cancelled, and the event goes back into the queue. */
  lemma DiscardedAndRequeuedAnyway(c: Config)
    requires IsConfig(c)
    ensures exists s :: Reachable(c, s) && 0 in s.data.ledger.discarded && 0 in s.data.ledger.requeued
  {
    var batch := [Event(0, "")];
    OneEventTaken(c);
    var s := FailedBuildDiscards(c, OneEvent(c, Working(Sending(All, Flight(batch, batch, 0))), []), batch, ["a"]);
    assert Tags(batch) == [0];
    CancelledThenRequeued(c, s, All, batch, Discarded(batch));
  }
}
