/** How far the queue can grow: the bound of CapacityOverEveryRun is reached. */
module PipelineGrowth {
  import opened Events
  import opened RingQueue
  import opened Elastic
  import opened Retry
  import opened Pipeline
  import opened PipelineLostWakeup
  import opened PipelineWitness

  ghost predicate AllBlank(events: seq<Event>) {
    forall i :: 0 <= i < |events| ==> events[i].id == ""
  }

  /** A full queue, in which no event has an identifier yet. */
  ghost predicate FullOfBlanks(d: Data) {
    |d.items| == d.capacity && AllBlank(d.items) && d.cloud.names == map[] && !d.notifying
  }

  lemma {:induction false} BlanksTeachNothing(batch: seq<Event>)
    requires AllBlank(batch)
    ensures Learn(map[], batch) == map[]
  {
    if batch != [] {
      BlanksTeachNothing(batch[..|batch| - 1]);
    }
  }

  /** A goroutine at the head of its loop goes on to flush. */
  lemma FlushEntered(c: Config, s: State, who: Who)
    requires Reachable(c, s) && IsWorking(s, who) && !Cancelled(s, who)
    requires MomentOf(s, who).work == Checking(All) && s.data.items != [] && !s.data.notifying
    ensures Reachable(c, SetMoment(s, who, Moment(s.data, Draining(All))))
  {
    hide Reachable;
    StepReachable(c, s, Consume(who, ReadLength));
    var s1 := SetMoment(s, who, Moment(s.data, CheckingContext(All)));
    StepReachable(c, s1, Consume(who, ReadContext));
    var s2 := SetMoment(s, who, Moment(s.data, Starting(All)));
    StepReachable(c, s2, Consume(who, EnterFlush));
  }

  /** It takes a batch from a full queue. */
  lemma BatchTaken(c: Config, s: State, who: Who) returns (s': State, batch: seq<Event>)
    requires IsConfig(c) && Reachable(c, s) && IsWorking(s, who) && !Cancelled(s, who)
    requires MomentOf(s, who).work == Checking(All) && !s.data.notifying && c.maxBatchSize <= |s.data.items|
    ensures Reachable(c, s') && |batch| == c.maxBatchSize && batch + s'.data.items == s.data.items
    ensures s' == SetMoment(s, who, Moment(s.data.(items := s'.data.items), Sending(All, Flight(batch, batch, 0))))
  {
    hide Reachable;
    FlushEntered(c, s, who);
    var k, s1 := c.maxBatchSize, SetMoment(s, who, Moment(s.data, Draining(All)));
    StepReachable(c, s1, Consume(who, TakeBatch));
    batch, s' := s.data.items[..k], After(c, s1, Consume(who, TakeBatch));
  }

  /** Handlers fill the room it leaves. */
  lemma Refilled(c: Config, s: State, n: nat) returns (s': State)
    requires Reachable(c, s) && !s.data.notifying && |s.data.items| + n == s.data.capacity && 0 < n
    requires AllBlank(s.data.items)
    ensures Reachable(c, s') && |s'.data.items| == s.data.capacity && AllBlank(s'.data.items)
    ensures s' == s.(data := s.data.(items := s'.data.items, admitted := s.data.admitted + n, token := true))
  {
    hide Reachable;
    StepReachable(c, s, Produce(Reject, n));
    var s1 := After(c, s, Produce(Reject, n));
    StepReachable(c, s1, Notify);
    s' := After(c, s1, Notify);
  }

  /** The payload cannot be built, and the batch is given up. */
  lemma GivenUp(c: Config, s: State, who: Who, batch: seq<Event>) returns (s': State)
    requires Reachable(c, s) && IsWorking(s, who) && !Cancelled(s, who) && FullOfBlanks(s.data) && AllBlank(batch)
    requires MomentOf(s, who).work == Sending(All, Flight(batch, batch, 0))
    ensures Reachable(c, s') && FullOfBlanks(s'.data) && s'.data.capacity == s.data.capacity
    ensures s' == SetMoment(s, who, Moment(s'.data, Returned(All, batch, Discarded(batch))))
  {
    hide Reachable, Learn, AllBlank, Tags;
    var drawn := Names(|batch|);
    NamesAreFresh(|batch|);
    BlanksTeachNothing(batch);
    StepReachable(c, s, Consume(who, FailToBuild(drawn, 0)));
    assert Identify(batch, 0, drawn) == batch;
    var s1 := After(c, s, Consume(who, FailToBuild(drawn, 0)));
    StepReachable(c, s1, Consume(who, Decision));
    s' := After(c, s1, Consume(who, Decision));
  }

  /** One batch taken from a full queue, its room taken by others, and the batch given up. */
  lemma FailedRound(c: Config, s: State, who: Who) returns (s': State, batch: seq<Event>)
    requires IsConfig(c) && Reachable(c, s) && IsWorking(s, who) && !Cancelled(s, who)
    requires MomentOf(s, who).work == Checking(All) && FullOfBlanks(s.data) && c.maxBatchSize <= s.data.capacity
    ensures Reachable(c, s') && FullOfBlanks(s'.data) && s'.data.capacity == s.data.capacity
    ensures |batch| == c.maxBatchSize && AllBlank(batch)
    ensures s' == SetMoment(s, who, Moment(s'.data, Returned(All, batch, Discarded(batch))))
  {
    hide Reachable;
    var s1;
    s1, batch := BatchTaken(c, s, who);
    PartsBlank(batch, s1.data.items, s.data.items);
    var s2 := Refilled(c, s1, c.maxBatchSize);
    s' := GivenUp(c, s2, who, batch);
  }

  lemma PartsBlank(batch: seq<Event>, rest: seq<Event>, items: seq<Event>)
    requires batch + rest == items
    ensures AllBlank(items) <==> AllBlank(batch) && AllBlank(rest)
  {
    if AllBlank(items) {
      assert forall i :: 0 <= i < |batch| ==> items[i] == batch[i];
      assert forall i :: 0 <= i < |rest| ==> items[|batch| + i] == rest[i];
    }
  }

  /** A context cancelled at that point puts the batch back, on top of a full queue. */
  lemma GrownByBatch(c: Config, s: State, who: Who, batch: seq<Event>) returns (s': State)
    requires IsConfig(c) && Reachable(c, s) && IsWorking(s, who) && Cancelled(s, who) && FullOfBlanks(s.data) && AllBlank(batch)
    requires MomentOf(s, who).work == Returned(All, batch, Discarded(batch)) && batch != []
    ensures Reachable(c, s') && FullOfBlanks(s'.data) && s'.data.capacity == s.data.capacity + |batch|
    ensures s' == SetMoment(s, who, Moment(s'.data, Done(true)))
  {
    hide Reachable, Tags;
    StepReachable(c, s, Consume(who, Conclude));
    s' := After(c, s, Consume(who, Conclude));
    PartsBlank(batch, s.data.items, s'.data.items);
  }

  lemma QueueFilled(c: Config) returns (s: State)
    requires IsConfig(c)
    ensures Reachable(c, s) && FullOfBlanks(s.data) && s.data.capacity == c.maxQueueSize
    ensures s == Idle(c).(runner := Working(Checking(All)), data := s.data)
  {
    hide Reachable;
    InitReachable(c);
    StepReachable(c, Init(c), RunStart);
    var s1 := Refilled(c, Idle(c), c.maxQueueSize);
    StepReachable(c, s1, Tick);
    s := After(c, s1, Tick);
  }

  /** Run has put a batch back and ended, and the final drain begins. */
  lemma DrainBegins(c: Config, s: State) returns (s': State)
    requires Reachable(c, s) && s.runner == Working(Done(true)) && s.runCancelled && s.shutdown.Selecting?
    ensures Reachable(c, s') && s'.shutdown == Final(Checking(All))
    ensures s'.data == s.data && s'.drainCancelled == s.drainCancelled
  {
    hide Reachable;
    StepReachable(c, s, LoopReturns);
    var s1 := After(c, s, LoopReturns);
    StepReachable(c, s1, RunStop);
    var s2 := After(c, s1, RunStop);
    StepReachable(c, s2, RunClose);
    var s3 := After(c, s2, RunClose);
    StepReachable(c, s3, BeginDrain);
    s' := After(c, s3, BeginDrain);
  }

  /** Whenever the queue holds a batch, it can grow by a batch under either context: the bound of
      MaxQueueSize + 2 * MaxBatchSize cannot be improved. */
  lemma CapacityBoundReached(c: Config)
    requires IsConfig(c) && c.maxBatchSize <= c.maxQueueSize
    ensures exists s :: Reachable(c, s) && |s.data.items| == s.data.capacity == c.maxQueueSize + 2 * c.maxBatchSize
  {
    hide FullOfBlanks, AllBlank, Reachable;
    var s0 := QueueFilled(c);
    var s1, batch := FailedRound(c, s0, TheRunner);
    StepReachable(c, s1, Signal);
    StepReachable(c, s1.(shutdown := StoppingServer), StopBatcher);
    var s2 := GrownByBatch(c, s1.(shutdown := Selecting, runCancelled := true), TheRunner, batch);
    var s3 := DrainBegins(c, s2);
    var s4, again := FailedRound(c, s3, TheDrain);
    StepReachable(c, s4, Expire);
    var s5 := GrownByBatch(c, s4.(drainCancelled := true), TheDrain, again);
    FullIsFull(s5.data);
  }

  lemma FullIsFull(d: Data)
    requires FullOfBlanks(d)
    ensures |d.items| == d.capacity
  {
  }
}
