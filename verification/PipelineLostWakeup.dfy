/** When a wakeup can be lost: exactly under the configurations whose queue holds two full batches. */
module PipelineLostWakeup {
  import opened RingQueue
  import opened Elastic
  import opened Pipeline
  import opened PipelineLifecycle
  import opened PipelineRuns
  import opened PipelineWitness

  /** Run sleeps on a full batch, and nothing but the ticker, cancellation or a further event will wake it. */
  predicate Lost(c: Config, s: State) {
    s.runner.Parked? && |s.data.items| >= c.maxBatchSize && !s.data.token && !s.data.notifying
  }

  /** Run will not look at the queue again before it sleeps, or is flushing and has taken its batch. */
  predicate PastTheQueue(r: Runner) {
    || r.NotStarted?
    || r.Parked?
    || (r.Working? && (r.work.Sending? || r.work.Awaiting? || r.work.Deciding? || r.work.Waiting? || r.work.Returned? || r.work.Done?))
  }

  /** In a queue too small for two batches, what a flush leaves is less than a batch. */
  ghost predicate LessThanABatch(c: Config, s: State) {
    && (s.data.drainRestored ==> s.runCancelled)
    && (!s.runCancelled && PastTheQueue(s.runner) && !s.data.token && !s.data.notifying ==> |s.data.items| < c.maxBatchSize)
  }

  lemma ActLeavesLess(c: Config, m: Moment, act: Act)
    requires ActPossible(m, false, act) && |m.data.items| < 2 * c.maxBatchSize
    requires PastTheQueue(Working(m.work)) && !m.data.token && !m.data.notifying ==> |m.data.items| < c.maxBatchSize
    ensures var m' := AfterAct(c, m, TheRunner, false, act);
            && m'.data.token == m.data.token && m'.data.notifying == m.data.notifying
            && m'.data.drainRestored == m.data.drainRestored
            && (PastTheQueue(Working(m'.work)) && !m'.data.token && !m'.data.notifying ==> |m'.data.items| < c.maxBatchSize)
  {
    hide Learn, Classify, Identify, Count, CountOutcome;
  }

  lemma LessThanABatchKept(c: Config, s: State, step: Step)
    requires IsConfig(c) && c.maxQueueSize < 2 * c.maxBatchSize
    requires Ordered(s) && Bounded(c, s) && LessThanABatch(c, s) && Enabled(c, s, step)
    ensures LessThanABatch(c, After(c, s, step))
  {
    hide AfterAct, OthersAllow, WorkBounded;
    if step.Consume? && step.who.TheRunner? && !s.runCancelled {
      ActLeavesLess(c, MomentOf(s, TheRunner), step.act);
    }
  }

  lemma {:induction false} LessThanABatchOverEveryRun(c: Config, steps: seq<Step>)
    requires IsConfig(c) && c.maxQueueSize < 2 * c.maxBatchSize && IsRun(c, steps)
    ensures LessThanABatch(c, StateAfter(c, steps))
  {
    hide LessThanABatch, Enabled, After, Flow, AllTruthful;
    if steps == [] {
      NothingWaitsAtFirst(c);
    } else {
      var n := |steps| - 1;
      LessThanABatchOverEveryRun(c, steps[..n]);
      InvOverEveryRun(c, steps[..n]);
      LessThanABatchKept(c, StateAfter(c, steps[..n]), steps[n]);
    }
  }

  lemma NothingWaitsAtFirst(c: Config)
    requires IsConfig(c)
    ensures StateAfter(c, []) == Init(c) && LessThanABatch(c, Init(c))
  {
  }

  /** As many identifiers as wanted, all different. */
  function Names(n: nat): (names: seq<string>)
    ensures |names| == n
    ensures forall i :: 0 <= i < n ==> |names[i]| == i + 1
  {
    seq(n, i requires 0 <= i < n => seq(i + 1, _ => 'x'))
  }

  lemma NamesAreFresh(n: nat)
    ensures FreshDraw(map[], Names(n))
  {
    var names := Names(n);
    forall i, j | 0 <= i < j < n
      ensures names[i] != names[j]
    {
      assert |names[i]| != |names[j]|;
    }
  }

  /** The collector with two full batches queued and Run at a given place. */
  function TwoBatches(c: Config, runner: Runner): State {
    Idle(c).(runner := runner,
             data := EmptyData(c).(items := NewEvents(0, 2 * c.maxBatchSize), admitted := 2 * c.maxBatchSize))
  }

  /** Two batches arrive at once; Run wakes and is about to take one. */
  lemma TwoBatchesWaiting(c: Config)
    requires IsConfig(c) && 2 * c.maxBatchSize <= c.maxQueueSize
    ensures Reachable(c, TwoBatches(c, Working(Draining(Full))))
  {
    var n := 2 * c.maxBatchSize;
    InitReachable(c);
    StepReachable(c, Init(c), RunStart);
    assert [] + NewEvents(0, n) == NewEvents(0, n);
    StepReachable(c, Idle(c), Produce(Reject, n));
    var s1 := TwoBatches(c, Parked);
    assert After(c, Idle(c), Produce(Reject, n)) == s1.(data := s1.data.(notifying := true));
    StepReachable(c, s1.(data := s1.data.(notifying := true)), Notify);
    StepReachable(c, s1.(data := s1.data.(token := true)), ReceiveToken);
    StepReachable(c, TwoBatches(c, Woken), WokenCheck);
    StepReachable(c, TwoBatches(c, Working(Checking(Full))), Consume(TheRunner, ReadLength));
    StepReachable(c, TwoBatches(c, Working(CheckingContext(Full))), Consume(TheRunner, ReadContext));
    StepReachable(c, TwoBatches(c, Working(Starting(Full))), Consume(TheRunner, EnterFlush));
  }

  /** Its payload cannot be built, so it is given up, and Run goes to sleep on the other. */
  lemma WakeupCanBeLost(c: Config)
    requires IsConfig(c) && 2 * c.maxBatchSize <= c.maxQueueSize
    ensures exists s :: Reachable(c, s) && !s.runCancelled && s.stalled && Lost(c, s)
  {
    var n := c.maxBatchSize;
    var batch, rest := NewEvents(0, 2 * n)[..n], NewEvents(0, 2 * n)[n..];
    TwoBatchesWaiting(c);
    var s0 := TwoBatches(c, Working(Draining(Full)));
    StepReachable(c, s0, Consume(TheRunner, TakeBatch));
    var s1 := s0.(runner := Working(Sending(Full, Flight(batch, batch, 0))), data := s0.data.(items := rest));
    assert After(c, s0, Consume(TheRunner, TakeBatch)) == s1;
    NamesAreFresh(n);
    var s4 := FailedFlush(c, s1, Names(n));
    assert s4.data.items == rest && |rest| == n;
  }

  lemma FailedFlush(c: Config, s: State, drawn: seq<string>) returns (s': State)
    requires Reachable(c, s) && !s.runCancelled && !s.data.notifying && !s.data.token
    requires s.runner.Working? && s.runner.work.Sending? && |drawn| == |s.runner.work.flight.pending|
    requires FreshDraw(s.data.cloud.names, drawn)
    ensures Reachable(c, s') && !s'.runCancelled && s'.stalled && s'.runner.Parked?
    ensures s'.data.items == s.data.items && !s'.data.token && !s'.data.notifying
  {
    hide Learn, Identify;
    StepReachable(c, s, Consume(TheRunner, FailToBuild(drawn, 0)));
    var s1 := After(c, s, Consume(TheRunner, FailToBuild(drawn, 0)));
    StepReachable(c, s1, Consume(TheRunner, Decision));
    var s2 := After(c, s1, Consume(TheRunner, Decision));
    StepReachable(c, s2, Consume(TheRunner, Conclude));
    var s3 := After(c, s2, Consume(TheRunner, Conclude));
    StepReachable(c, s3, LoopReturns);
    s' := After(c, s3, LoopReturns);
  }

  /** While the collector is not being stopped, a full batch can be left without a token if and only if
      the queue has room for two. */
  lemma WakeupLostExactlyWhen(c: Config)
    requires IsConfig(c)
    ensures (exists s :: Reachable(c, s) && !s.runCancelled && Lost(c, s)) <==> 2 * c.maxBatchSize <= c.maxQueueSize
  {
    if 2 * c.maxBatchSize <= c.maxQueueSize {
      WakeupCanBeLost(c);
    } else {
      forall s | Reachable(c, s) && !s.runCancelled
        ensures !Lost(c, s)
      {
        var steps :| IsRun(c, steps) && StateAfter(c, steps) == s;
        LessThanABatchOverEveryRun(c, steps);
      }
    }
  }

  /** So it can under the configuration the collector has by default. */
  lemma FailedFlushLosesWakeup()
    ensures var c := Config(500, 10000, 10);
            exists s :: Reachable(c, s) && !s.runCancelled && s.stalled && Lost(c, s)
  {
    WakeupCanBeLost(Config(500, 10000, 10));
  }
}
