/** The one-slot notification: a full batch is never left waiting without a token. */
module PipelineWakeup {
  import opened Events
  import opened RingQueue
  import opened Elastic
  import opened Pipeline
  import opened PipelineLifecycle

  /** Run will not look at the queue again unless a token, the ticker or cancellation wakes it, and
      no flush failed since it last saw less than a full batch. */
  predicate Quiet(s: State) {
    || s.runner.NotStarted?
    || (s.runner.Parked? && !s.stalled)
    || (s.runner.Working? && s.runner.work == Done(false))
  }

  ghost predicate NoLostWakeup(c: Config, s: State) {
    && (Quiet(s) && |s.data.items| >= c.maxBatchSize ==> s.data.token || s.data.notifying)
    && (s.runner.NotStarted? ==> !s.stalled)
  }

  lemma ActKeepsWakeup(c: Config, s: State, who: Who, act: Act)
    requires IsConfig(c) && Ordered(s) && NoLostWakeup(c, s) && Enabled(c, s, Consume(who, act))
    ensures NoLostWakeup(c, After(c, s, Consume(who, act)))
  {
    var m := MomentOf(s, who);
    var m' := AfterAct(c, m, who, Cancelled(s, who), act);
    if m'.work == Done(false) && who.TheRunner? {
      DoneMeansSeenSmall(c, m, who, Cancelled(s, who), act);
    }
  }

  /** A flush loop ends without error only on seeing less than a full batch. */
  lemma DoneMeansSeenSmall(c: Config, m: Moment, who: Who, cancelled: bool, act: Act)
    requires IsConfig(c) && ActEnabled(m, cancelled, act)
    requires AfterAct(c, m, who, cancelled, act).work == Done(false)
    ensures act.ReadLength? && AfterAct(c, m, who, cancelled, act).data == m.data
    ensures |m.data.items| < c.maxBatchSize
  {
  }

  lemma WakeupKept(c: Config, s: State, step: Step)
    requires IsConfig(c) && Ordered(s) && NoLostWakeup(c, s) && Enabled(c, s, step)
    ensures NoLostWakeup(c, After(c, s, step))
  {
    match step
    case Consume(who, act) => ActKeepsWakeup(c, s, who, act);
    case _ =>
  }

  // What Run's select loop does, in terms of the steps of a run.

  /** The token is there exactly when a handler has notified, or a batch was put back, since Run last
      received it. */
  ghost predicate NotifiedSince(c: Config, steps: seq<Step>)
    requires IsRun(c, steps)
  {
    steps != [] &&
    var n := |steps| - 1;
    var s, step := StateAfter(c, steps[..n]), steps[n];
    || step.Notify?
    || (step.Consume? && step.act.Conclude? && Cancelled(s, step.who) && !MomentOf(s, step.who).work.outcome.Finished?)
    || (!step.ReceiveToken? && NotifiedSince(c, steps[..n]))
  }

  lemma ActAndToken(c: Config, m: Moment, who: Who, cancelled: bool, act: Act)
    requires ActPossible(m, cancelled, act)
    ensures AfterAct(c, m, who, cancelled, act).data.token <==>
      m.data.token || (act.Conclude? && cancelled && !m.work.outcome.Finished?)
  {
    hide Learn, Classify, Identify, Count, CountOutcome, Tags, WithIdentifiers;
  }

  lemma StepAndToken(c: Config, s: State, step: Step)
    requires Enabled(c, s, step)
    ensures After(c, s, step).data.token <==>
      || step.Notify?
      || (step.Consume? && step.act.Conclude? && Cancelled(s, step.who) && !MomentOf(s, step.who).work.outcome.Finished?)
      || (!step.ReceiveToken? && s.data.token)
  {
    hide AfterAct, OthersAllow, AfterProduce;
    if step.Consume? {
      ActAndToken(c, MomentOf(s, step.who), step.who, Cancelled(s, step.who), step.act);
    } else if step.Produce? {
      ProduceKeepsToken(s.data, step.policy, step.n);
    }
  }

  lemma ProduceKeepsToken(d: Data, policy: DropPolicy, n: nat)
    ensures AfterProduce(d, policy, n).token == d.token
  {
  }

  lemma {:induction false} TokenExactlyWhen(c: Config, steps: seq<Step>)
    requires IsRun(c, steps)
    ensures StateAfter(c, steps).data.token <==> NotifiedSince(c, steps)
  {
    hide After, Enabled;
    if steps == [] {
      assert StateAfter(c, steps) == Init(c);
    } else {
      var n := |steps| - 1;
      TokenExactlyWhen(c, steps[..n]);
      StepAndToken(c, StateAfter(c, steps[..n]), steps[n]);
    }
  }

  /** The last flush loop of Run to return had failed, and Run has not seen less than a full batch since. */
  ghost predicate LastLoopFailed(c: Config, steps: seq<Step>)
    requires IsRun(c, steps)
  {
    steps != [] &&
    var n := |steps| - 1;
    var s, step := StateAfter(c, steps[..n]), steps[n];
    if step.LoopReturns? then s.runner.work.failed
    else !(step.WokenCheck? && |s.data.items| < c.maxBatchSize) && LastLoopFailed(c, steps[..n])
  }

  lemma StepAndStall(c: Config, s: State, step: Step)
    requires Enabled(c, s, step)
    ensures After(c, s, step).stalled <==>
      if step.LoopReturns? then s.runner.work.failed
      else !(step.WokenCheck? && |s.data.items| < c.maxBatchSize) && s.stalled
  {
    hide AfterAct, OthersAllow;
  }

  lemma {:induction false} StalledExactlyWhen(c: Config, steps: seq<Step>)
    requires IsRun(c, steps)
    ensures StateAfter(c, steps).stalled <==> LastLoopFailed(c, steps)
  {
    hide After, Enabled;
    if steps == [] {
      assert StateAfter(c, steps) == Init(c);
    } else {
      var n := |steps| - 1;
      StalledExactlyWhen(c, steps[..n]);
      StepAndStall(c, StateAfter(c, steps[..n]), steps[n]);
    }
  }

  /** The flush loop that Run is in was started by the ticker, and not by a notification. */
  ghost predicate StartedByTick(c: Config, steps: seq<Step>)
    requires IsRun(c, steps)
  {
    steps != [] &&
    var n := |steps| - 1;
    steps[n].Tick? || (!steps[n].WokenCheck? && StartedByTick(c, steps[..n]))
  }

  predicate InMode(w: Work, mode: Mode) {
    w.Done? || w.mode == mode
  }

  lemma ActKeepsMode(c: Config, m: Moment, who: Who, cancelled: bool, act: Act)
    requires ActPossible(m, cancelled, act)
    ensures forall mode :: InMode(m.work, mode) ==> InMode(AfterAct(c, m, who, cancelled, act).work, mode)
  {
    hide Learn, Classify, Identify, Count, CountOutcome;
  }

  lemma StepKeepsMode(c: Config, s: State, step: Step, mode: Mode)
    requires Enabled(c, s, step) && !step.Tick? && !step.WokenCheck?
    requires s.runner.Working? ==> InMode(s.runner.work, mode)
    ensures After(c, s, step).runner.Working? ==> InMode(After(c, s, step).runner.work, mode)
  {
    hide AfterAct, OthersAllow, InMode;
    if step.Consume? && step.who.TheRunner? {
      ActKeepsMode(c, MomentOf(s, TheRunner), TheRunner, s.runCancelled, step.act);
    }
  }

  /** A tick flushes everything, a notification only full batches: so ends a loop without error. */
  lemma {:induction false} LoopModeOverEveryRun(c: Config, steps: seq<Step>)
    requires IsRun(c, steps)
    ensures var s := StateAfter(c, steps);
            s.runner.Working? ==> InMode(s.runner.work, if StartedByTick(c, steps) then All else Full)
  {
    hide InMode;
    if steps != [] {
      var n := |steps| - 1;
      LoopModeOverEveryRun(c, steps[..n]);
      if !steps[n].Tick? && !steps[n].WokenCheck? {
        StepKeepsMode(c, StateAfter(c, steps[..n]), steps[n], if StartedByTick(c, steps[..n]) then All else Full);
      } else {
        LoopStarts(c, StateAfter(c, steps[..n]), steps[n]);
      }
    }
  }

  lemma LoopStarts(c: Config, s: State, step: Step)
    requires Enabled(c, s, step) && (step.Tick? || step.WokenCheck?)
    ensures After(c, s, step).runner.Working? ==> InMode(After(c, s, step).runner.work, if step.Tick? then All else Full)
    ensures step.Tick? ==> After(c, s, step).runner.Working?
    ensures step.WokenCheck? ==> (After(c, s, step).runner.Working? <==> |s.data.items| >= c.maxBatchSize)
  {
  }

  /** A loop that the ticker started ends without error only on seeing an empty queue, one that a
      notification started exactly on seeing less than a full batch. */
  lemma LoopEndsOverEveryRun(c: Config, steps: seq<Step>)
    requires IsRun(c, steps) && StateAfter(c, steps).runner.Working? && StateAfter(c, steps).runner.work.Checking?
    requires Enabled(c, StateAfter(c, steps), Consume(TheRunner, ReadLength))
    ensures var s := StateAfter(c, steps);
            After(c, s, Consume(TheRunner, ReadLength)).runner == Working(Done(false)) <==>
              if StartedByTick(c, steps) then s.data.items == [] else |s.data.items| < c.maxBatchSize
  {
    LoopModeOverEveryRun(c, steps);
  }
}
