/** Which runs count everything they settle, and when everything is settled in the end. */
module PipelineSettling {
  import opened Events
  import opened RingQueue
  import opened Elastic
  import opened Retry
  import opened Pipeline
  import opened PipelineLifecycle
  import opened PipelineOrder
  import opened PipelineLedger
  import opened PipelineRuns

  /** The retry loop gives a batch up without counting it: a response with an error and nothing to
      retry, under a context not seen cancelled. */
  ghost predicate Discards(s: State, step: Step) {
    && step.Consume? && step.act.Decision?
    && IsWorking(s, step.who) && !Cancelled(s, step.who)
    && var w := MomentOf(s, step.who).work;
       w.Deciding? && w.result.err && w.result.retry == [] && w.flight.pending != []
  }

  /** No step of the run does so. */
  ghost predicate NeverDiscards(c: Config, steps: seq<Step>)
    requires IsRun(c, steps)
  {
    steps == [] || (
      && NeverDiscards(c, steps[..|steps| - 1])
      && !Discards(StateAfter(c, steps[..|steps| - 1]), steps[|steps| - 1]))
  }

  lemma DecisionDiscards(c: Config, m: Moment, cancelled: bool)
    requires m.work.Deciding?
    ensures var before, after := m.data.ledger.discarded, AfterDecision(c, m, cancelled).data.ledger.discarded;
            && (after != before <==> !cancelled && m.work.result.err && m.work.result.retry == [] && m.work.flight.pending != [])
            && |before| <= |after| && (after != before ==> |before| < |after|)
  {
    hide Tags;
    var before, pending := m.data.ledger.discarded, m.work.flight.pending;
    SizeOfTags(pending);
    assert |before + multiset(Tags(pending))| == |before| + |pending|;
    if pending == [] {
      assert multiset(Tags(pending)) == multiset{} && before + multiset{} == before;
    }
  }

  lemma ActDiscards(c: Config, m: Moment, who: Who, cancelled: bool, act: Act)
    requires ActPossible(m, cancelled, act)
    ensures var before, after := m.data.ledger.discarded, AfterAct(c, m, who, cancelled, act).data.ledger.discarded;
            && (after != before <==>
                  act.Decision? && !cancelled && m.work.result.err && m.work.result.retry == [] && m.work.flight.pending != [])
            && |before| <= |after| && (after != before ==> |before| < |after|)
  {
    hide Learn, Classify, AfterDecision;
    if act.Decision? {
      DecisionDiscards(c, m, cancelled);
    }
  }

  lemma DiscardedExactlyWhen(c: Config, s: State, step: Step)
    requires Enabled(c, s, step)
    ensures var before, after := s.data.ledger.discarded, After(c, s, step).data.ledger.discarded;
            (after != before <==> Discards(s, step)) && |before| <= |after| && (after != before ==> |before| < |after|)
  {
    hide AfterAct, OthersAllow;
    if step.Consume? {
      ActDiscards(c, MomentOf(s, step.who), step.who, Cancelled(s, step.who), step.act);
    }
  }

  lemma {:induction false} NothingDiscardedExactlyWhen(c: Config, steps: seq<Step>)
    requires IsRun(c, steps)
    ensures StateAfter(c, steps).data.ledger.discarded == multiset{} <==> NeverDiscards(c, steps)
  {
    hide Discards, Enabled, After;
    if steps == [] {
      assert StateAfter(c, steps) == Init(c);
    } else {
      var n := |steps| - 1;
      NothingDiscardedExactlyWhen(c, steps[..n]);
      DiscardedExactlyWhen(c, StateAfter(c, steps[..n]), steps[n]);
    }
  }

  lemma SettledSize(l: Ledger)
    requires CountersTrue(l)
    ensures |Settled(l)| == l.bulkIndexed + l.bulkFailed + |l.discarded|
  {
  }

  /** The two counters account for everything settled on exactly the runs that discard nothing. */
  lemma CountedExactlyWhen(c: Config, steps: seq<Step>)
    requires IsConfig(c) && IsRun(c, steps)
    ensures var l := StateAfter(c, steps).data.ledger;
            l.bulkIndexed + l.bulkFailed == |Settled(l)| <==> NeverDiscards(c, steps)
  {
    ConservationOverEveryRun(c, steps);
    NothingDiscardedExactlyWhen(c, steps);
    SettledSize(StateAfter(c, steps).data.ledger);
  }

  // Exhausting: the other way to give a batch up.

  /** The retry loop gives up on what is left after the last attempt: there is something to retry, no
      attempt left, and the context is not seen cancelled. */
  ghost predicate Exhausts(c: Config, s: State, step: Step) {
    && step.Consume? && step.act.Decision?
    && IsWorking(s, step.who) && !Cancelled(s, step.who)
    && var w := MomentOf(s, step.who).work;
       w.Deciding? && w.result.retry != [] && w.flight.attempt == c.maxRetries
  }

  lemma DecisionExhausts(c: Config, m: Moment, cancelled: bool)
    requires m.work.Deciding?
    ensures var before, after := m.data.ledger.exhausted, AfterDecision(c, m, cancelled).data.ledger.exhausted;
            && (after != before <==> !cancelled && m.work.result.retry != [] && m.work.flight.attempt == c.maxRetries)
            && (after != before ==> after == before + multiset(Tags(m.work.result.retry)))
  {
    hide Tags;
    var before, retry := m.data.ledger.exhausted, m.work.result.retry;
    SizeOfTags(retry);
    assert |before + multiset(Tags(retry))| == |before| + |retry|;
  }

  lemma ActExhausts(c: Config, m: Moment, who: Who, cancelled: bool, act: Act)
    requires ActPossible(m, cancelled, act)
    ensures var before, after := m.data.ledger.exhausted, AfterAct(c, m, who, cancelled, act).data.ledger.exhausted;
            && (after != before <==>
                  act.Decision? && !cancelled && m.work.result.retry != [] && m.work.flight.attempt == c.maxRetries)
            && (after != before ==> m.work.Deciding? && after == before + multiset(Tags(m.work.result.retry)))
  {
    hide Learn, Classify, AfterDecision;
    if act.Decision? {
      DecisionExhausts(c, m, cancelled);
    }
  }

  /** Events are counted as exhausted exactly at such a step, and just those left to retry. */
  lemma ExhaustedExactlyWhen(c: Config, s: State, step: Step)
    requires Enabled(c, s, step)
    ensures var before, after := s.data.ledger.exhausted, After(c, s, step).data.ledger.exhausted;
            && (after != before <==> Exhausts(c, s, step))
            && (after != before ==> after == before + multiset(Tags(MomentOf(s, step.who).work.result.retry)))
  {
    hide AfterAct, OthersAllow, AfterProduce, Tags;
    if step.Consume? {
      hide ActPossible;
      ActExhausts(c, MomentOf(s, step.who), step.who, Cancelled(s, step.who), step.act);
    } else if step.Produce? {
      ProduceKeepsLedger(s.data, step.policy, step.n);
    }
  }

  lemma ProduceKeepsLedger(d: Data, policy: DropPolicy, n: nat)
    ensures AfterProduce(d, policy, n).ledger == d.ledger
  {
  }

  /** What becomes of a response, with and without a cancellation seen: under one nothing is given up,
      and what is still to be sent is given back if the loop ends. */
  lemma DecisionMeans(c: Config, m: Moment, cancelled: bool)
    requires m.work.Deciding?
    ensures var w, r, f := AfterDecision(c, m, cancelled).work, m.work.result, m.work.flight;
            && (r.retry == [] && !r.err ==> w == Returned(m.work.mode, f.batch, Finished))
            && (r.retry == [] && r.err && cancelled ==> w == Returned(m.work.mode, f.batch, GivenBack(f.pending)))
            && (r.retry == [] && r.err && !cancelled ==> w == Returned(m.work.mode, f.batch, Discarded(f.pending)))
            && (r.retry != [] && f.attempt == c.maxRetries && cancelled ==> w == Returned(m.work.mode, f.batch, GivenBack(r.retry)))
            && (r.retry != [] && f.attempt == c.maxRetries && !cancelled ==> w == Returned(m.work.mode, f.batch, Exhausted(r.retry)))
            && (r.retry != [] && f.attempt != c.maxRetries ==> w == Waiting(m.work.mode, f.(pending := r.retry)))
  {
  }

  // Shutdown: the final drain runs until the queue is empty.

  /** Handlers are done when the batcher is stopped, as they are when the server shuts down in time. */
  ghost predicate QuietAfterStop(c: Config, steps: seq<Step>)
    requires IsRun(c, steps)
  {
    steps == [] || (
      && QuietAfterStop(c, steps[..|steps| - 1])
      && (steps[|steps| - 1].Produce? ==> !StateAfter(c, steps[..|steps| - 1]).runCancelled))
  }

  predicate WorkMode(w: Work, mode: Mode) {
    w.Done? || w.mode == mode
  }

  /** The final drain flushes all, and ends without error only on an empty queue. */
  ghost predicate DrainsAll(s: State) {
    s.shutdown.Final? ==>
      && WorkMode(s.shutdown.work, All)
      && (s.shutdown.work == Done(false) ==> s.data.items == [])
  }

  lemma ActDrainsAll(c: Config, m: Moment, who: Who, cancelled: bool, act: Act)
    requires ActPossible(m, cancelled, act) && WorkMode(m.work, All)
    ensures var m' := AfterAct(c, m, who, cancelled, act);
            WorkMode(m'.work, All) && (m'.work == Done(false) ==> m'.data.items == [])
  {
    hide Learn, Classify, Identify, Count, CountOutcome;
  }

  lemma DrainsAllKept(c: Config, s: State, step: Step)
    requires Ordered(s) && DrainsAll(s) && Enabled(c, s, step)
    requires step.Produce? ==> !s.runCancelled
    ensures DrainsAll(After(c, s, step))
  {
    hide AfterAct, OthersAllow;
    if step.Consume? && step.who.TheDrain? {
      ActDrainsAll(c, MomentOf(s, TheDrain), TheDrain, s.drainCancelled, step.act);
    }
  }

  lemma {:induction false} DrainsAllOverEveryRun(c: Config, steps: seq<Step>)
    requires IsConfig(c) && IsRun(c, steps) && QuietAfterStop(c, steps)
    ensures DrainsAll(StateAfter(c, steps))
  {
    hide DrainsAll, Enabled, After, Inv;
    if steps == [] {
      InitDrains(c);
    } else {
      var n := |steps| - 1;
      DrainsAllOverEveryRun(c, steps[..n]);
      RunOrdered(c, steps[..n]);
      DrainsAllKept(c, StateAfter(c, steps[..n]), steps[n]);
    }
  }

  lemma InitDrains(c: Config)
    ensures StateAfter(c, []) == Init(c) && DrainsAll(Init(c))
  {
  }

  lemma RunOrdered(c: Config, steps: seq<Step>)
    requires IsConfig(c) && IsRun(c, steps)
    ensures Ordered(StateAfter(c, steps))
  {
    InvOverEveryRun(c, steps);
  }

  /** A clean shutdown settles everything: when nothing was produced after the batcher was stopped and
      the final drain has ended without error, the queue is empty and nothing is in flight; each
      admitted event was settled, just once unless a batch was requeued in the race on cancellation. */
  lemma CleanShutdownSettlesAll(c: Config, steps: seq<Step>)
    requires IsConfig(c) && IsRun(c, steps) && QuietAfterStop(c, steps)
    requires StateAfter(c, steps).shutdown == Final(Done(false))
    ensures var d := StateAfter(c, steps).data;
            && d.items == []
            && Log(d.admitted) + d.ledger.requeued == Settled(d.ledger)
            && (RaceFree(c, steps) ==> Log(d.admitted) == Settled(d.ledger))
  {
    DrainsAllOverEveryRun(c, steps);
    ConservationOverEveryRun(c, steps);
    NothingRequeuedExactlyWhen(c, steps);
    RunOrdered(c, steps);
    NothingWaits(StateAfter(c, steps));
  }

  lemma NothingWaits(s: State)
    requires Ordered(s) && s.shutdown == Final(Done(false)) && s.data.items == []
    ensures Line(Active(s)) == [] && multiset(Tags(Line(Active(s)))) == multiset{}
  {
  }
}
