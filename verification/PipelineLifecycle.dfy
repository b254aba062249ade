/** Shutdown and growth: one goroutine flushes at a time, and the queue stays bounded. */
module PipelineLifecycle {
  import opened Events
  import opened Sequences
  import opened RingQueue
  import opened Elastic
  import opened Retry
  import opened Pipeline

  /** The final drain begins after Run has closed its channel, by which time the collector no longer
      reports ready; Run only ends once it was told to, and is told to after the server was stopped. */
  ghost predicate Ordered(s: State) {
    && (s.done <==> s.runner.Exited?)
    && (s.ready <==> s.runner.Parked? || s.runner.Woken? || s.runner.Working?)
    && (s.shutdown.Final? ==> s.done)
    && (s.runner.Closing? || s.runner.Exited? ==> s.runCancelled)
    && (s.runCancelled <==> !s.shutdown.Serving? && !s.shutdown.StoppingServer?)
    && (s.drainCancelled ==> !s.shutdown.Serving?)
  }

  lemma OrderedKept(c: Config, s: State, step: Step)
    requires Ordered(s) && Enabled(c, s, step)
    ensures Ordered(After(c, s, step))
  {
  }

  /** At no time are two goroutines inside a flush loop. */
  lemma SingleConsumer(s: State)
    requires Ordered(s)
    ensures !(IsWorking(s, TheRunner) && IsWorking(s, TheDrain))
    ensures IsWorking(s, TheDrain) ==> s.done && !s.ready
  {
  }

  /** Where the flushing goroutine stands, if there is one. */
  function Active(s: State): Moment {
    if s.runner.Working? then Moment(s.data, s.runner.work)
    else if s.shutdown.Final? then Moment(s.data, s.shutdown.work)
    else Moment(s.data, Done(false))
  }

  /** Holds no batch. */
  predicate EmptyHanded(w: Work) {
    w.Checking? || w.CheckingContext? || w.Starting? || w.Draining? || w.Done?
  }

  /** A step is an act of the flushing goroutine, or leaves what it holds alone. */
  ghost predicate Explains(c: Config, s: State, step: Step, m: Moment, m': Moment) {
    match step
    case Consume(who, act) =>
      ActEnabled(m, Cancelled(s, who), act) && m' == AfterAct(c, m, who, Cancelled(s, who), act)
    case Produce(policy, n) => m' == m.(data := AfterProduce(m.data, policy, n))
    case Notify => m' == m.(data := m.data.(notifying := false, token := true))
    case ReceiveToken => m' == m.(data := m.data.(token := false))
    case ServerApplies(e) =>
      && e in m.data.cloud.sent
      && e.id !in m.data.cloud.store
      && m' == m.(data := m.data.(cloud := m.data.cloud.(store := m.data.cloud.store[e.id := e.tag])))
    case _ => m'.data == m.data && (m'.work == m.work || (EmptyHanded(m.work) && EmptyHanded(m'.work)))
  }

  lemma StepExplained(c: Config, s: State, step: Step)
    requires Ordered(s) && Enabled(c, s, step)
    ensures Explains(c, s, step, Active(s), Active(After(c, s, step)))
  {
  }

  /** Past the context check of the loop, and not yet back in it. */
  predicate InFlush(w: Work) {
    !w.Checking? && !w.CheckingContext? && !w.Done?
  }

  predicate Restored(d: Data, who: Who) {
    if who.TheRunner? then d.runRestored else d.drainRestored
  }

  ghost predicate FlightBounded(c: Config, f: Flight) {
    |f.batch| <= c.maxBatchSize && |f.pending| <= c.maxBatchSize && f.attempt <= c.maxRetries
  }

  /** Sizes of everything the flushing goroutine holds. */
  ghost predicate WorkBounded(c: Config, w: Work) {
    match w
    case Sending(_, f) => FlightBounded(c, f)
    case Awaiting(_, f) => FlightBounded(c, f)
    case Waiting(_, f) => FlightBounded(c, f) && f.attempt < c.maxRetries
    case Deciding(_, f, r) => FlightBounded(c, f) && |r.retry| <= |f.pending|
    case Returned(_, batch, outcome) => |batch| <= c.maxBatchSize && |Pending(outcome)| <= c.maxBatchSize
    case _ => true
  }

  /** One batch per context that has seen a restore. */
  function Extra(c: Config, d: Data): nat {
    (if d.runRestored then c.maxBatchSize else 0) + (if d.drainRestored then c.maxBatchSize else 0)
  }

  ghost predicate DataBounded(c: Config, d: Data) {
    && |d.items| <= d.capacity
    && c.maxQueueSize <= d.capacity <= c.maxQueueSize + Extra(c, d)
    && |d.ledger.requeued| <= Extra(c, d)
  }

  /** A batch is put back at most once per context: a restore happens under a cancelled context, and
      no flush starts under one. */
  ghost predicate RestoresOnce(m: Moment, who: Who, cancelled: bool) {
    && (Restored(m.data, who) ==> cancelled)
    && (InFlush(m.work) ==> !Restored(m.data, who))
  }

  ghost predicate Bounded(c: Config, s: State) {
    && DataBounded(c, s.data)
    && (s.data.runRestored ==> s.runCancelled)
    && (s.data.drainRestored ==> s.drainCancelled)
    && (s.runner.Working? ==> WorkBounded(c, s.runner.work) && (InFlush(s.runner.work) ==> !s.data.runRestored))
    && (s.shutdown.Final? ==> WorkBounded(c, s.shutdown.work) && (InFlush(s.shutdown.work) ==> !s.data.drainRestored))
  }

  /** What an act does to the bounds, with nothing said of the rest. */
  ghost predicate Within(c: Config, m: Moment, who: Who, cancelled: bool, m': Moment) {
    && DataBounded(c, m'.data)
    && WorkBounded(c, m'.work)
    && RestoresOnce(m', who, cancelled)
    && m.data.capacity <= m'.data.capacity
    && (who.TheRunner? ==> m'.data.drainRestored == m.data.drainRestored)
    && (who.TheDrain? ==> m'.data.runRestored == m.data.runRestored)
  }

  lemma ConcludeKeepsBounded(c: Config, m: Moment, who: Who, cancelled: bool)
    requires Within(c, m, who, cancelled, m) && m.work.Returned?
    ensures Within(c, m, who, cancelled, AfterConclude(m, who, cancelled))
  {
  }

  lemma DecisionKeepsBounded(c: Config, m: Moment, who: Who, cancelled: bool)
    requires Within(c, m, who, cancelled, m) && m.work.Deciding?
    ensures Within(c, m, who, cancelled, AfterDecision(c, m, cancelled))
  {
  }

  lemma TakeBatchKeepsBounded(c: Config, m: Moment, who: Who, cancelled: bool)
    requires IsConfig(c) && Within(c, m, who, cancelled, m) && m.work.Draining?
    ensures Within(c, m, who, cancelled, AfterTakeBatch(c, m))
  {
  }

  lemma RequestKeepsBounded(c: Config, m: Moment, who: Who, cancelled: bool, drawn: seq<string>)
    requires Within(c, m, who, cancelled, m) && m.work.Sending? && |drawn| == |m.work.flight.pending|
    ensures Within(c, m, who, cancelled, AfterRequest(m, drawn))
  {
    hide Learn;
  }

  lemma FailToBuildKeepsBounded(c: Config, m: Moment, who: Who, cancelled: bool, drawn: seq<string>, identified: nat)
    requires Within(c, m, who, cancelled, m) && m.work.Sending? && |drawn| == |m.work.flight.pending|
    ensures Within(c, m, who, cancelled, AfterFailToBuild(m, drawn, identified))
  {
    hide Learn;
  }

  lemma RespondKeepsBounded(c: Config, m: Moment, who: Who, cancelled: bool, reply: Reply)
    requires Within(c, m, who, cancelled, m) && m.work.Awaiting?
    ensures Within(c, m, who, cancelled, AfterRespond(m, reply))
  {
    hide Classify;
    RetryIsSmaller(m.work.flight.pending, reply);
  }

  lemma RetryIsSmaller(pending: seq<Event>, reply: Reply)
    ensures |Classify(pending, reply).retry| <= |pending|
  {
    ClassifyPartitions(pending, reply);
    SubsequenceElements(Classify(pending, reply).retry, pending);
  }

  lemma ActKeepsBounded(c: Config, m: Moment, who: Who, cancelled: bool, act: Act)
    requires IsConfig(c) && Within(c, m, who, cancelled, m) && ActEnabled(m, cancelled, act)
    ensures Within(c, m, who, cancelled, AfterAct(c, m, who, cancelled, act))
  {
    hide AfterTakeBatch, AfterRequest, AfterFailToBuild, AfterRespond, AfterDecision, AfterConclude, FreshDraw, Honest;
    match act
    case TakeBatch => TakeBatchKeepsBounded(c, m, who, cancelled);
    case Request(drawn) => RequestKeepsBounded(c, m, who, cancelled, drawn);
    case FailToBuild(drawn, identified) => FailToBuildKeepsBounded(c, m, who, cancelled, drawn, identified);
    case Respond(reply) => RespondKeepsBounded(c, m, who, cancelled, reply);
    case Conclude => ConcludeKeepsBounded(c, m, who, cancelled);
    case Decision => DecisionKeepsBounded(c, m, who, cancelled);
    case _ =>
  }

  lemma ConsumeKeepsBounded(c: Config, s: State, who: Who, act: Act)
    requires IsConfig(c) && Ordered(s) && Bounded(c, s) && Enabled(c, s, Consume(who, act))
    ensures Bounded(c, After(c, s, Consume(who, act)))
    ensures s.data.capacity <= After(c, s, Consume(who, act)).data.capacity
  {
    ActKeepsBounded(c, MomentOf(s, who), who, Cancelled(s, who), act);
  }

  lemma ProduceKeepsBounded(c: Config, d: Data, policy: DropPolicy, n: nat)
    requires DataBounded(c, d)
    ensures var after := AfterProduce(d, policy, n);
            DataBounded(c, after) && after.capacity == d.capacity
            && after.runRestored == d.runRestored && after.drainRestored == d.drainRestored
  {
  }

  lemma BoundedKept(c: Config, s: State, step: Step)
    requires IsConfig(c) && Ordered(s) && Bounded(c, s) && Enabled(c, s, step)
    ensures Bounded(c, After(c, s, step))
    ensures s.data.capacity <= After(c, s, step).data.capacity
  {
    hide AfterAct, ActEnabled, AfterProduce;
    match step
    case Consume(who, act) => ConsumeKeepsBounded(c, s, who, act);
    case Produce(policy, n) => ProduceKeepsBounded(c, s.data, policy, n);
    case _ =>
  }
}
