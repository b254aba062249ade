/** The running collector as a state machine: any number of request handlers adding to the queue,
    the batcher's goroutine, the shutdown goroutine with its final drain, and the server that applies
    bulk requests in its own time. A step is what one of them does without being interrupted. */
module Pipeline {
  import opened Events
  import opened RingQueue
  import opened Elastic
  import opened Retry

  datatype Config = Config(maxBatchSize: nat, maxQueueSize: nat, maxRetries: nat)

  /** The numbers the configuration check insists on. */
  predicate IsConfig(c: Config) {
    0 < c.maxBatchSize && 0 < c.maxQueueSize
  }

  /** Which loop a flush belongs to: until the queue is empty, or while a full batch waits. */
  datatype Mode = All | Full

  /** A batch between drain and return: as drained, what is left of it to send, and the attempt. */
  datatype Flight = Flight(batch: seq<Event>, pending: seq<Event>, attempt: nat)

  /** Where a goroutine stands inside a flush loop. */
  datatype Work =
    | Checking(mode: Mode)                                        // about to read the queue length
    | CheckingContext(mode: Mode)                                 // about to read the context
    | Starting(mode: Mode)                                        // flush: about to read the length again
    | Draining(mode: Mode)                                        // flush: about to drain
    | Sending(mode: Mode, flight: Flight)                         // about to build and send a request
    | Awaiting(mode: Mode, flight: Flight)                        // request out, no response yet
    | Deciding(mode: Mode, flight: Flight, result: BulkResult)    // response counted
    | Waiting(mode: Mode, flight: Flight)                         // backoff
    | Returned(mode: Mode, batch: seq<Event>, outcome: Outcome)   // the retry loop has returned
    | Done(failed: bool)                                          // the flush loop has returned

  /** The goroutine of Run. */
  datatype Runner = NotStarted | Parked | Woken | Working(work: Work) | Closing | Exited

  /** The shutdown goroutine. */
  datatype Shutdown = Serving | StoppingServer | Selecting | Final(work: Work) | TimedOut

  /** The goroutine that flushes: each has its own context. */
  datatype Who = TheRunner | TheDrain

  /** What became of the admitted events, by admission number, and the two counters. `requeued` holds
      what was put back after it had already been settled. */
  datatype Ledger = Ledger(
    indexed: multiset<nat>, failed: multiset<nat>, exhausted: multiset<nat>, discarded: multiset<nat>,
    requeued: multiset<nat>, bulkIndexed: nat, bulkFailed: nat)

  /** `names`: identifiers drawn so far, by event. `sent`: everything that ever left in a request.
      `store`: the documents, by identifier. */
  datatype Cloud = Cloud(names: map<nat, string>, sent: set<Event>, store: map<string, nat>)

  /** Everything the goroutines share but their own positions. */
  datatype Data = Data(
    items: seq<Event>,      // the queue, oldest first
    capacity: nat,
    token: bool,            // the one-slot notification channel is full
    notifying: bool,        // a handler holds the queue lock, has appended, and has not notified yet
    admitted: nat,          // length of the admission log; the n-th admitted event has tag n
    runRestored: bool,      // a batch was put back under the run context
    drainRestored: bool,    // ... under the shutdown context
    ledger: Ledger,
    cloud: Cloud)

  datatype State = State(
    runner: Runner,
    ready: bool,
    done: bool,             // the done channel is closed
    runCancelled: bool,
    shutdown: Shutdown,
    drainCancelled: bool,
    stalled: bool,          // a flush loop failed since the queue was last seen below a full batch
    data: Data)

  /** The shared data together with the position of the goroutine that is flushing. */
  datatype Moment = Moment(data: Data, work: Work)

  function EmptyData(c: Config): Data {
    Data([], c.maxQueueSize, false, false, 0, false, false,
         Ledger(multiset{}, multiset{}, multiset{}, multiset{}, multiset{}, 0, 0),
         Cloud(map[], {}, map[]))
  }

  function Init(c: Config): State {
    State(NotStarted, false, false, false, Serving, false, false, EmptyData(c))
  }

  /** What a goroutine inside a flush loop does next. `drawn` are the identifiers the random source
      would give; with `fails` the payload cannot be built after `identified` events got theirs. */
  datatype Act =
    | ReadLength
    | ReadContext
    | EnterFlush
    | TakeBatch
    | Request(drawn: seq<string>)
    | FailToBuild(drawn: seq<string>, identified: nat)
    | Respond(reply: Reply)
    | Decision
    | WaitOver
    | Interrupt
    | Conclude

  datatype Step =
    | Produce(policy: DropPolicy, n: nat)  // a handler appends a batch of n events
    | Notify                               // and notifies, before it unlocks
    | RunStart
    | Tick
    | ReceiveToken
    | WokenCheck
    | LoopReturns
    | RunStop
    | RunClose
    | Consume(who: Who, act: Act)
    | Signal
    | StopBatcher
    | BeginDrain
    | GiveUpWaiting
    | Expire
    | ServerApplies(e: Event)

  predicate IsWorking(s: State, who: Who) {
    if who.TheRunner? then s.runner.Working? else s.shutdown.Final?
  }

  function MomentOf(s: State, who: Who): Moment
    requires IsWorking(s, who)
  {
    Moment(s.data, if who.TheRunner? then s.runner.work else s.shutdown.work)
  }

  function SetMoment(s: State, who: Who, m: Moment): State {
    if who.TheRunner? then s.(data := m.data, runner := Working(m.work))
    else s.(data := m.data, shutdown := Final(m.work))
  }

  predicate Cancelled(s: State, who: Who) {
    if who.TheRunner? then s.runCancelled else s.drainCancelled
  }

  /** The next n events of the admission log. */
  function NewEvents(first: nat, n: nat): (events: seq<Event>)
    ensures |events| == n
  {
    seq(n, i requires 0 <= i < n => Event(first + i, ""))
  }

  /** The identifiers drawn for a batch are new: never drawn before, and different from each other. */
  ghost predicate FreshDraw(names: map<nat, string>, drawn: seq<string>) {
    && (forall i :: 0 <= i < |drawn| ==> drawn[i] != "" && drawn[i] !in names.Values)
    && (forall i, j :: 0 <= i < j < |drawn| ==> drawn[i] != drawn[j])
  }

  /** Records the identifiers a batch carries. */
  function Learn(names: map<nat, string>, batch: seq<Event>): map<nat, string> {
    if batch == [] then names
    else
      var last := batch[|batch| - 1];
      var rest := Learn(names, batch[..|batch| - 1]);
      if last.id == "" then rest else rest[last.tag := last.id]
  }

  /** What the server guarantees of a bulk response it completes: if it reports no errors, every document
      of the request is there; if it does, those are whose item says created (2xx) or existing (409). */
  ghost predicate Honest(store: map<string, nat>, pending: seq<Event>, reply: Reply) {
    reply.Response? && reply.status < 400 && reply.body.Decoded? ==>
      var items := reply.body.items;
      if !reply.body.errors then forall i :: 0 <= i < |pending| ==> pending[i].id in store
      else |items| == |pending| ==>
        forall i :: 0 <= i < |pending| && (200 <= items[i] < 300 || items[i] == 409) ==> pending[i].id in store
  }

  /** Whether a goroutine inside a flush loop stands where it takes this step next. */
  predicate ActPossible(m: Moment, cancelled: bool, act: Act) {
    var d, w := m.data, m.work;
    match act
    case ReadLength => w.Checking? && !d.notifying
    case ReadContext => w.CheckingContext?
    case EnterFlush => w.Starting? && !d.notifying
    case TakeBatch => w.Draining? && !d.notifying
    case Request(drawn) => w.Sending? && |drawn| == |w.flight.pending|
    case FailToBuild(drawn, _) => w.Sending? && |drawn| == |w.flight.pending|
    case Respond(reply) => w.Awaiting? && !reply.BuildError?
    case Decision => w.Deciding?
    case WaitOver => w.Waiting?
    case Interrupt => w.Waiting? && cancelled
    case Conclude => w.Returned? && !d.notifying
  }

  /** What is assumed of the random source and of the server. */
  ghost predicate OthersAllow(m: Moment, act: Act) {
    match act
    case Request(drawn) => FreshDraw(m.data.cloud.names, drawn)
    case FailToBuild(drawn, _) => FreshDraw(m.data.cloud.names, drawn)
    case Respond(reply) => m.work.Awaiting? ==> Honest(m.data.cloud.store, m.work.flight.pending, reply)
    case _ => true
  }

  ghost predicate ActEnabled(m: Moment, cancelled: bool, act: Act) {
    ActPossible(m, cancelled, act) && OthersAllow(m, act)
  }

  ghost predicate Enabled(c: Config, s: State, step: Step) {
    match step
    case Produce(_, _) => !s.data.notifying
    case Notify => s.data.notifying
    case RunStart => s.runner.NotStarted?
    case Tick => s.runner.Parked?
    case ReceiveToken => s.runner.Parked? && s.data.token
    case WokenCheck => s.runner.Woken? && !s.data.notifying
    case LoopReturns => s.runner.Working? && s.runner.work.Done?
    case RunStop => s.runner.Parked? && s.runCancelled
    case RunClose => s.runner.Closing?
    case Consume(who, act) => IsWorking(s, who) && ActEnabled(MomentOf(s, who), Cancelled(s, who), act)
    case Signal => s.shutdown.Serving?
    case StopBatcher => s.shutdown.StoppingServer?
    case BeginDrain => s.shutdown.Selecting? && s.done
    case GiveUpWaiting => s.shutdown.Selecting? && s.drainCancelled
    case Expire => !s.shutdown.Serving?
    case ServerApplies(e) => e in s.data.cloud.sent && e.id !in s.data.cloud.store
  }

  function AfterReadLength(c: Config, m: Moment): Moment
    requires m.work.Checking?
  {
    var go := if m.work.mode.All? then |m.data.items| > 0 else |m.data.items| >= c.maxBatchSize;
    m.(work := if go then CheckingContext(m.work.mode) else Done(false))
  }

  function AfterTakeBatch(c: Config, m: Moment): Moment
    requires m.work.Draining?
  {
    var items := m.data.items;
    var k := DrainCount(|items|, c.maxBatchSize);
    if k == 0 then m.(work := Checking(m.work.mode))
    else Moment(m.data.(items := items[k..]), Sending(m.work.mode, Flight(items[..k], items[..k], 0)))
  }

  /** The payload loop: identifiers written through the slice. On the first attempt `pending` is the
      drained batch itself, so the batch sees them too. */
  function WithIdentifiers(f: Flight, count: nat, drawn: seq<string>): Flight
    requires |drawn| == |f.pending|
  {
    var pending := Identify(f.pending, count, drawn);
    Flight(if f.attempt == 0 then pending else f.batch, pending, f.attempt)
  }

  function Named(d: Data, batch: seq<Event>): Data {
    d.(cloud := d.cloud.(names := Learn(d.cloud.names, batch)))
  }

  function AfterRequest(m: Moment, drawn: seq<string>): Moment
    requires m.work.Sending? && |drawn| == |m.work.flight.pending|
  {
    var f := WithIdentifiers(m.work.flight, |m.work.flight.pending|, drawn);
    var d := Named(m.data, f.pending);
    Moment(d.(cloud := d.cloud.(sent := d.cloud.sent + set e | e in f.pending)), Awaiting(m.work.mode, f))
  }

  function AfterFailToBuild(m: Moment, drawn: seq<string>, identified: nat): Moment
    requires m.work.Sending? && |drawn| == |m.work.flight.pending|
  {
    var f := WithIdentifiers(m.work.flight, identified, drawn);
    Moment(Named(m.data, f.pending), Deciding(m.work.mode, f, Classify(f.pending, BuildError(identified))))
  }

  function Count(l: Ledger, result: BulkResult): Ledger {
    l.(indexed := l.indexed + multiset(Tags(result.indexed)),
       failed := l.failed + multiset(Tags(result.failed)),
       bulkIndexed := l.bulkIndexed + |result.indexed|,
       bulkFailed := l.bulkFailed + |result.failed|)
  }

  function AfterRespond(m: Moment, reply: Reply): Moment
    requires m.work.Awaiting?
  {
    var result := Classify(m.work.flight.pending, reply);
    Moment(m.data.(ledger := Count(m.data.ledger, result)), Deciding(m.work.mode, m.work.flight, result))
  }

  function CountOutcome(l: Ledger, outcome: Outcome): Ledger {
    match outcome
    case Exhausted(p) => l.(exhausted := l.exhausted + multiset(Tags(p)), bulkFailed := l.bulkFailed + |p|)
    case Discarded(p) => l.(discarded := l.discarded + multiset(Tags(p)))
    case _ => l
  }

  function AfterDecision(c: Config, m: Moment, cancelled: bool): Moment
    requires m.work.Deciding?
  {
    var f := m.work.flight;
    match Decide(c.maxRetries, f.attempt, f.pending, m.work.result, cancelled)
    case Return(outcome) =>
      Moment(m.data.(ledger := CountOutcome(m.data.ledger, outcome)), Returned(m.work.mode, f.batch, outcome))
    case TryAgain(pending) =>
      m.(work := Waiting(m.work.mode, f.(pending := pending)))
  }

  /** The tail of flush after an error under a cancelled context: pending events are put back; when
      the retry loop had not noticed the cancellation, the whole batch is. */
  function PutBack(d: Data, who: Who, batch: seq<Event>, outcome: Outcome): Data {
    var back := if outcome.GivenBack? then outcome.pending else batch;
    var again := if outcome.GivenBack? then multiset{} else multiset(Tags(batch));
    d.(items := back + d.items,
       capacity := CapacityAfterRestore(|d.items|, d.capacity, |back|),
       token := true,
       runRestored := d.runRestored || who.TheRunner?,
       drainRestored := d.drainRestored || who.TheDrain?,
       ledger := d.ledger.(requeued := d.ledger.requeued + again))
  }

  function AfterConclude(m: Moment, who: Who, cancelled: bool): Moment
    requires m.work.Returned?
  {
    if m.work.outcome.Finished? then m.(work := Checking(m.work.mode))
    else Moment(if cancelled then PutBack(m.data, who, m.work.batch, m.work.outcome) else m.data, Done(true))
  }

  function AfterAct(c: Config, m: Moment, who: Who, cancelled: bool, act: Act): Moment
    requires ActPossible(m, cancelled, act)
  {
    var w := m.work;
    match act
    case ReadLength => AfterReadLength(c, m)
    case ReadContext => m.(work := if cancelled then Done(true) else Starting(w.mode))
    case EnterFlush => m.(work := if m.data.items == [] then Checking(w.mode) else Draining(w.mode))
    case TakeBatch => AfterTakeBatch(c, m)
    case Request(drawn) => AfterRequest(m, drawn)
    case FailToBuild(drawn, identified) => AfterFailToBuild(m, drawn, identified)
    case Respond(reply) => AfterRespond(m, reply)
    case Decision => AfterDecision(c, m, cancelled)
    case WaitOver => m.(work := Sending(w.mode, w.flight.(attempt := w.flight.attempt + 1)))
    case Interrupt => m.(work := Returned(w.mode, w.flight.batch, GivenBack(w.flight.pending)))
    case Conclude => AfterConclude(m, who, cancelled)
  }

  function AfterProduce(d: Data, policy: DropPolicy, n: nat): Data {
    if !Appends(policy, |d.items|, d.capacity, n) then d
    else
      var k := Accepted(policy, |d.items|, d.capacity, n);
      d.(items := d.items + NewEvents(d.admitted, k), admitted := d.admitted + k, notifying := true)
  }

  ghost function After(c: Config, s: State, step: Step): State
    requires Enabled(c, s, step)
  {
    match step
    case Produce(policy, n) => s.(data := AfterProduce(s.data, policy, n))
    case Notify => s.(data := s.data.(notifying := false, token := true))
    case RunStart => s.(runner := Parked, ready := true)
    case Tick => s.(runner := Working(Checking(All)))
    case ReceiveToken => s.(runner := Woken, data := s.data.(token := false))
    case WokenCheck =>
      if |s.data.items| >= c.maxBatchSize then s.(runner := Working(Checking(Full)))
      else s.(runner := Parked, stalled := false)
    case LoopReturns => s.(runner := Parked, stalled := s.runner.work.failed)
    case RunStop => s.(runner := Closing, ready := false)
    case RunClose => s.(runner := Exited, done := true)
    case Consume(who, act) => SetMoment(s, who, AfterAct(c, MomentOf(s, who), who, Cancelled(s, who), act))
    case Signal => s.(shutdown := StoppingServer)
    case StopBatcher => s.(shutdown := Selecting, runCancelled := true)
    case BeginDrain => s.(shutdown := Final(Checking(All)))
    case GiveUpWaiting => s.(shutdown := TimedOut)
    case Expire => s.(drainCancelled := true)
    case ServerApplies(e) =>
      s.(data := s.data.(cloud := s.data.cloud.(store := s.data.cloud.store[e.id := e.tag])))
  }

  /** A run is a sequence of steps, each possible where it is taken. */
  ghost predicate IsRun(c: Config, steps: seq<Step>)
    decreases |steps|, 0
  {
    steps == [] || (
      && IsRun(c, steps[..|steps| - 1])
      && Enabled(c, StateAfter(c, steps[..|steps| - 1]), steps[|steps| - 1]))
  }

  ghost function StateAfter(c: Config, steps: seq<Step>): State
    requires IsRun(c, steps)
    decreases |steps|, 1
  {
    if steps == [] then Init(c)
    else After(c, StateAfter(c, steps[..|steps| - 1]), steps[|steps| - 1])
  }
}
