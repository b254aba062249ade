/** The batcher's flush, as a class over arrays, takes the steps of the state machine. */
module PipelineRefinement {
  import opened Events
  import opened Sequences
  import opened RingQueue
  import opened Elastic
  import opened Retry
  import opened Pipeline
  import opened Batching

  /** A step of the flushing goroutine, and whether its context is cancelled by then. */
  datatype Turn = Turn(act: Act, cancelled: bool)

  const NO_CALLS: seq<Try> := []

  /** A context stays cancelled. */
  ghost predicate Patient(turns: seq<Turn>) {
    forall i, j :: 0 <= i < j < |turns| && turns[i].cancelled ==> turns[j].cancelled
  }

  ghost predicate Calm(turns: seq<Turn>) {
    forall i :: 0 <= i < |turns| ==> !turns[i].cancelled
  }

  /** The bulk call that a step completes. */
  function CallOf(m: Moment, act: Act): seq<Try> {
    match act
    case FailToBuild(drawn, identified) =>
      if m.work.Sending? && |drawn| == |m.work.flight.pending|
      then [Try(Identify(m.work.flight.pending, identified, drawn), BuildError(identified))] else []
    case Respond(reply) => if m.work.Awaiting? then [Try(m.work.flight.pending, reply)] else []
    case _ => []
  }

  /** These steps lead from one moment to another, with these bulk calls on the way. */
  ghost predicate Leads(c: Config, who: Who, m: Moment, turns: seq<Turn>, m': Moment, calls: seq<Try>)
    decreases |turns|
  {
    if turns == [] then m' == m && calls == []
    else
      var act, cancelled := turns[0].act, turns[0].cancelled;
      && ActPossible(m, cancelled, act)
      && CallOf(m, act) <= calls
      && Leads(c, who, AfterAct(c, m, who, cancelled, act), turns[1..], m', calls[|CallOf(m, act)|..])
  }

  lemma OneStep(c: Config, who: Who, m: Moment, act: Act, cancelled: bool)
    requires ActPossible(m, cancelled, act)
    ensures Leads(c, who, m, [Turn(act, cancelled)], AfterAct(c, m, who, cancelled, act), CallOf(m, act))
  {
    var turns, m', calls := [Turn(act, cancelled)], AfterAct(c, m, who, cancelled, act), CallOf(m, act);
    assert turns[1..] == [] && calls[|calls|..] == [];
    assert Leads(c, who, m', [], m', []);
  }

  lemma {:induction false} Join(c: Config, who: Who, m: Moment, first: seq<Turn>, m1: Moment, calls1: seq<Try>,
                                second: seq<Turn>, m2: Moment, calls2: seq<Try>)
    requires Leads(c, who, m, first, m1, calls1) && Leads(c, who, m1, second, m2, calls2)
    ensures Leads(c, who, m, first + second, m2, calls1 + calls2)
    decreases |first|
  {
    hide AfterAct, ActPossible, CallOf;
    if first == [] {
      assert first + second == second && calls1 + calls2 == calls2;
    } else {
      var call := CallOf(m, first[0].act);
      Join(c, who, AfterAct(c, m, who, first[0].cancelled, first[0].act), first[1..], m1, calls1[|call|..], second, m2, calls2);
      assert (first + second)[1..] == first[1..] + second;
      assert (calls1 + calls2)[|call|..] == calls1[|call|..] + calls2;
    }
  }

  /** The queue is untouched. */
  predicate SameQueue(d: Data, d': Data) {
    d'.items == d.items && d'.capacity == d.capacity && d'.token == d.token && d'.notifying == d.notifying
  }

  /** The ledger after a series of calls. */
  ghost function CountAll(l: Ledger, tries: seq<Try>): Ledger {
    if tries == [] then l else Count(CountAll(l, tries[..|tries| - 1]), tries[|tries| - 1].Result())
  }

  lemma {:induction false} CountFirst(l: Ledger, t: Try, tries: seq<Try>)
    ensures CountAll(l, [t] + tries) == CountAll(Count(l, t.Result()), tries)
  {
    hide Count;
    var all := [t] + tries;
    if tries == [] {
      assert all[..0] == [] && CountAll(l, []) == l;
    } else {
      var n := |tries| - 1;
      CountFirst(l, t, tries[..n]);
      assert all[..n + 1] == [t] + tries[..n] && all[n + 1] == tries[n];
    }
  }

  /** ... counts what was indexed and what failed along the way. */
  lemma {:induction false} CountAllCounts(l: Ledger, tries: seq<Try>)
    ensures CountAll(l, tries).bulkIndexed == l.bulkIndexed + |IndexedIn(tries)|
    ensures CountAll(l, tries).bulkFailed == l.bulkFailed + |FailedIn(tries)|
  {
    hide Classify;
    if tries != [] {
      CountAllCounts(l, tries[..|tries| - 1]);
    }
  }

  lemma BuildErrorCountsNothing(l: Ledger, pending: seq<Event>, identified: nat)
    ensures Count(l, Classify(pending, BuildError(identified))) == l
  {
    assert Tags([]) == [];
    assert l.indexed + multiset{} == l.indexed && l.failed + multiset{} == l.failed;
  }

  /** The flight as a call leaves it: identifiers written through the slice. */
  function FlightAfter(f: Flight, t: Try): Flight {
    Flight(if f.attempt == 0 then t.pending else f.batch, t.pending, f.attempt)
  }

  /** This call is made by sending what the flight has pending. */
  predicate Sends(f: Flight, t: Try, drawn: seq<string>) {
    |drawn| == |f.pending| && t.pending == Identify(f.pending, IdentifiedBy(t.reply, |f.pending|), drawn)
  }

  /** One bulk call: to the point where its response has been counted. */
  lemma CallSteps(c: Config, who: Who, m: Moment, t: Try, drawn: seq<string>) returns (turns: seq<Turn>, m': Moment)
    requires m.work.Sending? && Sends(m.work.flight, t, drawn)
    ensures Leads(c, who, m, turns, m', [t]) && Calm(turns)
    ensures m'.work == Deciding(m.work.mode, FlightAfter(m.work.flight, t), t.Result())
    ensures SameQueue(m.data, m'.data) && m'.data.ledger == Count(m.data.ledger, t.Result())
  {
    hide Leads, Classify, Identify, Learn;
    if t.reply.BuildError? {
      var act := FailToBuild(drawn, t.reply.identified);
      OneStep(c, who, m, act, false);
      BuildErrorCountsNothing(m.data.ledger, t.pending, t.reply.identified);
      turns, m' := [Turn(act, false)], AfterAct(c, m, who, false, act);
    } else {
      var m1 := AfterAct(c, m, who, false, Request(drawn));
      OneStep(c, who, m, Request(drawn), false);
      OneStep(c, who, m1, Respond(t.reply), false);
      turns, m' := [Turn(Request(drawn), false)] + [Turn(Respond(t.reply), false)], AfterAct(c, m1, who, false, Respond(t.reply));
      Join(c, who, m, [Turn(Request(drawn), false)], m1, [], [Turn(Respond(t.reply), false)], m', [t]);
      assert [] + [t] == [t];
    }
  }

  /** What the retry loop makes of its last response. */
  lemma EndSteps(c: Config, who: Who, m: Moment, t: Try, outcome: Outcome, waited: bool) returns (turns: seq<Turn>, m': Moment)
    requires m.work.Deciding? && m.work.result == t.Result() && m.work.flight.pending == t.pending
    requires Ends(t, m.work.flight.attempt, c.maxRetries, outcome, waited)
    ensures Leads(c, who, m, turns, m', []) && Patient(turns)
    ensures forall i :: 0 <= i < |turns| && turns[i].cancelled ==> outcome.GivenBack?
    ensures m'.work == Returned(m.work.mode, m.work.flight.batch, outcome)
    ensures SameQueue(m.data, m'.data) && m'.data.ledger == CountOutcome(m.data.ledger, outcome)
  {
    hide Leads, Classify;
    if waited {
      OneStep(c, who, m, Decision, false);
      var m1 := AfterAct(c, m, who, false, Decision);
      OneStep(c, who, m1, Interrupt, true);
      m' := AfterAct(c, m1, who, true, Interrupt);
      turns := [Turn(Decision, false)] + [Turn(Interrupt, true)];
      Join(c, who, m, [Turn(Decision, false)], m1, [], [Turn(Interrupt, true)], m', []);
      assert NO_CALLS + NO_CALLS == NO_CALLS;
    } else {
      var seen := Decide(c.maxRetries, m.work.flight.attempt, t.pending, t.Result(), false) != Return(outcome);
      OneStep(c, who, m, Decision, seen);
      m' := AfterAct(c, m, who, seen, Decision);
      turns := [Turn(Decision, seen)];
    }
  }

  /** ... and of one that leaves something to retry. */
  lemma AgainSteps(c: Config, who: Who, m: Moment) returns (turns: seq<Turn>, m': Moment)
    requires m.work.Deciding? && m.work.result.retry != [] && m.work.flight.attempt < c.maxRetries
    ensures Leads(c, who, m, turns, m', []) && Calm(turns) && m'.data == m.data
    ensures m'.work == Sending(m.work.mode, Flight(m.work.flight.batch, m.work.result.retry, m.work.flight.attempt + 1))
  {
    hide Leads;
    OneStep(c, who, m, Decision, false);
    var m1 := AfterAct(c, m, who, false, Decision);
    OneStep(c, who, m1, WaitOver, false);
    m' := AfterAct(c, m1, who, false, WaitOver);
    turns := [Turn(Decision, false)] + [Turn(WaitOver, false)];
    Join(c, who, m, [Turn(Decision, false)], m1, [], [Turn(WaitOver, false)], m', []);
    assert NO_CALLS + NO_CALLS == NO_CALLS;
  }

  /** What every call but the first sends has its identifiers. */
  ghost predicate RetriesIdentified(history: seq<Try>) {
    forall i :: 0 < i < |history| ==> AllIdentified(history[i].pending)
  }

  lemma PatientAfterCalm(calm: seq<Turn>, turns: seq<Turn>)
    requires Calm(calm) && Patient(turns)
    ensures Patient(calm + turns)
    ensures forall i :: 0 <= i < |calm + turns| && (calm + turns)[i].cancelled ==> exists j :: 0 <= j < |turns| && turns[j].cancelled
  {
    forall i | 0 <= i < |calm + turns| && (calm + turns)[i].cancelled
      ensures exists j :: 0 <= j < |turns| && turns[j].cancelled
    {
      assert turns[i - |calm|].cancelled;
    }
  }

  /** How a part of the loop ends: where it stands, what it counted, and who saw a cancellation. */
  ghost predicate LoopEnds(m: Moment, turns: seq<Turn>, m': Moment, tries: seq<Try>, batch: seq<Event>, outcome: Outcome)
    requires m.work.Sending?
  {
    && Patient(turns)
    && (forall i :: 0 <= i < |turns| && turns[i].cancelled ==> outcome.GivenBack?)
    && m'.work == Returned(m.work.mode, batch, outcome)
    && SameQueue(m.data, m'.data)
    && m'.data.ledger == CountOutcome(CountAll(m.data.ledger, tries), outcome)
  }

  /** The last call of the loop. */
  lemma LastCall(c: Config, who: Who, m: Moment, t: Try, drawn: seq<string>, outcome: Outcome, waited: bool)
    returns (turns: seq<Turn>, m': Moment)
    requires m.work.Sending? && Sends(m.work.flight, t, drawn)
    requires Ends(t, m.work.flight.attempt, c.maxRetries, outcome, waited)
    ensures Leads(c, who, m, turns, m', [t])
    ensures LoopEnds(m, turns, m', [t], FlightAfter(m.work.flight, t).batch, outcome)
  {
    hide Leads, Classify, Identify, Ends, Count, CountOutcome, Patient, Calm;
    var calling, m1 := CallSteps(c, who, m, t, drawn);
    var ending;
    ending, m' := EndSteps(c, who, m1, t, outcome, waited);
    turns := calling + ending;
    Join(c, who, m, calling, m1, [t], ending, m', []);
    assert [t] + [] == [t];
    PatientAfterCalm(calling, ending);
    CountOne(m.data.ledger, t);
  }

  /** A call that is not the last, up to the next. */
  lemma NextCall(c: Config, who: Who, m: Moment, t: Try, drawn: seq<string>) returns (turns: seq<Turn>, m': Moment)
    requires m.work.Sending? && Sends(m.work.flight, t, drawn)
    requires t.Result().retry != [] && m.work.flight.attempt < c.maxRetries
    ensures Leads(c, who, m, turns, m', [t]) && Calm(turns)
    ensures m'.work == Sending(m.work.mode,
                               Flight(FlightAfter(m.work.flight, t).batch, t.Result().retry, m.work.flight.attempt + 1))
    ensures SameQueue(m.data, m'.data) && m'.data.ledger == Count(m.data.ledger, t.Result())
  {
    hide Leads, Classify, Identify, Count;
    var calling, m1 := CallSteps(c, who, m, t, drawn);
    var again;
    again, m' := AgainSteps(c, who, m1);
    turns := calling + again;
    Join(c, who, m, calling, m1, [t], again, m', []);
    assert [t] + [] == [t];
  }

  /** One more call before a part of the loop. */
  lemma LoopExtends(m: Moment, calling: seq<Turn>, m1: Moment, t: Try, rest: seq<Turn>, m': Moment, tries: seq<Try>,
                    batch: seq<Event>, outcome: Outcome)
    requires m.work.Sending? && m1.work.Sending? && m1.work.mode == m.work.mode
    requires Calm(calling) && SameQueue(m.data, m1.data) && m1.data.ledger == Count(m.data.ledger, t.Result())
    requires LoopEnds(m1, rest, m', tries, batch, outcome)
    ensures LoopEnds(m, calling + rest, m', [t] + tries, batch, outcome)
  {
    hide Patient, Calm, Count, CountAll, CountOutcome;
    PatientAfterCalm(calling, rest);
    CountFirst(m.data.ledger, t, tries);
  }

  /** The retry loop from a given attempt on. */
  lemma {:induction false} LoopSteps(c: Config, who: Who, m: Moment, history: seq<Try>, a: nat, drawn: seq<string>,
                                     outcome: Outcome, waited: bool)
    returns (turns: seq<Turn>, m': Moment)
    requires IsHistory(history) && RetriesIdentified(history) && EndsWith(history, c.maxRetries, outcome, waited)
    requires a < |history| && m.work.Sending? && m.work.flight.attempt == a && Sends(m.work.flight, history[a], drawn)
    ensures Leads(c, who, m, turns, m', history[a..])
    ensures LoopEnds(m, turns, m', history[a..], FlightAfter(m.work.flight, history[a]).batch, outcome)
    decreases |history| - a
  {
    hide Leads, Classify, Identify, AllIdentified, LoopEnds, Sends, Count;
    var t := history[a];
    if a == |history| - 1 {
      assert history[a..] == [t];
      turns, m' := LastCall(c, who, m, t, drawn, outcome, waited);
    } else {
      assert history[a..] == [t] + history[a + 1..];
      AttemptsLeft(history, c.maxRetries, outcome, waited);
      var calling, m1 := NextCall(c, who, m, t, drawn);
      var next := seq(|history[a + 1].pending|, _ => "x");
      RetrySends(m1.work.flight, history[a + 1], next);
      var rest;
      rest, m' := LoopSteps(c, who, m1, history, a + 1, next, outcome, waited);
      Join(c, who, m, calling, m1, [t], rest, m', history[a + 1..]);
      LoopExtends(m, calling, m1, t, rest, m', history[a + 1..], FlightAfter(m.work.flight, t).batch, outcome);
      turns := calling + rest;
    }
  }

  lemma AttemptsLeft(history: seq<Try>, maxRetries: nat, outcome: Outcome, waited: bool)
    requires IsHistory(history) && EndsWith(history, maxRetries, outcome, waited)
    ensures |history| <= maxRetries + 1
  {
  }

  lemma CountOne(l: Ledger, t: Try)
    ensures CountAll(l, [t]) == Count(l, t.Result())
  {
    assert [t][..0] == [] && CountAll(l, []) == l;
  }

  lemma RetrySends(f: Flight, t: Try, drawn: seq<string>)
    requires f.pending == t.pending && AllIdentified(t.pending) && |drawn| == |t.pending|
    ensures Sends(f, t, drawn)
  {
    IdentifiedStay(f.pending, IdentifiedBy(t.reply, |f.pending|), drawn);
  }

  /** Later calls of a flush carry identifiers, because the first one drew them. */
  lemma {:induction false} FlushRetriesIdentified(history: seq<Try>, drained: seq<Event>, drawn: seq<string>)
    requires IsHistory(history) && |drawn| == |drained|
    requires forall i :: 0 <= i < |drawn| ==> drawn[i] != ""
    requires history[0].pending == Identify(drained, IdentifiedBy(history[0].reply, |drained|), drawn)
    ensures RetriesIdentified(history)
  {
    hide Classify, Identify, AllIdentified;
    var n := |history| - 1;
    if n > 0 {
      HistoryPrefix(history, n);
      FlushRetriesIdentified(history[..n], drained, drawn);
      assert history[n].pending == history[n - 1].Result().retry;
      if n == 1 {
        RetriesAreIdentified(drained, drawn, history[0].reply);
      } else {
        assert AllIdentified(history[..n][n - 1].pending);
        ClassifyPartitions(history[n - 1].pending, history[n - 1].reply);
        SubsequenceIdentified(history[n].pending, history[n - 1].pending);
      }
      forall i | 0 < i < |history|
        ensures AllIdentified(history[i].pending)
      {
        if i < n { assert history[..n][i] == history[i]; }
      }
    }
  }

  /** Queue and counters of the object are those of the state machine. */
  ghost predicate Agrees(b: Snapshot, d: Data) {
    && d.items == b.items
    && d.capacity == b.capacity
    && d.token == b.notified
    && !d.notifying
    && d.ledger.bulkIndexed == b.bulkIndexed
    && d.ledger.bulkFailed == b.bulkFailed
  }

  lemma StartSteps(c: Config, who: Who, m: Moment) returns (turns: seq<Turn>, m': Moment)
    requires IsConfig(c) && m.work.Starting? && !m.data.notifying && m.data.items != []
    ensures Leads(c, who, m, turns, m', []) && Calm(turns)
    ensures var k := DrainCount(|m.data.items|, c.maxBatchSize);
            && m'.data == m.data.(items := m.data.items[k..])
            && m'.work == Sending(m.work.mode, Flight(m.data.items[..k], m.data.items[..k], 0))
  {
    hide Leads;
    var m1 := m.(work := Draining(m.work.mode));
    OneStep(c, who, m, EnterFlush, false);
    OneStep(c, who, m1, TakeBatch, false);
    m' := AfterTakeBatch(c, m1);
    turns := [Turn(EnterFlush, false)] + [Turn(TakeBatch, false)];
    Join(c, who, m, [Turn(EnterFlush, false)], m1, [], [Turn(TakeBatch, false)], m', []);
    assert NO_CALLS + NO_CALLS == NO_CALLS;
  }

  /** The tail of a flush. */
  lemma ConcludeSteps(m: Moment, before: Snapshot, m2: Moment, f: Flush, m3: Moment, who: Who, cancelled: bool)
    requires Agrees(before, m.data) && |f.drained| <= |m.data.items|
    requires m2.data == m.data.(items := m.data.items[|f.drained|..]) && m2.work.Sending?
    requires IsFlush(f, cancelled) && (f.outcome.GivenBack? ==> cancelled)
    requires SameQueue(m2.data, m3.data) && m3.work == Returned(m2.work.mode, f.history[0].pending, f.outcome)
    requires m3.data.ledger == CountOutcome(CountAll(m2.data.ledger, f.history), f.outcome)
    ensures var m' := AfterConclude(m3, who, cancelled);
            && m'.work == (if f.outcome.Finished? then Checking(m2.work.mode) else Done(true))
            && Agrees(AfterFlush(before, f, cancelled), m'.data)
  {
    hide CountAll, CountOutcome, IndexedIn, FailedIn, IsFlush;
    CountAllCounts(m.data.ledger, f.history);
    OutcomeCounts(CountAll(m.data.ledger, f.history), f.outcome);
    PutBackIs(f, cancelled);
    assert [] + m3.data.items == m3.data.items;
  }

  lemma OutcomeCounts(l: Ledger, outcome: Outcome)
    ensures CountOutcome(l, outcome).bulkIndexed == l.bulkIndexed
    ensures CountOutcome(l, outcome).bulkFailed == l.bulkFailed + if outcome.Exhausted? then |outcome.pending| else 0
  {
  }

  lemma PutBackIs(f: Flush, cancelled: bool)
    requires IsFlush(f, cancelled) && (f.outcome.GivenBack? ==> cancelled)
    ensures f.restored == if f.outcome.Finished? || !cancelled then []
                          else if f.outcome.GivenBack? then f.outcome.pending else f.history[0].pending
  {
    hide Subsequence, IndexedIn, FailedIn, Tags;
  }

  lemma PatientThenLast(turns: seq<Turn>, last: Turn)
    requires Patient(turns) && forall i :: 0 <= i < |turns| && turns[i].cancelled ==> last.cancelled
    ensures Patient(turns + [last])
    ensures forall i :: 0 <= i < |turns + [last]| && (turns + [last])[i].cancelled ==> last.cancelled
  {
  }

  /** No step sees a cancellation unless the context has it in the end, and then all later ones do. */
  ghost predicate SeenInTime(turns: seq<Turn>, cancelled: bool) {
    Patient(turns) && forall i :: 0 <= i < |turns| && turns[i].cancelled ==> cancelled
  }

  lemma SeenAfterCalm(calm: seq<Turn>, turns: seq<Turn>, cancelled: bool)
    requires Calm(calm) && SeenInTime(turns, cancelled)
    ensures SeenInTime(calm + turns, cancelled)
  {
    hide Patient, Calm;
    PatientAfterCalm(calm, turns);
  }

  lemma NotSeenIsCalm(turns: seq<Turn>)
    requires SeenInTime(turns, false)
    ensures Calm(turns)
  {
  }

  /** What the steps of a flush need to know of it. */
  lemma FlushParts(client: Client, maxBatchSize: nat, maxRetries: nat, before: Snapshot, f: Flush, cancelled: bool, after: Snapshot)
    returns (drawn: seq<string>)
    requires FlushRan(client, maxBatchSize, maxRetries, before, f, cancelled, after)
    requires forall n: nat, i: nat :: client.draw(n, i) != ""
    ensures before.items != [] && f.drained == before.items[..DrainCount(|before.items|, maxBatchSize)]
    ensures f.history != [] && IsHistory(f.history) && RetriesIdentified(f.history) && EndsWith(f.history, maxRetries, f.outcome, f.waited)
    ensures Sends(Flight(f.drained, f.drained, 0), f.history[0], drawn)
    ensures IsFlush(f, cancelled) && (f.outcome.GivenBack? ==> cancelled)
    ensures after == AfterFlush(before, f, cancelled) && after.calls == before.calls + f.history
  {
    hide Identify, EndsWith, IndexedIn, FailedIn, Subsequence, Tags, AllIdentified;
    drawn := client.Draws(|before.calls|, |f.drained|);
    FlushRetriesIdentified(f.history, f.drained, drawn);
  }

  /** A flush takes the steps of the state machine, makes the same calls, and ends in the same state. */
  lemma FlushSteps(c: Config, who: Who, m: Moment, client: Client, before: Snapshot, f: Flush, cancelled: bool, after: Snapshot)
    returns (turns: seq<Turn>, m': Moment)
    requires IsConfig(c) && m.work.Starting? && Agrees(before, m.data)
    requires FlushRan(client, c.maxBatchSize, c.maxRetries, before, f, cancelled, after)
    requires forall n: nat, i: nat :: client.draw(n, i) != ""
    ensures Leads(c, who, m, turns, m', f.history) && SeenInTime(turns, cancelled)
    ensures m'.work == if f.outcome.Finished? then Checking(m.work.mode) else Done(true)
    ensures Agrees(after, m'.data)
  {
    hide Leads, FlushRan, Identify, Sends, IsFlush, IsHistory, EndsWith, RetriesIdentified, CountAll, Patient, Calm, CountOutcome, AfterFlush;
    var drawn := FlushParts(client, c.maxBatchSize, c.maxRetries, before, f, cancelled, after);
    var starting, m2 := StartSteps(c, who, m);
    assert f.history[0..] == f.history;
    var loop, m3 := LoopSteps(c, who, m2, f.history, 0, drawn, f.outcome, f.waited);
    var last := Turn(Conclude, cancelled);
    OneStep(c, who, m3, Conclude, cancelled);
    m' := AfterAct(c, m3, who, cancelled, Conclude);
    ConcludeSteps(m, before, m2, f, m3, who, cancelled);
    Join(c, who, m2, loop, m3, f.history, [last], m', []);
    assert f.history + [] == f.history && [] + f.history == f.history;
    PatientThenLast(loop, last);
    Join(c, who, m, starting, m2, [], loop + [last], m', f.history);
    SeenAfterCalm(starting, loop + [last], cancelled);
    turns := starting + (loop + [last]);
  }

  /** Whether a flush loop finds something to do. */
  predicate Waiting(mode: Mode, size: nat, maxBatchSize: nat) {
    if mode.All? then size > 0 else size >= maxBatchSize
  }

  /** The checks of a flush loop that does not go on. */
  lemma StopSteps(c: Config, who: Who, m: Moment, cancelled: bool, err: bool) returns (turns: seq<Turn>, m': Moment)
    requires m.work.Checking? && !m.data.notifying
    requires if err then Waiting(m.work.mode, |m.data.items|, c.maxBatchSize) && cancelled
             else !Waiting(m.work.mode, |m.data.items|, c.maxBatchSize)
    ensures Leads(c, who, m, turns, m', []) && SeenInTime(turns, cancelled)
    ensures m' == Moment(m.data, Done(err))
  {
    hide Leads;
    OneStep(c, who, m, ReadLength, false);
    var m1 := AfterAct(c, m, who, false, ReadLength);
    if err {
      OneStep(c, who, m1, ReadContext, true);
      m' := AfterAct(c, m1, who, true, ReadContext);
      turns := [Turn(ReadLength, false)] + [Turn(ReadContext, true)];
      Join(c, who, m, [Turn(ReadLength, false)], m1, [], [Turn(ReadContext, true)], m', []);
      assert NO_CALLS + NO_CALLS == NO_CALLS;
    } else {
      turns, m' := [Turn(ReadLength, false)], m1;
    }
  }

  /** ... and of one that does. */
  lemma GoOnSteps(c: Config, who: Who, m: Moment) returns (turns: seq<Turn>)
    requires m.work.Checking? && !m.data.notifying && Waiting(m.work.mode, |m.data.items|, c.maxBatchSize)
    ensures Leads(c, who, m, turns, Moment(m.data, Starting(m.work.mode)), []) && Calm(turns)
  {
    hide Leads;
    OneStep(c, who, m, ReadLength, false);
    var m1 := AfterAct(c, m, who, false, ReadLength);
    OneStep(c, who, m1, ReadContext, false);
    turns := [Turn(ReadLength, false)] + [Turn(ReadContext, false)];
    Join(c, who, m, [Turn(ReadLength, false)], m1, [], [Turn(ReadContext, false)], Moment(m.data, Starting(m.work.mode)), []);
    assert NO_CALLS + NO_CALLS == NO_CALLS;
  }

  /** Every flush of the loop found something to do. */
  ghost predicate AllWaiting(mode: Mode, stops: seq<Snapshot>, count: nat, maxBatchSize: nat)
    requires count <= |stops|
  {
    forall i :: 0 <= i < count ==> Waiting(mode, |stops[i].items|, maxBatchSize)
  }

  lemma ChainTail(client: Client, maxBatchSize: nat, maxRetries: nat, stops: seq<Snapshot>, flushes: seq<Flush>, cancelled: bool)
    requires Chained(client, maxBatchSize, maxRetries, stops, flushes, cancelled) && flushes != []
    ensures FlushRan(client, maxBatchSize, maxRetries, stops[0], flushes[0], |flushes| == 1 && cancelled, stops[1])
    ensures |flushes| > 1 ==> flushes[0].outcome.Finished?
    ensures Chained(client, maxBatchSize, maxRetries, stops[1..], flushes[1..], cancelled)
  {
    hide FlushRan;
    forall i | 0 <= i < |flushes| - 1
      ensures FlushRan(client, maxBatchSize, maxRetries, stops[1..][i], flushes[1..][i], i == |flushes| - 2 && cancelled, stops[1..][i + 1])
      ensures i < |flushes| - 2 ==> flushes[1..][i].outcome.Finished?
    {
      assert stops[1..][i] == stops[i + 1] && flushes[1..][i] == flushes[i + 1] && stops[1..][i + 1] == stops[i + 2];
    }
  }

  /** One round of a flush loop. */
  lemma RoundSteps(c: Config, who: Who, m: Moment, client: Client, before: Snapshot, f: Flush, cancelled: bool, after: Snapshot)
    returns (turns: seq<Turn>, m': Moment)
    requires IsConfig(c) && m.work.Checking? && Agrees(before, m.data)
    requires Waiting(m.work.mode, |before.items|, c.maxBatchSize)
    requires FlushRan(client, c.maxBatchSize, c.maxRetries, before, f, cancelled, after)
    requires forall n: nat, i: nat :: client.draw(n, i) != ""
    ensures Leads(c, who, m, turns, m', f.history) && SeenInTime(turns, cancelled)
    ensures m'.work == if f.outcome.Finished? then Checking(m.work.mode) else Done(true)
    ensures Agrees(after, m'.data) && after.calls == before.calls + f.history
  {
    hide Leads, FlushRan, SeenInTime, Calm, Waiting;
    var _ := FlushParts(client, c.maxBatchSize, c.maxRetries, before, f, cancelled, after);
    var going := GoOnSteps(c, who, m);
    var start := Moment(m.data, Starting(m.work.mode));
    var flushing;
    flushing, m' := FlushSteps(c, who, start, client, before, f, cancelled, after);
    turns := going + flushing;
    Join(c, who, m, going, start, [], flushing, m', f.history);
    assert [] + f.history == f.history;
    SeenAfterCalm(going, flushing, cancelled);
  }

  lemma LoopEndedTail(flushes: seq<Flush>, waiting: bool, cancelled: bool, err: bool)
    requires LoopEnded(flushes, waiting, cancelled, err) && flushes != [] && flushes[0].outcome.Finished?
    ensures LoopEnded(flushes[1..], waiting, cancelled, err)
  {
  }

  /** These steps lead through a flush loop from one stop to another. */
  ghost predicate LeadsThrough(c: Config, who: Who, m: Moment, start: Snapshot, turns: seq<Turn>, m': Moment, calls: seq<Try>,
                               end: Snapshot, cancelled: bool, err: bool)
  {
    && Leads(c, who, m, turns, m', calls) && SeenInTime(turns, cancelled)
    && m'.work == Done(err) && Agrees(end, m'.data)
    && end.calls == start.calls + calls
  }

  lemma LoopStops(c: Config, who: Who, m: Moment, stop: Snapshot, cancelled: bool, err: bool)
    returns (turns: seq<Turn>, m': Moment)
    requires m.work.Checking? && Agrees(stop, m.data)
    requires LoopEnded([], Waiting(m.work.mode, |stop.items|, c.maxBatchSize), cancelled, err)
    ensures LeadsThrough(c, who, m, stop, turns, m', [], stop, cancelled, err)
  {
    hide Leads, SeenInTime;
    turns, m' := StopSteps(c, who, m, cancelled, err);
    assert stop.calls + [] == stop.calls;
  }

  /** The last round, which failed. */
  lemma LoopFails(c: Config, who: Who, m: Moment, client: Client, before: Snapshot, f: Flush, cancelled: bool, after: Snapshot)
    returns (turns: seq<Turn>, m': Moment)
    requires IsConfig(c) && m.work.Checking? && Agrees(before, m.data)
    requires Waiting(m.work.mode, |before.items|, c.maxBatchSize)
    requires FlushRan(client, c.maxBatchSize, c.maxRetries, before, f, cancelled, after) && !f.outcome.Finished?
    requires forall n: nat, i: nat :: client.draw(n, i) != ""
    ensures LeadsThrough(c, who, m, before, turns, m', f.history, after, cancelled, true)
  {
    hide Leads, SeenInTime, FlushRan, Waiting;
    turns, m' := RoundSteps(c, who, m, client, before, f, cancelled, after);
  }

  /** One more round before a part of the loop. */
  lemma LoopJoins(c: Config, who: Who, m: Moment, first: seq<Turn>, m1: Moment, calls: seq<Try>, start: Snapshot, next: Snapshot,
                  rest: seq<Turn>, m': Moment, more: seq<Try>, end: Snapshot, cancelled: bool, err: bool)
    requires Leads(c, who, m, first, m1, calls) && SeenInTime(first, false) && next.calls == start.calls + calls
    requires LeadsThrough(c, who, m1, next, rest, m', more, end, cancelled, err)
    ensures LeadsThrough(c, who, m, start, first + rest, m', calls + more, end, cancelled, err)
  {
    hide Leads, SeenInTime, Calm, Agrees;
    Join(c, who, m, first, m1, calls, rest, m', more);
    NotSeenIsCalm(first);
    SeenAfterCalm(first, rest, cancelled);
    assert start.calls + calls + more == start.calls + (calls + more);
  }

  lemma WaitingTail(mode: Mode, stops: seq<Snapshot>, count: nat, maxBatchSize: nat)
    requires 0 < count < |stops| && AllWaiting(mode, stops, count, maxBatchSize)
    ensures Waiting(mode, |stops[0].items|, maxBatchSize) && AllWaiting(mode, stops[1..], count - 1, maxBatchSize)
  {
    hide Waiting;
  }

  /** A whole flush loop takes the steps of the state machine, from its first check to its end. */
  lemma {:induction false} FlushLoopSteps(c: Config, who: Who, m: Moment, client: Client, stops: seq<Snapshot>, flushes: seq<Flush>,
                                          cancelled: bool, err: bool)
    returns (turns: seq<Turn>, m': Moment, calls: seq<Try>)
    requires IsConfig(c) && m.work.Checking?
    requires |stops| == |flushes| + 1 && Chained(client, c.maxBatchSize, c.maxRetries, stops, flushes, cancelled)
    requires forall n: nat, i: nat :: client.draw(n, i) != ""
    requires Agrees(stops[0], m.data) && AllWaiting(m.work.mode, stops, |flushes|, c.maxBatchSize)
    requires LoopEnded(flushes, Waiting(m.work.mode, |stops[|flushes|].items|, c.maxBatchSize), cancelled, err)
    ensures LeadsThrough(c, who, m, stops[0], turns, m', calls, stops[|flushes|], cancelled, err)
    decreases |flushes|
  {
    hide LeadsThrough, Leads, FlushRan, Chained, SeenInTime, Waiting, AllWaiting, LoopEnded, Agrees;
    if flushes == [] {
      turns, m' := LoopStops(c, who, m, stops[0], cancelled, err);
      calls := [];
    } else {
      var f, last, waiting := flushes[0], |flushes| == 1 && cancelled, Waiting(m.work.mode, |stops[|flushes|].items|, c.maxBatchSize);
      ChainTail(client, c.maxBatchSize, c.maxRetries, stops, flushes, cancelled);
      WaitingTail(m.work.mode, stops, |flushes|, c.maxBatchSize);
      if f.outcome.Finished? {
        FinishedRan(client, c.maxBatchSize, c.maxRetries, stops[0], f, last, false, stops[1]);
        var first, m1 := RoundSteps(c, who, m, client, stops[0], f, false, stops[1]);
        LoopEndedTail(flushes, waiting, cancelled, err);
        var rest, more;
        rest, m', more := FlushLoopSteps(c, who, m1, client, stops[1..], flushes[1..], cancelled, err);
        turns, calls := first + rest, f.history + more;
        LoopJoins(c, who, m, first, m1, f.history, stops[0], stops[1], rest, m', more, stops[|flushes|], cancelled, err);
      } else {
        FailedIsLast(flushes, waiting, cancelled, err);
        turns, m' := LoopFails(c, who, m, client, stops[0], f, cancelled, stops[1]);
        calls := f.history;
      }
    }
  }

  lemma FailedIsLast(flushes: seq<Flush>, waiting: bool, cancelled: bool, err: bool)
    requires LoopEnded(flushes, waiting, cancelled, err) && |flushes| == 1 && !flushes[0].outcome.Finished?
    ensures err
  {
  }

  /** Object and configuration have the same sizes. */
  predicate SameConfig(b: Batcher, c: Config) {
    IsConfig(c) && c.maxBatchSize == b.maxBatchSize && c.maxRetries == b.maxRetries
  }

  /** Running a flush is running steps of the state machine: from an agreeing state they lead to an
      agreeing state, at the same place, with the same calls, and see no cancellation that the
      context does not have in the end. */
  method FlushRefines(b: Batcher, ctx: Context, c: Config, who: Who, ghost m: Moment)
    returns (err: bool, ghost turns: seq<Turn>, ghost m': Moment, ghost calls: seq<Try>)
    requires b.Valid() && SameConfig(b, c)
    requires m.work.Starting? && Agrees(b.Now(), m.data)
    modifies b, b.queue, b.queue.items, b.client, ctx
    ensures b.Valid() && Agrees(b.Now(), m'.data)
    ensures Leads(c, who, m, turns, m', calls) && SeenInTime(turns, ctx.cancelled)
    ensures b.client.calls == old(b.client.calls) + calls
    ensures m'.work == if err then Done(true) else Checking(m.work.mode)
  {
    hide View, DeadSlotsAreZero, Leads, IsFlush, EndsWith, IndexedIn, FailedIn, Identify;
    ghost var before, f := b.Now(), Flush([], [], Finished, false, []);
    err, f := b.FlushBatch(ctx);
    if m.data.items == [] {
      OneStep(c, who, m, EnterFlush, false);
      turns, m', calls := [Turn(EnterFlush, false)], m.(work := Checking(m.work.mode)), [];
    } else {
      calls := f.history;
      turns, m' := FlushSteps(c, who, m, b.client, before, f, ctx.cancelled, b.Now());
    }
  }

  /** The same of the loop until the queue is empty, which is also the final drain ... */
  method FlushAllRefines(b: Batcher, ctx: Context, c: Config, who: Who, ghost m: Moment)
    returns (err: bool, ghost turns: seq<Turn>, ghost m': Moment, ghost calls: seq<Try>)
    requires b.Valid() && SameConfig(b, c)
    requires m.work == Checking(All) && Agrees(b.Now(), m.data)
    modifies b, b.queue, b.queue.items, b.client, ctx
    ensures b.Valid() && Agrees(b.Now(), m'.data)
    ensures Leads(c, who, m, turns, m', calls) && SeenInTime(turns, ctx.cancelled)
    ensures b.client.calls == old(b.client.calls) + calls
    ensures m'.work == Done(err)
  {
    hide View, DeadSlotsAreZero, Leads, Chained, SeenInTime, AllWaiting, AreFlushes, Batching.IsRun, Chunks, Drained;
    ghost var done, stops;
    err, done, stops := b.FlushAll(ctx);
    AllFoundEvents(b.client, c.maxBatchSize, c.maxRetries, stops, done, ctx.cancelled);
    turns, m', calls := FlushLoopSteps(c, who, m, b.client, stops, done, ctx.cancelled, err);
  }

  /** ... and of the loop while a full batch waits. */
  method FlushFullRefines(b: Batcher, ctx: Context, c: Config, who: Who, ghost m: Moment)
    returns (err: bool, ghost turns: seq<Turn>, ghost m': Moment, ghost calls: seq<Try>)
    requires b.Valid() && SameConfig(b, c)
    requires m.work == Checking(Full) && Agrees(b.Now(), m.data)
    modifies b, b.queue, b.queue.items, b.client, ctx
    ensures b.Valid() && Agrees(b.Now(), m'.data)
    ensures Leads(c, who, m, turns, m', calls) && SeenInTime(turns, ctx.cancelled)
    ensures b.client.calls == old(b.client.calls) + calls
    ensures m'.work == Done(err)
  {
    hide View, DeadSlotsAreZero, Leads, Chained, SeenInTime, AllWaiting, AreFlushes, Batching.IsRun, FullChunks, Drained;
    ghost var done, stops;
    err, done, stops := b.FlushFullBatches(ctx);
    AllFoundBatches(b.client, c.maxBatchSize, c.maxRetries, stops, done, ctx.cancelled);
    turns, m', calls := FlushLoopSteps(c, who, m, b.client, stops, done, ctx.cancelled, err);
  }

  lemma AllFoundEvents(client: Client, maxBatchSize: nat, maxRetries: nat, stops: seq<Snapshot>, flushes: seq<Flush>, cancelled: bool)
    requires Chained(client, maxBatchSize, maxRetries, stops, flushes, cancelled)
    ensures |stops| == |flushes| + 1 && AllWaiting(All, stops, |flushes|, maxBatchSize)
  {
    hide IsFlush, EndsWith, AfterFlush;
    forall i | 0 <= i < |flushes|
      ensures |stops[i].items| > 0
    {
      assert FlushRan(client, maxBatchSize, maxRetries, stops[i], flushes[i], i == |flushes| - 1 && cancelled, stops[i + 1]);
    }
  }

  lemma AllFoundBatches(client: Client, maxBatchSize: nat, maxRetries: nat, stops: seq<Snapshot>, flushes: seq<Flush>, cancelled: bool)
    requires 0 < maxBatchSize && Chained(client, maxBatchSize, maxRetries, stops, flushes, cancelled)
    requires FullChunks(flushes, maxBatchSize)
    ensures |stops| == |flushes| + 1 && AllWaiting(Full, stops, |flushes|, maxBatchSize)
  {
    hide IsFlush, EndsWith, AfterFlush;
    forall i | 0 <= i < |flushes|
      ensures |stops[i].items| >= maxBatchSize
    {
      assert FlushRan(client, maxBatchSize, maxRetries, stops[i], flushes[i], i == |flushes| - 1 && cancelled, stops[i + 1]);
    }
  }
}
