/** The batcher's own methods, run by one goroutine with nobody adding to the queue meanwhile.
    Interleaving with producers, and the select loop around these methods, are in Pipeline. */
module Batching {
  import opened Events
  import opened Sequences
  import opened RingQueue
  import opened Elastic
  import opened Retry
  import Backoff

  /** A context: once cancelled it stays so, and it may become so between any two looks. */
  class Context {
    var cancelled: bool
    /** The delays of all waits so far. */
    ghost var waits: seq<int>

    constructor ()
      ensures !cancelled && waits == []
    {
      cancelled, waits := false, [];
    }

    method Err() returns (c: bool)
      modifies this`cancelled
      ensures c == cancelled
      ensures old(cancelled) ==> cancelled
    {
      var now: bool := *;
      cancelled := cancelled || now;
      c := cancelled;
    }

    /** Waiting for a timer or for cancellation; with both at hand either may win. */
    method Wait(delay: Backoff.int64) returns (interrupted: bool)
      modifies this
      ensures interrupted ==> cancelled
      ensures old(cancelled) ==> cancelled
      ensures waits == old(waits) + [delay as int]
    {
      waits := waits + [delay as int];
      var c := Err();
      var first: bool := *;
      interrupted := c && first;
    }
  }

  /** What sendWithRetry returns: nil, a pendingRetryError, or any other error. */
  datatype SendError = NoError | PendingRetry(pending: array<Event>) | OtherError

  /** One flush: the events as drained, the calls made for them, how the retry loop ended (`waited`:
      in a backoff wait), and what was put back into the queue. */
  datatype Flush = Flush(drained: seq<Event>, history: seq<Try>, outcome: Outcome, waited: bool, restored: seq<Event>)

  /** The events went out with nothing but identifiers added; each ended indexed, failed or pending;
      and after cancellation the pending ones were put back - or, when the loop had not noticed the
      cancellation yet, the whole batch, settled events included. */
  ghost predicate IsFlush(f: Flush, cancelled: bool) {
    && IsHistory(f.history)
    && var batch := f.history[0].pending;
       && Tags(batch) == Tags(f.drained)
       && multiset(batch) == multiset(IndexedIn(f.history)) + multiset(FailedIn(f.history)) + multiset(Pending(f.outcome))
       && Subsequence(f.restored, batch)
       && f.restored == match f.outcome
            case Finished => []
            case GivenBack(p) => p
            case _ => if cancelled then batch else []
  }

  /** What a flush works on, and the calls made so far. */
  datatype Snapshot = Snapshot(items: seq<Event>, capacity: nat, notified: bool, bulkIndexed: nat, bulkFailed: nat, calls: seq<Try>)

  ghost function AfterFlush(before: Snapshot, f: Flush, cancelled: bool): Snapshot
    requires |f.drained| <= |before.items|
  {
    var rest, putBack := before.items[|f.drained|..], !f.outcome.Finished? && cancelled;
    Snapshot(
      f.restored + rest,
      if putBack then CapacityAfterRestore(|rest|, before.capacity, |f.restored|) else before.capacity,
      before.notified || putBack,
      before.bulkIndexed + |IndexedIn(f.history)|,
      before.bulkFailed + |FailedIn(f.history)| + (if f.outcome.Exhausted? then |f.outcome.pending| else 0),
      before.calls + f.history)
  }

  /** A flush of a queue that is not empty: what it drained, how it ended, and what it left. */
  ghost predicate FlushRan(client: Client, maxBatchSize: nat, maxRetries: nat, before: Snapshot, f: Flush, cancelled: bool, after: Snapshot) {
    && before.items != []
    && f.drained == before.items[..DrainCount(|before.items|, maxBatchSize)]
    && IsFlush(f, cancelled)
    && EndsWith(f.history, maxRetries, f.outcome, f.waited)
    && f.history[0] == client.CallFor(|before.calls|, f.drained)
    && (f.outcome.GivenBack? ==> cancelled)
    && after == AfterFlush(before, f, cancelled)
  }

  /** A series of flushes, each starting where the one before left off, all but the last without error. */
  ghost predicate Chained(client: Client, maxBatchSize: nat, maxRetries: nat, stops: seq<Snapshot>, flushes: seq<Flush>, cancelled: bool) {
    && |stops| == |flushes| + 1
    && forall i :: 0 <= i < |flushes| ==>
         && FlushRan(client, maxBatchSize, maxRetries, stops[i], flushes[i], i == |flushes| - 1 && cancelled, stops[i + 1])
         && (i < |flushes| - 1 ==> flushes[i].outcome.Finished?)
  }

  /** How a flush loop came to its end: by a failed flush, by cancellation while there was work waiting,
      or for want of work. */
  predicate LoopEnded(flushes: seq<Flush>, waiting: bool, cancelled: bool, err: bool) {
    if flushes != [] && !flushes[|flushes| - 1].outcome.Finished? then err
    else if err then waiting && cancelled
    else !waiting
  }

  lemma ChainStarts(client: Client, maxBatchSize: nat, maxRetries: nat, start: Snapshot)
    ensures Chained(client, maxBatchSize, maxRetries, [start], [], false)
  {
  }

  lemma FinishedRan(client: Client, maxBatchSize: nat, maxRetries: nat, before: Snapshot, f: Flush, cancelled: bool, other: bool, after: Snapshot)
    requires FlushRan(client, maxBatchSize, maxRetries, before, f, cancelled, after) && f.outcome.Finished?
    ensures FlushRan(client, maxBatchSize, maxRetries, before, f, other, after)
  {
    hide IsHistory, Subsequence, EndsWith, IndexedIn, FailedIn, Tags;
  }

  lemma ChainExtends(client: Client, maxBatchSize: nat, maxRetries: nat, stops: seq<Snapshot>, flushes: seq<Flush>,
                     f: Flush, cancelled: bool, after: Snapshot)
    requires Chained(client, maxBatchSize, maxRetries, stops, flushes, false)
    requires flushes != [] ==> flushes[|flushes| - 1].outcome.Finished?
    requires FlushRan(client, maxBatchSize, maxRetries, stops[|flushes|], f, cancelled, after)
    ensures Chained(client, maxBatchSize, maxRetries, stops + [after], flushes + [f], cancelled)
    ensures f.outcome.Finished? ==> Chained(client, maxBatchSize, maxRetries, stops + [after], flushes + [f], false)
  {
    hide FlushRan;
    if f.outcome.Finished? { FinishedRan(client, maxBatchSize, maxRetries, stops[|flushes|], f, cancelled, false, after); }
  }

  lemma ChainEnds(client: Client, maxBatchSize: nat, maxRetries: nat, stops: seq<Snapshot>, flushes: seq<Flush>, cancelled: bool)
    requires Chained(client, maxBatchSize, maxRetries, stops, flushes, false)
    requires flushes != [] ==> flushes[|flushes| - 1].outcome.Finished?
    ensures Chained(client, maxBatchSize, maxRetries, stops, flushes, cancelled)
  {
    hide FlushRan;
    if flushes != [] {
      var n := |flushes| - 1;
      FinishedRan(client, maxBatchSize, maxRetries, stops[n], flushes[n], false, cancelled, stops[n + 1]);
    }
  }

  /** A run of flushes, of which only the last can have failed. */
  ghost predicate AreFlushes(flushes: seq<Flush>, cancelled: bool, err: bool) {
    && (forall i :: 0 <= i < |flushes| - 1 ==> IsFlush(flushes[i], false) && flushes[i].outcome.Finished?)
    && (flushes != [] ==> IsFlush(flushes[|flushes| - 1], cancelled))
    && (!err && flushes != [] ==> flushes[|flushes| - 1].outcome.Finished?)
  }

  /** The events a run of flushes took out of the queue. */
  ghost function Drained(flushes: seq<Flush>): seq<Event> {
    if flushes == [] then [] else Drained(flushes[..|flushes| - 1]) + flushes[|flushes| - 1].drained
  }

  /** What it left in front of the untouched rest of the queue. */
  ghost function Restored(flushes: seq<Flush>): seq<Event> {
    if flushes == [] then [] else flushes[|flushes| - 1].restored
  }

  lemma FlushIsSound(f: Flush, maxRetries: nat, cancelled: bool)
    requires IsHistory(f.history) && EndsWith(f.history, maxRetries, f.outcome, f.waited)
    requires Tags(f.history[0].pending) == Tags(f.drained)
    requires f.restored == match f.outcome
               case Finished => []
               case GivenBack(p) => p
               case _ => if cancelled then f.history[0].pending else []
    ensures IsFlush(f, cancelled) && |f.history| <= maxRetries + 1
  {
    BatchConserved(f.history, maxRetries, f.outcome, f.waited);
    OutcomeKeepsOrder(f.history, maxRetries, f.outcome, f.waited);
    SubsequenceReflexive(f.history[0].pending);
  }

  /** A run of flushes took a prefix of `all` and left `left` in the queue: what the last one put
      back, then the untouched rest. */
  ghost predicate IsRun(flushes: seq<Flush>, all: seq<Event>, left: seq<Event>) {
    && Drained(flushes) <= all
    && left == Restored(flushes) + all[|Drained(flushes)|..]
  }

  /** Every chunk is full. */
  ghost predicate FullChunks(flushes: seq<Flush>, size: nat) {
    forall i :: 0 <= i < |flushes| ==> |flushes[i].drained| == size
  }

  /** Every chunk but the last is full; none is empty or too large. */
  ghost predicate Chunks(flushes: seq<Flush>, size: nat) {
    && (flushes != [] ==> FullChunks(flushes[..|flushes| - 1], size))
    && (flushes != [] ==> 0 < |flushes[|flushes| - 1].drained| <= size)
  }

  lemma DropTwice<T>(all: seq<T>, a: seq<T>, b: seq<T>)
    requires a <= all && b <= all[|a|..]
    ensures a + b <= all && all[|a + b|..] == all[|a|..][|b|..]
  {
  }

  lemma RunExtends(flushes: seq<Flush>, all: seq<Event>, before: seq<Event>, f: Flush, after: seq<Event>)
    requires IsRun(flushes, all, before) && Restored(flushes) == []
    requires f.drained <= before && after == f.restored + before[|f.drained|..]
    ensures IsRun(flushes + [f], all, after) && Restored(flushes + [f]) == f.restored
    ensures Drained(flushes + [f]) == Drained(flushes) + f.drained
  {
    assert (flushes + [f])[..|flushes|] == flushes;
    assert before == all[|Drained(flushes)|..];
    DropTwice(all, Drained(flushes), f.drained);
  }

  lemma ChunksExtend(flushes: seq<Flush>, f: Flush, size: nat)
    requires FullChunks(flushes, size) && 0 < |f.drained| <= size
    ensures Chunks(flushes + [f], size)
    ensures |f.drained| == size ==> FullChunks(flushes + [f], size)
  {
    assert (flushes + [f])[..|flushes|] == flushes;
  }

  lemma FlushesStart(all: seq<Event>, size: nat)
    ensures AreFlushes([], false, false) && IsRun([], all, all) && Restored([]) == []
    ensures Chunks([], size) && FullChunks([], size)
  {
  }

  /** With nothing put back and nothing left in the queue, everything was taken out. */
  lemma RunTookAll(flushes: seq<Flush>, all: seq<Event>)
    requires IsRun(flushes, all, []) && Restored(flushes) == []
    ensures Drained(flushes) == all
  {
    assert |all[|Drained(flushes)|..]| == 0;
  }

  lemma RunLeft(flushes: seq<Flush>, all: seq<Event>, left: seq<Event>)
    requires IsRun(flushes, all, left) && Restored(flushes) == []
    ensures |all| == |Drained(flushes)| + |left|
  {
  }

  lemma FlushesExtend(flushes: seq<Flush>, f: Flush, cancelled: bool)
    requires AreFlushes(flushes, false, false) && IsFlush(f, cancelled)
    ensures AreFlushes(flushes + [f], cancelled, !f.outcome.Finished?)
    ensures f.outcome.Finished? ==> f.restored == [] && AreFlushes(flushes + [f], false, false)
  {
    hide IsFlush, AreFlushes;
    FinishedRestoresNothing(f, cancelled);
    FlushesAppend(flushes, f, cancelled);
    if f.outcome.Finished? { FlushesAppend(flushes, f, false); }
  }

  lemma FlushesAppend(flushes: seq<Flush>, f: Flush, cancelled: bool)
    requires AreFlushes(flushes, false, false) && IsFlush(f, cancelled)
    ensures AreFlushes(flushes + [f], cancelled, !f.outcome.Finished?)
  {
    hide IsFlush;
    var longer := flushes + [f];
    forall i | 0 <= i < |flushes|
      ensures IsFlush(longer[i], false) && longer[i].outcome.Finished?
    {
      assert longer[i] == flushes[i];
    }
  }

  lemma FinishedRestoresNothing(f: Flush, cancelled: bool)
    requires IsFlush(f, cancelled)
    ensures f.outcome.Finished? ==> f.restored == [] && IsFlush(f, false)
  {
  }

  lemma FlushesEnd(flushes: seq<Flush>, cancelled: bool, err: bool)
    requires AreFlushes(flushes, false, false)
    ensures AreFlushes(flushes, cancelled, err)
  {
  }

  lemma {:induction false} FullChunksAddUp(flushes: seq<Flush>, size: nat)
    requires FullChunks(flushes, size)
    ensures |Drained(flushes)| == |flushes| * size
  {
    if flushes != [] {
      var n := |flushes| - 1;
      FullChunksAddUp(flushes[..n], size);
      assert n * size + size == (n + 1) * size;
    }
  }

  lemma Quotient(whole: nat, q: nat, r: nat, size: nat)
    requires whole == q * size + r && r < size
    ensures whole / size == q && whole % size == r
  {
    var q', r' := whole / size, whole % size;
    assert whole == q' * size + r' && r' < size;
    if q' < q {
      Scale(q' + 1, q, size);
      assert false;
    } else if q < q' {
      Scale(q + 1, q', size);
      assert false;
    }
  }

  lemma Scale(a: nat, b: nat, size: nat)
    requires a <= b
    ensures a * size <= b * size
    ensures a > 0 ==> a * size == (a - 1) * size + size
  {
  }

  /** Where the loop stands after the calls in `history`: `pending` is what they leave to send, and it
      has identifiers already. The batch itself may have got identifiers, nothing else changed. */
  ghost predicate UnderWay(history: seq<Try>, original: seq<Event>, batch: seq<Event>, pending: seq<Event>) {
    && IsHistory(history)
    && history[0].pending == batch
    && Tags(batch) == Tags(original)
    && pending == history[|history| - 1].Result().retry
    && AllIdentified(pending)
  }

  class Batcher {
    const maxBatchSize: nat
    const maxRetries: nat
    const retryMinBackoff: Backoff.int64
    const retryMaxBackoff: Backoff.int64
    const queue: Queue
    const client: Client
    var bulkIndexed: nat
    var bulkFailed: nat
    var retryAttempts: nat
    var flushes: nat
    var flushFailures: nat

    /** The configuration check guarantees a positive batch size. */
    ghost predicate Valid()
      reads this, queue, queue.items, client
    {
      && 0 < maxBatchSize
      && queue.Valid()
      && client.Valid()
    }

    constructor (maxBatchSize: nat, maxRetries: nat, min: Backoff.int64, max: Backoff.int64, queue: Queue, client: Client)
      requires 0 < maxBatchSize && queue.Valid() && client.Valid()
      ensures Valid() && this.queue == queue && this.client == client
      ensures this.maxBatchSize == maxBatchSize && this.maxRetries == maxRetries
    {
      this.maxBatchSize, this.maxRetries := maxBatchSize, maxRetries;
      retryMinBackoff, retryMaxBackoff := min, max;
      this.queue, this.client := queue, client;
      bulkIndexed, bulkFailed, retryAttempts, flushes, flushFailures := 0, 0, 0, 0, 0;
    }

    /** One call and its bookkeeping: the first lines of the retry loop. */
    method SendOnce(pending: array<Event>, ghost original: seq<Event>, ghost batch: array<Event>, ghost history: seq<Try>)
      returns (retry: array<Event>, err: bool, ghost t: Try)
      requires client.Valid()
      requires if history == [] then pending == batch && original == batch[..]
               else UnderWay(history, original, batch[..], pending[..]) && pending.Length > 0
      modifies this`bulkIndexed, this`bulkFailed, client, pending
      ensures client.Valid()
      ensures retry == pending || fresh(retry)
      ensures client.calls == old(client.calls) + [t]
      ensures t.pending == pending[..] && retry[..] == t.Result().retry && err == t.Result().err
      ensures history == [] ==> t == client.CallFor(old(client.sends), original)
      ensures UnderWay(history + [t], original, batch[..], retry[..])
      ensures bulkIndexed == old(bulkIndexed) + |t.Result().indexed|
      ensures bulkFailed == old(bulkFailed) + |t.Result().failed|
    {
      hide Classify, IndexedIn, FailedIn;
      ghost var n, before := client.sends, pending[..];
      var indexed, failed;
      indexed, failed, retry, err := client.Send(pending);
      t := Try(pending[..], client.replies(n));
      bulkIndexed := bulkIndexed + indexed;
      bulkFailed := bulkFailed + failed;
      RetriesAreIdentified(before, client.Draws(n, |before|), client.replies(n));
      if history != [] {
        IdentifiedStay(before, IdentifiedBy(client.replies(n), |before|), client.Draws(n, |before|));
      }
    }

    /** A delay the backoff can give after the attempt of that number. */
    ghost predicate IsDelay(delay: int, attempt: nat) {
      Backoff.IsDelay(retryMinBackoff as int, retryMaxBackoff as int, attempt, delay)
    }

    method WaitForAttempt(ctx: Context, attempt: nat) returns (interrupted: bool)
      modifies ctx
      ensures interrupted ==> ctx.cancelled
      ensures old(ctx.cancelled) ==> ctx.cancelled
      ensures |ctx.waits| == |old(ctx.waits)| + 1 && old(ctx.waits) <= ctx.waits
      ensures IsDelay(ctx.waits[|old(ctx.waits)|], attempt)
    {
      var draw: nat := *;
      var delay := Backoff.Delay(retryMinBackoff, retryMaxBackoff, attempt, draw);
      interrupted := ctx.Wait(delay);
    }

    /** The error returned says how the loop ended. */
    ghost predicate Reports(e: SendError, outcome: Outcome)
      reads if e.PendingRetry? then {e.pending} else {}
    {
      match outcome
      case Finished => e.NoError?
      case GivenBack(p) => e.PendingRetry? && e.pending[..] == p
      case _ => e.OtherError?
    }

    /** How the loop ended, in terms of its last response and of whether it was cancelled before the last
        round began: without error and nothing to retry, finished; under a context cancelled by then, or
        later, given back; else discarded when nothing can be retried, exhausted when retries are used up. */
    ghost predicate EndedAs(last: Try, attempt: nat, outcome: Outcome, waited: bool, cancelled: bool) {
      var r := last.Result();
      && (outcome.Finished? <==> r.retry == [] && !r.err)
      && (cancelled ==> outcome.Finished? || outcome.GivenBack?)
      && (outcome.GivenBack? ==> outcome.pending == if r.retry == [] then last.pending else r.retry)
      && (outcome.Discarded? ==> r.err && r.retry == [] && outcome.pending == last.pending)
      && (outcome.Exhausted? ==> r.retry != [] && attempt == maxRetries && outcome.pending == r.retry)
      && (waited ==> outcome.GivenBack? && r.retry != [] && attempt < maxRetries)
      && (r.retry != [] && !waited ==> attempt == maxRetries)
    }

    /** The body of the retry loop: one call, and what is made of its response. */
    method Attempt(ctx: Context, attempt: nat, pending: array<Event>,
                   ghost original: seq<Event>, ghost batch: array<Event>, ghost history: seq<Try>)
      returns (done: bool, e: SendError, retry: array<Event>, ghost t: Try, ghost outcome: Outcome, ghost waited: bool)
      requires client.Valid() && attempt <= maxRetries
      requires if history == [] then pending == batch && original == batch[..]
               else UnderWay(history, original, batch[..], pending[..]) && pending.Length > 0
      modifies this`bulkIndexed, this`bulkFailed, this`retryAttempts, client, ctx, pending
      ensures client.Valid() && (old(ctx.cancelled) ==> ctx.cancelled)
      ensures client.calls == old(client.calls) + [t]
      ensures history == [] ==> t == client.CallFor(old(client.sends), original)
      ensures retry == pending || fresh(retry)
      ensures UnderWay(history + [t], original, batch[..], t.Result().retry)
      ensures bulkIndexed == old(bulkIndexed) + |t.Result().indexed|
      ensures bulkFailed == old(bulkFailed) + |t.Result().failed|
                            + if done && outcome.Exhausted? then |outcome.pending| else 0
      ensures retryAttempts == old(retryAttempts) + if done && !waited then 0 else 1
      ensures if done then Ends(t, attempt, maxRetries, outcome, waited) && Reports(e, outcome)
              else attempt < maxRetries && retry.Length > 0 && retry[..] == t.Result().retry
      ensures done && e.PendingRetry? ==> e.pending == pending || fresh(e.pending)
      ensures done && outcome.GivenBack? ==> ctx.cancelled
      ensures done ==> EndedAs(t, attempt, outcome, waited, old(ctx.cancelled))
      ensures !done || waited <==> |ctx.waits| > |old(ctx.waits)|
      ensures old(ctx.waits) <= ctx.waits && |ctx.waits| <= |old(ctx.waits)| + 1
      ensures |ctx.waits| > |old(ctx.waits)| ==> IsDelay(ctx.waits[|old(ctx.waits)|], attempt)
    {
      done, e, outcome, waited := true, NoError, Finished, false;
      var err;
      retry, err, t := SendOnce(pending, original, batch, history);
      if retry.Length == 0 {
        if err {
          var c := ctx.Err();
          e := if c then PendingRetry(pending) else OtherError;
          outcome := if c then GivenBack(pending[..]) else Discarded(pending[..]);
        }
        return;
      }
      if attempt == maxRetries {
        var c := ctx.Err();
        if c {
          e, outcome := PendingRetry(retry), GivenBack(retry[..]);
          return;
        }
        bulkFailed := bulkFailed + retry.Length;
        e, outcome := OtherError, Exhausted(retry[..]);
        return;
      }
      retryAttempts := retryAttempts + 1;
      var interrupted := WaitForAttempt(ctx, attempt);
      if interrupted {
        e, outcome, waited := PendingRetry(retry), GivenBack(retry[..]), true;
      } else {
        done := false;
      }
    }

    /** The k-th of these waits was as long as the backoff after attempt k. */
    ghost predicate WaitedInTurn(before: seq<int>, after: seq<int>, count: int) {
      && |after| == |before| + count && before <= after
      && forall i :: |before| <= i < |after| ==> IsDelay(after[i], i - |before|)
    }

    lemma WaitsInTurn(start: seq<int>, before: seq<int>, after: seq<int>, attempt: nat)
      requires WaitedInTurn(start, before, attempt) && before <= after && |after| <= |before| + 1
      requires |after| > |before| ==> IsDelay(after[|before|], attempt)
      ensures WaitedInTurn(start, after, |after| - |start|)
    {
      hide IsDelay;
      forall i | |start| <= i < |after|
        ensures IsDelay(after[i], i - |start|)
      {
        if i < |before| { assert after[i] == before[i]; }
      }
    }

    /** The retry loop. Its whole run is the ghost history; `waited` says that it was cancelled
        during a backoff wait. */
    method SendWithRetry(ctx: Context, batch: array<Event>)
      returns (e: SendError, ghost history: seq<Try>, ghost outcome: Outcome, ghost waited: bool)
      requires client.Valid()
      modifies this`bulkIndexed, this`bulkFailed, this`retryAttempts, client, ctx, batch
      ensures client.Valid() && (old(ctx.cancelled) ==> ctx.cancelled)
      ensures IsHistory(history) && EndsWith(history, maxRetries, outcome, waited)
      ensures history[0] == client.CallFor(old(client.sends), old(batch[..])) && history[0].pending == batch[..]
      ensures Tags(batch[..]) == Tags(old(batch[..]))
      ensures client.calls == old(client.calls) + history
      ensures bulkIndexed == old(bulkIndexed) + |IndexedIn(history)|
      ensures bulkFailed == old(bulkFailed) + |FailedIn(history)| + if outcome.Exhausted? then |outcome.pending| else 0
      ensures retryAttempts == old(retryAttempts) + |history| - 1 + if waited then 1 else 0
      ensures Reports(e, outcome)
      ensures e.PendingRetry? ==> e.pending == batch || fresh(e.pending)
      ensures outcome.GivenBack? ==> ctx.cancelled
      ensures EndedAs(history[|history| - 1], |history| - 1, outcome, waited, old(ctx.cancelled))
      ensures WaitedInTurn(old(ctx.waits), ctx.waits, retryAttempts - old(retryAttempts))
    {
      hide Classify, IsHistory, IndexedIn, FailedIn;
      ghost var original := batch[..];
      var pending := batch;
      history := [];
      NoTries();
      for attempt := 0 to maxRetries + 1
        invariant client.Valid() && (old(ctx.cancelled) ==> ctx.cancelled)
        invariant attempt <= maxRetries
        invariant pending == batch || fresh(pending)
        invariant |history| == attempt
        invariant if history == [] then pending == batch && original == batch[..]
                  else UnderWay(history, original, batch[..], pending[..]) && pending.Length > 0
        invariant client.calls == old(client.calls) + history
        invariant history != [] ==> history[0] == client.CallFor(old(client.sends), original)
        invariant bulkIndexed == old(bulkIndexed) + |IndexedIn(history)|
        invariant bulkFailed == old(bulkFailed) + |FailedIn(history)|
        invariant retryAttempts == old(retryAttempts) + attempt
        invariant WaitedInTurn(old(ctx.waits), ctx.waits, attempt)
      {
        ghost var before := ctx.waits;
        var done, retry;
        ghost var t;
        done, e, retry, t, outcome, waited := Attempt(ctx, attempt, pending, original, batch, history);
        TriesAddUp(history, t);
        WaitsInTurn(old(ctx.waits), before, ctx.waits, attempt);
        history := history + [t];
        if done {
          return;
        }
        pending := retry;
      }
      assert false;
    }

    ghost function Now(): Snapshot
      reads this, queue, queue.items, client
      requires queue.Valid()
    {
      Snapshot(queue.Contents(), queue.capacity, queue.notified, bulkIndexed, bulkFailed, client.calls)
    }

    /** The tail of a failed flush: under a cancelled context, what is pending goes back, or the whole
        batch if the retry loop had not noticed the cancellation. */
    method Restore(ctx: Context, e: SendError, batch: array<Event>, ghost outcome: Outcome) returns (ghost restored: seq<Event>)
      requires queue.Valid() && Reports(e, outcome) && !outcome.Finished?
      modifies queue, queue.items, ctx`cancelled
      ensures queue.Valid() && (queue.items == old(queue.items) || fresh(queue.items))
      ensures old(ctx.cancelled) ==> ctx.cancelled
      ensures restored == if !ctx.cancelled then [] else if outcome.GivenBack? then outcome.pending else old(batch[..])
      ensures queue.Contents() == restored + old(queue.Contents())
      ensures queue.notified == (old(queue.notified) || ctx.cancelled)
      ensures queue.capacity ==
        if ctx.cancelled then CapacityAfterRestore(old(queue.size), old(queue.capacity), |restored|) else old(queue.capacity)
    {
      hide View, DeadSlotsAreZero;
      restored := [];
      assert restored + queue.Contents() == queue.Contents();
      var c := ctx.Err();
      if c {
        var restore := if e.PendingRetry? then e.pending else batch;
        restored := restore[..];
        queue.Prepend(restore[..]);
      }
    }

    /** The rest of a flush, when a batch has been drained from the queue as it was before. */
    method FlushDrained(ctx: Context, batch: array<Event>, ghost before: Snapshot) returns (err: bool, ghost f: Flush)
      requires Valid() && batch != queue.items && before.items != []
      requires before == Now().(items := batch[..] + queue.Contents())
      requires batch.Length == DrainCount(|before.items|, maxBatchSize)
      modifies this`bulkIndexed, this`bulkFailed, this`retryAttempts, this`flushFailures, queue, queue.items, client, ctx, batch
      ensures Valid() && (queue.items == old(queue.items) || fresh(queue.items))
      ensures old(ctx.cancelled) ==> ctx.cancelled
      ensures FlushRan(client, maxBatchSize, maxRetries, before, f, ctx.cancelled, Now())
      ensures |f.history| <= maxRetries + 1 && (err <==> !f.outcome.Finished?)
      ensures flushFailures == old(flushFailures) + (if err then 1 else 0)
    {
      hide View, DeadSlotsAreZero, IsFlush, IsHistory, EndsWith, IndexedIn, FailedIn, Tags, Subsequence, Identify, Classify, EndedAs, WaitedInTurn;
      ghost var drained := batch[..];
      assert drained == before.items[..batch.Length] && queue.Contents() == before.items[batch.Length..];
      var e;
      ghost var history, outcome, waited;
      e, history, outcome, waited := SendWithRetry(ctx, batch);
      f := Flush(drained, history, outcome, waited, []);
      if e.NoError? {
        FlushIsSound(f, maxRetries, ctx.cancelled);
        return false, f;
      }
      flushFailures := flushFailures + 1;
      ghost var restored := Restore(ctx, e, batch, outcome);
      f := f.(restored := restored);
      FlushIsSound(f, maxRetries, ctx.cancelled);
      return true, f;
    }

    /** One flush. When the queue is empty nothing happens. */
    method FlushBatch(ctx: Context) returns (err: bool, ghost f: Flush)
      requires Valid()
      modifies this, queue, queue.items, client, ctx
      ensures Valid() && (queue.items == old(queue.items) || fresh(queue.items))
      ensures old(ctx.cancelled) ==> ctx.cancelled
      ensures old(queue.Contents()) == [] ==> !err && Now() == old(Now())
      ensures flushes == old(flushes) + (if old(queue.Contents()) == [] then 0 else 1)
      ensures flushFailures == old(flushFailures) + (if err then 1 else 0)
      ensures old(queue.Contents()) != [] ==>
        && FlushRan(client, maxBatchSize, maxRetries, old(Now()), f, ctx.cancelled, Now())
        && |f.history| <= maxRetries + 1
        && (err <==> !f.outcome.Finished?)
    {
      hide View, DeadSlotsAreZero, FlushRan;
      f := Flush([], [], Finished, false, []);
      var remaining := queue.Len();
      if remaining == 0 {
        return false, f;
      }
      ghost var before := Now();
      var batch := queue.Drain(maxBatchSize);
      if batch.Length == 0 {
        return false, f;
      }
      assert batch[..] == before.items[..batch.Length];
      flushes := flushes + 1;
      err, f := FlushDrained(ctx, batch, before);
    }

    /** One flush as part of a run: the body of both flush loops. */
    method FlushNext(ctx: Context, ghost done: seq<Flush>, ghost all: seq<Event>)
      returns (err: bool, ghost f: Flush)
      requires Valid() && queue.size > 0
      requires AreFlushes(done, false, false) && IsRun(done, all, queue.Contents()) && Restored(done) == []
      modifies this, queue, queue.items, client, ctx
      ensures Valid() && (queue.items == old(queue.items) || fresh(queue.items))
      ensures AreFlushes(done + [f], ctx.cancelled, err) && IsRun(done + [f], all, queue.Contents())
      ensures !err ==> AreFlushes(done + [f], false, false) && Restored(done + [f]) == []
      ensures |f.drained| == DrainCount(old(queue.size), maxBatchSize)
      ensures !err ==> queue.size == old(queue.size) - |f.drained|
      ensures FlushRan(client, maxBatchSize, maxRetries, old(Now()), f, ctx.cancelled, Now()) && (err <==> !f.outcome.Finished?)
    {
      ghost var before := queue.Contents();
      err, f := FlushBatch(ctx);
      RunExtends(done, all, before, f, queue.Contents());
      FlushesExtend(done, f, ctx.cancelled);
    }

    /** Flushes until the queue is empty; every chunk but the last is full. */
    method FlushAll(ctx: Context) returns (err: bool, ghost done: seq<Flush>, ghost stops: seq<Snapshot>)
      requires Valid()
      modifies this, queue, queue.items, client, ctx
      ensures Valid() && (queue.items == old(queue.items) || fresh(queue.items))
      ensures AreFlushes(done, ctx.cancelled, err)
      ensures IsRun(done, old(queue.Contents()), queue.Contents())
      ensures Chunks(done, maxBatchSize)
      ensures !err ==> queue.size == 0 && Drained(done) == old(queue.Contents())
      ensures Chained(client, maxBatchSize, maxRetries, stops, done, ctx.cancelled)
      ensures stops[0] == old(Now()) && stops[|done|] == Now()
      ensures LoopEnded(done, queue.size > 0, ctx.cancelled, err)
    {
      hide View, DeadSlotsAreZero, AreFlushes, IsRun, Restored, FullChunks, Drained, FlushRan, Chained;
      FlushesStart(queue.Contents(), maxBatchSize);
      done, stops := [], [Now()];
      ChainStarts(client, maxBatchSize, maxRetries, Now());
      ghost var all := queue.Contents();
      while true
        invariant Valid() && (queue.items == old(queue.items) || fresh(queue.items))
        invariant AreFlushes(done, false, false)
        invariant IsRun(done, all, queue.Contents()) && Restored(done) == []
        invariant Chained(client, maxBatchSize, maxRetries, stops, done, false) && |stops| == |done| + 1
        invariant stops[0] == old(Now()) && stops[|done|] == Now()
        invariant done != [] ==> done[|done| - 1].outcome.Finished?
        invariant Chunks(done, maxBatchSize)
        invariant queue.size > 0 ==> FullChunks(done, maxBatchSize)
        decreases queue.size
      {
        var n := queue.Len();
        if n == 0 {
          assert queue.Contents() == [];
          RunTookAll(done, all);
          FlushesEnd(done, ctx.cancelled, false);
          ChainEnds(client, maxBatchSize, maxRetries, stops, done, ctx.cancelled);
          return false, done, stops;
        }
        var c := ctx.Err();
        if c {
          FlushesEnd(done, c, true);
          ChainEnds(client, maxBatchSize, maxRetries, stops, done, c);
          return true, done, stops;
        }
        ghost var f;
        err, f := FlushNext(ctx, done, all);
        ChunksExtend(done, f, maxBatchSize);
        ChainExtends(client, maxBatchSize, maxRetries, stops, done, f, ctx.cancelled, Now());
        done, stops := done + [f], stops + [Now()];
        if err {
          return true, done, stops;
        }
      }
    }

    /** Flushes while a full batch is waiting. */
    method FlushFullBatches(ctx: Context) returns (err: bool, ghost done: seq<Flush>, ghost stops: seq<Snapshot>)
      requires Valid()
      modifies this, queue, queue.items, client, ctx
      ensures Valid() && (queue.items == old(queue.items) || fresh(queue.items))
      ensures AreFlushes(done, ctx.cancelled, err)
      ensures IsRun(done, old(queue.Contents()), queue.Contents())
      ensures FullChunks(done, maxBatchSize)
      ensures !err ==> |done| == old(queue.size) / maxBatchSize && queue.size == old(queue.size) % maxBatchSize
      ensures Chained(client, maxBatchSize, maxRetries, stops, done, ctx.cancelled)
      ensures stops[0] == old(Now()) && stops[|done|] == Now()
      ensures LoopEnded(done, queue.size >= maxBatchSize, ctx.cancelled, err)
    {
      hide View, DeadSlotsAreZero, AreFlushes, IsRun, Restored, FullChunks, Drained, FlushRan, Chained;
      FlushesStart(queue.Contents(), maxBatchSize);
      done, stops := [], [Now()];
      ChainStarts(client, maxBatchSize, maxRetries, Now());
      ghost var all := queue.Contents();
      while true
        invariant Valid() && (queue.items == old(queue.items) || fresh(queue.items))
        invariant AreFlushes(done, false, false)
        invariant IsRun(done, all, queue.Contents()) && Restored(done) == []
        invariant Chained(client, maxBatchSize, maxRetries, stops, done, false) && |stops| == |done| + 1
        invariant stops[0] == old(Now()) && stops[|done|] == Now()
        invariant done != [] ==> done[|done| - 1].outcome.Finished?
        invariant FullChunks(done, maxBatchSize)
        decreases queue.size
      {
        var n := queue.Len();
        if n < maxBatchSize {
          FlushesEnd(done, ctx.cancelled, false);
          ChainEnds(client, maxBatchSize, maxRetries, stops, done, ctx.cancelled);
          FullChunksAddUp(done, maxBatchSize);
          RunLeft(done, all, queue.Contents());
          Quotient(|all|, |done|, n, maxBatchSize);
          return false, done, stops;
        }
        var c := ctx.Err();
        if c {
          FlushesEnd(done, c, true);
          ChainEnds(client, maxBatchSize, maxRetries, stops, done, c);
          return true, done, stops;
        }
        ghost var f;
        err, f := FlushNext(ctx, done, all);
        ChunksExtend(done, f, maxBatchSize);
        ChainExtends(client, maxBatchSize, maxRetries, stops, done, f, ctx.cancelled, Now());
        done, stops := done + [f], stops + [Now()];
        if err {
          return true, done, stops;
        }
      }
    }
  }
}
