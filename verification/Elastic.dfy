/** The bulk sender: document identifiers, classification of the bulk response. */
module Elastic {
  import opened Events
  import opened Sequences

  const STATUS_REQUEST_TIMEOUT := 408
  const STATUS_CONFLICT := 409
  const STATUS_TOO_MANY_REQUESTS := 429

  /** What came of one bulk call. The network, the JSON decoder and the random source are outside
      the model, so any of these may happen. */
  datatype Reply =
    | BuildError(identified: nat)   // the payload could not be built; so many events had got an identifier
    | TransportError                // no response: the request may or may not have been applied
    | Response(status: int, body: Body)

  datatype Body = Undecodable | Decoded(errors: bool, items: seq<int>)

  datatype Verdict = Stored | Retryable | Refused | Missing

  predicate IsRetryableStatus(status: int) {
    status == STATUS_REQUEST_TIMEOUT || status == STATUS_TOO_MANY_REQUESTS || status >= 500
  }

  function VerdictOf(status: int): Verdict {
    if status == 0 then Missing
    else if 200 <= status < 300 || status == STATUS_CONFLICT then Stored
    else if IsRetryableStatus(status) then Retryable
    else Refused
  }

  /** The outcome of `Send`: which events were indexed, which failed for good, which to send again. */
  datatype BulkResult = BulkResult(indexed: seq<Event>, failed: seq<Event>, retry: seq<Event>, err: bool)

  /** The events whose item has the given verdict, in batch order. */
  function Chosen(batch: seq<Event>, items: seq<int>, verdict: Verdict): seq<Event>
    requires |batch| == |items|
  {
    if batch == [] then []
    else
      var n := |batch| - 1;
      var front := Chosen(batch[..n], items[..n], verdict);
      if VerdictOf(items[n]) == verdict then front + [batch[n]] else front
  }

  function Classify(batch: seq<Event>, reply: Reply): BulkResult {
    match reply
    case BuildError(_) => BulkResult([], [], [], true)
    case TransportError => BulkResult([], [], batch, true)
    case Response(status, body) =>
      if IsRetryableStatus(status) then BulkResult([], [], batch, true)
      else if status >= 400 then BulkResult([], [], [], true)
      else match body
        case Undecodable => BulkResult([], [], batch, true)
        case Decoded(errors, items) =>
          if !errors then BulkResult(batch, [], [], false)
          else if |items| != |batch| || 0 in items then BulkResult([], [], batch, true)
          else BulkResult(Chosen(batch, items, Stored), Chosen(batch, items, Refused),
                          Chosen(batch, items, Retryable), false)
  }

  /** One bulk call: the events it carried, identifiers included, and what it met. */
  datatype Try = Try(pending: seq<Event>, reply: Reply) {
    function Result(): BulkResult {
      Classify(pending, reply)
    }

    /** What this call settled neither way. */
    function Left(): seq<Event> {
      if Result().err && Result().retry == [] then pending else Result().retry
    }
  }

  /** The individual items of the response decide. */
  predicate ItemsInspected(batch: seq<Event>, reply: Reply) {
    && reply.Response?
    && reply.status < 400
    && !IsRetryableStatus(reply.status)
    && reply.body.Decoded?
    && reply.body.errors
    && |reply.body.items| == |batch|
    && 0 !in reply.body.items
  }

  lemma {:induction false} ChosenIsSubsequence(batch: seq<Event>, items: seq<int>, verdict: Verdict)
    requires |batch| == |items|
    ensures Subsequence(Chosen(batch, items, verdict), batch)
  {
    if batch != [] {
      var n := |batch| - 1;
      ChosenIsSubsequence(batch[..n], items[..n], verdict);
      SubsequenceAppend(Chosen(batch[..n], items[..n], verdict), batch[..n], batch[n]);
      assert batch == batch[..n] + [batch[n]];
    }
  }

  /** The positions at which `items` carries the verdict, in order. */
  ghost function Positions(items: seq<int>, verdict: Verdict): (at: seq<nat>)
    ensures forall k :: 0 <= k < |at| ==> at[k] < |items| && VerdictOf(items[at[k]]) == verdict
    ensures Increasing(at)
  {
    if items == [] then []
    else
      var n := |items| - 1;
      var front := Positions(items[..n], verdict);
      assert forall k :: 0 <= k < |front| ==> front[k] < n && items[..n][front[k]] == items[front[k]];
      if VerdictOf(items[n]) == verdict then front + [n] else front
  }

  lemma {:induction false} PositionsComplete(items: seq<int>, verdict: Verdict, i: nat)
    requires i < |items| && VerdictOf(items[i]) == verdict
    ensures i in Positions(items, verdict)
  {
    var n := |items| - 1;
    if i < n {
      assert items[..n][i] == items[i];
      PositionsComplete(items[..n], verdict, i);
    }
  }

  /** A bucket is exactly the order-preserving filter of the batch by item status. */
  lemma {:induction false} ChosenIsFilter(batch: seq<Event>, items: seq<int>, verdict: Verdict)
    requires |batch| == |items|
    ensures Chosen(batch, items, verdict) == Pick(batch, Positions(items, verdict))
  {
    if batch != [] {
      var n := |batch| - 1;
      ChosenIsFilter(batch[..n], items[..n], verdict);
      var front := Positions(items[..n], verdict);
      assert Pick(batch, front) == Pick(batch[..n], front);
      if VerdictOf(items[n]) == verdict {
        assert Pick(batch, front + [n]) == Pick(batch, front) + [batch[n]];
      }
    }
  }

  lemma {:induction false} ChosenPartitions(batch: seq<Event>, items: seq<int>)
    requires |batch| == |items| && 0 !in items
    ensures multiset(batch) == multiset(Chosen(batch, items, Stored)) + multiset(Chosen(batch, items, Refused))
                               + multiset(Chosen(batch, items, Retryable))
  {
    hide Chosen;
    if batch == [] {
      NoneChosen(items);
    } else {
      var n := |batch| - 1;
      assert items[n] in items && forall k :: k in items[..n] ==> k in items;
      ChosenPartitions(batch[..n], items[..n]);
      assert batch == batch[..n] + [batch[n]];
      ChosenStep(batch, items, Stored);
      ChosenStep(batch, items, Refused);
      ChosenStep(batch, items, Retryable);
    }
  }

  lemma NoneChosen(items: seq<int>)
    requires items == []
    ensures forall verdict :: Chosen([], items, verdict) == []
  {
  }

  lemma ChosenStep(batch: seq<Event>, items: seq<int>, verdict: Verdict)
    requires |batch| == |items| && batch != []
    ensures var n := |batch| - 1;
            multiset(Chosen(batch, items, verdict)) ==
              multiset(Chosen(batch[..n], items[..n], verdict))
              + if VerdictOf(items[n]) == verdict then multiset{batch[n]} else multiset{}
  {
  }

  /** Classification partitions the batch, or keeps all of it, or keeps none of it. */
  lemma ClassifyPartitions(batch: seq<Event>, reply: Reply)
    ensures var r := Classify(batch, reply);
            && (!r.err ==> multiset(batch) == multiset(r.indexed) + multiset(r.failed) + multiset(r.retry))
            && (!r.err ==> |r.indexed| + |r.failed| + |r.retry| == |batch|)
            && (r.err ==> r.indexed == [] && r.failed == [] && (r.retry == batch || r.retry == []))
            && Subsequence(r.retry, batch) && Subsequence(r.indexed, batch) && Subsequence(r.failed, batch)
  {
    var r := Classify(batch, reply);
    SubsequenceReflexive(batch);
    if ItemsInspected(batch, reply) {
      var items := reply.body.items;
      ChosenPartitions(batch, items);
      ChosenIsSubsequence(batch, items, Stored);
      ChosenIsSubsequence(batch, items, Refused);
      ChosenIsSubsequence(batch, items, Retryable);
    }
    if !r.err {
      assert |multiset(r.indexed) + multiset(r.failed) + multiset(r.retry)| == |multiset(batch)|;
    }
  }

  /** Which replies settle nothing, and which give the whole batch up, by their status alone. */
  lemma WholeBatchMeans(batch: seq<Event>, reply: Reply)
    ensures var r := Classify(batch, reply);
            && (reply.TransportError? ==> r == BulkResult([], [], batch, true))
            && (reply.BuildError? ==> r == BulkResult([], [], [], true))
            && (reply.Response? && (reply.status == 408 || reply.status == 429 || reply.status >= 500) ==>
                  r == BulkResult([], [], batch, true))
            && (reply.Response? && 400 <= reply.status < 500 && reply.status != 408 && reply.status != 429 ==>
                  r == BulkResult([], [], [], true))
            && (reply.Response? && reply.status < 400 && reply.body.Undecodable? ==> r == BulkResult([], [], batch, true))
            && (reply.Response? && reply.status < 400 && reply.body.Decoded? && !reply.body.errors ==>
                  r == BulkResult(batch, [], [], false))
  {
  }

  /** With an item missing, or one without a status, nothing is settled. */
  lemma ItemsMissing(batch: seq<Event>, reply: Reply, i: nat)
    requires reply.Response? && reply.status < 400 && reply.body.Decoded? && reply.body.errors
    requires |reply.body.items| != |batch| || (i < |batch| && reply.body.items[i] == 0)
    ensures Classify(batch, reply) == BulkResult([], [], batch, true)
  {
  }

  lemma PositionsExactly(items: seq<int>, verdict: Verdict)
    ensures forall i: nat :: i in Positions(items, verdict) <==> i < |items| && VerdictOf(items[i]) == verdict
  {
    forall i: nat | i < |items| && VerdictOf(items[i]) == verdict
      ensures i in Positions(items, verdict)
    {
      PositionsComplete(items, verdict, i);
    }
  }

  /** Otherwise each item decides about its event: created and existing documents are indexed, timeouts,
      throttling and server errors are sent again, and everything else has failed; all in batch order. */
  lemma ItemsMean(batch: seq<Event>, reply: Reply) returns (stored: seq<nat>, again: seq<nat>, refused: seq<nat>)
    requires reply.Response? && reply.status < 400 && reply.body.Decoded? && reply.body.errors
    requires |reply.body.items| == |batch| && forall i :: 0 <= i < |batch| ==> reply.body.items[i] != 0
    ensures Increasing(stored) && Increasing(again) && Increasing(refused)
    ensures forall i: nat :: i in stored <==> i < |batch| && (200 <= reply.body.items[i] < 300 || reply.body.items[i] == 409)
    ensures forall i: nat :: i in again <==>
      i < |batch| && (reply.body.items[i] == 408 || reply.body.items[i] == 429 || reply.body.items[i] >= 500)
    ensures forall i: nat :: i in refused <==> i < |batch| && i !in stored && i !in again
    ensures forall k :: 0 <= k < |stored| ==> stored[k] < |batch|
    ensures forall k :: 0 <= k < |again| ==> again[k] < |batch|
    ensures forall k :: 0 <= k < |refused| ==> refused[k] < |batch|
    ensures Classify(batch, reply) == BulkResult(Pick(batch, stored), Pick(batch, refused), Pick(batch, again), false)
  {
    var items := reply.body.items;
    stored, again, refused := Positions(items, Stored), Positions(items, Retryable), Positions(items, Refused);
    PositionsExactly(items, Stored);
    PositionsExactly(items, Retryable);
    PositionsExactly(items, Refused);
    ChosenIsFilter(batch, items, Stored);
    ChosenIsFilter(batch, items, Retryable);
    ChosenIsFilter(batch, items, Refused);
    hide Chosen, Positions;
    assert 0 !in items;
  }

  /** When an error is reported without anything to retry, the batch is given up: exactly on a
      payload failure or a whole-request status of 400 or more that is not retryable (or on an
      empty batch). */
  lemma GivenUpExactlyWhen(batch: seq<Event>, reply: Reply)
    ensures var r := Classify(batch, reply);
            r.err && r.retry == [] <==>
              || reply.BuildError?
              || (reply.Response? && 400 <= reply.status < 500 && reply.status != 408 && reply.status != 429)
              || (batch == [] && r.err)
  {
  }

  /** Document identifiers written by a bulk call: the first `count` events get one if they have none. */
  function Identify(batch: seq<Event>, count: nat, drawn: seq<string>): (r: seq<Event>)
    requires |drawn| == |batch|
    ensures |r| == |batch|
  {
    seq(|batch|, i requires 0 <= i < |batch| =>
      if i < count && batch[i].id == "" then batch[i].(id := drawn[i]) else batch[i])
  }

  /** How many events of a batch have an identifier after the call. */
  function IdentifiedBy(reply: Reply, size: nat): nat {
    if reply.BuildError? then reply.identified else size
  }

  ghost predicate AllIdentified(batch: seq<Event>) {
    forall i :: 0 <= i < |batch| ==> batch[i].id != ""
  }

  /** Identifiers are written once: they never replace one, never touch anything else, and a second
      call changes nothing. */
  lemma IdentifyOnce(batch: seq<Event>, count: nat, drawn: seq<string>, again: seq<string>)
    requires |drawn| == |again| == |batch|
    requires forall i :: 0 <= i < |drawn| ==> drawn[i] != ""
    ensures var r := Identify(batch, count, drawn);
            && Tags(r) == Tags(batch)
            && (forall i :: 0 <= i < |batch| && batch[i].id != "" ==> r[i] == batch[i])
            && (forall i :: 0 <= i < |batch| && batch[i].id == "" ==> r[i].id == if i < count then drawn[i] else "")
            && (|batch| <= count ==> AllIdentified(r))
            && Identify(r, count, again) == r
  {
  }

  lemma IdentifiedStay(batch: seq<Event>, count: nat, drawn: seq<string>)
    requires |drawn| == |batch| && AllIdentified(batch)
    ensures Identify(batch, count, drawn) == batch
  {
  }

  lemma SubsequenceIdentified(retry: seq<Event>, sent: seq<Event>)
    requires Subsequence(retry, sent) && AllIdentified(sent)
    ensures AllIdentified(retry)
  {
    forall i | 0 <= i < |retry|
      ensures retry[i].id != ""
    {
      SubsequenceMembers(retry, sent, retry[i]);
    }
  }

  /** Whatever has to be sent again carries its identifier already. */
  lemma RetriesAreIdentified(batch: seq<Event>, drawn: seq<string>, reply: Reply)
    requires |drawn| == |batch|
    requires forall i :: 0 <= i < |drawn| ==> drawn[i] != ""
    ensures AllIdentified(Classify(Identify(batch, IdentifiedBy(reply, |batch|), drawn), reply).retry)
  {
    var sent := Identify(batch, IdentifiedBy(reply, |batch|), drawn);
    if reply.BuildError? {
      assert Classify(sent, reply).retry == [];
    } else {
      hide Classify, Subsequence;
      ClassifyPartitions(sent, reply);
      SubsequenceIdentified(Classify(sent, reply).retry, sent);
    }
  }

  /** The client, with the outside world as an oracle: `replies(n)` is what the n-th call meets and
      `draw(n, i)` the identifier drawn for its i-th event. */
  class Client {
    const replies: nat -> Reply
    const draw: (nat, nat) -> string
    var sends: nat
    /** Every call made so far. */
    ghost var calls: seq<Try>

    ghost predicate Valid()
      reads this
    {
      && |calls| == sends
      && forall n: nat, i: nat :: draw(n, i) != ""
    }

    constructor (replies: nat -> Reply, draw: (nat, nat) -> string)
      requires forall n: nat, i: nat :: draw(n, i) != ""
      ensures Valid() && calls == []
      ensures this.replies == replies && this.draw == draw
    {
      this.replies, this.draw := replies, draw;
      sends, calls := 0, [];
    }

    function Draws(n: nat, size: nat): (drawn: seq<string>)
      ensures |drawn| == size
    {
      seq(size, i requires 0 <= i < size => draw(n, i))
    }

    /** The batch as the n-th call leaves it. */
    function AfterCall(n: nat, batch: seq<Event>): seq<Event> {
      Identify(batch, IdentifiedBy(replies(n), |batch|), Draws(n, |batch|))
    }

    function CallFor(n: nat, batch: seq<Event>): Try {
      Try(AfterCall(n, batch), replies(n))
    }

    /** Writes identifiers through the caller's slice. */
    method EnsureDocumentIDs(batch: array<Event>, count: nat)
      modifies batch
      ensures batch[..] == Identify(old(batch[..]), count, Draws(sends, batch.Length))
    {
      for i := 0 to batch.Length
        invariant forall j :: 0 <= j < i ==> batch[j] == Identify(old(batch[..]), count, Draws(sends, batch.Length))[j]
        invariant forall j :: i <= j < batch.Length ==> batch[j] == old(batch[j])
      {
        if i < count && batch[i].id == "" {
          batch[i] := batch[i].(id := draw(sends, i));
        }
      }
    }

    /** `retry` is the caller's own slice, or a fresh one holding copies of the items to retry. */
    method Send(batch: array<Event>)
      returns (indexed: nat, failed: nat, retry: array<Event>, err: bool)
      requires Valid()
      modifies this, batch
      ensures Valid() && calls == old(calls) + [CallFor(old(sends), old(batch[..]))]
      ensures batch[..] == AfterCall(old(sends), old(batch[..]))
      ensures forall i :: 0 <= i < batch.Length ==>
        && batch[i].tag == old(batch[i].tag)
        && (old(batch[i].id) != "" ==> batch[i].id == old(batch[i].id))
        && (replies(old(sends)).BuildError? && i >= replies(old(sends)).identified ==> batch[i].id == old(batch[i].id))
        && (!replies(old(sends)).BuildError? ==> batch[i].id != "")
      ensures retry == batch || fresh(retry)
      ensures var r := calls[|calls| - 1].Result();
              indexed == |r.indexed| && failed == |r.failed| && retry[..] == r.retry && err == r.err
    {
      var reply := replies(sends);
      EnsureDocumentIDs(batch, IdentifiedBy(reply, batch.Length));
      sends := sends + 1;
      calls := calls + [Try(batch[..], reply)];
      var nothing := new Event[0];
      match reply {
        case BuildError(_) => return 0, 0, nothing, true;
        case TransportError => return 0, 0, batch, true;
        case Response(status, body) =>
          if IsRetryableStatus(status) {
            return 0, 0, batch, true;
          }
          if status >= 400 {
            return 0, 0, nothing, true;
          }
          if body.Undecodable? {
            return 0, 0, batch, true;
          }
          if !body.errors {
            return batch.Length, 0, nothing, false;
          }
          if |body.items| != batch.Length {
            return 0, 0, batch, true;
          }
          indexed, failed, retry, err := InspectItems(batch, body.items);
      }
    }

    /** The item loop of Send. */
    method InspectItems(batch: array<Event>, items: seq<int>)
      returns (indexed: nat, failed: nat, retry: array<Event>, err: bool)
      requires |items| == batch.Length
      ensures retry == batch || fresh(retry)
      ensures err <==> 0 in items
      ensures err ==> indexed == 0 && failed == 0 && retry == batch
      ensures !err ==> indexed == |Chosen(batch[..], items, Stored)| && failed == |Chosen(batch[..], items, Refused)|
      ensures !err ==> retry[..] == Chosen(batch[..], items, Retryable)
    {
      indexed, failed, err := 0, 0, false;
      var again: seq<Event> := [];
      for i := 0 to batch.Length
        invariant 0 !in items[..i]
        invariant indexed == |Chosen(batch[..i], items[..i], Stored)|
        invariant failed == |Chosen(batch[..i], items[..i], Refused)|
        invariant again == Chosen(batch[..i], items[..i], Retryable)
      {
        var status := items[i];
        if status == 0 {
          return 0, 0, batch, true;
        }
        assert batch[..i + 1][..i] == batch[..i] && items[..i + 1][..i] == items[..i];
        if 200 <= status < 300 || status == STATUS_CONFLICT {
          indexed := indexed + 1;
          continue;
        }
        if IsRetryableStatus(status) {
          again := again + [batch[i]];
          continue;
        }
        failed := failed + 1;
      }
      assert batch[..batch.Length] == batch[..] && items[..batch.Length] == items;
      retry := new Event[|again|](i requires 0 <= i < |again| => again[i]);
      assert retry[..] == again;
    }
  }
}
