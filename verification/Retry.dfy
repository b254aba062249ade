/** What a sequence of bulk calls for one batch amounts to. The retry loop is proved to produce
    such a history; what follows from it is proved here, for every history. */
module Retry {
  import opened Events
  import opened Sequences
  import opened Elastic

  /** How the retry loop ends for the events still pending. */
  datatype Outcome =
    | Finished                       // nothing pending, no error
    | GivenBack(pending: seq<Event>) // cancelled: to be put back into the queue
    | Exhausted(pending: seq<Event>) // retries used up: counted as failed
    | Discarded(pending: seq<Event>) // given up without being counted

  datatype Decision = Return(outcome: Outcome) | TryAgain(pending: seq<Event>)

  /** What the loop does with a response, given whether the context is seen cancelled. */
  function Decide(maxRetries: nat, attempt: nat, pending: seq<Event>, result: BulkResult, cancelled: bool): Decision {
    if result.retry == [] then
      if !result.err then Return(Finished)
      else if cancelled then Return(GivenBack(pending))
      else Return(Discarded(pending))
    else if attempt == maxRetries then
      if cancelled then Return(GivenBack(result.retry)) else Return(Exhausted(result.retry))
    else TryAgain(result.retry)
  }

  function Pending(outcome: Outcome): seq<Event> {
    if outcome.Finished? then [] else outcome.pending
  }

  /** Every call but the last leaves something to retry, and exactly that goes into the next one. */
  ghost predicate IsHistory(history: seq<Try>) {
    && history != []
    && forall i :: 0 <= i < |history| - 1 ==>
         history[i].Result().retry != [] && history[i + 1].pending == history[i].Result().retry
  }

  /** How the loop may end after the call numbered `attempt`. `waited` says that it was cancelled
      while waiting for the next attempt. */
  ghost predicate Ends(last: Try, attempt: nat, maxRetries: nat, outcome: Outcome, waited: bool) {
    && attempt <= maxRetries
    && if waited
       then last.Result().retry != [] && attempt < maxRetries && outcome == GivenBack(last.Result().retry)
       else
         || Decide(maxRetries, attempt, last.pending, last.Result(), false) == Return(outcome)
         || Decide(maxRetries, attempt, last.pending, last.Result(), true) == Return(outcome)
  }

  ghost predicate EndsWith(history: seq<Try>, maxRetries: nat, outcome: Outcome, waited: bool)
    requires history != []
  {
    Ends(history[|history| - 1], |history| - 1, maxRetries, outcome, waited)
  }

  /** Everything indexed along the way. */
  ghost function IndexedIn(history: seq<Try>): seq<Event> {
    if history == [] then []
    else IndexedIn(history[..|history| - 1]) + history[|history| - 1].Result().indexed
  }

  ghost function FailedIn(history: seq<Try>): seq<Event> {
    if history == [] then []
    else FailedIn(history[..|history| - 1]) + history[|history| - 1].Result().failed
  }

  lemma HistoryPrefix(history: seq<Try>, n: nat)
    requires IsHistory(history) && 0 < n <= |history|
    ensures IsHistory(history[..n])
  {
  }

  /** Later calls carry subsequences of what earlier ones carried. */
  lemma {:induction false} PendingShrinks(history: seq<Try>, i: nat, j: nat)
    requires IsHistory(history) && i <= j < |history|
    ensures Subsequence(history[j].pending, history[i].pending)
    decreases j
  {
    hide Subsequence, Classify;
    if i == j {
      SubsequenceReflexive(history[i].pending);
    } else {
      PendingShrinks(history, i, j - 1);
      ClassifyPartitions(history[j - 1].pending, history[j - 1].reply);
      SubsequenceTransitive(history[j].pending, history[j - 1].pending, history[i].pending);
    }
  }

  lemma NoTries()
    ensures IndexedIn([]) == [] && FailedIn([]) == []
  {
  }

  lemma TriesAddUp(history: seq<Try>, t: Try)
    ensures |IndexedIn(history + [t])| == |IndexedIn(history)| + |t.Result().indexed|
    ensures |FailedIn(history + [t])| == |FailedIn(history)| + |t.Result().failed|
  {
    assert (history + [t])[..|history|] == history;
  }

  lemma TryAddsUp(history: seq<Try>)
    requires history != []
    ensures var n := |history| - 1;
            && multiset(IndexedIn(history)) == multiset(IndexedIn(history[..n])) + multiset(history[n].Result().indexed)
            && multiset(FailedIn(history)) == multiset(FailedIn(history[..n])) + multiset(history[n].Result().failed)
  {
  }

  lemma TrySettles(t: Try)
    ensures multiset(t.pending) == multiset(t.Result().indexed) + multiset(t.Result().failed) + multiset(t.Left())
    ensures Subsequence(t.Left(), t.pending)
  {
    ClassifyPartitions(t.pending, t.reply);
    SubsequenceReflexive(t.pending);
  }

  /** After every call, what was sent first is indexed, failed or left. */
  lemma {:induction false} SettledSoFar(history: seq<Try>)
    requires IsHistory(history)
    ensures multiset(history[0].pending) ==
              multiset(IndexedIn(history)) + multiset(FailedIn(history)) + multiset(history[|history| - 1].Left())
  {
    var n := |history| - 1;
    TrySettles(history[n]);
    TryAddsUp(history);
    if n > 0 {
      HistoryPrefix(history, n);
      assert history[..n][n - 1] == history[n - 1] && history[n - 1].Left() == history[n].pending;
      SettledSoFar(history[..n]);
    }
  }

  /** Nothing is lost and nothing is duplicated: each event of the batch is indexed, failed, or
      pending in the outcome. */
  lemma BatchConserved(history: seq<Try>, maxRetries: nat, outcome: Outcome, waited: bool)
    requires IsHistory(history) && EndsWith(history, maxRetries, outcome, waited)
    ensures multiset(history[0].pending) ==
              multiset(IndexedIn(history)) + multiset(FailedIn(history)) + multiset(Pending(outcome))
  {
    SettledSoFar(history);
    PendingIsLeft(history, maxRetries, outcome, waited);
  }

  lemma PendingIsLeft(history: seq<Try>, maxRetries: nat, outcome: Outcome, waited: bool)
    requires IsHistory(history) && EndsWith(history, maxRetries, outcome, waited)
    ensures Pending(outcome) == history[|history| - 1].Left()
  {
  }

  /** What is still pending at the end keeps the batch order. */
  lemma OutcomeKeepsOrder(history: seq<Try>, maxRetries: nat, outcome: Outcome, waited: bool)
    requires IsHistory(history) && EndsWith(history, maxRetries, outcome, waited)
    ensures Subsequence(Pending(outcome), history[0].pending)
  {
    var n := |history| - 1;
    PendingIsLeft(history, maxRetries, outcome, waited);
    TrySettles(history[n]);
    PendingShrinks(history, 0, n);
    SubsequenceTransitive(history[n].Left(), history[n].pending, history[0].pending);
  }

  /** The last call that carried the event. */
  ghost function LastCarrying(history: seq<Try>, e: Event): (n: nat)
    requires IsHistory(history) && e in history[0].pending
    ensures n < |history| && e in history[n].pending
    ensures forall j :: n < j < |history| ==> e !in history[j].pending
  {
    var n := |history| - 1;
    if e in history[n].pending then n
    else
      HistoryPrefix(history, n);
      LastCarrying(history[..n], e)
  }

  /** Each event ends where the last response to it put it; if that response left it to retry, it
      is still pending in the outcome. */
  lemma LastResponseDecides(history: seq<Try>, maxRetries: nat, outcome: Outcome, waited: bool, e: Event)
    requires IsHistory(history) && EndsWith(history, maxRetries, outcome, waited)
    requires e in history[0].pending && multiset(history[0].pending)[e] == 1
    ensures var last := history[LastCarrying(history, e)].Result();
            && (e in IndexedIn(history) <==> e in last.indexed)
            && (e in FailedIn(history) <==> e in last.failed)
            && (e in Pending(outcome) <==> e !in last.indexed && e !in last.failed)
  {
    var n := LastCarrying(history, e);
    BatchConserved(history, maxRetries, outcome, waited);
    InExactlyOne(history[0].pending, IndexedIn(history), FailedIn(history), Pending(outcome), e);
    TryVerdictIsFinal(history, maxRetries, outcome, waited, n, e);
  }

  lemma TryVerdictIsFinal(history: seq<Try>, maxRetries: nat, outcome: Outcome, waited: bool, n: nat, e: Event)
    requires IsHistory(history) && EndsWith(history, maxRetries, outcome, waited)
    requires n < |history| && e in history[n].pending
    requires forall j :: n < j < |history| ==> e !in history[j].pending
    ensures var r := history[n].Result();
            && (e in r.indexed ==> e in IndexedIn(history))
            && (e in r.failed ==> e in FailedIn(history))
            && (e !in r.indexed && e !in r.failed ==> e in Pending(outcome))
  {
    var t := history[n];
    TrySettles(t);
    InOneOf(t.pending, t.Result().indexed, t.Result().failed, t.Left(), e);
    if e in t.Result().indexed {
      IndexedInContains(history, n, e);
    }
    if e in t.Result().failed {
      FailedInContains(history, n, e);
    }
    if e in t.Left() {
      if n < |history| - 1 { LeftIsCarriedOn(history, n); }
      PendingIsLeft(history, maxRetries, outcome, waited);
    }
  }

  lemma LeftIsCarriedOn(history: seq<Try>, n: nat)
    requires IsHistory(history) && n < |history| - 1
    ensures history[n + 1].pending == history[n].Left()
  {
  }

  lemma InExactlyOne(whole: seq<Event>, a: seq<Event>, b: seq<Event>, c: seq<Event>, e: Event)
    requires multiset(whole) == multiset(a) + multiset(b) + multiset(c) && multiset(whole)[e] == 1
    ensures e in a ==> e !in b && e !in c
    ensures e in b ==> e !in c
    ensures e in a || e in b || e in c
  {
    assert multiset(a)[e] + multiset(b)[e] + multiset(c)[e] == 1;
    assert e in a <==> multiset(a)[e] > 0;
    assert e in b <==> multiset(b)[e] > 0;
    assert e in c <==> multiset(c)[e] > 0;
  }

  lemma InOneOf(whole: seq<Event>, a: seq<Event>, b: seq<Event>, c: seq<Event>, e: Event)
    requires multiset(whole) == multiset(a) + multiset(b) + multiset(c) && e in whole
    ensures e in a || e in b || e in c
  {
    assert e in multiset(whole);
  }

  lemma {:induction false} IndexedInContains(history: seq<Try>, n: nat, e: Event)
    requires n < |history| && e in history[n].Result().indexed
    ensures e in IndexedIn(history)
  {
    if n < |history| - 1 {
      assert history[..|history| - 1][n] == history[n];
      IndexedInContains(history[..|history| - 1], n, e);
    }
  }

  lemma {:induction false} FailedInContains(history: seq<Try>, n: nat, e: Event)
    requires n < |history| && e in history[n].Result().failed
    ensures e in FailedIn(history)
  {
    if n < |history| - 1 {
      assert history[..|history| - 1][n] == history[n];
      FailedInContains(history[..|history| - 1], n, e);
    }
  }
}
