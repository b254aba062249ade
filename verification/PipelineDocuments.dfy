/** At most one document per event, however often it is sent and whatever becomes of the responses;
    and every event counted as indexed has its document. */
module PipelineDocuments {
  import opened Events
  import opened Sequences
  import opened RingQueue
  import opened Elastic
  import opened Retry
  import opened Pipeline
  import opened PipelineOrder

  /** A copy of an event carries the event's identifier if one was ever drawn for it, else none. */
  predicate KnownAs(names: map<nat, string>, e: Event) {
    if e.id == "" then e.tag !in names else e.tag in names && names[e.tag] == e.id
  }

  ghost predicate AllKnown(names: map<nat, string>, events: seq<Event>) {
    forall i :: 0 <= i < |events| ==> KnownAs(names, events[i])
  }

  ghost predicate Injective(names: map<nat, string>) {
    forall t, u :: t in names && u in names && names[t] == names[u] ==> t == u
  }

  ghost predicate CloudSound(cloud: Cloud) {
    && Injective(cloud.names)
    && (forall e :: e in cloud.sent ==> e.id != "" && KnownAs(cloud.names, e))
    && (forall id :: id in cloud.store ==> Event(cloud.store[id], id) in cloud.sent)
  }

  ghost predicate NamesAdmitted(names: map<nat, string>, admitted: nat) {
    forall t :: t in names ==> t < admitted
  }

  ghost predicate IndexedStored(cloud: Cloud, indexed: multiset<nat>) {
    forall t :: t in indexed ==> t in cloud.names && cloud.names[t] in cloud.store
  }

  /** Whatever is sent again has its identifier; what is out has left. */
  ghost predicate IdentifiedInTime(w: Work, sent: set<Event>) {
    match w
    case Sending(_, f) => f.attempt > 0 ==> AllIdentified(f.pending)
    case Awaiting(_, f) => forall i :: 0 <= i < |f.pending| ==> f.pending[i] in sent
    case Waiting(_, f) => AllIdentified(f.pending)
    case Deciding(_, f, r) => AllIdentified(r.retry)
    case _ => true
  }

  ghost predicate Documented(m: Moment) {
    && CloudSound(m.data.cloud)
    && NamesAdmitted(m.data.cloud.names, m.data.admitted)
    && IndexedStored(m.data.cloud, m.data.ledger.indexed)
    && AllKnown(m.data.cloud.names, BatchOf(m.work))
    && AllKnown(m.data.cloud.names, m.data.items)
    && IdentifiedInTime(m.work, m.data.cloud.sent)
  }

  /** No event has two documents. */
  lemma OneDocumentEach(cloud: Cloud, a: string, b: string)
    requires CloudSound(cloud) && a in cloud.store && b in cloud.store
    ensures cloud.store[a] == cloud.store[b] ==> a == b
  {
    assert KnownAs(cloud.names, Event(cloud.store[a], a));
    assert KnownAs(cloud.names, Event(cloud.store[b], b));
  }

  /** What counts as indexed is in the store, under the event's own identifier. */
  lemma IndexedHasDocument(cloud: Cloud, indexed: multiset<nat>, t: nat)
    requires CloudSound(cloud) && IndexedStored(cloud, indexed) && t in indexed
    ensures t in cloud.names && cloud.names[t] in cloud.store && cloud.store[cloud.names[t]] == t
  {
    var id := cloud.names[t];
    assert KnownAs(cloud.names, Event(cloud.store[id], id));
  }

  lemma SubsequenceKnown(names: map<nat, string>, xs: seq<Event>, ys: seq<Event>)
    requires Subsequence(xs, ys) && AllKnown(names, ys)
    ensures AllKnown(names, xs)
  {
    SubsequenceElements(xs, ys);
    forall i | 0 <= i < |xs|
      ensures KnownAs(names, xs[i])
    {
      assert xs[i] in multiset(xs);
      assert xs[i] in ys;
    }
  }

  /** Learning a batch adds a name for each event that has one ... */
  lemma {:induction false} LearnsTheBatch(names: map<nat, string>, batch: seq<Event>, i: nat)
    requires Increasing(Tags(batch)) && i < |batch| && batch[i].id != ""
    ensures batch[i].tag in Learn(names, batch) && Learn(names, batch)[batch[i].tag] == batch[i].id
  {
    var n := |batch| - 1;
    if i < n {
      assert Tags(batch)[i] < Tags(batch)[n];
      assert Tags(batch[..n]) == Tags(batch)[..n];
      LearnsTheBatch(names, batch[..n], i);
    }
  }

  /** ... and nothing for any other. */
  lemma {:induction false} LearnsNothingElse(names: map<nat, string>, batch: seq<Event>, t: nat)
    requires forall i :: 0 <= i < |batch| ==> batch[i].tag != t || batch[i].id == ""
    ensures t in Learn(names, batch) <==> t in names
    ensures t in names ==> Learn(names, batch)[t] == names[t]
  {
    if batch != [] {
      LearnsNothingElse(names, batch[..|batch| - 1], t);
    }
  }

  /** Drawing identifiers for a batch: old names stay, each new one was drawn for an event of the batch
      that had none, and the batch is known by its names. */
  lemma NamesAfter(names: map<nat, string>, batch: seq<Event>, count: nat, drawn: seq<string>)
    requires |drawn| == |batch| && Increasing(Tags(batch)) && AllKnown(names, batch)
    requires FreshDraw(names, drawn)
    ensures var named := Identify(batch, count, drawn);
            var after := Learn(names, named);
            && AllKnown(after, named)
            && (forall t :: t in names ==> t in after && after[t] == names[t])
            && (forall t :: t in after && t !in names ==>
                 exists i :: 0 <= i < |batch| && batch[i].tag == t && batch[i].id == "" && after[t] == drawn[i])
  {
    var named := Identify(batch, count, drawn);
    var after := Learn(names, named);
    assert Tags(named) == Tags(batch);
    forall i | 0 <= i < |named|
      ensures KnownAs(after, named[i])
    {
      if named[i].id == "" {
        UniqueTag(named, i);
        assert KnownAs(names, batch[i]);
        LearnsNothingElse(names, named, named[i].tag);
      } else {
        LearnsTheBatch(names, named, i);
      }
    }
    forall t | t in names
      ensures t in after && after[t] == names[t]
    {
      if i :| 0 <= i < |named| && named[i].tag == t && named[i].id != "" {
        assert KnownAs(names, batch[i]);
        LearnsTheBatch(names, named, i);
      } else {
        LearnsNothingElse(names, named, t);
      }
    }
    forall t | t in after && t !in names
      ensures exists i :: 0 <= i < |batch| && batch[i].tag == t && batch[i].id == "" && after[t] == drawn[i]
    {
      if forall i :: 0 <= i < |named| ==> named[i].tag != t || named[i].id == "" {
        LearnsNothingElse(names, named, t);
      }
      var i :| 0 <= i < |named| && named[i].tag == t && named[i].id != "";
      LearnsTheBatch(names, named, i);
      assert KnownAs(names, batch[i]);
    }
  }

  lemma UniqueTag(batch: seq<Event>, i: nat)
    requires Increasing(Tags(batch)) && i < |batch|
    ensures forall j :: 0 <= j < |batch| && batch[j].tag == batch[i].tag ==> j == i
  {
    forall j | 0 <= j < |batch| && batch[j].tag == batch[i].tag
      ensures j == i
    {
      assert Tags(batch)[j] == Tags(batch)[i];
    }
  }

  lemma NamesStayInjective(names: map<nat, string>, batch: seq<Event>, count: nat, drawn: seq<string>)
    requires |drawn| == |batch| && Increasing(Tags(batch)) && AllKnown(names, batch)
    requires FreshDraw(names, drawn) && Injective(names)
    ensures Injective(Learn(names, Identify(batch, count, drawn)))
  {
    var after := Learn(names, Identify(batch, count, drawn));
    NamesAfter(names, batch, count, drawn);
    forall t, u | t in after && u in after && after[t] == after[u]
      ensures t == u
    {
      if t !in names {
        var i :| 0 <= i < |batch| && batch[i].tag == t && batch[i].id == "" && after[t] == drawn[i];
        assert u !in names;
        var j :| 0 <= j < |batch| && batch[j].tag == u && batch[j].id == "" && after[u] == drawn[j];
        assert i == j;
      } else {
        assert after[t] in names.Values;
        assert u in names;
      }
    }
  }

  /** Names drawn for a batch say nothing about events that are not in it. */
  lemma OthersStayKnown(names: map<nat, string>, batch: seq<Event>, count: nat, drawn: seq<string>, others: seq<Event>)
    requires |drawn| == |batch| && Increasing(Tags(batch)) && AllKnown(names, batch)
    requires FreshDraw(names, drawn) && AllKnown(names, others)
    requires forall i, j :: 0 <= i < |batch| && 0 <= j < |others| && batch[i].id == "" ==> batch[i].tag != others[j].tag
    ensures AllKnown(Learn(names, Identify(batch, count, drawn)), others)
  {
    NamesAfter(names, batch, count, drawn);
    forall j | 0 <= j < |others|
      ensures KnownAs(Learn(names, Identify(batch, count, drawn)), others[j])
    {
      assert KnownAs(names, others[j]);
    }
  }

  lemma LineTags(m: Moment)
    requires InOrder(m)
    ensures Increasing(Tags(BatchOf(m.work)))
    ensures forall i, j :: 0 <= i < |BatchOf(m.work)| && 0 <= j < |m.data.items| ==>
      BatchOf(m.work)[i].tag != m.data.items[j].tag
  {
    var batch, items := BatchOf(m.work), m.data.items;
    var line := batch + items;
    assert Tags(batch) == Tags(line)[..|batch|];
    forall i, j | 0 <= i < |batch| && 0 <= j < |items|
      ensures batch[i].tag != items[j].tag
    {
      assert Tags(line)[i] < Tags(line)[|batch| + j];
    }
  }

  /** A retry draws nothing: its events have their identifiers. */
  lemma RetryLearnsNothing(names: map<nat, string>, pending: seq<Event>)
    requires AllIdentified(pending) && AllKnown(names, pending)
    ensures Learn(names, pending) == names
  {
    if pending != [] {
      assert KnownAs(names, pending[|pending| - 1]);
      RetryLearnsNothing(names, pending[..|pending| - 1]);
    }
  }

  /** Naming the events of a flight keeps the names sound and every copy of an event consistent. */
  lemma NamingKeepsSound(m: Moment, count: nat, drawn: seq<string>)
    requires Documented(m) && InOrder(m) && m.work.Sending? && |drawn| == |m.work.flight.pending|
    requires FreshDraw(m.data.cloud.names, drawn)
    ensures var g := WithIdentifiers(m.work.flight, count, drawn);
            var after := Learn(m.data.cloud.names, g.pending);
            && Injective(after)
            && NamesAdmitted(after, m.data.admitted)
            && AllKnown(after, g.batch) && AllKnown(after, g.pending) && AllKnown(after, m.data.items)
            && (forall t :: t in m.data.cloud.names ==> t in after && after[t] == m.data.cloud.names[t])
            && (m.work.flight.attempt > 0 ==> g == m.work.flight)
  {
    var f, names := m.work.flight, m.data.cloud.names;
    LineTags(m);
    SubsequenceKnown(names, f.pending, f.batch);
    if f.attempt == 0 {
      NamesAfter(names, f.pending, count, drawn);
      NamesStayInjective(names, f.pending, count, drawn);
      OthersStayKnown(names, f.pending, count, drawn, m.data.items);
      var after := Learn(names, Identify(f.pending, count, drawn));
      forall t | t in after && t !in names
        ensures t < m.data.admitted
      {
        var i :| 0 <= i < |f.pending| && f.pending[i].tag == t;
        assert (f.batch + m.data.items)[i].tag == t;
      }
    } else {
      IdentifiedStay(f.pending, count, drawn);
      RetryLearnsNothing(names, f.pending);
    }
  }

  lemma LargerNamesSound(cloud: Cloud, after: map<nat, string>, indexed: multiset<nat>)
    requires CloudSound(cloud) && IndexedStored(cloud, indexed) && Injective(after)
    requires forall t :: t in cloud.names ==> t in after && after[t] == cloud.names[t]
    ensures CloudSound(cloud.(names := after)) && IndexedStored(cloud.(names := after), indexed)
  {
    forall e | e in cloud.sent
      ensures e.id != "" && KnownAs(after, e)
    {
      assert KnownAs(cloud.names, e);
    }
  }

  lemma SendingKeepsSound(cloud: Cloud, pending: seq<Event>)
    requires CloudSound(cloud) && AllIdentified(pending) && AllKnown(cloud.names, pending)
    ensures CloudSound(cloud.(sent := cloud.sent + set e | e in pending))
  {
    forall e | e in pending
      ensures e.id != "" && KnownAs(cloud.names, e)
    {
      var i :| 0 <= i < |pending| && pending[i] == e;
    }
  }

  /** A request names its events, then lets them out. */
  lemma RequestKeepsCloud(cloud: Cloud, after: map<nat, string>, pending: seq<Event>, indexed: multiset<nat>)
    requires CloudSound(cloud) && IndexedStored(cloud, indexed) && Injective(after)
    requires forall t :: t in cloud.names ==> t in after && after[t] == cloud.names[t]
    requires AllIdentified(pending) && AllKnown(after, pending)
    ensures var sending := cloud.(names := after, sent := cloud.sent + set e | e in pending);
            CloudSound(sending) && IndexedStored(sending, indexed)
  {
    hide KnownAs;
    LargerNamesSound(cloud, after, indexed);
    SendingKeepsSound(cloud.(names := after), pending);
  }

  lemma RequestDocumented(m: Moment, drawn: seq<string>)
    requires Documented(m) && InOrder(m) && m.work.Sending? && |drawn| == |m.work.flight.pending|
    requires FreshDraw(m.data.cloud.names, drawn)
    ensures Documented(AfterRequest(m, drawn))
  {
    var f, cloud := m.work.flight, m.data.cloud;
    var g := WithIdentifiers(f, |f.pending|, drawn);
    NamingKeepsSound(m, |f.pending|, drawn);
    AllNamed(f, drawn);
    hide Learn, KnownAs, WithIdentifiers, CloudSound, IndexedStored, Injective, AllIdentified, Subsequence;
    RequestKeepsCloud(cloud, Learn(cloud.names, g.pending), g.pending, m.data.ledger.indexed);
  }

  lemma AllNamed(f: Flight, drawn: seq<string>)
    requires |drawn| == |f.pending|
    requires forall i :: 0 <= i < |drawn| ==> drawn[i] != ""
    ensures AllIdentified(WithIdentifiers(f, |f.pending|, drawn).pending)
  {
  }

  lemma FailToBuildDocumented(m: Moment, drawn: seq<string>, identified: nat)
    requires Documented(m) && InOrder(m) && m.work.Sending? && |drawn| == |m.work.flight.pending|
    requires FreshDraw(m.data.cloud.names, drawn)
    ensures Documented(AfterFailToBuild(m, drawn, identified))
  {
    var f, cloud := m.work.flight, m.data.cloud;
    NamingKeepsSound(m, identified, drawn);
    LargerNamesSound(cloud, Learn(cloud.names, WithIdentifiers(f, identified, drawn).pending), m.data.ledger.indexed);
  }

  /** The classification counts as indexed only what the response says is stored. */
  lemma IndexedIsStored(store: map<string, nat>, pending: seq<Event>, reply: Reply)
    requires Honest(store, pending, reply)
    ensures forall e :: e in Classify(pending, reply).indexed ==> e.id in store
  {
    if ItemsInspected(pending, reply) {
      var at := Positions(reply.body.items, Stored);
      ChosenIsFilter(pending, reply.body.items, Stored);
      forall k | 0 <= k < |at|
        ensures pending[at[k]].id in store
      {
        assert VerdictOf(reply.body.items[at[k]]) == Stored;
      }
    }
  }

  /** Only stored events get counted as indexed. */
  lemma CountingKeepsStored(cloud: Cloud, indexed: multiset<nat>, pending: seq<Event>, more: seq<Event>)
    requires CloudSound(cloud) && IndexedStored(cloud, indexed)
    requires Subsequence(more, pending)
    requires forall i :: 0 <= i < |pending| ==> pending[i] in cloud.sent
    requires forall e :: e in more ==> e.id in cloud.store
    ensures IndexedStored(cloud, indexed + multiset(Tags(more)))
  {
    forall t | t in multiset(Tags(more))
      ensures t in cloud.names && cloud.names[t] in cloud.store
    {
      assert t in Tags(more);
      var i :| 0 <= i < |more| && Tags(more)[i] == t;
      SubsequenceMembers(more, pending, more[i]);
      assert KnownAs(cloud.names, more[i]);
    }
  }

  lemma RetryIdentified(pending: seq<Event>, retry: seq<Event>, sent: set<Event>, names: map<nat, string>)
    requires Subsequence(retry, pending)
    requires forall i :: 0 <= i < |pending| ==> pending[i] in sent
    requires forall e :: e in sent ==> e.id != "" && KnownAs(names, e)
    ensures AllIdentified(retry)
  {
    forall i | 0 <= i < |retry|
      ensures retry[i].id != ""
    {
      SubsequenceMembers(retry, pending, retry[i]);
    }
  }

  lemma RespondDocumented(m: Moment, reply: Reply)
    requires Documented(m) && InOrder(m) && m.work.Awaiting?
    requires Honest(m.data.cloud.store, m.work.flight.pending, reply)
    ensures Documented(AfterRespond(m, reply))
  {
    var pending, cloud := m.work.flight.pending, m.data.cloud;
    var r := Classify(pending, reply);
    ClassifyPartitions(pending, reply);
    RetryIdentified(pending, r.retry, cloud.sent, cloud.names);
    IndexedIsStored(cloud.store, pending, reply);
    CountingKeepsStored(cloud, m.data.ledger.indexed, pending, r.indexed);
  }

  lemma ConcludeDocumented(m: Moment, who: Who, cancelled: bool)
    requires Documented(m) && InOrder(m) && m.work.Returned?
    ensures Documented(AfterConclude(m, who, cancelled))
  {
    var batch, outcome := m.work.batch, m.work.outcome;
    SubsequenceKnown(m.data.cloud.names, Pending(outcome), batch);
  }

  lemma TakeBatchDocumented(c: Config, m: Moment)
    requires Documented(m) && m.work.Draining?
    ensures Documented(AfterTakeBatch(c, m))
  {
  }

  lemma DecisionDocumented(c: Config, m: Moment, cancelled: bool)
    requires Documented(m) && m.work.Deciding?
    ensures Documented(AfterDecision(c, m, cancelled))
  {
  }

  lemma ActKeepsDocumented(c: Config, m: Moment, who: Who, cancelled: bool, act: Act)
    requires Documented(m) && InOrder(m) && ActEnabled(m, cancelled, act)
    ensures Documented(AfterAct(c, m, who, cancelled, act))
  {
    match act
    case TakeBatch => TakeBatchDocumented(c, m);
    case Request(drawn) => RequestDocumented(m, drawn);
    case FailToBuild(drawn, identified) => FailToBuildDocumented(m, drawn, identified);
    case Respond(reply) => RespondDocumented(m, reply);
    case Decision => DecisionDocumented(c, m, cancelled);
    case Conclude => ConcludeDocumented(m, who, cancelled);
    case _ =>
  }

  /** The server applying a request, at any time after it left, as often as it arrives. */
  lemma ApplyDocumented(m: Moment, e: Event)
    requires Documented(m) && e in m.data.cloud.sent && e.id !in m.data.cloud.store
    ensures Documented(m.(data := m.data.(cloud := m.data.cloud.(store := m.data.cloud.store[e.id := e.tag]))))
  {
  }

  /** A new event has a tag nobody knows yet. */
  lemma ProduceDocumented(m: Moment, policy: DropPolicy, n: nat)
    requires Documented(m)
    ensures Documented(m.(data := AfterProduce(m.data, policy, n)))
  {
  }
}
