/** The collect handler: what it answers, and what a request leaves behind in the queue and the
    counters. Requests are taken one at a time; AdmissionRuns interleaves them. */
module Admission {
  import opened Events
  import opened Options
  import opened RingQueue
  import opened RateLimiting
  import Domains
  import Text

  /** A request body as it was read and decoded. */
  datatype RequestBody = TooBig | Blank | Malformed | Batch(events: seq<Event>)

  /** What the handler takes from a request. `now` is the clock when the limiter was asked, `received`
      when the batch had been decoded; `domainAllowed` is the look-up of the request's domain. */
  datatype Request = Request(clientIP: string, now: int, received: int, origin: string, isJson: bool,
                             body: RequestBody, domainAllowed: bool)

  datatype Settings = Settings(requireOrigin: bool, requireUrlHostMatch: bool, maxEvents: int,
                               policy: DropPolicy, siteOrigins: map<string, set<string>>)

  /** The steps taken for each event, as functions of the event. */
  datatype Stages = Stages(
    enrich: (Request, Event) -> Event,  // request metadata, and the mark of a suspect user agent
    siteOf: Event -> string,
    originOf: Event -> string,
    urlHostMatches: Event -> bool,
    limit: Event -> Event,
    valid: Event -> bool,
    locate: (Request, Event) -> Event)  // geographic data, if there are any

  datatype Fault = OriginNotAllowed | UrlHostMismatch | InvalidEvent

  datatype Answer =
    | RateLimited
    | OriginRequired
    | NotJson
    | PayloadTooLarge
    | EmptyBody
    | InvalidJson
    | EmptyBatch
    | TooManyEvents
    | DomainNotAllowed
    | BadEvent(fault: Fault)
    | QueueFull
    | Accepted
  {
    /** When in the handler this answer is given. */
    function Rank(): nat {
      match this
      case RateLimited => 0
      case OriginRequired => 1
      case NotJson => 2
      case PayloadTooLarge => 3
      case EmptyBody => 4
      case InvalidJson => 5
      case EmptyBatch => 6
      case TooManyEvents => 7
      case DomainNotAllowed => 8
      case BadEvent(_) => 9
      case QueueFull => 10
      case Accepted => 11
    }
  }

  /** An empty table allows every origin; otherwise the site must be known, with this origin. */
  predicate OriginAllowed(siteOrigins: map<string, set<string>>, site: string, origin: string) {
    || |siteOrigins| == 0
    || (site in siteOrigins && Domains.NormalizeDomain(origin) in siteOrigins[site])
  }

  lemma TableNotEmpty(mappings: seq<string>)
    requires Domains.AllWellFormed(mappings) && mappings != []
    ensures |Domains.SiteTable(mappings)| > 0
  {
    var last := mappings[|mappings| - 1];
    assert Domains.SiteOf(last) in Domains.SiteTable(mappings);
  }

  /** Whether a mapping lists an origin, up to case, scheme, port and path. */
  predicate Lists(mapping: string, origin: string)
    requires Domains.WellFormed(mapping)
  {
    var d := Domains.NormalizeDomain(origin);
    d != "" && d in Domains.NormalizeAll(Text.Split(Domains.OriginList(mapping), ','))
  }

  /** From the configured text to the decision: with any mapping configured, an origin is allowed
      exactly when the last mapping for the site lists it. */
  lemma OriginAllowedExactlyWhen(mappings: seq<string>, site: string, origin: string)
    requires Domains.AllWellFormed(mappings)
    ensures var i := Domains.LastNaming(mappings, site);
            (OriginAllowed(Domains.SiteTable(mappings), site, origin) <==> mappings == [] || (i >= 0 && Lists(mappings[i], origin)))
  {
    if mappings != [] {
      TableNotEmpty(mappings);
      Domains.SiteTableFacts(mappings, site);
      var i := Domains.LastNaming(mappings, site);
      if i >= 0 {
        Domains.DomainsMembers(Domains.OriginList(mappings[i]), Domains.NormalizeDomain(origin));
      }
    }
  }

  /** In terms of hosts: when the site's last mapping lists spellings of certain hosts, an origin spelled
      for a host is allowed exactly when the host is one of them. */
  lemma HostAllowedExactlyWhen(mappings: seq<string>, site: string, hosts: seq<string>, origin: string, host: string)
    requires Domains.AllWellFormed(mappings) && Domains.LastNaming(mappings, site) >= 0
    requires var pieces := Text.Split(Domains.OriginList(mappings[Domains.LastNaming(mappings, site)]), ',');
             |pieces| == |hosts| && forall k :: 0 <= k < |hosts| ==> Domains.Names(pieces[k], hosts[k])
    requires Domains.Names(origin, host)
    ensures OriginAllowed(Domains.SiteTable(mappings), site, origin) <==> host in hosts
  {
    var pieces := Text.Split(Domains.OriginList(mappings[Domains.LastNaming(mappings, site)]), ',');
    OriginAllowedExactlyWhen(mappings, site, origin);
    Domains.NormalizeFindsHost(origin, host);
    Domains.HostNotEmpty(origin, host);
    forall k | 0 <= k < |hosts|
      ensures Domains.NormalizeAll(pieces)[k] == hosts[k]
    {
      Domains.NormalizeFindsHost(pieces[k], hosts[k]);
    }
    assert Domains.NormalizeAll(pieces) == hosts;
  }

  /** The events as they go into the queue: enriched, cut to length, located. */
  function Finals(stages: Stages, r: Request, batch: seq<Event>): (finals: seq<Event>)
    ensures |finals| == |batch|
    ensures forall i :: 0 <= i < |batch| ==> finals[i] == stages.locate(r, stages.limit(stages.enrich(r, batch[i])))
  {
    seq(|batch|, i requires 0 <= i < |batch| => stages.locate(r, stages.limit(stages.enrich(r, batch[i]))))
  }

  predicate OriginFits(settings: Settings, stages: Stages, e: Event) {
    OriginAllowed(settings.siteOrigins, stages.siteOf(e), stages.originOf(e))
  }

  predicate HostFits(settings: Settings, stages: Stages, e: Event) {
    settings.requireUrlHostMatch ==> stages.urlHostMatches(e)
  }

  /** What is wrong with an event, if anything: origin and URL are judged before its fields are cut to
      length, validity after. */
  ghost predicate Has(fault: Fault, settings: Settings, stages: Stages, r: Request, e: Event) {
    var enriched := stages.enrich(r, e);
    match fault
    case OriginNotAllowed => !OriginFits(settings, stages, enriched)
    case UrlHostMismatch => OriginFits(settings, stages, enriched) && !HostFits(settings, stages, enriched)
    case InvalidEvent =>
      OriginFits(settings, stages, enriched) && HostFits(settings, stages, enriched) && !stages.valid(stages.limit(enriched))
  }

  ghost predicate Sound(settings: Settings, stages: Stages, r: Request, e: Event) {
    forall fault: Fault :: !Has(fault, settings, stages, r, e)
  }

  /** Which fault it is, spelled out: the first in the order origin, URL, validity. */
  lemma HasMeans(fault: Fault, settings: Settings, stages: Stages, r: Request, e: Event)
    ensures var x := stages.enrich(r, e);
            var known := OriginAllowed(settings.siteOrigins, stages.siteOf(x), stages.originOf(x));
            && (fault.OriginNotAllowed? ==> (Has(fault, settings, stages, r, e) <==> !known))
            && (fault.UrlHostMismatch? ==>
                 (Has(fault, settings, stages, r, e) <==> known && settings.requireUrlHostMatch && !stages.urlHostMatches(x)))
            && (fault.InvalidEvent? ==>
                 (Has(fault, settings, stages, r, e) <==>
                   known && (settings.requireUrlHostMatch ==> stages.urlHostMatches(x)) && !stages.valid(stages.limit(x))))
  {
  }

  /** What makes an event sound, spelled out. */
  lemma SoundMeans(settings: Settings, stages: Stages, r: Request, e: Event)
    ensures var x := stages.enrich(r, e);
            Sound(settings, stages, r, e) <==>
              && OriginAllowed(settings.siteOrigins, stages.siteOf(x), stages.originOf(x))
              && (settings.requireUrlHostMatch ==> stages.urlHostMatches(x))
              && stages.valid(stages.limit(x))
  {
    assert Sound(settings, stages, r, e) <==>
      !Has(OriginNotAllowed, settings, stages, r, e) && !Has(UrlHostMismatch, settings, stages, r, e)
      && !Has(InvalidEvent, settings, stages, r, e);
  }

  ghost predicate AllSound(settings: Settings, stages: Stages, r: Request, batch: seq<Event>) {
    forall i :: 0 <= i < |batch| ==> Sound(settings, stages, r, batch[i])
  }

  /** The first event that is not sound has this fault. */
  ghost predicate FirstBad(fault: Fault, settings: Settings, stages: Stages, r: Request, batch: seq<Event>) {
    exists i :: 0 <= i < |batch| && Has(fault, settings, stages, r, batch[i]) && AllSound(settings, stages, r, batch[..i])
  }

  /** What calls for an answer. `room` says whether the whole batch fits into the queue. */
  ghost predicate Grounds(a: Answer, passed: bool, settings: Settings, stages: Stages, r: Request, room: bool) {
    match a
    case RateLimited => !passed
    case OriginRequired => settings.requireOrigin && Text.Trim(r.origin) == ""
    case NotJson => !r.isJson
    case PayloadTooLarge => r.body.TooBig?
    case EmptyBody => r.body.Blank?
    case InvalidJson => r.body.Malformed?
    case EmptyBatch => r.body == Batch([])
    case TooManyEvents => r.body.Batch? && |r.body.events| > settings.maxEvents
    case DomainNotAllowed => !r.domainAllowed
    case BadEvent(fault) => r.body.Batch? && FirstBad(fault, settings, stages, r, r.body.events)
    case QueueFull => settings.policy.Reject? && !room
    case Accepted => true
  }

  /** The answer given is the first that anything calls for. */
  ghost predicate IsAnswer(a: Answer, passed: bool, settings: Settings, stages: Stages, r: Request, room: bool) {
    && Grounds(a, passed, settings, stages, r, room)
    && forall b: Answer :: b.Rank() < a.Rank() ==> !Grounds(b, passed, settings, stages, r, room)
  }

  /** Nothing up to the event loop speaks against the request. */
  ghost predicate Passable(passed: bool, settings: Settings, r: Request) {
    && passed
    && !(settings.requireOrigin && Text.Trim(r.origin) == "")
    && r.isJson
    && r.body.Batch? && r.body != Batch([])
    && |r.body.events| <= settings.maxEvents
    && r.domainAllowed
  }

  lemma NothingEarlier(a: Answer, passed: bool, settings: Settings, stages: Stages, r: Request, room: bool)
    requires IsAnswer(a, passed, settings, stages, r, room) && a.Rank() >= 9
    ensures Passable(passed, settings, r)
    ensures a.Rank() >= 10 ==> AllSound(settings, stages, r, r.body.events)
    ensures a.Accepted? && settings.policy.Reject? ==> room
  {
    assert !Grounds(RateLimited, passed, settings, stages, r, room) && !Grounds(OriginRequired, passed, settings, stages, r, room);
    assert !Grounds(NotJson, passed, settings, stages, r, room) && !Grounds(PayloadTooLarge, passed, settings, stages, r, room);
    assert !Grounds(EmptyBody, passed, settings, stages, r, room) && !Grounds(InvalidJson, passed, settings, stages, r, room);
    assert !Grounds(EmptyBatch, passed, settings, stages, r, room) && !Grounds(TooManyEvents, passed, settings, stages, r, room);
    assert !Grounds(DomainNotAllowed, passed, settings, stages, r, room);
    if a.Rank() >= 10 {
      forall fault: Fault
        ensures !FirstBad(fault, settings, stages, r, r.body.events)
      {
        assert !Grounds(BadEvent(fault), passed, settings, stages, r, room);
      }
      SoundOrFirstBad(settings, stages, r, r.body.events);
      assert a.Accepted? ==> !Grounds(QueueFull, passed, settings, stages, r, room);
    }
  }

  /** A request is accepted exactly when nothing speaks against it, every event of it is sound, and - unless
      the newest events may be dropped - all of them fit. */
  lemma AcceptedExactlyWhen(a: Answer, passed: bool, settings: Settings, stages: Stages, r: Request, room: bool)
    requires IsAnswer(a, passed, settings, stages, r, room)
    ensures a.Accepted? <==>
      && passed
      && (settings.requireOrigin ==> Text.Trim(r.origin) != "")
      && r.isJson
      && r.body.Batch? && 0 < |r.body.events| <= settings.maxEvents
      && r.domainAllowed
      && (forall i :: 0 <= i < |r.body.events| ==> Sound(settings, stages, r, r.body.events[i]))
      && (settings.policy.Reject? ==> room)
  {
    hide Sound, FirstBad;
    if a.Rank() >= 9 {
      NothingEarlier(a, passed, settings, stages, r, room);
      SoundOrFirstBad(settings, stages, r, r.body.events);
    }
  }

  /** Why a request is turned away, for each answer in the order in which they are considered. */
  lemma RefusedExactlyWhen(a: Answer, passed: bool, settings: Settings, stages: Stages, r: Request, room: bool)
    requires IsAnswer(a, passed, settings, stages, r, room)
    ensures var named := passed && (settings.requireOrigin ==> Text.Trim(r.origin) != "");
            && (a.RateLimited? <==> !passed)
            && (a.OriginRequired? <==> passed && settings.requireOrigin && Text.Trim(r.origin) == "")
            && (a.NotJson? <==> named && !r.isJson)
            && (a.PayloadTooLarge? <==> named && r.isJson && r.body.TooBig?)
            && (a.EmptyBody? <==> named && r.isJson && r.body.Blank?)
            && (a.InvalidJson? <==> named && r.isJson && r.body.Malformed?)
            && (a.EmptyBatch? <==> named && r.isJson && r.body.Batch? && |r.body.events| == 0)
            && (a.TooManyEvents? <==> named && r.isJson && r.body.Batch? && |r.body.events| > 0 && |r.body.events| > settings.maxEvents)
            && (a.DomainNotAllowed? <==>
                 named && r.isJson && r.body.Batch? && 0 < |r.body.events| <= settings.maxEvents && !r.domainAllowed)
  {
    hide Sound, FirstBad;
    if a.Rank() >= 9 {
      NothingEarlier(a, passed, settings, stages, r, room);
    } else {
      EarlierGrounds(a, passed, settings, stages, r, room);
    }
  }

  lemma EarlierGrounds(a: Answer, passed: bool, settings: Settings, stages: Stages, r: Request, room: bool)
    requires IsAnswer(a, passed, settings, stages, r, room) && a.Rank() < 9
    ensures a.Rank() > 0 ==> passed
    ensures a.Rank() > 1 ==> !(settings.requireOrigin && Text.Trim(r.origin) == "")
    ensures a.Rank() > 2 ==> r.isJson
    ensures a.Rank() > 3 ==> !r.body.TooBig?
    ensures a.Rank() > 4 ==> !r.body.Blank?
    ensures a.Rank() > 5 ==> !r.body.Malformed?
    ensures a.Rank() > 6 ==> r.body != Batch([])
    ensures a.Rank() > 7 ==> r.body.Batch? && |r.body.events| <= settings.maxEvents
  {
    assert a.Rank() > 0 ==> !Grounds(RateLimited, passed, settings, stages, r, room);
    assert a.Rank() > 1 ==> !Grounds(OriginRequired, passed, settings, stages, r, room);
    assert a.Rank() > 2 ==> !Grounds(NotJson, passed, settings, stages, r, room);
    assert a.Rank() > 3 ==> !Grounds(PayloadTooLarge, passed, settings, stages, r, room);
    assert a.Rank() > 4 ==> !Grounds(EmptyBody, passed, settings, stages, r, room);
    assert a.Rank() > 5 ==> !Grounds(InvalidJson, passed, settings, stages, r, room);
    assert a.Rank() > 6 ==> !Grounds(EmptyBatch, passed, settings, stages, r, room);
    assert a.Rank() > 7 ==> !Grounds(TooManyEvents, passed, settings, stages, r, room);
  }

  lemma LoopStep(settings: Settings, stages: Stages, r: Request, batch: seq<Event>, i: nat)
    requires i < |batch| && AllSound(settings, stages, r, batch[..i]) && Sound(settings, stages, r, batch[i])
    ensures AllSound(settings, stages, r, batch[..i + 1])
    ensures Finals(stages, r, batch[..i + 1]) ==
      Finals(stages, r, batch[..i]) + [stages.locate(r, stages.limit(stages.enrich(r, batch[i])))]
  {
    assert batch[..i + 1] == batch[..i] + [batch[i]];
  }

  /** A batch is sound, or some first event in it is not. */
  lemma {:induction false} SoundOrFirstBad(settings: Settings, stages: Stages, r: Request, batch: seq<Event>)
    ensures AllSound(settings, stages, r, batch) <==> forall fault :: !FirstBad(fault, settings, stages, r, batch)
  {
    if batch != [] {
      var n := |batch| - 1;
      var front := batch[..n];
      SoundOrFirstBad(settings, stages, r, front);
      if AllSound(settings, stages, r, front) {
        if fault: Fault :| Has(fault, settings, stages, r, batch[n]) {
          assert FirstBad(fault, settings, stages, r, batch);
        }
      } else {
        var fault :| FirstBad(fault, settings, stages, r, front);
        var i :| 0 <= i < n && Has(fault, settings, stages, r, front[i]) && AllSound(settings, stages, r, front[..i]);
        assert batch[..i] == front[..i] && batch[i] == front[i];
        assert FirstBad(fault, settings, stages, r, batch);
      }
    }
  }

  predicate HasRoom(r: Request, size: nat, capacity: nat) {
    r.body.Batch? ==> Fits(size, capacity, |r.body.events|)
  }

  /** What a request with this answer admits and drops. */
  ghost predicate IsAdmission(a: Answer, settings: Settings, stages: Stages, r: Request, size: nat, capacity: nat,
                              admitted: seq<Event>, lost: int) {
    if !a.Accepted? then admitted == [] && lost == 0
    else
      && r.body.Batch?
      && var enriched := Finals(stages, r, r.body.events);
         && admitted <= enriched
         && |admitted| + lost == |enriched|
         && (settings.policy.Reject? ==> lost == 0)
         && (settings.policy.DropNewest? ==> |admitted| == Admissible(size, capacity, |enriched|))
  }

  class Collector {
    const settings: Settings
    const stages: Stages
    const queue: Queue
    const limiter: RateLimiter
    var accepted: nat
    var dropped: nat
    var queueFull: nat
    /** Everything ever admitted, in order. */
    ghost var log: seq<Event>

    ghost predicate Valid()
      reads this, queue, queue.items, limiter
    {
      && queue.Valid()
      && limiter.Valid()
      && accepted == |log|
    }

    constructor (settings: Settings, stages: Stages, queue: Queue, limiter: RateLimiter)
      requires queue.Valid() && limiter.Valid()
      ensures Valid() && log == [] && this.queue == queue && this.limiter == limiter
      ensures this.settings == settings && this.stages == stages
    {
      this.settings, this.stages, this.queue, this.limiter := settings, stages, queue, limiter;
      accepted, dropped, queueFull, log := 0, 0, 0, [];
    }

    /** Everything that is checked before the events themselves. */
    method Screen(passed: bool, r: Request) returns (refusal: Option<Answer>)
      ensures refusal.None? <==> Passable(passed, settings, r)
      ensures refusal.Some? ==> refusal.value.Rank() < 9 && forall room :: IsAnswer(refusal.value, passed, settings, stages, r, room)
    {
      if !passed {
        return Some(RateLimited);
      }
      if settings.requireOrigin && Text.Trim(r.origin) == "" {
        return Some(OriginRequired);
      }
      if !r.isJson {
        return Some(NotJson);
      }
      match r.body
      case TooBig => return Some(PayloadTooLarge);
      case Blank => return Some(EmptyBody);
      case Malformed => return Some(InvalidJson);
      case Batch(events) =>
        if |events| == 0 {
          return Some(EmptyBatch);
        }
        if |events| > settings.maxEvents {
          return Some(TooManyEvents);
        }
        if !r.domainAllowed {
          return Some(DomainNotAllowed);
        }
        return None;
    }

    /** One round of the event loop. */
    method Handle(r: Request, e: Event) returns (fault: Option<Fault>, final: Event)
      ensures if fault.None? then Sound(settings, stages, r, e) else Has(fault.value, settings, stages, r, e)
      ensures fault.None? ==> final == stages.locate(r, stages.limit(stages.enrich(r, e)))
      ensures fault.None? ==> stages.valid(stages.limit(stages.enrich(r, e)))
    {
      final := stages.enrich(r, e);
      if !OriginAllowed(settings.siteOrigins, stages.siteOf(final), stages.originOf(final)) {
        return Some(OriginNotAllowed), final;
      }
      if settings.requireUrlHostMatch && !stages.urlHostMatches(final) {
        return Some(UrlHostMismatch), final;
      }
      final := stages.limit(final);
      if !stages.valid(final) {
        return Some(InvalidEvent), final;
      }
      final := stages.locate(r, final);
      return None, final;
    }

    /** The event loop: the first fault ends it. */
    method Prepare(r: Request, batch: seq<Event>) returns (fault: Option<Fault>, enriched: seq<Event>)
      ensures fault.None? ==> AllSound(settings, stages, r, batch) && enriched == Finals(stages, r, batch)
      ensures fault.Some? ==> FirstBad(fault.value, settings, stages, r, batch)
    {
      enriched := [];
      for i := 0 to |batch|
        invariant AllSound(settings, stages, r, batch[..i])
        invariant enriched == Finals(stages, r, batch[..i])
      {
        var final;
        fault, final := Handle(r, batch[i]);
        if fault.Some? {
          return;
        }
        LoopStep(settings, stages, r, batch, i);
        enriched := enriched + [final];
      }
      assert batch[..|batch|] == batch;
      fault := None;
    }

    /** Admission proper: all or nothing, or the longest prefix that fits. */
    method Admit(enriched: seq<Event>) returns (a: Answer, ghost kept: nat)
      requires Valid()
      modifies this, queue`size, queue`notified, queue.items
      ensures Valid()
      ensures kept == RingQueue.Accepted(settings.policy, old(queue.size), queue.capacity, |enriched|)
      ensures settings.policy.Reject? ==> kept == if old(queue.size) + |enriched| <= queue.capacity then |enriched| else 0
      ensures settings.policy.DropNewest? ==>
        kept == if old(queue.size) + |enriched| <= queue.capacity then |enriched| else queue.capacity - old(queue.size)
      ensures queue.Contents() == old(queue.Contents()) + enriched[..kept] && log == old(log) + enriched[..kept]
      ensures a == if settings.policy.Reject? && old(queue.size) + |enriched| > queue.capacity then QueueFull else Accepted
      ensures dropped == old(dropped) + if settings.policy.DropNewest? then |enriched| - kept else 0
      ensures queueFull == old(queueFull) + if kept < |enriched| then 1 else 0
    {
      if settings.policy.Reject? {
        var ok := queue.Enqueue(enriched);
        if !ok {
          queueFull := queueFull + 1;
          return QueueFull, 0;
        }
        accepted := accepted + |enriched|;
        log := log + enriched;
        assert enriched[..|enriched|] == enriched;
        return Accepted, |enriched|;
      }
      var lost := queue.DropNewest(enriched);
      kept := |enriched| - lost;
      if lost > 0 {
        dropped := dropped + lost;
        queueFull := queueFull + 1;
      }
      accepted := accepted + (|enriched| - lost);
      log := log + enriched[..kept];
      return Accepted, kept;
    }

    /** The events of a request that has passed everything before them. */
    method HandleBatch(r: Request, ghost passed: bool) returns (a: Answer, ghost admitted: seq<Event>)
      requires Valid() && Passable(passed, settings, r)
      modifies this, queue`size, queue`notified, queue.items
      ensures Valid()
      ensures queue.Contents() == old(queue.Contents()) + admitted && log == old(log) + admitted
      ensures IsAdmission(a, settings, stages, r, old(queue.size), queue.capacity, admitted, dropped - old(dropped))
      ensures IsAnswer(a, passed, settings, stages, r, HasRoom(r, old(queue.size), queue.capacity))
      ensures a.Accepted? ==>
        && r.body.Batch? && |admitted| <= |r.body.events|
        && forall i :: 0 <= i < |admitted| ==> IsAdmitted(r, r.body.events[i], admitted[i])
      ensures forall p: Event -> bool :: HoldsOfChecked(p, r) ==> forall i :: 0 <= i < |admitted| ==> p(admitted[i])
      ensures a.Accepted? && settings.policy.Reject? ==> |admitted| == |r.body.events|
      ensures a.Accepted? && settings.policy.DropNewest? ==>
        |admitted| == if old(queue.size) + |r.body.events| <= queue.capacity then |r.body.events| else queue.capacity - old(queue.size)
    {
      ghost var room := HasRoom(r, queue.size, queue.capacity);
      var fault, enriched := Prepare(r, r.body.events);
      if fault.Some? {
        LateAnswer(BadEvent(fault.value), passed, settings, stages, r, room);
        return BadEvent(fault.value), [];
      }
      SoundOrFirstBad(settings, stages, r, r.body.events);
      ghost var kept;
      a, kept := Admit(enriched);
      admitted := enriched[..kept];
      LateAnswer(a, passed, settings, stages, r, room);
      AdmittedAreChecked(r, a, passed, room, admitted);
    }

    /** A whole request. A prefix of the batch, as enriched, goes to the end of the queue and of the
        log; unless the answer is that the request was accepted, that prefix is empty. */
    method Collect(r: Request) returns (a: Answer, ghost admitted: seq<Event>)
      requires Valid()
      modifies this, queue`size, queue`notified, queue.items, limiter
      ensures Valid()
      ensures queue.Contents() == old(queue.Contents()) + admitted && log == old(log) + admitted
      ensures accepted == old(accepted) + |admitted|
      ensures IsAdmission(a, settings, stages, r, old(queue.size), queue.capacity, admitted, dropped - old(dropped))
      ensures IsAnswer(a, MayPass(limiter.limit, limiter.maxClients, old(limiter.history), r.clientIP, r.now), settings, stages, r,
                       HasRoom(r, old(queue.size), queue.capacity))
      ensures a.Accepted? ==>
        && r.body.Batch? && |admitted| <= |r.body.events|
        && forall i :: 0 <= i < |admitted| ==> IsAdmitted(r, r.body.events[i], admitted[i])
      ensures forall p: Event -> bool :: HoldsOfChecked(p, r) ==> forall i :: 0 <= i < |admitted| ==> p(admitted[i])
      ensures a.Accepted? && settings.policy.Reject? ==> |admitted| == |r.body.events|
      ensures a.Accepted? && settings.policy.DropNewest? ==>
        |admitted| == if old(queue.size) + |r.body.events| <= queue.capacity then |r.body.events| else queue.capacity - old(queue.size)
    {
      hide View, DeadSlotsAreZero, MayPass, IsAnswer, HoldsOfChecked, IsAdmitted;
      var passed := limiter.Allow(r.clientIP, r.now);
      var refusal := Screen(passed, r);
      if refusal.Some? {
        return refusal.value, [];
      }
      a, admitted := HandleBatch(r, passed);
    }

    /** What one event of a request became: enriched, then cut to length and found valid, then located. */
    ghost predicate IsAdmitted(r: Request, e: Event, admitted: Event) {
      && stages.valid(stages.limit(stages.enrich(r, e)))
      && admitted == stages.locate(r, stages.limit(stages.enrich(r, e)))
    }

    /** Holds of every event that was cut to length and found valid, and stays when it is located. Whatever
        the limits establish is such a property, and whatever validity implies, unless location undoes it. */
    ghost predicate HoldsOfChecked(p: Event -> bool, r: Request) {
      && (forall e :: stages.valid(stages.limit(e)) ==> p(stages.limit(e)))
      && (forall e :: p(e) ==> p(stages.locate(r, e)))
    }

    /** No event enters the queue that the checks would refuse. */
    lemma AdmittedAreChecked(r: Request, a: Answer, passed: bool, room: bool, admitted: seq<Event>)
      requires IsAnswer(a, passed, settings, stages, r, room)
      requires if a.Accepted? then r.body.Batch? && admitted <= Finals(stages, r, r.body.events) else admitted == []
      ensures a.Accepted? ==> forall i :: 0 <= i < |admitted| ==> IsAdmitted(r, r.body.events[i], admitted[i])
      ensures forall p: Event -> bool :: HoldsOfChecked(p, r) ==> forall i :: 0 <= i < |admitted| ==> p(admitted[i])
    {
      hide Grounds, FirstBad, Sound;
      if a.Accepted? {
        AcceptedExactlyWhen(a, passed, settings, stages, r, room);
        forall i | 0 <= i < |admitted|
          ensures IsAdmitted(r, r.body.events[i], admitted[i])
        {
          SoundMeans(settings, stages, r, r.body.events[i]);
        }
      }
    }
  }

  /** Past the event loop, or in it, nothing earlier can have called for an answer. */
  lemma LateAnswer(a: Answer, passed: bool, settings: Settings, stages: Stages, r: Request, room: bool)
    requires Passable(passed, settings, r) && Grounds(a, passed, settings, stages, r, room) && a.Rank() >= 9
    requires a.BadEvent? || forall fault :: !FirstBad(fault, settings, stages, r, r.body.events)
    requires a.Accepted? ==> !Grounds(QueueFull, passed, settings, stages, r, room)
    ensures IsAnswer(a, passed, settings, stages, r, room)
  {
  }
}
