/** The per-client limiter: a fixed one-minute window and a bounded table of clients. */
module RateLimiting {

  const MINUTE := 60
  const DEFAULT_MAX_CLIENTS := 100000

  /** The start of the minute a moment (in seconds) falls into. */
  function WindowOf(now: int): int {
    now - now % MINUTE
  }

  /** Windows are the whole minutes, and every moment lies in its own. */
  lemma WindowIsMinute(now: int)
    ensures WindowOf(now) % 60 == 0 && WindowOf(now) <= now < WindowOf(now) + 60
  {
  }

  /** One call of Allow and its answer. */
  datatype Call = Call(client: string, now: int, allowed: bool)

  /** The calls the limiter keeps track of in one window: going back from the latest, as long as they
      fall into it. Calls without a client are not tracked. */
  ghost function Era(history: seq<Call>, window: int): seq<Call> {
    if history == [] then []
    else
      var last, front := history[|history| - 1], history[..|history| - 1];
      if last.client == "" then Era(front, window)
      else if WindowOf(last.now) == window then Era(front, window) + [last]
      else []
  }

  /** How often a client was let through. */
  ghost function Passed(calls: seq<Call>, client: string): nat {
    if calls == [] then 0
    else
      var last := calls[|calls| - 1];
      Passed(calls[..|calls| - 1], client) + if last.allowed && last.client == client then 1 else 0
  }

  /** The clients that were let through. */
  ghost function Clients(calls: seq<Call>): set<string> {
    set i | 0 <= i < |calls| && calls[i].allowed :: calls[i].client
  }

  /** What the limiter promises, in terms of the calls before: a client passes while it has had fewer
      than `limit` passes in the window, and is among the clients of the window or finds room there. */
  ghost predicate MayPass(limit: nat, maxClients: nat, history: seq<Call>, client: string, now: int) {
    || limit == 0
    || client == ""
    || (var era := Era(history, WindowOf(now));
        Passed(era, client) < limit && (client in Clients(era) || |Clients(era)| < maxClients))
  }

  /** Every answer in the history is the promised one. */
  ghost predicate IsLog(limit: nat, maxClients: nat, history: seq<Call>) {
    forall i :: 0 <= i < |history| ==>
      (history[i].allowed <==> MayPass(limit, maxClients, history[..i], history[i].client, history[i].now))
  }

  /** The latest tracked call, if any, fell into this window. */
  ghost predicate LatestIn(history: seq<Call>, window: int) {
    history != [] ==>
      var last := history[|history| - 1];
      if last.client == "" then LatestIn(history[..|history| - 1], window) else WindowOf(last.now) == window
  }

  lemma LogExtends(limit: nat, maxClients: nat, history: seq<Call>, call: Call)
    requires IsLog(limit, maxClients, history)
    requires call.allowed <==> MayPass(limit, maxClients, history, call.client, call.now)
    ensures IsLog(limit, maxClients, history + [call])
  {
    var longer := history + [call];
    forall i | 0 <= i < |longer|
      ensures longer[i].allowed <==> MayPass(limit, maxClients, longer[..i], longer[i].client, longer[i].now)
    {
      assert longer[..i] == history[..i];
    }
    assert longer[..|history|] == history;
  }

  ghost function EraAfter(history: seq<Call>, call: Call, window: int): seq<Call> {
    if call.client == "" then Era(history, window)
    else if WindowOf(call.now) == window then Era(history, window) + [call]
    else []
  }

  lemma EraExtends(history: seq<Call>, call: Call, window: int)
    ensures Era(history + [call], window) == EraAfter(history, call, window)
    ensures LatestIn(history + [call], window) <==>
      if call.client == "" then LatestIn(history, window) else WindowOf(call.now) == window
  {
    assert (history + [call])[..|history|] == history;
  }

  /** A window that is not the latest one has no era: the table is rightly thrown away. */
  lemma {:induction false} OtherWindowEmpty(history: seq<Call>, current: int, window: int)
    requires LatestIn(history, current) && window != current
    ensures Era(history, window) == []
  {
    if history != [] && history[|history| - 1].client == "" {
      OtherWindowEmpty(history[..|history| - 1], current, window);
    }
  }

  lemma PassedExtends(calls: seq<Call>, call: Call, client: string)
    ensures Passed(calls + [call], client) ==
      Passed(calls, client) + if call.allowed && call.client == client then 1 else 0
  {
    assert (calls + [call])[..|calls|] == calls;
  }

  lemma ClientsExtend(calls: seq<Call>, call: Call)
    ensures Clients(calls + [call]) == Clients(calls) + if call.allowed then {call.client} else {}
  {
    var longer := calls + [call];
    forall c | c in Clients(longer)
      ensures c in Clients(calls) + if call.allowed then {call.client} else {}
    {
      var i :| 0 <= i < |longer| && longer[i].allowed && longer[i].client == c;
      if i < |calls| { assert calls[i] == longer[i]; }
    }
    forall c | c in Clients(calls)
      ensures c in Clients(longer)
    {
      var i :| 0 <= i < |calls| && calls[i].allowed && calls[i].client == c;
      assert longer[i] == calls[i];
    }
    assert longer[|calls|] == call;
  }

  lemma {:induction false} StrangersNeverPassed(calls: seq<Call>, client: string)
    requires client !in Clients(calls)
    ensures Passed(calls, client) == 0
  {
    if calls != [] {
      var n := |calls| - 1;
      assert calls == calls[..n] + [calls[n]];
      ClientsExtend(calls[..n], calls[n]);
      StrangersNeverPassed(calls[..n], client);
    }
  }

  datatype WindowState = WindowState(windowStart: int, count: nat)

  /** The table is exactly the clients let through in the era, each with its window and count. */
  ghost predicate Matches(clients: map<string, WindowState>, era: seq<Call>, window: int, limit: nat) {
    && clients.Keys == Clients(era)
    && forall c :: c in clients ==> clients[c] == WindowState(window, Passed(era, c)) && 1 <= clients[c].count <= limit
  }

  lemma PassMatches(clients: map<string, WindowState>, era: seq<Call>, window: int, limit: nat, call: Call, count: nat)
    requires Matches(clients, era, window, limit) && call.allowed
    requires count == Passed(era, call.client) < limit
    ensures Matches(clients[call.client := WindowState(window, count + 1)], era + [call], window, limit)
  {
    ClientsExtend(era, call);
    var after := clients[call.client := WindowState(window, count + 1)];
    forall c | c in after
      ensures after[c] == WindowState(window, Passed(era + [call], c)) && 1 <= after[c].count <= limit
    {
      PassedExtends(era, call, c);
    }
  }

  lemma RefusalMatches(clients: map<string, WindowState>, era: seq<Call>, window: int, limit: nat, call: Call)
    requires Matches(clients, era, window, limit) && !call.allowed
    ensures Matches(clients, era + [call], window, limit)
  {
    ClientsExtend(era, call);
    forall c | c in clients
      ensures clients[c] == WindowState(window, Passed(era + [call], c))
    {
      PassedExtends(era, call, c);
    }
  }

  lemma NothingYet(client: string, window: int)
    ensures Era([], window) == [] && Passed([], client) == 0 && Clients([]) == {}
  {
  }

  /** No era ever exceeds the bounds, whatever the order of times. */
  lemma {:induction false} EraBounded(limit: nat, maxClients: nat, history: seq<Call>, client: string, window: int)
    requires IsLog(limit, maxClients, history) && 0 < limit && 0 < maxClients
    ensures Passed(Era(history, window), client) <= limit
    ensures |Clients(Era(history, window))| <= maxClients
    ensures "" !in Clients(Era(history, window))
  {
    if history != [] {
      var n := |history| - 1;
      var front, last := history[..n], history[n];
      assert history == front + [last];
      LogPrefix(limit, maxClients, history, n);
      EraBounded(limit, maxClients, front, client, window);
      EraExtends(front, last, window);
      if last.client != "" && WindowOf(last.now) == window {
        assert last.allowed <==> MayPass(limit, maxClients, front, last.client, last.now);
        CallKeepsBounds(limit, maxClients, Era(front, window), last, client);
      }
    }
  }

  lemma CallKeepsBounds(limit: nat, maxClients: nat, era: seq<Call>, call: Call, client: string)
    requires Passed(era, client) <= limit && |Clients(era)| <= maxClients && "" !in Clients(era) && call.client != ""
    requires call.allowed ==>
      Passed(era, call.client) < limit && (call.client in Clients(era) || |Clients(era)| < maxClients)
    ensures Passed(era + [call], client) <= limit
    ensures |Clients(era + [call])| <= maxClients && "" !in Clients(era + [call])
  {
    PassedExtends(era, call, client);
    ClientsExtend(era, call);
    assert call.client in Clients(era) ==> Clients(era) + {call.client} == Clients(era);
  }

  lemma LogPrefix(limit: nat, maxClients: nat, history: seq<Call>, n: nat)
    requires IsLog(limit, maxClients, history) && n <= |history|
    ensures IsLog(limit, maxClients, history[..n])
  {
    forall i | 0 <= i < n
      ensures history[..n][i].allowed <==>
        MayPass(limit, maxClients, history[..n][..i], history[..n][i].client, history[..n][i].now)
    {
      assert history[..n][..i] == history[..i];
    }
  }

  class RateLimiter {
    const limit: nat
    const maxClients: nat
    var clients: map<string, WindowState>
    var windowStart: int
    ghost var history: seq<Call>

    ghost predicate Valid()
      reads this
    {
      && 0 < maxClients
      && |clients| <= maxClients
      && IsLog(limit, maxClients, history)
      && (limit > 0 ==> Matches(clients, Era(history, windowStart), windowStart, limit))
      && (limit > 0 ==> LatestIn(history, windowStart))
    }

    constructor (limit: nat, maxClients: int)
      ensures Valid() && history == [] && this.limit == limit
      ensures this.maxClients == if maxClients <= 0 then 100000 else maxClients
    {
      this.limit := limit;
      this.maxClients := if maxClients <= 0 then DEFAULT_MAX_CLIENTS else maxClients;
      clients, windowStart, history := map[], 0, [];
    }

    method Allow(clientID: string, now: int) returns (ok: bool)
      requires Valid()
      modifies this
      ensures Valid()
      ensures limit == 0 || clientID == "" ==> ok
      ensures ok <==> MayPass(limit, maxClients, old(history), clientID, now)
      ensures history == old(history) + [Call(clientID, now, ok)]
    {
      hide Era, Passed, Clients, LatestIn, IsLog, WindowOf;
      if limit == 0 || clientID == "" {
        Record(Call(clientID, now, true));
        return true;
      }
      var window := WindowOf(now);
      if windowStart != window {
        OtherWindowEmpty(history, windowStart, window);
        NothingYet(clientID, window);
        clients := map[];
        windowStart := window;
      }
      ghost var era := Era(history, window);
      var known := clientID in clients;
      var state := if known then clients[clientID] else WindowState(0, 0);
      if state.windowStart != window {
        state := WindowState(window, 0);
      }
      if !known { StrangersNeverPassed(era, clientID); }
      assert state == WindowState(window, Passed(era, clientID));
      ghost var refused, passed := Call(clientID, now, false), Call(clientID, now, true);
      if !known && |clients| >= maxClients {
        RefusalMatches(clients, era, window, limit, refused);
        Record(refused);
        return false;
      }
      if state.count >= limit {
        RefusalMatches(clients, era, window, limit, refused);
        clients := clients[clientID := state];
        Record(refused);
        return false;
      }
      state := state.(count := state.count + 1);
      PassMatches(clients, era, window, limit, passed, state.count - 1);
      clients := clients[clientID := state];
      Record(passed);
      return true;
    }

    /** Bookkeeping of the specification. */
    ghost method Record(call: Call)
      requires IsLog(limit, maxClients, history)
      requires call.allowed <==> MayPass(limit, maxClients, history, call.client, call.now)
      modifies this`history
      ensures history == old(history) + [call] && IsLog(limit, maxClients, history)
      ensures Era(history, windowStart) == EraAfter(old(history), call, windowStart)
      ensures LatestIn(history, windowStart) <==>
        if call.client == "" then LatestIn(old(history), windowStart) else WindowOf(call.now) == windowStart
    {
      LogExtends(limit, maxClients, history, call);
      EraExtends(history, call, windowStart);
      history := history + [call];
    }
  }
}
