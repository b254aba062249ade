/** What the limiter's promise amounts to by the minute: the limits it keeps, and exactly when. */
module MinuteLimits {
  import opened RateLimiting

  /** The tracked calls of the minute starting at `window`. */
  ghost function MinuteCalls(history: seq<Call>, window: int): seq<Call> {
    if history == [] then []
    else
      var last, front := history[|history| - 1], MinuteCalls(history[..|history| - 1], window);
      if last.client != "" && WindowOf(last.now) == window then front + [last] else front
  }

  lemma MinuteExtends(history: seq<Call>, call: Call, window: int)
    ensures MinuteCalls(history + [call], window) ==
      MinuteCalls(history, window) + if call.client != "" && WindowOf(call.now) == window then [call] else []
  {
    assert (history + [call])[..|history|] == history;
  }

  /** When a call was made, as the handler read its clock, and whether it names a client. */
  datatype Time = Time(tracked: bool, now: int)

  ghost function TimesOf(history: seq<Call>): (times: seq<Time>)
    ensures |times| == |history|
    ensures forall i :: 0 <= i < |history| ==> times[i] == Time(history[i].client != "", history[i].now)
  {
    seq(|history|, i requires 0 <= i < |history| => Time(history[i].client != "", history[i].now))
  }

  /** The i-th call opens a minute or goes on with it, the j-th falls into another one, and the k-th into
      the first again. */
  predicate ReopensAt(times: seq<Time>, i: nat, j: nat, k: nat) {
    && i < j < k < |times|
    && times[i].tracked && times[j].tracked && times[k].tracked
    && WindowOf(times[i].now) == WindowOf(times[k].now) != WindowOf(times[j].now)
  }

  ghost predicate Reopens(times: seq<Time>) {
    exists i: nat, j: nat, k: nat :: ReopensAt(times, i, j, k)
  }

  /** Clocks that never run back reopen nothing; nor do clocks that run back within a minute only. */
  lemma MinutesInOrderNeverReopen(times: seq<Time>)
    requires forall i, j :: 0 <= i < j < |times| ==> WindowOf(times[i].now) <= WindowOf(times[j].now)
    ensures !Reopens(times)
  {
    forall i: nat, j: nat, k: nat
      ensures !ReopensAt(times, i, j, k)
    {
      hide WindowOf;
    }
  }

  /** A reopened minute stays reopened with one more call among the others. */
  lemma ReopensWithMore(front: seq<Call>, last: Call, call: Call)
    ensures Reopens(TimesOf(front + [last])) ==> Reopens(TimesOf(front + [last] + [call]))
    ensures Reopens(TimesOf(front + [call])) ==> Reopens(TimesOf(front + [last] + [call]))
  {
    hide WindowOf;
    var all, n := TimesOf(front + [last] + [call]), |front|;
    if i: nat, j: nat, k: nat :| ReopensAt(TimesOf(front + [last]), i, j, k) {
      assert ReopensAt(all, i, j, k);
    }
    if i: nat, j: nat, k: nat :| ReopensAt(TimesOf(front + [call]), i, j, k) {
      assert ReopensAt(all, i, j, if k == n then n + 1 else k);
    }
  }

  lemma {:induction false} MinuteHasCall(history: seq<Call>, window: int) returns (i: nat)
    requires MinuteCalls(history, window) != []
    ensures i < |history| && history[i].client != "" && WindowOf(history[i].now) == window
  {
    i := |history| - 1;
    if history[i].client == "" || WindowOf(history[i].now) != window {
      i := MinuteHasCall(history[..i], window);
    }
  }

  /** A call of another minute comes between two calls of one. */
  lemma MinuteReopened(front: seq<Call>, last: Call, call: Call)
    requires last.client != "" && call.client != "" && WindowOf(last.now) != WindowOf(call.now)
    ensures MinuteCalls(front, WindowOf(call.now)) != [] ==> Reopens(TimesOf(front + [last] + [call]))
  {
    hide WindowOf;
    if MinuteCalls(front, WindowOf(call.now)) != [] {
      var i := MinuteHasCall(front, WindowOf(call.now));
      assert ReopensAt(TimesOf(front + [last] + [call]), i, |front|, |front| + 1);
    }
  }

  /** As long as no minute is reopened, the calls the limiter looks at are all calls of the minute. */
  lemma {:induction false} EraIsMinute(history: seq<Call>, call: Call)
    requires call.client != "" && !Reopens(TimesOf(history + [call]))
    ensures Era(history, WindowOf(call.now)) == MinuteCalls(history, WindowOf(call.now))
  {
    hide WindowOf;
    if history != [] {
      var n := |history| - 1;
      var front, last, window := history[..n], history[n], WindowOf(call.now);
      assert history == front + [last];
      EraExtends(front, last, window);
      MinuteExtends(front, last, window);
      ReopensWithMore(front, last, call);
      if last.client == "" {
        EraIsMinute(front, call);
      } else if WindowOf(last.now) == window {
        EraIsMinute(front, last);
      } else {
        MinuteReopened(front, last, call);
      }
    }
  }

  /** Without a limit, or without a name, every call passes. */
  lemma PassesUnasked(limit: nat, maxClients: nat, history: seq<Call>, client: string, now: int)
    requires limit == 0 || client == ""
    ensures MayPass(limit, maxClients, history, client, now)
  {
  }

  /** In any order of times: the calls the limiter looks at are those since the last one of another minute. */
  lemma {:induction false} EraIsSuffix(history: seq<Call>, window: int) returns (from: nat)
    ensures from <= |history|
    ensures from > 0 ==> history[from - 1].client != "" && WindowOf(history[from - 1].now) != window
    ensures forall i :: from <= i < |history| && history[i].client != "" ==> WindowOf(history[i].now) == window
    ensures Era(history, window) == MinuteCalls(history[from..], window)
  {
    hide WindowOf;
    from := 0;
    if history != [] {
      var n := |history| - 1;
      var front, last := history[..n], history[n];
      assert history == front + [last];
      if last.client != "" && WindowOf(last.now) != window {
        from := n + 1;
      } else {
        from := EraIsSuffix(front, window);
        assert history[from..] == front[from..] + [last];
        MinuteExtends(front[from..], last, window);
      }
    } else {
      assert history[0..] == [];
    }
  }

  /** The promise in full: with a limit, a named client passes exactly when, among the tracked calls since the last
      one of another minute, it has fewer than `limit` passes, and has one or finds room. */
  lemma MayPassMeans(limit: nat, maxClients: nat, history: seq<Call>, client: string, now: int) returns (from: nat)
    requires 0 < limit && client != ""
    ensures from <= |history|
    ensures from > 0 ==> history[from - 1].client != "" && WindowOf(history[from - 1].now) != WindowOf(now)
    ensures forall i :: from <= i < |history| && history[i].client != "" ==> WindowOf(history[i].now) == WindowOf(now)
    ensures var recent := MinuteCalls(history[from..], WindowOf(now));
            MayPass(limit, maxClients, history, client, now) <==>
              Passed(recent, client) < limit && (client in Clients(recent) || |Clients(recent)| < maxClients)
  {
    from := EraIsSuffix(history, WindowOf(now));
  }

  /** The promise in terms of the minute: a client passes while it has had fewer than `limit` passes in
      it, and is among its clients or finds room there. */
  lemma MayPassByMinute(limit: nat, maxClients: nat, history: seq<Call>, call: Call)
    requires 0 < limit && call.client != "" && !Reopens(TimesOf(history + [call]))
    ensures var minute := MinuteCalls(history, WindowOf(call.now));
            MayPass(limit, maxClients, history, call.client, call.now) <==>
              && Passed(minute, call.client) < limit
              && (call.client in Clients(minute) || |Clients(minute)| < maxClients)
  {
    EraIsMinute(history, call);
  }

  /** How many calls passed. */
  ghost function Passing(calls: seq<Call>): nat {
    if calls == [] then 0
    else Passing(calls[..|calls| - 1]) + if calls[|calls| - 1].allowed then 1 else 0
  }

  ghost function SumPassed(calls: seq<Call>, clients: set<string>): nat {
    if clients == {} then 0
    else
      var c :| c in clients;
      Passed(calls, c) + SumPassed(calls, clients - {c})
  }

  lemma {:induction false} SumPicks(calls: seq<Call>, clients: set<string>, c: string)
    requires c in clients
    ensures SumPassed(calls, clients) == Passed(calls, c) + SumPassed(calls, clients - {c})
    decreases |clients|
  {
    var d :| d in clients && SumPassed(calls, clients) == Passed(calls, d) + SumPassed(calls, clients - {d});
    if d != c {
      SumPicks(calls, clients - {d}, c);
      SumPicks(calls, clients - {c}, d);
      assert clients - {d} - {c} == clients - {c} - {d};
    }
  }

  lemma {:induction false} SumExtends(calls: seq<Call>, call: Call, clients: set<string>)
    ensures SumPassed(calls + [call], clients) ==
      SumPassed(calls, clients) + if call.allowed && call.client in clients then 1 else 0
    decreases |clients|
  {
    if clients != {} {
      var c :| c in clients;
      SumPicks(calls, clients, c);
      SumPicks(calls + [call], clients, c);
      PassedExtends(calls, call, c);
      SumExtends(calls, call, clients - {c});
    }
  }

  lemma {:induction false} PassingIsSum(calls: seq<Call>, clients: set<string>)
    requires Clients(calls) <= clients
    ensures Passing(calls) == SumPassed(calls, clients)
  {
    if calls == [] {
      SumOfNone(clients);
    } else {
      var n := |calls| - 1;
      assert calls == calls[..n] + [calls[n]];
      ClientsExtend(calls[..n], calls[n]);
      PassingIsSum(calls[..n], clients);
      SumExtends(calls[..n], calls[n], clients);
    }
  }

  lemma {:induction false} SumOfNone(clients: set<string>)
    ensures SumPassed([], clients) == 0
    decreases |clients|
  {
    if clients != {} {
      var c :| c in clients;
      SumPicks([], clients, c);
      SumOfNone(clients - {c});
    }
  }

  lemma {:induction false} SumBounded(calls: seq<Call>, clients: set<string>, limit: nat)
    requires forall c :: c in clients ==> Passed(calls, c) <= limit
    ensures SumPassed(calls, clients) <= |clients| * limit
    decreases |clients|
  {
    if clients != {} {
      var c :| c in clients;
      SumPicks(calls, clients, c);
      SumBounded(calls, clients - {c}, limit);
      assert |clients - {c}| * limit + limit == |clients| * limit by { Distribute(|clients| - 1, limit); }
    }
  }

  lemma Distribute(n: int, limit: nat)
    ensures n * limit + limit == (n + 1) * limit
  {
  }

  lemma MultiplyMonotone(a: nat, b: nat, limit: nat)
    requires a <= b
    ensures a * limit <= b * limit
  {
  }

  lemma EraTotalBounded(limit: nat, maxClients: nat, history: seq<Call>, window: int)
    requires IsLog(limit, maxClients, history) && 0 < limit && 0 < maxClients
    ensures Passing(Era(history, window)) <= maxClients * limit
  {
    var era := Era(history, window);
    forall c | c in Clients(era)
      ensures Passed(era, c) <= limit
    {
      EraBounded(limit, maxClients, history, c, window);
    }
    EraBounded(limit, maxClients, history, "", window);
    PassingIsSum(era, Clients(era));
    SumBounded(era, Clients(era), limit);
    MultiplyMonotone(|Clients(era)|, maxClients, limit);
  }

  /** At most `limit` passes per client and minute, and at most `limit * maxClients` in all. */
  ghost predicate LimitKept(limit: nat, maxClients: nat, history: seq<Call>) {
    && (forall window, client :: Passed(MinuteCalls(history, window), client) <= limit)
    && (forall window :: Passing(MinuteCalls(history, window)) <= maxClients * limit)
  }

  lemma {:induction false} MinuteBounds(limit: nat, maxClients: nat, history: seq<Call>, client: string, window: int)
    requires IsLog(limit, maxClients, history) && 0 < limit && 0 < maxClients
    requires !Reopens(TimesOf(history))
    ensures Passed(MinuteCalls(history, window), client) <= limit
    ensures Passing(MinuteCalls(history, window)) <= maxClients * limit
  {
    hide WindowOf, MayPass;
    if history == [] {
      MultiplyMonotone(0, maxClients, limit);
    } else {
      var n := |history| - 1;
      var front, last := history[..n], history[n];
      assert history == front + [last];
      MinuteExtends(front, last, window);
      if last.client != "" && WindowOf(last.now) == window {
        EraIsMinute(front, last);
        EraExtends(front, last, window);
        EraBounded(limit, maxClients, history, client, window);
        EraTotalBounded(limit, maxClients, history, window);
      } else {
        LogPrefix(limit, maxClients, history, n);
        ReopensWithLast(front, last);
        MinuteBounds(limit, maxClients, front, client, window);
      }
    }
  }

  lemma ReopensWithLast(front: seq<Call>, last: Call)
    ensures Reopens(TimesOf(front)) ==> Reopens(TimesOf(front + [last]))
  {
    hide WindowOf;
    if i: nat, j: nat, k: nat :| ReopensAt(TimesOf(front), i, j, k) {
      assert ReopensAt(TimesOf(front + [last]), i, j, k);
    }
  }

  // The converse: at call times that reopen a minute, the limit can be exceeded.

  datatype Ask = Ask(client: string, now: int)

  /** What the limiter answers to a sequence of questions. */
  ghost function Answers(limit: nat, maxClients: nat, asks: seq<Ask>): (history: seq<Call>)
    ensures |history| == |asks|
    ensures forall i :: 0 <= i < |asks| ==> history[i].client == asks[i].client && history[i].now == asks[i].now
  {
    if asks == [] then []
    else
      var front, last := Answers(limit, maxClients, asks[..|asks| - 1]), asks[|asks| - 1];
      front + [Call(last.client, last.now, MayPass(limit, maxClients, front, last.client, last.now))]
  }

  lemma {:induction false} AnswersAreLog(limit: nat, maxClients: nat, asks: seq<Ask>)
    ensures IsLog(limit, maxClients, Answers(limit, maxClients, asks))
  {
    hide MayPass;
    if asks != [] {
      var n := |asks| - 1;
      AnswersAreLog(limit, maxClients, asks[..n]);
      var all := Answers(limit, maxClients, asks);
      LogExtends(limit, maxClients, Answers(limit, maxClients, asks[..n]), all[n]);
    }
  }

  /** Client "a" calls at the two given times, "b" at all others that name a client. */
  function TwoClients(times: seq<Time>, i: nat, k: nat): (asks: seq<Ask>)
    ensures |asks| == |times|
    ensures forall m :: 0 <= m < |times| ==>
      asks[m] == Ask(if !times[m].tracked then "" else if m == i || m == k then "a" else "b", times[m].now)
  {
    seq(|times|, m requires 0 <= m < |times| =>
      Ask(if !times[m].tracked then "" else if m == i || m == k then "a" else "b", times[m].now))
  }

  /** A tracked call of another minute cuts an era off. */
  lemma {:induction false} EraStartsAfter(history: seq<Call>, from: nat, window: int, call: Call)
    requires from <= |history| && call in Era(history, window)
    requires from > 0 ==> history[from - 1].client != "" && WindowOf(history[from - 1].now) != window
    ensures call.client != "" && call in history[from..]
    decreases |history|
  {
    hide WindowOf;
    if from < |history| {
      var n := |history| - 1;
      assert history[from..] == history[..n][from..] + [history[n]];
      if call in Era(history[..n], window) {
        EraStartsAfter(history[..n], from, window, call);
      }
    }
  }

  lemma {:induction false} OthersOnly(calls: seq<Call>)
    requires forall c :: c in calls ==> c.client == "b"
    ensures Passed(calls, "a") == 0 && Clients(calls) <= {"b"}
  {
    if calls != [] {
      var n := |calls| - 1;
      assert calls == calls[..n] + [calls[n]];
      OthersOnly(calls[..n]);
      ClientsExtend(calls[..n], calls[n]);
    }
  }

  /** With limit 1 and room for two, "a" passes when only "b" has called since another minute's call. */
  lemma PassesAfresh(history: seq<Call>, from: nat, now: int)
    requires from <= |history|
    requires from > 0 ==> history[from - 1].client != "" && WindowOf(history[from - 1].now) != WindowOf(now)
    requires forall m :: from <= m < |history| ==> history[m].client != "a" && history[m].client in {"", "b"}
    ensures MayPass(1, 2, history, "a", now)
  {
    var era := Era(history, WindowOf(now));
    forall c | c in era
      ensures c.client == "b"
    {
      EraStartsAfter(history, from, WindowOf(now), c);
    }
    OthersOnly(era);
    AtMostOne(Clients(era));
  }

  lemma AtMostOne(clients: set<string>)
    requires clients <= {"b"}
    ensures |clients| < 2
  {
    assert clients == {} || clients == {"b"};
  }

  lemma PassesAdd(history: seq<Call>, client: string, window: int)
    requires history != [] && client != ""
    ensures var last := history[|history| - 1];
            Passed(MinuteCalls(history, window), client) == Passed(MinuteCalls(history[..|history| - 1], window), client)
              + if last.allowed && last.client == client && WindowOf(last.now) == window then 1 else 0
  {
    hide WindowOf, Passed, MinuteCalls;
    var n := |history| - 1;
    assert history == history[..n] + [history[n]];
    MinuteExtends(history[..n], history[n], window);
    PassedExtends(MinuteCalls(history[..n], window), history[n], client);
    assert MinuteCalls(history[..n], window) + [] == MinuteCalls(history[..n], window);
  }

  lemma {:induction false} PassedOnce(history: seq<Call>, client: string, i: nat)
    requires i < |history| && history[i].allowed && history[i].client == client != ""
    ensures Passed(MinuteCalls(history, WindowOf(history[i].now)), client) >= 1
  {
    hide WindowOf, Passed, MinuteCalls;
    var n := |history| - 1;
    PassesAdd(history, client, WindowOf(history[i].now));
    if i < n { PassedOnce(history[..n], client, i); }
  }

  lemma {:induction false} PassedTwice(history: seq<Call>, client: string, i: nat, k: nat)
    requires i < k < |history| && history[i].client == history[k].client == client != ""
    requires history[i].allowed && history[k].allowed && WindowOf(history[i].now) == WindowOf(history[k].now)
    ensures Passed(MinuteCalls(history, WindowOf(history[i].now)), client) >= 2
  {
    hide WindowOf, Passed, MinuteCalls;
    var n := |history| - 1;
    PassesAdd(history, client, WindowOf(history[i].now));
    if k < n { PassedTwice(history[..n], client, i, k); } else { PassedOnce(history[..n], client, i); }
  }

  /** At any times that reopen a minute, two clients and limit 1 are enough for two passes in it. */
  lemma ReopenedExceeds(times: seq<Time>, i: nat, j: nat, k: nat) returns (history: seq<Call>)
    requires ReopensAt(times, i, j, k)
    ensures TimesOf(history) == times && IsLog(1, 2, history)
    ensures Passed(MinuteCalls(history, WindowOf(times[i].now)), "a") >= 2
  {
    hide WindowOf, MayPass, Passed, MinuteCalls, Answers;
    history := Answers(1, 2, TwoClients(times, i, k));
    AnswersAreLog(1, 2, TwoClients(times, i, k));
    PassesAfresh(history[..i], 0, times[i].now);
    PassesAfresh(history[..k], j + 1, times[k].now);
    assert history[i].allowed && history[k].allowed;
    PassedTwice(history, "a", i, k);
  }

  /** Whatever the limits and whoever calls at these times, the limits are kept. */
  ghost predicate LimitsKeptAt(times: seq<Time>) {
    forall limit: nat, maxClients: nat, history: seq<Call> ::
      0 < limit && 0 < maxClients && TimesOf(history) == times && IsLog(limit, maxClients, history) ==>
        LimitKept(limit, maxClients, history)
  }

  /** The limits are kept by the minute exactly when no minute is reopened. Handlers read their clocks
      before they wait for the lock: out of order within a minute does no harm, a call of a past
      minute after one of the next does. */
  lemma LimitsKeptExactlyWhen(times: seq<Time>)
    ensures LimitsKeptAt(times) <==> !Reopens(times)
  {
    if i: nat, j: nat, k: nat :| ReopensAt(times, i, j, k) {
      var history := ReopenedExceeds(times, i, j, k);
      assert !LimitKept(1, 2, history);
    } else {
      forall limit: nat, maxClients: nat, history: seq<Call>
        | 0 < limit && 0 < maxClients && TimesOf(history) == times && IsLog(limit, maxClients, history)
        ensures LimitKept(limit, maxClients, history)
      {
        forall window, client
          ensures Passed(MinuteCalls(history, window), client) <= limit
          ensures Passing(MinuteCalls(history, window)) <= maxClients * limit
        {
          MinuteBounds(limit, maxClients, history, client, window);
        }
        assert forall window :: Passed(MinuteCalls(history, window), "") <= limit
                                && Passing(MinuteCalls(history, window)) <= maxClients * limit;
      }
    }
  }

  /** One call too late is enough. */
  lemma LateCallExceedsLimit()
    ensures !LimitsKeptAt([Time(true, 0), Time(true, 60), Time(true, 0)])
  {
    var times := [Time(true, 0), Time(true, 60), Time(true, 0)];
    assert ReopensAt(times, 0, 1, 2);
    LimitsKeptExactlyWhen(times);
  }

  /** Passes of a client in the sixty seconds from `from` on. */
  ghost function PassedWithin(history: seq<Call>, client: string, from: int): nat {
    if history == [] then 0
    else
      var last := history[|history| - 1];
      PassedWithin(history[..|history| - 1], client, from)
      + if last.allowed && last.client == client && from <= last.now < from + 60 then 1 else 0
  }

  lemma {:induction false} SixtySecondsSpanTwoMinutes(history: seq<Call>, client: string, from: int)
    requires client != ""
    ensures PassedWithin(history, client, from) <=
      Passed(MinuteCalls(history, WindowOf(from)), client) + Passed(MinuteCalls(history, WindowOf(from) + MINUTE), client)
  {
    hide WindowOf;
    if history != [] {
      var n := |history| - 1;
      var front, last := history[..n], history[n];
      SixtySecondsSpanTwoMinutes(front, client, from);
      PassesAdd(history, client, WindowOf(from));
      PassesAdd(history, client, WindowOf(from) + MINUTE);
      if from <= last.now < from + MINUTE { TwoWindows(from, last.now); }
    }
  }

  lemma TwoWindows(from: int, now: int)
    requires from <= now < from + MINUTE
    ensures WindowOf(now) == WindowOf(from) || WindowOf(now) == WindowOf(from) + MINUTE
  {
  }

  /** The price of fixed windows: in sixty seconds a client may pass twice the limit, and no more. */
  lemma SixtySecondBound(limit: nat, maxClients: nat, history: seq<Call>, client: string, from: int)
    requires IsLog(limit, maxClients, history) && 0 < limit && 0 < maxClients
    requires !Reopens(TimesOf(history)) && client != ""
    ensures PassedWithin(history, client, from) <= 2 * limit
  {
    SixtySecondsSpanTwoMinutes(history, client, from);
    MinuteBounds(limit, maxClients, history, client, WindowOf(from));
    MinuteBounds(limit, maxClients, history, client, WindowOf(from) + MINUTE);
  }
}
