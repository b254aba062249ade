/** Replacing the GeoIP database while lookups go on: the steps of `Lookup`, `ReloadIfChanged` and
    `Close` between which other goroutines can run, for any number of lookups and reloaders. */
module GeoReader {

  /** Where a reload stands. Readers are numbered in the order they were opened. */
  datatype Reload =
    | Statted               // has the file information, wants the read lock
    | Comparing             // holds the read lock
    | Opening               // found the file changed
    | Opened(new_: nat)     // has a new reader, wants the write lock
    | Swapping(new_: nat)   // holds the write lock
    | Replaced(old_: nat)   // about to close the reader it replaced

  /** `closes[r]` counts how often reader r was closed; `installed` are the readers that ever were the
      resolver's; `lookups` maps each running lookup to the reader it uses; `final` says that Close ran. */
  datatype State = State(
    current: nat,
    closes: seq<nat>,
    installed: set<nat>,
    lookups: map<nat, nat>,
    reloads: map<nat, Reload>,
    final: bool)

  const INITIAL := State(0, [0], {0}, map[], map[], false)

  datatype Step =
    | BeginLookup(t: nat)
    | EndLookup(t: nat)
    | BeginReload(t: nat)
    | Compare(t: nat)
    | FoundUnchanged(t: nat)
    | FoundChanged(t: nat)
    | OpenFails(t: nat)
    | OpenSucceeds(t: nat)
    | LockForSwap(t: nat)
    | Swap(t: nat)
    | CloseReplaced(t: nat)
    | FinalClose

  ghost predicate At(s: State, t: nat, r: Reload) {
    t in s.reloads && s.reloads[t] == r
  }

  ghost predicate ReadLocked(s: State) {
    s.lookups != map[] || exists t :: At(s, t, Comparing)
  }

  ghost predicate WriteLocked(s: State) {
    exists t :: t in s.reloads && s.reloads[t].Swapping?
  }

  ghost predicate Enabled(s: State, step: Step) {
    match step
    case BeginLookup(t) => t !in s.lookups && !WriteLocked(s)
    case EndLookup(t) => t in s.lookups
    case BeginReload(t) => t !in s.reloads
    case Compare(t) => At(s, t, Statted) && !WriteLocked(s)
    case FoundUnchanged(t) => At(s, t, Comparing)
    case FoundChanged(t) => At(s, t, Comparing)
    case OpenFails(t) => At(s, t, Opening)
    case OpenSucceeds(t) => At(s, t, Opening)
    case LockForSwap(t) => t in s.reloads && s.reloads[t].Opened? && !ReadLocked(s) && !WriteLocked(s)
    case Swap(t) => t in s.reloads && s.reloads[t].Swapping?
    case CloseReplaced(t) => t in s.reloads && s.reloads[t].Replaced? && s.reloads[t].old_ < |s.closes|
    case FinalClose => !ReadLocked(s) && !WriteLocked(s) && s.current < |s.closes|
  }

  function Close(closes: seq<nat>, r: nat): seq<nat>
    requires r < |closes|
  {
    closes[r := closes[r] + 1]
  }

  ghost function After(s: State, step: Step): State
    requires Enabled(s, step)
  {
    match step
    case BeginLookup(t) => s.(lookups := s.lookups[t := s.current])
    case EndLookup(t) => s.(lookups := s.lookups - {t})
    case BeginReload(t) => s.(reloads := s.reloads[t := Statted])
    case Compare(t) => s.(reloads := s.reloads[t := Comparing])
    case FoundUnchanged(t) => s.(reloads := s.reloads - {t})
    case FoundChanged(t) => s.(reloads := s.reloads[t := Opening])
    case OpenFails(t) => s.(reloads := s.reloads - {t})
    case OpenSucceeds(t) => s.(reloads := s.reloads[t := Opened(|s.closes|)], closes := s.closes + [0])
    case LockForSwap(t) => s.(reloads := s.reloads[t := Swapping(s.reloads[t].new_)])
    case Swap(t) =>
      s.(current := s.reloads[t].new_,
         installed := s.installed + {s.reloads[t].new_},
         reloads := s.reloads[t := Replaced(s.current)])
    case CloseReplaced(t) => s.(closes := Close(s.closes, s.reloads[t].old_), reloads := s.reloads - {t})
    case FinalClose => s.(closes := Close(s.closes, s.current), final := true)
  }

  /** The reader a reload is responsible for. */
  predicate Holds(s: State, t: nat, r: nat) {
    t in s.reloads &&
    match s.reloads[t]
    case Opened(n) => n == r
    case Swapping(n) => n == r
    case Replaced(o) => o == r
    case _ => false
  }

  predicate HoldsReplaced(s: State, t: nat, r: nat) {
    t in s.reloads && s.reloads[t] == Replaced(r)
  }

  /** Every reader is in exactly one place: it is the current one, or one reload holds it, or it was
      closed once. */
  ghost predicate Accounted(s: State) {
    && s.current < |s.closes|
    && s.closes[s.current] == 0
    && (forall t: nat, r: nat :: Holds(s, t, r) ==> r < |s.closes| && r != s.current && s.closes[r] == 0)
    && (forall t, u, r :: Holds(s, t, r) && Holds(s, u, r) ==> t == u)
    && (forall r :: 0 <= r < |s.closes| ==> s.closes[r] <= 1)
    && (forall r: nat :: r < |s.closes| && s.closes[r] == 0 && r != s.current ==> exists t :: Holds(s, t, r))
  }

  /** A reader that was never installed is still in the hands of the reload that opened it. */
  ghost predicate Installs(s: State) {
    && s.current in s.installed
    && (forall r :: r in s.installed ==> r < |s.closes|)
    && (forall t, r :: Holds(s, t, r) ==> (r in s.installed <==> HoldsReplaced(s, t, r)))
  }

  /** Lookups use the current reader, and nobody swaps meanwhile. */
  ghost predicate LookupsSafe(s: State) {
    && (forall t :: t in s.lookups ==> s.lookups[t] == s.current)
    && (WriteLocked(s) ==> !ReadLocked(s))
    && (forall t, u :: t in s.reloads && s.reloads[t].Swapping? && u in s.reloads && s.reloads[u].Swapping? ==> t == u)
  }

  ghost predicate Inv(s: State) {
    Accounted(s) && Installs(s) && LookupsSafe(s)
  }

  lemma LookupsSafeKept(s: State, step: Step)
    requires LookupsSafe(s) && Enabled(s, step) && !step.FinalClose?
    ensures LookupsSafe(After(s, step))
  {
    var s' := After(s, step);
    assert forall t :: At(s', t, Comparing) && !step.Compare? ==> At(s, t, Comparing);
    match step
    case Swap(t) => assert s.reloads[t].Swapping?; assert s.lookups == map[];
    case _ =>
  }

  lemma OpeningKept(s: State, t: nat)
    requires Accounted(s) && At(s, t, Opening)
    ensures Accounted(After(s, OpenSucceeds(t)))
  {
    var s' := After(s, OpenSucceeds(t));
    forall u, r | u != t ensures Holds(s', u, r) <==> Holds(s, u, r) { }
    assert Holds(s', t, |s.closes|);
  }

  lemma SwapKept(s: State, t: nat)
    requires Accounted(s) && t in s.reloads && s.reloads[t].Swapping?
    ensures Accounted(After(s, Swap(t)))
  {
    var s' := After(s, Swap(t));
    assert Holds(s, t, s.reloads[t].new_) && Holds(s', t, s.current);
    forall u, r | u != t ensures Holds(s', u, r) <==> Holds(s, u, r) { }
  }

  lemma ClosingKept(s: State, t: nat)
    requires Accounted(s) && Enabled(s, CloseReplaced(t))
    ensures Accounted(After(s, CloseReplaced(t)))
  {
    var s' := After(s, CloseReplaced(t));
    assert Holds(s, t, s.reloads[t].old_);
    forall u, r | u != t ensures Holds(s', u, r) <==> Holds(s, u, r) { }
  }

  /** The other steps leave every reader where it is. */
  lemma SameHolders(s: State, s': State)
    requires Accounted(s) && s'.current == s.current && s'.closes == s.closes
    requires forall u, r :: Holds(s', u, r) <==> Holds(s, u, r)
    ensures Accounted(s')
  {
    forall r: nat | r < |s'.closes| && s'.closes[r] == 0 && r != s'.current
      ensures exists t :: Holds(s', t, r)
    {
      var t :| Holds(s, t, r);
      assert Holds(s', t, r);
    }
  }

  lemma AccountedKept(s: State, step: Step)
    requires Accounted(s) && Enabled(s, step) && !step.FinalClose?
    ensures Accounted(After(s, step))
  {
    match step
    case OpenSucceeds(t) => OpeningKept(s, t);
    case Swap(t) => SwapKept(s, t);
    case CloseReplaced(t) => ClosingKept(s, t);
    case FinalClose =>
    case _ =>
      hide Accounted, ReadLocked, WriteLocked;
      var s' := After(s, step);
      forall u, r ensures Holds(s', u, r) <==> Holds(s, u, r) { }
      SameHolders(s, s');
  }

  lemma InstallsKept(s: State, step: Step)
    requires Accounted(s) && Installs(s) && Enabled(s, step) && !step.FinalClose?
    ensures Installs(After(s, step))
  {
    var s' := After(s, step);
    match step
    case OpenSucceeds(t) => forall u, r | u != t ensures Holds(s', u, r) <==> Holds(s, u, r) { }
    case Swap(t) =>
      assert Holds(s, t, s.reloads[t].new_);
      forall u, r | u != t ensures Holds(s', u, r) <==> Holds(s, u, r) { }
    case CloseReplaced(t) => forall u, r | u != t ensures Holds(s', u, r) <==> Holds(s, u, r) { }
    case FinalClose =>
    case _ => forall u, r ensures Holds(s', u, r) <==> Holds(s, u, r) { }
  }

  /** Runs of steps, each possible where it is taken, up to and including a final Close if there is one. */
  ghost predicate IsRun(steps: seq<Step>)
    decreases |steps|, 0
  {
    steps == [] ||
    var front := steps[..|steps| - 1];
    IsRun(front) && !StateAfter(front).final && Enabled(StateAfter(front), steps[|steps| - 1])
  }

  ghost function StateAfter(steps: seq<Step>): State
    requires IsRun(steps)
    decreases |steps|, 1
  {
    if steps == [] then INITIAL
    else After(StateAfter(steps[..|steps| - 1]), steps[|steps| - 1])
  }

  lemma {:induction false} InvOverEveryRun(steps: seq<Step>)
    requires IsRun(steps) && !StateAfter(steps).final
    ensures Inv(StateAfter(steps))
  {
    if steps != [] {
      var front, step := steps[..|steps| - 1], steps[|steps| - 1];
      InvOverEveryRun(front);
      AccountedKept(StateAfter(front), step);
      InstallsKept(StateAfter(front), step);
      LookupsSafeKept(StateAfter(front), step);
    }
  }

  /** No lookup ever uses a closed reader. */
  lemma LookupsOverEveryRun(steps: seq<Step>, t: nat)
    requires IsRun(steps) && !StateAfter(steps).final
    requires t in StateAfter(steps).lookups
    ensures var s := StateAfter(steps);
            s.lookups[t] == s.current < |s.closes| && s.closes[s.lookups[t]] == 0
  {
    InvOverEveryRun(steps);
  }

  /** Every reader ever installed is the current one, or closed exactly once, or held by exactly one
      reload that is about to close it - and only one of these. */
  lemma ReadersOverEveryRun(steps: seq<Step>, r: nat)
    requires IsRun(steps) && !StateAfter(steps).final
    requires r in StateAfter(steps).installed
    ensures var s := StateAfter(steps);
            && r < |s.closes| && s.closes[r] <= 1
            && (s.closes[r] == 1 ==> r != s.current && forall t :: !HoldsReplaced(s, t, r))
            && (s.closes[r] == 0 && r != s.current ==> exists t :: HoldsReplaced(s, t, r))
            && (r == s.current ==> s.closes[r] == 0 && forall t :: !HoldsReplaced(s, t, r))
            && (forall t, u :: HoldsReplaced(s, t, r) && HoldsReplaced(s, u, r) ==> t == u)
  {
    InvOverEveryRun(steps);
    var s := StateAfter(steps);
    assert forall t :: HoldsReplaced(s, t, r) ==> Holds(s, t, r);
    if s.closes[r] == 0 && r != s.current {
      var t :| Holds(s, t, r);
      assert HoldsReplaced(s, t, r);
    }
  }

  /** With no reload under way any more, the final Close leaves every reader that was ever opened
      closed, and none closed twice. */
  lemma FinalCloseClosesAll(steps: seq<Step>)
    requires IsRun(steps) && !StateAfter(steps).final
    requires StateAfter(steps).reloads == map[] && Enabled(StateAfter(steps), FinalClose)
    ensures forall r :: 0 <= r < |StateAfter(steps).closes| ==> After(StateAfter(steps), FinalClose).closes[r] == 1
  {
    InvOverEveryRun(steps);
    var s := StateAfter(steps);
    forall r | 0 <= r < |s.closes| && r != s.current
      ensures s.closes[r] == 1
    {
      assert forall t :: !Holds(s, t, r);
    }
  }
}
