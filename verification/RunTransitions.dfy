/** The self-cleaning table of per-run transition guards.

    Each run in transition has one reference-counted mutex in a shared table. A
    caller clones the handle under the table lock, waits for the mutex, and on drop
    first releases the mutex, then gives up its handle, and only then (in a separate
    critical section) removes the entry if the table holds the last handle. Every one
    of these is its own step here, and any caller may run between two of them. */
module RunTransitions {
  import opened Wrappers

  type RunId = nat   // identifiers are compared, never inspected
  type Caller = nat
  type Lock = nat    // the identity of one allocated mutex

  /** What the callers share: the table, the strong count of every allocated mutex,
      and which mutexes are held. */
  datatype Table = Table(
    entries: map<RunId, Lock>,
    strong: map<Lock, nat>,
    locked: set<Lock>,
    next: Lock)
  {
    ghost predicate Counted() {
      && (forall m: Lock | m < next :: m in strong)
      && (forall r | r in entries :: entries[r] < next)
      && (forall r, q | r in entries && q in entries && entries[r] == entries[q] :: r == q)
    }

    function Count(m: Lock): nat {
      if m in strong then strong[m] else 0
    }

    /** Find or insert the run's mutex and clone its handle. */
    function Entered(r: RunId): Table {
      if r in entries then
        this.(strong := strong[entries[r] := Count(entries[r]) + 1])
      else
        this.(entries := entries[r := next], strong := strong[next := 2], next := next + 1)
    }

    function HandleDropped(m: Lock): Table {
      if Count(m) > 0 then this.(strong := strong[m := Count(m) - 1]) else this
    }

    /** Remove the run's entry when only the table's own handle is left. */
    function Cleaned(r: RunId): Table {
      if r in entries && Count(entries[r]) == 1 then
        this.(entries := entries - {r}, strong := strong[entries[r] := 0])
      else this
    }
  }

  /** The table as the service keeps it, updated in place by the guard's critical sections. */
  class TransitionTable {
    var entries: map<RunId, Lock>
    var strong: map<Lock, nat>
    var locked: set<Lock>
    var next: Lock

    ghost function View(): Table
      reads this
    {
      Table(entries, strong, locked, next)
    }

    constructor ()
      ensures View() == EMPTY && View().Counted()
    {
      entries, strong, locked, next := map[], map[], {}, 0;
    }

    method Enter(r: RunId) returns (m: Lock)
      requires View().Counted()
      modifies this
      ensures View() == old(View()).Entered(r) && View().Counted()
      ensures r in entries && entries[r] == m
    {
      if r !in entries {
        entries := entries[r := next];
        strong := strong[next := 1];
        next := next + 1;
      }
      m := entries[r];
      strong := strong[m := strong[m] + 1];
    }

    method TryLock(m: Lock) returns (acquired: bool)
      modifies this`locked
      ensures acquired == (m !in old(locked))
      ensures locked == old(locked) + {m}
    {
      acquired := m !in locked;
      locked := locked + {m};
    }

    /** Drop of a held guard, up to its first pre-emption point. */
    method Release(m: Lock)
      modifies this`locked
      ensures View() == old(View()).(locked := old(locked) - {m})
    {
      locked := locked - {m};
    }

    method DropHandle(m: Lock)
      modifies this`strong
      ensures View() == old(View()).HandleDropped(m)
    {
      if m in strong && strong[m] > 0 {
        strong := strong[m := strong[m] - 1];
      }
    }

    method RemoveIfUnused(r: RunId)
      modifies this
      ensures View() == old(View()).Cleaned(r)
    {
      if r in entries && entries[r] in strong && strong[entries[r]] == 1 {
        strong := strong[entries[r] := 0];
        entries := entries - {r};
      }
    }
  }

  const EMPTY := Table(map[], map[], {}, 0)

  /** Where a caller is. A caller not in the map is outside any transition. */
  datatype Stage =
    | Waiting(run: RunId, lock: Lock)    // handle cloned, mutex not yet held
    | Holding(run: RunId, lock: Lock)
    | Released(run: RunId, lock: Lock)   // mutex free again, handle not yet dropped
    | Cleaning(run: RunId)               // handle dropped, table not yet visited
  {
    predicate HasHandle() { !Cleaning? }
  }

  /** `owner` says who holds each locked mutex. `orphans` records, from the events
      alone, the runs whose last visitor abandoned its wait: an abandoned wait never
      visits the table. */
  datatype State = State(
    table: Table,
    callers: map<Caller, Stage>,
    owner: map<Lock, Caller>,
    orphans: set<RunId>)

  datatype Event =
    | Enter(caller: Caller, run: RunId)
    | Acquire(caller: Caller)
    | Abandon(caller: Caller)
    | Release(caller: Caller)
    | DropHandle(caller: Caller)
    | Clean(caller: Caller)

  /** The callers in the middle of a transition of run `r`. */
  ghost function Visitors(callers: map<Caller, Stage>, r: RunId): set<Caller> {
    set t | t in callers && callers[t].run == r
  }

  /** The callers whose handle to mutex `m` is counted. */
  ghost function Handles(callers: map<Caller, Stage>, m: Lock): set<Caller> {
    set t | t in callers && callers[t].HasHandle() && callers[t].lock == m
  }

  /** One step; an event whose caller is not at that point changes nothing. */
  ghost function Step(s: State, e: Event): State {
    var t := e.caller;
    match e
    case Enter(_, r) =>
      if t in s.callers then s else
        var tb := s.table.Entered(r);
        s.(table := tb, callers := s.callers[t := Waiting(r, tb.entries[r])], orphans := s.orphans - {r})
    case Acquire(_) =>
      if t in s.callers && s.callers[t].Waiting? && s.callers[t].lock !in s.table.locked then
        var m := s.callers[t].lock;
        s.(table := s.table.(locked := s.table.locked + {m}),
           callers := s.callers[t := Holding(s.callers[t].run, m)],
           owner := s.owner[m := t])
      else s
    case Abandon(_) =>
      if t in s.callers && s.callers[t].Waiting? then
        var r := s.callers[t].run;
        s.(table := s.table.HandleDropped(s.callers[t].lock),
           callers := s.callers - {t},
           orphans := if Visitors(s.callers, r) == {t} then s.orphans + {r} else s.orphans)
      else s
    case Release(_) =>
      if t in s.callers && s.callers[t].Holding? then
        var m := s.callers[t].lock;
        s.(table := s.table.(locked := s.table.locked - {m}),
           callers := s.callers[t := Released(s.callers[t].run, m)],
           owner := s.owner - {m})
      else s
    case DropHandle(_) =>
      if t in s.callers && s.callers[t].Released? then
        s.(table := s.table.HandleDropped(s.callers[t].lock),
           callers := s.callers[t := Cleaning(s.callers[t].run)])
      else s
    case Clean(_) =>
      if t in s.callers && s.callers[t].Cleaning? then
        s.(table := s.table.Cleaned(s.callers[t].run), callers := s.callers - {t})
      else s
  }

  /** Every handle is a handle to the mutex now in the table. */
  ghost predicate HandlesAreCurrent(s: State) {
    forall t | t in s.callers && s.callers[t].HasHandle() ::
      s.callers[t].run in s.table.entries && s.table.entries[s.callers[t].run] == s.callers[t].lock
  }

  ghost predicate CountsAreExact(s: State) {
    forall r | r in s.table.entries :: CountIsExact(s, s.table.entries[r])
  }

  ghost predicate CountIsExact(s: State, m: Lock) {
    s.table.Count(m) == 1 + |Handles(s.callers, m)|
  }

  ghost predicate LocksAreOwned(s: State) {
    && s.table.locked == s.owner.Keys
    && (forall m | m in s.owner ::
          s.owner[m] in s.callers && s.callers[s.owner[m]].Holding? && s.callers[s.owner[m]].lock == m)
    && (forall t | t in s.callers && s.callers[t].Holding? ::
          s.callers[t].lock in s.owner && s.owner[s.callers[t].lock] == t)
  }

  /** The table covers exactly the runs somebody is in transition with or has orphaned. */
  ghost predicate EntriesAreVisited(s: State) {
    forall r :: RunIsVisited(s, r)
  }

  ghost predicate Inv(s: State) {
    s.table.Counted() && HandlesAreCurrent(s) && CountsAreExact(s) && LocksAreOwned(s) && EntriesAreVisited(s)
  }

  // ---- Every step keeps the invariant ----

  /** A cleaned run has no handle left. */
  lemma CleanedHasNoHandle(s: State, t: Caller)
    requires s.table.Counted() && HandlesAreCurrent(s) && CountsAreExact(s)
    requires t in s.callers && s.table.Cleaned(s.callers[t].run) != s.table
    ensures forall u | u in s.callers && s.callers[u].HasHandle() :: s.callers[u].run != s.callers[t].run
  {
    var m := s.table.entries[s.callers[t].run];
    assert CountIsExact(s, m);
    forall u | u in s.callers && s.callers[u].HasHandle() ensures s.callers[u].run != s.callers[t].run {
      assert u !in Handles(s.callers, m);
    }
  }

  lemma EnterKeepsCurrent(s: State, t: Caller, r: RunId)
    requires s.table.Counted() && HandlesAreCurrent(s) && t !in s.callers
    ensures Step(s, Enter(t, r)).table.Counted() && HandlesAreCurrent(Step(s, Enter(t, r)))
  { }

  lemma StepKeepsCurrent(s: State, e: Event)
    requires s.table.Counted() && HandlesAreCurrent(s) && CountsAreExact(s)
    ensures Step(s, e).table.Counted() && HandlesAreCurrent(Step(s, e))
  {
    if e.Enter? {
      if e.caller !in s.callers { EnterKeepsCurrent(s, e.caller, e.run); }
    } else {
      assert Step(s, e).table.next == s.table.next;
      if e.Clean? && Step(s, e).table != s.table {
        CleanedHasNoHandle(s, e.caller);
      }
    }
  }

  lemma VisitorsAfter(callers: map<Caller, Stage>, t: Caller, to: Stage, r: RunId)
    requires t in callers ==> callers[t].run == to.run
    ensures Visitors(callers[t := to], r) == Visitors(callers, r) + (if to.run == r then {t} else {})
  { }

  lemma VisitorsWithout(callers: map<Caller, Stage>, t: Caller, r: RunId)
    ensures Visitors(callers - {t}, r) == Visitors(callers, r) - {t}
  { }

  lemma HandlesAfter(callers: map<Caller, Stage>, t: Caller, to: Stage, m: Lock)
    requires t in callers && callers[t].HasHandle() ==> to.HasHandle() ==> callers[t].lock == to.lock
    ensures Handles(callers[t := to], m)
         == Handles(callers, m) - {t} + (if to.HasHandle() && to.lock == m then {t} else {})
  { }

  lemma HandlesWithout(callers: map<Caller, Stage>, t: Caller, m: Lock)
    ensures Handles(callers - {t}, m) == Handles(callers, m) - {t}
  { }

  lemma EnterKeepsCount(s: State, t: Caller, q: RunId, r: RunId)
    requires s.table.Counted() && HandlesAreCurrent(s) && CountsAreExact(s)
    requires t !in s.callers && r in s.table.Entered(q).entries
    ensures CountIsExact(Step(s, Enter(t, q)), s.table.Entered(q).entries[r])
  {
    var tb := s.table.Entered(q);
    var m := tb.entries[r];
    HandlesAfter(s.callers, t, Waiting(q, tb.entries[q]), m);
    if r in s.table.entries { assert CountIsExact(s, m); } else { assert Handles(s.callers, m) == {}; }
  }

  /** Giving up a handle is the only step but entering that changes a count. */
  lemma CountAfter(s: State, e: Event, m: Lock)
    requires !e.Enter? && Step(s, e) != s && e.caller in s.callers && s.table.Count(m) > 0
    requires e.Clean? ==> m in Step(s, e).table.entries.Values && s.table.Counted()
    ensures Step(s, e).table.Count(m)
         == s.table.Count(m) - if (e.Abandon? || e.DropHandle?) && s.callers[e.caller].lock == m then 1 else 0
  { }

  lemma StepKeepsCount(s: State, e: Event, r: RunId)
    requires s.table.Counted() && HandlesAreCurrent(s) && CountsAreExact(s) && !e.Enter?
    requires Step(s, e) != s && r in Step(s, e).table.entries
    ensures CountIsExact(Step(s, e), Step(s, e).table.entries[r])
  {
    var s' := Step(s, e);
    var m := s'.table.entries[r];
    var t := e.caller;
    assert r in s.table.entries && s.table.entries[r] == m;
    assert CountIsExact(s, m);
    CountAfter(s, e, m);
    if t in s'.callers {
      HandlesAfter(s.callers, t, s'.callers[t], m);
    } else {
      HandlesWithout(s.callers, t, m);
    }
    assert t in Handles(s.callers, m) <==> s.callers[t].HasHandle() && s.callers[t].lock == m;
  }

  lemma StepKeepsOwners(s: State, e: Event)
    requires s.table.Counted() && LocksAreOwned(s)
    ensures LocksAreOwned(Step(s, e))
  { }

  ghost predicate RunIsVisited(s: State, r: RunId) {
    && (r in s.table.entries ==> r in s.orphans || Visitors(s.callers, r) != {})
    && (r in s.orphans ==> r in s.table.entries && Visitors(s.callers, r) == {})
  }

  lemma CleanKeepsVisited(s: State, t: Caller, r: RunId)
    requires Inv(s) && t in s.callers && s.callers[t].Cleaning?
    ensures RunIsVisited(Step(s, Clean(t)), r)
  {
    VisitorsWithout(s.callers, t, r);
    assert RunIsVisited(s, r) && t in Visitors(s.callers, s.callers[t].run);
    if r == s.callers[t].run && r in s.table.Cleaned(r).entries {
      var m := s.table.entries[r];
      assert CountIsExact(s, m);
      assert Handles(s.callers, m) != {};
      var u :| u in Handles(s.callers, m);
      assert u in Visitors(s.callers - {t}, r);
    }
  }

  lemma StepKeepsVisited(s: State, e: Event, r: RunId)
    requires s.table.Counted() && HandlesAreCurrent(s) && RunIsVisited(s, r)
    requires Step(s, e) != s && !e.Clean?
    ensures RunIsVisited(Step(s, e), r)
  {
    var t := e.caller;
    if e.Abandon? {
      VisitorsWithout(s.callers, t, r);
    } else {
      VisitorsAfter(s.callers, t, Step(s, e).callers[t], r);
    }
  }

  lemma StepKeepsInv(s: State, e: Event)
    requires Inv(s)
    ensures Inv(Step(s, e))
  {
    var s' := Step(s, e);
    if s' != s {
      StepKeepsCurrent(s, e);
      StepKeepsOwners(s, e);
      forall r ensures
        && (r in s'.table.entries ==> CountIsExact(s', s'.table.entries[r]))
        && RunIsVisited(s', r)
      {
        assert RunIsVisited(s, r);
        if e.Clean? { CleanKeepsVisited(s, e.caller, r); } else { StepKeepsVisited(s, e, r); }
        if r in s'.table.entries {
          match e
          case Enter(t, q) => EnterKeepsCount(s, t, q, r);
          case _ => StepKeepsCount(s, e, r);
        }
      }
    }
  }

  // ---- Every interleaving ----

  /** The state after any sequence of caller steps, starting from an empty table. */
  ghost function Run(es: seq<Event>): State {
    if es == [] then State(EMPTY, map[], map[], {}) else Step(Run(es[..|es| - 1]), es[|es| - 1])
  }

  lemma {:induction false} RunKeepsInv(es: seq<Event>)
    ensures Inv(Run(es))
  {
    if es != [] {
      RunKeepsInv(es[..|es| - 1]);
      StepKeepsInv(Run(es[..|es| - 1]), es[|es| - 1]);
    }
  }

  /** Two callers never hold the guard of one run, and every holder and every waiter of
      a run shares the one mutex now in the table. */
  lemma MutualExclusion(es: seq<Event>, t: Caller, u: Caller)
    requires t in Run(es).callers && u in Run(es).callers
    requires Run(es).callers[t].run == Run(es).callers[u].run
    ensures Run(es).callers[t].Holding? && Run(es).callers[u].Holding? ==> t == u
    ensures Run(es).callers[t].HasHandle() && Run(es).callers[u].HasHandle() ==>
              Run(es).callers[t].lock == Run(es).callers[u].lock
              && Get(Run(es).table.entries, Run(es).callers[t].run) == Some(Run(es).callers[t].lock)
  {
    RunKeepsInv(es);
  }

  /** Guards of different runs are different mutexes, so unrelated runs never wait for
      each other. */
  lemma UnrelatedRunsDoNotShare(es: seq<Event>, t: Caller, u: Caller)
    requires t in Run(es).callers && u in Run(es).callers
    requires Run(es).callers[t].HasHandle() && Run(es).callers[u].HasHandle()
    requires Run(es).callers[t].run != Run(es).callers[u].run
    ensures Run(es).callers[t].lock != Run(es).callers[u].lock
  {
    RunKeepsInv(es);
  }

  /** No step removes or replaces the entry of a run whose mutex somebody holds or awaits. */
  lemma EntryOutlivesItsUsers(es: seq<Event>, e: Event, t: Caller)
    requires t in Run(es).callers && Run(es).callers[t].HasHandle()
    ensures Get(Step(Run(es), e).table.entries, Run(es).callers[t].run) == Some(Run(es).callers[t].lock)
  {
    var s := Run(es);
    RunKeepsInv(es);
    if e.Clean? && Step(s, e).table != s.table {
      CleanedHasNoHandle(s, e.caller);
    }
  }

  /** Once no transition is in flight the table holds exactly the orphaned runs. */
  lemma TableAtRest(es: seq<Event>)
    requires Run(es).callers == map[]
    ensures Run(es).table.entries.Keys == Run(es).orphans && Run(es).table.locked == {}
  {
    var s := Run(es);
    RunKeepsInv(es);
    forall r ensures r in s.table.entries <==> r in s.orphans {
      assert Visitors(s.callers, r) == {} && RunIsVisited(s, r);
    }
  }

  lemma {:induction false} OrphansNeedAbandonedWaits(es: seq<Event>)
    requires forall e | e in es :: !e.Abandon?
    ensures Run(es).orphans == {}
  {
    if es != [] {
      var front := es[..|es| - 1];
      assert forall e | e in front :: e in es;
      OrphansNeedAbandonedWaits(front);
      assert es[|es| - 1] in es;
    }
  }

  /** With no abandoned wait, the table is empty whenever no transition is in flight. */
  lemma TableEmptiesItself(es: seq<Event>)
    requires forall e | e in es :: !e.Abandon?
    requires Run(es).callers == map[]
    ensures Run(es).table.entries == map[]
  {
    TableAtRest(es);
    OrphansNeedAbandonedWaits(es);
    assert Run(es).table.entries.Keys == {};
  }

  /** An abandoned wait can leave its entry behind: caller 1 gives up waiting for run 7
      after caller 0, who held the guard, has already visited the table. */
  lemma AbandonedWaitLeaksAnEntry()
    ensures exists es :: Run(es).callers == map[] && 7 in Run(es).table.entries
  {
    var es1 := [] + [Enter(0, 7)];
    var es2 := es1 + [Acquire(0)];
    var es3 := es2 + [Enter(1, 7)];
    RunSnoc([], Enter(0, 7));
    RunSnoc(es1, Acquire(0));
    RunSnoc(es2, Enter(1, 7));
    assert Run(es3) == State(Table(map[7 := 0], map[0 := 3], {0}, 1),
                             map[0 := Holding(7, 0), 1 := Waiting(7, 0)], map[0 := 0], {});
    var es4 := es3 + [Release(0)];
    var es5 := es4 + [DropHandle(0)];
    RunSnoc(es3, Release(0));
    RunSnoc(es4, DropHandle(0));
    assert Run(es5) == State(Table(map[7 := 0], map[0 := 2], {}, 1),
                             map[0 := Cleaning(7), 1 := Waiting(7, 0)], map[], {});
    var es6 := es5 + [Clean(0)];
    var es7 := es6 + [Abandon(1)];
    RunSnoc(es5, Clean(0));
    RunSnoc(es6, Abandon(1));
    assert Run(es7).callers == map[];
  }

  lemma RunSnoc(es: seq<Event>, e: Event)
    ensures Run(es + [e]) == Step(Run(es), e)
  {
    assert (es + [e])[..|es + [e]| - 1] == es;
  }

  // ---- The table implements one plain lock per run ----

  /** Who holds the guard of run `r`, forgetting mutexes, handles and counts. */
  ghost function HolderOf(s: State, r: RunId): Option<Caller> {
    if r in s.table.entries then Get(s.owner, s.table.entries[r]) else None
  }

  lemma HolderIsHolding(es: seq<Event>, r: RunId, t: Caller)
    ensures HolderOf(Run(es), r) == Some(t)
       <==> t in Run(es).callers && Run(es).callers[t].Holding? && Run(es).callers[t].run == r
  {
    RunKeepsInv(es);
  }

  lemma EnterKeepsHolders(s: State, t: Caller, q: RunId, r: RunId)
    requires Inv(s) && t !in s.callers
    ensures HolderOf(Step(s, Enter(t, q)), r) == HolderOf(s, r)
  {
    var s' := Step(s, Enter(t, q));
    assert s'.owner == s.owner;
    if r in s.table.entries {
      assert s'.table.entries[r] == s.table.entries[r];
    } else {
      assert s.table.next !in s.owner;
    }
  }

  lemma CleanKeepsHolders(s: State, t: Caller, r: RunId)
    requires Inv(s)
    ensures HolderOf(Step(s, Clean(t)), r) == HolderOf(s, r)
  {
    if Step(s, Clean(t)).table != s.table {
      CleanedHasNoHandle(s, t);
      assert s.table.entries[s.callers[t].run] !in s.owner;
    }
  }

  lemma AcquireTakes(s: State, t: Caller, r: RunId)
    requires Inv(s) && Step(s, Acquire(t)) != s
    ensures
      var after := HolderOf(Step(s, Acquire(t)), r);
      if s.callers[t].run == r then HolderOf(s, r) == None && after == Some(t) else after == HolderOf(s, r)
  {
    assert Step(s, Acquire(t)).table.entries == s.table.entries;
  }

  lemma ReleaseGivesUp(s: State, t: Caller, r: RunId)
    requires Inv(s) && Step(s, Release(t)) != s
    ensures
      var after := HolderOf(Step(s, Release(t)), r);
      if s.callers[t].run == r then HolderOf(s, r) == Some(t) && after == None else after == HolderOf(s, r)
  {
    assert Step(s, Release(t)).table.entries == s.table.entries;
  }

  /** Every step is, for every run, a step of a plain lock: take it while it is free,
      give it up while holding it, or nothing. The claim protocol relies on the guards
      only through this. */
  lemma RefinesPlainLock(s: State, e: Event, r: RunId)
    requires Inv(s)
    ensures
      var before, after := HolderOf(s, r), HolderOf(Step(s, e), r);
      || after == before
      || (e.Acquire? && s.callers[e.caller].run == r && before == None && after == Some(e.caller))
      || (e.Release? && s.callers[e.caller].run == r && before == Some(e.caller) && after == None)
  {
    match e
    case Enter(t, q) => if t !in s.callers { EnterKeepsHolders(s, t, q, r); }
    case Clean(t) => CleanKeepsHolders(s, t, r);
    case Acquire(t) => if Step(s, e) != s { AcquireTakes(s, t, r); }
    case Release(t) => if Step(s, e) != s { ReleaseGivesUp(s, t, r); }
    case _ => assert Step(s, e).table.entries == s.table.entries;
  }
}
