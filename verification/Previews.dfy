/** Previews that share one directory per key.

    A preview draws a generation, publishes it as the key's newest, and swaps itself into
    the table of active previews, cancelling the one it replaces. Only the active preview
    may recreate the directory, under the key's lock; a failed preview may delete it only
    if it was still active and still the newest. Every lock acquisition and every access
    to a table or the directory is its own step. */
module Previews {
  import opened Wrappers

  type Key = string
  type Generation = nat
  type Caller = nat

  /** The shared tables. `cancelled` holds the generations whose token is cancelled. */
  datatype Table = Table(
    next: Generation,
    latest: map<Key, Generation>,
    active: map<Key, Generation>,
    cancelled: set<Generation>)
  {
    function Drawn(): Table { this.(next := next + 1) }

    function Published(k: Key, g: Generation): Table { this.(latest := latest[k := g]) }

    function Swapped(k: Key, g: Generation): Table {
      this.(cancelled := if k in active then cancelled + {active[k]} else cancelled, active := active[k := g])
    }

    function KeyCancelled(k: Key): Table {
      if k in active then this.(cancelled := cancelled + {active[k]}, active := active - {k}) else this
    }

    predicate IsActive(k: Key, g: Generation) { k in active && active[k] == g }

    predicate IsNewest(k: Key, g: Generation) { k in latest && latest[k] == g }

    function Retired(k: Key, g: Generation): Table {
      if IsActive(k, g) then this.(active := active - {k}) else this
    }

    function Taken(k: Key, g: Generation): Table {
      if IsNewest(k, g) then this.(latest := latest - {k}) else this
    }
  }

  /** The tables as the service updates them in place. */
  class PreviewTable {
    var next: Generation
    var latest: map<Key, Generation>
    var active: map<Key, Generation>
    var cancelled: set<Generation>

    ghost function View(): Table
      reads this
    {
      Table(next, latest, active, cancelled)
    }

    constructor ()
      ensures View() == Table(1, map[], map[], {})
    {
      next, latest, active, cancelled := 1, map[], map[], {};
    }

    /** The registration of a preview, when nothing interrupts it. */
    method Register(k: Key) returns (g: Generation)
      modifies this
      ensures g == old(next)
      ensures View() == old(View()).Drawn().Published(k, g).Swapped(k, g)
    {
      g := next;
      next := next + 1;
      latest := latest[k := g];
      if k in active {
        cancelled := cancelled + {active[k]};
        active := active - {k};
      }
      active := active[k := g];
    }

    method CancelPreview(k: Key)
      modifies this`active, this`cancelled
      ensures View() == old(View()).KeyCancelled(k)
    {
      if k in active {
        cancelled := cancelled + {active[k]};
        active := active - {k};
      }
    }

    method RetireIfCurrent(k: Key, g: Generation) returns (was: bool)
      modifies this`active
      ensures was == old(View()).IsActive(k, g)
      ensures View() == old(View()).Retired(k, g)
    {
      was := k in active && active[k] == g;
      if was {
        active := active - {k};
      }
    }

    method TakeNewestGeneration(k: Key, g: Generation) returns (taken: bool)
      modifies this`latest
      ensures taken == old(View()).IsNewest(k, g)
      ensures View() == old(View()).Taken(k, g)
    {
      taken := k in latest && latest[k] == g;
      if taken {
        latest := latest - {k};
      }
    }
  }

  /** The next step of one preview call. */
  datatype Pc =
    | Draw(key: Key)
    | Publish(key: Key, gen: Generation)
    | Swap(key: Key, gen: Generation)
    | AwaitLock(key: Key, gen: Generation)
    | Check(key: Key, gen: Generation)        // key lock held from here ...
    | Clear(key: Key, gen: Generation)
    | Make(key: Key, gen: Generation)
    | Unlock(key: Key, gen: Generation)       // ... to here
    | Running(key: Key, gen: Generation)      // the provider may be executing
    | Succeed(key: Key, gen: Generation)
    | Fail(key: Key, gen: Generation)
    | FailAwaitLock(key: Key, gen: Generation)
    | FailTake(key: Key, gen: Generation)     // key lock held
    | FailDelete(key: Key, gen: Generation)   // key lock held
    | Forget(key: Key, gen: Generation)       // drop the own newest marker, if still there
    | Quit(key: Key)                          // key lock held, about to return
  {
    predicate Locked() { Check? || Clear? || Make? || Unlock? || FailTake? || FailDelete? || Quit? }

    predicate Registering() { Publish? || Swap? }

    predicate HasGen() { !Draw? && !Quit? }

    /** Registered: the swap is done. */
    predicate Registered() { HasGen() && !Registering() }

    /** Registered and not yet finishing: the stretch in which the provider can run. */
    predicate Underway() { AwaitLock? || Check? || Clear? || Make? || Unlock? || Running? || Succeed? || Fail? }
  }

  /** `dirs` names the generation that created each existing directory. The swaps are
      counted: `rank` says which swap a generation made and `home` of which key, `last` who
      made the last of a key. */
  datatype State = State(
    table: Table,
    locks: map<Key, Caller>,
    dirs: map<Key, Generation>,
    callers: map<Caller, Pc>,
    last: map<Key, Generation>,
    rank: map<Generation, nat>,
    home: map<Generation, Key>,
    swaps: nat)

  datatype Event =
    | Call(caller: Caller, key: Key)
    | Advance(caller: Caller, ok: bool)
    | CancelKey(key: Key)
    | CancelToken(gen: Generation)

  /** What the step at `pc` does to the shared state. */
  function Effect(s: State, t: Caller, pc: Pc, ok: bool): State {
    match pc
    case Draw(_) => s.(table := s.table.Drawn())
    case Publish(k, g) => s.(table := s.table.Published(k, g))
    case Swap(k, g) =>
      s.(table := s.table.Swapped(k, g), last := s.last[k := g],
         rank := s.rank[g := s.swaps], home := s.home[g := k], swaps := s.swaps + 1)
    case AwaitLock(k, _) => if k in s.locks then s else s.(locks := s.locks[k := t])
    case Clear(k, _) => s.(dirs := s.dirs - {k})
    case Make(k, g) => if ok then s.(dirs := s.dirs[k := g]) else s
    case Unlock(k, _) => s.(locks := s.locks - {k})
    case Succeed(k, g) => s.(table := s.table.Retired(k, g))
    case Fail(k, g) => s.(table := s.table.Retired(k, g))
    case FailAwaitLock(k, _) => if k in s.locks then s else s.(locks := s.locks[k := t])
    case FailTake(k, g) => s.(table := s.table.Taken(k, g))
    case FailDelete(k, _) => s.(dirs := s.dirs - {k})
    case Forget(k, g) => s.(table := s.table.Taken(k, g))
    case Quit(k) => s.(locks := s.locks - {k})
    case _ => s
  }

  /** Where the step at `pc` leads; None when the call returns. A taken lock blocks. */
  function Follow(s: State, pc: Pc, ok: bool): Option<Pc> {
    match pc
    case Draw(k) => Some(Publish(k, s.table.next))
    case Publish(k, g) => Some(Swap(k, g))
    case Swap(k, g) => Some(AwaitLock(k, g))
    case AwaitLock(k, g) => Some(if k in s.locks then pc else Check(k, g))
    case Check(k, g) => Some(if s.table.IsActive(k, g) && g !in s.table.cancelled then Clear(k, g) else Quit(k))
    case Clear(k, g) => Some(Make(k, g))
    case Make(k, g) => Some(if ok then Unlock(k, g) else Quit(k))
    case Unlock(k, g) => Some(Running(k, g))
    case Running(k, g) => Some(if ok then Succeed(k, g) else Fail(k, g))
    case Succeed(k, g) => Some(Forget(k, g))
    case Fail(k, g) => Some(if s.table.IsActive(k, g) then FailAwaitLock(k, g) else Forget(k, g))
    case FailAwaitLock(k, g) => Some(if k in s.locks then pc else FailTake(k, g))
    case FailTake(k, g) => Some(if s.table.IsNewest(k, g) then FailDelete(k, g) else Quit(k))
    case FailDelete(k, _) => Some(Quit(k))
    case Forget(_, _) => None
    case Quit(_) => None
  }

  function Moved(callers: map<Caller, Pc>, t: Caller, next: Option<Pc>): map<Caller, Pc> {
    match next case Some(pc) => callers[t := pc] case None => callers - {t}
  }

  function Step(s: State, e: Event): State {
    match e
    case Call(t, k) => if t in s.callers then s else s.(callers := s.callers[t := Draw(k)])
    case Advance(t, ok) =>
      if t !in s.callers then s
      else Effect(s, t, s.callers[t], ok).(callers := Moved(s.callers, t, Follow(s, s.callers[t], ok)))
    case CancelKey(k) => s.(table := s.table.KeyCancelled(k))
    case CancelToken(g) => s.(table := s.table.(cancelled := s.table.cancelled + {g}))
  }

  // ---- The invariant ----

  /** `g` was registered under `k`, no later than the last registration of `k`. */
  predicate Ranked(s: State, k: Key, g: Generation) {
    && g in s.rank && g in s.home && s.home[g] == k
    && k in s.last && s.last[k] in s.rank && s.rank[g] <= s.rank[s.last[k]] < s.swaps
  }

  /** What the caller may remove was created by a registration no later than its own. */
  predicate NotLater(s: State, k: Key, g: Generation) {
    k in s.dirs ==> s.dirs[k] in s.rank && g in s.rank && s.rank[s.dirs[k]] <= s.rank[g]
  }

  ghost predicate CallerOk(s: State, t: Caller, pc: Pc) {
    && (pc.HasGen() ==> 0 < pc.gen < s.table.next)
    && (pc.Locked() ==> Get(s.locks, pc.key) == Some(t))
    && (pc.Underway() ==> pc.gen in s.table.cancelled || s.table.IsActive(pc.key, pc.gen))
  }

  ghost predicate OrderOk(s: State, pc: Pc) {
    && (pc.Registering() ==> pc.gen !in s.rank)
    && (pc.Registered() ==> Ranked(s, pc.key, pc.gen))
    && (pc.Clear? ==> NotLater(s, pc.key, pc.gen))
  }

  predicate KeyOk(s: State, k: Key) {
    && (k in s.locks ==> s.locks[k] in s.callers && s.callers[s.locks[k]].Locked() && s.callers[s.locks[k]].key == k)
    && (k in s.dirs ==> Ranked(s, k, s.dirs[k]))
    && (k in s.table.active ==> k in s.last && s.last[k] == s.table.active[k])
  }

  ghost predicate GensDistinct(s: State) {
    forall t, u | t in s.callers && u in s.callers && s.callers[t].HasGen() && s.callers[u].HasGen()
                  && s.callers[t].gen == s.callers[u].gen :: t == u
  }

  ghost predicate Inv(s: State) {
    && GensDistinct(s)
    && s.table.next > 0
    && (forall g | g in s.rank :: g < s.table.next && s.rank[g] < s.swaps)
    && (forall k :: KeyOk(s, k))
    && (forall t | t in s.callers :: CallerOk(s, t, s.callers[t]) && OrderOk(s, s.callers[t]))
  }

  lemma LocksOf(s: State, t: Caller, pc: Pc, ok: bool)
    ensures Effect(s, t, pc, ok).locks
         == if (pc.AwaitLock? || pc.FailAwaitLock?) && pc.key !in s.locks then s.locks[pc.key := t]
            else if pc.Unlock? || pc.Quit? then s.locks - {pc.key}
            else s.locks
  { }

  lemma EffectKeepsUnderway(s: State, t: Caller, pc: Pc, ok: bool, upc: Pc)
    requires upc.Underway() && (upc.gen in s.table.cancelled || s.table.IsActive(upc.key, upc.gen))
    requires pc.HasGen() ==> pc.gen != upc.gen
    ensures
      var r := Effect(s, t, pc, ok);
      upc.gen in r.table.cancelled || r.table.IsActive(upc.key, upc.gen)
  { }

  lemma EffectKeepsOthers(s: State, t: Caller, pc: Pc, ok: bool, u: Caller, upc: Pc)
    requires CallerOk(s, t, pc) && CallerOk(s, u, upc) && t != u
    requires pc.HasGen() && upc.HasGen() ==> pc.gen != upc.gen
    ensures CallerOk(Effect(s, t, pc, ok), u, upc)
  {
    LocksOf(s, t, pc, ok);
    if upc.Underway() { EffectKeepsUnderway(s, t, pc, ok, upc); }
  }

  lemma FollowKeepsLock(s: State, t: Caller, pc: Pc, ok: bool)
    requires pc.Locked() ==> Get(s.locks, pc.key) == Some(t)
    ensures
      var next := Follow(s, pc, ok);
      next.Some? && next.value.Locked() ==> Get(Effect(s, t, pc, ok).locks, next.value.key) == Some(t)
  { }

  lemma FollowKeepsUnderway(s: State, t: Caller, pc: Pc, ok: bool)
    requires pc.Underway() ==> pc.gen in s.table.cancelled || s.table.IsActive(pc.key, pc.gen)
    ensures
      var r, next := Effect(s, t, pc, ok), Follow(s, pc, ok);
      next.Some? && next.value.Underway() ==>
        next.value.gen in r.table.cancelled || r.table.IsActive(next.value.key, next.value.gen)
  { }

  lemma FollowKeeps(s: State, t: Caller, pc: Pc, ok: bool)
    requires CallerOk(s, t, pc) && s.table.next > 0
    ensures Follow(s, pc, ok).Some? ==> CallerOk(Effect(s, t, pc, ok), t, Follow(s, pc, ok).value)
  {
    FollowKeepsLock(s, t, pc, ok);
    FollowKeepsUnderway(s, t, pc, ok);
    FollowKeepsGen(s, t, pc, ok);
  }

  /** A swap comes last in the order; nothing else changes it. */
  lemma RankedStays(s: State, t: Caller, pc: Pc, ok: bool, k: Key, g: Generation)
    requires Ranked(s, k, g) && OrderOk(s, pc) && (forall h | h in s.rank :: s.rank[h] < s.swaps)
    ensures Ranked(Effect(s, t, pc, ok), k, g)
    ensures pc.Swap? ==> Ranked(Effect(s, t, pc, ok), pc.key, pc.gen)
  { }

  lemma EffectKeepsOthersOrder(s: State, t: Caller, pc: Pc, ok: bool, u: Caller, upc: Pc)
    requires OrderOk(s, pc) && OrderOk(s, upc) && (forall h | h in s.rank :: s.rank[h] < s.swaps)
    requires CallerOk(s, t, pc) && CallerOk(s, u, upc) && t != u
    requires pc.HasGen() && upc.HasGen() ==> pc.gen != upc.gen
    ensures OrderOk(Effect(s, t, pc, ok), upc)
  {
    if upc.Registered() { RankedStays(s, t, pc, ok, upc.key, upc.gen); }
  }

  lemma FollowKeepsOrder(s: State, t: Caller, pc: Pc, ok: bool)
    requires OrderOk(s, pc) && KeyOk(s, pc.key) && (forall h | h in s.rank :: s.rank[h] < s.swaps)
    requires forall g | g in s.rank :: g < s.table.next
    ensures Follow(s, pc, ok).Some? ==> OrderOk(Effect(s, t, pc, ok), Follow(s, pc, ok).value)
  {
    if pc.Registered() { RankedStays(s, t, pc, ok, pc.key, pc.gen); }
    if pc.Swap? {
      assert pc.gen !in s.rank;
    }
  }

  /** A call keeps its key and the generation it drew, and nobody draws one twice. */
  lemma FollowKeepsGen(s: State, t: Caller, pc: Pc, ok: bool)
    ensures Effect(s, t, pc, ok).table.next == s.table.next + (if pc.Draw? then 1 else 0)
    ensures Follow(s, pc, ok).Some? ==> Follow(s, pc, ok).value.key == pc.key
    ensures Follow(s, pc, ok).Some? && Follow(s, pc, ok).value.HasGen() ==>
              Follow(s, pc, ok).value.gen == if pc.Draw? then s.table.next else if pc.HasGen() then pc.gen else 0
    ensures pc.Quit? ==> Follow(s, pc, ok) == None
  { }

  lemma AdvanceKeepsDistinct(s: State, t: Caller, next: Option<Pc>)
    requires Inv(s) && t in s.callers
    requires next.Some? && next.value.HasGen() ==>
               next.value.gen == if s.callers[t].HasGen() then s.callers[t].gen else s.table.next
    ensures GensDistinct(s.(callers := Moved(s.callers, t, next)))
  {
    forall u | u in s.callers && s.callers[u].HasGen() ensures s.callers[u].gen < s.table.next {
      assert CallerOk(s, u, s.callers[u]);
    }
  }

  lemma LockEffect(s: State, t: Caller, pc: Pc, ok: bool, k: Key)
    ensures
      var r, next := Effect(s, t, pc, ok), Follow(s, pc, ok);
      k in r.locks ==>
        || (k in s.locks && r.locks[k] == s.locks[k] && !(pc.key == k && (pc.Unlock? || pc.Quit?)))
        || (r.locks[k] == t && pc.key == k && next.Some? && next.value.Locked() && next.value.key == k)
  {
    LocksOf(s, t, pc, ok);
  }

  lemma HolderStays(s: State, pc: Pc, ok: bool)
    requires pc.Locked() && !pc.Unlock? && !pc.Quit?
    ensures Follow(s, pc, ok).Some? && Follow(s, pc, ok).value.Locked() && Follow(s, pc, ok).value.key == pc.key
  { }

  lemma LocksAfter(s: State, t: Caller, ok: bool, k: Key)
    requires t in s.callers && KeyOk(s, k)
    ensures
      var r := Step(s, Advance(t, ok));
      k in r.locks ==> r.locks[k] in r.callers && r.callers[r.locks[k]].Locked() && r.callers[r.locks[k]].key == k
  {
    var pc := s.callers[t];
    LockEffect(s, t, pc, ok, k);
    if pc.Locked() && !pc.Unlock? && !pc.Quit? { HolderStays(s, pc, ok); }
  }

  lemma EffectKeepsDir(s: State, t: Caller, pc: Pc, ok: bool, k: Key)
    requires CallerOk(s, t, pc) && OrderOk(s, pc) && KeyOk(s, k) && (forall h | h in s.rank :: s.rank[h] < s.swaps)
    ensures
      var r := Effect(s, t, pc, ok);
      k in r.dirs ==> Ranked(r, k, r.dirs[k])
  { }

  lemma EffectKeepsActive(s: State, t: Caller, pc: Pc, ok: bool, k: Key)
    requires k in s.table.active ==> k in s.last && s.last[k] == s.table.active[k]
    ensures
      var r := Effect(s, t, pc, ok);
      k in r.table.active ==> k in r.last && r.last[k] == r.table.active[k]
  { }

  lemma OthersKept(s: State, t: Caller, ok: bool, u: Caller)
    requires Inv(s) && t in s.callers && u in s.callers && u != t
    ensures
      var r := Effect(s, t, s.callers[t], ok);
      CallerOk(r, u, s.callers[u]) && OrderOk(r, s.callers[u])
  {
    assert CallerOk(s, t, s.callers[t]) && CallerOk(s, u, s.callers[u]);
    EffectKeepsOthers(s, t, s.callers[t], ok, u, s.callers[u]);
    EffectKeepsOthersOrder(s, t, s.callers[t], ok, u, s.callers[u]);
  }

  lemma SelfKept(s: State, t: Caller, ok: bool)
    requires Inv(s) && t in s.callers
    ensures
      var r, next := Effect(s, t, s.callers[t], ok), Follow(s, s.callers[t], ok);
      next.Some? ==> CallerOk(r, t, next.value) && OrderOk(r, next.value)
  {
    assert CallerOk(s, t, s.callers[t]) && KeyOk(s, s.callers[t].key);
    FollowKeeps(s, t, s.callers[t], ok);
    FollowKeepsOrder(s, t, s.callers[t], ok);
  }

  lemma RanksKept(s: State, t: Caller, pc: Pc, ok: bool)
    requires s.table.next > 0 && CallerOk(s, t, pc) && forall g | g in s.rank :: g < s.table.next && s.rank[g] < s.swaps
    ensures
      var r := Effect(s, t, pc, ok);
      r.table.next > 0 && forall g | g in r.rank :: g < r.table.next && r.rank[g] < r.swaps
  {
    if !pc.Swap? {
      assert Effect(s, t, pc, ok).rank == s.rank && Effect(s, t, pc, ok).swaps == s.swaps;
    }
  }

  lemma KeyKept(s: State, t: Caller, ok: bool, k: Key)
    requires Inv(s) && t in s.callers
    ensures KeyOk(Step(s, Advance(t, ok)), k)
  {
    assert KeyOk(s, k) && CallerOk(s, t, s.callers[t]) && OrderOk(s, s.callers[t]);
    EffectKeepsDir(s, t, s.callers[t], ok, k);
    EffectKeepsActive(s, t, s.callers[t], ok, k);
    LocksAfter(s, t, ok, k);
  }

  lemma CallerKept(s: State, t: Caller, ok: bool, u: Caller)
    requires Inv(s) && t in s.callers && u in Step(s, Advance(t, ok)).callers
    ensures
      var r := Step(s, Advance(t, ok));
      CallerOk(r, u, r.callers[u]) && OrderOk(r, r.callers[u])
  {
    if u == t { SelfKept(s, t, ok); } else { OthersKept(s, t, ok, u); }
  }

  lemma DistinctKept(s: State, t: Caller, ok: bool)
    requires Inv(s) && t in s.callers
    ensures GensDistinct(Step(s, Advance(t, ok)))
  {
    FollowKeepsGen(s, t, s.callers[t], ok);
    AdvanceKeepsDistinct(s, t, Follow(s, s.callers[t], ok));
  }

  lemma AdvanceKeeps(s: State, t: Caller, ok: bool)
    requires Inv(s) && t in s.callers
    ensures Inv(Step(s, Advance(t, ok)))
  {
    var s' := Step(s, Advance(t, ok));
    assert CallerOk(s, t, s.callers[t]);
    DistinctKept(s, t, ok);
    RanksKept(s, t, s.callers[t], ok);
    forall u | u in s'.callers ensures CallerOk(s', u, s'.callers[u]) && OrderOk(s', s'.callers[u]) {
      CallerKept(s, t, ok, u);
    }
    forall k ensures KeyOk(s', k) { KeyKept(s, t, ok, k); }
  }

  lemma QuietKeepsCaller(s: State, e: Event, u: Caller)
    requires !e.Advance? && u in Step(s, e).callers
    requires u in s.callers ==> CallerOk(s, u, s.callers[u]) && OrderOk(s, s.callers[u])
    ensures CallerOk(Step(s, e), u, Step(s, e).callers[u]) && OrderOk(Step(s, e), Step(s, e).callers[u])
  { }

  lemma QuietKeepsKey(s: State, e: Event, k: Key)
    requires !e.Advance? && KeyOk(s, k)
    ensures KeyOk(Step(s, e), k)
  { }

  lemma QuietKeepsDistinct(s: State, e: Event)
    requires !e.Advance? && GensDistinct(s)
    ensures GensDistinct(Step(s, e))
  { }

  lemma QuietKeeps(s: State, e: Event)
    requires Inv(s) && !e.Advance?
    ensures Inv(Step(s, e))
  {
    var s' := Step(s, e);
    QuietKeepsDistinct(s, e);
    assert s'.rank == s.rank && s'.swaps == s.swaps && s'.table.next == s.table.next;
    forall u | u in s'.callers ensures CallerOk(s', u, s'.callers[u]) && OrderOk(s', s'.callers[u]) {
      QuietKeepsCaller(s, e, u);
    }
    forall k ensures KeyOk(s', k) { QuietKeepsKey(s, e, k); }
  }

  lemma StepKeepsInv(s: State, e: Event)
    requires Inv(s)
    ensures Inv(Step(s, e))
  {
    if e.Advance? {
      if e.caller in s.callers { AdvanceKeeps(s, e.caller, e.ok); }
    } else {
      QuietKeeps(s, e);
    }
  }

  // ---- Every interleaving ----

  const START := State(Table(1, map[], map[], {}), map[], map[], map[], map[], map[], map[], 0)

  function Run(es: seq<Event>): State {
    if es == [] then START else Step(Run(es[..|es| - 1]), es[|es| - 1])
  }

  lemma {:induction false} RunKeepsInv(es: seq<Event>)
    ensures Inv(Run(es))
  {
    if es != [] {
      RunKeepsInv(es[..|es| - 1]);
      StepKeepsInv(Run(es[..|es| - 1]), es[|es| - 1]);
    }
  }

  lemma RunSnoc(es: seq<Event>, e: Event)
    ensures Run(es + [e]) == Step(Run(es), e)
  {
    assert (es + [e])[..|es|] == es;
  }

  /** At most one provider of a key is ever running with an uncancelled token, even when
      registrations overlap, and it is the active preview of its key. */
  lemma OneUncancelledProvider(es: seq<Event>, t: Caller, u: Caller)
    requires t in Run(es).callers && u in Run(es).callers
    requires
      var s := Run(es);
      && s.callers[t].Running? && s.callers[u].Running? && s.callers[t].key == s.callers[u].key
      && s.callers[t].gen !in s.table.cancelled && s.callers[u].gen !in s.table.cancelled
    ensures t == u && Run(es).table.IsActive(Run(es).callers[t].key, Run(es).callers[t].gen)
  {
    RunKeepsInv(es);
    var s := Run(es);
    assert CallerOk(s, t, s.callers[t]) && CallerOk(s, u, s.callers[u]);
  }

  // ---- Losing a directory ----

  /** Caller `u` is about to remove the directory of `h`, registered later than itself. */
  predicate Loses(s: State, u: Caller, k: Key, h: Generation) {
    && u in s.callers && (s.callers[u].FailDelete? || s.callers[u].Clear?) && s.callers[u].key == k
    && Get(s.dirs, k) == Some(h)
    && h in s.rank && s.callers[u].gen in s.rank && s.rank[s.callers[u].gen] < s.rank[h]
  }

  /** `t` is about to register a preview that is not cancelled, while a failed one of its
      key waits for the lock and still is the newest. */
  ghost predicate Threatened(s: State, t: Caller) {
    && t in s.callers && s.callers[t].Swap? && s.callers[t].gen !in s.table.cancelled
    && exists u :: Waits(s, u, s.callers[t].key)
  }

  predicate Waits(s: State, u: Caller, k: Key) {
    u in s.callers && s.callers[u].FailAwaitLock? && s.callers[u].key == k && s.table.IsNewest(k, s.callers[u].gen)
  }

  /** What keeps the directory of `h` from a caller registered earlier. */
  predicate Spares(s: State, k: Key, h: Generation, pc: Pc) {
    pc.Registered() && pc.key == k && h in s.rank && pc.gen in s.rank && s.rank[pc.gen] < s.rank[h] ==>
      && (pc.FailAwaitLock? ==> !s.table.IsNewest(k, pc.gen))
      && (pc.FailTake? ==> !s.table.IsNewest(k, pc.gen) || Get(s.dirs, k) != Some(h))
      && (pc.FailDelete? ==> Get(s.dirs, k) != Some(h))
  }

  /** Registered uncancelled, and safe from everybody registered before. */
  ghost predicate Spared(s: State, k: Key, h: Generation) {
    Ranked(s, k, h) && forall t | t in s.callers :: Spares(s, k, h, s.callers[t])
  }

  predicate Stuck(pc: Pc, h: Generation) { pc.HasGen() && pc.gen == h ==> pc.AwaitLock? || pc.Check? }

  /** Registered cancelled: it never gets to create a directory. */
  ghost predicate Barren(s: State, k: Key, h: Generation) {
    && Ranked(s, k, h) && h in s.table.cancelled && h < s.table.next && Get(s.dirs, k) != Some(h)
    && forall t | t in s.callers :: Stuck(s.callers[t], h)
  }

  lemma SparesOthers(s: State, t: Caller, pc: Pc, ok: bool, u: Caller, upc: Pc, k: Key, h: Generation)
    requires CallerOk(s, t, pc) && OrderOk(s, pc) && CallerOk(s, u, upc) && OrderOk(s, upc) && t != u
    requires pc.HasGen() && upc.HasGen() ==> pc.gen != upc.gen
    requires Ranked(s, k, h) && Spares(s, k, h, upc)
    ensures Spares(Effect(s, t, pc, ok), k, h, upc)
  { }

  lemma SparesSelf(s: State, t: Caller, pc: Pc, ok: bool, k: Key, h: Generation)
    requires CallerOk(s, t, pc) && OrderOk(s, pc) && KeyOk(s, pc.key) && Ranked(s, k, h) && Spares(s, k, h, pc)
    ensures Follow(s, pc, ok).Some? ==> Spares(Effect(s, t, pc, ok), k, h, Follow(s, pc, ok).value)
  { }

  lemma SparedAdvance(s: State, t: Caller, ok: bool, u: Caller, k: Key, h: Generation)
    requires Inv(s) && Spared(s, k, h) && t in s.callers && u in s.callers && u != t
    ensures Spares(Effect(s, t, s.callers[t], ok), k, h, s.callers[u])
  {
    assert CallerOk(s, t, s.callers[t]) && OrderOk(s, s.callers[t]);
    assert CallerOk(s, u, s.callers[u]) && OrderOk(s, s.callers[u]);
    SparesOthers(s, t, s.callers[t], ok, u, s.callers[u], k, h);
  }

  lemma SparedStays(s: State, e: Event, k: Key, h: Generation)
    requires Inv(s) && Spared(s, k, h)
    ensures Spared(Step(s, e), k, h)
  {
    if e.Advance? {
      if e.caller in s.callers {
        var t, ok, pc := e.caller, e.ok, s.callers[e.caller];
        var r := Effect(s, t, pc, ok);
        assert CallerOk(s, t, pc) && OrderOk(s, pc) && KeyOk(s, pc.key);
        RankedStays(s, t, pc, ok, k, h);
        SparesSelf(s, t, pc, ok, k, h);
        forall u | u in Step(s, e).callers ensures Spares(r, k, h, Step(s, e).callers[u]) {
          if u != t { SparedAdvance(s, t, ok, u, k, h); }
        }
      }
    }
  }

  lemma StuckSelf(s: State, t: Caller, pc: Pc, ok: bool, k: Key, h: Generation)
    requires Stuck(pc, h) && h in s.table.cancelled && h < s.table.next && Get(s.dirs, k) != Some(h)
    ensures Follow(s, pc, ok).Some? ==> Stuck(Follow(s, pc, ok).value, h)
    ensures
      var r := Effect(s, t, pc, ok);
      h in r.table.cancelled && h < r.table.next && Get(r.dirs, k) != Some(h)
  { }

  lemma BarrenStays(s: State, e: Event, k: Key, h: Generation)
    requires Inv(s) && Barren(s, k, h)
    ensures Barren(Step(s, e), k, h)
  {
    if e.Advance? && e.caller in s.callers {
      var t, ok, pc := e.caller, e.ok, s.callers[e.caller];
      assert OrderOk(s, pc) && Stuck(pc, h);
      RankedStays(s, t, pc, ok, k, h);
      StuckSelf(s, t, pc, ok, k, h);
    }
  }

  /** A swap without a threat leaves the new preview spared, or barren. */
  lemma UnthreatenedIsSafe(s: State, t: Caller, ok: bool)
    requires Inv(s) && t in s.callers && s.callers[t].Swap? && !Threatened(s, t)
    ensures
      var k, h, r := s.callers[t].key, s.callers[t].gen, Step(s, Advance(t, ok));
      Spared(r, k, h) || Barren(r, k, h)
  {
    var k, h, r := s.callers[t].key, s.callers[t].gen, Step(s, Advance(t, ok));
    assert OrderOk(s, s.callers[t]) && CallerOk(s, t, s.callers[t]) && KeyOk(s, k);
    assert Ranked(r, k, h);
    if h in s.table.cancelled {
      forall u | u in r.callers ensures Stuck(r.callers[u], h) { }
    } else {
      forall u | u in r.callers ensures Spares(r, k, h, r.callers[u]) {
        if u != t { assert !Waits(s, u, k) && OrderOk(s, s.callers[u]); }
      }
    }
  }

  lemma SafeLosesNothing(s: State, u: Caller, k: Key, h: Generation)
    requires Inv(s) && (Spared(s, k, h) || Barren(s, k, h))
    ensures !Loses(s, u, k, h)
  {
    if u in s.callers { assert OrderOk(s, s.callers[u]); }
  }

  lemma {:induction false} SafeForGood(es: seq<Event>, more: seq<Event>, k: Key, h: Generation)
    requires Spared(Run(es), k, h) || Barren(Run(es), k, h)
    ensures Spared(Run(es + more), k, h) || Barren(Run(es + more), k, h)
  {
    if more == [] {
      assert es + more == es;
    } else {
      var init := more[..|more| - 1];
      assert (es + more)[..|es + more| - 1] == es + init;
      SafeForGood(es, init, k, h);
      RunKeepsInv(es + init);
      var s, e := Run(es + init), more[|more| - 1];
      if Spared(s, k, h) { SparedStays(s, e, k, h); } else { BarrenStays(s, e, k, h); }
    }
  }

  // ---- From a threat to a loss ----

  function Onward(s: State, more: seq<Event>): State
    decreases |more|
  {
    if more == [] then s else Onward(Step(s, more[0]), more[1..])
  }

  lemma {:induction false} RunOnward(es: seq<Event>, more: seq<Event>)
    ensures Run(es + more) == Onward(Run(es), more)
    decreases |more|
  {
    if more == [] {
      assert es + more == es;
    } else {
      RunSnoc(es, more[0]);
      RunOnward(es + [more[0]], more[1..]);
      assert es + more == es + [more[0]] + more[1..];
    }
  }

  lemma {:induction false} OnwardConcat(s: State, a: seq<Event>, b: seq<Event>)
    ensures Onward(s, a + b) == Onward(Onward(s, a), b)
    decreases |a|
  {
    if a == [] {
      assert a + b == b;
    } else {
      assert (a + b)[1..] == a[1..] + b;
      OnwardConcat(Step(s, a[0]), a[1..], b);
    }
  }

  /** `t` registered `h` after the failed `g`, whose caller `u` waits for the lock; `g` is
      still the newest and `h` not cancelled. */
  predicate Facing(s: State, t: Caller, u: Caller, k: Key, g: Generation, h: Generation) {
    && g != h && g in s.rank && h in s.rank && s.rank[g] < s.rank[h]
    && t in s.callers && u in s.callers && s.callers[u] == FailAwaitLock(k, g)
    && s.table.IsNewest(k, g) && h !in s.table.cancelled
  }

  predicate Poised(s: State, t: Caller, u: Caller, k: Key, g: Generation, h: Generation) {
    Facing(s, t, u, k, g, h) && s.callers[t] == AwaitLock(k, h) && s.table.IsActive(k, h)
  }

  function StepsToRelease(pc: Pc): nat {
    match pc
    case Clear(_, _) => 3
    case Unlock(_, _) => 1
    case Quit(_) => 1
    case _ => 2
  }

  /** Whoever holds the key's lock moves on: it can neither stay current nor be the newest. */
  lemma HolderStep(s: State, x: Caller, pc: Pc, g: Generation)
    requires pc.Locked() && s.table.IsNewest(pc.key, g) && (pc.FailTake? ==> pc.gen != g)
    requires pc.Check? ==> !s.table.IsActive(pc.key, pc.gen)
    ensures
      var r, next := Effect(s, x, pc, false), Follow(s, pc, false);
      && r.table == s.table && r.rank == s.rank
      && if pc.Unlock? || pc.Quit? then pc.key !in r.locks
         else r.locks == s.locks && next.Some? && StepsToRelease(next.value) < StepsToRelease(pc)
  {
    match pc
    case FailTake(k, x) => assert s.table.Taken(k, x) == s.table;
    case _ =>
  }

  lemma HolderMovesOn(s: State, t: Caller, u: Caller, k: Key, g: Generation, h: Generation)
    requires Inv(s) && Poised(s, t, u, k, g, h) && k in s.locks
    ensures
      var x := s.locks[k];
      var r := Step(s, Advance(x, false));
      && x in s.callers && Poised(r, t, u, k, g, h)
      && (k in r.locks ==> r.locks[k] == x && x in r.callers
                           && StepsToRelease(r.callers[x]) < StepsToRelease(s.callers[x]))
  {
    assert KeyOk(s, k);
    var x := s.locks[k];
    assert x != t && x != u && s.callers[x].HasGen() ==> s.callers[x].gen != g && s.callers[x].gen != h;
    HolderStep(s, x, s.callers[x], g);
  }

  lemma LockIsReleased(s: State, t: Caller, u: Caller, k: Key, g: Generation, h: Generation)
    returns (more: seq<Event>)
    requires Inv(s) && Poised(s, t, u, k, g, h)
    ensures Poised(Onward(s, more), t, u, k, g, h) && k !in Onward(s, more).locks
    decreases if k in s.locks && s.locks[k] in s.callers then StepsToRelease(s.callers[s.locks[k]]) else 0
  {
    more := [];
    if k in s.locks {
      HolderMovesOn(s, t, u, k, g, h);
      var e := Advance(s.locks[k], false);
      StepKeepsInv(s, e);
      var rest := LockIsReleased(Step(s, e), t, u, k, g, h);
      more := [e] + rest;
      assert more[1..] == rest;
    }
  }

  lemma OnwardOne(s: State, e: Event)
    ensures Onward(s, [e]) == Step(s, e)
  {
    assert [e][1..] == [];
  }

  lemma OnwardFive(s: State, a: Event) returns (more: seq<Event>)
    ensures Onward(s, more) == Step(Step(Step(Step(Step(s, a), a), a), a), a)
  {
    var s2 := Step(Step(s, a), a);
    var s4 := Step(Step(s2, a), a);
    OnwardOne(s, a);
    OnwardOne(Step(s, a), a);
    OnwardConcat(s, [a], [a]);
    OnwardOne(s2, a);
    OnwardOne(Step(s2, a), a);
    OnwardConcat(s2, [a], [a]);
    OnwardConcat(s, [a] + [a], [a] + [a]);
    OnwardOne(s4, a);
    more := [a] + [a] + ([a] + [a]) + [a];
    OnwardConcat(s, [a] + [a] + ([a] + [a]), [a]);
  }

  /** The later preview creates its directory and runs. */
  lemma LaterPreviewRuns(s: State, t: Caller, u: Caller, k: Key, g: Generation, h: Generation) returns (more: seq<Event>)
    requires Poised(s, t, u, k, g, h) && k !in s.locks
    ensures
      var r := Onward(s, more);
      && Facing(r, t, u, k, g, h) && r.callers[t] == Running(k, h)
      && Get(r.dirs, k) == Some(h) && k !in r.locks
  {
    var a := Advance(t, true);
    var s1 := Step(s, a);
    var s2 := Step(s1, a);
    var s3 := Step(s2, a);
    var s4 := Step(s3, a);
    assert s1.callers[t] == Check(k, h) && s2.callers[t] == Clear(k, h);
    assert s3.callers[t] == Make(k, h) && s4.callers[t] == Unlock(k, h);
    more := OnwardFive(s, a);
  }

  /** The earlier one takes the lock and deletes that directory. */
  lemma EarlierPreviewDeletes(s: State, t: Caller, u: Caller, k: Key, g: Generation, h: Generation)
    returns (more: seq<Event>)
    requires Facing(s, t, u, k, g, h) && s.callers[t] == Running(k, h)
    requires Get(s.dirs, k) == Some(h) && k !in s.locks
    ensures Loses(Onward(s, more), u, k, h)
    ensures t in Onward(s, more).callers && Onward(s, more).callers[t] == Running(k, h)
    ensures h !in Onward(s, more).table.cancelled
  {
    var a := Advance(u, true);
    more := [a] + [a];
    OnwardConcat(s, [a], [a]);
    OnwardOne(s, a);
    OnwardOne(Step(s, a), a);
  }

  lemma SwapPoises(s: State, t: Caller, u: Caller)
    requires Inv(s) && Threatened(s, t) && Waits(s, u, s.callers[t].key)
    ensures Poised(Step(s, Advance(t, true)), t, u, s.callers[t].key, s.callers[u].gen, s.callers[t].gen)
  {
    var k, g, h, r := s.callers[t].key, s.callers[u].gen, s.callers[t].gen, Step(s, Advance(t, true));
    assert OrderOk(s, s.callers[u]) && OrderOk(s, s.callers[t]) && KeyOk(s, k);
    assert Ranked(s, k, g) && g != h && r.rank[g] == s.rank[g] < s.swaps == r.rank[h];
    assert k in s.table.active ==> s.table.active[k] != h;
  }

  /** A threatened preview can lose its directory while its provider runs uncancelled. */
  lemma ThreatenedIsLost(es: seq<Event>, t: Caller) returns (more: seq<Event>, u: Caller)
    requires Threatened(Run(es), t)
    ensures
      var k, h, r := Run(es).callers[t].key, Run(es).callers[t].gen, Run(es + [Advance(t, true)] + more);
      Loses(r, u, k, h) && t in r.callers && r.callers[t] == Running(k, h) && h !in r.table.cancelled
  {
    var s := Run(es);
    RunKeepsInv(es);
    var k, h := s.callers[t].key, s.callers[t].gen;
    u :| Waits(s, u, k);
    var g := s.callers[u].gen;
    RunSnoc(es, Advance(t, true));
    StepKeepsInv(s, Advance(t, true));
    var s1 := Step(s, Advance(t, true));
    SwapPoises(s, t, u);
    var a := LockIsReleased(s1, t, u, k, g, h);
    var s2 := Onward(s1, a);
    var b := LaterPreviewRuns(s2, t, u, k, g, h);
    var s3 := Onward(s2, b);
    var c := EarlierPreviewDeletes(s3, t, u, k, g, h);
    OnwardConcat(s1, a + b, c);
    OnwardConcat(s1, a, b);
    more := a + b + c;
    RunOnward(es + [Advance(t, true)], more);
  }

  /** In some continuation the directory of `h` is about to be removed by a preview
      registered before it. */
  ghost predicate CanLose(es: seq<Event>, k: Key, h: Generation) {
    exists more: seq<Event>, u: Caller :: Loses(Run(es + more), u, k, h)
  }

  /** Over all interleavings: the directory of a preview can be removed by one registered
      before it exactly if the preview was threatened when it was registered. */
  lemma LostIffThreatened(es: seq<Event>, t: Caller)
    requires t in Run(es).callers && Run(es).callers[t].Swap?
    ensures
      var k, h := Run(es).callers[t].key, Run(es).callers[t].gen;
      Threatened(Run(es), t) <==> CanLose(es + [Advance(t, true)], k, h)
  {
    var k, h := Run(es).callers[t].key, Run(es).callers[t].gen;
    var swapped := es + [Advance(t, true)];
    if Threatened(Run(es), t) {
      var more, u := ThreatenedIsLost(es, t);
      assert Loses(Run(swapped + more), u, k, h);
    } else {
      RunKeepsInv(es);
      UnthreatenedIsSafe(Run(es), t, true);
      RunSnoc(es, Advance(t, true));
      forall more: seq<Event>, u: Caller ensures !Loses(Run(swapped + more), u, k, h) {
        SafeForGood(swapped, more, k, h);
        RunKeepsInv(swapped + more);
        SafeLosesNothing(Run(swapped + more), u, k, h);
      }
    }
  }

  ghost predicate NeverThreatened(es: seq<Event>) {
    forall n: nat | n < |es| && es[n].Advance? :: !Threatened(Run(es[..n]), es[n].caller)
  }

  lemma RankEffect(s: State, t: Caller, pc: Pc, ok: bool)
    ensures Effect(s, t, pc, ok).rank == if pc.Swap? then s.rank[pc.gen := s.swaps] else s.rank
  { }

  lemma OnlySwapsRank(s: State, e: Event, h: Generation)
    requires h in Step(s, e).rank && h !in s.rank
    ensures e.Advance? && e.caller in s.callers && s.callers[e.caller].Swap? && s.callers[e.caller].gen == h
  {
    if e.Advance? && e.caller in s.callers { RankEffect(s, e.caller, s.callers[e.caller], e.ok); }
  }

  /** Every registered generation was registered by a swap of its key. */
  lemma {:induction false} SwapOf(es: seq<Event>, h: Generation) returns (n: nat)
    requires h in Run(es).rank
    ensures n < |es| && es[n].Advance? && es[n].caller in Run(es[..n]).callers
    ensures Run(es[..n]).callers[es[n].caller].Swap? && Run(es[..n]).callers[es[n].caller].gen == h
  {
    var front, last := es[..|es| - 1], es[|es| - 1];
    if h in Run(front).rank {
      n := SwapOf(front, h);
      assert front[..n] == es[..n];
    } else {
      OnlySwapsRank(Run(front), last, h);
      n := |es| - 1;
    }
  }

  /** In a run without a threatened swap nobody ever removes the directory of a preview
      registered later, be it to clean up after a failure or to recreate it. */
  lemma LaterDirectoriesSurvive(es: seq<Event>, u: Caller, k: Key, h: Generation)
    requires NeverThreatened(es)
    ensures !Loses(Run(es), u, k, h)
  {
    RunKeepsInv(es);
    if h in Run(es).rank {
      var n := SwapOf(es, h);
      SafeSinceSwap(es, n);
      SafeLosesNothing(Run(es), u, Run(es[..n]).callers[es[n].caller].key, h);
      assert KeyOk(Run(es), k);
    }
  }

  lemma SplitAt(es: seq<Event>, n: nat)
    requires n < |es|
    ensures es[..n] + [es[n]] + es[n + 1..] == es
  { }

  lemma SafeSinceSwap(es: seq<Event>, n: nat)
    requires n < |es| && es[n].Advance? && es[n].caller in Run(es[..n]).callers
    requires Run(es[..n]).callers[es[n].caller].Swap? && !Threatened(Run(es[..n]), es[n].caller)
    ensures
      var pc := Run(es[..n]).callers[es[n].caller];
      Spared(Run(es), pc.key, pc.gen) || Barren(Run(es), pc.key, pc.gen)
  {
    var s, t := Run(es[..n]), es[n].caller;
    RunKeepsInv(es[..n]);
    UnthreatenedIsSafe(s, t, es[n].ok);
    RunSnoc(es[..n], es[n]);
    SafeForGood(es[..n] + [es[n]], es[n + 1..], s.callers[t].key, s.callers[t].gen);
    SplitAt(es, n);
  }

  // ---- Registrations that do not overlap ----

  /** No preview of a key is published between the publication and the swap of another. */
  ghost predicate PublishedInTurn(es: seq<Event>) {
    forall n: nat | n < |es| :: InTurn(Run(es[..n]), es[n])
  }

  ghost predicate InTurn(s: State, e: Event) {
    e.Advance? && e.caller in s.callers && s.callers[e.caller].Publish? ==>
      forall u | u in s.callers && s.callers[u].Swap? :: s.callers[u].key != s.callers[e.caller].key
  }

  ghost predicate SwapsAreNewest(s: State) {
    forall t | t in s.callers :: IsNewestSwap(s, s.callers[t])
  }

  predicate IsNewestSwap(s: State, pc: Pc) {
    pc.Swap? && pc.key in s.table.latest ==> s.table.latest[pc.key] == pc.gen
  }

  lemma NewestSwapStays(s: State, t: Caller, pc: Pc, ok: bool, upc: Pc)
    requires IsNewestSwap(s, upc) && (pc.Publish? && upc.Swap? ==> pc.key != upc.key)
    ensures IsNewestSwap(Effect(s, t, pc, ok), upc)
    ensures Follow(s, pc, ok).Some? ==> IsNewestSwap(Effect(s, t, pc, ok), Follow(s, pc, ok).value)
  { }

  lemma SwapsStayNewest(s: State, e: Event)
    requires SwapsAreNewest(s) && InTurn(s, e)
    ensures SwapsAreNewest(Step(s, e))
  {
    var r := Step(s, e);
    forall u | u in r.callers ensures IsNewestSwap(r, r.callers[u]) {
      if e.Advance? && e.caller in s.callers {
        var upc := if u in s.callers && u != e.caller then s.callers[u] else Quit("");
        assert u in s.callers ==> IsNewestSwap(s, s.callers[u]);
        NewestSwapStays(s, e.caller, s.callers[e.caller], e.ok, upc);
      } else {
        assert u in s.callers ==> IsNewestSwap(s, s.callers[u]);
      }
    }
  }

  lemma NewestIsNotThreatened(s: State, t: Caller)
    requires Inv(s) && SwapsAreNewest(s)
    ensures !Threatened(s, t)
  {
    if t in s.callers && s.callers[t].Swap? { assert IsNewestSwap(s, s.callers[t]); }
  }

  lemma PrefixInTurn(es: seq<Event>, n: nat)
    requires n <= |es| && PublishedInTurn(es)
    ensures PublishedInTurn(es[..n])
  {
    forall m: nat | m < n ensures InTurn(Run(es[..n][..m]), es[..n][m]) { assert es[..n][..m] == es[..m]; }
  }

  lemma {:induction false} InTurnKeepsNewest(es: seq<Event>)
    requires PublishedInTurn(es)
    ensures SwapsAreNewest(Run(es))
  {
    if es != [] {
      var n := |es| - 1;
      assert InTurn(Run(es[..n]), es[n]);
      PrefixInTurn(es, n);
      InTurnKeepsNewest(es[..n]);
      SwapsStayNewest(Run(es[..n]), es[n]);
    }
  }

  lemma InTurnNeverThreatens(es: seq<Event>)
    requires PublishedInTurn(es)
    ensures NeverThreatened(es)
  {
    forall n: nat | n < |es| && es[n].Advance? ensures !Threatened(Run(es[..n]), es[n].caller) {
      PrefixInTurn(es, n);
      InTurnKeepsNewest(es[..n]);
      RunKeepsInv(es[..n]);
      NewestIsNotThreatened(Run(es[..n]), es[n].caller);
    }
  }

  /** No preview of a key draws its generation while another is being registered. */
  ghost predicate Serial(es: seq<Event>) {
    forall n: nat | n < |es| :: Alone(Run(es[..n]), es[n])
  }

  ghost predicate Alone(s: State, e: Event) {
    e.Advance? && e.caller in s.callers && s.callers[e.caller].Draw? ==>
      forall u | u in s.callers && s.callers[u].Registering() :: s.callers[u].key != s.callers[e.caller].key
  }

  /** A registration under way is newer than the last one of its key. */
  predicate Newer(s: State, pc: Pc) { pc.Registering() && pc.key in s.last ==> s.last[pc.key] < pc.gen }

  ghost predicate Exclusive(s: State) {
    forall t, u | t in s.callers && u in s.callers && s.callers[t].Registering() && s.callers[u].Registering()
                  && s.callers[t].key == s.callers[u].key :: t == u
  }

  ghost predicate SerialInv(s: State) {
    && Exclusive(s)
    && (forall k | k in s.last :: s.last[k] < s.table.next)
    && (forall t | t in s.callers :: Newer(s, s.callers[t]))
  }

  lemma NewerStays(s: State, t: Caller, pc: Pc, ok: bool, upc: Pc)
    requires Newer(s, pc) && Newer(s, upc) && (pc.Swap? && upc.Registering() ==> pc.key != upc.key)
    requires CallerOk(s, t, pc) && forall k | k in s.last :: s.last[k] < s.table.next
    ensures Newer(Effect(s, t, pc, ok), upc)
    ensures Follow(s, pc, ok).Some? ==> Newer(Effect(s, t, pc, ok), Follow(s, pc, ok).value)
    ensures forall k | k in Effect(s, t, pc, ok).last :: Effect(s, t, pc, ok).last[k] < Effect(s, t, pc, ok).table.next
  { }

  lemma ExclusiveStays(s: State, e: Event)
    requires Exclusive(s) && Alone(s, e)
    ensures Exclusive(Step(s, e)) && InTurn(s, e)
  {
    if e.Advance? && e.caller in s.callers {
      var pc := s.callers[e.caller];
      assert Follow(s, pc, e.ok).Some? && Follow(s, pc, e.ok).value.Registering() ==>
               Follow(s, pc, e.ok).value.key == pc.key && (pc.Draw? || pc.Registering());
    }
  }

  lemma SerialStep(s: State, e: Event)
    requires Inv(s) && SerialInv(s) && Alone(s, e)
    ensures SerialInv(Step(s, e)) && InTurn(s, e)
  {
    ExclusiveStays(s, e);
    var r := Step(s, e);
    if e.Advance? && e.caller in s.callers {
      var t, pc := e.caller, s.callers[e.caller];
      assert CallerOk(s, t, pc) && Newer(s, pc);
      NewerStays(s, t, pc, e.ok, Quit(""));
      forall u | u in r.callers ensures Newer(r, r.callers[u]) {
        if u != t {
          assert Newer(s, s.callers[u]);
          NewerStays(s, t, pc, e.ok, s.callers[u]);
        }
      }
    } else {
      forall u | u in r.callers ensures Newer(r, r.callers[u]) { assert u in s.callers ==> Newer(s, s.callers[u]); }
    }
  }

  lemma PrefixSerial(es: seq<Event>, n: nat)
    requires n <= |es| && Serial(es)
    ensures Serial(es[..n])
  {
    forall m: nat | m < n ensures Alone(Run(es[..n][..m]), es[..n][m]) { assert es[..n][..m] == es[..m]; }
  }

  lemma {:induction false} SerialKeepsInv(es: seq<Event>)
    requires Serial(es)
    ensures SerialInv(Run(es))
  {
    if es != [] {
      var n := |es| - 1;
      assert Alone(Run(es[..n]), es[n]);
      PrefixSerial(es, n);
      SerialKeepsInv(es[..n]);
      RunKeepsInv(es[..n]);
      SerialStep(Run(es[..n]), es[n]);
    }
  }

  lemma SerialIsInTurn(es: seq<Event>)
    requires Serial(es)
    ensures PublishedInTurn(es)
  {
    forall n: nat | n < |es| ensures InTurn(Run(es[..n]), es[n]) {
      PrefixSerial(es, n);
      SerialKeepsInv(es[..n]);
      ExclusiveStays(Run(es[..n]), es[n]);
    }
  }

  /** With registrations of one key one after the other, none is threatened. */
  lemma SerialRegistrationsAreSafe(es: seq<Event>)
    requires Serial(es)
    ensures NeverThreatened(es)
  {
    SerialIsInTurn(es);
    InTurnNeverThreatens(es);
  }

  /** And then generations order registrations: each swap installs a greater generation than
      every earlier swap of its key. */
  lemma SwapsAreInGenerationOrder(es: seq<Event>, t: Caller)
    requires Serial(es) && t in Run(es).callers && Run(es).callers[t].Swap?
    ensures
      var s := Run(es);
      var pc := s.callers[t];
      (pc.key in s.last ==> s.last[pc.key] < pc.gen) && (pc.key in s.table.active ==> s.table.active[pc.key] < pc.gen)
  {
    RunKeepsInv(es);
    SerialKeepsInv(es);
    assert KeyOk(Run(es), Run(es).callers[t].key);
  }

  // ---- Overlapping registrations ----

  lemma FirstOverlap() returns (es: seq<Event>)
    ensures Run(es) ==
      State(Table(3, map["k" := 1], map["k" := 1], {}), map[], map[], map[0 := AwaitLock("k", 1), 1 := Swap("k", 2)],
            map["k" := 1], map[1 := 0], map[1 := "k"], 1)
  {
    es := [];
    RunSnoc(es, Call(0, "k"));        es := es + [Call(0, "k")];
    RunSnoc(es, Call(1, "k"));        es := es + [Call(1, "k")];
    RunSnoc(es, Advance(0, true));    es := es + [Advance(0, true)];
    RunSnoc(es, Advance(1, true));    es := es + [Advance(1, true)];
    assert Run(es) == State(Table(3, map[], map[], {}), map[], map[],
                            map[0 := Publish("k", 1), 1 := Publish("k", 2)], map[], map[], map[], 0);
    RunSnoc(es, Advance(1, true));    es := es + [Advance(1, true)];
    RunSnoc(es, Advance(0, true));    es := es + [Advance(0, true)];
    RunSnoc(es, Advance(0, true));    es := es + [Advance(0, true)];
  }

  lemma FirstChecks() returns (es: seq<Event>)
    ensures Run(es) ==
      State(Table(3, map["k" := 1], map["k" := 1], {}), map["k" := 0], map[],
            map[0 := Clear("k", 1), 1 := Swap("k", 2)], map["k" := 1], map[1 := 0], map[1 := "k"], 1)
  {
    es := FirstOverlap();
    RunSnoc(es, Advance(0, true));    es := es + [Advance(0, true)];
    RunSnoc(es, Advance(0, true));    es := es + [Advance(0, true)];
  }

  lemma FirstMakes() returns (es: seq<Event>)
    ensures Run(es) ==
      State(Table(3, map["k" := 1], map["k" := 1], {}), map["k" := 0], map["k" := 1],
            map[0 := Unlock("k", 1), 1 := Swap("k", 2)], map["k" := 1], map[1 := 0], map[1 := "k"], 1)
  {
    es := FirstChecks();
    RunSnoc(es, Advance(0, true));    es := es + [Advance(0, true)];
    RunSnoc(es, Advance(0, true));    es := es + [Advance(0, true)];
  }

  lemma FirstRuns() returns (es: seq<Event>)
    ensures Run(es) ==
      State(Table(3, map["k" := 1], map["k" := 1], {}), map[], map["k" := 1],
            map[0 := Running("k", 1), 1 := Swap("k", 2)], map["k" := 1], map[1 := 0], map[1 := "k"], 1)
  {
    es := FirstMakes();
    RunSnoc(es, Advance(0, true));    es := es + [Advance(0, true)];
  }

  lemma FirstFails() returns (es: seq<Event>)
    ensures Run(es) ==
      State(Table(3, map["k" := 1], map[], {}), map[], map["k" := 1], map[0 := FailAwaitLock("k", 1), 1 := Swap("k", 2)],
            map["k" := 1], map[1 := 0], map[1 := "k"], 1)
  {
    es := FirstRuns();
    RunSnoc(es, Advance(0, false));   es := es + [Advance(0, false)];
    RunSnoc(es, Advance(0, true));    es := es + [Advance(0, true)];
  }

  /** The registration is three separate critical sections, and its publication order need
      not be its swap order when two of one key overlap. So there are threatened swaps: here
      the failure cleanup of generation 1 is about to delete the directory in which
      generation 2, registered later, is running uncancelled. */
  lemma OverlappingRegistrationsLoseADirectory()
    ensures exists es, t, u ::
              var s := Run(es);
              && t in s.callers && s.callers[t] == Running("k", 2) && 2 !in s.table.cancelled
              && Loses(s, u, "k", 2)
  {
    var es := FirstFails();
    assert Waits(Run(es), 0, "k");
    assert Threatened(Run(es), 1);
    var more, u := ThreatenedIsLost(es, 1);
    assert Loses(Run(es + [Advance(1, true)] + more), u, "k", 2);
  }
}
