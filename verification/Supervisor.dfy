/** The state register of a worker supervisor and everything that updates it. */
module Supervisor {
  import opened Wrappers

  datatype Status = Stopped | Ready | Failed | Starting

  /** The two atomics shared by the supervisor, its start guards and its clients. */
  datatype Register = Register(status: Status, generation: nat)

  predicate Startable(status: Status) { !status.Ready? && !status.Starting? }

  function StoredIfCurrent(r: Register, g: nat, next: Status): Register {
    if r.generation == g then r.(status := next) else r
  }

  function SwappedIfCurrent(r: Register, g: nat): Register {
    if r.generation == g && r.status.Ready? then r.(status := Stopped) else r
  }

  /** Each operation from beginning to end, undisturbed. */
  class WorkerSupervisor {
    var status: Status
    var generation: nat

    ghost function Now(): Register
      reads this
    {
      Register(status, generation)
    }

    constructor ()
      ensures Now() == Register(Stopped, 0)
    {
      status, generation := Stopped, 0;
    }

    /** The generation of the new guard; none if a worker is started already. */
    method Acquire() returns (g: Option<nat>)
      modifies this
      ensures g.Some? <==> Startable(old(status))
      ensures g.Some? ==> Now() == Register(Starting, old(generation) + 1) && g.value == generation
      ensures g.None? ==> Now() == old(Now())
    {
      if status.Ready? || status.Starting? {
        return None;
      }
      status := Starting;
      generation := generation + 1;
      return Some(generation);
    }

    method StoreStateIfCurrent(g: nat, next: Status)
      modifies this`status
      ensures Now() == StoredIfCurrent(old(Now()), g, next)
    {
      if generation == g {
        status := next;
      }
    }

    method Commit(g: nat)
      modifies this`status
      ensures Now() == StoredIfCurrent(old(Now()), g, Ready)
    {
      StoreStateIfCurrent(g, Ready);
    }

    method DropGuard(g: nat, committed: bool)
      modifies this`status
      ensures Now() == if committed then old(Now()) else StoredIfCurrent(old(Now()), g, Stopped)
    {
      if !committed {
        StoreStateIfCurrent(g, Stopped);
      }
    }

    method DropClient(g: nat)
      modifies this`status
      ensures Now() == SwappedIfCurrent(old(Now()), g)
    {
      if generation == g {
        if status.Ready? {
          status := Stopped;
        }
      }
    }
  }

  // ---- Many threads, one access at a time ----

  /** The second half of an operation: the generation is still to be drawn, or the check
      has passed and the store or the swap is still to come. */
  datatype Half = Draw | Store(g: nat, next: Status) | Swap(g: nat)

  /** `guards`: uncommitted, by generation. `clients`: every client there ever was; `alive`
      and `held`: those not reported dead, and those not dropped. `halves`: by thread. */
  datatype State = State(reg: Register, guards: set<nat>, clients: set<nat>, alive: set<nat>, held: set<nat>,
                         halves: map<nat, Half>)

  const START := State(Register(Stopped, 0), {}, {}, {}, {}, map[])

  /** `Fail` is `fail_client` or `fail_reader`, `Stop` the end of `StartedWorker::shutdown`. */
  datatype Begin = Acquire | Commit(g: nat) | DropGuard(g: nat) | Fail(g: nat) | Stop(g: nat) | DropClient(g: nat)

  datatype Event = First(thread: nat, op: Begin) | Second(thread: nat)

  /** The check of `store_state_if_current`; without a match nothing more happens. */
  function Checked(s: State, t: nat, half: Half): State
    requires !half.Draw?
  {
    if s.reg.generation == half.g then s.(halves := s.halves[t := half])
    else if half == Store(half.g, Ready) then Started(s, half.g)
    else s
  }

  /** The client of generation `g` is handed out. */
  function Started(s: State, g: nat): State {
    s.(clients := s.clients + {g}, alive := s.alive + {g}, held := s.held + {g})
  }

  function Begun(s: State, t: nat, op: Begin): State {
    match op
    case Acquire =>
      if Startable(s.reg.status) then s.(reg := s.reg.(status := Starting), halves := s.halves[t := Draw]) else s
    case Commit(g) =>
      if g in s.guards then Checked(s.(guards := s.guards - {g}), t, Store(g, Ready)) else s
    case DropGuard(g) =>
      if g in s.guards then Checked(s.(guards := s.guards - {g}), t, Store(g, Stopped)) else s
    case Fail(g) =>
      if g in s.clients then Checked(s.(alive := s.alive - {g}), t, Store(g, Failed)) else s
    case Stop(g) =>
      if g in s.held then Checked(s.(alive := s.alive - {g}), t, Store(g, Stopped)) else s
    case DropClient(g) =>
      if g in s.held then Checked(s.(alive := s.alive - {g}, held := s.held - {g}), t, Swap(g)) else s
  }

  function Ended(s: State, t: nat): State
    requires t in s.halves
  {
    var done := s.(halves := s.halves - {t});
    match s.halves[t]
    case Draw =>
      var g := s.reg.generation + 1;
      done.(reg := s.reg.(generation := g), guards := s.guards + {g})
    case Store(g, next) =>
      var stored := done.(reg := s.reg.(status := next));
      if next.Ready? then Started(stored, g) else stored
    case Swap(g) =>
      done.(reg := if s.reg.status.Ready? then s.reg.(status := Stopped) else s.reg)
  }

  /** One access. */
  function Step(s: State, e: Event): State {
    match e
    case First(t, op) => if t in s.halves then s else Begun(s, t, op)
    case Second(t) => if t in s.halves then Ended(s, t) else s
  }

  /** The state after any sequence of accesses by any threads. */
  function Run(es: seq<Event>): State {
    if es == [] then START else Step(Run(es[..|es| - 1]), es[|es| - 1])
  }

  lemma RunSnoc(es: seq<Event>, e: Event)
    ensures Run(es + [e]) == Step(Run(es), e)
  {
    assert (es + [e])[..|es|] == es;
  }

  lemma PrefixStep(es: seq<Event>, n: nat)
    requires n < |es|
    ensures Run(es[..n + 1]) == Step(Run(es[..n]), es[n])
  {
    assert es[..n + 1] == es[..n] + [es[n]];
    RunSnoc(es[..n], es[n]);
  }

  predicate Resting(s: State) { s.halves == map[] }

  // ---- What no scheduling breaks ----

  predicate HalfIsSane(s: State, half: Half) {
    && (!half.Draw? ==> half.g <= s.reg.generation)
    && (half.Store? ==> !half.next.Starting?)
  }

  /** Nothing is of a generation not yet drawn, and no store is back to `Starting`. */
  ghost predicate Sane(s: State) {
    && (forall g | g in s.guards + s.clients + s.alive + s.held :: g <= s.reg.generation)
    && (forall t | t in s.halves :: HalfIsSane(s, s.halves[t]))
  }

  lemma StepKeepsSane(s: State, e: Event)
    requires Sane(s)
    ensures Sane(Step(s, e))
  { }

  lemma {:induction false} RunIsSane(es: seq<Event>)
    ensures Sane(Run(es))
  {
    if es != [] {
      RunIsSane(es[..|es| - 1]);
      StepKeepsSane(Run(es[..|es| - 1]), es[|es| - 1]);
    }
  }

  /** The generations drawn so far, in order: what the `fetch_add`s returned. */
  function Drawn(es: seq<Event>): seq<nat> {
    if es == [] then []
    else
      var before := Run(es[..|es| - 1]);
      var after := Step(before, es[|es| - 1]);
      Drawn(es[..|es| - 1])
      + if after.reg.generation != before.reg.generation then [after.reg.generation] else []
  }

  /** However the accesses interleave, the generations drawn are 1, 2, 3 and so on: strictly
      increasing, no two starts of one generation. */
  lemma {:induction false} GenerationsIncrease(es: seq<Event>)
    ensures |Drawn(es)| == Run(es).reg.generation
    ensures forall i | 0 <= i < |Drawn(es)| :: Drawn(es)[i] == i + 1
  {
    if es != [] {
      GenerationsIncrease(es[..|es| - 1]);
      var before, e := Run(es[..|es| - 1]), es[|es| - 1];
      assert Step(before, e).reg.generation in {before.reg.generation, before.reg.generation + 1};
    }
  }

  /** In every state of every interleaving, a commit, drop, failure or shutdown that begins
      for an older generation neither touches the register nor leaves a second access that
      could: those that do began while their generation was the current one. */
  lemma OlderGenerationsChangeNothing(es: seq<Event>, t: nat, op: Begin)
    requires t !in Run(es).halves && !op.Acquire? && op.g != Run(es).reg.generation
    ensures
      var s := Step(Run(es), First(t, op));
      s.reg == Run(es).reg && s.halves == Run(es).halves && Step(s, Second(t)) == s
  { }

  // ---- One start at a time ----

  /** A start is under way: its generation is still to be drawn, or its guard uncommitted. */
  ghost predicate Underway(s: State) {
    s.guards != {} || exists t :: t in s.halves && s.halves[t].Draw?
  }

  /** At most one start is under way; while one is, the status says so and its guard, once
      there is one, is of the current generation. */
  ghost predicate Single(s: State) {
    && (Underway(s) ==> s.reg.status.Starting?)
    && (forall t, u | t in s.halves && u in s.halves && s.halves[t].Draw? && s.halves[u].Draw? :: t == u)
    && (s.guards != {} ==> s.guards == {s.reg.generation} && forall t | t in s.halves :: !s.halves[t].Draw?)
  }

  /** The store of a check that passed comes while a start is under way. */
  ghost predicate Tramples(s: State, e: Event) {
    e.Second? && e.thread in s.halves && s.halves[e.thread].Store? && Underway(s)
  }

  lemma FirstKeepsSingle(s: State, t: nat, op: Begin)
    requires Single(s) && t !in s.halves
    ensures Single(Begun(s, t, op))
  {
    var r := Begun(s, t, op);
    assert forall u | u in s.halves :: u in r.halves && r.halves[u] == s.halves[u];
    assert forall u | u in r.halves && u != t :: u in s.halves;
  }

  lemma SecondKeepsSingle(s: State, t: nat)
    requires Single(s) && Sane(s) && t in s.halves
    ensures Single(Ended(s, t)) <==> !Tramples(s, Second(t))
  {
    var r := Ended(s, t);
    assert forall u | u in r.halves :: u in s.halves && r.halves[u] == s.halves[u];
    match s.halves[t]
    case Draw => assert s.guards == {};
    case Store(_, _) =>
      if s.guards == {} && Underway(s) {
        var u :| u in s.halves && s.halves[u].Draw?;
        assert u in r.halves;
      }
    case Swap(_) =>
  }

  /** One access ends the rule of one start at a time exactly if it tramples. */
  lemma SingleStep(s: State, e: Event)
    requires Single(s) && Sane(s)
    ensures Single(Step(s, e)) <==> !Tramples(s, e)
  {
    match e
    case First(t, op) => if t !in s.halves { FirstKeepsSingle(s, t, op); }
    case Second(t) => if t in s.halves { SecondKeepsSingle(s, t); }
  }

  ghost predicate NeverTrampled(es: seq<Event>) {
    forall n: nat | n < |es| :: !Tramples(Run(es[..n]), es[n])
  }

  lemma FrontNeverTrampled(es: seq<Event>)
    requires es != [] && NeverTrampled(es)
    ensures NeverTrampled(es[..|es| - 1]) && !Tramples(Run(es[..|es| - 1]), es[|es| - 1])
  {
    var front := es[..|es| - 1];
    forall n: nat | n < |front| ensures !Tramples(Run(front[..n]), front[n]) { assert front[..n] == es[..n]; }
  }

  /** The status is given up by a store: one is still to come if no start is under way. */
  ghost predicate Settled(s: State) {
    Single(s) && (s.reg.status.Starting? ==> Underway(s) || exists t :: t in s.halves && s.halves[t].Store?)
  }

  lemma FirstKeepsSettled(s: State, t: nat, op: Begin)
    requires Settled(s) && t !in s.halves
    ensures Settled(Begun(s, t, op))
  {
    FirstKeepsSingle(s, t, op);
    var r := Begun(s, t, op);
    assert forall u | u in s.halves :: u in r.halves && r.halves[u] == s.halves[u];
    if op.Acquire? && r != s { assert t in r.halves && r.halves[t].Draw?; }
    if (op.Commit? || op.DropGuard?) && op.g in s.guards { assert t in r.halves && r.halves[t].Store?; }
  }

  lemma SecondKeepsSettled(s: State, t: nat)
    requires Settled(s) && Sane(s) && t in s.halves && !Tramples(s, Second(t))
    ensures Settled(Ended(s, t))
  {
    SecondKeepsSingle(s, t);
    var r := Ended(s, t);
    match s.halves[t]
    case Draw => assert r.reg.generation in r.guards;
    case Store(_, _) =>
    case Swap(_) => assert forall u | u in s.halves && u != t :: u in r.halves && r.halves[u] == s.halves[u];
  }

  lemma {:induction false} NeverTrampledIsSettled(es: seq<Event>)
    requires NeverTrampled(es)
    ensures Settled(Run(es))
  {
    if es != [] {
      var s, e := Run(es[..|es| - 1]), es[|es| - 1];
      FrontNeverTrampled(es);
      NeverTrampledIsSettled(es[..|es| - 1]);
      RunIsSane(es[..|es| - 1]);
      match e
      case First(t, op) => if t !in s.halves { FirstKeepsSettled(s, t, op); }
      case Second(t) => if t in s.halves { SecondKeepsSettled(s, t); }
    }
  }

  /** In any interleaving of single accesses, one start at a time holds at every moment
      exactly if no store tramples on a start under way. */
  lemma SingleIffNeverTrampled(es: seq<Event>)
    ensures (forall n: nat | n <= |es| :: Single(Run(es[..n]))) <==> NeverTrampled(es)
  {
    if NeverTrampled(es) {
      forall n: nat | n <= |es| ensures Single(Run(es[..n])) {
        forall m: nat | m < n ensures !Tramples(Run(es[..n][..m]), es[..n][m]) { assert es[..n][..m] == es[..m]; }
        NeverTrampledIsSettled(es[..n]);
      }
    }
    if forall n: nat | n <= |es| :: Single(Run(es[..n])) {
      forall n: nat | n < |es| ensures !Tramples(Run(es[..n]), es[n]) {
        PrefixStep(es, n);
        RunIsSane(es[..n]);
        assert Single(Run(es[..n])) && Single(Run(es[..n + 1]));
        SingleStep(Run(es[..n]), es[n]);
      }
    }
  }

  /** Then, between operations, the supervisor is starting exactly while there is an
      uncommitted guard, which is the only one and of the current generation. */
  lemma StartingIffOneGuard(es: seq<Event>)
    requires NeverTrampled(es) && Resting(Run(es))
    ensures
      var s := Run(es);
      s.guards == if s.reg.status.Starting? then {s.reg.generation} else {}
  {
    NeverTrampledIsSettled(es);
  }

  /** Finishing what is pending does not bring back a status that was trampled on. */
  lemma UnwindStep(s: State, t: nat)
    requires Sane(s) && Underway(s) && !s.reg.status.Starting? && t in s.halves
    ensures Underway(Ended(s, t)) && !Ended(s, t).reg.status.Starting?
    ensures Ended(s, t).halves.Keys < s.halves.Keys
  {
    var r := Ended(s, t);
    assert forall u | u in s.halves && u != t :: u in r.halves && r.halves[u] == s.halves[u];
    if s.halves[t].Draw? { assert r.reg.generation in r.guards; }
    assert t !in r.halves && r.halves.Keys <= s.halves.Keys;
  }

  lemma Unwind(es: seq<Event>) returns (more: seq<Event>)
    requires Underway(Run(es)) && !Run(es).reg.status.Starting?
    ensures forall e | e in more :: e.Second?
    ensures Resting(Run(es + more)) && !Run(es + more).reg.status.Starting? && Run(es + more).guards != {}
    decreases Run(es).halves.Keys
  {
    var s := Run(es);
    if s.halves == map[] {
      more := [];
      assert es + [] == es;
    } else {
      var t :| t in s.halves;
      RunSnoc(es, Second(t));
      RunIsSane(es);
      UnwindStep(s, t);
      var rest := Unwind(es + [Second(t)]);
      more := [Second(t)] + rest;
      assert es + more == es + [Second(t)] + rest;
    }
  }

  /** And otherwise it does not: a run that is trampled on can come to rest with a guard
      uncommitted and the status denying it. */
  lemma TrampledRunsGoWrong(es: seq<Event>, e: Event)
    requires Tramples(Run(es), e)
    ensures exists more: seq<Event> :: (forall f | f in more :: f.Second?) && Resting(Run(es + [e] + more))
                        && !Run(es + [e] + more).reg.status.Starting? && Run(es + [e] + more).guards != {}
  {
    var s := Run(es);
    RunSnoc(es, e);
    RunIsSane(es);
    var r := Run(es + [e]);
    assert forall u | u in s.halves && u != e.thread :: u in r.halves && r.halves[u] == s.halves[u];
    var more := Unwind(es + [e]);
    assert Resting(Run(es + [e] + more));
  }

  // ---- Ready means alive ----

  /** The current client is neither reported dead nor dropped. */
  predicate Backed(s: State) { s.reg.generation in s.alive && s.reg.generation in s.held }

  /** The status is about to be taken from the current client. */
  predicate Takes(s: State, half: Half) {
    match half
    case Draw => false
    case Store(g, next) => g == s.reg.generation && !next.Ready?
    case Swap(g) => g == s.reg.generation
  }

  ghost predicate Falling(s: State) { exists t :: t in s.halves && Takes(s, s.halves[t]) }

  ghost predicate Vouched(s: State) { s.reg.status.Ready? ==> Backed(s) || Falling(s) }

  /** A generation is drawn over a ready status, or a commit stores its `Ready` after its
      generation is over, with the current client gone. */
  ghost predicate Misleads(s: State, e: Event) {
    && e.Second? && e.thread in s.halves
    && match s.halves[e.thread]
       case Draw => s.reg.status.Ready?
       case Store(g, next) => next.Ready? && g != s.reg.generation && !Backed(s) && !Falling(s)
       case Swap(_) => false
  }

  lemma FirstKeepsVouched(s: State, t: nat, op: Begin)
    requires Vouched(s) && t !in s.halves
    ensures Vouched(Begun(s, t, op))
  {
    var r := Begun(s, t, op);
    if s.reg.status.Ready? && Falling(s) {
      var u :| u in s.halves && Takes(s, s.halves[u]);
      assert u in r.halves && Takes(r, r.halves[u]);
    } else if s.reg.status.Ready? && !Backed(r) {
      assert t in r.halves && Takes(r, r.halves[t]);
    }
  }

  lemma SecondKeepsVouched(s: State, t: nat)
    requires Vouched(s) && Sane(s) && t in s.halves
    ensures Vouched(Ended(s, t)) <==> !Misleads(s, Second(t))
  {
    var r := Ended(s, t);
    assert forall u | u in r.halves :: u in s.halves && r.halves[u] == s.halves[u];
    if s.halves[t].Draw? {
      assert !Backed(r);
      forall u | u in r.halves ensures !Takes(r, r.halves[u]) { assert HalfIsSane(s, s.halves[u]); }
    } else if Falling(s) {
      var u :| u in s.halves && Takes(s, s.halves[u]);
      if u != t { assert u in r.halves && Takes(r, r.halves[u]); }
    } else {
      forall u | u in r.halves ensures !Takes(r, r.halves[u]) { assert !Takes(s, s.halves[u]); }
    }
  }

  ghost predicate NeverMisled(es: seq<Event>) {
    forall n: nat | n < |es| :: !Misleads(Run(es[..n]), es[n])
  }

  lemma VouchedStep(s: State, e: Event)
    requires Vouched(s) && Sane(s)
    ensures Vouched(Step(s, e)) <==> !Misleads(s, e)
  {
    match e
    case First(t, op) => if t !in s.halves { FirstKeepsVouched(s, t, op); }
    case Second(t) => if t in s.halves { SecondKeepsVouched(s, t); }
  }

  lemma {:induction false} NeverMisledIsVouched(es: seq<Event>)
    requires NeverMisled(es)
    ensures Vouched(Run(es))
  {
    if es != [] {
      var front := es[..|es| - 1];
      forall n: nat | n < |front| ensures !Misleads(Run(front[..n]), front[n]) { assert front[..n] == es[..n]; }
      NeverMisledIsVouched(front);
      RunIsSane(front);
      VouchedStep(Run(front), es[|es| - 1]);
    }
  }

  /** In any interleaving of single accesses, a ready status is vouched for by a live client
      of the current generation, or about to be taken back, at every moment exactly if no
      access misleads. */
  lemma VouchedIffNeverMisled(es: seq<Event>)
    ensures (forall n: nat | n <= |es| :: Vouched(Run(es[..n]))) <==> NeverMisled(es)
  {
    if NeverMisled(es) {
      forall n: nat | n <= |es| ensures Vouched(Run(es[..n])) {
        forall m: nat | m < n ensures !Misleads(Run(es[..n][..m]), es[..n][m]) { assert es[..n][..m] == es[..m]; }
        NeverMisledIsVouched(es[..n]);
      }
    }
    if forall n: nat | n <= |es| :: Vouched(Run(es[..n])) {
      forall n: nat | n < |es| ensures !Misleads(Run(es[..n]), es[n]) {
        PrefixStep(es, n);
        RunIsSane(es[..n]);
        assert Vouched(Run(es[..n])) && Vouched(Run(es[..n + 1]));
        VouchedStep(Run(es[..n]), es[n]);
      }
    }
  }

  /** Then, between operations, a ready supervisor has a client of the current generation
      that is neither reported dead nor dropped. */
  lemma ReadyMeansAlive(es: seq<Event>)
    requires NeverMisled(es) && Resting(Run(es)) && Run(es).reg.status.Ready?
    ensures Backed(Run(es))
  {
    NeverMisledIsVouched(es);
  }

  // ---- Undisturbed operations ----

  /** No other thread runs between the two accesses of an operation. */
  ghost predicate Undisturbed(es: seq<Event>) {
    forall n: nat | n < |es| :: Run(es[..n]).halves.Keys <= {es[n].thread}
  }

  ghost predicate Clients(s: State) {
    && (forall g | g in s.guards :: g !in s.clients) && s.alive <= s.clients && s.held <= s.clients
  }

  ghost predicate HalfOk(s: State, half: Half) {
    && s.guards == {}
    && match half
       case Draw => s.reg.status.Starting?
       case Store(g, next) => g == s.reg.generation && (next.Ready? ==> g !in s.clients)
       case Swap(g) => g == s.reg.generation && !s.reg.status.Starting?
  }

  ghost predicate Inv(s: State) {
    && Sane(s) && Clients(s)
    && (Resting(s) ==> s.guards == if s.reg.status.Starting? then {s.reg.generation} else {})
    && (forall t, u | t in s.halves && u in s.halves :: t == u)
    && forall t | t in s.halves :: HalfOk(s, s.halves[t])
  }

  lemma BegunKeepsInv(s: State, t: nat, op: Begin)
    requires Inv(s) && Resting(s)
    ensures Inv(Begun(s, t, op))
  {
    StepKeepsSane(s, First(t, op));
    var gen, r := s.reg.generation, Begun(s, t, op);
    assert s.reg.status.Starting? ==> gen in s.guards && s.guards - {gen} == {};
    assert op.Commit? || op.DropGuard? ==> op.g in s.guards ==> op.g == gen;
    assert t in r.halves ==> !Resting(r);
    assert t !in r.halves ==> r.guards == s.guards && r.reg == s.reg;
  }

  lemma EndedKeepsInv(s: State, t: nat)
    requires Inv(s) && t in s.halves
    ensures Inv(Ended(s, t))
  {
    StepKeepsSane(s, Second(t));
    assert s.halves - {t} == map[];
  }

  lemma StepKeepsInv(s: State, e: Event)
    requires Inv(s) && s.halves.Keys <= {e.thread}
    ensures Inv(Step(s, e)) && !Tramples(s, e) && !Misleads(s, e)
  {
    match e
    case First(t, op) =>
      if t !in s.halves {
        assert s.halves == map[];
        BegunKeepsInv(s, t, op);
      }
    case Second(t) =>
      if t in s.halves { EndedKeepsInv(s, t); }
  }

  lemma UndisturbedPrefix(es: seq<Event>, n: nat)
    requires Undisturbed(es) && n <= |es|
    ensures Undisturbed(es[..n])
  {
    forall m: nat | m < n ensures Run(es[..n][..m]).halves.Keys <= {es[..n][m].thread} {
      assert es[..n][..m] == es[..m];
    }
  }

  lemma {:induction false} UndisturbedKeepsInv(es: seq<Event>)
    requires Undisturbed(es)
    ensures Inv(Run(es))
  {
    if es != [] {
      var n := |es| - 1;
      UndisturbedPrefix(es, n);
      UndisturbedKeepsInv(es[..n]);
      StepKeepsInv(Run(es[..n]), es[n]);
    }
  }

  /** Undisturbed operations neither trample nor mislead, so everything above holds. */
  lemma UndisturbedRunsAreSound(es: seq<Event>)
    requires Undisturbed(es)
    ensures NeverTrampled(es) && NeverMisled(es)
  {
    forall n: nat | n < |es| ensures !Tramples(Run(es[..n]), es[n]) && !Misleads(Run(es[..n]), es[n]) {
      UndisturbedPrefix(es, n);
      UndisturbedKeepsInv(es[..n]);
      StepKeepsInv(Run(es[..n]), es[n]);
    }
  }

  /** Undisturbed, the two halves are the operation of `WorkerSupervisor`. */
  lemma HalvesMakeOperations(s: State, t: nat, op: Begin)
    requires Inv(s) && Resting(s)
    requires match op
             case Acquire => true
             case Commit(g) => g in s.guards
             case DropGuard(g) => g in s.guards
             case Fail(g) => g in s.clients
             case Stop(g) => g in s.held
             case DropClient(g) => g in s.held
    ensures
      var done := Step(Step(s, First(t, op)), Second(t));
      && Resting(done)
      && done.reg == match op
           case Acquire => if Startable(s.reg.status) then Register(Starting, s.reg.generation + 1) else s.reg
           case Commit(g) => StoredIfCurrent(s.reg, g, Ready)
           case DropGuard(g) => StoredIfCurrent(s.reg, g, Stopped)
           case Fail(g) => StoredIfCurrent(s.reg, g, Failed)
           case Stop(g) => StoredIfCurrent(s.reg, g, Stopped)
           case DropClient(g) => SwappedIfCurrent(s.reg, g)
  {
    var half := Step(s, First(t, op));
    assert half.halves.Keys <= {t};
    if t in half.halves { assert half.halves - {t} == map[]; }
  }

  lemma RunTwo(es: seq<Event>, a: Event, b: Event)
    ensures Run(es + [a] + [b]) == Step(Step(Run(es), a), b)
  {
    RunSnoc(es, a);
    RunSnoc(es + [a], b);
  }

  lemma FirstCommits() returns (es: seq<Event>)
    ensures Run(es) == State(Register(Ready, 1), {}, {1}, {1}, {1}, map[])
  {
    RunTwo([], First(0, Acquire), Second(0));
    es := [] + [First(0, Acquire)] + [Second(0)];
    RunTwo(es, First(0, Commit(1)), Second(0));
    es := es + [First(0, Commit(1))] + [Second(0)];
  }

  lemma FirstFails() returns (es: seq<Event>)
    ensures Run(es) == State(Register(Failed, 1), {}, {1}, {}, {1}, map[])
  {
    es := FirstCommits();
    RunTwo(es, First(0, Fail(1)), Second(0));
    es := es + [First(0, Fail(1))] + [Second(0)];
  }

  /** Without that, two starts can be under way at once: a failure report of the old client
      falls between claiming the register and drawing the generation, and unclaims it. */
  lemma SplitAcquireAdmitsTwoStarts()
    ensures exists es :: Resting(Run(es)) && Run(es).guards == {2, 3}
  {
    var es := FirstFails();
    RunTwo(es, First(1, Acquire), First(0, Fail(1)));
    es := es + [First(1, Acquire)] + [First(0, Fail(1))];
    RunTwo(es, Second(0), Second(1));
    es := es + [Second(0)] + [Second(1)];
    assert Run(es) == State(Register(Failed, 2), {2}, {1}, {}, {1}, map[]);
    RunTwo(es, First(2, Acquire), Second(2));
    es := es + [First(2, Acquire)] + [Second(2)];
    assert Run(es).guards == {2, 3} && Run(es).halves == map[];
  }

  /** Two threads report the client of generation 1 dead. One has not stored `Failed` yet
      when generation 2 begins to commit. */
  lemma LateReport() returns (es: seq<Event>)
    ensures Run(es) == State(Register(Starting, 2), {}, {1}, {}, {1},
                             map[1 := Store(1, Failed), 3 := Store(2, Ready)])
  {
    es := FirstCommits();
    RunTwo(es, First(1, Fail(1)), First(2, Fail(1)));
    es := es + [First(1, Fail(1))] + [First(2, Fail(1))];
    RunTwo(es, Second(2), First(3, Acquire));
    es := es + [Second(2)] + [First(3, Acquire)];
    assert Run(es) == State(Register(Starting, 1), {}, {1}, {}, {1}, map[1 := Store(1, Failed), 3 := Draw]);
    RunTwo(es, Second(3), First(3, Commit(2)));
    es := es + [Second(3)] + [First(3, Commit(2))];
  }

  /** A misleading access is within reach as well: the late report unclaims generation 2, a
      third start claims the register, generation 2 commits over it, and the draw of the
      third start then leaves a ready status whose generation has no client. */
  lemma LateReportMisleads()
    ensures exists es ::
              && Misleads(Run(es), Second(4))
              && var s := Run(es + [Second(4)]);
                 Resting(s) && s.reg == Register(Ready, 3) && s.guards == {3} && 3 !in s.clients
  {
    var es := LateReport();
    RunTwo(es, Second(1), First(4, Acquire));
    es := es + [Second(1)] + [First(4, Acquire)];
    assert Run(es) == State(Register(Starting, 2), {}, {1}, {}, {1}, map[3 := Store(2, Ready), 4 := Draw]);
    RunSnoc(es, Second(3));
    es := es + [Second(3)];
    assert Run(es) == State(Register(Ready, 2), {}, {1, 2}, {2}, {1, 2}, map[4 := Draw]);
    RunSnoc(es, Second(4));
    assert Misleads(Run(es), Second(4));
    assert Run(es + [Second(4)]) == State(Register(Ready, 3), {3}, {1, 2}, {2}, {1, 2}, map[]);
  }
}
