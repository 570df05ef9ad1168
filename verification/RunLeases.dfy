/** The runs that own a worker, and draining the worker of them before it is shut down. */
module RunLeases {
  import opened Wrappers

  type RunId = string

  datatype Admission = Ready | Draining

  datatype Leases = Leases(admission: Admission, owned: set<RunId>)

  /** `true` for a first lease, `false` for one the run has already. */
  function AcquireAnswer(l: Leases, run: RunId): Result<bool, RunId> {
    if run in l.owned then Ok(false) else if l.admission.Draining? then Err(run) else Ok(true)
  }

  function Acquired(l: Leases, run: RunId): Leases {
    if AcquireAnswer(l, run) == Ok(true) then l.(owned := l.owned + {run}) else l
  }

  function Released(l: Leases, run: RunId): Leases { l.(owned := l.owned - {run}) }

  /** What is left of `owned` after others released the runs of each turn. */
  function Left(owned: set<RunId>, turns: seq<set<RunId>>): set<RunId> {
    if turns == [] then owned else Left(owned - turns[0], turns[1..])
  }

  lemma {:induction false} LeftShrinks(owned: set<RunId>, turns: seq<set<RunId>>)
    ensures Left(owned, turns) <= owned
  {
    if turns != [] { LeftShrinks(owned - turns[0], turns[1..]); }
  }

  class WorkerRunLeases {
    var admission: Admission
    var owned: set<RunId>

    ghost function Now(): Leases
      reads this
    {
      Leases(admission, owned)
    }

    constructor ()
      ensures Now() == Leases(Ready, {})
    {
      admission, owned := Ready, {};
    }

    method Acquire(run: RunId) returns (r: Result<bool, RunId>)
      modifies this`owned
      ensures r == AcquireAnswer(old(Now()), run) && Now() == Acquired(old(Now()), run)
    {
      if run in owned {
        return Ok(false);
      }
      if admission == Draining {
        return Err(run);
      }
      owned := owned + {run};
      return Ok(true);
    }

    /** Whoever releases an owned run then notifies the waiters. */
    method Release(run: RunId) returns (released: bool)
      modifies this`owned
      ensures released == (run in old(owned)) && Now() == Released(old(Now()), run)
    {
      released := run in owned;
      owned := owned - {run};
    }

    method BeginDraining()
      modifies this`admission
      ensures Now() == old(Now()).(admission := Draining)
    {
      admission := Draining;
    }

    method RestoreReady()
      modifies this`admission
      ensures Now() == old(Now()).(admission := Ready)
    {
      admission := Ready;
    }

    /** Waiting for a drained worker: `turns` holds what others release before each wake-up,
        `late` what they still release after the last of them, before the deadline passes and
        the count is taken once more. */
    method WaitUntilEmpty(turns: seq<set<RunId>>, late: set<RunId>) returns (empty: bool)
      modifies this`owned
      ensures empty <==> Left(old(owned), turns + [late]) == {}
      ensures empty ==> owned == {}
      ensures !empty ==> owned == Left(old(owned), turns + [late])
    {
      var all := turns + [late];
      var turn := 0;
      while true
        invariant 0 <= turn <= |turns|
        invariant Left(old(owned), all) == Left(owned, all[turn..])
        decreases |turns| - turn
      {
        if owned == {} {
          LeftShrinks(owned, all[turn..]);
          return true;
        }
        assert all[turn..][0] == all[turn] && all[turn..][1..] == all[turn + 1..];
        if turn == |turns| {
          owned := owned - late;
          assert all[turn + 1..] == [];
          return owned == {};
        }
        owned := owned - turns[turn];
        turn := turn + 1;
      }
    }
  }

  // ---- Acquisitions, releases and drains, step by step ----

  /** A waiter is armed before it looks at the count; `woken` once a notification came. */
  datatype Drain =
    | Idle
    | Begun
    | Arming
    | Armed(woken: bool)
    | Waiting(woken: bool)
    | TimedOut
    | Refused
    | Emptied
    | ShutDown

  /** `notifying`: the releasers that have removed a run and not notified yet. */
  datatype State = State(leases: Leases, notifying: set<nat>, drains: map<nat, Drain>)

  /** A drain is also given up, before any wait, if a run it still finds owned cannot be
      cancelled. */
  datatype Event =
    | Acquire(run: RunId)
    | Remove(releaser: nat, run: RunId)
    | Notify(releaser: nat)
    | Advance(drainer: nat)
    | TimeOut(drainer: nat)
    | GiveUp(drainer: nat)

  const START := State(Leases(Ready, {}), {}, map[])

  function DrainOf(s: State, d: nat): Drain { if d in s.drains then s.drains[d] else Idle }

  function Woken(d: Drain): Drain {
    match d
    case Armed(_) => Armed(true)
    case Waiting(_) => Waiting(true)
    case _ => d
  }

  /** The drainer's next access. A finished drain may be followed by another. */
  function NextDrain(d: Drain, l: Leases): Drain {
    match d
    case Idle => Begun
    case Begun => Arming
    case Arming => Armed(false)
    case Armed(woken) => if l.owned == {} then Emptied else Waiting(woken)
    case Waiting(woken) => if woken then Arming else d
    case TimedOut => if l.owned == {} then Emptied else Refused
    case Refused => Idle
    case Emptied => ShutDown
    case ShutDown => Begun
  }

  function Admitted(d: Drain, l: Leases): Leases {
    match d
    case Idle => l.(admission := Draining)
    case ShutDown => l.(admission := Draining)
    case Refused => l.(admission := Ready)
    case _ => l
  }

  function Step(s: State, e: Event): State {
    match e
    case Acquire(run) => s.(leases := Acquired(s.leases, run))
    case Remove(p, run) =>
      if p in s.notifying || run !in s.leases.owned then s
      else s.(leases := Released(s.leases, run), notifying := s.notifying + {p})
    case Notify(p) =>
      if p in s.notifying
      then s.(notifying := s.notifying - {p}, drains := map d | d in s.drains :: Woken(s.drains[d]))
      else s
    case Advance(d) =>
      var drain := DrainOf(s, d);
      s.(leases := Admitted(drain, s.leases), drains := s.drains[d := NextDrain(drain, s.leases)])
    case TimeOut(d) =>
      if DrainOf(s, d).Waiting? then s.(drains := s.drains[d := TimedOut]) else s
    case GiveUp(d) =>
      if DrainOf(s, d).Begun? && s.leases.owned != {} then s.(drains := s.drains[d := Refused]) else s
  }

  function Run(es: seq<Event>): State {
    if es == [] then START else Step(Run(es[..|es| - 1]), es[|es| - 1])
  }

  lemma RunSnoc(es: seq<Event>, e: Event)
    ensures Run(es + [e]) == Step(Run(es), e)
  {
    assert (es + [e])[..|es|] == es;
  }

  // ---- Waiting ----

  ghost predicate NoneMissed(s: State) {
    forall d | d in s.drains && s.drains[d] == Waiting(false) :: s.leases.owned != {} || s.notifying != {}
  }

  lemma {:induction false} RunMissesNone(es: seq<Event>)
    ensures NoneMissed(Run(es))
  {
    if es != [] {
      RunMissesNone(es[..|es| - 1]);
    }
  }

  /** A drainer asleep on its notification is woken by a release already on its way, or the
      worker still owns a run: no release is missed, however many drainers there are. */
  lemma NoReleaseIsMissed(es: seq<Event>, d: nat)
    requires DrainOf(Run(es), d) == Waiting(false)
    ensures Run(es).leases.owned != {} || Run(es).notifying != {}
  {
    RunMissesNone(es);
  }

  // ---- Admission ----

  /** No drain has begun, or one has been given up and none begun since. */
  ghost predicate GivenUp(es: seq<Event>) {
    es == [] ||
    var front, e := es[..|es| - 1], es[|es| - 1];
    if e.Advance? && (DrainOf(Run(front), e.drainer).Idle? || DrainOf(Run(front), e.drainer).ShutDown?) then false
    else if e.Advance? && DrainOf(Run(front), e.drainer).Refused? then true
    else GivenUp(front)
  }

  lemma {:induction false} ReadyIffGivenUp(es: seq<Event>)
    ensures Run(es).leases.admission.Ready? <==> GivenUp(es)
  {
    if es != [] { ReadyIffGivenUp(es[..|es| - 1]); }
  }

  /** No drain is given up in `more`. */
  ghost predicate NothingRestored(es: seq<Event>, more: seq<Event>) {
    forall n: nat | n < |more| :: more[n].Advance? ==> !DrainOf(Run(es + more[..n]), more[n].drainer).Refused?
  }

  /** From the begin of a drain until a drain is given up, the owned runs only get fewer. */
  lemma {:induction false} OwnedOnlyShrinks(es: seq<Event>, more: seq<Event>)
    requires Run(es).leases.admission.Draining? && NothingRestored(es, more)
    ensures Run(es + more).leases.admission.Draining?
    ensures Run(es + more).leases.owned <= Run(es).leases.owned
  {
    if more == [] {
      assert es + more == es;
    } else {
      var init := more[..|more| - 1];
      assert (es + more)[..|es + more| - 1] == es + init;
      forall n: nat | n < |init| && init[n].Advance?
        ensures !DrainOf(Run(es + init[..n]), init[n].drainer).Refused?
      {
        assert init[..n] == more[..n];
      }
      OwnedOnlyShrinks(es, init);
      assert more[|more| - 1].Advance? ==> !DrainOf(Run(es + more[..|more| - 1]), more[|more| - 1].drainer).Refused?;
    }
  }

  /** An empty draining worker never owns a run again, whatever acquisitions and drains come,
      until a drain is given up. */
  lemma EmptyStaysEmpty(es: seq<Event>, more: seq<Event>)
    requires Run(es).leases == Leases(Draining, {}) && NothingRestored(es, more)
    ensures Run(es + more).leases == Leases(Draining, {})
  {
    OwnedOnlyShrinks(es, more);
  }

  // ---- Shutting down ----

  /** The drainer has seen the worker empty: it is about to shut it down, or has. */
  predicate Done(s: State, d: nat) { DrainOf(s, d).Emptied? || DrainOf(s, d).ShutDown? }

  /** Since the drainer saw the worker empty, there was a moment at which runs were admitted. */
  ghost predicate Readmitted(es: seq<Event>, d: nat) {
    Done(Run(es), d) && (Run(es).leases.admission.Ready? || (es != [] && Readmitted(es[..|es| - 1], d)))
  }

  /** Any number of drainers: a worker that a drainer shuts down owns no run, and admits
      none, unless runs were admitted again since the drainer saw it empty. */
  lemma {:induction false} ShutDownOnlyWhenEmpty(es: seq<Event>, d: nat)
    requires Done(Run(es), d) && !Readmitted(es, d)
    ensures Run(es).leases == Leases(Draining, {})
  {
    if es != [] && Done(Run(es[..|es| - 1]), d) {
      ShutDownOnlyWhenEmpty(es[..|es| - 1], d);
    }
  }

  ghost predicate DoneFrom(es: seq<Event>, d: nat, n: nat) {
    forall m: nat | n <= m <= |es| :: Done(Run(es[..m]), d)
  }

  /** The same run, with `r` asking for the worker at moment `n`. */
  function Inserted(es: seq<Event>, n: nat, r: RunId): seq<Event>
    requires n <= |es|
  {
    es[..n] + [Acquire(r)] + es[n..]
  }

  /** A run that asks at moment `n`, after the drainer saw the worker empty, gets it and owns
      it when the drainer is as far as in `es`. */
  ghost predicate BusyWith(es: seq<Event>, d: nat, n: nat, r: RunId) {
    && n <= |es| && DoneFrom(es, d, n)
    && DrainOf(Run(Inserted(es, n, r)), d) == DrainOf(Run(es), d)
    && r in Run(Inserted(es, n, r)).leases.owned
  }

  lemma {:induction false} ReadyMoment(es: seq<Event>, d: nat) returns (n: nat)
    requires Readmitted(es, d)
    ensures n <= |es| && DoneFrom(es, d, n) && Run(es[..n]).leases.admission.Ready?
  {
    if Run(es).leases.admission.Ready? {
      n := |es|;
      assert es[..n] == es;
    } else {
      var front := es[..|es| - 1];
      n := ReadyMoment(front, d);
      forall m: nat | n <= m <= |es| ensures Done(Run(es[..m]), d) {
        if m < |es| { assert es[..m] == front[..m]; } else { assert es[..m] == es; }
      }
      assert es[..n] == front[..n];
    }
  }

  /** Some run that is not released. */
  lemma {:induction false} NewRun(es: seq<Event>) returns (r: RunId)
    ensures forall e | e in es && e.Remove? :: |e.run| < |r|
  {
    r := "r";
    if es != [] {
      var last := es[|es| - 1];
      r := NewRun(es[..|es| - 1]);
      if last.Remove? && |last.run| >= |r| { r := last.run + "r"; }
      assert forall e | e in es :: e in es[..|es| - 1] || e == last;
    }
  }

  lemma RunLast(pre: seq<Event>, rest: seq<Event>)
    requires rest != []
    ensures Run(pre + rest) == Step(Run(pre + rest[..|rest| - 1]), rest[|rest| - 1])
  {
    assert (pre + rest)[..|pre + rest| - 1] == pre + rest[..|rest| - 1];
  }

  lemma {:induction false} AcquisitionSticks(pre: seq<Event>, rest: seq<Event>, d: nat, r: RunId)
    requires Run(pre).leases.admission.Ready? && forall e | e in rest && e.Remove? :: e.run != r
    requires forall m: nat | m <= |rest| :: Done(Run(pre + rest[..m]), d)
    ensures DrainOf(Run(pre + [Acquire(r)] + rest), d) == DrainOf(Run(pre + rest), d)
    ensures r in Run(pre + [Acquire(r)] + rest).leases.owned
  {
    if rest == [] {
      RunSnoc(pre, Acquire(r));
      assert pre + [Acquire(r)] + rest == pre + [Acquire(r)] && pre + rest == pre;
    } else {
      var init, last := rest[..|rest| - 1], rest[|rest| - 1];
      forall m: nat | m <= |init| ensures Done(Run(pre + init[..m]), d) { assert init[..m] == rest[..m]; }
      AcquisitionSticks(pre, init, d, r);
      RunLast(pre, rest);
      RunLast(pre + [Acquire(r)], rest);
      assert init[..|init|] == init && rest[..|rest|] == rest;
      StillDone(Run(pre + init), Run(pre + [Acquire(r)] + init), last, d);
      assert last in rest;
    }
  }

  /** How far a drainer is after it saw the worker empty does not depend on the leases. */
  lemma StillDone(s: State, u: State, e: Event, d: nat)
    requires Done(s, d) && Done(Step(s, e), d) && DrainOf(u, d) == DrainOf(s, d)
    ensures DrainOf(Step(u, e), d) == DrainOf(Step(s, e), d)
    ensures forall r | r in u.leases.owned && (e.Remove? ==> e.run != r) :: r in Step(u, e).leases.owned
  { }

  lemma {:induction false} SameFromHere(a: seq<Event>, b: seq<Event>, more: seq<Event>)
    requires Run(a) == Run(b)
    ensures Run(a + more) == Run(b + more)
  {
    if more == [] {
      assert a + more == a && b + more == b;
    } else {
      var init, last := more[..|more| - 1], more[|more| - 1];
      SameFromHere(a, b, init);
      assert a + more == a + init + [last] && b + more == b + init + [last];
      RunSnoc(a + init, last);
      RunSnoc(b + init, last);
    }
  }

  lemma {:induction false} NotReadmittedBefore(es: seq<Event>, d: nat, n: nat)
    requires n <= |es| && DoneFrom(es, d, n) && !Readmitted(es, d)
    ensures !Readmitted(es[..n], d)
    decreases |es|
  {
    assert es[..|es|] == es;
    if n < |es| {
      var front := es[..|es| - 1];
      forall m: nat | n <= m <= |front| ensures Done(Run(front[..m]), d) { assert front[..m] == es[..m]; }
      assert Done(Run(es[..|es|]), d);
      NotReadmittedBefore(front, d, n);
      assert front[..n] == es[..n];
    }
  }

  lemma ReadmittedIsBusy(es: seq<Event>, d: nat) returns (n: nat, r: RunId)
    requires Readmitted(es, d)
    ensures BusyWith(es, d, n, r)
  {
    n := ReadyMoment(es, d);
    var rest := es[n..];
    r := NewRun(rest);
    assert es[..n] + rest == es;
    forall m: nat | m <= |rest| ensures Done(Run(es[..n] + rest[..m]), d) { assert es[..n] + rest[..m] == es[..n + m]; }
    AcquisitionSticks(es[..n], rest, d, r);
  }

  lemma NotReadmittedIsIdle(es: seq<Event>, d: nat, n: nat, r: RunId)
    requires Done(Run(es), d) && !Readmitted(es, d)
    ensures !BusyWith(es, d, n, r)
  {
    ShutDownOnlyWhenEmpty(es, d);
    if n <= |es| && DoneFrom(es, d, n) {
      assert Done(Run(es[..n]), d);
      NotReadmittedBefore(es, d, n);
      ShutDownOnlyWhenEmpty(es[..n], d);
      RunSnoc(es[..n], Acquire(r));
      SameFromHere(es[..n] + [Acquire(r)], es[..n], es[n..]);
      assert es[..n] + es[n..] == es;
    }
  }

  /** Exactly then can the worker be busy when it is shut down: some run that asks for it
      after the drainer saw it empty owns it at the end. */
  lemma BusyShutDownIffReadmitted(es: seq<Event>, d: nat)
    requires Done(Run(es), d)
    ensures Readmitted(es, d) <==> exists n: nat, r: RunId :: BusyWith(es, d, n, r)
  {
    if Readmitted(es, d) {
      var n, r := ReadmittedIsBusy(es, d);
    } else {
      forall n: nat, r: RunId ensures !BusyWith(es, d, n, r) { NotReadmittedIsIdle(es, d, n, r); }
    }
  }

  /** At once, and for every run: as long as runs are admitted again before the shutdown, the
      next to ask is shut down with the worker. */
  lemma NextRunIsShutDown(es: seq<Event>, d: nat, r: RunId)
    requires DrainOf(Run(es), d).Emptied? && Run(es).leases.admission.Ready?
    ensures
      var s := Run(es + [Acquire(r), Advance(d)]);
      DrainOf(s, d).ShutDown? && r in s.leases.owned
  {
    RunSnoc(es, Acquire(r));
    RunSnoc(es + [Acquire(r)], Advance(d));
    assert es + [Acquire(r)] + [Advance(d)] == es + [Acquire(r), Advance(d)];
  }

  // ---- One drainer ----

  /** All drains are made by `d`, one after the other. */
  ghost predicate OneDrainer(es: seq<Event>, d: nat) {
    forall e | e in es && (e.Advance? || e.TimeOut? || e.GiveUp?) :: e.drainer == d
  }

  ghost predicate Inv(s: State, d: nat) {
    && s.drains.Keys <= {d}
    && (s.leases.admission.Ready? <==> DrainOf(s, d).Idle?)
  }

  lemma {:induction false} OneDrainerInv(es: seq<Event>, d: nat)
    requires OneDrainer(es, d)
    ensures Inv(Run(es), d)
  {
    if es != [] {
      assert es[|es| - 1] in es;
      OneDrainerInv(es[..|es| - 1], d);
    }
  }

  /** A single drainer is never undercut. */
  lemma {:induction false} OneDrainerIsNotReadmitted(es: seq<Event>, d: nat)
    requires OneDrainer(es, d)
    ensures !Readmitted(es, d)
  {
    OneDrainerInv(es, d);
    if es != [] { OneDrainerIsNotReadmitted(es[..|es| - 1], d); }
  }

  /** So once it has shut the worker down, the worker never owns a run again, whatever
      acquisitions and further drains come. */
  lemma {:induction false} ShutDownIsFinal(es: seq<Event>, more: seq<Event>, d: nat)
    requires OneDrainer(es + more, d) && DrainOf(Run(es), d).ShutDown?
    ensures Run(es + more).leases == Leases(Draining, {}) && !DrainOf(Run(es + more), d).Idle?
    ensures !DrainOf(Run(es + more), d).Refused?
  {
    if more == [] {
      assert es + more == es;
      OneDrainerInv(es, d);
      OneDrainerIsNotReadmitted(es, d);
      ShutDownOnlyWhenEmpty(es, d);
    } else {
      var init := more[..|more| - 1];
      assert (es + more)[..|es + more| - 1] == es + init;
      ShutDownIsFinal(es, init, d);
      OneDrainerInv(es + init, d);
      assert more[|more| - 1] in es + more;
    }
  }

  // ---- Two drainers ----

  lemma OneGivesUp() returns (es: seq<Event>)
    ensures Run(es) == State(Leases(Draining, {"a"}), {}, map[1 := Refused])
  {
    var es1: seq<Event> := [] + [Acquire("a")];
    var es2 := es1 + [Advance(1)];
    es := es2 + [GiveUp(1)];
    RunSnoc([], Acquire("a"));
    RunSnoc(es1, Advance(1));
    assert "a" in Run(es2).leases.owned;
    RunSnoc(es2, GiveUp(1));
  }

  lemma OtherSeesNobody() returns (es: seq<Event>)
    ensures Run(es) == State(Leases(Draining, {}), {0}, map[1 := Refused, 0 := Emptied])
  {
    var es3 := OneGivesUp();
    var es4 := es3 + [Remove(0, "a")];
    var es5 := es4 + [Advance(0)];
    var es6 := es5 + [Advance(0)];
    var es7 := es6 + [Advance(0)];
    es := es7 + [Advance(0)];
    RunSnoc(es3, Remove(0, "a"));
    assert Run(es4) == State(Leases(Draining, {}), {0}, map[1 := Refused]);
    RunSnoc(es4, Advance(0));
    RunSnoc(es5, Advance(0));
    RunSnoc(es6, Advance(0));
    RunSnoc(es7, Advance(0));
  }

  /** With two drainers a worker can be shut down while it owns a run: the one that gives up
      admits runs again after the other has seen the worker empty. */
  lemma TwoDrainersShutDownABusyWorker(r: RunId)
    ensures exists es :: DrainOf(Run(es), 0).ShutDown? && r in Run(es).leases.owned
  {
    var es := OtherSeesNobody();
    RunSnoc(es, Advance(1));
    NextRunIsShutDown(es + [Advance(1)], 0, r);
  }
}
