/** The run service's operations, each from beginning to end: claims, failed claims, reads,
    resumes and shutdown update the registry, the documents and the disk in place. Left
    undisturbed, the atomic sections that RunRegistry interleaves amount to the same. */
module RunService {
  import opened Wrappers
  import opened RunRegistry

  // ---- What an undisturbed operation does ----

  /** `begin_task`: what is claimed, and the reply. */
  function Begun(s: State, r: RunId, read: Doc, writes: bool): (State, Reply) {
    if s.shuttingDown then (s, Err(ShuttingDown))
    else if r in s.active then (s, Err(AlreadyActive))
    else if writes then
      var doc := read.To(Running);
      (s.(claims := s.claims + [Claim(r, doc, Gated, true, false, false)],
          active := s.active[r := |s.claims|], disk := s.disk[r := doc]), Ok(Running))
    else
      (s.(claims := s.claims + [Claim(r, read.To(Running).To(Failed), Gated, false, true, true)]), Err(Io))
  }

  /** `fail_claim` */
  ghost function TakenBack(s: State, r: RunId, c: ClaimId): State
    requires RegistryOk(s) && c < |s.claims|
  {
    var claim := s.claims[c];
    var marked := s.claims[c := if claim.doc.state.IsActive() then claim.(doc := claim.doc.To(Failed)) else claim];
    if r in s.active then
      var d := s.active[r];
      s.(active := s.active - {r}, claims := marked[d := marked[d].(aborted := true, notified := true)])
    else s.(claims := marked)
  }

  /** `get_run` */
  function Got(s: State, r: RunId, writes: bool): (State, Reply) {
    if r in s.active then (s, Ok(Seen(s, r)))
    else if r !in s.disk then (s, Err(UnknownRun))
    else if !s.disk[r].state.IsActive() then (s, Ok(s.disk[r].state))
    else if writes then (s.(disk := s.disk[r := s.disk[r].To(Interrupted)]), Ok(Interrupted))
    else (s, Err(Io))
  }

  /** `resume`, with a write for the normalization and one for the claim. */
  function Resumed(s: State, r: RunId, normalizes: bool, writes: bool): (State, Reply) {
    var (read, reply) := Got(s, r, normalizes);
    if reply.Err? then (read, reply)
    else if !reply.value.Interrupted? then (read, Err(NotInterrupted))
    else if r in read.active then (read, Err(AlreadyActive))
    else if r in read.disk then Begun(read, r, read.disk[r], writes)
    else (read, Err(UnknownRun))
  }

  // ---- The service ----

  class Service {
    var shuttingDown: bool
    var drained: bool
    var active: map<RunId, ClaimId>
    var disk: map<RunId, Doc>
    var claims: seq<Claim>        // the documents in memory and the tasks
    var woken: set<ClaimId>       // claims whose waiters have been notified

    ghost function Now(): State
      reads this
    {
      State(shuttingDown, drained, None, active, map[], disk, claims, map[])
    }

    ghost predicate Valid()
      reads this
    {
      RegistryOk(Now())
    }

    constructor (onDisk: map<RunId, Doc>)
      ensures Valid() && Now() == Fresh(onDisk) && fresh(this)
    {
      shuttingDown, drained, active, disk, claims, woken := false, false, map[], onDisk, [], {};
    }

    /** Claim a run from the document `read`; `writes` says whether the durable write
        succeeds. */
    method BeginTask(r: RunId, read: Doc, writes: bool) returns (reply: Reply)
      requires Valid()
      modifies this
      ensures Valid() && (Now(), reply) == Begun(old(Now()), r, read, writes)
      ensures reply.Ok? <==> !old(shuttingDown) && r !in old(active) && writes
      ensures reply.Ok? ==> r in active && claims[active[r]].go && Get(disk, r) == Some(claims[active[r]].doc)
      ensures reply.Err? ==> active == old(active) && disk == old(disk)
    {
      if shuttingDown {
        return Err(ShuttingDown);
      }
      if r in active {
        return Err(AlreadyActive);
      }
      var c := |claims|;
      claims := claims + [Claim(r, read.To(Running), Gated, false, false, false)];
      active := active[r := c];
      if !writes {
        FailClaim(r, c);
        assert active == old(active);
        assert claims == old(claims) + [Claim(r, read.To(Running).To(Failed), Gated, false, true, true)];
        return Err(Io);
      }
      disk := disk[r := claims[c].doc];
      reply := Ok(claims[c].doc.state);
      claims := claims[c := claims[c].(go := true)];
      assert claims == old(claims) + [Claim(r, read.To(Running), Gated, true, false, false)];
    }

    /** Undo claim `c`, whose `running` document could not be written. A shutdown may have
        drained its entry. */
    method FailClaim(r: RunId, c: ClaimId)
      requires Valid() && c < |claims|
      modifies this`claims, this`active, this`woken
      ensures Valid() && Now() == TakenBack(old(Now()), r, c)
      ensures r !in active && !claims[c].doc.state.IsActive()
      ensures woken == old(woken) + if r in old(active) then {old(active)[r]} else {}
    {
      if claims[c].doc.state.IsActive() {
        claims := claims[c := claims[c].(doc := claims[c].doc.To(Failed))];
      }
      if r in active {
        var removed := active[r];
        active := active - {r};
        claims := claims[removed := claims[removed].(aborted := true, notified := true)];
        woken := woken + {removed};
      } else {
        assert active - {r} == active;
      }
    }

    /** Read a run; a document left `queued` or `running` without a registered claim is
        rewritten as `interrupted`. */
    method GetRun(r: RunId, writes: bool) returns (doc: Result<Doc, Error>)
      requires Valid()
      modifies this`disk
      ensures Valid() && (Now(), StateOf(doc)) == Got(old(Now()), r, writes)
      ensures doc.Ok? ==> doc.value == if r in active then claims[active[r]].doc else disk[r]
    {
      if r in active {
        return Ok(claims[active[r]].doc);
      }
      if r !in disk {
        return Err(UnknownRun);
      }
      var run := disk[r];
      if !run.state.IsActive() {
        return Ok(run);
      }
      if !writes {
        return Err(Io);
      }
      run := run.To(Interrupted);
      disk := disk[r := run];
      doc := Ok(run);
    }

    /** Resume an interrupted run. It succeeds exactly when the service is not shutting down,
        the run is not registered, its document is, or now becomes, interrupted, and the
        writes succeed. */
    method ResumeRun(r: RunId, normalizes: bool, writes: bool) returns (reply: Reply)
      requires Valid()
      modifies this
      ensures Valid() && (Now(), reply) == Resumed(old(Now()), r, normalizes, writes)
      ensures reply.Ok? <==>
                && !old(shuttingDown) && r !in old(active) && writes && r in old(disk)
                && ((old(disk)[r].state.IsActive() && normalizes) || old(disk)[r].state.Interrupted?)
      ensures reply.Ok? ==> reply == Ok(Running) && r in active && active[r] == |old(claims)|
      ensures reply.Err? ==> active == old(active)
      ensures forall q | q != r :: Get(active, q) == Get(old(active), q) && Get(disk, q) == Get(old(disk), q)
    {
      var got := GetRun(r, normalizes);
      if got.Err? {
        return Err(got.error);
      }
      if !got.value.state.Interrupted? {
        return Err(NotInterrupted);
      }
      if r in active {
        return Err(AlreadyActive);
      }
      reply := BeginTask(r, disk[r], writes);
    }

    /** Raise the flag, then empty the registry, aborting every task and waking its waiters. */
    method Shutdown()
      requires Valid()
      modifies this
      ensures Valid() && Now() == Drain(old(Now()).(shuttingDown := true))
      ensures active == map[] && woken == old(woken) + old(active).Values
    {
      shuttingDown := true;
      drained := true;
      var entries := active;
      active := map[];
      AbortAll(entries);
    }

    /** Abort every entry's task and wake its waiters. */
    method AbortAll(entries: map<RunId, ClaimId>)
      requires forall r | r in entries :: entries[r] < |claims|
      modifies this`claims, this`woken
      ensures claims == Aborted(old(claims), entries.Values)
      ensures woken == old(woken) + entries.Values
    {
      var rest := entries;
      ghost var done: set<ClaimId> := {};
      assert claims == Aborted(claims, {});
      while rest != map[]
        invariant forall r | r in rest :: r in entries && rest[r] == entries[r]
        invariant done + rest.Values == entries.Values
        invariant claims == Aborted(old(claims), done) && woken == old(woken) + done
        decreases rest.Keys
      {
        var r :| r in rest;
        ValuesWithout(rest, r);
        AbortedOne(old(claims), done, rest[r]);
        claims := claims[rest[r] := claims[rest[r]].(aborted := true)];
        woken := woken + {rest[r]};
        done := done + {rest[r]};
        rest := rest - {r};
      }
    }
  }

  function StateOf(doc: Result<Doc, Error>): Reply {
    match doc case Ok(run) => Ok(run.state) case Err(e) => Err(e)
  }

  function Aborted(claims: seq<Claim>, ids: set<ClaimId>): seq<Claim> {
    seq(|claims|, i requires 0 <= i < |claims| => if i in ids then claims[i].(aborted := true) else claims[i])
  }

  lemma AbortedOne(claims: seq<Claim>, done: set<ClaimId>, c: ClaimId)
    requires c < |claims|
    ensures
      var before := Aborted(claims, done);
      before[c := before[c].(aborted := true)] == Aborted(claims, done + {c})
  { }

  lemma ValuesWithout<K, V>(m: map<K, V>, k: K)
    requires k in m
    ensures m.Values == (m - {k}).Values + {m[k]}
  {
    var rest := m - {k};
    forall v | v in m.Values ensures v in rest.Values + {m[k]} {
      var q :| q in m && m[q] == v;
      assert q != k ==> rest[q] == v;
    }
  }

  // ---- The same, section by section ----

  /** The caller's sections one after the other, each with the outcome of its write. */
  function Onward(s: State, t: Caller, oks: seq<bool>): State {
    if oks == [] then s else Step(Onward(s, t, oks[..|oks| - 1]), Advance(t, oks[|oks| - 1]))
  }

  /** The caller gets from `s` to `d` undisturbed. */
  ghost predicate Reaches(s: State, t: Caller, d: State) { exists oks :: Onward(s, t, oks) == d }

  /** One section, from caller `t` at `x` in the shared state `q`. */
  lemma Section(q: State, t: Caller, x: Pc, ok: bool, d: State)
    requires Step(q.At(t, x), Advance(t, ok)) == d
    ensures Reaches(q.At(t, x), t, d)
  {
    assert [ok][..0] == [];
    assert Onward(q.At(t, x), t, [ok]) == d;
  }

  lemma AtTwice(q: State, t: Caller, x: Pc, y: Pc)
    ensures q.At(t, x).At(t, y) == q.At(t, y)
  { }

  /** A section that only looks. */
  lemma Look(q: State, t: Caller, x: Pc)
    requires x.Reading()
    ensures Reaches(q.At(t, x), t, q.At(t, ReadNext(q.At(t, x), x)))
  {
    AtTwice(q, t, x, ReadNext(q.At(t, x), x));
    Section(q, t, x, true, q.At(t, ReadNext(q.At(t, x), x)));
  }

  lemma ReachFrom(s: State, t: Caller, d: State, e: State)
    requires Reaches(s, t, d) && Reaches(d, t, e)
    ensures Reaches(s, t, e)
  {
    var a :| Onward(s, t, a) == d;
    var b :| Onward(d, t, b) == e;
    OnwardConcat(s, t, a, b);
  }

  lemma {:induction false} OnwardConcat(s: State, t: Caller, a: seq<bool>, b: seq<bool>)
    ensures Onward(s, t, a + b) == Onward(Onward(s, t, a), t, b)
  {
    if b == [] {
      assert a + b == a;
    } else {
      assert (a + b)[..|a + b| - 1] == a + b[..|b| - 1];
      OnwardConcat(s, t, a, b[..|b| - 1]);
    }
  }

  function Claimed(s: State, r: RunId, read: Doc): State {
    s.(claims := s.claims + [Claim(r, read.To(Running), Gated, false, false, false)])
  }

  lemma Spawned(q: State, t: Caller, r: RunId, read: Doc)
    requires q.writer == None && r !in q.active
    ensures Reaches(q.At(t, BeginActive(r, read)), t, Claimed(q, r, read).At(t, BeginRegister(r, |q.claims|)))
  {
    AtTwice(Claimed(q, r, read), t, BeginActive(r, read), BeginRegister(r, |q.claims|));
    Section(q, t, BeginActive(r, read), true, Claimed(q, r, read).At(t, BeginRegister(r, |q.claims|)));
  }

  lemma Refused(q: State, t: Caller, r: RunId, read: Doc)
    requires q.writer == None && r in q.active
    ensures Reaches(q.At(t, BeginActive(r, read)), t, q.At(t, Leave(r, Err(AlreadyActive), false)))
  {
    AtTwice(q, t, BeginActive(r, read), Leave(r, Err(AlreadyActive), false));
    Section(q, t, BeginActive(r, read), true, q.At(t, Leave(r, Err(AlreadyActive), false)));
  }

  lemma RegistryLocked(q: State, t: Caller, r: RunId, c: ClaimId)
    requires q.writer == None && !q.shuttingDown && c < |q.claims|
    ensures Reaches(q.At(t, BeginRegister(r, c)), t, q.(writer := Some(t)).At(t, BeginInsert(r, c)))
  {
    AtTwice(q.(writer := Some(t)), t, BeginRegister(r, c), BeginInsert(r, c));
    Section(q, t, BeginRegister(r, c), true, q.(writer := Some(t)).At(t, BeginInsert(r, c)));
  }

  lemma Inserted(q: State, t: Caller, r: RunId, c: ClaimId)
    requires q.writer == None && r !in q.active && c < |q.claims|
    ensures Reaches(q.(writer := Some(t)).At(t, BeginInsert(r, c)), t, q.(active := q.active[r := c]).At(t, BeginPersist(r, c)))
  {
    AtTwice(q.(active := q.active[r := c]), t, BeginInsert(r, c), BeginPersist(r, c));
    Section(q.(writer := Some(t)), t, BeginInsert(r, c), true, q.(active := q.active[r := c]).At(t, BeginPersist(r, c)));
  }

  lemma Persisted(q: State, t: Caller, r: RunId, c: ClaimId, ok: bool)
    requires c < |q.claims|
    ensures Reaches(q.At(t, BeginPersist(r, c)), t,
                    q.WithDisk(r, q.claims[c].doc, ok).At(t, if ok then BeginLetGo(r, c) else FailMark(r, c)))
  {
    var next := if ok then BeginLetGo(r, c) else FailMark(r, c);
    AtTwice(q.WithDisk(r, q.claims[c].doc, ok), t, BeginPersist(r, c), next);
    Section(q, t, BeginPersist(r, c), ok, q.WithDisk(r, q.claims[c].doc, ok).At(t, next));
  }

  lemma LetGo(q: State, t: Caller, r: RunId, c: ClaimId)
    requires c < |q.claims|
    ensures Reaches(q.At(t, BeginLetGo(r, c)), t,
                    q.AtClaim(c, q.claims[c].(go := true)).At(t, Leave(r, Ok(q.claims[c].doc.state), false)))
  {
    var next := Leave(r, Ok(q.claims[c].doc.state), false);
    AtTwice(q.AtClaim(c, q.claims[c].(go := true)), t, BeginLetGo(r, c), next);
    Section(q, t, BeginLetGo(r, c), true, q.AtClaim(c, q.claims[c].(go := true)).At(t, next));
  }

  lemma FailedMarked(q: State, t: Caller, r: RunId, c: ClaimId)
    requires c < |q.claims| && q.claims[c].doc.state.IsActive()
    ensures Reaches(q.At(t, FailMark(r, c)), t,
                    q.AtClaim(c, q.claims[c].(doc := q.claims[c].doc.To(Failed))).At(t, FailRemove(r, c)))
  {
    var marked := q.AtClaim(c, q.claims[c].(doc := q.claims[c].doc.To(Failed)));
    AtTwice(marked, t, FailMark(r, c), FailRemove(r, c));
    Section(q, t, FailMark(r, c), true, marked.At(t, FailRemove(r, c)));
  }

  lemma AllAsleep(callers: map<Caller, Pc>, c: ClaimId)
    requires forall u | u in callers :: callers[u].Woken({c}) == callers[u]
    ensures (map u | u in callers :: callers[u].Woken({c})) == callers
  { }

  /** Nobody waits for a claim as new as `c`. */
  lemma FailedRemoved(q: State, t: Caller, r: RunId, c: ClaimId)
    requires q.writer == None && c < |q.claims| && Get(q.active, r) == Some(c)
    requires forall u | u in q.callers && u != t :: q.callers[u].Woken({c}) == q.callers[u]
    ensures Reaches(q.At(t, FailRemove(r, c)), t,
                    q.(active := q.active - {r})
                     .AtClaim(c, q.claims[c].(aborted := true, notified := true))
                     .At(t, Leave(r, Err(Io), false)))
  {
    var removed := q.(active := q.active - {r}).AtClaim(c, q.claims[c].(aborted := true, notified := true));
    var before := q.callers[t := FailRemove(r, c)];
    AllAsleep(before, c);
    AtTwice(removed, t, FailRemove(r, c), Leave(r, Err(Io), false));
    Section(q, t, FailRemove(r, c), true, removed.At(t, Leave(r, Err(Io), false)));
  }

  /** A claim nobody disturbs gets as far as its durable write. */
  lemma ClaimIsRegistered(q: State, t: Caller, r: RunId, read: Doc)
    requires q.writer == None && !q.shuttingDown && r !in q.active
    ensures
      var c := |q.claims|;
      Reaches(q.At(t, BeginFlag(r, read)), t, Claimed(q, r, read).(active := q.active[r := c]).At(t, BeginPersist(r, c)))
  {
    var c, s, m := |q.claims|, q.At(t, BeginFlag(r, read)), Claimed(q, r, read);
    Look(q, t, BeginFlag(r, read));
    Spawned(q, t, r, read);
    ReachFrom(s, t, q.At(t, BeginActive(r, read)), m.At(t, BeginRegister(r, c)));
    RegistryLocked(m, t, r, c);
    ReachFrom(s, t, m.At(t, BeginRegister(r, c)), m.(writer := Some(t)).At(t, BeginInsert(r, c)));
    Inserted(m, t, r, c);
    ReachFrom(s, t, m.(writer := Some(t)).At(t, BeginInsert(r, c)), m.(active := q.active[r := c]).At(t, BeginPersist(r, c)));
  }

  lemma WrittenClaimStarts(q: State, t: Caller, r: RunId, read: Doc)
    requires !q.shuttingDown && r !in q.active
    ensures
      var c := |q.claims|;
      Reaches(Claimed(q, r, read).(active := q.active[r := c]).At(t, BeginPersist(r, c)), t,
              Begun(q, r, read, true).0.At(t, Leave(r, Ok(Running), false)))
  {
    var c := |q.claims|;
    var m := Claimed(q, r, read).(active := q.active[r := c]);
    Persisted(m, t, r, c, true);
    var w := m.WithDisk(r, m.claims[c].doc, true);
    LetGo(w, t, r, c);
    assert w.AtClaim(c, w.claims[c].(go := true)) == Begun(q, r, read, true).0 by {
      assert w.claims[c := w.claims[c].(go := true)] == q.claims + [Claim(r, read.To(Running), Gated, true, false, false)];
    }
    ReachFrom(m.At(t, BeginPersist(r, c)), t, w.At(t, BeginLetGo(r, c)),
              Begun(q, r, read, true).0.At(t, Leave(r, Ok(Running), false)));
  }

  /** The claim that could not be written is taken back. */
  lemma UnwrittenClaimIsTakenBack(q: State, t: Caller, r: RunId, read: Doc)
    requires q.writer == None && !q.shuttingDown && r !in q.active
    requires forall u | u in q.callers && u != t :: q.callers[u].Woken({|q.claims|}) == q.callers[u]
    ensures
      var c := |q.claims|;
      Reaches(Claimed(q, r, read).(active := q.active[r := c]).At(t, BeginPersist(r, c)), t,
              Begun(q, r, read, false).0.At(t, Leave(r, Err(Io), false)))
  {
    var c := |q.claims|;
    var m := Claimed(q, r, read).(active := q.active[r := c]);
    var s := m.At(t, BeginPersist(r, c));
    Persisted(m, t, r, c, false);
    FailedMarked(m, t, r, c);
    var f := m.AtClaim(c, m.claims[c].(doc := m.claims[c].doc.To(Failed)));
    ReachFrom(s, t, m.At(t, FailMark(r, c)), f.At(t, FailRemove(r, c)));
    FailedRemoved(f, t, r, c);
    var e := f.(active := f.active - {r}).AtClaim(c, f.claims[c].(aborted := true, notified := true));
    ReachFrom(s, t, f.At(t, FailRemove(r, c)), e.At(t, Leave(r, Err(Io), false)));
    assert f.active - {r} == q.active;
    assert e.claims == q.claims + [Claim(r, read.To(Running).To(Failed), Gated, false, true, true)];
  }

  lemma NobodyWaits(s: State, u: Caller)
    requires Inv(s) && u in s.callers
    ensures s.callers[u].Woken({|s.claims|}) == s.callers[u]
  {
    assert PlaceOk(s, s.callers[u], u);
  }

  /** An undisturbed claim does what `Begun` says. */
  lemma UndisturbedBegin(s: State, t: Caller, r: RunId, read: Doc, writes: bool)
    requires Inv(s) && s.writer == None && t in s.callers && s.callers[t] == BeginFlag(r, read)
    ensures Reaches(s, t, Begun(s, r, read, writes).0.At(t, Leave(r, Begun(s, r, read, writes).1, false)))
  {
    assert s.At(t, BeginFlag(r, read)) == s;
    if s.shuttingDown {
      Look(s, t, BeginFlag(r, read));
    } else if r in s.active {
      Look(s, t, BeginFlag(r, read));
      Refused(s, t, r, read);
      ReachFrom(s, t, s.At(t, BeginActive(r, read)), s.At(t, Leave(r, Err(AlreadyActive), false)));
    } else {
      var c := |s.claims|;
      forall u | u in s.callers && u != t ensures s.callers[u].Woken({c}) == s.callers[u] { NobodyWaits(s, u); }
      ClaimIsRegistered(s, t, r, read);
      if writes { WrittenClaimStarts(s, t, r, read); } else { UnwrittenClaimIsTakenBack(s, t, r, read); }
      ReachFrom(s, t, Claimed(s, r, read).(active := s.active[r := c]).At(t, BeginPersist(r, c)),
                Begun(s, r, read, writes).0.At(t, Leave(r, Begun(s, r, read, writes).1, false)));
    }
  }

  // ---- Reading and resuming ----

  lemma GuardTaken(q: State, t: Caller, r: RunId, x: Pc, y: Pc)
    requires r !in q.guards
    requires (exists goal :: x == GetAwait(r, goal) && y == GetSecond(r, goal)) || (x == ResumeAwait(r) && y == ResumeActive(r))
    ensures Reaches(q.At(t, x), t, q.(guards := q.guards[r := t]).At(t, y))
  {
    AtTwice(q.(guards := q.guards[r := t]), t, x, y);
    Section(q, t, x, true, q.(guards := q.guards[r := t]).At(t, y));
  }

  lemma GuardLeft(q: State, t: Caller, r: RunId, reply: Reply, resume: bool)
    requires r !in q.guards
    ensures Reaches(q.(guards := q.guards[r := t]).At(t, Leave(r, reply, resume)), t,
                    q.At(t, if resume then ResumeAwait(r) else Returned(r, reply)))
  {
    var next := if resume then ResumeAwait(r) else Returned(r, reply);
    assert q.guards[r := t] - {r} == q.guards;
    AtTwice(q, t, Leave(r, reply, resume), next);
    Section(q.(guards := q.guards[r := t]), t, Leave(r, reply, resume), true, q.At(t, next));
  }

  lemma Normalized(q: State, t: Caller, r: RunId, goal: Goal, read: Doc, ok: bool)
    ensures Reaches(q.At(t, GetNormalize(r, goal, read)), t,
                    q.WithDisk(r, read.To(Interrupted), ok)
                     .At(t, if ok then Leaving(r, goal, Interrupted) else Leave(r, Err(Io), false)))
  {
    var next := if ok then Leaving(r, goal, Interrupted) else Leave(r, Err(Io), false);
    AtTwice(q.WithDisk(r, read.To(Interrupted), ok), t, GetNormalize(r, goal, read), next);
    Section(q, t, GetNormalize(r, goal, read), ok, q.WithDisk(r, read.To(Interrupted), ok).At(t, next));
  }

  /** Where the reply of a read leads: to the caller, or on with the resume. */
  function AfterGet(r: RunId, goal: Goal, reply: Reply): Pc {
    match reply case Ok(state) => Answered(r, goal, state) case Err(e) => Returned(r, Err(e))
  }

  /** The same from within the guard. */
  function LeavingGet(r: RunId, goal: Goal, reply: Reply): Pc {
    match reply case Ok(state) => Leaving(r, goal, state) case Err(e) => Leave(r, Err(e), false)
  }

  lemma UnregisteredIsGuarded(q: State, t: Caller, r: RunId, goal: Goal)
    requires q.writer == None && r !in q.guards && r !in q.active
    ensures Reaches(q.At(t, GetFirst(r, goal)), t, q.(guards := q.guards[r := t]).At(t, GetLoad(r, goal)))
  {
    var s, g := q.At(t, GetFirst(r, goal)), q.(guards := q.guards[r := t]);
    Look(q, t, GetFirst(r, goal));
    GuardTaken(q, t, r, GetAwait(r, goal), GetSecond(r, goal));
    ReachFrom(s, t, q.At(t, GetAwait(r, goal)), g.At(t, GetSecond(r, goal)));
    Look(g, t, GetSecond(r, goal));
    ReachFrom(s, t, g.At(t, GetSecond(r, goal)), g.At(t, GetLoad(r, goal)));
  }

  lemma GuardedIsRead(q: State, t: Caller, r: RunId, goal: Goal, writes: bool)
    requires r !in q.active
    ensures Reaches(q.At(t, GetLoad(r, goal)), t, Got(q, r, writes).0.At(t, LeavingGet(r, goal, Got(q, r, writes).1)))
  {
    Look(q, t, GetLoad(r, goal));
    if r in q.disk && q.disk[r].state.IsActive() {
      Normalized(q, t, r, goal, q.disk[r], writes);
      ReachFrom(q.At(t, GetLoad(r, goal)), t, q.At(t, GetNormalize(r, goal, q.disk[r])),
                Got(q, r, writes).0.At(t, LeavingGet(r, goal, Got(q, r, writes).1)));
    }
  }

  lemma GotGuarded(q: State, guards: map<RunId, Caller>, r: RunId, writes: bool)
    ensures Got(q.(guards := guards), r, writes) == (Got(q, r, writes).0.(guards := guards), Got(q, r, writes).1)
    ensures Got(q, r, writes).0.guards == q.guards
  { }

  lemma UnregisteredIsRead(q: State, t: Caller, r: RunId, goal: Goal, writes: bool)
    requires q.writer == None && r !in q.guards && r !in q.active
    ensures Reaches(q.At(t, GetFirst(r, goal)), t, Got(q, r, writes).0.At(t, AfterGet(r, goal, Got(q, r, writes).1)))
  {
    var s, g := q.At(t, GetFirst(r, goal)), q.(guards := q.guards[r := t]);
    var read, reply := Got(q, r, writes).0, Got(q, r, writes).1;
    var leaving := LeavingGet(r, goal, reply);
    UnregisteredIsGuarded(q, t, r, goal);
    GuardedIsRead(g, t, r, goal, writes);
    GotGuarded(q, g.guards, r, writes);
    ReachFrom(s, t, g.At(t, GetLoad(r, goal)), read.(guards := g.guards).At(t, leaving));
    GuardLeft(read, t, r, leaving.reply, leaving.resume);
    ReachFrom(s, t, read.(guards := g.guards).At(t, leaving), read.At(t, AfterGet(r, goal, reply)));
  }

  /** An undisturbed read does what `Got` says. */
  lemma UndisturbedGet(q: State, t: Caller, r: RunId, goal: Goal, writes: bool)
    requires q.writer == None && r !in q.guards
    ensures Reaches(q.At(t, GetFirst(r, goal)), t, Got(q, r, writes).0.At(t, AfterGet(r, goal, Got(q, r, writes).1)))
  {
    if r in q.active { Look(q, t, GetFirst(r, goal)); } else { UnregisteredIsRead(q, t, r, goal, writes); }
  }

  lemma ReachKeepsInv(s: State, t: Caller, done: State)
    requires Inv(s) && Reaches(s, t, done)
    ensures Inv(done)
  {
    var oks :| Onward(s, t, oks) == done;
    OnwardKeepsInv(s, t, oks);
  }

  lemma {:induction false} OnwardKeepsInv(s: State, t: Caller, oks: seq<bool>)
    requires Inv(s)
    ensures Inv(Onward(s, t, oks))
  {
    if oks != [] {
      OnwardKeepsInv(s, t, oks[..|oks| - 1]);
      StepKeepsInv(Onward(s, t, oks[..|oks| - 1]), Advance(t, oks[|oks| - 1]));
    }
  }

  lemma BegunAt(q: State, t: Caller, x: Pc, guards: map<RunId, Caller>, r: RunId, read: Doc, writes: bool)
    ensures Begun(q.(guards := guards).At(t, x), r, read, writes)
         == (Begun(q, r, read, writes).0.(guards := guards).At(t, x), Begun(q, r, read, writes).1)
  { }

  /** From the interrupted document on: the guard again, and the claim. */
  lemma ClaimAfterGet(q: State, t: Caller, r: RunId, writes: bool)
    requires Inv(q.At(t, ResumeAwait(r))) && q.writer == None && r !in q.guards && r !in q.active
    requires r in q.disk && q.disk[r].state.Interrupted?
    ensures
      var (claimed, reply) := Begun(q, r, q.disk[r], writes);
      Reaches(q.At(t, ResumeAwait(r)), t, claimed.At(t, Returned(r, reply)))
  {
    var s, g := q.At(t, ResumeAwait(r)), q.(guards := q.guards[r := t]);
    var (claimed, reply) := Begun(q, r, q.disk[r], writes);
    GuardTaken(q, t, r, ResumeAwait(r), ResumeActive(r));
    Look(g, t, ResumeActive(r));
    ReachFrom(s, t, g.At(t, ResumeActive(r)), g.At(t, ResumeLoad(r)));
    Look(g, t, ResumeLoad(r));
    var b := g.At(t, BeginFlag(r, q.disk[r]));
    ReachFrom(s, t, g.At(t, ResumeLoad(r)), b);
    ReachKeepsInv(s, t, b);
    UndisturbedBegin(b, t, r, q.disk[r], writes);
    BegunAt(q, t, BeginFlag(r, q.disk[r]), g.guards, r, q.disk[r], writes);
    var left := claimed.(guards := g.guards).At(t, Leave(r, reply, false));
    AtTwice(claimed.(guards := g.guards), t, BeginFlag(r, q.disk[r]), Leave(r, reply, false));
    ReachFrom(s, t, b, left);
    assert claimed.guards == q.guards;
    GuardLeft(claimed, t, r, reply, false);
    ReachFrom(s, t, left, claimed.At(t, Returned(r, reply)));
  }

  lemma InterruptedIsClaimed(q: State, t: Caller, r: RunId, normalizes: bool, writes: bool)
    requires Inv(q.At(t, GetFirst(r, Resume))) && q.writer == None && r !in q.guards
    requires r !in q.active && Got(q, r, normalizes).1 == Ok(Interrupted)
    ensures
      var read := Got(q, r, normalizes).0;
      r in read.disk
      && Reaches(q.At(t, GetFirst(r, Resume)), t,
                 Begun(read, r, read.disk[r], writes).0.At(t, Returned(r, Begun(read, r, read.disk[r], writes).1)))
  {
    var s, read := q.At(t, GetFirst(r, Resume)), Got(q, r, normalizes).0;
    UndisturbedGet(q, t, r, Resume, normalizes);
    ReachKeepsInv(s, t, read.At(t, ResumeAwait(r)));
    ClaimAfterGet(read, t, r, writes);
    ReachFrom(s, t, read.At(t, ResumeAwait(r)),
              Begun(read, r, read.disk[r], writes).0.At(t, Returned(r, Begun(read, r, read.disk[r], writes).1)));
  }

  /** An undisturbed resume does what `Resumed` says. */
  lemma UndisturbedResume(q: State, t: Caller, r: RunId, normalizes: bool, writes: bool)
    requires Inv(q.At(t, GetFirst(r, Resume))) && q.writer == None && r !in q.guards
    ensures
      var resumed := Resumed(q, r, normalizes, writes);
      Reaches(q.At(t, GetFirst(r, Resume)), t, resumed.0.At(t, Returned(r, resumed.1)))
  {
    if r in q.active { SeenIsNotInterrupted(q.At(t, GetFirst(r, Resume)), r); }
    if Got(q, r, normalizes).1 == Ok(Interrupted) {
      InterruptedIsClaimed(q, t, r, normalizes, writes);
    } else {
      UndisturbedGet(q, t, r, Resume, normalizes);
    }
  }

  lemma SeenIsNotInterrupted(s: State, r: RunId)
    requires Inv(s) && r in s.active
    ensures !Seen(s, r).Interrupted?
  {
    assert ClaimOk(s, s.active[r]);
  }
}
