/** The claim protocol of dynamic workflow runs.

    A run's task is claimed in fixed order: guard, registry entry, durable `running`
    document, start permit. Readers may normalize an idle `queued`/`running` document to
    `interrupted`; resumes claim again; cancels wait for the run to settle; shutdown
    raises a flag and then drains the registry. Every pre-emption point of these
    operations, of the spawned tasks and of shutdown is a separate step here. The per-run
    guards behave as plain locks (RunTransitions.RefinesPlainLock). */
module RunRegistry {
  import opened Wrappers

  type RunId = nat
  type Caller = nat
  type ClaimId = nat

  datatype RunState = Queued | Running | Completed | Failed | Cancelled | Interrupted | NeedsConfirmation
  {
    predicate IsActive() { Queued? || Running? }
  }

  const MAX_VERSION := 0xFFFF_FFFF_FFFF_FFFF

  datatype Doc = Doc(state: RunState, version: nat) {
    function To(next: RunState): Doc {
      Doc(next, if version < MAX_VERSION then version + 1 else version)
    }
  }

  datatype Phase = Gated | Started | Settled | Removed | Finished {
    /** Executing, or done executing but not yet out of the registry. */
    predicate Live() { Started? || Settled? }
  }

  /** One claimed run: its shared in-memory document and its spawned task. `notified`
      says that its settling task or its failed claim has woken the waiters. */
  datatype Claim = Claim(run: RunId, doc: Doc, phase: Phase, go: bool, aborted: bool, notified: bool)

  datatype Error = ShuttingDown | AlreadyActive | NotInterrupted | UnknownRun | Io

  type Reply = Result<RunState, Error>

  datatype Goal = Read | Resume

  /** The next atomic section of a caller's operation. Guarded points hold the run's guard. */
  datatype Pc =
    | GetFirst(run: RunId, goal: Goal)
    | GetAwait(run: RunId, goal: Goal)
    | GetSecond(run: RunId, goal: Goal)
    | GetLoad(run: RunId, goal: Goal)
    | GetNormalize(run: RunId, goal: Goal, read: Doc)
    | StartAwait(run: RunId)
    | ResumeAwait(run: RunId)
    | ResumeActive(run: RunId)
    | ResumeLoad(run: RunId)
    | BeginFlag(run: RunId, read: Doc)
    | BeginActive(run: RunId, read: Doc)
    | BeginRegister(run: RunId, claim: ClaimId)
    | BeginInsert(run: RunId, claim: ClaimId)
    | BeginPersist(run: RunId, claim: ClaimId)
    | BeginLetGo(run: RunId, claim: ClaimId)
    | FailMark(run: RunId, claim: ClaimId)
    | FailRemove(run: RunId, claim: ClaimId)
    | Leave(run: RunId, reply: Reply, resume: bool)
    | CancelLookup(run: RunId)
    | CancelFirst(run: RunId, claim: ClaimId)
    | CancelArm(run: RunId, claim: ClaimId)
    | CancelSecond(run: RunId, claim: ClaimId, woken: bool)
    | CancelWait(run: RunId, claim: ClaimId, woken: bool)
    | Returned(run: RunId, reply: Reply)
  {
    predicate Guarded() {
      GetSecond? || GetLoad? || GetNormalize? || ResumeActive? || ResumeLoad? || BeginFlag? || BeginActive?
      || BeginRegister? || BeginInsert? || BeginPersist? || BeginLetGo? || FailMark? || FailRemove? || Leave?
    }

    predicate Claiming() {
      BeginRegister? || BeginInsert? || BeginPersist? || BeginLetGo? || FailMark? || FailRemove?
    }

    /** Points that only look at shared state. */
    predicate Reading() {
      GetFirst? || GetSecond? || GetLoad? || ResumeActive? || ResumeLoad? || BeginFlag? || CancelLookup?
    }

    predicate Cancelling() { CancelFirst? || CancelArm? || CancelSecond? || CancelWait? }

    function Woken(ids: set<ClaimId>): Pc {
      if (CancelSecond? || CancelWait?) && claim in ids then this.(woken := true) else this
    }
  }

  /** `writer` holds the registry's write lock; `drained` says a drain has happened. */
  datatype State = State(
    shuttingDown: bool,
    drained: bool,
    writer: Option<Caller>,
    active: map<RunId, ClaimId>,
    guards: map<RunId, Caller>,
    disk: map<RunId, Doc>,
    claims: seq<Claim>,
    callers: map<Caller, Pc>)
  {
    function At(t: Caller, pc: Pc): State { this.(callers := callers[t := pc]) }

    function AtClaim(c: ClaimId, claim: Claim): State
      requires c < |claims|
    {
      this.(claims := claims[c := claim])
    }

    function Wake(ids: set<ClaimId>): State {
      this.(callers := map t | t in callers :: callers[t].Woken(ids))
    }

    function WithDisk(r: RunId, doc: Doc, ok: bool): State {
      if ok then this.(disk := disk[r := doc]) else this
    }
  }

  datatype Event =
    | CallRun(caller: Caller, run: RunId)
    | CallGet(caller: Caller, run: RunId)
    | CallResume(caller: Caller, run: RunId)
    | CallCancel(caller: Caller, run: RunId)
    | Advance(caller: Caller, ok: bool)     // ok: the write succeeds, the wait ends by a wake-up
    | TaskStart(claim: ClaimId)
    | TaskProgress(claim: ClaimId, ok: bool)
    | TaskSettle(claim: ClaimId, to: RunState, ok: bool)
    | TaskRemove(claim: ClaimId)
    | TaskNotify(claim: ClaimId)
    | ShutdownFlag
    | ShutdownDrain

  function Step(s: State, e: Event): State {
    match e
    case CallRun(t, r) => Call(s, t, StartAwait(r))
    case CallGet(t, r) => Call(s, t, GetFirst(r, Read))
    case CallResume(t, r) => Call(s, t, GetFirst(r, Resume))
    case CallCancel(t, r) => Call(s, t, CancelLookup(r))
    case Advance(t, ok) =>
      if t !in s.callers then s else
        var pc := s.callers[t];
        if pc.Claiming() then
          if pc.claim < |s.claims| then ClaimStep(s, t, pc, ok) else s
        else if pc.Cancelling() then
          if pc.claim < |s.claims| then s.At(t, CancelNext(s, pc, ok)) else s
        else if pc.Reading() then s.At(t, ReadNext(s, pc))
        else GuardStep(s, t, pc, ok)
    case TaskStart(_) => TaskStep(s, e)
    case TaskProgress(_, _) => TaskStep(s, e)
    case TaskSettle(_, _, _) => TaskStep(s, e)
    case TaskRemove(_) => TaskStep(s, e)
    case TaskNotify(_) => TaskStep(s, e)
    case ShutdownFlag => s.(shuttingDown := true)
    case ShutdownDrain => if s.shuttingDown && s.writer == None then Drain(s) else s
  }

  function Call(s: State, t: Caller, pc: Pc): State {
    if t !in s.callers || s.callers[t].Returned? then s.At(t, pc) else s
  }

  /** The in-memory state a reader of the registered claim sees. */
  function Seen(s: State, r: RunId): RunState
    requires r in s.active
  {
    if s.active[r] < |s.claims| then s.claims[s.active[r]].doc.state else Failed
  }

  /** What get_run's caller does next with the state it was given. */
  function Answered(r: RunId, goal: Goal, state: RunState): Pc {
    if goal.Read? then Returned(r, Ok(state))
    else if state.Interrupted? then ResumeAwait(r)
    else Returned(r, Err(NotInterrupted))
  }

  function Leaving(r: RunId, goal: Goal, state: RunState): Pc {
    if goal.Read? then Leave(r, Ok(state), false)
    else if state.Interrupted? then Leave(r, Ok(state), true)
    else Leave(r, Err(NotInterrupted), false)
  }

  function TakeGuard(s: State, t: Caller, r: RunId, next: Pc): State {
    if r in s.guards then s else s.(guards := s.guards[r := t]).At(t, next)
  }

  /** Where a look at the registry, the disk or the flag leads; a held registry write
      lock makes a registry reader wait. */
  function ReadNext(s: State, pc: Pc): Pc
    requires pc.Reading()
  {
    var r := pc.run;
    var live := r in s.active;
    match pc
    case GetLoad(_, goal) =>
      if r !in s.disk then Leave(r, Err(UnknownRun), false)
      else if !s.disk[r].state.IsActive() then Leaving(r, goal, s.disk[r].state)
      else GetNormalize(r, goal, s.disk[r])
    case ResumeLoad(_) =>
      if r !in s.disk then Leave(r, Err(UnknownRun), false)
      else if !s.disk[r].state.Interrupted? then Leave(r, Err(NotInterrupted), false)
      else BeginFlag(r, s.disk[r])
    case BeginFlag(_, read) => if s.shuttingDown then Leave(r, Err(ShuttingDown), false) else BeginActive(r, read)
    case _ =>
      if s.writer != None then pc
      else match pc
        case GetFirst(_, goal) => if live then Answered(r, goal, Seen(s, r)) else GetAwait(r, goal)
        case GetSecond(_, goal) => if live then Leaving(r, goal, Seen(s, r)) else GetLoad(r, goal)
        case ResumeActive(_) => if live then Leave(r, Err(AlreadyActive), false) else ResumeLoad(r)
        case _ => if live then CancelFirst(r, s.active[r]) else GetFirst(r, Read)
  }

  /** Taking and giving up a guard, normalizing an idle document, and spawning a gated task. */
  function GuardStep(s: State, t: Caller, pc: Pc, ok: bool): State
    requires !pc.Claiming() && !pc.Cancelling() && !pc.Reading()
  {
    match pc
    case GetAwait(r, goal) => TakeGuard(s, t, r, GetSecond(r, goal))
    case StartAwait(r) => TakeGuard(s, t, r, BeginFlag(r, Doc(Queued, 1)))
    case ResumeAwait(r) => TakeGuard(s, t, r, ResumeActive(r))
    case GetNormalize(r, goal, read) =>
      s.WithDisk(r, read.To(Interrupted), ok)
       .At(t, if ok then Leaving(r, goal, Interrupted) else Leave(r, Err(Io), false))
    case BeginActive(r, read) =>
      if s.writer != None then s
      else if r in s.active then s.At(t, Leave(r, Err(AlreadyActive), false))
      else s.(claims := s.claims + [Claim(r, read.To(Running), Gated, false, false, false)])
            .At(t, BeginRegister(r, |s.claims|))
    case Leave(r, reply, resume) =>
      s.(guards := s.guards - {r}).At(t, if resume then ResumeAwait(r) else Returned(r, reply))
    case _ => s
  }

  /** begin_task from the registry insert on, and fail_claim. */
  function ClaimStep(s: State, t: Caller, pc: Pc, ok: bool): State
    requires pc.Claiming() && pc.claim < |s.claims|
  {
    var claim := s.claims[pc.claim];
    match pc
    case BeginRegister(r, c) =>
      if s.writer != None then s
      else if s.shuttingDown then
        s.AtClaim(c, claim.(aborted := true)).At(t, Leave(r, Err(ShuttingDown), false))
      else s.(writer := Some(t)).At(t, BeginInsert(r, c))
    case BeginInsert(r, c) =>
      if r in s.active then
        s.(writer := None).AtClaim(c, claim.(aborted := true)).At(t, Leave(r, Err(AlreadyActive), false))
      else s.(writer := None, active := s.active[r := c]).At(t, BeginPersist(r, c))
    case BeginPersist(r, c) =>
      s.WithDisk(r, claim.doc, ok).At(t, if ok then BeginLetGo(r, c) else FailMark(r, c))
    case BeginLetGo(r, c) =>
      s.AtClaim(c, claim.(go := true)).At(t, Leave(r, Ok(claim.doc.state), false))
    case FailMark(r, c) =>
      s.AtClaim(c, if claim.doc.state.IsActive() then claim.(doc := claim.doc.To(Failed)) else claim)
       .At(t, FailRemove(r, c))
    case FailRemove(r, c) =>
      if s.writer != None then s
      else if r !in s.active then s.At(t, Leave(r, Err(Io), false))
      else
        var d := s.active[r];
        if d < |s.claims| then
          s.(active := s.active - {r})
           .AtClaim(d, s.claims[d].(aborted := true, notified := true))
           .Wake({d})
           .At(t, Leave(r, Err(Io), false))
        else s
  }

  /** cancel, once it has found the registered claim. */
  function CancelNext(s: State, pc: Pc, ok: bool): Pc
    requires pc.Cancelling() && pc.claim < |s.claims|
  {
    var seen := s.claims[pc.claim].doc.state;
    match pc
    case CancelFirst(r, c) => if seen.IsActive() then CancelArm(r, c) else Returned(r, Ok(seen))
    case CancelArm(r, c) => CancelSecond(r, c, false)
    case CancelSecond(r, c, woken) => if seen.IsActive() then CancelWait(r, c, woken) else Returned(r, Ok(seen))
    case CancelWait(r, c, woken) => if woken || !ok then Returned(r, Ok(seen)) else pc
  }

  /** The spawned task: start, write progress, settle, leave the registry, notify. */
  function TaskStep(s: State, e: Event): State
    requires e.TaskStart? || e.TaskProgress? || e.TaskSettle? || e.TaskRemove? || e.TaskNotify?
  {
    var c := e.claim;
    if c >= |s.claims| then s else
      var claim := s.claims[c];
      match e
      case TaskStart(_) =>
        if claim.phase.Gated? && claim.go && !claim.aborted then s.AtClaim(c, claim.(phase := Started)) else s
      case TaskProgress(_, ok) =>
        if claim.phase.Started? then
          var doc := claim.doc.To(claim.doc.state);
          s.AtClaim(c, claim.(doc := doc)).WithDisk(claim.run, doc, ok)
        else s
      case TaskSettle(_, to, ok) =>
        if claim.phase.Started? && !to.IsActive() && !to.Interrupted? then
          var doc := claim.doc.To(to);
          s.AtClaim(c, claim.(doc := doc, phase := Settled)).WithDisk(claim.run, doc, ok)
        else s
      case TaskRemove(_) =>
        if claim.phase.Settled? && s.writer == None then
          s.(active := s.active - {claim.run}).AtClaim(c, claim.(phase := Removed))
        else s
      case TaskNotify(_) =>
        if claim.phase.Removed? then s.AtClaim(c, claim.(phase := Finished, notified := true)).Wake({c}) else s
  }

  /** Empty the registry, aborting every entry's task and waking its waiters. */
  function Drain(s: State): State {
    s.(drained := true, active := map[],
       claims := seq(|s.claims|, i requires 0 <= i < |s.claims| =>
         if i in s.active.Values then s.claims[i].(aborted := true) else s.claims[i]))
     .Wake(s.active.Values)
  }

  // ---- The invariant ----

  ghost predicate RegistryOk(s: State) {
    && (forall r | r in s.active :: s.active[r] < |s.claims| && s.claims[s.active[r]].run == r)
    && (s.drained ==> s.shuttingDown && s.active == map[])
  }

  ghost predicate Registered(s: State, c: ClaimId)
    requires c < |s.claims|
  {
    Get(s.active, s.claims[c].run) == Some(c)
  }

  ghost predicate CallerOk(s: State, pc: Pc, t: Caller) {
    match pc
    case GetLoad(r, _) => r !in s.active
    case GetNormalize(r, _, read) =>
      r !in s.active && read.state.IsActive() && (s.drained || Get(s.disk, r) == Some(read))
    case ResumeLoad(r) => r !in s.active
    case BeginRegister(r, c) => Unregistered(s, r, c)
    case BeginInsert(r, c) => Unregistered(s, r, c) && s.writer == Some(t) && !s.drained
    case BeginPersist(r, c) => Pending(s, r, c) && s.claims[c].doc.state.Running?
    case BeginLetGo(r, c) =>
      Pending(s, r, c) && s.claims[c].doc.state.Running? && (s.drained || Get(s.disk, r) == Some(s.claims[c].doc))
    case FailMark(r, c) => Pending(s, r, c)
    case FailRemove(r, c) => Pending(s, r, c) && !s.claims[c].doc.state.IsActive()
    case CancelFirst(r, c) => c < |s.claims|
    case CancelArm(r, c) => c < |s.claims|
    case CancelSecond(r, c, woken) =>
      c < |s.claims| && (woken ==> s.drained || !s.claims[c].doc.state.IsActive())
    case CancelWait(r, c, woken) =>
      c < |s.claims| && if woken then s.drained || !s.claims[c].doc.state.IsActive() else !s.claims[c].notified
    case _ => true
  }

  /** A claim spawned but not yet in the registry. */
  ghost predicate Unregistered(s: State, r: RunId, c: ClaimId) {
    && c < |s.claims| && s.claims[c].run == r && s.claims[c].phase.Gated? && !s.claims[c].go
    && s.claims[c].doc.state.Running? && !s.claims[c].aborted && r !in s.active
  }

  /** A claim in the registry whose task has no start permit. */
  ghost predicate Pending(s: State, r: RunId, c: ClaimId) {
    && c < |s.claims| && s.claims[c].run == r && s.claims[c].phase.Gated? && !s.claims[c].go
    && if s.claims[c].aborted then s.drained else Get(s.active, r) == Some(c)
  }

  ghost predicate ClaimOk(s: State, c: ClaimId)
    requires c < |s.claims|
  {
    var claim := s.claims[c];
    && (claim.phase.Gated? && claim.go && !claim.aborted ==>
          Registered(s, c) && claim.doc.state.Running? && Get(s.disk, claim.run) == Some(claim.doc))
    && (claim.phase.Live() ==> if claim.aborted then s.drained else Registered(s, c))
    && (claim.phase.Started? ==> claim.doc.state.Running?)
    && (claim.phase.Settled? || claim.phase.Removed? || claim.phase.Finished? ==> !claim.doc.state.IsActive())
    && (claim.phase.Finished? ==> claim.notified)
    && (claim.notified ==> !claim.doc.state.IsActive())
    && !claim.doc.state.Interrupted? && !claim.doc.state.Queued?
  }

  ghost predicate OneLive(s: State) {
    forall c, d | 0 <= c < |s.claims| && 0 <= d < |s.claims| && s.claims[c].phase.Live() && s.claims[d].phase.Live()
                  && s.claims[c].run == s.claims[d].run :: c == d
  }

  ghost predicate SharedOk(s: State) {
    RegistryOk(s) && OneLive(s) && forall c: ClaimId | c < |s.claims| :: ClaimOk(s, c)
  }

  ghost predicate PlaceOk(s: State, pc: Pc, t: Caller) {
    CallerOk(s, pc, t) && (pc.Guarded() ==> Get(s.guards, pc.run) == Some(t))
  }

  ghost predicate OthersOk(s: State, t: Caller) {
    forall u | u in s.callers && u != t :: PlaceOk(s, s.callers[u], u)
  }

  ghost predicate Inv(s: State) {
    SharedOk(s) && forall u | u in s.callers :: PlaceOk(s, s.callers[u], u)
  }

  // ---- Every step keeps the invariant ----

  lemma Placed(s: State, t: Caller, pc: Pc)
    requires SharedOk(s) && OthersOk(s, t) && PlaceOk(s, pc, t)
    ensures Inv(s.At(t, pc))
  {
    var s' := s.At(t, pc);
    forall u | u in s'.callers ensures PlaceOk(s', s'.callers[u], u) { }
    forall c: ClaimId | c < |s'.claims| ensures ClaimOk(s', c) { assert ClaimOk(s, c); }
  }

  lemma CallKeeps(s: State, t: Caller, pc: Pc)
    requires Inv(s) && !pc.Guarded() && CallerOk(s, pc, t)
    ensures Inv(Call(s, t, pc))
  {
    Placed(s, t, pc);
  }

  lemma ReadNextOk(s: State, t: Caller, pc: Pc)
    requires PlaceOk(s, pc, t) && pc.Reading() && RegistryOk(s)
    ensures PlaceOk(s, ReadNext(s, pc), t)
  { }

  lemma CancelNextOk(s: State, t: Caller, pc: Pc, ok: bool)
    requires pc.Cancelling() && CallerOk(s, pc, t) && pc.claim < |s.claims| && ClaimOk(s, pc.claim)
    ensures PlaceOk(s, CancelNext(s, pc, ok), t)
  { }

  lemma TakeGuardKeeps(s: State, t: Caller, r: RunId, next: Pc)
    requires Inv(s) && t in s.callers && next.run == r
    requires next.GetSecond? || next.BeginFlag? || next.ResumeActive?
    ensures Inv(TakeGuard(s, t, r, next))
  {
    if r !in s.guards {
      var m := s.(guards := s.guards[r := t]);
      forall u | u in m.callers && u != t ensures PlaceOk(m, m.callers[u], u) { assert PlaceOk(s, s.callers[u], u); }
      forall c: ClaimId | c < |m.claims| ensures ClaimOk(m, c) { assert ClaimOk(s, c); }
      Placed(m, t, next);
    }
  }

  lemma LeaveKeeps(s: State, t: Caller)
    requires Inv(s) && t in s.callers && s.callers[t].Leave?
    ensures Inv(GuardStep(s, t, s.callers[t], true))
  {
    var Leave(r, reply, resume) := s.callers[t];
    var m := s.(guards := s.guards - {r});
    assert PlaceOk(s, s.callers[t], t);
    forall u | u in m.callers && u != t ensures PlaceOk(m, m.callers[u], u) { assert PlaceOk(s, s.callers[u], u); }
    forall c: ClaimId | c < |m.claims| ensures ClaimOk(m, c) { assert ClaimOk(s, c); }
    Placed(m, t, if resume then ResumeAwait(r) else Returned(r, reply));
  }

  lemma NormalizeKeeps(s: State, t: Caller, ok: bool)
    requires Inv(s) && t in s.callers && s.callers[t].GetNormalize?
    ensures Inv(GuardStep(s, t, s.callers[t], ok))
  {
    var s' := GuardStep(s, t, s.callers[t], ok);
    var GetNormalize(r, _, read) := s.callers[t];
    assert PlaceOk(s, s.callers[t], t);
    var m := s.WithDisk(r, read.To(Interrupted), ok);
    forall u | u in m.callers && u != t ensures PlaceOk(m, m.callers[u], u) { assert PlaceOk(s, s.callers[u], u); }
    forall c: ClaimId | c < |m.claims| ensures ClaimOk(m, c) { assert ClaimOk(s, c); }
    Placed(m, t, s'.callers[t]);
  }

  lemma SpawnKeeps(s: State, t: Caller)
    requires Inv(s) && t in s.callers && s.callers[t].BeginActive?
    ensures Inv(GuardStep(s, t, s.callers[t], true))
  {
    var next := GuardStep(s, t, s.callers[t], true).callers[t];
    var BeginActive(r, read) := s.callers[t];
    assert PlaceOk(s, s.callers[t], t);
    if next.BeginRegister? {
      var m := s.(claims := s.claims + [Claim(r, read.To(Running), Gated, false, false, false)]);
      forall u | u in m.callers && u != t ensures PlaceOk(m, m.callers[u], u) { assert PlaceOk(s, s.callers[u], u); }
      forall c: ClaimId | c < |m.claims| ensures ClaimOk(m, c) { if c < |s.claims| { assert ClaimOk(s, c); } }
      Placed(m, t, next);
    } else if next != s.callers[t] {
      Placed(s, t, next);
    }
  }

  lemma RegisterKeeps(s: State, t: Caller, r: RunId, c: ClaimId)
    requires Inv(s) && Get(s.callers, t) == Some(BeginRegister(r, c)) && c < |s.claims|
    ensures Inv(ClaimStep(s, t, s.callers[t], true))
  {
    assert PlaceOk(s, s.callers[t], t);
    if s.writer == None {
      var m := if s.shuttingDown then s.AtClaim(c, s.claims[c].(aborted := true)) else s.(writer := Some(t));
      forall u | u in m.callers && u != t ensures PlaceOk(m, m.callers[u], u) { assert PlaceOk(s, s.callers[u], u); }
      forall d: ClaimId | d < |m.claims| ensures ClaimOk(m, d) { assert ClaimOk(s, d); }
      Placed(m, t, if s.shuttingDown then Leave(r, Err(ShuttingDown), false) else BeginInsert(r, c));
    }
  }

  lemma InsertKeeps(s: State, t: Caller, r: RunId, c: ClaimId)
    requires Inv(s) && Get(s.callers, t) == Some(BeginInsert(r, c)) && c < |s.claims|
    ensures Inv(ClaimStep(s, t, s.callers[t], true))
  {
    assert PlaceOk(s, s.callers[t], t);
    var m := s.(writer := None, active := s.active[r := c]);
    forall u | u in m.callers && u != t ensures PlaceOk(m, m.callers[u], u) { assert PlaceOk(s, s.callers[u], u); }
    forall d: ClaimId | d < |m.claims| ensures ClaimOk(m, d) { assert ClaimOk(s, d); }
    Placed(m, t, BeginPersist(r, c));
  }

  lemma PersistKeeps(s: State, t: Caller, r: RunId, c: ClaimId, ok: bool)
    requires Inv(s) && Get(s.callers, t) == Some(BeginPersist(r, c)) && c < |s.claims|
    ensures Inv(ClaimStep(s, t, s.callers[t], ok))
  {
    assert PlaceOk(s, s.callers[t], t);
    var m := s.WithDisk(r, s.claims[c].doc, ok);
    forall u | u in m.callers && u != t ensures PlaceOk(m, m.callers[u], u) { assert PlaceOk(s, s.callers[u], u); }
    forall d: ClaimId | d < |m.claims| ensures ClaimOk(m, d) { assert ClaimOk(s, d); }
    Placed(m, t, if ok then BeginLetGo(r, c) else FailMark(r, c));
  }

  lemma LetGoKeeps(s: State, t: Caller, r: RunId, c: ClaimId)
    requires Inv(s) && Get(s.callers, t) == Some(BeginLetGo(r, c)) && c < |s.claims|
    ensures Inv(ClaimStep(s, t, s.callers[t], true))
  {
    assert PlaceOk(s, s.callers[t], t);
    var m := s.AtClaim(c, s.claims[c].(go := true));
    forall u | u in m.callers && u != t ensures PlaceOk(m, m.callers[u], u) { assert PlaceOk(s, s.callers[u], u); }
    forall d: ClaimId | d < |m.claims| ensures ClaimOk(m, d) { assert ClaimOk(s, d); }
    Placed(m, t, Leave(r, Ok(s.claims[c].doc.state), false));
  }

  lemma FailMarkKeepsPlace(s: State, r: RunId, c: ClaimId, u: Caller, pc: Pc)
    requires PlaceOk(s, pc, u) && Pending(s, r, c)
    requires pc.Guarded() ==> pc.run != r
    ensures PlaceOk(s.AtClaim(c, s.claims[c].(doc := s.claims[c].doc.To(Failed))), pc, u)
  { }

  lemma FailMarkKeeps(s: State, t: Caller, r: RunId, c: ClaimId)
    requires Inv(s) && Get(s.callers, t) == Some(FailMark(r, c)) && c < |s.claims|
    ensures Inv(ClaimStep(s, t, s.callers[t], true))
  {
    assert PlaceOk(s, s.callers[t], t);
    var m := if s.claims[c].doc.state.IsActive() then s.AtClaim(c, s.claims[c].(doc := s.claims[c].doc.To(Failed))) else s;
    forall u | u in m.callers && u != t ensures PlaceOk(m, m.callers[u], u) {
      assert PlaceOk(s, s.callers[u], u);
      FailMarkKeepsPlace(s, r, c, u, s.callers[u]);
    }
    forall d: ClaimId | d < |m.claims| ensures ClaimOk(m, d) { assert ClaimOk(s, d); }
    assert m == s.AtClaim(c, m.claims[c]);
    Placed(m, t, FailRemove(r, c));
  }

  lemma FailRemoveKeepsPlace(s: State, r: RunId, c: ClaimId, u: Caller, pc: Pc)
    requires PlaceOk(s, pc, u) && Pending(s, r, c) && r in s.active && !s.drained
    requires !s.claims[c].doc.state.IsActive()
    requires pc.Guarded() ==> pc.run != r
    ensures PlaceOk(s.(active := s.active - {r}).AtClaim(c, s.claims[c].(aborted := true, notified := true)), pc.Woken({c}), u)
  { }

  lemma FailRemoveKeeps(s: State, t: Caller, r: RunId, c: ClaimId)
    requires Inv(s) && Get(s.callers, t) == Some(FailRemove(r, c)) && c < |s.claims|
    ensures Inv(ClaimStep(s, t, s.callers[t], true))
  {
    assert PlaceOk(s, s.callers[t], t);
    if s.writer == None {
      var m := if r in s.active then
          s.(active := s.active - {r}).AtClaim(c, s.claims[c].(aborted := true, notified := true)).Wake({c})
        else s;
      forall u | u in m.callers && u != t ensures PlaceOk(m, m.callers[u], u) {
        assert PlaceOk(s, s.callers[u], u);
        if r in s.active { FailRemoveKeepsPlace(s, r, c, u, s.callers[u]); }
      }
      forall d: ClaimId | d < |m.claims| ensures ClaimOk(m, d) { assert ClaimOk(s, d); }
      Placed(m, t, Leave(r, Err(Io), false));
    }
  }

  lemma TaskStartKeeps(s: State, c: ClaimId)
    requires Inv(s)
    ensures Inv(TaskStep(s, TaskStart(c)))
  {
    var m := TaskStep(s, TaskStart(c));
    if m != s {
      forall d: ClaimId | d < |m.claims|
        ensures ClaimOk(m, d) && (s.claims[d].phase.Live() ==> s.claims[d].run != s.claims[c].run)
      {
        assert ClaimOk(s, c) && ClaimOk(s, d);
      }
      forall u | u in m.callers ensures PlaceOk(m, m.callers[u], u) { assert PlaceOk(s, s.callers[u], u); }
    }
  }

  lemma TaskWriteKeepsPlace(s: State, c: ClaimId, claim: Claim, ok: bool, u: Caller, pc: Pc)
    requires PlaceOk(s, pc, u) && c < |s.claims| && ClaimOk(s, c) && RegistryOk(s)
    requires s.claims[c].phase.Started? && claim == s.claims[c].(doc := claim.doc, phase := claim.phase)
    ensures PlaceOk(s.AtClaim(c, claim).WithDisk(claim.run, claim.doc, ok), pc, u)
  { }

  lemma TaskWriteKeepsClaim(s: State, c: ClaimId, claim: Claim, ok: bool, d: ClaimId)
    requires c < |s.claims| && d < |s.claims| && ClaimOk(s, c) && ClaimOk(s, d) && RegistryOk(s)
    requires s.claims[c].phase.Started? && claim == s.claims[c].(doc := claim.doc, phase := claim.phase)
    requires claim.phase.Live()
    requires if claim.phase.Started? then claim.doc.state.Running?
             else !claim.doc.state.IsActive() && !claim.doc.state.Interrupted?
    ensures ClaimOk(s.AtClaim(c, claim).WithDisk(claim.run, claim.doc, ok), d)
  { }

  lemma TaskWriteKeeps(s: State, c: ClaimId, claim: Claim, ok: bool)
    requires Inv(s) && c < |s.claims|
    requires s.claims[c].phase.Started? && claim == s.claims[c].(doc := claim.doc, phase := claim.phase)
    requires claim.phase.Live()
    requires if claim.phase.Started? then claim.doc.state.Running?
             else !claim.doc.state.IsActive() && !claim.doc.state.Interrupted?
    ensures Inv(s.AtClaim(c, claim).WithDisk(claim.run, claim.doc, ok))
  {
    var m := s.AtClaim(c, claim).WithDisk(claim.run, claim.doc, ok);
    assert ClaimOk(s, c);
    forall u | u in m.callers ensures PlaceOk(m, m.callers[u], u) {
      TaskWriteKeepsPlace(s, c, claim, ok, u, s.callers[u]);
    }
    forall d: ClaimId | d < |m.claims| ensures ClaimOk(m, d) { TaskWriteKeepsClaim(s, c, claim, ok, d); }
  }

  lemma TaskStepKeeps(s: State, e: Event)
    requires Inv(s) && (e.TaskStart? || e.TaskProgress? || e.TaskSettle? || e.TaskRemove? || e.TaskNotify?)
    ensures Inv(TaskStep(s, e))
  {
    var c := e.claim;
    match e
    case TaskStart(_) => TaskStartKeeps(s, c);
    case TaskRemove(_) => TaskRemoveKeeps(s, c);
    case TaskNotify(_) => NotifyKeeps(s, c);
    case TaskProgress(_, ok) =>
      if TaskStep(s, e) != s {
        assert ClaimOk(s, c);
        TaskWriteKeeps(s, c, s.claims[c].(doc := s.claims[c].doc.To(s.claims[c].doc.state)), ok);
      }
    case TaskSettle(_, to, ok) =>
      if TaskStep(s, e) != s {
        TaskWriteKeeps(s, c, s.claims[c].(doc := s.claims[c].doc.To(to), phase := Settled), ok);
      }
  }

  lemma TaskRemoveKeeps(s: State, c: ClaimId)
    requires Inv(s)
    ensures Inv(TaskStep(s, TaskRemove(c)))
  {
    var m := TaskStep(s, TaskRemove(c));
    if m != s {
      assert ClaimOk(s, c);
      forall u | u in m.callers ensures PlaceOk(m, m.callers[u], u) { assert PlaceOk(s, s.callers[u], u); }
      forall d: ClaimId | d < |m.claims| ensures ClaimOk(m, d) { assert ClaimOk(s, d); }
    }
  }

  lemma NotifyKeepsPlace(s: State, c: ClaimId, u: Caller, pc: Pc)
    requires PlaceOk(s, pc, u) && c < |s.claims| && s.claims[c].phase.Removed? && !s.claims[c].doc.state.IsActive()
    ensures PlaceOk(s.AtClaim(c, s.claims[c].(phase := Finished, notified := true)).Wake({c}), pc.Woken({c}), u)
  { }

  lemma NotifyKeeps(s: State, c: ClaimId)
    requires Inv(s)
    ensures Inv(TaskStep(s, TaskNotify(c)))
  {
    if c < |s.claims| && s.claims[c].phase.Removed? {
      var m := s.AtClaim(c, s.claims[c].(phase := Finished, notified := true)).Wake({c});
      assert ClaimOk(s, c);
      forall u | u in m.callers ensures PlaceOk(m, m.callers[u], u) {
        NotifyKeepsPlace(s, c, u, s.callers[u]);
      }
      forall d: ClaimId | d < |m.claims| ensures ClaimOk(m, d) { assert ClaimOk(s, d); }
    }
  }

  lemma DrainKeeps(s: State)
    requires Inv(s) && s.shuttingDown && s.writer == None
    ensures Inv(Drain(s))
  {
    var m := Drain(s);
    forall u | u in m.callers ensures PlaceOk(m, m.callers[u], u) { assert PlaceOk(s, s.callers[u], u); }
    forall d: ClaimId | d < |m.claims| ensures ClaimOk(m, d) { assert ClaimOk(s, d); }
  }

  lemma GuardStepKeeps(s: State, t: Caller, ok: bool)
    requires Inv(s) && t in s.callers
    requires !s.callers[t].Claiming() && !s.callers[t].Cancelling() && !s.callers[t].Reading()
    ensures Inv(GuardStep(s, t, s.callers[t], ok))
  {
    match s.callers[t]
    case GetAwait(r, goal) => TakeGuardKeeps(s, t, r, GetSecond(r, goal));
    case StartAwait(r) => TakeGuardKeeps(s, t, r, BeginFlag(r, Doc(Queued, 1)));
    case ResumeAwait(r) => TakeGuardKeeps(s, t, r, ResumeActive(r));
    case GetNormalize(_, _, _) => NormalizeKeeps(s, t, ok);
    case BeginActive(_, _) => SpawnKeeps(s, t);
    case Leave(_, _, _) => LeaveKeeps(s, t);
    case _ =>
  }

  lemma ClaimStepKeeps(s: State, t: Caller, ok: bool)
    requires Inv(s) && t in s.callers && s.callers[t].Claiming() && s.callers[t].claim < |s.claims|
    ensures Inv(ClaimStep(s, t, s.callers[t], ok))
  {
    match s.callers[t]
    case BeginRegister(r, c) => RegisterKeeps(s, t, r, c);
    case BeginInsert(r, c) => InsertKeeps(s, t, r, c);
    case BeginPersist(r, c) => PersistKeeps(s, t, r, c, ok);
    case BeginLetGo(r, c) => LetGoKeeps(s, t, r, c);
    case FailMark(r, c) => FailMarkKeeps(s, t, r, c);
    case FailRemove(r, c) => FailRemoveKeeps(s, t, r, c);
  }

  lemma AdvanceKeeps(s: State, t: Caller, ok: bool)
    requires Inv(s)
    ensures Inv(Step(s, Advance(t, ok)))
  {
    if t in s.callers {
      var pc := s.callers[t];
      assert PlaceOk(s, pc, t);
      if pc.Claiming() { ClaimStepKeeps(s, t, ok); }
      else if pc.Cancelling() {
        assert ClaimOk(s, pc.claim);
        CancelNextOk(s, t, pc, ok);
        Placed(s, t, CancelNext(s, pc, ok));
      } else if pc.Reading() {
        ReadNextOk(s, t, pc);
        Placed(s, t, ReadNext(s, pc));
      } else { GuardStepKeeps(s, t, ok); }
    }
  }

  lemma FlagKeeps(s: State)
    requires Inv(s)
    ensures Inv(Step(s, ShutdownFlag))
  {
    var m := s.(shuttingDown := true);
    forall u | u in m.callers ensures PlaceOk(m, m.callers[u], u) { assert PlaceOk(s, s.callers[u], u); }
    forall d: ClaimId | d < |m.claims| ensures ClaimOk(m, d) { assert ClaimOk(s, d); }
  }

  lemma StepKeepsInv(s: State, e: Event)
    requires Inv(s)
    ensures Inv(Step(s, e))
  {
    match e
    case CallRun(t, r) => CallKeeps(s, t, StartAwait(r));
    case CallGet(t, r) => CallKeeps(s, t, GetFirst(r, Read));
    case CallResume(t, r) => CallKeeps(s, t, GetFirst(r, Resume));
    case CallCancel(t, r) => CallKeeps(s, t, CancelLookup(r));
    case Advance(t, ok) => AdvanceKeeps(s, t, ok);
    case ShutdownFlag => FlagKeeps(s);
    case ShutdownDrain => if s.shuttingDown && s.writer == None { DrainKeeps(s); }
    case _ => TaskStepKeeps(s, e);
  }

  // ---- Every interleaving ----

  /** A fresh process over whatever documents an earlier one left on disk. */
  function Fresh(disk: map<RunId, Doc>): State {
    State(false, false, None, map[], map[], disk, [], map[])
  }

  ghost function Run(disk: map<RunId, Doc>, es: seq<Event>): State {
    if es == [] then Fresh(disk) else Step(Run(disk, es[..|es| - 1]), es[|es| - 1])
  }

  lemma {:induction false} RunKeepsInv(disk: map<RunId, Doc>, es: seq<Event>)
    ensures Inv(Run(disk, es))
  {
    if es != [] {
      RunKeepsInv(disk, es[..|es| - 1]);
      StepKeepsInv(Run(disk, es[..|es| - 1]), es[|es| - 1]);
    }
  }

  /** Two tasks never execute the same run, before or after a shutdown, and a task that
      shutdown has not aborted is the run's registered claim. */
  lemma OneTaskPerRun(disk: map<RunId, Doc>, es: seq<Event>, c: ClaimId, d: ClaimId)
    requires c < |Run(disk, es).claims| && d < |Run(disk, es).claims|
    requires Run(disk, es).claims[c].phase.Live() && Run(disk, es).claims[d].phase.Live()
    ensures Run(disk, es).claims[c].run == Run(disk, es).claims[d].run ==> c == d
    ensures Run(disk, es).claims[c].aborted || Registered(Run(disk, es), c)
  {
    RunKeepsInv(disk, es);
    assert ClaimOk(Run(disk, es), c);
  }

  /** A task that starts has its claimed `running` document, the very one readers see in
      memory, on disk. */
  lemma StartIsDurable(disk: map<RunId, Doc>, es: seq<Event>, c: ClaimId)
    requires Step(Run(disk, es), TaskStart(c)) != Run(disk, es)
    ensures
      var s := Run(disk, es);
      && Registered(s, c) && s.claims[c].doc.state.Running?
      && Get(s.disk, s.claims[c].run) == Some(s.claims[c].doc)
  {
    RunKeepsInv(disk, es);
    assert ClaimOk(Run(disk, es), c);
  }

  /** Normalization happens only while its run is unregistered, and until shutdown it
      replaces exactly the document it read: no start, resume or task write for that run
      comes between the read and the write. */
  lemma NormalizeOnlyIdleRuns(disk: map<RunId, Doc>, es: seq<Event>, t: Caller)
    requires t in Run(disk, es).callers && Run(disk, es).callers[t].GetNormalize?
    ensures
      var s := Run(disk, es);
      var pc := s.callers[t];
      && pc.run !in s.active
      && (!s.drained ==> Get(s.disk, pc.run) == Some(pc.read))
      && (forall c: ClaimId | c < |s.claims| && s.claims[c].run == pc.run && s.claims[c].phase.Live() ::
            s.claims[c].aborted && s.drained)
  {
    RunKeepsInv(disk, es);
    var s := Run(disk, es);
    assert PlaceOk(s, s.callers[t], t);
    forall c: ClaimId | c < |s.claims| && s.claims[c].run == s.callers[t].run && s.claims[c].phase.Live()
      ensures s.claims[c].aborted && s.drained
    {
      assert ClaimOk(s, c);
    }
  }

  /** A read of a registered run never reports the run as interrupted or not yet begun,
      so a resume that finds it registered is refused. */
  lemma RegisteredRunsAreNeverInterrupted(disk: map<RunId, Doc>, es: seq<Event>, r: RunId)
    requires r in Run(disk, es).active
    ensures Seen(Run(disk, es), r) !in {Interrupted, Queued}
    ensures Answered(r, Resume, Seen(Run(disk, es), r)) == Returned(r, Err(NotInterrupted))
  {
    RunKeepsInv(disk, es);
    assert ClaimOk(Run(disk, es), Run(disk, es).active[r]);
  }

  /** A failed claim and a settling task remove no registry entry but their own, and the
      second `already active` test of a claim never fires. */
  lemma EntriesAreRemovedByTheirOwners(disk: map<RunId, Doc>, es: seq<Event>, t: Caller, c: ClaimId)
    ensures
      var s := Run(disk, es);
      && (t in s.callers && s.callers[t].FailRemove? && s.callers[t].run in s.active ==>
            s.active[s.callers[t].run] == s.callers[t].claim)
      && (t in s.callers && s.callers[t].BeginInsert? ==> s.callers[t].run !in s.active)
      && (c < |s.claims| && s.claims[c].phase.Settled? && s.claims[c].run in s.active ==> Registered(s, c))
  {
    RunKeepsInv(disk, es);
    var s := Run(disk, es);
    if t in s.callers { assert PlaceOk(s, s.callers[t], t); }
    if c < |s.claims| { assert ClaimOk(s, c); }
  }

  // ---- Shutdown ----

  /** Neither undoes a drain nor makes claim `c` live. */
  ghost predicate NoNewLife(s: State, s': State, c: ClaimId) {
    && (s.drained ==> s'.drained)
    && (c < |s'.claims| && s'.claims[c].phase.Live() ==> c < |s.claims| && s.claims[c].phase.Live())
  }

  lemma GuardStepFrame(s: State, t: Caller, pc: Pc, ok: bool, c: ClaimId)
    requires !pc.Claiming() && !pc.Cancelling() && !pc.Reading()
    ensures NoNewLife(s, GuardStep(s, t, pc, ok), c)
  { }

  lemma ClaimStepFrame(s: State, t: Caller, pc: Pc, ok: bool, c: ClaimId)
    requires pc.Claiming() && pc.claim < |s.claims|
    ensures NoNewLife(s, ClaimStep(s, t, pc, ok), c)
  { }

  lemma TaskStepFrame(s: State, e: Event, c: ClaimId)
    requires e.TaskStart? || e.TaskProgress? || e.TaskSettle? || e.TaskRemove? || e.TaskNotify?
    requires s.drained && Inv(s)
    ensures NoNewLife(s, TaskStep(s, e), c)
  {
    if e.claim < |s.claims| { assert ClaimOk(s, e.claim); }
  }

  lemma DrainedStep(s: State, e: Event, c: ClaimId)
    requires Inv(s) && s.drained
    ensures NoNewLife(s, Step(s, e), c)
  {
    match e
    case Advance(t, ok) =>
      if t in s.callers {
        var pc := s.callers[t];
        if pc.Claiming() {
          if pc.claim < |s.claims| { ClaimStepFrame(s, t, pc, ok, c); }
        } else if !pc.Cancelling() && !pc.Reading() {
          GuardStepFrame(s, t, pc, ok, c);
        }
      }
    case TaskStart(_) => TaskStepFrame(s, e, c);
    case TaskProgress(_, _) => TaskStepFrame(s, e, c);
    case TaskSettle(_, _, _) => TaskStepFrame(s, e, c);
    case TaskRemove(_) => TaskStepFrame(s, e, c);
    case TaskNotify(_) => TaskStepFrame(s, e, c);
    case _ =>
  }

  lemma RunLast(disk: map<RunId, Doc>, es: seq<Event>, more: seq<Event>)
    requires more != []
    ensures Run(disk, es + more) == Step(Run(disk, es + more[..|more| - 1]), more[|more| - 1])
  {
    assert (es + more)[..|es + more| - 1] == es + more[..|more| - 1];
  }

  /** From the drain on no claim comes to life. */
  lemma {:induction false} DrainedForGood(disk: map<RunId, Doc>, es: seq<Event>, more: seq<Event>, c: ClaimId)
    requires Run(disk, es).drained
    ensures Run(disk, es + more).drained && NoNewLife(Run(disk, es), Run(disk, es + more), c)
  {
    if more == [] {
      assert es + more == es;
    } else {
      var front := more[..|more| - 1];
      DrainedForGood(disk, es, front, c);
      RunKeepsInv(disk, es + front);
      DrainedStep(Run(disk, es + front), more[|more| - 1], c);
      RunLast(disk, es, more);
    }
  }

  lemma DrainedIsEmpty(s: State)
    requires Inv(s) && s.drained
    ensures s.active == map[]
  { }

  /** From the drain on the registry is empty in every state, and no task that was not
      already executing ever starts, wherever a concurrent claim had got to. */
  lemma ShutdownIsFinal(disk: map<RunId, Doc>, es: seq<Event>, more: seq<Event>, c: ClaimId)
    requires Run(disk, es).drained
    ensures Run(disk, es + more).drained && Run(disk, es + more).active == map[]
    ensures c < |Run(disk, es + more).claims| && Run(disk, es + more).claims[c].phase.Live() ==>
              c < |Run(disk, es).claims| && Run(disk, es).claims[c].phase.Live()
  {
    DrainedForGood(disk, es, more, c);
    RunKeepsInv(disk, es + more);
    DrainedIsEmpty(Run(disk, es + more));
  }

  // ---- Cancel ----

  /** No lost wake-up: a cancel still waiting has not missed the notification of its
      run's settling task or failed claim. Until a shutdown, a woken cancel reports a
      settled state. */
  lemma CancelMissesNoNotification(disk: map<RunId, Doc>, es: seq<Event>, t: Caller)
    requires t in Run(disk, es).callers && Run(disk, es).callers[t].CancelWait?
    ensures
      var s := Run(disk, es);
      var CancelWait(r, c, woken) := s.callers[t];
      && c < |s.claims|
      && (!woken ==> !s.claims[c].notified && !s.claims[c].phase.Finished?)
      && (woken && !s.drained ==> exists state: RunState ::
            !state.IsActive() && Step(s, Advance(t, true)).callers[t] == Returned(r, Ok(state)))
  {
    RunKeepsInv(disk, es);
    var s := Run(disk, es);
    assert PlaceOk(s, s.callers[t], t);
    assert ClaimOk(s, s.callers[t].claim);
    if s.callers[t].woken && !s.drained {
      var state := s.claims[s.callers[t].claim].doc.state;
      assert Step(s, Advance(t, true)).callers[t] == Returned(s.callers[t].run, Ok(state));
    }
  }
}
