/** Connecting to remote workers under trust on first use, many connects at once. */
module PinnedConnects {
  import opened Wrappers

  type Fingerprint = string

  datatype Policy = Tofu | RequirePin

  /** How writing the store to disk goes. A write that fails half-way leaves the temporary
      file, whose name is fixed for the process and which is only ever created anew. */
  datatype Saving = Saved | NotCreated | NotWritten | NotRenamed

  /** The trust store: the keys in memory, those on disk, and the temporary file. */
  datatype Store = Store(keys: map<string, Fingerprint>, disk: map<string, Fingerprint>, leftover: bool)

  predicate Persists(s: Store, saving: Saving) { !s.leftover && saving.Saved? }

  /** `TrustedKeyStore::trust` */
  function Trusted(s: Store, key: string, fp: Fingerprint, saving: Saving): Store {
    var keys := s.keys[key := fp];
    if s.leftover || saving.NotCreated? then s.(keys := keys)
    else if saving.Saved? then s.(keys := keys, disk := keys)
    else s.(keys := keys, leftover := true)
  }

  datatype Fault = NoPin | Refused | Mismatch | NotPersisted

  /** What the connection must present; none on first use and when pinning is skipped. */
  function Expected(s: Store, key: string, policy: Policy, skip: bool): Result<Option<Fingerprint>, Fault> {
    if skip then Ok(None)
    else if key in s.keys then Ok(Some(s.keys[key]))
    else if policy.RequirePin? then Err(NoPin)
    else Ok(None)
  }

  /** Recording the fingerprint of a first use, under the store's lock. */
  function RecordAnswer(s: Store, key: string, fp: Fingerprint, saving: Saving): Result<(), Fault> {
    if key in s.keys && s.keys[key] != fp then Err(Mismatch)
    else if Persists(s, saving) then Ok(())
    else Err(NotPersisted)
  }

  function Recorded(s: Store, key: string, fp: Fingerprint, saving: Saving): Store {
    if key in s.keys && s.keys[key] != fp then s else Trusted(s, key, fp, saving)
  }

  class TrustedKeyStore {
    var keys: map<string, Fingerprint>
    var disk: map<string, Fingerprint>
    var leftover: bool

    ghost function Now(): Store
      reads this
    {
      Store(keys, disk, leftover)
    }

    constructor Load(file: map<string, Fingerprint>)
      ensures Now() == Store(file, file, false)
    {
      keys, disk, leftover := file, file, false;
    }

    method Persist(saving: Saving) returns (ok: bool)
      modifies this`disk, this`leftover
      ensures ok == Persists(old(Now()), saving)
      ensures disk == if ok then keys else old(disk)
      ensures leftover == (old(leftover) || saving.NotWritten? || saving.NotRenamed?)
    {
      if leftover || saving.NotCreated? {
        return false;
      }
      if saving.Saved? {
        disk := keys;
        return true;
      }
      leftover := true;
      return false;
    }

    method Trust(key: string, fp: Fingerprint, saving: Saving) returns (ok: bool)
      modifies this
      ensures ok == Persists(old(Now()), saving) && Now() == Trusted(old(Now()), key, fp, saving)
    {
      keys := keys[key := fp];
      ok := Persist(saving);
    }

    method LookUp(key: string, policy: Policy, skip: bool) returns (r: Result<Option<Fingerprint>, Fault>)
      ensures r == Expected(Now(), key, policy, skip)
    {
      if skip {
        return Ok(None);
      }
      if key in keys {
        return Ok(Some(keys[key]));
      }
      if policy == RequirePin {
        return Err(NoPin);
      }
      return Ok(None);
    }

    /** The store may have changed since the lookup: a pin recorded by another connect in
        the meantime is not overwritten. */
    method RecordPin(key: string, fp: Fingerprint, saving: Saving) returns (r: Result<(), Fault>)
      modifies this
      ensures r == RecordAnswer(old(Now()), key, fp, saving) && Now() == Recorded(old(Now()), key, fp, saving)
    {
      if key in keys && keys[key] != fp {
        return Err(Mismatch);
      }
      var ok := Trust(key, fp, saving);
      if !ok {
        return Err(NotPersisted);
      }
      return Ok(());
    }

    /** A connect on its own; `presented` is nothing if the worker cannot be reached. It
        succeeds with pinning only for the fingerprint that is then pinned. */
    method Connect(key: string, policy: Policy, skip: bool, presented: Option<Fingerprint>, saving: Saving)
      returns (r: Result<(), Fault>)
      modifies this
      ensures Expected(old(Now()), key, policy, skip).Err? ==> r == Err(NoPin) && Now() == old(Now())
      ensures Expected(old(Now()), key, policy, skip).Ok? ==>
                match Expected(old(Now()), key, policy, skip).value
                case Some(pin) => Now() == old(Now()) && r == if presented == Some(pin) then Ok(()) else Err(Refused)
                case None =>
                  if presented.None? then Now() == old(Now()) && r == Err(Refused)
                  else if skip then Now() == old(Now()) && r == Ok(())
                  else && Now() == Recorded(old(Now()), key, presented.value, saving)
                       && r == RecordAnswer(old(Now()), key, presented.value, saving)
      ensures r.Ok? && !skip ==> presented.Some? && Pinned(Now(), key, presented.value)
    {
      var expected := LookUp(key, policy, skip);
      if expected.Err? {
        return Err(expected.error);
      }
      if presented.None? || (expected.value.Some? && expected.value != presented) {
        return Err(Refused);
      }
      if expected.value.None? && !skip {
        r := RecordPin(key, presented.value, saving);
        return;
      }
      return Ok(());
    }
  }

  // ---- Many connects, section by section ----

  datatype Attempt =
    | LookedUp(key: string, policy: Policy, skip: bool, expected: Option<Fingerprint>)
    | Shaken(key: string, policy: Policy, presented: Fingerprint)
    | Connected(key: string, policy: Policy, skip: bool, presented: Fingerprint)
    | Failed(fault: Fault)

  datatype State = State(store: Store, attempts: map<nat, Attempt>)

  /** A new attempt, its handshake, and the record of a first use. */
  datatype Event =
    | LookUp(id: nat, key: string, policy: Policy, skip: bool)
    | Handshake(id: nat, presented: Option<Fingerprint>)
    | Record(id: nat, saving: Saving)

  function AfterHandshake(a: Attempt, presented: Option<Fingerprint>): Attempt
    requires a.LookedUp?
  {
    if presented.None? || (a.expected.Some? && a.expected != presented) then Failed(Refused)
    else if a.expected.None? && !a.skip then Shaken(a.key, a.policy, presented.value)
    else Connected(a.key, a.policy, a.skip, presented.value)
  }

  function Step(s: State, e: Event): State {
    match e
    case LookUp(id, key, policy, skip) =>
      if id in s.attempts then s
      else
        var expected := Expected(s.store, key, policy, skip);
        var attempt := if expected.Ok? then LookedUp(key, policy, skip, expected.value) else Failed(expected.error);
        s.(attempts := s.attempts[id := attempt])
    case Handshake(id, presented) =>
      if id in s.attempts && s.attempts[id].LookedUp?
      then s.(attempts := s.attempts[id := AfterHandshake(s.attempts[id], presented)])
      else s
    case Record(id, saving) =>
      if id in s.attempts && s.attempts[id].Shaken? then
        var Shaken(key, policy, fp) := s.attempts[id];
        var answer := RecordAnswer(s.store, key, fp, saving);
        State(Recorded(s.store, key, fp, saving),
              s.attempts[id := if answer.Ok? then Connected(key, policy, false, fp) else Failed(answer.error)])
      else s
  }

  /** A run from a store loaded from `file`. */
  function Run(file: map<string, Fingerprint>, es: seq<Event>): State {
    if es == [] then State(Store(file, file, false), map[])
    else Step(Run(file, es[..|es| - 1]), es[|es| - 1])
  }

  predicate Pinned(s: Store, key: string, fp: Fingerprint) { key in s.keys && s.keys[key] == fp }

  ghost predicate AttemptOk(s: Store, a: Attempt) {
    match a
    case LookedUp(key, policy, skip, expected) =>
      (expected.Some? ==> !skip && Pinned(s, key, expected.value)) && (policy.RequirePin? && !skip ==> expected.Some?)
    case Shaken(key, policy, fp) => policy.Tofu?
    case Connected(key, policy, skip, fp) => !skip ==> Pinned(s, key, fp)
    case Failed(_) => true
  }

  ghost predicate Inv(s: State) {
    && (forall key | key in s.store.disk :: Pinned(s.store, key, s.store.disk[key]))
    && forall id | id in s.attempts :: AttemptOk(s.store, s.attempts[id])
  }

  lemma StepKeepsPins(s: State, e: Event, key: string, fp: Fingerprint)
    requires Pinned(s.store, key, fp)
    ensures Pinned(Step(s, e).store, key, fp)
  { }

  lemma StepKeepsInv(s: State, e: Event)
    requires Inv(s)
    ensures Inv(Step(s, e))
  {
    var r := Step(s, e);
    forall key | key in r.store.disk ensures Pinned(r.store, key, r.store.disk[key]) {
      if key in s.store.disk { StepKeepsPins(s, e, key, s.store.disk[key]); }
    }
    forall id | id in r.attempts ensures AttemptOk(r.store, r.attempts[id]) {
      if id in s.attempts && r.attempts[id] == s.attempts[id] {
        match s.attempts[id]
        case LookedUp(key, _, _, expected) => if expected.Some? { StepKeepsPins(s, e, key, expected.value); }
        case Connected(key, _, skip, fp) => if !skip { StepKeepsPins(s, e, key, fp); }
        case _ =>
      }
    }
  }

  lemma {:induction false} RunKeepsInv(file: map<string, Fingerprint>, es: seq<Event>)
    ensures Inv(Run(file, es))
  {
    if es != [] {
      RunKeepsInv(file, es[..|es| - 1]);
      StepKeepsInv(Run(file, es[..|es| - 1]), es[|es| - 1]);
    }
  }

  /** Once a key is pinned, its pin never changes, whatever connects come and however their
      lookups, handshakes and records interleave. */
  lemma {:induction false} PinsNeverChange(file: map<string, Fingerprint>, es: seq<Event>, more: seq<Event>,
                                           key: string)
    requires key in Run(file, es).store.keys
    ensures Pinned(Run(file, es + more).store, key, Run(file, es).store.keys[key])
  {
    if more == [] {
      assert es + more == es;
    } else {
      var init := more[..|more| - 1];
      assert (es + more)[..|es + more| - 1] == es + init;
      PinsNeverChange(file, es, init, key);
      StepKeepsPins(Run(file, es + init), more[|more| - 1], key, Run(file, es).store.keys[key]);
    }
  }

  /** Every pinning connect that succeeds presented the fingerprint pinned for its key. */
  lemma ConnectedPresentedThePin(file: map<string, Fingerprint>, es: seq<Event>, id: nat)
    requires id in Run(file, es).attempts
    requires Run(file, es).attempts[id].Connected? && !Run(file, es).attempts[id].skip
    ensures
      var a := Run(file, es).attempts[id];
      Pinned(Run(file, es).store, a.key, a.presented)
  {
    RunKeepsInv(file, es);
  }

  /** Two of them for one key presented the same. */
  lemma ConnectedToTheSameWorker(file: map<string, Fingerprint>, es: seq<Event>, i: nat, j: nat)
    requires i in Run(file, es).attempts && j in Run(file, es).attempts
    requires
      var (a, b) := (Run(file, es).attempts[i], Run(file, es).attempts[j]);
      a.Connected? && b.Connected? && !a.skip && !b.skip && a.key == b.key
    ensures Run(file, es).attempts[i].presented == Run(file, es).attempts[j].presented
  {
    RunKeepsInv(file, es);
  }

  /** What is on disk is what memory holds for those keys; so a pin once saved stays saved. */
  lemma DiskAgreesWithMemory(file: map<string, Fingerprint>, es: seq<Event>, key: string)
    requires key in Run(file, es).store.disk
    ensures Pinned(Run(file, es).store, key, Run(file, es).store.disk[key])
  {
    RunKeepsInv(file, es);
  }

  /** A key is only ever pinned by a first use that does not require a pin, and never while
      pinning is skipped. */
  lemma OnlyFirstUsePins(file: map<string, Fingerprint>, es: seq<Event>, e: Event, key: string)
    requires key !in Run(file, es).store.keys && key in Step(Run(file, es), e).store.keys
    ensures e.Record? && e.id in Run(file, es).attempts
    ensures
      var a := Run(file, es).attempts[e.id];
      a.Shaken? && a.key == key && a.policy.Tofu?
  {
    RunKeepsInv(file, es);
  }

  // ---- When pins are saved ----

  /** A record that goes on to write the store: its key has no other pin by now. */
  predicate Writes(s: State, e: Event) {
    && e.Record? && e.id in s.attempts && s.attempts[e.id].Shaken?
    && !(s.attempts[e.id].key in s.store.keys && s.store.keys[s.attempts[e.id].key] != s.attempts[e.id].presented)
  }

  /** A write that fails once its temporary file may exist. */
  predicate HalfWritten(s: State, e: Event) {
    Writes(s, e) && (e.saving.NotWritten? || e.saving.NotRenamed?)
  }

  ghost predicate HalfWrittenIn(file: map<string, Fingerprint>, es: seq<Event>) {
    exists n: nat | n < |es| :: HalfWritten(Run(file, es[..n]), es[n])
  }

  lemma HalfWrittenSnoc(file: map<string, Fingerprint>, es: seq<Event>)
    requires es != []
    ensures
      var init, last := es[..|es| - 1], es[|es| - 1];
      HalfWrittenIn(file, es) <==> HalfWrittenIn(file, init) || HalfWritten(Run(file, init), last)
  {
    var init := es[..|es| - 1];
    assert forall n: nat | n < |init| :: init[..n] == es[..n] && init[n] == es[n];
    if HalfWrittenIn(file, init) {
      var n: nat :| n < |init| && HalfWritten(Run(file, init[..n]), init[n]);
      assert HalfWritten(Run(file, es[..n]), es[n]);
    }
    if HalfWrittenIn(file, es) && !HalfWritten(Run(file, init), es[|es| - 1]) {
      var n: nat :| n < |es| && HalfWritten(Run(file, es[..n]), es[n]);
      assert HalfWritten(Run(file, init[..n]), init[n]);
    }
  }

  /** The temporary file is left behind exactly if some write of this process was half done. */
  lemma {:induction false} LeftoverIffHalfWritten(file: map<string, Fingerprint>, es: seq<Event>)
    ensures Run(file, es).store.leftover <==> HalfWrittenIn(file, es)
  {
    if es != [] {
      LeftoverIffHalfWritten(file, es[..|es| - 1]);
      HalfWrittenSnoc(file, es);
    }
  }

  /** A first use whose own write meets no fault succeeds, with every pin of the process then
      on disk, exactly if no earlier write was half done; otherwise the disk stays as it is. */
  lemma SavedIffNoneHalfWritten(file: map<string, Fingerprint>, es: seq<Event>, id: nat)
    requires Writes(Run(file, es), Record(id, Saved))
    ensures
      var before, after := Run(file, es), Run(file, es + [Record(id, Saved)]);
      var Shaken(key, _, fp) := before.attempts[id];
      if HalfWrittenIn(file, es)
      then after.attempts[id] == Failed(NotPersisted) && after.store.disk == before.store.disk
      else && after.attempts[id].Connected? && Pinned(after.store, key, fp)
           && after.store.disk == after.store.keys == before.store.keys[key := fp]
  {
    LeftoverIffHalfWritten(file, es);
    assert (es + [Record(id, Saved)])[..|es|] == es;
  }

  lemma RunSnoc(file: map<string, Fingerprint>, es: seq<Event>, e: Event)
    ensures Run(file, es + [e]) == Step(Run(file, es), e)
  {
    assert (es + [e])[..|es|] == es;
  }

  /** Any first use can be the one that leaves the file: here one whose write fails. */
  lemma HalfWriteLeavesTheFile(file: map<string, Fingerprint>, id: nat, key: string, fp: Fingerprint)
    requires key !in file
    ensures
      var s := Run(file, [LookUp(id, key, Tofu, false), Handshake(id, Some(fp)), Record(id, NotWritten)]);
      s.store == Store(file[key := fp], file, true) && s.attempts == map[id := Failed(NotPersisted)]
  {
    var a, b, c := LookUp(id, key, Tofu, false), Handshake(id, Some(fp)), Record(id, NotWritten);
    assert [a, b, c] == [] + [a] + [b] + [c];
    RunSnoc(file, [], a);
    RunSnoc(file, [] + [a], b);
    RunSnoc(file, [] + [a] + [b], c);
    assert Run(file, [] + [a]).attempts[id] == LookedUp(key, Tofu, false, None);
    assert Run(file, [] + [a] + [b]) == State(Store(file, file, false), map[id := Shaken(key, Tofu, fp)]);
  }

  /** After one write that failed half-way nothing is ever saved again by this process, and
      every later first use ends in an error. */
  lemma {:induction false} LeftoverBlocksSaving(file: map<string, Fingerprint>, es: seq<Event>, more: seq<Event>)
    requires Run(file, es).store.leftover
    ensures Run(file, es + more).store.leftover
    ensures Run(file, es + more).store.disk == Run(file, es).store.disk
    ensures forall key, fp, saving :: RecordAnswer(Run(file, es + more).store, key, fp, saving).Err?
  {
    if more == [] {
      assert es + more == es;
    } else {
      var init := more[..|more| - 1];
      assert (es + more)[..|es + more| - 1] == es + init;
      LeftoverBlocksSaving(file, es, init);
    }
  }
}
