/** One operation call from validation to its finish record, and many calls interleaved. */
module Invocations {
  import opened Wrappers
  import opened JsonPointer
  import opened AssetFields

  const MAX_INLINE_TEXT_BYTES: nat := 262_144

  datatype Fault =
    | UnknownOperation
    | InvalidInput
    | InlineTextTooLarge
    | AssetNotFound
    | MediaTypeMismatch
    | AssetFileMissing
    | ProviderFailed(code: string)
    | InvalidOutput
    | BadPath
    | BadPointer(error: JsonPointer.Error)
    | Io

  datatype Outcome = Running | Succeeded(output: Value) | Failed(fault: Fault) | Cancelled

  datatype StepLine = StepLine(step: nat, outcome: Outcome)

  datatype AssetRecord = AssetRecord(id: string, origin: nat)

  /** What is found out about an input asset besides its record. */
  datatype Lookup = Unreadable | WrongMedia | NoFile | Content(path: string)

  /** A request, with what everything outside this file answers while it is served. */
  datatype Call = Call(
    known: bool,
    inputSchema: Schema,
    outputSchema: Schema,
    readOnly: bool,
    inRun: bool,
    input: Value,
    inputValid: bool,
    inlineInput: nat,
    lookups: seq<Lookup>,
    scratchMade: bool,
    startWritten: bool,
    provided: Result<Value, Fault>,
    outputValid: bool,
    inlineOutput: nat,
    validPaths: set<string>,
    ingests: seq<Option<string>>,
    scratchDropped: bool,
    finishWritten: bool,
    cancelled: bool)

  predicate IsAssetId(s: string) {
    s != "" && forall c | c in s :: c as int < 128 && c !in {'/', '\\', '\0'}
  }

  // ---- Before the step exists ----

  /** The input fields from the `k`-th on, each with the file of the asset it names. */
  function FindInputs(c: Call, ps: seq<Tokens>, k: nat, assets: seq<AssetRecord>): Result<seq<Write>, Fault>
    decreases |ps| - k
  {
    if k >= |ps| then Ok([])
    else
      var v := Resolve(c.input, ps[k]);
      var lookup := if k < |c.lookups| then c.lookups[k] else Unreadable;
      if v.None? || !v.value.Str? || !IsAssetId(v.value.s) then Err(InvalidInput)
      else if lookup.Unreadable? then Err(Io)
      else if forall record | record in assets :: record.id != v.value.s then Err(AssetNotFound)
      else if lookup.WrongMedia? then Err(MediaTypeMismatch)
      else if lookup.NoFile? then Err(AssetFileMissing)
      else Prepend([(ps[k], Str(lookup.path))], FindInputs(c, ps, k + 1, assets))
  }

  /** `r`, with `writes` already found. */
  function Prepend(writes: seq<Write>, r: Result<seq<Write>, Fault>): Result<seq<Write>, Fault> {
    match r case Ok(rest) => Ok(writes + rest) case Err(f) => Err(f)
  }

  lemma PrependNothing(r: Result<seq<Write>, Fault>)
    ensures Prepend([], r) == r
  {
    if r.Ok? { assert [] + r.value == r.value; }
  }

  lemma PrependOne(writes: seq<Write>, w: Write, r: Result<seq<Write>, Fault>)
    ensures Prepend(writes, Prepend([w], r)) == Prepend(writes + [w], r)
  {
    if r.Ok? { assert writes + ([w] + r.value) == writes + [w] + r.value; }
  }

  function PointerFault<T>(r: Result<T, JsonPointer.Error>): Result<T, Fault> {
    match r case Ok(v) => Ok(v) case Err(e) => Err(BadPointer(e))
  }

  /** The input the provider is given. */
  function Prepared(c: Call, assets: seq<AssetRecord>): Result<Value, Fault> {
    if !c.known then Err(UnknownOperation)
    else if !c.inputValid then Err(InvalidInput)
    else if c.inlineInput > MAX_INLINE_TEXT_BYTES then Err(InlineTextTooLarge)
    else match FindInputs(c, Fields(c.inputSchema, c.input, false), 0, assets)
         case Ok(writes) => PointerFault(SetAll(c.input, writes))
         case Err(f) => Err(f)
  }

  predicate Recorded(c: Call) { c.inRun || !c.readOnly || HasAssetField(c.outputSchema) }

  // ---- The step ----

  predicate HasValidPath(c: Call, raw: Value, p: Tokens) {
    var v := Resolve(raw, p);
    v.Some? && v.value.Str? && v.value.s in c.validPaths
  }

  /** The fault of the first output field, from the `k`-th on, without a valid path. */
  function PathFault(c: Call, raw: Value, ps: seq<Tokens>, k: nat): Option<Fault>
    decreases |ps| - k
  {
    if k >= |ps| then None
    else
      var v := Resolve(raw, ps[k]);
      if v.None? || !v.value.Str? then Some(InvalidOutput)
      else if v.value.s !in c.validPaths then Some(BadPath)
      else PathFault(c, raw, ps, k + 1)
  }

  /** Taking in the files of the fields `ps` one by one: the ids given out, and the output
      with every id in place of its path. */
  function IngestAll(v: Value, ps: seq<Tokens>, ids: seq<Option<string>>): (seq<string>, Result<Value, Fault>)
    decreases |ps|
  {
    if ps == [] then ([], Ok(v))
    else if ids == [] || ids[0].None? then ([], Err(Io))
    else match SetAt(v, ps[0], Str(ids[0].value))
         case Err(e) => ([ids[0].value], Err(BadPointer(e)))
         case Ok(next) =>
           var (rest, r) := IngestAll(next, ps[1..], ids[1..]);
           ([ids[0].value] + rest, r)
  }

  /** The same with `done` given out before. */
  function IngestMore(done: seq<string>, v: Value, ps: seq<Tokens>, ids: seq<Option<string>>)
    : (seq<string>, Result<Value, Fault>)
  {
    var (more, r) := IngestAll(v, ps, ids);
    (done + more, r)
  }

  lemma IngestOne(done: seq<string>, v: Value, ps: seq<Tokens>, ids: seq<Option<string>>)
    requires ps != [] && ids != [] && ids[0].Some?
    ensures
      var id := ids[0].value;
      IngestMore(done, v, ps, ids)
      == match SetAt(v, ps[0], Str(id))
         case Err(e) => (done + [id], Err(BadPointer(e)))
         case Ok(next) => IngestMore(done + [id], next, ps[1..], ids[1..])
  {
    var id, written := ids[0].value, SetAt(v, ps[0], Str(ids[0].value));
    if written.Ok? {
      var more := IngestAll(written.value, ps[1..], ids[1..]).0;
      assert done + ([id] + more) == done + [id] + more;
    }
  }

  lemma IngestNoMore(done: seq<string>, v: Value, ps: seq<Tokens>, ids: seq<Option<string>>)
    ensures ps == [] ==> IngestMore(done, v, ps, ids) == (done, Ok(v))
    ensures ps != [] && (ids == [] || ids[0].None?) ==> IngestMore(done, v, ps, ids) == (done, Err(Io))
    ensures IngestMore([], v, ps, ids) == IngestAll(v, ps, ids)
  {
    assert done + [] == done;
    var more := IngestAll(v, ps, ids).0;
    assert [] + more == more;
  }

  /** The assets a step takes in and what it comes to. */
  function Executed(c: Call): (seq<string>, Result<Value, Fault>) {
    match c.provided
    case Err(f) => ([], Err(f))
    case Ok(raw) =>
      if !c.outputValid || c.inlineOutput > MAX_INLINE_TEXT_BYTES then ([], Err(InvalidOutput))
      else
        var ps := Fields(c.outputSchema, raw, false);
        var fault := PathFault(c, raw, ps, 0);
        if fault.Some? then ([], Err(fault.value)) else IngestAll(raw, ps, c.ingests)
  }

  function FinalOutcome(c: Call): Outcome {
    match Executed(c).1
    case Ok(output) => Succeeded(output)
    case Err(f) => if c.cancelled then Cancelled else Failed(f)
  }

  datatype Act = MakeScratch | Log(outcome: Outcome) | Ingest(id: string) | DropScratch

  function Ingests(ids: seq<string>): seq<Act> { seq(|ids|, i requires 0 <= i < |ids| => Ingest(ids[i])) }

  predicate Starts(c: Call) { c.scratchMade && (Recorded(c) ==> c.startWritten) }

  /** What a step does to the files: whether it makes its scratch directory and removes it,
      the assets it takes in and the records it writes. */
  datatype Outline = Outline(made: bool, started: bool, ids: seq<string>, dropped: bool, finish: Option<Outcome>)

  function Outlined(c: Call): Outline {
    Outline(
      c.scratchMade,
      c.scratchMade && Recorded(c) && c.startWritten,
      if Starts(c) then Executed(c).0 else [],
      c.scratchMade && c.scratchDropped,
      if Starts(c) && Recorded(c) && c.finishWritten then Some(FinalOutcome(c)) else None)
  }

  function Opening(o: Outline): seq<Act> {
    (if o.made then [MakeScratch] else []) + (if o.started then [Log(Running)] else [])
  }

  function Ending(o: Outline): seq<Act> {
    (if o.dropped then [DropScratch] else []) + (if o.finish.Some? then [Log(o.finish.value)] else [])
  }

  function Acts(o: Outline): seq<Act> { Opening(o) + Ingests(o.ids) + Ending(o) }

  /** Everything one step does to the files, in order. */
  function Plan(c: Call): seq<Act> { Acts(Outlined(c)) }

  /** What the caller gets. */
  function Answer(c: Call): Result<Value, Fault> {
    if !Starts(c) then Err(Io)
    else if Executed(c).1.Ok? && Recorded(c) && !c.finishWritten then Err(Io)
    else Executed(c).1
  }

  // ---- The files ----

  datatype World = World(lines: seq<StepLine>, assets: seq<AssetRecord>, scratch: set<nat>)

  function Apply(w: World, step: nat, act: Act): World {
    match act
    case MakeScratch => w.(scratch := w.scratch + {step})
    case Log(outcome) => w.(lines := w.lines + [StepLine(step, outcome)])
    case Ingest(id) => w.(assets := w.assets + [AssetRecord(id, step)])
    case DropScratch => w.(scratch := w.scratch - {step})
  }

  function ApplyAll(w: World, step: nat, acts: seq<Act>): World {
    if acts == [] then w else Apply(ApplyAll(w, step, acts[..|acts| - 1]), step, acts[|acts| - 1])
  }

  lemma {:induction false} ApplyConcat(w: World, step: nat, a: seq<Act>, b: seq<Act>)
    ensures ApplyAll(w, step, a + b) == ApplyAll(ApplyAll(w, step, a), step, b)
  {
    if b == [] {
      assert a + b == a;
    } else {
      assert (a + b)[..|a + b| - 1] == a + b[..|b| - 1];
      ApplyConcat(w, step, a, b[..|b| - 1]);
    }
  }

  lemma ApplyOne(w: World, step: nat, a: seq<Act>, act: Act)
    ensures ApplyAll(w, step, a + [act]) == Apply(ApplyAll(w, step, a), step, act)
  {
    assert (a + [act])[..|a|] == a;
  }

  lemma IngestApplied(w: World, step: nat, done: seq<string>, id: string)
    ensures ApplyAll(w, step, Ingests(done + [id])) == Apply(ApplyAll(w, step, Ingests(done)), step, Ingest(id))
  {
    assert Ingests(done + [id]) == Ingests(done) + [Ingest(id)];
    ApplyOne(w, step, Ingests(done), Ingest(id));
  }

  lemma ApplyTwo(w: World, step: nat, a: Act, b: Act)
    ensures ApplyAll(w, step, [a]) == Apply(w, step, a)
    ensures ApplyAll(w, step, [a] + [b]) == Apply(Apply(w, step, a), step, b)
  {
    ApplyOne(w, step, [], a);
    assert [] + [a] == [a];
    ApplyOne(w, step, [a], b);
  }

  /** What a step does before its provider runs; all it does if it goes no further. */
  lemma ActsBeforeProvider(c: Call, w: World, step: nat)
    ensures
      var made := Apply(w, step, MakeScratch);
      ApplyAll(w, step, if Starts(c) then Opening(Outlined(c)) else Plan(c))
      == if !c.scratchMade then w
         else if !Recorded(c) then made
         else if c.startWritten then Apply(made, step, Log(Running))
         else if c.scratchDropped then Apply(made, step, DropScratch)
         else made
  {
    ApplyTwo(w, step, MakeScratch, Log(Running));
    ApplyTwo(w, step, MakeScratch, DropScratch);
    if Starts(c) {
      assert Opening(Outlined(c)) == if Recorded(c) then [MakeScratch] + [Log(Running)] else [MakeScratch];
    } else if c.scratchMade {
      assert Plan(c) == if c.scratchDropped then [MakeScratch] + [DropScratch] else [MakeScratch];
    } else {
      assert Plan(c) == [];
    }
  }

  /** The service: the two logs of a project, its scratch directories and the step counter. */
  class OperationService {
    var lines: seq<StepLine>
    var assets: seq<AssetRecord>
    var scratch: set<nat>
    var nextStep: nat

    ghost function Files(): World
      reads this
    {
      World(lines, assets, scratch)
    }

    constructor ()
      ensures Files() == World([], [], {}) && nextStep == 1
    {
      lines, assets, scratch, nextStep := [], [], {}, 1;
    }

    method LookUpInputs(c: Call, ps: seq<Tokens>) returns (r: Result<seq<Write>, Fault>)
      ensures r == FindInputs(c, ps, 0, assets)
    {
      var writes: seq<Write> := [];
      var k := 0;
      PrependNothing(FindInputs(c, ps, 0, assets));
      while k < |ps|
        invariant 0 <= k <= |ps|
        invariant FindInputs(c, ps, 0, assets) == Prepend(writes, FindInputs(c, ps, k, assets))
      {
        var v := Resolve(c.input, ps[k]);
        if v.None? || !v.value.Str? || !IsAssetId(v.value.s) {
          return Err(InvalidInput);
        }
        var lookup := if k < |c.lookups| then c.lookups[k] else Unreadable;
        if lookup.Unreadable? {
          return Err(Io);
        }
        if forall record | record in assets :: record.id != v.value.s {
          return Err(AssetNotFound);
        }
        if lookup.WrongMedia? {
          return Err(MediaTypeMismatch);
        }
        if lookup.NoFile? {
          return Err(AssetFileMissing);
        }
        PrependOne(writes, (ps[k], Str(lookup.path)), FindInputs(c, ps, k + 1, assets));
        writes := writes + [(ps[k], Str(lookup.path))];
        k := k + 1;
      }
      assert writes + [] == writes;
      return Ok(writes);
    }

    method PrepareInput(c: Call) returns (r: Result<Value, Fault>)
      ensures r == Prepared(c, assets)
    {
      if !c.known {
        return Err(UnknownOperation);
      }
      if !c.inputValid {
        return Err(InvalidInput);
      }
      if c.inlineInput > MAX_INLINE_TEXT_BYTES {
        return Err(InlineTextTooLarge);
      }
      var found := LookUpInputs(c, Fields(c.inputSchema, c.input, false));
      if found.Err? {
        return Err(found.error);
      }
      var writes := found.value;
      var input, n := c.input, 0;
      while n < |writes|
        invariant 0 <= n <= |writes|
        invariant SetAll(c.input, writes) == SetAll(input, writes[n..])
      {
        var (p, x) := writes[n];
        ParseInvertsPrint(p);
        assert writes[n..][0] == (p, x) && writes[n..][1..] == writes[n + 1..];
        var written := SetJsonPointer(input, Print(p), x);
        if written.Err? {
          return Err(BadPointer(written.error));
        }
        input, n := written.value, n + 1;
      }
      return Ok(input);
    }

    method CheckPaths(c: Call, raw: Value, ps: seq<Tokens>) returns (fault: Option<Fault>)
      ensures fault == PathFault(c, raw, ps, 0)
    {
      var k := 0;
      while k < |ps|
        invariant 0 <= k <= |ps|
        invariant PathFault(c, raw, ps, 0) == PathFault(c, raw, ps, k)
      {
        var v := Resolve(raw, ps[k]);
        if v.None? || !v.value.Str? {
          return Some(InvalidOutput);
        }
        if v.value.s !in c.validPaths {
          return Some(BadPath);
        }
        k := k + 1;
      }
      return None;
    }

    method IngestFields(raw: Value, ps: seq<Tokens>, ids: seq<Option<string>>, step: nat)
      returns (r: Result<Value, Fault>)
      modifies this`assets
      ensures r == IngestAll(raw, ps, ids).1
      ensures Files() == ApplyAll(old(Files()), step, Ingests(IngestAll(raw, ps, ids).0))
    {
      ghost var done: seq<string> := [];
      var output, n := raw, 0;
      IngestNoMore([], raw, ps, ids);
      assert ps[0..] == ps && ids[0..] == ids;
      while n < |ps|
        invariant 0 <= n <= |ps| && n <= |ids|
        invariant IngestAll(raw, ps, ids) == IngestMore(done, output, ps[n..], ids[n..])
        invariant Files() == ApplyAll(old(Files()), step, Ingests(done))
      {
        if n >= |ids| || ids[n].None? {
          IngestNoMore(done, output, ps[n..], ids[n..]);
          return Err(Io);
        }
        var id := ids[n].value;
        IngestOne(done, output, ps[n..], ids[n..]);
        assert ps[n..][1..] == ps[n + 1..] && ids[n..][1..] == ids[n + 1..];
        assets := assets + [AssetRecord(id, step)];
        IngestApplied(old(Files()), step, done, id);
        done := done + [id];
        ParseInvertsPrint(ps[n]);
        var written := SetJsonPointer(output, Print(ps[n]), Str(id));
        if written.Err? {
          return Err(BadPointer(written.error));
        }
        output, n := written.value, n + 1;
      }
      IngestNoMore(done, output, ps[n..], ids[n..]);
      return Ok(output);
    }

    /** The part of a call that must end in a finish record whatever happens. */
    method Execute(c: Call, step: nat) returns (r: Result<Value, Fault>)
      modifies this`assets
      ensures r == Executed(c).1
      ensures Files() == ApplyAll(old(Files()), step, Ingests(Executed(c).0))
    {
      if c.provided.Err? {
        return Err(c.provided.error);
      }
      var raw := c.provided.value;
      if !c.outputValid {
        return Err(InvalidOutput);
      }
      if c.inlineOutput > MAX_INLINE_TEXT_BYTES {
        return Err(InvalidOutput);
      }
      var ps := Fields(c.outputSchema, raw, false);
      var fault := CheckPaths(c, raw, ps);
      if fault.Some? {
        return Err(fault.value);
      }
      r := IngestFields(raw, ps, c.ingests, step);
    }

    /** The scratch directory and the start record; `false` if the step goes no further. */
    method Open(c: Call, step: nat) returns (started: bool)
      modifies this`scratch, this`lines
      ensures started == Starts(c)
      ensures Files() == ApplyAll(old(Files()), step, if started then Opening(Outlined(c)) else Plan(c))
    {
      ghost var w := Files();
      ActsBeforeProvider(c, w, step);
      if !c.scratchMade {
        return false;
      }
      scratch := scratch + {step};
      if !Recorded(c) {
        return true;
      }
      if !c.startWritten {
        if c.scratchDropped {
          scratch := scratch - {step};
        }
        return false;
      }
      lines := lines + [StepLine(step, Running)];
      return true;
    }

    /** The scratch directory is removed and the finish record written. */
    method Close(c: Call, step: nat, result: Result<Value, Fault>)
      requires Starts(c) && result == Executed(c).1
      modifies this`scratch, this`lines
      ensures Files() == ApplyAll(old(Files()), step, Ending(Outlined(c)))
    {
      ghost var w := Files();
      if c.scratchDropped {
        scratch := scratch - {step};
        ApplyOne(w, step, [], DropScratch);
      }
      ghost var drop := if c.scratchDropped then [DropScratch] else [];
      assert [] + [DropScratch] == [DropScratch];
      assert Files() == ApplyAll(w, step, drop);
      var outcome := match result
        case Ok(output) => Succeeded(output)
        case Err(f) => if c.cancelled then Cancelled else Failed(f);
      if Recorded(c) && c.finishWritten {
        lines := lines + [StepLine(step, outcome)];
        ApplyOne(w, step, drop, Log(outcome));
      }
    }

    /** A whole call. `seen` is the input the provider was called with. */
    method Invoke(c: Call) returns (r: Result<Value, Fault>, seen: Option<Value>)
      modifies this
      ensures Prepared(c, old(assets)).Err? ==>
                && r == Err(Prepared(c, old(assets)).error) && seen == None
                && Files() == old(Files()) && nextStep == old(nextStep)
      ensures Prepared(c, old(assets)).Ok? ==>
                && r == Answer(c) && seen == (if Starts(c) then Some(Prepared(c, old(assets)).value) else None)
                && Files() == ApplyAll(old(Files()), old(nextStep), Plan(c)) && nextStep == old(nextStep) + 1
    {
      var input := PrepareInput(c);
      if input.Err? {
        return Err(input.error), None;
      }
      var step := nextStep;
      nextStep := nextStep + 1;
      ghost var w, o := Files(), Outlined(c);
      var started := Open(c, step);
      if !started {
        return Err(Io), None;
      }
      var result := Execute(c, step);
      ApplyConcat(w, step, Opening(o), Ingests(o.ids));
      Close(c, step, result);
      ApplyConcat(w, step, Opening(o) + Ingests(o.ids), Ending(o));
      r := if result.Ok? && Recorded(c) && !c.finishWritten then Err(Io) else result;
      seen := Some(input.value);
    }
  }
}
