/** What any interleaving of operation calls leaves in the step log, the asset log and the
    scratch directory. */
module InvocationRuns {
  import opened Wrappers
  import opened JsonPointer
  import opened AssetFields
  import opened Invocations
  import opened StepRecords
  import opened Text

  // ---- One call by itself ----

  lemma {:induction false} IngestAllIsSetAll(v: Value, ps: seq<Tokens>, ids: seq<Option<string>>)
    requires IngestAll(v, ps, ids).1.Ok?
    ensures |IngestAll(v, ps, ids).0| == |ps|
    ensures SetAll(v, WritesTo(ps, Texts(IngestAll(v, ps, ids).0))) == Ok(IngestAll(v, ps, ids).1.value)
    decreases |ps|
  {
    if ps != [] {
      var next := SetAt(v, ps[0], Str(ids[0].value)).value;
      IngestAllIsSetAll(next, ps[1..], ids[1..]);
      var writes := WritesTo(ps, Texts(IngestAll(v, ps, ids).0));
      assert writes[1..] == WritesTo(ps[1..], Texts(IngestAll(next, ps[1..], ids[1..]).0));
    }
  }

  function Texts(ids: seq<string>): seq<Value> { seq(|ids|, i requires 0 <= i < |ids| => Str(ids[i])) }

  /** A call's schemas are JSON objects and its payloads fit in memory. */
  ghost predicate Representable(c: Call) {
    && WellFormed(c.inputSchema) && FitsInMemory(c.input)
    && WellFormed(c.outputSchema) && (c.provided.Ok? ==> FitsInMemory(c.provided.value))
  }

  /** The output of a step that succeeds is what the provider returned with the id of an
      asset taken in by this step at every asset field, and nothing else changed. */
  lemma SucceededOutput(c: Call)
    requires Representable(c) && Executed(c).1.Ok?
    ensures c.provided.Ok?
    ensures
      var (ids, output) := (Executed(c).0, Executed(c).1.value);
      var raw := c.provided.value;
      var ps := Fields(c.outputSchema, raw, false);
      && |ids| == |ps|
      && (forall i | 0 <= i < |ps| :: Resolve(output, ps[i]) == Some(Str(ids[i])))
      && (forall q: Tokens | forall p | p in ps :: Unrelated(p, q) :: Resolve(output, q) == Resolve(raw, q))
  {
    var raw := c.provided.value;
    var ps := Fields(c.outputSchema, raw, false);
    IngestAllIsSetAll(raw, ps, c.ingests);
    FieldsCanBeReplaced(c.outputSchema, raw, Texts(Executed(c).0));
  }

  lemma {:induction false} IngestNeverMisses(v: Value, ps: seq<Tokens>, ids: seq<Option<string>>)
    requires Distinct(ps) && forall p | p in ps :: Resolve(v, p).Some? && Resolve(v, p).value.Str?
    ensures IngestAll(v, ps, ids).1.Err? ==> IngestAll(v, ps, ids).1.error == Io
    decreases |ps|
  {
    if ps != [] && ids != [] && ids[0].Some? {
      var x := Str(ids[0].value);
      assert ps[0] in ps;
      ResolvingIsWritable(v, ps[0], x);
      var next := SetAt(v, ps[0], x).value;
      forall p | p in ps[1..] ensures Resolve(next, p) == Resolve(v, p) && p in ps {
        LeavesAreUnrelated(v, ps[0], p);
        WriteLeavesUnrelated(v, ps[0], x, p);
      }
      IngestNeverMisses(next, ps[1..], ids[1..]);
    }
  }

  /** The asset at field `p` of the input is on record, and its file is what `lookup` found. */
  ghost predicate Found(c: Call, p: Tokens, lookup: Lookup, assets: seq<AssetRecord>) {
    && lookup.Content?
    && exists record :: record in assets && Resolve(c.input, p) == Some(Str(record.id))
  }

  lemma {:induction false} FindInputsFinds(c: Call, ps: seq<Tokens>, k: nat, assets: seq<AssetRecord>)
    requires FindInputs(c, ps, k, assets).Ok? && k <= |ps|
    ensures
      var writes := FindInputs(c, ps, k, assets).value;
      && |writes| == |ps| - k && |ps| <= |c.lookups| + (if k == |ps| then k else 0)
      && forall i | k <= i < |ps| ::
           Found(c, ps[i], c.lookups[i], assets) && writes[i - k] == (ps[i], Str(c.lookups[i].path))
    decreases |ps| - k
  {
    if k < |ps| { FindInputsFinds(c, ps, k + 1, assets); }
  }

  lemma InputWrites(c: Call, ps: seq<Tokens>, assets: seq<AssetRecord>) returns (xs: seq<Value>)
    requires FindInputs(c, ps, 0, assets).Ok?
    ensures |xs| == |ps| <= |c.lookups| && FindInputs(c, ps, 0, assets).value == WritesTo(ps, xs)
    ensures forall i | 0 <= i < |ps| ::
              Found(c, ps[i], c.lookups[i], assets) && xs[i] == Str(c.lookups[i].path)
  {
    FindInputsFinds(c, ps, 0, assets);
    var writes := FindInputs(c, ps, 0, assets).value;
    xs := seq(|ps|, i requires 0 <= i < |ps| => writes[i].1);
    assert writes == WritesTo(ps, xs);
  }

  /** The provider's input is the request's with the file of the named asset at every asset
      field, and nothing else changed; every named asset was on record. */
  lemma PreparedInput(c: Call, assets: seq<AssetRecord>)
    requires Representable(c) && Prepared(c, assets).Ok?
    ensures
      var input := Prepared(c, assets).value;
      var ps := Fields(c.inputSchema, c.input, false);
      && (forall i | 0 <= i < |ps| ::
           && i < |c.lookups| && Found(c, ps[i], c.lookups[i], assets)
           && Resolve(input, ps[i]) == Some(Str(c.lookups[i].path)))
      && (forall q: Tokens | forall p | p in ps :: Unrelated(p, q) :: Resolve(input, q) == Resolve(c.input, q))
  {
    var ps := Fields(c.inputSchema, c.input, false);
    var xs := InputWrites(c, ps, assets);
    FieldsCanBeReplaced(c.inputSchema, c.input, xs);
  }

  /** No call ever fails in the pointer writer: every asset field found can be written. */
  lemma PointerWritesNeverFail(c: Call, assets: seq<AssetRecord>)
    requires Representable(c)
    ensures Prepared(c, assets).Err? ==> !Prepared(c, assets).error.BadPointer?
    ensures c.provided.Ok? && Executed(c).1.Err? ==> !Executed(c).1.error.BadPointer?
  {
    var ps := Fields(c.inputSchema, c.input, false);
    var found := FindInputs(c, ps, 0, assets);
    if found.Ok? {
      var xs := InputWrites(c, ps, assets);
      FieldsCanBeReplaced(c.inputSchema, c.input, xs);
    } else {
      LookupFaults(c, ps, 0, assets);
    }
    if c.provided.Ok? {
      var raw := c.provided.value;
      var qs := Fields(c.outputSchema, raw, false);
      FieldsAreDistinct(c.outputSchema, raw, false);
      forall p | p in qs ensures Resolve(raw, p).Some? && Resolve(raw, p).value.Str? {
        FieldsAreStrings(c.outputSchema, raw, false, p);
      }
      IngestNeverMisses(raw, qs, c.ingests);
      PathFaults(c, raw, qs, 0);
    }
  }

  lemma {:induction false} LookupFaults(c: Call, ps: seq<Tokens>, k: nat, assets: seq<AssetRecord>)
    ensures FindInputs(c, ps, k, assets).Err? ==> !FindInputs(c, ps, k, assets).error.BadPointer?
    decreases |ps| - k
  {
    if k < |ps| { LookupFaults(c, ps, k + 1, assets); }
  }

  /** The check over all fields fails exactly when one of them has no valid path. */
  lemma {:induction false} PathFaults(c: Call, raw: Value, ps: seq<Tokens>, k: nat)
    ensures PathFault(c, raw, ps, k).None? <==> forall i | k <= i < |ps| :: HasValidPath(c, raw, ps[i])
    ensures PathFault(c, raw, ps, k).Some? ==> !PathFault(c, raw, ps, k).value.BadPointer?
    decreases |ps| - k
  {
    if k < |ps| {
      PathFaults(c, raw, ps, k + 1);
      assert HasValidPath(c, raw, ps[k]) || !HasValidPath(c, raw, ps[k]);
    }
  }

  // ---- Many calls ----

  datatype Event = Event(step: nat, act: Act)

  /** The files after a trace of acts by any steps. */
  function After(trace: seq<Event>): World {
    if trace == [] then World([], [], {})
    else
      var last := trace[|trace| - 1];
      Apply(After(trace[..|trace| - 1]), last.step, last.act)
  }

  /** What one step did in the trace. */
  function Of(trace: seq<Event>, step: nat): seq<Act> {
    if trace == [] then []
    else
      var last := trace[|trace| - 1];
      Of(trace[..|trace| - 1], step) + (if last.step == step then [last.act] else [])
  }

  /** Any interleaving of the calls' plans, each carried out up to some point. */
  ghost predicate Interleaving(calls: map<nat, Call>, trace: seq<Event>) {
    && (forall e | e in trace :: e.step in calls)
    && (forall s | s in calls :: Of(trace, s) <= Plan(calls[s]))
  }

  /** The outcomes one step has in a step log, in order. */
  function OutcomesOf(lines: seq<StepLine>, step: nat): seq<Outcome> {
    if lines == [] then []
    else
      var last := lines[|lines| - 1];
      OutcomesOf(lines[..|lines| - 1], step) + (if last.step == step then [last.outcome] else [])
  }

  function Logged(acts: seq<Act>): seq<Outcome> {
    if acts == [] then []
    else
      var last := acts[|acts| - 1];
      Logged(acts[..|acts| - 1]) + (if last.Log? then [last.outcome] else [])
  }

  predicate HasScratch(acts: seq<Act>) {
    acts != [] &&
    var last := acts[|acts| - 1];
    last.MakeScratch? || (!last.DropScratch? && HasScratch(acts[..|acts| - 1]))
  }

  lemma LoggedOne(acts: seq<Act>, act: Act)
    ensures Logged(acts + [act]) == Logged(acts) + if act.Log? then [act.outcome] else []
  {
    assert (acts + [act])[..|acts|] == acts;
  }

  lemma OutcomesOfOne(lines: seq<StepLine>, line: StepLine, step: nat)
    ensures OutcomesOf(lines + [line], step)
         == OutcomesOf(lines, step) + if line.step == step then [line.outcome] else []
  {
    assert (lines + [line])[..|lines|] == lines;
  }

  lemma OutcomesAfterAct(w: World, e: Event, step: nat)
    ensures OutcomesOf(Apply(w, e.step, e.act).lines, step)
         == OutcomesOf(w.lines, step) + if e.step == step && e.act.Log? then [e.act.outcome] else []
  {
    if e.act.Log? {
      OutcomesOfOne(w.lines, StepLine(e.step, e.act.outcome), step);
    } else {
      assert Apply(w, e.step, e.act).lines == w.lines;
    }
  }

  /** What a step leaves in the files depends on its own acts alone. */
  lemma {:induction false} LinesDoNotMix(trace: seq<Event>, step: nat)
    ensures OutcomesOf(After(trace).lines, step) == Logged(Of(trace, step))
  {
    if trace != [] {
      var before, last := trace[..|trace| - 1], trace[|trace| - 1];
      LinesDoNotMix(before, step);
      OutcomesAfterAct(After(before), last, step);
      LoggedOne(Of(before, step), last.act);
      assert Of(before, step) + [] == Of(before, step);
    }
  }

  lemma {:induction false} ScratchDoesNotMix(trace: seq<Event>, step: nat)
    ensures step in After(trace).scratch <==> HasScratch(Of(trace, step))
  {
    if trace != [] {
      var before, last := trace[..|trace| - 1], trace[|trace| - 1];
      ScratchDoesNotMix(before, step);
      var own := Of(before, step);
      if last.step == step {
        assert (own + [last.act])[..|own|] == own;
      } else {
        assert Of(trace, step) == own;
      }
    }
  }

  lemma {:induction false} AssetsDoNotMix(trace: seq<Event>, step: nat, id: string)
    ensures AssetRecord(id, step) in After(trace).assets <==> Ingest(id) in Of(trace, step)
  {
    if trace != [] {
      AssetsDoNotMix(trace[..|trace| - 1], step, id);
    }
  }

  function Events(step: nat, acts: seq<Act>): seq<Event> {
    seq(|acts|, i requires 0 <= i < |acts| => Event(step, acts[i]))
  }

  /** A call carried out in one go, as `OperationService.Invoke` does, is one interleaving:
      its acts at the end of the trace. */
  lemma {:induction false} InvokeExtendsTrace(trace: seq<Event>, step: nat, acts: seq<Act>, other: nat)
    ensures After(trace + Events(step, acts)) == ApplyAll(After(trace), step, acts)
    ensures Of(trace + Events(step, acts), other) == Of(trace, other) + if other == step then acts else []
  {
    if acts == [] {
      assert trace + Events(step, acts) == trace;
      assert Of(trace, other) + [] == Of(trace, other);
    } else {
      var init, last := acts[..|acts| - 1], acts[|acts| - 1];
      InvokeExtendsTrace(trace, step, init, other);
      var whole := trace + Events(step, acts);
      assert whole[..|whole| - 1] == trace + Events(step, init);
      assert acts == init + [last];
      assert Of(trace, other) + (init + [last]) == Of(trace, other) + init + [last];
    }
  }

  // ---- How far a step has got ----

  lemma {:induction false} LoggedConcat(a: seq<Act>, b: seq<Act>)
    ensures Logged(a + b) == Logged(a) + Logged(b)
  {
    if b == [] {
      assert a + b == a;
    } else {
      assert (a + b)[..|a + b| - 1] == a + b[..|b| - 1];
      LoggedConcat(a, b[..|b| - 1]);
    }
  }

  lemma {:induction false} NothingLogged(acts: seq<Act>)
    requires forall act | act in acts :: !act.Log?
    ensures Logged(acts) == []
  {
    if acts != [] { NothingLogged(acts[..|acts| - 1]); }
  }

  /** Everything before the finish record. */
  function Working(o: Outline): seq<Act> {
    Opening(o) + Ingests(o.ids) + (if o.dropped then [DropScratch] else [])
  }

  lemma FinishComesLast(o: Outline)
    ensures Acts(o) == Working(o) + if o.finish.Some? then [Log(o.finish.value)] else []
  { }

  function Records(o: Outline): seq<Outcome> {
    (if o.started then [Running] else []) + (if o.finish.Some? then [o.finish.value] else [])
  }

  lemma LoggedOpening(o: Outline)
    ensures Logged(Opening(o)) == if o.started then [Running] else []
  {
    var made := if o.made then [MakeScratch] else [];
    NothingLogged(made);
    if o.started { LoggedOne(made, Log(Running)); } else { assert Opening(o) == made; }
  }

  lemma LoggedWorking(o: Outline)
    ensures Logged(Working(o)) == if o.started then [Running] else []
  {
    LoggedOpening(o);
    var taken := Opening(o) + Ingests(o.ids);
    LoggedConcat(Opening(o), Ingests(o.ids));
    NothingLogged(Ingests(o.ids));
    if o.dropped { LoggedOne(taken, DropScratch); } else { assert Working(o) == taken; }
  }

  lemma LoggedActs(o: Outline)
    ensures Logged(Acts(o)) == Records(o)
  {
    LoggedWorking(o);
    FinishComesLast(o);
    if o.finish.Some? { LoggedOne(Working(o), Log(o.finish.value)); }
    else { assert Acts(o) == Working(o); }
  }

  lemma LoggedPrefix(a: seq<Act>, b: seq<Act>)
    requires a <= b
    ensures Logged(a) <= Logged(b)
  {
    assert b == a + b[|a|..];
    LoggedConcat(a, b[|a|..]);
  }

  /** A step in progress has logged a prefix of its records; the finish record comes last. */
  lemma LoggedSoFar(o: Outline, done: seq<Act>)
    requires done <= Acts(o)
    ensures Logged(done) <= Records(o)
    ensures done != Acts(o) && o.finish.Some? ==> Logged(done) <= [Running]
  {
    LoggedActs(o);
    LoggedPrefix(done, Acts(o));
    if done != Acts(o) && o.finish.Some? {
      FinishComesLast(o);
      assert done <= Working(o);
      LoggedPrefix(done, Working(o));
      LoggedWorking(o);
    }
  }

  /** At every moment of every interleaving a step has in the log a start record at most
      followed by its finish record, and nothing else. A finished step has exactly what
      could be written: if its writes succeeded, one start record and one finish record,
      or none at all if it is not a recorded step. */
  lemma OneStartThenOneFinish(calls: map<nat, Call>, trace: seq<Event>, s: nat)
    requires Interleaving(calls, trace) && s in calls
    ensures OutcomesOf(After(trace).lines, s) <= [Running, FinalOutcome(calls[s])]
    ensures !Recorded(calls[s]) ==> OutcomesOf(After(trace).lines, s) == []
    ensures
      var c := calls[s];
      Of(trace, s) == Plan(c) && c.scratchMade && c.startWritten && c.finishWritten && Recorded(c)
      ==> OutcomesOf(After(trace).lines, s) == [Running, FinalOutcome(c)]
  {
    LinesDoNotMix(trace, s);
    LoggedSoFar(Outlined(calls[s]), Of(trace, s));
    LoggedActs(Outlined(calls[s]));
  }

  /** The caller is told what the record says. */
  lemma AnswerMatchesRecord(c: Call, output: Value)
    requires Starts(c) && Recorded(c) && c.finishWritten
    ensures Answer(c) == Ok(output) <==> FinalOutcome(c) == Succeeded(output)
    ensures Answer(c).Err? ==> FinalOutcome(c) == if c.cancelled then Cancelled else Failed(Answer(c).error)
  { }

  /** The lines as the reader of the step log sees them; a step's number stands in its id. */
  function AsRecords(lines: seq<StepLine>): seq<Record<Outcome>> {
    seq(|lines|, i requires 0 <= i < |lines| => Record(Decimal(lines[i].step), lines[i].outcome))
  }

  lemma {:induction false} LastOutcomeIsLastLine(lines: seq<StepLine>, s: nat)
    ensures
      var outcomes := OutcomesOf(lines, s);
      LastLine(AsRecords(lines), Decimal(s))
      == if outcomes == [] then None else Some(Record(Decimal(s), outcomes[|outcomes| - 1]))
  {
    if lines != [] {
      var n := |lines| - 1;
      var records := AsRecords(lines);
      assert records[..n] == AsRecords(lines[..n]);
      LastOutcomeIsLastLine(lines[..n], s);
    }
  }

  /** The records read back from the log of any interleaving show every finished recorded
      step, once, with its final outcome. */
  lemma RecordsShowOutcomes(calls: map<nat, Call>, trace: seq<Event>, s: nat, merged: seq<Record<Outcome>>)
      returns (k: nat)
    requires Interleaving(calls, trace) && s in calls && Of(trace, s) == Plan(calls[s])
    requires Starts(calls[s]) && Recorded(calls[s]) && calls[s].finishWritten
    requires IsMerge(AsRecords(After(trace).lines), merged)
    ensures k < |merged| && merged[k] == Record(Decimal(s), FinalOutcome(calls[s]))
    ensures forall l | 0 <= l < |merged| && l != k :: merged[l].id != Decimal(s)
  {
    OneStartThenOneFinish(calls, trace, s);
    var lines := AsRecords(After(trace).lines);
    LastOutcomeIsLastLine(After(trace).lines, s);
    var i := LastLineAt(lines, Decimal(s));
    k := MergedAreComplete(lines, merged, i);
    assert Some(merged[k]) == LastLine(lines, FirstSeen(lines)[k]);
    forall l | 0 <= l < |merged| && l != k ensures merged[l].id != Decimal(s) {
      if l < k { var _, _ := MergedAreInFirstLineOrder(lines, merged, l, k); }
      else { var _, _ := MergedAreInFirstLineOrder(lines, merged, k, l); }
    }
  }

  // ---- Scratch directories ----

  lemma {:induction false} ScratchStays(a: seq<Act>, b: seq<Act>)
    requires forall act | act in b :: !act.MakeScratch? && !act.DropScratch?
    ensures HasScratch(a + b) == HasScratch(a)
  {
    if b == [] {
      assert a + b == a;
    } else {
      assert (a + b)[..|a + b| - 1] == a + b[..|b| - 1];
      ScratchStays(a, b[..|b| - 1]);
    }
  }

  /** A finished step leaves a scratch directory exactly when removing it failed. */
  lemma ScratchIsDropped(calls: map<nat, Call>, trace: seq<Event>, s: nat)
    requires Interleaving(calls, trace) && s in calls && Of(trace, s) == Plan(calls[s])
    ensures s in After(trace).scratch <==> calls[s].scratchMade && !calls[s].scratchDropped
  {
    ScratchDoesNotMix(trace, s);
    ScratchOfActs(Outlined(calls[s]));
  }

  lemma ScratchOne(acts: seq<Act>, act: Act)
    ensures HasScratch(acts + [act]) <==> act.MakeScratch? || (!act.DropScratch? && HasScratch(acts))
  {
    assert (acts + [act])[..|acts|] == acts;
  }

  lemma ScratchOfOpening(o: Outline)
    ensures HasScratch(Opening(o)) <==> o.made
  {
    var made := if o.made then [MakeScratch] else [];
    if o.started { ScratchOne(made, Log(Running)); } else { assert Opening(o) == made; }
  }

  lemma ScratchOfActs(o: Outline)
    ensures HasScratch(Acts(o)) <==> o.made && !o.dropped
  {
    ScratchOfOpening(o);
    var taken := Opening(o) + Ingests(o.ids);
    ScratchStays(Opening(o), Ingests(o.ids));
    if o.dropped { ScratchOne(taken, DropScratch); } else { assert Working(o) == taken; }
    FinishComesLast(o);
    if o.finish.Some? { ScratchOne(Working(o), Log(o.finish.value)); } else { assert Acts(o) == Working(o); }
  }

  // ---- Assets ----

  lemma OnlyIngestsTakeIn(o: Outline, done: seq<Act>, id: string)
    requires done <= Acts(o) && Ingest(id) in done
    ensures id in o.ids && Opening(o) <= done
  {
    var i :| 0 <= i < |done| && done[i] == Ingest(id);
    assert Acts(o)[i] == Ingest(id);
    assert |Opening(o)| <= i < |Opening(o)| + |o.ids|;
    assert Ingests(o.ids)[i - |Opening(o)|] == Ingest(id);
    assert o.ids[i - |Opening(o)|] == id;
    assert Opening(o) == Acts(o)[..|Opening(o)|] == done[..|Opening(o)|];
  }

  lemma AllTakenIn(o: Outline, i: nat)
    requires i < |o.ids|
    ensures Ingest(o.ids[i]) in Acts(o)
  {
    assert Ingests(o.ids)[i] == Ingest(o.ids[i]);
    assert Acts(o)[|Opening(o)| + i] == Ingest(o.ids[i]);
  }

  /** If any asset field of the output lacks a valid path, no asset of that step is ever in
      the log, and the step does not succeed. */
  lemma BadPathTakesInNothing(calls: map<nat, Call>, trace: seq<Event>, s: nat, p: Tokens, id: string)
    requires Interleaving(calls, trace) && s in calls && calls[s].provided.Ok?
    requires
      var c := calls[s];
      p in Fields(c.outputSchema, c.provided.value, false) && !HasValidPath(c, c.provided.value, p)
    ensures AssetRecord(id, s) !in After(trace).assets
    ensures !FinalOutcome(calls[s]).Succeeded? && Answer(calls[s]).Err?
  {
    var c := calls[s];
    var ps := Fields(c.outputSchema, c.provided.value, false);
    PathFaults(c, c.provided.value, ps, 0);
    var i :| 0 <= i < |ps| && ps[i] == p;
    assert Executed(c).0 == [] && Executed(c).1.Err?;
    AssetsDoNotMix(trace, s, id);
    if Ingest(id) in Of(trace, s) { OnlyIngestsTakeIn(Outlined(c), Of(trace, s), id); }
  }

  /** As soon as the log says that a step succeeded, every asset field of its output names
      an asset on record with that step as its origin. */
  lemma SuccessNamesItsAssets(calls: map<nat, Call>, trace: seq<Event>, s: nat, output: Value)
    requires Interleaving(calls, trace) && s in calls && Representable(calls[s])
    requires Succeeded(output) in OutcomesOf(After(trace).lines, s)
    ensures calls[s].provided.Ok?
    ensures forall p | p in Fields(calls[s].outputSchema, calls[s].provided.value, false) ::
              exists id :: AssetRecord(id, s) in After(trace).assets && Resolve(output, p) == Some(Str(id))
  {
    var c := calls[s];
    SucceededStepIsDone(c, trace, s, output);
    SucceededOutput(c);
    var ps := Fields(c.outputSchema, c.provided.value, false);
    var ids := Executed(c).0;
    forall p | p in ps
      ensures exists id :: AssetRecord(id, s) in After(trace).assets && Resolve(output, p) == Some(Str(id))
    {
      var i :| 0 <= i < |ps| && ps[i] == p;
      AssetsDoNotMix(trace, s, ids[i]);
      AllTakenIn(Outlined(c), i);
    }
  }

  lemma SucceededStepIsDone(c: Call, trace: seq<Event>, s: nat, output: Value)
    requires Of(trace, s) <= Plan(c) && Succeeded(output) in OutcomesOf(After(trace).lines, s)
    ensures Of(trace, s) == Plan(c) && Starts(c) && Executed(c).1 == Ok(output)
  {
    var o := Outlined(c);
    LinesDoNotMix(trace, s);
    LoggedSoFar(o, Of(trace, s));
    LoggedActs(o);
    assert Succeeded(output) in Records(o);
  }

  lemma {:induction false} AssetsHaveOrigins(trace: seq<Event>, record: AssetRecord)
    requires record in After(trace).assets
    ensures exists e :: e in trace && e.step == record.origin
  {
    var before, last := trace[..|trace| - 1], trace[|trace| - 1];
    assert last in trace;
    if last != Event(record.origin, Ingest(record.id)) {
      AssetsHaveOrigins(before, record);
    }
  }

  /** Every asset on record comes from a step whose start record is in the log. */
  lemma AssetsComeFromRecordedSteps(calls: map<nat, Call>, trace: seq<Event>, record: AssetRecord)
    requires Interleaving(calls, trace) && record in After(trace).assets
    requires record.origin in calls ==> Representable(calls[record.origin])
    ensures record.origin in calls
    ensures Running in OutcomesOf(After(trace).lines, record.origin)
  {
    AssetsHaveOrigins(trace, record);
    var s := record.origin;
    var o, done := Outlined(calls[s]), Of(trace, s);
    AssetsDoNotMix(trace, s, record.id);
    OnlyIngestsTakeIn(o, done, record.id);
    IngestedStepsAreRecorded(calls[s]);
    LinesDoNotMix(trace, s);
    StartIsLogged(o, done);
  }

  lemma StartIsLogged(o: Outline, done: seq<Act>)
    requires Opening(o) <= done && o.started
    ensures Running in Logged(done)
  {
    var rest := done[|Opening(o)|..];
    assert done == Opening(o) + rest;
    LoggedConcat(Opening(o), rest);
    LoggedOpening(o);
    assert Logged(done)[0] == Running;
  }

  lemma IngestedStepsAreRecorded(c: Call)
    requires Representable(c) && Executed(c).0 != []
    ensures Recorded(c)
  {
    var raw := c.provided.value;
    var ps := Fields(c.outputSchema, raw, false);
    assert ps[0] in ps;
    FieldsAreStrings(c.outputSchema, raw, false, ps[0]);
  }
}
