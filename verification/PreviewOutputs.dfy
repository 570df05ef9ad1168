/** The output of a preview: a URI in place of every asset path. */
module PreviewOutputs {
  import opened Wrappers
  import opened JsonPointer
  import opened AssetFields
  import AssetUri

  datatype Fault = InvalidOutput | BadPath | BadPointer(error: JsonPointer.Error)

  /** The fields one after the other, each checked just before it is replaced. */
  function Replaced(v: Value, ps: seq<Tokens>, key: string, validPaths: set<string>): Result<Value, Fault>
    decreases |ps|
  {
    if ps == [] then Ok(v)
    else
      var path := Resolve(v, ps[0]);
      if path.None? || !path.value.Str? then Err(InvalidOutput)
      else if path.value.s !in validPaths then Err(BadPath)
      else match SetAt(v, ps[0], Str(AssetUri.PrintPreview(key, path.value.s)))
           case Ok(next) => Replaced(next, ps[1..], key, validPaths)
           case Err(e) => Err(BadPointer(e))
  }

  lemma ReplacedStep(v: Value, ps: seq<Tokens>, n: nat, key: string, validPaths: set<string>)
    requires n < |ps|
    ensures
      var path := Resolve(v, ps[n]);
      Replaced(v, ps[n..], key, validPaths)
      == if path.None? || !path.value.Str? then Err(InvalidOutput)
         else if path.value.s !in validPaths then Err(BadPath)
         else match SetAt(v, ps[n], Str(AssetUri.PrintPreview(key, path.value.s)))
              case Ok(next) => Replaced(next, ps[n + 1..], key, validPaths)
              case Err(e) => Err(BadPointer(e))
  {
    assert ps[n..][0] == ps[n] && ps[n..][1..] == ps[n + 1..];
  }

  method ReplacePaths(schema: Schema, raw: Value, key: string, validPaths: set<string>)
    returns (r: Result<Value, Fault>)
    ensures r == Replaced(raw, Fields(schema, raw, false), key, validPaths)
  {
    var ps := Fields(schema, raw, false);
    var output, n := raw, 0;
    while n < |ps|
      invariant 0 <= n <= |ps|
      invariant Replaced(raw, ps, key, validPaths) == Replaced(output, ps[n..], key, validPaths)
    {
      ReplacedStep(output, ps, n, key, validPaths);
      var path := Resolve(output, ps[n]);
      if path.None? || !path.value.Str? {
        return Err(InvalidOutput);
      }
      if path.value.s !in validPaths {
        return Err(BadPath);
      }
      ParseInvertsPrint(ps[n]);
      var uri := AssetUri.PrintPreview(key, path.value.s);
      var written := SetJsonPointer(output, Print(ps[n]), Str(uri));
      if written.Err? {
        return Err(BadPointer(written.error));
      }
      output, n := written.value, n + 1;
    }
    return Ok(output);
  }

  ghost predicate AreStrings(v: Value, ps: seq<Tokens>) {
    forall p | p in ps :: Resolve(v, p).Some? && Resolve(v, p).value.Str?
  }

  ghost function Uris(v: Value, ps: seq<Tokens>, key: string): seq<Value>
    requires AreStrings(v, ps)
  {
    seq(|ps|, i requires 0 <= i < |ps| =>
      assert ps[i] in ps; Str(AssetUri.PrintPreview(key, Resolve(v, ps[i]).value.s)))
  }

  /** Writing to the first field leaves the others as they were. */
  lemma FirstFieldReplaced(v: Value, ps: seq<Tokens>, x: Value)
    requires ps != [] && Distinct(ps) && AreStrings(v, ps)
    ensures SetAt(v, ps[0], x).Ok?
    ensures forall p | p in ps[1..] :: p in ps && Resolve(SetAt(v, ps[0], x).value, p) == Resolve(v, p)
  {
    assert ps[0] in ps;
    ResolvingIsWritable(v, ps[0], x);
    forall p | p in ps[1..] ensures p in ps && Resolve(SetAt(v, ps[0], x).value, p) == Resolve(v, p) {
      LeavesAreUnrelated(v, ps[0], p);
      WriteLeavesUnrelated(v, ps[0], x, p);
    }
  }

  lemma UrisOfRest(v: Value, next: Value, ps: seq<Tokens>, key: string)
    requires ps != [] && AreStrings(v, ps) && forall p | p in ps[1..] :: p in ps && Resolve(next, p) == Resolve(v, p)
    ensures WritesTo(ps, Uris(v, ps, key))[0] == (ps[0], Uris(v, ps, key)[0])
    ensures WritesTo(ps, Uris(v, ps, key))[1..] == WritesTo(ps[1..], Uris(next, ps[1..], key))
  {
    forall i | 0 <= i < |ps| - 1 ensures Uris(v, ps, key)[i + 1] == Uris(next, ps[1..], key)[i] {
      assert ps[1..][i] in ps[1..];
    }
  }

  ghost function AllReplaced(v: Value, ps: seq<Tokens>, key: string): Result<Value, Fault>
    requires AreStrings(v, ps)
  {
    match SetAll(v, WritesTo(ps, Uris(v, ps, key))) case Ok(o) => Ok(o) case Err(e) => Err(BadPointer(e))
  }

  predicate AllValid(v: Value, ps: seq<Tokens>, validPaths: set<string>) {
    forall p | p in ps :: Resolve(v, p).Some? && Resolve(v, p).value.Str? && Resolve(v, p).value.s in validPaths
  }

  /** Replacing field by field is replacing all fields by URIs of the paths they held at
      first, if all paths are valid; otherwise there is no output. */
  lemma {:induction false} ReplacedIsSetAll(v: Value, ps: seq<Tokens>, key: string, validPaths: set<string>)
    requires Distinct(ps) && AreStrings(v, ps)
    ensures Replaced(v, ps, key, validPaths)
         == if AllValid(v, ps, validPaths) then AllReplaced(v, ps, key) else Err(BadPath)
    decreases |ps|
  {
    if ps != [] {
      assert ps[0] in ps;
      var x := Str(AssetUri.PrintPreview(key, Resolve(v, ps[0]).value.s));
      FirstFieldReplaced(v, ps, x);
      var next := SetAt(v, ps[0], x).value;
      if Resolve(v, ps[0]).value.s in validPaths {
        ReplacedIsSetAll(next, ps[1..], key, validPaths);
        UrisOfRest(v, next, ps, key);
        assert AllValid(next, ps[1..], validPaths) <==> AllValid(v, ps, validPaths);
      }
    }
  }

  /** A preview has an output exactly when all its asset paths are valid. Every asset field
      then holds a URI that comes back to the preview's key and that field's path, unless
      the path contains `?` or `#`; nothing else is changed. */
  lemma PreviewUrisComeBack(schema: Schema, raw: Value, key: string, validPaths: set<string>)
    requires WellFormed(schema) && FitsInMemory(raw) && AssetUri.IsValidPreviewKey(key)
    requires forall path | path in validPaths :: path != "" && path[0] != '/'
    ensures
      var ps := Fields(schema, raw, false);
      var r := Replaced(raw, ps, key, validPaths);
      && (r.Ok? <==> AllValid(raw, ps, validPaths))
      && (r.Ok? ==> forall i | 0 <= i < |ps| :: ComesBack(raw, r.value, ps[i], key))
      && (r.Ok? ==> forall q: Tokens | forall p | p in ps :: Unrelated(p, q) :: Resolve(r.value, q) == Resolve(raw, q))
  {
    var ps := Fields(schema, raw, false);
    FieldsAreDistinct(schema, raw, false);
    forall p | p in ps ensures Resolve(raw, p).Some? && Resolve(raw, p).value.Str? {
      FieldsAreStrings(schema, raw, false, p);
    }
    ReplacedIsSetAll(raw, ps, key, validPaths);
    FieldsCanBeReplaced(schema, raw, Uris(raw, ps, key));
    var r := Replaced(raw, ps, key, validPaths);
    if r.Ok? {
      forall i | 0 <= i < |ps| ensures ComesBack(raw, r.value, ps[i], key) {
        assert ps[i] in ps;
        UriComesBack(raw, r.value, ps[i], key);
      }
    }
  }

  lemma UriComesBack(raw: Value, output: Value, p: Tokens, key: string)
    requires AssetUri.IsValidPreviewKey(key) && Resolve(raw, p).Some? && Resolve(raw, p).value.Str?
    requires Resolve(raw, p).value.s != "" && Resolve(raw, p).value.s[0] != '/'
    requires Resolve(output, p) == Some(Str(AssetUri.PrintPreview(key, Resolve(raw, p).value.s)))
    ensures ComesBack(raw, output, p, key)
  {
    var path := Resolve(raw, p).value.s;
    AssetUri.RoundTrip(key, path);
    assert '?' in path ==> '?' in {'?', '#'};
  }

  /** The field holds a URI that parses to the key and the path it held before, exactly
      when that path is free of `?` and `#`. */
  predicate ComesBack(raw: Value, output: Value, p: Tokens, key: string) {
    && Resolve(raw, p).Some? && Resolve(raw, p).value.Str?
    && Resolve(output, p).Some? && Resolve(output, p).value.Str?
    && (var path := Resolve(raw, p).value.s;
        AssetUri.Parse(Resolve(output, p).value.s) == Some(AssetUri.Preview(key, path)) <==> '?' !in path && '#' !in path)
  }
}
