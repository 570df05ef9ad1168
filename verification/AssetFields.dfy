/** The asset fields of a payload: where its schema marks a string as an asset. */
module AssetFields {
  import opened Wrappers
  import opened Text
  import opened JsonPointer

  /** What the walk reads of a schema node; `properties` in the order the object iterates. */
  datatype Schema = Schema(isString: bool, format: string,
                           properties: seq<(string, Schema)>, items: Option<Schema>, others: seq<Schema>)

  predicate IsAssetMarker(schema: Schema) { schema.format == "asset" }

  predicate IsAssetSchema(schema: Schema) { schema.isString && schema.format == "asset" }

  /** Keys of a JSON object are distinct. */
  ghost predicate WellFormed(schema: Schema) {
    && (forall i, j | 0 <= i < j < |schema.properties| :: schema.properties[i].0 != schema.properties[j].0)
    && (forall k | 0 <= k < |schema.properties| :: WellFormed(schema.properties[k].1))
    && (schema.items.Some? ==> WellFormed(schema.items.value))
  }

  /** Arrays held in memory are indexed by `usize`. */
  ghost predicate FitsInMemory(v: Value) {
    match v
    case Arr(items) => |items| <= USIZE_MAX && forall i | 0 <= i < |items| :: FitsInMemory(items[i])
    case Obj(fields) => forall k | k in fields :: FitsInMemory(fields[k])
    case _ => true
  }

  function Below(token: string, ps: seq<Tokens>): seq<Tokens> {
    seq(|ps|, i requires 0 <= i < |ps| => [token] + ps[i])
  }

  /** `find_asset_fields`: the populated asset fields, in the order the walk meets them. */
  function Fields(schema: Schema, value: Value, allowed: bool): seq<Tokens>
    decreases schema, 1, 0
  {
    (if allowed && IsAssetSchema(schema) && value.Str? then [[]] else [])
    + (if value.Obj? then PropertyFields(schema, 0, value.fields) else [])
    + (if value.Arr? && schema.items.Some? then ItemFields(schema, 0, value.items) else [])
  }

  function PropertyFields(schema: Schema, k: nat, fields: map<string, Value>): seq<Tokens>
    decreases schema, 0, |schema.properties| - k
  {
    if k >= |schema.properties| then []
    else
      var (name, property) := schema.properties[k];
      (if name in fields then Below(name, Fields(property, fields[name], true)) else [])
      + PropertyFields(schema, k + 1, fields)
  }

  function ItemFields(schema: Schema, i: nat, items: seq<Value>): seq<Tokens>
    requires schema.items.Some?
    decreases schema, 0, |items| - i
  {
    if i >= |items| then []
    else Below(Decimal(i), Fields(schema.items.value, items[i], true)) + ItemFields(schema, i + 1, items)
  }

  /** `has_asset_field`: whether any node of the schema carries the asset marker. */
  predicate HasAssetField(schema: Schema) {
    || IsAssetMarker(schema)
    || (exists k | 0 <= k < |schema.properties| :: HasAssetField(schema.properties[k].1))
    || (schema.items.Some? && HasAssetField(schema.items.value))
    || (exists k | 0 <= k < |schema.others| :: HasAssetField(schema.others[k]))
  }

  // ---- Every field found is a string of the payload ----

  lemma {:induction false} FieldsAreStrings(schema: Schema, value: Value, allowed: bool, p: Tokens)
    requires FitsInMemory(value) && p in Fields(schema, value, allowed)
    ensures Resolve(value, p).Some? && Resolve(value, p).value.Str?
    ensures HasAssetField(schema)
    decreases schema, 1, 0
  {
    if value.Obj? && p in PropertyFields(schema, 0, value.fields) {
      PropertyFieldsAreStrings(schema, 0, value.fields, p);
    } else if value.Arr? && schema.items.Some? && p in ItemFields(schema, 0, value.items) {
      ItemFieldsAreStrings(schema, 0, value.items, p);
    }
  }

  lemma BelowProperty(schema: Schema, k: nat, fields: map<string, Value>, rest: Tokens)
    requires k < |schema.properties| && schema.properties[k].0 in fields
    ensures
      var (name, property) := schema.properties[k];
      && Resolve(Obj(fields), [name] + rest) == Resolve(fields[name], rest)
      && (HasAssetField(property) ==> HasAssetField(schema))
  {
    var name := schema.properties[k].0;
    assert ([name] + rest)[1..] == rest;
  }

  /** A field of one of the properties is one below the first of them or below a later one. */
  lemma PropertyFieldIs(schema: Schema, k: nat, fields: map<string, Value>, p: Tokens)
    requires p in PropertyFields(schema, k, fields)
    ensures k < |schema.properties|
    ensures
      var (name, property) := schema.properties[k];
      || p in PropertyFields(schema, k + 1, fields)
      || (p != [] && p[0] == name && name in fields && p[1..] in Fields(property, fields[name], true))
  {
    var (name, property) := schema.properties[k];
    var here := if name in fields then Fields(property, fields[name], true) else [];
    if p in Below(name, here) {
      var i :| 0 <= i < |here| && p == [name] + here[i];
      assert p[1..] == here[i];
    }
  }

  lemma {:induction false} PropertyFieldsAreStrings(schema: Schema, k: nat, fields: map<string, Value>, p: Tokens)
    requires FitsInMemory(Obj(fields)) && p in PropertyFields(schema, k, fields)
    ensures Resolve(Obj(fields), p).Some? && Resolve(Obj(fields), p).value.Str?
    ensures p != [] && HasAssetField(schema)
    ensures exists j :: k <= j < |schema.properties| && schema.properties[j].0 == p[0]
    decreases schema, 0, |schema.properties| - k
  {
    PropertyFieldIs(schema, k, fields, p);
    if p in PropertyFields(schema, k + 1, fields) {
      PropertyFieldsAreStrings(schema, k + 1, fields, p);
    } else {
      var (name, property) := schema.properties[k];
      FieldsAreStrings(property, fields[name], true, p[1..]);
      BelowProperty(schema, k, fields, p[1..]);
      assert p == [name] + p[1..];
    }
  }

  lemma {:induction false} ItemFieldsAreStrings(schema: Schema, i: nat, items: seq<Value>, p: Tokens)
    requires schema.items.Some? && FitsInMemory(Arr(items)) && p in ItemFields(schema, i, items)
    ensures Resolve(Arr(items), p).Some? && Resolve(Arr(items), p).value.Str?
    ensures p != [] && HasAssetField(schema)
    ensures exists j: nat :: i <= j && p[0] == Decimal(j)
    decreases schema, 0, |items| - i
  {
    var here := Fields(schema.items.value, items[i], true);
    if p in Below(Decimal(i), here) {
      var k :| 0 <= k < |here| && p == [Decimal(i)] + here[k];
      FieldsAreStrings(schema.items.value, items[i], true, here[k]);
      DecimalIsAnIndex(i);
      assert p[1..] == here[k];
    } else {
      ItemFieldsAreStrings(schema, i + 1, items, p);
    }
  }

  // ---- No field is found twice ----

  ghost predicate Distinct(ps: seq<Tokens>) { forall i, j | 0 <= i < j < |ps| :: ps[i] != ps[j] }

  lemma DistinctBelow(token: string, ps: seq<Tokens>, rest: seq<Tokens>)
    requires Distinct(ps) && Distinct(rest) && forall p | p in rest :: p != [] && p[0] != token
    ensures Distinct(Below(token, ps) + rest)
  {
    var all := Below(token, ps) + rest;
    forall i, j | 0 <= i < j < |all| ensures all[i] != all[j] {
      if j < |ps| {
        assert all[i][1..] == ps[i] && all[j][1..] == ps[j];
      } else if i < |ps| {
        assert all[i][0] == token && all[j] in rest;
      }
    }
  }

  lemma {:induction false} FieldsAreDistinct(schema: Schema, value: Value, allowed: bool)
    requires WellFormed(schema) && FitsInMemory(value)
    ensures Distinct(Fields(schema, value, allowed))
    decreases schema, 1, 0
  {
    match value
    case Obj(fields) => PropertyFieldsAreDistinct(schema, 0, fields);
    case Arr(items) => if schema.items.Some? { ItemFieldsAreDistinct(schema, 0, items); }
    case _ =>
  }

  lemma LaterFieldsAreOthers(schema: Schema, k: nat, fields: map<string, Value>, rest: seq<Tokens>)
    requires k < |schema.properties| && WellFormed(schema) && FitsInMemory(Obj(fields))
    requires rest == PropertyFields(schema, k + 1, fields)
    ensures forall p | p in rest :: p != [] && p[0] != schema.properties[k].0
  {
    forall p | p in rest ensures p != [] && p[0] != schema.properties[k].0 {
      PropertyFieldsAreStrings(schema, k + 1, fields, p);
    }
  }

  lemma {:induction false} PropertyFieldsAreDistinct(schema: Schema, k: nat, fields: map<string, Value>)
    requires WellFormed(schema) && FitsInMemory(Obj(fields))
    ensures Distinct(PropertyFields(schema, k, fields))
    decreases schema, 0, |schema.properties| - k
  {
    if k < |schema.properties| {
      var (name, property) := schema.properties[k];
      PropertyFieldsAreDistinct(schema, k + 1, fields);
      var rest := PropertyFields(schema, k + 1, fields);
      if name in fields {
        FieldsAreDistinct(property, fields[name], true);
        LaterFieldsAreOthers(schema, k, fields, rest);
        DistinctBelow(name, Fields(property, fields[name], true), rest);
      } else {
        assert PropertyFields(schema, k, fields) == rest;
      }
    }
  }

  lemma {:induction false} ItemFieldsAreDistinct(schema: Schema, i: nat, items: seq<Value>)
    requires schema.items.Some? && WellFormed(schema) && FitsInMemory(Arr(items))
    ensures Distinct(ItemFields(schema, i, items))
    decreases schema, 0, |items| - i
  {
    if i < |items| {
      ItemFieldsAreDistinct(schema, i + 1, items);
      FieldsAreDistinct(schema.items.value, items[i], true);
      var rest := ItemFields(schema, i + 1, items);
      forall p | p in rest ensures p != [] && p[0] != Decimal(i) {
        ItemFieldsAreStrings(schema, i + 1, items, p);
        var j: nat :| i + 1 <= j && p[0] == Decimal(j);
        if Decimal(i) == Decimal(j) { DecimalIsInjective(i, j); }
      }
      DistinctBelow(Decimal(i), Fields(schema.items.value, items[i], true), rest);
    }
  }

  // ---- Writing to every field ----

  /** One value for each field. */
  function WritesTo(ps: seq<Tokens>, xs: seq<Value>): seq<Write>
    requires |ps| == |xs|
  {
    seq(|ps|, i requires 0 <= i < |ps| => (ps[i], xs[i]))
  }

  lemma {:induction false} FieldWritesAreIndependent(v: Value, ps: seq<Tokens>, xs: seq<Value>)
    requires |ps| == |xs| && Distinct(ps)
    requires forall p | p in ps :: Resolve(v, p).Some? && Resolve(v, p).value.Str?
    ensures Independent(v, WritesTo(ps, xs))
    decreases |ps|
  {
    if ps != [] {
      var writes := WritesTo(ps, xs);
      assert writes[1..] == WritesTo(ps[1..], xs[1..]);
      assert ps[0] in ps;
      ResolvingIsWritable(v, ps[0], xs[0]);
      forall w | w in writes[1..] ensures Unrelated(ps[0], w.0) {
        var i :| 0 <= i < |ps[1..]| && w == writes[1..][i];
        assert ps[i + 1] in ps;
        LeavesAreUnrelated(v, ps[0], ps[i + 1]);
      }
      FieldWritesAreIndependent(v, ps[1..], xs[1..]);
    }
  }

  /** Whatever the payload and schema: a value written to every field found lands there,
      no write fails, and a pointer unrelated to all the fields keeps its value. */
  lemma FieldsCanBeReplaced(schema: Schema, value: Value, xs: seq<Value>)
    requires WellFormed(schema) && FitsInMemory(value) && |xs| == |Fields(schema, value, false)|
    ensures
      var ps := Fields(schema, value, false);
      var r := SetAll(value, WritesTo(ps, xs));
      && r.Ok?
      && (forall i | 0 <= i < |ps| :: Resolve(r.value, ps[i]) == Some(xs[i]))
      && (forall q: Tokens | forall p | p in ps :: Unrelated(p, q) :: Resolve(r.value, q) == Resolve(value, q))
  {
    var ps := Fields(schema, value, false);
    var writes := WritesTo(ps, xs);
    FieldsAreDistinct(schema, value, false);
    forall p | p in ps ensures Resolve(value, p).Some? && Resolve(value, p).value.Str? {
      FieldsAreStrings(schema, value, false, p);
    }
    FieldWritesAreIndependent(value, ps, xs);
    forall i | 0 <= i < |ps|
      ensures SetAll(value, writes).Ok? && Resolve(SetAll(value, writes).value, ps[i]) == Some(xs[i])
    {
      FieldLands(value, ps, xs, i);
    }
    if ps == [] { assert SetAll(value, writes) == Ok(value); }
    forall q: Tokens | forall p | p in ps :: Unrelated(p, q)
      ensures SetAll(value, writes).Ok? && Resolve(SetAll(value, writes).value, q) == Resolve(value, q)
    {
      forall w | w in writes ensures w.0 != q && Unrelated(w.0, q) { assert w.0 in ps; }
      IndependentWritesLand(value, writes, q);
    }
  }

  lemma FieldLands(v: Value, ps: seq<Tokens>, xs: seq<Value>, i: nat)
    requires |ps| == |xs| && Distinct(ps) && i < |ps|
    requires forall p | p in ps :: Resolve(v, p).Some? && Resolve(v, p).value.Str?
    requires Independent(v, WritesTo(ps, xs))
    ensures SetAll(v, WritesTo(ps, xs)).Ok?
    ensures Resolve(SetAll(v, WritesTo(ps, xs)).value, ps[i]) == Some(xs[i])
  {
    var writes := WritesTo(ps, xs);
    forall w | w in writes ensures w.0 == ps[i] || Unrelated(w.0, ps[i]) {
      assert w.0 in ps && ps[i] in ps;
      if w.0 != ps[i] { LeavesAreUnrelated(v, w.0, ps[i]); }
    }
    IndependentWritesLand(v, writes, ps[i]);
    assert writes[i] in writes && writes[i].0 == ps[i];
  }
}
