/** Writing a value into a JSON document at a pointer (RFC 6901, sections 3 and 4). */
module JsonPointer {
  import opened Wrappers
  import opened Text

  datatype Value =
    | Null
    | Bool(b: bool)
    | Num(n: int)
    | Str(s: string)
    | Arr(items: seq<Value>)
    | Obj(fields: map<string, Value>)

  datatype Error = NotFound | InvalidIndex | OutOfBounds | NotContainer

  type Tokens = seq<string>

  // ---- Pointer text ----

  /** `s.replace(c, to)`. */
  function ReplaceChar(s: string, c: char, to: string): string {
    if s == "" then "" else (if s[0] == c then to else [s[0]]) + ReplaceChar(s[1..], c, to)
  }

  /** `s.replace("~d", to)`, left to right without overlap. */
  function ReplacePair(s: string, d: char, to: char): string {
    if s == "" then ""
    else if |s| >= 2 && s[0] == '~' && s[1] == d then [to] + ReplacePair(s[2..], d, to)
    else [s[0]] + ReplacePair(s[1..], d, to)
  }

  function Escape(t: string): string { ReplaceChar(ReplaceChar(t, '~', "~0"), '/', "~1") }

  function Unescape(t: string): string { ReplacePair(ReplacePair(t, '1', '/'), '0', '~') }

  lemma {:induction false} ReplaceCharConcat(a: string, b: string, c: char, to: string)
    ensures ReplaceChar(a + b, c, to) == ReplaceChar(a, c, to) + ReplaceChar(b, c, to)
  {
    if a == "" {
      assert a + b == b;
    } else {
      assert (a + b)[1..] == a[1..] + b;
      ReplaceCharConcat(a[1..], b, c, to);
    }
  }

  lemma EscapeCons(t: string)
    requires t != ""
    ensures Escape(t) == (if t[0] == '~' then "~0" else if t[0] == '/' then "~1" else [t[0]]) + Escape(t[1..])
  {
    var head := if t[0] == '~' then "~0" else [t[0]];
    ReplaceCharConcat(head, ReplaceChar(t[1..], '~', "~0"), '/', "~1");
    assert head[1..] == if t[0] == '~' then "0" else "";
    assert ReplaceChar(head, '/', "~1") == if t[0] == '~' then "~0" else if t[0] == '/' then "~1" else [t[0]] by {
      if t[0] == '~' { assert ReplaceChar("0", '/', "~1") == "0" by { assert "0"[1..] == ""; } }
    }
  }

  lemma TildeIsKept(c: char, rest: string, d: char, to: char)
    requires c != d && c != '~'
    ensures ReplacePair("~" + [c] + rest, d, to) == "~" + [c] + ReplacePair(rest, d, to)
  {
    var s := "~" + [c] + rest;
    assert s[1..] == [c] + rest && s[1..][1..] == rest;
    assert ReplacePair(s[1..], d, to) == [c] + ReplacePair(rest, d, to);
  }

  lemma {:induction false} FirstPass(t: string)
    ensures ReplacePair(Escape(t), '1', '/') == ReplaceChar(t, '~', "~0")
  {
    if t != "" {
      EscapeCons(t);
      FirstPass(t[1..]);
      var rest := Escape(t[1..]);
      if t[0] == '~' {
        TildeIsKept('0', rest, '1', '/');
      } else if t[0] == '/' {
        assert ("~1" + rest)[2..] == rest;
      } else {
        assert ([t[0]] + rest)[1..] == rest;
      }
    }
  }

  lemma {:induction false} SecondPass(t: string)
    ensures ReplacePair(ReplaceChar(t, '~', "~0"), '0', '~') == t
  {
    if t != "" {
      SecondPass(t[1..]);
      var rest := ReplaceChar(t[1..], '~', "~0");
      if t[0] == '~' {
        assert ("~0" + rest)[2..] == rest;
      } else {
        assert ([t[0]] + rest)[1..] == rest;
      }
    }
  }

  /** Decoding `~1` before `~0` inverts escaping, for every token. */
  lemma UnescapeInvertsEscape(t: string)
    ensures Unescape(Escape(t)) == t
  {
    FirstPass(t);
    SecondPass(t);
  }

  lemma {:induction false} EscapeHasNoSlash(t: string)
    ensures '/' !in Escape(t)
  {
    if t != "" {
      EscapeCons(t);
      EscapeHasNoSlash(t[1..]);
    }
  }

  function Print(p: Tokens): string {
    if p == [] then "" else "/" + Escape(p[0]) + Print(p[1..])
  }

  function UnescapeAll(pieces: seq<string>): Tokens {
    seq(|pieces|, i requires 0 <= i < |pieces| => Unescape(pieces[i]))
  }

  /** `pointer.split('/').skip(1)`, each piece decoded. */
  function Parse(pointer: string): Tokens { UnescapeAll(Split(pointer, '/')[1..]) }

  function Escaped(p: Tokens): seq<string> { seq(|p|, i requires 0 <= i < |p| => Escape(p[i])) }

  lemma EscapedCons(p: Tokens)
    requires p != []
    ensures Escaped(p) == [Escape(p[0])] + Escaped(p[1..])
  { }

  lemma {:induction false} SplitPrinted(lead: string, p: Tokens)
    requires '/' !in lead
    ensures Split(lead + Print(p), '/') == [lead] + Escaped(p)
    decreases |p|
  {
    if p == [] {
      assert lead + Print(p) == lead;
      SplitNone(lead, '/');
    } else {
      EscapeHasNoSlash(p[0]);
      SplitPrinted(Escape(p[0]), p[1..]);
      assert lead + Print(p) == lead + ['/'] + (Escape(p[0]) + Print(p[1..]));
      SplitAt(lead, '/', Escape(p[0]) + Print(p[1..]));
      EscapedCons(p);
    }
  }

  /** Every token sequence survives printing and parsing, empty tokens included. */
  lemma ParseInvertsPrint(p: Tokens)
    ensures Parse(Print(p)) == p
  {
    SplitPrinted("", p);
    assert "" + Print(p) == Print(p);
    forall i | 0 <= i < |p| ensures Unescape(Escape(p[i])) == p[i] { UnescapeInvertsEscape(p[i]); }
  }

  // ---- Reading ----

  /** The value a pointer refers to. */
  function Resolve(v: Value, p: Tokens): Option<Value> {
    if p == [] then Some(v)
    else
      match v
      case Obj(fields) => if p[0] in fields then Resolve(fields[p[0]], p[1..]) else None
      case Arr(items) =>
        var i := ParseIndex(p[0]);
        if i.Some? && i.value < |items| then Resolve(items[i.value], p[1..]) else None
      case _ => None
  }

  // ---- Writing ----

  /** What one write makes of a document: descend to the last token's container, with
      array indices read as the integer parser reads them, and insert or replace there. */
  function SetAt(v: Value, p: Tokens, x: Value): Result<Value, Error> {
    if p == [] then Ok(x)
    else
      match v
      case Obj(fields) =>
        if |p| == 1 then Ok(Obj(fields[p[0] := x]))
        else if p[0] !in fields then Err(NotFound)
        else (match SetAt(fields[p[0]], p[1..], x)
              case Ok(child) => Ok(Obj(fields[p[0] := child]))
              case Err(e) => Err(e))
      case Arr(items) =>
        (match ParseUsize(p[0])
         case None => Err(InvalidIndex)
         case Some(i) =>
           if i >= |items| then Err(OutOfBounds)
           else match SetAt(items[i], p[1..], x)
                case Ok(child) => Ok(Arr(items[i := child]))
                case Err(e) => Err(e))
      case _ => Err(NotContainer)
  }

  /** The containers passed on the way down, each with the place the way went on from. */
  datatype Frame = InObj(fields: map<string, Value>, key: string) | InArr(items: seq<Value>, index: nat)

  /** The document around `v`. */
  function Plug(frames: seq<Frame>, v: Value): Value {
    if frames == [] then v
    else
      var last := frames[|frames| - 1];
      Plug(frames[..|frames| - 1],
           match last
           case InObj(fields, key) => Obj(fields[key := v])
           case InArr(items, i) => if i < |items| then Arr(items[i := v]) else Arr(items))
  }

  /** The same for the outcome of a write to `v`. */
  function Rebuilt(frames: seq<Frame>, r: Result<Value, Error>): Result<Value, Error> {
    match r case Ok(v) => Ok(Plug(frames, v)) case Err(e) => Err(e)
  }

  lemma DescendObj(frames: seq<Frame>, fields: map<string, Value>, p: Tokens, x: Value)
    requires |p| > 1 && p[0] in fields
    ensures Rebuilt(frames, SetAt(Obj(fields), p, x))
         == Rebuilt(frames + [InObj(fields, p[0])], SetAt(fields[p[0]], p[1..], x))
  {
    var deeper := frames + [InObj(fields, p[0])];
    assert deeper[..|deeper| - 1] == frames;
  }

  lemma DescendArr(frames: seq<Frame>, items: seq<Value>, p: Tokens, x: Value, i: nat)
    requires p != [] && ParseUsize(p[0]) == Some(i) && i < |items|
    ensures Rebuilt(frames, SetAt(Arr(items), p, x))
         == Rebuilt(frames + [InArr(items, i)], SetAt(items[i], p[1..], x))
  {
    var deeper := frames + [InArr(items, i)];
    assert deeper[..|deeper| - 1] == frames;
  }

  /** The last token: insert into an object, replace in an array. */
  method Place(current: Value, frames: seq<Frame>, last: string, newVal: Value) returns (r: Result<Value, Error>)
    ensures r == Rebuilt(frames, SetAt(current, [last], newVal))
  {
    match current {
      case Obj(fields) =>
        r := Ok(Plug(frames, Obj(fields[last := newVal])));
      case Arr(items) =>
        var index := ParseUsize(last);
        if index.None? {
          return Err(InvalidIndex);
        }
        if index.value >= |items| {
          return Err(OutOfBounds);
        }
        r := Ok(Plug(frames, Arr(items[index.value := newVal])));
      case _ =>
        r := Err(NotContainer);
    }
  }

  /** The writer: a cursor moves down the document token by token. */
  method SetJsonPointer(target: Value, pointer: string, newVal: Value) returns (r: Result<Value, Error>)
    ensures r == SetAt(target, Parse(pointer), newVal)
  {
    var tokens := Parse(pointer);
    if tokens == [] {
      return Ok(newVal);
    }
    var current := target;
    var frames: seq<Frame> := [];
    var n := 0;
    while n < |tokens| - 1
      invariant 0 <= n < |tokens|
      invariant SetAt(target, tokens, newVal) == Rebuilt(frames, SetAt(current, tokens[n..], newVal))
    {
      var token := tokens[n];
      match current {
        case Obj(fields) =>
          if token !in fields {
            return Err(NotFound);
          }
          DescendObj(frames, fields, tokens[n..], newVal);
          frames, current := frames + [InObj(fields, token)], fields[token];
        case Arr(items) =>
          var index := ParseUsize(token);
          if index.None? {
            return Err(InvalidIndex);
          }
          if index.value >= |items| {
            return Err(OutOfBounds);
          }
          DescendArr(frames, items, tokens[n..], newVal, index.value);
          frames, current := frames + [InArr(items, index.value)], items[index.value];
        case _ =>
          return Err(NotContainer);
      }
      n := n + 1;
    }
    assert tokens[n..] == [tokens[n]];
    r := Place(current, frames, tokens[n], newVal);
  }

  // ---- What a write does ----

  /** Every array index on the way is canonical and in range, and every object key on the
      way exists, save possibly the last: the write lands where the pointer points. */
  predicate Writable(v: Value, p: Tokens) {
    p == [] ||
    match v
    case Obj(fields) => |p| == 1 || (p[0] in fields && Writable(fields[p[0]], p[1..]))
    case Arr(items) =>
      var i := ParseIndex(p[0]);
      i.Some? && i.value < |items| && Writable(items[i.value], p[1..])
    case _ => false
  }

  /** A pointer that resolves is writable; a writable one can always be written. */
  lemma {:induction false} ResolvingIsWritable(v: Value, p: Tokens, x: Value)
    ensures Resolve(v, p).Some? ==> Writable(v, p)
    ensures Writable(v, p) ==> SetAt(v, p, x).Ok?
  {
    if p != [] {
      match v
      case Obj(fields) => if p[0] in fields { ResolvingIsWritable(fields[p[0]], p[1..], x); }
      case Arr(items) =>
        var i := ParseUsize(p[0]);
        if i.Some? && i.value < |items| { ResolvingIsWritable(items[i.value], p[1..], x); }
      case _ =>
    }
  }

  /** After a successful write, reading the pointer gives the new value exactly when the
      pointer was writable: a non-canonical index is written but not read. */
  lemma {:induction false} ReadsBackIffWritable(v: Value, p: Tokens, x: Value)
    requires SetAt(v, p, x).Ok?
    ensures Writable(v, p) ==> Resolve(SetAt(v, p, x).value, p) == Some(x)
    ensures !Writable(v, p) ==> Resolve(SetAt(v, p, x).value, p) == None
  {
    if p != [] {
      match v
      case Obj(fields) => if |p| > 1 { ReadsBackIffWritable(fields[p[0]], p[1..], x); }
      case Arr(items) =>
        var i := ParseUsize(p[0]).value;
        ReadsBackIffWritable(items[i], p[1..], x);
    }
  }

  /** Neither pointer is a prefix of the other. */
  predicate Unrelated(p: Tokens, q: Tokens) { !(p <= q) && !(q <= p) }

  lemma UnrelatedTails(p: Tokens, q: Tokens)
    requires Unrelated(p, q)
    ensures p != [] && q != [] && (p[0] == q[0] ==> Unrelated(p[1..], q[1..]))
  {
    if p[0] == q[0] {
      assert p == [p[0]] + p[1..] && q == [q[0]] + q[1..];
    }
  }

  lemma SameIndexSameToken(a: string, b: string)
    requires ParseIndex(a).Some? && ParseIndex(a) == ParseIndex(b)
    ensures a == b
  {
    CanonicalIsUnique(a, b);
  }

  /** A write leaves every pointer unrelated to it as it was. */
  lemma {:induction false} WriteLeavesUnrelated(v: Value, p: Tokens, x: Value, q: Tokens)
    requires Writable(v, p) && SetAt(v, p, x).Ok? && Unrelated(p, q)
    ensures Resolve(SetAt(v, p, x).value, q) == Resolve(v, q)
  {
    UnrelatedTails(p, q);
    match v
    case Obj(fields) =>
      if |p| > 1 && p[0] == q[0] { WriteLeavesUnrelated(fields[p[0]], p[1..], x, q[1..]); }
    case Arr(items) =>
      var i := ParseIndex(p[0]);
      if ParseIndex(q[0]) == i {
        SameIndexSameToken(p[0], q[0]);
        WriteLeavesUnrelated(items[i.value], p[1..], x, q[1..]);
      }
  }

  /** Two writes below different elements of an array. */
  lemma ElementsCommute(items: seq<Value>, p: Tokens, x: Value, q: Tokens, y: Value, i: nat, j: nat)
    requires Writable(Arr(items), p) && p != [] && ParseIndex(p[0]) == Some(i)
    requires Writable(Arr(items), q) && q != [] && ParseIndex(q[0]) == Some(j) && i != j
    ensures SetAt(Arr(items), p, x).Ok? && SetAt(Arr(items), q, y).Ok?
    ensures Writable(SetAt(Arr(items), p, x).value, q)
    ensures SetAt(SetAt(Arr(items), p, x).value, q, y).Ok?
    ensures SetAt(SetAt(Arr(items), p, x).value, q, y).value
         == Arr(items[i := SetAt(items[i], p[1..], x).value][j := SetAt(items[j], q[1..], y).value])
  {
    ResolvingIsWritable(items[i], p[1..], x);
    ResolvingIsWritable(items[j], q[1..], y);
    var a := items[i := SetAt(items[i], p[1..], x).value];
    assert SetAt(Arr(items), p, x) == Ok(Arr(a));
    assert a[j] == items[j];
    assert SetAt(Arr(a), q, y) == Ok(Arr(a[j := SetAt(items[j], q[1..], y).value]));
  }

  /** Two writes below the same element of an array. */
  lemma SameElement(items: seq<Value>, p: Tokens, x: Value, q: Tokens, y: Value, i: nat)
    requires Writable(Arr(items), p) && p != [] && ParseIndex(p[0]) == Some(i) && q != [] && q[0] == p[0]
    ensures SetAt(Arr(items), p, x).Ok? && SetAt(items[i], p[1..], x).Ok?
    ensures Writable(SetAt(Arr(items), p, x).value, q) == Writable(SetAt(items[i], p[1..], x).value, q[1..])
    ensures SetAt(SetAt(Arr(items), p, x).value, q, y)
         == match SetAt(SetAt(items[i], p[1..], x).value, q[1..], y)
            case Ok(child) => Ok(Arr(items[i := child]))
            case Err(e) => Err(e)
  {
    ResolvingIsWritable(items[i], p[1..], x);
    var child := SetAt(items[i], p[1..], x).value;
    assert SetAt(Arr(items), p, x).value == Arr(items[i := child]);
    var r := SetAt(child, q[1..], y);
    if r.Ok? { assert items[i := child][i := r.value] == items[i := r.value]; }
  }

  /** A write below one key does not see the others. */
  lemma KeyWrite(fields: map<string, Value>, p: Tokens, x: Value, k: string, b: Value) returns (a: Value)
    requires Writable(Obj(fields), p) && p != [] && p[0] != k
    ensures SetAt(Obj(fields), p, x) == Ok(Obj(fields[p[0] := a]))
    ensures Writable(Obj(fields[k := b]), p)
    ensures SetAt(Obj(fields[k := b]), p, x) == Ok(Obj(fields[k := b][p[0] := a]))
  {
    ResolvingIsWritable(Obj(fields), p, x);
    a := if |p| == 1 then x else SetAt(fields[p[0]], p[1..], x).value;
    assert p[0] in fields ==> fields[k := b][p[0]] == fields[p[0]];
  }

  /** Two writes below the same key of an object. */
  lemma SameKey(fields: map<string, Value>, p: Tokens, x: Value, q: Tokens, y: Value)
    requires |p| > 1 && |q| > 1 && p[0] == q[0] && Writable(Obj(fields), p)
    ensures SetAt(Obj(fields), p, x).Ok? && SetAt(fields[p[0]], p[1..], x).Ok?
    ensures Writable(SetAt(Obj(fields), p, x).value, q) == Writable(SetAt(fields[p[0]], p[1..], x).value, q[1..])
    ensures SetAt(SetAt(Obj(fields), p, x).value, q, y)
         == match SetAt(SetAt(fields[p[0]], p[1..], x).value, q[1..], y)
            case Ok(child) => Ok(Obj(fields[p[0] := child]))
            case Err(e) => Err(e)
  {
    ResolvingIsWritable(fields[p[0]], p[1..], x);
    var child := SetAt(fields[p[0]], p[1..], x).value;
    assert SetAt(Obj(fields), p, x).value == Obj(fields[p[0] := child]);
    var r := SetAt(child, q[1..], y);
    if r.Ok? { assert fields[p[0] := child][p[0] := r.value] == fields[p[0] := r.value]; }
  }

  /** The writes of `x` at `p` and of `y` at `q` succeed, neither makes the other's pointer
      unwritable, and they give the same document in either order. */
  predicate Commute(v: Value, p: Tokens, x: Value, q: Tokens, y: Value) {
    var a, b := SetAt(v, p, x), SetAt(v, q, y);
    && a.Ok? && b.Ok?
    && Writable(a.value, q) && Writable(b.value, p)
    && SetAt(a.value, q, y) == SetAt(b.value, p, x)
  }

  lemma OtherKeysCommute(fields: map<string, Value>, p: Tokens, x: Value, q: Tokens, y: Value)
    requires p != [] && q != [] && p[0] != q[0] && Writable(Obj(fields), p) && Writable(Obj(fields), q)
    ensures Commute(Obj(fields), p, x, q, y)
  {
    var b := KeyWrite(fields, q, y, p[0], Null);
    var a := KeyWrite(fields, p, x, q[0], b);
    var b' := KeyWrite(fields, q, y, p[0], a);
    assert fields[q[0] := b][q[0]] == b && fields[q[0] := b'][q[0]] == b';
    assert fields[p[0] := a][q[0] := b] == fields[q[0] := b][p[0] := a];
  }

  lemma SameKeyCommutes(fields: map<string, Value>, p: Tokens, x: Value, q: Tokens, y: Value)
    requires |p| > 1 && |q| > 1 && p[0] == q[0] && Writable(Obj(fields), p) && Writable(Obj(fields), q)
    requires Commute(fields[p[0]], p[1..], x, q[1..], y)
    ensures Commute(Obj(fields), p, x, q, y)
  {
    SameKey(fields, p, x, q, y);
    SameKey(fields, q, y, p, x);
  }

  lemma ArrayWritesCommute(items: seq<Value>, p: Tokens, x: Value, q: Tokens, y: Value, i: nat, j: nat)
    requires Writable(Arr(items), p) && Writable(Arr(items), q) && Unrelated(p, q) && p != [] && q != []
    requires ParseIndex(p[0]) == Some(i) && ParseIndex(q[0]) == Some(j)
    requires i == j ==> p[0] == q[0] && i < |items| && Commute(items[i], p[1..], x, q[1..], y)
    ensures Commute(Arr(items), p, x, q, y)
  {
    if i == j {
      SameElement(items, p, x, q, y, i);
      SameElement(items, q, y, p, x, i);
    } else {
      ElementsCommute(items, p, x, q, y, i, j);
      ElementsCommute(items, q, y, p, x, j, i);
      var a, b := SetAt(items[i], p[1..], x).value, SetAt(items[j], q[1..], y).value;
      assert items[i := a][j := b] == items[j := b][i := a];
    }
  }

  /** Writes at unrelated writable pointers commute. */
  lemma {:induction false} WritesCommute(v: Value, p: Tokens, x: Value, q: Tokens, y: Value)
    requires Writable(v, p) && Writable(v, q) && Unrelated(p, q)
    ensures Commute(v, p, x, q, y)
  {
    UnrelatedTails(p, q);
    match v
    case Obj(fields) =>
      if p[0] == q[0] {
        WritesCommute(fields[p[0]], p[1..], x, q[1..], y);
        SameKeyCommutes(fields, p, x, q, y);
      } else {
        OtherKeysCommute(fields, p, x, q, y);
      }
    case Arr(items) =>
      var i, j := ParseIndex(p[0]).value, ParseIndex(q[0]).value;
      if i == j {
        SameIndexSameToken(p[0], q[0]);
        WritesCommute(items[i], p[1..], x, q[1..], y);
      }
      ArrayWritesCommute(items, p, x, q, y, i, j);
  }

  // ---- Many writes ----

  type Write = (Tokens, Value)

  /** The writes one after the other, stopping at the first that fails. */
  function SetAll(v: Value, writes: seq<Write>): Result<Value, Error>
    decreases |writes|
  {
    if writes == [] then Ok(v)
    else match SetAt(v, writes[0].0, writes[0].1)
      case Ok(next) => SetAll(next, writes[1..])
      case Err(e) => Err(e)
  }

  /** Every pointer is writable and no two are related. */
  ghost predicate Independent(v: Value, writes: seq<Write>) {
    writes == [] ||
    (&& Writable(v, writes[0].0)
     && (forall w | w in writes[1..] :: Unrelated(writes[0].0, w.0))
     && Independent(v, writes[1..]))
  }

  lemma {:induction false} StaysIndependent(v: Value, p: Tokens, x: Value, writes: seq<Write>)
    requires Writable(v, p) && Independent(v, writes) && forall w | w in writes :: Unrelated(p, w.0)
    ensures SetAt(v, p, x).Ok? && Independent(SetAt(v, p, x).value, writes)
  {
    ResolvingIsWritable(v, p, x);
    if writes != [] {
      assert writes[0] in writes;
      WritesCommute(v, p, x, writes[0].0, writes[0].1);
      StaysIndependent(v, p, x, writes[1..]);
    }
  }

  /** Independent writes all succeed. Each pointer then reads its own value, and a pointer
      unrelated to all of them reads what it read before. */
  lemma {:induction false} IndependentWritesLand(v: Value, writes: seq<Write>, q: Tokens)
    requires Independent(v, writes)
    requires forall w | w in writes :: w.0 == q || Unrelated(w.0, q)
    ensures SetAll(v, writes).Ok?
    ensures forall w | w in writes && w.0 == q :: Resolve(SetAll(v, writes).value, q) == Some(w.1)
    ensures (forall w | w in writes :: w.0 != q) ==> Resolve(SetAll(v, writes).value, q) == Resolve(v, q)
    decreases |writes|
  {
    if writes != [] {
      var (p, x) := writes[0];
      assert writes[0] in writes;
      StaysIndependent(v, p, x, writes[1..]);
      var next := SetAt(v, p, x).value;
      assert forall w | w in writes[1..] :: w in writes;
      IndependentWritesLand(next, writes[1..], q);
      if p == q {
        ReadsBackIffWritable(v, p, x);
      } else {
        WriteLeavesUnrelated(v, p, x, q);
      }
    }
  }

  function Without(writes: seq<Write>, k: nat): seq<Write>
    requires k < |writes|
  {
    writes[..k] + writes[k + 1..]
  }

  lemma WithoutLater(writes: seq<Write>, k: nat)
    requires 0 < k < |writes|
    ensures Without(writes, k) != [] && Without(writes, k)[0] == writes[0]
    ensures Without(writes, k)[1..] == Without(writes[1..], k - 1)
  { }

  lemma WithoutIsPart(writes: seq<Write>, k: nat)
    requires k < |writes|
    ensures forall w | w in Without(writes, k) :: w in writes
  { }

  lemma OneMoreIndependent(v: Value, write: Write, rest: seq<Write>)
    requires Writable(v, write.0) && Independent(v, rest) && forall w | w in rest :: Unrelated(write.0, w.0)
    ensures Independent(v, [write] + rest)
  {
    assert ([write] + rest)[1..] == rest;
  }

  lemma {:induction false} RemovedIsIndependent(v: Value, writes: seq<Write>, k: nat)
    requires Independent(v, writes) && k < |writes|
    ensures Independent(v, Without(writes, k)) && Writable(v, writes[k].0)
    ensures forall w | w in Without(writes, k) :: Unrelated(writes[k].0, w.0)
  {
    if k == 0 {
      assert Without(writes, 0) == writes[1..];
    } else {
      var rest := Without(writes[1..], k - 1);
      RemovedIsIndependent(v, writes[1..], k - 1);
      WithoutIsPart(writes[1..], k - 1);
      WithoutLater(writes, k);
      assert Without(writes, k) == [writes[0]] + rest;
      assert writes[k] in writes[1..] && Unrelated(writes[0].0, writes[k].0);
      OneMoreIndependent(v, writes[0], rest);
    }
  }

  lemma FirstCommutes(v: Value, writes: seq<Write>, k: nat)
    requires Independent(v, writes) && 0 < k < |writes|
    ensures Commute(v, writes[0].0, writes[0].1, writes[k].0, writes[k].1)
  {
    assert writes[k] in writes[1..];
    RemovedIsIndependent(v, writes, k);
    WritesCommute(v, writes[0].0, writes[0].1, writes[k].0, writes[k].1);
  }

  /** Bringing one independent write to the front changes nothing. */
  lemma {:induction false} ToFront(v: Value, writes: seq<Write>, k: nat)
    requires Independent(v, writes) && k < |writes|
    ensures SetAt(v, writes[k].0, writes[k].1).Ok?
    ensures SetAll(v, writes) == SetAll(SetAt(v, writes[k].0, writes[k].1).value, Without(writes, k))
    decreases |writes|
  {
    var (p, x) := writes[0];
    StaysIndependent(v, p, x, writes[1..]);
    if k == 0 {
      assert Without(writes, 0) == writes[1..];
    } else {
      ToFront(SetAt(v, p, x).value, writes[1..], k - 1);
      WithoutLater(writes, k);
      FirstCommutes(v, writes, k);
    }
  }

  lemma CountsAround(a: seq<Write>, k: nat)
    requires k < |a|
    ensures multiset(a) == multiset(Without(a, k)) + multiset{a[k]}
  {
    var front, back := a[..k], a[k + 1..];
    assert a == front + [a[k]] + back;
    assert multiset(front + [a[k]] + back) == multiset(front) + multiset{a[k]} + multiset(back);
    assert multiset(front + back) == multiset(front) + multiset(back);
  }

  lemma RemovedCounts(a: seq<Write>, b: seq<Write>, k: nat)
    requires b != [] && multiset(a) == multiset(b) && k < |a| && a[k] == b[0]
    ensures multiset(Without(a, k)) == multiset(b[1..])
  {
    CountsAround(a, k);
    CountsAround(b, 0);
    assert Without(b, 0) == b[1..];
    var x := multiset{b[0]};
    assert multiset(Without(a, k)) == multiset(a) - x;
    assert multiset(b[1..]) == multiset(b) - x;
  }

  lemma RestIsIndependent(v: Value, a: seq<Write>, k: nat)
    requires Independent(v, a) && k < |a|
    ensures SetAt(v, a[k].0, a[k].1).Ok?
    ensures Independent(SetAt(v, a[k].0, a[k].1).value, Without(a, k))
  {
    RemovedIsIndependent(v, a, k);
    var (p, x) := a[k];
    var rest := Without(a, k);
    StaysIndependent(v, p, x, rest);
    assert Independent(SetAt(v, p, x).value, rest);
  }

  /** Independent writes may be performed in any order. */
  lemma {:induction false} OrderDoesNotMatter(v: Value, a: seq<Write>, b: seq<Write>)
    requires Independent(v, a) && multiset(a) == multiset(b)
    ensures SetAll(v, a) == SetAll(v, b)
    decreases |b|
  {
    assert |a| == |multiset(a)| == |multiset(b)| == |b|;
    if b != [] {
      assert b[0] in multiset(b);
      var k :| 0 <= k < |a| && a[k] == b[0];
      RestIsIndependent(v, a, k);
      RemovedCounts(a, b, k);
      ToFront(v, a, k);
      OrderDoesNotMatter(SetAt(v, a[k].0, a[k].1).value, Without(a, k), b[1..]);
    }
  }

  /** Distinct pointers to strings are unrelated: nothing lies below a string. */
  lemma LeavesAreUnrelated(v: Value, p: Tokens, q: Tokens)
    requires Resolve(v, p).Some? && Resolve(v, p).value.Str? && Resolve(v, q).Some? && Resolve(v, q).value.Str?
    requires p != q
    ensures Unrelated(p, q)
  {
    if p <= q { NothingBelowALeaf(v, p, q); }
    if q <= p { NothingBelowALeaf(v, q, p); }
  }

  lemma {:induction false} NothingBelowALeaf(v: Value, p: Tokens, q: Tokens)
    requires p <= q && Resolve(v, p).Some? && Resolve(v, p).value.Str? && Resolve(v, q).Some?
    ensures p == q
  {
    if p != [] {
      match v
      case Obj(fields) => NothingBelowALeaf(fields[p[0]], p[1..], q[1..]);
      case Arr(items) => NothingBelowALeaf(items[ParseIndex(p[0]).value], p[1..], q[1..]);
    }
  }

  /** A non-canonical index is written through to the element of its canonical form. */
  lemma NonCanonicalIndexAliases()
    ensures
      var v := Arr([Null, Null]);
      && Unrelated(["+1"], ["1"])
      && SetAt(v, ["+1"], Bool(true)) == Ok(Arr([Null, Bool(true)]))
      && Resolve(v, ["1"]) == Some(Null)
      && Resolve(Arr([Null, Bool(true)]), ["1"]) == Some(Bool(true))
      && Resolve(Arr([Null, Bool(true)]), ["+1"]) == None
  {
    assert "+1"[1..] == "1" && "1"[..0] == "";
    assert Number("1") == 1;
    assert ["+1"][0] != ["1"][0];
    assert [Null, Null][1 := Bool(true)] == [Null, Bool(true)];
  }
}
