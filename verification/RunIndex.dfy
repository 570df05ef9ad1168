/** The per-project run index: what `list_runs` filters and orders by, built by one scan
    of a project's run documents and kept current by every later write. The index lock is
    held across a write and across a scan, so each is one atomic step. */
module RunIndex {
  import opened Wrappers

  type ProjectId = nat
  type CollectionId = nat

  /** Ids are never empty (`id_type!`). */
  type RunId = id: string | id != "" witness "r"

  datatype RunDoc =
    RunDoc(id: RunId, createdAt: string, target: Option<CollectionId>, created: Option<CollectionId>, body: nat)

  /** One file of a project's run directory. */
  datatype File = Document(run: RunDoc) | Unreadable

  type Directory = map<string, File>

  datatype Summary = Summary(createdAt: string, target: Option<CollectionId>, created: Option<CollectionId>) {
    static function Of(run: RunDoc): Summary {
      Summary(run.createdAt, run.target, run.created)
    }

    predicate Touches(filter: Option<CollectionId>) {
      filter.Some? ==> target == filter || created == filter
    }
  }

  type Index = map<RunId, Summary>

  function FileName(id: RunId): string { id + ".json" }

  predicate IsJson(name: string) {
    |name| > 5 && name[|name| - 5..] == ".json"
  }

  /** A file whose document a scan takes up. */
  predicate Found(dir: Directory, name: string) { IsJson(name) && name in dir && dir[name].Document? }

  predicate Backs(dir: Directory, name: string, id: RunId, summary: Summary) {
    Found(dir, name) && dir[name].run.id == id && Summary.Of(dir[name].run) == summary
  }

  /** `index` is what one scan of the directory can give: an entry for every document, read
      from one of the documents of its id. */
  ghost predicate Scans(index: Index, dir: Directory) {
    && (forall name | Found(dir, name) :: dir[name].run.id in index)
    && (forall id | id in index :: exists name :: Backs(dir, name, id, index[id]))
  }

  function Stored(dir: Directory, run: RunDoc): Directory { dir[FileName(run.id) := Document(run)] }

  function Noted(index: Index, run: RunDoc): Index { index[run.id := Summary.Of(run)] }

  // ---- How many indexes a directory has ----

  /** A scan that comes to one more file. */
  lemma ScanOneMore(index: Index, dir: Directory, name: string)
    requires name in dir && Scans(index, dir - {name})
    ensures Scans(if Found(dir, name) then Noted(index, dir[name].run) else index, dir)
  {
    var rest, now := dir - {name}, if Found(dir, name) then Noted(index, dir[name].run) else index;
    forall m | Found(dir, m) ensures dir[m].run.id in now {
      if m != name { assert Found(rest, m); }
    }
    forall id | id in now ensures exists m :: Backs(dir, m, id, now[id]) {
      if Found(dir, name) && id == dir[name].run.id {
        assert Backs(dir, name, id, now[id]);
      } else {
        var m :| Backs(rest, m, id, index[id]);
        assert Backs(dir, m, id, index[id]);
      }
    }
  }

  lemma {:induction false} SomeScan(dir: Directory) returns (index: Index)
    ensures Scans(index, dir)
    decreases dir.Keys
  {
    if dir == map[] {
      index := map[];
    } else {
      var name :| name in dir;
      index := SomeScan(dir - {name});
      ScanOneMore(index, dir, name);
      if Found(dir, name) { index := Noted(index, dir[name].run); }
    }
  }

  /** Two documents of one id differ in what the index keeps of them. */
  ghost predicate Ambiguous(dir: Directory) {
    exists m, n :: Found(dir, m) && Found(dir, n) && dir[m].run.id == dir[n].run.id
                   && Summary.Of(dir[m].run) != Summary.Of(dir[n].run)
  }

  lemma ScansHaveOneDomain(a: Index, b: Index, dir: Directory)
    requires Scans(a, dir) && Scans(b, dir)
    ensures a.Keys <= b.Keys
  {
    forall id | id in a ensures id in b { var name :| Backs(dir, name, id, a[id]); }
  }

  lemma UnambiguousScansAgree(a: Index, b: Index, dir: Directory)
    requires Scans(a, dir) && Scans(b, dir) && !Ambiguous(dir)
    ensures a == b
  {
    ScansHaveOneDomain(a, b, dir);
    ScansHaveOneDomain(b, a, dir);
    forall id | id in a ensures a[id] == b[id] {
      var m :| Backs(dir, m, id, a[id]);
      var n :| Backs(dir, n, id, b[id]);
    }
  }

  /** Reading the entries in any order gives one index, exactly if no two documents of one
      id differ. */
  lemma ScanIsUniqueIffUnambiguous(dir: Directory)
    ensures !Ambiguous(dir) <==> forall a, b | Scans(a, dir) && Scans(b, dir) :: a == b
  {
    if !Ambiguous(dir) {
      forall a, b | Scans(a, dir) && Scans(b, dir) ensures a == b { UnambiguousScansAgree(a, b, dir); }
    } else {
      var m, n :| Found(dir, m) && Found(dir, n) && dir[m].run.id == dir[n].run.id
                  && Summary.Of(dir[m].run) != Summary.Of(dir[n].run);
      var index := SomeScan(dir);
      Reread(index, dir, m);
      Reread(index, dir, n);
      assert Noted(index, dir[m].run)[dir[m].run.id] != Noted(index, dir[n].run)[dir[m].run.id];
    }
  }

  /** A scan that comes to one of the documents last. */
  lemma Reread(index: Index, dir: Directory, name: string)
    requires Scans(index, dir) && Found(dir, name)
    ensures Scans(Noted(index, dir[name].run), dir)
  {
    assert Backs(dir, name, dir[name].run.id, Summary.Of(dir[name].run));
  }

  // ---- The order of a listing ----

  function Before(a: string, b: string): bool {
    if a == [] then b != []
    else if b == [] then false
    else a[0] < b[0] || (a[0] == b[0] && Before(a[1..], b[1..]))
  }

  lemma {:induction false} BeforeIsTotal(a: string, b: string)
    ensures Before(a, b) || a == b || Before(b, a)
    ensures !(Before(a, b) && Before(b, a)) && !Before(a, a)
  {
    if a != [] {
      BeforeIsTotal(a[1..], a[1..]);
      if b != [] {
        BeforeIsTotal(a[1..], b[1..]);
        if a[0] == b[0] && a[1..] == b[1..] { assert a == [a[0]] + a[1..] && b == [b[0]] + b[1..]; }
      }
    }
  }

  lemma {:induction false} BeforeIsTransitive(a: string, b: string, c: string)
    requires Before(a, b) && Before(b, c)
    ensures Before(a, c)
  {
    if a != [] && a[0] == b[0] == c[0] {
      BeforeIsTransitive(a[1..], b[1..], c[1..]);
    }
  }

  /** A listed run: its id and creation time. */
  type Row = (RunId, string)

  /** Newest first, then by descending id. */
  predicate Precedes(a: Row, b: Row) {
    Before(b.1, a.1) || (b.1 == a.1 && Before(b.0, a.0))
  }

  lemma PrecedesIsTotal(a: Row, b: Row)
    ensures Precedes(a, b) || a == b || Precedes(b, a)
    ensures !(Precedes(a, b) && Precedes(b, a))
  {
    BeforeIsTotal(a.0, b.0);
    BeforeIsTotal(a.1, b.1);
  }

  lemma PrecedesIsTransitive(a: Row, b: Row, c: Row)
    requires Precedes(a, b) && Precedes(b, c)
    ensures Precedes(a, c)
  {
    if Before(b.1, a.1) && Before(c.1, b.1) { BeforeIsTransitive(c.1, b.1, a.1); }
    if Before(b.0, a.0) && Before(c.0, b.0) { BeforeIsTransitive(c.0, b.0, a.0); }
  }

  ghost predicate Ordered(rows: seq<Row>) {
    forall i, j | 0 <= i < j < |rows| :: Precedes(rows[i], rows[j])
  }

  /** The rows an index offers a listing filtered by `filter`. */
  predicate Offered(index: Index, filter: Option<CollectionId>, row: Row) {
    row.0 in index && index[row.0].createdAt == row.1 && index[row.0].Touches(filter)
  }

  /** `rows` is what filtering, sorting and truncating an index gives: ordered rows of the
      index, `limit` of them unless it offers fewer, and nothing left out that belongs
      before a row taken. */
  ghost predicate IsListing(rows: seq<Row>, index: Index, filter: Option<CollectionId>, limit: Option<nat>) {
    && Ordered(rows)
    && (forall i | 0 <= i < |rows| :: Offered(index, filter, rows[i]))
    && (limit.Some? ==> |rows| <= limit.value)
    && (forall row: Row | Offered(index, filter, row) && row !in rows ::
          limit == Some(|rows|) && forall i | 0 <= i < |rows| :: Precedes(rows[i], row))
  }

  /** At most one sequence of rows is the listing. */
  lemma ListingIsUnique(a: seq<Row>, b: seq<Row>, index: Index, filter: Option<CollectionId>, limit: Option<nat>)
    requires IsListing(a, index, filter, limit) && IsListing(b, index, filter, limit)
    ensures a == b
  {
    SamePrefix(a, b, index, filter, limit, |a|);
    SamePrefix(b, a, index, filter, limit, |b|);
  }

  /** After an equal prefix, one listing cannot go on with an earlier row than the other. */
  lemma NoEarlierRow(a: seq<Row>, b: seq<Row>, index: Index, filter: Option<CollectionId>, limit: Option<nat>, n: nat)
    requires IsListing(a, index, filter, limit) && IsListing(b, index, filter, limit)
    requires n < |a| && n < |b| && a[..n] == b[..n]
    ensures !Precedes(b[n], a[n])
  {
    var x, y := a[n], b[n];
    assert Offered(index, filter, y);
    PrecedesIsTotal(x, y);
    if Precedes(y, x) && y in a {
      var k :| 0 <= k < |a| && a[k] == y;
      if k < n { assert b[k] == a[..n][k] == y; PrecedesIsTotal(y, y); }
    }
  }

  lemma {:induction false} SamePrefix(a: seq<Row>, b: seq<Row>, index: Index, filter: Option<CollectionId>,
                                      limit: Option<nat>, n: nat)
    requires IsListing(a, index, filter, limit) && IsListing(b, index, filter, limit)
    requires n <= |a|
    ensures n <= |b| && a[..n] == b[..n]
  {
    if n > 0 {
      SamePrefix(a, b, index, filter, limit, n - 1);
      var x := a[n - 1];
      if |b| == n - 1 {
        assert Offered(index, filter, x);
        if x in b {
          var j :| 0 <= j < |b| && b[j] == x;
          assert a[..n - 1][j] == x;
          PrecedesIsTotal(x, x);
        }
        assert false;
      }
      NoEarlierRow(a, b, index, filter, limit, n - 1);
      assert b[..n - 1] == a[..n - 1];
      NoEarlierRow(b, a, index, filter, limit, n - 1);
      PrecedesIsTotal(x, b[n - 1]);
      assert a[..n] == a[..n - 1] + [x] && b[..n] == b[..n - 1] + [b[n - 1]];
    }
  }

  // ---- The library sort and the two loops ----

  /** What the sort returns: every row once, in listing order. */
  function Sorted(rows: seq<Row>): seq<Row> {
    if rows == [] then [] else Insert(Sorted(rows[..|rows| - 1]), rows[|rows| - 1])
  }

  function Insert(rows: seq<Row>, row: Row): seq<Row> {
    if rows == [] then [row]
    else if Precedes(rows[0], row) then [rows[0]] + Insert(rows[1..], row)
    else [row] + rows
  }

  ghost predicate Distinct(rows: seq<Row>) {
    forall i, j | 0 <= i < j < |rows| :: rows[i] != rows[j]
  }

  lemma {:induction false} InsertIsOrdered(rows: seq<Row>, row: Row)
    requires Ordered(rows) && row !in rows
    ensures Ordered(Insert(rows, row)) && |Insert(rows, row)| == |rows| + 1
    ensures forall x :: x in Insert(rows, row) <==> x == row || x in rows
  {
    if rows != [] {
      var head, rest := rows[0], rows[1..];
      assert rows == [head] + rest;
      PrecedesIsTotal(head, row);
      if Precedes(head, row) {
        assert Ordered(rest) && row !in rest;
        InsertIsOrdered(rest, row);
        var tail := Insert(rest, row);
        forall x | x in tail ensures Precedes(head, x) { }
        forall j | 1 <= j < |[head] + tail| ensures Precedes(head, ([head] + tail)[j]) {
          assert ([head] + tail)[j] in tail;
        }
      } else {
        forall j | 1 <= j < |[row] + rows| ensures Precedes(row, ([row] + rows)[j]) {
          var x := ([row] + rows)[j];
          assert x == rows[j - 1];
          if x != head { PrecedesIsTransitive(row, head, x); }
        }
      }
    }
  }

  lemma {:induction false} SortedIsOrdered(rows: seq<Row>)
    requires Distinct(rows)
    ensures Ordered(Sorted(rows)) && |Sorted(rows)| == |rows|
    ensures forall x :: x in Sorted(rows) <==> x in rows
  {
    if rows != [] {
      var front, last := rows[..|rows| - 1], rows[|rows| - 1];
      SortedIsOrdered(front);
      assert rows == front + [last];
      InsertIsOrdered(Sorted(front), last);
    }
  }

  lemma TruncationIsListing(rows: seq<Row>, index: Index, filter: Option<CollectionId>, limit: Option<nat>)
    requires Distinct(rows) && forall row: Row :: row in rows <==> Offered(index, filter, row)
    ensures
      var sorted := Sorted(rows);
      IsListing(if limit.Some? && limit.value < |sorted| then sorted[..limit.value] else sorted, index, filter, limit)
  {
    SortedIsOrdered(rows);
    var sorted := Sorted(rows);
    var kept := if limit.Some? && limit.value < |sorted| then sorted[..limit.value] else sorted;
    forall i | 0 <= i < |kept| ensures Offered(index, filter, kept[i]) {
      assert kept[i] in sorted;
    }
    assert forall j | 0 <= j < |kept| :: kept[j] == sorted[j];
    forall row: Row | Offered(index, filter, row) && row !in kept
      ensures limit == Some(|kept|) && forall i | 0 <= i < |kept| :: Precedes(kept[i], row)
    {
      assert row in sorted;
      var k :| 0 <= k < |sorted| && sorted[k] == row;
    }
  }

  // ---- Writing a document and its summary ----

  /** The write takes away the only document that the entry of another run was read from:
      one that was stored under this run's name. */
  ghost predicate Orphans(index: Index, dir: Directory, run: RunDoc) {
    exists id :: id in index && id != run.id
                 && forall name | Backs(dir, name, id, index[id]) :: name == FileName(run.id)
  }

  lemma FileNameIsJson(id: RunId)
    ensures IsJson(FileName(id))
  {
    assert FileName(id)[|FileName(id)| - 5..] == ".json";
  }

  lemma EntryStays(index: Index, dir: Directory, run: RunDoc, id: RunId)
    requires Scans(index, dir) && id in index && id != run.id
    ensures (exists name :: Backs(Stored(dir, run), name, id, index[id]))
            <==> exists name :: Backs(dir, name, id, index[id]) && name != FileName(run.id)
  {
    var own, after := FileName(run.id), Stored(dir, run);
    assert forall name | name != own :: Backs(after, name, id, index[id]) <==> Backs(dir, name, id, index[id]);
    assert !Backs(after, own, id, index[id]);
  }

  /** Updating one entry of an index is the same as scanning again after the write, exactly
      if the write orphans no other entry. */
  lemma WriteKeepsIndex(dir: Directory, index: Index, run: RunDoc)
    requires Scans(index, dir)
    ensures Scans(Noted(index, run), Stored(dir, run)) <==> !Orphans(index, dir, run)
  {
    var own, now, after := FileName(run.id), Noted(index, run), Stored(dir, run);
    FileNameIsJson(run.id);
    assert Backs(after, own, run.id, now[run.id]);
    forall name | Found(after, name) ensures after[name].run.id in now {
      if name != own { assert Found(dir, name); }
    }
    forall id | id in index && id != run.id
      ensures (exists name :: Backs(after, name, id, now[id]))
              <==> exists name :: Backs(dir, name, id, index[id]) && name != own
    {
      EntryStays(index, dir, run, id);
    }
    if Orphans(index, dir, run) {
      var id :| id in index && id != run.id && forall name | Backs(dir, name, id, index[id]) :: name == own;
      assert id in now;
    }
  }

  /** It orphans none unless the file of the run's name is the document of another run. */
  predicate OwnFile(dir: Directory, run: RunDoc) {
    Found(dir, FileName(run.id)) ==> dir[FileName(run.id)].run.id == run.id
  }

  lemma OwnFileOrphansNone(index: Index, dir: Directory, run: RunDoc)
    requires Scans(index, dir) && OwnFile(dir, run)
    ensures !Orphans(index, dir, run)
  {
    forall id | id in index && id != run.id
      ensures exists name :: Backs(dir, name, id, index[id]) && name != FileName(run.id)
    {
      var name :| Backs(dir, name, id, index[id]);
    }
  }

  /** Every document is stored under its own id, as the program writes them. */
  ghost predicate WellNamed(dir: Directory) {
    forall name | Found(dir, name) :: name == FileName(dir[name].run.id)
  }

  lemma FileNameIsInjective(id: RunId, other: RunId)
    requires FileName(id) == FileName(other)
    ensures id == other
  {
    assert FileName(id)[..|FileName(id)| - 5] == id;
    assert FileName(other)[..|FileName(other)| - 5] == other;
  }

  /** From such a directory on, no write orphans an entry, and a scan has one result. */
  lemma WellNamedStays(dir: Directory, run: RunDoc)
    requires WellNamed(dir)
    ensures OwnFile(dir, run) && WellNamed(Stored(dir, run)) && !Ambiguous(dir)
  {
    if Found(dir, FileName(run.id)) { FileNameIsInjective(run.id, dir[FileName(run.id)].run.id); }
    forall name | Found(Stored(dir, run), name)
      ensures name == FileName(Stored(dir, run)[name].run.id)
    {
      if name != FileName(run.id) { assert Found(dir, name); }
    }
  }

  // ---- The index in place ----

  function Files(disk: map<ProjectId, Directory>, p: ProjectId): Directory {
    if p in disk then disk[p] else map[]
  }

  datatype Error = Io

  class Runs {
    var disk: map<ProjectId, Directory>
    var index: map<ProjectId, Index>   // one entry per scanned project

    /** A scanned project's index is what a scan would give now. */
    ghost predicate Agrees(p: ProjectId)
      reads this
    {
      p in index ==> Scans(index[p], Files(disk, p))
    }

    constructor (onDisk: map<ProjectId, Directory>)
      ensures disk == onDisk && index == map[]
      ensures forall p :: Agrees(p)
    {
      disk, index := onDisk, map[];
    }

    /** Store a run document and, if its project has been scanned, its summary. */
    method WriteRun(p: ProjectId, run: RunDoc, writes: bool) returns (result: Result<(), Error>)
      modifies this
      ensures result == if writes then Ok(()) else Err(Io)
      ensures !writes ==> disk == old(disk) && index == old(index)
      ensures writes ==> disk == old(disk)[p := Stored(Files(old(disk), p), run)]
      ensures writes ==> index == if p !in old(index) then old(index)
                                  else old(index)[p := Noted(old(index)[p], run)]
      ensures writes && p in index && old(Agrees(p)) ==>
                (Agrees(p) <==> !Orphans(old(index)[p], Files(old(disk), p), run))
      ensures old(Agrees(p)) && OwnFile(Files(old(disk), p), run) ==> Agrees(p)
      ensures forall q | q != p :: Agrees(q) == old(Agrees(q))
    {
      if !writes {
        return Err(Io);
      }
      disk := disk[p := Stored(Files(disk, p), run)];
      if p in index {
        if old(Agrees(p)) {
          WriteKeepsIndex(Files(old(disk), p), index[p], run);
          if OwnFile(Files(old(disk), p), run) { OwnFileOrphansNone(index[p], Files(old(disk), p), run); }
        }
        index := index[p := Noted(index[p], run)];
      }
      result := Ok(());
    }

    /** Read every run document of a project once; a missing directory holds no runs. */
    method ScanRuns(p: ProjectId, readable: bool) returns (scanned: Result<Index, Error>)
      ensures p !in disk ==> scanned == Ok(map[])
      ensures p in disk ==> scanned.Ok? == readable
      ensures scanned.Ok? ==> Scans(scanned.value, Files(disk, p))
    {
      if p !in disk {
        return Ok(map[]);
      }
      if !readable {
        return Err(Io);
      }
      var dir := disk[p];
      var rest := dir.Keys;
      var runs: Index := map[];
      while rest != {}
        invariant rest <= dir.Keys
        invariant forall name | Found(dir, name) && name !in rest :: dir[name].run.id in runs
        invariant forall id | id in runs :: exists name :: Backs(dir, name, id, runs[id])
        decreases rest
      {
        var name :| name in rest;
        rest := rest - {name};
        if IsJson(name) {
          match dir[name]
          case Document(run) =>
            assert Backs(dir, name, run.id, Summary.Of(run));
            runs := runs[run.id := Summary.Of(run)];
          case Unreadable =>
        }
      }
      scanned := Ok(runs);
    }

    /** The rows of a listing, in order. The index is iterated in no particular order. */
    method SelectRuns(p: ProjectId, filter: Option<CollectionId>, limit: Option<nat>, readable: bool)
      returns (result: Result<seq<Row>, Error>)
      modifies this`index
      ensures result.Ok? ==> p in index && IsListing(result.value, index[p], filter, limit)
      ensures p in old(index) ==> result.Ok? && index == old(index)
      ensures p !in old(index) && result.Ok? ==> index == old(index)[p := index[p]] && Agrees(p)
      ensures result.Err? ==> index == old(index) && p !in index && !readable
    {
      if p !in index {
        var scanned := ScanRuns(p, readable);
        if scanned.Err? {
          return Err(scanned.error);
        }
        index := index[p := scanned.value];
      }
      var rest := index[p];
      var selected: seq<Row> := [];
      while rest != map[]
        invariant forall id | id in rest :: id in index[p] && rest[id] == index[p][id]
        invariant forall i | 0 <= i < |selected| :: selected[i].0 !in rest
        invariant forall row: Row :: row in selected <==> row.0 !in rest && Offered(index[p], filter, row)
        invariant Distinct(selected)
        decreases rest.Keys
      {
        var id :| id in rest;
        if rest[id].Touches(filter) {
          selected := selected + [(id, rest[id].createdAt)];
        }
        rest := rest - {id};
      }
      var sorted := Sorted(selected);
      var kept := if limit.Some? && limit.value < |sorted| then sorted[..limit.value] else sorted;
      TruncationIsListing(selected, index[p], filter, limit);
      result := Ok(kept);
    }
  }
}
