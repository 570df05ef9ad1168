/** Paging through the activity log, newest first, with the id of the last record of a
    page as the cursor for the next. */
module ActivityPaging {
  import opened Wrappers

  datatype Record = Record(id: string, body: nat)

  function Reversed(s: seq<Record>): (r: seq<Record>)
    ensures |r| == |s|
  {
    if s == [] then [] else [s[|s| - 1]] + Reversed(s[..|s| - 1])
  }

  lemma {:induction false} ReversedAt(s: seq<Record>)
    ensures forall i | 0 <= i < |s| :: Reversed(s)[i] == s[|s| - 1 - i]
  {
    if s != [] { ReversedAt(s[..|s| - 1]); }
  }

  /** The position of the first record with this id. */
  function Position(s: seq<Record>, id: string): (p: Option<nat>)
    ensures p.Some? ==> p.value < |s| && s[p.value].id == id
    ensures p.None? ==> forall i | 0 <= i < |s| :: s[i].id != id
  {
    if s == [] then None
    else if s[0].id == id then Some(0)
    else match Position(s[1..], id) case Some(p) => Some(p + 1) case None => None
  }

  datatype Page = Page(records: seq<Record>, hasMore: bool)

  /** One page: at most `limit` records after the cursor, and whether older ones remain.
      A cursor not in the log gives an empty last page. */
  function List(log: seq<Record>, before: Option<string>, limit: nat): Page {
    var records := Reversed(log);
    var start :=
      match before
      case None => Some(0)
      case Some(id) => (match Position(records, id) case Some(p) => Some(p + 1) case None => None);
    if start.None? then Page([], false)
    else
      var rest := records[start.value..];
      Page(if |rest| > limit then rest[..limit] else rest, |rest| > limit)
  }

  ghost predicate Distinct(s: seq<Record>) {
    forall i, j | 0 <= i < j < |s| :: s[i].id != s[j].id
  }

  /** The pages a client has been given so far: the first without a cursor, each further
      one, asked for only after a page with more, from the last record of the one before.
      The log may have changed between two requests. */
  ghost predicate Follows(pages: seq<Page>, logs: seq<seq<Record>>, limit: nat) {
    && |pages| == |logs| > 0
    && pages[0] == List(logs[0], None, limit)
    && forall i | 0 < i < |pages| :: IsNext(pages, logs, limit, i)
  }

  ghost predicate IsNext(pages: seq<Page>, logs: seq<seq<Record>>, limit: nat, i: nat)
    requires 0 < i < |pages| == |logs|
  {
    var previous := pages[i - 1];
    && previous.hasMore && previous.records != []
    && pages[i] == List(logs[i], Some(previous.records[|previous.records| - 1].id), limit)
  }

  function Flat(pages: seq<Page>): seq<Record> {
    if pages == [] then [] else Flat(pages[..|pages| - 1]) + pages[|pages| - 1].records
  }

  lemma PositionIs(s: seq<Record>, i: nat)
    requires Distinct(s) && i < |s|
    ensures Position(s, s[i].id) == Some(i)
  { }

  lemma ReversedIsDistinct(s: seq<Record>)
    requires Distinct(s)
    ensures Distinct(Reversed(s))
  {
    ReversedAt(s);
  }

  lemma {:induction false} ReversedConcat(a: seq<Record>, b: seq<Record>)
    ensures Reversed(a + b) == Reversed(b) + Reversed(a)
  {
    if b == [] {
      assert a + b == a;
    } else {
      assert (a + b)[..|a + b| - 1] == a + b[..|b| - 1];
      ReversedConcat(a, b[..|b| - 1]);
    }
  }

  lemma AfterPosition(a: seq<Record>, b: seq<Record>, k: nat)
    requires Distinct(a + b) && 0 < k <= |b|
    ensures Position(a + b, b[k - 1].id) == Some(|a| + k - 1)
    ensures (a + b)[|a| + k..] == b[k..]
  {
    assert (a + b)[|a| + k - 1] == b[k - 1];
    PositionIs(a + b, |a| + k - 1);
  }

  /** What comes after a cursor among the kept records stays, whatever follows them in the log. */
  lemma RestAfterCursor(kept: seq<Record>, tail: seq<Record>, log: seq<Record>, k: nat)
    requires kept <= log && Distinct(log) && |tail| < k <= |tail| + |kept|
    ensures
      var first := Reversed(kept + tail);
      var p := Position(Reversed(log), first[k - 1].id);
      p.Some? && Reversed(log)[p.value + 1..] == first[k..]
  {
    var more := log[|kept|..];
    assert log == kept + more;
    ReversedConcat(kept, more);
    ReversedConcat(kept, tail);
    ReversedIsDistinct(log);
    AfterPosition(Reversed(more), Reversed(kept), k - |tail|);
    RestOfConcat(Reversed(tail), Reversed(kept), k);
  }

  lemma RestOfConcat(a: seq<Record>, b: seq<Record>, k: nat)
    requires |a| < k <= |a| + |b|
    ensures (a + b)[k - 1] == b[k - |a| - 1] && (a + b)[k..] == b[k - |a|..]
  { }

  lemma LastShown(pages: seq<Page>)
    requires pages != [] && pages[|pages| - 1].records != []
    ensures
      var records := pages[|pages| - 1].records;
      Flat(pages) != [] && Flat(pages)[|Flat(pages)| - 1] == records[|records| - 1]
  { }

  lemma FrontOfRest(whole: seq<Record>, shown: seq<Record>, limit: nat)
    requires shown <= whole && |shown| < |whole| && limit >= 1
    ensures
      var rest := whole[|shown|..];
      var records := if |rest| > limit then rest[..limit] else rest;
      && shown + records <= whole && records != []
      && (|rest| > limit <==> |shown + records| < |whole|)
  {
    assert whole == shown + whole[|shown|..];
  }

  lemma ListAfter(log: seq<Record>, id: string, rest: seq<Record>, limit: nat)
    requires var p := Position(Reversed(log), id); p.Some? && Reversed(log)[p.value + 1..] == rest
    ensures List(log, Some(id), limit) == Page(if |rest| > limit then rest[..limit] else rest, |rest| > limit)
  { }

  /** The next page continues what has been shown of the first log, once that reaches into
      the records that are kept. */
  lemma NextPage(kept: seq<Record>, tail: seq<Record>, log: seq<Record>, shown: seq<Record>, limit: nat)
    requires kept <= log && Distinct(log) && shown <= Reversed(kept + tail) && limit >= 1
    requires |tail| < |shown| < |kept + tail|
    ensures
      var page := List(log, Some(shown[|shown| - 1].id), limit);
      && shown + page.records <= Reversed(kept + tail) && page.records != []
      && (page.hasMore <==> |shown + page.records| < |kept + tail|)
      && (page.hasMore ==> |page.records| == limit)
  {
    var whole := Reversed(kept + tail);
    assert shown[|shown| - 1] == whole[|shown| - 1];
    RestAfterCursor(kept, tail, log, |shown|);
    ListAfter(log, shown[|shown| - 1].id, whole[|shown|..], limit);
    FrontOfRest(whole, shown, limit);
  }

  lemma FrontFollows(pages: seq<Page>, logs: seq<seq<Record>>, limit: nat)
    requires Follows(pages, logs, limit) && |pages| > 1
    ensures Follows(pages[..|pages| - 1], logs[..|pages| - 1], limit)
  {
    var n := |pages| - 1;
    forall i | 0 < i < n ensures IsNext(pages[..n], logs[..n], limit, i) { assert IsNext(pages, logs, limit, i); }
  }

  /** The pages are, end to end, the newest records of the log in order, without gap or
      repetition. There is more exactly while some are missing, so the page without more
      completes the log; a page with more is full. */
  ghost predicate Covers(pages: seq<Page>, log: seq<Record>, limit: nat)
    requires pages != []
  {
    && Flat(pages) <= Reversed(log)
    && (var last := pages[|pages| - 1];
        if last.hasMore then |Flat(pages)| < |log| && |last.records| == limit else Flat(pages) == Reversed(log))
    && (log != [] ==> Flat(pages) != [])
  }

  lemma FirstPageCovers(log: seq<Record>, limit: nat)
    requires limit >= 1
    ensures Covers([List(log, None, limit)], log, limit)
  {
    var page := List(log, None, limit);
    assert [page][..0] == [] && Flat([page]) == page.records;
    assert Reversed(log)[0..] == Reversed(log);
  }

  lemma CoversOne(pages: seq<Page>, log: seq<Record>, limit: nat)
    requires pages != []
    requires
      var page, all := pages[|pages| - 1], Flat(pages[..|pages| - 1]) + pages[|pages| - 1].records;
      && all <= Reversed(log) && page.records != []
      && (page.hasMore <==> |all| < |log|) && (page.hasMore ==> |page.records| == limit)
    ensures Covers(pages, log, limit)
    ensures |Flat(pages[..|pages| - 1])| < |Flat(pages)|
  {
    var page, all := pages[|pages| - 1], Flat(pages[..|pages| - 1]) + pages[|pages| - 1].records;
    assert Flat(pages) == all && all[|all| - 1] == page.records[|page.records| - 1];
    if |all| == |log| { WholePrefix(all, Reversed(log)); }
  }

  lemma WholePrefix(a: seq<Record>, b: seq<Record>)
    requires a <= b && |a| == |b|
    ensures a == b
  { }

  lemma CursorIsLastShown(pages: seq<Page>, logs: seq<seq<Record>>, limit: nat)
    requires Follows(pages, logs, limit) && |pages| > 1
    ensures
      var shown := Flat(pages[..|pages| - 1]);
      shown != [] && pages[|pages| - 1] == List(logs[|pages| - 1], Some(shown[|shown| - 1].id), limit)
    ensures pages[..|pages| - 1][|pages| - 2].hasMore
  {
    assert IsNext(pages, logs, limit, |pages| - 1);
    LastShown(pages[..|pages| - 1]);
  }

  lemma NextPageCovers(pages: seq<Page>, logs: seq<seq<Record>>, limit: nat, kept: seq<Record>, tail: seq<Record>)
    requires Follows(pages, logs, limit) && limit >= 1 && |pages| > 1 && logs[0] == kept + tail
    requires kept <= logs[|logs| - 1] && Distinct(logs[|logs| - 1])
    requires Covers(pages[..|pages| - 1], logs[0], limit) && |tail| < |Flat(pages[..|pages| - 1])|
    ensures Covers(pages, logs[0], limit) && |Flat(pages[..|pages| - 1])| < |Flat(pages)|
  {
    var n := |pages| - 1;
    CursorIsLastShown(pages, logs, limit);
    NextPage(kept, tail, logs[n], Flat(pages[..n]), limit);
    CoversOne(pages, logs[0], limit);
  }

  /** However the log changes while a client pages, as long as the records before `tail` are
      kept: what the client has been given covers the log as it stood at the first request,
      if it has been given more than the tail, or the tail was kept as well when it asked on. */
  lemma {:induction false} PagesCoverTheFirstLog(pages: seq<Page>, logs: seq<seq<Record>>, limit: nat,
                                                 kept: seq<Record>, tail: seq<Record>)
    requires Follows(pages, logs, limit) && limit >= 1
    requires logs[0] == kept + tail && forall i | 0 <= i < |logs| :: kept <= logs[i] && Distinct(logs[i])
    requires |pages| > 1 ==> |tail| < limit || logs[0] <= logs[1]
    requires |tail| <= limit
    ensures Covers(pages, logs[0], limit)
    ensures |pages| > 1 ==> |tail| < |Flat(pages)|
  {
    var n := |pages| - 1;
    FirstPageCovers(logs[0], limit);
    if n == 0 {
      assert pages == [List(logs[0], None, limit)];
    } else {
      FrontFollows(pages, logs, limit);
      PagesCoverTheFirstLog(pages[..n], logs[..n], limit, kept, tail);
      if |tail| < |Flat(pages[..n])| {
        NextPageCovers(pages, logs, limit, kept, tail);
      } else {
        OnlyFirstShown(pages, logs, limit, tail);
        assert logs[0] + [] == logs[0];
        NextPageCovers(pages, logs, limit, logs[0], []);
      }
    }
  }

  /** Only a first page with more that is the tail alone leaves the kept records unreached. */
  lemma OnlyFirstShown(pages: seq<Page>, logs: seq<seq<Record>>, limit: nat, tail: seq<Record>)
    requires Follows(pages, logs, limit) && |pages| > 1 && |tail| <= limit
    requires |pages| > 2 ==> |tail| < |Flat(pages[..|pages| - 1])|
    requires Covers(pages[..|pages| - 1], logs[0], limit) && |Flat(pages[..|pages| - 1])| <= |tail|
    ensures |pages| == 2 && |tail| == limit == |Flat(pages[..1])|
  {
    assert IsNext(pages, logs, limit, |pages| - 1);
    assert pages[..1][..0] == [] && pages[..1][0] == pages[0];
    assert Flat(pages[..1]) == [] + pages[0].records;
  }

  /** An unknown cursor ends the paging instead of starting over. */
  lemma UnknownCursorEndsPaging(log: seq<Record>, id: string, limit: nat)
    requires forall i | 0 <= i < |log| :: log[i].id != id
    ensures List(log, Some(id), limit) == Page([], false)
  {
    ReversedAt(log);
  }
}
