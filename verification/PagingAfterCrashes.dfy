/** Paging through an activity log to which appends are made, and crash, between the requests.
    A request may also fall into the middle of an append: reading takes no lock. */
module PagingAfterCrashes {
  import opened Wrappers
  import opened LogFile
  import opened CrashLog
  import opened ActivityPaging

  type History = seq<Append<Record>>

  ghost predicate Writable(c: Codec<Record>, h: History) { forall i | 0 <= i < |h| :: AppendOk(c, h[i]) }

  /** No two appends are of one id. */
  ghost predicate IdsDistinct(h: History) {
    forall i, j | 0 <= i < j < |h| :: h[i].record.id != h[j].record.id
  }

  /** The same append, no less far. */
  predicate Resumes(a: Append<Record>, b: Append<Record>) {
    a.record == b.record && (a.repaired ==> b.repaired && a.written <= b.written)
  }

  /** What was appended by a later moment: the last append may have gone on since. */
  predicate Grows(a: History, b: History) {
    a == [] || (|a| <= |b| && a[..|a| - 1] == b[..|a| - 1] && Resumes(a[|a| - 1], b[|a| - 1]))
  }

  /** What a request reads. */
  ghost function Seen(c: Codec<Record>, h: History): seq<Record>
    requires Writable(c, h)
  {
    Read(c, Written(c, h, true))
  }

  predicate AnyRepaired(h: History) { exists i :: 0 <= i < |h| && h[i].repaired }

  /** The last append of `a` that got past its repair had left a whole record without its
      newline, still had by `b`, and an append after it has been past its repair by then. */
  ghost predicate Cut(c: Codec<Record>, a: History, b: History) {
    a != [] && |a| <= |b| &&
    var n := |a| - 1;
    if !a[n].repaired then Cut(c, a[..n], b)
    else a[n].written == b[n].written == |c.enc(a[n].record)| && AnyRepaired(b[|a|..])
  }

  // ---- Ids ----

  lemma {:induction false} DurableWasAppended(c: Codec<Record>, h: History, r: Record)
    requires r in Durable(c, h)
    ensures exists i :: 0 <= i < |h| && h[i].record == r
  {
    if r in Durable(c, h[..|h| - 1]) {
      DurableWasAppended(c, h[..|h| - 1], r);
      var i :| 0 <= i < |h| - 1 && h[..|h| - 1][i].record == r;
      assert h[i].record == r;
    } else {
      assert h[|h| - 1].record == r;
    }
  }

  lemma {:induction false} DurableIsDistinct(c: Codec<Record>, h: History)
    requires IdsDistinct(h)
    ensures Distinct(Durable(c, h))
  {
    if h != [] {
      var front, last := h[..|h| - 1], h[|h| - 1];
      DurableIsDistinct(c, front);
      forall r | r in Durable(c, front) ensures r.id != last.record.id { EarlierIdsDiffer(c, h, r); }
    }
  }

  lemma EarlierIdsDiffer(c: Codec<Record>, h: History, r: Record)
    requires h != [] && IdsDistinct(h) && r in Durable(c, h[..|h| - 1])
    ensures r.id != h[|h| - 1].record.id
  {
    DurableWasAppended(c, h[..|h| - 1], r);
    var i :| 0 <= i < |h| - 1 && h[..|h| - 1][i].record == r;
    assert h[i].record == r;
  }

  lemma {:induction false} SeenIsDistinct(c: Codec<Record>, h: History)
    requires IdsDistinct(h)
    ensures Distinct(Durable(c, h) + Unterminated(c, h))
  {
    DurableIsDistinct(c, h);
    if h != [] && Unterminated(c, h) != [] {
      var front, last := h[..|h| - 1], h[|h| - 1];
      if last.repaired {
        forall r | r in Durable(c, front) ensures r.id != last.record.id { EarlierIdsDiffer(c, h, r); }
      } else {
        SeenIsDistinct(c, front);
        assert Durable(c, h) == Durable(c, front);
      }
    }
  }

  // ---- Between two requests ----

  lemma ReadsAre(c: Codec<Record>, h: History)
    requires c.Sound() && Writable(c, h)
    ensures Seen(c, h) == Durable(c, h) + Unterminated(c, h)
  {
    ActivityLogSurvives(c, h);
  }

  lemma {:induction false} KeptGrows(c: Codec<Record>, a: History, b: History)
    requires Writable(c, a) && Writable(c, b) && Grows(a, b)
    ensures Durable(c, a) <= Durable(c, b)
  {
    if a != [] {
      var n := |a| - 1;
      var upTo := b[..n + 1];
      assert upTo[..n] == a[..n] && upTo[n] == b[n];
      assert Durable(c, upTo) == Durable(c, a[..n]) + (if Finished(c, b[n]) then [b[n].record] else []);
      assert upTo + b[n + 1..] == b;
      TerminatedRecordsStay(c, upTo, b[n + 1..]);
    }
  }

  /** Appends that did not get past their repair leave no trace. */
  lemma {:induction false} UnrepairedChangesNothing(c: Codec<Record>, a: History, more: History)
    requires !AnyRepaired(more)
    ensures Durable(c, a + more) == Durable(c, a) && Unterminated(c, a + more) == Unterminated(c, a)
  {
    if more == [] {
      assert a + more == a;
    } else {
      var init := more[..|more| - 1];
      assert (a + more)[..|a + more| - 1] == a + init;
      assert !more[|more| - 1].repaired;
      forall i | 0 <= i < |init| ensures !init[i].repaired { assert !more[i].repaired; }
      UnrepairedChangesNothing(c, a, init);
    }
  }

  /** A record is lost only by appends that got past their repair. */
  lemma {:induction false} RepairedLosesLast(c: Codec<Record>, a: History, more: History, r: Record)
    requires AnyRepaired(more)
    requires r in Durable(c, a + more) + Unterminated(c, a + more)
    ensures r in Durable(c, a) || exists i :: 0 <= i < |more| && more[i].record == r
  {
    var init, last := more[..|more| - 1], more[|more| - 1];
    assert (a + more)[..|a + more| - 1] == a + init;
    if last.repaired {
      if r in Durable(c, a + init) { NewDurable(c, a, init, r); } else { assert more[|more| - 1].record == r; }
    } else {
      var i :| 0 <= i < |more| && more[i].repaired;
      assert init[i].repaired;
      RepairedLosesLast(c, a, init, r);
    }
    if i :| 0 <= i < |init| && init[i].record == r { assert more[i].record == r; }
  }

  lemma {:induction false} NewDurable(c: Codec<Record>, a: History, more: History, r: Record)
    requires r in Durable(c, a + more)
    ensures r in Durable(c, a) || exists i :: 0 <= i < |more| && more[i].record == r
  {
    if more == [] {
      assert a + more == a;
    } else {
      var init := more[..|more| - 1];
      assert (a + more)[..|a + more| - 1] == a + init;
      if r in Durable(c, a + init) {
        NewDurable(c, a, init, r);
        if i :| 0 <= i < |init| && init[i].record == r { assert more[i].record == r; }
      } else {
        assert more[|more| - 1].record == r;
      }
    }
  }

  /** Between two requests the log only grows, unless a repair cuts its unterminated record,
      which is then gone for good. */
  lemma {:induction false} GrowsIffNotCut(c: Codec<Record>, a: History, b: History)
    requires c.Sound() && Writable(c, a) && Writable(c, b) && Grows(a, b) && IdsDistinct(b)
    ensures
      var before, after := Durable(c, a) + Unterminated(c, a), Durable(c, b) + Unterminated(c, b);
      && (!Cut(c, a, b) ==> before <= after)
      && (Cut(c, a, b) ==> |Unterminated(c, a)| == 1 && forall r | r in after :: r.id != Unterminated(c, a)[0].id)
  {
    if a != [] {
      var n := |a| - 1;
      if !a[n].repaired {
        GrowsFromFront(a, b);
        GrowsIffNotCut(c, a[..n], b);
      } else {
        LastGrowsIffNotCut(c, a, b);
      }
    }
  }

  lemma GrowsFromFront(a: History, b: History)
    requires a != [] && Grows(a, b)
    ensures Grows(a[..|a| - 1], b)
  { }

  /** The log up to the append that was the last of `a`, as `b` has it. */
  lemma UpToLast(c: Codec<Record>, a: History, b: History)
    requires a != [] && Grows(a, b) && a[|a| - 1].repaired && Unterminated(c, a) != []
    requires Writable(c, a) && Writable(c, b)
    ensures b[..|a|] + b[|a|..] == b
    ensures Durable(c, a) == Durable(c, b[..|a| - 1])
    ensures
      var n, upTo := |a| - 1, b[..|a|];
      if Finished(c, b[n]) then Durable(c, upTo) == Durable(c, a) + Unterminated(c, a)
      else b[n].written == |c.enc(b[n].record)| && Durable(c, upTo) == Durable(c, a)
           && Unterminated(c, upTo) == Unterminated(c, a)
  {
    var n, upTo := |a| - 1, b[..|a|];
    assert upTo[..n] == a[..n] == b[..n] && upTo[n] == b[n];
  }

  lemma LastGrowsIffNotCut(c: Codec<Record>, a: History, b: History)
    requires c.Sound() && Writable(c, a) && Writable(c, b) && Grows(a, b) && IdsDistinct(b)
    requires a != [] && a[|a| - 1].repaired
    ensures
      var before, after := Durable(c, a) + Unterminated(c, a), Durable(c, b) + Unterminated(c, b);
      && (!Cut(c, a, b) ==> before <= after)
      && (Cut(c, a, b) ==> |Unterminated(c, a)| == 1 && forall r | r in after :: r.id != Unterminated(c, a)[0].id)
  {
    var n := |a| - 1;
    var upTo, more := b[..|a|], b[|a|..];
    if Unterminated(c, a) == [] {
      KeptGrows(c, a, b);
    } else {
      UpToLast(c, a, b);
      if Finished(c, b[n]) {
        TerminatedRecordsStay(c, upTo, more);
      } else if AnyRepaired(more) {
        forall r | r in Durable(c, b) + Unterminated(c, b) ensures r.id != b[n].record.id { CutIsGone(c, b, n, r); }
      } else {
        UnrepairedChangesNothing(c, upTo, more);
      }
    }
  }

  lemma CutIsGone(c: Codec<Record>, b: History, n: nat, r: Record)
    requires n < |b| && IdsDistinct(b) && !Finished(c, b[n]) && AnyRepaired(b[n + 1..])
    requires r in Durable(c, b) + Unterminated(c, b)
    ensures r.id != b[n].record.id
  {
    var upTo, more := b[..n + 1], b[n + 1..];
    assert upTo + more == b && upTo[..n] == b[..n];
    RepairedLosesLast(c, upTo, more, r);
    if r in Durable(c, upTo) {
      PrefixIds(b, n + 1);
      EarlierIdsDiffer(c, upTo, r);
    } else {
      var i :| 0 <= i < |more| && more[i].record == r;
      assert b[n + 1 + i].record == r;
    }
  }

  lemma PrefixIds(h: History, n: nat)
    requires n <= |h| && IdsDistinct(h)
    ensures IdsDistinct(h[..n])
  { }

  // ---- Pages ----

  /** The moments of the requests, in order. */
  ghost predicate Moments(c: Codec<Record>, hs: seq<History>) {
    && hs != []
    && (forall i | 0 <= i < |hs| :: Writable(c, hs[i]) && IdsDistinct(hs[i]))
    && forall i | 0 < i < |hs| :: GrowsAt(hs, i)
  }

  predicate GrowsAt(hs: seq<History>, i: nat)
    requires 0 < i < |hs|
  {
    Grows(hs[i - 1], hs[i])
  }

  ghost function Logs(c: Codec<Record>, hs: seq<History>): seq<seq<Record>>
    requires Moments(c, hs)
  {
    seq(|hs|, i requires 0 <= i < |hs| => Seen(c, hs[i]))
  }

  lemma {:induction false} KeptThroughout(c: Codec<Record>, hs: seq<History>, i: nat)
    requires Moments(c, hs) && i < |hs|
    ensures Durable(c, hs[0]) <= Durable(c, hs[i])
  {
    if i > 0 {
      KeptThroughout(c, hs, i - 1);
      assert GrowsAt(hs, i);
      KeptGrows(c, hs[i - 1], hs[i]);
    }
  }

  lemma LogsAre(c: Codec<Record>, hs: seq<History>, i: nat)
    requires c.Sound() && Moments(c, hs) && i < |hs|
    ensures Logs(c, hs)[i] == Durable(c, hs[i]) + Unterminated(c, hs[i]) && Distinct(Logs(c, hs)[i])
    ensures Durable(c, hs[0]) <= Logs(c, hs)[i]
  {
    ReadsAre(c, hs[i]);
    SeenIsDistinct(c, hs[i]);
    KeptThroughout(c, hs, i);
  }

  /** The cursor of the second request is a record that a repair has cut since the first. */
  ghost predicate CursorIsCut(c: Codec<Record>, hs: seq<History>, limit: nat) {
    limit == 1 && |hs| > 1 && Cut(c, hs[0], hs[1])
  }

  lemma UncutIsCovered(c: Codec<Record>, hs: seq<History>, pages: seq<Page>, limit: nat)
    requires c.Sound() && Moments(c, hs) && limit >= 1 && Follows(pages, Logs(c, hs), limit)
    requires !CursorIsCut(c, hs, limit)
    ensures Covers(pages, Logs(c, hs)[0], limit)
  {
    var logs := Logs(c, hs);
    forall i | 0 <= i < |logs| ensures Durable(c, hs[0]) <= logs[i] && Distinct(logs[i]) { LogsAre(c, hs, i); }
    LogsAre(c, hs, 0);
    if |hs| > 1 && limit == 1 {
      assert GrowsAt(hs, 1);
      GrowsIffNotCut(c, hs[0], hs[1]);
      LogsAre(c, hs, 1);
    }
    PagesCoverTheFirstLog(pages, logs, limit, Durable(c, hs[0]), Unterminated(c, hs[0]));
  }

  lemma FirstOfReversed(log: seq<Record>, kept: seq<Record>, x: Record)
    requires log == kept + [x]
    ensures Reversed(log) == [x] + Reversed(kept)
  {
    assert log[..|log| - 1] == kept;
  }

  lemma FirstPageIsLast(log: seq<Record>, kept: seq<Record>, x: Record)
    requires log == kept + [x]
    ensures List(log, None, 1).records == [x]
  {
    FirstOfReversed(log, kept, x);
    assert Reversed(log)[0..] == Reversed(log);
  }

  /** A cut record is the last of the first log and not in the second. */
  lemma CutRecord(c: Codec<Record>, hs: seq<History>) returns (x: Record)
    requires c.Sound() && Moments(c, hs) && |hs| > 1 && Cut(c, hs[0], hs[1])
    ensures Unterminated(c, hs[0]) == [x] && Logs(c, hs)[0] == Durable(c, hs[0]) + [x]
    ensures forall i | 0 <= i < |Logs(c, hs)[1]| :: Logs(c, hs)[1][i].id != x.id
  {
    assert GrowsAt(hs, 1);
    GrowsIffNotCut(c, hs[0], hs[1]);
    x := Unterminated(c, hs[0])[0];
    LogsAre(c, hs, 0);
    LogsAre(c, hs, 1);
    var log := Logs(c, hs)[1];
    forall i | 0 <= i < |log| ensures log[i].id != x.id { assert log[i] in log; }
  }

  lemma CutEndsPaging(c: Codec<Record>, hs: seq<History>, pages: seq<Page>, limit: nat)
    requires c.Sound() && Moments(c, hs) && Follows(pages, Logs(c, hs), limit)
    requires CursorIsCut(c, hs, limit)
    ensures pages == [Page(Unterminated(c, hs[0]), true), Page([], false)]
  {
    var logs := Logs(c, hs);
    assert |pages| > 2 ==> IsNext(pages, logs, limit, 2);
    assert IsNext(pages, logs, limit, 1);
    var x := CutRecord(c, hs);
    FirstPageIsLast(logs[0], Durable(c, hs[0]), x);
    UnknownCursorEndsPaging(logs[1], x.id, limit);
  }

  /** Whatever crashes and however far appends have got between and during the requests, the
      pages cover the log as it stood at the first request exactly unless the client asks for
      one record a page, the first page was a record without its newline, and a repair has
      cut that record when the client asks on. */
  lemma PagesCoverIffCursorNotCut(c: Codec<Record>, hs: seq<History>, pages: seq<Page>, limit: nat)
    requires c.Sound() && Moments(c, hs) && limit >= 1 && Follows(pages, Logs(c, hs), limit)
    ensures Covers(pages, Logs(c, hs)[0], limit) <==> !CursorIsCut(c, hs, limit)
  {
    if CursorIsCut(c, hs, limit) {
      CutEndsPaging(c, hs, pages, limit);
      CutIsNotCovered(c, hs, pages, limit);
    } else {
      UncutIsCovered(c, hs, pages, limit);
    }
  }

  lemma CutIsNotCovered(c: Codec<Record>, hs: seq<History>, pages: seq<Page>, limit: nat)
    requires c.Sound() && Moments(c, hs) && limit == 1 && Follows(pages, Logs(c, hs), limit)
    requires |pages| == 2 && pages[0].hasMore && pages[1] == Page([], false)
    ensures !Covers(pages, Logs(c, hs)[0], limit)
  {
    assert pages[..1][..0] == [] && pages[..1][0] == pages[0];
    assert Flat(pages[..1]) == pages[0].records;
    assert Flat(pages) == pages[0].records + [];
  }

  /** For instance: `a` is appended, `x` but for its newline; a client sees `x`; `y` is
      appended; the client asks on, and is told that there is no more. It never sees `a`. */
  lemma UnterminatedCursorHidesOlderRecords(c: Codec<Record>, a: Record, x: Record, y: Record)
    requires c.Sound() && a.id != x.id && a.id != y.id && x.id != y.id
    ensures
      var first := [Append(a, true, |c.enc(a)| + 1), Append(x, true, |c.enc(x)|)];
      var second := first + [Append(y, true, |c.enc(y)| + 1)];
      && Moments(c, [first, second])
      && List(Seen(c, first), None, 1) == Page([x], true)
      && List(Seen(c, second), Some(x.id), 1) == Page([], false)
      && a in Seen(c, second)
  {
    var first := [Append(a, true, |c.enc(a)| + 1), Append(x, true, |c.enc(x)|)];
    var second := first + [Append(y, true, |c.enc(y)| + 1)];
    TornSecond(c, first[0], first[1]);
    AppendedThird(c, first[0], first[1], second[2]);
    assert second == [first[0], first[1], second[2]];
    OneMoreAppend(c, first, second[2]);
    ReadsAre(c, first);
    ReadsAre(c, second);
    FirstOfReversed(Seen(c, first), [a], x);
    UnknownCursorEndsPaging(Seen(c, second), x.id, 1);
  }

  lemma OneMoreAppend(c: Codec<Record>, h: History, a: Append<Record>)
    requires Writable(c, h + [a]) && IdsDistinct(h + [a])
    ensures Moments(c, [h, h + [a]])
  {
    var more := h + [a];
    assert forall i | 0 <= i < |h| :: more[i] == h[i];
    forall i | 0 < i < |[h, more]| ensures GrowsAt([h, more], i) {
      if h != [] { assert more[..|h| - 1] == h[..|h| - 1]; }
    }
  }

  lemma TornSecond(c: Codec<Record>, a: Append<Record>, x: Append<Record>)
    requires Finished(c, a) && x.repaired && x.written == |c.enc(x.record)|
    ensures Durable(c, [a, x]) == [a.record] && Unterminated(c, [a, x]) == [x.record]
  {
    assert [a, x][..1] == [a] && [a][..0] == [];
    assert Durable(c, [a]) == [a.record];
  }

  lemma AppendedThird(c: Codec<Record>, a: Append<Record>, x: Append<Record>, y: Append<Record>)
    requires Finished(c, a) && x.repaired && x.written == |c.enc(x.record)| && Finished(c, y)
    ensures Durable(c, [a, x, y]) == [a.record, y.record] && Unterminated(c, [a, x, y]) == []
  {
    TornSecond(c, a, x);
    assert [a, x, y][..2] == [a, x];
  }
}
