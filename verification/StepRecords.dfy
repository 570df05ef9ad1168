/** Merging a step log's lines into records: each step once, in the order of its first
    line, with the contents of its last. */
module StepRecords {
  import opened Wrappers
  import opened CrashLog

  datatype Record<T> = Record(id: string, body: T)

  /** The ids, each at its first appearance. */
  function FirstSeen<T>(lines: seq<Record<T>>): seq<string> {
    if lines == [] then []
    else
      var before, id := FirstSeen(lines[..|lines| - 1]), lines[|lines| - 1].id;
      if id in before then before else before + [id]
  }

  /** The last line of a step. */
  function LastLine<T>(lines: seq<Record<T>>, id: string): (last: Option<Record<T>>)
    ensures last.Some? ==> last.value.id == id
  {
    if lines == [] then None
    else if lines[|lines| - 1].id == id then Some(lines[|lines| - 1])
    else LastLine(lines[..|lines| - 1], id)
  }

  ghost predicate IsFirst<T>(lines: seq<Record<T>>, i: nat) {
    i < |lines| && forall j | 0 <= j < i :: lines[j].id != lines[i].id
  }

  ghost predicate IsLast<T>(lines: seq<Record<T>>, i: nat) {
    i < |lines| && forall j | i < j < |lines| :: lines[j].id != lines[i].id
  }

  /** `merged` is the merge of the lines: the k-th merged record is the last line of the
      k-th step to appear, and no step is left out or repeated. */
  ghost predicate IsMerge<T>(lines: seq<Record<T>>, merged: seq<Record<T>>) {
    && |merged| == |FirstSeen(lines)|
    && forall k | 0 <= k < |merged| :: Some(merged[k]) == LastLine(lines, FirstSeen(lines)[k])
  }

  /** `first` says on which lines the ids of `FirstSeen` first appear. */
  ghost predicate AreFirst<T>(lines: seq<Record<T>>, first: seq<nat>) {
    && |first| == |FirstSeen(lines)|
    && (forall k | 0 <= k < |first| :: IsFirst(lines, first[k]) && lines[first[k]].id == FirstSeen(lines)[k])
    && forall k, l | 0 <= k < l < |first| :: first[k] < first[l]
  }

  lemma {:induction false} AllAreSeen<T>(lines: seq<Record<T>>, i: nat)
    requires i < |lines|
    ensures lines[i].id in FirstSeen(lines)
  {
    var n := |lines| - 1;
    if i < n { AllAreSeen(lines[..n], i); }
  }

  lemma StillFirst<T>(lines: seq<Record<T>>, first: seq<nat>, k: nat)
    requires lines != [] && AreFirst(lines[..|lines| - 1], first) && k < |first|
    ensures IsFirst(lines, first[k]) && lines[first[k]].id == FirstSeen(lines[..|lines| - 1])[k]
  {
    assert IsFirst(lines[..|lines| - 1], first[k]);
  }

  lemma NewIsFirst<T>(lines: seq<Record<T>>)
    requires lines != [] && lines[|lines| - 1].id !in FirstSeen(lines[..|lines| - 1])
    ensures IsFirst(lines, |lines| - 1)
  {
    var n := |lines| - 1;
    forall j | 0 <= j < n ensures lines[j].id != lines[n].id { AllAreSeen(lines[..n], j); }
  }

  /** `FirstSeen` lists every id once, in the order of the first lines. */
  lemma {:induction false} FirstSeenIsOrdered<T>(lines: seq<Record<T>>) returns (first: seq<nat>)
    ensures AreFirst(lines, first)
  {
    first := [];
    if lines != [] {
      var n := |lines| - 1;
      var before := FirstSeenIsOrdered(lines[..n]);
      first := before;
      if lines[n].id !in FirstSeen(lines[..n]) {
        NewIsFirst(lines);
        first := before + [n];
      }
      forall k | 0 <= k < |before|
        ensures IsFirst(lines, before[k]) && lines[before[k]].id == FirstSeen(lines[..n])[k]
      {
        StillFirst(lines, before, k);
      }
    }
  }

  lemma {:induction false} LastLineAt<T>(lines: seq<Record<T>>, id: string) returns (i: nat)
    requires LastLine(lines, id).Some?
    ensures IsLast(lines, i) && LastLine(lines, id) == Some(lines[i])
  {
    var n := |lines| - 1;
    if lines[n].id == id {
      i := n;
    } else {
      i := LastLineAt(lines[..n], id);
      assert IsLast(lines[..n], i);
      forall j | i < j < |lines| ensures lines[j].id != lines[i].id {
        if j < n { assert lines[..n][j] == lines[j]; }
      }
    }
  }

  /** What a merge means on the lines themselves. Each merged record is the last line of
      its step; */
  lemma MergedAreLastLines<T>(lines: seq<Record<T>>, merged: seq<Record<T>>, k: nat) returns (last: nat)
    requires IsMerge(lines, merged) && k < |merged|
    ensures IsLast(lines, last) && lines[last] == merged[k]
  {
    assert Some(merged[k]) == LastLine(lines, FirstSeen(lines)[k]);
    last := LastLineAt(lines, FirstSeen(lines)[k]);
  }

  /** the steps come in the order of their first lines, so none comes twice; */
  lemma MergedAreInFirstLineOrder<T>(lines: seq<Record<T>>, merged: seq<Record<T>>, k: nat, l: nat)
      returns (first: nat, later: nat)
    requires IsMerge(lines, merged) && k < l < |merged|
    ensures first < later && IsFirst(lines, first) && IsFirst(lines, later)
    ensures lines[first].id == merged[k].id && lines[later].id == merged[l].id && merged[k].id != merged[l].id
  {
    var all := FirstSeenIsOrdered(lines);
    assert Some(merged[k]) == LastLine(lines, FirstSeen(lines)[k]);
    assert Some(merged[l]) == LastLine(lines, FirstSeen(lines)[l]);
    first, later := all[k], all[l];
  }

  /** and every step of the log is there. */
  lemma MergedAreComplete<T>(lines: seq<Record<T>>, merged: seq<Record<T>>, i: nat) returns (k: nat)
    requires IsMerge(lines, merged) && i < |lines|
    ensures k < |merged| && merged[k].id == lines[i].id
  {
    AllAreSeen(lines, i);
    k :| 0 <= k < |merged| && FirstSeen(lines)[k] == lines[i].id;
    assert Some(merged[k]) == LastLine(lines, FirstSeen(lines)[k]);
  }

  /** The loop over the lines. */
  method Merge<T>(lines: seq<Record<T>>) returns (records: seq<Record<T>>)
    ensures IsMerge(lines, records)
  {
    var order: seq<string> := [];
    var merged: map<string, Record<T>> := map[];
    for n := 0 to |lines|
      invariant order == FirstSeen(lines[..n])
      invariant forall id :: Get(merged, id) == LastLine(lines[..n], id)
      invariant forall id :: id in order <==> id in merged
    {
      assert lines[..n + 1][..n] == lines[..n];
      var record := lines[n];
      if record.id !in merged {
        order := order + [record.id];
      }
      merged := merged[record.id := record];
    }
    assert lines[..|lines|] == lines;
    var first := FirstSeenIsOrdered(lines);
    records := InOrder(order, merged);
    assert forall k | 0 <= k < |records| :: Get(merged, order[k]) == LastLine(lines, order[k]);
  }

  /** Take the records out of the table in the given order. */
  method InOrder<T>(order: seq<string>, table: map<string, Record<T>>) returns (records: seq<Record<T>>)
    requires forall k, l | 0 <= k < l < |order| :: order[k] != order[l]
    requires forall k | 0 <= k < |order| :: order[k] in table
    ensures |records| == |order|
    ensures forall k | 0 <= k < |order| :: records[k] == table[order[k]]
  {
    records := [];
    var merged := table;
    for k := 0 to |order|
      invariant |records| == k
      invariant forall l | 0 <= l < k :: records[l] == table[order[l]]
      invariant forall l | k <= l < |order| :: order[l] in merged && merged[order[l]] == table[order[l]]
    {
      records := records + [merged[order[k]]];
      merged := merged - {order[k]};
    }
  }

  ghost predicate IsListed<T>(records: seq<Record<T>>, id: string) {
    exists k :: 0 <= k < |records| && records[k].id == id
  }

  /** After any run of crashing appends, the records of a readable step log are the merge
      of the lines that survived: every step with a durable line is there, once, and
      shows its last surviving line. */
  lemma RecordsAfterCrashes<T(!new)>(c: Codec<Record<T>>, appends: seq<Append<Record<T>>>,
                                     lines: seq<Record<T>>, merged: seq<Record<T>>)
    requires c.Sound() && forall i | 0 <= i < |appends| :: AppendOk(c, appends[i])
    requires ReadSteps(c, Written(c, appends, true)) == Some(lines) && IsMerge(lines, merged)
    ensures lines == Durable(c, appends) + Unterminated(c, appends)
    ensures forall i | 0 <= i < |Durable(c, appends)| :: IsListed(merged, Durable(c, appends)[i].id)
    ensures forall k | 0 <= k < |merged| :: merged[k] in lines
  {
    StepLogSurvives(c, appends);
    var durable := Durable(c, appends);
    forall i | 0 <= i < |durable|
      ensures IsListed(merged, durable[i].id)
    {
      assert lines[i] == durable[i];
      var k := MergedAreComplete(lines, merged, i);
      assert merged[k].id == durable[i].id;
    }
    forall k | 0 <= k < |merged| ensures merged[k] in lines {
      var last := MergedAreLastLines(lines, merged, k);
    }
  }
}
