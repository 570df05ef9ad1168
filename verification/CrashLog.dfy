/** What the append-only logs read back after any run of appends, each of which may stop
    after any byte: the step and activity logs (whose repair cuts the torn tail) and the
    asset log (whose repair supplies the missing newline).

    The serializer is a parameter. A codec is sound when an encoding has no newline, is
    UTF-8, decodes to its record, and no strict prefix of it (and no blank line) decodes.
    `dec` is the whole treatment of one line: trimming, skipping blanks, parsing. */
module CrashLog {
  import opened Wrappers
  import opened LogFile

  // ---- UTF-8 (RFC 3629, section 4) ----

  predicate Continues(s: seq<Byte>, i: nat) { i < |s| && 0x80 <= s[i] <= 0xBF }

  predicate Between(s: seq<Byte>, lo: int, hi: int) { |s| > 1 && lo <= s[1] <= hi }

  /** The length of the well-formed character `s` begins with, or 0. */
  function CharLength(s: seq<Byte>): nat {
    if s == [] then 0
    else
      var b := s[0];
      if b <= 0x7F then 1
      else if 0xC2 <= b <= 0xDF && Continues(s, 1) then 2
      else if b == 0xE0 && Between(s, 0xA0, 0xBF) && Continues(s, 2) then 3
      else if b == 0xED && Between(s, 0x80, 0x9F) && Continues(s, 2) then 3
      else if 0xE1 <= b <= 0xEF && b != 0xED && Continues(s, 1) && Continues(s, 2) then 3
      else if b == 0xF0 && Between(s, 0x90, 0xBF) && Continues(s, 2) && Continues(s, 3) then 4
      else if 0xF1 <= b <= 0xF3 && Continues(s, 1) && Continues(s, 2) && Continues(s, 3) then 4
      else if b == 0xF4 && Between(s, 0x80, 0x8F) && Continues(s, 2) && Continues(s, 3) then 4
      else 0
  }

  predicate Utf8(s: seq<Byte>) {
    s == [] || (0 < CharLength(s) <= |s| && Utf8(s[CharLength(s)..]))
  }

  lemma CharLengthIsLocal(a: seq<Byte>, b: seq<Byte>)
    requires a != []
    ensures CharLength(a) > 0 ==> CharLength(a + b) == CharLength(a) <= |a|
    ensures b != [] && b[0] < 0x80 ==> CharLength(a + b) == CharLength(a)
  { }

  /** A newline is never inside a character, so validity can be judged line by line. */
  lemma {:induction false} Utf8ByLines(a: seq<Byte>, b: seq<Byte>)
    ensures Utf8(a + [NL] + b) <==> Utf8(a) && Utf8(b)
    decreases |a|
  {
    var rest := [NL] + b;
    assert a + [NL] + b == a + rest;
    if a == [] {
      assert a + rest == rest && rest[1..] == b;
    } else {
      CharLengthIsLocal(a, rest);
      var n := CharLength(a);
      if n > 0 {
        Utf8ByLines(a[n..], b);
        assert (a + rest)[n..] == a[n..] + [NL] + b;
      }
    }
  }

  /** The same for a text that already ends in a newline. */
  lemma Utf8AfterLine(a: seq<Byte>, b: seq<Byte>)
    requires Tail(a) == []
    ensures Utf8(a + b) <==> Utf8(a) && Utf8(b)
  {
    if a == [] {
      assert a + b == b;
    } else {
      var front := a[..|a| - 1];
      assert a == front + [NL] && a + b == front + [NL] + b && front + [NL] + [] == a;
      Utf8ByLines(front, b);
      Utf8ByLines(front, []);
    }
  }

  // ---- Lines and records ----

  /** The pieces between newlines; the last one is the unterminated rest. */
  function Split(s: seq<Byte>): (pieces: seq<seq<Byte>>)
    ensures |pieces| > 0
  {
    if s == [] then [[]]
    else
      var rest := Split(s[1..]);
      if s[0] == NL then [[]] + rest else [[s[0]] + rest[0]] + rest[1..]
  }

  lemma {:induction false} SplitConcat(a: seq<Byte>, b: seq<Byte>)
    ensures Split(a + [NL] + b) == Split(a) + Split(b)
  {
    var whole := a + [NL] + b;
    if a == [] {
      assert whole[1..] == b;
    } else {
      assert whole[1..] == a[1..] + [NL] + b;
      SplitConcat(a[1..], b);
    }
  }

  lemma {:induction false} SplitOneLine(s: seq<Byte>)
    requires NL !in s
    ensures Split(s) == [s]
  {
    if s != [] {
      SplitOneLine(s[1..]);
      assert s == [s[0]] + s[1..];
    }
  }

  datatype Codec<!R(!new)> = Codec(enc: R -> seq<Byte>, dec: seq<Byte> -> Option<R>) {
    ghost predicate Sound()
    {
      && (forall r: R :: NL !in enc(r) && Utf8(enc(r)) && dec(enc(r)) == Some(r))
      && (forall r: R, n: nat | n < |enc(r)| :: dec(enc(r)[..n]) == None)
      && dec([]) == None
    }
  }

  /** The records decoded from the pieces, in order; a piece that does not decode is skipped. */
  function Decoded<R(!new)>(c: Codec<R>, pieces: seq<seq<Byte>>): seq<R> {
    if pieces == [] then []
    else (match c.dec(pieces[0]) case Some(r) => [r] case None => []) + Decoded(c, pieces[1..])
  }

  lemma {:induction false} DecodedConcat<R(!new)>(c: Codec<R>, a: seq<seq<Byte>>, b: seq<seq<Byte>>)
    ensures Decoded(c, a + b) == Decoded(c, a) + Decoded(c, b)
  {
    if a == [] {
      assert a + b == b;
    } else {
      assert (a + b)[1..] == a[1..] + b;
      DecodedConcat(c, a[1..], b);
    }
  }

  /** Everything between newlines, decoded: the activity log's `read`. */
  function Read<R(!new)>(c: Codec<R>, bytes: seq<Byte>): seq<R> {
    Decoded(c, Split(bytes))
  }

  /** The step log's lines before merging: the whole file must be UTF-8 first. */
  function ReadSteps<R(!new)>(c: Codec<R>, bytes: seq<Byte>): Option<seq<R>> {
    if Utf8(bytes) then Some(Read(c, bytes)) else None
  }

  /** The asset log's `list`: UTF-8 as a whole, then only newline-terminated lines. */
  function ReadAssets<R(!new)>(c: Codec<R>, bytes: seq<Byte>): Option<seq<R>> {
    if Utf8(bytes) then Some(Read(c, Complete(bytes))) else None
  }

  // ---- A log as what was written to it ----

  /** The first `cut` bytes of a record's encoding. */
  datatype Piece<R> = Piece(record: R, cut: nat)

  /** The newline-terminated lines, and the unterminated rest of the last append. */
  datatype Log<R> = Log(lines: seq<Piece<R>>, rest: Option<Piece<R>>)

  ghost predicate PieceOk<R(!new)>(c: Codec<R>, p: Piece<R>) { p.cut <= |c.enc(p.record)| }

  ghost predicate LogOk<R(!new)>(c: Codec<R>, log: Log<R>) {
    && (forall i | 0 <= i < |log.lines| :: PieceOk(c, log.lines[i]))
    && (log.rest.Some? ==> PieceOk(c, log.rest.value))
  }

  ghost function Bytes<R(!new)>(c: Codec<R>, p: Piece<R>): seq<Byte>
    requires PieceOk(c, p)
  {
    c.enc(p.record)[..p.cut]
  }

  ghost function LineBytes<R(!new)>(c: Codec<R>, lines: seq<Piece<R>>): seq<Byte>
    requires forall i | 0 <= i < |lines| :: PieceOk(c, lines[i])
  {
    if lines == [] then []
    else LineBytes(c, lines[..|lines| - 1]) + Bytes(c, lines[|lines| - 1]) + [NL]
  }

  ghost function RestBytes<R(!new)>(c: Codec<R>, log: Log<R>): seq<Byte>
    requires LogOk(c, log)
  {
    if log.rest.Some? then Bytes(c, log.rest.value) else []
  }

  ghost function Rendered<R(!new)>(c: Codec<R>, log: Log<R>): seq<Byte>
    requires LogOk(c, log)
  {
    LineBytes(c, log.lines) + RestBytes(c, log)
  }

  /** The records whose whole encoding stands on a terminated line, oldest first. */
  ghost function Whole<R(!new)>(c: Codec<R>, lines: seq<Piece<R>>): seq<R> {
    if lines == [] then []
    else
      var last := lines[|lines| - 1];
      Whole(c, lines[..|lines| - 1]) + (if last.cut == |c.enc(last.record)| then [last.record] else [])
  }

  lemma BytesHaveNoNewline<R(!new)>(c: Codec<R>, p: Piece<R>)
    requires c.Sound() && PieceOk(c, p)
    ensures NL !in Bytes(c, p)
  {
    assert NL !in c.enc(p.record);
  }

  lemma RenderedSplits<R(!new)>(c: Codec<R>, log: Log<R>)
    requires c.Sound() && LogOk(c, log)
    ensures Complete(Rendered(c, log)) == LineBytes(c, log.lines)
    ensures Tail(Rendered(c, log)) == RestBytes(c, log)
  {
    var n := |LineBytes(c, log.lines)|;
    if log.rest.Some? { BytesHaveNoNewline(c, log.rest.value); }
    assert Rendered(c, log)[n..] == RestBytes(c, log);
    assert Rendered(c, log)[..n] == LineBytes(c, log.lines);
    CompleteAt(Rendered(c, log), n);
  }

  /** A piece decodes exactly when it is whole. */
  lemma PieceDecodes<R(!new)>(c: Codec<R>, p: Piece<R>)
    requires c.Sound() && PieceOk(c, p)
    ensures c.dec(Bytes(c, p)) == if p.cut == |c.enc(p.record)| then Some(p.record) else None
  {
    if p.cut == |c.enc(p.record)| { assert Bytes(c, p) == c.enc(p.record); }
  }

  lemma {:induction false} LinesRead<R(!new)>(c: Codec<R>, lines: seq<Piece<R>>, tail: seq<Byte>)
    requires c.Sound() && NL !in tail
    requires forall i | 0 <= i < |lines| :: PieceOk(c, lines[i])
    ensures Read(c, LineBytes(c, lines) + tail) == Whole(c, lines) + Decoded(c, [tail])
  {
    if lines == [] {
      SplitOneLine(tail);
      assert LineBytes(c, lines) + tail == tail;
    } else {
      var front, last := lines[..|lines| - 1], lines[|lines| - 1];
      var body := LineBytes(c, front) + Bytes(c, last);
      assert LineBytes(c, lines) + tail == body + [NL] + tail;
      SplitConcat(body, tail);
      DecodedConcat(c, Split(body), Split(tail));
      SplitOneLine(tail);
      BytesHaveNoNewline(c, last);
      LinesRead(c, front, Bytes(c, last));
      PieceDecodes(c, last);
    }
  }

  // ---- Runs of appends ----

  /** One append: the record, whether the process survived to its repair, and how many
      bytes of the line and its newline were then written. */
  datatype Append<R> = Append(record: R, repaired: bool, written: nat)

  ghost predicate AppendOk<R(!new)>(c: Codec<R>, a: Append<R>) { a.written <= |c.enc(a.record)| + 1 }

  ghost predicate Finished<R(!new)>(c: Codec<R>, a: Append<R>) { a.repaired && a.written == |c.enc(a.record)| + 1 }

  /** The bytes one append got to write. */
  ghost function LinePart<R(!new)>(c: Codec<R>, a: Append<R>): seq<Byte>
    requires AppendOk(c, a)
  {
    (c.enc(a.record) + [NL])[..a.written]
  }

  function Repaired(bytes: seq<Byte>, cutting: bool): seq<Byte> {
    if cutting then Complete(bytes) else Terminated(bytes)
  }

  /** The bytes after the appends, by the repairs the logs perform on bytes. */
  ghost function Written<R(!new)>(c: Codec<R>, appends: seq<Append<R>>, cutting: bool): seq<Byte>
    requires forall i | 0 <= i < |appends| :: AppendOk(c, appends[i])
  {
    if appends == [] then []
    else
      var before := Written(c, appends[..|appends| - 1], cutting);
      var a := appends[|appends| - 1];
      if a.repaired then Repaired(before, cutting) + LinePart(c, a) else before
  }

  /** The lines after the repair of a log. */
  ghost function RepairedLines<R(!new)>(log: Log<R>, cutting: bool): seq<Piece<R>> {
    if !cutting && log.rest.Some? && log.rest.value.cut > 0 then log.lines + [log.rest.value] else log.lines
  }

  ghost function Extended<R(!new)>(c: Codec<R>, lines: seq<Piece<R>>, a: Append<R>): Log<R> {
    if Finished(c, a) then Log(lines + [Piece(a.record, a.written - 1)], None)
    else Log(lines, Some(Piece(a.record, a.written)))
  }

  /** The same appends on the log of pieces. */
  ghost function Logged<R(!new)>(c: Codec<R>, appends: seq<Append<R>>, cutting: bool): Log<R> {
    if appends == [] then Log([], None)
    else
      var log := Logged(c, appends[..|appends| - 1], cutting);
      var a := appends[|appends| - 1];
      if a.repaired then Extended(c, RepairedLines(log, cutting), a) else log
  }

  lemma RepairRenders<R(!new)>(c: Codec<R>, log: Log<R>, cutting: bool)
    requires c.Sound() && LogOk(c, log)
    ensures forall i | 0 <= i < |RepairedLines(log, cutting)| :: PieceOk(c, RepairedLines(log, cutting)[i])
    ensures LineBytes(c, RepairedLines(log, cutting)) == Repaired(Rendered(c, log), cutting)
  {
    RenderedSplits(c, log);
    var lines := RepairedLines(log, cutting);
    if lines != log.lines {
      assert lines[..|lines| - 1] == log.lines;
    }
  }

  lemma ExtensionRenders<R(!new)>(c: Codec<R>, lines: seq<Piece<R>>, a: Append<R>)
    requires c.Sound() && AppendOk(c, a) && a.repaired
    requires forall i | 0 <= i < |lines| :: PieceOk(c, lines[i])
    ensures LogOk(c, Extended(c, lines, a))
    ensures Rendered(c, Extended(c, lines, a)) == LineBytes(c, lines) + LinePart(c, a)
  {
    var e := c.enc(a.record);
    if Finished(c, a) {
      var p := Piece(a.record, a.written - 1);
      assert (lines + [p])[..|lines + [p]| - 1] == lines;
      assert Bytes(c, p) == e && LinePart(c, a) == e + [NL];
    } else {
      assert LinePart(c, a) == e[..a.written];
    }
  }

  lemma {:induction false} LoggedIsWritten<R(!new)>(c: Codec<R>, appends: seq<Append<R>>, cutting: bool)
    requires c.Sound() && forall i | 0 <= i < |appends| :: AppendOk(c, appends[i])
    ensures LogOk(c, Logged(c, appends, cutting))
    ensures Rendered(c, Logged(c, appends, cutting)) == Written(c, appends, cutting)
  {
    if appends != [] {
      var front, a := appends[..|appends| - 1], appends[|appends| - 1];
      LoggedIsWritten(c, front, cutting);
      if a.repaired {
        var log := Logged(c, front, cutting);
        RepairRenders(c, log, cutting);
        ExtensionRenders(c, RepairedLines(log, cutting), a);
      }
    }
  }

  // ---- What survives ----

  /** The records whose append wrote its own newline, in append order. */
  ghost function Durable<R(!new)>(c: Codec<R>, appends: seq<Append<R>>): seq<R> {
    if appends == [] then []
    else
      var a := appends[|appends| - 1];
      Durable(c, appends[..|appends| - 1]) + (if Finished(c, a) then [a.record] else [])
  }

  /** The record the last started append wrote completely but did not terminate, if any. */
  ghost function Unterminated<R(!new)>(c: Codec<R>, appends: seq<Append<R>>): (u: seq<R>)
    ensures |u| <= 1
  {
    if appends == [] then []
    else
      var a := appends[|appends| - 1];
      if !a.repaired then Unterminated(c, appends[..|appends| - 1])
      else if a.written == |c.enc(a.record)| then [a.record] else []
  }

  /** The records whose newline reached the disk at all, be it with their own append or
      with the repair of the next. */
  ghost function Terminal<R(!new)>(c: Codec<R>, appends: seq<Append<R>>): seq<R> {
    if appends == [] then []
    else
      var front, a := appends[..|appends| - 1], appends[|appends| - 1];
      Terminal(c, front)
      + (if a.repaired then Unterminated(c, front) else [])
      + (if Finished(c, a) then [a.record] else [])
  }

  lemma RepairRecords<R(!new)>(c: Codec<R>, log: Log<R>, cutting: bool)
    requires c.Sound()
    ensures Whole(c, RepairedLines(log, cutting))
         == Whole(c, log.lines) + (if cutting then [] else WholeRest(c, log))
  {
    var lines := RepairedLines(log, cutting);
    if lines != log.lines {
      assert lines[..|lines| - 1] == log.lines;
    } else if log.rest.Some? {
      EncodingsAreNotEmpty(c, log.rest.value.record);
    }
  }

  ghost function WholeRest<R(!new)>(c: Codec<R>, log: Log<R>): seq<R> {
    if log.rest.Some? && log.rest.value.cut == |c.enc(log.rest.value.record)| then [log.rest.value.record] else []
  }

  lemma ExtensionRecords<R(!new)>(c: Codec<R>, lines: seq<Piece<R>>, a: Append<R>)
    requires a.repaired
    ensures Whole(c, Extended(c, lines, a).lines) == Whole(c, lines) + (if Finished(c, a) then [a.record] else [])
    ensures WholeRest(c, Extended(c, lines, a)) == if a.written == |c.enc(a.record)| then [a.record] else []
  {
    if Finished(c, a) {
      var p := Piece(a.record, a.written - 1);
      assert (lines + [p])[..|lines + [p]| - 1] == lines;
    }
  }

  /** The whole records of the log are exactly these. */
  lemma {:induction false} LoggedRecords<R(!new)>(c: Codec<R>, appends: seq<Append<R>>, cutting: bool)
    requires c.Sound()
    ensures Whole(c, Logged(c, appends, cutting).lines) == if cutting then Durable(c, appends) else Terminal(c, appends)
    ensures WholeRest(c, Logged(c, appends, cutting)) == Unterminated(c, appends)
  {
    if appends != [] {
      var front, a := appends[..|appends| - 1], appends[|appends| - 1];
      LoggedRecords(c, front, cutting);
      if a.repaired {
        var log := Logged(c, front, cutting);
        RepairRecords(c, log, cutting);
        ExtensionRecords(c, RepairedLines(log, cutting), a);
      }
    }
  }

  lemma EncodingsAreNotEmpty<R(!new)>(c: Codec<R>, r: R)
    requires c.Sound()
    ensures c.enc(r) != []
  {
    assert c.dec(c.enc(r)) == Some(r);
  }

  lemma LogReads<R(!new)>(c: Codec<R>, log: Log<R>)
    requires c.Sound() && LogOk(c, log)
    ensures Read(c, Rendered(c, log)) == Whole(c, log.lines) + WholeRest(c, log)
    ensures Read(c, Complete(Rendered(c, log))) == Whole(c, log.lines)
  {
    RenderedSplits(c, log);
    LinesRead(c, log.lines, RestBytes(c, log));
    LinesRead(c, log.lines, []);
    assert LineBytes(c, log.lines) + [] == LineBytes(c, log.lines);
    if log.rest.Some? { PieceDecodes(c, log.rest.value); }
  }

  /** What decoding between newlines finds after any run of crashing appends. */
  lemma Survivors<R(!new)>(c: Codec<R>, appends: seq<Append<R>>, cutting: bool)
    requires c.Sound() && forall i | 0 <= i < |appends| :: AppendOk(c, appends[i])
    ensures
      var bytes := Written(c, appends, cutting);
      var terminated := if cutting then Durable(c, appends) else Terminal(c, appends);
      && Read(c, bytes) == terminated + Unterminated(c, appends)
      && Read(c, Complete(bytes)) == terminated
  {
    LoggedIsWritten(c, appends, cutting);
    LoggedRecords(c, appends, cutting);
    LogReads(c, Logged(c, appends, cutting));
  }

  /** A line part that is not UTF-8 can only be a strict prefix of an encoding. */
  lemma FinishedPartsAreUtf8<R(!new)>(c: Codec<R>, a: Append<R>)
    requires c.Sound() && AppendOk(c, a) && a.written >= |c.enc(a.record)|
    ensures Utf8(LinePart(c, a))
  {
    var e := c.enc(a.record);
    if a.written == |e| {
      assert LinePart(c, a) == e;
    } else {
      assert LinePart(c, a) == e + [NL] + [];
      Utf8ByLines(e, []);
    }
  }

  /** The part of the last append that got past its repair. */
  ghost function LastPart<R(!new)>(c: Codec<R>, appends: seq<Append<R>>): seq<Byte>
    requires forall i | 0 <= i < |appends| :: AppendOk(c, appends[i])
  {
    if appends == [] then []
    else if appends[|appends| - 1].repaired then LinePart(c, appends[|appends| - 1])
    else LastPart(c, appends[..|appends| - 1])
  }

  lemma CompleteBefore(kept: seq<Byte>, part: seq<Byte>)
    requires (kept == [] || kept[|kept| - 1] == NL) && NL !in part
    ensures Complete(kept + part) == kept
  {
    assert (kept + part)[..|kept|] == kept && (kept + part)[|kept|..] == part;
    CompleteAt(kept + part, |kept|);
  }

  lemma UnfinishedHasNoNewline<R(!new)>(c: Codec<R>, a: Append<R>)
    requires c.Sound() && AppendOk(c, a) && a.repaired && !Finished(c, a)
    ensures NL !in LinePart(c, a)
  {
    var e := c.enc(a.record);
    assert NL !in e && LinePart(c, a) == e[..a.written];
  }

  lemma FinishedIsComplete<R(!new)>(c: Codec<R>, kept: seq<Byte>, a: Append<R>)
    requires AppendOk(c, a) && Finished(c, a)
    ensures Complete(kept + LinePart(c, a)) == kept + LinePart(c, a)
  {
    var part := LinePart(c, a);
    assert part[|part| - 1] == NL && (kept + part)[|kept + part| - 1] == NL;
  }

  lemma {:induction false} CutFileUtf8<R(!new)>(c: Codec<R>, appends: seq<Append<R>>)
    requires c.Sound() && forall i | 0 <= i < |appends| :: AppendOk(c, appends[i])
    ensures Utf8(Complete(Written(c, appends, true)))
    ensures Utf8(Written(c, appends, true)) <==> Utf8(LastPart(c, appends))
  {
    if appends != [] {
      var front, a := appends[..|appends| - 1], appends[|appends| - 1];
      CutFileUtf8(c, front);
      if a.repaired {
        var kept, part := Complete(Written(c, front, true)), LinePart(c, a);
        CompleteIsLongest(Written(c, front, true));
        Utf8AfterLine(kept, part);
        if Finished(c, a) {
          FinishedIsComplete(c, kept, a);
          FinishedPartsAreUtf8(c, a);
        } else {
          UnfinishedHasNoNewline(c, a);
          CompleteBefore(kept, part);
        }
      }
    }
  }

  /** The asset file is UTF-8 exactly when every append ever made to it left UTF-8. */
  lemma {:induction false} TerminatedFileUtf8<R(!new)>(c: Codec<R>, appends: seq<Append<R>>)
    requires c.Sound() && forall i | 0 <= i < |appends| :: AppendOk(c, appends[i])
    ensures Utf8(Written(c, appends, false)) <==>
              forall i | 0 <= i < |appends| && appends[i].repaired :: Utf8(LinePart(c, appends[i]))
  {
    if appends != [] {
      var front, a := appends[..|appends| - 1], appends[|appends| - 1];
      TerminatedFileUtf8(c, front);
      assert forall i | 0 <= i < |front| :: appends[i] == front[i];
      if a.repaired {
        var before := Written(c, front, false);
        if Tail(before) == [] {
          Utf8AfterLine(before, LinePart(c, a));
        } else {
          Utf8ByLines(before, LinePart(c, a));
        }
      }
    }
  }

  /** The activity log reads back every record whose newline reached the disk, in append
      order, then at most the one record written whole but not terminated. */
  lemma ActivityLogSurvives<R(!new)>(c: Codec<R>, appends: seq<Append<R>>)
    requires c.Sound() && forall i | 0 <= i < |appends| :: AppendOk(c, appends[i])
    ensures Read(c, Written(c, appends, true)) == Durable(c, appends) + Unterminated(c, appends)
  {
    Survivors(c, appends, true);
  }

  /** The step log reads back the same lines, but only if the append that last got past
      its repair did not stop inside a character: the file is read as one UTF-8 text. */
  lemma StepLogSurvives<R(!new)>(c: Codec<R>, appends: seq<Append<R>>)
    requires c.Sound() && forall i | 0 <= i < |appends| :: AppendOk(c, appends[i])
    ensures ReadSteps(c, Written(c, appends, true))
         == if Utf8(LastPart(c, appends)) then Some(Durable(c, appends) + Unterminated(c, appends)) else None
  {
    Survivors(c, appends, true);
    CutFileUtf8(c, appends);
  }

  /** The asset log lists every record whose newline reached the disk, in append order,
      but only if no append ever stopped inside a character: a torn line stays in the file. */
  lemma AssetLogSurvives<R(!new)>(c: Codec<R>, appends: seq<Append<R>>)
    requires c.Sound() && forall i | 0 <= i < |appends| :: AppendOk(c, appends[i])
    ensures ReadAssets(c, Written(c, appends, false))
         == if forall i | 0 <= i < |appends| && appends[i].repaired :: Utf8(LinePart(c, appends[i]))
            then Some(Terminal(c, appends)) else None
  {
    Survivors(c, appends, false);
    TerminatedFileUtf8(c, appends);
  }

  // ---- Nothing is lost later, nothing is invented ----

  /** `a` can be had from `b` by leaving records out. */
  ghost predicate Subsequence<R>(a: seq<R>, b: seq<R>) {
    a == [] || (b != [] && ((a[|a| - 1] == b[|b| - 1] && Subsequence(a[..|a| - 1], b[..|b| - 1]))
                            || Subsequence(a, b[..|b| - 1])))
  }

  function Records<R>(appends: seq<Append<R>>): seq<R> {
    seq(|appends|, i requires 0 <= i < |appends| => appends[i].record)
  }

  lemma SubsequenceSnoc<R>(a: seq<R>, b: seq<R>, x: R)
    requires Subsequence(a, b)
    ensures Subsequence(a, b + [x]) && Subsequence(a + [x], b + [x])
  {
    assert (b + [x])[..|b|] == b && (a + [x])[..|a|] == a;
  }

  /** What is read back is an in-order selection of the appended records, each at most
      as often as it was appended. */
  lemma {:induction false} NothingIsInvented<R(!new)>(c: Codec<R>, appends: seq<Append<R>>)
    ensures Subsequence(Terminal(c, appends) + Unterminated(c, appends), Records(appends))
  {
    if appends != [] {
      var front, a := appends[..|appends| - 1], appends[|appends| - 1];
      NothingIsInvented(c, front);
      var read := Terminal(c, front) + Unterminated(c, front);
      SubsequenceSnoc(read, Records(front), a.record);
      assert Records(appends) == Records(front) + [a.record];
      if a.repaired {
        assert Terminal(c, appends) + Unterminated(c, appends) == read
               || Terminal(c, appends) + Unterminated(c, appends) == read + [a.record];
      } else {
        assert Terminal(c, appends) + Unterminated(c, appends) == read;
      }
    }
  }

  /** A record read back once from a terminated line is read back, in its place, after
      any further appends. */
  lemma {:induction false} TerminatedRecordsStay<R(!new)>(c: Codec<R>, appends: seq<Append<R>>, more: seq<Append<R>>)
    ensures Durable(c, appends) <= Durable(c, appends + more)
    ensures Terminal(c, appends) <= Terminal(c, appends + more)
  {
    if more == [] {
      assert appends + more == appends;
    } else {
      var front := more[..|more| - 1];
      TerminatedRecordsStay(c, appends, front);
      assert (appends + more)[..|appends + more| - 1] == appends + front;
    }
  }

  /** A completed append of the asset log is in the list. */
  lemma {:induction false} CompletedAppendsAreListed<R(!new)>(c: Codec<R>, appends: seq<Append<R>>)
    ensures Subsequence(Durable(c, appends), Terminal(c, appends))
  {
    if appends != [] {
      var front, a := appends[..|appends| - 1], appends[|appends| - 1];
      CompletedAppendsAreListed(c, front);
      var durable := Durable(c, front);
      var listed := Terminal(c, front) + (if a.repaired then Unterminated(c, front) else []);
      if |listed| > |Terminal(c, front)| {
        SubsequenceSnoc(durable, Terminal(c, front), listed[|listed| - 1]);
        assert listed == Terminal(c, front) + [listed[|listed| - 1]];
      } else {
        assert listed == Terminal(c, front);
      }
      if Finished(c, a) {
        SubsequenceSnoc(durable, listed, a.record);
      } else {
        assert Durable(c, appends) == durable && Terminal(c, appends) == listed;
      }
    }
  }

  // ---- A record torn inside a character ----

  /** One record, encoded as the two bytes of a single non-ASCII character. */
  datatype Mark = Mark

  const ACCENTED_E: Codec<Mark> := Codec(_ => [0xC3, 0xA9], s => if s == [0xC3, 0xA9] then Some(Mark) else None)

  lemma AccentedEIsSound()
    ensures ACCENTED_E.Sound()
  {
    var e: seq<Byte> := [0xC3, 0xA9];
    assert e[2..] == [] && Utf8(e);
    forall r: Mark ensures ACCENTED_E.dec(ACCENTED_E.enc(r)) == Some(r) {
      match r case Mark =>
    }
    forall r: Mark, n: nat | n < |ACCENTED_E.enc(r)| ensures ACCENTED_E.dec(ACCENTED_E.enc(r)[..n]) == None {
      assert |ACCENTED_E.enc(r)[..n]| != |e|;
    }
  }

  /** An append torn inside a character makes the asset log unreadable for good, although
      every later append completes; a step log recovers with the next append. */
  lemma TornCharacterHidesTheAssetLog(later: nat)
    ensures ACCENTED_E.Sound()
    ensures
      var appends := [Append(Mark, true, 1)] + seq(later, _ => Append(Mark, true, 3));
      && (forall i | 0 <= i < |appends| :: AppendOk(ACCENTED_E, appends[i]))
      && ReadAssets(ACCENTED_E, Written(ACCENTED_E, appends, false)) == None
      && (ReadSteps(ACCENTED_E, Written(ACCENTED_E, appends, true)).None? <==> later == 0)
  {
    AccentedEIsSound();
    var appends := [Append(Mark, true, 1)] + seq(later, _ => Append(Mark, true, 3));
    assert LinePart(ACCENTED_E, appends[0]) == [0xC3];
    AssetLogSurvives(ACCENTED_E, appends);
    StepLogSurvives(ACCENTED_E, appends);
    if later > 0 {
      FinishedPartsAreUtf8(ACCENTED_E, appends[later]);
    }
  }

  // ---- Which records can hide a log ----

  predicate Ascii(s: seq<Byte>) { forall i | 0 <= i < |s| :: s[i] < 0x80 }

  lemma {:induction false} AsciiIsUtf8(s: seq<Byte>)
    requires Ascii(s)
    ensures Utf8(s)
  {
    if s != [] { AsciiIsUtf8(s[1..]); }
  }

  /** A text that is not ASCII can be torn inside a character. */
  lemma {:induction false} TornPoint(s: seq<Byte>) returns (n: nat)
    requires Utf8(s) && !Ascii(s)
    ensures n <= |s| && !Utf8(s[..n])
  {
    if s[0] < 0x80 {
      var m := TornPoint(s[1..]);
      n := m + 1;
      assert s[..n][1..] == s[1..][..m];
    } else {
      n := 1;
      assert s[..1] == [s[0]];
    }
  }

  /** Without non-ASCII characters in what is appended, a torn line never hides the others. */
  lemma AsciiLogsStayReadable<R(!new)>(c: Codec<R>, appends: seq<Append<R>>)
    requires c.Sound() && forall i | 0 <= i < |appends| :: AppendOk(c, appends[i]) && Ascii(c.enc(appends[i].record))
    ensures ReadAssets(c, Written(c, appends, false)) == Some(Terminal(c, appends))
    ensures ReadSteps(c, Written(c, appends, true)) == Some(Durable(c, appends) + Unterminated(c, appends))
  {
    forall i | 0 <= i < |appends| ensures Utf8(LinePart(c, appends[i])) { AsciiIsUtf8(LinePart(c, appends[i])); }
    LastPartIsAPart(c, appends);
    AssetLogSurvives(c, appends);
    StepLogSurvives(c, appends);
  }

  lemma {:induction false} LastPartIsAPart<R(!new)>(c: Codec<R>, appends: seq<Append<R>>)
    requires forall i | 0 <= i < |appends| :: AppendOk(c, appends[i])
    ensures
      LastPart(c, appends) == [] || exists i | 0 <= i < |appends| :: LastPart(c, appends) == LinePart(c, appends[i])
  {
    if appends != [] && !appends[|appends| - 1].repaired { LastPartIsAPart(c, appends[..|appends| - 1]); }
  }

  /** Any record with a non-ASCII character can be torn so that the asset log is unreadable
      whatever is appended afterwards, and the step log until the next append. */
  lemma NonAsciiRecordHidesTheLogs<R(!new)>(c: Codec<R>, r: R, later: seq<Append<R>>) returns (n: nat)
    requires c.Sound() && !Ascii(c.enc(r)) && forall i | 0 <= i < |later| :: AppendOk(c, later[i])
    ensures AppendOk(c, Append(r, true, n))
    ensures ReadAssets(c, Written(c, [Append(r, true, n)] + later, false)) == None
    ensures ReadSteps(c, Written(c, [Append(r, true, n)], true)) == None
  {
    n := TornPoint(c.enc(r));
    var torn := Append(r, true, n);
    assert LinePart(c, torn) == c.enc(r)[..n];
    var appends := [torn] + later;
    forall i | 0 <= i < |appends| ensures AppendOk(c, appends[i]) { if i > 0 { assert appends[i] == later[i - 1]; } }
    assert appends[0] == torn && [torn][0] == torn;
    AssetLogSurvives(c, appends);
    StepLogSurvives(c, [torn]);
  }

  // ---- The files in place ----

  /** Perform the appends on a file, with the repairs as the logs execute them. */
  method Replay<R(!new)>(file: File, c: Codec<R>, appends: seq<Append<R>>, cutting: bool)
    requires file.bytes == []
    requires forall i | 0 <= i < |appends| :: AppendOk(c, appends[i])
    modifies file
    ensures file.bytes == Written(c, appends, cutting)
  {
    for n := 0 to |appends|
      invariant file.bytes == Written(c, appends[..n], cutting)
    {
      var a := appends[n];
      assert appends[..n + 1][..n] == appends[..n];
      if a.repaired {
        assert AppendOk(c, a);
        if cutting {
          file.AppendCutting(c.enc(a.record), a.written);
        } else {
          file.AppendTerminating(c.enc(a.record), a.written);
        }
      }
    }
    assert appends[..|appends|] == appends;
  }
}
