/** An append-only log file as its bytes, and the two repairs of a torn last line: the
    step and activity logs cut the file back to its last newline, the asset log supplies
    the missing newline. */
module LogFile {
  import opened Wrappers

  type Byte = b: int | 0 <= b < 256

  const NL: Byte := 10
  const CHUNK := 8192

  /** What the cut keeps: the longest prefix that is empty or ends in a newline. */
  function Complete(s: seq<Byte>): seq<Byte> {
    if s == [] || s[|s| - 1] == NL then s else Complete(s[..|s| - 1])
  }

  /** What the cut drops. */
  function Tail(s: seq<Byte>): seq<Byte> {
    if s == [] || s[|s| - 1] == NL then [] else Tail(s[..|s| - 1]) + [s[|s| - 1]]
  }

  function Terminated(s: seq<Byte>): seq<Byte> {
    if Tail(s) == [] then s else s + [NL]
  }

  lemma {:induction false} CompleteIsLongest(s: seq<Byte>)
    ensures s == Complete(s) + Tail(s)
    ensures Complete(s) == [] || Complete(s)[|Complete(s)| - 1] == NL
    ensures NL !in Tail(s)
    ensures forall i | 0 <= i < |s| && s[i] == NL :: i < |Complete(s)|
  {
    if s != [] && s[|s| - 1] != NL {
      CompleteIsLongest(s[..|s| - 1]);
      assert s == s[..|s| - 1] + [s[|s| - 1]];
    }
  }

  lemma {:induction false} CompleteAt(s: seq<Byte>, n: nat)
    requires n <= |s| && (n == 0 || s[n - 1] == NL) && NL !in s[n..]
    ensures Complete(s) == s[..n] && Tail(s) == s[n..]
    decreases |s|
  {
    if n == |s| {
      assert s[..n] == s;
    } else {
      var front := s[..|s| - 1];
      assert s[n..][|s| - 1 - n] == s[|s| - 1];
      assert front[n..] == s[n..][..|s| - 1 - n];
      CompleteAt(front, n);
      assert front[..n] == s[..n];
    }
  }

  /** The file of one log, reached by seeking and reading chunks. */
  class File {
    var bytes: seq<Byte>

    constructor (existing: seq<Byte>)
      ensures bytes == existing
    {
      bytes := existing;
    }

    /** Fill the front of `buffer` with the bytes from `start`. */
    method ReadExact(buffer: array<Byte>, start: nat, len: nat)
      requires len <= buffer.Length && start + len <= |bytes|
      modifies buffer
      ensures buffer[..len] == bytes[start..start + len]
    {
      forall i | 0 <= i < len {
        buffer[i] := bytes[start + i];
      }
    }

    method SetLen(len: nat)
      requires len <= |bytes|
      modifies this
      ensures bytes == old(bytes)[..len]
    {
      bytes := bytes[..len];
    }

    /** Scan backwards in chunks for the last newline and cut the file after it. */
    method TruncateTornTail()
      modifies this
      ensures bytes == Complete(old(bytes))
    {
      var len := |bytes|;
      if len == 0 {
        return;
      }
      var buffer := new Byte[CHUNK];
      var end := len;
      while end > 0
        invariant 0 <= end <= len && bytes == old(bytes)
        invariant NL !in bytes[end..]
      {
        var start := if end >= CHUNK then end - CHUNK else 0;
        var chunkLen := end - start;
        ReadExact(buffer, start, chunkLen);
        var found := LastNewline(buffer, chunkLen);
        if found.Some? {
          var keep := start + found.value + 1;
          assert bytes[keep..] == bytes[keep..end] + bytes[end..];
          assert bytes[keep..end] == buffer[found.value + 1..chunkLen];
          assert bytes[keep - 1] == buffer[..chunkLen][found.value];
          CompleteAt(bytes, keep);
          if keep < len {
            SetLen(keep);
          }
          return;
        }
        assert bytes[start..] == buffer[..chunkLen] + bytes[end..];
        end := start;
      }
      assert bytes[0..] == bytes;
      CompleteAt(bytes, 0);
      SetLen(0);
    }

    /** Supply the newline of a line that lacks it. */
    method TerminatePartialLine()
      modifies this
      ensures bytes == Terminated(old(bytes))
    {
      if |bytes| == 0 {
        return;
      }
      if bytes[|bytes| - 1] != NL {
        bytes := bytes + [NL];
      }
    }

    /** Append one line of the step or activity log. The write may stop after any number
        of bytes, by a crash or an error. */
    method AppendCutting(line: seq<Byte>, written: nat)
      requires written <= |line| + 1
      modifies this
      ensures bytes == Complete(old(bytes)) + (line + [NL])[..written]
    {
      TruncateTornTail();
      bytes := bytes + (line + [NL])[..written];
    }

    /** Append one line of the asset log; the write may stop after any number of bytes. */
    method AppendTerminating(line: seq<Byte>, written: nat)
      requires written <= |line| + 1
      modifies this
      ensures bytes == Terminated(old(bytes)) + (line + [NL])[..written]
    {
      TerminatePartialLine();
      bytes := bytes + (line + [NL])[..written];
    }
  }

  /** The last newline among the first `len` bytes of the buffer. */
  method LastNewline(buffer: array<Byte>, len: nat) returns (found: Option<nat>)
    requires len <= buffer.Length
    ensures found.None? ==> NL !in buffer[..len]
    ensures found.Some? ==> found.value < len && buffer[found.value] == NL && NL !in buffer[found.value + 1..len]
  {
    var i := len;
    while i > 0
      invariant 0 <= i <= len && NL !in buffer[i..len]
    {
      i := i - 1;
      if buffer[i] == NL {
        return Some(i);
      }
      assert buffer[i..len] == [buffer[i]] + buffer[i + 1..len];
    }
    found := None;
  }
}
