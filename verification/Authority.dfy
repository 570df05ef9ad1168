/** The keys under which a worker's payload handles are known to the host. */
module Authority {
  import opened Wrappers
  import opened Text

  const TWO_TO_THE_64 := 0x1_0000_0000_0000_0000

  function Key(incarnation: string, sequence: nat): string {
    "worker:" + incarnation + ":handle:" + Decimal(sequence)
  }

  lemma KeyParts(incarnation: string, sequence: nat)
    ensures
      var k, n := Key(incarnation, sequence), |Decimal(sequence)|;
      && |k| == 7 + |incarnation| + 8 + n
      && k[|k| - n..] == Decimal(sequence) && k[|k| - n - 1] == ':'
      && k[7..|k| - n - 8] == incarnation
  {
    var k := Key(incarnation, sequence);
    var head := "worker:" + incarnation + ":handle:";
    assert k == head + Decimal(sequence);
    assert head[|head| - 1] == ":handle:"[7] == ':';
    assert k[7..7 + |incarnation|] == incarnation;
  }

  /** Keys determine both parts, even when the incarnation contains `:handle:` or digits. */
  lemma KeyIsInjective(i1: string, n1: nat, i2: string, n2: nat)
    requires Key(i1, n1) == Key(i2, n2)
    ensures i1 == i2 && n1 == n2
  {
    KeyParts(i1, n1);
    KeyParts(i2, n2);
    LastColonIsTheSame(Key(i1, n1), Decimal(n1), Decimal(n2));
    DecimalIsInjective(n1, n2);
  }

  /** The digits at the end of a key begin after its last colon. */
  lemma LastColonIsTheSame(k: string, d1: string, d2: string)
    requires AllDigits(d1) && AllDigits(d2) && |d1| < |k| && |d2| < |k|
    requires k[|k| - |d1|..] == d1 && k[|k| - |d1| - 1] == ':'
    requires k[|k| - |d2|..] == d2 && k[|k| - |d2| - 1] == ':'
    ensures |d1| == |d2|
  {
    assert forall i | |k| - |d1| <= i < |k| :: k[i] == d1[i - (|k| - |d1|)];
    assert forall i | |k| - |d2| <= i < |k| :: k[i] == d2[i - (|k| - |d2|)];
  }

  datatype Fault = StaleIncarnation | UnknownPayloadKey

  /** The table after tokens were registered in order, the counter wrapping at 2^64. */
  function TokensAfter(incarnation: string, tokens: seq<string>): map<string, string> {
    if tokens == [] then map[]
    else
      var last := |tokens| - 1;
      TokensAfter(incarnation, tokens[..last])[Key(incarnation, Sequence(last)) := tokens[last]]
  }

  /** The sequence number of the registration at `i`; the counter starts at one. */
  function Sequence(i: nat): nat { (i + 1) % TWO_TO_THE_64 }

  lemma SequenceAfter(i: nat)
    ensures (Sequence(i) + 1) % TWO_TO_THE_64 == Sequence(i + 1)
  { }

  lemma TokensAfterOne(incarnation: string, tokens: seq<string>, token: string)
    ensures TokensAfter(incarnation, tokens + [token])
         == TokensAfter(incarnation, tokens)[Key(incarnation, Sequence(|tokens|)) := token]
  {
    assert (tokens + [token])[..|tokens|] == tokens;
  }

  class WorkerAuthorityTable {
    const incarnation: string
    var nextKey: nat
    var tokens: map<string, string>
    ghost var registered: seq<string>

    ghost predicate Valid()
      reads this
    {
      && nextKey == Sequence(|registered|)
      && tokens == TokensAfter(incarnation, registered)
    }

    constructor (incarnation: string)
      ensures Valid() && registered == [] && this.incarnation == incarnation
    {
      this.incarnation := incarnation;
      nextKey, tokens, registered := 1, map[], [];
    }

    method Register(token: string) returns (key: string)
      requires Valid()
      modifies this
      ensures Valid() && registered == old(registered) + [token]
      ensures key == Key(incarnation, Sequence(|old(registered)|))
    {
      var sequence := nextKey;
      nextKey := (nextKey + 1) % TWO_TO_THE_64;
      key := Key(incarnation, sequence);
      tokens := tokens[key := token];
      SequenceAfter(|registered|);
      TokensAfterOne(incarnation, registered, token);
      registered := registered + [token];
    }

    method Resolve(incarnation: string, key: string) returns (r: Result<string, Fault>)
      requires Valid()
      ensures incarnation != this.incarnation ==> r == Err(StaleIncarnation)
      ensures incarnation == this.incarnation ==>
                r == Lookup(TokensAfter(incarnation, registered), key)
    {
      if incarnation != this.incarnation {
        return Err(StaleIncarnation);
      }
      if key in tokens {
        return Ok(tokens[key]);
      }
      return Err(UnknownPayloadKey);
    }
  }

  function Lookup(table: map<string, string>, key: string): Result<string, Fault> {
    if key in table then Ok(table[key]) else Err(UnknownPayloadKey)
  }

  /** A registration keeps its own token exactly until a later one is given its key again,
      that is until the counter has gone round. */
  lemma {:induction false} RegisteredResolvesUntilWrap(incarnation: string, tokens: seq<string>, i: nat)
    requires i < |tokens|
    requires forall j | i < j < |tokens| :: tokens[j] != tokens[i]
    ensures Lookup(TokensAfter(incarnation, tokens), Key(incarnation, Sequence(i))) == Ok(tokens[i])
            <==> |tokens| <= i + TWO_TO_THE_64
    decreases |tokens|
  {
    var last := |tokens| - 1;
    var init := tokens[..last];
    if i < last {
      RegisteredResolvesUntilWrap(incarnation, init, i);
      SequencesRepeat(i, last);
      if Key(incarnation, Sequence(i)) == Key(incarnation, Sequence(last)) {
        KeyIsInjective(incarnation, Sequence(i), incarnation, Sequence(last));
      } else if last > i + TWO_TO_THE_64 {
        assert |init| > i + TWO_TO_THE_64;
      }
    }
  }

  lemma SequencesRepeat(i: nat, j: nat)
    requires i < j
    ensures j < i + TWO_TO_THE_64 ==> Sequence(i) != Sequence(j)
    ensures j == i + TWO_TO_THE_64 ==> Sequence(i) == Sequence(j)
  {
    var a, b := (i + 1) / TWO_TO_THE_64, (j + 1) / TWO_TO_THE_64;
    assert i + 1 == a * TWO_TO_THE_64 + Sequence(i) && j + 1 == b * TWO_TO_THE_64 + Sequence(j);
  }

  /** Every registration resolves to its own token for the next 2^64 registrations. */
  lemma {:induction false} RegisteredResolves(incarnation: string, tokens: seq<string>, i: nat)
    requires i < |tokens| <= i + TWO_TO_THE_64
    ensures Lookup(TokensAfter(incarnation, tokens), Key(incarnation, Sequence(i))) == Ok(tokens[i])
    decreases |tokens|
  {
    var last := |tokens| - 1;
    if i < last {
      RegisteredResolves(incarnation, tokens[..last], i);
      SequencesRepeat(i, last);
      if Key(incarnation, Sequence(i)) == Key(incarnation, Sequence(last)) {
        KeyIsInjective(incarnation, Sequence(i), incarnation, Sequence(last));
      }
    }
  }

  /** A key of another incarnation never resolves, nor does one never handed out. */
  lemma {:induction false} ForeignKeysNeverResolve(incarnation: string, tokens: seq<string>, key: string)
    requires forall i: nat | i < |tokens| :: key != Key(incarnation, Sequence(i))
    ensures Lookup(TokensAfter(incarnation, tokens), key) == Err(UnknownPayloadKey)
  {
    if tokens != [] {
      var last := |tokens| - 1;
      assert key != Key(incarnation, Sequence(last));
      ForeignKeysNeverResolve(incarnation, tokens[..last], key);
    }
  }

  lemma OtherIncarnationsNeverResolve(incarnation: string, tokens: seq<string>, other: string, n: nat)
    requires other != incarnation
    ensures Lookup(TokensAfter(incarnation, tokens), Key(other, n)) == Err(UnknownPayloadKey)
  {
    forall i: nat | i < |tokens| ensures Key(other, n) != Key(incarnation, Sequence(i)) {
      if Key(other, n) == Key(incarnation, Sequence(i)) { KeyIsInjective(other, n, incarnation, Sequence(i)); }
    }
    ForeignKeysNeverResolve(incarnation, tokens, Key(other, n));
  }
}
