/** String functions of the standard library, as the program uses them. */
module Text {
  import opened Wrappers

  /** `s.split(c)`: the pieces between occurrences of `c`, always at least one. */
  function Split(s: string, c: char): (pieces: seq<string>)
    ensures |pieces| > 0
  {
    if s == "" then [""]
    else
      var rest := Split(s[1..], c);
      if s[0] == c then [""] + rest else [[s[0]] + rest[0]] + rest[1..]
  }

  lemma {:induction false} SplitAt(a: string, c: char, b: string)
    requires c !in a
    ensures Split(a + [c] + b, c) == [a] + Split(b, c)
  {
    var whole := a + [c] + b;
    if a == "" {
      assert whole[1..] == b;
    } else {
      assert whole[1..] == a[1..] + [c] + b;
      SplitAt(a[1..], c, b);
      assert a == [a[0]] + a[1..];
    }
  }

  lemma {:induction false} SplitNone(a: string, c: char)
    requires c !in a
    ensures Split(a, c) == [a]
  {
    if a != "" {
      SplitNone(a[1..], c);
      assert a == [a[0]] + a[1..];
    }
  }

  /** The position of the first occurrence of `c`. */
  function Find(s: string, c: char): (p: Option<nat>)
    ensures p.Some? ==> p.value < |s| && s[p.value] == c && c !in s[..p.value]
    ensures p.None? <==> c !in s
  {
    if s == "" then None
    else if s[0] == c then Some(0)
    else
      var rest := Find(s[1..], c);
      assert s == [s[0]] + s[1..];
      if rest.Some? then
        assert s[..rest.value + 1] == [s[0]] + s[1..][..rest.value];
        Some(rest.value + 1)
      else None
  }

  lemma FindAt(a: string, c: char, b: string)
    requires c !in a
    ensures Find(a + [c] + b, c) == Some(|a|)
  {
    var whole := a + [c] + b;
    var p := Find(whole, c);
    assert whole[|a|] == c;
    assert forall i | 0 <= i < |a| :: whole[i] == a[i];
    assert forall i | 0 <= i < p.value :: whole[i] in whole[..p.value];
  }

  /** The text before the first of the characters. */
  function Until(s: string, stops: set<char>): (r: string)
    ensures r <= s
  {
    if s == "" || s[0] in stops then "" else [s[0]] + Until(s[1..], stops)
  }

  /** None of the characters occurs. */
  predicate Free(s: string, stops: set<char>) { forall c | c in s :: c !in stops }

  lemma {:induction false} UntilOf(s: string, stops: set<char>, rest: string)
    requires Free(s, stops) && (rest != "" ==> rest[0] in stops)
    ensures Until(s + rest, stops) == s
  {
    if s == "" {
      assert s + rest == rest;
    } else {
      assert s[0] in s && (s + rest)[1..] == s[1..] + rest;
      UntilOf(s[1..], stops, rest);
      assert s == [s[0]] + s[1..];
    }
  }

  predicate IsDigit(c: char) { '0' <= c <= '9' }

  predicate AllDigits(s: string) { forall i | 0 <= i < |s| :: IsDigit(s[i]) }

  function Number(s: string): nat
    requires AllDigits(s)
  {
    if s == "" then 0 else 10 * Number(s[..|s| - 1]) + (s[|s| - 1] - '0') as nat
  }

  /** Digits without a superfluous leading zero. */
  predicate Canonical(s: string) { s != "" && AllDigits(s) && (|s| > 1 ==> s[0] != '0') }

  lemma {:induction false} LeadingDigitCounts(s: string)
    requires s != "" && AllDigits(s) && s[0] != '0'
    ensures Number(s) >= 1
  {
    if |s| > 1 { LeadingDigitCounts(s[..|s| - 1]); }
  }

  /** Two canonical numerals of one number are the same text. */
  lemma {:induction false} CanonicalIsUnique(a: string, b: string)
    requires Canonical(a) && Canonical(b) && Number(a) == Number(b)
    ensures a == b
    decreases |a|
  {
    var x, y := a[..|a| - 1], b[..|b| - 1];
    assert a == x + [a[|a| - 1]] && b == y + [b[|b| - 1]];
    if x != "" { LeadingDigitCounts(x); }
    if y != "" { LeadingDigitCounts(y); }
    if x != "" && y != "" {
      CanonicalIsUnique(x, y);
    }
  }

  const USIZE_MAX := 0xFFFF_FFFF_FFFF_FFFF

  /** `s.parse::<usize>()`: an optional plus sign, at least one digit, no overflow. */
  function ParseUsize(s: string): Option<nat> {
    var digits := if s != "" && s[0] == '+' then s[1..] else s;
    if digits != "" && AllDigits(digits) && Number(digits) <= USIZE_MAX then Some(Number(digits)) else None
  }

  /** The canonical form of an array index: no sign, no superfluous leading zero. */
  function ParseIndex(s: string): Option<nat> {
    if (s != "" && s[0] == '+') || (|s| > 1 && s[0] == '0') then None else ParseUsize(s)
  }

  function Decimal(n: nat): (s: string)
    ensures s != "" && AllDigits(s) && Number(s) == n
  {
    if n < 10 then [('0' as int + n) as char]
    else
      var s := Decimal(n / 10) + [('0' as int + n % 10) as char];
      assert s[..|s| - 1] == Decimal(n / 10);
      s
  }

  lemma DecimalIsInjective(m: nat, n: nat)
    requires Decimal(m) == Decimal(n)
    ensures m == n
  {
    assert Number(Decimal(m)) == m && Number(Decimal(n)) == n;
  }

  lemma {:induction false} DecimalIsCanonical(n: nat)
    ensures Canonical(Decimal(n)) && (n > 0 ==> Decimal(n)[0] != '0')
  {
    if n >= 10 { DecimalIsCanonical(n / 10); }
  }

  /** The decimal text of a number that fits is its canonical array index. */
  lemma DecimalIsAnIndex(n: nat)
    requires n <= USIZE_MAX
    ensures ParseIndex(Decimal(n)) == Some(n)
  {
    DecimalIsCanonical(n);
  }
}
