/** The address part of a certificate pin: the host of a worker's endpoint. */
module EndpointHost {
  import opened Wrappers
  import opened Text

  /** `s.split_once("://")`, the second part. */
  function AfterScheme(s: string): Option<string> {
    if |s| < 3 then None else if s[..3] == "://" then Some(s[3..]) else AfterScheme(s[1..])
  }

  /** The position of the last occurrence of `c`. */
  function RFind(s: string, c: char): (p: Option<nat>)
    ensures p.Some? ==> p.value < |s| && s[p.value] == c && c !in s[p.value + 1..]
    ensures p.None? <==> c !in s
  {
    if s == "" then None
    else if s[|s| - 1] == c then Some(|s| - 1)
    else
      var init := s[..|s| - 1];
      assert s == init + [s[|s| - 1]];
      var p := RFind(init, c);
      assert p.Some? ==> s[p.value + 1..] == init[p.value + 1..] + [s[|s| - 1]];
      p
  }

  function LowerChar(c: char): char { if 'A' <= c <= 'Z' then c + ('a' - 'A') else c }

  /** `s.to_ascii_lowercase()` */
  function Lower(s: string): string { seq(|s|, i requires 0 <= i < |s| => LowerChar(s[i])) }

  function WithoutUserinfo(authority: string): string {
    match RFind(authority, '@') case Some(i) => authority[i + 1..] case None => authority
  }

  function HostPart(authority: string): string {
    if authority != "" && authority[0] == '[' then Until(authority[1..], {']'})
    else match RFind(authority, ':')
         case Some(i) => if AllDigits(authority[i + 1..]) then authority[..i] else authority
         case None => authority
  }

  /** `endpoint_host` */
  function HostOf(endpoint: string): Option<string> {
    match AfterScheme(endpoint)
    case None => None
    case Some(rest) =>
      var host := HostPart(WithoutUserinfo(Until(rest, {'/', '?', '#'})));
      if host == "" then None else Some(Lower(host))
  }

  // ---- Authorities of RFC 3986, section 3.2 ----

  datatype Host = Name(name: string) | Bracketed(address: string)

  datatype Authority = Authority(userinfo: Option<string>, host: Host, port: Option<string>)

  predicate WellFormed(a: Authority) {
    && (a.userinfo.Some? ==> Free(a.userinfo.value, {'/', '?', '#', '@', '[', ']'}))
    && (match a.host
        case Name(name) => Free(name, {'/', '?', '#', '@', '[', ']', ':'})
        case Bracketed(address) => Free(address, {'/', '?', '#', '@', '[', ']'}))
    && (a.port.Some? ==> AllDigits(a.port.value))
  }

  function HostText(h: Host): string {
    match h case Name(name) => name case Bracketed(address) => address
  }

  function PrintHost(h: Host): string {
    match h case Name(name) => name case Bracketed(address) => "[" + address + "]"
  }

  function PrintHostPort(a: Authority): string {
    PrintHost(a.host) + match a.port case Some(port) => ":" + port case None => ""
  }

  function PrintAuthority(a: Authority): string {
    (match a.userinfo case Some(u) => u + "@" case None => "") + PrintHostPort(a)
  }

  /** The rest of a URI after its authority: a path, query or fragment, or nothing. */
  predicate IsRest(rest: string) { rest != "" ==> rest[0] in {'/', '?', '#'} }

  lemma {:induction false} AfterSchemeOf(scheme: string, rest: string)
    requires ':' !in scheme
    ensures AfterScheme(scheme + "://" + rest) == Some(rest)
  {
    var s := scheme + "://" + rest;
    if scheme == "" {
      assert s[..3] == "://" && s[3..] == rest;
    } else {
      assert s[1..] == scheme[1..] + "://" + rest;
      assert s[0] == scheme[0] && s[..3][0] != "://"[0];
      AfterSchemeOf(scheme[1..], rest);
    }
  }

  lemma {:induction false} RFindAt(a: string, c: char, b: string)
    requires c !in b
    ensures RFind(a + [c] + b, c) == Some(|a|)
  {
    if b != "" {
      assert (a + [c] + b)[..|a| + |b|] == a + [c] + b[..|b| - 1];
      RFindAt(a, c, b[..|b| - 1]);
    }
  }

  lemma PrintedIsFree(a: Authority)
    requires WellFormed(a)
    ensures Free(PrintHostPort(a), {'/', '?', '#', '@'}) && Free(PrintAuthority(a), {'/', '?', '#'})
  {
    if a.port.Some? { assert forall c | c in a.port.value :: IsDigit(c); }
  }

  lemma UserinfoIsDropped(a: Authority)
    requires WellFormed(a)
    ensures WithoutUserinfo(PrintAuthority(a)) == PrintHostPort(a)
  {
    PrintedIsFree(a);
    var rest := PrintHostPort(a);
    if a.userinfo.Some? {
      var u := a.userinfo.value;
      assert PrintAuthority(a) == u + ['@'] + rest;
      RFindAt(u, '@', rest);
    } else {
      assert PrintAuthority(a) == rest;
    }
  }

  lemma BracketsAreDropped(address: string, port: string)
    requires ']' !in address
    ensures HostPart("[" + address + "]" + port) == address
  {
    var s := "[" + address + "]" + port;
    assert s[0] == '[' && s[1..] == address + ("]" + port);
    UntilOf(address, {']'}, "]" + port);
  }

  lemma DigitsAreDropped(name: string, port: string)
    requires '[' !in name && AllDigits(port)
    ensures HostPart(name + ":" + port) == name
  {
    var s := name + [':'] + port;
    assert s == name + ":" + port;
    assert s[0] != '[' by { assert s[0] == if name == "" then ':' else name[0]; }
    assert ':' !in port by { assert forall c | c in port :: IsDigit(c); }
    RFindAt(name, ':', port);
    assert s[..|name|] == name && s[|name| + 1..] == port;
  }

  lemma PortIsDropped(a: Authority)
    requires WellFormed(a)
    ensures HostPart(PrintHostPort(a)) == HostText(a.host)
  {
    var port := match a.port case Some(port) => ":" + port case None => "";
    match a.host
    case Bracketed(address) =>
      assert PrintHostPort(a) == "[" + address + "]" + port;
      BracketsAreDropped(address, port);
    case Name(name) =>
      if a.port.Some? {
        assert PrintHostPort(a) == name + ":" + a.port.value;
        DigitsAreDropped(name, a.port.value);
      } else {
        assert PrintHostPort(a) == name;
        assert name != "" ==> name[0] in name;
      }
  }

  /** Every well-formed endpoint has its lower-cased host as pin address, whatever its
      userinfo, port, path, query and fragment; without a host it has none. */
  lemma HostOfPrinted(scheme: string, a: Authority, rest: string)
    requires ':' !in scheme && WellFormed(a) && IsRest(rest)
    ensures HostOf(scheme + "://" + PrintAuthority(a) + rest)
         == if HostText(a.host) == "" then None else Some(Lower(HostText(a.host)))
  {
    var tail := PrintAuthority(a) + rest;
    assert scheme + "://" + PrintAuthority(a) + rest == scheme + "://" + tail;
    AfterSchemeOf(scheme, tail);
    PrintedIsFree(a);
    UntilOf(PrintAuthority(a), {'/', '?', '#'}, rest);
    UserinfoIsDropped(a);
    PortIsDropped(a);
  }

  // ---- Pin keys ----

  function PinKey(worker: string, host: string): string { worker + "@" + host }

  lemma HostPartIsPart(authority: string, c: char)
    requires c !in authority
    ensures c !in HostPart(authority)
  {
    if authority != "" && authority[0] == '[' { UntilIsPart(authority[1..], {']'}, c); }
  }

  lemma {:induction false} UntilIsPart(s: string, stops: set<char>, c: char)
    requires c !in s
    ensures c !in Until(s, stops)
  {
    if s != "" && s[0] !in stops { UntilIsPart(s[1..], stops, c); }
  }

  lemma UserinfoTakesTheAt(authority: string)
    ensures '@' !in WithoutUserinfo(authority)
  { }

  lemma LowerAddsNoAt(s: string)
    requires '@' !in s
    ensures '@' !in Lower(s)
  {
    assert forall i | 0 <= i < |s| :: Lower(s)[i] == LowerChar(s[i]) && s[i] != '@';
  }

  /** A host never contains the separator of a pin key, whatever the endpoint. */
  lemma HostHasNoAt(endpoint: string)
    requires HostOf(endpoint).Some?
    ensures '@' !in HostOf(endpoint).value
  {
    var authority := Until(AfterScheme(endpoint).value, {'/', '?', '#'});
    UserinfoTakesTheAt(authority);
    HostPartIsPart(WithoutUserinfo(authority), '@');
    LowerAddsNoAt(HostPart(WithoutUserinfo(authority)));
  }

  lemma LastSeparatorDecides(w1: string, h1: string, w2: string, h2: string)
    requires '@' !in h1 && '@' !in h2 && PinKey(w1, h1) == PinKey(w2, h2)
    ensures w1 == w2 && h1 == h2
  {
    RFindAt(w1, '@', h1);
    RFindAt(w2, '@', h2);
    var k := PinKey(w1, h1);
    assert k == w1 + ['@'] + h1 == w2 + ['@'] + h2;
    assert |w1| == |w2|;
    assert w1 == k[..|w1|] == w2 && h1 == k[|w1| + 1..] == h2;
  }

  /** Two connections share a pin exactly when worker and host are the same. */
  lemma PinKeyIsInjective(w1: string, e1: string, w2: string, e2: string)
    requires HostOf(e1).Some? && HostOf(e2).Some?
    ensures PinKey(w1, HostOf(e1).value) == PinKey(w2, HostOf(e2).value)
            <==> w1 == w2 && HostOf(e1) == HostOf(e2)
  {
    HostHasNoAt(e1);
    HostHasNoAt(e2);
    if PinKey(w1, HostOf(e1).value) == PinKey(w2, HostOf(e2).value) {
      LastSeparatorDecides(w1, HostOf(e1).value, w2, HostOf(e2).value);
    }
  }
}
