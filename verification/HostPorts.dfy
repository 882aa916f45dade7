/** Decimal numbers and host:port pairs, as the Go standard library prints and reads them. */
module HostPorts {
  import opened Wrappers

  // ---------------------------------------------------------------- searching

  /** strings.IndexRune: the first position of `c`, or -1. */
  function IndexOf(s: string, c: char): (i: int)
    ensures -1 <= i < |s|
    ensures if i < 0 then c !in s else s[i] == c && forall k :: 0 <= k < i ==> s[k] != c
  {
    if s == "" then -1
    else if s[0] == c then 0
    else
      var i := IndexOf(s[1..], c);
      if i < 0 then -1 else i + 1
  }

  /** strings.LastIndexByte: the last position of `c`, or -1. */
  function LastIndexOf(s: string, c: char): (i: int)
    ensures -1 <= i < |s|
    ensures if i < 0 then c !in s else s[i] == c && forall k :: i < k < |s| ==> s[k] != c
  {
    if s == "" then -1
    else if s[|s| - 1] == c then |s| - 1
    else LastIndexOf(s[..|s| - 1], c)
  }

  // ---------------------------------------------------------------- numbers

  const MAX_INT := 0x7fff_ffff_ffff_ffff

  predicate IsDigit(c: char) {
    '0' <= c <= '9'
  }

  predicate AllDigits(s: string) {
    forall k :: 0 <= k < |s| ==> IsDigit(s[k])
  }

  function ItoaNat(n: nat): string {
    if n < 10 then [('0' as int + n) as char] else ItoaNat(n / 10) + [('0' as int + n % 10) as char]
  }

  /** strconv.Itoa. */
  function Itoa(n: int): string {
    if n < 0 then "-" + ItoaNat(-n) else ItoaNat(n)
  }

  function Value(s: string): nat
    requires AllDigits(s)
  {
    if s == "" then 0 else Value(s[..|s| - 1]) * 10 + (s[|s| - 1] as int - '0' as int)
  }

  /** strconv.Atoi on a 64-bit platform: an optional sign, then digits, within range. */
  function Atoi(s: string): Option<int> {
    var signed := s != "" && (s[0] == '-' || s[0] == '+');
    var digits := if signed then s[1..] else s;
    if digits == "" || !AllDigits(digits) then None
    else
      var v: int := Value(digits);
      var n := if signed && s[0] == '-' then -v else v;
      if -MAX_INT - 1 <= n <= MAX_INT then Some(n) else None
  }

  lemma {:induction false} ItoaValue(n: nat)
    ensures ItoaNat(n) != "" && AllDigits(ItoaNat(n)) && Value(ItoaNat(n)) == n
  {
    if n >= 10 {
      ItoaValue(n / 10);
      var s := ItoaNat(n);
      assert s[..|s| - 1] == ItoaNat(n / 10);
    }
  }

  lemma {:induction false} AtoiDigits(digits: string, negative: bool)
    requires digits != "" && AllDigits(digits) && Value(digits) <= MAX_INT + if negative then 1 else 0
    ensures Atoi(if negative then "-" + digits else digits) ==
        Some(if negative then -(Value(digits) as int) else Value(digits))
  {
    if negative {
      assert ("-" + digits)[1..] == digits;
    } else {
      assert IsDigit(digits[0]);
    }
  }

  /** Reading back a printed number gives the number. */
  lemma {:induction false} AtoiItoa(n: int)
    requires -MAX_INT - 1 <= n <= MAX_INT
    ensures Atoi(Itoa(n)) == Some(n)
  {
    var m: nat := if n < 0 then -n else n;
    ItoaValue(m);
    AtoiDigits(ItoaNat(m), n < 0);
  }

  /** A printed number has no character that is special in a listen string. */
  lemma {:induction false} ItoaPlain(n: int)
    ensures forall c :: c in Itoa(n) ==> IsDigit(c) || c == '-'
  {
    ItoaValue(if n < 0 then -n else n);
  }

  // ---------------------------------------------------------------- host and port

  /** net.JoinHostPort: a host with a colon, such as an IPv6 literal, is put in brackets. */
  function JoinHostPort(host: string, port: string): string {
    if ':' in host then "[" + host + "]:" + port else host + ":" + port
  }

  /** net.SplitHostPort. */
  function SplitHostPort(s: string): Option<(string, string)> {
    var i := LastIndexOf(s, ':');
    if i < 0 then None
    else if s[0] == '[' then
      var end := IndexOf(s, ']');
      if end < 0 || end + 1 != i || '[' in s[1..] || ']' in s[end + 1..] then None
      else Some((s[1..end], s[i + 1..]))
    else if ':' in s[..i] || '[' in s || ']' in s then None
    else Some((s[..i], s[i + 1..]))
  }

  predicate BracketFree(s: string) {
    '[' !in s && ']' !in s
  }

  lemma {:induction false} SplitBracketed(host: string, port: string)
    requires BracketFree(host) && BracketFree(port) && ':' !in port
    ensures SplitHostPort("[" + host + "]:" + port) == Some((host, port))
  {
    var s := "[" + host + "]:" + port;
    hide LastIndexOf, IndexOf;
    var i := LastIndexOf(s, ':');
    assert s[|host| + 2] == ':' && s[|host| + 1] == ']';
    assert forall k :: |host| + 2 < k < |s| ==> s[k] == port[k - |host| - 3];
    assert i == |host| + 2;
    assert forall k :: 1 <= k <= |host| ==> s[k] == host[k - 1];
    assert IndexOf(s, ']') == |host| + 1;
    assert s[1..|host| + 1] == host && s[i + 1..] == port;
    assert s[1..] == host + "]:" + port;
    assert s[|host| + 2..] == ":" + port;
  }

  lemma {:induction false} SplitPlain(host: string, port: string)
    requires BracketFree(host) && BracketFree(port) && ':' !in port && ':' !in host
    ensures SplitHostPort(host + ":" + port) == Some((host, port))
  {
    var s := host + ":" + port;
    var i := LastIndexOf(s, ':');
    assert s[|host|] == ':';
    assert forall k :: |host| < k < |s| ==> s[k] == port[k - |host| - 1];
    assert i == |host|;
    assert s[..i] == host && s[i + 1..] == port;
    assert s[0] != '[';
  }

  /** Splitting undoes joining for every host without brackets and every port without colons or brackets. */
  lemma {:induction false} SplitJoined(host: string, port: string)
    requires BracketFree(host) && BracketFree(port) && ':' !in port
    ensures SplitHostPort(JoinHostPort(host, port)) == Some((host, port))
  {
    if ':' in host {
      SplitBracketed(host, port);
    } else {
      SplitPlain(host, port);
    }
  }

  /** The two ways to write a host and a port. */
  predicate Writes(s: string, host: string, port: string) {
    && BracketFree(host) && BracketFree(port) && ':' !in port
    && ((s == host + ":" + port && ':' !in host) || s == "[" + host + "]:" + port)
  }

  lemma {:induction false} SplitBack(s: string)
    requires SplitHostPort(s).Some?
    ensures Writes(s, SplitHostPort(s).value.0, SplitHostPort(s).value.1)
  {
    hide LastIndexOf, IndexOf;
    var i := LastIndexOf(s, ':');
    if s[0] == '[' {
      var end := IndexOf(s, ']');
      var host, port := s[1..end], s[i + 1..];
      assert s == "[" + host + "]:" + port;
      assert forall c :: c in host ==> c in s[1..];
      assert forall c :: c in port ==> c in s[1..] && c in s[end + 1..];
    } else {
      var host, port := s[..i], s[i + 1..];
      assert s == host + ":" + port;
    }
  }

  /** Exactly what net.SplitHostPort accepts, and what it makes of it. */
  lemma {:induction false} SplitsIff(s: string, host: string, port: string)
    ensures SplitHostPort(s) == Some((host, port)) <==> Writes(s, host, port)
  {
    hide SplitHostPort;
    if SplitHostPort(s).Some? {
      SplitBack(s);
    }
    if Writes(s, host, port) {
      if s == "[" + host + "]:" + port {
        SplitBracketed(host, port);
      } else {
        SplitPlain(host, port);
      }
    }
  }
}
