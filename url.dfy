/** The part of Go's `net/url`, `net` and `strconv` packages the API server
    relies on: a URL with a scheme and a `host[:port]` authority, the
    `Hostname`/`Port` accessors, `JoinHostPort` and `Itoa`. */
module Url {

  /** A URL reduced to its scheme, its authority (`host` or `host:port`) and
      its path. */
  datatype URL = URL(scheme: string, host: string, path: string) {

    /** The textual form `scheme://host` followed by the path. */
    function String(): (s: string)
      ensures scheme + "://" <= s
      ensures |s| == |scheme| + 3 + |host| + |path|
    {
      scheme + "://" + host + path
    }

    /** The host without its port and without IPv6 brackets. */
    function Hostname(): string
    {
      SplitHostPort(host).0
    }

    /** The port, or "" when the authority has none. */
    function Port(): string
    {
      SplitHostPort(host).1
    }
  }

  /** The zero value of a URL. */
  const ZeroURL := URL("", "", "")

  predicate IsDigit(c: char)
  {
    '0' <= c <= '9'
  }

  predicate AllDigits(s: string)
  {
    forall i :: 0 <= i < |s| ==> IsDigit(s[i])
  }

  /** The index of the last occurrence of `c` in `s`, or -1. */
  function LastIndex(s: string, c: char): (k: int)
    ensures -1 <= k < |s|
    ensures k == -1 <==> c !in s
    ensures 0 <= k ==> s[k] == c && forall j :: k < j < |s| ==> s[j] != c
  {
    if s == [] then -1
    else if s[|s| - 1] == c then |s| - 1
    else LastIndex(s[..|s| - 1], c)
  }

  /** An empty port, or a colon followed by decimal digits only. */
  predicate ValidOptionalPort(p: string)
  {
    p == "" || (p[0] == ':' && AllDigits(p[1..]))
  }

  predicate Bracketed(s: string)
  {
    |s| >= 2 && s[0] == '[' && s[|s| - 1] == ']'
  }

  /** Splits an authority at its last colon when what follows is a valid
      port, then strips one pair of enclosing brackets from the host. */
  function SplitHostPort(hostPort: string): (r: (string, string))
    ensures AllDigits(r.1)
  {
    var colon := LastIndex(hostPort, ':');
    var (host, port) :=
      if colon != -1 && ValidOptionalPort(hostPort[colon..])
      then assert hostPort[colon..] == ":" + hostPort[colon + 1..]; (hostPort[..colon], hostPort[colon + 1..])
      else (hostPort, "");
    if Bracketed(host) then (host[1..|host| - 1], port) else (host, port)
  }

  /** A non-empty port is what follows the last colon, at the end of the
      authority. */
  lemma SplitHostPortSuffix(hostPort: string)
    ensures var port := SplitHostPort(hostPort).1;
      port != "" ==> |port| < |hostPort| && hostPort[|hostPort| - |port| - 1..] == ":" + port
  {
    var colon := LastIndex(hostPort, ':');
    if colon != -1 && ValidOptionalPort(hostPort[colon..]) {
      assert hostPort[colon..] == ":" + hostPort[colon + 1..];
    }
  }

  /** Joins a host and a port, bracketing hosts that contain a colon (IPv6
      literals). */
  function JoinHostPort(host: string, port: string): (r: string)
    ensures ':' in host ==> r == "[" + host + "]:" + port
    ensures ':' !in host ==> r == host + ":" + port
  {
    if ':' in host then "[" + host + "]:" + port else host + ":" + port
  }

  /** The number a string of decimal digits denotes, most significant
      digit first. */
  function DecimalValue(s: string): int
  {
    if s == [] then 0
    else 10 * DecimalValue(s[..|s| - 1]) + (s[|s| - 1] as int - '0' as int)
  }

  /** The decimal digits of a natural number, most significant first. */
  function NatToString(n: nat): (s: string)
    ensures |s| >= 1 && AllDigits(s)
    ensures DecimalValue(s) == n
    decreases n
  {
    var d := ['0' + (n % 10) as char];
    if n < 10 then d
    else
      var t := NatToString(n / 10);
      assert (t + d)[..|t + d| - 1] == t;
      t + d
  }

  /** The decimal form of an integer, with a leading minus sign when
      negative. */
  function Itoa(n: int): (s: string)
    ensures n >= 0 ==> |s| >= 1 && AllDigits(s) && DecimalValue(s) == n
    ensures n < 0 ==> |s| >= 2 && s[0] == '-' && AllDigits(s[1..]) && DecimalValue(s[1..]) == -n
  {
    if n >= 0 then NatToString(n)
    else
      var t := NatToString(-n);
      assert ("-" + t)[1..] == t;
      "-" + t
  }

  /** The last colon of `a + b` is in `b` when `b` has one, otherwise it is
      the last colon of `a`. */
  lemma {:induction false} LastIndexAppend(a: string, b: string, c: char)
    ensures c in b ==> LastIndex(a + b, c) == |a| + LastIndex(b, c)
    ensures c !in b ==> LastIndex(a + b, c) == LastIndex(a, c)
    decreases |b|
  {
    if b == [] {
      assert a + b == a;
    } else {
      var init := b[..|b| - 1];
      assert (a + b)[..|a + b| - 1] == a + init;
      if b[|b| - 1] != c {
        assert c in b <==> c in init;
        LastIndexAppend(a, init, c);
      }
    }
  }

  /** An authority ending in a colon and digits splits at that colon. */
  lemma SplitAtPort(h: string, digits: string)
    requires AllDigits(digits)
    ensures SplitHostPort(h + ":" + digits)
         == (if Bracketed(h) then h[1..|h| - 1] else h, digits)
  {
    var joined := h + ":" + digits;
    assert ':' !in digits by {
      forall i | 0 <= i < |digits|
        ensures digits[i] != ':'
      {
        assert IsDigit(digits[i]);
      }
    }
    assert joined == h + (":" + digits);
    LastIndexAppend(h, ":" + digits, ':');
    LastIndexAppend(":", digits, ':');
    assert LastIndex(joined, ':') == |h|;
    assert joined[|h|..] == ":" + digits;
    assert joined[..|h|] == h;
    assert joined[|h| + 1..] == digits;
  }

  /** Joining a host with a decimal port and reading the URL back gives the
      same host and port, unless the host is itself a colon-free bracketed
      name, whose brackets are stripped. */
  lemma HostPortRoundTrip(scheme: string, host: string, port: nat, path: string)
    requires ':' in host || !Bracketed(host)
    ensures URL(scheme, JoinHostPort(host, Itoa(port)), path).Hostname() == host
    ensures URL(scheme, JoinHostPort(host, Itoa(port)), path).Port() == Itoa(port)
    ensures DecimalValue(URL(scheme, JoinHostPort(host, Itoa(port)), path).Port()) == port
  {
    var h := if ':' in host then "[" + host + "]" else host;
    assert JoinHostPort(host, Itoa(port)) == h + ":" + Itoa(port);
    SplitAtPort(h, Itoa(port));
    if ':' in host {
      assert h[1..|h| - 1] == host;
    }
  }

  /** Without a port the whole authority is the host, unbracketed. */
  lemma HostWithoutPort(scheme: string, host: string, path: string)
    requires ':' !in host && !Bracketed(host)
    ensures URL(scheme, host, path).Hostname() == host
    ensures URL(scheme, host, path).Port() == ""
  {
  }
}
