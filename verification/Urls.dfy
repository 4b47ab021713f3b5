/** Printing and parsing of URLs: sections 3.1 to 3.3 of RFC 3986, and the default ports of sections
    4.2.1 and 4.2.2 of RFC 9110. */
module Urls {
  import opened Cluster

  /* ------------------------------ Numbers ------------------------------ */

  predicate IsDigit(c: char) { '0' <= c <= '9' }

  predicate AllDigits(s: string) { forall i :: 0 <= i < |s| ==> IsDigit(s[i]) }

  function Decimal(n: nat): string {
    if n < 10 then [(48 + n) as char] else Decimal(n / 10) + [(48 + n % 10) as char]
  }

  function Value(s: string): nat
    requires AllDigits(s)
  {
    if s == "" then 0 else 10 * Value(s[..|s|-1]) + (s[|s|-1] as int - 48)
  }

  /** Reading a printed number gives the number. */
  lemma {:induction false} DecimalRead(n: nat)
    ensures Decimal(n) != "" && AllDigits(Decimal(n)) && Value(Decimal(n)) == n
  {
    var s := Decimal(n);
    if n >= 10 {
      DecimalRead(n / 10);
      assert s[..|s|-1] == Decimal(n / 10);
    } else {
      assert s[..|s|-1] == "";
    }
  }

  function Printed(n: int): string { if n < 0 then "-" + Decimal(-n) else Decimal(n) }

  /* ------------------------------ Splitting ------------------------------ */

  predicate Free(s: string, stops: string) { forall i :: 0 <= i < |s| ==> s[i] !in stops }

  /** Where the first of the characters is, or the length when there is none. */
  function First(s: string, stops: string): (i: nat)
    ensures i <= |s| && Free(s[..i], stops)
    ensures i < |s| ==> s[i] in stops
  {
    if s == "" || s[0] in stops then 0 else 1 + First(s[1..], stops)
  }

  lemma {:induction false} FirstAfter(a: string, b: string, stops: string)
    requires Free(a, stops) && (b == "" || b[0] in stops)
    ensures First(a + b, stops) == |a|
  {
    if a == "" {
      assert a + b == b;
    } else {
      assert (a + b)[1..] == a[1..] + b;
      assert forall i :: 0 <= i < |a[1..]| ==> a[1..][i] == a[i+1];
      FirstAfter(a[1..], b, stops);
    }
  }

  /* ------------------------------ Parsing ------------------------------ */

  datatype Url = Url(scheme: string, host: string, port: int, path: string)

  function DefaultPort(scheme: string): Option<int> {
    if scheme == "http" then Some(80) else if scheme == "https" then Some(443) else None
  }

  datatype Authority = Authority(host: string, port: int)

  /** A host, then nothing or a colon and a port; an empty port is the default one. */
  function ParsePort(host: string, rest: string, standard: int): Option<Authority> {
    if rest == "" || rest == ":" then Some(Authority(host, standard))
    else if rest[0] == ':' && AllDigits(rest[1..]) then Some(Authority(host, Value(rest[1..])))
    else None
  }

  /** A host is a name without delimiters, or an address in brackets; neither is empty. */
  predicate HostOk(host: string) {
    host != "" &&
    if host[0] == '[' then |host| >= 2 && host[|host|-1] == ']' && Free(host[1..|host|-1], "[]@/?#")
    else Free(host, ":[]@/?#")
  }

  /** Where the parser sees the host end. */
  function HostEnd(a: string): int { if a != "" && a[0] == '[' then First(a, "]") + 1 else First(a, ":") }

  function ParseHost(a: string, standard: int): Option<Authority> {
    var i := HostEnd(a);
    if i > |a| || !HostOk(a[..i]) then None else ParsePort(a[..i], a[i..], standard)
  }

  /** An authority, whose user information is passed over. */
  function ParseAuthority(a: string, standard: int): Option<Authority> {
    var i := First(a, "@");
    ParseHost(if i < |a| then a[i+1..] else a, standard)
  }

  /** The URL's scheme, host, port and path; query and fragment are left off. */
  function ParseUrl(s: string): Option<Url> {
    var i := First(s, ":");
    if !("://" <= s[i..]) || DefaultPort(s[..i]) == None then None
    else
      var scheme := s[..i];
      var rest := s[i+3..];
      var j := First(rest, "/?#");
      var a := ParseAuthority(rest[..j], DefaultPort(scheme).value);
      Assembled(scheme, a, rest[j..][..First(rest[j..], "?#")])
  }

  function Assembled(scheme: string, a: Option<Authority>, path: string): Option<Url> {
    if a == None then None else Some(Url(scheme, a.value.host, a.value.port, path))
  }

  predicate PathOk(path: string) {
    (path == "" || path[0] == '/') && Free(path, "?#")
  }

  /** Only such URLs come out of the parser. */
  lemma ParsedIsOk(s: string, u: Url)
    requires ParseUrl(s) == Some(u)
    ensures HostOk(u.host) && PathOk(u.path) && u.port >= 0
  {
  }

  /* ------------------------------ Printing ------------------------------ */

  function Colon(port: Option<int>): string { if port.Some? then ":" + Printed(port.value) else "" }

  /** A URL with or without a printed port. */
  function Shown(scheme: string, host: string, port: Option<int>, path: string): string {
    scheme + "://" + (host + Colon(port)) + path
  }

  function PortOf(scheme: string, port: Option<int>): int
    requires DefaultPort(scheme).Some?
  {
    if port.Some? then port.value else DefaultPort(scheme).value
  }

  predicate PortOk(port: Option<int>) { port.Some? ==> port.value >= 0 }

  lemma ColonParses(host: string, port: Option<int>, standard: int)
    requires PortOk(port)
    ensures ParsePort(host, Colon(port), standard) == Some(Authority(host, if port.Some? then port.value else standard))
    ensures Colon(port) == "" || (Colon(port)[0] == ':' && AllDigits(Colon(port)[1..]))
  {
    if port.Some? {
      DecimalRead(port.value);
      assert Colon(port)[1..] == Decimal(port.value);
    }
  }

  lemma HostEnds(host: string, rest: string)
    requires HostOk(host) && (rest == "" || rest[0] == ':')
    ensures HostEnd(host + rest) == |host|
  {
    if host[0] == '[' {
      var front := host[..|host|-1];
      assert host + rest == front + ("]" + rest);
      forall i | 0 <= i < |front| ensures front[i] !in "]" {
        assert i > 0 ==> front[i] == host[1..|host|-1][i-1];
      }
      FirstAfter(front, "]" + rest, "]");
    } else {
      FirstAfter(host, rest, ":");
    }
  }

  lemma NoDelimiters(host: string, rest: string)
    requires HostOk(host) && (rest == "" || (rest[0] == ':' && AllDigits(rest[1..])))
    ensures Free(host + rest, "@") && Free(host + rest, "/?#")
  {
    var a := host + rest;
    forall i | 0 <= i < |a| ensures a[i] !in "@/?#" {
      if i >= |host| { assert a[i] == rest[i-|host|]; }
      else if host[0] == '[' && 0 < i < |host| - 1 { assert a[i] == host[1..|host|-1][i-1]; }
    }
  }

  lemma FirstNowhere(s: string, stops: string)
    requires Free(s, stops)
    ensures First(s, stops) == |s|
  {
    assert s + "" == s;
    FirstAfter(s, "", stops);
  }

  lemma AuthorityParses(host: string, port: Option<int>, standard: int)
    requires HostOk(host) && PortOk(port)
    ensures ParseAuthority(host + Colon(port), standard) ==
              Some(Authority(host, if port.Some? then port.value else standard))
  {
    var a := host + Colon(port);
    ColonParses(host, port, standard);
    NoDelimiters(host, Colon(port));
    FirstNowhere(a, "@");
    HostEnds(host, Colon(port));
    assert a[..|host|] == host && a[|host|..] == Colon(port);
  }

  /** Where the parser splits a URL put together from its parts. */
  lemma Splits(scheme: string, authority: string, path: string)
    requires DefaultPort(scheme).Some? && Free(authority, "/?#") && (path == "" || path[0] == '/')
    ensures ParseUrl(scheme + "://" + authority + path)
         == Assembled(scheme, ParseAuthority(authority, DefaultPort(scheme).value), path[..First(path, "?#")])
  {
    var s := scheme + "://" + authority + path;
    var rest := authority + path;
    assert s == scheme + ("://" + rest);
    FirstAfter(scheme, "://" + rest, ":");
    assert s[..|scheme|] == scheme && s[|scheme|..] == "://" + rest && s[|scheme|+3..] == rest;
    FirstAfter(authority, path, "/?#");
    assert rest[..|authority|] == authority && rest[|authority|..] == path;
  }

  /** A printed URL with a good host and a path that starts with a slash gives everything back but the
      part of the path from a question mark or a hash on. */
  lemma ShownParsed(scheme: string, host: string, port: Option<int>, path: string)
    requires DefaultPort(scheme).Some? && HostOk(host) && PortOk(port)
    requires path == "" || path[0] == '/'
    ensures ParseUrl(Shown(scheme, host, port, path))
         == Some(Url(scheme, host, PortOf(scheme, port), path[..First(path, "?#")]))
  {
    ColonParses(host, port, DefaultPort(scheme).value);
    NoDelimiters(host, Colon(port));
    Splits(scheme, host + Colon(port), path);
    AuthorityParses(host, port, DefaultPort(scheme).value);
  }

  /** URL round trip: a printed URL gives back its scheme, host, port and path if and only if the host
      is free of delimiters or bracketed, the path starts with a slash and has no query or fragment,
      and the port is not negative. */
  lemma RoundTrip(scheme: string, host: string, port: Option<int>, path: string)
    requires DefaultPort(scheme).Some?
    ensures ParseUrl(Shown(scheme, host, port, path)) == Some(Url(scheme, host, PortOf(scheme, port), path))
       <==> HostOk(host) && PathOk(path) && PortOk(port)
  {
    var u := Url(scheme, host, PortOf(scheme, port), path);
    if HostOk(host) && PathOk(path) && PortOk(port) {
      WholeParsed(scheme, host, port, path);
    } else if ParseUrl(Shown(scheme, host, port, path)) == Some(u) {
      ParsedIsOk(Shown(scheme, host, port, path), u);
    }
  }

  lemma WholeParsed(scheme: string, host: string, port: Option<int>, path: string)
    requires DefaultPort(scheme).Some? && HostOk(host) && PathOk(path) && PortOk(port)
    ensures ParseUrl(Shown(scheme, host, port, path)) == Some(Url(scheme, host, PortOf(scheme, port), path))
  {
    assert path[..First(path, "?#")] == path by { FirstNowhere(path, "?#"); }
    ShownParsed(scheme, host, port, path);
  }
}
