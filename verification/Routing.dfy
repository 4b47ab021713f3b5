/** Which requests a task's route takes and what its backend sees, under the PathPrefix match and the
    ReplacePrefixMatch rewrite of Gateway API v1. */
module Routing {
  import opened Cluster
  import opened Specs
  import opened Names

  /* ------------------------------ Paths ------------------------------ */

  predicate SlashFree(s: string) { '/' !in s }

  function FirstSlash(s: string): (i: nat)
    ensures i <= |s| && SlashFree(s[..i])
    ensures i < |s| ==> s[i] == '/'
  {
    if s == "" || s[0] == '/' then 0 else 1 + FirstSlash(s[1..])
  }

  /** The elements of a path. */
  function Split(s: string): (parts: seq<string>)
    ensures parts != []
    decreases |s|
  {
    var i := FirstSlash(s);
    if i == |s| then [s] else [s[..i]] + Split(s[i+1..])
  }

  function Join(parts: seq<string>): string {
    if parts == [] then "" else if |parts| == 1 then parts[0] else parts[0] + "/" + Join(parts[1..])
  }

  lemma {:induction false} JoinCons(head: string, parts: seq<string>)
    requires parts != []
    ensures Join([head] + parts) == head + "/" + Join(parts)
  {
    assert ([head] + parts)[1..] == parts;
  }

  lemma Apart(s: string, i: nat)
    requires i < |s| && s[i] == '/'
    ensures s == s[..i] + "/" + s[i+1..]
  {
  }

  /** A path is its first element and the rest. */
  lemma {:induction false} SplitStep(s: string, i: nat)
    requires i == FirstSlash(s)
    ensures Split(s) == if i == |s| then [s] else [s[..i]] + Split(s[i+1..])
  {
  }

  lemma {:induction false} JoinStep(s: string, head: string, tail: string, parts: seq<string>)
    requires s == head + "/" + tail && parts != [] && Join(parts) == tail
    ensures Join([head] + parts) == s
  {
    JoinCons(head, parts);
  }

  lemma {:induction false} JoinSplit(s: string)
    ensures Join(Split(s)) == s
    decreases |s|
  {
    var i := FirstSlash(s);
    SplitStep(s, i);
    if i < |s| {
      Apart(s, i);
      JoinSplit(s[i+1..]);
      JoinStep(s, s[..i], s[i+1..], Split(s[i+1..]));
    }
  }

  lemma {:induction false} FirstSlashAfter(a: string, b: string)
    requires SlashFree(a) && (b == "" || b[0] == '/')
    ensures FirstSlash(a + b) == |a|
  {
    if a == "" {
      assert a + b == b;
    } else {
      assert (a + b)[1..] == a[1..] + b;
      FirstSlashAfter(a[1..], b);
    }
  }

  lemma {:induction false} SplitWhole(s: string)
    requires SlashFree(s)
    ensures Split(s) == [s]
  {
    assert s + "" == s;
    FirstSlashAfter(s, "");
  }

  lemma {:induction false} SplitHead(a: string, b: string)
    requires SlashFree(a)
    ensures Split(a + "/" + b) == [a] + Split(b)
  {
    var s := a + "/" + b;
    assert s == a + ("/" + b);
    FirstSlashAfter(a, "/" + b);
    assert s[..|a|] == a && s[|a|+1..] == b;
  }

  lemma {:induction false} HeadAndTail(a: string, b: string, head: string, tail: string)
    requires SlashFree(head) && a == head + "/" + tail
    ensures Split(a) == [head] + Split(tail)
    ensures Split(a + "/" + b) == [head] + Split(tail + "/" + b)
  {
    assert a + "/" + b == head + "/" + (tail + "/" + b);
    SplitHead(head, tail);
    SplitHead(head, tail + "/" + b);
  }

  lemma Regroup(head: string, parts: seq<string>, more: seq<string>)
    ensures [head] + (parts + more) == ([head] + parts) + more
  {
  }

  /** Splitting at a slash splits the elements. */
  lemma {:induction false} SplitAt(a: string, b: string)
    ensures Split(a + "/" + b) == Split(a) + Split(b)
    decreases |a|
  {
    var i := FirstSlash(a);
    if i == |a| {
      SplitStep(a, i);
      SplitHead(a, b);
    } else {
      Apart(a, i);
      HeadAndTail(a, b, a[..i], a[i+1..]);
      SplitAt(a[i+1..], b);
      Regroup(a[..i], Split(a[i+1..]), Split(b));
    }
  }

  /** Text without a slash only lengthens the last element. */
  lemma {:induction false} SplitTail(a: string, b: string)
    requires SlashFree(b)
    ensures Split(a + b) == Split(a)[..|Split(a)|-1] + [Split(a)[|Split(a)|-1] + b]
    decreases |a|
  {
    var i := FirstSlash(a);
    if i == |a| {
      assert Split(a) == [a];
      SplitWhole(a + b);
    } else {
      var head, tail := a[..i], a[i+1..];
      assert a + b == head + "/" + (tail + b) by { assert a == head + "/" + tail; }
      SplitHead(head, tail + b);
      SplitTail(tail, b);
      assert Split(a) == [head] + Split(tail);
      LastOfMore(head, Split(tail), b);
    }
  }

  lemma LastOfMore(head: string, parts: seq<string>, b: string)
    requires parts != []
    ensures var all, n := [head] + parts, |parts|;
            [head] + (parts[..n-1] + [parts[n-1] + b]) == all[..n] + [all[n] + b]
  {
  }

  /* ------------------------------ Matching and rewriting ------------------------------ */

  /** A trailing slash of a prefix is ignored. */
  function Trim(prefix: string): string {
    if prefix != "" && prefix[|prefix|-1] == '/' then prefix[..|prefix|-1] else prefix
  }

  /** PathPrefix matches element by element. */
  predicate Matches(prefix: string, path: string) { Split(Trim(prefix)) <= Split(path) }

  /** The matched prefix is replaced by a slash. */
  function Rewritten(prefix: string, path: string): string
    requires Matches(prefix, path)
  {
    "/" + Join(Split(path)[|Split(Trim(prefix))|..])
  }

  lemma MatchesBelow(prefix: string, rest: string)
    ensures Matches(prefix, Trim(prefix)) && Rewritten(prefix, Trim(prefix)) == "/"
    ensures Matches(prefix, Trim(prefix) + "/" + rest) && Rewritten(prefix, Trim(prefix) + "/" + rest) == "/" + rest
  {
    var path := Trim(prefix) + "/" + rest;
    SplitAt(Trim(prefix), rest);
    assert Split(path)[|Split(Trim(prefix))|..] == Split(rest);
    JoinSplit(rest);
  }

  /** Conversely every matched path is the prefix, or the prefix, a slash and a rest. */
  lemma MatchedIsBelow(prefix: string, path: string)
    requires Matches(prefix, path)
    ensures path == Trim(prefix) || exists rest :: path == Trim(prefix) + "/" + rest
  {
    var p, whole := Split(Trim(prefix)), Split(path);
    assert whole == p + whole[|p|..];
    if whole[|p|..] == [] { assert whole == p; } else { JoinApart(p, whole[|p|..]); }
    JoinSplit(path);
    JoinSplit(Trim(prefix));
  }

  lemma {:induction false} JoinApart(a: seq<string>, b: seq<string>)
    requires a != [] && b != []
    ensures Join(a + b) == Join(a) + "/" + Join(b)
  {
    assert (a + b)[1..] == a[1..] + b;
    if |a| > 1 {
      JoinApart(a[1..], b);
      assert a[0] + "/" + (Join(a[1..]) + "/" + Join(b)) == a[0] + "/" + Join(a[1..]) + "/" + Join(b);
    } else {
      assert a[1..] + b == b;
    }
  }

  /* ------------------------------ Routes ------------------------------ */

  datatype Backend = Backend(service: string, port: int)
  datatype Rule = Rule(prefix: string, rewrite: bool, backend: Backend)
  datatype Route = Route(name: string, owner: string, framework: string, hostnames: seq<string>, rules: seq<Rule>)

  function RouteName(t: DevTask): string { t.name + "-" + Framework(t) + "-" + t.namespace }

  function Hostnames(t: DevTask): seq<string> {
    if RoutingConfig(t).Some? then RoutingConfig(t).value.hostnames else []
  }

  /** The route of a DevTask. */
  function RouteOf(t: DevTask, backend: Backend): Route {
    var fw := Framework(t);
    var main := Rule(RoutePath(t), fw == "codeserver" || fw == "novnc", backend);
    Route(RouteName(t), t.name, fw, Hostnames(t),
          if fw == "novnc" then [main, Rule(RoutePath(t) + "websockify", true, backend)] else [main])
  }

  /** The route is put together, then gets its filter, then its second rule. */
  method BuildHTTPRoute(t: DevTask, serviceName: string, servicePort: int) returns (route: Route)
    ensures route == RouteOf(t, Backend(serviceName, servicePort))
    ensures route.name == DevChildName(Framework(t), t.name, t.namespace)
    ensures forall host :: ServesHost(route, host) <==> AsksFor(t, host)
    ensures forall rule :: rule in route.rules ==> rule.backend == Backend(serviceName, servicePort)
  {
    forall host ensures ServesHost(RouteOf(t, Backend(serviceName, servicePort)), host) <==> AsksFor(t, host) {
      ServesAsked(t, Backend(serviceName, servicePort), host);
    }
    var framework := Framework(t);
    var path := RoutePath(t);
    var backend := Backend(serviceName, servicePort);
    route := Route(RouteName(t), t.name, framework, Hostnames(t), [Rule(path, false, backend)]);
    if framework == "codeserver" || framework == "novnc" {
      route := route.(rules := route.rules[0 := route.rules[0].(rewrite := true)]);
    }
    if framework == "novnc" {
      var wsPath := path + "websockify";
      route := route.(rules := route.rules + [Rule(wsPath, true, backend)]);
    }
  }

  function InferenceRoute(t: InferenceTask, serviceName: string, servicePort: int): Route {
    Route("inf-" + InferenceFramework(t) + "-" + t.name, t.name, InferenceFramework(t), [],
          [Rule(InferencePath(t), true, Backend(serviceName, servicePort))])
  }

  predicate Takes(route: Route, path: string) {
    exists i :: 0 <= i < |route.rules| && Matches(route.rules[i].prefix, path)
  }

  /** The matching rule with the longest prefix; of two equally long ones, the first. */
  function Best(rules: seq<Rule>, path: string): Option<Rule> {
    if rules == [] then None
    else
      var later := Best(rules[1..], path);
      if Matches(rules[0].prefix, path) && (later == None || |later.value.prefix| <= |rules[0].prefix|) then
        Some(rules[0])
      else later
  }

  lemma {:induction false} BestMatches(rules: seq<Rule>, path: string)
    ensures Best(rules, path).Some? ==>
              Best(rules, path).value in rules && Matches(Best(rules, path).value.prefix, path)
    ensures Best(rules, path) == None <==> forall i :: 0 <= i < |rules| ==> !Matches(rules[i].prefix, path)
  {
    if rules != [] { BestMatches(rules[1..], path); }
  }

  /** What the backend is asked for, if the route takes the request. */
  function BackendSees(route: Route, path: string): Option<string> {
    BestMatches(route.rules, path);
    var rule := Best(route.rules, path);
    if rule == None then None
    else if rule.value.rewrite then Some(Rewritten(rule.value.prefix, path))
    else Some(path)
  }

  lemma BestOfOne(rule: Rule, path: string)
    ensures Best([rule], path) == if Matches(rule.prefix, path) then Some(rule) else None
  {
    assert Best([rule][1..], path) == None;
  }

  /** A route of one rule. */
  lemma OneRule(route: Route, path: string)
    requires |route.rules| == 1
    ensures var rule := route.rules[0];
            && (Takes(route, path) <==> Matches(rule.prefix, path))
            && BackendSees(route, path) == (if !Matches(rule.prefix, path) then None
                                            else if rule.rewrite then Some(Rewritten(rule.prefix, path))
                                            else Some(path))
  {
    BestOfOne(route.rules[0], path);
    assert route.rules == [route.rules[0]];
  }

  /* ------------------------------ Disjointness ------------------------------ */

  /** A DevTask with its default path and a usable name. */
  predicate Plain(t: DevTask) {
    Framework(t) != "" && !CustomPath(RoutingConfig(t)) && t.name != "" && SlashFree(t.name)
  }

  predicate InferencePlain(t: InferenceTask) {
    Section(t) != "" && !CustomPath(InferenceRouting(t)) && t.name != "" && SlashFree(t.name)
  }

  lemma FrameworksSlashFree(t: DevTask, t': InferenceTask)
    ensures SlashFree(Framework(t)) && SlashFree(Section(t'))
    ensures Framework(t) != "" ==> Framework(t) != Section(t')
  {
  }

  lemma BaseParts(framework: string, name: string)
    requires SlashFree(framework) && SlashFree(name)
    ensures Split(Base(framework, name)) == ["", framework, name]
  {
    assert Base(framework, name) == "" + "/" + (framework + "/" + name);
    SplitHead("", framework + "/" + name);
    SplitHead(framework, name);
    SplitWhole(name);
  }

  lemma BaseTrims(framework: string, name: string)
    requires SlashFree(name) && name != ""
    ensures Trim(Base(framework, name)) == Base(framework, name)
    ensures Trim(Base(framework, name) + "/") == Base(framework, name)
  {
    var b := Base(framework, name);
    assert b[|b|-1] == name[|name|-1];
    assert (b + "/")[..|b|] == b;
  }

  /** The prefix of a path's first rule, and for noVNC the WebSocket rule's, end in these elements. */
  lemma RulePrefixes(t: DevTask, backend: Backend, i: nat)
    requires Plain(t) && i < |RouteOf(t, backend).rules|
    ensures ["", Framework(t), t.name] <= Split(Trim(RouteOf(t, backend).rules[i].prefix))
  {
    var base := Base(Framework(t), t.name);
    FrameworksSlashFree(t, InferenceTask("", "", "", "", "", None, None, None));
    BaseParts(Framework(t), t.name);
    BaseTrims(Framework(t), t.name);
    if i == 1 {
      var ws := RoutePath(t) + "websockify";
      assert ws == base + "/" + "websockify";
      assert ws[|ws|-1] == 'y';
      SplitAt(base, "websockify");
    }
  }

  /** A plain task's route takes only paths below its framework and name. */
  lemma TakenIsBelow(t: DevTask, backend: Backend, path: string)
    requires Plain(t) && Takes(RouteOf(t, backend), path)
    ensures ["", Framework(t), t.name] <= Split(path)
  {
    var i :| 0 <= i < |RouteOf(t, backend).rules| && Matches(RouteOf(t, backend).rules[i].prefix, path);
    RulePrefixes(t, backend, i);
  }

  lemma InferenceTakenIsBelow(t: InferenceTask, service: string, port: int, path: string)
    requires InferencePlain(t) && Takes(InferenceRoute(t, service, port), path)
    ensures ["", Section(t), t.name] <= Split(path)
  {
    FrameworksSlashFree(DevTask("", "", None, None, None), t);
    BaseParts(Section(t), t.name);
    BaseTrims(Section(t), t.name);
    OneRule(InferenceRoute(t, service, port), path);
  }

  lemma SameElements(a: seq<string>, b: seq<string>, whole: seq<string>)
    requires a <= whole && b <= whole && |a| == |b|
    ensures a == b
  {
  }

  /** No request path is taken by the default routes of two DevTasks with different names. */
  lemma DevRoutesDisjoint(t: DevTask, t': DevTask, backend: Backend, backend': Backend, path: string)
    requires Plain(t) && Plain(t') && t.name != t'.name
    ensures !(Takes(RouteOf(t, backend), path) && Takes(RouteOf(t', backend'), path))
  {
    if Takes(RouteOf(t, backend), path) && Takes(RouteOf(t', backend'), path) {
      TakenIsBelow(t, backend, path);
      TakenIsBelow(t', backend', path);
      SameElements(["", Framework(t), t.name], ["", Framework(t'), t'.name], Split(path));
    }
  }

  lemma InferenceRoutesDisjoint(t: InferenceTask, t': InferenceTask, s: string, s': string, p: int, p': int,
                                path: string)
    requires InferencePlain(t) && InferencePlain(t') && t.name != t'.name
    ensures !(Takes(InferenceRoute(t, s, p), path) && Takes(InferenceRoute(t', s', p'), path))
  {
    if Takes(InferenceRoute(t, s, p), path) && Takes(InferenceRoute(t', s', p'), path) {
      InferenceTakenIsBelow(t, s, p, path);
      InferenceTakenIsBelow(t', s', p', path);
      SameElements(["", Section(t), t.name], ["", Section(t'), t'.name], Split(path));
    }
  }

  /** Nor by those of a DevTask and an InferenceTask, even of the same name. */
  lemma KindsDisjoint(t: DevTask, t': InferenceTask, backend: Backend, s: string, p: int, path: string)
    requires Plain(t) && InferencePlain(t')
    ensures !(Takes(RouteOf(t, backend), path) && Takes(InferenceRoute(t', s, p), path))
  {
    if Takes(RouteOf(t, backend), path) && Takes(InferenceRoute(t', s, p), path) {
      TakenIsBelow(t, backend, path);
      InferenceTakenIsBelow(t', s, p, path);
      FrameworksSlashFree(t, t');
      SameElements(["", Framework(t), t.name], ["", Section(t'), t'.name], Split(path));
    }
  }

  /* ------------------------------ Exactly when routes overlap ------------------------------ */

  /** The elements of one prefix begin those of the other. */
  predicate Related(p: string, q: string) {
    Split(Trim(p)) <= Split(Trim(q)) || Split(Trim(q)) <= Split(Trim(p))
  }

  predicate Rooted(path: string) { path != "" && path[0] == '/' }

  lemma NestedMeet(p: string, q: string)
    requires Split(Trim(p)) <= Split(Trim(q)) && Rooted(q)
    ensures exists path :: Rooted(path) && Matches(p, path) && Matches(q, path)
  {
    var path := Trim(q) + "/" + "";
    MatchesBelow(q, "");
    SplitAt(Trim(q), "");
    assert Split(Trim(p)) <= Split(path);
    assert Rooted(path);
  }

  /** Two prefixes match a common path if and only if one is nested in the other. */
  lemma PrefixesMeet(p: string, q: string)
    requires Rooted(p) && Rooted(q)
    ensures (exists path :: Rooted(path) && Matches(p, path) && Matches(q, path)) <==> Related(p, q)
  {
    if Split(Trim(p)) <= Split(Trim(q)) { NestedMeet(p, q); }
    else if Split(Trim(q)) <= Split(Trim(p)) { NestedMeet(q, p); }
  }

  /** A hostname that starts with `*.` stands for every name with more in front of the dot. */
  predicate Wild(h: string) { "*." <= h }

  predicate EndsIn(host: string, tail: string) { |tail| <= |host| && host[|host|-|tail|..] == tail }

  predicate HostMatches(h: string, host: string) {
    if Wild(h) then EndsIn(host, h[1..]) && |host| >= |h| else host == h
  }

  /** Equal names, a name a wildcard stands for, or wildcards one of which is nested in the other. */
  predicate HostsRelated(h: string, g: string) {
    if Wild(h) && Wild(g) then EndsIn(h[1..], g[1..]) || EndsIn(g[1..], h[1..])
    else if Wild(h) then HostMatches(h, g)
    else HostMatches(g, h)
  }

  lemma TailsNest(host: string, a: string, b: string)
    requires EndsIn(host, a) && EndsIn(host, b) && |a| <= |b|
    ensures EndsIn(b, a)
  {
    assert b == host[|host|-|b|..] && a == host[|host|-|a|..];
    assert b[|b|-|a|..] == a;
  }

  lemma TailsChain(host: string, a: string, b: string)
    requires EndsIn(host, b) && EndsIn(b, a)
    ensures EndsIn(host, a)
  {
    assert host[|host|-|a|..] == host[|host|-|b|..][|b|-|a|..];
  }

  /** Both wildcards, `g` the longer one, stand for a name below `g`. */
  lemma WildMeet(h: string, g: string)
    requires Wild(h) && Wild(g) && EndsIn(g[1..], h[1..])
    ensures HostMatches(g, "x" + g[1..]) && HostMatches(h, "x" + g[1..])
  {
    var host := "x" + g[1..];
    assert host[1..] == g[1..];
    TailsChain(host, h[1..], g[1..]);
  }

  lemma HostnamesMeet(h: string, g: string)
    ensures (exists host :: HostMatches(h, host) && HostMatches(g, host)) <==> HostsRelated(h, g)
  {
    if Wild(h) && Wild(g) {
      forall host | HostMatches(h, host) && HostMatches(g, host) ensures HostsRelated(h, g) {
        if |h| <= |g| { TailsNest(host, h[1..], g[1..]); } else { TailsNest(host, g[1..], h[1..]); }
      }
      if EndsIn(g[1..], h[1..]) { WildMeet(h, g); }
      else if EndsIn(h[1..], g[1..]) { WildMeet(g, h); }
    } else if Wild(h) {
      assert HostMatches(g, g);
    } else {
      assert HostMatches(h, h);
    }
  }

  /** A route without hostnames serves every host. */
  predicate ServesHost(route: Route, host: string) {
    route.hostnames == [] || exists i :: 0 <= i < |route.hostnames| && HostMatches(route.hostnames[i], host)
  }

  /** The route takes the request. */
  predicate TakesRequest(route: Route, host: string, path: string) {
    Rooted(path) && ServesHost(route, host) && Takes(route, path)
  }

  /** The DevTask's routing section names no hostname, or one that stands for this host. */
  predicate AsksFor(t: DevTask, host: string) {
    match RoutingConfig(t)
    case None => true
    case Some(cfg) =>
      |cfg.hostnames| == 0 || exists i :: 0 <= i < |cfg.hostnames| && HostMatches(cfg.hostnames[i], host)
  }

  /** A DevTask's route serves exactly the hosts its routing section asks for. */
  lemma ServesAsked(t: DevTask, backend: Backend, host: string)
    ensures ServesHost(RouteOf(t, backend), host) <==> AsksFor(t, host)
  {
    var route := RouteOf(t, backend);
    if AsksFor(t, host) && route.hostnames != [] {
      var i :| 0 <= i < |RoutingConfig(t).value.hostnames| && HostMatches(RoutingConfig(t).value.hostnames[i], host);
      assert HostMatches(route.hostnames[i], host);
    }
  }

  predicate HostsOverlap(r: Route, r': Route) {
    || r.hostnames == [] || r'.hostnames == []
    || exists i, j :: 0 <= i < |r.hostnames| && 0 <= j < |r'.hostnames| && HostsRelated(r.hostnames[i], r'.hostnames[j])
  }

  predicate PathsOverlap(r: Route, r': Route) {
    exists i, j :: 0 <= i < |r.rules| && 0 <= j < |r'.rules| && Related(r.rules[i].prefix, r'.rules[j].prefix)
  }

  /** Gateway API accepts prefixes that start with a slash only. */
  predicate Proper(route: Route) { forall i :: 0 <= i < |route.rules| ==> Rooted(route.rules[i].prefix) }

  lemma SomeHost(h: string)
    ensures exists host :: HostMatches(h, host)
  {
    HostnamesMeet(h, h);
    assert EndsIn(h, h);
    if Wild(h) { assert EndsIn(h[1..], h[1..]); }
  }

  lemma HostsMeet(r: Route, r': Route)
    ensures (exists host :: ServesHost(r, host) && ServesHost(r', host)) <==> HostsOverlap(r, r')
  {
    forall host | ServesHost(r, host) && ServesHost(r', host) ensures HostsOverlap(r, r') {
      if r.hostnames != [] && r'.hostnames != [] {
        var i :| 0 <= i < |r.hostnames| && HostMatches(r.hostnames[i], host);
        var j :| 0 <= j < |r'.hostnames| && HostMatches(r'.hostnames[j], host);
        HostnamesMeet(r.hostnames[i], r'.hostnames[j]);
      }
    }
    if HostsOverlap(r, r') { CommonHost(r, r'); }
  }

  lemma CommonHost(r: Route, r': Route)
    requires HostsOverlap(r, r')
    ensures exists host :: ServesHost(r, host) && ServesHost(r', host)
  {
    if r.hostnames == [] && r'.hostnames == [] {
      assert ServesHost(r, "") && ServesHost(r', "");
    } else if r.hostnames == [] {
      SomeHost(r'.hostnames[0]);
      var host :| HostMatches(r'.hostnames[0], host);
      assert ServesHost(r, host) && ServesHost(r', host);
    } else if r'.hostnames == [] {
      SomeHost(r.hostnames[0]);
      var host :| HostMatches(r.hostnames[0], host);
      assert ServesHost(r, host) && ServesHost(r', host);
    } else {
      var i, j :| 0 <= i < |r.hostnames| && 0 <= j < |r'.hostnames| && HostsRelated(r.hostnames[i], r'.hostnames[j]);
      HostnamesMeet(r.hostnames[i], r'.hostnames[j]);
      var host :| HostMatches(r.hostnames[i], host) && HostMatches(r'.hostnames[j], host);
      assert ServesHost(r, host) && ServesHost(r', host);
    }
  }

  lemma PathsMeet(r: Route, r': Route)
    requires Proper(r) && Proper(r')
    ensures (exists path :: Rooted(path) && Takes(r, path) && Takes(r', path)) <==> PathsOverlap(r, r')
  {
    forall path | Rooted(path) && Takes(r, path) && Takes(r', path) ensures PathsOverlap(r, r') {
      var i :| 0 <= i < |r.rules| && Matches(r.rules[i].prefix, path);
      var j :| 0 <= j < |r'.rules| && Matches(r'.rules[j].prefix, path);
      PrefixesMeet(r.rules[i].prefix, r'.rules[j].prefix);
    }
    if PathsOverlap(r, r') {
      var i, j :| 0 <= i < |r.rules| && 0 <= j < |r'.rules| && Related(r.rules[i].prefix, r'.rules[j].prefix);
      PrefixesMeet(r.rules[i].prefix, r'.rules[j].prefix);
      var path :| Rooted(path) && Matches(r.rules[i].prefix, path) && Matches(r'.rules[j].prefix, path);
      assert Takes(r, path) && Takes(r', path);
    }
  }

  /** Some request is taken by both of two routes, custom paths and hostnames included, if and only if a
      hostname of one is related to one of the other and so is a prefix. */
  lemma RoutesOverlap(r: Route, r': Route)
    requires Proper(r) && Proper(r')
    ensures (exists host, path :: TakesRequest(r, host, path) && TakesRequest(r', host, path))
       <==> HostsOverlap(r, r') && PathsOverlap(r, r')
  {
    HostsMeet(r, r');
    PathsMeet(r, r');
    if HostsOverlap(r, r') && PathsOverlap(r, r') {
      var host :| ServesHost(r, host) && ServesHost(r', host);
      var path :| Rooted(path) && Takes(r, path) && Takes(r', path);
      assert TakesRequest(r, host, path) && TakesRequest(r', host, path);
    }
  }

  /** The path ends with a slash, or there is no second rule. */
  predicate Tidy(t: DevTask) { Framework(t) == "novnc" ==> RoutePath(t)[|RoutePath(t)|-1] == '/' }

  /** One more element: what is related to the longer path is related to the shorter one. */
  lemma ElementBelow(p: string, element: string, q: string)
    requires p != "" && p[|p|-1] == '/' && SlashFree(element) && element != "" && Related(p + element, q)
    ensures Related(p, q)
  {
    var longer := p + element;
    assert longer[|longer|-1] == element[|element|-1];
    assert Trim(longer) == longer == Trim(p) + "/" + element;
    SplitAt(Trim(p), element);
    SplitWhole(element);
    MoreNested(Split(Trim(p)), element, Split(Trim(q)));
  }

  lemma MoreNested(a: seq<string>, element: string, b: seq<string>)
    requires a + [element] <= b || b <= a + [element]
    ensures a <= b || b <= a
  {
    if b <= a + [element] && |b| <= |a| { assert b == (a + [element])[..|b|] == a[..|b|]; }
  }

  lemma SecondRuleBelow(t: DevTask, backend: Backend, i: nat, q: string)
    requires Tidy(t) && i < |RouteOf(t, backend).rules| && Related(RouteOf(t, backend).rules[i].prefix, q)
    ensures Related(RoutePath(t), q)
  {
    if i == 1 { ElementBelow(RoutePath(t), "websockify", q); }
  }

  /** For DevTasks the paths decide, custom or default: the second rule of a noVNC route adds nothing as
      long as the path ends with a slash. */
  lemma DevPathsOverlap(t: DevTask, t': DevTask, backend: Backend, backend': Backend)
    requires Tidy(t) && Tidy(t')
    ensures PathsOverlap(RouteOf(t, backend), RouteOf(t', backend')) <==> Related(RoutePath(t), RoutePath(t'))
  {
    var r, r' := RouteOf(t, backend), RouteOf(t', backend');
    if PathsOverlap(r, r') {
      var i, j :| 0 <= i < |r.rules| && 0 <= j < |r'.rules| && Related(r.rules[i].prefix, r'.rules[j].prefix);
      SecondRuleBelow(t, backend, i, r'.rules[j].prefix);
      SecondRuleBelow(t', backend', j, RoutePath(t));
    }
    if Related(RoutePath(t), RoutePath(t')) {
      assert Related(r.rules[0].prefix, r'.rules[0].prefix);
    }
  }

  /* ------------------------------ Published URLs ------------------------------ */

  /** A task's own route takes every path at or below its published path, also below the path without
      the trailing slash that the API type publishes, whatever the prefix. */
  lemma OwnRouteCovers(t: DevTask, backend: Backend, rest: string)
    requires Framework(t) != ""
    ensures Takes(RouteOf(t, backend), RoutePath(t)) && Takes(RouteOf(t, backend), FallbackPath(t))
    ensures Takes(RouteOf(t, backend), FallbackPath(t) + "/" + rest)
    ensures Takes(RouteOf(t, backend), Trim(RoutePath(t)) + "/" + rest)
    ensures !CustomPath(RoutingConfig(t)) ==> Takes(RouteOf(t, backend), RoutePath(t) + rest)
  {
    var p := RoutePath(t);
    assert RouteOf(t, backend).rules[0].prefix == p;
    Covers(p, rest);
    MatchesBelow(p, rest);
    if !CustomPath(RoutingConfig(t)) {
      assert FallbackPath(t) + "/" == p && Trim(p) == FallbackPath(t);
      MatchesBelow(p, rest);
      assert FallbackPath(t) + "/" + rest == p + rest;
    }
  }

  /** Any prefix takes itself and what is below it. */
  lemma Covers(prefix: string, rest: string)
    ensures Matches(prefix, prefix) && Matches(prefix, prefix + "/" + rest)
  {
    MatchesBelow(prefix, "");
    if Trim(prefix) == prefix {
      MatchesBelow(prefix, rest);
    } else {
      assert prefix == Trim(prefix) + "/" + "";
      assert prefix + "/" + rest == Trim(prefix) + "/" + ("/" + rest);
      MatchesBelow(prefix, "/" + rest);
    }
  }

  lemma InferenceRouteCovers(t: InferenceTask, service: string, port: int, rest: string)
    ensures Takes(InferenceRoute(t, service, port), InferencePath(t))
    ensures Takes(InferenceRoute(t, service, port), InferencePath(t) + "/" + rest)
  {
    assert InferenceRoute(t, service, port).rules[0].prefix == InferencePath(t);
    Covers(InferencePath(t), rest);
  }

  /** An InferenceTask's backend never sees the task's path: every request for the path or below it reaches
      it, at its one backend, with the path replaced by a slash, whatever the host. */
  lemma InferenceSees(t: InferenceTask, service: string, port: int, host: string, rest: string)
    ensures var route := InferenceRoute(t, service, port);
            && BackendSees(route, Trim(InferencePath(t))) == Some("/")
            && BackendSees(route, Trim(InferencePath(t)) + "/" + rest) == Some("/" + rest)
            && ServesHost(route, host)
            && (forall rule :: rule in route.rules ==> rule.backend == Backend(service, port))
            && route.name == InfChildName(InferenceFramework(t), t.name)
  {
    var route := InferenceRoute(t, service, port);
    MatchesBelow(InferencePath(t), rest);
    OneRule(route, Trim(InferencePath(t)));
    OneRule(route, Trim(InferencePath(t)) + "/" + rest);
  }

  /* ------------------------------ Base paths ------------------------------ */

  /** The path the tool in the container is told it is served under. */
  function ToolBase(t: DevTask): string {
    if Framework(t) == "codeserver" then "/" else Base(Framework(t), t.name)
  }

  predicate StandsAt(args: seq<string>, words: seq<string>, i: nat) {
    i + |words| <= |args| && args[i..i + |words|] == words
  }

  /** `words` stand next to each other in `args`. */
  ghost predicate Says(args: seq<string>, words: seq<string>) { exists i: nat :: StandsAt(args, words, i) }

  lemma SaysAmid(before: seq<string>, args: seq<string>, after: seq<string>, words: seq<string>)
    requires Says(args, words)
    ensures Says(before + args + after, words)
  {
    var i: nat :| StandsAt(args, words, i);
    assert (before + args + after)[|before| + i..|before| + i + |words|] == args[i..i + |words|];
    assert StandsAt(before + args + after, words, |before| + i);
  }

  lemma SaysItself(words: seq<string>)
    ensures Says(words, words)
  {
    assert StandsAt(words, words, 0);
  }

  method AppendCodeServer(args0: seq<string>, tool: Tool) returns (args: seq<string>)
    ensures args == args0 + tool.args + ["--host", "0.0.0.0"]
                    + (if tool.password != "" then ["--password", tool.password] else ["--auth", "none"])
                    + (if tool.folder != "" then ["--workspace", tool.folder] else [])
                    + ["--abs-proxy-base-path", "/"]
    ensures args0 + tool.args <= args && Says(args, ["--abs-proxy-base-path", "/"])
  {
    args := args0 + tool.args;
    args := args + ["--host", "0.0.0.0"];
    if tool.password != "" {
      args := args + ["--password", tool.password];
    } else {
      args := args + ["--auth", "none"];
    }
    if tool.folder != "" {
      args := args + ["--workspace", tool.folder];
    }
    SaysItself(["--abs-proxy-base-path", "/"]);
    SaysAmid(args, ["--abs-proxy-base-path", "/"], [], ["--abs-proxy-base-path", "/"]);
    args := args + ["--abs-proxy-base-path", "/"];
    assert args + [] == args;
  }

  method AppendJupyter(args0: seq<string>, tool: Tool, framework: string, name: string) returns (args: seq<string>)
    ensures args == args0 + tool.args
                    + (if tool.folder != "" then ["--NotebookApp.notebook_dir=" + tool.folder] else [])
                    + ["--ServerApp.base_url=" + ("/" + framework + "/" + name)]
                    + ["--ServerApp.token=''", "--ServerApp.allow_root=True"]
    ensures args0 + tool.args <= args && Says(args, ["--ServerApp.base_url=" + Base(framework, name)])
  {
    args := args0 + tool.args;
    if tool.folder != "" {
      args := args + ["--NotebookApp.notebook_dir=" + tool.folder];
    }
    var baseURL := "/" + framework + "/" + name;
    ghost var before, word := args, ["--ServerApp.base_url=" + baseURL];
    args := args + ["--ServerApp.base_url=" + baseURL];
    args := args + ["--ServerApp.token=''"];
    args := args + ["--ServerApp.allow_root=True"];
    SaysItself(word);
    SaysAmid(before, word, ["--ServerApp.token=''", "--ServerApp.allow_root=True"], word);
    assert args == before + word + ["--ServerApp.token=''", "--ServerApp.allow_root=True"];
  }

  lemma SaysOn(args: seq<string>, longer: seq<string>, words: seq<string>)
    requires args <= longer && Says(args, words)
    ensures Says(longer, words)
  {
    SaysAmid([], args, longer[|args|..], words);
    assert longer == [] + args + longer[|args|..];
  }

  /** The argument list of a DevTask's container tells the tool its base path. */
  method BuildDevContainer(t: DevTask) returns (args: seq<string>)
    ensures Framework(t) == "codeserver" || Framework(t) == "jupyter" ==> Says(args, BaseWords(t))
    ensures ToolOf(t).Some? ==> ToolOf(t).value.args <= args
  {
    args := [];
    ghost var code, jupyter := [], [];
    if t.codeServer.Some? {
      args := AppendCodeServer(args, t.codeServer.value);
      code := args;
    }
    if t.jupyter.Some? {
      args := AppendJupyter(args, t.jupyter.value, Framework(t), t.name);
      jupyter := args;
    }
    if t.noVNC.Some? {
      args := args + t.noVNC.value.args;
    }
    assert code <= args && jupyter <= args;
    if t.codeServer.Some? { SaysOn(code, args, BaseWords(t)); }
    else if t.jupyter.Some? { SaysOn(jupyter, args, BaseWords(t)); }
  }

  function BaseWords(t: DevTask): seq<string> {
    if Framework(t) == "codeserver" then ["--abs-proxy-base-path", ToolBase(t)]
    else ["--ServerApp.base_url=" + ToolBase(t)]
  }

  /** A path is below a base: the base itself, or the base, a slash and a rest. */
  predicate Below(base: string, path: string) { Split(Trim(base)) <= Split(path) }

  lemma PlainPath(t: DevTask, rest: string)
    requires Plain(t)
    ensures Trim(RoutePath(t)) == FallbackPath(t) == Base(Framework(t), t.name)
    ensures RoutePath(t) + rest == Trim(RoutePath(t)) + "/" + rest
  {
    BaseTrims(Framework(t), t.name);
  }

  /** For every request below the default path, code-server sees its base path and the rest, and
      Jupyter, whose requests are not rewritten, sees its base path, a slash and the rest. */
  lemma BasePathAgrees(t: DevTask, backend: Backend, rest: string)
    requires Plain(t) && (Framework(t) == "codeserver" || Framework(t) == "jupyter")
    ensures BackendSees(RouteOf(t, backend), RoutePath(t) + rest)
         == Some(if Framework(t) == "codeserver" then ToolBase(t) + rest else ToolBase(t) + "/" + rest)
    ensures BackendSees(RouteOf(t, backend), FallbackPath(t)) == Some(ToolBase(t))
  {
    PlainPath(t, rest);
    MatchesBelow(RoutePath(t), rest);
    OneRule(RouteOf(t, backend), RoutePath(t) + rest);
    OneRule(RouteOf(t, backend), FallbackPath(t));
  }

  /** With a custom path Jupyter still sees only paths below its base path if and only if the custom
      path is itself below it. */
  lemma CustomPathAgrees(t: DevTask, backend: Backend)
    requires Framework(t) == "jupyter"
    ensures (forall path :: Takes(RouteOf(t, backend), path) ==>
               BackendSees(RouteOf(t, backend), path).Some?
               && Below(ToolBase(t), BackendSees(RouteOf(t, backend), path).value))
       <==> Below(ToolBase(t), Trim(RoutePath(t)))
  {
    var route := RouteOf(t, backend);
    var base, p := Trim(RoutePath(t)), RoutePath(t);
    OneRule(route, base);
    if Below(ToolBase(t), base) {
      forall path | Takes(route, path)
        ensures BackendSees(route, path).Some? && Below(ToolBase(t), BackendSees(route, path).value)
      {
        OneRule(route, path);
        PrefixesChain(Split(Trim(ToolBase(t))), Split(base), Split(path));
      }
    } else {
      MatchesBelow(p, "");
      assert Takes(route, base) && BackendSees(route, base) == Some(base);
    }
  }

  lemma PrefixesChain(a: seq<string>, b: seq<string>, c: seq<string>)
    requires a <= b <= c
    ensures a <= c
  {
  }

  /** Of a route's two rules the one with the longer prefix serves what both match. */
  lemma TwoRules(route: Route, path: string)
    requires |route.rules| == 2 && |route.rules[0].prefix| < |route.rules[1].prefix|
    requires route.rules[0].rewrite && route.rules[1].rewrite
    ensures Matches(route.rules[1].prefix, path) ==>
              BackendSees(route, path) == Some(Rewritten(route.rules[1].prefix, path))
    ensures !Matches(route.rules[1].prefix, path) && Matches(route.rules[0].prefix, path) ==>
              BackendSees(route, path) == Some(Rewritten(route.rules[0].prefix, path))
  {
    BestOfOne(route.rules[1], path);
    assert route.rules[1..] == [route.rules[1]];
    assert Best(route.rules, path) ==
      if Matches(route.rules[0].prefix, path) && Best([route.rules[1]], path) == None then Some(route.rules[0])
      else Best([route.rules[1]], path);
  }

  /** noVNC: a WebSocket request goes to the backend's root, any other request below the default path to
      the rest of its path. */
  lemma NoVNCSees(t: DevTask, backend: Backend, rest: string)
    requires Plain(t) && Framework(t) == "novnc"
    ensures BackendSees(RouteOf(t, backend), RoutePath(t) + "websockify") == Some("/")
    ensures Split(rest)[0] != "websockify" ==> BackendSees(RouteOf(t, backend), RoutePath(t) + rest) == Some("/" + rest)
  {
    var route := RouteOf(t, backend);
    var p, ws := RoutePath(t), RoutePath(t) + "websockify";
    PlainPath(t, rest);
    PlainPath(t, "websockify");
    assert ws[|ws|-1] == 'y' && Trim(ws) == ws;
    MatchesBelow(ws, "");
    MatchesBelow(p, rest);
    TwoRules(route, ws);
    TwoRules(route, p + rest);
    if Split(rest)[0] != "websockify" { OtherElement(Trim(p), "websockify", rest); }
  }

  lemma OtherElement(base: string, element: string, rest: string)
    requires SlashFree(element) && Split(rest)[0] != element
    ensures !(Split(base + "/" + element) <= Split(base + "/" + rest))
  {
    SplitAt(base, element);
    SplitWhole(element);
    SplitAt(base, rest);
    var n := |Split(base)|;
    assert Split(base + "/" + element)[n] == element && Split(base + "/" + rest)[n] == Split(rest)[0];
  }

  /** The WebSocket rule is below the task's own path if and only if that path ends with a slash, as
      the default does; a custom path without one publishes it beside the path. */
  lemma WebsockifyBelow(t: DevTask)
    ensures Matches(RoutePath(t), RoutePath(t) + "websockify") <==> RoutePath(t)[|RoutePath(t)|-1] == '/'
  {
    var p := RoutePath(t);
    if p[|p|-1] == '/' {
      assert p + "websockify" == Trim(p) + "/" + "websockify";
      MatchesBelow(p, "websockify");
    } else {
      SplitTail(p, "websockify");
      var n := |Split(p)|;
      assert Split(p + "websockify")[n-1] == Split(p)[n-1] + "websockify";
      assert |Split(p + "websockify")[n-1]| > |Split(p)[n-1]|;
    }
  }
}
