/** External URLs: where a task can be reached, looked up in the cluster and printed. */
module Gateways {
  import opened Cluster
  import opened Specs
  import opened Urls

  datatype Listener = Listener(protocol: string, port: int)
  datatype Gateway = Gateway(addresses: seq<string>, listeners: seq<Listener>)
  datatype ServicePort = ServicePort(protocol: string, port: int, nodePort: int)
  datatype Ingress = Ingress(ip: string, hostname: string)
  datatype Service = Service(ports: seq<ServicePort>, ingress: seq<Ingress>)
  datatype Ref = Ref(name: string, namespace: string)

  /** What the lookups find; a failed read counts like a missing object.  `hostIP` is the address of the
      machine the operator runs on. */
  datatype Net = Net(gateways: map<Ref, Gateway>, services: map<Ref, Service>, hostIP: string)

  /* ------------------------------ First of a list ------------------------------ */

  ghost predicate IsFirst<T(!new)>(s: seq<T>, good: T -> bool, i: int) {
    0 <= i < |s| && good(s[i]) && forall j :: 0 <= j < i ==> !good(s[j])
  }

  ghost predicate Nowhere<T(!new)>(s: seq<T>, good: T -> bool) {
    forall j :: 0 <= j < |s| ==> !good(s[j])
  }

  /** `r` is what `value` is for the first good element; there is no `r` if none is good. */
  ghost predicate FirstValue<T(!new), U(!new)>(s: seq<T>, good: T -> bool, value: T -> U, r: Option<U>) {
    match r
    case Some(u) => exists i :: IsFirst(s, good, i) && value(s[i]) == u
    case None => Nowhere(s, good)
  }

  predicate HasNodePort(p: ServicePort) { p.nodePort != 0 }

  predicate IsTCP(p: ServicePort) { p.protocol == "TCP" }

  predicate IsTCPNode(p: ServicePort) { IsTCP(p) && HasNodePort(p) }

  predicate IsWeb(p: ServicePort) { p.port == 80 || p.port == 443 }

  predicate IsHTTP(l: Listener) { l.protocol == "HTTP" }

  function NodePort(p: ServicePort): int { p.nodePort }

  function PortNumber(p: ServicePort): int { p.port }

  function ListenerPort(l: Listener): int { l.port }

  function Ports(net: Net, service: Ref): seq<ServicePort> {
    if service in net.services then net.services[service].ports else []
  }

  function Listeners(net: Net, gateway: Ref): seq<Listener> {
    if gateway in net.gateways then net.gateways[gateway].listeners else []
  }

  /** The node port of the first port of the service that has one. */
  method GetTraefikNodePort(net: Net, namespace: string) returns (port: Option<int>)
    ensures FirstValue(Ports(net, Ref("traefik", namespace)), HasNodePort, NodePort, port)
  {
    var service := Ref("traefik", namespace);
    if service !in net.services { return None; }
    var ports := net.services[service].ports;
    for i := 0 to |ports|
      invariant forall j :: 0 <= j < i ==> ports[j].nodePort == 0
    {
      if ports[i].nodePort != 0 {
        assert IsFirst(ports, HasNodePort, i);
        return Some(ports[i].nodePort);
      }
    }
    return None;
  }

  /** The first address of a gateway, empty when there is none. */
  function GatewayAddress(net: Net, gateway: Ref): string {
    if gateway in net.gateways && net.gateways[gateway].addresses != [] then net.gateways[gateway].addresses[0] else ""
  }

  method GetListenerPort(net: Net, gateway: Ref) returns (port: Option<int>)
    ensures FirstValue(Listeners(net, gateway), IsHTTP, ListenerPort, port)
  {
    if gateway !in net.gateways { return None; }
    var listeners := net.gateways[gateway].listeners;
    for i := 0 to |listeners|
      invariant forall j :: 0 <= j < i ==> listeners[j].protocol != "HTTP"
    {
      if listeners[i].protocol == "HTTP" {
        assert IsFirst(listeners, IsHTTP, i);
        return Some(listeners[i].port);
      }
    }
    return None;
  }

  /** The first TCP node port; without one, the first TCP port. */
  method GetTraefikServicePort(net: Net, namespace: string) returns (port: Option<int>)
    ensures var ports := Ports(net, Ref("traefik", namespace));
            if Nowhere(ports, IsTCPNode)
            then FirstValue(ports, IsTCP, PortNumber, port)
            else FirstValue(ports, IsTCPNode, NodePort, port)
  {
    var service := Ref("traefik", namespace);
    if service !in net.services { return None; }
    var ports := net.services[service].ports;
    for i := 0 to |ports|
      invariant forall j :: 0 <= j < i ==> !(ports[j].protocol == "TCP" && ports[j].nodePort != 0)
    {
      if ports[i].protocol == "TCP" {
        if ports[i].nodePort != 0 {
          assert IsFirst(ports, IsTCPNode, i);
          assert !Nowhere(ports, IsTCPNode);
          return Some(ports[i].nodePort);
        }
      }
    }
    for i := 0 to |ports|
      invariant forall j :: 0 <= j < i ==> ports[j].protocol != "TCP"
    {
      if ports[i].protocol == "TCP" {
        assert IsFirst(ports, IsTCP, i);
        return Some(ports[i].port);
      }
    }
    return None;
  }

  /** The load balancer's first address or name. */
  function ServiceAddress(net: Net, service: Ref): string {
    if service in net.services && net.services[service].ingress != [] then
      var first := net.services[service].ingress[0];
      if first.ip != "" then first.ip else first.hostname
    else ""
  }

  method GetHostnames(t: DevTask) returns (hostnames: seq<string>)
    ensures hostnames == if RoutingConfig(t).Some? then RoutingConfig(t).value.hostnames else []
  {
    hostnames := [];
    var cfg := RoutingConfig(t);
    if cfg.Some? {
      for i := 0 to |cfg.value.hostnames|
        invariant hostnames == cfg.value.hostnames[..i]
      {
        hostnames := hostnames + [cfg.value.hostnames[i]];
      }
    }
  }

  /* ------------------------------ DevTask URLs ------------------------------ */

  /** A host set in the task's own routing section. */
  predicate FixedHost(t: DevTask) {
    RoutingConfig(t).Some? && (|RoutingConfig(t).value.hostnames| > 0 || RoutingConfig(t).value.externalHost != "")
  }

  function FixedURL(t: DevTask): string
    requires FixedHost(t)
  {
    var cfg := RoutingConfig(t).value;
    var port := cfg.externalPort;
    if |cfg.hostnames| > 0 then
      var scheme := if port == 443 then "https" else "http";
      Shown(scheme, cfg.hostnames[0], if port == 0 || port == 80 then None else Some(port), RoutePath(t))
    else
      var p := if port == 0 then 80 else port;
      var scheme := if p == 443 then "https" else "http";
      Shown(scheme, cfg.externalHost, if p == 80 || p == 443 then None else Some(p), RoutePath(t))
  }

  function ExternalURL(t: DevTask): string {
    if !NeedsRouting(t) then ""
    else if FixedHost(t) then FixedURL(t)
    else
      var cfg := RoutingConfig(t);
      var port := if cfg.Some? && cfg.value.gatewayPort > 0 then cfg.value.gatewayPort else 80;
      Shown("http", GatewayName(t) + "." + GatewayNamespace(t) + ".svc",
            if port == 80 then None else Some(port), RoutePath(t))
  }

  /** The printed URLs of a host set in the routing section: the ports that go without saying, and https for
      port 443, which is said after a hostname and not after an external host. */
  lemma FixedShown(t: DevTask)
    requires NeedsRouting(t) && FixedHost(t)
    ensures var cfg := RoutingConfig(t).value;
            var p := cfg.externalPort;
            if |cfg.hostnames| > 0 then
              var h := cfg.hostnames[0];
              && (p == 0 || p == 80 ==> ExternalURL(t) == "http://" + h + RoutePath(t))
              && (p == 443 ==> ExternalURL(t) == "https://" + h + (":" + Printed(443)) + RoutePath(t))
              && (p !in {0, 80, 443} ==> ExternalURL(t) == "http://" + h + (":" + Printed(p)) + RoutePath(t))
            else
              var h := cfg.externalHost;
              && (p == 0 || p == 80 ==> ExternalURL(t) == "http://" + h + RoutePath(t))
              && (p == 443 ==> ExternalURL(t) == "https://" + h + RoutePath(t))
              && (p !in {0, 80, 443} ==> ExternalURL(t) == "http://" + h + (":" + Printed(p)) + RoutePath(t))
  {
    var cfg := RoutingConfig(t).value;
    assert "http" + "://" == "http://" && "https" + "://" == "https://";
    var h := if |cfg.hostnames| > 0 then cfg.hostnames[0] else cfg.externalHost;
    assert h + Colon(None) == h;
    Bracketed("http", h, Colon(Some(cfg.externalPort)), RoutePath(t));
    Bracketed("https", h, Colon(Some(443)), RoutePath(t));
  }

  lemma Bracketed(scheme: string, h: string, port: string, path: string)
    ensures scheme + "://" + (h + port) + path == scheme + "://" + h + port + path
  {
  }

  /** What an address is read from: a gateway's first address, a load balancer's first ingress, its IP before
      its name. */
  lemma AddressesRead(net: Net, r: Ref, g: Gateway, s: Service)
    ensures r !in net.gateways ==> GatewayAddress(net, r) == ""
    ensures r in net.gateways && net.gateways[r] == g ==>
              GatewayAddress(net, r) == if |g.addresses| > 0 then g.addresses[0] else ""
    ensures r !in net.services ==> ServiceAddress(net, r) == ""
    ensures r in net.services && net.services[r] == s && |s.ingress| == 0 ==> ServiceAddress(net, r) == ""
    ensures r in net.services && net.services[r] == s && |s.ingress| > 0 ==>
              ServiceAddress(net, r) == if s.ingress[0].ip != "" then s.ingress[0].ip else s.ingress[0].hostname
  {
  }

  /** The place a DevTask's URL is meant to name: scheme, host and port, a port of 0 read as 80. */
  function Place(t: DevTask): Url {
    var cfg := RoutingConfig(t);
    if FixedHost(t) then
      var port := if cfg.value.externalPort == 0 then 80 else cfg.value.externalPort;
      var host := if |cfg.value.hostnames| > 0 then cfg.value.hostnames[0] else cfg.value.externalHost;
      Url(if port == 443 then "https" else "http", host, port, RoutePath(t))
    else
      Url("http", GatewayName(t) + "." + GatewayNamespace(t) + ".svc",
          if cfg.Some? && cfg.value.gatewayPort > 0 then cfg.value.gatewayPort else 80, RoutePath(t))
  }

  predicate Usable(u: Url) { HostOk(u.host) && PathOk(u.path) && u.port >= 0 }

  /** Reading a DevTask's external URL gives back its place if and only if the place is usable. */
  lemma ExternalURLRecovers(t: DevTask)
    requires NeedsRouting(t)
    ensures ParseUrl(ExternalURL(t)) == Some(Place(t)) <==> Usable(Place(t))
  {
    var u := Place(t);
    var cfg := RoutingConfig(t);
    var shown :=
      if !FixedHost(t) then (if u.port == 80 then None else Some(u.port))
      else if u.port == 80 || (u.port == 443 && |cfg.value.hostnames| == 0) then None
      else Some(u.port);
    assert ExternalURL(t) == Shown(u.scheme, u.host, shown, u.path);
    RoundTrip(u.scheme, u.host, shown, u.path);
  }

  /** Host and port of the gateway, most specific first: the Traefik node port; an HTTP listener; the
      load balancer; this machine. */
  ghost predicate Chosen(net: Net, gateway: Ref, host: string, port: int) {
    var traefik := Ref("traefik", gateway.namespace);
    var address := GatewayAddress(net, gateway);
    if exists n :: n > 0 && FirstValue(Ports(net, traefik), HasNodePort, NodePort, Some(n)) then
      FirstValue(Ports(net, traefik), HasNodePort, NodePort, Some(port))
      && host == (if address == "" then net.hostIP else address)
    else if address != "" && !Nowhere(Listeners(net, gateway), IsHTTP) then
      FirstValue(Listeners(net, gateway), IsHTTP, ListenerPort, Some(port))
      && host == address
    else Fallback(net, traefik, host, port)
  }

  ghost predicate Fallback(net: Net, service: Ref, host: string, port: int) {
    var ports := Ports(net, service);
    if Nowhere(ports, IsTCP) then host == net.hostIP && port == 80
    else
      host == (if ServiceAddress(net, service) == "" then net.hostIP else ServiceAddress(net, service))
      && if Nowhere(ports, IsTCPNode)
         then FirstValue(ports, IsTCP, PortNumber, Some(port))
         else FirstValue(ports, IsTCPNode, NodePort, Some(port))
  }

  lemma FirstUnique<T(!new), U(!new)>(s: seq<T>, good: T -> bool, value: T -> U, r: Option<U>, r': Option<U>)
    requires FirstValue(s, good, value, r) && FirstValue(s, good, value, r')
    ensures r == r'
  {
    if r.Some? && r'.Some? {
      var i :| IsFirst(s, good, i) && value(s[i]) == r.value;
      var j :| IsFirst(s, good, j) && value(s[j]) == r'.value;
      assert i == j;
    }
  }

  method GetHostAndPortFallback(net: Net, namespace: string) returns (host: string, port: int)
    ensures Fallback(net, Ref("traefik", namespace), host, port)
  {
    var svcPort := GetTraefikServicePort(net, namespace);
    if svcPort == None { return net.hostIP, 80; }
    var address := ServiceAddress(net, Ref("traefik", namespace));
    if address == "" { return net.hostIP, svcPort.value; }
    return address, svcPort.value;
  }

  /** The lookup never fails. */
  method GetGatewayAddressAndPort(net: Net, gateway: Ref) returns (host: string, port: int)
    ensures Chosen(net, gateway, host, port)
  {
    var nodePort := GetTraefikNodePort(net, gateway.namespace);
    ghost var ports := Ports(net, Ref("traefik", gateway.namespace));
    ghost var good := HasNodePort;
    ghost var value := NodePort;
    forall n: int | FirstValue(ports, good, value, Some(n)) ensures nodePort == Some(n) {
      FirstUnique(ports, good, value, nodePort, Some(n));
    }
    if nodePort.Some? && nodePort.value > 0 {
      host := GatewayAddress(net, gateway);
      if host == "" { host := net.hostIP; }
      return host, nodePort.value;
    }
    host := GatewayAddress(net, gateway);
    if host != "" {
      var listener := GetListenerPort(net, gateway);
      if listener.Some? { return host, listener.value; }
    }
    host, port := GetHostAndPortFallback(net, gateway.namespace);
  }

  /** The URL names the gateway address chosen for the task; it reads back if and only if it is usable. */
  ghost predicate NamesGateway(net: Net, t: DevTask, url: string, host: string, port: int) {
    && Chosen(net, Ref(GatewayName(t), GatewayNamespace(t)[..First(GatewayNamespace(t), "/")]), host, port)
    && (ParseUrl(url) == Some(Url("http", host, port, RoutePath(t))) <==>
          Usable(Url("http", host, port, RoutePath(t))))
  }

  /** What the lookup may give for a DevTask: nothing without routing, else its own host's URL, else the
      gateway's. */
  ghost predicate DevUrl(net: Net, t: DevTask, url: string) {
    if !NeedsRouting(t) then url == ""
    else
      && url != ""
      && if FixedHost(t) then url == ExternalURL(t) else exists host, port :: NamesGateway(net, t, url, host, port)
  }

  lemma ShownIsSome(scheme: string, host: string, port: Option<int>, path: string)
    ensures Shown(scheme, host, port, path) != ""
  {
    assert "://" <= Shown(scheme, host, port, path)[|scheme|..];
  }

  /** A task is routed unless its first tool has a routing section that says otherwise. */
  lemma RoutedByDefault(t: DevTask)
    ensures t.codeServer.Some? ==>
              (NeedsRouting(t) <==> t.codeServer.value.routing.Some? ==> t.codeServer.value.routing.value.enabled)
    ensures t.codeServer == None && t.jupyter.Some? ==>
              (NeedsRouting(t) <==> t.jupyter.value.routing.Some? ==> t.jupyter.value.routing.value.enabled)
    ensures t.codeServer == None && t.jupyter == None && t.noVNC.Some? ==>
              (NeedsRouting(t) <==> t.noVNC.value.routing.Some? ==> t.noVNC.value.routing.value.enabled)
    ensures t.codeServer == None && t.jupyter == None && t.noVNC == None ==> !NeedsRouting(t)
  {
  }

  /** The URL of a host set in the task's own routing section. */
  method FixedHostURL(t: DevTask) returns (url: string)
    requires NeedsRouting(t) && FixedHost(t)
    ensures url == ExternalURL(t) && url != ""
  {
    var cfg := RoutingConfig(t);
    var scheme := "http";
    var path := RoutePath(t);
    if |cfg.value.hostnames| > 0 {
      var p := cfg.value.externalPort;
      if p == 443 { scheme := "https"; }
      url := Shown(scheme, cfg.value.hostnames[0], if p == 0 || p == 80 then None else Some(p), path);
      ShownIsSome(scheme, cfg.value.hostnames[0], if p == 0 || p == 80 then None else Some(p), path);
      return url;
    }
    var p := cfg.value.externalPort;
    if p == 0 { p := 80; }
    if p == 443 { scheme := "https"; }
    url := Shown(scheme, cfg.value.externalHost, if p == 80 || p == 443 then None else Some(p), path);
    ShownIsSome(scheme, cfg.value.externalHost, if p == 80 || p == 443 then None else Some(p), path);
  }

  method GatewayURL(net: Net, t: DevTask) returns (url: string, ghost host: string, ghost port: int)
    ensures NamesGateway(net, t, url, host, port) && url != ""
  {
    var path := RoutePath(t);
    var namespace := GatewayNamespace(t)[..First(GatewayNamespace(t), "/")];
    var gatewayIP, p := GetGatewayAddressAndPort(net, Ref(GatewayName(t), namespace));
    host, port := gatewayIP, p;
    RoundTrip("http", host, if p == 80 then None else Some(p), path);
    url := Shown("http", gatewayIP, if p == 80 then None else Some(p), path);
    ShownIsSome("http", gatewayIP, if p == 80 then None else Some(p), path);
  }

  /** The URL stored in a DevTask's status.  It names the task's own host when it has one, exactly as
      `ExternalURL` does, and otherwise the chosen gateway address; it reads back if and only if it is
      usable.  There is none only if the first tool turns routing off, or there is no tool. */
  method GetExternalURLWithGatewayIP(net: Net, t: DevTask) returns (url: string, ghost host: string, ghost port: int)
    ensures !NeedsRouting(t) ==> url == ""
    ensures NeedsRouting(t) && FixedHost(t) ==> url == ExternalURL(t)
    ensures NeedsRouting(t) && !FixedHost(t) ==> NamesGateway(net, t, url, host, port)
    ensures DevUrl(net, t, url)
    ensures var tool := if t.codeServer.Some? then t.codeServer else if t.jupyter.Some? then t.jupyter else t.noVNC;
            url == "" <==> tool == None || (tool.value.routing.Some? && !tool.value.routing.value.enabled)
  {
    RoutedByDefault(t);
    host, port := "", 0;
    if !NeedsRouting(t) { return "", host, port; }
    if FixedHost(t) {
      url := FixedHostURL(t);
      return url, host, port;
    }
    url, host, port := GatewayURL(net, t);
    assert NamesGateway(net, t, url, host, port);
  }

  /* ------------------------------ InferenceTask URLs ------------------------------ */

  /** Host and port for an InferenceTask: the gateway's address or this machine; the Traefik node port,
      an HTTP listener, Traefik's port 80 or 443, or 80. */
  ghost predicate InferenceChosen(net: Net, gateway: Ref, host: string, port: int) {
    var traefik := Ports(net, Ref("traefik", gateway.namespace));
    && host == (if GatewayAddress(net, gateway) == "" then net.hostIP else GatewayAddress(net, gateway))
    && if exists n :: n > 0 && FirstValue(traefik, HasNodePort, NodePort, Some(n)) then
         FirstValue(traefik, HasNodePort, NodePort, Some(port))
       else if !Nowhere(Listeners(net, gateway), IsHTTP) then
         FirstValue(Listeners(net, gateway), IsHTTP, ListenerPort, Some(port))
       else if !Nowhere(traefik, IsWeb) then
         FirstValue(traefik, IsWeb, PortNumber, Some(port))
       else port == 80
  }

  method GetWebPort(net: Net, namespace: string) returns (port: Option<int>)
    ensures FirstValue(Ports(net, Ref("traefik", namespace)), IsWeb,
                       PortNumber, port)
  {
    var service := Ref("traefik", namespace);
    if service !in net.services { return None; }
    var ports := net.services[service].ports;
    for i := 0 to |ports|
      invariant forall j :: 0 <= j < i ==> !(ports[j].port == 80 || ports[j].port == 443)
    {
      if ports[i].port == 80 || ports[i].port == 443 {
        assert IsFirst(ports, IsWeb, i);
        return Some(ports[i].port);
      }
    }
    return None;
  }

  method GetInferenceAddressAndPort(net: Net, gateway: Ref) returns (host: string, port: int)
    ensures InferenceChosen(net, gateway, host, port)
  {
    host := GatewayAddress(net, gateway);
    if host == "" { host := net.hostIP; }
    var nodePort := GetTraefikNodePort(net, gateway.namespace);
    ghost var ports := Ports(net, Ref("traefik", gateway.namespace));
    ghost var good := HasNodePort;
    ghost var value := NodePort;
    forall n: int | FirstValue(ports, good, value, Some(n)) ensures nodePort == Some(n) {
      FirstUnique(ports, good, value, nodePort, Some(n));
    }
    if nodePort.Some? && nodePort.value > 0 { return host, nodePort.value; }
    var listener := GetListenerPort(net, gateway);
    if listener.Some? { return host, listener.value; }
    var web := GetWebPort(net, gateway.namespace);
    if web.Some? { return host, web.value; }
    return host, 80;
  }

  /** The URL names this place, which is the one chosen for the task; it reads back if and only if it is
      usable. */
  ghost predicate NamesPlace(net: Net, t: InferenceTask, url: string, u: Url) {
    && InferenceChosen(net, Ref(InferenceGatewayName(t), InferenceGatewayNamespace(t)), u.host, u.port)
    && u.path == InferencePath(t) && u.scheme == (if u.port == 443 then "https" else "http")
    && (ParseUrl(url) == Some(u) <==> Usable(u))
  }

  /** What the lookup may give for an InferenceTask. */
  ghost predicate InferenceUrl(net: Net, t: InferenceTask, url: string) {
    if !InferenceNeedsRouting(t) then url == "" else url != "" && exists u :: NamesPlace(net, t, url, u)
  }

  /** A task is routed unless its engine section has a routing section that says otherwise; of several
      engine sections vLLM's comes first, then llama.cpp's. */
  lemma InferenceRoutedByDefault(t: InferenceTask)
    ensures t.vllm.Some? ==>
              (InferenceNeedsRouting(t) <==> t.vllm.value.routing.Some? ==> t.vllm.value.routing.value.enabled)
    ensures t.vllm == None && t.llamaCpp.Some? ==>
              (InferenceNeedsRouting(t) <==> t.llamaCpp.value.routing.Some? ==> t.llamaCpp.value.routing.value.enabled)
    ensures t.vllm == None && t.llamaCpp == None && t.tgi.Some? ==>
              (InferenceNeedsRouting(t) <==> t.tgi.value.routing.Some? ==> t.tgi.value.routing.value.enabled)
    ensures t.vllm == None && t.llamaCpp == None && t.tgi == None ==> !InferenceNeedsRouting(t)
  {
  }

  /** The URL an InferenceTask is stored with reads back as the chosen place, over https exactly for
      port 443, if and only if that is usable.  There is none only if the engine turns routing off, or
      there is no engine section. */
  method GetInferenceURL(net: Net, t: InferenceTask) returns (url: string, ghost u: Url)
    ensures !InferenceNeedsRouting(t) ==> url == ""
    ensures InferenceNeedsRouting(t) ==> NamesPlace(net, t, url, u)
    ensures InferenceUrl(net, t, url)
    ensures var routing := if t.vllm.Some? then t.vllm.value.routing
                           else if t.llamaCpp.Some? then t.llamaCpp.value.routing
                           else if t.tgi.Some? then t.tgi.value.routing else None;
            url == "" <==> (t.vllm == None && t.llamaCpp == None && t.tgi == None)
                           || (routing.Some? && !routing.value.enabled)
  {
    InferenceRoutedByDefault(t);
    u := Url("", "", 0, "");
    if !InferenceNeedsRouting(t) { return "", u; }
    var path := InferencePath(t);
    var host, port := GetInferenceAddressAndPort(net, Ref(InferenceGatewayName(t), InferenceGatewayNamespace(t)));
    var scheme := "http";
    if port == 443 { scheme := "https"; }
    u := Url(scheme, host, port, path);
    RoundTrip(scheme, host, if port == 80 || port == 443 then None else Some(port), path);
    url := Shown(scheme, host, if port == 80 || port == 443 then None else Some(port), path);
    ShownIsSome(scheme, host, if port == 80 || port == 443 then None else Some(port), path);
    assert NamesPlace(net, t, url, u);
  }
}
