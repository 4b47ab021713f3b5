/** The specifications of DevTasks and InferenceTasks that names, routes, URLs and arguments are made
    from, and the getters over them. */
module Specs {
  import opened Cluster

  datatype Routing = Routing(enabled: bool, gatewayName: string, gatewayNamespace: string, pathPrefix: string,
                             externalHost: string, externalPort: int, gatewayPort: int, hostnames: seq<string>)

  /** `folder` is code-server's workspace or Jupyter's notebook directory. */
  datatype Tool = Tool(routing: Option<Routing>, port: int, args: seq<string>, password: string, folder: string)

  datatype DevTask = DevTask(name: string, namespace: string,
                             codeServer: Option<Tool>, jupyter: Option<Tool>, noVNC: Option<Tool>)

  datatype VLLM = VLLM(routing: Option<Routing>, port: int, tensorParallelSize: int, gpuMemoryUtilization: string,
                       maxModelLen: int, minReplicas: Option<int>)

  datatype TGI = TGI(routing: Option<Routing>, port: int, maxBatchSize: int, maxInputLen: int, maxTotalTokens: int,
                     minReplicas: Option<int>)

  datatype LlamaCpp = LlamaCpp(routing: Option<Routing>, port: int, contextSize: int, threads: int, gpuLayers: int,
                               n: Option<int>)

  datatype InferenceTask = InferenceTask(name: string, namespace: string, model: string, engine: string,
                                         hfMirror: string, vllm: Option<VLLM>,
                                         llamaCpp: Option<LlamaCpp>, tgi: Option<TGI>)

  /** Of an EvalTask only which section it has matters to its Job's name. */
  datatype EvalTask = EvalTask(name: string, openCompass: bool, lmEval: bool)

  /** The framework the Job is named for: without a section, OpenCompass. */
  function EvalFramework(t: EvalTask): string {
    if t.openCompass then "opencompass" else if t.lmEval then "lm-eval" else "opencompass"
  }

  /* ------------------------------ DevTasks ------------------------------ */

  function Framework(t: DevTask): string {
    if t.codeServer.Some? then "codeserver"
    else if t.jupyter.Some? then "jupyter"
    else if t.noVNC.Some? then "novnc"
    else ""
  }

  function ToolOf(t: DevTask): Option<Tool> {
    if t.codeServer.Some? then t.codeServer else if t.jupyter.Some? then t.jupyter else t.noVNC
  }

  predicate NeedsRouting(t: DevTask) {
    ToolOf(t).Some? && (ToolOf(t).value.routing == None || ToolOf(t).value.routing.value.enabled)
  }

  function RoutingIn(tool: Option<Tool>): Option<Routing> {
    if tool.Some? then tool.value.routing else None
  }

  /** The first tool with a routing section counts, even when another tool gives the framework. */
  function RoutingConfig(t: DevTask): Option<Routing> {
    if RoutingIn(t.codeServer).Some? then RoutingIn(t.codeServer)
    else if RoutingIn(t.jupyter).Some? then RoutingIn(t.jupyter)
    else RoutingIn(t.noVNC)
  }

  function Base(framework: string, name: string): string { "/" + framework + "/" + name }

  function DefaultPath(t: DevTask): string { Base(Framework(t), t.name) + "/" }

  predicate CustomPath(cfg: Option<Routing>) { cfg.Some? && cfg.value.pathPrefix != "" }

  function RoutePath(t: DevTask): string {
    if CustomPath(RoutingConfig(t)) then RoutingConfig(t).value.pathPrefix else DefaultPath(t)
  }

  /** The API type's own route path, without the trailing slash. */
  function FallbackPath(t: DevTask): string {
    if CustomPath(RoutingConfig(t)) then RoutingConfig(t).value.pathPrefix else Base(Framework(t), t.name)
  }

  function GatewayName(t: DevTask): string {
    if RoutingConfig(t).Some? && RoutingConfig(t).value.gatewayName != "" then RoutingConfig(t).value.gatewayName
    else "traefik-gateway"
  }

  function GatewayNamespace(t: DevTask): string {
    if RoutingConfig(t).Some? && RoutingConfig(t).value.gatewayNamespace != "" then
      RoutingConfig(t).value.gatewayNamespace
    else "default"
  }

  /* ------------------------------ InferenceTasks ------------------------------ */

  function Engine(t: InferenceTask): string {
    if t.engine != "" then t.engine
    else if t.vllm.Some? then "vllm"
    else if t.tgi.Some? then "tgi"
    else if t.llamaCpp.Some? then "llama.cpp"
    else ""
  }

  function Section(t: InferenceTask): string {
    if t.vllm.Some? then "vllm" else if t.llamaCpp.Some? then "llama.cpp" else if t.tgi.Some? then "tgi" else ""
  }

  /** The framework children are named for: the engine section, or the engine named when there is none. */
  function InferenceFramework(t: InferenceTask): string {
    if Section(t) != "" then Section(t) else Engine(t)
  }

  predicate InferenceNeedsRouting(t: InferenceTask) {
    if t.vllm.Some? then t.vllm.value.routing == None || t.vllm.value.routing.value.enabled
    else if t.llamaCpp.Some? then t.llamaCpp.value.routing == None || t.llamaCpp.value.routing.value.enabled
    else t.tgi.Some? && (t.tgi.value.routing == None || t.tgi.value.routing.value.enabled)
  }

  function InferenceRouting(t: InferenceTask): Option<Routing> {
    if t.vllm.Some? && t.vllm.value.routing.Some? then t.vllm.value.routing
    else if t.llamaCpp.Some? && t.llamaCpp.value.routing.Some? then t.llamaCpp.value.routing
    else if t.tgi.Some? then t.tgi.value.routing
    else None
  }

  function InferencePath(t: InferenceTask): string {
    if CustomPath(InferenceRouting(t)) then InferenceRouting(t).value.pathPrefix else Base(Section(t), t.name)
  }

  function InferenceGatewayName(t: InferenceTask): string {
    if InferenceRouting(t).Some? && InferenceRouting(t).value.gatewayName != "" then
      InferenceRouting(t).value.gatewayName
    else "traefik"
  }

  function InferenceGatewayNamespace(t: InferenceTask): string {
    if InferenceRouting(t).Some? && InferenceRouting(t).value.gatewayNamespace != "" then
      InferenceRouting(t).value.gatewayNamespace
    else "default"
  }

  /** Without a routing section, and where one is silent, the defaults of the code. */
  lemma Defaults(t: DevTask, t': InferenceTask)
    ensures t.codeServer.Some? ==> Framework(t) == "codeserver"
    ensures t.codeServer == None && t.jupyter.Some? ==> Framework(t) == "jupyter"
    ensures t.codeServer == None && t.jupyter == None && t.noVNC.Some? ==> Framework(t) == "novnc"
    ensures RoutingConfig(t) == None ==>
              && GatewayName(t) == "traefik-gateway" && GatewayNamespace(t) == "default"
              && RoutePath(t) == "/" + Framework(t) + "/" + t.name + "/"
    ensures t'.vllm.Some? ==> Section(t') == "vllm"
    ensures t'.vllm == None && t'.llamaCpp.Some? ==> Section(t') == "llama.cpp"
    ensures t'.vllm == None && t'.llamaCpp == None && t'.tgi.Some? ==> Section(t') == "tgi"
    ensures InferenceRouting(t') == None ==>
              && InferenceGatewayName(t') == "traefik" && InferenceGatewayNamespace(t') == "default"
              && InferencePath(t') == "/" + Section(t') + "/" + t'.name
  {
  }

  /** Which routing section counts, and which framework: the first tool's or engine's that has one. */
  lemma FirstCounts(t: DevTask, t': InferenceTask)
    ensures t.codeServer.Some? && t.codeServer.value.routing.Some? ==> RoutingConfig(t) == t.codeServer.value.routing
    ensures (t.codeServer.Some? ==> t.codeServer.value.routing == None) && t.jupyter.Some?
            && t.jupyter.value.routing.Some? ==>
              RoutingConfig(t) == t.jupyter.value.routing
    ensures (t.codeServer.Some? ==> t.codeServer.value.routing == None)
            && (t.jupyter.Some? ==> t.jupyter.value.routing == None) && t.noVNC.Some? ==>
              RoutingConfig(t) == t.noVNC.value.routing
    ensures t'.vllm.Some? && t'.vllm.value.routing.Some? ==> InferenceRouting(t') == t'.vllm.value.routing
    ensures t'.vllm == None && t'.llamaCpp.Some? && t'.llamaCpp.value.routing.Some? ==>
              InferenceRouting(t') == t'.llamaCpp.value.routing
    ensures t'.vllm == None && t'.llamaCpp == None && t'.tgi.Some? ==> InferenceRouting(t') == t'.tgi.value.routing
    ensures t'.vllm.Some? || t'.llamaCpp.Some? || t'.tgi.Some? ==> InferenceFramework(t') == Section(t')
    ensures t'.vllm == None && t'.llamaCpp == None && t'.tgi == None ==> InferenceFramework(t') == t'.engine
  {
  }

  /** What a routing section sets is used. */
  lemma Configured(t: DevTask, t': InferenceTask)
    ensures RoutingConfig(t).Some? ==>
              var cfg := RoutingConfig(t).value;
              && (cfg.gatewayName != "" ==> GatewayName(t) == cfg.gatewayName)
              && (cfg.gatewayNamespace != "" ==> GatewayNamespace(t) == cfg.gatewayNamespace)
              && (cfg.pathPrefix != "" ==> RoutePath(t) == cfg.pathPrefix)
    ensures InferenceRouting(t').Some? ==>
              var cfg := InferenceRouting(t').value;
              && (cfg.gatewayName != "" ==> InferenceGatewayName(t') == cfg.gatewayName)
              && (cfg.gatewayNamespace != "" ==> InferenceGatewayNamespace(t') == cfg.gatewayNamespace)
              && (cfg.pathPrefix != "" ==> InferencePath(t') == cfg.pathPrefix)
  {
  }

  /** With one engine section its own port counts, if positive, and else the engine's default. */
  lemma OnePort(t: InferenceTask, ports: string -> int)
    ensures t.vllm.Some? && t.tgi == None && t.llamaCpp == None ==>
              InferencePort(t, ports) == if t.vllm.value.port > 0 then t.vllm.value.port else ports("vllm")
    ensures t.vllm == None && t.tgi.Some? && t.llamaCpp == None ==>
              InferencePort(t, ports) == if t.tgi.value.port > 0 then t.tgi.value.port else ports("tgi")
    ensures t.vllm == None && t.tgi == None && t.llamaCpp.Some? ==>
              InferencePort(t, ports) == if t.llamaCpp.value.port > 0 then t.llamaCpp.value.port else ports("llama.cpp")
  {
  }

  /** The first configured port, or the default one of the first engine section. */
  function InferencePort(t: InferenceTask, ports: string -> int): int {
    if t.vllm.Some? && t.vllm.value.port > 0 then t.vllm.value.port
    else if t.tgi.Some? && t.tgi.value.port > 0 then t.tgi.value.port
    else if t.llamaCpp.Some? && t.llamaCpp.value.port > 0 then t.llamaCpp.value.port
    else if t.vllm.Some? then ports("vllm")
    else if t.tgi.Some? then ports("tgi")
    else if t.llamaCpp.Some? then ports("llama.cpp")
    else ports("vllm")
  }
}
