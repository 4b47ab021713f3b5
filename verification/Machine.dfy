/** The three reconcilers as programs of API calls.

    A `Ctl` is where a reconcile stands: `Request` is the API call it makes next and `Resume` where
    it stands once the reply is in.  Nothing else happens between two calls, so the environment
    can act, or the operator can stop, exactly between two calls. */
module Machine {
  import opened Cluster

  datatype Kind = Dev | Inf | Eval

  /** One task: its kind, its name and the name its children get for a framework. */
  datatype Config = Config(kind: Kind, name: string, childName: string -> string)

  datatype Outcome = Stop | Again | Error

  /** A pending TTL deletion: started at `since` by a reconcile that saw task `uid` completed. */
  datatype Timer = Timer(uid: nat, since: int, ttl: int)

  /** What a reconcile takes from outside the store: the clock, the printed external URL and the
      text of an error. */
  datatype Input = Input(now: int, url: string, text: string)

  /** Reading the task, and the writes before the dispatch on its phase. */
  datatype EntryPc = Fetch | SetLabel(t: Task) | AddFinalizer(t: Task)

  datatype PendingPc =
    | PendingCheck
    | PendingReread
    | PendingLabel(t: Task)
    | PendingRefresh
    | PendingCommit(t: Task, start: int)

  datatype CreatingPc = CreateLookup(t: Task) | CreateDeploy(t: Task) | CommitRunning(t: Task, url: string)

  /** Ensuring the Service and the HTTPRoute; `stage` is the phase of the handler. */
  datatype EnsurePc =
    | SvcLookup(stage: Phase, t: Task)
    | SvcCreate(stage: Phase, t: Task)
    | RouteLookup(stage: Phase, t: Task)
    | RouteCreate(stage: Phase, t: Task)

  datatype RunningPc =
    | RunLookup(t: Task)
    | Recreate(t: Task)
    | Regress(t: Task)
    | RunPods(t: Task, replicas: int)
    | NotePod(t: Task, message: string, replicas: int, rest: seq<Pod>)
    | CommitUrl(t: Task, url: string)

  datatype EndPc = Conclude(t: Task, phase: Phase, message: string) | CommitEnd(t: Task, end: int)

  datatype DropPc = DropLookup(t: Task) | DropDeploy(t: Task) | DropSvcLookup(t: Task) | DropSvc(t: Task)

  datatype UnroutePc =
    | DropRouteLookup(t: Task)
    | StripRoute(t: Task, child: Child)
    | DropRoute(t: Task)
    | ListOwn(t: Task)
    | StripEach(t: Task, items: seq<Item>)
    | DropEach(t: Task, items: seq<Item>)

  datatype ReleasePc = DropJobLookup(t: Task) | DropJob(t: Task) | Release(t: Task)

  datatype EvalPc =
    | EvalLabel(t: Task)
    | EvalCommit(t: Task, start: int)
    | JobLookup(t: Task)
    | JobCreate(t: Task)
    | CheckJob(t: Task)
    | Report(t: Task, phase: Phase, message: string)

  /** The next API call of a reconcile under way, or that it is done, or that none is under way. */
  datatype Ctl =
    | Idle
    | Done(outcome: Outcome, timer: Option<Timer>)
    | AtEntry(entry: EntryPc)
    | AtPending(pending: PendingPc)
    | AtCreating(creating: CreatingPc)
    | AtEnsure(ensure: EnsurePc)
    | AtRunning(running: RunningPc)
    | AtEnd(ending: EndPc)
    | AtDrop(drop: DropPc)
    | AtUnroute(unroute: UnroutePc)
    | AtRelease(release: ReleasePc)
    | AtEval(eval: EvalPc)

  const ROUTE_FINALIZER := "kai.io/route"
  const INFERENCE_ROUTE_FINALIZER := "kai.io/inference-route"

  function Finalizer(kind: Kind): string {
    match kind
    case Dev => "devtask.kai.io/finalizer"
    case Inf => "inference.kai.io/finalizer"
    case Eval => "eval.kai.io/finalizer"
  }

  /** The finalizer cleanup strips from a route; only Dev routes are created with one. */
  function StrippedFinalizer(kind: Kind): string {
    if kind == Dev then ROUTE_FINALIZER else INFERENCE_ROUTE_FINALIZER
  }

  predicate IsPending(p: Phase) { p == Unset || p == Pending }

  predicate IsTerminal(p: Phase) { p == Completed || p == Failed }

  function ChildKey(cfg: Config, r: Resource, t: Task): Key {
    Key(r, cfg.childName(t.spec.framework))
  }

  const NO_JOB := JobStatus(0, 0, 0, None)

  /** The Deployment, Service, HTTPRoute or Job a reconcile creates for `t`. */
  function NewChild(cfg: Config, r: Resource, t: Task): Child {
    var finalizers := if cfg.kind == Dev && r == Routes then {ROUTE_FINALIZER} else {};
    Child(Meta(0, false, finalizers), cfg.name, t.spec.framework,
          if cfg.kind == Dev then 1 else t.spec.replicas, NO_JOB)
  }

  function PodSelector(cfg: Config, t: Task): Selector {
    if cfg.kind == Dev then ByFramework(t.spec.framework, "development") else ByTask(cfg.name, "inference")
  }

  function PodNameOf(cfg: Config, t: Task): string {
    (if cfg.kind == Dev then "devtask-" else "inference-") + t.spec.framework + "-" + cfg.name
  }

  function WithLabel(t: Task): Task { t.(frameworkLabel := t.spec.framework) }

  function WithFinalizer(t: Task, f: string): Task {
    t.(meta := t.meta.(finalizers := t.meta.finalizers + {f}))
  }

  function WithoutFinalizer(t: Task, f: string): Task {
    t.(meta := t.meta.(finalizers := t.meta.finalizers - {f}))
  }

  function Stripped(c: Child, f: string): Child {
    c.(meta := c.meta.(finalizers := c.meta.finalizers - {f}))
  }

  function WithStart(t: Task, p: Phase, start: int): Task {
    t.(status := t.status.(phase := p, start := Some(start)))
  }

  function WithVerdict(t: Task, p: Phase, message: string): Task {
    t.(status := t.status.(phase := p, message := message))
  }

  function WithPhase(t: Task, p: Phase): Task { t.(status := t.status.(phase := p)) }

  function WithMessage(t: Task, m: string): Task { t.(status := t.status.(message := m)) }

  function WithUrl(t: Task, url: string): Task { t.(status := t.status.(url := url)) }

  function WithEnd(t: Task, end: int): Task { t.(status := t.status.(end := Some(end))) }

  function AsReported(cfg: Config, t: Task, p: Phase, m: string): Task {
    t.(status := t.status.(podName := ChildKey(cfg, Jobs, t).name, phase := p, message := m))
  }

  function AsRunning(cfg: Config, t: Task, url: string): Task {
    t.(status := t.status.(phase := Running, podName := PodNameOf(cfg, t), url := url))
  }

  function RequestEntry(cfg: Config, c: EntryPc): Op {
    match c
    case Fetch => GetTask(cfg.name)
    case SetLabel(t) => UpdateTask(cfg.name, WithLabel(t))
    case AddFinalizer(t) => UpdateTask(cfg.name, WithFinalizer(t, Finalizer(cfg.kind)))
  }

  function RequestPending(cfg: Config, c: PendingPc): Op {
    match c
    case PendingCheck | PendingReread | PendingRefresh => GetTask(cfg.name)
    case PendingLabel(t) => UpdateTask(cfg.name, WithLabel(t))
    case PendingCommit(t, start) => UpdateTaskStatus(cfg.name, WithStart(t, Creating, start))
  }

  function RequestCreating(cfg: Config, c: CreatingPc): Op {
    match c
    case CreateLookup(t) => GetChild(ChildKey(cfg, Deployments, t))
    case CreateDeploy(t) => CreateChild(ChildKey(cfg, Deployments, t), NewChild(cfg, Deployments, t))
    case CommitRunning(t, url) => UpdateTaskStatus(cfg.name, AsRunning(cfg, t, url))
  }

  function RequestEnsure(cfg: Config, c: EnsurePc): Op {
    match c
    case SvcLookup(_, t) => GetChild(ChildKey(cfg, Services, t))
    case SvcCreate(_, t) => CreateChild(ChildKey(cfg, Services, t), NewChild(cfg, Services, t))
    case RouteLookup(_, t) => GetChild(ChildKey(cfg, Routes, t))
    case RouteCreate(_, t) => CreateChild(ChildKey(cfg, Routes, t), NewChild(cfg, Routes, t))
  }

  function RequestRunning(cfg: Config, c: RunningPc): Op {
    match c
    case RunLookup(t) => GetChild(ChildKey(cfg, Deployments, t))
    case Recreate(t) => CreateChild(ChildKey(cfg, Deployments, t), NewChild(cfg, Deployments, t))
    case Regress(t) => UpdateTaskStatus(cfg.name, WithPhase(t, Creating))
    case RunPods(t, _) => ListPods(PodSelector(cfg, t))
    case NotePod(t, m, _, _) => UpdateTaskStatus(cfg.name, WithMessage(t, m))
    case CommitUrl(t, url) => UpdateTaskStatus(cfg.name, WithUrl(t, url))
  }

  function RequestEnd(cfg: Config, c: EndPc): Op {
    match c
    case Conclude(t, p, m) => UpdateTaskStatus(cfg.name, WithVerdict(t, p, m))
    case CommitEnd(t, end) => UpdateTaskStatus(cfg.name, WithEnd(t, end))
  }

  function RequestDrop(cfg: Config, c: DropPc): Op {
    match c
    case DropLookup(t) => GetChild(ChildKey(cfg, Deployments, t))
    case DropDeploy(t) => DeleteChild(ChildKey(cfg, Deployments, t))
    case DropSvcLookup(t) => GetChild(ChildKey(cfg, Services, t))
    case DropSvc(t) => DeleteChild(ChildKey(cfg, Services, t))
  }

  function RequestUnroute(cfg: Config, c: UnroutePc): Op {
    match c
    case DropRouteLookup(t) => GetChild(ChildKey(cfg, Routes, t))
    case StripRoute(t, child) => UpdateChild(ChildKey(cfg, Routes, t), Stripped(child, StrippedFinalizer(cfg.kind)))
    case DropRoute(t) => DeleteChild(ChildKey(cfg, Routes, t))
    case ListOwn(_) => ListRoutes(cfg.name)
    case StripEach(_, items) =>
      if items == [] then ListRoutes(cfg.name)
      else UpdateChild(items[0].key, Stripped(items[0].child, ROUTE_FINALIZER))
    case DropEach(_, items) => if items == [] then ListRoutes(cfg.name) else DeleteChild(items[0].key)
  }

  function RequestRelease(cfg: Config, c: ReleasePc): Op {
    match c
    case DropJobLookup(t) => GetChild(ChildKey(cfg, Jobs, t))
    case DropJob(t) => DeleteChild(ChildKey(cfg, Jobs, t))
    case Release(t) => UpdateTask(cfg.name, WithoutFinalizer(t, Finalizer(cfg.kind)))
  }

  function RequestEval(cfg: Config, c: EvalPc): Op {
    match c
    case EvalLabel(t) => UpdateTask(cfg.name, WithLabel(t))
    case EvalCommit(t, start) => UpdateTaskStatus(cfg.name, WithStart(t, Running, start))
    case JobLookup(t) => GetChild(ChildKey(cfg, Jobs, t))
    case JobCreate(t) => CreateChild(ChildKey(cfg, Jobs, t), NewChild(cfg, Jobs, t))
    case CheckJob(t) => GetChild(ChildKey(cfg, Jobs, t))
    case Report(t, p, m) => UpdateTaskStatus(cfg.name, AsReported(cfg, t, p, m))
  }

  /** The API call made at `c`. */
  function Request(cfg: Config, c: Ctl): Op
    requires Busy(c)
  {
    match c
    case AtEntry(c) => RequestEntry(cfg, c)
    case AtPending(c) => RequestPending(cfg, c)
    case AtCreating(c) => RequestCreating(cfg, c)
    case AtEnsure(c) => RequestEnsure(cfg, c)
    case AtRunning(c) => RequestRunning(cfg, c)
    case AtEnd(c) => RequestEnd(cfg, c)
    case AtDrop(c) => RequestDrop(cfg, c)
    case AtUnroute(c) => RequestUnroute(cfg, c)
    case AtRelease(c) => RequestRelease(cfg, c)
    case AtEval(c) => RequestEval(cfg, c)
  }

  predicate Busy(c: Ctl) { !c.Idle? && !c.Done? }

  function Quit(o: Outcome): Ctl { Done(o, None) }

  /** After `Reconcile` has read a live task that holds the finalizer: dispatch on the phase. */
  function Dispatch(cfg: Config, t: Task, x: Input): Ctl {
    if IsPending(t.status.phase) then (if cfg.kind == Eval then AtEval(EvalLabel(t)) else AtPending(PendingCheck))
    else if t.status.phase == Creating && cfg.kind != Eval then AtCreating(CreateLookup(t))
    else if t.status.phase == Running then (if cfg.kind == Eval then AtEval(JobLookup(t)) else AtRunning(RunLookup(t)))
    else if IsTerminal(t.status.phase) then
      (if t.status.end == None then AtEnd(CommitEnd(t, x.now)) else AfterEnd(cfg, t, x))
    else Quit(Again)
  }

  function AfterEnd(cfg: Config, t: Task, x: Input): Ctl {
    match cfg.kind
    case Dev => AtEnsure(SvcLookup(Completed, t))
    case Inf => AfterFinished(t, x)
    case Eval => AtRelease(DropJobLookup(t))
  }

  /** A completed task with a TTL starts a timer. */
  function AfterFinished(t: Task, x: Input): Ctl {
    Done(Stop, if t.spec.ttl.Some? && t.status.phase == Completed
               then Some(Timer(t.uid, x.now, t.spec.ttl.value)) else None)
  }

  function AfterFetch(cfg: Config, t: Task, x: Input): Ctl {
    if cfg.kind == Inf && t.frameworkLabel != t.spec.framework then AtEntry(SetLabel(t))
    else if t.meta.deleting then
      if Finalizer(cfg.kind) !in t.meta.finalizers then Quit(Stop)
      else if cfg.kind == Eval then AtRelease(DropJobLookup(t))
      else AtDrop(DropLookup(t))
    else if Finalizer(cfg.kind) !in t.meta.finalizers then AtEntry(AddFinalizer(t))
    else Dispatch(cfg, t, x)
  }

  function AfterSvc(cfg: Config, stage: Phase, t: Task, x: Input): Ctl {
    if t.spec.routed && (cfg.kind == Inf && stage == Running ==> !t.meta.deleting) then AtEnsure(RouteLookup(stage, t))
    else if stage == Creating then AtCreating(CommitRunning(t, t.status.url))
    else if stage == Running then Quit(Again)
    else AfterFinished(t, x)
  }

  /** An InferenceTask keeps a URL it already has while creating, and never stores the URL it
      computes while running. */
  function AfterRoute(cfg: Config, stage: Phase, t: Task, x: Input): Ctl {
    if stage == Creating then
      AtCreating(CommitRunning(t, if cfg.kind == Inf && t.status.url != "" then t.status.url else x.url))
    else if stage == Running then (if cfg.kind == Dev then AtRunning(CommitUrl(t, x.url)) else Quit(Again))
    else AfterFinished(t, x)
  }

  predicate BadReason(reason: string) {
    reason == "ImagePullBackOff" || reason == "ErrImagePull" || reason == "CrashLoopBackOff" || reason == "Unknown"
  }

  function FirstBad(waiting: seq<Option<string>>): Option<string> {
    if waiting == [] then None
    else if waiting[0].Some? && BadReason(waiting[0].value) then waiting[0]
    else FirstBad(waiting[1..])
  }

  /** The pod loop, from its next pod to its next API call. */
  function Scan(t: Task, replicas: int, pods: seq<Pod>): Ctl {
    if pods == [] then
      if replicas == 0 then AtEnd(Conclude(t, Completed, "Task completed")) else AtEnsure(SvcLookup(Running, t))
    else
      var pod := pods[0];
      var bad := FirstBad(pod.waiting);
      if bad.Some? then AtEnd(Conclude(t, Failed, "Container failed: " + bad.value))
      else match pod.phase
        case PodPending => AtRunning(NotePod(t, "Pod pending", replicas, pods[1..]))
        case PodRunning => AtRunning(NotePod(t, "Pod running", replicas, pods[1..]))
        case PodSucceeded => AtEnd(Conclude(t, Completed, "Task completed"))
        case PodFailed => AtEnd(Conclude(t, Failed, "Pod failed: " + pod.reason))
        case PodUnknown => AtEnd(Conclude(t, Failed, "Pod failed: " + pod.reason))
        case PodUnset => Scan(t, replicas, pods[1..])
  }

  function AfterNamedRoute(cfg: Config, t: Task): Ctl {
    if cfg.kind == Dev then AtUnroute(ListOwn(t)) else AtRelease(Release(t))
  }

  function NextRoute(t: Task, items: seq<Item>): Ctl {
    if items == [] then AtRelease(Release(t))
    else if ROUTE_FINALIZER in items[0].child.meta.finalizers then AtUnroute(StripEach(t, items))
    else AtUnroute(DropEach(t, items))
  }

  function JobVerdict(t: Task, j: JobStatus, x: Input): Ctl {
    if j.active > 0 then AtEval(Report(t, Running, "Job is running"))
    else if j.succeeded > 0 then AtEval(Report(t, Completed, "Evaluation completed successfully"))
    else if j.failed > 0 then AtEval(Report(t, Failed, x.text))
    else Quit(Again)
  }

  function ResumeEntry(cfg: Config, c: EntryPc, r: Reply, x: Input): Ctl {
    match c
    case Fetch =>
      if r.TaskIs? then AfterFetch(cfg, r.task, x) else if r.NotFound? then Quit(Stop) else Quit(Error)
    case SetLabel(_) => Quit(if r.TaskIs? then Stop else Error)
    case AddFinalizer(_) =>
      if !r.TaskIs? then Quit(Error) else if cfg.kind == Dev then Dispatch(cfg, r.task, x) else Quit(Stop)
  }

  /** A DevTask is read twice more, gets its label and is read again; an InferenceTask is read once. */
  function ResumePending(cfg: Config, c: PendingPc, r: Reply, x: Input): Ctl {
    match c
    case PendingCheck =>
      if !r.TaskIs? then Quit(Error)
      else if !IsPending(r.task.status.phase) then Quit(Stop)
      else AtPending(if cfg.kind == Dev then PendingReread else PendingCommit(r.task, x.now))
    case PendingReread => if r.TaskIs? then AtPending(PendingLabel(r.task)) else Quit(Error)
    case PendingLabel(_) => if r.TaskIs? then AtPending(PendingRefresh) else Quit(Again)
    case PendingRefresh => if r.TaskIs? then AtPending(PendingCommit(r.task, x.now)) else Quit(Error)
    case PendingCommit(_, _) => Quit(if r.TaskIs? then Stop else Again)
  }

  function ResumeCreating(cfg: Config, c: CreatingPc, r: Reply, x: Input): Ctl {
    match c
    case CreateLookup(t) =>
      if r.NotFound? then AtCreating(CreateDeploy(t))
      else if r.ChildIs? then AtEnsure(SvcLookup(Creating, t)) else Quit(Error)
    case CreateDeploy(t) => if r.Ok? then AtEnsure(SvcLookup(Creating, t)) else AtEnd(Conclude(t, Failed, x.text))
    case CommitRunning(_, _) => Quit(if r.TaskIs? then Stop else Error)
  }

  /** Only the creating handler gives up when the Service cannot be ensured; errors about the route
      never stop a handler, and a later DevTask handler creates the route after any read error. */
  function ResumeEnsure(cfg: Config, c: EnsurePc, r: Reply, x: Input): Ctl {
    match c
    case SvcLookup(stage, t) =>
      if r.NotFound? then AtEnsure(SvcCreate(stage, t))
      else if r.ChildIs? || cfg.kind == Inf || stage != Creating then AfterSvc(cfg, stage, t, x)
      else Quit(Error)
    case SvcCreate(stage, t) => if r.Ok? || stage != Creating then AfterSvc(cfg, stage, t, x) else Quit(Error)
    case RouteLookup(stage, t) =>
      if r.NotFound? || (!r.ChildIs? && cfg.kind == Dev && stage != Creating) then AtEnsure(RouteCreate(stage, t))
      else AfterRoute(cfg, stage, t, x)
    case RouteCreate(stage, t) => AfterRoute(cfg, stage, t, x)
  }

  function ResumeRunning(cfg: Config, c: RunningPc, r: Reply, x: Input): Ctl {
    match c
    case RunLookup(t) =>
      if r.ChildIs? then AtRunning(RunPods(t, r.child.replicas))
      else if r.NotFound? then AtRunning(Recreate(t)) else Quit(Error)
    case Recreate(t) => if r.Ok? then AtRunning(Regress(t)) else Quit(Error)
    case Regress(_) => Quit(if r.TaskIs? then Stop else Error)
    case RunPods(t, replicas) => if r.PodList? then Scan(t, replicas, r.pods) else Quit(Error)
    case NotePod(_, _, replicas, rest) => if r.TaskIs? then Scan(r.task, replicas, rest) else Quit(Error)
    case CommitUrl(_, _) => Quit(Again)
  }

  function ResumeEnd(cfg: Config, c: EndPc, r: Reply, x: Input): Ctl {
    match c
    case Conclude(_, _, _) => Quit(if r.TaskIs? then Stop else Error)
    case CommitEnd(_, _) => if r.TaskIs? then AfterEnd(cfg, r.task, x) else Quit(Error)
  }

  /** A failed read counts as "nothing to delete"; a Service gone between its read and its deletion
      is an error for a DevTask only. */
  function ResumeDrop(cfg: Config, c: DropPc, r: Reply): Ctl {
    match c
    case DropLookup(t) => AtDrop(if r.ChildIs? then DropDeploy(t) else DropSvcLookup(t))
    case DropDeploy(t) => if r.Ok? || r.NotFound? then AtDrop(DropSvcLookup(t)) else Quit(Error)
    case DropSvcLookup(t) => if r.ChildIs? then AtDrop(DropSvc(t)) else AtUnroute(DropRouteLookup(t))
    case DropSvc(t) =>
      if r.Ok? || (r.NotFound? && cfg.kind != Dev) then AtUnroute(DropRouteLookup(t)) else Quit(Error)
  }

  function ResumeUnroute(cfg: Config, c: UnroutePc, r: Reply): Ctl {
    match c
    case DropRouteLookup(t) =>
      if !r.ChildIs? then AfterNamedRoute(cfg, t)
      else if StrippedFinalizer(cfg.kind) in r.child.meta.finalizers then AtUnroute(StripRoute(t, r.child))
      else AtUnroute(DropRoute(t))
    case StripRoute(t, _) => if r.ChildIs? || r.NotFound? then AtUnroute(DropRoute(t)) else Quit(Error)
    case DropRoute(t) => if r.Ok? || r.NotFound? then AfterNamedRoute(cfg, t) else Quit(Error)
    case ListOwn(t) => if r.RouteList? then NextRoute(t, r.items) else AtRelease(Release(t))
    case StripEach(t, items) => if r.ChildIs? || r.NotFound? then AtUnroute(DropEach(t, items)) else Quit(Error)
    case DropEach(t, items) =>
      if (r.Ok? || r.NotFound?) && items != [] then NextRoute(t, items[1..]) else Quit(Error)
  }

  function ResumeRelease(cfg: Config, c: ReleasePc, r: Reply): Ctl {
    match c
    case DropJobLookup(t) => AtRelease(if r.ChildIs? then DropJob(t) else Release(t))
    case DropJob(t) => if r.Ok? || r.NotFound? then AtRelease(Release(t)) else Quit(Error)
    case Release(_) => Quit(if r.TaskIs? then Stop else Error)
  }

  function ResumeEval(cfg: Config, c: EvalPc, r: Reply, x: Input): Ctl {
    match c
    case EvalLabel(_) => if r.TaskIs? then AtEval(EvalCommit(r.task, x.now)) else Quit(Again)
    case EvalCommit(_, _) => Quit(if r.TaskIs? then Stop else Again)
    case JobLookup(t) =>
      if r.ChildIs? then AtEval(CheckJob(t)) else if r.NotFound? then AtEval(JobCreate(t)) else Quit(Error)
    case JobCreate(t) => if r.Ok? then AtEval(CheckJob(t)) else Quit(Error)
    case CheckJob(t) =>
      if r.ChildIs? then JobVerdict(t, r.child.job, x) else if r.NotFound? then Quit(Again) else Quit(Error)
    case Report(_, _, _) => Quit(if r.TaskIs? then Again else Error)
  }

  /** Where the reconcile stands after the call made at `c` was answered by `r`. */
  function Resume(cfg: Config, c: Ctl, r: Reply, x: Input): Ctl
    requires Busy(c)
  {
    match c
    case AtEntry(c) => ResumeEntry(cfg, c, r, x)
    case AtPending(c) => ResumePending(cfg, c, r, x)
    case AtCreating(c) => ResumeCreating(cfg, c, r, x)
    case AtEnsure(c) => ResumeEnsure(cfg, c, r, x)
    case AtRunning(c) => ResumeRunning(cfg, c, r, x)
    case AtEnd(c) => ResumeEnd(cfg, c, r, x)
    case AtDrop(c) => ResumeDrop(cfg, c, r)
    case AtUnroute(c) => ResumeUnroute(cfg, c, r)
    case AtRelease(c) => ResumeRelease(cfg, c, r)
    case AtEval(c) => ResumeEval(cfg, c, r, x)
  }

  /* ------------------------------ The environment ------------------------------ */

  datatype Event =
    | UserCreate(spec: Spec, frameworkLabel: string, finalizers: set<string>, phase: Phase)
    | UserEdit(spec: Spec, frameworkLabel: string, foreign: set<string>)
    | UserDelete
    | LoseChild(key: Key)
    | TouchChild(key: Key)
    | Scale(key: Key, replicas: int)
    | JobProgress(key: Key, job: JobStatus)
    | JobExpires(key: Key)
    | PodsBecome(pods: set<Pod>)
    | Elapse(now: int, version: nat)

  const JOB_TTL := 300

  function NewTask(e: Event, uid: nat): Task
    requires e.UserCreate?
  {
    Task(Meta(0, false, e.finalizers), uid, e.frameworkLabel, e.spec, Status(e.phase, "", "", "", None, None))
  }

  /** A user's edit keeps the operator's finalizer as it is. */
  function Edited(cfg: Config, cur: Task, e: Event): Task
    requires e.UserEdit?
  {
    cur.(frameworkLabel := e.frameworkLabel, spec := e.spec,
         meta := cur.meta.(finalizers := e.foreign + (cur.meta.finalizers * {Finalizer(cfg.kind)})))
  }

  /** What may happen around the operator.  `edits` says whether a user may change a stored task's framework. */
  predicate Enabled(cfg: Config, edits: bool, s: Store, e: Event) {
    match e
    case UserCreate(spec, _, finalizers, phase) => cfg.name !in s.tasks && IsPending(phase)
    case UserEdit(spec, _, foreign) =>
      && cfg.name in s.tasks
      && var cur := s.tasks[cfg.name];
      && Finalizer(cfg.kind) !in foreign
      && (cur.meta.deleting ==> foreign <= cur.meta.finalizers)
      && (edits || spec.framework == cur.spec.framework)
    case UserDelete => true
    case LoseChild(key) => true
    case TouchChild(key) => key in s.children
    case Scale(key, replicas) => key in s.children && key.resource == Deployments
    case JobProgress(key, job) =>
      && key in s.children && key.resource == Jobs
      && s.children[key].job.finished == None
      && (job.finished.Some? ==> job.finished.value == s.now && job.active == 0 && job.succeeded + job.failed > 0)
    case JobExpires(key) =>
      && key in s.children && key.resource == Jobs
      && s.children[key].job.finished.Some? && s.now >= s.children[key].job.finished.value + JOB_TTL
    case PodsBecome(_) => true
    case Elapse(now, version) => now >= s.now && version >= s.version
  }

  function Happen(cfg: Config, s: Store, e: Event): Store
    requires Enabled(cfg, true, s, e)
  {
    match e
    case UserCreate(_, _, _, _) => PutTask(s, cfg.name, NewTask(e, s.version + 1))
    case UserEdit(_, _, _) => ApplyUpdateTask(s, cfg.name, Edited(cfg, s.tasks[cfg.name], e)).store
    case UserDelete => ApplyDeleteTask(s, cfg.name).store
    case LoseChild(key) => ApplyDeleteChild(s, key).store
    case TouchChild(key) => PutChild(s, key, s.children[key])
    case Scale(key, replicas) => PutChild(s, key, s.children[key].(replicas := replicas))
    case JobProgress(key, job) => PutChild(s, key, s.children[key].(job := job))
    case JobExpires(key) => ApplyDeleteChild(s, key).store
    case PodsBecome(pods) => s.(pods := pods)
    case Elapse(now, version) => s.(now := now, version := version)
  }

  /* ------------------------------ Runs ------------------------------ */

  datatype State = State(store: Store, ctl: Ctl, timers: seq<Timer>)

  datatype Label =
    | Begin
    | Call(reply: Reply, input: Input)
    | Return
    | Crash
    | TimerFires(i: nat)
    | Env(event: Event)

  /** Cleanup reads take any error for "nothing there", so they must answer truthfully. */
  predicate CleanupRead(c: Ctl) {
    || (c.AtDrop? && (c.drop.DropLookup? || c.drop.DropSvcLookup?))
    || (c.AtUnroute? && (c.unroute.DropRouteLookup? || c.unroute.ListOwn?))
    || (c.AtRelease? && c.release.DropJobLookup?)
  }

  ghost predicate CallStep(cfg: Config, s: State, r: Reply, x: Input, s': State)
  {
    && Busy(s.ctl)
    && x.now == s.store.now
    && Serves(s.store, Request(cfg, s.ctl), s'.store, r)
    && s'.ctl == Resume(cfg, s.ctl, r, x)
    && s'.timers == s.timers
  }

  /** One step of a run.  A crash loses the reconcile under way and all timers of the process. */
  ghost predicate Step(cfg: Config, edits: bool, s: State, l: Label, s': State) {
    match l
    case Begin => s.ctl.Idle? && s' == s.(ctl := AtEntry(Fetch))
    case Call(r, x) => CallStep(cfg, s, r, x, s') && (CleanupRead(s.ctl) ==> !r.Fault?)
    case Return =>
      s.ctl.Done? &&
      s' == s.(ctl := Idle, timers := s.timers + (if s.ctl.timer.Some? then [s.ctl.timer.value] else []))
    case Crash => s' == s.(ctl := Idle, timers := [])
    case TimerFires(i) =>
      && i < |s.timers| && s.store.now >= s.timers[i].since + s.timers[i].ttl
      && s' == s.(store := ApplyDeleteTask(s.store, cfg.name).store, timers := s.timers[..i] + s.timers[i+1..])
    case Env(e) => Enabled(cfg, edits, s.store, e) && s' == s.(store := Happen(cfg, s.store, e))
  }

  datatype Run = Run(states: seq<State>, labels: seq<Label>)

  ghost predicate StepAt(cfg: Config, edits: bool, run: Run, i: nat)
    requires i < |run.labels| && i + 1 < |run.states|
  {
    Step(cfg, edits, run.states[i], run.labels[i], run.states[i+1])
  }

  ghost predicate IsRun(cfg: Config, edits: bool, run: Run) {
    && |run.states| == |run.labels| + 1
    && (forall i :: 0 <= i < |run.labels| ==> StepAt(cfg, edits, run, i))
  }

  /** The operator is idle and nothing of the task is stored. */
  predicate Initial(s: State) {
    s.store.tasks == map[] && s.store.children == map[] && s.ctl.Idle? && s.timers == []
  }
}
