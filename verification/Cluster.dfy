/** The API server: the stored objects of one namespace, and what one API call does to them.

    Every object carries a resource version, a deletion mark and finalizers.  Versions come from
    one counter, so two writes never hand out the same version.  The model keeps the parts of a
    task's specification that the reconcilers branch on; Specs.dfy has what names, routes, URLs and
    arguments are made from. */
module Cluster {

  datatype Option<+T> = None | Some(value: T)

  datatype Phase = Unset | Pending | Creating | Running | Completed | Failed | Terminating

  datatype Meta = Meta(version: nat, deleting: bool, finalizers: set<string>)

  /** `framework` is the effective framework, `routed` whether the task needs external routing,
      `replicas` the replica count its Deployment is built with, `ttl` the seconds to keep a
      completed task. */
  datatype Spec = Spec(framework: string, routed: bool, replicas: int, ttl: Option<int>)

  datatype Status = Status(phase: Phase, message: string, podName: string, url: string,
                           start: Option<int>, end: Option<int>)

  /** `uid` tells two tasks apart that were stored under one name one after the other;
      `frameworkLabel` is the value of the `framework` label, empty when the label is absent. */
  datatype Task = Task(meta: Meta, uid: nat, frameworkLabel: string, spec: Spec, status: Status)

  datatype Resource = Deployments | Services | Routes | Jobs

  datatype Key = Key(resource: Resource, name: string)

  /** What a Job reports; `finished` is when it finished. */
  datatype JobStatus = JobStatus(active: nat, succeeded: nat, failed: nat, finished: Option<int>)

  /** A Deployment, Service, HTTPRoute or Job.  `owner` is the label naming the task;
      `replicas` matters for Deployments and `job` for Jobs. */
  datatype Child = Child(meta: Meta, owner: string, framework: string, replicas: int, job: JobStatus)

  datatype PodPhase = PodUnset | PodPending | PodRunning | PodSucceeded | PodFailed | PodUnknown

  /** `waiting` holds, per container status, the reason the container waits for, if it waits. */
  datatype Pod = Pod(name: string, owner: string, framework: string, taskType: string,
                     phase: PodPhase, reason: string, waiting: seq<Option<string>>)

  /** A label selector over pods: by task, or by framework, and by task type. */
  datatype Selector = ByTask(owner: string, taskType: string) | ByFramework(framework: string, taskType: string)

  datatype Store = Store(tasks: map<string, Task>, children: map<Key, Child>, pods: set<Pod>,
                         version: nat, now: int)

  datatype Item = Item(key: Key, child: Child)

  datatype Op =
    | GetTask(name: string)
    | UpdateTask(name: string, task: Task)
    | UpdateTaskStatus(name: string, task: Task)
    | DeleteTask(name: string)
    | GetChild(key: Key)
    | CreateChild(key: Key, child: Child)
    | UpdateChild(key: Key, child: Child)
    | DeleteChild(key: Key)
    | ListRoutes(owner: string)
    | ListPods(selector: Selector)

  datatype Reply =
    | TaskIs(task: Task)
    | ChildIs(child: Child)
    | RouteList(items: seq<Item>)
    | PodList(pods: seq<Pod>)
    | Ok
    | NotFound
    | Conflict
    | AlreadyExists
    | Fault

  datatype Served = Served(store: Store, reply: Reply)

  predicate Selects(selector: Selector, pod: Pod) {
    match selector
    case ByTask(owner, taskType) => pod.owner == owner && pod.taskType == taskType
    case ByFramework(framework, taskType) => pod.framework == framework && pod.taskType == taskType
  }

  function PutTask(s: Store, name: string, t: Task): Store {
    var v := s.version + 1;
    s.(tasks := s.tasks[name := t.(meta := t.meta.(version := v))], version := v)
  }

  function DropTask(s: Store, name: string): Store {
    s.(tasks := s.tasks - {name}, version := s.version + 1)
  }

  function PutChild(s: Store, key: Key, c: Child): Store {
    var v := s.version + 1;
    s.(children := s.children[key := c.(meta := c.meta.(version := v))], version := v)
  }

  function DropChild(s: Store, key: Key): Store {
    s.(children := s.children - {key}, version := s.version + 1)
  }

  /** `Update` writes metadata and specification and leaves the status alone; a stale version is
      rejected, and taking the last finalizer off an object marked for deletion removes it. */
  function ApplyUpdateTask(s: Store, name: string, t: Task): Served {
    if name !in s.tasks then Served(s, NotFound)
    else
      var cur := s.tasks[name];
      if cur.meta.version != t.meta.version then Served(s, Conflict)
      else
        var next := cur.(meta := cur.meta.(finalizers := t.meta.finalizers), frameworkLabel := t.frameworkLabel,
                         spec := t.spec);
        var reply := TaskIs(next.(meta := next.meta.(version := s.version + 1)));
        if cur.meta.deleting && t.meta.finalizers == {} then Served(DropTask(s, name), reply)
        else Served(PutTask(s, name, next), reply)
  }

  /** `Status().Update` writes the status and nothing else. */
  function ApplyUpdateTaskStatus(s: Store, name: string, t: Task): Served {
    if name !in s.tasks then Served(s, NotFound)
    else
      var cur := s.tasks[name];
      if cur.meta.version != t.meta.version then Served(s, Conflict)
      else
        var next := cur.(status := t.status);
        Served(PutTask(s, name, next), TaskIs(next.(meta := next.meta.(version := s.version + 1))))
  }

  /** `Delete` names an object, not a version.  With finalizers left it only marks the object. */
  function ApplyDeleteTask(s: Store, name: string): Served {
    if name !in s.tasks then Served(s, NotFound)
    else
      var cur := s.tasks[name];
      if cur.meta.finalizers == {} then Served(DropTask(s, name), Ok)
      else if cur.meta.deleting then Served(s, Ok)
      else Served(PutTask(s, name, cur.(meta := cur.meta.(deleting := true))), Ok)
  }

  function ApplyUpdateChild(s: Store, key: Key, c: Child): Served {
    if key !in s.children then Served(s, NotFound)
    else
      var cur := s.children[key];
      if cur.meta.version != c.meta.version then Served(s, Conflict)
      else
        var next := c.(meta := cur.meta.(finalizers := c.meta.finalizers));
        var reply := ChildIs(next.(meta := next.meta.(version := s.version + 1)));
        if cur.meta.deleting && c.meta.finalizers == {} then Served(DropChild(s, key), reply)
        else Served(PutChild(s, key, next), reply)
  }

  function ApplyDeleteChild(s: Store, key: Key): Served {
    if key !in s.children then Served(s, NotFound)
    else
      var cur := s.children[key];
      if cur.meta.finalizers == {} then Served(DropChild(s, key), Ok)
      else if cur.meta.deleting then Served(s, Ok)
      else Served(PutChild(s, key, cur.(meta := cur.meta.(deleting := true))), Ok)
  }

  /** The effect and reply of a call that is neither a list nor disturbed. */
  function Apply(s: Store, op: Op): Served {
    match op
    case GetTask(name) => Served(s, if name in s.tasks then TaskIs(s.tasks[name]) else NotFound)
    case UpdateTask(name, t) => ApplyUpdateTask(s, name, t)
    case UpdateTaskStatus(name, t) => ApplyUpdateTaskStatus(s, name, t)
    case DeleteTask(name) => ApplyDeleteTask(s, name)
    case GetChild(key) => Served(s, if key in s.children then ChildIs(s.children[key]) else NotFound)
    case CreateChild(key, c) => if key in s.children then Served(s, AlreadyExists) else Served(PutChild(s, key, c), Ok)
    case UpdateChild(key, c) => ApplyUpdateChild(s, key, c)
    case DeleteChild(key) => ApplyDeleteChild(s, key)
    case ListRoutes(_) => Served(s, Fault)
    case ListPods(_) => Served(s, Fault)
  }

  predicate IsRoute(s: Store, owner: string, key: Key) {
    key in s.children && key.resource == Routes && s.children[key].owner == owner
  }

  /** A list answers with the selected objects, each once, in any order. */
  ghost predicate ListsRoutes(s: Store, owner: string, items: seq<Item>) {
    && (forall i :: 0 <= i < |items| ==> IsRoute(s, owner, items[i].key) && items[i].child == s.children[items[i].key])
    && (forall key :: IsRoute(s, owner, key) ==> exists i :: 0 <= i < |items| && items[i].key == key)
    && (forall i, j :: 0 <= i < j < |items| ==> items[i].key != items[j].key)
  }

  ghost predicate ListsPods(s: Store, selector: Selector, pods: seq<Pod>) {
    && (forall p :: p in pods <==> p in s.pods && Selects(selector, p))
    && (forall i, j :: 0 <= i < j < |pods| ==> pods[i] != pods[j])
  }

  /** An answer without an injected fault. */
  ghost predicate Answers(s: Store, op: Op, s': Store, reply: Reply) {
    match op
    case ListRoutes(owner) => s' == s && reply.RouteList? && ListsRoutes(s, owner, reply.items)
    case ListPods(selector) => s' == s && reply.PodList? && ListsPods(s, selector, reply.pods)
    case _ => Served(s', reply) == Apply(s, op)
  }

  /** Any answer the reconciler may get: the answer proper, an error before the call took effect,
      or an error after it took effect (the answer was lost). */
  ghost predicate Serves(s: Store, op: Op, s': Store, reply: Reply) {
    || Answers(s, op, s', reply)
    || (reply == Fault && s' == s)
    || (reply == Fault && s' == Apply(s, op).store)
  }
}
