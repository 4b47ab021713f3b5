/** Many tasks of one kind in one namespace: what all of them do together is, seen from any one of them,
    a run of that one alone.  DevTasks share their pods; everything else is apart. */
module Isolation {
  import opened Cluster
  import opened Machine
  import opened Safety
  import opened Runs
  import opened Names
  import opened Pods
  import opened Recovery

  /** The tasks of one kind in one namespace. */
  datatype Family = Family(kind: Kind, namespace: string)

  function ConfigOf(fam: Family, n: string): Config {
    match fam.kind
    case Dev => DevConfig(n, fam.namespace)
    case Inf => InfConfig(n)
    case Eval => EvalConfig(n)
  }

  /** The task a child belongs to, read off its name. */
  function OwnerOf(fam: Family, child: string): Option<string> {
    match fam.kind
    case Dev => DevOwner(child, fam.namespace)
    case Inf => InfOwner(child)
    case Eval => EvalOwner(child)
  }

  /** The frameworks the kind may have: for EvalTasks the two there are, else any without a dash. */
  predicate FrameworkOk(fam: Family, f: string) {
    if fam.kind == Eval then f == "opencompass" || f == "lm-eval" else DashFree(f)
  }

  lemma OwnerRead(fam: Family, f: string, n: string)
    requires FrameworkOk(fam, f)
    ensures OwnerOf(fam, ConfigOf(fam, n).childName(f)) == Some(n)
  {
    match fam.kind
    case Dev => DevOwnerRead(f, n, fam.namespace);
    case Inf => InfOwnerRead(f, n);
    case Eval => EvalOwnerRead(f, n);
  }

  /** One API server and, per task name, the reconcile under way and the pending timers. */
  datatype World = World(store: Store, ctls: map<string, Ctl>, timers: map<string, seq<Timer>>)

  /** A step of one task's reconcile or of something that concerns it alone, something that concerns
      everyone, or a restart of the operator. */
  datatype Happening =
    | By(name: string, step: Label)
    | Shared(event: Event)
    | Restart

  datatype WorldRun = WorldRun(worlds: seq<World>, happenings: seq<Happening>)

  function CtlOf(w: World, n: string): Ctl { if n in w.ctls then w.ctls[n] else Idle }

  function TimersOf(w: World, n: string): seq<Timer> { if n in w.timers then w.timers[n] else [] }

  /** The whole store, seen by the reconcile of `n`. */
  function View(w: World, n: string): State { State(w.store, CtlOf(w, n), TimersOf(w, n)) }

  /** The event is about task `n` or a child named for it, and gives it a framework of the kind. */
  predicate Concerns(fam: Family, e: Event, n: string) {
    match e
    case UserCreate(spec, _, _, _) => FrameworkOk(fam, spec.framework)
    case UserEdit(spec, _, _) => FrameworkOk(fam, spec.framework)
    case UserDelete => true
    case LoseChild(key) => Mine(fam, key, n)
    case TouchChild(key) => Mine(fam, key, n)
    case Scale(key, _) => Mine(fam, key, n)
    case JobProgress(key, _) => Mine(fam, key, n)
    case JobExpires(key) => Mine(fam, key, n)
    case PodsBecome(_) => false
    case Elapse(_, _) => false
  }

  ghost predicate WorldStep(fam: Family, edits: bool, w: World, h: Happening, w': World) {
    match h
    case By(n, l) =>
      && !l.Crash? && (l.Env? ==> Concerns(fam, l.event, n))
      && Step(ConfigOf(fam, n), edits, View(w, n), l, View(w', n))
      && (forall k :: k != n ==> CtlOf(w', k) == CtlOf(w, k) && TimersOf(w', k) == TimersOf(w, k))
    case Shared(e) =>
      && (e.PodsBecome? || (e.Elapse? && e.now >= w.store.now && e.version >= w.store.version))
      && w' == w.(store := Happen(ConfigOf(fam, ""), w.store, e))
    case Restart => w' == w.(ctls := map[], timers := map[])
  }

  ghost predicate WorldStepAt(fam: Family, edits: bool, run: WorldRun, i: nat)
    requires i < |run.happenings| && i + 1 < |run.worlds|
  {
    WorldStep(fam, edits, run.worlds[i], run.happenings[i], run.worlds[i+1])
  }

  ghost predicate IsWorldRun(fam: Family, edits: bool, run: WorldRun) {
    && |run.worlds| == |run.happenings| + 1
    && (forall i :: 0 <= i < |run.happenings| ==> WorldStepAt(fam, edits, run, i))
    && run.worlds[0].store.tasks == map[] && run.worlds[0].store.children == map[]
    && run.worlds[0].ctls == map[] && run.worlds[0].timers == map[]
  }

  /* ------------------------------ Projection ------------------------------ */

  predicate Mine(fam: Family, key: Key, m: string) { OwnerOf(fam, key.name) == Some(m) }

  function Children(fam: Family, children: map<Key, Child>, m: string): map<Key, Child> {
    map key | key in children && Mine(fam, key, m) :: children[key]
  }

  function OwnTask(tasks: map<string, Task>, m: string): map<string, Task> {
    if m in tasks then map[m := tasks[m]] else map[]
  }

  /** What of the store task `m` has to do with: the task, the children named for it, the pods it sees. */
  function Project(fam: Family, s: Store, m: string): Store {
    s.(tasks := OwnTask(s.tasks, m),
       children := Children(fam, s.children, m),
       pods := PodsOf(fam, s.pods, m))
  }

  /** An InferenceTask's own pods; the other kinds see all there are. */
  function PodsOf(fam: Family, pods: set<Pod>, m: string): set<Pod> {
    if fam.kind == Inf then set p | p in pods && p.owner == m else pods
  }

  function ProjectState(fam: Family, w: World, m: string): State {
    State(Project(fam, w.store, m), CtlOf(w, m), TimersOf(w, m))
  }

  /** To the others a step only shows in the clock and the version counter. */
  function ProjectLabel(fam: Family, h: Happening, m: string, after: Store): Label {
    match h
    case By(n, l) => if n == m then l else Env(Elapse(after.now, after.version))
    case Shared(e) => Env(if e.PodsBecome? then PodsBecome(PodsOf(fam, e.pods, m)) else e)
    case Restart => Crash
  }

  function Projection(fam: Family, run: WorldRun, m: string): Run
    requires |run.worlds| == |run.happenings| + 1
  {
    Run(seq(|run.worlds|, i requires 0 <= i < |run.worlds| => ProjectState(fam, run.worlds[i], m)),
        seq(|run.happenings|, i requires 0 <= i < |run.happenings| =>
              ProjectLabel(fam, run.happenings[i], m, run.worlds[i+1].store)))
  }

  lemma PutTaskProjects(fam: Family, s: Store, n: string, t: Task, m: string)
    ensures Project(fam, PutTask(s, n, t), m) ==
            if n == m then PutTask(Project(fam, s, m), m, t) else Project(fam, s, m).(version := s.version + 1)
  {
  }

  lemma DropTaskProjects(fam: Family, s: Store, n: string, m: string)
    ensures Project(fam, DropTask(s, n), m) ==
            if n == m then DropTask(Project(fam, s, m), m) else Project(fam, s, m).(version := s.version + 1)
  {
    if n == m { assert OwnTask(s.tasks, m) - {m} == map[]; }
  }

  lemma ChildrenPut(fam: Family, children: map<Key, Child>, key: Key, c: Child, m: string)
    ensures var own := Children(fam, children, m);
            Children(fam, children[key := c], m) == if Mine(fam, key, m) then own[key := c] else own
  {
  }

  lemma ChildrenDrop(fam: Family, children: map<Key, Child>, key: Key, m: string)
    ensures var own := Children(fam, children, m);
            Children(fam, children - {key}, m) == if Mine(fam, key, m) then own - {key} else own
  {
  }

  lemma PutChildProjects(fam: Family, s: Store, key: Key, c: Child, m: string)
    ensures Project(fam, PutChild(s, key, c), m) ==
            if Mine(fam, key, m) then PutChild(Project(fam, s, m), key, c)
            else Project(fam, s, m).(version := s.version + 1)
  {
    ChildrenPut(fam, s.children, key, c.(meta := c.meta.(version := s.version + 1)), m);
  }

  lemma DropChildProjects(fam: Family, s: Store, key: Key, m: string)
    ensures Project(fam, DropChild(s, key), m) ==
            if Mine(fam, key, m) then DropChild(Project(fam, s, m), key)
            else Project(fam, s, m).(version := s.version + 1)
  {
    ChildrenDrop(fam, s.children, key, m);
  }

  /* ------------------------------ A call concerns one task ------------------------------ */

  /** The call addresses task `n`, a child named and labelled for it, its routes, or pods it may see. */
  predicate OwnOp(fam: Family, op: Op, n: string) {
    match op
    case GetTask(name) => name == n
    case UpdateTask(name, t) => name == n && FrameworkOk(fam, t.spec.framework)
    case UpdateTaskStatus(name, _) => name == n
    case DeleteTask(name) => name == n
    case GetChild(key) => Mine(fam, key, n)
    case CreateChild(key, c) => Mine(fam, key, n) && c.owner == n
    case UpdateChild(key, c) => Mine(fam, key, n) && c.owner == n
    case DeleteChild(key) => Mine(fam, key, n)
    case ListRoutes(owner) => owner == n
    case ListPods(selector) => fam.kind == Inf ==> selector.ByTask? && selector.owner == n
  }

  lemma TaskCallProjects(fam: Family, s: Store, op: Op, n: string, m: string)
    requires OwnOp(fam, op, n) && (op.UpdateTask? || op.UpdateTaskStatus? || op.DeleteTask?)
    ensures n == m ==> Apply(Project(fam, s, m), op) == Served(Project(fam, Apply(s, op).store, m), Apply(s, op).reply)
    ensures n != m ==> Project(fam, Apply(s, op).store, m) == Project(fam, s, m).(version := Apply(s, op).store.version)
  {
    DropTaskProjects(fam, s, n, m);
    if n in s.tasks {
      var cur := s.tasks[n];
      match op {
        case UpdateTask(_, t) =>
          var meta := cur.meta.(finalizers := t.meta.finalizers);
          PutTaskProjects(fam, s, n, cur.(meta := meta, frameworkLabel := t.frameworkLabel, spec := t.spec), m);
        case UpdateTaskStatus(_, t) => PutTaskProjects(fam, s, n, cur.(status := t.status), m);
        case DeleteTask(_) => PutTaskProjects(fam, s, n, cur.(meta := cur.meta.(deleting := true)), m);
      }
    }
  }

  lemma ChildCallProjects(fam: Family, s: Store, op: Op, n: string, m: string)
    requires OwnOp(fam, op, n) && (op.CreateChild? || op.UpdateChild? || op.DeleteChild?)
    ensures n == m ==> Apply(Project(fam, s, m), op) == Served(Project(fam, Apply(s, op).store, m), Apply(s, op).reply)
    ensures n != m ==> Project(fam, Apply(s, op).store, m) == Project(fam, s, m).(version := Apply(s, op).store.version)
  {
    DropChildProjects(fam, s, op.key, m);
    match op {
      case CreateChild(key, c) => PutChildProjects(fam, s, key, c, m);
      case UpdateChild(key, c) =>
        if key in s.children {
          PutChildProjects(fam, s, key, c.(meta := s.children[key].meta.(finalizers := c.meta.finalizers)), m);
        }
      case DeleteChild(key) =>
        if key in s.children {
          PutChildProjects(fam, s, key, s.children[key].(meta := s.children[key].meta.(deleting := true)), m);
        }
    }
  }

  lemma CallProjects(fam: Family, s: Store, op: Op, n: string, m: string)
    requires OwnOp(fam, op, n) && !op.ListPods? && !op.ListRoutes?
    ensures n == m ==> Apply(Project(fam, s, m), op) == Served(Project(fam, Apply(s, op).store, m), Apply(s, op).reply)
    ensures n != m ==> Project(fam, Apply(s, op).store, m) == Project(fam, s, m).(version := Apply(s, op).store.version)
  {
    if op.UpdateTask? || op.UpdateTaskStatus? || op.DeleteTask? { TaskCallProjects(fam, s, op, n, m); }
    else if op.CreateChild? || op.UpdateChild? || op.DeleteChild? { ChildCallProjects(fam, s, op, n, m); }
  }

  lemma VersionsGrow(s: Store, op: Op)
    ensures Apply(s, op).store.version >= s.version && Apply(s, op).store.now == s.now
  {
  }

  /** Every stored task has a framework of the kind, and every child's name and label say the same task. */
  predicate WorldStoreOk(fam: Family, s: Store) {
    && (forall n :: n in s.tasks ==> FrameworkOk(fam, s.tasks[n].spec.framework))
    && (forall key :: key in s.children ==> Mine(fam, key, s.children[key].owner))
  }

  lemma RoutesProject(fam: Family, s: Store, n: string, items: seq<Item>)
    requires WorldStoreOk(fam, s) && ListsRoutes(s, n, items)
    ensures ListsRoutes(Project(fam, s, n), n, items)
  {
    var own := Project(fam, s, n);
    forall key | IsRoute(own, n, key) ensures exists i :: 0 <= i < |items| && items[i].key == key {
      assert IsRoute(s, n, key);
    }
  }

  /** An answer to a call of `n` is the same answer seen from `n`'s part of the store, and leaves the
      parts of the others alone. */
  lemma ServesProjects(fam: Family, s: Store, op: Op, s': Store, r: Reply, n: string, m: string)
    requires WorldStoreOk(fam, s) && OwnOp(fam, op, n) && Serves(s, op, s', r)
    ensures n == m ==> Serves(Project(fam, s, m), op, Project(fam, s', m), r)
    ensures var own := Project(fam, s, m);
            n != m ==> Project(fam, s', m) == own.(version := s'.version) && s'.version >= s.version && s'.now == s.now
  {
    VersionsGrow(s, op);
    if op.ListPods? {
      if n == m && r.PodList? {
        assert ListsPods(Project(fam, s, m), op.selector, r.pods);
      }
    } else if op.ListRoutes? {
      if n == m && r.RouteList? { RoutesProject(fam, s, n, r.items); }
    } else {
      CallProjects(fam, s, op, n, m);
    }
  }

  /* ------------------------------ A reconcile makes its own calls only ------------------------------ */

  /** The task copy a reconcile carries. */
  function CopyOf(c: Ctl): Option<Task> {
    match c
    case Idle => None
    case Done(_, _) => None
    case AtEntry(c) => if c.Fetch? then None else Some(c.t)
    case AtPending(c) => if c.PendingLabel? || c.PendingCommit? then Some(c.t) else None
    case AtCreating(c) => Some(c.t)
    case AtEnsure(c) => Some(c.t)
    case AtRunning(c) => Some(c.t)
    case AtEnd(c) => Some(c.t)
    case AtDrop(c) => Some(c.t)
    case AtUnroute(c) => Some(c.t)
    case AtRelease(c) => Some(c.t)
    case AtEval(c) => Some(c.t)
  }

  predicate ItemsOwn(fam: Family, n: string, items: seq<Item>) {
    forall i :: 0 <= i < |items| ==> Mine(fam, items[i].key, n) && items[i].child.owner == n
  }

  /** The copy has a framework of the kind, and the routes held are the task's own. */
  predicate CtlOk(fam: Family, n: string, c: Ctl) {
    && (CopyOf(c).Some? ==> FrameworkOk(fam, CopyOf(c).value.spec.framework))
    && (c.AtUnroute? ==>
          match c.unroute
          case StripRoute(_, child) => child.owner == n
          case StripEach(_, items) => ItemsOwn(fam, n, items)
          case DropEach(_, items) => ItemsOwn(fam, n, items)
          case _ => true)
  }

  /** A reconcile only ever calls for its own objects. */
  lemma RequestIsOwn(fam: Family, n: string, c: Ctl)
    requires Busy(c) && CtlOk(fam, n, c)
    ensures OwnOp(fam, Request(ConfigOf(fam, n), c), n)
  {
    if CopyOf(c).Some? { OwnerRead(fam, CopyOf(c).value.spec.framework, n); }
  }

  lemma ScanOk(fam: Family, n: string, t: Task, replicas: int, pods: seq<Pod>)
    requires FrameworkOk(fam, t.spec.framework)
    ensures CtlOk(fam, n, Scan(t, replicas, pods))
  {
  }

  /** What `n` is told is of the kind, and its own. */
  predicate ReplyOk(fam: Family, n: string, r: Reply) {
    && (r.TaskIs? ==> FrameworkOk(fam, r.task.spec.framework))
    && (r.ChildIs? ==> r.child.owner == n)
    && (r.RouteList? ==> ItemsOwn(fam, n, r.items))
  }

  lemma RunningOk(fam: Family, n: string, c: RunningPc, r: Reply, x: Input)
    requires CtlOk(fam, n, AtRunning(c)) && ReplyOk(fam, n, r)
    ensures CtlOk(fam, n, ResumeRunning(ConfigOf(fam, n), c, r, x))
  {
    if c.RunPods? && r.PodList? { ScanOk(fam, n, c.t, c.replicas, r.pods); }
    if c.NotePod? && r.TaskIs? { ScanOk(fam, n, r.task, c.replicas, c.rest); }
  }

  lemma EntryOk(fam: Family, n: string, c: EntryPc, r: Reply, x: Input)
    requires CtlOk(fam, n, AtEntry(c)) && ReplyOk(fam, n, r)
    ensures CtlOk(fam, n, ResumeEntry(ConfigOf(fam, n), c, r, x))
  {
  }

  lemma ResumeOk(fam: Family, n: string, c: Ctl, r: Reply, x: Input)
    requires Busy(c) && CtlOk(fam, n, c) && ReplyOk(fam, n, r)
    ensures CtlOk(fam, n, Resume(ConfigOf(fam, n), c, r, x))
  {
    match c
    case AtEntry(c) => EntryOk(fam, n, c, r, x);
    case AtRunning(c) => RunningOk(fam, n, c, r, x);
    case AtUnroute(c) => UnrouteOk(fam, n, c, r);
    case _ =>
  }

  lemma UnrouteOk(fam: Family, n: string, c: UnroutePc, r: Reply)
    requires CtlOk(fam, n, AtUnroute(c)) && ReplyOk(fam, n, r)
    ensures CtlOk(fam, n, ResumeUnroute(ConfigOf(fam, n), c, r))
  {
  }

  ghost predicate WorldOk(fam: Family, w: World) {
    WorldStoreOk(fam, w.store) && forall n: string :: CtlOk(fam, n, CtlOf(w, n))
  }

  lemma ChildCallWorldOk(fam: Family, s: Store, n: string, op: Op, s': Store, r: Reply)
    requires WorldStoreOk(fam, s) && OwnOp(fam, op, n) && Serves(s, op, s', r)
    requires op.CreateChild? || op.UpdateChild? || op.DeleteChild?
    ensures WorldStoreOk(fam, s') && ReplyOk(fam, n, r)
  {
  }

  lemma TaskCallWorldOk(fam: Family, s: Store, n: string, op: Op, s': Store, r: Reply)
    requires WorldStoreOk(fam, s) && OwnOp(fam, op, n) && Serves(s, op, s', r)
    requires !(op.CreateChild? || op.UpdateChild? || op.DeleteChild?)
    ensures WorldStoreOk(fam, s') && ReplyOk(fam, n, r)
  {
  }

  lemma CallWorldOk(fam: Family, s: Store, n: string, c: Ctl, s': Store, r: Reply)
    requires WorldStoreOk(fam, s) && Busy(c) && CtlOk(fam, n, c) && Serves(s, Request(ConfigOf(fam, n), c), s', r)
    ensures WorldStoreOk(fam, s') && ReplyOk(fam, n, r)
  {
    RequestIsOwn(fam, n, c);
    var op := Request(ConfigOf(fam, n), c);
    if op.CreateChild? || op.UpdateChild? || op.DeleteChild? { ChildCallWorldOk(fam, s, n, op, s', r); }
    else { TaskCallWorldOk(fam, s, n, op, s', r); }
  }

  /* ------------------------------ Steps and runs ------------------------------ */

  /** What an event about `n` does, seen from `m`. */
  lemma UserEventProjects(fam: Family, edits: bool, s: Store, e: Event, n: string, m: string)
    requires Concerns(fam, e, n) && Enabled(ConfigOf(fam, n), edits, s, e)
    requires e.UserCreate? || e.UserEdit? || e.UserDelete?
    ensures var own := Project(fam, s, m);
            n == m ==> Enabled(ConfigOf(fam, m), edits, own, e)
                       && Project(fam, Happen(ConfigOf(fam, m), s, e), m) == Happen(ConfigOf(fam, m), own, e)
    ensures var s', own := Happen(ConfigOf(fam, n), s, e), Project(fam, s, m);
            n != m ==> Project(fam, s', m) == own.(version := s'.version) && s'.version >= s.version && s'.now == s.now
  {
    match e
    case UserCreate(_, _, _, _) => PutTaskProjects(fam, s, n, NewTask(e, s.version + 1), m);
    case UserEdit(_, _, _) => TaskCallProjects(fam, s, UpdateTask(n, Edited(ConfigOf(fam, n), s.tasks[n], e)), n, m);
    case UserDelete => TaskCallProjects(fam, s, DeleteTask(n), n, m);
  }

  lemma ChildEventProjects(fam: Family, edits: bool, s: Store, e: Event, n: string, m: string)
    requires Concerns(fam, e, n) && Enabled(ConfigOf(fam, n), edits, s, e)
    requires !(e.UserCreate? || e.UserEdit? || e.UserDelete?)
    ensures var own := Project(fam, s, m);
            n == m ==> Enabled(ConfigOf(fam, m), edits, own, e)
                       && Project(fam, Happen(ConfigOf(fam, m), s, e), m) == Happen(ConfigOf(fam, m), own, e)
    ensures var s', own := Happen(ConfigOf(fam, n), s, e), Project(fam, s, m);
            n != m ==> Project(fam, s', m) == own.(version := s'.version) && s'.version >= s.version && s'.now == s.now
  {
    match e
    case LoseChild(key) => ChildCallProjects(fam, s, DeleteChild(key), n, m);
    case JobExpires(key) => ChildCallProjects(fam, s, DeleteChild(key), n, m);
    case TouchChild(key) => PutChildProjects(fam, s, key, s.children[key], m);
    case Scale(key, replicas) => PutChildProjects(fam, s, key, s.children[key].(replicas := replicas), m);
    case JobProgress(key, job) => PutChildProjects(fam, s, key, s.children[key].(job := job), m);
  }

  lemma EventProjects(fam: Family, edits: bool, s: Store, e: Event, n: string, m: string)
    requires Concerns(fam, e, n) && Enabled(ConfigOf(fam, n), edits, s, e)
    ensures var own := Project(fam, s, m);
            n == m ==> Enabled(ConfigOf(fam, m), edits, own, e)
                       && Project(fam, Happen(ConfigOf(fam, m), s, e), m) == Happen(ConfigOf(fam, m), own, e)
    ensures var s', own := Happen(ConfigOf(fam, n), s, e), Project(fam, s, m);
            n != m ==> Project(fam, s', m) == own.(version := s'.version) && s'.version >= s.version && s'.now == s.now
  {
    if e.UserCreate? || e.UserEdit? || e.UserDelete? { UserEventProjects(fam, edits, s, e, n, m); }
    else { ChildEventProjects(fam, edits, s, e, n, m); }
  }

  lemma OwnStep(fam: Family, edits: bool, w: World, n: string, l: Label, w': World)
    requires WorldOk(fam, w) && WorldStep(fam, edits, w, By(n, l), w')
    ensures Step(ConfigOf(fam, n), edits, ProjectState(fam, w, n), l, ProjectState(fam, w', n))
  {
    match l
    case Call(r, x) =>
      RequestIsOwn(fam, n, CtlOf(w, n));
      ServesProjects(fam, w.store, Request(ConfigOf(fam, n), CtlOf(w, n)), w'.store, r, n, n);
    case TimerFires(_) => TaskCallProjects(fam, w.store, DeleteTask(n), n, n);
    case Env(e) => EventProjects(fam, edits, w.store, e, n, n);
    case _ =>
  }

  /** What another task's step does to `m`'s part of the store. */
  lemma ForeignStore(fam: Family, edits: bool, w: World, n: string, l: Label, w': World, m: string)
    requires WorldOk(fam, w) && WorldStep(fam, edits, w, By(n, l), w') && n != m
    ensures Project(fam, w'.store, m) == Project(fam, w.store, m).(version := w'.store.version)
    ensures w'.store.version >= w.store.version && w'.store.now == w.store.now
  {
    match l
    case Call(r, x) =>
      RequestIsOwn(fam, n, CtlOf(w, n));
      ServesProjects(fam, w.store, Request(ConfigOf(fam, n), CtlOf(w, n)), w'.store, r, n, m);
    case TimerFires(_) =>
      TaskCallProjects(fam, w.store, DeleteTask(n), n, m);
      VersionsGrow(w.store, DeleteTask(n));
    case Env(e) => EventProjects(fam, edits, w.store, e, n, m);
    case _ =>
  }

  lemma ForeignStep(fam: Family, edits: bool, w: World, n: string, l: Label, w': World, m: string)
    requires WorldOk(fam, w) && WorldStep(fam, edits, w, By(n, l), w') && n != m
    ensures var l' := ProjectLabel(fam, By(n, l), m, w'.store);
            Step(ConfigOf(fam, m), edits, ProjectState(fam, w, m), l', ProjectState(fam, w', m))
  {
    ForeignStore(fam, edits, w, n, l, w', m);
  }

  /** One step of everyone is, seen from `m`, a step of `m` alone. */
  lemma StepProjects(fam: Family, edits: bool, w: World, h: Happening, w': World, m: string)
    requires WorldOk(fam, w) && WorldStep(fam, edits, w, h, w')
    ensures var l := ProjectLabel(fam, h, m, w'.store);
            Step(ConfigOf(fam, m), edits, ProjectState(fam, w, m), l, ProjectState(fam, w', m))
  {
    match h
    case By(n, l) => if n == m { OwnStep(fam, edits, w, n, l, w'); } else { ForeignStep(fam, edits, w, n, l, w', m); }
    case Shared(e) =>
    case Restart =>
  }

  lemma EventWorldOk(fam: Family, edits: bool, s: Store, e: Event, n: string)
    requires WorldStoreOk(fam, s) && Concerns(fam, e, n) && Enabled(ConfigOf(fam, n), edits, s, e)
    ensures WorldStoreOk(fam, Happen(ConfigOf(fam, n), s, e))
  {
  }

  /** A step of `n` keeps the store in order and where `n` stands. */
  lemma ByStepOk(fam: Family, edits: bool, w: World, n: string, l: Label, w': World)
    requires WorldOk(fam, w) && WorldStep(fam, edits, w, By(n, l), w')
    ensures WorldStoreOk(fam, w'.store) && CtlOk(fam, n, CtlOf(w', n))
  {
    assert CtlOk(fam, n, CtlOf(w, n));
    match l
    case Call(r, x) =>
      CallWorldOk(fam, w.store, n, CtlOf(w, n), w'.store, r);
      ResumeOk(fam, n, CtlOf(w, n), r, x);
    case Env(e) => EventWorldOk(fam, edits, w.store, e, n);
    case _ =>
  }

  lemma WorldStepOk(fam: Family, edits: bool, w: World, h: Happening, w': World)
    requires WorldOk(fam, w) && WorldStep(fam, edits, w, h, w')
    ensures WorldOk(fam, w')
  {
    if h.By? { ByStepOk(fam, edits, w, h.name, h.step, w'); }
    forall k: string ensures CtlOk(fam, k, CtlOf(w', k)) {
      assert CtlOk(fam, k, CtlOf(w, k));
    }
  }

  lemma {:induction false} WorldReachable(fam: Family, edits: bool, run: WorldRun, i: nat)
    requires IsWorldRun(fam, edits, run) && i < |run.worlds|
    ensures WorldOk(fam, run.worlds[i])
  {
    if i > 0 {
      WorldReachable(fam, edits, run, i - 1);
      assert WorldStepAt(fam, edits, run, i - 1);
      WorldStepOk(fam, edits, run.worlds[i-1], run.happenings[i-1], run.worlds[i]);
    }
  }

  /** Isolation: any interleaved run of all tasks projects, task by task, onto a run of that task
      alone; so everything proved of single-task runs holds of every task in company. */
  lemma ProjectsToRun(fam: Family, edits: bool, run: WorldRun, m: string)
    requires IsWorldRun(fam, edits, run)
    ensures IsRun(ConfigOf(fam, m), edits, Projection(fam, run, m)) && Initial(Projection(fam, run, m).states[0])
  {
    var alone := Projection(fam, run, m);
    forall i | 0 <= i < |alone.labels| ensures StepAt(ConfigOf(fam, m), edits, alone, i) {
      WorldReachable(fam, edits, run, i);
      assert WorldStepAt(fam, edits, run, i);
      StepProjects(fam, edits, run.worlds[i], run.happenings[i], run.worlds[i+1], m);
    }
    assert Project(fam, run.worlds[0].store, m).tasks == map[];
    assert Project(fam, run.worlds[0].store, m).children == map[];
  }

  /** In company, frameworks fixed: every child in the namespace is named for a stored task that holds the
      finalizer, and for that task's framework. */
  lemma GuardInCompany(fam: Family, run: WorldRun, i: nat, key: Key)
    requires IsWorldRun(fam, false, run) && i < |run.worlds| && key in run.worlds[i].store.children
    ensures OwnerOf(fam, key.name).Some?
    ensures var s, m := run.worlds[i].store, OwnerOf(fam, key.name).value;
            Held(ConfigOf(fam, m), s) && key.name == ConfigOf(fam, m).childName(s.tasks[m].spec.framework)
  {
    WorldReachable(fam, false, run, i);
    var m := OwnerOf(fam, key.name).value;
    ProjectsToRun(fam, false, run, m);
    var alone := Projection(fam, run, m);
    assert alone.states[i] == ProjectState(fam, run.worlds[i], m);
    FinalizerGuard(ConfigOf(fam, m), alone, i, key);
  }

  /** So when a task is gone nothing labelled for it is left, whatever the others are doing. */
  lemma NoOrphansInCompany(fam: Family, run: WorldRun, i: nat, key: Key)
    requires IsWorldRun(fam, false, run) && i < |run.worlds| && key in run.worlds[i].store.children
    ensures run.worlds[i].store.children[key].owner in run.worlds[i].store.tasks
  {
    WorldReachable(fam, false, run, i);
    GuardInCompany(fam, run, i, key);
  }

  /** The routes of DevTasks are guarded in company even when users change frameworks. */
  lemma RoutesInCompany(fam: Family, run: WorldRun, i: nat, key: Key)
    requires fam.kind == Dev && IsWorldRun(fam, true, run) && i < |run.worlds|
    requires key in run.worlds[i].store.children && key.resource == Routes
    ensures Held(ConfigOf(fam, run.worlds[i].store.children[key].owner), run.worlds[i].store)
  {
    WorldReachable(fam, true, run, i);
    var m := run.worlds[i].store.children[key].owner;
    ProjectsToRun(fam, true, run, m);
    var alone := Projection(fam, run, m);
    assert alone.states[i] == ProjectState(fam, run.worlds[i], m);
    RouteGuard(ConfigOf(fam, m), alone, i, key);
  }

  /* ------------------------------ Shared pods ------------------------------ */

  /** An InferenceTask lists its own pods only. */
  lemma OwnPodsOnly(n: string, t: Task, s: Store, pods: seq<Pod>)
    requires ListsPods(s, PodSelector(InfConfig(n), t), pods)
    ensures ListsPods(s.(pods := set p | p in s.pods && p.owner == n), PodSelector(InfConfig(n), t), pods)
    ensures forall p :: p in pods ==> p.owner == n
  {
  }

  /** A development pod of the framework. */
  predicate Within(p: Pod, framework: string) { p.framework == framework && p.taskType == "development" }

  predicate AllOwn(pods: seq<Pod>, n: string) { forall p :: p in pods ==> p.owner == n }

  /** The deciding pod, if any, is one of `n`. */
  predicate VerdictOwn(pods: seq<Pod>, n: string) { Before(pods) < |pods| ==> pods[Before(pods)].owner == n }

  /** A DevTask lists only its own pods, in every answer it can get, if and only if no pod of another
      DevTask of its framework is stored. */
  lemma ListsOwnExactly(cfg: Config, t: Task, s: Store)
    requires cfg.kind == Dev
    ensures (forall pods :: ListsPods(s, PodSelector(cfg, t), pods) ==> AllOwn(pods, cfg.name))
       <==> forall p :: p in s.pods && Within(p, t.spec.framework) ==> p.owner == cfg.name
  {
    var all := PodListing(s, PodSelector(cfg, t));
    if forall pods :: ListsPods(s, PodSelector(cfg, t), pods) ==> AllOwn(pods, cfg.name) {
      forall p | p in s.pods && Within(p, t.spec.framework) ensures p.owner == cfg.name {
        assert p in all;
      }
    }
  }

  lemma DeciderListed(s: Store, selector: Selector, pods: seq<Pod>)
    requires ListsPods(s, selector, pods) && Before(pods) < |pods|
    ensures var p := pods[Before(pods)]; p in s.pods && Selects(selector, p) && Decides(p).Some?
  {
    assert pods[Before(pods)] in pods;
  }

  /** Its verdict is that of a pod of its own, in every answer, if and only if every decisive pod of its
      framework is its own: a foreign pod that decides nothing does no harm, one that decides may. */
  lemma VerdictOwnExactly(cfg: Config, t: Task, s: Store)
    requires cfg.kind == Dev
    ensures (forall pods :: ListsPods(s, PodSelector(cfg, t), pods) ==> VerdictOwn(pods, cfg.name))
       <==> forall p :: p in s.pods && Within(p, t.spec.framework) && Decides(p).Some? ==> p.owner == cfg.name
  {
    var selector := PodSelector(cfg, t);
    if forall pods :: ListsPods(s, selector, pods) ==> VerdictOwn(pods, cfg.name) {
      forall p | p in s.pods && Within(p, t.spec.framework) && Decides(p).Some? ensures p.owner == cfg.name {
        var pods := ListedFirst(s, selector, p);
        assert VerdictOwn(pods, cfg.name) && Before(pods) == 0;
      }
    } else {
      var pods :| ListsPods(s, selector, pods) && !VerdictOwn(pods, cfg.name);
      DeciderListed(s, selector, pods);
    }
  }

  /** Any selected pod may be listed first. */
  lemma ListedFirst(s: Store, selector: Selector, p: Pod) returns (pods: seq<Pod>)
    requires p in s.pods && Selects(selector, p)
    ensures ListsPods(s, selector, pods) && pods != [] && pods[0] == p
  {
    var rest := PodListing(s.(pods := s.pods - {p}), selector);
    pods := [p] + rest;
    forall q ensures q in pods <==> q in s.pods && Selects(selector, q) {
      assert q in pods <==> q == p || q in rest;
    }
    assert p !in rest;
  }

  /** Pods that carry the labels of the DevTasks they belong to. */
  predicate Labelled(tasks: map<string, Task>, pods: set<Pod>) {
    forall p :: p in pods ==> p.owner in tasks && Within(p, tasks[p.owner].spec.framework)
  }

  predicate EachSeesOwn(tasks: map<string, Task>, pods: set<Pod>) {
    forall n, p :: n in tasks && p in pods && Within(p, tasks[n].spec.framework) ==> p.owner == n
  }

  predicate OnePerFramework(tasks: map<string, Task>) {
    forall n, m :: n in tasks && m in tasks && tasks[n].spec.framework == tasks[m].spec.framework ==> n == m
  }

  /** DevTasks see their own pods only, whatever pods there are, if and only if there is at most one of each
      framework in the namespace. */
  lemma OneDevTaskPerFramework(tasks: map<string, Task>)
    ensures (forall pods :: Labelled(tasks, pods) ==> EachSeesOwn(tasks, pods)) <==> OnePerFramework(tasks)
  {
    if forall pods :: Labelled(tasks, pods) ==> EachSeesOwn(tasks, pods) {
      forall n, m | n in tasks && m in tasks && tasks[n].spec.framework == tasks[m].spec.framework ensures n == m {
        var p := Pod("", m, tasks[m].spec.framework, "development", PodRunning, "", []);
        assert Labelled(tasks, {p});
        assert p in {p} && Within(p, tasks[n].spec.framework);
      }
    }
  }
}
