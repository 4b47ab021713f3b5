/** What every step of every run keeps. */
module Safety {
  import opened Cluster
  import opened Machine

  /** The task is stored and holds the operator's finalizer. */
  predicate Held(cfg: Config, s: Store) {
    cfg.name in s.tasks && Finalizer(cfg.kind) in s.tasks[cfg.name].meta.finalizers
  }

  /** `t` was read at some time: while its version is current, it is the stored task. */
  predicate Snapshot(cfg: Config, s: Store, t: Task) {
    && t.meta.version <= s.version
    && (cfg.name in s.tasks && s.tasks[cfg.name].meta.version == t.meta.version ==> s.tasks[cfg.name] == t)
  }

  /** What a handler may rely on about the task copy it carries. */
  predicate Carries(cfg: Config, edits: bool, s: Store, t: Task) {
    && Held(cfg, s)
    && Snapshot(cfg, s, t)
    && var cur := s.tasks[cfg.name];
    && Finalizer(cfg.kind) in t.meta.finalizers
    && t.uid == cur.uid && t.status == cur.status
    && (t.meta.deleting ==> cur.meta.deleting)
    && (edits || t.spec.framework == cur.spec.framework)
  }

  /** The handler stage of a service or route step, and the task phases it runs in. */
  predicate InStage(cfg: Config, stage: Phase, phase: Phase) {
    || (stage == Creating && phase == Creating)
    || (stage == Running && phase == Running)
    || (stage == Completed && IsTerminal(phase) && cfg.kind == Dev)
  }

  /** The children the finalizer guard speaks about: all of them while the framework is fixed, and
      otherwise the routes of a DevTask. */
  predicate Guarded(cfg: Config, edits: bool, key: Key) {
    !edits || (cfg.kind == Dev && key.resource == Routes)
  }

  predicate NoneOf(edits: bool, s: Store, r: Resource) {
    edits || (forall key :: key in s.children ==> key.resource != r)
  }

  predicate NoGuarded(cfg: Config, edits: bool, s: Store) {
    forall key :: key in s.children ==> !Guarded(cfg, edits, key)
  }

  predicate ChildSnapshot(s: Store, key: Key, c: Child) {
    key in s.children && s.children[key].meta.version == c.meta.version ==> s.children[key] == c
  }

  predicate Unfinalized(s: Store, key: Key) {
    key in s.children ==> s.children[key].meta.finalizers == {}
  }

  /** What is left of a list of routes: every stored route is still on it, and a route listed
      without the finalizer has none. */
  predicate Remaining(s: Store, items: seq<Item>) {
    && (forall key :: key in s.children && key.resource == Routes ==>
          exists i :: 0 <= i < |items| && items[i].key == key)
    && (forall i :: 0 <= i < |items| ==>
          items[i].key.resource == Routes && ItemOk(s, items[i]))
  }

  predicate ItemOk(s: Store, item: Item) {
    && item.child.meta.version <= s.version && ChildSnapshot(s, item.key, item.child)
    && (ROUTE_FINALIZER !in item.child.meta.finalizers ==> Unfinalized(s, item.key))
  }

  predicate KnowsEntry(cfg: Config, s: Store, c: EntryPc) {
    match c
    case Fetch => true
    case SetLabel(t) => Snapshot(cfg, s, t)
    case AddFinalizer(t) => Snapshot(cfg, s, t) && !t.meta.deleting
  }

  predicate KnowsPending(cfg: Config, edits: bool, s: Store, c: PendingPc) {
    cfg.kind != Eval &&
    match c
    case PendingCheck | PendingReread | PendingRefresh => Held(cfg, s) && IsPending(s.tasks[cfg.name].status.phase)
    case PendingLabel(t) => Carries(cfg, edits, s, t) && IsPending(t.status.phase)
    case PendingCommit(t, start) => Carries(cfg, edits, s, t) && IsPending(t.status.phase) && start <= s.now
  }

  predicate KnowsCreating(cfg: Config, edits: bool, s: Store, c: CreatingPc) {
    cfg.kind != Eval && Carries(cfg, edits, s, c.t) && !c.t.meta.deleting && c.t.status.phase == Creating
  }

  predicate KnowsEnsure(cfg: Config, edits: bool, s: Store, c: EnsurePc) {
    && cfg.kind != Eval && Carries(cfg, edits, s, c.t) && !c.t.meta.deleting && InStage(cfg, c.stage, c.t.status.phase)
    && (c.stage == Completed ==> c.t.status.end.Some?)
  }

  predicate KnowsRunning(cfg: Config, edits: bool, s: Store, c: RunningPc) {
    cfg.kind != Eval && Carries(cfg, edits, s, c.t) && !c.t.meta.deleting && c.t.status.phase == Running
  }

  predicate KnowsEnd(cfg: Config, edits: bool, s: Store, c: EndPc) {
    match c
    case Conclude(t, p, _) =>
      && cfg.kind != Eval && Carries(cfg, edits, s, t)
      && ((t.status.phase == Creating && p == Failed) || (t.status.phase == Running && IsTerminal(p)))
    case CommitEnd(t, end) =>
      && Carries(cfg, edits, s, t) && !t.meta.deleting && IsTerminal(t.status.phase) && t.status.end == None
      && end <= s.now && t.status.start.Some? && t.status.start.value <= end
  }

  predicate KnowsDrop(cfg: Config, edits: bool, s: Store, c: DropPc) {
    && cfg.kind != Eval && Carries(cfg, edits, s, c.t) && c.t.meta.deleting
    && (c.DropSvcLookup? || c.DropSvc? ==> NoneOf(edits, s, Deployments))
  }

  predicate KnowsUnroute(cfg: Config, edits: bool, s: Store, c: UnroutePc) {
    && cfg.kind != Eval && Carries(cfg, edits, s, c.t) && c.t.meta.deleting
    && NoneOf(edits, s, Deployments) && NoneOf(edits, s, Services)
    && match c
       case DropRouteLookup(_) => true
       case StripRoute(t, child) => child.meta.version <= s.version && ChildSnapshot(s, ChildKey(cfg, Routes, t), child)
       case DropRoute(t) => Unfinalized(s, ChildKey(cfg, Routes, t))
       case ListOwn(_) => cfg.kind == Dev
       case StripEach(_, items) => cfg.kind == Dev && items != [] && Remaining(s, items)
       case DropEach(_, items) => cfg.kind == Dev && items != [] && Remaining(s, items) && Unfinalized(s, items[0].key)
  }

  predicate KnowsRelease(cfg: Config, edits: bool, s: Store, c: ReleasePc) {
    && Carries(cfg, edits, s, c.t)
    && (c.t.meta.deleting || (cfg.kind == Eval && IsTerminal(c.t.status.phase) && c.t.status.end.Some?))
    && (if c.Release? then NoGuarded(cfg, edits, s) else cfg.kind == Eval)
  }

  predicate KnowsEval(cfg: Config, edits: bool, s: Store, c: EvalPc) {
    && cfg.kind == Eval && Carries(cfg, edits, s, c.t) && !c.t.meta.deleting
    && match c
       case EvalLabel(t) => IsPending(t.status.phase)
       case EvalCommit(t, start) => IsPending(t.status.phase) && start <= s.now
       case JobLookup(t) => t.status.phase == Running
       case JobCreate(t) => t.status.phase == Running
       case CheckJob(t) => t.status.phase == Running
       case Report(t, p, _) => t.status.phase == Running && (p == Running || IsTerminal(p))
  }

  /** What is known at each point of a reconcile. */
  predicate Knows(cfg: Config, edits: bool, s: Store, c: Ctl) {
    match c
    case Idle => true
    case Done(_, timer) => timer.Some? ==> TimerOk(cfg, s, timer.value)
    case AtEntry(c) => KnowsEntry(cfg, s, c)
    case AtPending(c) => KnowsPending(cfg, edits, s, c)
    case AtCreating(c) => KnowsCreating(cfg, edits, s, c)
    case AtEnsure(c) => KnowsEnsure(cfg, edits, s, c)
    case AtRunning(c) => KnowsRunning(cfg, edits, s, c)
    case AtEnd(c) => KnowsEnd(cfg, edits, s, c)
    case AtDrop(c) => KnowsDrop(cfg, edits, s, c)
    case AtUnroute(c) => KnowsUnroute(cfg, edits, s, c)
    case AtRelease(c) => KnowsRelease(cfg, edits, s, c)
    case AtEval(c) => KnowsEval(cfg, edits, s, c)
  }

  /** A timer belongs to a task that was seen completed; if that very task is still stored, it
      still is. */
  predicate TimerOk(cfg: Config, s: Store, timer: Timer) {
    && timer.uid <= s.version && timer.since <= s.now
    && (cfg.name in s.tasks && s.tasks[cfg.name].uid == timer.uid ==> s.tasks[cfg.name].status.phase == Completed)
  }

  /** The start time is set exactly when the task has left pending, the end time only in a
      terminal phase, and the times are in order. */
  predicate TimesOk(st: Status, now: int) {
    && (st.start.Some? <==> !IsPending(st.phase))
    && (st.start.Some? ==> st.start.value <= now)
    && (st.end.Some? ==> IsTerminal(st.phase) && st.start.Some? && st.start.value <= st.end.value <= now)
  }

  predicate TaskOk(cfg: Config, s: Store, t: Task) {
    && t.meta.version <= s.version && t.uid <= s.version
    && TimesOk(t.status, s.now)
    && t.status.phase != Terminating
    && (cfg.kind == Eval ==> t.status.phase != Creating)
    && (Finalizer(cfg.kind) !in t.meta.finalizers && !t.meta.deleting ==>
          IsPending(t.status.phase) || (cfg.kind == Eval && IsTerminal(t.status.phase) && t.status.end.Some?))
  }

  predicate ChildOk(cfg: Config, s: Store, key: Key, c: Child) {
    && c.meta.version <= s.version && c.owner == cfg.name
    && (cfg.kind == Eval <==> key.resource == Jobs)
    && c.meta.finalizers <= (if cfg.kind == Dev && key.resource == Routes then {ROUTE_FINALIZER} else {})
  }

  /** The finalizer guard. */
  predicate Guard(cfg: Config, edits: bool, s: Store) {
    forall key :: key in s.children && Guarded(cfg, edits, key) ==>
      Held(cfg, s) && (edits || key.name == cfg.childName(s.tasks[cfg.name].spec.framework))
  }

  predicate StoreOk(cfg: Config, edits: bool, s: Store) {
    && (forall n :: n in s.tasks ==> n == cfg.name && TaskOk(cfg, s, s.tasks[n]))
    && (forall key :: key in s.children ==> ChildOk(cfg, s, key, s.children[key]))
    && Guard(cfg, edits, s)
  }

  predicate Inv(cfg: Config, edits: bool, s: State) {
    && StoreOk(cfg, edits, s.store)
    && Knows(cfg, edits, s.store, s.ctl)
    && (forall i :: 0 <= i < |s.timers| ==> TimerOk(cfg, s.store, s.timers[i]))
  }

  /* ------------------------------ Steps of the environment ------------------------------ */

  /** How the store may change around a reconcile: children go or lose finalizers, and a held
      task keeps its identity, status and finalizer. */
  predicate Rely(cfg: Config, edits: bool, s: Store, s': Store) {
    && s.version <= s'.version && s.now <= s'.now
    && s'.children.Keys <= s.children.Keys
    && (forall key :: key in s'.children ==>
          && s'.children[key].meta.finalizers <= s.children[key].meta.finalizers
          && (s'.children[key] == s.children[key] || s'.children[key].meta.version > s.version))
    && (cfg.name in s'.tasks ==>
          || (cfg.name in s.tasks && s'.tasks[cfg.name] == s.tasks[cfg.name])
          || s'.tasks[cfg.name].meta.version > s.version)
    && (cfg.name in s'.tasks && !(cfg.name in s.tasks && SameTask(s.tasks[cfg.name], s'.tasks[cfg.name])) ==>
          s'.tasks[cfg.name].uid > s.version)
    && (Held(cfg, s) ==>
          && Held(cfg, s')
          && var t, t' := s.tasks[cfg.name], s'.tasks[cfg.name];
          && SameTask(t, t')
          && (t.meta.deleting ==> t'.meta.deleting)
          && (edits || t'.spec.framework == t.spec.framework))
  }

  predicate SameTask(t: Task, t': Task) {
    t'.uid == t.uid && t'.status == t.status
  }

  lemma PutChildRelies(cfg: Config, edits: bool, s: Store, key: Key, c: Child)
    requires StoreOk(cfg, edits, s) && key in s.children
    requires c == s.children[key].(meta := c.meta, replicas := c.replicas, job := c.job)
    requires c.meta.finalizers <= s.children[key].meta.finalizers
    ensures StoreOk(cfg, edits, PutChild(s, key, c)) && Rely(cfg, edits, s, PutChild(s, key, c))
  {
  }

  lemma DropChildRelies(cfg: Config, edits: bool, s: Store, key: Key)
    requires StoreOk(cfg, edits, s)
    ensures StoreOk(cfg, edits, DropChild(s, key)) && Rely(cfg, edits, s, DropChild(s, key))
  {
  }

  lemma DeleteChildRelies(cfg: Config, edits: bool, s: Store, key: Key)
    requires StoreOk(cfg, edits, s)
    ensures var s' := ApplyDeleteChild(s, key).store;
            StoreOk(cfg, edits, s') && Rely(cfg, edits, s, s')
  {
    if key in s.children {
      var c := s.children[key];
      if c.meta.finalizers == {} { DropChildRelies(cfg, edits, s, key); }
      else if !c.meta.deleting { PutChildRelies(cfg, edits, s, key, c.(meta := c.meta.(deleting := true))); }
    }
  }

  lemma DeleteTaskRelies(cfg: Config, edits: bool, s: Store)
    requires StoreOk(cfg, edits, s)
    ensures var s' := ApplyDeleteTask(s, cfg.name).store;
            StoreOk(cfg, edits, s') && Rely(cfg, edits, s, s')
  {
  }

  lemma EditRelies(cfg: Config, edits: bool, s: Store, e: Event)
    requires StoreOk(cfg, edits, s) && e.UserEdit? && Enabled(cfg, edits, s, e)
    ensures StoreOk(cfg, edits, Happen(cfg, s, e)) && Rely(cfg, edits, s, Happen(cfg, s, e))
  {
  }

  /** What users, other controllers and the clock do keeps the store in order and is what
      reconciles rely on. */
  lemma EnvRelies(cfg: Config, edits: bool, s: Store, e: Event)
    requires StoreOk(cfg, edits, s) && Enabled(cfg, edits, s, e)
    ensures StoreOk(cfg, edits, Happen(cfg, s, e)) && Rely(cfg, edits, s, Happen(cfg, s, e))
  {
    match e
    case UserCreate(_, _, _, _) =>
    case UserEdit(_, _, _) => EditRelies(cfg, edits, s, e);
    case UserDelete => DeleteTaskRelies(cfg, edits, s);
    case LoseChild(key) => DeleteChildRelies(cfg, edits, s, key);
    case TouchChild(key) => PutChildRelies(cfg, edits, s, key, s.children[key]);
    case Scale(key, replicas) => PutChildRelies(cfg, edits, s, key, s.children[key].(replicas := replicas));
    case JobProgress(key, job) => PutChildRelies(cfg, edits, s, key, s.children[key].(job := job));
    case JobExpires(key) => DeleteChildRelies(cfg, edits, s, key);
    case PodsBecome(_) =>
    case Elapse(_, _) =>
  }

  lemma RelyKeepsCarries(cfg: Config, edits: bool, s: Store, s': Store, t: Task)
    requires Rely(cfg, edits, s, s')
    ensures Snapshot(cfg, s, t) ==> Snapshot(cfg, s', t)
    ensures Carries(cfg, edits, s, t) ==> Carries(cfg, edits, s', t)
  {
  }

  lemma RelyKeepsChildren(cfg: Config, edits: bool, s: Store, s': Store, items: seq<Item>)
    requires Rely(cfg, edits, s, s')
    ensures Remaining(s, items) ==> Remaining(s', items)
    ensures forall r :: NoneOf(edits, s, r) ==> NoneOf(edits, s', r)
    ensures NoGuarded(cfg, edits, s) ==> NoGuarded(cfg, edits, s')
    ensures forall key :: Unfinalized(s, key) ==> Unfinalized(s', key)
    ensures forall key, c: Child :: c.meta.version <= s.version && ChildSnapshot(s, key, c) ==>
              ChildSnapshot(s', key, c)
  {
  }

  lemma RelyKeepsKnows(cfg: Config, edits: bool, s: Store, s': Store, c: Ctl)
    requires StoreOk(cfg, edits, s) && Rely(cfg, edits, s, s') && Knows(cfg, edits, s, c)
    ensures Knows(cfg, edits, s', c)
  {
    match c
    case Idle =>
    case Done(_, timer) => if timer.Some? { RelyKeepsTimer(cfg, edits, s, s', timer.value); }
    case AtEntry(c) => if !c.Fetch? { RelyKeepsCarries(cfg, edits, s, s', c.t); }
    case AtPending(c) => if c.PendingLabel? || c.PendingCommit? { RelyKeepsCarries(cfg, edits, s, s', c.t); }
    case AtCreating(c) => RelyKeepsCarries(cfg, edits, s, s', c.t);
    case AtEnsure(c) => RelyKeepsCarries(cfg, edits, s, s', c.t);
    case AtRunning(c) => RelyKeepsCarries(cfg, edits, s, s', c.t);
    case AtEnd(c) => RelyKeepsCarries(cfg, edits, s, s', c.t);
    case AtDrop(c) => RelyKeepsCarries(cfg, edits, s, s', c.t); RelyKeepsChildren(cfg, edits, s, s', []);
    case AtUnroute(c) => RelyKeepsUnroute(cfg, edits, s, s', c);
    case AtRelease(c) => RelyKeepsCarries(cfg, edits, s, s', c.t); RelyKeepsChildren(cfg, edits, s, s', []);
    case AtEval(c) => RelyKeepsCarries(cfg, edits, s, s', c.t);
  }

  lemma RelyKeepsUnroute(cfg: Config, edits: bool, s: Store, s': Store, c: UnroutePc)
    requires Rely(cfg, edits, s, s') && KnowsUnroute(cfg, edits, s, c)
    ensures KnowsUnroute(cfg, edits, s', c)
  {
    RelyKeepsCarries(cfg, edits, s, s', c.t);
    RelyKeepsChildren(cfg, edits, s, s', if c.StripEach? || c.DropEach? then c.items else []);
  }

  lemma RelyKeepsTimer(cfg: Config, edits: bool, s: Store, s': Store, timer: Timer)
    requires StoreOk(cfg, edits, s) && Rely(cfg, edits, s, s') && TimerOk(cfg, s, timer)
    ensures TimerOk(cfg, s', timer)
  {
  }

  /* ------------------------------ Steps of a reconcile ------------------------------ */

  /** The phase edges of a task. */
  predicate Edge(kind: Kind, p: Phase, p': Phase) {
    || (IsPending(p) && p' == (if kind == Eval then Running else Creating))
    || (p == Creating && (p' == Running || p' == Failed))
    || (p == Running && (IsTerminal(p') || (p' == Creating && kind != Eval)))
  }

  /** How the status of one stored task may change: along the edges, terminal phases stay, and a
      start or end time once set stays. */
  predicate Progress(kind: Kind, st: Status, st': Status) {
    && (st'.phase == st.phase || Edge(kind, st.phase, st'.phase))
    && (st.start.Some? ==> st'.start == st.start)
    && (st.end.Some? ==> st'.end == st.end)
  }

  /** The task of this name is the same one and progressed, or it is new, or there is none. */
  predicate Evolves(cfg: Config, s: Store, s': Store) {
    && s.version <= s'.version && s.now <= s'.now
    && (cfg.name in s'.tasks ==>
          || s'.tasks[cfg.name].uid > s.version
          || (cfg.name in s.tasks && s'.tasks[cfg.name].uid == s.tasks[cfg.name].uid
              && Progress(cfg.kind, s.tasks[cfg.name].status, s'.tasks[cfg.name].status)))
  }

  lemma StatusWrite(cfg: Config, edits: bool, s: Store, t: Task, t': Task, s': Store, r: Reply)
    requires StoreOk(cfg, edits, s) && Carries(cfg, edits, s, t) && t' == t.(status := t'.status)
    requires TaskOk(cfg, s, t') && Progress(cfg.kind, t.status, t'.status)
    requires Serves(s, UpdateTaskStatus(cfg.name, t'), s', r)
    ensures StoreOk(cfg, edits, s') && Evolves(cfg, s, s') && s'.children == s.children && s'.now == s.now
    ensures r.TaskIs? ==> Carries(cfg, edits, s', r.task) && r.task == t'.(meta := t.meta.(version := s'.version))
  {
  }

  /** Setting the label is an edit a user could have made. */
  lemma LabelWrite(cfg: Config, edits: bool, s: Store, t: Task, s': Store, r: Reply)
    requires StoreOk(cfg, edits, s) && Snapshot(cfg, s, t)
    requires Serves(s, UpdateTask(cfg.name, WithLabel(t)), s', r)
    ensures StoreOk(cfg, edits, s') && Rely(cfg, edits, s, s') && s'.now == s.now
    ensures r.TaskIs? && Carries(cfg, edits, s, t) ==>
              Carries(cfg, edits, s', r.task) && r.task.status == t.status && r.task.meta.deleting == t.meta.deleting
  {
    if s' != s {
      var f := Finalizer(cfg.kind);
      var e := UserEdit(t.spec, t.spec.framework, t.meta.finalizers - {f});
      assert e.foreign + t.meta.finalizers * {f} == t.meta.finalizers;
      EditRelies(cfg, edits, s, e);
    }
  }

  lemma FinalizerWrite(cfg: Config, edits: bool, s: Store, t: Task, s': Store, r: Reply)
    requires StoreOk(cfg, edits, s) && Snapshot(cfg, s, t) && !t.meta.deleting
    requires Serves(s, UpdateTask(cfg.name, WithFinalizer(t, Finalizer(cfg.kind))), s', r)
    ensures StoreOk(cfg, edits, s') && Rely(cfg, edits, s, s') && s'.now == s.now
    ensures r.TaskIs? ==> Carries(cfg, edits, s', r.task) && !r.task.meta.deleting
  {
  }

  lemma ReleaseWrite(cfg: Config, edits: bool, s: Store, t: Task, s': Store, r: Reply)
    requires StoreOk(cfg, edits, s) && KnowsRelease(cfg, edits, s, Release(t))
    requires Serves(s, UpdateTask(cfg.name, WithoutFinalizer(t, Finalizer(cfg.kind))), s', r)
    ensures StoreOk(cfg, edits, s') && Evolves(cfg, s, s') && s'.now == s.now
  {
  }

  lemma Creation(cfg: Config, edits: bool, s: Store, t: Task, res: Resource, s': Store, r: Reply)
    requires StoreOk(cfg, edits, s) && Carries(cfg, edits, s, t) && (cfg.kind == Eval <==> res == Jobs)
    requires Serves(s, CreateChild(ChildKey(cfg, res, t), NewChild(cfg, res, t)), s', r)
    ensures StoreOk(cfg, edits, s') && Carries(cfg, edits, s', t) && Evolves(cfg, s, s') && s'.now == s.now
  {
  }

  lemma Deletion(cfg: Config, edits: bool, s: Store, key: Key, s': Store, r: Reply)
    requires StoreOk(cfg, edits, s) && Serves(s, DeleteChild(key), s', r)
    ensures StoreOk(cfg, edits, s') && Rely(cfg, edits, s, s') && s'.now == s.now
    ensures !r.Fault? && Unfinalized(s, key) ==> key !in s'.children
  {
    DeleteChildRelies(cfg, edits, s, key);
  }

  lemma StripApplies(s: Store, key: Key, c: Child, f: string)
    requires ChildSnapshot(s, key, c)
    ensures var a := Apply(s, UpdateChild(key, Stripped(c, f)));
            || (a.store == s && !a.reply.ChildIs? && (a.reply.NotFound? ==> key !in s.children))
            || (key in s.children && s.children[key] == c
                && (a.store == DropChild(s, key) || a.store == PutChild(s, key, Stripped(c, f))))
  {
  }

  lemma Strip(cfg: Config, edits: bool, s: Store, key: Key, c: Child, f: string, s': Store, r: Reply)
    requires StoreOk(cfg, edits, s) && ChildSnapshot(s, key, c)
    requires Serves(s, UpdateChild(key, Stripped(c, f)), s', r)
    ensures StoreOk(cfg, edits, s') && Rely(cfg, edits, s, s') && s'.now == s.now
    ensures f == ROUTE_FINALIZER && (r.ChildIs? || r.NotFound?) ==> Unfinalized(s', key)
  {
    StripApplies(s, key, c, f);
    if s' == DropChild(s, key) {
      DropChildRelies(cfg, edits, s, key);
    } else if s' != s {
      StripPuts(cfg, edits, s, key, c, f);
    }
  }

  lemma StripPuts(cfg: Config, edits: bool, s: Store, key: Key, c: Child, f: string)
    requires StoreOk(cfg, edits, s) && key in s.children && s.children[key] == c
    ensures var s' := PutChild(s, key, Stripped(c, f));
            StoreOk(cfg, edits, s') && Rely(cfg, edits, s, s') && (f == ROUTE_FINALIZER ==> Unfinalized(s', key))
  {
    PutChildRelies(cfg, edits, s, key, Stripped(c, f));
  }

  /** Where `Reconcile` goes after its first read, and after the dispatch, is in order. */
  lemma DispatchKnows(cfg: Config, edits: bool, s: Store, t: Task, x: Input)
    requires StoreOk(cfg, edits, s) && Carries(cfg, edits, s, t) && !t.meta.deleting && x.now == s.now
    ensures Knows(cfg, edits, s, Dispatch(cfg, t, x))
  {
  }

  lemma FetchKnows(cfg: Config, edits: bool, s: Store, x: Input)
    requires StoreOk(cfg, edits, s) && cfg.name in s.tasks && x.now == s.now
    ensures Knows(cfg, edits, s, AfterFetch(cfg, s.tasks[cfg.name], x))
  {
    var t := s.tasks[cfg.name];
    if Finalizer(cfg.kind) in t.meta.finalizers && !t.meta.deleting { DispatchKnows(cfg, edits, s, t, x); }
  }

  lemma ScanKnows(cfg: Config, edits: bool, s: Store, t: Task, replicas: int, pods: seq<Pod>)
    requires KnowsRunning(cfg, edits, s, RunLookup(t))
    ensures Knows(cfg, edits, s, Scan(t, replicas, pods))
  {
    if pods != [] { ScanKnows(cfg, edits, s, t, replicas, pods[1..]); }
  }

  ghost predicate Kept(cfg: Config, edits: bool, a: Store, b: Store, c: Ctl) {
    StoreOk(cfg, edits, b) && Evolves(cfg, a, b) && Knows(cfg, edits, b, c)
  }

  lemma EntryKept(cfg: Config, edits: bool, a: Store, c: EntryPc, b: Store, r: Reply, x: Input)
    requires StoreOk(cfg, edits, a) && KnowsEntry(cfg, a, c) && x.now == a.now && Serves(a, RequestEntry(cfg, c), b, r)
    ensures Kept(cfg, edits, a, b, ResumeEntry(cfg, c, r, x))
  {
    match c
    case Fetch => if r.TaskIs? { FetchKnows(cfg, edits, a, x); }
    case SetLabel(t) => LabelWrite(cfg, edits, a, t, b, r);
    case AddFinalizer(t) =>
      FinalizerWrite(cfg, edits, a, t, b, r);
      if r.TaskIs? { DispatchKnows(cfg, edits, b, r.task, x); }
  }

  lemma PendingKept(cfg: Config, edits: bool, a: Store, c: PendingPc, b: Store, r: Reply, x: Input)
    requires StoreOk(cfg, edits, a) && KnowsPending(cfg, edits, a, c) && x.now == a.now
    requires Serves(a, RequestPending(cfg, c), b, r)
    ensures Kept(cfg, edits, a, b, ResumePending(cfg, c, r, x))
  {
    match c
    case PendingCheck =>
    case PendingReread =>
    case PendingRefresh =>
    case PendingLabel(t) => LabelWrite(cfg, edits, a, t, b, r);
    case PendingCommit(t, start) => StatusWrite(cfg, edits, a, t, WithStart(t, Creating, start), b, r);
  }

  lemma CreatingKept(cfg: Config, edits: bool, a: Store, c: CreatingPc, b: Store, r: Reply, x: Input)
    requires StoreOk(cfg, edits, a) && KnowsCreating(cfg, edits, a, c) && x.now == a.now
    requires Serves(a, RequestCreating(cfg, c), b, r)
    ensures Kept(cfg, edits, a, b, ResumeCreating(cfg, c, r, x))
  {
    match c
    case CreateLookup(_) =>
    case CreateDeploy(t) => Creation(cfg, edits, a, t, Deployments, b, r);
    case CommitRunning(t, url) => StatusWrite(cfg, edits, a, t, AsRunning(cfg, t, url), b, r);
  }

  lemma AfterSvcKnows(cfg: Config, edits: bool, s: Store, stage: Phase, t: Task, x: Input)
    requires StoreOk(cfg, edits, s) && KnowsEnsure(cfg, edits, s, SvcLookup(stage, t)) && x.now == s.now
    ensures Knows(cfg, edits, s, AfterSvc(cfg, stage, t, x))
  {
  }

  lemma SvcKept(cfg: Config, edits: bool, a: Store, c: EnsurePc, b: Store, r: Reply, x: Input)
    requires StoreOk(cfg, edits, a) && KnowsEnsure(cfg, edits, a, c) && x.now == a.now
    requires Serves(a, RequestEnsure(cfg, c), b, r)
    requires c.SvcLookup? || c.SvcCreate?
    ensures Kept(cfg, edits, a, b, ResumeEnsure(cfg, c, r, x))
  {
    if c.SvcCreate? {
      Creation(cfg, edits, a, c.t, Services, b, r);
      AfterSvcKnows(cfg, edits, b, c.stage, c.t, x);
    } else {
      assert b == a;
      AfterSvcKnows(cfg, edits, b, c.stage, c.t, x);
    }
  }

  lemma RouteKept(cfg: Config, edits: bool, a: Store, c: EnsurePc, b: Store, r: Reply, x: Input)
    requires StoreOk(cfg, edits, a) && KnowsEnsure(cfg, edits, a, c) && x.now == a.now
    requires Serves(a, RequestEnsure(cfg, c), b, r)
    requires c.RouteLookup? || c.RouteCreate?
    ensures Kept(cfg, edits, a, b, ResumeEnsure(cfg, c, r, x))
  {
    if c.RouteCreate? { Creation(cfg, edits, a, c.t, Routes, b, r); }
  }

  lemma EnsureKept(cfg: Config, edits: bool, a: Store, c: EnsurePc, b: Store, r: Reply, x: Input)
    requires StoreOk(cfg, edits, a) && KnowsEnsure(cfg, edits, a, c) && x.now == a.now
    requires Serves(a, RequestEnsure(cfg, c), b, r)
    ensures Kept(cfg, edits, a, b, ResumeEnsure(cfg, c, r, x))
  {
    if c.SvcLookup? || c.SvcCreate? {
      SvcKept(cfg, edits, a, c, b, r, x);
    } else {
      RouteKept(cfg, edits, a, c, b, r, x);
    }
  }

  /** Asking for the pods, or for one more note, and going on with the loop. */
  lemma PodsKept(cfg: Config, edits: bool, a: Store, c: RunningPc, b: Store, r: Reply, x: Input)
    requires StoreOk(cfg, edits, a) && KnowsRunning(cfg, edits, a, c) && x.now == a.now
    requires Serves(a, RequestRunning(cfg, c), b, r) && (c.RunPods? || c.NotePod?)
    ensures Kept(cfg, edits, a, b, ResumeRunning(cfg, c, r, x))
  {
    match c
    case RunPods(t, replicas) => if r.PodList? { ScanKnows(cfg, edits, b, t, replicas, r.pods); }
    case NotePod(t, m, replicas, rest) =>
      StatusWrite(cfg, edits, a, t, WithMessage(t, m), b, r);
      if r.TaskIs? { ScanKnows(cfg, edits, b, r.task, replicas, rest); }
  }

  lemma RunningWriteKept(cfg: Config, edits: bool, a: Store, c: RunningPc, b: Store, r: Reply, x: Input)
    requires StoreOk(cfg, edits, a) && KnowsRunning(cfg, edits, a, c) && x.now == a.now
    requires Serves(a, RequestRunning(cfg, c), b, r) && (c.Regress? || c.CommitUrl?)
    ensures Kept(cfg, edits, a, b, ResumeRunning(cfg, c, r, x))
  {
    match c
    case Regress(t) => StatusWrite(cfg, edits, a, t, WithPhase(t, Creating), b, r);
    case CommitUrl(t, url) => StatusWrite(cfg, edits, a, t, WithUrl(t, url), b, r);
  }

  lemma RunningKept(cfg: Config, edits: bool, a: Store, c: RunningPc, b: Store, r: Reply, x: Input)
    requires StoreOk(cfg, edits, a) && KnowsRunning(cfg, edits, a, c) && x.now == a.now
    requires Serves(a, RequestRunning(cfg, c), b, r)
    ensures Kept(cfg, edits, a, b, ResumeRunning(cfg, c, r, x))
  {
    if c.RunPods? || c.NotePod? { PodsKept(cfg, edits, a, c, b, r, x); }
    else if c.Regress? || c.CommitUrl? { RunningWriteKept(cfg, edits, a, c, b, r, x); }
    else if c.Recreate? { Creation(cfg, edits, a, c.t, Deployments, b, r); }
  }

  lemma EndKept(cfg: Config, edits: bool, a: Store, c: EndPc, b: Store, r: Reply, x: Input)
    requires StoreOk(cfg, edits, a) && KnowsEnd(cfg, edits, a, c) && x.now == a.now
    requires Serves(a, RequestEnd(cfg, c), b, r)
    ensures Kept(cfg, edits, a, b, ResumeEnd(cfg, c, r, x))
  {
    match c
    case Conclude(t, p, m) => StatusWrite(cfg, edits, a, t, WithVerdict(t, p, m), b, r);
    case CommitEnd(t, end) => StatusWrite(cfg, edits, a, t, WithEnd(t, end), b, r);
  }

  /** With frameworks fixed, a kind of child is gone once the child of the current name is. */
  lemma NoneLeft(cfg: Config, edits: bool, s: Store, t: Task, r: Resource)
    requires StoreOk(cfg, edits, s) && Carries(cfg, edits, s, t) && ChildKey(cfg, r, t) !in s.children
    ensures NoneOf(edits, s, r)
  {
  }

  lemma DropLookupKept(cfg: Config, edits: bool, a: Store, t: Task, b: Store, r: Reply)
    requires StoreOk(cfg, edits, a) && KnowsDrop(cfg, edits, a, DropLookup(t))
    requires Serves(a, RequestDrop(cfg, DropLookup(t)), b, r) && !r.Fault?
    ensures Kept(cfg, edits, a, b, ResumeDrop(cfg, DropLookup(t), r))
  {
    if !r.ChildIs? { NoneLeft(cfg, edits, a, t, Deployments); }
  }

  lemma DropDeployKept(cfg: Config, edits: bool, a: Store, t: Task, b: Store, r: Reply)
    requires StoreOk(cfg, edits, a) && KnowsDrop(cfg, edits, a, DropDeploy(t))
    requires Serves(a, RequestDrop(cfg, DropDeploy(t)), b, r)
    ensures Kept(cfg, edits, a, b, ResumeDrop(cfg, DropDeploy(t), r))
  {
    Deletion(cfg, edits, a, ChildKey(cfg, Deployments, t), b, r);
    RelyKeepsCarries(cfg, edits, a, b, t);
    if r.Ok? || r.NotFound? {
      PlainChild(cfg, edits, a, ChildKey(cfg, Deployments, t));
      NoneLeft(cfg, edits, b, t, Deployments);
    }
  }

  lemma PlainChild(cfg: Config, edits: bool, s: Store, key: Key)
    requires StoreOk(cfg, edits, s) && key.resource != Routes
    ensures Unfinalized(s, key)
  {
  }

  lemma DropSvcLookupKept(cfg: Config, edits: bool, a: Store, t: Task, b: Store, r: Reply)
    requires StoreOk(cfg, edits, a) && KnowsDrop(cfg, edits, a, DropSvcLookup(t))
    requires Serves(a, RequestDrop(cfg, DropSvcLookup(t)), b, r) && !r.Fault?
    ensures Kept(cfg, edits, a, b, ResumeDrop(cfg, DropSvcLookup(t), r))
  {
    if !r.ChildIs? { NoneLeft(cfg, edits, a, t, Services); }
  }

  lemma DropSvcKept(cfg: Config, edits: bool, a: Store, t: Task, b: Store, r: Reply)
    requires StoreOk(cfg, edits, a) && KnowsDrop(cfg, edits, a, DropSvc(t))
    requires Serves(a, RequestDrop(cfg, DropSvc(t)), b, r)
    ensures Kept(cfg, edits, a, b, ResumeDrop(cfg, DropSvc(t), r))
  {
    Deletion(cfg, edits, a, ChildKey(cfg, Services, t), b, r);
    RelyKeepsCarries(cfg, edits, a, b, t);
    RelyKeepsChildren(cfg, edits, a, b, []);
    if r.Ok? || r.NotFound? {
      PlainChild(cfg, edits, a, ChildKey(cfg, Services, t));
      NoneLeft(cfg, edits, b, t, Services);
    }
  }

  lemma DropKept(cfg: Config, edits: bool, a: Store, c: DropPc, b: Store, r: Reply)
    requires StoreOk(cfg, edits, a) && KnowsDrop(cfg, edits, a, c) && Serves(a, RequestDrop(cfg, c), b, r)
    requires c.DropLookup? || c.DropSvcLookup? ==> !r.Fault?
    ensures Kept(cfg, edits, a, b, ResumeDrop(cfg, c, r))
  {
    match c
    case DropLookup(t) => DropLookupKept(cfg, edits, a, t, b, r);
    case DropDeploy(t) => DropDeployKept(cfg, edits, a, t, b, r);
    case DropSvcLookup(t) => DropSvcLookupKept(cfg, edits, a, t, b, r);
    case DropSvc(t) => DropSvcKept(cfg, edits, a, t, b, r);
  }

  lemma ReleaseKept(cfg: Config, edits: bool, a: Store, c: ReleasePc, b: Store, r: Reply)
    requires StoreOk(cfg, edits, a) && KnowsRelease(cfg, edits, a, c) && Serves(a, RequestRelease(cfg, c), b, r)
    requires c.DropJobLookup? ==> !r.Fault?
    ensures Kept(cfg, edits, a, b, ResumeRelease(cfg, c, r))
  {
    match c
    case DropJobLookup(_) =>
    case DropJob(t) =>
      Deletion(cfg, edits, a, ChildKey(cfg, Jobs, t), b, r);
      RelyKeepsCarries(cfg, edits, a, b, t);
    case Release(t) => ReleaseWrite(cfg, edits, a, t, b, r);
  }

  lemma JobKept(cfg: Config, edits: bool, a: Store, c: EvalPc, b: Store, r: Reply, x: Input)
    requires StoreOk(cfg, edits, a) && KnowsEval(cfg, edits, a, c) && x.now == a.now
    requires Serves(a, RequestEval(cfg, c), b, r)
    requires c.JobLookup? || c.JobCreate? || c.CheckJob?
    ensures Kept(cfg, edits, a, b, ResumeEval(cfg, c, r, x))
  {
    if c.JobCreate? { Creation(cfg, edits, a, c.t, Jobs, b, r); }
  }

  lemma EvalStatusKept(cfg: Config, edits: bool, a: Store, c: EvalPc, b: Store, r: Reply, x: Input)
    requires StoreOk(cfg, edits, a) && KnowsEval(cfg, edits, a, c) && x.now == a.now
    requires Serves(a, RequestEval(cfg, c), b, r)
    requires c.EvalLabel? || c.EvalCommit? || c.Report?
    ensures Kept(cfg, edits, a, b, ResumeEval(cfg, c, r, x))
  {
    match c
    case EvalLabel(t) => LabelWrite(cfg, edits, a, t, b, r);
    case EvalCommit(t, start) => StatusWrite(cfg, edits, a, t, WithStart(t, Running, start), b, r);
    case Report(t, p, m) => StatusWrite(cfg, edits, a, t, AsReported(cfg, t, p, m), b, r);
  }

  lemma EvalKept(cfg: Config, edits: bool, a: Store, c: EvalPc, b: Store, r: Reply, x: Input)
    requires StoreOk(cfg, edits, a) && KnowsEval(cfg, edits, a, c) && x.now == a.now
    requires Serves(a, RequestEval(cfg, c), b, r)
    ensures Kept(cfg, edits, a, b, ResumeEval(cfg, c, r, x))
  {
    if c.JobLookup? || c.JobCreate? || c.CheckJob? { JobKept(cfg, edits, a, c, b, r, x); }
    else { EvalStatusKept(cfg, edits, a, c, b, r, x); }
  }

  lemma StripRouteKept(cfg: Config, edits: bool, a: Store, t: Task, child: Child, b: Store, r: Reply)
    requires StoreOk(cfg, edits, a) && KnowsUnroute(cfg, edits, a, StripRoute(t, child))
    requires Serves(a, RequestUnroute(cfg, StripRoute(t, child)), b, r)
    ensures Kept(cfg, edits, a, b, ResumeUnroute(cfg, StripRoute(t, child), r))
  {
    Strip(cfg, edits, a, ChildKey(cfg, Routes, t), child, StrippedFinalizer(cfg.kind), b, r);
    RelyKeepsUnroute(cfg, edits, a, b, StripRoute(t, child));
    if cfg.kind == Inf { PlainRoute(cfg, edits, b, ChildKey(cfg, Routes, t)); }
  }

  /** Only DevTask routes ever carry a finalizer. */
  lemma PlainRoute(cfg: Config, edits: bool, s: Store, key: Key)
    requires StoreOk(cfg, edits, s) && cfg.kind != Dev
    ensures Unfinalized(s, key)
  {
  }

  lemma DropRouteKept(cfg: Config, edits: bool, a: Store, t: Task, b: Store, r: Reply)
    requires StoreOk(cfg, edits, a) && KnowsUnroute(cfg, edits, a, DropRoute(t))
    requires Serves(a, RequestUnroute(cfg, DropRoute(t)), b, r)
    ensures Kept(cfg, edits, a, b, ResumeUnroute(cfg, DropRoute(t), r))
  {
    Deletion(cfg, edits, a, ChildKey(cfg, Routes, t), b, r);
    RelyKeepsUnroute(cfg, edits, a, b, DropRoute(t));
    if (r.Ok? || r.NotFound?) && cfg.kind != Dev { RouteGone(cfg, edits, b, t); }
  }

  /** With frameworks fixed, and no list of routes, the route of the current name is the last child. */
  lemma RouteGone(cfg: Config, edits: bool, s: Store, t: Task)
    requires StoreOk(cfg, edits, s) && KnowsUnroute(cfg, edits, s, DropRoute(t)) && cfg.kind != Dev
    requires ChildKey(cfg, Routes, t) !in s.children
    ensures NoGuarded(cfg, edits, s)
  {
  }

  lemma RouteLookupKept(cfg: Config, edits: bool, a: Store, t: Task, b: Store, r: Reply)
    requires StoreOk(cfg, edits, a) && KnowsUnroute(cfg, edits, a, DropRouteLookup(t))
    requires Serves(a, RequestUnroute(cfg, DropRouteLookup(t)), b, r) && !r.Fault?
    ensures Kept(cfg, edits, a, b, ResumeUnroute(cfg, DropRouteLookup(t), r))
  {
    if !r.ChildIs? && cfg.kind != Dev { RouteGone(cfg, edits, b, t); }
  }

  lemma NamedRouteKept(cfg: Config, edits: bool, a: Store, c: UnroutePc, b: Store, r: Reply)
    requires StoreOk(cfg, edits, a) && KnowsUnroute(cfg, edits, a, c) && Serves(a, RequestUnroute(cfg, c), b, r)
    requires c.DropRouteLookup? || c.StripRoute? || c.DropRoute?
    requires c.DropRouteLookup? ==> !r.Fault?
    ensures Kept(cfg, edits, a, b, ResumeUnroute(cfg, c, r))
  {
    match c
    case DropRouteLookup(t) => RouteLookupKept(cfg, edits, a, t, b, r);
    case StripRoute(t, child) => StripRouteKept(cfg, edits, a, t, child, b, r);
    case DropRoute(t) => DropRouteKept(cfg, edits, a, t, b, r);
  }

  lemma ListRemains(cfg: Config, edits: bool, s: Store, items: seq<Item>)
    requires StoreOk(cfg, edits, s) && ListsRoutes(s, cfg.name, items) && cfg.kind == Dev
    ensures Remaining(s, items)
  {
    forall key | key in s.children && key.resource == Routes
      ensures exists i :: 0 <= i < |items| && items[i].key == key
    {
      assert IsRoute(s, cfg.name, key);
    }
  }

  lemma TailRemains(s: Store, items: seq<Item>)
    requires items != [] && Remaining(s, items) && items[0].key !in s.children
    ensures Remaining(s, items[1..])
  {
    forall key | key in s.children && key.resource == Routes
      ensures exists i :: 0 <= i < |items[1..]| && items[1..][i].key == key
    {
      var i :| 0 <= i < |items| && items[i].key == key;
      assert items[1..][i-1].key == key;
    }
  }

  lemma NextRouteKnows(cfg: Config, edits: bool, s: Store, t: Task, items: seq<Item>)
    requires StoreOk(cfg, edits, s) && KnowsUnroute(cfg, edits, s, ListOwn(t)) && Remaining(s, items)
    ensures Knows(cfg, edits, s, NextRoute(t, items))
  {
  }

  lemma ListedRouteKept(cfg: Config, edits: bool, a: Store, c: UnroutePc, b: Store, r: Reply)
    requires StoreOk(cfg, edits, a) && KnowsUnroute(cfg, edits, a, c) && Serves(a, RequestUnroute(cfg, c), b, r)
    requires c.ListOwn? || c.StripEach? || c.DropEach?
    requires c.ListOwn? ==> !r.Fault?
    ensures Kept(cfg, edits, a, b, ResumeUnroute(cfg, c, r))
  {
    match c
    case ListOwn(t) =>
      ListRemains(cfg, edits, a, r.items);
      NextRouteKnows(cfg, edits, a, t, r.items);
    case StripEach(t, items) =>
      Strip(cfg, edits, a, items[0].key, items[0].child, ROUTE_FINALIZER, b, r);
      RelyKeepsUnroute(cfg, edits, a, b, c);
    case DropEach(t, items) =>
      Deletion(cfg, edits, a, items[0].key, b, r);
      RelyKeepsUnroute(cfg, edits, a, b, c);
      if r.Ok? || r.NotFound? {
        TailRemains(b, items);
        NextRouteKnows(cfg, edits, b, t, items[1..]);
      }
  }
}
