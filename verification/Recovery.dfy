/** Recovery: from whatever a crash, a lost reply or another controller left behind, undisturbed
    reconciles bring a live task to running with all its children, and then change nothing. */
module Recovery {
  import opened Cluster
  import opened Machine

  /** `s` reaches `e`, where the reconcile is done, by calls that are answered without faults and
      with nothing happening in between. */
  ghost predicate Quiet(cfg: Config, s: State, e: State, calls: nat)
    decreases calls
  {
    if s.ctl.Done? then e == s
    else
      calls > 0 && exists r, x, m :: QuietCall(cfg, s, r, x, m) && Quiet(cfg, m, e, calls - 1)
  }

  ghost predicate QuietCall(cfg: Config, s: State, r: Reply, x: Input, m: State) {
    CallStep(cfg, s, r, x, m) && Answers(s.store, Request(cfg, s.ctl), m.store, r)
  }

  /** One undisturbed reconcile takes the store from `a` to `b`. */
  ghost predicate Reconciles(cfg: Config, a: Store, b: Store) {
    exists e, calls: nat :: Quiet(cfg, State(a, AtEntry(Fetch), []), e, calls) && e.store == b
  }

  /** A call of a quiet reconcile is a step of a run. */
  lemma QuietIsStep(cfg: Config, edits: bool, s: State, r: Reply, x: Input, m: State)
    requires QuietCall(cfg, s, r, x, m)
    ensures Step(cfg, edits, s, Call(r, x), m)
  {
  }

  /** Nothing about the pod makes the running handler give up on the task. */
  predicate Healthy(p: Pod) {
    FirstBad(p.waiting).None? && (p.phase == PodUnset || p.phase == PodPending || p.phase == PodRunning)
  }

  predicate Has(cfg: Config, s: Store, r: Resource)
    requires cfg.name in s.tasks
  {
    ChildKey(cfg, r, s.tasks[cfg.name]) in s.children
  }

  /** A live task that is not finished, with healthy pods and replicas wanted. */
  predicate Ready(cfg: Config, s: Store) {
    && cfg.kind != Eval && cfg.name in s.tasks
    && var t := s.tasks[cfg.name];
    && !t.meta.deleting
    && (IsPending(t.status.phase) || t.status.phase == Creating || t.status.phase == Running)
    && (forall p :: p in s.pods && Selects(PodSelector(cfg, t), p) ==> Healthy(p))
    && (cfg.kind == Inf ==> t.spec.replicas != 0)
    && (Has(cfg, s, Deployments) ==> s.children[ChildKey(cfg, Deployments, t)].replicas != 0)
  }

  /** Nothing but the Deployment may be missing: Service present, and route present when wanted. */
  predicate Exposed(cfg: Config, s: Store)
    requires cfg.name in s.tasks
  {
    Has(cfg, s, Services) && (s.tasks[cfg.name].spec.routed ==> Has(cfg, s, Routes))
  }

  /** How many reconciles are left: one each for the label and the finalizer of an InferenceTask,
      two from pending, one from creating, two to bring a Deployment back, one for the rest. */
  function Distance(cfg: Config, s: Store): nat
    requires Ready(cfg, s)
  {
    var t := s.tasks[cfg.name];
    (if cfg.kind == Inf && t.frameworkLabel != t.spec.framework then 1 else 0)
    + (if cfg.kind == Inf && Finalizer(cfg.kind) !in t.meta.finalizers then 1 else 0)
    + (if IsPending(t.status.phase) then 2
       else if t.status.phase == Creating then 1
       else if !Has(cfg, s, Deployments) then 2
       else if !Exposed(cfg, s) then 1
       else 0)
  }

  /** Equal but for versions, message and URL. */
  predicate SameBut(cfg: Config, a: Store, b: Store)
    requires cfg.name in a.tasks && cfg.name in b.tasks
  {
    var t, t' := a.tasks[cfg.name], b.tasks[cfg.name];
    && a.children == b.children && a.pods == b.pods
    && t' == t.(meta := t'.meta, status := t'.status)
    && t'.meta == t.meta.(version := t'.meta.version)
    && t'.status == t.status.(message := t'.status.message, url := t'.status.url)
  }

  /** What an undisturbed reconcile never changes. */
  predicate Base(cfg: Config, a: Store, b: Store) {
    && Ready(cfg, a) && cfg.name in b.tasks
    && var t, t' := a.tasks[cfg.name], b.tasks[cfg.name];
    && t'.uid == t.uid && t'.spec == t.spec && !t'.meta.deleting
    && (forall n :: n in b.tasks ==> n in a.tasks)
    && b.pods == a.pods && b.now == a.now
    && (forall key :: key in a.children ==> key in b.children && b.children[key] == a.children[key])
    && (Has(cfg, b, Deployments) ==> b.children[ChildKey(cfg, Deployments, t')].replicas != 0)
  }

  predicate Full(cfg: Config, a: Store)
    requires cfg.name in a.tasks
  {
    Has(cfg, a, Deployments) && Exposed(cfg, a)
  }

  /** `t` is the stored task with label and finalizer in place; its status is still the one the
      reconcile began with, and if no child was missing none was written. */
  predicate Current(cfg: Config, a: Store, b: Store, t: Task) {
    && Base(cfg, a, b)
    && t == b.tasks[cfg.name]
    && Finalizer(cfg.kind) in t.meta.finalizers
    && var t0 := a.tasks[cfg.name];
    && t.status == t0.status.(message := t.status.message)
    && (cfg.kind == Inf ==> t.frameworkLabel == t.spec.framework && Finalizer(cfg.kind) in t0.meta.finalizers)
    && (cfg.kind == Inf || !IsPending(t.status.phase) ==>
          t.frameworkLabel == t0.frameworkLabel
          && (Finalizer(cfg.kind) in t0.meta.finalizers ==> t.meta.finalizers == t0.meta.finalizers))
    && (Full(cfg, a) ==> b.children == a.children)
  }

  predicate AtEntryQ(cfg: Config, a: Store, b: Store, c: EntryPc) {
    Ready(cfg, a) && b == a &&
    match c
    case Fetch => true
    case SetLabel(t) => t == a.tasks[cfg.name] && cfg.kind == Inf && t.frameworkLabel != t.spec.framework
    case AddFinalizer(t) =>
      && t == a.tasks[cfg.name] && Finalizer(cfg.kind) !in t.meta.finalizers
      && (cfg.kind == Inf ==> t.frameworkLabel == t.spec.framework)
  }

  predicate AtPendingQ(cfg: Config, a: Store, b: Store, c: PendingPc) {
    && cfg.name in b.tasks && IsPending(b.tasks[cfg.name].status.phase)
    && Current(cfg, a, b, if c.PendingLabel? || c.PendingCommit? then c.t else b.tasks[cfg.name])
  }

  predicate AtCreatingQ(cfg: Config, a: Store, b: Store, c: CreatingPc) {
    && Current(cfg, a, b, c.t) && c.t.status.phase == Creating
    && (c.CreateDeploy? ==> !Has(cfg, b, Deployments))
    && (c.CommitRunning? ==> Full(cfg, b))
  }

  predicate AtEnsureQ(cfg: Config, a: Store, b: Store, c: EnsurePc) {
    && Current(cfg, a, b, c.t) && c.t.status.phase == c.stage && (c.stage == Creating || c.stage == Running)
    && Has(cfg, b, Deployments) && (c.stage == Running ==> Has(cfg, a, Deployments))
    && match c
       case SvcLookup(_, _) => true
       case SvcCreate(_, _) => !Has(cfg, b, Services)
       case RouteLookup(_, t) => Has(cfg, b, Services) && t.spec.routed
       case RouteCreate(_, t) => Has(cfg, b, Services) && t.spec.routed && !Has(cfg, b, Routes)
  }

  predicate AtRunningQ(cfg: Config, a: Store, b: Store, c: RunningPc) {
    && Current(cfg, a, b, c.t) && c.t.status.phase == Running
    && match c
       case RunLookup(_) => b.children == a.children
       case Recreate(_) => b.children == a.children && !Has(cfg, a, Deployments)
       case Regress(_) => !Has(cfg, a, Deployments) && Has(cfg, b, Deployments)
       case RunPods(_, replicas) => replicas != 0 && Has(cfg, a, Deployments)
       case NotePod(_, _, replicas, rest) =>
         replicas != 0 && Has(cfg, a, Deployments) && (forall p :: p in rest ==> Healthy(p))
       case CommitUrl(_, _) => Has(cfg, a, Deployments) && Full(cfg, b)
  }

  /** The result of an undisturbed reconcile: nearer, or there already and then unchanged. */
  predicate Nearer(cfg: Config, a: Store, b: Store) {
    && Ready(cfg, a) && Ready(cfg, b)
    && (Distance(cfg, b) < Distance(cfg, a) || Distance(cfg, b) == Distance(cfg, a) == 0)
    && (Distance(cfg, a) == 0 && Finalizer(cfg.kind) in a.tasks[cfg.name].meta.finalizers ==> SameBut(cfg, a, b))
  }

  predicate AtQ(cfg: Config, a: Store, b: Store, c: Ctl) {
    match c
    case Done(_, _) => Nearer(cfg, a, b)
    case AtEntry(c) => AtEntryQ(cfg, a, b, c)
    case AtPending(c) => AtPendingQ(cfg, a, b, c)
    case AtCreating(c) => AtCreatingQ(cfg, a, b, c)
    case AtEnsure(c) => AtEnsureQ(cfg, a, b, c)
    case AtRunning(c) => AtRunningQ(cfg, a, b, c)
    case _ => false
  }

  lemma EntryQuiet(cfg: Config, a: Store, b: Store, c: EntryPc, b': Store, r: Reply, x: Input)
    requires AtEntryQ(cfg, a, b, c) && Answers(b, RequestEntry(cfg, c), b', r)
    ensures AtQ(cfg, a, b', ResumeEntry(cfg, c, r, x))
  {
  }

  lemma PendingQuiet(cfg: Config, a: Store, b: Store, c: PendingPc, b': Store, r: Reply, x: Input)
    requires AtPendingQ(cfg, a, b, c) && Answers(b, RequestPending(cfg, c), b', r)
    ensures AtQ(cfg, a, b', ResumePending(cfg, c, r, x))
  {
  }

  lemma CreatingQuiet(cfg: Config, a: Store, b: Store, c: CreatingPc, b': Store, r: Reply, x: Input)
    requires AtCreatingQ(cfg, a, b, c) && Answers(b, RequestCreating(cfg, c), b', r)
    ensures AtQ(cfg, a, b', ResumeCreating(cfg, c, r, x))
  {
  }

  lemma EnsureQuiet(cfg: Config, a: Store, b: Store, c: EnsurePc, b': Store, r: Reply, x: Input)
    requires AtEnsureQ(cfg, a, b, c) && Answers(b, RequestEnsure(cfg, c), b', r)
    ensures AtQ(cfg, a, b', ResumeEnsure(cfg, c, r, x))
  {
  }

  lemma {:induction false} ScanQuiet(cfg: Config, a: Store, b: Store, t: Task, replicas: int, pods: seq<Pod>)
    requires AtRunningQ(cfg, a, b, RunPods(t, replicas)) && Has(cfg, b, Deployments)
    requires forall p :: p in pods ==> Healthy(p)
    ensures AtQ(cfg, a, b, Scan(t, replicas, pods))
  {
    if pods != [] {
      assert Healthy(pods[0]);
      if pods[0].phase == PodUnset { ScanQuiet(cfg, a, b, t, replicas, pods[1..]); }
    }
  }

  lemma RunningQuiet(cfg: Config, a: Store, b: Store, c: RunningPc, b': Store, r: Reply, x: Input)
    requires AtRunningQ(cfg, a, b, c) && Answers(b, RequestRunning(cfg, c), b', r)
    ensures AtQ(cfg, a, b', ResumeRunning(cfg, c, r, x))
  {
    match c
    case RunLookup(_) =>
    case Recreate(_) =>
    case Regress(_) =>
    case RunPods(t, replicas) => ScanQuiet(cfg, a, b', t, replicas, r.pods);
    case NotePod(_, _, replicas, rest) => ScanQuiet(cfg, a, b', r.task, replicas, rest);
    case CommitUrl(_, _) =>
  }

  lemma {:induction false} QuietKeeps(cfg: Config, a: Store, s: State, e: State, calls: nat)
    requires AtQ(cfg, a, s.store, s.ctl) && Quiet(cfg, s, e, calls)
    ensures Nearer(cfg, a, e.store)
    decreases calls
  {
    if !s.ctl.Done? {
      var r, x, m :| QuietCall(cfg, s, r, x, m) && Quiet(cfg, m, e, calls - 1);
      match s.ctl {
        case AtEntry(c) => EntryQuiet(cfg, a, s.store, c, m.store, r, x);
        case AtPending(c) => PendingQuiet(cfg, a, s.store, c, m.store, r, x);
        case AtCreating(c) => CreatingQuiet(cfg, a, s.store, c, m.store, r, x);
        case AtEnsure(c) => EnsureQuiet(cfg, a, s.store, c, m.store, r, x);
        case AtRunning(c) => RunningQuiet(cfg, a, s.store, c, m.store, r, x);
      }
      QuietKeeps(cfg, a, m, e, calls - 1);
    }
  }

  /** Every undisturbed reconcile of a live task brings it nearer, or finds everything in place and
      changes nothing but versions, message and URL. */
  lemma ReconcileRecovers(cfg: Config, a: Store, b: Store)
    requires Ready(cfg, a) && Reconciles(cfg, a, b)
    ensures Nearer(cfg, a, b)
  {
    var e, calls: nat :| Quiet(cfg, State(a, AtEntry(Fetch), []), e, calls) && e.store == b;
    QuietKeeps(cfg, a, State(a, AtEntry(Fetch), []), e, calls);
  }

  /** What may happen between two reconciles without setting the task back: it stays live, keeps its
      framework, label, phase and finalizer, asks for no route it did not ask for, and no child goes. */
  predicate Calm(cfg: Config, a: Store, b: Store) {
    && Ready(cfg, a) && Ready(cfg, b)
    && var t, t' := a.tasks[cfg.name], b.tasks[cfg.name];
    && t'.spec.framework == t.spec.framework && t'.frameworkLabel == t.frameworkLabel
    && t'.status.phase == t.status.phase && (t'.spec.routed ==> t.spec.routed)
    && (Finalizer(cfg.kind) in t.meta.finalizers ==> Finalizer(cfg.kind) in t'.meta.finalizers)
    && a.children.Keys <= b.children.Keys
  }

  /** The clock, pods coming and going, scaling, touched and lingering children and other edits are calm,
      as long as the task is still one that can run. */
  lemma EventIsCalm(cfg: Config, s: Store, e: Event)
    requires Ready(cfg, s) && Enabled(cfg, false, s, e) && Ready(cfg, Happen(cfg, s, e))
    requires e.LoseChild? && e.key in s.children ==> s.children[e.key].meta.finalizers != {}
    requires e.UserEdit? ==>
               e.frameworkLabel == s.tasks[cfg.name].frameworkLabel && (e.spec.routed ==> s.tasks[cfg.name].spec.routed)
    requires !e.JobExpires?
    ensures Calm(cfg, s, Happen(cfg, s, e))
  {
  }

  /** Undisturbed reconciles, each from `begun[i]` to `ended[i]`, with calm between them. */
  ghost predicate CalmReconciles(cfg: Config, begun: seq<Store>, ended: seq<Store>) {
    && 0 < |begun| == |ended|
    && Ready(cfg, begun[0])
    && (forall i :: 0 <= i < |begun| ==> Reconciles(cfg, begun[i], ended[i]))
    && (forall i :: 0 <= i < |begun| - 1 ==> Calm(cfg, ended[i], begun[i+1]))
  }

  /** At most `n` reconciles are left. */
  predicate Within(cfg: Config, s: Store, n: int) { Ready(cfg, s) && Distance(cfg, s) <= n }

  function Max(a: int, b: int): int { if a < b then b else a }

  lemma Earlier(cfg: Config, begun: seq<Store>, ended: seq<Store>)
    requires CalmReconciles(cfg, begun, ended) && |begun| > 1
    ensures var k := |begun| - 1;
            CalmReconciles(cfg, begun[..k], ended[..k]) && Calm(cfg, ended[k-1], begun[k])
            && Reconciles(cfg, begun[k], ended[k])
  {
    assert Calm(cfg, ended[|begun|-2], begun[|begun|-1]);
  }

  lemma CalmKeepsDistance(cfg: Config, a: Store, b: Store)
    requires Calm(cfg, a, b)
    ensures Distance(cfg, b) <= Distance(cfg, a)
  {
  }

  lemma OneNearer(cfg: Config, a: Store, b: Store, n: nat)
    requires Within(cfg, a, n) && Reconciles(cfg, a, b)
    ensures Within(cfg, b, Max(0, n - 1))
  {
    ReconcileRecovers(cfg, a, b);
  }

  lemma CalmThenNearer(cfg: Config, a: Store, b: Store, c: Store, n: nat)
    requires Within(cfg, a, n) && Calm(cfg, a, b) && Reconciles(cfg, b, c)
    ensures Within(cfg, c, Max(0, n - 1))
  {
    CalmKeepsDistance(cfg, a, b);
    OneNearer(cfg, b, c, n);
  }

  /** Each of them brings the task nearer by at least one, until nothing is left to do. */
  lemma {:induction false} EachNearer(cfg: Config, begun: seq<Store>, ended: seq<Store>, n: nat)
    requires CalmReconciles(cfg, begun, ended) && Within(cfg, begun[0], n)
    ensures Within(cfg, ended[|ended|-1], Max(0, n - |begun|))
    decreases |begun|
  {
    var k := |begun| - 1;
    if k == 0 {
      OneNearer(cfg, begun[0], ended[0], n);
    } else {
      Earlier(cfg, begun, ended);
      EachNearer(cfg, begun[..k], ended[..k], n);
      CalmThenNearer(cfg, ended[k-1], begun[k], ended[k], Max(0, n - k));
    }
  }

  /** From any state a live task may have been left in, and whatever calm things happen between them, two
      undisturbed reconciles of a DevTask and four of an InferenceTask give a running task with
      Deployment, Service and any wanted route; and more of them keep it so. */
  lemma RecoversWithin(cfg: Config, begun: seq<Store>, ended: seq<Store>)
    requires CalmReconciles(cfg, begun, ended) && |begun| >= (if cfg.kind == Dev then 2 else 4)
    ensures var b := ended[|ended|-1];
            Ready(cfg, b) && b.tasks[cfg.name].status.phase == Running && Full(cfg, b)
  {
    EachNearer(cfg, begun, ended, Distance(cfg, begun[0]));
  }

  /* ------------------------------ Reconciles come to an end ------------------------------ */

  /** Calls still possible before the reconcile is done: by handler, and by what is left of a list. */
  function Left(c: Ctl): (nat, nat) {
    match c
    case Idle => (0, 0)
    case Done(_, _) => (0, 0)
    case AtEntry(c) => (if c.Fetch? then 30 else 29, 0)
    case AtPending(c) =>
      (match c case PendingCheck => 28 case PendingReread => 27 case PendingLabel(_) => 26 case PendingRefresh => 25
               case PendingCommit(_, _) => 24, 0)
    case AtCreating(c) => (if c.CreateLookup? then 28 else if c.CreateDeploy? then 27 else 1, 0)
    case AtEnsure(c) => (if c.SvcLookup? then 6 else if c.SvcCreate? then 5 else if c.RouteLookup? then 4 else 3, 0)
    case AtRunning(c) =>
      (match c case RunLookup(_) => 28 case RunPods(_, _) => 27 case NotePod(_, _, _, _) => 26
               case Recreate(_) => 27 case Regress(_) => 26 case CommitUrl(_, _) => 1,
       if c.NotePod? then |c.rest| else 0)
    case AtEnd(c) => (if c.CommitEnd? then 20 else 1, 0)
    case AtDrop(c) =>
      (match c case DropLookup(_) => 28 case DropDeploy(_) => 27 case DropSvcLookup(_) => 26 case DropSvc(_) => 25, 0)
    case AtUnroute(c) =>
      (match c case DropRouteLookup(_) => 24 case StripRoute(_, _) => 23 case DropRoute(_) => 22 case ListOwn(_) => 21
               case StripEach(_, _) => 20 case DropEach(_, _) => 20,
       if c.StripEach? then 2 * |c.items| + 1 else if c.DropEach? then 2 * |c.items| else 0)
    case AtRelease(c) => (if c.DropJobLookup? then 3 else if c.DropJob? then 2 else 1, 0)
    case AtEval(c) =>
      (match c case EvalLabel(_) => 28 case EvalCommit(_, _) => 27 case JobLookup(_) => 28 case JobCreate(_) => 27
               case CheckJob(_) => 26 case Report(_, _, _) => 25, 0)
  }

  predicate Fewer(c: Ctl, c': Ctl) {
    Left(c).0 < Left(c').0 || (Left(c).0 == Left(c').0 && Left(c).1 < Left(c').1)
  }

  lemma ScanShrinks(t: Task, replicas: int, pods: seq<Pod>)
    ensures var c := Scan(t, replicas, pods);
            c.AtEnd? || (c.AtEnsure? && c.ensure.SvcLookup?)
            || (c.AtRunning? && c.running.NotePod? && |c.running.rest| < |pods|)
    ensures Left(Scan(t, replicas, pods)).0 < 27
    ensures Scan(t, replicas, pods).AtEnd? ==> Scan(t, replicas, pods).ending.Conclude?
  {
  }

  lemma RunningShrinks(cfg: Config, c: RunningPc, r: Reply, x: Input)
    ensures Fewer(ResumeRunning(cfg, c, r, x), AtRunning(c))
  {
    if c.RunPods? && r.PodList? { ScanShrinks(c.t, c.replicas, r.pods); }
    if c.NotePod? && r.TaskIs? { ScanShrinks(r.task, c.replicas, c.rest); }
  }

  /** Whatever the reply, a reconcile gets nearer its end. */
  lemma ResumeShrinks(cfg: Config, c: Ctl, r: Reply, x: Input)
    requires Busy(c)
    ensures Fewer(Resume(cfg, c, r, x), c)
  {
    match c
    case AtEntry(c) =>
    case AtPending(c) =>
    case AtCreating(c) =>
    case AtEnsure(c) =>
    case AtRunning(c) => RunningShrinks(cfg, c, r, x);
    case AtEnd(c) =>
    case AtDrop(c) =>
    case AtUnroute(c) =>
    case AtRelease(c) =>
    case AtEval(c) =>
  }

  lemma Enumerate<T>(all: set<T>) returns (q: seq<T>)
    ensures forall x :: x in q <==> x in all
    ensures forall i, j :: 0 <= i < j < |q| ==> q[i] != q[j]
  {
    if all == {} {
      q := [];
    } else {
      var x :| x in all;
      var rest := Enumerate(all - {x});
      q := [x] + rest;
    }
  }

  lemma RouteListing(s: Store, owner: string) returns (items: seq<Item>)
    ensures ListsRoutes(s, owner, items)
  {
    var all := set key | key in s.children && IsRoute(s, owner, key);
    var keys := Enumerate(all);
    forall i | 0 <= i < |keys| ensures keys[i] in s.children && IsRoute(s, owner, keys[i]) {
      assert keys[i] in keys;
      assert keys[i] in all;
    }
    items := seq(|keys|, i requires 0 <= i < |keys| && keys[i] in s.children => Item(keys[i], s.children[keys[i]]));
    forall key | IsRoute(s, owner, key) ensures exists i :: 0 <= i < |items| && items[i].key == key {
      assert key in keys;
      var i :| 0 <= i < |keys| && keys[i] == key;
      assert items[i].key == key;
    }
  }

  lemma PodListing(s: Store, selector: Selector) returns (pods: seq<Pod>)
    ensures ListsPods(s, selector, pods)
  {
    pods := Enumerate(set p | p in s.pods && Selects(selector, p));
  }

  /** Every call can be answered. */
  lemma Answerable(cfg: Config, s: State) returns (r: Reply, x: Input, m: State)
    requires Busy(s.ctl)
    ensures QuietCall(cfg, s, r, x, m)
  {
    var op := Request(cfg, s.ctl);
    var store := Apply(s.store, op).store;
    r := Apply(s.store, op).reply;
    match op {
      case ListRoutes(owner) =>
        var items := RouteListing(s.store, owner);
        store, r := s.store, RouteList(items);
      case ListPods(selector) =>
        var pods := PodListing(s.store, selector);
        store, r := s.store, PodList(pods);
      case _ =>
    }
    x := Input(s.store.now, "", "");
    m := State(store, Resume(cfg, s.ctl, r, x), s.timers);
  }

  /** So an undisturbed reconcile always ends. */
  lemma {:induction false} QuietEnds(cfg: Config, s: State) returns (e: State, calls: nat)
    requires !s.ctl.Idle?
    ensures Quiet(cfg, s, e, calls)
    decreases Left(s.ctl).0, Left(s.ctl).1
  {
    if s.ctl.Done? {
      e, calls := s, 0;
    } else {
      var r, x, m := Answerable(cfg, s);
      ResumeShrinks(cfg, s.ctl, r, x);
      ResumeNotIdle(cfg, s.ctl, r, x);
      e, calls := QuietEnds(cfg, m);
      calls := calls + 1;
      assert QuietCall(cfg, s, r, x, m) && Quiet(cfg, m, e, calls - 1);
    }
  }

  lemma ResumeNotIdle(cfg: Config, c: Ctl, r: Reply, x: Input)
    requires Busy(c)
    ensures !Resume(cfg, c, r, x).Idle?
  {
    match c
    case AtRunning(c) =>
      if c.RunPods? && r.PodList? { ScanShrinks(c.t, c.replicas, r.pods); }
      if c.NotePod? && r.TaskIs? { ScanShrinks(r.task, c.replicas, c.rest); }
    case _ =>
  }

  /** From every store a reconcile can be carried through undisturbed. */
  lemma ReconcileEnds(cfg: Config, a: Store) returns (b: Store)
    ensures Reconciles(cfg, a, b)
  {
    var e, calls := QuietEnds(cfg, State(a, AtEntry(Fetch), []));
    b := e.store;
  }
}
