/** What cleanup removes, exactly, and what a framework edit or a failed read leaves behind. */
module Cleanup {
  import opened Cluster
  import opened Machine
  import opened Safety
  import opened Runs
  import opened Recovery

  /** The reads of cleanup. */
  datatype Read = OfDeployment | OfService | OfRoute | OfRouteList | OfJob

  function ReadOf(c: Ctl): Option<Read> {
    if c.AtDrop? && c.drop.DropLookup? then Some(OfDeployment)
    else if c.AtDrop? && c.drop.DropSvcLookup? then Some(OfService)
    else if c.AtUnroute? && c.unroute.DropRouteLookup? then Some(OfRoute)
    else if c.AtUnroute? && c.unroute.ListOwn? then Some(OfRouteList)
    else if c.AtRelease? && c.release.DropJobLookup? then Some(OfJob)
    else None
  }

  predicate Fails(failed: set<Read>, c: Ctl) { ReadOf(c).Some? && ReadOf(c).value in failed }

  /** A call of a reconcile in which the reads in `failed` fail and nothing else goes wrong. */
  ghost predicate PatchyCall(cfg: Config, failed: set<Read>, s: State, r: Reply, x: Input, m: State) {
    && CallStep(cfg, s, r, x, m)
    && if Fails(failed, s.ctl) then r == Fault && m.store == s.store
       else Answers(s.store, Request(cfg, s.ctl), m.store, r)
  }

  ghost predicate Patchy(cfg: Config, failed: set<Read>, s: State, e: State, calls: nat)
    decreases calls
  {
    if s.ctl.Done? then e == s
    else calls > 0 && exists r, x, m :: PatchyCall(cfg, failed, s, r, x, m) && Patchy(cfg, failed, m, e, calls - 1)
  }

  /** One such reconcile takes the store from `a` to `b`. */
  ghost predicate ReconcilesBut(cfg: Config, failed: set<Read>, a: Store, b: Store) {
    exists e, calls: nat :: Patchy(cfg, failed, State(a, AtEntry(Fetch), []), e, calls) && e.store == b
  }

  /** The children cleanup removes: those with the name for the current framework, and every route of a
      DevTask, found by its label; except where the read failed that should have found them. */
  predicate CleanedBut(cfg: Config, failed: set<Read>, t: Task, key: Key) {
    var named := key.name == cfg.childName(t.spec.framework);
    match key.resource
    case Deployments => cfg.kind != Eval && named && OfDeployment !in failed
    case Services => cfg.kind != Eval && named && OfService !in failed
    case Jobs => cfg.kind == Eval && named && OfJob !in failed
    case Routes =>
      cfg.kind != Eval && ((named && OfRoute !in failed) || (cfg.kind == Dev && OfRouteList !in failed))
  }

  predicate Cleaned(cfg: Config, t: Task, key: Key) { CleanedBut(cfg, {}, t, key) }

  /** A task marked for deletion that holds the finalizer; the label step of an InferenceTask is past. */
  predicate Doomed(cfg: Config, s: Store) {
    && StoreOk(cfg, true, s) && Held(cfg, s) && s.tasks[cfg.name].meta.deleting
    && (cfg.kind == Inf ==> s.tasks[cfg.name].frameworkLabel == s.tasks[cfg.name].spec.framework)
  }

  /** Children as reconciles make them. */
  predicate Tame(cfg: Config, s: Store) {
    forall key :: key in s.children ==>
      && s.children[key].owner == cfg.name
      && s.children[key].meta.finalizers
         <= (if cfg.kind == Dev && key.resource == Routes then {ROUTE_FINALIZER} else {})
  }

  predicate Same(cfg: Config, a: Store, b: Store, t: Task) {
    Doomed(cfg, a) && t == a.tasks[cfg.name] && b.tasks == a.tasks && Tame(cfg, b)
  }

  /** Of the kinds in `done`, routes aside, what is cleaned has gone. */
  ghost predicate Gone(cfg: Config, failed: set<Read>, a: Store, b: Store, t: Task, done: set<Resource>) {
    forall key: Key :: key.resource != Routes ==>
      (key in b.children <==> key in a.children && !(key.resource in done && CleanedBut(cfg, failed, t, key)))
  }

  /** The routes but one are as they were; that one may have gone. */
  ghost predicate RoutesBut(a: Store, b: Store, key: Key) {
    forall k: Key :: k.resource == Routes ==>
             (k in b.children ==> k in a.children) && (k != key && k in a.children ==> k in b.children)
  }

  ghost predicate RoutesKept(a: Store, b: Store) {
    forall k: Key :: k.resource == Routes ==> (k in b.children <==> k in a.children)
  }

  /** The route by name is done with. */
  ghost predicate RouteDone(cfg: Config, failed: set<Read>, a: Store, b: Store, t: Task) {
    forall k: Key :: k.resource == Routes ==>
      (k in b.children <==> k in a.children && !(k == ChildKey(cfg, Routes, t) && OfRoute !in failed))
  }

  /** The routes stored are those on the list, but the first `from` of which may have gone. */
  ghost predicate OnList(b: Store, items: seq<Item>, from: nat) {
    && items != []
    && (forall i, j :: 0 <= i < j < |items| ==> items[i].key != items[j].key)
    && (forall i :: 0 <= i < |items| ==> items[i].key.resource == Routes)
    && (forall i :: from <= i < |items| ==> items[i].key in b.children && b.children[items[i].key] == items[i].child)
    && (forall k :: k in b.children && k.resource == Routes ==> exists i :: 0 <= i < |items| && items[i].key == k)
  }

  ghost predicate AtDropD(cfg: Config, failed: set<Read>, a: Store, b: Store, c: DropPc) {
    && cfg.kind != Eval && Same(cfg, a, b, c.t) && RoutesKept(a, b)
    && (c.DropDeploy? ==> OfDeployment !in failed)
    && (c.DropSvc? ==> OfService !in failed && ChildKey(cfg, Services, c.t) in b.children)
    && Gone(cfg, failed, a, b, c.t, if c.DropLookup? || c.DropDeploy? then {} else {Deployments})
  }

  ghost predicate AtUnrouteD(cfg: Config, failed: set<Read>, a: Store, b: Store, c: UnroutePc) {
    && cfg.kind != Eval && Same(cfg, a, b, c.t)
    && Gone(cfg, failed, a, b, c.t, {Deployments, Services})
    && match c
       case DropRouteLookup(_) => RoutesKept(a, b)
       case StripRoute(t, child) =>
         var key := ChildKey(cfg, Routes, t);
         cfg.kind == Dev && OfRoute !in failed && RoutesKept(a, b) && key in b.children && b.children[key] == child
       case DropRoute(t) =>
         OfRoute !in failed && RoutesBut(a, b, ChildKey(cfg, Routes, t)) && Unfinalized(b, ChildKey(cfg, Routes, t))
       case ListOwn(t) => cfg.kind == Dev && RouteDone(cfg, failed, a, b, t)
       case StripEach(_, items) => cfg.kind == Dev && OfRouteList !in failed && OnList(b, items, 0)
       case DropEach(_, items) =>
         cfg.kind == Dev && OfRouteList !in failed && OnList(b, items, 1) && Unfinalized(b, items[0].key)
  }

  /** Everything cleanup can do has been done. */
  ghost predicate AllGone(cfg: Config, failed: set<Read>, a: Store, b: Store, t: Task) {
    forall key: Key :: key in b.children <==> key in a.children && !CleanedBut(cfg, failed, t, key)
  }

  ghost predicate AtReleaseD(cfg: Config, failed: set<Read>, a: Store, b: Store, c: ReleasePc) {
    && Same(cfg, a, b, c.t) && (cfg.kind == Eval || c.Release?)
    && (c.DropJob? ==> OfJob !in failed)
    && if c.Release? then AllGone(cfg, failed, a, b, c.t) else b.children == a.children
  }

  ghost predicate AtD(cfg: Config, failed: set<Read>, a: Store, b: Store, c: Ctl) {
    match c
    case Done(o, timer) =>
      Doomed(cfg, a) && !Held(cfg, b) && AllGone(cfg, failed, a, b, a.tasks[cfg.name]) && o == Stop && timer == None
    case AtEntry(c) => c.Fetch? && b == a && Doomed(cfg, a)
    case AtDrop(c) => AtDropD(cfg, failed, a, b, c)
    case AtUnroute(c) => AtUnrouteD(cfg, failed, a, b, c)
    case AtRelease(c) => AtReleaseD(cfg, failed, a, b, c)
    case _ => false
  }

  lemma FetchD(cfg: Config, failed: set<Read>, a: Store, b: Store, r: Reply, x: Input)
    requires Doomed(cfg, a) && Answers(a, GetTask(cfg.name), b, r)
    ensures AtD(cfg, failed, a, b, ResumeEntry(cfg, Fetch, r, x))
  {
  }

  /** A child without finalizers goes at once, and nothing else does. */
  lemma DeletedAlone(cfg: Config, b: Store, key: Key, b': Store, r: Reply)
    requires Tame(cfg, b) && Unfinalized(b, key) && Answers(b, DeleteChild(key), b', r)
    ensures b'.children == b.children - {key} && b'.tasks == b.tasks && Tame(cfg, b') && (r.Ok? || r.NotFound?)
    ensures key in b.children ==> r.Ok?
  {
  }

  /** A route keeps no finalizer when it is stripped, and nothing else changes. */
  lemma StrippedAlone(cfg: Config, b: Store, key: Key, child: Child, b': Store, r: Reply)
    requires cfg.kind == Dev && Tame(cfg, b) && key.resource == Routes
    requires key in b.children && b.children[key] == child
    requires Answers(b, UpdateChild(key, Stripped(child, ROUTE_FINALIZER)), b', r)
    ensures r.ChildIs? && b'.tasks == b.tasks && Tame(cfg, b') && Unfinalized(b', key)
    ensures b'.children - {key} == b.children - {key}
  {
  }

  lemma DropLookupD(cfg: Config, failed: set<Read>, a: Store, b: Store, c: DropPc, b': Store, r: Reply)
    requires AtDropD(cfg, failed, a, b, c) && c.DropLookup?
    requires if Fails(failed, AtDrop(c)) then r == Fault && b' == b else Answers(b, RequestDrop(cfg, c), b', r)
    ensures AtD(cfg, failed, a, b', ResumeDrop(cfg, c, r))
  {
  }

  lemma DropDeployD(cfg: Config, failed: set<Read>, a: Store, b: Store, c: DropPc, b': Store, r: Reply)
    requires AtDropD(cfg, failed, a, b, c) && c.DropDeploy? && Answers(b, RequestDrop(cfg, c), b', r)
    ensures AtD(cfg, failed, a, b', ResumeDrop(cfg, c, r))
  {
    DeletedAlone(cfg, b, ChildKey(cfg, Deployments, c.t), b', r);
  }

  lemma DropServiceD(cfg: Config, failed: set<Read>, a: Store, b: Store, c: DropPc, b': Store, r: Reply)
    requires AtDropD(cfg, failed, a, b, c) && (c.DropSvcLookup? || c.DropSvc?)
    requires if Fails(failed, AtDrop(c)) then r == Fault && b' == b else Answers(b, RequestDrop(cfg, c), b', r)
    ensures AtD(cfg, failed, a, b', ResumeDrop(cfg, c, r))
  {
    if c.DropSvc? { DeletedAlone(cfg, b, ChildKey(cfg, Services, c.t), b', r); }
  }

  /** After the route by name: the list, or nothing more. */
  lemma NamedRouteDone(cfg: Config, failed: set<Read>, a: Store, b: Store, t: Task)
    requires cfg.kind != Eval && Same(cfg, a, b, t) && Gone(cfg, failed, a, b, t, {Deployments, Services})
    requires RouteDone(cfg, failed, a, b, t)
    ensures AtD(cfg, failed, a, b, AfterNamedRoute(cfg, t))
  {
    if cfg.kind == Inf { InferenceGone(cfg, failed, a, b, t); }
  }

  lemma InferenceGone(cfg: Config, failed: set<Read>, a: Store, b: Store, t: Task)
    requires cfg.kind == Inf && Same(cfg, a, b, t) && Gone(cfg, failed, a, b, t, {Deployments, Services})
    requires RouteDone(cfg, failed, a, b, t)
    ensures AllGone(cfg, failed, a, b, t)
  {
    forall key: Key ensures key in b.children <==> key in a.children && !CleanedBut(cfg, failed, t, key) {
    }
  }

  lemma RouteLookupD(cfg: Config, failed: set<Read>, a: Store, b: Store, t: Task, b': Store, r: Reply)
    requires AtUnrouteD(cfg, failed, a, b, DropRouteLookup(t))
    requires if OfRoute in failed then r == Fault && b' == b
             else Answers(b, RequestUnroute(cfg, DropRouteLookup(t)), b', r)
    ensures AtD(cfg, failed, a, b', ResumeUnroute(cfg, DropRouteLookup(t), r))
  {
    if !r.ChildIs? { NamedRouteDone(cfg, failed, a, b, t); }
  }

  lemma StripRouteD(cfg: Config, failed: set<Read>, a: Store, b: Store, t: Task, child: Child, b': Store, r: Reply)
    requires AtUnrouteD(cfg, failed, a, b, StripRoute(t, child))
    requires Answers(b, RequestUnroute(cfg, StripRoute(t, child)), b', r)
    ensures AtD(cfg, failed, a, b', ResumeUnroute(cfg, StripRoute(t, child), r))
  {
    StrippedAlone(cfg, b, ChildKey(cfg, Routes, t), child, b', r);
    OthersStay(b, b', ChildKey(cfg, Routes, t));
  }

  lemma DropRouteD(cfg: Config, failed: set<Read>, a: Store, b: Store, t: Task, b': Store, r: Reply)
    requires AtUnrouteD(cfg, failed, a, b, DropRoute(t))
    requires Answers(b, RequestUnroute(cfg, DropRoute(t)), b', r)
    ensures AtD(cfg, failed, a, b', ResumeUnroute(cfg, DropRoute(t), r))
  {
    DeletedAlone(cfg, b, ChildKey(cfg, Routes, t), b', r);
    NamedRouteDone(cfg, failed, a, b', t);
  }

  /** No route is left: everything is done. */
  lemma ListDone(cfg: Config, failed: set<Read>, a: Store, b: Store, t: Task)
    requires cfg.kind == Dev && Same(cfg, a, b, t) && Gone(cfg, failed, a, b, t, {Deployments, Services})
    requires OfRouteList !in failed && forall k :: k in b.children ==> k.resource != Routes
    ensures AllGone(cfg, failed, a, b, t)
  {
    forall key: Key ensures key in b.children <==> key in a.children && !CleanedBut(cfg, failed, t, key) {
    }
  }

  lemma NextRouteD(cfg: Config, failed: set<Read>, a: Store, b: Store, t: Task, items: seq<Item>)
    requires cfg.kind == Dev && Same(cfg, a, b, t) && Gone(cfg, failed, a, b, t, {Deployments, Services})
    requires OfRouteList !in failed
    requires if items == [] then forall k :: k in b.children ==> k.resource != Routes else OnList(b, items, 0)
    ensures AtD(cfg, failed, a, b, NextRoute(t, items))
  {
    if items == [] { ListDone(cfg, failed, a, b, t); }
  }

  /** A failed list leaves the routes where they are. */
  lemma ListFailed(cfg: Config, failed: set<Read>, a: Store, b: Store, t: Task)
    requires AtUnrouteD(cfg, failed, a, b, ListOwn(t)) && OfRouteList in failed
    ensures AllGone(cfg, failed, a, b, t)
  {
    forall key: Key ensures key in b.children <==> key in a.children && !CleanedBut(cfg, failed, t, key) {
    }
  }

  lemma ListedAll(cfg: Config, b: Store, items: seq<Item>)
    requires Tame(cfg, b) && ListsRoutes(b, cfg.name, items)
    ensures if items == [] then forall k :: k in b.children ==> k.resource != Routes else OnList(b, items, 0)
  {
    forall k | k in b.children && k.resource == Routes ensures exists i :: 0 <= i < |items| && items[i].key == k {
      assert IsRoute(b, cfg.name, k);
    }
  }

  lemma ListOwnD(cfg: Config, failed: set<Read>, a: Store, b: Store, t: Task, b': Store, r: Reply)
    requires AtUnrouteD(cfg, failed, a, b, ListOwn(t))
    requires if OfRouteList in failed then r == Fault && b' == b else Answers(b, RequestUnroute(cfg, ListOwn(t)), b', r)
    ensures AtD(cfg, failed, a, b', ResumeUnroute(cfg, ListOwn(t), r))
  {
    if OfRouteList in failed {
      ListFailed(cfg, failed, a, b, t);
    } else {
      ListedAll(cfg, b, r.items);
      NextRouteD(cfg, failed, a, b, t, r.items);
    }
  }

  lemma StripEachD(cfg: Config, failed: set<Read>, a: Store, b: Store, t: Task, items: seq<Item>, b': Store, r: Reply)
    requires AtUnrouteD(cfg, failed, a, b, StripEach(t, items))
    requires Answers(b, RequestUnroute(cfg, StripEach(t, items)), b', r)
    ensures AtD(cfg, failed, a, b', ResumeUnroute(cfg, StripEach(t, items), r))
  {
    StrippedAlone(cfg, b, items[0].key, items[0].child, b', r);
    OthersStay(b, b', items[0].key);
  }

  lemma OthersStay(b: Store, b': Store, key: Key)
    requires b'.children - {key} == b.children - {key}
    ensures forall k: Key :: k != key ==> (k in b'.children <==> k in b.children)
    ensures forall k: Key :: k != key && k in b.children ==> k in b'.children && b'.children[k] == b.children[k]
  {
    forall k: Key | k != key
      ensures (k in b'.children <==> k in b.children)
              && (k in b.children ==> k in b'.children && b'.children[k] == b.children[k])
    {
      assert k in b'.children <==> k in b'.children - {key};
      assert k in b.children <==> k in b.children - {key};
      if k in b.children { assert (b.children - {key})[k] == (b'.children - {key})[k]; }
    }
  }

  lemma RestOnList(b: Store, items: seq<Item>)
    requires OnList(b, items, 1) && items[0].key !in b.children
    ensures if items[1..] == [] then forall k :: k in b.children ==> k.resource != Routes else OnList(b, items[1..], 0)
  {
    forall k | k in b.children && k.resource == Routes
      ensures exists i :: 0 <= i < |items[1..]| && items[1..][i].key == k {
      var i :| 0 <= i < |items| && items[i].key == k;
      assert items[1..][i-1].key == k;
    }
  }

  lemma DropEachD(cfg: Config, failed: set<Read>, a: Store, b: Store, t: Task, items: seq<Item>, b': Store, r: Reply)
    requires AtUnrouteD(cfg, failed, a, b, DropEach(t, items))
    requires Answers(b, RequestUnroute(cfg, DropEach(t, items)), b', r)
    ensures AtD(cfg, failed, a, b', ResumeUnroute(cfg, DropEach(t, items), r))
  {
    DeletedAlone(cfg, b, items[0].key, b', r);
    RestOnList(b', items);
    NextRouteD(cfg, failed, a, b', t, items[1..]);
  }

  lemma JobGone(cfg: Config, failed: set<Read>, a: Store, b: Store, t: Task)
    requires cfg.kind == Eval && Same(cfg, a, b, t)
    requires b.children == if OfJob in failed then a.children else a.children - {ChildKey(cfg, Jobs, t)}
    ensures AllGone(cfg, failed, a, b, t)
  {
    forall key: Key ensures key in b.children <==> key in a.children && !CleanedBut(cfg, failed, t, key) {
    }
  }

  lemma ReleaseD(cfg: Config, failed: set<Read>, a: Store, b: Store, c: ReleasePc, b': Store, r: Reply)
    requires AtReleaseD(cfg, failed, a, b, c)
    requires if Fails(failed, AtRelease(c)) then r == Fault && b' == b else Answers(b, RequestRelease(cfg, c), b', r)
    ensures AtD(cfg, failed, a, b', ResumeRelease(cfg, c, r))
  {
    match c
    case DropJobLookup(t) => if !r.ChildIs? { JobGone(cfg, failed, a, b, t); }
    case DropJob(t) =>
      DeletedAlone(cfg, b, ChildKey(cfg, Jobs, t), b', r);
      JobGone(cfg, failed, a, b', t);
    case Release(_) =>
  }

  lemma UnrouteD(cfg: Config, failed: set<Read>, a: Store, b: Store, c: UnroutePc, b': Store, r: Reply)
    requires AtUnrouteD(cfg, failed, a, b, c)
    requires if Fails(failed, AtUnroute(c)) then r == Fault && b' == b else Answers(b, RequestUnroute(cfg, c), b', r)
    ensures AtD(cfg, failed, a, b', ResumeUnroute(cfg, c, r))
  {
    match c
    case DropRouteLookup(t) => RouteLookupD(cfg, failed, a, b, t, b', r);
    case StripRoute(t, child) => StripRouteD(cfg, failed, a, b, t, child, b', r);
    case DropRoute(t) => DropRouteD(cfg, failed, a, b, t, b', r);
    case ListOwn(t) => ListOwnD(cfg, failed, a, b, t, b', r);
    case StripEach(t, items) => StripEachD(cfg, failed, a, b, t, items, b', r);
    case DropEach(t, items) => DropEachD(cfg, failed, a, b, t, items, b', r);
  }

  lemma CallD(cfg: Config, failed: set<Read>, a: Store, s: State, r: Reply, x: Input, m: State)
    requires AtD(cfg, failed, a, s.store, s.ctl) && !s.ctl.Done? && PatchyCall(cfg, failed, s, r, x, m)
    ensures AtD(cfg, failed, a, m.store, m.ctl)
  {
    match s.ctl
    case AtEntry(_) => FetchD(cfg, failed, a, m.store, r, x);
    case AtDrop(c) =>
      if c.DropLookup? {
        DropLookupD(cfg, failed, a, s.store, c, m.store, r);
      } else if c.DropDeploy? {
        DropDeployD(cfg, failed, a, s.store, c, m.store, r);
      } else {
        DropServiceD(cfg, failed, a, s.store, c, m.store, r);
      }
    case AtUnroute(c) => UnrouteD(cfg, failed, a, s.store, c, m.store, r);
    case AtRelease(c) => ReleaseD(cfg, failed, a, s.store, c, m.store, r);
  }

  lemma {:induction false} PatchyCleans(cfg: Config, failed: set<Read>, a: Store, s: State, e: State, calls: nat)
    requires AtD(cfg, failed, a, s.store, s.ctl) && Patchy(cfg, failed, s, e, calls)
    ensures AtD(cfg, failed, a, e.store, e.ctl) && e.ctl.Done?
    decreases calls
  {
    if !s.ctl.Done? {
      var r, x, m :| PatchyCall(cfg, failed, s, r, x, m) && Patchy(cfg, failed, m, e, calls - 1);
      CallD(cfg, failed, a, s, r, x, m);
      PatchyCleans(cfg, failed, a, m, e, calls - 1);
    }
  }

  /** Whatever reads fail, the reconcile of a task marked for deletion lets the task go, and removes exactly
      the cleaned children: what a failed read should have found stays, and nobody is left to remove it. */
  lemma FailedReadsOrphan(cfg: Config, failed: set<Read>, a: Store, b: Store)
    requires Doomed(cfg, a) && ReconcilesBut(cfg, failed, a, b)
    ensures !Held(cfg, b)
    ensures forall key :: key in b.children <==> key in a.children && !CleanedBut(cfg, failed, a.tasks[cfg.name], key)
  {
    var s := State(a, AtEntry(Fetch), []);
    var e, calls: nat :| Patchy(cfg, failed, s, e, calls) && e.store == b;
    PatchyCleans(cfg, failed, a, s, e, calls);
  }

  /** There is such a reconcile for any reads to fail. */
  lemma {:induction false} PatchyEnds(cfg: Config, failed: set<Read>, s: State) returns (e: State, calls: nat)
    requires !s.ctl.Idle?
    ensures Patchy(cfg, failed, s, e, calls)
    decreases Left(s.ctl).0, Left(s.ctl).1
  {
    if s.ctl.Done? {
      e, calls := s, 0;
    } else {
      var r, x, m := Answerable(cfg, s);
      if Fails(failed, s.ctl) {
        r := Fault;
        m := State(s.store, Resume(cfg, s.ctl, Fault, x), s.timers);
      }
      ResumeShrinks(cfg, s.ctl, r, x);
      ResumeNotIdle(cfg, s.ctl, r, x);
      e, calls := PatchyEnds(cfg, failed, m);
      calls := calls + 1;
      assert PatchyCall(cfg, failed, s, r, x, m) && Patchy(cfg, failed, m, e, calls - 1);
    }
  }

  /** So one failed read of the Deployment, and nothing else amiss, orphans it. */
  lemma OneFailedReadOrphans(cfg: Config, a: Store) returns (b: Store)
    requires Doomed(cfg, a) && cfg.kind != Eval && ChildKey(cfg, Deployments, a.tasks[cfg.name]) in a.children
    ensures ReconcilesBut(cfg, {OfDeployment}, a, b)
    ensures !Held(cfg, b) && ChildKey(cfg, Deployments, a.tasks[cfg.name]) in b.children
  {
    var e, calls := PatchyEnds(cfg, {OfDeployment}, State(a, AtEntry(Fetch), []));
    b := e.store;
    FailedReadsOrphan(cfg, {OfDeployment}, a, b);
  }

  lemma {:induction false} QuietIsPatchy(cfg: Config, s: State, e: State, calls: nat)
    requires Quiet(cfg, s, e, calls)
    ensures Patchy(cfg, {}, s, e, calls)
    decreases calls
  {
    if !s.ctl.Done? {
      var r, x, m :| QuietCall(cfg, s, r, x, m) && Quiet(cfg, m, e, calls - 1);
      QuietIsPatchy(cfg, m, e, calls - 1);
      assert PatchyCall(cfg, {}, s, r, x, m);
    }
  }

  /** One undisturbed reconcile of a task marked for deletion lets the task go and removes exactly the
      cleaned children; a Deployment or Service named for an earlier framework stays. */
  lemma DeletionLeaves(cfg: Config, a: Store, b: Store)
    requires Doomed(cfg, a) && Reconciles(cfg, a, b)
    ensures !Held(cfg, b)
    ensures forall key :: key in b.children <==> key in a.children && !Cleaned(cfg, a.tasks[cfg.name], key)
  {
    var s := State(a, AtEntry(Fetch), []);
    var e, calls: nat :| Quiet(cfg, s, e, calls) && e.store == b;
    QuietIsPatchy(cfg, s, e, calls);
    FailedReadsOrphan(cfg, {}, a, b);
  }

  /** Deletion leaves nothing behind if and only if every child is one that cleanup looks for. */
  lemma OrphanFree(cfg: Config, a: Store, b: Store)
    requires Doomed(cfg, a) && Reconciles(cfg, a, b)
    ensures b.children == map[] <==> forall key :: key in a.children ==> Cleaned(cfg, a.tasks[cfg.name], key)
  {
    DeletionLeaves(cfg, a, b);
    if forall key :: key in a.children ==> Cleaned(cfg, a.tasks[cfg.name], key) {
      forall key | key in b.children ensures false {
      }
      assert b.children.Keys == {};
    } else {
      var key :| key in a.children && !Cleaned(cfg, a.tasks[cfg.name], key);
      assert key in b.children;
    }
  }

  /** The guard on Deployments really needs fixed frameworks: whatever task has a Deployment, a user
      who changes the framework and then deletes the task orphans it. */
  lemma FrameworkEditOrphans(cfg: Config, a: Store, e: Event, b: Store)
    requires cfg.kind == Dev && StoreOk(cfg, true, a) && Held(cfg, a) && !a.tasks[cfg.name].meta.deleting
    requires ChildKey(cfg, Deployments, a.tasks[cfg.name]) in a.children
    requires e.UserEdit? && Enabled(cfg, true, a, e)
    requires cfg.childName(e.spec.framework) != cfg.childName(a.tasks[cfg.name].spec.framework)
    requires Reconciles(cfg, Happen(cfg, Happen(cfg, a, e), UserDelete), b)
    ensures !Held(cfg, b) && ChildKey(cfg, Deployments, a.tasks[cfg.name]) in b.children
  {
    var a1 := Happen(cfg, a, e);
    var a2 := Happen(cfg, a1, UserDelete);
    EnvRelies(cfg, true, a, e);
    EnvRelies(cfg, true, a1, UserDelete);
    DeletionLeaves(cfg, a2, b);
  }

  /** A route marked for deletion that still has the operator's finalizer. */
  predicate Lingers(s: Store, key: Key) {
    key in s.children && s.children[key].meta.deleting && ROUTE_FINALIZER in s.children[key].meta.finalizers
  }

  lemma CleanupNeedsMark(cfg: Config, s: State)
    requires cfg.kind == Dev && Inv(cfg, true, s) && Busy(s.ctl)
    requires cfg.name in s.store.tasks && !s.store.tasks[cfg.name].meta.deleting
    ensures !Request(cfg, s.ctl).DeleteChild? && !Request(cfg, s.ctl).UpdateChild?
  {
  }

  lemma CallSparesRoute(s: Store, op: Op, s': Store, r: Reply, key: Key)
    requires Serves(s, op, s', r) && !op.DeleteChild? && !op.UpdateChild? && Lingers(s, key)
    ensures Lingers(s', key)
  {
  }

  lemma StepSparesRoute(cfg: Config, s: State, l: Label, s': State, key: Key)
    requires cfg.kind == Dev && Inv(cfg, true, s) && Step(cfg, true, s, l, s') && Lingers(s.store, key)
    requires cfg.name in s.store.tasks && !s.store.tasks[cfg.name].meta.deleting
    ensures Lingers(s'.store, key)
  {
    match l
    case Call(r, _) =>
      CleanupNeedsMark(cfg, s);
      CallSparesRoute(s.store, Request(cfg, s.ctl), s'.store, r, key);
    case _ =>
  }

  /** When somebody else deletes a DevTask's route, it stays, terminating, as long as the task lives:
      only the task's cleanup takes the finalizer off, and no handler puts up a new route. */
  lemma {:induction false} DeletedRouteLingers(cfg: Config, run: Run, i: nat, j: nat, key: Key)
    requires IsRun(cfg, true, run) && Initial(run.states[0]) && cfg.kind == Dev && i <= j < |run.states|
    requires Lingers(run.states[i].store, key)
    requires forall k :: i <= k <= j ==>
               cfg.name in run.states[k].store.tasks && !run.states[k].store.tasks[cfg.name].meta.deleting
    ensures Lingers(run.states[j].store, key)
    decreases j - i
  {
    if i < j {
      DeletedRouteLingers(cfg, run, i, j - 1, key);
      Reachable(cfg, true, run, j - 1);
      assert StepAt(cfg, true, run, j - 1);
      assert cfg.name in run.states[j-1].store.tasks && !run.states[j-1].store.tasks[cfg.name].meta.deleting;
      StepSparesRoute(cfg, run.states[j-1], run.labels[j-1], run.states[j], key);
    }
  }
}
