/** What one undisturbed reconcile does, told by the store alone: the task and the children it leaves, what
    it returns and the timer it starts, phase by phase. */
module Effects {
  import opened Cluster
  import opened Machine
  import opened Recovery
  import opened Pods
  import Cleanup
  import Safety

  /* ------------------------------ Undisturbed reconciles ------------------------------ */

  /** `Quiet`, and all along the reconcile is told the same: clock, URL and error text are `x`. */
  ghost predicate Steady(cfg: Config, x: Input, s: State, e: State, calls: nat)
    decreases calls
  {
    if s.ctl.Done? then e == s
    else calls > 0 && exists r, m :: QuietCall(cfg, s, r, x, m) && Steady(cfg, x, m, e, calls - 1)
  }

  ghost predicate Leads(cfg: Config, x: Input, s: State, e: State) { exists calls: nat :: Steady(cfg, x, s, e, calls) }

  function At(s: Store, c: Ctl): State { State(s, c, []) }

  /** An undisturbed reconcile takes the store from `a` to `b`, returns `o` and starts `timer`. */
  ghost predicate ReconcilesAs(cfg: Config, x: Input, a: Store, b: Store, o: Outcome, timer: Option<Timer>) {
    Leads(cfg, x, At(a, AtEntry(Fetch)), At(b, Done(o, timer)))
  }

  lemma {:induction false} SteadyIsQuiet(cfg: Config, x: Input, s: State, e: State, calls: nat)
    requires Steady(cfg, x, s, e, calls)
    ensures Quiet(cfg, s, e, calls)
    decreases calls
  {
    if !s.ctl.Done? {
      var r, m :| QuietCall(cfg, s, r, x, m) && Steady(cfg, x, m, e, calls - 1);
      SteadyIsQuiet(cfg, x, m, e, calls - 1);
    }
  }

  /** There is one from every store and for every input. */
  lemma {:induction false} SteadyEnds(cfg: Config, x: Input, s: State) returns (e: State, calls: nat)
    requires !s.ctl.Idle? && x.now == s.store.now
    ensures Steady(cfg, x, s, e, calls)
    decreases Left(s.ctl).0, Left(s.ctl).1
  {
    if s.ctl.Done? {
      e, calls := s, 0;
    } else {
      var r, y, m := Answerable(cfg, s);
      m := m.(ctl := Resume(cfg, s.ctl, r, x));
      CallsKeepClock(s.store, Request(cfg, s.ctl), m.store, r);
      ResumeShrinks(cfg, s.ctl, r, x);
      ResumeNotIdle(cfg, s.ctl, r, x);
      e, calls := SteadyEnds(cfg, x, m);
      calls := calls + 1;
      assert QuietCall(cfg, s, r, x, m) && Steady(cfg, x, m, e, calls - 1);
    }
  }

  lemma CallsKeepClock(s: Store, op: Op, s': Store, r: Reply)
    requires Answers(s, op, s', r)
    ensures s'.now == s.now
  {
  }

  /** For every store and input there is an undisturbed reconcile. */
  lemma Reconcilable(cfg: Config, x: Input, a: Store) returns (b: Store, o: Outcome, timer: Option<Timer>)
    requires x.now == a.now
    ensures ReconcilesAs(cfg, x, a, b, o, timer) && Reconciles(cfg, a, b)
  {
    var s := At(a, AtEntry(Fetch));
    var e, calls := SteadyEnds(cfg, x, s);
    SteadyDone(cfg, x, s, e, calls);
    b, o, timer := e.store, e.ctl.outcome, e.ctl.timer;
    SteadyIsQuiet(cfg, x, s, e, calls);
  }

  lemma {:induction false} SteadyDone(cfg: Config, x: Input, s: State, e: State, calls: nat)
    requires Steady(cfg, x, s, e, calls)
    ensures e.ctl.Done? && e.timers == s.timers
    decreases calls
  {
    if !s.ctl.Done? {
      var r, m :| QuietCall(cfg, s, r, x, m) && Steady(cfg, x, m, e, calls - 1);
      SteadyDone(cfg, x, m, e, calls - 1);
    }
  }

  predicate Single(op: Op) { !op.ListRoutes? && !op.ListPods? }

  function Answer(cfg: Config, s: State): Reply
    requires Busy(s.ctl)
  {
    Apply(s.store, Request(cfg, s.ctl)).reply
  }

  function Next(cfg: Config, x: Input, s: State): State
    requires Busy(s.ctl)
  {
    State(Apply(s.store, Request(cfg, s.ctl)).store, Resume(cfg, s.ctl, Answer(cfg, s), x), s.timers)
  }

  /** A call that is not a list leads on to the one next state. */
  lemma On(cfg: Config, x: Input, s: State, e: State)
    requires Busy(s.ctl) && Leads(cfg, x, s, e) && Single(Request(cfg, s.ctl))
    ensures Leads(cfg, x, Next(cfg, x, s), e)
  {
    var calls: nat :| Steady(cfg, x, s, e, calls);
    var r, m :| QuietCall(cfg, s, r, x, m) && Steady(cfg, x, m, e, calls - 1);
    assert m == Next(cfg, x, s);
  }

  lemma Ended(cfg: Config, x: Input, s: State, e: State)
    requires s.ctl.Done? && Leads(cfg, x, s, e)
    ensures e == s
  {
  }

  /* ------------------------------ Tasks and children ------------------------------ */

  /** The same but for the version. */
  predicate Is(t: Task, t': Task) { t == t'.(meta := t'.meta.(version := t.meta.version)) }

  /** The stored task is `t`, and nothing else of the store has changed. */
  predicate OnlyTask(cfg: Config, a: Store, b: Store, t: Task) {
    cfg.name in b.tasks && Is(b.tasks[cfg.name], t) && b.children == a.children && b.pods == a.pods && b.now == a.now
  }

  /** A child as it is made for a task: labelled for it, with nothing done to it yet. */
  predicate Fresh(cfg: Config, t: Task, r: Resource, c: Child) {
    && c.owner == cfg.name && c.framework == t.spec.framework && !c.meta.deleting
    && c.meta.finalizers == (if cfg.kind == Dev && r == Routes then {"kai.io/route"} else {})
    && c.replicas == (if cfg.kind == Dev then 1 else t.spec.replicas)
    && c.job == JobStatus(0, 0, 0, None)
  }

  /** The children of these resources are there under the task's name for them: those that were as they
      were, the others fresh.  No other child has come, gone or changed. */
  ghost predicate Provided(cfg: Config, a: Store, b: Store, t: Task, wanted: set<Resource>) {
    && (forall key :: key in b.children <==>
          key in a.children || (key.resource in wanted && key.name == cfg.childName(t.spec.framework)))
    && (forall key :: key in a.children ==> key in b.children && b.children[key] == a.children[key])
    && (forall key :: key in b.children && key !in a.children ==> Fresh(cfg, t, key.resource, b.children[key]))
    && b.pods == a.pods && b.now == a.now
  }

  /** The resources that expose the task: a Service, and a route when one is wanted. */
  function Exposing(t: Task): set<Resource> { if t.spec.routed then {Services, Routes} else {Services} }

  /** A stored task that nobody deletes, with the finalizer in place. */
  predicate Kept(cfg: Config, a: Store) {
    && cfg.name in a.tasks
    && var t := a.tasks[cfg.name];
    && !t.meta.deleting && Finalizer(cfg.kind) in t.meta.finalizers
    && (cfg.kind == Inf ==> t.frameworkLabel == t.spec.framework)
  }

  lemma Dispatched(cfg: Config, x: Input, a: Store, e: State)
    requires Kept(cfg, a) && Leads(cfg, x, At(a, AtEntry(Fetch)), e)
    ensures Leads(cfg, x, At(a, Dispatch(cfg, a.tasks[cfg.name], x)), e)
  {
    On(cfg, x, At(a, AtEntry(Fetch)), e);
  }

  /* ------------------------------ Before the dispatch ------------------------------ */

  lemma Begins(cfg: Config, x: Input, a: Store, e: State)
    requires cfg.name in a.tasks && x.now == a.now && Leads(cfg, x, At(a, AfterFetch(cfg, a.tasks[cfg.name], x)), e)
    ensures Leads(cfg, x, At(a, AtEntry(Fetch)), e)
  {
    var s, m := At(a, AtEntry(Fetch)), At(a, AfterFetch(cfg, a.tasks[cfg.name], x));
    var calls: nat :| Steady(cfg, x, m, e, calls);
    assert QuietCall(cfg, s, TaskIs(a.tasks[cfg.name]), x, m);
    assert Steady(cfg, x, s, e, calls + 1);
  }

  /** A live task without the finalizer gets it.  That is all, but for a DevTask, whose reconcile goes on
      as one from the store with the finalizer would. */
  lemma FinalizerEffect(cfg: Config, x: Input, a: Store, b: Store, o: Outcome, timer: Option<Timer>) returns (a': Store)
    requires ReconcilesAs(cfg, x, a, b, o, timer) && x.now == a.now && cfg.name in a.tasks
    requires !a.tasks[cfg.name].meta.deleting && Finalizer(cfg.kind) !in a.tasks[cfg.name].meta.finalizers
    requires cfg.kind == Inf ==> a.tasks[cfg.name].frameworkLabel == a.tasks[cfg.name].spec.framework
    ensures var t := a.tasks[cfg.name];
            var f := match cfg.kind case Dev => "devtask.kai.io/finalizer" case Inf => "inference.kai.io/finalizer"
                                    case Eval => "eval.kai.io/finalizer";
            OnlyTask(cfg, a, a', t.(meta := t.meta.(finalizers := t.meta.finalizers + {f})))
    ensures if cfg.kind == Dev then ReconcilesAs(cfg, x, a', b, o, timer) else b == a' && o == Stop && timer == None
  {
    var t, e := a.tasks[cfg.name], At(b, Done(o, timer));
    On(cfg, x, At(a, AtEntry(Fetch)), e);
    assert Next(cfg, x, At(a, AtEntry(Fetch))) == At(a, AtEntry(AddFinalizer(t)));
    On(cfg, x, At(a, AtEntry(AddFinalizer(t))), e);
    a' := Next(cfg, x, At(a, AtEntry(AddFinalizer(t)))).store;
    if cfg.kind == Dev { Begins(cfg, x, a', e); }
  }

  /** An InferenceTask whose label says another framework gets the right one first, on its way out too, and
      nothing else. */
  lemma LabelEffect(cfg: Config, x: Input, a: Store, b: Store, o: Outcome, timer: Option<Timer>)
    requires ReconcilesAs(cfg, x, a, b, o, timer) && cfg.kind == Inf && cfg.name in a.tasks
    requires a.tasks[cfg.name].frameworkLabel != a.tasks[cfg.name].spec.framework
    requires a.tasks[cfg.name].meta.deleting ==> a.tasks[cfg.name].meta.finalizers != {}
    ensures o == Stop && timer == None
    ensures var t := a.tasks[cfg.name]; OnlyTask(cfg, a, b, t.(frameworkLabel := t.spec.framework))
  {
    var t, e := a.tasks[cfg.name], At(b, Done(o, timer));
    On(cfg, x, At(a, AtEntry(Fetch)), e);
    On(cfg, x, At(a, AtEntry(SetLabel(t))), e);
  }

  /** A task that is gone, that is on its way out without the operator's finalizer, or that stands in a phase
      no handler is for, is left alone; the last is looked at again. */
  lemma LeftAlone(cfg: Config, x: Input, a: Store, b: Store, o: Outcome, timer: Option<Timer>)
    requires ReconcilesAs(cfg, x, a, b, o, timer)
    requires cfg.name in a.tasks ==>
               var t := a.tasks[cfg.name];
               && (cfg.kind == Inf ==> t.frameworkLabel == t.spec.framework)
               && (if t.meta.deleting then Finalizer(cfg.kind) !in t.meta.finalizers
                   else
                     && Kept(cfg, a)
                      && (t.status.phase == Terminating || (cfg.kind == Eval && t.status.phase == Creating)))
    ensures b == a && timer == None
    ensures o == if cfg.name in a.tasks && !a.tasks[cfg.name].meta.deleting then Again else Stop
  {
    On(cfg, x, At(a, AtEntry(Fetch)), At(b, Done(o, timer)));
  }

  /** A task on its way out is let go, its children cleaned up, and not looked at again. */
  lemma DeletionEffect(cfg: Config, x: Input, a: Store, b: Store, o: Outcome, timer: Option<Timer>)
    requires ReconcilesAs(cfg, x, a, b, o, timer) && Cleanup.Doomed(cfg, a)
    ensures o == Stop && timer == None && !Safety.Held(cfg, b)
    ensures forall key :: key in b.children <==> key in a.children && !Cleanup.Cleaned(cfg, a.tasks[cfg.name], key)
  {
    var s, e := At(a, AtEntry(Fetch)), At(b, Done(o, timer));
    var calls: nat :| Steady(cfg, x, s, e, calls);
    SteadyIsQuiet(cfg, x, s, e, calls);
    Cleanup.QuietIsPatchy(cfg, s, e, calls);
    Cleanup.PatchyCleans(cfg, {}, a, s, e, calls);
  }

  /* ------------------------------ Pending ------------------------------ */

  lemma DevPending(cfg: Config, x: Input, a: Store, e: State)
    requires cfg.kind == Dev && Kept(cfg, a) && IsPending(a.tasks[cfg.name].status.phase)
    requires Leads(cfg, x, At(a, AtPending(PendingCheck)), e)
    ensures e.ctl == Done(Stop, None)
    ensures var t := a.tasks[cfg.name];
            OnlyTask(cfg, a, e.store, t.(frameworkLabel := t.spec.framework,
                                         status := t.status.(phase := Creating, start := Some(x.now))))
  {
    var t := a.tasks[cfg.name];
    On(cfg, x, At(a, AtPending(PendingCheck)), e);
    On(cfg, x, At(a, AtPending(PendingReread)), e);
    On(cfg, x, At(a, AtPending(PendingLabel(t))), e);
    var m := Next(cfg, x, At(a, AtPending(PendingLabel(t))));
    assert m.ctl == AtPending(PendingRefresh) && OnlyTask(cfg, a, m.store, t.(frameworkLabel := t.spec.framework));
    On(cfg, x, m, e);
    On(cfg, x, m.(ctl := AtPending(PendingCommit(m.store.tasks[cfg.name], x.now))), e);
  }

  lemma InfPending(cfg: Config, x: Input, a: Store, e: State)
    requires cfg.kind == Inf && Kept(cfg, a) && IsPending(a.tasks[cfg.name].status.phase)
    requires Leads(cfg, x, At(a, AtPending(PendingCheck)), e)
    ensures e.ctl == Done(Stop, None)
    ensures var t := a.tasks[cfg.name];
            OnlyTask(cfg, a, e.store, t.(status := t.status.(phase := Creating, start := Some(x.now))))
  {
    On(cfg, x, At(a, AtPending(PendingCheck)), e);
    On(cfg, x, At(a, AtPending(PendingCommit(a.tasks[cfg.name], x.now))), e);
  }

  lemma EvalPending(cfg: Config, x: Input, a: Store, e: State)
    requires cfg.kind == Eval && Kept(cfg, a)
    requires Leads(cfg, x, At(a, AtEval(EvalLabel(a.tasks[cfg.name]))), e)
    ensures e.ctl == Done(Stop, None)
    ensures var t := a.tasks[cfg.name];
            OnlyTask(cfg, a, e.store, t.(frameworkLabel := t.spec.framework,
                                         status := t.status.(phase := Running, start := Some(x.now))))
  {
    var t := a.tasks[cfg.name];
    On(cfg, x, At(a, AtEval(EvalLabel(t))), e);
    var m := Next(cfg, x, At(a, AtEval(EvalLabel(t))));
    assert OnlyTask(cfg, a, m.store, t.(frameworkLabel := t.spec.framework));
    assert m.ctl == AtEval(EvalCommit(m.store.tasks[cfg.name], x.now));
    On(cfg, x, m, e);
  }

  /** A pending task is labelled with its framework and starts now: an EvalTask runs, the others are being
      created. */
  lemma PendingEffect(cfg: Config, x: Input, a: Store, b: Store, o: Outcome, timer: Option<Timer>)
    requires ReconcilesAs(cfg, x, a, b, o, timer) && Kept(cfg, a) && IsPending(a.tasks[cfg.name].status.phase)
    ensures o == Stop && timer == None
    ensures var t := a.tasks[cfg.name];
            OnlyTask(cfg, a, b, t.(frameworkLabel := t.spec.framework,
                                   status := t.status.(phase := if cfg.kind == Eval then Running else Creating,
                                                       start := Some(x.now))))
  {
    var e := At(b, Done(o, timer));
    Dispatched(cfg, x, a, e);
    match cfg.kind
    case Dev => DevPending(cfg, x, a, e);
    case Inf => InfPending(cfg, x, a, e);
    case Eval => EvalPending(cfg, x, a, e);
  }

  /* ------------------------------ Service and route ------------------------------ */

  lemma Nothing(cfg: Config, a: Store, t: Task)
    ensures Provided(cfg, a, a, t, {})
  {
  }

  /** One more child, there already or made now. */
  lemma OneChild(cfg: Config, a: Store, b: Store, c: Store, t: Task, wanted: set<Resource>, r: Resource)
    requires Provided(cfg, a, b, t, wanted)
    requires c == if ChildKey(cfg, r, t) in b.children then b else PutChild(b, ChildKey(cfg, r, t), NewChild(cfg, r, t))
    ensures Provided(cfg, a, c, t, wanted + {r}) && c.tasks == b.tasks
  {
  }

  /** The lookup of a child, and its creation where it is missing. */
  lemma LooksAndMakes(cfg: Config, x: Input, b: Store, stage: Phase, t: Task, r: Resource, e: State) returns (c: Store)
    requires cfg.kind != Eval && (r == Services || r == Routes)
    requires Leads(cfg, x, At(b, AtEnsure(if r == Services then SvcLookup(stage, t) else RouteLookup(stage, t))), e)
    ensures c == if ChildKey(cfg, r, t) in b.children then b
                 else PutChild(b, ChildKey(cfg, r, t), NewChild(cfg, r, t))
    ensures Leads(cfg, x, At(c, if r == Services then AfterSvc(cfg, stage, t, x) else AfterRoute(cfg, stage, t, x)), e)
  {
    var s := At(b, AtEnsure(if r == Services then SvcLookup(stage, t) else RouteLookup(stage, t)));
    On(cfg, x, s, e);
    c := b;
    if ChildKey(cfg, r, t) !in b.children {
      var m := At(b, AtEnsure(if r == Services then SvcCreate(stage, t) else RouteCreate(stage, t)));
      assert Next(cfg, x, s) == m;
      On(cfg, x, m, e);
      c := Next(cfg, x, m).store;
    }
  }

  /** Service and route are ensured and the handler goes on. */
  lemma Exposes(cfg: Config, x: Input, a: Store, b: Store, wanted: set<Resource>, stage: Phase, t: Task, e: State)
    returns (c: Store)
    requires cfg.kind != Eval && Provided(cfg, a, b, t, wanted) && !t.meta.deleting
    requires Leads(cfg, x, At(b, AtEnsure(SvcLookup(stage, t))), e)
    ensures Provided(cfg, a, c, t, wanted + Exposing(t)) && c.tasks == b.tasks
    ensures Leads(cfg, x, At(c, if t.spec.routed then AfterRoute(cfg, stage, t, x) else AfterSvc(cfg, stage, t, x)), e)
  {
    c := LooksAndMakes(cfg, x, b, stage, t, Services, e);
    OneChild(cfg, a, b, c, t, wanted, Services);
    if t.spec.routed {
      var d := LooksAndMakes(cfg, x, c, stage, t, Routes, e);
      OneChild(cfg, a, c, d, t, wanted + {Services}, Routes);
      assert wanted + {Services} + {Routes} == wanted + Exposing(t);
      c := d;
    }
  }

  /* ------------------------------ Creating ------------------------------ */

  /** The status of a task that is called running. */
  function RunningStatus(cfg: Config, t: Task, x: Input): Status {
    t.status.(phase := Running,
              podName := (if cfg.kind == Dev then "devtask-" else "inference-") + t.spec.framework + "-" + cfg.name,
              url := if t.spec.routed && (cfg.kind == Dev || t.status.url == "") then x.url else t.status.url)
  }

  lemma Deploys(cfg: Config, x: Input, a: Store, t: Task, e: State) returns (b: Store)
    requires cfg.kind != Eval && Leads(cfg, x, At(a, AtCreating(CreateLookup(t))), e)
    ensures Provided(cfg, a, b, t, {Deployments}) && b.tasks == a.tasks
    ensures Leads(cfg, x, At(b, AtEnsure(SvcLookup(Creating, t))), e)
  {
    On(cfg, x, At(a, AtCreating(CreateLookup(t))), e);
    b := a;
    if ChildKey(cfg, Deployments, t) !in a.children {
      On(cfg, x, At(a, AtCreating(CreateDeploy(t))), e);
      b := Next(cfg, x, At(a, AtCreating(CreateDeploy(t)))).store;
    }
    Nothing(cfg, a, t);
    OneChild(cfg, a, a, b, t, {}, Deployments);
    assert {} + {Deployments} == {Deployments};
  }

  /** The write that calls the task running. */
  lemma CallsRunning(cfg: Config, x: Input, a: Store, c: Store, t: Task, wanted: set<Resource>, url: string, e: State)
    requires Provided(cfg, a, c, t, wanted) && c.tasks == a.tasks && cfg.name in a.tasks && t == a.tasks[cfg.name]
    requires Leads(cfg, x, At(c, AtCreating(CommitRunning(t, url))), e)
    ensures e.ctl == Done(Stop, None) && Provided(cfg, a, e.store, t, wanted) && cfg.name in e.store.tasks
    ensures Is(e.store.tasks[cfg.name],
               t.(status := t.status.(phase := Running, podName := PodNameOf(cfg, t), url := url)))
  {
    On(cfg, x, At(c, AtCreating(CommitRunning(t, url))), e);
  }

  /** A task being created gets its Deployment, its Service and any wanted route, and runs.  A DevTask is
      stored with the URL looked up, an InferenceTask only if it had none. */
  lemma CreatingEffect(cfg: Config, x: Input, a: Store, b: Store, o: Outcome, timer: Option<Timer>)
    requires ReconcilesAs(cfg, x, a, b, o, timer) && Kept(cfg, a) && cfg.kind != Eval
    requires a.tasks[cfg.name].status.phase == Creating
    ensures o == Stop && timer == None
    ensures var t := a.tasks[cfg.name];
            && cfg.name in b.tasks && Is(b.tasks[cfg.name], t.(status := RunningStatus(cfg, t, x)))
            && Provided(cfg, a, b, t, {Deployments} + Exposing(t))
  {
    var t, e := a.tasks[cfg.name], At(b, Done(o, timer));
    Dispatched(cfg, x, a, e);
    var m := Deploys(cfg, x, a, t, e);
    var c := Exposes(cfg, x, a, m, {Deployments}, Creating, t, e);
    CallsRunning(cfg, x, a, c, t, {Deployments} + Exposing(t), RunningStatus(cfg, t, x).url, e);
  }

  /* ------------------------------ Running ------------------------------ */

  /** The message after these pods were noted. */
  function Noting(pods: seq<Pod>, message: string): string {
    if pods == [] then message
    else Noting(pods[1..], match pods[0].phase case PodPending => "Pod pending" case PodRunning => "Pod running"
                                               case _ => message)
  }

  /** Only the message has changed. */
  predicate Said(cfg: Config, a: Store, b: Store, message: string) {
    && cfg.name in a.tasks
    && var t := a.tasks[cfg.name];
       OnlyTask(cfg, a, b, t.(status := t.status.(message := message)))
  }

  lemma NotesOne(cfg: Config, x: Input, a: Store, replicas: int, pods: seq<Pod>, e: State) returns (m: Store)
    requires cfg.name in a.tasks && Leads(cfg, x, At(a, Scan(a.tasks[cfg.name], replicas, pods)), e)
    requires pods != [] && Decides(pods[0]) == None && Noted(pods[0])
    ensures Said(cfg, a, m, Noting(pods[..1], a.tasks[cfg.name].status.message))
    ensures Leads(cfg, x, At(m, Scan(m.tasks[cfg.name], replicas, pods[1..])), e)
  {
    var s := At(a, Scan(a.tasks[cfg.name], replicas, pods));
    On(cfg, x, s, e);
    m := Next(cfg, x, s).store;
    assert pods[..1][1..] == [];
  }

  lemma NotingOn(pods: seq<Pod>, message: string)
    requires pods != [] && Decides(pods[0]) == None
    ensures Pods.Outcome(pods) == Pods.Outcome(pods[1..])
    ensures !Noted(pods[0]) ==> Noting(pods[..1], message) == message
    ensures Noting(pods[..Before(pods)], message)
         == Noting(pods[1..][..Before(pods[1..])], Noting(pods[..1], message))
  {
    PodsBefore(pods);
    assert pods[..Before(pods)][1..] == pods[1..][..Before(pods[1..])];
    assert pods[..1][1..] == [];
  }

  lemma SaidTwice(cfg: Config, a: Store, m: Store, b: Store, before: string, message: string)
    requires Said(cfg, a, m, before) && Said(cfg, m, b, message)
    ensures Said(cfg, a, b, message)
  {
  }

  lemma LoopsEnd(cfg: Config, x: Input, a: Store, replicas: int, pods: seq<Pod>)
    requires cfg.name in a.tasks && (pods == [] || Decides(pods[0]).Some?)
    ensures Said(cfg, a, a, Noting(pods[..Before(pods)], a.tasks[cfg.name].status.message))
    ensures Scan(a.tasks[cfg.name], replicas, pods) == After(a.tasks[cfg.name], replicas, Pods.Outcome(pods))
  {
    if pods != [] { FirstPod(cfg, a.tasks[cfg.name], replicas, pods, [], x); }
  }

  lemma Skips(cfg: Config, x: Input, t: Task, replicas: int, pods: seq<Pod>)
    requires pods != [] && Decides(pods[0]) == None && !Noted(pods[0])
    ensures Scan(t, replicas, pods) == Scan(t, replicas, pods[1..])
  {
    FirstPod(cfg, t, replicas, pods, [], x);
  }

  /** The pod loop, up to where it ends, has noted the pods before the first decisive one. */
  lemma {:induction false} Loops(cfg: Config, x: Input, a: Store, replicas: int, pods: seq<Pod>, e: State)
    returns (b: Store)
    requires cfg.name in a.tasks && Leads(cfg, x, At(a, Scan(a.tasks[cfg.name], replicas, pods)), e)
    ensures Said(cfg, a, b, Noting(pods[..Before(pods)], a.tasks[cfg.name].status.message))
    ensures Leads(cfg, x, At(b, After(b.tasks[cfg.name], replicas, Pods.Outcome(pods))), e)
    decreases |pods|
  {
    if pods == [] || Decides(pods[0]).Some? {
      b := a;
      LoopsEnd(cfg, x, a, replicas, pods);
    } else {
      var message := a.tasks[cfg.name].status.message;
      NotingOn(pods, message);
      if Noted(pods[0]) {
        var m := NotesOne(cfg, x, a, replicas, pods, e);
        b := Loops(cfg, x, m, replicas, pods[1..], e);
        SaidTwice(cfg, a, m, b, Noting(pods[..1], message), Noting(pods[..Before(pods)], message));
      } else {
        Skips(cfg, x, a.tasks[cfg.name], replicas, pods);
        b := Loops(cfg, x, a, replicas, pods[1..], e);
      }
    }
  }

  /** The pods a task is judged by: those its selector picks, in the order of some answer to the list. */
  ghost predicate Judged(cfg: Config, a: Store, t: Task, pods: seq<Pod>) {
    && (forall i, j :: 0 <= i < j < |pods| ==> pods[i] != pods[j])
    && forall p :: p in pods <==>
         && p in a.pods
         && (if cfg.kind == Dev then p.framework == t.spec.framework && p.taskType == "development"
             else p.owner == cfg.name && p.taskType == "inference")
  }

  lemma Lists(cfg: Config, x: Input, a: Store, t: Task, replicas: int, e: State) returns (pods: seq<Pod>)
    requires Leads(cfg, x, At(a, AtRunning(RunPods(t, replicas))), e)
    ensures Judged(cfg, a, t, pods) && Leads(cfg, x, At(a, Scan(t, replicas, pods)), e)
  {
    var s := At(a, AtRunning(RunPods(t, replicas)));
    var calls: nat :| Steady(cfg, x, s, e, calls);
    var r, m :| QuietCall(cfg, s, r, x, m) && Steady(cfg, x, m, e, calls - 1);
    pods := r.pods;
  }

  lemma Recreates(cfg: Config, x: Input, a: Store, t: Task, e: State) returns (m: Store)
    requires cfg.kind != Eval && ChildKey(cfg, Deployments, t) !in a.children
    requires Leads(cfg, x, At(a, AtRunning(RunLookup(t))), e)
    ensures Provided(cfg, a, m, t, {Deployments}) && m.tasks == a.tasks
    ensures Leads(cfg, x, At(m, AtRunning(Regress(t))), e)
  {
    On(cfg, x, At(a, AtRunning(RunLookup(t))), e);
    On(cfg, x, At(a, AtRunning(Recreate(t))), e);
    m := Next(cfg, x, At(a, AtRunning(Recreate(t)))).store;
    Nothing(cfg, a, t);
    OneChild(cfg, a, a, m, t, {}, Deployments);
    assert {} + {Deployments} == {Deployments};
  }

  lemma Regresses(cfg: Config, x: Input, a: Store, t: Task, e: State)
    requires cfg.name in a.tasks && t == a.tasks[cfg.name] && Leads(cfg, x, At(a, AtRunning(Regress(t))), e)
    ensures e.ctl == Done(Stop, None) && OnlyTask(cfg, a, e.store, t.(status := t.status.(phase := Creating)))
  {
    On(cfg, x, At(a, AtRunning(Regress(t))), e);
  }

  /** A running task whose Deployment has gone gets it again and goes back to creating. */
  lemma RecreatingEffect(cfg: Config, x: Input, a: Store, b: Store, o: Outcome, timer: Option<Timer>)
    requires ReconcilesAs(cfg, x, a, b, o, timer) && Kept(cfg, a) && cfg.kind != Eval
    requires a.tasks[cfg.name].status.phase == Running && !Has(cfg, a, Deployments)
    ensures o == Stop && timer == None
    ensures var t := a.tasks[cfg.name];
            && cfg.name in b.tasks && Is(b.tasks[cfg.name], t.(status := t.status.(phase := Creating)))
            && Provided(cfg, a, b, t, {Deployments})
  {
    var t, e := a.tasks[cfg.name], At(b, Done(o, timer));
    Dispatched(cfg, x, a, e);
    var m := Recreates(cfg, x, a, t, e);
    Regresses(cfg, x, m, t, e);
  }

  /** Where a running task stands after the pod loop: judged by a pod, or by a Deployment scaled to
      nothing, or still running. */
  function JudgedStatus(st: Status, replicas: int, pods: seq<Pod>): Status {
    var verdict := Pods.Outcome(pods);
    if verdict.Some? then st.(phase := verdict.value.phase, message := verdict.value.message)
    else if replicas == 0 then st.(phase := Completed, message := "Task completed")
    else st.(message := Noting(pods, st.message))
  }

  lemma Concludes(cfg: Config, x: Input, a: Store, t: Task, phase: Phase, message: string, e: State)
    requires cfg.name in a.tasks && t == a.tasks[cfg.name]
    requires Leads(cfg, x, At(a, AtEnd(Conclude(t, phase, message))), e)
    ensures e.ctl == Done(Stop, None)
    ensures OnlyTask(cfg, a, e.store, t.(status := t.status.(phase := phase, message := message)))
  {
    On(cfg, x, At(a, AtEnd(Conclude(t, phase, message))), e);
  }

  lemma RunsOn(cfg: Config, x: Input, a: Store, t: Task, e: State)
    requires cfg.kind != Eval && cfg.name in a.tasks && t == a.tasks[cfg.name] && !t.meta.deleting
    requires Leads(cfg, x, At(a, AtEnsure(SvcLookup(Running, t))), e)
    ensures e.ctl == Done(Again, None) && Provided(cfg, a, e.store, t, Exposing(t)) && cfg.name in e.store.tasks
    ensures Is(e.store.tasks[cfg.name],
               if cfg.kind == Dev && t.spec.routed then t.(status := t.status.(url := x.url)) else t)
  {
    Nothing(cfg, a, t);
    var c := Exposes(cfg, x, a, a, {}, Running, t, e);
    assert {} + Exposing(t) == Exposing(t);
    if cfg.kind == Dev && t.spec.routed { On(cfg, x, At(c, AtRunning(CommitUrl(t, x.url))), e); }
  }

  /** The task is left as it is judged. */
  ghost predicate LeftAs(cfg: Config, x: Input, a: Store, b: Store, o: Outcome, st: Status)
    requires cfg.name in a.tasks
  {
    var t := a.tasks[cfg.name];
    if st.phase != Running then o == Stop && OnlyTask(cfg, a, b, t.(status := st))
    else
      && o == Again && Provided(cfg, a, b, t, Exposing(t)) && cfg.name in b.tasks
      && Is(b.tasks[cfg.name], t.(status := if cfg.kind == Dev && t.spec.routed then st.(url := x.url) else st))
  }

  lemma AfterLoop(cfg: Config, x: Input, a: Store, m: Store, replicas: int, outcome: Option<Verdict>, message: string,
                  e: State)
    requires Kept(cfg, a) && cfg.kind != Eval && a.tasks[cfg.name].status.phase == Running && Said(cfg, a, m, message)
    requires outcome.Some? ==> outcome.value.phase != Running
    requires Leads(cfg, x, At(m, After(m.tasks[cfg.name], replicas, outcome)), e)
    ensures e.ctl.Done? && e.ctl.timer == None
    ensures var st := a.tasks[cfg.name].status;
            LeftAs(cfg, x, a, e.store, e.ctl.outcome,
                   if outcome.Some? then st.(phase := outcome.value.phase, message := outcome.value.message)
                   else if replicas == 0 then st.(phase := Completed, message := "Task completed")
                   else st.(message := message))
  {
    var t := m.tasks[cfg.name];
    if outcome.Some? {
      Concludes(cfg, x, m, t, outcome.value.phase, outcome.value.message, e);
    } else if replicas == 0 {
      Concludes(cfg, x, m, t, Completed, "Task completed", e);
    } else {
      RunsOn(cfg, x, m, t, e);
    }
  }

  lemma Judgment(pods: seq<Pod>)
    ensures Pods.Outcome(pods).Some? ==> Pods.Outcome(pods).value.phase in {Completed, Failed}
    ensures Pods.Outcome(pods) == None ==> pods[..Before(pods)] == pods
  {
  }

  /** A running task is judged by its pods.  If none decides and its Deployment is not scaled to nothing,
      its Service and any wanted route are ensured, and a routed DevTask is stored with the URL looked up. */
  lemma RunningEffect(cfg: Config, x: Input, a: Store, b: Store, o: Outcome, timer: Option<Timer>)
    returns (pods: seq<Pod>)
    requires ReconcilesAs(cfg, x, a, b, o, timer) && Kept(cfg, a) && cfg.kind != Eval
    requires a.tasks[cfg.name].status.phase == Running && Has(cfg, a, Deployments)
    ensures timer == None && Judged(cfg, a, a.tasks[cfg.name], pods)
    ensures var t := a.tasks[cfg.name];
            LeftAs(cfg, x, a, b, o, JudgedStatus(t.status, a.children[ChildKey(cfg, Deployments, t)].replicas, pods))
  {
    var t, e := a.tasks[cfg.name], At(b, Done(o, timer));
    var replicas := a.children[ChildKey(cfg, Deployments, t)].replicas;
    Dispatched(cfg, x, a, e);
    On(cfg, x, At(a, AtRunning(RunLookup(t))), e);
    pods := Lists(cfg, x, a, t, replicas, e);
    var m := Loops(cfg, x, a, replicas, pods, e);
    Judgment(pods);
    AfterLoop(cfg, x, a, m, replicas, Pods.Outcome(pods), Noting(pods[..Before(pods)], t.status.message), e);
  }

  /* ------------------------------ Finished ------------------------------ */

  /** The end time, written if it is not there. */
  lemma EndsNow(cfg: Config, x: Input, a: Store, e: State) returns (b: Store)
    requires Kept(cfg, a) && IsTerminal(a.tasks[cfg.name].status.phase)
    requires Leads(cfg, x, At(a, Dispatch(cfg, a.tasks[cfg.name], x)), e)
    ensures OnlyTask(cfg, a, b, EndedTask(a.tasks[cfg.name], x))
    ensures Leads(cfg, x, At(b, AfterEnd(cfg, b.tasks[cfg.name], x)), e)
  {
    b := a;
    if a.tasks[cfg.name].status.end == None {
      var s := At(a, AtEnd(CommitEnd(a.tasks[cfg.name], x.now)));
      On(cfg, x, s, e);
      b := Next(cfg, x, s).store;
    }
  }

  function EndedTask(t: Task, x: Input): Task {
    if t.status.end == None then t.(status := t.status.(end := Some(x.now))) else t
  }

  /** The timer of a finished task: started if and only if the task is completed and has a TTL, and then
      for this very task, now, and with just that TTL. */
  predicate TimerFor(t: Task, now: int, timer: Option<Timer>) {
    match timer
    case Some(made) =>
      t.status.phase == Completed && t.spec.ttl == Some(made.ttl) && made.uid == t.uid && made.since == now
    case None => t.status.phase != Completed || t.spec.ttl == None
  }

  lemma TimerMade(t: Task, x: Input)
    ensures var c := AfterFinished(t, x); c.outcome == Stop && TimerFor(t, x.now, c.timer)
  {
  }

  lemma Finishes(cfg: Config, x: Input, a: Store, m: Store, e: State)
    requires cfg.kind != Eval && Kept(cfg, m) && m.children == a.children && m.pods == a.pods && m.now == a.now
    requires Leads(cfg, x, At(m, AfterEnd(cfg, m.tasks[cfg.name], x)), e)
    ensures var t := m.tasks[cfg.name];
            && e.store.tasks == m.tasks && Provided(cfg, a, e.store, t, if cfg.kind == Dev then Exposing(t) else {})
            && e.ctl == AfterFinished(t, x)
  {
    var t := m.tasks[cfg.name];
    Nothing(cfg, a, t);
    if cfg.kind == Dev {
      var c := Exposes(cfg, x, a, m, {}, Completed, t, e);
      assert {} + Exposing(t) == Exposing(t);
    }
  }

  /** A finished task gets its end time once, and a timer as it should; a DevTask's Service and route are
      ensured even now. */
  lemma FinishedEffect(cfg: Config, x: Input, a: Store, b: Store, o: Outcome, timer: Option<Timer>)
    requires ReconcilesAs(cfg, x, a, b, o, timer) && Kept(cfg, a) && cfg.kind != Eval
    requires IsTerminal(a.tasks[cfg.name].status.phase)
    ensures o == Stop && TimerFor(a.tasks[cfg.name], x.now, timer)
    ensures var t := a.tasks[cfg.name];
            && cfg.name in b.tasks && Is(b.tasks[cfg.name], EndedTask(t, x))
            && Provided(cfg, a, b, t, if cfg.kind == Dev then Exposing(t) else {})
  {
    var e := At(b, Done(o, timer));
    Dispatched(cfg, x, a, e);
    var m := EndsNow(cfg, x, a, e);
    Finishes(cfg, x, a, m, e);
    TimerMade(m.tasks[cfg.name], x);
    SameTimer(cfg, a.tasks[cfg.name], m.tasks[cfg.name], x, timer);
    var wanted := if cfg.kind == Dev then Exposing(m.tasks[cfg.name]) else {};
    SameProvision(cfg, a, b, a.tasks[cfg.name], m.tasks[cfg.name], wanted);
  }

  lemma SameTimer(cfg: Config, t: Task, t': Task, x: Input, timer: Option<Timer>)
    requires Is(t', EndedTask(t, x)) && TimerFor(t', x.now, timer)
    ensures TimerFor(t, x.now, timer)
  {
  }

  lemma SameProvision(cfg: Config, a: Store, b: Store, t: Task, t': Task, wanted: set<Resource>)
    requires Provided(cfg, a, b, t', wanted) && t'.spec == t.spec
    ensures Provided(cfg, a, b, t, wanted)
  {
  }

  /** Between these states of a run the reconcile only makes calls, undisturbed, and is told `x`. */
  ghost predicate Undisturbed(cfg: Config, x: Input, run: Run, i: nat, j: nat)
    requires j < |run.states| == |run.labels| + 1
  {
    forall k :: i <= k < j ==>
      && run.labels[k].Call? && run.labels[k].input == x
      && QuietCall(cfg, run.states[k], run.labels[k].reply, x, run.states[k+1])
  }

  lemma {:induction false} PartLeads(cfg: Config, edits: bool, x: Input, run: Run, i: nat, j: nat)
    requires IsRun(cfg, edits, run) && i <= j < |run.states| && Undisturbed(cfg, x, run, i, j)
    requires run.states[j].ctl.Done?
    ensures run.states[j].timers == run.states[i].timers
    ensures Leads(cfg, x, At(run.states[i].store, run.states[i].ctl), At(run.states[j].store, run.states[j].ctl))
    decreases j - i
  {
    var e := At(run.states[j].store, run.states[j].ctl);
    if i == j {
      assert Steady(cfg, x, e, e, 0);
    } else {
      PartLeads(cfg, edits, x, run, i + 1, j);
      var s, m := At(run.states[i].store, run.states[i].ctl), At(run.states[i+1].store, run.states[i+1].ctl);
      var calls: nat :| Steady(cfg, x, m, e, calls);
      assert QuietCall(cfg, s, run.labels[i].reply, x, m);
      assert Steady(cfg, x, s, e, calls + 1);
    }
  }

  /** So in every run an undisturbed reconcile of a completed task with a TTL leaves just one more timer
      pending once it has returned, and of any other finished task none. */
  lemma TimerPending(cfg: Config, edits: bool, x: Input, run: Run, i: nat, j: nat)
    requires IsRun(cfg, edits, run) && i < j < |run.labels| && run.labels[i] == Begin && run.labels[j] == Return
    requires Undisturbed(cfg, x, run, i + 1, j)
    requires cfg.kind != Eval && Kept(cfg, run.states[i].store)
    requires IsTerminal(run.states[i].store.tasks[cfg.name].status.phase)
    ensures var t := run.states[i].store.tasks[cfg.name];
            run.states[j+1].timers == run.states[i].timers +
              (if t.status.phase == Completed && t.spec.ttl.Some? then [Timer(t.uid, x.now, t.spec.ttl.value)] else [])
  {
    assert StepAt(cfg, edits, run, i) && StepAt(cfg, edits, run, j);
    PartLeads(cfg, edits, x, run, i + 1, j);
    var o, timer := run.states[j].ctl.outcome, run.states[j].ctl.timer;
    FinishedEffect(cfg, x, run.states[i].store, run.states[j].store, o, timer);
  }

  /* ------------------------------ Jobs ------------------------------ */

  /** What is reported of a Job: what is active before what succeeded, before what failed. */
  function Reported(cfg: Config, t: Task, job: JobStatus, text: string): Status {
    var st := t.status.(podName := cfg.childName(t.spec.framework));
    if job.active > 0 then st.(phase := Running, message := "Job is running")
    else if job.succeeded > 0 then st.(phase := Completed, message := "Evaluation completed successfully")
    else if job.failed > 0 then st.(phase := Failed, message := text)
    else t.status
  }

  lemma VerdictLands(cfg: Config, x: Input, a: Store, t: Task, job: JobStatus, e: State)
    requires cfg.name in a.tasks && t == a.tasks[cfg.name] && Leads(cfg, x, At(a, JobVerdict(t, job, x)), e)
    ensures e.ctl == Done(Again, None) && OnlyTask(cfg, a, e.store, t.(status := Reported(cfg, t, job, x.text)))
  {
    var s := At(a, JobVerdict(t, job, x));
    if !s.ctl.Done? { On(cfg, x, s, e); }
  }

  lemma Reports(cfg: Config, x: Input, a: Store, t: Task, e: State)
    requires cfg.kind == Eval && cfg.name in a.tasks && t == a.tasks[cfg.name]
    requires ChildKey(cfg, Jobs, t) in a.children && Leads(cfg, x, At(a, AtEval(CheckJob(t))), e)
    ensures e.ctl == Done(Again, None)
    ensures OnlyTask(cfg, a, e.store, t.(status := Reported(cfg, t, a.children[ChildKey(cfg, Jobs, t)].job, x.text)))
  {
    On(cfg, x, At(a, AtEval(CheckJob(t))), e);
    VerdictLands(cfg, x, a, t, a.children[ChildKey(cfg, Jobs, t)].job, e);
  }

  /** A running EvalTask whose Job is there is stored as the Job is, and looked at again. */
  lemma JobEffect(cfg: Config, x: Input, a: Store, b: Store, o: Outcome, timer: Option<Timer>)
    requires ReconcilesAs(cfg, x, a, b, o, timer) && Kept(cfg, a) && cfg.kind == Eval
    requires a.tasks[cfg.name].status.phase == Running && Has(cfg, a, Jobs)
    ensures o == Again && timer == None
    ensures var t := a.tasks[cfg.name];
            OnlyTask(cfg, a, b, t.(status := Reported(cfg, t, a.children[ChildKey(cfg, Jobs, t)].job, x.text)))
  {
    var t, e := a.tasks[cfg.name], At(b, Done(o, timer));
    Dispatched(cfg, x, a, e);
    On(cfg, x, At(a, AtEval(JobLookup(t))), e);
    Reports(cfg, x, a, t, e);
  }

  lemma MakesJob(cfg: Config, x: Input, a: Store, t: Task, e: State) returns (m: Store)
    requires cfg.kind == Eval && ChildKey(cfg, Jobs, t) !in a.children
    requires Leads(cfg, x, At(a, AtEval(JobLookup(t))), e)
    ensures m == PutChild(a, ChildKey(cfg, Jobs, t), NewChild(cfg, Jobs, t))
    ensures Leads(cfg, x, At(m, AtEval(CheckJob(t))), e)
  {
    On(cfg, x, At(a, AtEval(JobLookup(t))), e);
    On(cfg, x, At(a, AtEval(JobCreate(t))), e);
    m := Next(cfg, x, At(a, AtEval(JobCreate(t)))).store;
  }

  /** A Job just made reports nothing. */
  lemma SeesFresh(cfg: Config, x: Input, a: Store, t: Task, e: State)
    requires ChildKey(cfg, Jobs, t) in a.children && a.children[ChildKey(cfg, Jobs, t)].job == NO_JOB
    requires Leads(cfg, x, At(a, AtEval(CheckJob(t))), e)
    ensures e == At(a, Done(Again, None))
  {
    On(cfg, x, At(a, AtEval(CheckJob(t))), e);
  }

  /** Without a Job it gets one, and is otherwise left alone. */
  lemma NoJobEffect(cfg: Config, x: Input, a: Store, b: Store, o: Outcome, timer: Option<Timer>)
    requires ReconcilesAs(cfg, x, a, b, o, timer) && Kept(cfg, a) && cfg.kind == Eval
    requires a.tasks[cfg.name].status.phase == Running && !Has(cfg, a, Jobs)
    ensures o == Again && timer == None
    ensures b.tasks == a.tasks && Provided(cfg, a, b, a.tasks[cfg.name], {Jobs})
  {
    var t, e := a.tasks[cfg.name], At(b, Done(o, timer));
    Dispatched(cfg, x, a, e);
    var m := MakesJob(cfg, x, a, t, e);
    SeesFresh(cfg, x, m, t, e);
    Nothing(cfg, a, t);
    OneChild(cfg, a, a, m, t, {}, Jobs);
    assert {} + {Jobs} == {Jobs};
  }

  /** Of the children only the Job of that name has gone, unless a finalizer holds it. */
  predicate JobGone(cfg: Config, a: Store, b: Store, t: Task) {
    var job := ChildKey(cfg, Jobs, t);
    if job in a.children && a.children[job].meta.finalizers == {} then b.children == a.children - {job}
    else b.children.Keys == a.children.Keys
  }

  lemma DropsJob(cfg: Config, x: Input, a: Store, t: Task, e: State) returns (b: Store)
    requires cfg.kind == Eval && Leads(cfg, x, At(a, AtRelease(DropJobLookup(t))), e)
    ensures JobGone(cfg, a, b, t) && b.tasks == a.tasks && Leads(cfg, x, At(b, AtRelease(Release(t))), e)
  {
    On(cfg, x, At(a, AtRelease(DropJobLookup(t))), e);
    b := a;
    if ChildKey(cfg, Jobs, t) in a.children {
      On(cfg, x, At(a, AtRelease(DropJob(t))), e);
      b := Next(cfg, x, At(a, AtRelease(DropJob(t)))).store;
    }
  }

  lemma Releases(cfg: Config, x: Input, a: Store, t: Task, e: State)
    requires cfg.kind == Eval && Kept(cfg, a) && t == a.tasks[cfg.name]
    requires Leads(cfg, x, At(a, AtRelease(Release(t))), e)
    ensures e.ctl == Done(Stop, None)
    ensures OnlyTask(cfg, a, e.store, t.(meta := t.meta.(finalizers := t.meta.finalizers - {"eval.kai.io/finalizer"})))
  {
    On(cfg, x, At(a, AtRelease(Release(t))), e);
  }

  /** A finished EvalTask gets its end time once, loses its Job and then its finalizer. */
  lemma FinishedEvalEffect(cfg: Config, x: Input, a: Store, b: Store, o: Outcome, timer: Option<Timer>)
    requires ReconcilesAs(cfg, x, a, b, o, timer) && Kept(cfg, a) && cfg.kind == Eval
    requires IsTerminal(a.tasks[cfg.name].status.phase)
    ensures o == Stop && timer == None && JobGone(cfg, a, b, a.tasks[cfg.name])
    ensures var t := EndedTask(a.tasks[cfg.name], x);
            && cfg.name in b.tasks
            && Is(b.tasks[cfg.name], t.(meta := t.meta.(finalizers := t.meta.finalizers - {"eval.kai.io/finalizer"})))
  {
    var e := At(b, Done(o, timer));
    Dispatched(cfg, x, a, e);
    var m := EndsNow(cfg, x, a, e);
    var t := m.tasks[cfg.name];
    var n := DropsJob(cfg, x, m, t, e);
    Releases(cfg, x, n, t, e);
  }

  /* ------------------------------ Failures ------------------------------ */

  /** The call did not do what it was made for. */
  predicate Fails(op: Op, r: Reply) {
    match op
    case UpdateTask(_, _) => !r.TaskIs?
    case UpdateTaskStatus(_, _) => !r.TaskIs?
    case CreateChild(_, _) => !r.Ok?
    case UpdateChild(_, _) => !r.ChildIs? && !r.NotFound?
    case DeleteChild(_) => !r.Ok? && !r.NotFound?
    case _ => r.Fault?
  }

  /** Whatever call fails, but for the reads of cleanup and the ensuring of Service and route, ends the
      reconcile at once and has it tried again, never forgotten; only a Deployment that cannot be created
      fails a task being created.  A Service that cannot be created stops a task being created. */
  lemma FailuresRetried(cfg: Config, c: Ctl, r: Reply, x: Input)
    requires Busy(c) && Fails(Request(cfg, c), r) && !CleanupRead(c)
    requires c.AtEnsure? ==> c.ensure.SvcCreate? && c.ensure.stage == Creating
    ensures var c' := Resume(cfg, c, r, x);
            if c.AtCreating? && Request(cfg, c).CreateChild? then
              c' == AtEnd(Conclude(c.creating.t, Failed, x.text))
            else c'.Done? && c'.outcome != Stop && c'.timer == None
  {
  }

  /** Failures about Service and route that are passed over.  A failed read counts as "there", but stops a
      DevTask being created if it is of the Service, and counts as "missing" for the route of a DevTask
      past creating.  A Service that cannot be created matters only while creating, a route never. */
  lemma FailuresPassedOver(cfg: Config, c: EnsurePc, r: Reply, there: Child, x: Input)
    ensures c.SvcLookup? && r.Fault? ==>
              ResumeEnsure(cfg, c, r, x)
              == if cfg.kind != Inf && c.stage == Creating then Done(Error, None)
                 else ResumeEnsure(cfg, c, ChildIs(there), x)
    ensures c.RouteLookup? && r.Fault? ==>
              ResumeEnsure(cfg, c, r, x)
              == ResumeEnsure(cfg, c, if cfg.kind == Dev && c.stage != Creating then NotFound else ChildIs(there), x)
    ensures c.SvcCreate? && c.stage != Creating ==> ResumeEnsure(cfg, c, r, x) == ResumeEnsure(cfg, c, Ok, x)
    ensures c.RouteCreate? ==> ResumeEnsure(cfg, c, r, x) == ResumeEnsure(cfg, c, Ok, x)
  {
  }

  /** What cleanup finds gone when it means to strip or delete it is as good as deleted, but for the Service
      of a DevTask; and a Job gone before it was looked at is looked for again. */
  lemma GoneIsGone(cfg: Config, c: Ctl, x: Input)
    requires Busy(c)
    ensures Request(cfg, c).DeleteChild? ==>
              Resume(cfg, c, NotFound, x)
              == if cfg.kind == Dev && c.AtDrop? && c.drop.DropSvc? then Done(Error, None) else Resume(cfg, c, Ok, x)
    ensures Request(cfg, c).UpdateChild? ==>
              Resume(cfg, c, NotFound, x) == Resume(cfg, c, ChildIs(Request(cfg, c).child), x)
    ensures c.AtEval? && c.eval.CheckJob? ==> Resume(cfg, c, NotFound, x) == Done(Again, None)
  {
  }

  /** While creating, a refused Deployment is written down as the task's failure, whatever the refusal. */
  lemma RefusedCreateFails(cfg: Config, x: Input, s: State, r: Reply, m: State, e: State)
    requires CallStep(cfg, s, r, x, m) && s.ctl.AtCreating? && Request(cfg, s.ctl).CreateChild? && !r.Ok?
    requires cfg.name in m.store.tasks && s.ctl.creating.t == m.store.tasks[cfg.name]
    requires Leads(cfg, x, At(m.store, m.ctl), e)
    ensures e.ctl == Done(Stop, None)
    ensures var t := m.store.tasks[cfg.name];
            OnlyTask(cfg, m.store, e.store, t.(status := t.status.(phase := Failed, message := x.text)))
  {
    Concludes(cfg, x, m.store, m.store.tasks[cfg.name], Failed, x.text, e);
  }
}
