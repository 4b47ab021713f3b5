/** The DevTask reconciler, statement by statement.  Each method starts where the machine is and ends
    where the machine is done, so every execution is a run the theorems speak about. */
module DevTasks {
  import opened Cluster
  import opened Machine
  import opened Clients
  import opened PodLoop

  class DevTaskReconciler {
    const client: Client

    constructor (client: Client)
      ensures this.client == client
    {
      this.client := client;
    }

    ghost predicate At(c: Ctl)
      reads client
    {
      client.Valid() && client.cfg.kind == Dev && client.ctl == c
    }

    method Reconcile() returns (o: Outcome)
      requires At(Idle)
      modifies client
      ensures At(Idle) && Extends(client.run, old(client.run))
      ensures |client.run.labels| > 0 && client.run.labels[|client.run.labels|-1] == Label.Return
      ensures var c := client.run.states[|client.run.states|-2].ctl; c.Done? && c.outcome == o
    {
      var timer: Option<Timer> := None;
      client.Begin();
      var r, x := client.EntryCall(Fetch, GetTask(client.cfg.name));
      if r.NotFound? {
        o := Stop;
      } else if !r.TaskIs? {
        o := Error;
      } else {
        o, timer := HandleTask(r.task, x);
      }
      client.Return(o, timer);
    }

    /** The rest of `Reconcile`, once the task is read. */
    method HandleTask(t: Task, x0: Input) returns (o: Outcome, timer: Option<Timer>)
      requires At(AfterFetch(client.cfg, t, x0))
      modifies client
      ensures At(Done(o, timer)) && client.begun == old(client.begun)
    {
      timer := None;
      var task, x := t, x0;
      if task.meta.deleting {
        o := HandleDeletion(task);
        return;
      }
      if Finalizer(Dev) !in task.meta.finalizers {
        task := task.(meta := task.meta.(finalizers := task.meta.finalizers + {Finalizer(Dev)}));
        var r;
        r, x := client.EntryCall(AddFinalizer(t), UpdateTask(client.cfg.name, task));
        if !r.TaskIs? { return Error, None; }
        task := r.task;
      }
      o, timer := HandlePhase(task, x);
    }

    method HandlePhase(t: Task, x0: Input) returns (o: Outcome, timer: Option<Timer>)
      requires At(Dispatch(client.cfg, t, x0))
      modifies client
      ensures At(Done(o, timer)) && client.begun == old(client.begun)
    {
      timer := None;
      match t.status.phase
      case Unset => o := HandlePendingPhase();
      case Pending => o := HandlePendingPhase();
      case Creating => o := HandleCreatingPhase(t);
      case Running => o := HandleRunningPhase(t);
      case Completed => o, timer := HandleFinishedPhase(t, x0);
      case Failed => o, timer := HandleFinishedPhase(t, x0);
      case Terminating => o := Again;
    }

    method HandlePendingPhase() returns (o: Outcome)
      requires At(AtPending(PendingCheck))
      modifies client
      ensures At(Done(o, None)) && client.begun == old(client.begun)
    {
      var r, x := client.PendingCall(PendingCheck, GetTask(client.cfg.name));
      if !r.TaskIs? { return Error; }
      var task := r.task;
      if !IsPending(task.status.phase) { return Stop; }

      r, x := client.PendingCall(PendingReread, GetTask(client.cfg.name));
      if !r.TaskIs? { return Error; }
      task := r.task;
      task := task.(frameworkLabel := task.spec.framework);
      r, x := client.PendingCall(PendingLabel(r.task), UpdateTask(client.cfg.name, task));
      if !r.TaskIs? { return Again; }

      r, x := client.PendingCall(PendingRefresh, GetTask(client.cfg.name));
      if !r.TaskIs? { return Error; }
      task := r.task;
      task := task.(status := task.status.(phase := Creating));
      task := task.(status := task.status.(start := Some(x.now)));
      r, x := client.PendingCall(PendingCommit(r.task, x.now), UpdateTaskStatus(client.cfg.name, task));
      if !r.TaskIs? { return Again; }
      return Stop;
    }

    method HandleCreatingPhase(t: Task) returns (o: Outcome)
      requires At(AtCreating(CreateLookup(t)))
      modifies client
      ensures At(Done(o, None)) && client.begun == old(client.begun)
    {
      var task := t;
      var cfg := client.cfg;
      var deploy := NewChild(cfg, Deployments, task);
      var r, x := client.CreatingCall(CreateLookup(t), GetChild(ChildKey(cfg, Deployments, task)));
      if r.NotFound? {
        r, x := client.CreatingCall(CreateDeploy(t), CreateChild(ChildKey(cfg, Deployments, task), deploy));
        if !r.Ok? {
          o := UpdateStatusAndReturn(client, task, Failed, x.text);
          return;
        }
      } else if !r.ChildIs? {
        return Error;
      }
      o := Expose(t);
    }

    /** The Deployment is there: its Service, its route, and the task runs. */
    method Expose(t: Task) returns (o: Outcome)
      requires At(AtEnsure(SvcLookup(Creating, t)))
      modifies client
      ensures At(Done(o, None)) && client.begun == old(client.begun)
    {
      var cfg := client.cfg;
      var task := t.(status := t.status.(podName := "devtask-" + t.spec.framework + "-" + cfg.name));
      var ok, x := CreateService(Creating, t);
      if !ok { return Error; }
      if task.spec.routed {
        x := CreateHTTPRoute(Creating, t);
        task := task.(status := task.status.(url := x.url));
      }
      task := task.(status := task.status.(phase := Running));
      var r;
      r, x := client.CreatingCall(CommitRunning(t, task.status.url), UpdateTaskStatus(cfg.name, task));
      if !r.TaskIs? { return Error; }
      return Stop;
    }

    method HandleRunningPhase(t: Task) returns (o: Outcome)
      requires At(AtRunning(RunLookup(t)))
      modifies client
      ensures At(Done(o, None)) && client.begun == old(client.begun)
    {
      var task := t;
      var cfg := client.cfg;
      var r, x := client.RunningCall(RunLookup(t), GetChild(ChildKey(cfg, Deployments, task)));
      if r.NotFound? {
        o := Recreated(t);
        return;
      }
      if !r.ChildIs? { return Error; }
      var replicas := r.child.replicas;
      r, x := client.RunningCall(RunPods(t, replicas), ListPods(ByFramework(task.spec.framework, "development")));
      if !r.PodList? { return Error; }

      var verdict;
      verdict, task := ScanPods(client, task, replicas, r.pods);
      if verdict.Some? { return verdict.value; }

      o := KeepExposed(task);
    }

    /** No pod decided: Service and route are ensured, and the URL is looked up and stored. */
    method KeepExposed(t: Task) returns (o: Outcome)
      requires At(AtEnsure(SvcLookup(Running, t)))
      modifies client
      ensures At(Done(o, None)) && client.begun == old(client.begun)
    {
      var task := t;
      var ok, x := CreateService(Running, task);
      if task.spec.routed {
        x := EnsureHTTPRoute(Running, task);
        task := task.(status := task.status.(url := x.url));
        var r;
        r, x := client.RunningCall(CommitUrl(t, x.url), UpdateTaskStatus(client.cfg.name, task));
      }
      return Again;
    }

    /** The Deployment has gone: make it again and go back to creating. */
    method Recreated(t: Task) returns (o: Outcome)
      requires At(AtRunning(Recreate(t)))
      modifies client
      ensures At(Done(o, None)) && client.begun == old(client.begun)
    {
      var task := t;
      var cfg := client.cfg;
      var deploy := NewChild(cfg, Deployments, task);
      var r, x := client.RunningCall(Recreate(t), CreateChild(ChildKey(cfg, Deployments, task), deploy));
      if !r.Ok? { return Error; }
      task := task.(status := task.status.(phase := Creating));
      r, x := client.RunningCall(Regress(t), UpdateTaskStatus(cfg.name, task));
      if !r.TaskIs? { return Error; }
      return Stop;
    }

    method HandleFinishedPhase(t: Task, x0: Input) returns (o: Outcome, timer: Option<Timer>)
      requires IsTerminal(t.status.phase) && At(Dispatch(client.cfg, t, x0))
      modifies client
      ensures At(Done(o, timer)) && client.begun == old(client.begun)
    {
      var task, x := t, x0;
      var r;
      timer := None;
      if task.status.end == None {
        task := task.(status := task.status.(end := Some(x.now)));
        r, x := client.EndCall(CommitEnd(t, x.now), UpdateTaskStatus(client.cfg.name, task));
        if !r.TaskIs? { return Error, None; }
        task := r.task;
      }
      var ok;
      ok, x := CreateService(Completed, task);
      if task.spec.routed {
        x := EnsureHTTPRoute(Completed, task);
      }
      if task.spec.ttl.Some? && task.status.phase == Completed {
        timer := Some(Timer(task.uid, x.now, task.spec.ttl.value));
      }
      return Stop, timer;
    }

    /** Ensure the Service; only the creating handler looks at the error. */
    method CreateService(stage: Phase, t: Task) returns (ok: bool, x: Input)
      requires At(AtEnsure(SvcLookup(stage, t)))
      modifies client
      ensures client.begun == old(client.begun)
      ensures At(if ok || stage != Creating then AfterSvc(client.cfg, stage, t, x) else Done(Error, None))
    {
      var cfg := client.cfg;
      var svc := NewChild(cfg, Services, t);
      var r;
      r, x := client.EnsureCall(SvcLookup(stage, t), GetChild(ChildKey(cfg, Services, t)));
      if r.NotFound? {
        r, x := client.EnsureCall(SvcCreate(stage, t), CreateChild(ChildKey(cfg, Services, t), svc));
        return r.Ok?, x;
      }
      return r.ChildIs?, x;
    }

    /** Create the route if it is not there; a read error is no error. */
    method CreateHTTPRoute(stage: Phase, t: Task) returns (x: Input)
      requires stage == Creating && At(AtEnsure(RouteLookup(stage, t)))
      modifies client
      ensures client.begun == old(client.begun) && At(AfterRoute(client.cfg, stage, t, x))
    {
      var cfg := client.cfg;
      var route := NewChild(cfg, Routes, t);
      var r;
      r, x := client.EnsureCall(RouteLookup(stage, t), GetChild(ChildKey(cfg, Routes, t)));
      if r.NotFound? {
        r, x := client.EnsureCall(RouteCreate(stage, t), CreateChild(ChildKey(cfg, Routes, t), route));
      }
    }

    /** Create the route unless it was read. */
    method EnsureHTTPRoute(stage: Phase, t: Task) returns (x: Input)
      requires stage != Creating && At(AtEnsure(RouteLookup(stage, t)))
      modifies client
      ensures client.begun == old(client.begun) && At(AfterRoute(client.cfg, stage, t, x))
    {
      var cfg := client.cfg;
      var r;
      r, x := client.EnsureCall(RouteLookup(stage, t), GetChild(ChildKey(cfg, Routes, t)));
      if r.ChildIs? { return x; }
      var route := NewChild(cfg, Routes, t);
      r, x := client.EnsureCall(RouteCreate(stage, t), CreateChild(ChildKey(cfg, Routes, t), route));
    }

    method HandleDeletion(t: Task) returns (o: Outcome)
      requires t.meta.deleting
      requires At(if Finalizer(Dev) in t.meta.finalizers then AtDrop(DropLookup(t)) else Done(Stop, None))
      modifies client
      ensures At(Done(o, None)) && client.begun == old(client.begun)
    {
      if Finalizer(Dev) in t.meta.finalizers {
        var ok := CleanupResources(t);
        if !ok { return Error; }
        var task := t.(meta := t.meta.(finalizers := t.meta.finalizers - {Finalizer(Dev)}));
        var r, x := client.ReleaseCall(Release(t), UpdateTask(client.cfg.name, task));
        if !r.TaskIs? { return Error; }
      }
      return Stop;
    }

    method CleanupResources(t: Task) returns (ok: bool)
      requires At(AtDrop(DropLookup(t)))
      modifies client
      ensures At(if ok then AtRelease(Release(t)) else Done(Error, None)) && client.begun == old(client.begun)
    {
      var cfg := client.cfg;
      var r, x := client.DropCall(DropLookup(t), GetChild(ChildKey(cfg, Deployments, t)));
      if r.ChildIs? {
        r, x := client.DropCall(DropDeploy(t), DeleteChild(ChildKey(cfg, Deployments, t)));
        if !r.Ok? && !r.NotFound? { return false; }
      }
      ok := CleanupService(t);
      if !ok { return false; }
      ok := CleanupHTTPRoute(t);
    }

    /** A Service that has gone meanwhile is an error. */
    method CleanupService(t: Task) returns (ok: bool)
      requires At(AtDrop(DropSvcLookup(t)))
      modifies client
      ensures At(if ok then AtUnroute(DropRouteLookup(t)) else Done(Error, None)) && client.begun == old(client.begun)
    {
      var cfg := client.cfg;
      var r, x := client.DropCall(DropSvcLookup(t), GetChild(ChildKey(cfg, Services, t)));
      if r.ChildIs? {
        r, x := client.DropCall(DropSvc(t), DeleteChild(ChildKey(cfg, Services, t)));
        if !r.Ok? { return false; }
      }
      return true;
    }

    /** Strip the finalizer, then delete: first the route of the current name, then every route that
        carries the task's label. */
    method CleanupHTTPRoute(t: Task) returns (ok: bool)
      requires At(AtUnroute(DropRouteLookup(t)))
      modifies client
      ensures At(if ok then AtRelease(Release(t)) else Done(Error, None)) && client.begun == old(client.begun)
    {
      var cfg := client.cfg;
      var r, x := client.UnrouteCall(DropRouteLookup(t), GetChild(ChildKey(cfg, Routes, t)));
      if r.ChildIs? {
        var route := r.child;
        if ROUTE_FINALIZER in route.meta.finalizers {
          route := route.(meta := route.meta.(finalizers := route.meta.finalizers - {ROUTE_FINALIZER}));
          r, x := client.UnrouteCall(StripRoute(t, r.child), UpdateChild(ChildKey(cfg, Routes, t), route));
          if !r.ChildIs? && !r.NotFound? { return false; }
        }
        r, x := client.UnrouteCall(DropRoute(t), DeleteChild(ChildKey(cfg, Routes, t)));
        if !r.Ok? && !r.NotFound? { return false; }
      }
      ok := CleanupLabelled(t);
    }

    method CleanupLabelled(t: Task) returns (ok: bool)
      requires At(AtUnroute(ListOwn(t)))
      modifies client
      ensures At(if ok then AtRelease(Release(t)) else Done(Error, None)) && client.begun == old(client.begun)
    {
      var cfg := client.cfg;
      var r, x := client.UnrouteCall(ListOwn(t), ListRoutes(cfg.name));
      if r.RouteList? {
        var items := r.items;
        var i := 0;
        while i < |items|
          invariant 0 <= i <= |items| && client.cfg == cfg
          invariant At(NextRoute(t, items[i..])) && client.begun == old(client.begun)
        {
          assert items[i..][0] == items[i] && items[i..][1..] == items[i+1..];
          ok := CleanupOne(t, items[i], items[i..]);
          if !ok { return false; }
          i := i + 1;
        }
      }
      return true;
    }

    /** One labelled route, the first of those left. */
    method CleanupOne(t: Task, item: Item, ghost left: seq<Item>) returns (ok: bool)
      requires left != [] && item == left[0] && At(NextRoute(t, left))
      modifies client
      ensures At(if ok then NextRoute(t, left[1..]) else Done(Error, None)) && client.begun == old(client.begun)
    {
      var r, x;
      var route := item.child;
      if ROUTE_FINALIZER in route.meta.finalizers {
        route := route.(meta := route.meta.(finalizers := route.meta.finalizers - {ROUTE_FINALIZER}));
        r, x := client.UnrouteCall(StripEach(t, left), UpdateChild(item.key, route));
        if !r.ChildIs? && !r.NotFound? { return false; }
      }
      r, x := client.UnrouteCall(DropEach(t, left), DeleteChild(item.key));
      return r.Ok? || r.NotFound?;
    }
  }
}
