/** The InferenceTask reconciler, statement by statement. */
module InferenceTasks {
  import opened Cluster
  import opened Machine
  import opened Clients
  import opened PodLoop

  class InferenceTaskReconciler {
    const client: Client

    constructor (client: Client)
      ensures this.client == client
    {
      this.client := client;
    }

    ghost predicate At(c: Ctl)
      reads client
    {
      client.Valid() && client.cfg.kind == Inf && client.ctl == c
    }

    /** The label, the finalizer and the phase are each a reconcile of their own. */
    method Reconcile() returns (o: Outcome)
      requires At(Idle)
      modifies client
      ensures At(Idle) && Extends(client.run, old(client.run))
      ensures |client.run.labels| > 0 && client.run.labels[|client.run.labels|-1] == Label.Return
      ensures var c := client.run.states[|client.run.states|-2].ctl; c.Done? && c.outcome == o
    {
      var timer: Option<Timer> := None;
      client.Begin();
      var r, x := client.EntryCall(Fetch, GetTask(client.cfg.name));
      if r.NotFound? {
        o := Stop;
      } else if !r.TaskIs? {
        o := Error;
      } else {
        o, timer := HandleTask(r.task, x);
      }
      client.Return(o, timer);
    }

    /** The rest of `Reconcile`, once the task is read. */
    method HandleTask(t: Task, x0: Input) returns (o: Outcome, timer: Option<Timer>)
      requires At(AfterFetch(client.cfg, t, x0))
      modifies client
      ensures At(Done(o, timer)) && client.begun == old(client.begun)
    {
      var task := t;
      var r, x;
      timer := None;
      if task.frameworkLabel != task.spec.framework {
        task := task.(frameworkLabel := task.spec.framework);
        r, x := client.EntryCall(SetLabel(t), UpdateTask(client.cfg.name, task));
        o := if r.TaskIs? then Stop else Error;
      } else if task.meta.deleting {
        o := HandleDeletion(task);
      } else if Finalizer(Inf) !in task.meta.finalizers {
        task := task.(meta := task.meta.(finalizers := task.meta.finalizers + {Finalizer(Inf)}));
        r, x := client.EntryCall(AddFinalizer(t), UpdateTask(client.cfg.name, task));
        o := if r.TaskIs? then Stop else Error;
      } else {
        o, timer := HandlePhase(task, x0);
      }
    }

    method HandlePhase(t: Task, x0: Input) returns (o: Outcome, timer: Option<Timer>)
      requires At(Dispatch(client.cfg, t, x0))
      modifies client
      ensures At(Done(o, timer)) && client.begun == old(client.begun)
    {
      timer := None;
      match t.status.phase
      case Unset => o := HandlePendingPhase();
      case Pending => o := HandlePendingPhase();
      case Creating => o := HandleCreatingPhase(t);
      case Running => o := HandleRunningPhase(t);
      case Completed => o, timer := HandleFinishedPhase(t, x0);
      case Failed => o, timer := HandleFinishedPhase(t, x0);
      case Terminating => o := Again;
    }

    method HandlePendingPhase() returns (o: Outcome)
      requires At(AtPending(PendingCheck))
      modifies client
      ensures At(Done(o, None)) && client.begun == old(client.begun)
    {
      var r, x := client.PendingCall(PendingCheck, GetTask(client.cfg.name));
      if !r.TaskIs? { return Error; }
      var task := r.task;
      if !IsPending(task.status.phase) { return Stop; }
      task := task.(status := task.status.(phase := Creating));
      task := task.(status := task.status.(start := Some(x.now)));
      r, x := client.PendingCall(PendingCommit(r.task, x.now), UpdateTaskStatus(client.cfg.name, task));
      if !r.TaskIs? { return Again; }
      return Stop;
    }

    method HandleCreatingPhase(t: Task) returns (o: Outcome)
      requires At(AtCreating(CreateLookup(t)))
      modifies client
      ensures At(Done(o, None)) && client.begun == old(client.begun)
    {
      var task := t;
      var cfg := client.cfg;
      var deploy := NewChild(cfg, Deployments, task);
      var r, x := client.CreatingCall(CreateLookup(t), GetChild(ChildKey(cfg, Deployments, task)));
      if r.NotFound? {
        r, x := client.CreatingCall(CreateDeploy(t), CreateChild(ChildKey(cfg, Deployments, task), deploy));
        if !r.Ok? {
          o := UpdateStatusAndReturn(client, task, Failed, x.text);
          return;
        }
      } else if !r.ChildIs? {
        return Error;
      }
      o := Expose(t);
    }

    /** The Deployment is there: its Service, its route, and the task runs. */
    method Expose(t: Task) returns (o: Outcome)
      requires At(AtEnsure(SvcLookup(Creating, t)))
      modifies client
      ensures At(Done(o, None)) && client.begun == old(client.begun)
    {
      var cfg := client.cfg;
      var task := t.(status := t.status.(podName := "inference-" + t.spec.framework + "-" + cfg.name));
      var ok, x := EnsureService(Creating, t);
      if !ok { return Error; }
      if task.spec.routed {
        x := EnsureHTTPRoute(Creating, t);
        if task.status.url == "" {
          task := task.(status := task.status.(url := x.url));
        }
      }
      task := task.(status := task.status.(phase := Running));
      var r;
      r, x := client.CreatingCall(CommitRunning(t, task.status.url), UpdateTaskStatus(cfg.name, task));
      if !r.TaskIs? { return Error; }
      return Stop;
    }

    method HandleRunningPhase(t: Task) returns (o: Outcome)
      requires At(AtRunning(RunLookup(t)))
      modifies client
      ensures At(Done(o, None)) && client.begun == old(client.begun)
    {
      var task := t;
      var cfg := client.cfg;
      var r, x := client.RunningCall(RunLookup(t), GetChild(ChildKey(cfg, Deployments, task)));
      if r.NotFound? {
        o := Recreated(t);
        return;
      }
      if !r.ChildIs? { return Error; }
      var replicas := r.child.replicas;
      r, x := client.RunningCall(RunPods(t, replicas), ListPods(ByTask(cfg.name, "inference")));
      if !r.PodList? { return Error; }

      var verdict;
      verdict, task := ScanPods(client, task, replicas, r.pods);
      if verdict.Some? { return verdict.value; }

      o := KeepExposed(task);
    }

    /** The Deployment has gone: make it again and go back to creating. */
    method Recreated(t: Task) returns (o: Outcome)
      requires At(AtRunning(Recreate(t)))
      modifies client
      ensures At(Done(o, None)) && client.begun == old(client.begun)
    {
      var task := t;
      var cfg := client.cfg;
      var deploy := NewChild(cfg, Deployments, task);
      var r, x := client.RunningCall(Recreate(t), CreateChild(ChildKey(cfg, Deployments, task), deploy));
      if !r.Ok? { return Error; }
      task := task.(status := task.status.(phase := Creating));
      r, x := client.RunningCall(Regress(t), UpdateTaskStatus(cfg.name, task));
      if !r.TaskIs? { return Error; }
      return Stop;
    }

    /** No pod decided: Service and route are ensured. */
    method KeepExposed(t: Task) returns (o: Outcome)
      requires At(AtEnsure(SvcLookup(Running, t)))
      modifies client
      ensures At(Done(o, None)) && client.begun == old(client.begun)
    {
      var task := t;
      var ok, x := EnsureService(Running, task);
      if task.spec.routed && !task.meta.deleting {
        x := EnsureHTTPRoute(Running, task);
        // The URL is set on the copy in hand, which is not written back.
        if x.url != "" { task := task.(status := task.status.(url := x.url)); }
      }
      return Again;
    }

    method HandleFinishedPhase(t: Task, x0: Input) returns (o: Outcome, timer: Option<Timer>)
      requires IsTerminal(t.status.phase) && At(Dispatch(client.cfg, t, x0))
      modifies client
      ensures At(Done(o, timer)) && client.begun == old(client.begun)
    {
      var task, x := t, x0;
      var r;
      timer := None;
      if task.status.end == None {
        task := task.(status := task.status.(end := Some(x.now)));
        r, x := client.EndCall(CommitEnd(t, x.now), UpdateTaskStatus(client.cfg.name, task));
        if !r.TaskIs? { return Error, None; }
        task := r.task;
      }
      if task.spec.ttl.Some? && task.status.phase == Completed {
        timer := Some(Timer(task.uid, x.now, task.spec.ttl.value));
      }
      return Stop, timer;
    }

    /** Create the Service if it is not there; a read error is no error. */
    method EnsureService(stage: Phase, t: Task) returns (ok: bool, x: Input)
      requires At(AtEnsure(SvcLookup(stage, t)))
      modifies client
      ensures client.begun == old(client.begun)
      ensures At(if ok || stage != Creating then AfterSvc(client.cfg, stage, t, x) else Done(Error, None))
    {
      var cfg := client.cfg;
      var svc := NewChild(cfg, Services, t);
      var r;
      r, x := client.EnsureCall(SvcLookup(stage, t), GetChild(ChildKey(cfg, Services, t)));
      if r.NotFound? {
        r, x := client.EnsureCall(SvcCreate(stage, t), CreateChild(ChildKey(cfg, Services, t), svc));
        if !r.Ok? { return false, x; }
      }
      return true, x;
    }

    method EnsureHTTPRoute(stage: Phase, t: Task) returns (x: Input)
      requires At(AtEnsure(RouteLookup(stage, t)))
      modifies client
      ensures client.begun == old(client.begun) && At(AfterRoute(client.cfg, stage, t, x))
    {
      var cfg := client.cfg;
      var route := NewChild(cfg, Routes, t);
      var r;
      r, x := client.EnsureCall(RouteLookup(stage, t), GetChild(ChildKey(cfg, Routes, t)));
      if r.NotFound? {
        r, x := client.EnsureCall(RouteCreate(stage, t), CreateChild(ChildKey(cfg, Routes, t), route));
      }
    }

    method HandleDeletion(t: Task) returns (o: Outcome)
      requires t.meta.deleting
      requires At(if Finalizer(Inf) in t.meta.finalizers then AtDrop(DropLookup(t)) else Done(Stop, None))
      modifies client
      ensures At(Done(o, None)) && client.begun == old(client.begun)
    {
      if Finalizer(Inf) in t.meta.finalizers {
        var ok := CleanupResources(t);
        if !ok { return Error; }
        var task := t.(meta := t.meta.(finalizers := t.meta.finalizers - {Finalizer(Inf)}));
        var r, x := client.ReleaseCall(Release(t), UpdateTask(client.cfg.name, task));
        if !r.TaskIs? { return Error; }
      }
      return Stop;
    }

    method CleanupResources(t: Task) returns (ok: bool)
      requires At(AtDrop(DropLookup(t)))
      modifies client
      ensures At(if ok then AtRelease(Release(t)) else Done(Error, None)) && client.begun == old(client.begun)
    {
      var cfg := client.cfg;
      var r, x := client.DropCall(DropLookup(t), GetChild(ChildKey(cfg, Deployments, t)));
      if r.ChildIs? {
        r, x := client.DropCall(DropDeploy(t), DeleteChild(ChildKey(cfg, Deployments, t)));
        if !r.Ok? && !r.NotFound? { return false; }
      }
      ok := CleanupService(t);
      if !ok { return false; }
      ok := CleanupHTTPRoute(t);
    }

    method CleanupService(t: Task) returns (ok: bool)
      requires At(AtDrop(DropSvcLookup(t)))
      modifies client
      ensures At(if ok then AtUnroute(DropRouteLookup(t)) else Done(Error, None)) && client.begun == old(client.begun)
    {
      var cfg := client.cfg;
      var r, x := client.DropCall(DropSvcLookup(t), GetChild(ChildKey(cfg, Services, t)));
      if r.ChildIs? {
        r, x := client.DropCall(DropSvc(t), DeleteChild(ChildKey(cfg, Services, t)));
        if !r.Ok? && !r.NotFound? { return false; }
      }
      return true;
    }

    method CleanupHTTPRoute(t: Task) returns (ok: bool)
      requires At(AtUnroute(DropRouteLookup(t)))
      modifies client
      ensures At(if ok then AtRelease(Release(t)) else Done(Error, None)) && client.begun == old(client.begun)
    {
      var cfg := client.cfg;
      var r, x := client.UnrouteCall(DropRouteLookup(t), GetChild(ChildKey(cfg, Routes, t)));
      if r.ChildIs? {
        var route := r.child;
        if INFERENCE_ROUTE_FINALIZER in route.meta.finalizers {
          route := route.(meta := route.meta.(finalizers := route.meta.finalizers - {INFERENCE_ROUTE_FINALIZER}));
          r, x := client.UnrouteCall(StripRoute(t, r.child), UpdateChild(ChildKey(cfg, Routes, t), route));
          if !r.ChildIs? && !r.NotFound? { return false; }
        }
        r, x := client.UnrouteCall(DropRoute(t), DeleteChild(ChildKey(cfg, Routes, t)));
        if !r.Ok? && !r.NotFound? { return false; }
      }
      return true;
    }
  }
}
