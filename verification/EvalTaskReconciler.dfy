/** The EvalTask reconciler, statement by statement. */
module EvalTasks {
  import opened Cluster
  import opened Machine
  import opened Clients

  class EvalTaskReconciler {
    const client: Client

    constructor (client: Client)
      ensures this.client == client
    {
      this.client := client;
    }

    ghost predicate At(c: Ctl)
      reads client
    {
      client.Valid() && client.cfg.kind == Eval && client.ctl == c
    }

    method Reconcile() returns (o: Outcome)
      requires At(Idle)
      modifies client
      ensures At(Idle) && Extends(client.run, old(client.run))
      ensures |client.run.labels| > 0 && client.run.labels[|client.run.labels|-1] == Label.Return
      ensures var c := client.run.states[|client.run.states|-2].ctl; c.Done? && c.outcome == o
    {
      client.Begin();
      var r, x := client.EntryCall(Fetch, GetTask(client.cfg.name));
      if r.NotFound? {
        o := Stop;
      } else if !r.TaskIs? {
        o := Error;
      } else {
        o := HandleTask(r.task, x);
      }
      client.Return(o, None);
    }

    /** The rest of `Reconcile`, once the task is read. */
    method HandleTask(t: Task, x0: Input) returns (o: Outcome)
      requires At(AfterFetch(client.cfg, t, x0))
      modifies client
      ensures At(Done(o, None)) && client.begun == old(client.begun)
    {
      var eval := t;
      if eval.meta.deleting {
        o := HandleDeletion(eval);
      } else if Finalizer(Eval) !in eval.meta.finalizers {
        eval := eval.(meta := eval.meta.(finalizers := eval.meta.finalizers + {Finalizer(Eval)}));
        var r, x := client.EntryCall(AddFinalizer(t), UpdateTask(client.cfg.name, eval));
        o := if r.TaskIs? then Stop else Error;
      } else {
        o := HandlePhase(eval, x0);
      }
    }

    method HandlePhase(t: Task, x0: Input) returns (o: Outcome)
      requires At(Dispatch(client.cfg, t, x0))
      modifies client
      ensures At(Done(o, None)) && client.begun == old(client.begun)
    {
      match t.status.phase
      case Unset => o := HandlePendingPhase(t);
      case Pending => o := HandlePendingPhase(t);
      case Running => o := HandleRunningPhase(t);
      case Completed => o := HandleFinishedPhase(t, x0);
      case Failed => o := HandleFinishedPhase(t, x0);
      case Creating => o := Again;
      case Terminating => o := Again;
    }

    method HandlePendingPhase(t: Task) returns (o: Outcome)
      requires At(AtEval(EvalLabel(t)))
      modifies client
      ensures At(Done(o, None)) && client.begun == old(client.begun)
    {
      var eval := t.(frameworkLabel := t.spec.framework);
      var r, x := client.EvalCall(EvalLabel(t), UpdateTask(client.cfg.name, eval));
      if !r.TaskIs? { return Again; }
      eval := r.task;
      eval := eval.(status := eval.status.(phase := Running));
      eval := eval.(status := eval.status.(start := Some(x.now)));
      r, x := client.EvalCall(EvalCommit(r.task, x.now), UpdateTaskStatus(client.cfg.name, eval));
      if !r.TaskIs? { return Again; }
      return Stop;
    }

    method HandleRunningPhase(t: Task) returns (o: Outcome)
      requires At(AtEval(JobLookup(t)))
      modifies client
      ensures At(Done(o, None)) && client.begun == old(client.begun)
    {
      var ok := EnsureJob(t);
      if !ok { return Error; }
      ok := CheckJobStatus(t);
      if !ok { return Error; }
      return Again;
    }

    method EnsureJob(t: Task) returns (ok: bool)
      requires At(AtEval(JobLookup(t)))
      modifies client
      ensures At(if ok then AtEval(CheckJob(t)) else Done(Error, None)) && client.begun == old(client.begun)
    {
      var cfg := client.cfg;
      var r, x := client.EvalCall(JobLookup(t), GetChild(ChildKey(cfg, Jobs, t)));
      if r.ChildIs? { return true; }
      if !r.NotFound? { return false; }
      var job := NewChild(cfg, Jobs, t);
      r, x := client.EvalCall(JobCreate(t), CreateChild(ChildKey(cfg, Jobs, t), job));
      return r.Ok?;
    }

    method CheckJobStatus(t: Task) returns (ok: bool)
      requires At(AtEval(CheckJob(t)))
      modifies client
      ensures At(Done(if ok then Again else Error, None)) && client.begun == old(client.begun)
    {
      var cfg := client.cfg;
      var r, x := client.EvalCall(CheckJob(t), GetChild(ChildKey(cfg, Jobs, t)));
      if r.NotFound? { return true; }
      if !r.ChildIs? { return false; }
      var job := r.child.job;
      var eval := t.(status := t.status.(podName := ChildKey(cfg, Jobs, t).name));
      if job.active > 0 {
        eval := eval.(status := eval.status.(phase := Running, message := "Job is running"));
        r, x := client.EvalCall(Report(t, Running, "Job is running"), UpdateTaskStatus(cfg.name, eval));
        return r.TaskIs?;
      }
      if job.succeeded > 0 {
        eval := eval.(status := eval.status.(phase := Completed, message := "Evaluation completed successfully"));
        r, x := client.EvalCall(Report(t, Completed, "Evaluation completed successfully"),
                                UpdateTaskStatus(cfg.name, eval));
        return r.TaskIs?;
      }
      if job.failed > 0 {
        var message := x.text;
        eval := eval.(status := eval.status.(phase := Failed, message := message));
        r, x := client.EvalCall(Report(t, Failed, message), UpdateTaskStatus(cfg.name, eval));
        return r.TaskIs?;
      }
      return true;
    }

    method HandleFinishedPhase(t: Task, x0: Input) returns (o: Outcome)
      requires IsTerminal(t.status.phase) && At(Dispatch(client.cfg, t, x0))
      modifies client
      ensures At(Done(o, None)) && client.begun == old(client.begun)
    {
      var eval := t;
      var r, x;
      if eval.status.end == None {
        eval := eval.(status := eval.status.(end := Some(x0.now)));
        r, x := client.EndCall(CommitEnd(t, x0.now), UpdateTaskStatus(client.cfg.name, eval));
        if !r.TaskIs? { return Error; }
        eval := r.task;
      }
      var ok := CleanupResources(eval);
      if !ok { return Error; }
      ghost var before := eval;
      eval := eval.(meta := eval.meta.(finalizers := eval.meta.finalizers - {Finalizer(Eval)}));
      r, x := client.ReleaseCall(Release(before), UpdateTask(client.cfg.name, eval));
      if !r.TaskIs? { return Error; }
      return Stop;
    }

    method HandleDeletion(t: Task) returns (o: Outcome)
      requires t.meta.deleting
      requires At(if Finalizer(Eval) in t.meta.finalizers then AtRelease(DropJobLookup(t)) else Done(Stop, None))
      modifies client
      ensures At(Done(o, None)) && client.begun == old(client.begun)
    {
      if Finalizer(Eval) in t.meta.finalizers {
        var ok := CleanupResources(t);
        if !ok { return Error; }
        var eval := t.(meta := t.meta.(finalizers := t.meta.finalizers - {Finalizer(Eval)}));
        var r, x := client.ReleaseCall(Release(t), UpdateTask(client.cfg.name, eval));
        if !r.TaskIs? { return Error; }
      }
      return Stop;
    }

    method CleanupResources(t: Task) returns (ok: bool)
      requires At(AtRelease(DropJobLookup(t)))
      modifies client
      ensures At(if ok then AtRelease(Release(t)) else Done(Error, None)) && client.begun == old(client.begun)
    {
      var cfg := client.cfg;
      var r, x := client.ReleaseCall(DropJobLookup(t), GetChild(ChildKey(cfg, Jobs, t)));
      if r.ChildIs? {
        r, x := client.ReleaseCall(DropJob(t), DeleteChild(ChildKey(cfg, Jobs, t)));
        if !r.Ok? && !r.NotFound? { return false; }
      }
      return true;
    }
  }
}
