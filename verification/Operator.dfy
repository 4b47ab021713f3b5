/** The operator at work: reconciles, one after another, with anything in between. */
module Operators {
  import opened Cluster
  import opened Machine
  import opened Safety
  import opened Runs
  import opened Clients
  import opened Lookups
  import opened Exposure
  import opened DevTasks
  import opened InferenceTasks
  import opened EvalTasks

  /** In every state of every run: no child without its task, and children only of a held task. */
  ghost predicate Clean(cfg: Config, run: Run) {
    forall i :: 0 <= i < |run.states| ==> CleanAt(cfg, run.states[i].store)
  }

  ghost predicate CleanAt(cfg: Config, s: Store) {
    && (cfg.name !in s.tasks ==> s.children == map[])
    && (forall key :: key in s.children ==> Held(cfg, s))
  }

  lemma RunsAreClean(cfg: Config, run: Run)
    requires IsRun(cfg, false, run) && Initial(run.states[0])
    ensures Clean(cfg, run)
  {
    forall i | 0 <= i < |run.states| ensures CleanAt(cfg, run.states[i].store) {
      if cfg.name !in run.states[i].store.tasks { NoOrphans(cfg, run, i); }
      forall key | key in run.states[i].store.children ensures Held(cfg, run.states[i].store) {
        FinalizerGuard(cfg, run, i, key);
      }
    }
  }

  /** In every step of every run: a URL that is stored anew was looked up for the task as it was stored, and
      a routed task is never called running without one. */
  ghost predicate Publishes(cfg: Config, details: Task -> Detail, run: Run)
    requires |run.labels| < |run.states|
  {
    forall i :: 0 <= i < |run.labels| ==> PublishesAt(cfg, details, run.states[i].store, run.states[i+1].store)
  }

  ghost predicate PublishesAt(cfg: Config, details: Task -> Detail, s: Store, s': Store) {
    Stays(cfg, s, s') ==>
      var t, t' := s.tasks[cfg.name], s'.tasks[cfg.name];
      && (t'.status.url != t.status.url ==> t.spec.routed && LooksUp(details(t), t'.status.url))
      && (t.status.phase == Creating && t'.status.phase == Running && t.spec.routed && Agrees(t.spec, details(t)) ==>
            t'.status.url != "")
  }

  lemma StepPublishes(cfg: Config, details: Task -> Detail, run: Run, i: nat)
    requires IsRun(cfg, false, run) && Initial(run.states[0]) && Informed(details, run) && i < |run.labels|
    ensures PublishesAt(cfg, details, run.states[i].store, run.states[i+1].store)
  {
    var s, s' := run.states[i].store, run.states[i+1].store;
    if Stays(cfg, s, s') {
      var t, t' := s.tasks[cfg.name], s'.tasks[cfg.name];
      if cfg.kind == Eval {
        EvalHasNoUrl(cfg, false, run, i);
      } else {
        if t'.status.url != t.status.url {
          UrlsAreTold(cfg, false, run, i);
          UrlsAreLookedUp(cfg, false, details, run, i);
        }
        if t.status.phase == Creating && t'.status.phase == Running && t.spec.routed && Agrees(t.spec, details(t)) {
          RunsPublished(cfg, false, details, run, i);
        }
      }
    }
  }

  lemma RunsPublish(cfg: Config, details: Task -> Detail, run: Run)
    requires IsRun(cfg, false, run) && Initial(run.states[0]) && Informed(details, run)
    ensures Publishes(cfg, details, run)
  {
    forall i | 0 <= i < |run.labels|
      ensures PublishesAt(cfg, details, run.states[i].store, run.states[i+1].store)
    {
      StepPublishes(cfg, details, run, i);
    }
  }

  ghost predicate AtWork(client: Client, cfg: Config)
    reads client
  {
    && client.Valid() && client.cfg == cfg && !client.edits && client.ctl.Idle?
    && Initial(client.run.states[0])
  }

  /** The operator may stop and start again. */
  method Rest(client: Client)
    requires client.Valid() && client.ctl.Idle? && Initial(client.run.states[0])
    modifies client
    ensures client.Valid() && client.ctl.Idle? && Initial(client.run.states[0])
  {
    client.Interfere();
    var crash: bool := *;
    if crash { client.Take(Crash, client.store, Idle, []); }
  }

  /** A reconcile that the operator does not live to finish: it stops after any number of its calls. */
  method Interrupted(client: Client)
    requires client.Valid() && client.ctl.Idle? && Initial(client.run.states[0])
    modifies client
    ensures client.Valid() && client.ctl.Idle? && Initial(client.run.states[0])
  {
    client.Begin();
    var calls: nat := *;
    while calls > 0 && Busy(client.ctl)
      invariant client.Valid() && client.begun == old(client.run)
    {
      var r, x := client.Call(Request(client.cfg, client.ctl));
      calls := calls - 1;
    }
    client.Interfere();
    client.Take(Crash, client.store, Idle, []);
  }

  method OperateDevTask(cfg: Config, details: Task -> Detail, store: Store, rounds: nat)
    returns (client: Client)
    requires cfg.kind == Dev && store.tasks == map[] && store.children == map[]
    ensures AtWork(client, cfg) && Clean(cfg, client.run)
    ensures client.details == details && Publishes(cfg, details, client.run)
  {
    client := new Client(cfg, false, details, store);
    var reconciler := new DevTaskReconciler(client);
    for round := 0 to rounds
      invariant AtWork(client, cfg) && client.details == details
    {
      Rest(client);
      var dies: bool := *;
      if dies { Interrupted(client); } else { var o := reconciler.Reconcile(); }
    }
    RunsAreClean(cfg, client.run);
    RunsPublish(cfg, details, client.run);
  }

  method OperateInferenceTask(cfg: Config, details: Task -> Detail, store: Store, rounds: nat)
    returns (client: Client)
    requires cfg.kind == Inf && store.tasks == map[] && store.children == map[]
    ensures AtWork(client, cfg) && Clean(cfg, client.run)
    ensures client.details == details && Publishes(cfg, details, client.run)
  {
    client := new Client(cfg, false, details, store);
    var reconciler := new InferenceTaskReconciler(client);
    for round := 0 to rounds
      invariant AtWork(client, cfg) && client.details == details
    {
      Rest(client);
      var dies: bool := *;
      if dies { Interrupted(client); } else { var o := reconciler.Reconcile(); }
    }
    RunsAreClean(cfg, client.run);
    RunsPublish(cfg, details, client.run);
  }

  method OperateEvalTask(cfg: Config, details: Task -> Detail, store: Store, rounds: nat)
    returns (client: Client)
    requires cfg.kind == Eval && store.tasks == map[] && store.children == map[]
    ensures AtWork(client, cfg) && Clean(cfg, client.run)
    ensures client.details == details && Publishes(cfg, details, client.run)
  {
    client := new Client(cfg, false, details, store);
    var reconciler := new EvalTaskReconciler(client);
    for round := 0 to rounds
      invariant AtWork(client, cfg) && client.details == details
    {
      Rest(client);
      var dies: bool := *;
      if dies { Interrupted(client); } else { var o := reconciler.Reconcile(); }
    }
    RunsAreClean(cfg, client.run);
    RunsPublish(cfg, details, client.run);
  }
}
