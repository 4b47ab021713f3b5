/** What stands behind a task that is called running, in every run: the Deployment and Service that were
    there, and the external URL that was looked up, in the very reconcile that says so. */
module Exposure {
  import opened Cluster
  import opened Machine
  import opened Safety
  import opened Runs
  import opened Lookups

  /** No reconcile ends or begins between these states. */
  ghost predicate SameReconcile(run: Run, j: nat, i: nat)
    requires i <= |run.labels|
  {
    forall k :: j <= k < i ==> !run.labels[k].Begin? && !run.labels[k].Return? && !run.labels[k].Crash?
  }

  /** The call made in state `j` ensures the route of task copy `t`, after which the URL is looked up. */
  predicate RouteCall(run: Run, j: nat, t: Task)
    requires j < |run.labels| && j < |run.states|
  {
    && run.labels[j].Call? && run.states[j].ctl.AtEnsure? && run.states[j].ctl.ensure.t == t
    && (run.states[j].ctl.ensure.RouteLookup? || run.states[j].ctl.ensure.RouteCreate?)
  }

  /** The reconcile that stands at state `i` was told this URL for its task copy. */
  ghost predicate Told(run: Run, i: nat, t: Task, url: string)
    requires i <= |run.labels| < |run.states|
  {
    exists j :: 0 <= j < i && RouteCall(run, j, t) && run.labels[j].input.url == url && SameReconcile(run, j, i)
  }

  predicate HasChild(s: State, key: Key) { key in s.store.children }

  /** The child was stored at some point of the reconcile that stands at state `i`. */
  ghost predicate Stood(run: Run, i: nat, key: Key)
    requires i <= |run.labels| < |run.states|
  {
    exists j :: 0 <= j <= i && HasChild(run.states[j], key) && SameReconcile(run, j, i)
  }

  /** Which URL the write that calls the task running takes. */
  ghost predicate UrlFounded(cfg: Config, run: Run, i: nat, t: Task, url: string)
    requires i <= |run.labels| < |run.states|
  {
    if t.spec.routed && (cfg.kind == Dev || t.status.url == "") then Told(run, i, t, url) else url == t.status.url
  }

  ghost predicate Behind(cfg: Config, run: Run, i: nat, t: Task, service: bool)
    requires i <= |run.labels| < |run.states|
  {
    && Stood(run, i, ChildKey(cfg, Deployments, t))
    && (service && cfg.kind == Dev ==> Stood(run, i, ChildKey(cfg, Services, t)))
  }

  /** What is known of the reconcile's past. */
  ghost predicate Backed(cfg: Config, run: Run, i: nat, c: Ctl)
    requires i <= |run.labels| < |run.states|
  {
    match c
    case AtCreating(c) =>
      c.CommitRunning? ==> UrlFounded(cfg, run, i, c.t, c.url) && Behind(cfg, run, i, c.t, true)
    case AtEnsure(c) => c.stage == Creating ==> Behind(cfg, run, i, c.t, c.RouteLookup? || c.RouteCreate?)
    case AtRunning(c) => c.CommitUrl? ==> cfg.kind == Dev && c.t.spec.routed && Told(run, i, c.t, c.url)
    case _ => true
  }

  lemma ToldLater(run: Run, i: nat, t: Task, url: string)
    requires i < |run.labels| < |run.states| && Told(run, i, t, url) && SameReconcile(run, i, i + 1)
    ensures Told(run, i + 1, t, url)
  {
  }

  lemma StoodLater(run: Run, i: nat, key: Key)
    requires i < |run.labels| < |run.states| && Stood(run, i, key) && SameReconcile(run, i, i + 1)
    ensures Stood(run, i + 1, key)
  {
    var j :| 0 <= j <= i && HasChild(run.states[j], key) && SameReconcile(run, j, i);
    assert HasChild(run.states[j], key);
  }

  lemma BackedLater(cfg: Config, run: Run, i: nat, c: Ctl)
    requires i < |run.labels| < |run.states| && Backed(cfg, run, i, c) && SameReconcile(run, i, i + 1)
    ensures Backed(cfg, run, i + 1, c)
  {
    forall t, url | Told(run, i, t, url) ensures Told(run, i + 1, t, url) { ToldLater(run, i, t, url); }
    forall key | Stood(run, i, key) ensures Stood(run, i + 1, key) { StoodLater(run, i, key); }
  }

  lemma JustTold(run: Run, i: nat, t: Task)
    requires i < |run.labels| < |run.states| && RouteCall(run, i, t)
    ensures Told(run, i + 1, t, run.labels[i].input.url)
  {
  }

  lemma JustStood(run: Run, i: nat, key: Key)
    requires i < |run.labels| < |run.states| && run.labels[i].Call?
    requires HasChild(run.states[i], key) || HasChild(run.states[i+1], key)
    ensures Stood(run, i + 1, key)
  {
    assert SameReconcile(run, i, i + 1) && SameReconcile(run, i + 1, i + 1);
    if HasChild(run.states[i], key) { assert Stood(run, i + 1, key); }
  }

  lemma ScanBacked(cfg: Config, run: Run, i: nat, t: Task, replicas: int, pods: seq<Pod>)
    requires i <= |run.labels| < |run.states|
    ensures Backed(cfg, run, i, Scan(t, replicas, pods))
  {
  }

  lemma RunningBacked(cfg: Config, run: Run, i: nat, c: RunningPc, r: Reply, x: Input)
    requires i <= |run.labels| < |run.states|
    ensures Backed(cfg, run, i, ResumeRunning(cfg, c, r, x))
  {
    if c.RunPods? && r.PodList? { ScanBacked(cfg, run, i, c.t, c.replicas, r.pods); }
    if c.NotePod? && r.TaskIs? { ScanBacked(cfg, run, i, r.task, c.replicas, c.rest); }
  }

  lemma CreatingBacked(cfg: Config, run: Run, i: nat, c: CreatingPc)
    requires i < |run.labels| < |run.states| && run.states[i].ctl == AtCreating(c) && run.labels[i].Call?
    requires Serves(run.states[i].store, RequestCreating(cfg, c), run.states[i+1].store, run.labels[i].reply)
    ensures Backed(cfg, run, i + 1, ResumeCreating(cfg, c, run.labels[i].reply, run.labels[i].input))
  {
    var key := ChildKey(cfg, Deployments, c.t);
    if !c.CommitRunning? && (HasChild(run.states[i], key) || HasChild(run.states[i+1], key)) { JustStood(run, i, key); }
  }

  /** Ensuring the Service carries on what stood, and adds the Service where it matters. */
  lemma ServiceBacked(cfg: Config, run: Run, i: nat, c: EnsurePc)
    requires i < |run.labels| < |run.states| && run.states[i].ctl == AtEnsure(c) && run.labels[i].Call?
    requires c.SvcLookup? || c.SvcCreate?
    requires Backed(cfg, run, i + 1, AtEnsure(c))
    requires Serves(run.states[i].store, RequestEnsure(cfg, c), run.states[i+1].store, run.labels[i].reply)
    ensures Backed(cfg, run, i + 1, ResumeEnsure(cfg, c, run.labels[i].reply, run.labels[i].input))
  {
    var key := ChildKey(cfg, Services, c.t);
    if HasChild(run.states[i], key) || HasChild(run.states[i+1], key) { JustStood(run, i, key); }
  }

  /** After ensuring the route the URL is the one just told. */
  lemma RouteBacked(cfg: Config, run: Run, i: nat, c: EnsurePc)
    requires i < |run.labels| < |run.states| && run.states[i].ctl == AtEnsure(c) && run.labels[i].Call?
    requires (c.RouteLookup? || c.RouteCreate?) && c.t.spec.routed && cfg.kind != Eval
    requires Backed(cfg, run, i + 1, AtEnsure(c))
    ensures Backed(cfg, run, i + 1, ResumeEnsure(cfg, c, run.labels[i].reply, run.labels[i].input))
  {
    JustTold(run, i, c.t);
  }

  predicate RoutedOnly(c: Ctl) {
    c.AtEnsure? && (c.ensure.RouteLookup? || c.ensure.RouteCreate?) ==> c.ensure.t.spec.routed
  }

  lemma ResumeRoutedOnly(cfg: Config, c: Ctl, r: Reply, x: Input)
    requires Busy(c) && RoutedOnly(c)
    ensures RoutedOnly(Resume(cfg, c, r, x))
  {
    match c
    case AtRunning(c) =>
      if c.RunPods? && r.PodList? { ScanRoutedOnly(c.t, c.replicas, r.pods); }
      if c.NotePod? && r.TaskIs? { ScanRoutedOnly(r.task, c.replicas, c.rest); }
    case _ =>
  }

  lemma ScanRoutedOnly(t: Task, replicas: int, pods: seq<Pod>)
    ensures RoutedOnly(Scan(t, replicas, pods))
  {
  }

  lemma OthersBacked(cfg: Config, run: Run, i: nat, c: Ctl, r: Reply, x: Input)
    requires i <= |run.labels| < |run.states| && Busy(c) && !c.AtCreating? && !c.AtEnsure? && !c.AtRunning?
    ensures Backed(cfg, run, i, Resume(cfg, c, r, x))
  {
  }

  lemma CallBacked(cfg: Config, edits: bool, run: Run, i: nat)
    requires IsRun(cfg, edits, run) && i < |run.labels| && run.labels[i].Call?
    requires Backed(cfg, run, i, run.states[i].ctl) && RoutedOnly(run.states[i].ctl) && cfg.kind != Eval
    ensures Backed(cfg, run, i + 1, run.states[i+1].ctl) && RoutedOnly(run.states[i+1].ctl)
  {
    assert StepAt(cfg, edits, run, i);
    var s, r, x := run.states[i], run.labels[i].reply, run.labels[i].input;
    BackedLater(cfg, run, i, s.ctl);
    ResumeRoutedOnly(cfg, s.ctl, r, x);
    if s.ctl.AtCreating? {
      CreatingBacked(cfg, run, i, s.ctl.creating);
    } else if s.ctl.AtRunning? {
      RunningBacked(cfg, run, i + 1, s.ctl.running, r, x);
    } else if !s.ctl.AtEnsure? {
      OthersBacked(cfg, run, i + 1, s.ctl, r, x);
    } else if s.ctl.ensure.SvcLookup? || s.ctl.ensure.SvcCreate? {
      ServiceBacked(cfg, run, i, s.ctl.ensure);
    } else {
      RouteBacked(cfg, run, i, s.ctl.ensure);
    }
  }

  lemma {:induction false} AlwaysBacked(cfg: Config, edits: bool, run: Run, i: nat)
    requires cfg.kind != Eval && IsRun(cfg, edits, run) && Initial(run.states[0]) && i < |run.states|
    ensures Backed(cfg, run, i, run.states[i].ctl) && RoutedOnly(run.states[i].ctl)
  {
    if i > 0 {
      AlwaysBacked(cfg, edits, run, i - 1);
      assert StepAt(cfg, edits, run, i - 1);
      match run.labels[i-1] {
        case Call(_, _) => CallBacked(cfg, edits, run, i - 1);
        case Env(_) => BackedLater(cfg, run, i - 1, run.states[i-1].ctl);
        case TimerFires(_) => BackedLater(cfg, run, i - 1, run.states[i-1].ctl);
        case _ =>
      }
    }
  }

  /* ------------------------------ What is stored ------------------------------ */

  /** The same task, stored before and after the step. */
  predicate Stays(cfg: Config, s: Store, s': Store) {
    cfg.name in s.tasks && cfg.name in s'.tasks && s.tasks[cfg.name].uid == s'.tasks[cfg.name].uid
  }

  lemma StatusWrite(cfg: Config, s: Store, op: Op, s': Store, r: Reply)
    requires Serves(s, op, s', r) && Stays(cfg, s, s') && s'.tasks[cfg.name].status != s.tasks[cfg.name].status
    ensures op.UpdateTaskStatus? && op.task.meta.version == s.tasks[cfg.name].meta.version
    ensures s'.tasks[cfg.name].status == op.task.status
  {
  }

  /** Only a call of the operator changes a status, and it had the stored task in hand. */
  lemma StatusStep(cfg: Config, edits: bool, s: State, l: Label, s': State)
    requires Inv(cfg, edits, s) && Step(cfg, edits, s, l, s') && Stays(cfg, s.store, s'.store)
    requires s'.store.tasks[cfg.name].status != s.store.tasks[cfg.name].status
    ensures l.Call? && Busy(s.ctl) && Request(cfg, s.ctl).UpdateTaskStatus?
    ensures Request(cfg, s.ctl).task.meta.version == s.store.tasks[cfg.name].meta.version
    ensures s'.store.tasks[cfg.name].status == Request(cfg, s.ctl).task.status
  {
    if l.Call? { StatusWrite(cfg, s.store, Request(cfg, s.ctl), s'.store, l.reply); }
  }

  /** A write that calls a task being created running is the creating handler's. */
  lemma RunningWrite(cfg: Config, edits: bool, s: State)
    requires cfg.kind != Eval && Inv(cfg, edits, s) && Busy(s.ctl) && Request(cfg, s.ctl).UpdateTaskStatus?
    requires cfg.name in s.store.tasks && s.store.tasks[cfg.name].status.phase == Creating
    requires Request(cfg, s.ctl).task.meta.version == s.store.tasks[cfg.name].meta.version
    requires Request(cfg, s.ctl).task.status.phase == Running
    ensures s.ctl.AtCreating? && s.ctl.creating.CommitRunning? && s.ctl.creating.t == s.store.tasks[cfg.name]
  {
  }

  /** In every run the step that takes a task from creating to running stores the URL that this reconcile
      was told for this very task, if the task is routed and is a DevTask or had no URL, and keeps the URL
      otherwise.  In this reconcile the task's Deployment was stored, and for a DevTask its Service. */
  lemma RunsExposed(cfg: Config, edits: bool, run: Run, i: nat)
    requires cfg.kind != Eval && IsRun(cfg, edits, run) && Initial(run.states[0]) && i < |run.labels|
    requires var s, s' := run.states[i].store, run.states[i+1].store;
             && Stays(cfg, s, s')
             && s.tasks[cfg.name].status.phase == Creating && s'.tasks[cfg.name].status.phase == Running
    ensures var t, url := run.states[i].store.tasks[cfg.name], run.states[i+1].store.tasks[cfg.name].status.url;
            && (if t.spec.routed && (cfg.kind == Dev || t.status.url == "") then Told(run, i, t, url)
                else url == t.status.url)
            && Stood(run, i, ChildKey(cfg, Deployments, t))
            && (cfg.kind == Dev ==> Stood(run, i, ChildKey(cfg, Services, t)))
  {
    Reachable(cfg, edits, run, i);
    assert StepAt(cfg, edits, run, i);
    StatusStep(cfg, edits, run.states[i], run.labels[i], run.states[i+1]);
    RunningWrite(cfg, edits, run.states[i]);
    AlwaysBacked(cfg, edits, run, i);
  }

  /** A write that changes a URL is the creating handler's or a DevTask's running handler's. */
  lemma UrlWrite(cfg: Config, edits: bool, s: State)
    requires cfg.kind != Eval && Inv(cfg, edits, s) && Busy(s.ctl) && Request(cfg, s.ctl).UpdateTaskStatus?
    requires cfg.name in s.store.tasks
    requires Request(cfg, s.ctl).task.meta.version == s.store.tasks[cfg.name].meta.version
    requires Request(cfg, s.ctl).task.status.url != s.store.tasks[cfg.name].status.url
    ensures (s.ctl.AtCreating? && s.ctl.creating.CommitRunning? && s.ctl.creating.t == s.store.tasks[cfg.name])
         || (s.ctl.AtRunning? && s.ctl.running.CommitUrl? && s.ctl.running.t == s.store.tasks[cfg.name])
  {
  }

  /** In every run a URL that changes, changes to one that this reconcile was told for this very task, which
      is routed; and it is an InferenceTask's first one, or a DevTask's. */
  lemma UrlsAreTold(cfg: Config, edits: bool, run: Run, i: nat)
    requires cfg.kind != Eval && IsRun(cfg, edits, run) && Initial(run.states[0]) && i < |run.labels|
    requires var s, s' := run.states[i].store, run.states[i+1].store;
             Stays(cfg, s, s') && s'.tasks[cfg.name].status.url != s.tasks[cfg.name].status.url
    ensures var t, url := run.states[i].store.tasks[cfg.name], run.states[i+1].store.tasks[cfg.name].status.url;
            t.spec.routed && (cfg.kind == Dev || t.status.url == "") && Told(run, i, t, url)
  {
    Reachable(cfg, edits, run, i);
    assert StepAt(cfg, edits, run, i);
    StatusStep(cfg, edits, run.states[i], run.labels[i], run.states[i+1]);
    UrlWrite(cfg, edits, run.states[i]);
    AlwaysBacked(cfg, edits, run, i);
  }

  /** The running handler's URL write, when it is answered, stores a URL this reconcile was told. */
  lemma RunningRefreshes(cfg: Config, edits: bool, run: Run, i: nat)
    requires cfg.kind != Eval && IsRun(cfg, edits, run) && Initial(run.states[0]) && i < |run.labels|
    requires run.states[i].ctl.AtRunning? && run.states[i].ctl.running.CommitUrl? && run.labels[i].Call?
    requires run.labels[i].reply.TaskIs?
    ensures cfg.kind == Dev && cfg.name in run.states[i].store.tasks && cfg.name in run.states[i+1].store.tasks
    ensures Told(run, i, run.states[i].store.tasks[cfg.name], run.states[i+1].store.tasks[cfg.name].status.url)
  {
    Reachable(cfg, edits, run, i);
    assert StepAt(cfg, edits, run, i);
    AlwaysBacked(cfg, edits, run, i);
  }

  /* ------------------------------ Where the URL leads ------------------------------ */

  lemma ToldIsLookedUp(details: Task -> Detail, run: Run, i: nat, t: Task, url: string)
    requires i <= |run.labels| < |run.states| && Informed(details, run) && Told(run, i, t, url)
    ensures LooksUp(details(t), url)
  {
    var j :| 0 <= j < i && RouteCall(run, j, t) && run.labels[j].input.url == url && SameReconcile(run, j, i);
    assert InformedAt(details, run.states[j].ctl, run.labels[j]);
  }

  /** When the URLs told are looked up, a stored URL that changes is one the lookup gave for the task as it
      was stored. */
  lemma UrlsAreLookedUp(cfg: Config, edits: bool, details: Task -> Detail, run: Run, i: nat)
    requires cfg.kind != Eval && IsRun(cfg, edits, run) && Initial(run.states[0]) && i < |run.labels|
    requires Informed(details, run)
    requires var s, s' := run.states[i].store, run.states[i+1].store;
             Stays(cfg, s, s') && s'.tasks[cfg.name].status.url != s.tasks[cfg.name].status.url
    ensures LooksUp(details(run.states[i].store.tasks[cfg.name]), run.states[i+1].store.tasks[cfg.name].status.url)
  {
    UrlsAreTold(cfg, edits, run, i);
    var t, url := run.states[i].store.tasks[cfg.name], run.states[i+1].store.tasks[cfg.name].status.url;
    ToldIsLookedUp(details, run, i, t, url);
  }

  /** So no routed task is ever called running without a URL: it has the one looked up, or an InferenceTask
      the one it had. */
  lemma RunsPublished(cfg: Config, edits: bool, details: Task -> Detail, run: Run, i: nat)
    requires cfg.kind != Eval && IsRun(cfg, edits, run) && Initial(run.states[0]) && i < |run.labels|
    requires Informed(details, run)
    requires var s, s' := run.states[i].store, run.states[i+1].store;
             && Stays(cfg, s, s')
             && s.tasks[cfg.name].status.phase == Creating && s'.tasks[cfg.name].status.phase == Running
    requires var t := run.states[i].store.tasks[cfg.name]; t.spec.routed && Agrees(t.spec, details(t))
    ensures var t, url := run.states[i].store.tasks[cfg.name], run.states[i+1].store.tasks[cfg.name].status.url;
            && url != ""
            && (if cfg.kind == Dev || t.status.url == "" then LooksUp(details(t), url) else url == t.status.url)
  {
    RunsExposed(cfg, edits, run, i);
    var t, url := run.states[i].store.tasks[cfg.name], run.states[i+1].store.tasks[cfg.name].status.url;
    if cfg.kind == Dev || t.status.url == "" {
      ToldIsLookedUp(details, run, i, t, url);
      RoutedIsPublished(t.spec, details(t), url);
    }
  }

  lemma EvalHasNoUrl(cfg: Config, edits: bool, run: Run, i: nat)
    requires cfg.kind == Eval && IsRun(cfg, edits, run) && Initial(run.states[0]) && i < |run.labels|
    requires Stays(cfg, run.states[i].store, run.states[i+1].store)
    ensures var s, s' := run.states[i].store, run.states[i+1].store;
            s'.tasks[cfg.name].status.url == s.tasks[cfg.name].status.url && s.tasks[cfg.name].status.phase != Creating
  {
    Reachable(cfg, edits, run, i);
    assert StepAt(cfg, edits, run, i);
    var s, s' := run.states[i], run.states[i+1];
    if s'.store.tasks[cfg.name].status != s.store.tasks[cfg.name].status {
      StatusStep(cfg, edits, s, run.labels[i], s');
      EvalKeepsUrl(cfg, edits, s);
    }
  }

  lemma EvalKeepsUrl(cfg: Config, edits: bool, s: State)
    requires cfg.kind == Eval && Inv(cfg, edits, s) && Busy(s.ctl) && Request(cfg, s.ctl).UpdateTaskStatus?
    requires cfg.name in s.store.tasks
    requires Request(cfg, s.ctl).task.meta.version == s.store.tasks[cfg.name].meta.version
    ensures Request(cfg, s.ctl).task.status.url == s.store.tasks[cfg.name].status.url
  {
  }
}
