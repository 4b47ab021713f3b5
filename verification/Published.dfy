/** The external URL an InferenceTask is stored with.  It is written on the way from creating to running;
    the running handler looks the URL up again and drops it. */
module Published {
  import opened Cluster
  import opened Machine
  import opened Safety
  import opened Runs

  /** A write that calls the task running keeps a URL that is there, and the running handler's is
      never written. */
  predicate KeepsUrl(c: Ctl) {
    match c
    case AtCreating(c) => c.CommitRunning? && c.t.status.url != "" ==> c.url == c.t.status.url
    case AtRunning(c) => !c.CommitUrl?
    case _ => true
  }

  lemma ResumeKeepsUrl(cfg: Config, c: Ctl, r: Reply, x: Input)
    requires cfg.kind == Inf && Busy(c)
    ensures KeepsUrl(Resume(cfg, c, r, x))
  {
    match c
    case AtRunning(c) =>
      if c.RunPods? && r.PodList? { ScanCommitsNothing(c.t, c.replicas, r.pods); }
      if c.NotePod? && r.TaskIs? { ScanCommitsNothing(r.task, c.replicas, c.rest); }
    case _ =>
  }

  lemma ScanCommitsNothing(t: Task, replicas: int, pods: seq<Pod>)
    ensures KeepsUrl(Scan(t, replicas, pods))
  {
  }

  lemma {:induction false} AlwaysKeepsUrl(cfg: Config, edits: bool, run: Run, i: nat)
    requires cfg.kind == Inf && IsRun(cfg, edits, run) && Initial(run.states[0]) && i < |run.states|
    ensures KeepsUrl(run.states[i].ctl)
  {
    if i > 0 {
      AlwaysKeepsUrl(cfg, edits, run, i - 1);
      assert StepAt(cfg, edits, run, i - 1);
      if run.labels[i-1].Call? {
        ResumeKeepsUrl(cfg, run.states[i-1].ctl, run.labels[i-1].reply, run.labels[i-1].input);
      }
    }
  }

  lemma CallKeepsUrl(cfg: Config, edits: bool, s: State, r: Reply, x: Input, s': State)
    requires cfg.kind == Inf && Inv(cfg, edits, s) && CallStep(cfg, s, r, x, s') && KeepsUrl(s.ctl)
    requires cfg.name in s.store.tasks && cfg.name in s'.store.tasks
    ensures var url := s.store.tasks[cfg.name].status.url; url != "" ==> s'.store.tasks[cfg.name].status.url == url
  {
    var op := Request(cfg, s.ctl);
    if op.UpdateTaskStatus? { StatusKeepsUrl(cfg, edits, s); }
    WriteKeepsUrl(s.store, op, s'.store, r, cfg.name);
  }

  lemma WriteKeepsUrl(s: Store, op: Op, s': Store, r: Reply, name: string)
    requires Serves(s, op, s', r) && name in s.tasks && name in s'.tasks
    ensures s'.tasks[name].status != s.tasks[name].status ==>
              (op.UpdateTaskStatus? && s'.tasks[name].status == op.task.status)
  {
  }

  lemma StatusKeepsUrl(cfg: Config, edits: bool, s: State)
    requires cfg.kind == Inf && Inv(cfg, edits, s) && Busy(s.ctl) && KeepsUrl(s.ctl)
    requires Request(cfg, s.ctl).UpdateTaskStatus? && cfg.name in s.store.tasks
    ensures var url := s.store.tasks[cfg.name].status.url; url != "" ==> Request(cfg, s.ctl).task.status.url == url
  {
  }

  /** Once an InferenceTask is stored with a URL it keeps just that URL, whatever becomes of the gateway
      and however often it is sent back to creating. */
  lemma {:induction false} UrlForGood(cfg: Config, edits: bool, run: Run, i: nat, j: nat)
    requires cfg.kind == Inf && IsRun(cfg, edits, run) && Initial(run.states[0]) && i <= j < |run.states|
    requires var s, s' := run.states[i].store, run.states[j].store;
             && cfg.name in s.tasks && s.tasks[cfg.name].status.url != ""
             && cfg.name in s'.tasks && s'.tasks[cfg.name].uid == s.tasks[cfg.name].uid
    ensures run.states[j].store.tasks[cfg.name].status.url == run.states[i].store.tasks[cfg.name].status.url
    decreases j - i
  {
    if i < j {
      Reachable(cfg, edits, run, i);
      History(cfg, edits, run, i, j - 1);
      History(cfg, edits, run, j - 1, j);
      UrlForGood(cfg, edits, run, i, j - 1);
      Reachable(cfg, edits, run, j - 1);
      AlwaysKeepsUrl(cfg, edits, run, j - 1);
      LastStepKeepsUrl(cfg, edits, run, j);
    }
  }

  lemma LastStepKeepsUrl(cfg: Config, edits: bool, run: Run, j: nat)
    requires cfg.kind == Inf && IsRun(cfg, edits, run) && 0 < j < |run.states|
    requires Inv(cfg, edits, run.states[j-1]) && KeepsUrl(run.states[j-1].ctl)
    requires cfg.name in run.states[j-1].store.tasks && cfg.name in run.states[j].store.tasks
    ensures var url := run.states[j-1].store.tasks[cfg.name].status.url;
            url != "" ==> run.states[j].store.tasks[cfg.name].status.url == url
  {
    assert StepAt(cfg, edits, run, j - 1);
    var s, l, s' := run.states[j-1], run.labels[j-1], run.states[j];
    if l.Call? { CallKeepsUrl(cfg, edits, s, l.reply, l.input, s'); }
  }
}
