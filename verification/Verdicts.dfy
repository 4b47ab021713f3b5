/** No running task is ended without a cause: in every run, a running task fails or completes only on
    what some pod, its Deployment or its Job was seen to be. */
module Verdicts {
  import opened Cluster
  import opened Machine
  import opened Safety
  import opened Runs
  import opened Pods
  import Timers

  /** The pod is one that a reconcile with task copy `t` lists. */
  predicate PodAt(cfg: Config, s: State, t: Task, q: Pod) {
    q in s.store.pods && Selects(PodSelector(cfg, t), q)
  }

  predicate ScaleAt(s: State, replicas: int) {
    exists key :: key in s.store.children && key.resource == Deployments && s.store.children[key].replicas == replicas
  }

  predicate JobAt(s: State, job: JobStatus) {
    exists key :: key in s.store.children && key.resource == Jobs && s.store.children[key].job == job
  }

  /** At some state up to `i` the pod was there, and selected for the task as it was stored then or
      before. */
  ghost predicate PodSeen(cfg: Config, run: Run, i: nat, q: Pod)
    requires i < |run.states|
  {
    exists j, t :: 0 <= j <= i && PodAt(cfg, run.states[j], t, q) && Timers.Seen(cfg, run, j, t)
  }

  ghost predicate ScaleSeen(run: Run, i: nat, replicas: int)
    requires i < |run.states|
  {
    exists j :: 0 <= j <= i && ScaleAt(run.states[j], replicas)
  }

  ghost predicate JobSeen(run: Run, i: nat, job: JobStatus)
    requires i < |run.states|
  {
    exists j :: 0 <= j <= i && JobAt(run.states[j], job)
  }

  /** A pod with just this verdict was seen, or the Deployment was seen scaled to nothing. */
  ghost predicate Warranted(cfg: Config, run: Run, i: nat, phase: Phase, message: string)
    requires i < |run.states|
  {
    || (exists q :: PodSeen(cfg, run, i, q) && Decides(q) == Some(Verdict(phase, message)))
    || (phase == Completed && ScaleSeen(run, i, 0))
  }

  /** The phase a Job stands for: a Job with active pods stands for none, success goes before failure. */
  predicate StandsFor(job: JobStatus, phase: Phase) {
    && job.active == 0
    && (phase == Completed <==> job.succeeded > 0)
    && (phase == Failed <==> job.succeeded == 0 && job.failed > 0)
  }

  ghost predicate JobWarrants(run: Run, i: nat, phase: Phase)
    requires i < |run.states|
  {
    exists job :: JobSeen(run, i, job) && StandsFor(job, phase)
  }

  /** What the reconcile is about to conclude has its cause. */
  ghost predicate Founded(cfg: Config, run: Run, i: nat, c: Ctl)
    requires i < |run.states|
  {
    match c
    case AtRunning(c) =>
      && (c.RunPods? || c.NotePod? ==> ScaleSeen(run, i, c.replicas))
      && (c.NotePod? ==> forall q :: q in c.rest ==> PodSeen(cfg, run, i, q))
    case AtEnd(c) => c.Conclude? && c.t.status.phase == Running ==> Warranted(cfg, run, i, c.phase, c.message)
    case AtEval(c) => c.Report? && IsTerminal(c.phase) ==> JobWarrants(run, i, c.phase)
    case _ => true
  }

  lemma FoundedLater(cfg: Config, run: Run, i: nat, c: Ctl)
    requires 0 < i < |run.states| && Founded(cfg, run, i - 1, c)
    ensures Founded(cfg, run, i, c)
  {
    forall q | PodSeen(cfg, run, i - 1, q) ensures PodSeen(cfg, run, i, q) {
      var j, t :| 0 <= j <= i - 1 && PodAt(cfg, run.states[j], t, q) && Timers.Seen(cfg, run, j, t);
      assert PodAt(cfg, run.states[j], t, q);
    }
    forall n | ScaleSeen(run, i - 1, n) ensures ScaleSeen(run, i, n) {
      var j :| 0 <= j <= i - 1 && ScaleAt(run.states[j], n);
      assert ScaleAt(run.states[j], n);
    }
    forall job | JobSeen(run, i - 1, job) ensures JobSeen(run, i, job) {
      var j :| 0 <= j <= i - 1 && JobAt(run.states[j], job);
      assert JobAt(run.states[j], job);
    }
  }

  lemma {:induction false} ScanFounded(cfg: Config, run: Run, i: nat, t: Task, replicas: int, pods: seq<Pod>)
    requires i < |run.states| && ScaleSeen(run, i, replicas) && forall q :: q in pods ==> PodSeen(cfg, run, i, q)
    ensures Founded(cfg, run, i, Scan(t, replicas, pods))
    decreases |pods|
  {
    if pods != [] {
      if Decides(pods[0]).Some? {
        assert PodSeen(cfg, run, i, pods[0]);
      } else {
        ScanFounded(cfg, run, i, t, replicas, pods[1..]);
      }
    }
  }

  lemma RunningFounded(cfg: Config, run: Run, i: nat, c: RunningPc, r: Reply, x: Input, s': Store)
    requires i < |run.states| && run.states[i].ctl == AtRunning(c) && Founded(cfg, run, i, AtRunning(c))
    requires Serves(run.states[i].store, RequestRunning(cfg, c), s', r) && Timers.Seen(cfg, run, i, c.t)
    ensures Founded(cfg, run, i, ResumeRunning(cfg, c, r, x))
  {
    var s := run.states[i];
    match c
    case RunLookup(t) =>
      if r.ChildIs? {
        assert ChildKey(cfg, Deployments, t) in s.store.children;
        assert ScaleAt(s, r.child.replicas);
      }
    case RunPods(t, replicas) =>
      if r.PodList? {
        forall q | q in r.pods ensures PodSeen(cfg, run, i, q) { assert PodAt(cfg, run.states[i], t, q); }
        ScanFounded(cfg, run, i, t, replicas, r.pods);
      }
    case NotePod(_, _, replicas, rest) => if r.TaskIs? { ScanFounded(cfg, run, i, r.task, replicas, rest); }
    case _ =>
  }

  lemma EvalFounded(cfg: Config, run: Run, i: nat, c: EvalPc, r: Reply, x: Input, s': Store)
    requires i < |run.states| && run.states[i].ctl == AtEval(c)
    requires Serves(run.states[i].store, RequestEval(cfg, c), s', r)
    ensures Founded(cfg, run, i, ResumeEval(cfg, c, r, x))
  {
    var s := run.states[i];
    if c.CheckJob? && r.ChildIs? {
      assert ChildKey(cfg, Jobs, c.t) in s.store.children;
      assert JobAt(s, r.child.job);
      assert JobSeen(run, i, r.child.job);
      if r.child.job.active == 0 && r.child.job.succeeded > 0 { assert StandsFor(r.child.job, Completed); }
      else if r.child.job.active == 0 && r.child.job.failed > 0 { assert StandsFor(r.child.job, Failed); }
    }
  }

  /** The other handlers conclude nothing, but that creating may fail. */
  lemma OthersConcludeNothing(cfg: Config, run: Run, i: nat, r: Reply, x: Input)
    requires i < |run.states| && Busy(run.states[i].ctl)
    requires !run.states[i].ctl.AtRunning? && !run.states[i].ctl.AtEval?
    requires run.states[i].ctl.AtCreating? ==> run.states[i].ctl.creating.t.status.phase == Creating
    ensures Founded(cfg, run, i, Resume(cfg, run.states[i].ctl, r, x))
  {
  }

  lemma {:induction false} AlwaysFounded(cfg: Config, edits: bool, run: Run, i: nat)
    requires IsRun(cfg, edits, run) && Initial(run.states[0]) && i < |run.states|
    ensures Founded(cfg, run, i, run.states[i].ctl)
  {
    if i > 0 {
      AlwaysFounded(cfg, edits, run, i - 1);
      StepFounded(cfg, edits, run, i - 1);
      FoundedLater(cfg, run, i, run.states[i].ctl);
    }
  }

  lemma StepFounded(cfg: Config, edits: bool, run: Run, i: nat)
    requires IsRun(cfg, edits, run) && Initial(run.states[0]) && i + 1 < |run.states|
    requires Founded(cfg, run, i, run.states[i].ctl)
    ensures Founded(cfg, run, i, run.states[i+1].ctl)
  {
    assert StepAt(cfg, edits, run, i);
    var s, s' := run.states[i], run.states[i+1];
    if run.labels[i].Call? {
      var Call(r, x) := run.labels[i];
      match s.ctl {
        case AtRunning(c) =>
          Timers.TimersSourced(cfg, edits, run, i);
          RunningFounded(cfg, run, i, c, r, x, s'.store);
        case AtEval(c) => EvalFounded(cfg, run, i, c, r, x, s'.store);
        case _ =>
          Reachable(cfg, edits, run, i);
          OthersConcludeNothing(cfg, run, i, r, x);
      }
    }
  }

  /** The step ends a running task. */
  predicate Ends(cfg: Config, s: Store, s': Store) {
    && cfg.name in s.tasks && cfg.name in s'.tasks && s.tasks[cfg.name].uid == s'.tasks[cfg.name].uid
    && s.tasks[cfg.name].status.phase == Running && IsTerminal(s'.tasks[cfg.name].status.phase)
  }

  /** The call that concludes, or reports, writes what it holds. */
  lemma EndingStep(cfg: Config, edits: bool, s: State, l: Label, s': State)
    requires Inv(cfg, edits, s) && Step(cfg, edits, s, l, s') && Ends(cfg, s.store, s'.store)
    ensures l.Call?
    ensures var st := s'.store.tasks[cfg.name].status;
            if cfg.kind == Eval then s.ctl.AtEval? && s.ctl.eval.Report? && s.ctl.eval.phase == st.phase
            else s.ctl.AtEnd? && s.ctl.ending.Conclude? && s.ctl.ending.t.status.phase == Running
                 && s.ctl.ending.phase == st.phase && s.ctl.ending.message == st.message
  {
    if l.Call? {
      var op := Request(cfg, s.ctl);
      if !op.UpdateTaskStatus? {
        OnlyStatusCalls(cfg, s.store, op, s'.store, l.reply);
      } else {
        StatusCall(s.store, op, s'.store, l.reply);
        EndingWrite(cfg, edits, s);
      }
    }
  }

  /** The status writes of a running task that hold a terminal phase. */
  lemma EndingWrite(cfg: Config, edits: bool, s: State)
    requires Inv(cfg, edits, s) && Busy(s.ctl) && Request(cfg, s.ctl).UpdateTaskStatus?
    requires cfg.name in s.store.tasks && s.store.tasks[cfg.name].status.phase == Running
    requires IsTerminal(Request(cfg, s.ctl).task.status.phase)
    ensures var st := Request(cfg, s.ctl).task.status;
            if cfg.kind == Eval then s.ctl.AtEval? && s.ctl.eval.Report? && s.ctl.eval.phase == st.phase
            else s.ctl.AtEnd? && s.ctl.ending.Conclude? && s.ctl.ending.t.status.phase == Running
                 && s.ctl.ending.phase == st.phase && s.ctl.ending.message == st.message
  {
  }

  lemma OnlyStatusCalls(cfg: Config, s: Store, op: Op, s': Store, r: Reply)
    requires Serves(s, op, s', r) && !op.UpdateTaskStatus?
    ensures cfg.name in s.tasks && cfg.name in s'.tasks ==> s'.tasks[cfg.name].status == s.tasks[cfg.name].status
  {
  }

  lemma StatusCall(s: Store, op: Op, s': Store, r: Reply)
    requires Serves(s, op, s', r) && op.UpdateTaskStatus?
    ensures s'.tasks == s.tasks
         || (op.name in s.tasks && op.name in s'.tasks && s'.tasks[op.name].status == op.task.status)
  {
  }

  /** A running DevTask or InferenceTask fails or completes, with the message it gets, only when a pod
      with exactly that verdict was seen before, among those the task lists, or completes when its
      Deployment was seen scaled to nothing. */
  lemma EndsForCause(cfg: Config, edits: bool, run: Run, i: nat)
    requires IsRun(cfg, edits, run) && Initial(run.states[0]) && i + 1 < |run.states| && cfg.kind != Eval
    requires Ends(cfg, run.states[i].store, run.states[i+1].store)
    ensures var st := run.states[i+1].store.tasks[cfg.name].status; Warranted(cfg, run, i, st.phase, st.message)
  {
    Reachable(cfg, edits, run, i);
    assert StepAt(cfg, edits, run, i);
    EndingStep(cfg, edits, run.states[i], run.labels[i], run.states[i+1]);
    AlwaysFounded(cfg, edits, run, i);
  }

  /** No development pod of a framework the task ever has belongs to another task. */
  ghost predicate NoTrespass(cfg: Config, run: Run) {
    forall j, k, q ::
      0 <= j < |run.states| && 0 <= k < |run.states| && q in run.states[j].store.pods
      && OfTask(cfg, run.states[k].store, q) ==>
        q.owner == cfg.name
  }

  predicate OfTask(cfg: Config, s: Store, q: Pod) {
    cfg.name in s.tasks && q.taskType == "development" && q.framework == s.tasks[cfg.name].spec.framework
  }

  /** So an InferenceTask never fails on account of another one's pod, and a DevTask does not as long as no
      other's pod is of its framework. */
  lemma FailsByOwnPod(cfg: Config, edits: bool, run: Run, i: nat) returns (q: Pod)
    requires IsRun(cfg, edits, run) && Initial(run.states[0]) && i + 1 < |run.states|
    requires cfg.kind == Inf || (cfg.kind == Dev && NoTrespass(cfg, run))
    requires Ends(cfg, run.states[i].store, run.states[i+1].store)
    requires run.states[i+1].store.tasks[cfg.name].status.phase == Failed
    ensures q.owner == cfg.name && PodSeen(cfg, run, i, q)
    ensures FirstBad(q.waiting).Some? || q.phase == PodFailed || q.phase == PodUnknown
  {
    EndsForCause(cfg, edits, run, i);
    var st := run.states[i+1].store.tasks[cfg.name].status;
    q :| PodSeen(cfg, run, i, q) && Decides(q) == Some(Verdict(st.phase, st.message));
    SeenIsOwn(cfg, run, i, q);
  }

  lemma SeenIsOwn(cfg: Config, run: Run, i: nat, q: Pod)
    requires i < |run.states| && PodSeen(cfg, run, i, q)
    requires cfg.kind == Inf || (cfg.kind == Dev && NoTrespass(cfg, run))
    ensures q.owner == cfg.name
  {
    var j, t :| 0 <= j <= i && PodAt(cfg, run.states[j], t, q) && Timers.Seen(cfg, run, j, t);
    var k :| 0 <= k <= j && Timers.StoredAt(cfg, run.states[k], t);
    if cfg.kind == Dev { assert OfTask(cfg, run.states[k].store, q); }
  }

  /** An EvalTask completes or fails only when its Job was seen without active pods and with a success,
      or with failures only. */
  lemma JobEndsForCause(cfg: Config, edits: bool, run: Run, i: nat)
    requires IsRun(cfg, edits, run) && Initial(run.states[0]) && i + 1 < |run.states| && cfg.kind == Eval
    requires Ends(cfg, run.states[i].store, run.states[i+1].store)
    ensures JobWarrants(run, i, run.states[i+1].store.tasks[cfg.name].status.phase)
  {
    Reachable(cfg, edits, run, i);
    assert StepAt(cfg, edits, run, i);
    EndingStep(cfg, edits, run.states[i], run.labels[i], run.states[i+1]);
    AlwaysFounded(cfg, edits, run, i);
  }
}
