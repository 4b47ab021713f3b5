/** A task is sent back from running to creating at most once for every Deployment somebody deleted
    and every change of its framework. */
module Rework {
  import opened Cluster
  import opened Machine
  import opened Safety
  import opened Runs

  predicate Missing(cfg: Config, s: Store)
    requires cfg.name in s.tasks
  {
    ChildKey(cfg, Deployments, s.tasks[cfg.name]) !in s.children
  }

  predicate Live(cfg: Config, s: Store) {
    cfg.name in s.tasks && !s.tasks[cfg.name].meta.deleting
  }

  /** A running task without its Deployment. */
  predicate Bereft(cfg: Config, s: Store) {
    Live(cfg, s) && s.tasks[cfg.name].status.phase == Running && Missing(cfg, s)
  }

  /** The reconcile under way is about to send the task back, or to call it running although its
      Deployment is gone again; and it has the task's current version, so the write will do. */
  predicate Heading(cfg: Config, s: Store, c: Ctl) {
    Live(cfg, s) &&
    match c
    case AtRunning(c) => (c.Recreate? || c.Regress?) && c.t.meta.version == s.tasks[cfg.name].meta.version
    case AtEnsure(c) => c.stage == Creating && c.t.meta.version == s.tasks[cfg.name].meta.version && Missing(cfg, s)
    case AtCreating(c) => c.CommitRunning? && c.t.meta.version == s.tasks[cfg.name].meta.version && Missing(cfg, s)
    case _ => false
  }

  function Debt(cfg: Config, s: Store, c: Ctl): nat {
    if Bereft(cfg, s) || Heading(cfg, s, c) then 1 else 0
  }

  /** The step sends the task back from running to creating. */
  predicate Back(cfg: Config, s: Store, s': Store) {
    && cfg.name in s.tasks && cfg.name in s'.tasks && s.tasks[cfg.name].uid == s'.tasks[cfg.name].uid
    && s.tasks[cfg.name].status.phase == Running && s'.tasks[cfg.name].status.phase == Creating
  }

  /** Somebody deletes a Deployment or changes the framework. */
  predicate Loss(cfg: Config, s: Store, l: Label) {
    l.Env? &&
    match l.event
    case LoseChild(key) => key.resource == Deployments
    case UserEdit(spec, _, _) => cfg.name in s.tasks && spec.framework != s.tasks[cfg.name].spec.framework
    case _ => false
  }

  function One(b: bool): nat { if b then 1 else 0 }

  predicate Paid(cfg: Config, s: Store, c: Ctl, s': Store, c': Ctl) {
    One(Back(cfg, s, s')) + Debt(cfg, s', c') <= Debt(cfg, s, c)
  }

  lemma EntryPaid(cfg: Config, edits: bool, a: Store, c: EntryPc, b: Store, r: Reply, x: Input)
    requires StoreOk(cfg, edits, a) && KnowsEntry(cfg, a, c) && Serves(a, RequestEntry(cfg, c), b, r)
    ensures Paid(cfg, a, AtEntry(c), b, ResumeEntry(cfg, c, r, x))
  {
  }

  lemma PendingPaid(cfg: Config, edits: bool, a: Store, c: PendingPc, b: Store, r: Reply, x: Input)
    requires StoreOk(cfg, edits, a) && KnowsPending(cfg, edits, a, c) && Serves(a, RequestPending(cfg, c), b, r)
    ensures Paid(cfg, a, AtPending(c), b, ResumePending(cfg, c, r, x))
  {
  }

  lemma CreatingPaid(cfg: Config, edits: bool, a: Store, c: CreatingPc, b: Store, r: Reply, x: Input)
    requires StoreOk(cfg, edits, a) && KnowsCreating(cfg, edits, a, c) && Serves(a, RequestCreating(cfg, c), b, r)
    ensures Paid(cfg, a, AtCreating(c), b, ResumeCreating(cfg, c, r, x))
  {
  }

  lemma EnsurePaid(cfg: Config, edits: bool, a: Store, c: EnsurePc, b: Store, r: Reply, x: Input)
    requires StoreOk(cfg, edits, a) && KnowsEnsure(cfg, edits, a, c) && Serves(a, RequestEnsure(cfg, c), b, r)
    ensures Paid(cfg, a, AtEnsure(c), b, ResumeEnsure(cfg, c, r, x))
  {
  }

  lemma ScanPaid(cfg: Config, s: Store, t: Task, replicas: int, pods: seq<Pod>)
    ensures !Heading(cfg, s, Scan(t, replicas, pods))
  {
  }

  lemma NotePaid(cfg: Config, edits: bool, a: Store, c: RunningPc, b: Store, r: Reply, x: Input)
    requires StoreOk(cfg, edits, a) && KnowsRunning(cfg, edits, a, c) && Serves(a, RequestRunning(cfg, c), b, r)
    requires c.RunPods? || c.NotePod?
    ensures Paid(cfg, a, AtRunning(c), b, ResumeRunning(cfg, c, r, x))
  {
    if c.RunPods? && r.PodList? { ScanPaid(cfg, b, c.t, c.replicas, r.pods); }
    if c.NotePod? && r.TaskIs? { ScanPaid(cfg, b, r.task, c.replicas, c.rest); }
  }

  lemma RunningPaid(cfg: Config, edits: bool, a: Store, c: RunningPc, b: Store, r: Reply, x: Input)
    requires StoreOk(cfg, edits, a) && KnowsRunning(cfg, edits, a, c) && Serves(a, RequestRunning(cfg, c), b, r)
    ensures Paid(cfg, a, AtRunning(c), b, ResumeRunning(cfg, c, r, x))
  {
    if c.RunPods? || c.NotePod? { NotePaid(cfg, edits, a, c, b, r, x); }
  }

  lemma EndPaid(cfg: Config, edits: bool, a: Store, c: EndPc, b: Store, r: Reply, x: Input)
    requires StoreOk(cfg, edits, a) && KnowsEnd(cfg, edits, a, c) && Serves(a, RequestEnd(cfg, c), b, r)
    ensures Paid(cfg, a, AtEnd(c), b, ResumeEnd(cfg, c, r, x))
  {
  }

  lemma ChildCallsSpareTasks(s: Store, op: Op, s': Store, r: Reply)
    requires op.GetChild? || op.CreateChild? || op.UpdateChild? || op.DeleteChild? || op.ListRoutes?
    requires Serves(s, op, s', r)
    ensures s'.tasks == s.tasks
  {
  }

  lemma DropPaid(cfg: Config, edits: bool, a: Store, c: DropPc, b: Store, r: Reply)
    requires KnowsDrop(cfg, edits, a, c) && Serves(a, RequestDrop(cfg, c), b, r)
    ensures Paid(cfg, a, AtDrop(c), b, ResumeDrop(cfg, c, r))
  {
    ChildCallsSpareTasks(a, RequestDrop(cfg, c), b, r);
  }

  lemma UnroutePaid(cfg: Config, edits: bool, a: Store, c: UnroutePc, b: Store, r: Reply)
    requires KnowsUnroute(cfg, edits, a, c) && Serves(a, RequestUnroute(cfg, c), b, r)
    ensures Paid(cfg, a, AtUnroute(c), b, ResumeUnroute(cfg, c, r))
  {
    ChildCallsSpareTasks(a, RequestUnroute(cfg, c), b, r);
  }

  lemma ReleasePaid(cfg: Config, edits: bool, a: Store, c: ReleasePc, b: Store, r: Reply)
    requires cfg.kind != Eval
    requires StoreOk(cfg, edits, a) && KnowsRelease(cfg, edits, a, c) && Serves(a, RequestRelease(cfg, c), b, r)
    ensures Paid(cfg, a, AtRelease(c), b, ResumeRelease(cfg, c, r))
  {
  }

  lemma CallPaid(cfg: Config, edits: bool, s: State, r: Reply, x: Input, s': State)
    requires cfg.kind != Eval && Inv(cfg, edits, s) && Step(cfg, edits, s, Call(r, x), s')
    ensures Paid(cfg, s.store, s.ctl, s'.store, s'.ctl)
  {
    match s.ctl
    case AtEntry(c) => EntryPaid(cfg, edits, s.store, c, s'.store, r, x);
    case AtPending(c) => PendingPaid(cfg, edits, s.store, c, s'.store, r, x);
    case AtCreating(c) => CreatingPaid(cfg, edits, s.store, c, s'.store, r, x);
    case AtEnsure(c) => EnsurePaid(cfg, edits, s.store, c, s'.store, r, x);
    case AtRunning(c) => RunningPaid(cfg, edits, s.store, c, s'.store, r, x);
    case AtEnd(c) => EndPaid(cfg, edits, s.store, c, s'.store, r, x);
    case AtDrop(c) => DropPaid(cfg, edits, s.store, c, s'.store, r);
    case AtUnroute(c) => UnroutePaid(cfg, edits, s.store, c, s'.store, r);
    case AtRelease(c) => ReleasePaid(cfg, edits, s.store, c, s'.store, r);
    case AtEval(_) =>
  }

  predicate EventPaid(cfg: Config, s: Store, c: Ctl, e: Event, s': Store) {
    One(Back(cfg, s, s')) + Debt(cfg, s', c) <= Debt(cfg, s, c) + One(Loss(cfg, s, Env(e)))
  }

  predicate OfUser(e: Event) { e.UserCreate? || e.UserEdit? || e.UserDelete? }

  lemma UserPaid(cfg: Config, edits: bool, s: Store, c: Ctl, e: Event)
    requires cfg.kind != Eval && StoreOk(cfg, edits, s) && Knows(cfg, edits, s, c)
    requires Enabled(cfg, edits, s, e) && OfUser(e)
    ensures EventPaid(cfg, s, c, e, Happen(cfg, s, e))
  {
  }

  lemma LossPaid(cfg: Config, edits: bool, s: Store, c: Ctl, e: Event)
    requires cfg.kind != Eval && StoreOk(cfg, edits, s) && Knows(cfg, edits, s, c)
    requires Enabled(cfg, edits, s, e) && (e.LoseChild? || e.JobExpires?)
    ensures EventPaid(cfg, s, c, e, Happen(cfg, s, e))
  {
  }

  lemma QuietEventPaid(cfg: Config, edits: bool, s: Store, c: Ctl, e: Event)
    requires Enabled(cfg, edits, s, e) && !OfUser(e) && !e.LoseChild? && !e.JobExpires?
    ensures EventPaid(cfg, s, c, e, Happen(cfg, s, e))
  {
    var s' := Happen(cfg, s, e);
    assert s'.tasks == s.tasks && s'.children.Keys == s.children.Keys;
    SameDebt(cfg, s, c, s');
  }

  /** What is owed depends on the task and on which children there are. */
  lemma SameDebt(cfg: Config, s: Store, c: Ctl, s': Store)
    requires s'.tasks == s.tasks && s'.children.Keys == s.children.Keys
    ensures Debt(cfg, s', c) == Debt(cfg, s, c) && !Back(cfg, s, s')
  {
  }

  lemma EnvPaid(cfg: Config, edits: bool, s: State, e: Event, s': State)
    requires cfg.kind != Eval && Inv(cfg, edits, s) && Step(cfg, edits, s, Env(e), s')
    ensures EventPaid(cfg, s.store, s.ctl, e, s'.store)
  {
    if OfUser(e) { UserPaid(cfg, edits, s.store, s.ctl, e); }
    else if e.LoseChild? || e.JobExpires? { LossPaid(cfg, edits, s.store, s.ctl, e); }
    else { QuietEventPaid(cfg, edits, s.store, s.ctl, e); }
  }

  lemma StepPaid(cfg: Config, edits: bool, s: State, l: Label, s': State)
    requires cfg.kind != Eval && Inv(cfg, edits, s) && Step(cfg, edits, s, l, s')
    ensures One(Back(cfg, s.store, s'.store)) + Debt(cfg, s'.store, s'.ctl)
         <= Debt(cfg, s.store, s.ctl) + One(Loss(cfg, s.store, l))
  {
    match l
    case Call(r, x) => CallPaid(cfg, edits, s, r, x, s');
    case Env(e) => EnvPaid(cfg, edits, s, e, s');
    case _ =>
  }

  function Backs(cfg: Config, run: Run, i: nat): nat
    requires i < |run.states|
  {
    if i == 0 then 0 else Backs(cfg, run, i - 1) + One(Back(cfg, run.states[i-1].store, run.states[i].store))
  }

  function Losses(cfg: Config, run: Run, i: nat): nat
    requires i < |run.states| && i <= |run.labels|
  {
    if i == 0 then 0 else Losses(cfg, run, i - 1) + One(Loss(cfg, run.states[i-1].store, run.labels[i-1]))
  }

  lemma {:induction false} DebtsCovered(cfg: Config, edits: bool, run: Run, i: nat)
    requires cfg.kind != Eval && IsRun(cfg, edits, run) && Initial(run.states[0]) && i < |run.states|
    ensures Backs(cfg, run, i) + Debt(cfg, run.states[i].store, run.states[i].ctl) <= Losses(cfg, run, i)
  {
    if i > 0 {
      DebtsCovered(cfg, edits, run, i - 1);
      Reachable(cfg, edits, run, i - 1);
      assert StepAt(cfg, edits, run, i - 1);
      StepPaid(cfg, edits, run.states[i-1], run.labels[i-1], run.states[i]);
    }
  }

  /** Bounded rework. */
  lemma BoundedRework(cfg: Config, edits: bool, run: Run)
    requires cfg.kind != Eval && IsRun(cfg, edits, run) && Initial(run.states[0])
    ensures Backs(cfg, run, |run.states| - 1) <= Losses(cfg, run, |run.states| - 1)
  {
    DebtsCovered(cfg, edits, run, |run.states| - 1);
  }
}
