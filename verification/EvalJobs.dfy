/** How often an EvalTask's Job is created.

    A finished Job is removed 300 seconds later, and a running-phase reconcile that finds no Job
    creates one.  So a second Job is avoided by looking in time. */
module EvalJobs {
  import opened Cluster
  import opened Machine
  import opened Safety
  import opened Runs
  import opened Rework
  import opened Recovery
  import Timers

  /** The step stores a child that was not there. */
  predicate Creates(s: Store, s': Store) { !(s'.children.Keys <= s.children.Keys) }

  function Created(run: Run, i: nat): nat
    requires i < |run.states|
  {
    if i == 0 then 0 else Created(run, i - 1) + One(Creates(run.states[i-1].store, run.states[i].store))
  }

  predicate IsRunning(cfg: Config, s: Store) {
    cfg.name in s.tasks && s.tasks[cfg.name].status.phase == Running
  }

  /** A read answered with the Job. */
  predicate Looks(s: State, l: Label) {
    l.Call? && s.ctl.AtEval? && s.ctl.eval.CheckJob? && l.reply.ChildIs?
  }

  /** The Job comes into being, or the wait for it begins. */
  predicate Opens(cfg: Config, s: State, s': State) {
    Creates(s.store, s'.store) || (!IsRunning(cfg, s.store) && IsRunning(cfg, s'.store))
  }

  /** When the Job was last known not to have finished before. */
  function LastSeen(cfg: Config, run: Run, i: nat): int
    requires i < |run.states| && i <= |run.labels|
  {
    if i == 0 then run.states[0].store.now
    else if Opens(cfg, run.states[i-1], run.states[i])
            || LooksUnfinished(run.states[i-1], run.labels[i-1])
    then run.states[i].store.now
    else LastSeen(cfg, run, i - 1)
  }

  /** The Job matters: its task runs, and is not on its way out unless a reconcile still handles it
      as running. */
  predicate Watched(cfg: Config, s: State) {
    IsRunning(cfg, s.store) && (!s.store.tasks[cfg.name].meta.deleting || s.ctl.AtEval?)
  }

  /** The reconcile is about to write a terminal phase. */
  predicate AtVerdict(c: Ctl) {
    c.AtEval? && c.eval.Report? && IsTerminal(c.eval.phase)
  }

  /** The Job was created, matters, and is not about to be judged. */
  predicate Open(cfg: Config, run: Run, i: nat)
    requires i < |run.states|
  {
    Created(run, i) > 0 && Watched(cfg, run.states[i]) && !AtVerdict(run.states[i].ctl)
  }

  /** While the Job matters it was seen unfinished less than its TTL ago. */
  ghost predicate Prompt(cfg: Config, run: Run)
    requires |run.states| == |run.labels| + 1
  {
    forall i :: 0 <= i < |run.states| && Open(cfg, run, i) ==> run.states[i].store.now < LastSeen(cfg, run, i) + JOB_TTL
  }

  predicate LosesJob(l: Label) {
    l.Env? && l.event.LoseChild? && l.event.key.resource == Jobs
  }

  /** The frameworks stay, the name is not reused and nobody else deletes the Job. */
  ghost predicate Orderly(cfg: Config, run: Run) {
    && cfg.kind == Eval && IsRun(cfg, false, run) && Initial(run.states[0])
    && Timers.NoReuse(cfg, run)
    && (forall i :: 0 <= i < |run.labels| ==> !LosesJob(run.labels[i]))
  }

  lemma OnlyCreateGrows(s: Store, op: Op, s': Store, r: Reply)
    requires Serves(s, op, s', r) && !op.CreateChild?
    ensures !Creates(s, s')
  {
  }

  /** Only the create step of a running-phase reconcile creates the Job, and only where none is. */
  lemma CreationStep(cfg: Config, s: State, l: Label, s': State)
    requires cfg.kind == Eval && Inv(cfg, false, s) && Step(cfg, false, s, l, s') && Creates(s.store, s'.store)
    ensures l.Call? && s.ctl.AtEval? && s.ctl.eval.JobCreate? && Watched(cfg, s)
    ensures IsRunning(cfg, s'.store)
    ensures s'.store.children.Keys != {}
    ensures s.store.children == map[] ==>
              forall key :: key in s'.store.children ==> s'.store.children[key].job.finished == None
  {
    if l.Call? {
      if !Request(cfg, s.ctl).CreateChild? { OnlyCreateGrows(s.store, Request(cfg, s.ctl), s'.store, l.reply); }
    }
  }

  /** What is known of a Job last seen unfinished at `seen`: it is still there, or it may have expired. */
  predicate InSight(s: Store, seen: int) {
    || s.now >= seen + JOB_TTL
    || (s.children.Keys != {}
        && forall key :: key in s.children && s.children[key].job.finished.Some? ==>
             s.children[key].job.finished.value >= seen)
  }

  lemma EnvKeepsSight(cfg: Config, s: Store, e: Event, seen: int)
    requires cfg.kind == Eval && StoreOk(cfg, false, s) && Enabled(cfg, false, s, e) && !LosesJob(Env(e))
    requires InSight(s, seen) && seen <= s.now
    ensures InSight(Happen(cfg, s, e), seen)
  {
    var s' := Happen(cfg, s, e);
    if s.now < seen + JOB_TTL {
      var key :| key in s.children;
      assert forall k :: k in s.children ==> k == key by {
        assert Guarded(cfg, false, key);
        forall k | k in s.children ensures k == key { assert Guarded(cfg, false, k); }
      }
      if !e.JobExpires? { assert key in s'.children; }
    }
  }

  /** A reconcile that may still be watched deletes nothing. */
  lemma WatchedSpares(cfg: Config, s: State)
    requires cfg.kind == Eval && Inv(cfg, false, s) && Busy(s.ctl) && Watched(cfg, s)
    ensures !Request(cfg, s.ctl).DeleteChild? && !Request(cfg, s.ctl).UpdateChild?
  {
  }

  lemma SparedChildren(s: Store, op: Op, s': Store, r: Reply)
    requires Serves(s, op, s', r) && !op.DeleteChild? && !op.UpdateChild? && !Creates(s, s')
    ensures s'.children == s.children && s'.now == s.now
  {
  }

  lemma CallKeepsSight(cfg: Config, s: State, r: Reply, x: Input, s': State, seen: int)
    requires cfg.kind == Eval && Inv(cfg, false, s) && CallStep(cfg, s, r, x, s')
    requires Watched(cfg, s) && !Creates(s.store, s'.store) && InSight(s.store, seen)
    ensures InSight(s'.store, seen)
  {
    WatchedSpares(cfg, s);
    SparedChildren(s.store, Request(cfg, s.ctl), s'.store, r);
  }

  lemma SightKept(cfg: Config, s: State, l: Label, s': State, seen: int)
    requires cfg.kind == Eval && Inv(cfg, false, s) && Step(cfg, false, s, l, s') && !LosesJob(l)
    requires Watched(cfg, s) && !Creates(s.store, s'.store) && InSight(s.store, seen) && seen <= s.store.now
    ensures InSight(s'.store, seen)
  {
    match l
    case Call(r, x) => CallKeepsSight(cfg, s, r, x, s', seen);
    case Env(e) => EnvKeepsSight(cfg, s.store, e, seen);
    case _ =>
  }

  /** A look that finds the Job unfinished renews its sight. */
  lemma LookRenews(cfg: Config, s: State, l: Label, s': State)
    requires cfg.kind == Eval && Inv(cfg, false, s) && Step(cfg, false, s, l, s')
    requires Looks(s, l) && l.reply.child.job.finished == None
    ensures InSight(s'.store, s'.store.now) && !Creates(s.store, s'.store)
  {
    var key := ChildKey(cfg, Jobs, s.ctl.eval.t);
    forall k | k in s.store.children ensures k == key { assert Guarded(cfg, false, k); }
  }

  lemma {:induction false} SeenBefore(cfg: Config, run: Run, i: nat)
    requires IsRun(cfg, false, run) && Initial(run.states[0]) && i < |run.states|
    ensures LastSeen(cfg, run, i) <= run.states[i].store.now
  {
    if i > 0 {
      SeenBefore(cfg, run, i - 1);
      History(cfg, false, run, i - 1, i);
    }
  }

  predicate Started(cfg: Config, s: Store) {
    cfg.name in s.tasks && !IsPending(s.tasks[cfg.name].status.phase)
  }

  /** Once the task has left pending it is never pending again. */
  lemma StartedStays(cfg: Config, run: Run, j: nat, i: nat)
    requires Orderly(cfg, run) && j <= i < |run.states| && Started(cfg, run.states[j].store)
    ensures cfg.name in run.states[i].store.tasks ==> Started(cfg, run.states[i].store)
  {
    History(cfg, false, run, j, i);
    Reachable(cfg, false, run, j);
    assert Timers.SameUid(cfg, run.states[j].store, run.states[i].store);
  }

  /** The invariant of an orderly, prompt run. */
  ghost predicate OneJob(cfg: Config, run: Run, i: nat)
    requires i < |run.states| && |run.states| == |run.labels| + 1
  {
    var s := run.states[i];
    && Created(run, i) <= 1
    && (Created(run, i) == 0 ==> s.store.children == map[])
    && (s.ctl.AtEval? && s.ctl.eval.JobCreate? ==> Created(run, i) == 0)
    && (Created(run, i) == 1 && Watched(cfg, s) ==> InSight(s.store, LastSeen(cfg, run, i)))
    && (Created(run, i) == 1 ==> exists j :: 0 <= j <= i && Started(cfg, run.states[j].store))
  }

  /** A task whose Job exists already was there a step before, and had left pending. */
  lemma StartedBefore(cfg: Config, run: Run, j: nat, i: nat)
    requires Orderly(cfg, run) && j < i < |run.states| && Started(cfg, run.states[j].store)
    requires cfg.name in run.states[i].store.tasks
    ensures Started(cfg, run.states[i-1].store)
    ensures run.states[i-1].store.tasks[cfg.name].uid == run.states[i].store.tasks[cfg.name].uid
  {
    StartedStays(cfg, run, j, i - 1);
    History(cfg, false, run, j, i - 1);
    History(cfg, false, run, i - 1, i);
    Reachable(cfg, false, run, j);
    assert Timers.SameUid(cfg, run.states[j].store, run.states[i].store);
  }

  lemma WatchedBefore(cfg: Config, run: Run, i: nat)
    requires Orderly(cfg, run) && 0 < i < |run.states| && OneJob(cfg, run, i - 1) && Created(run, i - 1) == 1
    requires Watched(cfg, run.states[i])
    ensures Watched(cfg, run.states[i-1])
  {
    var j :| 0 <= j <= i - 1 && Started(cfg, run.states[j].store);
    StartedBefore(cfg, run, j, i);
    StepsInto(cfg, run, i);
    IntoView(cfg, run.states[i-1], run.labels[i-1], run.states[i]);
  }

  /** A reconcile handles the task as running, or goes on with it as pending, only if it was watched. */
  lemma IntoHandling(cfg: Config, s: State, r: Reply, x: Input, s': State)
    requires cfg.kind == Eval && Inv(cfg, false, s) && Step(cfg, false, s, Call(r, x), s') && s'.ctl.AtEval?
    ensures s.ctl.AtEval? || (cfg.name in s.store.tasks && !s.store.tasks[cfg.name].meta.deleting)
  {
  }

  lemma IntoView(cfg: Config, s: State, l: Label, s': State)
    requires cfg.kind == Eval && Inv(cfg, false, s) && Step(cfg, false, s, l, s') && Watched(cfg, s')
    requires Evolves(cfg, s.store, s'.store)
    requires cfg.name in s.store.tasks && !IsPending(s.store.tasks[cfg.name].status.phase)
    requires s.store.tasks[cfg.name].uid == s'.store.tasks[cfg.name].uid
    ensures Watched(cfg, s)
  {
    match l
    case Call(r, x) =>
      if s'.ctl.AtEval? { IntoHandling(cfg, s, r, x, s'); }
      StaysMarked(cfg, s, r, x, s');
    case _ =>
  }

  /** A task marked for deletion stays marked. */
  lemma StaysMarked(cfg: Config, s: State, r: Reply, x: Input, s': State)
    requires CallStep(cfg, s, r, x, s') && cfg.name in s.store.tasks && cfg.name in s'.store.tasks
    ensures s.store.tasks[cfg.name].meta.deleting ==> s'.store.tasks[cfg.name].meta.deleting
  {
  }

  lemma StillFirst(cfg: Config, run: Run, i: nat)
    requires Orderly(cfg, run) && 0 < i < |run.states| && OneJob(cfg, run, i - 1)
    requires run.states[i].ctl.AtEval? && run.states[i].ctl.eval.JobCreate? && !run.labels[i-1].Call?
    ensures Created(run, i - 1) == 0
  {
    StillCreating(cfg, run, i);
  }

  /** A Job would matter, and none is stored. */
  predicate FreeOfJob(cfg: Config, s: State) {
    Watched(cfg, s) && !AtVerdict(s.ctl) && s.store.children.Keys == {}
  }

  /** Where the Job matters and none is stored, none was created. */
  lemma NothingOpen(cfg: Config, run: Run, i: nat)
    requires |run.states| == |run.labels| + 1 && Prompt(cfg, run) && i < |run.states| && OneJob(cfg, run, i)
    requires FreeOfJob(cfg, run.states[i])
    ensures Created(run, i) == 0
  {
    InSightStill(cfg, run, i);
  }

  lemma StillCreating(cfg: Config, run: Run, i: nat)
    requires Orderly(cfg, run) && 0 < i < |run.states| && !run.labels[i-1].Call?
    requires run.states[i].ctl.AtEval? && run.states[i].ctl.eval.JobCreate?
    ensures run.states[i-1].ctl == run.states[i].ctl
  {
    StepsInto(cfg, run, i);
  }

  /** Before the create step no Job was there, and the task was watched. */
  lemma FoundNothing(cfg: Config, run: Run, i: nat)
    requires Orderly(cfg, run) && 0 < i < |run.states| && run.labels[i-1].Call?
    requires run.states[i].ctl.AtEval? && run.states[i].ctl.eval.JobCreate?
    ensures FreeOfJob(cfg, run.states[i-1])
  {
    StepsInto(cfg, run, i);
    IntoCreate(cfg, run.states[i-1], run.labels[i-1].reply, run.labels[i-1].input, run.states[i]);
  }

  /** A prompt run never loses sight of its Job. */
  lemma InSightStill(cfg: Config, run: Run, i: nat)
    requires |run.states| == |run.labels| + 1 && Prompt(cfg, run) && i < |run.states| && OneJob(cfg, run, i)
    ensures Open(cfg, run, i) ==> run.states[i].store.children.Keys != {}
  {
  }

  /** The create step comes only after a lookup that found nothing. */
  lemma IntoCreate(cfg: Config, s: State, r: Reply, x: Input, s': State)
    requires cfg.kind == Eval && Inv(cfg, false, s) && Step(cfg, false, s, Call(r, x), s')
    requires s'.ctl.AtEval? && s'.ctl.eval.JobCreate?
    ensures s.ctl.AtEval? && Watched(cfg, s) && !AtVerdict(s.ctl) && s.store.children.Keys == {}
  {
    CreateFollowsLookup(cfg, s.ctl, r, x);
    var key := ChildKey(cfg, Jobs, s.ctl.eval.t);
    assert key !in s.store.children;
    forall k | k in s.store.children ensures k == key { assert Guarded(cfg, false, k); }
  }

  lemma CreateFollowsLookup(cfg: Config, c: Ctl, r: Reply, x: Input)
    requires Busy(c) && Resume(cfg, c, r, x).AtEval? && Resume(cfg, c, r, x).eval.JobCreate?
    ensures c.AtEval? && c.eval.JobLookup? && r.NotFound?
  {
    match c
    case AtRunning(c) =>
      if c.RunPods? && r.PodList? { Timers.ScanCarries(c.t, c.replicas, r.pods); }
      if c.NotePod? && r.TaskIs? { Timers.ScanCarries(r.task, c.replicas, c.rest); }
    case _ =>
  }

  /** The step into state `i`, and what holds around it. */
  ghost predicate StepInto(cfg: Config, run: Run, i: nat)
    requires 0 < i < |run.states| && i <= |run.labels|
  {
    var s, l, s' := run.states[i-1], run.labels[i-1], run.states[i];
    cfg.kind == Eval && Inv(cfg, false, s) && Step(cfg, false, s, l, s') && Evolves(cfg, s.store, s'.store)
  }

  lemma StepsInto(cfg: Config, run: Run, i: nat)
    requires cfg.kind == Eval && IsRun(cfg, false, run) && Initial(run.states[0]) && 0 < i < |run.states|
    ensures StepInto(cfg, run, i)
  {
    Reachable(cfg, false, run, i - 1);
    assert StepAt(cfg, false, run, i - 1);
    StepKept(cfg, false, run.states[i-1], run.labels[i-1], run.states[i]);
  }

  lemma CreationCounted(cfg: Config, run: Run, i: nat)
    requires Orderly(cfg, run) && 0 < i < |run.states| && OneJob(cfg, run, i - 1)
    requires Creates(run.states[i-1].store, run.states[i].store)
    ensures OneJob(cfg, run, i)
  {
    StepsInto(cfg, run, i);
    CreationStep(cfg, run.states[i-1], run.labels[i-1], run.states[i]);
    assert Started(cfg, run.states[i].store);
  }

  lemma SightCarried(cfg: Config, run: Run, i: nat)
    requires Orderly(cfg, run) && 0 < i < |run.states| && OneJob(cfg, run, i - 1)
    requires !Creates(run.states[i-1].store, run.states[i].store)
    requires Created(run, i) == 1 && Watched(cfg, run.states[i])
    ensures InSight(run.states[i].store, LastSeen(cfg, run, i))
  {
    WatchedBefore(cfg, run, i);
    SeenBefore(cfg, run, i - 1);
    SightAt(cfg, run, i, LastSeen(cfg, run, i - 1));
  }

  lemma SightAt(cfg: Config, run: Run, i: nat, seen: int)
    requires Orderly(cfg, run) && 0 < i < |run.states| && !Creates(run.states[i-1].store, run.states[i].store)
    requires Watched(cfg, run.states[i-1]) && InSight(run.states[i-1].store, seen) && seen <= run.states[i-1].store.now
    ensures InSight(run.states[i].store,
                    if LooksUnfinished(run.states[i-1], run.labels[i-1]) then run.states[i].store.now else seen)
  {
    StepsInto(cfg, run, i);
    SightStep(cfg, run.states[i-1], run.labels[i-1], run.states[i], seen);
  }

  predicate LooksUnfinished(s: State, l: Label) { Looks(s, l) && l.reply.child.job.finished == None }

  lemma SightStep(cfg: Config, s: State, l: Label, s': State, seen: int)
    requires cfg.kind == Eval && Inv(cfg, false, s) && Step(cfg, false, s, l, s') && !LosesJob(l)
    requires Watched(cfg, s) && !Creates(s.store, s'.store) && InSight(s.store, seen) && seen <= s.store.now
    ensures InSight(s'.store, if LooksUnfinished(s, l) then s'.store.now else seen)
  {
    if LooksUnfinished(s, l) { LookRenews(cfg, s, l, s'); } else { SightKept(cfg, s, l, s', seen); }
  }

  lemma {:induction false} OneJobKept(cfg: Config, run: Run, i: nat)
    requires Orderly(cfg, run) && Prompt(cfg, run) && i < |run.states|
    ensures OneJob(cfg, run, i)
  {
    if i > 0 {
      OneJobKept(cfg, run, i - 1);
      var s' := run.states[i];
      if Creates(run.states[i-1].store, s'.store) {
        CreationCounted(cfg, run, i);
      } else {
        if s'.ctl.AtEval? && s'.ctl.eval.JobCreate? {
          if run.labels[i-1].Call? {
            FoundNothing(cfg, run, i);
            NothingOpen(cfg, run, i - 1);
          } else {
            StillFirst(cfg, run, i);
          }
        }
        if Created(run, i) == 1 && Watched(cfg, s') { SightCarried(cfg, run, i); }
      }
    }
  }

  /** At most one Job: if whenever the Job matters it was seen unfinished less than 300 seconds
      before, it is created at most once in the whole run, lost replies and crashes included. */
  lemma AtMostOneJob(cfg: Config, run: Run)
    requires Orderly(cfg, run) && Prompt(cfg, run)
    ensures Created(run, |run.states| - 1) <= 1
  {
    OneJobKept(cfg, run, |run.states| - 1);
  }

  /* ------------------------------ From the requeue interval ------------------------------ */

  /** When the Job was last looked at, whatever was seen. */
  function LastLook(cfg: Config, run: Run, i: nat): int
    requires i < |run.states| && i <= |run.labels|
  {
    if i == 0 then run.states[0].store.now
    else if Opens(cfg, run.states[i-1], run.states[i]) || Looks(run.states[i-1], run.labels[i-1])
    then run.states[i].store.now
    else LastLook(cfg, run, i - 1)
  }

  /** Once there is a Job, running-phase reconciles look at it every 30 seconds, give or take `latency`. */
  ghost predicate Regular(cfg: Config, run: Run, latency: int)
    requires |run.states| == |run.labels| + 1
  {
    forall i :: 0 <= i < |run.states| && Open(cfg, run, i) ==>
                  run.states[i].store.now <= LastLook(cfg, run, i) + 30 + latency
  }

  /** The operator does not stop, or fail, between seeing a finished Job and writing it down. */
  predicate Heeds(s: State, l: Label) {
    AtVerdict(s.ctl) ==> !l.Crash? && (l.Call? ==> l.reply.TaskIs?)
  }

  lemma VerdictLands(cfg: Config, s: State, l: Label, s': State)
    requires cfg.kind == Eval && Inv(cfg, false, s) && Step(cfg, false, s, l, s') && Heeds(s, l) && AtVerdict(s.ctl)
    ensures AtVerdict(s'.ctl) || !Watched(cfg, s')
  {
  }

  lemma FinishedLookEnds(cfg: Config, s: State, l: Label, s': State)
    requires cfg.kind == Eval && Inv(cfg, false, s) && Step(cfg, false, s, l, s')
    requires forall key :: key in s.store.children && s.store.children[key].job.finished.Some? ==>
               JobOver(s.store.children[key].job)
    requires Looks(s, l) && l.reply.child.job.finished.Some?
    ensures AtVerdict(s'.ctl)
  {
  }

  predicate JobOver(j: JobStatus) { j.active == 0 && j.succeeded + j.failed > 0 }

  /** A Job reported finished has a success or a failure. */
  lemma {:induction false} FinishedIsOver(cfg: Config, run: Run, i: nat, key: Key)
    requires cfg.kind == Eval && IsRun(cfg, false, run) && Initial(run.states[0]) && i < |run.states|
    requires key in run.states[i].store.children && run.states[i].store.children[key].job.finished.Some?
    ensures JobOver(run.states[i].store.children[key].job)
  {
    if i > 0 {
      Reachable(cfg, false, run, i - 1);
      assert StepAt(cfg, false, run, i - 1);
      JobStep(cfg, run.states[i-1], run.labels[i-1], run.states[i], key);
      if !JobOver(run.states[i].store.children[key].job) { FinishedIsOver(cfg, run, i - 1, key); }
    }
  }

  lemma CallKeepsJob(cfg: Config, s: Store, op: Op, s': Store, r: Reply, key: Key)
    requires Serves(s, op, s', r) && key in s'.children && s'.children[key].job.finished.Some?
    requires !op.UpdateChild? && (op.CreateChild? ==> op.child.job.finished == None)
    ensures key in s.children && s.children[key].job == s'.children[key].job
  {
  }

  lemma NoRewrites(cfg: Config, s: State)
    requires cfg.kind == Eval && Inv(cfg, false, s) && Busy(s.ctl)
    ensures !Request(cfg, s.ctl).UpdateChild?
    ensures Request(cfg, s.ctl).CreateChild? ==> Request(cfg, s.ctl).child.job.finished == None
  {
  }

  lemma JobStep(cfg: Config, s: State, l: Label, s': State, key: Key)
    requires cfg.kind == Eval && Inv(cfg, false, s) && Step(cfg, false, s, l, s')
    requires key in s'.store.children && s'.store.children[key].job.finished.Some?
    ensures JobOver(s'.store.children[key].job)
            || (key in s.store.children && s.store.children[key].job == s'.store.children[key].job)
  {
    if l.Call? {
      NoRewrites(cfg, s);
      CallKeepsJob(cfg, s.store, Request(cfg, s.ctl), s'.store, l.reply, key);
    }
  }

  /** A step that leaves the Job watched and undecided, and opens nothing new, came from such a state
      and was not a look at a finished Job. */
  lemma UndecidedStep(cfg: Config, run: Run, i: nat)
    requires cfg.kind == Eval && IsRun(cfg, false, run) && Initial(run.states[0]) && 0 < i < |run.states|
    requires Heeds(run.states[i-1], run.labels[i-1])
    requires Watched(cfg, run.states[i]) && !AtVerdict(run.states[i].ctl) && !Opens(cfg, run.states[i-1], run.states[i])
    ensures Watched(cfg, run.states[i-1]) && !AtVerdict(run.states[i-1].ctl)
    ensures Looks(run.states[i-1], run.labels[i-1]) ==> run.labels[i-1].reply.child.job.finished == None
  {
    StepsInto(cfg, run, i);
    var s, l, s' := run.states[i-1], run.labels[i-1], run.states[i];
    OpensOrWatched(cfg, s, l, s');
    if AtVerdict(s.ctl) { VerdictLands(cfg, s, l, s'); }
    if Looks(s, l) && l.reply.child.job.finished.Some? {
      forall key | key in s.store.children && s.store.children[key].job.finished.Some?
        ensures JobOver(s.store.children[key].job) { FinishedIsOver(cfg, run, i - 1, key); }
      FinishedLookEnds(cfg, s, l, s');
    }
  }

  lemma {:induction false} LookIsSeen(cfg: Config, run: Run, i: nat)
    requires cfg.kind == Eval && IsRun(cfg, false, run) && Initial(run.states[0]) && i < |run.states|
    requires forall k :: 0 <= k < |run.labels| ==> Heeds(run.states[k], run.labels[k])
    ensures Watched(cfg, run.states[i]) && !AtVerdict(run.states[i].ctl) ==>
              LastLook(cfg, run, i) == LastSeen(cfg, run, i)
  {
    if i > 0 && Watched(cfg, run.states[i]) && !AtVerdict(run.states[i].ctl)
       && !Opens(cfg, run.states[i-1], run.states[i])
    {
      UndecidedStep(cfg, run, i);
      LookIsSeen(cfg, run, i - 1);
    }
  }

  lemma OpensOrWatched(cfg: Config, s: State, l: Label, s': State)
    requires cfg.kind == Eval && Inv(cfg, false, s) && Step(cfg, false, s, l, s') && Watched(cfg, s')
    requires !Opens(cfg, s, s')
    ensures Watched(cfg, s)
  {
    if l.Call? {
      if s'.ctl.AtEval? { IntoHandling(cfg, s, l.reply, l.input, s'); }
      StaysMarked(cfg, s, l.reply, l.input, s');
    }
  }

  /** So looks at most 30 seconds and a latency below 270 seconds apart, with no crash and no error
      between a look that finds the Job finished and the status write, are prompt. */
  lemma RegularIsPrompt(cfg: Config, run: Run, latency: int)
    requires cfg.kind == Eval && IsRun(cfg, false, run) && Initial(run.states[0])
    requires Regular(cfg, run, latency) && latency < 270
    requires forall k :: 0 <= k < |run.labels| ==> Heeds(run.states[k], run.labels[k])
    ensures Prompt(cfg, run)
  {
    forall i | 0 <= i < |run.states| && Open(cfg, run, i)
      ensures run.states[i].store.now < LastSeen(cfg, run, i) + JOB_TTL
    {
      LookIsSeen(cfg, run, i);
    }
  }

  lemma RegularMakesOneJob(cfg: Config, run: Run, latency: int)
    requires Orderly(cfg, run) && Regular(cfg, run, latency) && latency < 270
    requires forall k :: 0 <= k < |run.labels| ==> Heeds(run.states[k], run.labels[k])
    ensures Created(run, |run.states| - 1) <= 1
  {
    RegularIsPrompt(cfg, run, latency);
    AtMostOneJob(cfg, run);
  }

  /* ------------------------------ Safety of a finished EvalTask ------------------------------ */

  /** Although a finished EvalTask loses and regains its finalizer on alternate reconciles, its phase
      and end time stay as they are and its Job is never created again. */
  lemma FinishedForGood(cfg: Config, edits: bool, run: Run, i: nat, j: nat)
    requires cfg.kind == Eval && IsRun(cfg, edits, run) && Initial(run.states[0]) && i <= j < |run.labels|
    requires var s, s' := run.states[i].store, run.states[j].store;
             && cfg.name in s.tasks && s.tasks[cfg.name].status.end.Some?
             && cfg.name in s'.tasks && s'.tasks[cfg.name].uid == s.tasks[cfg.name].uid
    ensures run.states[j].store.tasks[cfg.name].status.phase == run.states[i].store.tasks[cfg.name].status.phase
    ensures run.states[j].store.tasks[cfg.name].status.end == run.states[i].store.tasks[cfg.name].status.end
    ensures !Creates(run.states[j].store, run.states[j+1].store)
  {
    Reachable(cfg, edits, run, i);
    Reachable(cfg, edits, run, j);
    History(cfg, edits, run, i, j);
    assert StepAt(cfg, edits, run, j);
    var s, l, s' := run.states[j], run.labels[j], run.states[j+1];
    if l.Call? && !Request(cfg, s.ctl).CreateChild? {
      OnlyCreateGrows(s.store, Request(cfg, s.ctl), s'.store, l.reply);
    }
  }

  /** A finished EvalTask that nobody deletes. */
  predicate Settled(cfg: Config, s: Store) {
    && cfg.kind == Eval && cfg.name in s.tasks
    && var t := s.tasks[cfg.name];
    && !t.meta.deleting && IsTerminal(t.status.phase) && t.status.end.Some?
  }

  /** Where its reconcile stands, from `a` on. */
  predicate Alternating(cfg: Config, a: Store, b: Store, c: Ctl) {
    Settled(cfg, a) &&
    match c
    case Done(_, _) =>
      && cfg.name in b.tasks && !b.tasks[cfg.name].meta.deleting && (Held(cfg, b) <==> !Held(cfg, a))
      && b.tasks[cfg.name].status == a.tasks[cfg.name].status && b.tasks[cfg.name].uid == a.tasks[cfg.name].uid
    case AtEntry(c) => b == a && (c.Fetch? || (c.AddFinalizer? && c.t == a.tasks[cfg.name] && !Held(cfg, a)))
    case AtRelease(c) => b.tasks == a.tasks && c.t == a.tasks[cfg.name] && Held(cfg, a)
    case _ => false
  }

  lemma AlternatingStep(cfg: Config, a: Store, s: State, r: Reply, x: Input, m: State)
    requires Alternating(cfg, a, s.store, s.ctl) && !s.ctl.Done? && QuietCall(cfg, s, r, x, m)
    ensures Alternating(cfg, a, m.store, m.ctl)
  {
  }

  lemma {:induction false} AlternatingKept(cfg: Config, a: Store, s: State, e: State, calls: nat)
    requires Alternating(cfg, a, s.store, s.ctl) && Quiet(cfg, s, e, calls)
    ensures Alternating(cfg, a, e.store, e.ctl) && e.ctl.Done?
    decreases calls
  {
    if !s.ctl.Done? {
      var r, x, m :| QuietCall(cfg, s, r, x, m) && Quiet(cfg, m, e, calls - 1);
      AlternatingStep(cfg, a, s, r, x, m);
      AlternatingKept(cfg, a, m, e, calls - 1);
    }
  }

  /** The finalizer really does alternate: each undisturbed reconcile of a finished EvalTask puts it on if
      it is off and takes it off if it is on, and leaves task and status as they are. */
  lemma FinalizerAlternates(cfg: Config, a: Store, b: Store)
    requires Settled(cfg, a) && Reconciles(cfg, a, b)
    ensures Settled(cfg, b) && (Held(cfg, b) <==> !Held(cfg, a))
    ensures b.tasks[cfg.name].status == a.tasks[cfg.name].status && b.tasks[cfg.name].uid == a.tasks[cfg.name].uid
  {
    var s := State(a, AtEntry(Fetch), []);
    var e, calls: nat :| Quiet(cfg, s, e, calls) && e.store == b;
    AlternatingKept(cfg, a, s, e, calls);
  }
}
