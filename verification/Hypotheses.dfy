/** Whole runs, from the start, that show what happens without the hypotheses: a Job looked at too late is
    created twice, and a name given to a second task hands it the first one's timer. */
module Hypotheses {
  import opened Cluster
  import opened Machine
  import opened Runs
  import opened Rework
  import opened Timers
  import EvalJobs
  import Safety

  /* ------------------------------ Runs, step by step ------------------------------ */

  function Last(run: Run): State
    requires run.states != []
  {
    run.states[|run.states|-1]
  }

  function Then(run: Run, l: Label, s': State): Run { Run(run.states + [s'], run.labels + [l]) }

  ghost predicate Begun(cfg: Config, run: Run, s0: State) {
    run.states != [] && IsRun(cfg, false, run) && run.states[0] == s0 && Initial(s0)
  }

  /** One more step. */
  lemma Take(cfg: Config, run: Run, s0: State, l: Label, s': State) returns (run': Run)
    requires Begun(cfg, run, s0) && Step(cfg, false, Last(run), l, s')
    ensures Begun(cfg, run', s0) && run' == Then(run, l, s') && Last(run') == s'
  {
    run' := Then(run, l, s');
    forall i | 0 <= i < |run'.labels| ensures StepAt(cfg, false, run', i) {
      assert i < |run.labels| ==> StepAt(cfg, false, run, i);
    }
  }

  /** What a reconcile is told besides the answers. */
  function Told(s: State): Input { Input(s.store.now, "", "") }

  predicate Plain(op: Op) { !op.ListRoutes? && !op.ListPods? }

  /** Where a properly answered call leads. */
  function Next(cfg: Config, s: State): State
    requires Busy(s.ctl)
  {
    var served := Apply(s.store, Request(cfg, s.ctl));
    State(served.store, Resume(cfg, s.ctl, served.reply, Told(s)), s.timers)
  }

  function Answer(cfg: Config, s: State): Label
    requires Busy(s.ctl)
  {
    Call(Apply(s.store, Request(cfg, s.ctl)).reply, Told(s))
  }

  lemma NextIsStep(cfg: Config, s: State)
    requires Busy(s.ctl) && Plain(Request(cfg, s.ctl))
    ensures Step(cfg, false, s, Answer(cfg, s), Next(cfg, s))
  {
    var op := Request(cfg, s.ctl);
    assert Answers(s.store, op, Apply(s.store, op).store, Apply(s.store, op).reply);
    NeverFails(s.store, op);
  }

  lemma NeverFails(s: Store, op: Op)
    requires Plain(op)
    ensures !Apply(s, op).reply.Fault?
  {
  }

  /* ------------------------------ Counting Jobs ------------------------------ */

  lemma {:induction false} CreatedBefore(run: Run, l: Label, s': State, i: nat)
    requires i < |run.states|
    ensures EvalJobs.Created(Then(run, l, s'), i) == EvalJobs.Created(run, i)
  {
    if i > 0 { CreatedBefore(run, l, s', i - 1); }
  }

  predicate Known(cfg: Config, s: Store, u: nat) { cfg.name in s.tasks ==> s.tasks[cfg.name].uid == u }

  /** A run in order, all about the task with uid `u`, that created `n` Jobs. */
  ghost predicate Logged(cfg: Config, run: Run, s0: State, u: nat, n: nat) {
    && Begun(cfg, run, s0)
    && (forall i :: 0 <= i < |run.states| ==> Known(cfg, run.states[i].store, u))
    && (forall i :: 0 <= i < |run.labels| ==> !EvalJobs.LosesJob(run.labels[i]))
    && EvalJobs.Created(run, |run.states| - 1) == n
  }

  lemma Log(cfg: Config, run: Run, s0: State, u: nat, n: nat, l: Label, s': State) returns (run': Run)
    requires Logged(cfg, run, s0, u, n) && Step(cfg, false, Last(run), l, s')
    requires Known(cfg, s'.store, u) && !EvalJobs.LosesJob(l)
    ensures Logged(cfg, run', s0, u, n + One(EvalJobs.Creates(Last(run).store, s'.store))) && Last(run') == s'
  {
    run' := Take(cfg, run, s0, l, s');
    CreatedBefore(run, l, s', |run.states| - 1);
  }

  lemma LogNext(cfg: Config, run: Run, s0: State, u: nat, n: nat) returns (run': Run)
    requires Logged(cfg, run, s0, u, n) && Busy(Last(run).ctl) && Plain(Request(cfg, Last(run).ctl))
    ensures Logged(cfg, run', s0, u, n + One(EvalJobs.Creates(Last(run).store, Next(cfg, Last(run)).store)))
    ensures Last(run') == Next(cfg, Last(run))
  {
    var s := Last(run);
    NextIsStep(cfg, s);
    CallsKeepUid(s.store, Request(cfg, s.ctl), cfg.name, u);
    assert Known(cfg, s.store, u);
    run' := Log(cfg, run, s0, u, n, Answer(cfg, s), Next(cfg, s));
  }

  lemma CallsKeepUid(s: Store, op: Op, name: string, u: nat)
    requires name in s.tasks ==> s.tasks[name].uid == u
    ensures name in Apply(s, op).store.tasks ==> Apply(s, op).store.tasks[name].uid == u
  {
  }

  lemma Orderly(cfg: Config, run: Run, s0: State, u: nat, n: nat)
    requires cfg.kind == Eval && Logged(cfg, run, s0, u, n)
    ensures EvalJobs.Orderly(cfg, run)
  {
    forall i, j | 0 <= i < |run.states| && 0 <= j < |run.states|
      ensures SameUid(cfg, run.states[i].store, run.states[j].store)
    {
      assert Known(cfg, run.states[i].store, u) && Known(cfg, run.states[j].store, u);
    }
  }

  /** A running EvalTask between two reconciles, without a Job. */
  predicate Waiting(cfg: Config, s: State) {
    && s.ctl.Idle? && cfg.name in s.store.tasks && s.store.children == map[]
    && var t := s.store.tasks[cfg.name];
    && t.status.phase == Running && !t.meta.deleting && Finalizer(Eval) in t.meta.finalizers
  }

  /** The Job was just created and is about to be looked at. */
  predicate Looking(cfg: Config, s: State) {
    && cfg.name in s.store.tasks
    && var t := s.store.tasks[cfg.name];
    && t.status.phase == Running && !t.meta.deleting && Finalizer(Eval) in t.meta.finalizers
    && s.ctl == AtEval(CheckJob(t))
    && s.store.children.Keys == {ChildKey(cfg, Jobs, t)}
    && var c := s.store.children[ChildKey(cfg, Jobs, t)];
    && c.job == NO_JOB && c.meta.finalizers == {}
  }

  /** A pending EvalTask between two reconciles, with label and finalizer and without a Job. */
  predicate Born(cfg: Config, s: State) {
    && s.ctl.Idle? && cfg.name in s.store.tasks && s.store.children == map[]
    && var t := s.store.tasks[cfg.name];
    && t.status.phase == Pending && !t.meta.deleting && Finalizer(Eval) in t.meta.finalizers
  }

  lemma Opening(cfg: Config, s0: State, spec: Spec) returns (run: Run, u: nat)
    requires cfg.kind == Eval && Initial(s0)
    ensures Logged(cfg, run, s0, u, 0) && Born(cfg, Last(run))
    ensures Last(run).store.now == s0.store.now
  {
    u := s0.store.version + 1;
    run := Run([s0], []);
    var e := UserCreate(spec, spec.framework, {Finalizer(Eval)}, Pending);
    run := Log(cfg, run, s0, u, 0, Env(e), s0.(store := Happen(cfg, s0.store, e)));
  }

  lemma Starting(cfg: Config, run: Run, s0: State, u: nat) returns (run': Run)
    requires cfg.kind == Eval && Logged(cfg, run, s0, u, 0) && Born(cfg, Last(run))
    ensures Logged(cfg, run', s0, u, 0) && Waiting(cfg, Last(run'))
    ensures Last(run').store.now == Last(run).store.now
  {
    run' := Log(cfg, run, s0, u, 0, Begin, Last(run).(ctl := AtEntry(Fetch)));
    run' := LogNext(cfg, run', s0, u, 0);
    assert Last(run').ctl == AtEval(EvalLabel(Last(run').store.tasks[cfg.name]));
    run' := LogNext(cfg, run', s0, u, 0);
    assert Last(run').ctl == AtEval(EvalCommit(Last(run').store.tasks[cfg.name], Last(run').store.now));
    run' := LogNext(cfg, run', s0, u, 0);
    run' := Log(cfg, run', s0, u, 0, Return, Last(run').(ctl := Idle));
  }

  /** The reconcile of a task that waits without a Job creates it. */
  lemma MakeJob(cfg: Config, run: Run, s0: State, u: nat, n: nat) returns (run': Run)
    requires cfg.kind == Eval && Logged(cfg, run, s0, u, n) && Waiting(cfg, Last(run))
    ensures Logged(cfg, run', s0, u, n + 1) && Looking(cfg, Last(run'))
    ensures Last(run').store.now == Last(run).store.now
  {
    run' := Log(cfg, run, s0, u, n, Begin, Last(run).(ctl := AtEntry(Fetch)));
    run' := LogNext(cfg, run', s0, u, n);
    assert Last(run').ctl == AtEval(JobLookup(Last(run').store.tasks[cfg.name]));
    run' := LogNext(cfg, run', s0, u, n);
    assert Last(run').ctl == AtEval(JobCreate(Last(run').store.tasks[cfg.name]));
    var before := Last(run');
    var key := ChildKey(cfg, Jobs, before.store.tasks[cfg.name]);
    assert key in Next(cfg, before).store.children.Keys - before.store.children.Keys;
    run' := LogNext(cfg, run', s0, u, n);
  }

  /** The Job finishes, nobody looks for 300 seconds, and it expires. */
  lemma LoseJob(cfg: Config, run: Run, s0: State, u: nat, n: nat) returns (run': Run)
    requires cfg.kind == Eval && Logged(cfg, run, s0, u, n) && Looking(cfg, Last(run))
    ensures Logged(cfg, run', s0, u, n) && Waiting(cfg, Last(run'))
    ensures Last(run').store.now == Last(run).store.now + 300
  {
    var key := ChildKey(cfg, Jobs, Last(run).store.tasks[cfg.name]);
    run' := LogNext(cfg, run, s0, u, n);
    assert Last(run').ctl == Done(Again, None);
    run' := Log(cfg, run', s0, u, n, Return, Last(run').(ctl := Idle));
    run' := Finish(cfg, run', s0, u, n, key);
  }

  lemma Finish(cfg: Config, run: Run, s0: State, u: nat, n: nat, key: Key) returns (run': Run)
    requires cfg.kind == Eval && Logged(cfg, run, s0, u, n)
             && Waiting(cfg, Last(run).(store := Last(run).store.(children := map[])))
    requires key.resource == Jobs && Last(run).store.children.Keys == {key}
    requires Last(run).store.children[key].job == NO_JOB && Last(run).store.children[key].meta.finalizers == {}
    ensures Logged(cfg, run', s0, u, n) && Waiting(cfg, Last(run'))
    ensures Last(run').store.now == Last(run).store.now + 300
  {
    var s := Last(run);
    var done := JobProgress(key, JobStatus(0, 1, 0, Some(s.store.now)));
    run' := Log(cfg, run, s0, u, n, Env(done), s.(store := Happen(cfg, s.store, done)));
    s := Last(run');
    var later := Elapse(s.store.now + JOB_TTL, s.store.version);
    run' := Log(cfg, run', s0, u, n, Env(later), s.(store := Happen(cfg, s.store, later)));
    s := Last(run');
    run' := Log(cfg, run', s0, u, n, Env(JobExpires(key)), s.(store := Happen(cfg, s.store, JobExpires(key))));
    assert Last(run').store.children == map[];
  }

  /** Looking in time is needed: for every EvalTask there is a run, in order but not prompt, in which its Job
      is created twice within 300 seconds, the first one having finished with success. */
  lemma LateLookCreatesAgain(cfg: Config, s0: State, spec: Spec) returns (run: Run)
    requires cfg.kind == Eval && Initial(s0)
    ensures EvalJobs.Orderly(cfg, run) && run.states[0] == s0
    ensures EvalJobs.Created(run, |run.states| - 1) == 2 && !EvalJobs.Prompt(cfg, run)
    ensures Last(run).store.now == s0.store.now + 300
  {
    var u;
    run, u := Opening(cfg, s0, spec);
    run := Starting(cfg, run, s0, u);
    run := MakeJob(cfg, run, s0, u, 0);
    run := LoseJob(cfg, run, s0, u, 1);
    run := MakeJob(cfg, run, s0, u, 1);
    Orderly(cfg, run, s0, u, 2);
    if EvalJobs.Prompt(cfg, run) { EvalJobs.AtMostOneJob(cfg, run); }
  }

  /* ------------------------------ A timer and a second task ------------------------------ */

  lemma GoNext(cfg: Config, run: Run, s0: State) returns (run': Run)
    requires Begun(cfg, run, s0) && Busy(Last(run).ctl) && Plain(Request(cfg, Last(run).ctl))
    ensures Begun(cfg, run', s0) && Last(run') == Next(cfg, Last(run))
  {
    NextIsStep(cfg, Last(run));
    run' := Take(cfg, run, s0, Answer(cfg, Last(run)), Next(cfg, Last(run)));
  }

  lemma Open(cfg: Config, run: Run, s0: State) returns (run': Run)
    requires Begun(cfg, run, s0) && Last(run).ctl.Idle?
    ensures Begun(cfg, run', s0) && Last(run') == Next(cfg, Last(run).(ctl := AtEntry(Fetch)))
  {
    run' := Take(cfg, run, s0, Begin, Last(run).(ctl := AtEntry(Fetch)));
    run' := GoNext(cfg, run', s0);
  }

  /** The InferenceTask of the example: no route, no replicas, a TTL. */
  predicate Example(cfg: Config, s: Store, phase: Phase, u: nat, ttl: int) {
    && cfg.name in s.tasks && s.pods == {}
    && var t := s.tasks[cfg.name];
    && t.uid == u && t.status.phase == phase && t.meta.finalizers == {Finalizer(Inf)}
    && t.frameworkLabel == t.spec.framework && t.spec == Spec(t.spec.framework, false, 0, Some(ttl))
  }

  predicate Bare(s: Store) { s.children == map[] }

  /** Just these children, unfinalized, and scaled to nothing. */
  predicate Only(s: Store, keys: set<Key>) {
    && s.children.Keys == keys
    && (forall key :: key in s.children ==> s.children[key].meta.finalizers == {} && s.children[key].replicas == 0)
  }

  /** Its Deployment and its Service, and nothing else. */
  predicate Deployed(cfg: Config, s: Store)
    requires cfg.name in s.tasks
  {
    var t := s.tasks[cfg.name];
    Only(s, {ChildKey(cfg, Deployments, t), ChildKey(cfg, Services, t)})
  }

  predicate Live(cfg: Config, s: Store)
    requires cfg.name in s.tasks
  {
    !s.tasks[cfg.name].meta.deleting && s.tasks[cfg.name].status.end == None
  }

  lemma Pend(cfg: Config, run: Run, s0: State, u: nat, ttl: int) returns (run': Run)
    requires cfg.kind == Inf && Begun(cfg, run, s0) && Last(run).ctl.Idle? && Last(run).timers == []
    requires Example(cfg, Last(run).store, Pending, u, ttl) && Live(cfg, Last(run).store) && Bare(Last(run).store)
    ensures Begun(cfg, run', s0) && Last(run').ctl.Idle? && Last(run').timers == []
    ensures Example(cfg, Last(run').store, Creating, u, ttl) && Live(cfg, Last(run').store) && Bare(Last(run').store)
  {
    run' := Open(cfg, run, s0);
    assert Last(run').ctl == AtPending(PendingCheck);
    run' := GoNext(cfg, run', s0);
    run' := GoNext(cfg, run', s0);
    run' := Take(cfg, run', s0, Return, Last(run').(ctl := Idle));
  }

  lemma Deploy(cfg: Config, run: Run, s0: State, u: nat, ttl: int) returns (run': Run)
    requires cfg.kind == Inf && Begun(cfg, run, s0) && Last(run).ctl.Idle? && Last(run).timers == []
    requires Example(cfg, Last(run).store, Creating, u, ttl) && Live(cfg, Last(run).store) && Bare(Last(run).store)
    ensures Begun(cfg, run', s0) && Last(run').timers == []
    ensures Example(cfg, Last(run').store, Creating, u, ttl) && Live(cfg, Last(run').store)
    ensures Last(run').ctl == AtEnsure(SvcLookup(Creating, Last(run').store.tasks[cfg.name]))
    ensures Only(Last(run').store, {ChildKey(cfg, Deployments, Last(run').store.tasks[cfg.name])})
  {
    run' := Open(cfg, run, s0);
    assert Last(run').ctl == AtCreating(CreateLookup(Last(run').store.tasks[cfg.name]));
    run' := GoNext(cfg, run', s0);
    assert Last(run').ctl == AtCreating(CreateDeploy(Last(run').store.tasks[cfg.name]));
    run' := GoNext(cfg, run', s0);
  }

  lemma Expose(cfg: Config, run: Run, s0: State, u: nat, ttl: int) returns (run': Run)
    requires cfg.kind == Inf && Begun(cfg, run, s0) && Last(run).timers == []
    requires Example(cfg, Last(run).store, Creating, u, ttl) && Live(cfg, Last(run).store)
    requires Last(run).ctl == AtEnsure(SvcLookup(Creating, Last(run).store.tasks[cfg.name]))
    requires Only(Last(run).store, {ChildKey(cfg, Deployments, Last(run).store.tasks[cfg.name])})
    ensures Begun(cfg, run', s0) && Last(run').ctl.Idle? && Last(run').timers == []
    ensures Example(cfg, Last(run').store, Running, u, ttl) && Live(cfg, Last(run').store)
            && Deployed(cfg, Last(run').store)
  {
    var t := Last(run).store.tasks[cfg.name];
    run' := GoNext(cfg, run, s0);
    assert Last(run').ctl == AtEnsure(SvcCreate(Creating, t));
    run' := GoNext(cfg, run', s0);
    assert Last(run').ctl == AtCreating(CommitRunning(t, t.status.url));
    run' := GoNext(cfg, run', s0);
    run' := Take(cfg, run', s0, Return, Last(run').(ctl := Idle));
  }

  /** Without pods, and with no replicas, it counts as completed. */
  lemma Complete(cfg: Config, run: Run, s0: State, u: nat, ttl: int) returns (run': Run)
    requires cfg.kind == Inf && Begun(cfg, run, s0) && Last(run).ctl.Idle? && Last(run).timers == []
    requires Example(cfg, Last(run).store, Running, u, ttl) && Live(cfg, Last(run).store)
             && Deployed(cfg, Last(run).store)
    ensures Begun(cfg, run', s0) && Last(run').ctl.Idle? && Last(run').timers == []
    ensures Example(cfg, Last(run').store, Completed, u, ttl) && Live(cfg, Last(run').store)
            && Deployed(cfg, Last(run').store)
  {
    var t := Last(run).store.tasks[cfg.name];
    run' := Open(cfg, run, s0);
    assert Last(run').ctl == AtRunning(RunLookup(t));
    run' := GoNext(cfg, run', s0);
    assert Last(run').ctl == AtRunning(RunPods(t, 0));
    var s := Last(run');
    run' := Take(cfg, run', s0, Call(PodList([]), Told(s)), s.(ctl := AtEnd(Conclude(t, Completed, "Task completed"))));
    run' := GoNext(cfg, run', s0);
    run' := Take(cfg, run', s0, Return, Last(run').(ctl := Idle));
  }

  /** The next reconcile sees it completed and starts the timer. */
  lemma Arm(cfg: Config, run: Run, s0: State, u: nat, ttl: int) returns (run': Run)
    requires cfg.kind == Inf && Begun(cfg, run, s0) && Last(run).ctl.Idle? && Last(run).timers == []
    requires Example(cfg, Last(run).store, Completed, u, ttl) && Live(cfg, Last(run).store)
             && Deployed(cfg, Last(run).store)
    ensures Begun(cfg, run', s0) && Last(run').ctl.Idle?
    ensures Last(run').timers == [Timer(u, Last(run').store.now, ttl)]
    ensures Example(cfg, Last(run').store, Completed, u, ttl) && Deployed(cfg, Last(run').store)
    ensures !Last(run').store.tasks[cfg.name].meta.deleting
  {
    run' := Open(cfg, run, s0);
    assert Last(run').ctl == AtEnd(CommitEnd(Last(run').store.tasks[cfg.name], Last(run').store.now));
    run' := GoNext(cfg, run', s0);
    run' := Take(cfg, run', s0, Return, Last(run').(ctl := Idle, timers := [Last(run').ctl.timer.value]));
  }

  /** The user deletes it, and cleanup takes the Deployment. */
  lemma Doom(cfg: Config, run: Run, s0: State, u: nat, ttl: int, timer: Timer) returns (run': Run)
    requires cfg.kind == Inf && Begun(cfg, run, s0) && Last(run).ctl.Idle? && Last(run).timers == [timer]
    requires Example(cfg, Last(run).store, Completed, u, ttl) && Deployed(cfg, Last(run).store)
    requires !Last(run).store.tasks[cfg.name].meta.deleting
    ensures Begun(cfg, run', s0) && Last(run').timers == [timer] && Last(run').store.now == Last(run).store.now
    ensures Example(cfg, Last(run').store, Completed, u, ttl) && Last(run').store.tasks[cfg.name].meta.deleting
    ensures var t := Last(run').store.tasks[cfg.name];
            Last(run').ctl == AtDrop(DropSvcLookup(t)) && Only(Last(run').store, {ChildKey(cfg, Services, t)})
  {
    run' := Take(cfg, run, s0, Env(UserDelete), Last(run).(store := Happen(cfg, Last(run).store, UserDelete)));
    var t := Last(run').store.tasks[cfg.name];
    run' := Open(cfg, run', s0);
    assert Last(run').ctl == AtDrop(DropLookup(t));
    run' := GoNext(cfg, run', s0);
    assert Last(run').ctl == AtDrop(DropDeploy(t));
    run' := GoNext(cfg, run', s0);
  }

  /** Then the Service, and the task goes; its timer stays. */
  lemma Vanish(cfg: Config, run: Run, s0: State, u: nat, ttl: int, timer: Timer) returns (run': Run)
    requires cfg.kind == Inf && Begun(cfg, run, s0) && Last(run).timers == [timer]
    requires Example(cfg, Last(run).store, Completed, u, ttl) && Last(run).store.tasks[cfg.name].meta.deleting
    requires var t := Last(run).store.tasks[cfg.name];
             Last(run).ctl == AtDrop(DropSvcLookup(t)) && Only(Last(run).store, {ChildKey(cfg, Services, t)})
    ensures Begun(cfg, run', s0) && Last(run').ctl.Idle? && Last(run').timers == [timer]
    ensures cfg.name !in Last(run').store.tasks && Bare(Last(run').store) && Last(run').store.now == Last(run).store.now
  {
    var t := Last(run).store.tasks[cfg.name];
    run' := GoNext(cfg, run, s0);
    assert Last(run').ctl == AtDrop(DropSvc(t));
    run' := GoNext(cfg, run', s0);
    assert Last(run').ctl == AtUnroute(DropRouteLookup(t)) && Bare(Last(run').store);
    run' := GoNext(cfg, run', s0);
    assert Last(run').ctl == AtRelease(Release(t));
    run' := GoNext(cfg, run', s0);
    run' := Take(cfg, run', s0, Return, Last(run').(ctl := Idle));
  }

  /** Another task gets the name; when the timer is due it hits that one. */
  lemma Strike(cfg: Config, run: Run, s0: State, timer: Timer, spec: Spec) returns (run': Run)
    requires cfg.kind == Inf && Begun(cfg, run, s0) && Last(run).ctl.Idle? && Last(run).timers == [timer]
    requires cfg.name !in Last(run).store.tasks && timer.since == Last(run).store.now && timer.ttl >= 0
    requires timer.uid <= Last(run).store.version
    ensures Begun(cfg, run', s0) && |run'.labels| > 0 && run'.labels[|run'.labels|-1] == TimerFires(0)
    ensures var before := run'.states[|run'.states|-2];
            && before.timers == [timer] && cfg.name in before.store.tasks
            && before.store.tasks[cfg.name].uid != timer.uid && before.store.tasks[cfg.name].status.phase == Pending
            && !before.store.tasks[cfg.name].meta.deleting
    ensures cfg.name in Last(run').store.tasks && Last(run').store.tasks[cfg.name].meta.deleting
  {
    var s := Last(run);
    var e := UserCreate(spec, spec.framework, {Finalizer(Inf)}, Pending);
    run' := Take(cfg, run, s0, Env(e), s.(store := Happen(cfg, s.store, e)));
    s := Last(run');
    var later := Elapse(timer.since + timer.ttl, s.store.version);
    run' := Take(cfg, run', s0, Env(later), s.(store := Happen(cfg, s.store, later)));
    s := Last(run');
    run' := Take(cfg, run', s0, TimerFires(0), s.(store := ApplyDeleteTask(s.store, cfg.name).store, timers := []));
  }

  /** A task is created with label and finalizer. */
  lemma Bear(cfg: Config, s0: State, framework: string, ttl: int) returns (run: Run, u: nat)
    requires cfg.kind == Inf && Initial(s0)
    ensures Begun(cfg, run, s0) && Last(run).ctl.Idle? && Last(run).timers == []
    ensures Example(cfg, Last(run).store, Pending, u, ttl) && Live(cfg, Last(run).store) && Bare(Last(run).store)
    ensures u <= Last(run).store.version
  {
    u := s0.store.version + 1;
    run := Run([s0], []);
    run := Take(cfg, run, s0, Env(PodsBecome({})), s0.(store := Happen(cfg, s0.store, PodsBecome({}))));
    var e := UserCreate(Spec(framework, false, 0, Some(ttl)), framework, {Finalizer(Inf)}, Pending);
    var s := Last(run);
    run := Take(cfg, run, s0, Env(e), s.(store := Happen(cfg, s.store, e)));
  }

  /** Not reusing names is needed: for every InferenceTask name and TTL there is a run in which a second
      task has the name, and the timer of the first, completed and long gone, marks it while it is
      pending. */
  lemma ReusedNameIsHit(cfg: Config, s0: State, framework: string, ttl: int, spec: Spec) returns (run: Run)
    requires cfg.kind == Inf && Initial(s0) && ttl >= 0
    ensures IsRun(cfg, false, run) && run.states[0] == s0 && !NoReuse(cfg, run)
    ensures |run.labels| > 0 && run.labels[|run.labels|-1] == TimerFires(0)
    ensures var before := run.states[|run.states|-2];
            && |before.timers| == 1 && cfg.name in before.store.tasks
            && before.store.tasks[cfg.name].uid != before.timers[0].uid
            && before.store.tasks[cfg.name].status.phase == Pending && !before.store.tasks[cfg.name].meta.deleting
    ensures cfg.name in Last(run).store.tasks && Last(run).store.tasks[cfg.name].meta.deleting
  {
    var u;
    run, u := Bear(cfg, s0, framework, ttl);
    run := Pend(cfg, run, s0, u, ttl);
    run := Deploy(cfg, run, s0, u, ttl);
    run := Expose(cfg, run, s0, u, ttl);
    run := Complete(cfg, run, s0, u, ttl);
    run := Arm(cfg, run, s0, u, ttl);
    var timer := Timer(u, Last(run).store.now, ttl);
    run := Doom(cfg, run, s0, u, ttl, timer);
    run := Vanish(cfg, run, s0, u, ttl, timer);
    Reachable(cfg, false, run, |run.states| - 1);
    assert Safety.TimerOk(cfg, Last(run).store, Last(run).timers[0]);
    run := Strike(cfg, run, s0, timer, spec);
    ReuseSeen(cfg, run);
  }

  /** A timer that hits another task than its own tells of a reused name. */
  lemma ReuseSeen(cfg: Config, run: Run)
    requires IsRun(cfg, false, run) && Initial(run.states[0]) && |run.states| > 1
    requires run.labels[|run.labels|-1] == TimerFires(0)
    requires var before := run.states[|run.states|-2];
             |before.timers| == 1 && cfg.name in before.store.tasks
             && before.store.tasks[cfg.name].uid != before.timers[0].uid
    ensures !NoReuse(cfg, run)
  {
    var i := |run.states| - 2;
    DeletesOnlyExpired(cfg, false, run, i, 0);
    var timer := run.states[i].timers[0];
    var j :| 0 <= j <= i && Source(cfg, run.states[j], timer);
    assert !SameUid(cfg, run.states[i].store, run.states[j].store);
  }
}
