/** TTL timers: any number may be pending, each deletes by name, and none takes a task that has not
    been completed for its TTL. */
module Timers {
  import opened Cluster
  import opened Machine
  import opened Safety
  import opened Runs

  /** Task copy `t` was the stored task at some state up to `i`. */
  ghost predicate Seen(cfg: Config, run: Run, i: nat, t: Task)
    requires i < |run.states|
  {
    exists j :: 0 <= j <= i && StoredAt(cfg, run.states[j], t)
  }

  predicate StoredAt(cfg: Config, s: State, t: Task) {
    cfg.name in s.store.tasks && s.store.tasks[cfg.name] == t
  }

  /** The copy carried by the steps that can lead to a timer. */
  function Finished(c: Ctl): Option<Task> {
    match c
    case AtEntry(c) => if c.AddFinalizer? then Some(c.t) else None
    case AtEnsure(c) => Some(c.t)
    case AtCreating(c) => Some(c.t)
    case AtRunning(c) => Some(c.t)
    case AtEnd(c) => Some(c.t)
    case _ => None
  }

  lemma ScanCarries(t: Task, replicas: int, pods: seq<Pod>)
    ensures Finished(Scan(t, replicas, pods)) == Some(t)
    ensures Busy(Scan(t, replicas, pods)) && !Scan(t, replicas, pods).AtEval?
  {
  }

  /** A step goes on with the copy it had or with the one the reply brought, and a timer is made from
      one of the two, seen completed. */
  lemma Onward(cfg: Config, c: Ctl, r: Reply, x: Input)
    requires Busy(c)
    ensures var c' := Resume(cfg, c, r, x);
            && (Finished(c').Some? ==>
                  Finished(c') == Finished(c) || (r.TaskIs? && Finished(c').value == r.task && !c.AtRelease?))
            && (c'.Done? && c'.timer.Some? ==>
                  exists t :: (Finished(c) == Some(t) || (r.TaskIs? && r.task == t && !c.AtRelease?))
                         && MadeFrom(c'.timer.value, t, x.now))
  {
    match c
    case AtRunning(c) =>
      if c.RunPods? && r.PodList? { ScanCarries(c.t, c.replicas, r.pods); }
      if c.NotePod? && r.TaskIs? { ScanCarries(r.task, c.replicas, c.rest); }
    case AtEntry(c) => if r.TaskIs? { DoneFrom(cfg, r.task, x); }
    case AtEnsure(c) => DoneFrom(cfg, c.t, x);
    case AtEnd(c) => if r.TaskIs? { DoneFrom(cfg, r.task, x); }
    case _ =>
  }

  predicate MadeFrom(timer: Timer, t: Task, now: int) {
    timer == Timer(t.uid, now, timer.ttl) && t.spec.ttl == Some(timer.ttl) && t.status.phase == Completed
  }

  lemma DoneFrom(cfg: Config, t: Task, x: Input)
    ensures var c := AfterFinished(t, x); c.timer.Some? ==> MadeFrom(c.timer.value, t, x.now)
  {
  }

  /** Where a pending timer came from: some earlier state held the very task, completed, with the
      timer's TTL. */
  ghost predicate Sourced(cfg: Config, run: Run, i: nat, timer: Timer)
    requires i < |run.states|
  {
    && timer.since <= run.states[i].store.now
    && exists j :: 0 <= j <= i && Source(cfg, run.states[j], timer)
  }

  predicate Source(cfg: Config, s: State, timer: Timer) {
    && cfg.name in s.store.tasks && s.store.now <= timer.since
    && var t := s.store.tasks[cfg.name];
    && t.uid == timer.uid && t.status.phase == Completed && t.spec.ttl == Some(timer.ttl)
  }

  lemma WriteStored(s: Store, op: Op, s': Store, r: Reply, name: string)
    requires Serves(s, op, s', r) && r.TaskIs?
    requires op == GetTask(name) || (op.UpdateTaskStatus? && op.name == name)
          || (op.UpdateTask? && op.name == name && op.task.meta.finalizers != {})
    ensures name in s'.tasks && s'.tasks[name] == r.task
  {
  }

  /** Of the writes to the task itself only the one that adds the finalizer leads on to a timer. */
  lemma LeadsOn(cfg: Config, c: Ctl, r: Reply, x: Input)
    requires Busy(c) && !c.AtRelease? && r.TaskIs? && Request(cfg, c).UpdateTask?
    requires var c' := Resume(cfg, c, r, x); Finished(c').Some? || (c'.Done? && c'.timer.Some?)
    ensures Request(cfg, c).task.meta.finalizers != {}
  {
  }

  lemma TaskReplies(cfg: Config, c: Ctl, s: Store, s': Store, r: Reply)
    requires Busy(c) && r.TaskIs? && Serves(s, Request(cfg, c), s', r)
    ensures var op := Request(cfg, c);
            op == GetTask(cfg.name) || ((op.UpdateTaskStatus? || op.UpdateTask?) && op.name == cfg.name)
  {
  }

  lemma ReplyStored(cfg: Config, edits: bool, s: State, r: Reply, x: Input, s': State)
    requires Step(cfg, edits, s, Call(r, x), s') && r.TaskIs? && !s.ctl.AtRelease?
    requires Finished(s'.ctl).Some? || (s'.ctl.Done? && s'.ctl.timer.Some?)
    ensures StoredAt(cfg, s', r.task)
  {
    TaskReplies(cfg, s.ctl, s.store, s'.store, r);
    if Request(cfg, s.ctl).UpdateTask? { LeadsOn(cfg, s.ctl, r, x); }
    WriteStored(s.store, Request(cfg, s.ctl), s'.store, r, cfg.name);
  }

  lemma SeenLater(cfg: Config, run: Run, i: nat, t: Task)
    requires 0 < i < |run.states| && Seen(cfg, run, i - 1, t)
    ensures Seen(cfg, run, i, t)
  {
    var j :| 0 <= j <= i - 1 && StoredAt(cfg, run.states[j], t);
    assert StoredAt(cfg, run.states[j], t);
  }

  lemma SourcedLater(cfg: Config, edits: bool, run: Run, i: nat, timer: Timer)
    requires IsRun(cfg, edits, run) && Initial(run.states[0]) && 0 < i < |run.states| && Sourced(cfg, run, i - 1, timer)
    ensures Sourced(cfg, run, i, timer)
  {
    History(cfg, edits, run, i - 1, i);
    var j :| 0 <= j <= i - 1 && Source(cfg, run.states[j], timer);
    assert Source(cfg, run.states[j], timer);
  }

  lemma SeenMakes(cfg: Config, edits: bool, run: Run, i: nat, t: Task, timer: Timer)
    requires IsRun(cfg, edits, run) && Initial(run.states[0]) && i < |run.states|
    requires Seen(cfg, run, i, t) && MadeFrom(timer, t, run.states[i].store.now)
    ensures Sourced(cfg, run, i, timer)
  {
    var j :| 0 <= j <= i && StoredAt(cfg, run.states[j], t);
    History(cfg, edits, run, j, i);
    assert Source(cfg, run.states[j], timer);
  }

  lemma CallSources(cfg: Config, edits: bool, run: Run, i: nat)
    requires IsRun(cfg, edits, run) && Initial(run.states[0]) && 0 < i < |run.states| && run.labels[i-1].Call?
    requires Finished(run.states[i-1].ctl).Some? ==> Seen(cfg, run, i - 1, Finished(run.states[i-1].ctl).value)
    ensures Finished(run.states[i].ctl).Some? ==> Seen(cfg, run, i, Finished(run.states[i].ctl).value)
    ensures run.states[i].ctl.Done? && run.states[i].ctl.timer.Some? ==>
              Sourced(cfg, run, i, run.states[i].ctl.timer.value)
  {
    var s, s' := run.states[i-1], run.states[i];
    assert StepAt(cfg, edits, run, i - 1);
    var Call(r, x) := run.labels[i-1];
    Onward(cfg, s.ctl, r, x);
    Reachable(cfg, edits, run, i - 1);
    if Finished(s.ctl).Some? { SeenLater(cfg, run, i, Finished(s.ctl).value); }
    if Finished(s'.ctl).Some? || (s'.ctl.Done? && s'.ctl.timer.Some?) {
      if r.TaskIs? && !s.ctl.AtRelease? {
        ReplyStored(cfg, edits, s, r, x, s');
        assert StoredAt(cfg, run.states[i], r.task);
        assert Seen(cfg, run, i, r.task);
      }
      if s'.ctl.Done? {
        var t :| (Finished(s.ctl) == Some(t) || (r.TaskIs? && r.task == t && !s.ctl.AtRelease?))
                 && MadeFrom(s'.ctl.timer.value, t, x.now);
        CallKeepsClock(cfg, edits, s, r, x, s');
        SeenMakes(cfg, edits, run, i, t, s'.ctl.timer.value);
      }
    }
  }

  lemma CallKeepsClock(cfg: Config, edits: bool, s: State, r: Reply, x: Input, s': State)
    requires CallStep(cfg, s, r, x, s')
    ensures s'.store.now == x.now
  {
  }

  lemma {:induction false} TimersSourced(cfg: Config, edits: bool, run: Run, i: nat)
    requires IsRun(cfg, edits, run) && Initial(run.states[0]) && i < |run.states|
    ensures Finished(run.states[i].ctl).Some? ==> Seen(cfg, run, i, Finished(run.states[i].ctl).value)
    ensures run.states[i].ctl.Done? && run.states[i].ctl.timer.Some? ==>
              Sourced(cfg, run, i, run.states[i].ctl.timer.value)
    ensures forall k :: 0 <= k < |run.states[i].timers| ==> Sourced(cfg, run, i, run.states[i].timers[k])
  {
    if i > 0 {
      TimersSourced(cfg, edits, run, i - 1);
      var s, s' := run.states[i-1], run.states[i];
      assert StepAt(cfg, edits, run, i - 1);
      forall k | 0 <= k < |s.timers| ensures Sourced(cfg, run, i, s.timers[k]) {
        SourcedLater(cfg, edits, run, i, s.timers[k]);
      }
      match run.labels[i-1] {
        case Call(_, _) => CallSources(cfg, edits, run, i);
        case Begin =>
        case Crash =>
        case Return => if s.ctl.timer.Some? { SourcedLater(cfg, edits, run, i, s.ctl.timer.value); }
        case _ =>
          if Finished(s.ctl).Some? { SeenLater(cfg, run, i, Finished(s.ctl).value); }
          if s.ctl.Done? && s.ctl.timer.Some? { SourcedLater(cfg, edits, run, i, s.ctl.timer.value); }
      }
    }
  }

  /** Every TTL deletion comes at least the TTL after a state in which the timer's task was stored,
      completed, with that TTL; and if that task is still the stored one, it is still completed. */
  lemma DeletesOnlyExpired(cfg: Config, edits: bool, run: Run, i: nat, k: nat)
    requires IsRun(cfg, edits, run) && Initial(run.states[0]) && i < |run.labels| && run.labels[i] == TimerFires(k)
    ensures k < |run.states[i].timers|
    ensures var timer := run.states[i].timers[k];
            && (exists j :: 0 <= j <= i && Source(cfg, run.states[j], timer)
                            && run.states[i].store.now >= run.states[j].store.now + timer.ttl)
            && (cfg.name in run.states[i].store.tasks && run.states[i].store.tasks[cfg.name].uid == timer.uid ==>
                  run.states[i].store.tasks[cfg.name].status.phase == Completed)
  {
    TimersSourced(cfg, edits, run, i);
    Reachable(cfg, edits, run, i);
    assert StepAt(cfg, edits, run, i);
    var timer := run.states[i].timers[k];
    var j :| 0 <= j <= i && Source(cfg, run.states[j], timer);
  }

  predicate SameUid(cfg: Config, s: Store, s': Store) {
    cfg.name in s.tasks && cfg.name in s'.tasks ==> s.tasks[cfg.name].uid == s'.tasks[cfg.name].uid
  }

  /** The name is never given to a second task. */
  ghost predicate NoReuse(cfg: Config, run: Run) {
    forall i, j | 0 <= i < |run.states| && 0 <= j < |run.states| ::
      SameUid(cfg, run.states[i].store, run.states[j].store)
  }

  /** Without name reuse a TTL deletion finds the task completed, or gone: never failed, never live. */
  lemma NeverDeletesUnfinished(cfg: Config, edits: bool, run: Run, i: nat, k: nat)
    requires IsRun(cfg, edits, run) && Initial(run.states[0]) && i < |run.labels| && run.labels[i] == TimerFires(k)
    requires NoReuse(cfg, run)
    ensures cfg.name in run.states[i].store.tasks ==> run.states[i].store.tasks[cfg.name].status.phase == Completed
  {
    DeletesOnlyExpired(cfg, edits, run, i, k);
    var timer := run.states[i].timers[k];
    var j :| 0 <= j <= i && Source(cfg, run.states[j], timer);
    assert SameUid(cfg, run.states[i].store, run.states[j].store);
  }

  /** The task a TTL deletion hits is the one the timer was started for if and only if it has its uid, and
      if it is another one it was created after the timer's source was seen; whichever it is, it goes or
      is marked. */
  lemma HitsByName(cfg: Config, edits: bool, run: Run, i: nat, k: nat)
    requires IsRun(cfg, edits, run) && Initial(run.states[0]) && i < |run.labels| && run.labels[i] == TimerFires(k)
    requires cfg.name in run.states[i].store.tasks
    ensures k < |run.states[i].timers|
    ensures var timer, s := run.states[i].timers[k], run.states[i].store;
            exists j :: 0 <= j <= i && Source(cfg, run.states[j], timer)
              && (s.tasks[cfg.name].uid == timer.uid <==> s.tasks[cfg.name].uid <= run.states[j].store.version)
    ensures var s' := run.states[i+1].store;
            cfg.name !in s'.tasks || s'.tasks[cfg.name].meta.deleting
  {
    TimersSourced(cfg, edits, run, i);
    assert StepAt(cfg, edits, run, i);
    var timer := run.states[i].timers[k];
    var j :| 0 <= j <= i && Source(cfg, run.states[j], timer);
    Reachable(cfg, edits, run, j);
    History(cfg, edits, run, j, i);
  }
}
