/** The theorems about every run: any interleaving of a reconciler's API calls with users, other
    controllers, lost replies, crashes and TTL timers. */
module Runs {
  import opened Cluster
  import opened Machine
  import opened Safety

  lemma UnrouteKept(cfg: Config, edits: bool, a: Store, c: UnroutePc, b: Store, r: Reply)
    requires StoreOk(cfg, edits, a) && KnowsUnroute(cfg, edits, a, c) && Serves(a, RequestUnroute(cfg, c), b, r)
    requires c.DropRouteLookup? || c.ListOwn? ==> !r.Fault?
    ensures Kept(cfg, edits, a, b, ResumeUnroute(cfg, c, r))
  {
    if c.DropRouteLookup? || c.StripRoute? || c.DropRoute? { NamedRouteKept(cfg, edits, a, c, b, r); }
    else { ListedRouteKept(cfg, edits, a, c, b, r); }
  }

  lemma CallKept(cfg: Config, edits: bool, s: State, r: Reply, x: Input, s': State)
    requires Inv(cfg, edits, s) && Step(cfg, edits, s, Call(r, x), s')
    ensures Kept(cfg, edits, s.store, s'.store, s'.ctl)
  {
    match s.ctl
    case AtEntry(c) => EntryKept(cfg, edits, s.store, c, s'.store, r, x);
    case AtPending(c) => PendingKept(cfg, edits, s.store, c, s'.store, r, x);
    case AtCreating(c) => CreatingKept(cfg, edits, s.store, c, s'.store, r, x);
    case AtEnsure(c) => EnsureKept(cfg, edits, s.store, c, s'.store, r, x);
    case AtRunning(c) => RunningKept(cfg, edits, s.store, c, s'.store, r, x);
    case AtEnd(c) => EndKept(cfg, edits, s.store, c, s'.store, r, x);
    case AtDrop(c) => DropKept(cfg, edits, s.store, c, s'.store, r);
    case AtUnroute(c) => UnrouteKept(cfg, edits, s.store, c, s'.store, r);
    case AtRelease(c) => ReleaseKept(cfg, edits, s.store, c, s'.store, r);
    case AtEval(c) => EvalKept(cfg, edits, s.store, c, s'.store, r, x);
  }

  lemma RelyEvolves(cfg: Config, edits: bool, s: Store, s': Store)
    requires StoreOk(cfg, edits, s) && Rely(cfg, edits, s, s')
    ensures Evolves(cfg, s, s')
  {
  }

  lemma EvolvesKeepsTimer(cfg: Config, edits: bool, s: Store, s': Store, timer: Timer)
    requires StoreOk(cfg, edits, s) && Evolves(cfg, s, s') && TimerOk(cfg, s, timer)
    ensures TimerOk(cfg, s', timer)
  {
  }

  lemma TimersKept(cfg: Config, edits: bool, s: State, s': Store)
    requires Inv(cfg, edits, s) && Evolves(cfg, s.store, s')
    ensures forall i :: 0 <= i < |s.timers| ==> TimerOk(cfg, s', s.timers[i])
  {
    forall i | 0 <= i < |s.timers| ensures TimerOk(cfg, s', s.timers[i]) {
      EvolvesKeepsTimer(cfg, edits, s.store, s', s.timers[i]);
    }
  }

  /** Every step keeps the invariant, and the task's status only progresses. */
  lemma StepKept(cfg: Config, edits: bool, s: State, l: Label, s': State)
    requires Inv(cfg, edits, s) && Step(cfg, edits, s, l, s')
    ensures Inv(cfg, edits, s') && Evolves(cfg, s.store, s'.store)
  {
    match l
    case Begin =>
    case Return =>
    case Crash =>
    case Call(r, x) =>
      CallKept(cfg, edits, s, r, x, s');
      TimersKept(cfg, edits, s, s'.store);
    case TimerFires(i) =>
      DeleteTaskRelies(cfg, edits, s.store);
      RelyKeepsKnows(cfg, edits, s.store, s'.store, s.ctl);
      RelyEvolves(cfg, edits, s.store, s'.store);
      TimersKept(cfg, edits, s, s'.store);
    case Env(e) =>
      EnvRelies(cfg, edits, s.store, e);
      RelyKeepsKnows(cfg, edits, s.store, s'.store, s.ctl);
      RelyEvolves(cfg, edits, s.store, s'.store);
      TimersKept(cfg, edits, s, s'.store);
  }

  lemma {:induction false} Reachable(cfg: Config, edits: bool, run: Run, i: nat)
    requires IsRun(cfg, edits, run) && Initial(run.states[0]) && i < |run.states|
    ensures Inv(cfg, edits, run.states[i])
  {
    if i > 0 {
      Reachable(cfg, edits, run, i - 1);
      assert StepAt(cfg, edits, run, i - 1);
      StepKept(cfg, edits, run.states[i-1], run.labels[i-1], run.states[i]);
    }
  }

  /** Finalizer guard, frameworks fixed: while any child exists the task is stored with the
      operator's finalizer, and every child has the one name cleanup looks for. */
  lemma FinalizerGuard(cfg: Config, run: Run, i: nat, key: Key)
    requires IsRun(cfg, false, run) && Initial(run.states[0]) && i < |run.states|
    requires key in run.states[i].store.children
    ensures Held(cfg, run.states[i].store)
    ensures key.name == cfg.childName(run.states[i].store.tasks[cfg.name].spec.framework)
  {
    Reachable(cfg, false, run, i);
    assert Guarded(cfg, false, key);
  }

  /** So when the task is gone, nothing of it is left. */
  lemma NoOrphans(cfg: Config, run: Run, i: nat)
    requires IsRun(cfg, false, run) && Initial(run.states[0]) && i < |run.states|
    requires cfg.name !in run.states[i].store.tasks
    ensures run.states[i].store.children == map[]
  {
    forall key | key in run.states[i].store.children ensures false {
      FinalizerGuard(cfg, run, i, key);
    }
  }

  /** For the routes of a DevTask the guard holds even when users change its framework, and with it
      the name its children get. */
  lemma RouteGuard(cfg: Config, run: Run, i: nat, key: Key)
    requires IsRun(cfg, true, run) && Initial(run.states[0]) && i < |run.states| && cfg.kind == Dev
    requires key in run.states[i].store.children && key.resource == Routes
    ensures Held(cfg, run.states[i].store) && run.states[i].store.children[key].owner == cfg.name
  {
    Reachable(cfg, true, run, i);
    assert Guarded(cfg, true, key);
  }

  /** How a status is related to a later one of the same task. */
  predicate Later(st: Status, st': Status) {
    && (st.start.Some? ==> st'.start == st.start)
    && (st.end.Some? ==> st'.end == st.end)
    && (IsTerminal(st.phase) ==> st'.phase == st.phase)
    && (!IsPending(st.phase) ==> !IsPending(st'.phase))
  }

  /** A task stored now that is as old as an earlier state was stored then, and its status is a
      later one: terminal phases absorb, and start and end times are written once. */
  lemma {:induction false} History(cfg: Config, edits: bool, run: Run, i: nat, j: nat)
    requires IsRun(cfg, edits, run) && Initial(run.states[0]) && i <= j < |run.states|
    ensures run.states[i].store.version <= run.states[j].store.version
    ensures run.states[i].store.now <= run.states[j].store.now
    ensures var s, s' := run.states[i].store, run.states[j].store;
            cfg.name in s'.tasks && s'.tasks[cfg.name].uid <= s.version ==>
              cfg.name in s.tasks && s.tasks[cfg.name].uid == s'.tasks[cfg.name].uid
              && Later(s.tasks[cfg.name].status, s'.tasks[cfg.name].status)
    decreases j - i
  {
    if i < j {
      History(cfg, edits, run, i, j - 1);
      Reachable(cfg, edits, run, j - 1);
      assert StepAt(cfg, edits, run, j - 1);
      StepKept(cfg, edits, run.states[j-1], run.labels[j-1], run.states[j]);
    }
  }

  function Rank(p: Phase): nat {
    match p
    case Unset => 0
    case Pending => 0
    case Creating => 1
    case Running => 2
    case _ => 3
  }

  /** The only step back is from running to creating, and an EvalTask never takes it. */
  lemma PhasesAdvance(cfg: Config, edits: bool, run: Run, i: nat)
    requires IsRun(cfg, edits, run) && Initial(run.states[0]) && i + 1 < |run.states|
    requires var s, s' := run.states[i].store, run.states[i+1].store;
             cfg.name in s.tasks && cfg.name in s'.tasks && s.tasks[cfg.name].uid == s'.tasks[cfg.name].uid
    ensures var p, p' := run.states[i].store.tasks[cfg.name].status.phase,
                         run.states[i+1].store.tasks[cfg.name].status.phase;
            Rank(p') >= Rank(p) || (p == Running && p' == Creating && cfg.kind != Eval)
  {
    Reachable(cfg, edits, run, i);
    assert StepAt(cfg, edits, run, i);
    StepKept(cfg, edits, run.states[i], run.labels[i], run.states[i+1]);
  }

  /** The start time is present exactly outside pending, the end time only in a terminal phase, and
      start, end and clock are in order. */
  lemma TimesInOrder(cfg: Config, edits: bool, run: Run, i: nat)
    requires IsRun(cfg, edits, run) && Initial(run.states[0]) && i < |run.states|
    requires cfg.name in run.states[i].store.tasks
    ensures var st, now := run.states[i].store.tasks[cfg.name].status, run.states[i].store.now;
            && (st.start.Some? <==> !IsPending(st.phase))
            && (st.start.Some? ==> st.start.value <= now)
            && (st.end.Some? ==> IsTerminal(st.phase) && st.start.value <= st.end.value <= now)
  {
    Reachable(cfg, edits, run, i);
  }

  /** When cleanup of a DevTask gets as far as releasing the task, no route of it is left, whatever
      its framework was when the route was made. */
  lemma RoutesGone(cfg: Config, run: Run, i: nat, key: Key)
    requires IsRun(cfg, true, run) && Initial(run.states[0]) && i < |run.states| && cfg.kind == Dev
    requires run.states[i].ctl.AtRelease? && run.states[i].ctl.release.Release?
    ensures key in run.states[i].store.children ==> key.resource != Routes
  {
    Reachable(cfg, true, run, i);
    assert key.resource == Routes ==> Guarded(cfg, true, key);
  }

  /** Cleanup asks for the deletion of a route only once the route has no finalizer left, so the
      deletion takes effect at once. */
  lemma StrippedBeforeDeleted(cfg: Config, run: Run, i: nat, key: Key)
    requires IsRun(cfg, true, run) && Initial(run.states[0]) && i < |run.states|
    requires run.states[i].ctl.AtUnroute? && Request(cfg, run.states[i].ctl) == DeleteChild(key)
    ensures key in run.states[i].store.children ==> run.states[i].store.children[key].meta.finalizers == {}
  {
    Reachable(cfg, true, run, i);
  }
}
