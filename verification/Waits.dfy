/** The SDK's wait loops, reading from a run of the cluster. */
module Waits {
  import opened Cluster
  import opened Machine
  import opened Safety
  import opened Runs
  import opened Timers

  /** What a loop waits for. */
  datatype Goal = Reaches(phase: Phase) | Ends | Goes

  datatype WaitError = NoError | TimedOut | Missing | Broken | TaskFailed

  predicate Met(goal: Goal, r: Reply) {
    match goal
    case Reaches(p) => r.TaskIs? && r.task.status.phase == p
    case Ends => r.TaskIs? && IsTerminal(r.task.status.phase)
    case Goes => r.NotFound?
  }

  /** One poll: the state it was answered in, and the answer. */
  datatype Poll = Poll(at: nat, reply: Reply)

  /** What a loop returns, given its polls: the first decisive answer decides, and the deadline comes
      after the last. */
  function Verdict(goal: Goal, polls: seq<Poll>): WaitError {
    if polls == [] then TimedOut
    else if Met(goal, polls[0].reply) then NoError
    else if polls[0].reply.Fault? then Broken
    else Verdict(goal, polls[1..])
  }

  predicate Undecided(goal: Goal, polls: seq<Poll>) {
    forall k :: 0 <= k < |polls| ==> !Met(goal, polls[k].reply) && !polls[k].reply.Fault?
  }

  lemma {:induction false} VerdictIsLast(goal: Goal, polls: seq<Poll>, p: Poll)
    requires Undecided(goal, polls)
    ensures Verdict(goal, polls) == TimedOut
    ensures Verdict(goal, polls + [p])
            == if Met(goal, p.reply) then NoError else if p.reply.Fault? then Broken else TimedOut
  {
    if polls != [] {
      assert (polls + [p])[1..] == polls[1..] + [p];
      VerdictIsLast(goal, polls[1..], p);
    }
  }

  predicate Unbroken(polls: seq<Poll>, k: int)
    requires k <= |polls|
  {
    forall j :: 0 <= j < k ==> !polls[j].reply.Fault?
  }

  /** A loop returns without an error if and only if some poll met the goal before any poll failed. */
  lemma {:induction false} NoErrorMeansMet(goal: Goal, polls: seq<Poll>)
    ensures Verdict(goal, polls) == NoError <==>
            exists k :: 0 <= k < |polls| && Met(goal, polls[k].reply) && Unbroken(polls, k)
  {
    if polls != [] && !Met(goal, polls[0].reply) {
      NoErrorMeansMet(goal, polls[1..]);
      if Verdict(goal, polls) == NoError {
        var k :| 0 <= k < |polls[1..]| && Met(goal, polls[1..][k].reply) && Unbroken(polls[1..], k);
        forall j | 0 <= j < k + 1 ensures !polls[j].reply.Fault? {
          assert j > 0 ==> polls[j] == polls[1..][j-1];
        }
        assert Met(goal, polls[k+1].reply) && Unbroken(polls, k + 1);
      }
      if k :| 0 <= k < |polls| && Met(goal, polls[k].reply) && Unbroken(polls, k) {
        assert Met(goal, polls[1..][k-1].reply) && Unbroken(polls[1..], k - 1);
      }
    }
  }

  predicate Unmet(goal: Goal, polls: seq<Poll>, k: int)
    requires k <= |polls|
  {
    forall j :: 0 <= j < k ==> !Met(goal, polls[j].reply)
  }

  /** And with a broken read if and only if some poll failed before any met the goal; otherwise, that is when
      no poll met the goal or failed, at the deadline. */
  lemma {:induction false} BrokenMeansFailed(goal: Goal, polls: seq<Poll>)
    ensures Verdict(goal, polls) == Broken <==>
            exists k :: 0 <= k < |polls| && polls[k].reply.Fault? && Unmet(goal, polls, k)
    ensures Verdict(goal, polls) == TimedOut <==> Undecided(goal, polls)
  {
    if polls != [] && !Met(goal, polls[0].reply) && !polls[0].reply.Fault? {
      BrokenMeansFailed(goal, polls[1..]);
      if Verdict(goal, polls) == Broken {
        var k :| 0 <= k < |polls[1..]| && polls[1..][k].reply.Fault? && Unmet(goal, polls[1..], k);
        forall j | 0 <= j < k + 1 ensures !Met(goal, polls[j].reply) {
          assert j > 0 ==> polls[j] == polls[1..][j-1];
        }
        assert polls[k+1].reply.Fault? && Unmet(goal, polls, k + 1);
      }
      if k :| 0 <= k < |polls| && polls[k].reply.Fault? && Unmet(goal, polls, k) {
        assert polls[1..][k-1].reply.Fault? && Unmet(goal, polls[1..], k - 1);
      }
      if Undecided(goal, polls[1..]) {
        forall j | 0 <= j < |polls| ensures !Met(goal, polls[j].reply) && !polls[j].reply.Fault? {
          assert j > 0 ==> polls[j] == polls[1..][j-1];
        }
      }
    } else if polls != [] && polls[0].reply.Fault? {
      assert Unmet(goal, polls, 0);
    }
  }

  lemma {:induction false} LoopErrors(goal: Goal, polls: seq<Poll>)
    ensures Verdict(goal, polls) in {NoError, TimedOut, Broken}
  {
    if polls != [] { LoopErrors(goal, polls[1..]); }
  }

  /** A read of the task, answered truthfully at state `i` or failed. */
  ghost predicate ReadAt(cfg: Config, run: Run, i: nat, r: Reply)
    requires i < |run.states|
  {
    r == Fault || Served(run.states[i].store, r) == Apply(run.states[i].store, GetTask(cfg.name))
  }

  /** The polls were answered one after the other, at states from `from` on, the last at `last`. */
  ghost predicate Polled(cfg: Config, run: Run, from: nat, last: nat, polls: seq<Poll>)
    requires last < |run.states|
  {
    && from <= last
    && (polls != [] ==> polls[|polls|-1].at == last)
    && (forall k :: 0 <= k < |polls| ==> from <= polls[k].at <= last && ReadAt(cfg, run, polls[k].at, polls[k].reply))
    && (forall j, k :: 0 <= j < k < |polls| ==> polls[j].at <= polls[k].at)
  }

  lemma PollAdded(cfg: Config, run: Run, from: nat, last: nat, goal: Goal, polls: seq<Poll>, p: Poll)
    requires last < |run.states| && Polled(cfg, run, from, last, polls) && Undecided(goal, polls)
    requires last <= p.at < |run.states| && ReadAt(cfg, run, p.at, p.reply)
    ensures Polled(cfg, run, from, p.at, polls + [p])
    ensures Verdict(goal, polls + [p])
            == if Met(goal, p.reply) then NoError else if p.reply.Fault? then Broken else TimedOut
    ensures Verdict(goal, polls + [p]) == TimedOut ==> Undecided(goal, polls + [p])
  {
    VerdictIsLast(goal, polls, p);
  }

  /** The task a read brought. */
  function TaskIn(r: Reply): Option<Task> { if r.TaskIs? then Some(r.task) else None }

  /** The SDK client of one task.  `at` is the state the last read was answered in; time only goes on. */
  class TaskClient {
    const cfg: Config
    const edits: bool
    const run: Run
    var at: nat

    ghost predicate Valid()
      reads this
    {
      IsRun(cfg, edits, run) && Initial(run.states[0]) && at < |run.states|
    }

    constructor (cfg: Config, edits: bool, run: Run)
      requires IsRun(cfg, edits, run) && Initial(run.states[0])
      ensures Valid() && this.cfg == cfg && this.edits == edits && this.run == run && at == 0
    {
      this.cfg, this.edits, this.run, at := cfg, edits, run, 0;
    }

    method Get() returns (r: Reply)
      requires Valid()
      modifies this
      ensures Valid() && old(at) <= at && ReadAt(cfg, run, at, r)
      ensures r.TaskIs? || r.NotFound? || r.Fault?
    {
      var next: int := *;
      if at <= next < |run.states| { at := next; }
      var fault: bool := *;
      r := if fault then Fault else Apply(run.states[at].store, GetTask(cfg.name)).reply;
    }

    method GetPhase() returns (phase: Phase, err: WaitError, ghost r: Reply)
      requires Valid()
      modifies this
      ensures Valid() && old(at) <= at && ReadAt(cfg, run, at, r)
      ensures err == NoError <==> r.TaskIs?
      ensures err == NoError ==> phase == r.task.status.phase
      ensures err == if r.TaskIs? then NoError else if r.NotFound? then Missing else Broken
    {
      var reply := Get();
      r := reply;
      if reply.NotFound? { return Unset, Missing, r; }
      if !reply.TaskIs? { return Unset, Broken, r; }
      return reply.task.status.phase, NoError, r;
    }

    method Exists() returns (there: bool, err: WaitError, ghost r: Reply)
      requires Valid()
      modifies this
      ensures Valid() && old(at) <= at && ReadAt(cfg, run, at, r)
      ensures err == (if r.Fault? then Broken else NoError) && (there <==> r.TaskIs?)
      ensures r.TaskIs? || r.NotFound? || r.Fault?
    {
      var reply := Get();
      r := reply;
      if reply.NotFound? { return false, NoError, r; }
      if !reply.TaskIs? { return false, Broken, r; }
      return true, NoError, r;
    }

    /** The loop ends with the first decisive poll or at the deadline, which comes after any number
        of polls; a task that is not there yet is waited for. */
    method WaitForPhase(target: Phase) returns (err: WaitError, ghost polls: seq<Poll>)
      requires Valid()
      modifies this
      ensures Valid() && Polled(cfg, run, old(at), at, polls)
      ensures err == Verdict(Reaches(target), polls)
      ensures err == NoError ==>
                cfg.name in run.states[at].store.tasks && run.states[at].store.tasks[cfg.name].status.phase == target
    {
      polls := [];
      var ticks: nat := *;
      while ticks > 0
        invariant Valid() && Polled(cfg, run, old(at), at, polls) && Undecided(Reaches(target), polls)
      {
        ghost var last := at;
        var phase, e, r := GetPhase();
        PollAdded(cfg, run, old(at), last, Reaches(target), polls, Poll(at, r));
        polls := polls + [Poll(at, r)];
        if e == Missing {
        } else if e != NoError {
          return e, polls;
        } else if phase == target {
          return NoError, polls;
        }
        ticks := ticks - 1;
      }
      VerdictIsLast(Reaches(target), polls, Poll(at, NotFound));
      err := TimedOut;
    }

    method WaitForTerminal() returns (err: WaitError, ghost polls: seq<Poll>)
      requires Valid()
      modifies this
      ensures Valid() && Polled(cfg, run, old(at), at, polls)
      ensures err == Verdict(Ends, polls)
      ensures err == NoError ==>
                cfg.name in run.states[at].store.tasks && IsTerminal(run.states[at].store.tasks[cfg.name].status.phase)
    {
      polls := [];
      var ticks: nat := *;
      while ticks > 0
        invariant Valid() && Polled(cfg, run, old(at), at, polls) && Undecided(Ends, polls)
      {
        ghost var last := at;
        var phase, e, r := GetPhase();
        PollAdded(cfg, run, old(at), last, Ends, polls, Poll(at, r));
        polls := polls + [Poll(at, r)];
        if e == Missing {
        } else if e != NoError {
          return e, polls;
        } else if phase == Completed || phase == Failed {
          return NoError, polls;
        }
        ticks := ticks - 1;
      }
      VerdictIsLast(Ends, polls, Poll(at, NotFound));
      err := TimedOut;
    }

    method WaitForGone() returns (err: WaitError, ghost polls: seq<Poll>)
      requires Valid()
      modifies this
      ensures Valid() && Polled(cfg, run, old(at), at, polls)
      ensures err == Verdict(Goes, polls)
      ensures err == NoError ==> cfg.name !in run.states[at].store.tasks
    {
      polls := [];
      var ticks: nat := *;
      while ticks > 0
        invariant Valid() && Polled(cfg, run, old(at), at, polls) && Undecided(Goes, polls)
      {
        ghost var last := at;
        var there, e, r := Exists();
        PollAdded(cfg, run, old(at), last, Goes, polls, Poll(at, r));
        polls := polls + [Poll(at, r)];
        if e != NoError {
          return e, polls;
        }
        if !there {
          return NoError, polls;
        }
        ticks := ticks - 1;
      }
      VerdictIsLast(Goes, polls, Poll(at, NotFound));
      err := TimedOut;
    }

    /** The wait tells what its first read, its polls and its last read say: a first read that finds the task
        running or failed is told at once; else the loop's verdict, or without an error the last read.
        Without name reuse, a wait that returns no error returns the task running, or a task that was
        running when the loop looked and has gone on since. */
    method WaitForRunning()
      returns (task: Option<Task>, err: WaitError, ghost first: Reply, ghost polls: seq<Poll>, ghost last: Reply)
      requires Valid() && NoReuse(cfg, run)
      modifies this
      ensures Valid() && old(at) <= at
      ensures exists i :: old(at) <= i <= at && ReadAt(cfg, run, i, first)
      ensures first.NotFound? ==> err == Missing && task == None
      ensures first.Fault? ==> err == Broken && task == None
      ensures first.TaskIs? || first.NotFound? || first.Fault?
      ensures first.TaskIs? && first.task.status.phase == Running ==> err == NoError && task == Some(first.task)
      ensures first.TaskIs? && first.task.status.phase == Failed ==> err == TaskFailed && task == Some(first.task)
      ensures first.TaskIs? && first.task.status.phase !in {Running, Failed} ==>
                && (exists i, j :: old(at) <= i <= j <= at && Polled(cfg, run, i, j, polls))
                && ReadAt(cfg, run, at, last) && task == TaskIn(last)
                && var v := Verdict(Reaches(Running), polls);
                   err == if v != NoError then v
                          else if last.TaskIs? then NoError else if last.NotFound? then Missing else Broken
      ensures err == NoError ==>
                task.Some? && StoredAt(cfg, run.states[at], task.value) && !IsPending(task.value.status.phase)
      ensures err == NoError ==> exists i :: old(at) <= i <= at && cfg.name in run.states[i].store.tasks
                                             && run.states[i].store.tasks[cfg.name].status.phase == Running
    {
      polls, last := [], Fault;
      var r := Get();
      first := r;
      if r.NotFound? { return None, Missing, first, polls, last; }
      if !r.TaskIs? { return None, Broken, first, polls, last; }
      if r.task.status.phase == Running { return Some(r.task), NoError, first, polls, last; }
      if r.task.status.phase == Failed { return Some(r.task), TaskFailed, first, polls, last; }
      ghost var begun := at;
      var e;
      e, polls := WaitForPhase(Running);
      LoopErrors(Reaches(Running), polls);
      ghost var seen := at;
      r := Get();
      last := r;
      assert Polled(cfg, run, begun, seen, polls);
      if e != NoError { return if r.TaskIs? then Some(r.task) else None, e, first, polls, last; }
      if r.NotFound? { return None, Missing, first, polls, last; }
      if !r.TaskIs? { return None, Broken, first, polls, last; }
      Onwards(cfg, edits, run, seen, at);
      return Some(r.task), NoError, first, polls, last;
    }

    /** The loop's verdict is told, or without an error what the last read says.  Without name reuse a wait
        that returns no error returns the task in a terminal phase. */
    method WaitForCompleted() returns (task: Option<Task>, err: WaitError, ghost polls: seq<Poll>, ghost last: Reply)
      requires Valid() && NoReuse(cfg, run)
      modifies this
      ensures Valid() && exists i :: old(at) <= i <= at && Polled(cfg, run, old(at), i, polls)
      ensures ReadAt(cfg, run, at, last) && task == TaskIn(last)
      ensures var v := Verdict(Ends, polls);
              err == if v != NoError then v
                     else if last.TaskIs? then NoError else if last.NotFound? then Missing else Broken
      ensures err == NoError ==>
                task.Some? && StoredAt(cfg, run.states[at], task.value) && IsTerminal(task.value.status.phase)
      ensures err == Missing ==> cfg.name !in run.states[at].store.tasks
    {
      var e;
      ghost var begun := at;
      e, polls := WaitForTerminal();
      ghost var seen := at;
      var r := Get();
      last := r;
      assert Polled(cfg, run, begun, seen, polls);
      LoopErrors(Ends, polls);
      if e != NoError { return if r.TaskIs? then Some(r.task) else None, e, polls, last; }
      if r.NotFound? { return None, Missing, polls, last; }
      if !r.TaskIs? { return None, Broken, polls, last; }
      Onwards(cfg, edits, run, seen, at);
      return Some(r.task), NoError, polls, last;
    }

    /** End to end, frameworks fixed: when a wait for deletion returns no error the task and all its
        children are gone; without name reuse they stay gone if the task was there before. */
    method WaitForDeletion() returns (err: WaitError, ghost polls: seq<Poll>)
      requires Valid() && !edits && NoReuse(cfg, run)
      modifies this
      ensures Valid() && Polled(cfg, run, old(at), at, polls) && err == Verdict(Goes, polls)
      ensures err == NoError ==> cfg.name !in run.states[at].store.tasks && run.states[at].store.children == map[]
      ensures err == NoError && cfg.name in run.states[old(at)].store.tasks ==>
                forall k :: at <= k < |run.states| ==>
                  cfg.name !in run.states[k].store.tasks && run.states[k].store.children == map[]
    {
      err, polls := WaitForGone();
      if err == NoError {
        NoOrphans(cfg, run, at);
        if cfg.name in run.states[old(at)].store.tasks {
          forall k | at <= k < |run.states|
            ensures cfg.name !in run.states[k].store.tasks && run.states[k].store.children == map[]
          {
            GoneForGood(cfg, edits, run, old(at), at, k);
            NoOrphans(cfg, run, k);
          }
        }
      }
    }
  }

  /** Without name reuse a task seen terminal is terminal whenever it is read again, and one seen past
      pending stays past it. */
  lemma Onwards(cfg: Config, edits: bool, run: Run, i: nat, j: nat)
    requires IsRun(cfg, edits, run) && Initial(run.states[0]) && NoReuse(cfg, run) && i <= j < |run.states|
    requires cfg.name in run.states[i].store.tasks && cfg.name in run.states[j].store.tasks
    ensures Later(run.states[i].store.tasks[cfg.name].status, run.states[j].store.tasks[cfg.name].status)
  {
    Reachable(cfg, edits, run, i);
    History(cfg, edits, run, i, j);
    assert SameUid(cfg, run.states[i].store, run.states[j].store);
  }

  /** Without name reuse a task that was stored and went does not come back. */
  lemma GoneForGood(cfg: Config, edits: bool, run: Run, i: nat, j: nat, k: nat)
    requires IsRun(cfg, edits, run) && Initial(run.states[0]) && NoReuse(cfg, run) && i <= j <= k < |run.states|
    requires cfg.name in run.states[i].store.tasks && cfg.name !in run.states[j].store.tasks
    ensures cfg.name !in run.states[k].store.tasks
  {
    Reachable(cfg, edits, run, i);
    History(cfg, edits, run, i, j);
    History(cfg, edits, run, j, k);
    assert SameUid(cfg, run.states[i].store, run.states[k].store);
  }
}
