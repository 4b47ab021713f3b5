/** What the pod loop of a running-phase reconcile computes. */
module Pods {
  import opened Cluster
  import opened Machine

  datatype Verdict = Verdict(phase: Phase, message: string)

  predicate BadAt(waiting: seq<Option<string>>, i: nat) {
    i < |waiting| && waiting[i].Some? && BadReason(waiting[i].value)
  }

  /** The reason found is that of the first container that waits for a bad reason. */
  lemma {:induction false} FirstBadIsFirst(waiting: seq<Option<string>>)
    ensures match FirstBad(waiting)
            case Some(reason) =>
              exists i: nat :: BadAt(waiting, i) && waiting[i] == Some(reason)
                               && forall j: nat :: j < i ==> !BadAt(waiting, j)
            case None => forall i: nat :: !BadAt(waiting, i)
  {
    if waiting != [] && !BadAt(waiting, 0) {
      var rest := waiting[1..];
      FirstBadIsFirst(rest);
      if FirstBad(rest).Some? {
        var i: nat :| BadAt(rest, i) && rest[i] == FirstBad(rest) && forall j: nat :: j < i ==> !BadAt(rest, j);
        forall j: nat | j < i + 1 ensures !BadAt(waiting, j) {
          if j > 0 { assert !BadAt(rest, j - 1); }
        }
        assert BadAt(waiting, i + 1);
      } else {
        forall i: nat ensures !BadAt(waiting, i) {
          if i > 0 { assert !BadAt(rest, i - 1); }
        }
      }
    } else if waiting != [] {
      assert BadAt(waiting, 0);
    }
  }

  /** What one pod decides, if anything: a badly waiting container before the pod's own phase. */
  function Decides(p: Pod): Option<Verdict> {
    var bad := FirstBad(p.waiting);
    if bad.Some? then Some(Verdict(Failed, "Container failed: " + bad.value))
    else if p.phase == PodSucceeded then Some(Verdict(Completed, "Task completed"))
    else if p.phase == PodFailed || p.phase == PodUnknown then Some(Verdict(Failed, "Pod failed: " + p.reason))
    else None
  }

  /** One of the four reasons that end a task. */
  predicate Ruinous(reason: string) {
    reason == "ImagePullBackOff" || reason == "ErrImagePull" || reason == "CrashLoopBackOff" || reason == "Unknown"
  }

  predicate RuinedAt(p: Pod, i: nat) { i < |p.waiting| && p.waiting[i].Some? && Ruinous(p.waiting[i].value) }

  /** Exactly which pods decide, and what: one with a container that waits for one of the four reasons fails
      the task, and its message names the first such reason; else a failed or unknown one fails it and a
      succeeded one completes it; no other waiting reason and no other phase decides anything. */
  lemma DecidesExactly(p: Pod)
    ensures match Decides(p)
            case Some(verdict) =>
              if exists i: nat :: RuinedAt(p, i) then
                exists i: nat :: RuinedAt(p, i) && (forall j: nat :: j < i ==> !RuinedAt(p, j))
                                 && verdict == Verdict(Failed, "Container failed: " + p.waiting[i].value)
              else
                || (p.phase == PodSucceeded && verdict == Verdict(Completed, "Task completed"))
                || (p.phase in {PodFailed, PodUnknown} && verdict == Verdict(Failed, "Pod failed: " + p.reason))
            case None => (forall i: nat :: !RuinedAt(p, i)) && p.phase in {PodUnset, PodPending, PodRunning}
  {
    FirstBadIsFirst(p.waiting);
    forall i: nat ensures RuinedAt(p, i) <==> BadAt(p.waiting, i) {}
    if FirstBad(p.waiting).Some? {
      var i: nat :| BadAt(p.waiting, i) && p.waiting[i] == FirstBad(p.waiting)
                    && forall j: nat :: j < i ==> !BadAt(p.waiting, j);
      assert RuinedAt(p, i);
    }
  }

  /** How many pods come before the first decisive one. */
  function Before(pods: seq<Pod>): (n: nat)
    ensures n <= |pods|
    ensures n < |pods| ==> Decides(pods[n]).Some?
    ensures forall i :: 0 <= i < n ==> Decides(pods[i]) == None
  {
    if pods == [] || Decides(pods[0]).Some? then 0 else 1 + Before(pods[1..])
  }

  /** A pod that is noted in the status: pending or running. */
  predicate Noted(p: Pod) { p.phase == PodPending || p.phase == PodRunning }

  function Notes(pods: seq<Pod>): nat {
    if pods == [] then 0 else (if Noted(pods[0]) then 1 else 0) + Notes(pods[1..])
  }

  /** The loop's result. */
  function Outcome(pods: seq<Pod>): Option<Verdict> {
    if Before(pods) < |pods| then Decides(pods[Before(pods)]) else None
  }

  /** The loop goes on while its status writes are answered, one answer each. */
  function Walk(cfg: Config, c: Ctl, answers: seq<Task>, x: Input): Ctl
    decreases |answers|
  {
    if answers != [] && c.AtRunning? && c.running.NotePod? then
      Walk(cfg, Resume(cfg, c, TaskIs(answers[0]), x), answers[1..], x)
    else c
  }

  /** Where a loop ends that is done with its pods and stands with task copy `t`. */
  function After(t: Task, replicas: int, outcome: Option<Verdict>): Ctl {
    if outcome.Some? then AtEnd(Conclude(t, outcome.value.phase, outcome.value.message))
    else if replicas == 0 then AtEnd(Conclude(t, Completed, "Task completed"))
    else AtEnsure(SvcLookup(Running, t))
  }

  /** One round of the loop. */
  lemma FirstPod(cfg: Config, t: Task, replicas: int, pods: seq<Pod>, answers: seq<Task>, x: Input)
    requires pods != []
    ensures var c := Scan(t, replicas, pods);
            if Decides(pods[0]).Some? then Walk(cfg, c, answers, x) == c == After(t, replicas, Decides(pods[0]))
            else if !Noted(pods[0]) then c == Scan(t, replicas, pods[1..])
            else c.AtRunning? && c.running.NotePod?
                 && (answers != [] ==>
                       Walk(cfg, c, answers, x) == Walk(cfg, Scan(answers[0], replicas, pods[1..]), answers[1..], x))
  {
  }

  lemma PodsBefore(pods: seq<Pod>)
    requires pods != [] && Decides(pods[0]) == None
    ensures Before(pods) == 1 + Before(pods[1..])
    ensures Notes(pods[..Before(pods)]) == (if Noted(pods[0]) then 1 else 0) + Notes(pods[1..][..Before(pods[1..])])
    ensures Outcome(pods) == Outcome(pods[1..])
  {
    assert pods[..Before(pods)][1..] == pods[1..][..Before(pods[1..])];
  }

  /** The pod loop makes exactly one status write per pending or running pod before the first decisive
      pod, and then ends with that pod's verdict; without one it ends by the replica count. */
  lemma {:induction false} LoopVerdict(cfg: Config, t: Task, replicas: int, pods: seq<Pod>, answers: seq<Task>,
                                       x: Input)
    ensures var n := Notes(pods[..Before(pods)]);
            var end := Walk(cfg, Scan(t, replicas, pods), answers, x);
            && (|answers| < n ==> end.AtRunning? && end.running.NotePod?)
            && (|answers| >= n ==> end == After(if n == 0 then t else answers[n-1], replicas, Outcome(pods)))
    decreases |pods|
  {
    if pods != [] {
      FirstPod(cfg, t, replicas, pods, answers, x);
      if Decides(pods[0]) == None {
        PodsBefore(pods);
        if !Noted(pods[0]) { LoopVerdict(cfg, t, replicas, pods[1..], answers, x); }
        else if answers != [] { LoopVerdict(cfg, answers[0], replicas, pods[1..], answers[1..], x); }
      }
    }
  }

  /** All decisive pods decide alike. */
  predicate Agree(pods: seq<Pod>) {
    forall p, q :: p in pods && q in pods && Decides(p).Some? && Decides(q).Some? ==> Decides(p) == Decides(q)
  }

  lemma OutcomeAgreed(pods: seq<Pod>, p: Pod)
    requires Agree(pods) && p in pods && Decides(p).Some?
    ensures Outcome(pods) == Decides(p)
  {
    var i :| 0 <= i < |pods| && pods[i] == p;
    assert Before(pods) <= i;
  }

  lemma SamePods(pods: seq<Pod>, pods': seq<Pod>)
    requires multiset(pods) == multiset(pods')
    ensures forall p :: p in pods <==> p in pods'
  {
    forall p ensures p in pods <==> p in pods' {
      assert p in pods <==> p in multiset(pods);
      assert p in pods' <==> p in multiset(pods');
    }
  }

  lemma AgreedOrderIrrelevant(pods: seq<Pod>, pods': seq<Pod>)
    requires Agree(pods) && multiset(pods) == multiset(pods')
    ensures Outcome(pods') == Outcome(pods)
  {
    SamePods(pods, pods');
    if Before(pods) < |pods| {
      OutcomeAgreed(pods', pods[Before(pods)]);
    } else if Before(pods') < |pods'| {
      OutcomeAgreed(pods, pods'[Before(pods')]);
    }
  }

  lemma MovedToFront(pods: seq<Pod>, p: Pod) returns (moved: seq<Pod>)
    requires p in pods && Decides(p).Some?
    ensures multiset(moved) == multiset(pods) && Outcome(moved) == Decides(p)
  {
    var i :| 0 <= i < |pods| && pods[i] == p;
    moved := [p] + pods[..i] + pods[i+1..];
    assert pods == pods[..i] + [p] + pods[i+1..];
    assert moved[0] == p;
  }

  /** The verdict is the same in whatever order the API server lists the pods if and only if all
      decisive pods agree. */
  lemma OrderIrrelevant(pods: seq<Pod>)
    ensures (forall pods' :: multiset(pods') == multiset(pods) ==> Outcome(pods') == Outcome(pods)) <==> Agree(pods)
  {
    if Agree(pods) {
      forall pods' | multiset(pods') == multiset(pods) ensures Outcome(pods') == Outcome(pods) {
        AgreedOrderIrrelevant(pods, pods');
      }
    } else {
      var p, q :| p in pods && q in pods && Decides(p).Some? && Decides(q).Some? && Decides(p) != Decides(q);
      var first := MovedToFront(pods, p);
      var second := MovedToFront(pods, q);
      assert Outcome(first) != Outcome(second);
    }
  }
}
