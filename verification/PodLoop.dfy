/** The pod loop of the running handlers, which DevTasks and InferenceTasks have in common. */
module PodLoop {
  import opened Cluster
  import opened Machine
  import opened Clients

  ghost predicate At(client: Client, c: Ctl)
    reads client
  {
    client.Valid() && client.ctl == c
  }

  /** The pod loop: a message for every pending or running pod, until a pod decides. */
  method ScanPods(client: Client, t: Task, replicas: int, pods: seq<Pod>) returns (verdict: Option<Outcome>, task: Task)
    requires At(client, Scan(t, replicas, pods))
    modifies client
    ensures client.begun == old(client.begun)
    ensures At(client, if verdict.Some? then Done(verdict.value, None) else AtEnsure(SvcLookup(Running, task)))
  {
    task := t;
    var o, r;
    var i := 0;
    while i < |pods|
      invariant 0 <= i <= |pods|
      invariant At(client, Scan(task, replicas, pods[i..])) && client.begun == old(client.begun)
    {
      var pod := pods[i];
      assert pods[i..][0] == pod && pods[i..][1..] == pods[i+1..];
      var j := 0;
      while j < |pod.waiting|
        invariant 0 <= j <= |pod.waiting| && FirstBad(pod.waiting) == FirstBad(pod.waiting[j..])
        invariant At(client, Scan(task, replicas, pods[i..])) && client.begun == old(client.begun)
      {
        if pod.waiting[j].Some? && BadReason(pod.waiting[j].value) {
          o := UpdateStatusAndReturn(client, task, Failed, "Container failed: " + pod.waiting[j].value);
          return Some(o), task;
        }
        j := j + 1;
      }
      match pod.phase {
        case PodPending =>
          r, task := Note(client, task, "Pod pending", replicas, pods[i+1..]);
          if !r { return Some(Error), task; }
        case PodRunning =>
          r, task := Note(client, task, "Pod running", replicas, pods[i+1..]);
          if !r { return Some(Error), task; }
        case PodSucceeded =>
          o := UpdateStatusAndReturn(client, task, Completed, "Task completed");
          return Some(o), task;
        case PodFailed =>
          o := UpdateStatusAndReturn(client, task, Failed, "Pod failed: " + pod.reason);
          return Some(o), task;
        case PodUnknown =>
          o := UpdateStatusAndReturn(client, task, Failed, "Pod failed: " + pod.reason);
          return Some(o), task;
        case PodUnset =>
      }
      i := i + 1;
    }
    if replicas == 0 {
      o := UpdateStatusAndReturn(client, task, Completed, "Task completed");
      return Some(o), task;
    }
    return None, task;
  }

  method Note(client: Client, t: Task, message: string, replicas: int, ghost rest: seq<Pod>)
    returns (ok: bool, task: Task)
    requires At(client, AtRunning(NotePod(t, message, replicas, rest)))
    modifies client
    ensures client.begun == old(client.begun)
    ensures At(client, if ok then Scan(task, replicas, rest) else Done(Error, None))
  {
    task := t.(status := t.status.(message := message));
    var r, x := client.RunningCall(NotePod(t, message, replicas, rest), UpdateTaskStatus(client.cfg.name, task));
    if !r.TaskIs? { return false, task; }
    return true, r.task;
  }

  method UpdateStatusAndReturn(client: Client, t: Task, phase: Phase, message: string) returns (o: Outcome)
    requires At(client, AtEnd(Conclude(t, phase, message)))
    modifies client
    ensures At(client, Done(o, None)) && client.begun == old(client.begun)
  {
    var task := t.(status := t.status.(phase := phase));
    task := task.(status := task.status.(message := message));
    var r, x := client.EndCall(Conclude(t, phase, message), UpdateTaskStatus(client.cfg.name, task));
    if !r.TaskIs? { return Error; }
    return Stop;
  }
}
