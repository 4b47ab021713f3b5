/** The labels of Deployments, Services and pods, and whose pods a selector picks. */
module Labels {
  import opened Cluster
  import Machine
  import opened Specs

  /** The label keys app.kubernetes.io/name and managed-by, kai.io/devtask, kai.io/inference,
      kai.io/task-type and framework. */
  datatype Key = AppName | ManagedBy | DevTaskName | InferenceName | TaskType | FrameworkName

  const COMMON := map[AppName := "kai", ManagedBy := "kai-operator"]

  /** A selector picks what has all its labels. */
  predicate Picks(selector: map<Key, string>, labels: map<Key, string>) {
    forall k :: k in selector ==> k in labels && labels[k] == selector[k]
  }

  /** The labels of a DevTask's pods; its Service selects by all of them. */
  function DevLabels(t: DevTask): map<Key, string> {
    map[AppName := "kai", ManagedBy := "kai-operator", DevTaskName := t.name,
        FrameworkName := Framework(t), TaskType := "development"]
  }

  function InferenceLabels(t: InferenceTask): map<Key, string> {
    map[AppName := "kai", ManagedBy := "kai-operator", InferenceName := t.name,
        TaskType := "inference", FrameworkName := InferenceFramework(t)]
  }

  /** The common labels are written into the given ones, one by one. */
  method AddCommon(labels0: map<Key, string>) returns (labels: map<Key, string>)
    ensures labels == labels0 + COMMON
  {
    labels := labels0;
    var left := COMMON.Keys;
    while left != {}
      invariant left <= COMMON.Keys
      invariant labels.Keys == labels0.Keys + (COMMON.Keys - left)
      invariant forall k :: k in labels ==> labels[k] == if k in COMMON.Keys - left then COMMON[k] else labels0[k]
    {
      var k :| k in left;
      labels := labels[k := COMMON[k]];
      left := left - {k};
    }
  }

  /** The labels, and what the Deployment of a DevTask selects by, which leaves the name out. */
  method BuildDeployment(t: DevTask) returns (labels: map<Key, string>, selector: map<Key, string>)
    ensures labels == DevLabels(t)
    ensures forall t': DevTask :: Picks(selector, DevLabels(t')) <==> Framework(t') == Framework(t)
  {
    labels := map[DevTaskName := t.name];
    labels := AddCommon(labels);
    labels := labels[FrameworkName := Framework(t)];
    labels := labels[TaskType := "development"];
    labels := AddCommon(labels);
    labels := labels[FrameworkName := Framework(t)];
    labels := labels[TaskType := "development"];
    selector := map[TaskType := "development", FrameworkName := Framework(t)];
    assert selector[FrameworkName] == Framework(t);
  }

  /** What the Service of a DevTask selects by: it picks the pods of this very task and framework. */
  method BuildDevService(t: DevTask) returns (selector: map<Key, string>)
    ensures forall t': DevTask :: Picks(selector, DevLabels(t')) <==> t'.name == t.name && Framework(t') == Framework(t)
    ensures forall t': InferenceTask :: !Picks(selector, InferenceLabels(t'))
  {
    selector := map[DevTaskName := t.name];
    selector := AddCommon(selector);
    selector := selector[FrameworkName := Framework(t)];
    selector := selector[TaskType := "development"];
    selector := AddCommon(selector);
    assert selector == DevLabels(t);
    assert DevTaskName in selector && FrameworkName in selector;
  }

  /** The Deployment of an InferenceTask picks its own pods only. */
  lemma InferencePicksOwn(t: InferenceTask, t': InferenceTask, d: DevTask)
    ensures Picks(map[InferenceName := t.name], InferenceLabels(t')) <==> t'.name == t.name
    ensures !Picks(map[InferenceName := t.name], DevLabels(d))
  {
    assert InferenceName in map[InferenceName := t.name];
  }

  /** A pod of a DevTask, with the parts of its labels the reconcilers look at. */
  predicate DevPod(p: Pod, t: DevTask) {
    p.owner == t.name && p.framework == Framework(t) && p.taskType == "development"
  }

  predicate InferencePod(p: Pod, t: InferenceTask) {
    p.owner == t.name && p.framework == InferenceFramework(t) && p.taskType == "inference"
  }

  /** The pods a DevTask's reconcile lists are those its Deployment picks: all of its framework, other
      tasks' included. */
  lemma DevListsAsPicked(cfg: Machine.Config, copy: Task, t: DevTask, t': DevTask, p: Pod)
    requires cfg.kind == Machine.Dev && copy.spec.framework == Framework(t) && DevPod(p, t')
    ensures Selects(Machine.PodSelector(cfg, copy), p)
       <==> Picks(map[TaskType := "development", FrameworkName := Framework(t)], DevLabels(t'))
  {
    assert FrameworkName in map[TaskType := "development", FrameworkName := Framework(t)];
  }

  /** Those an InferenceTask's reconcile lists are its own. */
  lemma InferenceListsAsPicked(cfg: Machine.Config, copy: Task, t: InferenceTask, t': InferenceTask, p: Pod)
    requires cfg.kind == Machine.Inf && cfg.name == t.name && InferencePod(p, t')
    ensures Selects(Machine.PodSelector(cfg, copy), p) <==> Picks(map[InferenceName := t.name], InferenceLabels(t'))
  {
    InferencePicksOwn(t, t', DevTask("", "", None, None, None));
  }
}
