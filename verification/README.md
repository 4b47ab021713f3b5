# kai-operator, modelled and proved in Dafny

The operator runs three reconcilers with real logic: DevTask, InferenceTask and EvalTask. Each is a state
machine over a shared, versioned API server. Users, other controllers, the cluster, crashes and lost replies
come between any two of its API calls. This project models the API server, the reconcilers as programs of API
calls, the names, routes, URLs and argument lists they make, and the SDK's wait loops. The main results speak of
every run, every input or every order of events.

`dafny verify dfyconfig.toml` checks everything.

## How it fits together

- `Cluster.dfy` is the API server: versions, finalizers, deletion marks, status writes that touch status only,
  and calls that may fail before or after they took effect.
- `Machine.dfy` gives the three reconcilers as programs of API calls. `Request` is the call made at a program
  point and `Resume` where the reconcile stands after the reply, handler by handler and branch by branch. The
  environment (edits, deletions, lost children, pods, Job progress and expiry, the clock), crashes and TTL timers
  are the other steps of a run.
- `Client.dfy`, `PodLoop.dfy`, `DevTaskReconciler.dfy`, `InferenceTaskReconciler.dfy` and
  `EvalTaskReconciler.dfy` are the reconcilers statement by statement, as classes that change a stored copy and
  make calls. Each method is proved to make exactly the calls of the machine, so each `Reconcile` extends a run of
  the machine. `Lookups.dfy` gives the client the URLs it looks up. `Operator.dfy` runs them in a loop with anything
  in between, and stops and restarts the operator between and within reconciles.
- `Effects.dfy` says, by the store alone and phase by phase, what one undisturbed reconcile leaves, returns and
  starts, and what a failing call does. `Exposure.dfy` says what stands behind a task that is called running in
  every run: its Deployment, its Service and the URL that was looked up for it.
- `Safety.dfy` has the invariant and `Runs.dfy` what follows for every run: the finalizer guard, the status
  history, route cleanup. `Recovery.dfy`, `Rework.dfy`, `Timers.dfy`, `Cleanup.dfy` and `EvalJobs.dfy` have
  recovery, bounded rework, TTL timers, what deletion leaves behind, and the single Job; `Verdicts.dfy` why a
  running task ends and `Published.dfy` the stored URL. `Hypotheses.dfy` has whole runs that show what happens
  without a hypothesis.
- `Names.dfy`, `Labels.dfy` and `Isolation.dfy` have many tasks in one namespace: exactly when child names are
  equal, whose children and pods are whose, and that a run of all tasks of a kind, DevTasks with their shared pods
  included, projects onto a run of each alone.
- `Specs.dfy`, `Urls.dfy`, `Gateways.dfy`, `Routing.dfy` and `Arguments.dfy` have specifications, URL printing
  and parsing, gateway lookup, routes under Gateway API v1 matching and exactly when two of them overlap, and
  argument lists. `Pods.dfy` has the pod
  loop and `Waits.dfy` the SDK.

## Hypotheses

- Cleanup takes any failed read for "nothing to delete", so in runs the reads of cleanup are answered truthfully.
  `Cleanup.FailedReadsOrphan` says exactly which children stay behind for which failed reads.
- The URL a reconcile is told after ensuring a route is one that the gateway lookup gives, in some state of the
  cluster, for the full specification of the task in hand (`Lookups.Informed`); the client makes that lookup.
- A read shows the store as it is when the read is made. The manager's client reads from a cache that may lag
  behind: a write based on a stale copy is refused for its version, but a stale "not found" in cleanup acts like a
  failed read, so the finalizer guard needs current reads there.
- A child's name holds the framework. The guard on Deployments and Services therefore needs fixed frameworks
  (`edits == false`); `Cleanup.FrameworkEditOrphans` shows that it fails otherwise, and `Runs.RouteGuard` that the
  routes of a DevTask are safe all the same. Everything with a parameter `edits` holds for both.
- Users do not touch the operator's own finalizer or a status, nobody puts foreign finalizers on children, names
  given to a second task are told apart by their uid, every write takes a new version, and garbage collection by
  owner reference does nothing: what goes, cleanup deletes.
- In company the tasks are those of one kind in one namespace, with frameworks as the kind has them
  (`Isolation.FrameworkOk`): OpenCompass and lm-eval for EvalTasks, and names without a dash for the others.
  `Names.InfNamesInjective` says which engine names would do. A DevTask's pods are selected by framework, so they
  stay shared in its projection; `Isolation.ListsOwnExactly`, `Isolation.VerdictOwnExactly` and
  `Isolation.OneDevTaskPerFramework` say exactly when a DevTask sees, and is judged by, its own pods only.
- At most one Job: frameworks fixed, the name not reused, nobody else deletes the Job, and it is looked at in
  time. `Hypotheses.LateLookCreatesAgain` gives, for every EvalTask, a run in which a late look creates two.
- A TTL timer deletes by name, so what it deletes is its own task only as long as names are not reused;
  `Hypotheses.ReusedNameIsHit` gives a run in which it marks another one.

## Where the code and what it says differ

- The InferenceTask running handler computes an external URL and never stores it
  (`internal/controller/inference/inference_phases.go:201-211`); the model does the same.
- A DevTask's Deployment selects pods by framework and not by task (`Labels.BuildDeployment`), so the Deployments
  of two DevTasks of one framework select each other's pods; their Services do not.
- A finished EvalTask loses its finalizer and gets it back on the next reconcile, again and again
  (`EvalJobs.FinalizerAlternates`); what still holds is `EvalJobs.FinishedForGood`.
- noVNC's WebSocket rule is put at the path followed by `websockify`, which lies below the path only if the path
  ends with a slash (`Routing.WebsockifyBelow`).
- A hub model is never passed to llama.cpp (`Arguments.ArgumentsRecovered`), and a llama.cpp section's replica
  count is ignored.
- The lookup of the gateway's address never fails, so the `.svc` URL an InferenceTask falls back to is never used.

## Model

| member | source | states |
|---|---|---|
| Safety.EntryKept | internal/controller/devtask/devtask_controller.go:45-81 | whatever a call made before the dispatch on the phase does or fails to do, the invariant holds after it and the status only progresses |
| Safety.PendingKept | internal/controller/devtask/devtask_phases.go:36-78 | the same for the calls of the pending handler |
| Safety.CreatingKept | internal/controller/devtask/devtask_phases.go:80-147 | the same for the Deployment and status calls of the creating handler |
| Safety.EnsureKept | internal/controller/devtask/route_builder.go:155-247 | the same for ensuring Service and route in any handler |
| Safety.RunningKept | internal/controller/devtask/devtask_phases.go:149-253 | the same for the running handler, pod loop and step back included |
| Safety.EndKept | internal/controller/devtask/devtask_phases.go:255-265 | the same for terminal phase and end time |
| Safety.DropKept | internal/controller/devtask/devtask_phases.go:290-305 | once a Deployment or Service read or delete of cleanup is past, no child of that kind is left |
| Safety.NamedRouteKept | internal/controller/inference/inference_helpers.go:112-134 | cleanup of the route by name keeps the invariant and leaves the route without finalizer before it is deleted |
| Safety.ListedRouteKept | internal/controller/devtask/route_builder.go:193-213 | at every step of the loop over labelled routes every stored route is still on the rest of the list |
| Safety.ReleaseKept | internal/controller/devtask/devtask_controller.go:83-94 | the finalizer is taken off only with no guarded child left |
| Safety.EvalKept | internal/controller/evaltask/evaltask_controller.go:92-183 | the calls of the EvalTask handlers keep the invariant |
| Safety.EnvRelies | api/v1alpha1/devtask_types.go:155-170 | whatever users, other controllers and the clock do keeps the store in order and what reconciles rely on |
| Runs.StepKept | internal/controller/devtask/devtask_controller.go:45-94 | every step of every kind keeps the invariant, and the stored status moves along the phase edges only |
| Runs.FinalizerGuard | internal/controller/devtask/devtask_controller.go:58-94 | in every state of every run, while a child exists its task is stored with the finalizer, and the child has the name cleanup looks for |
| Runs.NoOrphans | internal/controller/devtask/devtask_phases.go:290-314 | when the task has gone no child remains |
| Runs.RouteGuard | internal/controller/devtask/route_builder.go:38-58 | for routes the guard survives framework edits, and every route carries its DevTask's label |
| Runs.History | internal/controller/devtask/devtask_phases.go:255-265 | between any two states of a run the same task's terminal phase, start time and end time stay once set |
| Runs.PhasesAdvance | internal/controller/inference/inference_phases.go:73-147 | the only step back is running to creating, never for an EvalTask |
| Runs.TimesInOrder | internal/controller/evaltask/evaltask_controller.go:92-120 | start is set exactly outside pending, end only in a terminal phase, and start, end and clock are in order |
| Runs.RoutesGone | internal/controller/devtask/route_builder.go:179-213 | when cleanup gets to releasing the DevTask no route is left, whatever frameworks it had |
| Runs.StrippedBeforeDeleted | internal/controller/devtask/route_builder.go:184-208 | a route is deleted only when it has no finalizer left |
| DevTasks.DevTaskReconciler.Reconcile | internal/controller/devtask/devtask_controller.go:45-81 | the imperative reconcile makes exactly the calls of a machine run and returns its outcome |
| DevTasks.DevTaskReconciler.HandlePendingPhase | internal/controller/devtask/devtask_phases.go:36-78 | ends where the machine's pending calls end |
| DevTasks.DevTaskReconciler.HandleCreatingPhase | internal/controller/devtask/devtask_phases.go:80-147 | likewise for creating; a failed create fails the task |
| DevTasks.DevTaskReconciler.HandleRunningPhase | internal/controller/devtask/devtask_phases.go:149-253 | likewise for running |
| PodLoop.ScanPods | internal/controller/devtask/devtask_phases.go:197-230 | the nested loop over pods and container statuses, of DevTasks and InferenceTasks alike, stops where the machine's scan stops |
| DevTasks.DevTaskReconciler.HandleFinishedPhase | internal/controller/devtask/devtask_phases.go:255-288 | writes the end time once, ensures Service and route, and starts a timer for a completed task with a TTL |
| DevTasks.DevTaskReconciler.HandleDeletion | internal/controller/devtask/devtask_controller.go:83-94 | releases the task only after cleanup succeeded |
| DevTasks.DevTaskReconciler.CleanupResources | internal/controller/devtask/devtask_phases.go:290-314 | Deployment, then Service, then routes |
| DevTasks.DevTaskReconciler.CleanupHTTPRoute | internal/controller/devtask/route_builder.go:179-213 | by name, then every route with the label, each stripped and then deleted |
| InferenceTasks.InferenceTaskReconciler.Reconcile | internal/controller/inference/inferencetask_controller.go:51-114 | label, finalizer and phase are reconciles of their own; the calls are those of a machine run |
| InferenceTasks.InferenceTaskReconciler.HandlePendingPhase | internal/controller/inference/inference_phases.go:36-57 | one fresh read, then one status write |
| InferenceTasks.InferenceTaskReconciler.HandleCreatingPhase | internal/controller/inference/inference_phases.go:59-116 | Deployment, Service, route, running; a URL already there is kept |
| InferenceTasks.InferenceTaskReconciler.HandleRunningPhase | internal/controller/inference/inference_phases.go:118-214 | pod loop, then Service and route, and no URL write |
| InferenceTasks.InferenceTaskReconciler.HandleDeletion | internal/controller/inference/inferencetask_controller.go:116-127 | releases the task only after cleanup succeeded |
| EvalTasks.EvalTaskReconciler.Reconcile | internal/controller/evaltask/evaltask_controller.go:53-90 | the imperative reconcile makes exactly the calls of a machine run |
| EvalTasks.EvalTaskReconciler.EnsureJob | internal/controller/evaltask/evaltask_controller.go:249-347 | creates the Job only after a lookup found none |
| EvalTasks.EvalTaskReconciler.CheckJobStatus | internal/controller/evaltask/evaltask_controller.go:144-183 | reports active before succeeded before failed |
| EvalTasks.EvalTaskReconciler.HandleFinishedPhase | internal/controller/evaltask/evaltask_controller.go:185-208 | end time, cleanup, release |
| EvalTasks.EvalTaskReconciler.CleanupResources | internal/controller/evaltask/evaltask_controller.go:228-247 | deletes the Job it finds |
| Operators.OperateDevTask | internal/controller/devtask/devtask_controller.go:45-94 | any number of reconciles, finished or cut short by a crash after any call, with anything in between, passes through no state with a child but no held task, and stores no URL but one looked up for the task |
| Operators.OperateInferenceTask | internal/controller/inference/inferencetask_controller.go:51-127 | the same for InferenceTasks |
| Operators.OperateEvalTask | internal/controller/evaltask/evaltask_controller.go:53-90 | the same for EvalTasks: a Job exists only while its task holds the finalizer |
| Effects.Reconcilable | internal/controller/devtask/devtask_controller.go:45-81 | from every store and for every clock, URL and error text there is an undisturbed reconcile |
| Effects.FinalizerEffect | internal/controller/devtask/devtask_controller.go:61-67 | a live task without the finalizer gets it; a DevTask's reconcile then goes on as from the store with it, the others stop |
| Effects.LabelEffect | internal/controller/inference/inferencetask_controller.go:70-85 | an InferenceTask with another framework's label gets the right one, also on its way out, and that is all |
| Effects.LeftAlone | internal/controller/evaltask/evaltask_controller.go:53-90 | a task that is gone, on its way out without the finalizer, or in a phase without a handler is left alone |
| Effects.DeletionEffect | internal/controller/inference/inferencetask_controller.go:116-127 | a task on its way out is let go with exactly its children cleaned up, and the reconcile stops |
| Effects.PendingEffect | internal/controller/devtask/devtask_phases.go:36-78 | a pending task gets its framework's label, start time now and the next phase, and nothing else changes |
| Effects.CreatingEffect | internal/controller/inference/inference_phases.go:59-116 | a task being created gets exactly the missing ones of Deployment, Service and wanted route, each labelled for it, and runs with pod name and URL: the one looked up, but an InferenceTask keeps one it has |
| Effects.RecreatingEffect | internal/controller/devtask/devtask_phases.go:152-182 | a running task without its Deployment gets it again and goes back to creating |
| Effects.RunningEffect | internal/controller/devtask/devtask_phases.go:184-253 | a running task is left as the pods its selector picks judge it, else completed if scaled to nothing, else with the last note, its Service and route ensured and a DevTask's URL refreshed |
| Effects.FinishedEffect | internal/controller/devtask/devtask_phases.go:255-288 | a finished task gets its end time once, and a timer if and only if it is completed and has a TTL, for this task, from now and with that TTL |
| Effects.TimerPending | internal/controller/inference/inference_phases.go:216-238 | in every run an undisturbed reconcile of a completed task with a TTL leaves just that timer pending once it has returned, and of any other finished task none |
| Effects.JobEffect | internal/controller/evaltask/evaltask_controller.go:144-183 | a running EvalTask is stored as its Job is, active before succeeded before failed, with the Job's name, and looked at again |
| Effects.NoJobEffect | internal/controller/evaltask/evaltask_controller.go:249-281 | without a Job it gets one and is otherwise left alone |
| Effects.FinishedEvalEffect | internal/controller/evaltask/evaltask_controller.go:185-208 | a finished EvalTask gets its end time once, loses its Job and then its finalizer |
| Effects.FailuresRetried | internal/controller/devtask/devtask_phases.go:104-111 | any failing call outside cleanup reads and exposure ends the reconcile to be tried again, and only a refused Deployment fails a task being created |
| Effects.RefusedCreateFails | internal/controller/inference/inference_phases.go:75-81 | while creating a refused Deployment is stored as Failed with the error's text |
| Effects.FailuresPassedOver | internal/controller/devtask/route_builder.go:155-247 | which failures about Service and route are passed over, in which handler and as what |
| Effects.GoneIsGone | internal/controller/devtask/devtask_phases.go:290-314 | what is gone when cleanup deletes or strips it counts as deleted, but for a DevTask's Service |
| Exposure.RunsExposed | internal/controller/devtask/devtask_phases.go:113-144 | in every run the step from creating to running stores the URL this reconcile was told for this task, if it is routed and is a DevTask or had none, and keeps it otherwise; its Deployment, and a DevTask's Service, stood in this reconcile |
| Exposure.UrlsAreTold | internal/controller/inference/inference_phases.go:98-106 | in every run a stored URL changes only to one this reconcile was told for this routed task, and an InferenceTask's only from none |
| Exposure.RunningRefreshes | internal/controller/devtask/devtask_phases.go:235-249 | the running handler's answered URL write stores a URL this reconcile was told |
| Exposure.RunsPublished | internal/controller/devtask/gateway_builder.go:341-389 | with looked-up URLs a routed task is never called running without a URL, and it is one the lookup gives for the task as stored, or the one an InferenceTask had |
| Exposure.UrlsAreLookedUp | internal/controller/inference/inference_helpers.go:215-242 | and every change of a stored URL is to one the lookup gives for the task as stored |
| Recovery.ReconcileRecovers | internal/controller/devtask/devtask_phases.go:36-253 | an undisturbed reconcile of a live, unfinished task brings it nearer to running with all children; at distance 0 it changes only versions, message and URL |
| Recovery.RecoversWithin | internal/controller/inference/inferencetask_controller.go:70-113 | from any such store, and with any calm events between them, two undisturbed reconciles of a DevTask and four of an InferenceTask give running with Deployment, Service and any wanted route, and further ones keep it |
| Recovery.ResumeShrinks | internal/controller/inference/inference_phases.go:59-214 | a lexicographic measure falls with every call, whatever the reply |
| Recovery.ReconcileEnds | internal/controller/inference/inference_phases.go:36-238 | from every store an undisturbed reconcile can be carried through to its end |
| Rework.StepPaid | internal/controller/inference/inference_phases.go:126-147 | a step back is paid for by a debt that only a lost Deployment or a framework edit creates |
| Rework.BoundedRework | internal/controller/devtask/devtask_phases.go:104-182 | in every run the steps back from running to creating are at most the external Deployment deletions and framework edits |
| Timers.TimersSourced | internal/controller/inference/inference_phases.go:228-235 | every pending timer comes from a state that held the very task, completed, with the timer's TTL |
| Timers.DeletesOnlyExpired | internal/controller/devtask/devtask_phases.go:278-285 | a TTL deletion comes at least the TTL after a state with the task completed, and that task, if still stored, is still completed |
| Timers.NeverDeletesUnfinished | internal/controller/devtask/devtask_phases.go:278-285 | without name reuse a TTL deletion finds the task completed or gone |
| Timers.HitsByName | internal/controller/devtask/devtask_phases.go:278-285 | in every run the task a TTL deletion hits is the timer's own if and only if its uid is no newer than the timer's source state, and whichever it is it goes or is marked |
| Hypotheses.ReusedNameIsHit | internal/controller/devtask/devtask_phases.go:281-283 | for every InferenceTask name there is a run in which a second task of the name, pending, is marked for deletion by the first one's timer |
| Cleanup.DeletionLeaves | internal/controller/devtask/devtask_phases.go:290-314 | one undisturbed reconcile of a marked task removes exactly the children under the current name and, for a DevTask, all routes |
| Cleanup.OrphanFree | internal/controller/inference/inference_phases.go:240-269 | deletion leaves nothing if and only if every child is one that cleanup looks for |
| Cleanup.FrameworkEditOrphans | internal/controller/devtask/deployment_builder.go:31-41 | editing the framework and then deleting orphans the Deployment |
| Cleanup.FailedReadsOrphan | internal/controller/builder/builder.go:249-256 | for every set of failed cleanup reads, a reconcile of a marked task lets the task go and leaves exactly the children those reads should have found |
| Cleanup.OneFailedReadOrphans | internal/controller/inference/inference_phases.go:240-269 | so for every marked task with a Deployment one failed read orphans it |
| Cleanup.DeletedRouteLingers | internal/controller/devtask/route_builder.go:155-189 | a DevTask route somebody else deletes stays, terminating, as long as its task lives |
| EvalJobs.AtMostOneJob | internal/controller/evaltask/evaltask_controller.go:122-183 | if whenever the Job matters it was seen unfinished less than 300 seconds before, it is created at most once in the run |
| EvalJobs.RegularIsPrompt | internal/controller/evaltask/evaltask_controller.go:122-142 | looks 30 seconds plus a latency below 270 apart, and no failure between a finished look and its status write, give that |
| EvalJobs.RegularMakesOneJob | internal/controller/evaltask/evaltask_controller.go:249-281 | so such runs create the Job at most once |
| Hypotheses.LateLookCreatesAgain | internal/controller/evaltask/evaltask_controller.go:249-281 | for every EvalTask and specification there is a run of 300 seconds, in order but not prompt, that creates the Job twice |
| EvalJobs.FinishedForGood | internal/controller/evaltask/evaltask_controller.go:185-208 | after the end time is set phase and end time stay and no Job is created |
| EvalJobs.FinalizerAlternates | internal/controller/evaltask/evaltask_controller.go:72-87 | each undisturbed reconcile of a finished, unmarked task leaves it with the finalizer if and only if it had none, its status unchanged |
| Pods.FirstBadIsFirst | internal/controller/devtask/devtask_phases.go:197-212 | the reason found is that of the first badly waiting container |
| Pods.DecidesExactly | internal/controller/devtask/devtask_phases.go:197-230 | exactly which pods decide and with which message: the four waiting reasons, then a failed, unknown or succeeded pod, and nothing else |
| Pods.LoopVerdict | internal/controller/devtask/devtask_phases.go:197-230 | the pod loop makes one status write per pending or running pod before the first decisive pod and ends with that pod's verdict, else by the replica count |
| Pods.OrderIrrelevant | internal/controller/inference/inference_phases.go:162-195 | the verdict is the same for every order of the list if and only if all decisive pods agree |
| Verdicts.EndsForCause | internal/controller/devtask/devtask_phases.go:197-230 | in every run a running task fails or completes only with the verdict of a pod its selector picked before, or completes because its Deployment was seen scaled to nothing |
| Verdicts.FailsByOwnPod | internal/controller/inference/inference_phases.go:162-195 | a running InferenceTask fails only on account of a pod of its own, and so does a DevTask unless another's pod is of its framework |
| Verdicts.JobEndsForCause | internal/controller/evaltask/evaltask_controller.go:144-183 | an EvalTask completes only after its Job was seen without active pods and with a success, and fails only after it was seen with failures alone |
| Published.UrlForGood | internal/controller/inference/inference_phases.go:98-106 | once an InferenceTask is stored with a URL it keeps just that one over the whole run |
| Labels.AddCommon | internal/controller/builder/builder.go:46-52 | the loop adds the common labels and changes no other |
| Labels.BuildDeployment | internal/controller/devtask/deployment_builder.go:49-73 | a DevTask's Deployment selects the pods of exactly the DevTasks of its framework |
| Labels.BuildDevService | internal/controller/devtask/deployment_builder.go:143-154 | its Service selects its own pods only |
| Labels.InferencePicksOwn | internal/controller/inference/utils.go:267-295 | an InferenceTask's Deployment selects its own pods only |
| Labels.DevListsAsPicked | internal/controller/devtask/devtask_phases.go:188-192 | the pods a DevTask lists are those its Deployment selects |
| Labels.InferenceListsAsPicked | internal/controller/inference/inference_phases.go:152-157 | the same for InferenceTasks |
| Names.DevNamesEqual | internal/controller/devtask/deployment_builder.go:31-41 | within a namespace exactly which pairs of framework and name give DevTasks children of one name |
| Names.DevNamesInjective | internal/controller/devtask/deployment_builder.go:31-41 | two frameworks keep all names apart if and only if neither ends in a dash and the other |
| Names.DevTaskNames | internal/controller/devtask/deployment_builder.go:31-41 | so children of DevTasks have one name exactly when framework and name are the same |
| Names.InfNamesEqual | internal/controller/inference/inference_helpers.go:37-43 | exactly which pairs give InferenceTasks children of one name |
| Names.InfNamesInjective | internal/controller/inference/inference_helpers.go:37-43 | two frameworks can share a child name if and only if they are one or one starts with the other and a dash, and keep all names apart otherwise |
| Names.InferenceTaskNames | internal/controller/inference/utils.go:88-102 | so with engine sections children have one name exactly when framework and name are the same |
| Names.EvalNamesEqual | internal/controller/evaltask/evaltask_controller.go:252-252 | exactly which pairs give EvalTasks Jobs of one name |
| Names.EvalNamesInjective | internal/controller/evaltask/evaltask_controller.go:252-252 | two frameworks can share a Job name if and only if they are one or one starts with the other and a dash, and keep all names apart otherwise |
| Names.EvalTaskNames | api/v1alpha1/evaltask_types.go:74-82 | so Jobs of EvalTasks, lm-eval with its dash included, have one name exactly when framework and name are the same |
| Names.FrameworksDashFree | internal/controller/inference/utils.go:88-102 | a DevTask's framework has no dash, an InferenceTask's has one only if an engine with a dash is named without a section, an EvalTask's exactly if it is lm-eval |
| Isolation.OwnerRead | internal/controller/inference/inference_helpers.go:37-43 | for each kind the task is read off a child's name, dashes in its name included |
| Names.KindsCollide | internal/controller/devtask/deployment_builder.go:31-41 | a DevTask can share a child name with an InferenceTask exactly when it is called inf or its name starts with inf- |
| Isolation.RequestIsOwn | internal/controller/inference/inference_helpers.go:37-134 | a reconcile of any kind calls only for its own objects, and for pods it may see |
| Isolation.ServesProjects | internal/controller/inference/inference_phases.go:118-214 | an answer to one task's call is the same answer from its part of the store and leaves the other parts alone |
| Isolation.StepProjects | internal/controller/inference/inferencetask_controller.go:51-114 | a step of everyone is a step of each alone |
| Isolation.ProjectsToRun | internal/controller/inference/inference_phases.go:118-214 | any interleaved run of all tasks of a kind, DevTasks with their shared pods included, projects onto a run of each alone |
| Isolation.GuardInCompany | internal/controller/inference/inferencetask_controller.go:87-127 | in company every child of every kind is named for a stored task that holds the finalizer, and for its framework |
| Isolation.NoOrphansInCompany | internal/controller/devtask/devtask_phases.go:290-314 | no child is labelled for a task that has gone, whatever the others do |
| Isolation.RoutesInCompany | internal/controller/devtask/route_builder.go:38-58 | in company the routes of DevTasks are guarded even through framework edits |
| Isolation.OwnPodsOnly | internal/controller/inference/inference_phases.go:149-160 | an InferenceTask lists its own pods only |
| Isolation.ListsOwnExactly | internal/controller/devtask/devtask_phases.go:188-192 | a DevTask lists only its own pods in every answer if and only if no other DevTask's pod of its framework is stored |
| Isolation.VerdictOwnExactly | internal/controller/devtask/devtask_phases.go:188-230 | it is judged only by its own pods in every answer if and only if every decisive pod of its framework is its own |
| Isolation.OneDevTaskPerFramework | internal/controller/devtask/devtask_phases.go:188-192 | DevTasks see only their own pods, whatever pods there are, if and only if the namespace has at most one of each framework |
| Urls.DecimalRead | internal/controller/devtask/gateway_builder.go:302-302 | a printed number reads back |
| Urls.RoundTrip | internal/controller/devtask/gateway_builder.go:282-339 | a printed URL gives back scheme, host, port and path if and only if the host is free of delimiters or bracketed, the path starts with a slash without query or fragment, and the port is not negative |
| Urls.ShownParsed | internal/controller/devtask/gateway_builder.go:282-339 | with a query or fragment in the path the part before it is given back |
| Gateways.ExternalURLRecovers | internal/controller/devtask/gateway_builder.go:282-339 | a DevTask's URL reads back as the chosen place, port 0 read as 80, if and only if the place is usable |
| Gateways.FixedShown | internal/controller/devtask/gateway_builder.go:282-324 | how a host set in the routing section is printed, by port |
| Gateways.GetExternalURLWithGatewayIP | internal/controller/devtask/gateway_builder.go:341-389 | agrees with the other printer in every cluster state when a host is set, and otherwise reads back as the chosen gateway address; empty if and only if the first tool turns routing off or there is no tool |
| Gateways.GetGatewayAddressAndPort | internal/controller/devtask/gateway_builder.go:104-130 | finds node port, HTTP listener, load balancer or this machine, in that order, and never fails |
| Gateways.GetTraefikNodePort | internal/controller/devtask/gateway_builder.go:132-145 | the node port of the first port that has one |
| Gateways.GetTraefikServicePort | internal/controller/devtask/gateway_builder.go:202-224 | the first TCP node port, without one the first TCP port |
| Gateways.GetListenerPort | internal/controller/devtask/gateway_builder.go:117-127 | the port of the first HTTP listener |
| Gateways.GetHostAndPortFallback | internal/controller/devtask/gateway_builder.go:147-167 | service port and address, this machine or port 80 where they are missing |
| Gateways.GetHostnames | internal/controller/devtask/gateway_builder.go:92-102 | the configured hostnames in order |
| Gateways.GetInferenceAddressAndPort | internal/controller/inference/inference_helpers.go:244-274 | gateway address or this machine; node port, HTTP listener, port 80 or 443, or 80 |
| Gateways.GetInferenceURL | internal/controller/inference/inference_helpers.go:215-242 | reads back as the chosen place, over https exactly for port 443, if and only if it is usable; empty if and only if the engine turns routing off or there is no engine section |
| Routing.BuildHTTPRoute | internal/controller/devtask/route_builder.go:38-153 | the built route is the one the theorems speak of; it has the child's name, sends to the one backend and serves a host if and only if the routing section names no hostname or one that stands for it |
| Routing.MatchesBelow | internal/controller/devtask/route_builder.go:66-111 | a prefix takes itself and what is below it, and the rewrite leaves a slash and the rest |
| Routing.MatchedIsBelow | internal/controller/devtask/route_builder.go:66-111 | and nothing else |
| Routing.DevRoutesDisjoint | internal/controller/devtask/gateway_builder.go:84-90 | no request is taken by the default routes of two DevTasks |
| Routing.InferenceRoutesDisjoint | api/v1alpha1/inferencetask_types.go:155-161 | nor of two InferenceTasks |
| Routing.KindsDisjoint | internal/controller/inference/inference_helpers.go:136-209 | nor of a DevTask and an InferenceTask, even of one name |
| Routing.PrefixesMeet | internal/controller/devtask/route_builder.go:66-111 | two prefixes have a path in common if and only if the elements of one begin those of the other |
| Routing.HostnamesMeet | internal/controller/devtask/gateway_builder.go:92-102 | two hostnames, wildcards included, have a host in common if and only if they are equal, covered or nested |
| Routing.RoutesOverlap | internal/controller/devtask/route_builder.go:38-153 | some request is taken by both of any two routes if and only if a hostname of one is related to one of the other and a prefix is too |
| Routing.DevPathsOverlap | internal/controller/devtask/gateway_builder.go:84-90 | the paths of two DevTask routes overlap if and only if the routing paths, custom or default, are nested |
| Routing.OwnRouteCovers | api/v1alpha1/devtask_types.go:222-244 | a DevTask's route takes every path at or below its published path, with or without its trailing slash, custom paths included |
| Routing.InferenceRouteCovers | api/v1alpha1/inferencetask_types.go:155-161 | the same for InferenceTasks |
| Routing.InferenceSees | internal/controller/inference/inference_helpers.go:136-209 | the backend sees a request for the path as a slash and one below it as a slash and the rest, for every host |
| Routing.BuildDevContainer | internal/controller/devtask/deployment_builder.go:75-141 | the argument list tells the tool its base path and begins with the tool's own arguments |
| Routing.BasePathAgrees | internal/controller/devtask/route_builder.go:98-111 | for every request below the default path the backend sees its base path and the rest |
| Routing.CustomPathAgrees | internal/controller/devtask/deployment_builder.go:112-121 | with a custom path Jupyter sees only paths below its base if and only if the custom path is below it |
| Routing.NoVNCSees | internal/controller/devtask/route_builder.go:113-150 | WebSocket requests reach the backend's root, others the rest of their path |
| Routing.WebsockifyBelow | internal/controller/devtask/route_builder.go:113-115 | the WebSocket rule is below the path if and only if the path ends with a slash |
| Arguments.BuildArgs | internal/controller/inference/utils.go:156-233 | the list built step by step is the one the theorems speak of |
| Arguments.ModelSpelt | internal/controller/inference/utils.go:156-181 | the words for a model in the store and for one on the hub |
| Arguments.LlamaSpelt | internal/controller/inference/utils.go:215-233 | the words of a llama.cpp section; VLLMSpelt and TGISpelt give the others |
| Arguments.DecodeFlat | internal/controller/inference/utils.go:156-233 | a list of settings decodes exactly when no flag comes twice |
| Arguments.DecodesIffOneEngine | internal/controller/inference/utils.go:183-233 | the list decodes if and only if at most one engine section is set |
| Arguments.ArgumentsRecovered | internal/controller/inference/utils.go:73-233 | with one engine, port, tuning fields in effect and model source are recovered, the source of a llama.cpp task with a hub model excepted, and no other |
| Arguments.SourceRecovered | internal/controller/inference/utils.go:73-86 | with one engine an s3 model is recovered as its path, an hf model as its id unless the engine is llama.cpp, any other as written, and none as none |
| Arguments.BuildInferenceDeployment | internal/controller/inference/utils.go:148-371 | name, arguments, container port, Service and route backend agree on name and port |
| Waits.NoErrorMeansMet | sdk/wait.go:56-123 | a loop returns no error if and only if a poll met the goal before any failed |
| Waits.BrokenMeansFailed | sdk/wait.go:56-123 | with a broken read if and only if a poll failed before any met the goal, and at the deadline if and only if none did either |
| Waits.TaskClient.Get | sdk/devtask.go:62-69 | reads the store at one moment, never going back, or fails |
| Waits.TaskClient.Exists | sdk/devtask.go:84-93 | absent exactly for an answer NotFound |
| Waits.TaskClient.WaitForPhase | sdk/wait.go:56-78 | the first decisive poll decides; a missing task is waited for |
| Waits.TaskClient.WaitForTerminal | sdk/wait.go:80-102 | the same for a terminal phase |
| Waits.TaskClient.WaitForGone | sdk/wait.go:104-123 | the same for absence |
| Waits.TaskClient.WaitForRunning | sdk/devtask.go:138-162 | a first read that finds the task running or failed is told at once; else the error is the loop's verdict, or without one that of the last read; no error means the task was running during the wait and has left pending for good |
| Waits.TaskClient.WaitForCompleted | sdk/devtask.go:164-178 | the error is the loop's verdict, or without one that of the last read; no error means the task returned is stored and terminal |
| Waits.TaskClient.WaitForDeletion | sdk/devtask.go:180-191 | the error is the loop's verdict; none means task and children are gone, and stay gone if the task was there when the wait began |

## Left out

- Waits.TaskClient.WaitForPhase: says what each return value means, not that the loop ends; that depends on Go's select and on the deadline.
- Recovery.RecoversWithin: nothing happens within a reconcile, only between them, and pods are healthy; an API error in the creating phase is terminal. A DevTask route that somebody deleted counts as present while it lingers.
- Gateways.GetGatewayAddressAndPort: its reads see one state of the cluster, and a failed read counts like a missing object, as in the code; the operator machine's address is any string.
- Routing.RoutesOverlap: prefixes start with a slash, as Gateway API demands of them, and a request is a host and a path; the routes match on nothing else.
- Operators.Interrupted: a reconcile cut short is written as some of the machine's calls, which are the ones `Reconcile` makes, and not as a `Reconcile` that throws.
- Go's maps, pointers and deep copies: a stored object is a value, and a reconcile's copy is its own.
- Environment variables, volumes, resources, init containers, images and labels other than owner, framework and type: they decide nothing proved here.
- The argument list of the evaluation Job: an easier copy of the inference one.
- FineTuneTask and TrainTask: the first never reads its Job's status, the second does nothing.
- Owner references and garbage collection, leader election, watches and the work queue: reconciles of one task are serial and may begin at any time.
- Discovery of the machine's address by subprocess or network interface, configuration from the environment, logging, and quantity parsing.
- The SDK's builders, lists, patches and retries.
