/** The operator's client.  The reconciler classes below make their API calls through it; before each
    call the environment may act, the call may fail, and the client records the run. */
module Clients {
  import opened Cluster
  import opened Machine
  import opened Lookups

  predicate Extends(run: Run, begun: Run) {
    begun.states <= run.states && begun.labels <= run.labels
  }

  /** A run with one more step. */
  lemma RunGrows(cfg: Config, edits: bool, details: Task -> Detail, run: Run, l: Label, s': State)
    requires IsRun(cfg, edits, run) && Informed(details, run)
    requires Step(cfg, edits, run.states[|run.states|-1], l, s')
    requires InformedAt(details, run.states[|run.states|-1].ctl, l)
    ensures var run' := Run(run.states + [s'], run.labels + [l]); IsRun(cfg, edits, run') && Informed(details, run')
  {
    var run' := Run(run.states + [s'], run.labels + [l]);
    forall i | 0 <= i < |run'.labels| ensures StepAt(cfg, edits, run', i) {
      assert i < |run.labels| ==> StepAt(cfg, edits, run, i);
    }
    forall i | 0 <= i < |run'.labels| ensures InformedAt(details, run'.states[i].ctl, run'.labels[i]) {
      assert i < |run.labels| ==> InformedAt(details, run.states[i].ctl, run.labels[i]);
    }
  }

  class Client {
    const cfg: Config
    const edits: bool
    const details: Task -> Detail
    var store: Store
    var timers: seq<Timer>
    var ctl: Ctl
    ghost var run: Run
    ghost var begun: Run

    /** The recorded run is a run that goes on from where the last reconcile began, its URLs were looked
        up, and the client stands at its end. */
    ghost predicate Valid()
      reads this
    {
      && IsRun(cfg, edits, run) && Informed(details, run)
      && run.states[|run.states|-1] == State(store, ctl, timers)
      && begun.states != [] && Extends(run, begun)
    }

    constructor (cfg: Config, edits: bool, details: Task -> Detail, store: Store)
      ensures Valid() && this.cfg == cfg && this.edits == edits && this.details == details
      ensures run == Run([State(store, Idle, [])], [])
    {
      this.cfg := cfg;
      this.edits := edits;
      this.details := details;
      this.store := store;
      timers := [];
      ctl := Idle;
      run := Run([State(store, Idle, [])], []);
      begun := Run([State(store, Idle, [])], []);
    }

    /** Take one step of the run. */
    method Take(l: Label, store': Store, ctl': Ctl, timers': seq<Timer>)
      requires Valid() && Step(cfg, edits, State(store, ctl, timers), l, State(store', ctl', timers'))
      requires InformedAt(details, ctl, l)
      modifies this
      ensures Valid() && begun == old(begun)
      ensures run == Run(old(run).states + [State(store', ctl', timers')], old(run).labels + [l])
      ensures store == store' && ctl == ctl' && timers == timers'
    {
      RunGrows(cfg, edits, details, run, l, State(store', ctl', timers'));
      run := Run(run.states + [State(store', ctl', timers')], run.labels + [l]);
      store, ctl, timers := store', ctl', timers';
    }

    /** Whatever happens around the operator between two of its calls. */
    method Interfere()
      requires Valid()
      modifies this
      ensures Valid() && begun == old(begun) && ctl == old(ctl)
    {
      var steps: nat := *;
      while steps > 0
        invariant Valid() && begun == old(begun) && ctl == old(ctl)
      {
        var e: Event := *;
        var i: int := *;
        if Enabled(cfg, edits, store, e) {
          Take(Env(e), Happen(cfg, store, e), ctl, timers);
        } else if 0 <= i < |timers| && store.now >= timers[i].since + timers[i].ttl {
          Take(TimerFires(i), ApplyDeleteTask(store, cfg.name).store, ctl, timers[..i] + timers[i+1..]);
        }
        steps := steps - 1;
      }
    }

    method Routes(owner: string) returns (items: seq<Item>)
      ensures ListsRoutes(store, owner, items)
    {
      items := [];
      var keys := set key | key in store.children && IsRoute(store, owner, key);
      var left := keys;
      while left != {}
        invariant left <= keys
        invariant forall i :: 0 <= i < |items| ==>
                    IsRoute(store, owner, items[i].key) && items[i].child == store.children[items[i].key]
        invariant forall i :: 0 <= i < |items| ==> items[i].key in keys - left
        invariant forall key :: key in keys - left ==> exists i :: 0 <= i < |items| && items[i].key == key
        invariant forall i, j :: 0 <= i < j < |items| ==> items[i].key != items[j].key
      {
        var key :| key in left;
        ghost var before, more := items, left;
        items := items + [Item(key, store.children[key])];
        left := left - {key};
        forall k | k in keys - left ensures exists i :: 0 <= i < |items| && items[i].key == k {
          if k == key {
            assert items[|before|].key == k;
          } else {
            assert k in keys - more;
            var i :| 0 <= i < |before| && before[i].key == k;
            assert items[i].key == k;
          }
        }
      }
      forall key | IsRoute(store, owner, key) ensures exists i :: 0 <= i < |items| && items[i].key == key {
        assert key in keys - left;
      }
    }

    method Pods(selector: Selector) returns (pods: seq<Pod>)
      ensures ListsPods(store, selector, pods)
    {
      pods := [];
      var chosen := set p | p in store.pods && Selects(selector, p);
      var left := chosen;
      while left != {}
        invariant left <= chosen
        invariant forall p :: p in pods <==> p in chosen - left
        invariant forall i, j :: 0 <= i < j < |pods| ==> pods[i] != pods[j]
      {
        var p :| p in left;
        assert p !in pods;
        pods := pods + [p];
        left := left - {p};
      }
    }

    /** One API call.  Only the call the machine makes next may be made; the reply takes the machine
        on.  `x` is what the reconciler learns besides: the clock, a looked-up URL, an error text. */
    method Call(op: Op) returns (r: Reply, x: Input)
      requires Valid() && Busy(ctl) && op == Request(cfg, ctl)
      modifies this
      ensures Valid() && begun == old(begun)
      ensures ctl == Resume(cfg, old(ctl), r, x)
    {
      Interfere();
      x := *;
      x := x.(now := store.now);
      if AtRoute(ctl) {
        var url := LookUp(details(ctl.ensure.t));
        x := x.(url := url);
      }
      var served := Apply(store, op);
      var fault: bool := *;
      var lost: bool := *;
      if fault && !CleanupRead(ctl) {
        r := Fault;
        if !lost { served := Served(store, Fault); }
      } else if op.ListRoutes? {
        var items := Routes(op.owner);
        r := RouteList(items);
      } else if op.ListPods? {
        var pods := Pods(op.selector);
        r := PodList(pods);
      } else {
        r := served.reply;
      }
      Take(Label.Call(r, x), served.store, Resume(cfg, ctl, r, x), timers);
    }

    /* The same call, told where in the reconcile it is made. */

    method EntryCall(ghost c: EntryPc, op: Op) returns (r: Reply, x: Input)
      requires Valid() && ctl == AtEntry(c) && op == RequestEntry(cfg, c)
      modifies this
      ensures Valid() && begun == old(begun) && ctl == ResumeEntry(cfg, c, r, x)
    {
      r, x := Call(op);
    }

    method PendingCall(ghost c: PendingPc, op: Op) returns (r: Reply, x: Input)
      requires Valid() && ctl == AtPending(c) && op == RequestPending(cfg, c)
      modifies this
      ensures Valid() && begun == old(begun) && ctl == ResumePending(cfg, c, r, x)
    {
      r, x := Call(op);
    }

    method CreatingCall(ghost c: CreatingPc, op: Op) returns (r: Reply, x: Input)
      requires Valid() && ctl == AtCreating(c) && op == RequestCreating(cfg, c)
      modifies this
      ensures Valid() && begun == old(begun) && ctl == ResumeCreating(cfg, c, r, x)
    {
      r, x := Call(op);
    }

    method EnsureCall(ghost c: EnsurePc, op: Op) returns (r: Reply, x: Input)
      requires Valid() && ctl == AtEnsure(c) && op == RequestEnsure(cfg, c)
      modifies this
      ensures Valid() && begun == old(begun) && ctl == ResumeEnsure(cfg, c, r, x)
    {
      r, x := Call(op);
    }

    method RunningCall(ghost c: RunningPc, op: Op) returns (r: Reply, x: Input)
      requires Valid() && ctl == AtRunning(c) && op == RequestRunning(cfg, c)
      modifies this
      ensures Valid() && begun == old(begun) && ctl == ResumeRunning(cfg, c, r, x)
    {
      r, x := Call(op);
    }

    method EndCall(ghost c: EndPc, op: Op) returns (r: Reply, x: Input)
      requires Valid() && ctl == AtEnd(c) && op == RequestEnd(cfg, c)
      modifies this
      ensures Valid() && begun == old(begun) && ctl == ResumeEnd(cfg, c, r, x)
    {
      r, x := Call(op);
    }

    method DropCall(ghost c: DropPc, op: Op) returns (r: Reply, x: Input)
      requires Valid() && ctl == AtDrop(c) && op == RequestDrop(cfg, c)
      modifies this
      ensures Valid() && begun == old(begun) && ctl == ResumeDrop(cfg, c, r)
    {
      r, x := Call(op);
    }

    method UnrouteCall(ghost c: UnroutePc, op: Op) returns (r: Reply, x: Input)
      requires Valid() && ctl == AtUnroute(c) && op == RequestUnroute(cfg, c)
      modifies this
      ensures Valid() && begun == old(begun) && ctl == ResumeUnroute(cfg, c, r)
    {
      r, x := Call(op);
    }

    method ReleaseCall(ghost c: ReleasePc, op: Op) returns (r: Reply, x: Input)
      requires Valid() && ctl == AtRelease(c) && op == RequestRelease(cfg, c)
      modifies this
      ensures Valid() && begun == old(begun) && ctl == ResumeRelease(cfg, c, r)
    {
      r, x := Call(op);
    }

    method EvalCall(ghost c: EvalPc, op: Op) returns (r: Reply, x: Input)
      requires Valid() && ctl == AtEval(c) && op == RequestEval(cfg, c)
      modifies this
      ensures Valid() && begun == old(begun) && ctl == ResumeEval(cfg, c, r, x)
    {
      r, x := Call(op);
    }

    method Begin()
      requires Valid() && ctl.Idle?
      modifies this
      ensures Valid() && begun == old(run) && ctl == AtEntry(Fetch)
    {
      begun := run;
      Take(Label.Begin, store, AtEntry(Fetch), timers);
    }

    /** The reconcile returns `o`; a timer it made starts. */
    method Return(o: Outcome, timer: Option<Timer>)
      requires Valid() && ctl == Done(o, timer)
      modifies this
      ensures Valid() && begun == old(begun) && ctl.Idle?
      ensures |run.labels| > 0 && run.labels[|run.labels|-1] == Label.Return
      ensures run.states[|run.states|-2].ctl == Done(o, timer)
    {
      Take(Label.Return, store, Idle, timers + (if timer.Some? then [timer.value] else []));
    }
  }
}
