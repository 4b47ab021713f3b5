/** The argument list of an inference container, and what a reader of the list can recover from it. */
module Arguments {
  import opened Cluster
  import opened Specs
  import opened Urls
  import opened Names
  import Routing

  /* ------------------------------ Flags ------------------------------ */

  datatype Flag =
    | Trust | Model | ShortModel | Host | Port
    | TensorParallel | GpuMemory | MaxModelLen
    | MaxBatch | MaxInput | MaxTotal
    | Context | Threads | GpuLayers | Number

  function Name(f: Flag): string {
    match f
    case Trust => "--trust-remote-code"
    case Model => "--model"
    case ShortModel => "-m"
    case Host => "--host"
    case Port => "--port"
    case TensorParallel => "--tensor-parallel-size"
    case GpuMemory => "--gpu-memory-utilization"
    case MaxModelLen => "--max-model-len"
    case MaxBatch => "--max-batch-size"
    case MaxInput => "--max-input-length"
    case MaxTotal => "--max-total-tokens"
    case Context => "-c"
    case Threads => "-t"
    case GpuLayers => "--n-gpu-layers"
    case Number => "-n"
  }

  function FlagOf(s: string): Option<Flag> {
    if s == Name(Trust) then Some(Trust)
    else if s == Name(Model) then Some(Model)
    else if s == Name(ShortModel) then Some(ShortModel)
    else if s == Name(Host) then Some(Host)
    else if s == Name(Port) then Some(Port)
    else if s == Name(TensorParallel) then Some(TensorParallel)
    else if s == Name(GpuMemory) then Some(GpuMemory)
    else if s == Name(MaxModelLen) then Some(MaxModelLen)
    else if s == Name(MaxBatch) then Some(MaxBatch)
    else if s == Name(MaxInput) then Some(MaxInput)
    else if s == Name(MaxTotal) then Some(MaxTotal)
    else if s == Name(Context) then Some(Context)
    else if s == Name(Threads) then Some(Threads)
    else if s == Name(GpuLayers) then Some(GpuLayers)
    else if s == Name(Number) then Some(Number)
    else None
  }

  /** Length and one letter tell the names apart. */
  function Mark(s: string): (int, char)
    requires |s| >= 2
  {
    (|s|, if |s| == 2 then s[1] else if |s| > 6 then s[6] else s[2])
  }

  function MarkOf(f: Flag): (int, char) {
    match f
    case Trust => (19, 't')
    case Model => (7, 'l')
    case ShortModel => (2, 'm')
    case Host => (6, 'h')
    case Port => (6, 'p')
    case TensorParallel => (22, 'o')
    case GpuMemory => (24, 'm')
    case MaxModelLen => (15, 'm')
    case MaxBatch => (16, 'b')
    case MaxInput => (18, 'i')
    case MaxTotal => (18, 't')
    case Context => (2, 'c')
    case Threads => (2, 't')
    case GpuLayers => (14, 'u')
    case Number => (2, 'n')
  }

  lemma Marked(f: Flag)
    ensures |Name(f)| >= 2 && Mark(Name(f)) == MarkOf(f)
  {
  }

  lemma NamesDiffer(f: Flag, g: Flag)
    ensures Name(f) == Name(g) <==> f == g
  {
    Marked(f);
    Marked(g);
  }

  lemma FlagNamed(f: Flag)
    ensures FlagOf(Name(f)) == Some(f)
  {
    forall g: Flag ensures Name(f) == Name(g) <==> f == g { NamesDiffer(f, g); }
  }

  /** `f` given with `value`; `Trust` is given without one. */
  datatype Setting = Setting(flag: Flag, value: string)

  function Words(s: Setting): seq<string> { if s.flag == Trust then [Name(Trust)] else [Name(s.flag), s.value] }

  function Flat(ss: seq<Setting>): seq<string> {
    if ss == [] then [] else Words(ss[0]) + Flat(ss[1..])
  }

  lemma {:induction false} FlatAppend(a: seq<Setting>, b: seq<Setting>)
    ensures Flat(a + b) == Flat(a) + Flat(b)
  {
    if a == [] {
      assert a + b == b;
    } else {
      assert (a + b)[1..] == a[1..] + b;
      FlatAppend(a[1..], b);
    }
  }

  lemma FlatOne(s: Setting)
    ensures Flat([s]) == Words(s)
  {
    assert Flat([s][1..]) == [];
  }

  /** The settings of an argument list; none if a flag is unknown, or lacks its value, or comes twice. */
  function Decode(args: seq<string>): Option<map<Flag, string>> {
    if args == [] then Some(map[])
    else
      var flag := FlagOf(args[0]);
      if flag == None || (flag.value != Trust && |args| == 1) then None
      else
        var rest := Decode(if flag.value == Trust then args[1..] else args[2..]);
        if rest == None || flag.value in rest.value then None
        else Some(rest.value[flag.value := if flag.value == Trust then "" else args[1]])
  }

  predicate Distinct(ss: seq<Setting>) {
    forall i, j :: 0 <= i < j < |ss| ==> ss[i].flag != ss[j].flag
  }

  function Table(ss: seq<Setting>): map<Flag, string> {
    if ss == [] then map[] else Table(ss[1..])[ss[0].flag := if ss[0].flag == Trust then "" else ss[0].value]
  }

  predicate Given(ss: seq<Setting>, f: Flag) { exists i :: 0 <= i < |ss| && ss[i].flag == f }

  lemma {:induction false} TableKeys(ss: seq<Setting>, f: Flag)
    ensures f in Table(ss) <==> Given(ss, f)
  {
    if ss != [] {
      TableKeys(ss[1..], f);
      if Given(ss[1..], f) {
        var i :| 0 <= i < |ss[1..]| && ss[1..][i].flag == f;
        assert ss[i+1].flag == f;
      }
      if Given(ss, f) && ss[0].flag != f {
        var i :| 0 <= i < |ss| && ss[i].flag == f;
        assert ss[1..][i-1].flag == f;
      }
    }
  }

  /** An argument list made from settings decodes to them exactly when no flag comes twice. */
  lemma {:induction false} DecodeFlat(ss: seq<Setting>)
    ensures Decode(Flat(ss)) == if Distinct(ss) then Some(Table(ss)) else None
  {
    if ss != [] {
      var rest := ss[1..];
      DecodeFlat(rest);
      TableKeys(rest, ss[0].flag);
      FlagNamed(ss[0].flag);
      var args := Flat(ss);
      assert args == Words(ss[0]) + Flat(rest);
      if ss[0].flag == Trust { assert args[1..] == Flat(rest); } else { assert args[2..] == Flat(rest); }
      if Distinct(ss) {
        assert !Given(rest, ss[0].flag);
      } else if Distinct(rest) {
        var i, j :| 0 <= i < j < |ss| && ss[i].flag == ss[j].flag;
        assert i == 0 && rest[j-1].flag == ss[0].flag;
      }
    }
  }

  /* ------------------------------ The list of a task ------------------------------ */

  /** Where the model comes from. */
  datatype Source = NoModel | Stored(path: string) | Hub(id: string)

  /** The model's path in the store and its id on the hub; at most one is not empty. */
  function ModelPath(t: InferenceTask): (string, string) {
    if t.model == "" then ("", "")
    else if "s3://" <= t.model then (t.model[5..], "")
    else if "hf://" <= t.model then ("", t.model[5..])
    else (t.model, "")
  }

  function SourceOf(t: InferenceTask): Source {
    var (path, id) := ModelPath(t);
    if path != "" then Stored(path) else if id != "" then Hub(id) else NoModel
  }

  /** A setting that is given only under a condition. */
  datatype Choice = Choice(given: bool, flag: Flag, value: string)

  function Chosen(cs: seq<Choice>): seq<Setting> {
    if cs == [] then []
    else if cs[0].given then [Setting(cs[0].flag, cs[0].value)] + Chosen(cs[1..])
    else Chosen(cs[1..])
  }

  const MODELS := "/models/"

  function HubChoices(given: bool, id: string): seq<Choice> {
    [Choice(given && id != "", Trust, ""), Choice(given && id != "", Model, id)]
  }

  /** The model comes from the store, or from the hub, which llama.cpp is not told about. */
  function ModelChoices(t: InferenceTask): seq<Choice> {
    var (path, id) := ModelPath(t);
    [Choice(path != "", if t.llamaCpp.Some? then ShortModel else Model, "/models/" + path)]
    + HubChoices(t.vllm.Some?, id)
    + HubChoices(t.tgi.Some?, id)
  }

  function Address(port: int): seq<Choice> { [Choice(true, Host, "0.0.0.0"), Choice(true, Port, Printed(port))] }

  function VLLMChoices(v: VLLM, port: int): seq<Choice> {
    Address(port)
    + [Choice(v.tensorParallelSize > 1, TensorParallel, Printed(v.tensorParallelSize))]
    + [Choice(v.gpuMemoryUtilization != "", GpuMemory, v.gpuMemoryUtilization)]
    + [Choice(v.maxModelLen > 0, MaxModelLen, Printed(v.maxModelLen))]
  }

  function TGIChoices(g: TGI, port: int): seq<Choice> {
    Address(port)
    + [Choice(g.maxBatchSize > 0, MaxBatch, Printed(g.maxBatchSize))]
    + [Choice(g.maxInputLen > 0, MaxInput, Printed(g.maxInputLen))]
    + [Choice(g.maxTotalTokens > 0, MaxTotal, Printed(g.maxTotalTokens))]
  }

  function LlamaChoices(l: LlamaCpp, port: int): seq<Choice> {
    ContextChoices(l, port)
    + [Choice(l.gpuLayers > 0, GpuLayers, Printed(l.gpuLayers))]
    + [Choice(l.n.Some? && l.n.value > 0, Number, if l.n.Some? then Printed(l.n.value) else "")]
  }

  function EngineChoices(t: InferenceTask, port: int): seq<Choice> {
    (if t.vllm.Some? then VLLMChoices(t.vllm.value, port) else [])
    + (if t.tgi.Some? then TGIChoices(t.tgi.value, port) else [])
    + (if t.llamaCpp.Some? then LlamaChoices(t.llamaCpp.value, port) else [])
  }

  /** Everything a task's argument list may say, in order. */
  function SettingsOf(t: InferenceTask, port: int): seq<Setting> { Chosen(ModelChoices(t) + EngineChoices(t, port)) }

  lemma {:induction false} ChosenAppend(a: seq<Choice>, b: seq<Choice>)
    ensures Chosen(a + b) == Chosen(a) + Chosen(b)
  {
    if a == [] {
      assert a + b == b;
    } else {
      assert (a + b)[1..] == a[1..] + b;
      ChosenAppend(a[1..], b);
    }
  }

  function Told(c: Choice): seq<string> { if c.given then Words(Setting(c.flag, c.value)) else [] }

  /** One more setting, or none, after the ones so far. */
  lemma OneMore(cs: seq<Choice>, c: Choice)
    ensures Flat(Chosen(cs + [c])) == Flat(Chosen(cs)) + Told(c)
  {
    ChosenAppend(cs, [c]);
    if c.given {
      assert Chosen([c]) == [Setting(c.flag, c.value)] + Chosen([c][1..]) == [Setting(c.flag, c.value)];
      FlatAppend(Chosen(cs), [Setting(c.flag, c.value)]);
      FlatOne(Setting(c.flag, c.value));
    } else {
      assert Chosen([c]) == Chosen([c][1..]) == [];
      assert Chosen(cs) + [] == Chosen(cs);
    }
  }

  /** The arguments so far, after `args0`, and those with one more setting. */
  lemma More(args0: seq<string>, cs: seq<Choice>, c: Choice, before: seq<string>, after: seq<string>)
    requires before == args0 + Flat(Chosen(cs)) && after == before + Told(c)
    ensures after == args0 + Flat(Chosen(cs + [c]))
  {
    OneMore(cs, c);
  }

  lemma HubWords(cs: seq<Choice>, given: bool, id: string)
    ensures Flat(Chosen(cs + HubChoices(given, id)))
         == Flat(Chosen(cs)) + (if given && id != "" then ["--trust-remote-code"] + ["--model", id] else [])
  {
    var c, c' := Choice(given && id != "", Trust, ""), Choice(given && id != "", Model, id);
    OneMore(cs, c);
    OneMore(cs + [c], c');
    assert cs + [c] + [c'] == cs + HubChoices(given, id);
  }

  method AppendModel(t: InferenceTask) returns (args: seq<string>)
    ensures args == Flat(Chosen(ModelChoices(t)))
  {
    args := [];
    var (s3Path, hfModelID) := ModelPath(t);
    ghost var c := Choice(s3Path != "", if t.llamaCpp.Some? then ShortModel else Model, "/models/" + s3Path);
    if s3Path != "" {
      if t.llamaCpp.Some? {
        args := args + ["-m", "/models/" + s3Path];
      } else {
        args := args + ["--model", "/models/" + s3Path];
      }
    }
    OneMore([], c);
    assert [] + [c] == [c];
    args := AppendHub(args, [c], t.vllm.Some?, hfModelID);
    args := AppendHub(args, [c] + HubChoices(t.vllm.Some?, hfModelID), t.tgi.Some?, hfModelID);
  }

  method AppendHub(args0: seq<string>, ghost cs: seq<Choice>, engine: bool, hfModelID: string)
    returns (args: seq<string>)
    requires args0 == Flat(Chosen(cs))
    ensures args == Flat(Chosen(cs + HubChoices(engine, hfModelID)))
  {
    args := args0;
    if engine && hfModelID != "" {
      args := args + ["--trust-remote-code"];
      args := args + ["--model", hfModelID];
    }
    HubWords(cs, engine, hfModelID);
  }

  lemma AddressWords(args: seq<string>, port: int)
    ensures args + Flat(Chosen(Address(port))) == args + ["--host", "0.0.0.0"] + ["--port", Printed(port)]
  {
    var host, p := Choice(true, Host, "0.0.0.0"), Choice(true, Port, Printed(port));
    OneMore([], host);
    OneMore([host], p);
    assert [] + [host] == [host] && [host] + [p] == Address(port);
  }

  method AppendAddress(args0: seq<string>, port: int) returns (args: seq<string>)
    ensures args == args0 + Flat(Chosen(Address(port)))
  {
    args := args0 + ["--host", "0.0.0.0"];
    args := args + ["--port", Printed(port)];
    AddressWords(args0, port);
  }

  method AppendVLLM(args0: seq<string>, v: VLLM, port: int) returns (args: seq<string>)
    ensures args == args0 + Flat(Chosen(VLLMChoices(v, port)))
  {
    args := AppendAddress(args0, port);
    ghost var cs, before := Address(port), args;
    if v.tensorParallelSize > 1 { args := args + ["--tensor-parallel-size", Printed(v.tensorParallelSize)]; }
    More(args0, cs, Choice(v.tensorParallelSize > 1, TensorParallel, Printed(v.tensorParallelSize)), before, args);
    cs, before := cs + [Choice(v.tensorParallelSize > 1, TensorParallel, Printed(v.tensorParallelSize))], args;
    if v.gpuMemoryUtilization != "" { args := args + ["--gpu-memory-utilization", v.gpuMemoryUtilization]; }
    More(args0, cs, Choice(v.gpuMemoryUtilization != "", GpuMemory, v.gpuMemoryUtilization), before, args);
    cs, before := cs + [Choice(v.gpuMemoryUtilization != "", GpuMemory, v.gpuMemoryUtilization)], args;
    if v.maxModelLen > 0 { args := args + ["--max-model-len", Printed(v.maxModelLen)]; }
    More(args0, cs, Choice(v.maxModelLen > 0, MaxModelLen, Printed(v.maxModelLen)), before, args);
  }

  method AppendTGI(args0: seq<string>, g: TGI, port: int) returns (args: seq<string>)
    ensures args == args0 + Flat(Chosen(TGIChoices(g, port)))
  {
    args := AppendAddress(args0, port);
    ghost var cs, before := Address(port), args;
    if g.maxBatchSize > 0 { args := args + ["--max-batch-size", Printed(g.maxBatchSize)]; }
    More(args0, cs, Choice(g.maxBatchSize > 0, MaxBatch, Printed(g.maxBatchSize)), before, args);
    cs, before := cs + [Choice(g.maxBatchSize > 0, MaxBatch, Printed(g.maxBatchSize))], args;
    if g.maxInputLen > 0 { args := args + ["--max-input-length", Printed(g.maxInputLen)]; }
    More(args0, cs, Choice(g.maxInputLen > 0, MaxInput, Printed(g.maxInputLen)), before, args);
    cs, before := cs + [Choice(g.maxInputLen > 0, MaxInput, Printed(g.maxInputLen))], args;
    if g.maxTotalTokens > 0 { args := args + ["--max-total-tokens", Printed(g.maxTotalTokens)]; }
    More(args0, cs, Choice(g.maxTotalTokens > 0, MaxTotal, Printed(g.maxTotalTokens)), before, args);
  }

  function ContextChoices(l: LlamaCpp, port: int): seq<Choice> {
    Address(port)
    + [Choice(l.contextSize > 0, Context, Printed(l.contextSize))]
    + [Choice(l.threads > 0, Threads, Printed(l.threads))]
  }

  method AppendContext(args0: seq<string>, l: LlamaCpp, port: int) returns (args: seq<string>)
    ensures args == args0 + Flat(Chosen(ContextChoices(l, port)))
  {
    args := AppendAddress(args0, port);
    ghost var cs, before := Address(port), args;
    if l.contextSize > 0 { args := args + ["-c", Printed(l.contextSize)]; }
    More(args0, cs, Choice(l.contextSize > 0, Context, Printed(l.contextSize)), before, args);
    cs, before := cs + [Choice(l.contextSize > 0, Context, Printed(l.contextSize))], args;
    if l.threads > 0 { args := args + ["-t", Printed(l.threads)]; }
    More(args0, cs, Choice(l.threads > 0, Threads, Printed(l.threads)), before, args);
  }

  method AppendLlama(args0: seq<string>, l: LlamaCpp, port: int) returns (args: seq<string>)
    ensures args == args0 + Flat(Chosen(LlamaChoices(l, port)))
  {
    args := AppendContext(args0, l, port);
    ghost var cs, before := ContextChoices(l, port), args;
    if l.gpuLayers > 0 { args := args + ["--n-gpu-layers", Printed(l.gpuLayers)]; }
    More(args0, cs, Choice(l.gpuLayers > 0, GpuLayers, Printed(l.gpuLayers)), before, args);
    cs, before := cs + [Choice(l.gpuLayers > 0, GpuLayers, Printed(l.gpuLayers))], args;
    if l.n.Some? && l.n.value > 0 { args := args + ["-n", Printed(l.n.value)]; }
    More(args0, cs, Choice(l.n.Some? && l.n.value > 0, Number, if l.n.Some? then Printed(l.n.value) else ""),
         before, args);
  }

  /** The arguments of the inference container. */
  method BuildArgs(t: InferenceTask, port: int) returns (args: seq<string>)
    ensures args == Flat(SettingsOf(t, port))
  {
    args := AppendModel(t);
    ghost var v := if t.vllm.Some? then VLLMChoices(t.vllm.value, port) else [];
    ghost var g := if t.tgi.Some? then TGIChoices(t.tgi.value, port) else [];
    ghost var l := if t.llamaCpp.Some? then LlamaChoices(t.llamaCpp.value, port) else [];
    if t.vllm.Some? { args := AppendVLLM(args, t.vllm.value, port); }
    assert args == Flat(Chosen(ModelChoices(t))) + Flat(Chosen(v));
    if t.tgi.Some? { args := AppendTGI(args, t.tgi.value, port); }
    assert args == Flat(Chosen(ModelChoices(t))) + Flat(Chosen(v)) + Flat(Chosen(g));
    if t.llamaCpp.Some? { args := AppendLlama(args, t.llamaCpp.value, port); }
    ListsJoin(ModelChoices(t), v, g, l);
  }

  lemma ListsJoin(a: seq<Choice>, b: seq<Choice>, c: seq<Choice>, d: seq<Choice>)
    ensures Flat(Chosen(a + (b + c + d))) == Flat(Chosen(a)) + Flat(Chosen(b)) + Flat(Chosen(c)) + Flat(Chosen(d))
  {
    ListJoin(a, b + c + d);
    ListJoin(b + c, d);
    ListJoin(b, c);
    Regroup(Flat(Chosen(a)), Flat(Chosen(b)), Flat(Chosen(c)), Flat(Chosen(d)));
  }

  lemma Regroup<T>(a: seq<T>, b: seq<T>, c: seq<T>, d: seq<T>)
    ensures a + ((b + c) + d) == a + b + c + d
  {
  }

  lemma ListJoin(a: seq<Choice>, b: seq<Choice>)
    ensures Flat(Chosen(a + b)) == Flat(Chosen(a)) + Flat(Chosen(b))
  {
    ChosenAppend(a, b);
    FlatAppend(Chosen(a), Chosen(b));
  }

  /* ------------------------------ Each flag once ------------------------------ */

  function Rank(f: Flag): nat {
    match f
    case Trust => 0
    case Model => 1
    case ShortModel => 2
    case Host => 3
    case Port => 4
    case TensorParallel => 5
    case GpuMemory => 6
    case MaxModelLen => 7
    case MaxBatch => 8
    case MaxInput => 9
    case MaxTotal => 10
    case Context => 11
    case Threads => 12
    case GpuLayers => 13
    case Number => 14
  }

  /** The flags ascend, from rank `lo` and below rank `hi`, and their table is `m`. */
  predicate Ascends(ss: seq<Setting>, lo: nat, hi: nat, m: map<Flag, string>) {
    && (forall i :: 0 <= i < |ss| ==> lo <= Rank(ss[i].flag) < hi)
    && (forall i, j :: 0 <= i < j < |ss| ==> Rank(ss[i].flag) < Rank(ss[j].flag))
    && Table(ss) == m
  }

  lemma {:induction false} TableAppend(a: seq<Setting>, b: seq<Setting>)
    ensures Table(a + b) == Table(b) + Table(a)
  {
    if a == [] {
      assert a + b == b;
    } else {
      assert (a + b)[1..] == a[1..] + b;
      TableAppend(a[1..], b);
    }
  }

  lemma AscendsOn(a: seq<Setting>, b: seq<Setting>, lo: nat, mid: nat, hi: nat,
                  m: map<Flag, string>, n: map<Flag, string>)
    requires Ascends(a, lo, mid, m) && Ascends(b, mid, hi, n) && lo <= mid <= hi
    ensures Ascends(a + b, lo, hi, n + m)
  {
    TableAppend(a, b);
  }

  function With(m: map<Flag, string>, c: Choice): map<Flag, string> { if c.given then m[c.flag := c.value] else m }

  lemma ChosenOne(c: Choice)
    ensures Chosen([c]) == if c.given then [Setting(c.flag, c.value)] else []
  {
    assert Chosen([c][1..]) == [];
  }

  lemma TableOne(s: Setting)
    ensures Table([s]) == map[s.flag := if s.flag == Trust then "" else s.value]
  {
    assert Table([s][1..]) == map[];
  }

  lemma NotYet(ss: seq<Setting>, lo: nat, hi: nat, m: map<Flag, string>, f: Flag)
    requires Ascends(ss, lo, hi, m) && Rank(f) >= hi
    ensures f !in m
  {
    TableKeys(ss, f);
  }

  lemma AscendsMore(cs: seq<Choice>, c: Choice, lo: nat, hi: nat, m: map<Flag, string>)
    requires Ascends(Chosen(cs), lo, hi, m) && lo <= hi <= Rank(c.flag) && c.flag != Trust
    ensures Ascends(Chosen(cs + [c]), lo, Rank(c.flag) + 1, With(m, c))
  {
    ChosenOne(c);
    ChosenAppend(cs, [c]);
    if c.given {
      var s := Setting(c.flag, c.value);
      TableOne(s);
      NotYet(Chosen(cs), lo, hi, m, c.flag);
      AscendsOn(Chosen(cs), [s], lo, Rank(c.flag), Rank(c.flag) + 1, m, map[c.flag := c.value]);
    } else {
      assert Chosen(cs + [c]) == Chosen(cs);
    }
  }

  function AddressTable(port: int): map<Flag, string> { map[Host := "0.0.0.0", Port := Printed(port)] }

  lemma AddressAscends(port: int)
    ensures Ascends(Chosen(Address(port)), 3, 5, AddressTable(port))
  {
    var host, p := Choice(true, Host, "0.0.0.0"), Choice(true, Port, Printed(port));
    AscendsMore([], host, 3, 3, map[]);
    AscendsMore([host], p, 3, 4, map[Host := "0.0.0.0"]);
    assert [] + [host] == [host] && [host] + [p] == Address(port);
  }

  function VLLMTable(v: VLLM, port: int): map<Flag, string> {
    With(With(With(AddressTable(port),
                   Choice(v.tensorParallelSize > 1, TensorParallel, Printed(v.tensorParallelSize))),
              Choice(v.gpuMemoryUtilization != "", GpuMemory, v.gpuMemoryUtilization)),
         Choice(v.maxModelLen > 0, MaxModelLen, Printed(v.maxModelLen)))
  }

  lemma VLLMAscends(v: VLLM, port: int)
    ensures Ascends(Chosen(VLLMChoices(v, port)), 3, 15, VLLMTable(v, port))
  {
    AddressAscends(port);
    var cs := Address(port);
    var c := Choice(v.tensorParallelSize > 1, TensorParallel, Printed(v.tensorParallelSize));
    AscendsMore(cs, c, 3, 5, AddressTable(port));
    var c' := Choice(v.gpuMemoryUtilization != "", GpuMemory, v.gpuMemoryUtilization);
    AscendsMore(cs + [c], c', 3, 6, With(AddressTable(port), c));
    AscendsMore(cs + [c] + [c'], Choice(v.maxModelLen > 0, MaxModelLen, Printed(v.maxModelLen)),
                3, 7, With(With(AddressTable(port), c), c'));
  }

  function TGITable(g: TGI, port: int): map<Flag, string> {
    With(With(With(AddressTable(port),
                   Choice(g.maxBatchSize > 0, MaxBatch, Printed(g.maxBatchSize))),
              Choice(g.maxInputLen > 0, MaxInput, Printed(g.maxInputLen))),
         Choice(g.maxTotalTokens > 0, MaxTotal, Printed(g.maxTotalTokens)))
  }

  lemma TGIAscends(g: TGI, port: int)
    ensures Ascends(Chosen(TGIChoices(g, port)), 3, 15, TGITable(g, port))
  {
    AddressAscends(port);
    var cs := Address(port);
    var c := Choice(g.maxBatchSize > 0, MaxBatch, Printed(g.maxBatchSize));
    AscendsMore(cs, c, 3, 5, AddressTable(port));
    var c' := Choice(g.maxInputLen > 0, MaxInput, Printed(g.maxInputLen));
    AscendsMore(cs + [c], c', 3, 9, With(AddressTable(port), c));
    AscendsMore(cs + [c] + [c'], Choice(g.maxTotalTokens > 0, MaxTotal, Printed(g.maxTotalTokens)),
                3, 10, With(With(AddressTable(port), c), c'));
  }

  function LlamaTable(l: LlamaCpp, port: int): map<Flag, string> {
    With(With(With(With(AddressTable(port),
                        Choice(l.contextSize > 0, Context, Printed(l.contextSize))),
                   Choice(l.threads > 0, Threads, Printed(l.threads))),
              Choice(l.gpuLayers > 0, GpuLayers, Printed(l.gpuLayers))),
         Choice(l.n.Some? && l.n.value > 0, Number, if l.n.Some? then Printed(l.n.value) else ""))
  }

  lemma LlamaAscends(l: LlamaCpp, port: int)
    ensures Ascends(Chosen(LlamaChoices(l, port)), 3, 15, LlamaTable(l, port))
  {
    AddressAscends(port);
    var m0 := AddressTable(port);
    var c := Choice(l.contextSize > 0, Context, Printed(l.contextSize));
    var c' := Choice(l.threads > 0, Threads, Printed(l.threads));
    var c'' := Choice(l.gpuLayers > 0, GpuLayers, Printed(l.gpuLayers));
    var cs := Address(port);
    AscendsTwice(cs, c, c', 3, 5, m0);
    AscendsTwice(cs + [c] + [c'], c'',
                 Choice(l.n.Some? && l.n.value > 0, Number, if l.n.Some? then Printed(l.n.value) else ""),
                 3, 13, With(With(m0, c), c'));
  }

  lemma AscendsTwice(cs: seq<Choice>, c: Choice, c': Choice, lo: nat, hi: nat, m: map<Flag, string>)
    requires Ascends(Chosen(cs), lo, hi, m) && lo <= hi <= Rank(c.flag) < Rank(c'.flag) && c.flag != Trust
    ensures Ascends(Chosen(cs + [c] + [c']), lo, Rank(c'.flag) + 1, With(With(m, c), c'))
  {
    AscendsMore(cs, c, lo, hi, m);
    AscendsMore(cs + [c], c', lo, Rank(c.flag) + 1, With(m, c));
  }

  function Engines(t: InferenceTask): nat {
    (if t.vllm.Some? then 1 else 0) + (if t.tgi.Some? then 1 else 0) + (if t.llamaCpp.Some? then 1 else 0)
  }

  /** What the one engine section there is says. */
  function EngineTable(t: InferenceTask, port: int): map<Flag, string> {
    if t.vllm.Some? then VLLMTable(t.vllm.value, port)
    else if t.tgi.Some? then TGITable(t.tgi.value, port)
    else if t.llamaCpp.Some? then LlamaTable(t.llamaCpp.value, port)
    else map[]
  }

  lemma OneEngine(t: InferenceTask, port: int)
    requires Engines(t) <= 1
    ensures Ascends(Chosen(EngineChoices(t, port)), 3, 15, EngineTable(t, port))
  {
    if t.vllm.Some? {
      VLLMAscends(t.vllm.value, port);
      assert EngineChoices(t, port) == VLLMChoices(t.vllm.value, port);
    } else if t.tgi.Some? {
      TGIAscends(t.tgi.value, port);
      assert EngineChoices(t, port) == TGIChoices(t.tgi.value, port);
    } else if t.llamaCpp.Some? {
      LlamaAscends(t.llamaCpp.value, port);
      assert EngineChoices(t, port) == LlamaChoices(t.llamaCpp.value, port);
    }
  }

  /** What the list says of the model. */
  function ModelTable(t: InferenceTask): map<Flag, string> {
    match SourceOf(t)
    case Stored(path) => map[if t.llamaCpp.Some? then ShortModel else Model := MODELS + path]
    case Hub(id) => if t.vllm.Some? || t.tgi.Some? then map[Trust := "", Model := id] else map[]
    case NoModel => map[]
  }

  lemma HubChosen(given: bool, id: string)
    ensures Chosen(HubChoices(given, id)) == if given && id != "" then [Setting(Trust, ""), Setting(Model, id)] else []
  {
    var cs := HubChoices(given, id);
    assert cs[1..] == [cs[1]] && Chosen(cs[1..][1..]) == [];
  }

  function ModelList(t: InferenceTask): seq<Setting> {
    match SourceOf(t)
    case Stored(path) => [Setting(if t.llamaCpp.Some? then ShortModel else Model, MODELS + path)]
    case Hub(id) => if t.vllm.Some? || t.tgi.Some? then [Setting(Trust, ""), Setting(Model, id)] else []
    case NoModel => []
  }

  lemma ModelChosen(t: InferenceTask)
    requires Engines(t) <= 1
    ensures Chosen(ModelChoices(t)) == ModelList(t)
  {
    var (path, id) := ModelPath(t);
    var c := Choice(path != "", if t.llamaCpp.Some? then ShortModel else Model, MODELS + path);
    HubChosen(t.vllm.Some?, id);
    HubChosen(t.tgi.Some?, id);
    ChosenAppend([c] + HubChoices(t.vllm.Some?, id), HubChoices(t.tgi.Some?, id));
    ChosenAppend([c], HubChoices(t.vllm.Some?, id));
    assert Chosen([c]) == if c.given then [Setting(c.flag, c.value)] else [] by { assert Chosen([c][1..]) == []; }
  }

  lemma ModelAscends(t: InferenceTask)
    requires Engines(t) <= 1
    ensures Ascends(Chosen(ModelChoices(t)), 0, 3, ModelTable(t))
  {
    ModelChosen(t);
    var ss := ModelList(t);
    match SourceOf(t) {
      case Stored(_) => assert Table(ss[1..]) == map[];
      case Hub(id) =>
        if t.vllm.Some? || t.tgi.Some? {
          assert ss[1..] == [Setting(Model, id)] && Table(ss[1..][1..]) == map[];
          assert Table(ss[1..]) == map[Model := id];
        }
      case NoModel =>
    }
  }

  lemma Clash(a: seq<Setting>, b: seq<Setting>, f: Flag)
    ensures Given(a, f) && Given(b, f) ==> !Distinct(a + b)
    ensures !Distinct(a) || !Distinct(b) ==> !Distinct(a + b)
    ensures Given(a, f) || Given(b, f) ==> Given(a + b, f)
  {
    if Given(a, f) {
      var i :| 0 <= i < |a| && a[i].flag == f;
      assert (a + b)[i].flag == f;
    }
    if Given(b, f) {
      var j :| 0 <= j < |b| && b[j].flag == f;
      assert (a + b)[|a| + j].flag == f;
    }
    if !Distinct(a) {
      var i, j :| 0 <= i < j < |a| && a[i].flag == a[j].flag;
      assert (a + b)[i].flag == (a + b)[j].flag;
    }
    if !Distinct(b) {
      var i, j :| 0 <= i < j < |b| && b[i].flag == b[j].flag;
      assert (a + b)[|a| + i].flag == (a + b)[|a| + j].flag;
    }
  }

  lemma HostGiven(ss: seq<Setting>, m: map<Flag, string>)
    requires Ascends(ss, 3, 15, m) && Host in m
    ensures Given(ss, Host)
  {
    TableKeys(ss, Host);
  }

  /** With two engine sections the host is given twice. */
  lemma TwoEngines(t: InferenceTask, port: int)
    requires Engines(t) > 1
    ensures !Distinct(SettingsOf(t, port))
  {
    var v := if t.vllm.Some? then VLLMChoices(t.vllm.value, port) else [];
    var g := if t.tgi.Some? then TGIChoices(t.tgi.value, port) else [];
    var l := if t.llamaCpp.Some? then LlamaChoices(t.llamaCpp.value, port) else [];
    if t.vllm.Some? { VLLMAscends(t.vllm.value, port); HostGiven(Chosen(v), VLLMTable(t.vllm.value, port)); }
    if t.tgi.Some? { TGIAscends(t.tgi.value, port); HostGiven(Chosen(g), TGITable(t.tgi.value, port)); }
    if t.llamaCpp.Some? {
      LlamaAscends(t.llamaCpp.value, port);
      HostGiven(Chosen(l), LlamaTable(t.llamaCpp.value, port));
    }
    Clash(Chosen(v), Chosen(g), Host);
    ChosenAppend(v, g);
    Clash(Chosen(v + g), Chosen(l), Host);
    ChosenAppend(v + g, l);
    Clash(Chosen(ModelChoices(t)), Chosen(v + g + l), Host);
    ChosenAppend(ModelChoices(t), v + g + l);
  }

  /** The list decodes, each flag coming once, if and only if at most one engine section is set. */
  lemma DecodesIffOneEngine(t: InferenceTask, port: int)
    ensures Decode(Flat(SettingsOf(t, port)))
            == if Engines(t) <= 1 then Some(EngineTable(t, port) + ModelTable(t)) else None
  {
    DecodeFlat(SettingsOf(t, port));
    if Engines(t) <= 1 {
      OneEngine(t, port);
      ModelAscends(t);
      ChosenAppend(ModelChoices(t), EngineChoices(t, port));
      AscendsOn(Chosen(ModelChoices(t)), Chosen(EngineChoices(t, port)), 0, 3, 15, ModelTable(t), EngineTable(t, port));
    } else {
      TwoEngines(t, port);
    }
  }

  /* ------------------------------ Recovery ------------------------------ */

  /** The settings in effect; `numbers` has the port and every tuning number that is given. */
  datatype Tuning = Tuning(source: Source, gpuMemory: Option<string>, numbers: map<Flag, int>)

  function ReadInt(s: string): int {
    if AllDigits(s) then Value(s) as int else if s[0] == '-' && AllDigits(s[1..]) then -(Value(s[1..]) as int) else 0
  }

  lemma ReadPrinted(n: int)
    ensures ReadInt(Printed(n)) == n
  {
    if n < 0 {
      DecimalRead(-n);
      assert Printed(n)[0] == '-' && Printed(n)[1..] == Decimal(-n);
    } else {
      DecimalRead(n);
    }
  }

  predicate IsNumber(f: Flag) { Rank(f) > Rank(Host) && f != GpuMemory }

  function Numbers(m: map<Flag, string>): map<Flag, int> { map f | f in m && IsNumber(f) :: ReadInt(m[f]) }

  function Drop(s: string, n: nat): string { if n <= |s| then s[n..] else "" }

  function ReadSource(m: map<Flag, string>): Source {
    if Trust in m && Model in m then Hub(m[Model])
    else if Model in m then Stored(Drop(m[Model], |MODELS|))
    else if ShortModel in m then Stored(Drop(m[ShortModel], |MODELS|))
    else NoModel
  }

  /** What a reader makes of the settings. */
  function Understand(m: map<Flag, string>): Tuning {
    Tuning(ReadSource(m), if GpuMemory in m then Some(m[GpuMemory]) else None, Numbers(m))
  }

  function Understood(args: seq<string>): Option<Tuning> {
    var m := Decode(args);
    if m == None then None else Some(Understand(m.value))
  }

  /** `n` under `f` when it is above the bound. */
  function Plus(numbers: map<Flag, int>, f: Flag, n: int, bound: int): map<Flag, int> {
    if n > bound then numbers[f := n] else numbers
  }

  /** What the task asks for: the engine's numbers that are above their bounds, by flag. */
  function WantedNumbers(t: InferenceTask, port: int): map<Flag, int> {
    if t.vllm.Some? then
      var v := t.vllm.value;
      Plus(Plus(map[Port := port], TensorParallel, v.tensorParallelSize, 1), MaxModelLen, v.maxModelLen, 0)
    else if t.tgi.Some? then
      var g := t.tgi.value;
      Plus(Plus(Plus(map[Port := port], MaxBatch, g.maxBatchSize, 0), MaxInput, g.maxInputLen, 0),
           MaxTotal, g.maxTotalTokens, 0)
    else if t.llamaCpp.Some? then
      var l := t.llamaCpp.value;
      var m := Plus(Plus(Plus(map[Port := port], Context, l.contextSize, 0), Threads, l.threads, 0),
                    GpuLayers, l.gpuLayers, 0);
      if l.n.Some? then Plus(m, Number, l.n.value, 0) else m
    else map[]
  }

  function Wanted(t: InferenceTask, port: int): Tuning {
    Tuning(SourceOf(t),
           if t.vllm.Some? && t.vllm.value.gpuMemoryUtilization != "" then Some(t.vllm.value.gpuMemoryUtilization)
           else None,
           WantedNumbers(t, port))
  }

  lemma NumbersWith(m: map<Flag, string>, given: bool, f: Flag, n: int)
    requires IsNumber(f)
    ensures Numbers(With(m, Choice(given, f, Printed(n)))) == if given then Numbers(m)[f := n] else Numbers(m)
  {
    ReadPrinted(n);
  }

  lemma NumbersWithText(m: map<Flag, string>, c: Choice)
    requires !IsNumber(c.flag)
    ensures Numbers(With(m, c)) == Numbers(m)
  {
  }

  lemma AddressNumbers(port: int)
    ensures Numbers(AddressTable(port)) == map[Port := port]
  {
    ReadPrinted(port);
  }

  lemma VLLMNumbers(v: VLLM, port: int)
    ensures Numbers(VLLMTable(v, port))
         == Plus(Plus(map[Port := port], TensorParallel, v.tensorParallelSize, 1), MaxModelLen, v.maxModelLen, 0)
  {
    AddressNumbers(port);
    var m0 := AddressTable(port);
    NumbersWith(m0, v.tensorParallelSize > 1, TensorParallel, v.tensorParallelSize);
    var m1 := With(m0, Choice(v.tensorParallelSize > 1, TensorParallel, Printed(v.tensorParallelSize)));
    var c := Choice(v.gpuMemoryUtilization != "", GpuMemory, v.gpuMemoryUtilization);
    NumbersWithText(m1, c);
    NumbersWith(With(m1, c), v.maxModelLen > 0, MaxModelLen, v.maxModelLen);
  }

  lemma TGINumbers(g: TGI, port: int)
    ensures Numbers(TGITable(g, port))
         == Plus(Plus(Plus(map[Port := port], MaxBatch, g.maxBatchSize, 0), MaxInput, g.maxInputLen, 0),
                 MaxTotal, g.maxTotalTokens, 0)
  {
    AddressNumbers(port);
    var m0 := AddressTable(port);
    NumbersWith(m0, g.maxBatchSize > 0, MaxBatch, g.maxBatchSize);
    var m1 := With(m0, Choice(g.maxBatchSize > 0, MaxBatch, Printed(g.maxBatchSize)));
    NumbersWith(m1, g.maxInputLen > 0, MaxInput, g.maxInputLen);
    var m2 := With(m1, Choice(g.maxInputLen > 0, MaxInput, Printed(g.maxInputLen)));
    NumbersWith(m2, g.maxTotalTokens > 0, MaxTotal, g.maxTotalTokens);
  }

  lemma LlamaNumbers(l: LlamaCpp, port: int)
    ensures var m := Plus(Plus(Plus(map[Port := port], Context, l.contextSize, 0), Threads, l.threads, 0),
                          GpuLayers, l.gpuLayers, 0);
            Numbers(LlamaTable(l, port)) == if l.n.Some? then Plus(m, Number, l.n.value, 0) else m
  {
    AddressNumbers(port);
    var m0 := AddressTable(port);
    NumbersWith(m0, l.contextSize > 0, Context, l.contextSize);
    var m1 := With(m0, Choice(l.contextSize > 0, Context, Printed(l.contextSize)));
    NumbersWith(m1, l.threads > 0, Threads, l.threads);
    var m2 := With(m1, Choice(l.threads > 0, Threads, Printed(l.threads)));
    NumbersWith(m2, l.gpuLayers > 0, GpuLayers, l.gpuLayers);
    var m3 := With(m2, Choice(l.gpuLayers > 0, GpuLayers, Printed(l.gpuLayers)));
    if l.n.Some? { NumbersWith(m3, l.n.value > 0, Number, l.n.value); }
  }

  predicate SilentOnModel(m: map<Flag, string>) { Trust !in m && Model !in m && ShortModel !in m }

  lemma EngineUnderstood(t: InferenceTask, port: int)
    requires Engines(t) == 1
    ensures var m := EngineTable(t, port);
            SilentOnModel(m) && Understand(m).numbers == Wanted(t, port).numbers
            && Understand(m).gpuMemory == Wanted(t, port).gpuMemory
  {
    if t.vllm.Some? { VLLMNumbers(t.vllm.value, port); }
    else if t.tgi.Some? { TGINumbers(t.tgi.value, port); }
    else { LlamaNumbers(t.llamaCpp.value, port); }
  }

  /** Model and engine do not speak of each other's flags. */
  lemma PartsUnderstood(e: map<Flag, string>, m: map<Flag, string>)
    requires SilentOnModel(e) && forall f :: f in m ==> Rank(f) < Rank(Host)
    ensures Understand(e + m) == Understand(e).(source := ReadSource(m))
  {
    assert Numbers(e + m) == Numbers(e);
  }

  lemma SourceRead(t: InferenceTask)
    requires Engines(t) == 1
    ensures ReadSource(ModelTable(t)) == if t.llamaCpp.Some? && SourceOf(t).Hub? then NoModel else SourceOf(t)
  {
    match SourceOf(t)
    case Stored(path) => assert Drop(MODELS + path, |MODELS|) == path;
    case _ =>
  }

  /** Argument round trip.  With one engine section the list decodes, each flag comes once, and reading
      it gives back the port, every tuning field in effect and the model's source; a llama.cpp task with
      a hub model is the one whose source is lost. */
  lemma ArgumentsRecovered(t: InferenceTask, port: int)
    requires Engines(t) == 1
    ensures var u := Understood(Flat(SettingsOf(t, port)));
            && u.Some?
            && u.value.(source := SourceOf(t)) == Wanted(t, port)
            && (u.value.source == SourceOf(t) <==> !(t.llamaCpp.Some? && SourceOf(t).Hub?))
  {
    DecodesIffOneEngine(t, port);
    EngineUnderstood(t, port);
    PartsUnderstood(EngineTable(t, port), ModelTable(t));
    SourceRead(t);
  }

  lemma Schemes(model: string, rest: string)
    ensures model == "s3://" + rest ==> "s3://" <= model && !("hf://" <= model) && model[5..] == rest
    ensures model == "hf://" + rest ==> "hf://" <= model && !("s3://" <= model) && model[5..] == rest
  {
    assert ("s3://" + rest)[0] == 's' && ("hf://" + rest)[0] == 'h';
  }

  lemma SourceKnown(t: InferenceTask, port: int)
    requires Engines(t) == 1
    ensures var u := Understood(Flat(SettingsOf(t, port)));
            u.Some? && u.value.source == if t.llamaCpp.Some? && SourceOf(t).Hub? then NoModel else SourceOf(t)
  {
    DecodesIffOneEngine(t, port);
    EngineUnderstood(t, port);
    PartsUnderstood(EngineTable(t, port), ModelTable(t));
    SourceRead(t);
  }

  lemma SourceWritten(t: InferenceTask, rest: string)
    ensures t.model == "s3://" + rest ==> SourceOf(t) == if rest == "" then NoModel else Stored(rest)
    ensures t.model == "hf://" + rest ==> SourceOf(t) == if rest == "" then NoModel else Hub(rest)
    ensures t.model == "" ==> SourceOf(t) == NoModel
    ensures t.model != "" && !("s3://" <= t.model) && !("hf://" <= t.model) ==> SourceOf(t) == Stored(t.model)
  {
    Schemes(t.model, rest);
  }

  /** The source recovered, by how the model is written: a path in the store, an id on the hub, which
      llama.cpp is not told, a plain path, or nothing. */
  lemma SourceRecovered(t: InferenceTask, port: int, rest: string)
    requires Engines(t) == 1
    ensures var u := Understood(Flat(SettingsOf(t, port)));
            && u.Some?
            && (t.model == "s3://" + rest ==> u.value.source == if rest == "" then NoModel else Stored(rest))
            && (t.model == "hf://" + rest ==>
                  u.value.source == if rest == "" || t.llamaCpp.Some? then NoModel else Hub(rest))
            && (t.model == "" ==> u.value.source == NoModel)
            && (t.model != "" && !("s3://" <= t.model) && !("hf://" <= t.model) ==> u.value.source == Stored(t.model))
  {
    SourceKnown(t, port);
    SourceWritten(t, rest);
  }

  /* ------------------------------ The words ------------------------------ */

  /** How the model is said. */
  lemma ModelSpelt(t: InferenceTask, rest: string)
    ensures t.model == "s3://" + rest && rest != "" ==>
              Flat(Chosen(ModelChoices(t))) == [if t.llamaCpp.Some? then "-m" else "--model", "/models/" + rest]
    ensures t.model == "hf://" + rest && rest != "" ==>
              Flat(Chosen(ModelChoices(t)))
              == (if t.vllm.Some? then ["--trust-remote-code", "--model", rest] else [])
                 + (if t.tgi.Some? then ["--trust-remote-code", "--model", rest] else [])
  {
    Schemes(t.model, rest);
    var (path, id) := ModelPath(t);
    var c := Choice(path != "", if t.llamaCpp.Some? then ShortModel else Model, "/models/" + path);
    OneMore([], c);
    assert [] + [c] == [c];
    HubWords([c], t.vllm.Some?, id);
    HubWords([c] + HubChoices(t.vllm.Some?, id), t.tgi.Some?, id);
  }

  /** Three more settings after the address. */
  lemma AddressAndThree(port: int, c: Choice, c': Choice, c'': Choice)
    ensures Flat(Chosen(Address(port) + [c] + [c'] + [c'']))
         == ["--host", "0.0.0.0", "--port", Printed(port)] + Told(c) + Told(c') + Told(c'')
  {
    AddressWords([], port);
    assert [] + Flat(Chosen(Address(port))) == Flat(Chosen(Address(port)));
    assert [] + ["--host", "0.0.0.0"] + ["--port", Printed(port)] == ["--host", "0.0.0.0", "--port", Printed(port)];
    OneMore(Address(port), c);
    OneMore(Address(port) + [c], c');
    OneMore(Address(port) + [c] + [c'], c'');
  }

  /** The words of every engine section. */
  lemma VLLMSpelt(v: VLLM, port: int)
    ensures Flat(Chosen(VLLMChoices(v, port)))
         == ["--host", "0.0.0.0", "--port", Printed(port)]
            + (if v.tensorParallelSize > 1 then ["--tensor-parallel-size", Printed(v.tensorParallelSize)] else [])
            + (if v.gpuMemoryUtilization != "" then ["--gpu-memory-utilization", v.gpuMemoryUtilization] else [])
            + (if v.maxModelLen > 0 then ["--max-model-len", Printed(v.maxModelLen)] else [])
  {
    AddressAndThree(port, Choice(v.tensorParallelSize > 1, TensorParallel, Printed(v.tensorParallelSize)),
                    Choice(v.gpuMemoryUtilization != "", GpuMemory, v.gpuMemoryUtilization),
                    Choice(v.maxModelLen > 0, MaxModelLen, Printed(v.maxModelLen)));
  }

  lemma TGISpelt(g: TGI, port: int)
    ensures Flat(Chosen(TGIChoices(g, port)))
         == ["--host", "0.0.0.0", "--port", Printed(port)]
            + (if g.maxBatchSize > 0 then ["--max-batch-size", Printed(g.maxBatchSize)] else [])
            + (if g.maxInputLen > 0 then ["--max-input-length", Printed(g.maxInputLen)] else [])
            + (if g.maxTotalTokens > 0 then ["--max-total-tokens", Printed(g.maxTotalTokens)] else [])
  {
    AddressAndThree(port, Choice(g.maxBatchSize > 0, MaxBatch, Printed(g.maxBatchSize)),
                    Choice(g.maxInputLen > 0, MaxInput, Printed(g.maxInputLen)),
                    Choice(g.maxTotalTokens > 0, MaxTotal, Printed(g.maxTotalTokens)));
  }

  lemma ThreadsSpelt(l: LlamaCpp, port: int, gpu: Choice)
    requires gpu == Choice(l.gpuLayers > 0, GpuLayers, Printed(l.gpuLayers))
    ensures Flat(Chosen(ContextChoices(l, port) + [gpu]))
         == ["--host", "0.0.0.0", "--port", Printed(port)]
            + (if l.contextSize > 0 then ["-c", Printed(l.contextSize)] else [])
            + (if l.threads > 0 then ["-t", Printed(l.threads)] else [])
            + (if l.gpuLayers > 0 then ["--n-gpu-layers", Printed(l.gpuLayers)] else [])
  {
    AddressAndThree(port, Choice(l.contextSize > 0, Context, Printed(l.contextSize)),
                    Choice(l.threads > 0, Threads, Printed(l.threads)), gpu);
  }

  lemma NumberSpelt(l: LlamaCpp, number: Choice)
    requires number == Choice(l.n.Some? && l.n.value > 0, Number, if l.n.Some? then Printed(l.n.value) else "")
    ensures Told(number) == if l.n.Some? && l.n.value > 0 then ["-n", Printed(l.n.value)] else []
  {
  }

  lemma LlamaSpelt(l: LlamaCpp, port: int)
    ensures Flat(Chosen(LlamaChoices(l, port)))
         == ["--host", "0.0.0.0", "--port", Printed(port)]
            + (if l.contextSize > 0 then ["-c", Printed(l.contextSize)] else [])
            + (if l.threads > 0 then ["-t", Printed(l.threads)] else [])
            + (if l.gpuLayers > 0 then ["--n-gpu-layers", Printed(l.gpuLayers)] else [])
            + (if l.n.Some? && l.n.value > 0 then ["-n", Printed(l.n.value)] else [])
  {
    var gpu := Choice(l.gpuLayers > 0, GpuLayers, Printed(l.gpuLayers));
    var number := Choice(l.n.Some? && l.n.value > 0, Number, if l.n.Some? then Printed(l.n.value) else "");
    ThreadsSpelt(l, port, gpu);
    NumberSpelt(l, number);
    OneMore(ContextChoices(l, port) + [gpu], number);
  }

  /** The whole list: how the model is said, then each engine section's words. */
  lemma ListSpelt(t: InferenceTask, port: int)
    ensures Flat(SettingsOf(t, port))
         == Flat(Chosen(ModelChoices(t)))
            + (if t.vllm.Some? then Flat(Chosen(VLLMChoices(t.vllm.value, port))) else [])
            + (if t.tgi.Some? then Flat(Chosen(TGIChoices(t.tgi.value, port))) else [])
            + (if t.llamaCpp.Some? then Flat(Chosen(LlamaChoices(t.llamaCpp.value, port))) else [])
  {
    ListsJoin(ModelChoices(t), if t.vllm.Some? then VLLMChoices(t.vllm.value, port) else [],
              if t.tgi.Some? then TGIChoices(t.tgi.value, port) else [],
              if t.llamaCpp.Some? then LlamaChoices(t.llamaCpp.value, port) else []);
  }

  /* ------------------------------ One port ------------------------------ */

  /** The parts of a Deployment that the task's other objects must agree with. */
  datatype Deployment = Deployment(name: string, args: seq<string>, containerPort: int, replicas: int)

  datatype Service = Service(name: string, port: int)

  function ServiceOf(t: InferenceTask, ports: string -> int): Service {
    Service(InfChildName(InferenceFramework(t), t.name), InferencePort(t, ports))
  }

  /** One replica, or the least number the vLLM or TGI section asks for; of both, TGI's. */
  function Replicas(t: InferenceTask): int {
    if t.tgi.Some? && t.tgi.value.minReplicas.Some? then t.tgi.value.minReplicas.value
    else if t.vllm.Some? && t.vllm.value.minReplicas.Some? then t.vllm.value.minReplicas.value
    else 1
  }

  /** The Deployment of an InferenceTask listens, by its arguments and its container port, on the port
      its Service and its route send to. */
  method BuildInferenceDeployment(t: InferenceTask, ports: string -> int) returns (d: Deployment)
    ensures d.name == ServiceOf(t, ports).name && d.replicas == Replicas(t)
    ensures t.tgi.Some? && t.tgi.value.minReplicas.Some? ==> d.replicas == t.tgi.value.minReplicas.value
    ensures t.tgi == None && t.vllm.Some? && t.vllm.value.minReplicas.Some? ==>
              d.replicas == t.vllm.value.minReplicas.value
    ensures t.tgi == None && t.vllm == None ==> d.replicas == 1
    ensures d.args == Flat(SettingsOf(t, d.containerPort))
    ensures var service := ServiceOf(t, ports);
            && d.containerPort == service.port
            && Routing.InferenceRoute(t, service.name, service.port).rules[0].backend
               == Routing.Backend(d.name, d.containerPort)
    ensures Engines(t) == 1 ==>
              Understood(d.args).Some? && (Port, d.containerPort) in Understood(d.args).value.numbers.Items
  {
    var deployName := "inf-" + InferenceFramework(t) + "-" + t.name;
    var port := InferencePort(t, ports);
    var args := BuildArgs(t, port);
    var replicas := 1;
    if t.vllm.Some? && t.vllm.value.minReplicas.Some? { replicas := t.vllm.value.minReplicas.value; }
    if t.tgi.Some? && t.tgi.value.minReplicas.Some? { replicas := t.tgi.value.minReplicas.value; }
    if Engines(t) == 1 { ArgumentsRecovered(t, port); }
    return Deployment(deployName, args, port, replicas);
  }
}
