/** The names children get, and what a name says about its task.

    A DevTask's children are called name-framework-namespace, an InferenceTask's inf-framework-name
    and an EvalTask's Job eval-framework-name.  Names may hold dashes, and so may a framework; what
    keeps the names apart is that no framework and a dash begin, or end, another framework. */
module Names {
  import opened Cluster
  import opened Machine
  import Specs

  function DevChildName(framework: string, name: string, namespace: string): string {
    name + "-" + framework + "-" + namespace
  }

  function InfChildName(framework: string, name: string): string { "inf-" + framework + "-" + name }

  function EvalJobName(framework: string, name: string): string { "eval-" + framework + "-" + name }

  function DevConfig(name: string, namespace: string): Config {
    Config(Dev, name, framework => DevChildName(framework, name, namespace))
  }

  function InfConfig(name: string): Config {
    Config(Inf, name, framework => InfChildName(framework, name))
  }

  function EvalConfig(name: string): Config {
    Config(Eval, name, framework => EvalJobName(framework, name))
  }

  predicate DashFree(s: string) { '-' !in s }

  /** Which frameworks have a dash: never a DevTask's, an InferenceTask's only when an engine with a
      dash is named without a section, and an EvalTask's exactly when it is lm-eval. */
  lemma FrameworksDashFree(t: Specs.DevTask, t': Specs.InferenceTask, t'': Specs.EvalTask)
    ensures DashFree(Specs.Framework(t))
    ensures DashFree(Specs.InferenceFramework(t')) <==> Specs.Section(t') != "" || DashFree(t'.engine)
    ensures DashFree(Specs.EvalFramework(t'')) <==> Specs.EvalFramework(t'') != "lm-eval"
  {
    assert "lm-eval"[2] == '-';
  }

  /** Where the first dash is, or the length when there is none. */
  function FirstDash(s: string): (i: nat)
    ensures i <= |s| && DashFree(s[..i])
    ensures i < |s| ==> s[i] == '-'
  {
    if s == "" || s[0] == '-' then 0 else 1 + FirstDash(s[1..])
  }

  lemma {:induction false} DashAfter(a: string, b: string)
    requires DashFree(a)
    ensures FirstDash(a + "-" + b) == |a|
  {
    if a != "" {
      DashAfter(a[1..], b);
      assert (a + "-" + b)[1..] == a[1..] + "-" + b;
    }
  }

  /* ------------------------------ When names are equal ------------------------------ */

  /** `f` and a dash begin `g`. */
  predicate Leads(f: string, g: string) { f + "-" <= g }

  /** A dash and `f` end `g`. */
  predicate Trails(f: string, g: string) { |f| < |g| && g[|g|-|f|-1..] == "-" + f }

  lemma ClashNeedsDash(f: string, g: string)
    ensures Leads(f, g) || Trails(f, g) ==> !DashFree(g)
  {
    if Leads(f, g) { assert g[|f|] == (f + "-")[|f|]; }
    if Trails(f, g) { assert g[|g|-|f|-1] == g[|g|-|f|-1..][0]; }
  }

  lemma FrontShorter(f: string, n: string, f': string, n': string)
    requires |f| < |f'|
    ensures f + "-" + n == f' + "-" + n' <==> Leads(f, f') && n == f'[|f|+1..] + "-" + n'
  {
    var s, s' := f + "-" + n, f' + "-" + n';
    assert s[..|f|+1] == f + "-" && s[|f|+1..] == n;
    assert s'[..|f|+1] == f'[..|f|+1] && s'[|f|+1..] == f'[|f|+1..] + "-" + n';
    assert s == s[..|f|+1] + s[|f|+1..] && s' == s'[..|f|+1] + s'[|f|+1..];
  }

  /** Exactly when a framework in front and a name behind give the same text. */
  lemma FrontEqual(f: string, n: string, f': string, n': string)
    ensures f + "-" + n == f' + "-" + n' <==>
            || (f == f' && n == n')
            || (Leads(f, f') && n == f'[|f|+1..] + "-" + n')
            || (Leads(f', f) && n' == f[|f'|+1..] + "-" + n)
  {
    if |f| < |f'| {
      FrontShorter(f, n, f', n');
    } else if |f'| < |f| {
      FrontShorter(f', n', f, n);
    } else {
      var s, s' := f + "-" + n, f' + "-" + n';
      assert s[..|f|] == f && s'[..|f|] == f' && s[|f|+1..] == n && s'[|f|+1..] == n';
    }
  }

  lemma BackShorter(n: string, f: string, n': string, f': string)
    requires |f| < |f'|
    ensures n + "-" + f == n' + "-" + f' <==> Trails(f, f') && n == n' + "-" + f'[..|f'|-|f|-1]
  {
    var s, s' := n + "-" + f, n' + "-" + f';
    var k, k' := |s| - |f| - 1, |s'| - |f| - 1;
    assert s[..k] == n && s[k..] == "-" + f;
    assert s'[..k'] == n' + "-" + f'[..|f'|-|f|-1] && s'[k'..] == f'[|f'|-|f|-1..];
    assert s == s[..k] + s[k..] && s' == s'[..k'] + s'[k'..];
  }

  /** Exactly when a name in front and a framework behind do. */
  lemma BackEqual(n: string, f: string, n': string, f': string)
    ensures n + "-" + f == n' + "-" + f' <==>
            || (f == f' && n == n')
            || (Trails(f, f') && n == n' + "-" + f'[..|f'|-|f|-1])
            || (Trails(f', f) && n' == n + "-" + f[..|f|-|f'|-1])
  {
    if |f| < |f'| {
      BackShorter(n, f, n', f');
    } else if |f'| < |f| {
      BackShorter(n', f', n, f);
    } else {
      var s, s' := n + "-" + f, n' + "-" + f';
      assert s[..|n|] == n && s'[..|n'|] == n' && s[|n|+1..] == f && s'[|n'|+1..] == f';
    }
  }

  /** Children of InferenceTasks share a name exactly when the tasks are one and the framework is, or one
      framework and a dash begin the other and the names make up for it. */
  lemma InfNamesEqual(f: string, n: string, f': string, n': string)
    ensures InfChildName(f, n) == InfChildName(f', n') <==>
            || (f == f' && n == n')
            || (Leads(f, f') && n == f'[|f|+1..] + "-" + n')
            || (Leads(f', f) && n' == f[|f'|+1..] + "-" + n)
  {
    assert InfChildName(f, n)[4..] == f + "-" + n && InfChildName(f', n')[4..] == f' + "-" + n';
    assert InfChildName(f, n)[..4] == "inf-" == InfChildName(f', n')[..4];
    FrontEqual(f, n, f', n');
  }

  lemma EvalNamesEqual(f: string, n: string, f': string, n': string)
    ensures EvalJobName(f, n) == EvalJobName(f', n') <==>
            || (f == f' && n == n')
            || (Leads(f, f') && n == f'[|f|+1..] + "-" + n')
            || (Leads(f', f) && n' == f[|f'|+1..] + "-" + n)
  {
    assert EvalJobName(f, n)[5..] == f + "-" + n && EvalJobName(f', n')[5..] == f' + "-" + n';
    assert EvalJobName(f, n)[..5] == "eval-" == EvalJobName(f', n')[..5];
    FrontEqual(f, n, f', n');
  }

  /** Within a namespace the children of DevTasks: the same with the frameworks' ends. */
  lemma DevNamesEqual(f: string, n: string, f': string, n': string, namespace: string)
    ensures DevChildName(f, n, namespace) == DevChildName(f', n', namespace) <==>
            || (f == f' && n == n')
            || (Trails(f, f') && n == n' + "-" + f'[..|f'|-|f|-1])
            || (Trails(f', f) && n' == n + "-" + f[..|f|-|f'|-1])
  {
    var s, s' := DevChildName(f, n, namespace), DevChildName(f', n', namespace);
    var k, k' := |s| - |namespace| - 1, |s'| - |namespace| - 1;
    assert s[..k] == n + "-" + f && s'[..k'] == n' + "-" + f';
    BackEqual(n, f, n', f');
  }

  /* ------------------------------ Which frameworks keep names apart ------------------------------ */

  lemma InfMeet(f: string, f': string)
    requires Leads(f, f')
    ensures exists n, n' :: n != n' && InfChildName(f, n) == InfChildName(f', n')
  {
    InfNamesEqual(f, f'[|f|+1..] + "-" + "x", f', "x");
    assert |f'[|f|+1..] + "-" + "x"| > |"x"|;
  }

  lemma EvalMeet(f: string, f': string)
    requires Leads(f, f')
    ensures exists n, n' :: n != n' && EvalJobName(f, n) == EvalJobName(f', n')
  {
    EvalNamesEqual(f, f'[|f|+1..] + "-" + "x", f', "x");
    assert |f'[|f|+1..] + "-" + "x"| > |"x"|;
  }

  lemma DevMeet(f: string, f': string, namespace: string)
    requires Trails(f, f')
    ensures exists n, n' :: n != n' && DevChildName(f, n, namespace) == DevChildName(f', n', namespace)
  {
    DevNamesEqual(f, "x" + "-" + f'[..|f'|-|f|-1], f', "x", namespace);
    assert |"x" + "-" + f'[..|f'|-|f|-1]| > |"x"|;
  }

  /** Two frameworks can give InferenceTasks children of one name if and only if they are one framework or
      one and a dash begin the other; so names are kept apart, dashes or not, exactly otherwise. */
  lemma InfNamesInjective(f: string, f': string)
    ensures (exists n, n' :: InfChildName(f, n) == InfChildName(f', n')) <==> f == f' || Leads(f, f') || Leads(f', f)
    ensures (forall n, n' :: InfChildName(f, n) == InfChildName(f', n') ==> f == f' && n == n')
       <==> !Leads(f, f') && !Leads(f', f)
  {
    forall n, n' | InfChildName(f, n) == InfChildName(f', n')
      ensures (f == f' && n == n') || Leads(f, f') || Leads(f', f)
    {
      InfNamesEqual(f, n, f', n');
    }
    if Leads(f, f') { InfMeet(f, f'); }
    if Leads(f', f) { InfMeet(f', f); }
    assert f == f' ==> InfChildName(f, "x") == InfChildName(f', "x");
  }

  lemma EvalNamesInjective(f: string, f': string)
    ensures (exists n, n' :: EvalJobName(f, n) == EvalJobName(f', n')) <==> f == f' || Leads(f, f') || Leads(f', f)
    ensures (forall n, n' :: EvalJobName(f, n) == EvalJobName(f', n') ==> f == f' && n == n')
       <==> !Leads(f, f') && !Leads(f', f)
  {
    forall n, n' | EvalJobName(f, n) == EvalJobName(f', n')
      ensures (f == f' && n == n') || Leads(f, f') || Leads(f', f)
    {
      EvalNamesEqual(f, n, f', n');
    }
    if Leads(f, f') { EvalMeet(f, f'); }
    if Leads(f', f) { EvalMeet(f', f); }
    assert f == f' ==> EvalJobName(f, "x") == EvalJobName(f', "x");
  }

  lemma DevNamesInjective(f: string, f': string, namespace: string)
    ensures (exists n, n' :: DevChildName(f, n, namespace) == DevChildName(f', n', namespace))
       <==> f == f' || Trails(f, f') || Trails(f', f)
    ensures (forall n, n' :: DevChildName(f, n, namespace) == DevChildName(f', n', namespace) ==> f == f' && n == n')
       <==> !Trails(f, f') && !Trails(f', f)
  {
    forall n, n' | DevChildName(f, n, namespace) == DevChildName(f', n', namespace)
      ensures (f == f' && n == n') || Trails(f, f') || Trails(f', f)
    {
      DevNamesEqual(f, n, f', n', namespace);
    }
    if Trails(f, f') { DevMeet(f, f', namespace); }
    if Trails(f', f) { DevMeet(f', f, namespace); }
    assert f == f' ==> DevChildName(f, "x", namespace) == DevChildName(f', "x", namespace);
  }

  /** The frameworks there are keep the Jobs of EvalTasks apart, lm-eval with its dash included. */
  lemma EvalTaskNames(t: Specs.EvalTask, t': Specs.EvalTask)
    ensures EvalJobName(Specs.EvalFramework(t), t.name) == EvalJobName(Specs.EvalFramework(t'), t'.name)
       <==> Specs.EvalFramework(t) == Specs.EvalFramework(t') && t.name == t'.name
  {
    var f, f' := Specs.EvalFramework(t), Specs.EvalFramework(t');
    EvalNamesEqual(f, t.name, f', t'.name);
    assert "opencompass"[0] != "lm-eval"[0];
  }

  /** Likewise DevTasks of one namespace, */
  lemma DevTaskNames(t: Specs.DevTask, t': Specs.DevTask)
    requires t.namespace == t'.namespace
    ensures DevChildName(Specs.Framework(t), t.name, t.namespace) ==
              DevChildName(Specs.Framework(t'), t'.name, t'.namespace)
       <==> Specs.Framework(t) == Specs.Framework(t') && t.name == t'.name
  {
    var f, f' := Specs.Framework(t), Specs.Framework(t');
    DevNamesEqual(f, t.name, f', t'.name, t.namespace);
    FrameworksDashFree(t, NO_INFERENCE, NO_EVAL);
    FrameworksDashFree(t', NO_INFERENCE, NO_EVAL);
    ClashNeedsDash(f, f');
    ClashNeedsDash(f', f);
  }

  const NO_INFERENCE := Specs.InferenceTask("", "", "", "", "", None, None, None)
  const NO_EVAL := Specs.EvalTask("", false, false)
  const NO_DEV := Specs.DevTask("", "", None, None, None)

  /** and InferenceTasks with an engine section. */
  lemma InferenceTaskNames(t: Specs.InferenceTask, t': Specs.InferenceTask)
    requires Specs.Section(t) != "" && Specs.Section(t') != ""
    ensures InfChildName(Specs.InferenceFramework(t), t.name) == InfChildName(Specs.InferenceFramework(t'), t'.name)
       <==> Specs.InferenceFramework(t) == Specs.InferenceFramework(t') && t.name == t'.name
  {
    var f, f' := Specs.InferenceFramework(t), Specs.InferenceFramework(t');
    InfNamesEqual(f, t.name, f', t'.name);
    FrameworksDashFree(NO_DEV, t, NO_EVAL);
    FrameworksDashFree(NO_DEV, t', NO_EVAL);
    ClashNeedsDash(f, f');
    ClashNeedsDash(f', f);
  }

  /* ------------------------------ Reading the task off a name ------------------------------ */

  /** Where the last dash is. */
  function LastDash(s: string): (i: nat)
    ensures i <= |s|
  {
    if s == "" then 0 else if s[|s|-1] == '-' then |s| - 1 else LastDash(s[..|s|-1])
  }

  lemma {:induction false} DashBefore(a: string, b: string)
    requires DashFree(b)
    ensures LastDash(a + "-" + b) == |a|
  {
    if b != "" {
      DashBefore(a, b[..|b|-1]);
      assert (a + "-" + b)[..|a| + |b|] == a + "-" + b[..|b|-1];
    }
  }

  /** The task an InferenceTask's child belongs to. */
  function InfOwner(child: string): Option<string> {
    if "inf-" <= child && FirstDash(child[4..]) < |child| - 4
    then Some(child[4 + FirstDash(child[4..]) + 1..]) else None
  }

  /** The DevTask a child in the namespace belongs to. */
  function DevOwner(child: string, namespace: string): Option<string> {
    var k := |child| - |namespace| - 1;
    if k >= 0 && LastDash(child[..k]) < k then Some(child[..LastDash(child[..k])]) else None
  }

  /** The EvalTask a Job belongs to. */
  function EvalOwner(child: string): Option<string> {
    if "eval-opencompass-" <= child then Some(child[17..])
    else if "eval-lm-eval-" <= child then Some(child[13..])
    else None
  }

  /** Reading the owner off inverts naming, whatever dashes the task's name holds. */
  lemma InfOwnerRead(f: string, n: string)
    requires DashFree(f)
    ensures InfOwner(InfChildName(f, n)) == Some(n)
  {
    var s := InfChildName(f, n);
    assert s[..4] == "inf-";
    assert s[4..] == f + "-" + n;
    DashAfter(f, n);
    assert s[4 + |f| + 1..] == n;
  }

  lemma DevOwnerRead(f: string, n: string, namespace: string)
    requires DashFree(f)
    ensures DevOwner(DevChildName(f, n, namespace), namespace) == Some(n)
  {
    var s := DevChildName(f, n, namespace);
    var k := |s| - |namespace| - 1;
    assert s[..k] == n + "-" + f;
    DashBefore(n, f);
    assert s[..|n|] == n;
  }

  lemma EvalOwnerRead(f: string, n: string)
    requires f == "opencompass" || f == "lm-eval"
    ensures EvalOwner(EvalJobName(f, n)) == Some(n)
  {
    var s := EvalJobName(f, n);
    if f == "opencompass" {
      assert s[..17] == "eval-opencompass-" && s[17..] == n;
    } else {
      assert s[..13] == "eval-lm-eval-" && s[13..] == n;
      assert s[5] != "eval-opencompass-"[5];
    }
  }

  /* ------------------------------ Across kinds ------------------------------ */

  lemma {:induction false} DashFound(s: string, k: nat)
    requires k < |s| && s[k] == '-'
    ensures FirstDash(s) <= k
  {
    if s[0] != '-' { DashFound(s[1..], k - 1); }
  }

  lemma SharedNameStarts(e: string, m: string, f: string, n: string, namespace: string)
    requires InfChildName(e, m) == DevChildName(f, n, namespace)
    ensures n == "inf" || "inf-" <= n
  {
    var s := DevChildName(f, n, namespace);
    assert s[..4] == InfChildName(e, m)[..4] == "inf-";
    if |n| >= 4 {
      assert s[..4] == n[..4];
    } else {
      assert s[..|n|] == n && s[..|n|] == s[..4][..|n|];
      assert s[|n|] == '-' && s[|n|] == s[..4][|n|];
    }
  }

  lemma SplitsAsInf(rest: string, k: nat)
    requires k < |rest| && rest[k] == '-'
    ensures exists e, m :: DashFree(e) && InfChildName(e, m) == "inf-" + rest
  {
    DashFound(rest, k);
    var i := FirstDash(rest);
    assert rest == rest[..i] + "-" + rest[i+1..];
    assert "inf-" + rest == InfChildName(rest[..i], rest[i+1..]);
    assert DashFree(rest[..i]);
  }

  /** A DevTask can share a child name with an InferenceTask of the namespace exactly when it is called
      `inf`, or its name starts with `inf-`. */
  lemma KindsCollide(f: string, n: string, namespace: string)
    requires DashFree(f)
    ensures (exists e, m :: DashFree(e) && InfChildName(e, m) == DevChildName(f, n, namespace)) <==>
              n == "inf" || "inf-" <= n
  {
    var s := DevChildName(f, n, namespace);
    if n == "inf" {
      assert DashFree(f) && InfChildName(f, namespace) == s;
    } else if "inf-" <= n {
      var rest := n[4..] + "-" + f + "-" + namespace;
      assert n == "inf-" + n[4..];
      assert s == "inf-" + rest && rest[|n|-4] == '-';
      SplitsAsInf(rest, |n| - 4);
    }
    if e, m :| DashFree(e) && InfChildName(e, m) == s {
      SharedNameStarts(e, m, f, n, namespace);
    }
  }
}
