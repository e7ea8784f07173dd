/**
 * The install hook of run_hook_install: the environment handed to the hook
 * script and the decision taken from its exit status.
 */
module Hook {
  import opened Base
  import opened Text
  import opened Scan

  /** A process environment. */
  type Env = map<string, string>

  const CountVar: string := "BUNDLES"

  /** The name of the variable holding the path of the i-th bundle, counting from 1. */
  function PathVar(i: nat): string {
    "BUNDLE_PATH_" + Decimal(i)
  }

  /** The name of the variable holding the version of the i-th bundle, counting from 1. */
  function VersionVar(i: nat): string {
    "BUNDLE_VERSION_" + Decimal(i)
  }

  /** The variables the hook environment sets for a list of n bundles. */
  function HookVars(n: nat): set<string> {
    if n == 0 then {CountVar} else HookVars(n - 1) + {PathVar(n), VersionVar(n)}
  }

  /** The environment after the setenv calls for the first n bundles of the list. */
  function SetBundleVars(env: Env, bundles: seq<Bundle>, n: nat): Env
    requires n <= |bundles|
  {
    if n == 0 then env
    else SetBundleVars(env, bundles, n - 1)[PathVar(n) := bundles[n - 1].path][VersionVar(n) := bundles[n - 1].version]
  }

  /** The environment the hook script is started with: the daemon's own, plus the bundle variables. */
  function HookEnv(inherited: Env, bundles: seq<Bundle>): Env {
    SetBundleVars(inherited, bundles, |bundles|)[CountVar := Decimal(|bundles|)]
  }

  /**
   * The loop of run_hook_install that fills the launcher's environment:
   * BUNDLE_PATH_i and BUNDLE_VERSION_i for each bundle in list order, then
   * BUNDLES, each set with overwrite.
   */
  method BuildHookEnv(inherited: Env, bundles: seq<Bundle>) returns (env: Env)
    ensures env == HookEnv(inherited, bundles)
  {
    env := inherited;
    var ctr := 0;
    while ctr < |bundles|
      invariant 0 <= ctr <= |bundles|
      invariant env == SetBundleVars(inherited, bundles, ctr)
    {
      var bundle := bundles[ctr];
      ctr := ctr + 1;
      env := env[PathVar(ctr) := bundle.path];
      env := env[VersionVar(ctr) := bundle.version];
    }
    env := env[CountVar := Decimal(ctr)];
  }

  // ---------------------------------------------------------------- the variable names are distinct

  lemma PathVarInjective(i: nat, j: nat)
    ensures PathVar(i) == PathVar(j) ==> i == j
  {
    if PathVar(i) == PathVar(j) {
      assert Decimal(i) == PathVar(i)[12..];
      assert Decimal(j) == PathVar(j)[12..];
      DecimalInjective(i, j);
    }
  }

  lemma VersionVarInjective(i: nat, j: nat)
    ensures VersionVar(i) == VersionVar(j) ==> i == j
  {
    if VersionVar(i) == VersionVar(j) {
      assert Decimal(i) == VersionVar(i)[15..];
      assert Decimal(j) == VersionVar(j)[15..];
      DecimalInjective(i, j);
    }
  }

  lemma VarsDistinct(i: nat, j: nat)
    ensures PathVar(i) != VersionVar(j)
    ensures PathVar(i) != CountVar && VersionVar(j) != CountVar
  {
    assert PathVar(i)[7] == 'P' && VersionVar(j)[7] == 'V';
    assert PathVar(i)[6] == '_' && VersionVar(j)[6] == '_' && CountVar[6] == 'S';
  }

  /** After the first n setenv rounds, the i-th bundle's variables hold its path and version. */
  lemma {:induction false} SetBundleVarsValues(env: Env, bundles: seq<Bundle>, n: nat)
    requires n <= |bundles|
    ensures var e := SetBundleVars(env, bundles, n);
      forall i :: 1 <= i <= n ==>
        && PathVar(i) in e && e[PathVar(i)] == bundles[i - 1].path
        && VersionVar(i) in e && e[VersionVar(i)] == bundles[i - 1].version
  {
    if n > 0 {
      SetBundleVarsValues(env, bundles, n - 1);
      var prev := SetBundleVars(env, bundles, n - 1);
      var e := SetBundleVars(env, bundles, n);
      assert e == prev[PathVar(n) := bundles[n - 1].path][VersionVar(n) := bundles[n - 1].version];
      forall i | 1 <= i < n
        ensures PathVar(i) in e && e[PathVar(i)] == prev[PathVar(i)]
        ensures VersionVar(i) in e && e[VersionVar(i)] == prev[VersionVar(i)]
      {
        VarsOfDifferentBundles(i, n);
      }
      VarsDistinct(n, n);
    }
  }

  /** The variables of two different bundles have different names. */
  lemma VarsOfDifferentBundles(i: nat, n: nat)
    requires i != n
    ensures PathVar(i) != PathVar(n) && PathVar(i) != VersionVar(n)
    ensures VersionVar(i) != VersionVar(n) && VersionVar(i) != PathVar(n)
  {
    PathVarInjective(i, n);
    VersionVarInjective(i, n);
    VarsDistinct(i, n);
    VarsDistinct(n, i);
  }

  /** The setenv rounds touch no variable outside HookVars. */
  lemma {:induction false} SetBundleVarsFrame(env: Env, bundles: seq<Bundle>, n: nat, k: string)
    requires n <= |bundles| && k !in HookVars(n)
    ensures var e := SetBundleVars(env, bundles, n);
      (k in e <==> k in env) && (k in env ==> e[k] == env[k])
  {
    if n > 0 {
      SetBundleVarsFrame(env, bundles, n - 1, k);
    }
  }

  /**
   * The hook environment holds BUNDLES equal to the list length, BUNDLE_PATH_i
   * and BUNDLE_VERSION_i for the i-th bundle counting from 1, every other
   * inherited variable unchanged, and nothing else.
   */
  lemma HookEnvLookup(inherited: Env, bundles: seq<Bundle>)
    ensures var e := HookEnv(inherited, bundles);
      && CountVar in e && e[CountVar] == Decimal(|bundles|)
      && (forall i :: 1 <= i <= |bundles| ==> PathVar(i) in e && e[PathVar(i)] == bundles[i - 1].path)
      && (forall i :: 1 <= i <= |bundles| ==> VersionVar(i) in e && e[VersionVar(i)] == bundles[i - 1].version)
      && (forall k :: k in inherited && k !in HookVars(|bundles|) ==> k in e && e[k] == inherited[k])
      && (forall k :: k in e ==> k in inherited || k in HookVars(|bundles|))
  {
    var n := |bundles|;
    var withBundles := SetBundleVars(inherited, bundles, n);
    var e := HookEnv(inherited, bundles);
    assert e == withBundles[CountVar := Decimal(n)];
    SetBundleVarsValues(inherited, bundles, n);
    HookVarsHasCount(n);
    forall i | 1 <= i <= n
      ensures PathVar(i) in e && e[PathVar(i)] == bundles[i - 1].path
      ensures VersionVar(i) in e && e[VersionVar(i)] == bundles[i - 1].version
    {
      VarsDistinct(i, i);
    }
    forall k | k in inherited && k !in HookVars(n)
      ensures k in e && e[k] == inherited[k]
    {
      SetBundleVarsFrame(inherited, bundles, n, k);
    }
    forall k | k in e
      ensures k in inherited || k in HookVars(n)
    {
      if k !in HookVars(n) {
        SetBundleVarsFrame(inherited, bundles, n, k);
      }
    }
  }

  lemma {:induction false} HookVarsHasCount(n: nat)
    ensures CountVar in HookVars(n)
  {
    if n > 0 {
      HookVarsHasCount(n - 1);
    }
  }

  // ---------------------------------------------------------------- the exit status

  /** The exit status of a process that ended normally. */
  type ExitStatus = x: int | 0 <= x < 256

  /** How the hook process ended, as far as the daemon can tell. */
  datatype HookRun =
    | SpawnFailed              // the launcher could not start the script
    | WaitAborted              // waiting failed, e.g. because the disk was removed; the script is killed
    | Exited(status: ExitStatus)
    | Signalled                // killed by a signal: g_subprocess_get_exit_status then reports 1

  /** The status g_subprocess_get_exit_status reports for a process that did not exit normally. */
  const SignalledStatus: ExitStatus := 1

  /** What run_hook_install does once the script was asked. */
  datatype Decision =
    | SpawnFailure
    | WaitCancelled
    | Denied                         // status 0
    | OutOfBounds(status: ExitStatus)
    | Install(index: nat, bundle: Bundle)

  /**
   * The decision taken from the hook's exit status for a non-empty bundle
   * list: 0 denies, N installs the N-th bundle of the list if there is one,
   * anything else installs nothing. A script killed by a signal reads as
   * status 1 and so installs the first bundle.
   */
  function Decide(bundles: seq<Bundle>, run: HookRun): (d: Decision)
    requires |bundles| >= 1
    ensures d.Install? <==> (run.Exited? && 1 <= run.status <= |bundles|) || run == Signalled
    ensures d.Install? ==> 1 <= d.index <= |bundles| && d.bundle == bundles[d.index - 1]
    ensures d.Install? && run.Exited? ==> d.index == run.status
    ensures run == Signalled ==> d == Install(SignalledStatus, bundles[0])
    ensures d == Denied <==> run == Exited(0)
    ensures d.OutOfBounds? <==> run.Exited? && run.status > |bundles|
    ensures d == SpawnFailure <==> run == SpawnFailed
    ensures d == WaitCancelled <==> run == WaitAborted
  {
    match run
    case SpawnFailed => SpawnFailure
    case WaitAborted => WaitCancelled
    case Exited(status) => StatusDecision(bundles, status)
    case Signalled => StatusDecision(bundles, SignalledStatus)
  }

  /** The decision for a reported exit status. */
  function StatusDecision(bundles: seq<Bundle>, status: ExitStatus): Decision
    requires |bundles| >= 1
  {
    if status == 0 then Denied
    else if status - 1 < |bundles| then Install(status, bundles[status - 1])
    else OutOfBounds(status)
  }

  /** With two bundles, status 2 installs the second, 0 denies, 5 is out of bounds and a killed script installs the first. */
  lemma TwoBundleDecisions(a: Bundle, b: Bundle)
    ensures Decide([a, b], Exited(2)) == Install(2, b)
    ensures Decide([a, b], Exited(0)) == Denied
    ensures Decide([a, b], Exited(5)) == OutOfBounds(5)
    ensures Decide([a, b], Signalled) == Install(1, a)
  {
  }

  /** What on_attach's call of run_hook_install amounts to. */
  datatype HookOutcome =
    | NotStarted                              // no script, no bundle, or the disk is gone
    | Started(env: Env, decision: Decision, installSent: bool)

  /**
   * run_hook_install: without a script or without bundles nothing happens;
   * otherwise the script runs with the hook environment and its exit status
   * decides. Only a bundle of the list can be installed, and the Install call
   * goes out only if the disk's token does not read cancelled when it is made
   * (`installCancelled`).
   */
  function HookSpec(script: Option<string>, inherited: Env, run: HookRun, bundles: seq<Bundle>, installCancelled: bool): (h: HookOutcome)
    ensures h.Started? <==> script.Some? && |bundles| >= 1
    ensures h.Started? && h.decision.Install? ==> h.decision.bundle in bundles
    ensures h.Started? ==> (h.installSent <==> h.decision.Install? && !installCancelled)
  {
    if script.None? || bundles == [] then NotStarted
    else
      var d := Decide(bundles, run);
      Started(HookEnv(inherited, bundles), d, d.Install? && !installCancelled)
  }

  /** The installer calls a hook outcome makes: one Install for the chosen bundle, or none. */
  function InstallCalls(h: HookOutcome): seq<Rpc> {
    if h.Started? && h.installSent && h.decision.Install? then [InstallCall(h.decision.bundle.path)] else []
  }
}
