/**
 * The decision rules of the end-to-end suite's setup: the default skip
 * pattern, the cluster's IP family, and which setup failures abort the suite.
 */
module SuiteSetup {
  import opened Wrappers

  // ---------------------------------------------------------------------
  // Default skip pattern
  // ---------------------------------------------------------------------

  /** Skips flaky tests and tests of optional features unless asked for. */
  const DefaultSkipPattern: string := "\\[Flaky\\]|\\[Feature:.+\\]"

  /**
   * The skip pattern in force after the default rule: the default pattern
   * when neither a focus nor a skip pattern was given, the given one otherwise.
   */
  function EffectiveSkipString(focus: string, skip: string): (r: string)
    ensures focus == "" && skip == "" ==> r == DefaultSkipPattern
    ensures focus != "" || skip != "" ==> r == skip
    ensures focus == "" ==> r != ""
  {
    if focus == "" && skip == "" then DefaultSkipPattern else skip
  }

  /** Applying the default rule a second time changes nothing. */
  lemma EffectiveSkipIdempotent(focus: string, skip: string)
    ensures EffectiveSkipString(focus, EffectiveSkipString(focus, skip)) == EffectiveSkipString(focus, skip)
  {
  }

  /** The runner's focus and skip patterns, which the suite adjusts in place. */
  class GinkgoConfig {
    var focusString: string
    var skipString: string

    constructor (focus: string, skip: string)
      ensures focusString == focus && skipString == skip
    {
      focusString := focus;
      skipString := skip;
    }

    /** Disables skipped tests unless they are explicitly requested. */
    method DisableSkippedTestsByDefault()
      modifies this
      ensures focusString == old(focusString)
      ensures skipString == EffectiveSkipString(old(focusString), old(skipString))
    {
      if focusString == "" && skipString == "" {
        skipString := DefaultSkipPattern;
      }
    }
  }

  // ---------------------------------------------------------------------
  // Cluster IP family
  // ---------------------------------------------------------------------

  const IPv6Family: string := "ipv6"
  const IPv4Family: string := "ipv4"

  /**
   * The IP family of the cluster, read from the ClusterIP of the `kubernetes`
   * service: `service` is that lookup (the address or the error) and
   * `isIPv6String` the address classifier. A failed lookup is fatal.
   */
  function DefaultClusterIPFamily(service: Result<string, string>, isIPv6String: string -> bool)
    : (r: Result<string, string>)
    ensures r.Failure? <==> service.Failure?
    ensures r.Success? ==> (r.value == IPv6Family <==> isIPv6String(service.value))
    ensures r.Success? ==> (r.value == IPv4Family <==> !isIPv6String(service.value))
    ensures r.Success? ==> r.value in {IPv6Family, IPv4Family}
  {
    match service
    case Failure(e) => Failure("Failed to get kubernetes service ClusterIP: " + e)
    case Success(clusterIP) =>
      if isIPv6String(clusterIP) then Success(IPv6Family) else Success(IPv4Family)
  }

  /** Process-wide test settings that every parallel runner fills in once. */
  class TestContext {
    var ipFamily: string

    constructor ()
      ensures ipFamily == ""
    {
      ipFamily := "";
    }

    /**
     * The per-runner setup: resolves and records the IP family; on a failed
     * lookup it returns the fatal error and records nothing.
     */
    method SetupSuitePerGinkgoNode(service: Result<string, string>, isIPv6String: string -> bool)
      returns (fatal: Option<string>)
      modifies this
      ensures fatal.Some? <==> service.Failure?
      ensures fatal.None? ==> ipFamily == DefaultClusterIPFamily(service, isIPv6String).value
      ensures fatal.Some? ==> ipFamily == old(ipFamily)
    {
      var family := DefaultClusterIPFamily(service, isIPv6String);
      if family.Failure? {
        return Some(family.error);
      }
      ipFamily := family.value;
      return None;
    }
  }

  // ---------------------------------------------------------------------
  // Fatal and non-fatal failures of the one-time setup
  // ---------------------------------------------------------------------

  /** The cluster-facing steps of the one-time setup, in the order they run. */
  datatype Step =
    | LoadClient
    | DeleteNamespaces
    | WaitNamespacesDeleted
    | WaitNodesSchedulable
    | DetectNumNodes
    | WaitPodsRunningReady
    | WaitDaemonSets
    | ServerVersion

  const SetupOrder: seq<Step> := [
    LoadClient, DeleteNamespaces, WaitNamespacesDeleted, WaitNodesSchedulable,
    DetectNumNodes, WaitPodsRunningReady, WaitDaemonSets, ServerVersion]

  /** Diagnostics run after the system pods fail to become ready, before the suite aborts. */
  datatype Diagnostic = DumpNamespaceInfo | LogFailedContainers | RunClusterApiTester

  const PodFailureDiagnostics: seq<Diagnostic> :=
    [DumpNamespaceInfo, LogFailedContainers, RunClusterApiTester]

  /**
   * The configuration the setup branches on, and the steps whose cluster call
   * returns an error when they run.
   */
  datatype SetupEnv = SetupEnv(
    cleanStart: bool,
    numNodesIsDefault: bool,
    nodeKillerEnabled: bool,
    failing: set<Step>)

  datatype Verdict = Completed | Aborted(at: Step)

  /** What the setup did: its verdict, the diagnostics it ran, the failures it only logged. */
  datatype SetupReport = SetupReport(
    verdict: Verdict,
    diagnostics: seq<Diagnostic>,
    warnings: seq<Step>,
    nodeKillerStarted: bool)

  /** Whether a step is reached at all under the configuration (given that earlier steps passed). */
  predicate Runs(env: SetupEnv, s: Step) {
    match s
    case DeleteNamespaces => env.cleanStart
    case WaitNamespacesDeleted => env.cleanStart
    case DetectNumNodes => env.numNodesIsDefault
    case _ => true
  }

  /** Whether an error of the step aborts the suite; the rest are only logged. */
  predicate FatalOnError(s: Step) {
    s != WaitDaemonSets && s != ServerVersion
  }

  /** The step runs, fails and is fatal. */
  predicate Blocks(env: SetupEnv, s: Step) {
    s in env.failing && Runs(env, s) && FatalOnError(s)
  }

  /** The failures that are only logged, in the order they are logged. */
  function LoggedFailures(env: SetupEnv): seq<Step> {
    (if WaitDaemonSets in env.failing then [WaitDaemonSets] else [])
    + (if ServerVersion in env.failing then [ServerVersion] else [])
  }

  function Abort(s: Step): SetupReport {
    SetupReport(Aborted(s), [], [], false)
  }

  /**
   * The one-time setup. Each fatal step stops the setup at its failure; the
   * pod-readiness failure runs its diagnostics first; the daemonset wait and
   * the version lookup only log; the node killer starts after a full run.
   */
  function SetupSuite(env: SetupEnv): (r: SetupReport)
    ensures r.diagnostics != [] <==> r.verdict == Aborted(WaitPodsRunningReady)
    ensures r.verdict == Aborted(WaitPodsRunningReady) ==> r.diagnostics == PodFailureDiagnostics
    ensures r.nodeKillerStarted <==> r.verdict.Completed? && env.nodeKillerEnabled
    ensures r.verdict.Aborted? ==> Blocks(env, r.verdict.at) && r.warnings == []
    ensures r.verdict.Completed? ==>
      forall s :: s in r.warnings <==> s in env.failing && !FatalOnError(s)
  {
    if LoadClient in env.failing then Abort(LoadClient)
    else if env.cleanStart && DeleteNamespaces in env.failing then Abort(DeleteNamespaces)
    else if env.cleanStart && WaitNamespacesDeleted in env.failing then Abort(WaitNamespacesDeleted)
    else if WaitNodesSchedulable in env.failing then Abort(WaitNodesSchedulable)
    else if env.numNodesIsDefault && DetectNumNodes in env.failing then Abort(DetectNumNodes)
    else if WaitPodsRunningReady in env.failing then
      SetupReport(Aborted(WaitPodsRunningReady), PodFailureDiagnostics, [], false)
    else
      SetupReport(Completed, [], LoggedFailures(env), env.nodeKillerEnabled)
  }

  /**
   * The setup aborts exactly at the first step, in setup order, that runs and
   * fails fatally, and completes when there is none.
   */
  lemma SetupAbortsAtFirstBlockingStep(env: SetupEnv)
    ensures SetupSuite(env).verdict.Completed? <==>
      forall i :: 0 <= i < |SetupOrder| ==> !Blocks(env, SetupOrder[i])
    ensures forall i :: (0 <= i < |SetupOrder| && Blocks(env, SetupOrder[i]) &&
        (forall j :: 0 <= j < i ==> !Blocks(env, SetupOrder[j]))) ==>
      SetupSuite(env).verdict == Aborted(SetupOrder[i])
  {
    var r := SetupSuite(env);
    forall i | 0 <= i < |SetupOrder| && Blocks(env, SetupOrder[i]) &&
        (forall j :: 0 <= j < i ==> !Blocks(env, SetupOrder[j]))
      ensures r.verdict == Aborted(SetupOrder[i])
    {
      assert SetupOrder[0] == LoadClient && SetupOrder[1] == DeleteNamespaces
        && SetupOrder[2] == WaitNamespacesDeleted && SetupOrder[3] == WaitNodesSchedulable
        && SetupOrder[4] == DetectNumNodes && SetupOrder[5] == WaitPodsRunningReady;
    }
    if r.verdict.Aborted? {
      var s := r.verdict.at;
      assert s in SetupOrder;
    }
  }

  /** A failed daemonset wait never changes the verdict; on a full run it is logged as a warning. */
  lemma DaemonSetFailureOnlyWarns(env: SetupEnv)
    ensures var failed := SetupSuite(env.(failing := env.failing + {WaitDaemonSets}));
      var passed := SetupSuite(env.(failing := env.failing - {WaitDaemonSets}));
      failed.verdict == passed.verdict &&
      failed.nodeKillerStarted == passed.nodeKillerStarted &&
      (failed.verdict.Completed? ==> WaitDaemonSets in failed.warnings && WaitDaemonSets !in passed.warnings)
  {
  }

  /** When every earlier step passed, a pod-readiness failure runs the diagnostics and aborts. */
  lemma PodReadinessFailureIsFatal(env: SetupEnv)
    requires WaitPodsRunningReady in env.failing
    requires forall s :: s in env.failing ==> !FatalOnError(s) || s == WaitPodsRunningReady
    ensures SetupSuite(env).verdict == Aborted(WaitPodsRunningReady)
    ensures SetupSuite(env).diagnostics == PodFailureDiagnostics
    ensures !SetupSuite(env).nodeKillerStarted
  {
  }
}
