# Kubernetes scheduling helpers and e2e suite-setup decisions, in Dafny

This project models two small pieces of decision logic from Kubernetes and proves properties about them.

1. **Scheduling helpers of the core/v1 API**, modelled in `scheduling_helpers.dfy` (module `SchedulingHelpers`):
   - `PodPriority` resolves a pod's optional `Priority` to an `int32`. The static default is 0.
   - `GetZoneKey` builds a node's failure-zone key from its labels:
     - The zone is the beta label `failure-domain.beta.kubernetes.io/zone` when that key is present, even if its value is empty. Only when that key is absent is `topology.kubernetes.io/zone` used.
     - The region follows the same fallback, using the region labels.
     - A nil label map, or an empty region together with an empty zone, gives `""`.
     - Otherwise the key is `region + ":\x00:" + zone`.
   - The model also defines a split at the first separator, `SplitZoneKey`. With it, the model proves the injectivity that the source's comment claims. The split only needs the region to be free of NUL characters.
2. **End-to-end suite setup** (`test/e2e/e2e.go`):
   - `daemonset_readiness.dfy`, module `DaemonSetReadiness`, models the condition polled by `waitForDaemonSets`:
     - A loop collects, in list order, the names of the daemonsets whose `desired - ready` is strictly greater than the tolerance. The subtraction is done in int32 with explicit wrap-around (module `GoInt`).
     - The condition is done iff no name was collected.
     - A list error is either retryable (keep polling) or terminal (returned).
   - `suite_setup.dfy`, module `SuiteSetup`, models four things:
     - the default skip pattern, applied in place to the runner's configuration;
     - the two-valued IP-family classification, with the IPv6 parser passed in as a parameter;
     - which failures of the one-time setup abort the suite and which are only logged;
     - the per-runner step that records the IP family.

`wrappers.dfy` holds `Option`, `Result` and Go's `int32`.

## Model

| member | source | states |
|---|---|---|
| `SchedulingHelpers.PodPriority` | staging/src/k8s.io/component-helpers/scheduling/corev1/helpers.go:24-32 | If the pod's priority is set, the result is exactly that value. If it is nil, the result is the static default 0. |
| `SchedulingHelpers.LabelWithFallback` | staging/src/k8s.io/component-helpers/scheduling/corev1/helpers.go:48-57 | If the preferred (beta) key is present, its value is used, even when it is empty. The fallback (stable) key is used only when the preferred key is absent. If both are absent the result is `""`. |
| `SchedulingHelpers.GetZoneKey` | staging/src/k8s.io/component-helpers/scheduling/corev1/helpers.go:41-67 | A nil label map gives `""`. The key is `""` iff the labels are nil or the resolved region and zone are both empty. Any other key is exactly region, then `":\x00:"`, then zone. |
| `SchedulingHelpers.FindSeparatorFrom` | staging/src/k8s.io/component-helpers/scheduling/corev1/helpers.go:63-66 | Returns the first position at or after `i` where `":\x00:"` starts, with no occurrence before it. Returns `None` only when there is no occurrence at all. |
| `SchedulingHelpers.NoSeparatorInsideRegion` | staging/src/k8s.io/component-helpers/scheduling/corev1/helpers.go:63-64 | If the region has no NUL, no separator can start inside the region part of a joined key. |
| `SchedulingHelpers.SplitJoinRoundTrip` | staging/src/k8s.io/component-helpers/scheduling/corev1/helpers.go:63-66 | If the region has no NUL, splitting `region + ":\x00:" + zone` at the first separator gives back `(region, zone)` exactly. The zone may contain anything, colons and NULs included. |
| `SchedulingHelpers.JoinZoneKeyInjective` | staging/src/k8s.io/component-helpers/scheduling/corev1/helpers.go:59-66 | For NUL-free regions, two (region, zone) pairs with the same key are the same pair. This includes the empty key. |
| `SchedulingHelpers.GetZoneKeyIdentifiesZone` | staging/src/k8s.io/component-helpers/scheduling/corev1/helpers.go:34-35 | The key is unique per failure zone: two labelled nodes with NUL-free regions and equal keys have the same resolved region and the same resolved zone. |
| `SchedulingHelpers.GetZoneKeySplits` | staging/src/k8s.io/component-helpers/scheduling/corev1/helpers.go:59-66 | A non-empty key of a node with a NUL-free region splits back into that node's resolved region and zone. |
| `SchedulingHelpers.BetaLabelsWin` | staging/src/k8s.io/component-helpers/scheduling/corev1/helpers.go:47-61 | If the beta zone and beta region keys are present but empty, the key is `""`, whatever the stable labels say. |
| `GoInt.Wrap32` | test/e2e/e2e.go:192 | The result has the same residue modulo 2^32 as the input. It equals the input when the input is in int32 range. |
| `GoInt.Sub32` | test/e2e/e2e.go:192 | Go's int32 subtraction: the result equals the exact difference modulo 2^32. |
| `GoInt.Sub32NonNegativeExact` | test/e2e/e2e.go:192 | If both counts are non-negative, the int32 subtraction does not wrap. |
| `DaemonSetReadiness.NotReadyIndicesExact` | test/e2e/e2e.go:189-195 | The collected positions are in range and strictly increasing. A position is collected iff its daemonset's gap exceeds the tolerance. |
| `DaemonSetReadiness.NotReadyNamesIndexed` | test/e2e/e2e.go:189-195 | The k-th collected name is the name of the daemonset at the k-th collected position. So names keep list order, and each daemonset adds at most one entry. |
| `DaemonSetReadiness.NotReadyNamesBounded` | test/e2e/e2e.go:189-195 | No more names are collected than there are daemonsets. |
| `DaemonSetReadiness.NotReadyNamesMembership` | test/e2e/e2e.go:190-194 | A name is collected iff some listed daemonset with that name is over the tolerance. |
| `DaemonSetReadiness.NotReadyNamesEmptyIff` | test/e2e/e2e.go:189-197 | Nothing is collected iff every daemonset is within the tolerance. |
| `DaemonSetReadiness.NotReadyExact` | test/e2e/e2e.go:192 | With non-negative counts, a daemonset is not ready iff `desired - ready > allowed`. A gap exactly equal to the tolerance is accepted. |
| `DaemonSetReadiness.DaemonSetsConditionSound` | test/e2e/e2e.go:180-203 | Done implies no error. The result is done iff the list succeeded and every daemonset is within tolerance. A list error is never done, and its error is dropped iff it is retryable. An error is returned only for a list error, and it is that error. |
| `DaemonSetReadiness.CollectNotReady` | test/e2e/e2e.go:189-195 | The loop returns exactly `NotReadyNames`, the list of not-ready names that the lemmas above describe. |
| `DaemonSetReadiness.CheckDaemonSets` | test/e2e/e2e.go:180-203 | One evaluation of the condition equals `DaemonSetsCondition`, the function that `DaemonSetsConditionSound` describes. It is done iff the list succeeded and all daemonsets are within tolerance. "Not done" without an error happens only for a successful list or a retryable error. |
| `SuiteSetup.EffectiveSkipString` | test/e2e/e2e.go:95-97 | The default pattern is used iff focus and skip are both empty. Otherwise skip is unchanged. With an empty focus, the skip pattern in force is never empty. |
| `SuiteSetup.EffectiveSkipIdempotent` | test/e2e/e2e.go:95-97 | Applying the default rule twice gives the same result as applying it once. |
| `SuiteSetup.GinkgoConfig.DisableSkippedTestsByDefault` | test/e2e/e2e.go:93-97 | Updates the configuration in place. The focus is unchanged, and the skip becomes the effective skip pattern of the old focus and skip. |
| `SuiteSetup.DefaultClusterIPFamily` | test/e2e/e2e.go:159-170 | A failed service lookup is fatal. Otherwise the result is `"ipv6"` iff the ClusterIP classifies as IPv6 text, `"ipv4"` iff it does not, and no other value is possible. |
| `SuiteSetup.TestContext.SetupSuitePerGinkgoNode` | test/e2e/e2e.go:317-330 | On success, the recorded IP family is the classified family. A failed lookup returns a fatal error and leaves the recorded family unchanged. |
| `SuiteSetup.SetupSuite` | test/e2e/e2e.go:215-310 | Diagnostics run iff setup aborts at pod readiness. The node killer starts iff setup completes and the killer is enabled. An abort names a step that ran, failed and is fatal, and logs no warnings. A completed setup warns for exactly the failed non-fatal steps. |
| `SuiteSetup.SetupAbortsAtFirstBlockingStep` | test/e2e/e2e.go:225-289 | Setup completes iff no step, in setup order, runs and fails fatally. Otherwise it aborts at the first such step. |
| `SuiteSetup.DaemonSetFailureOnlyWarns` | test/e2e/e2e.go:286-289 | A failed daemonset wait never changes the verdict or whether the node killer starts. On a full run it appears as a warning. |
| `SuiteSetup.PodReadinessFailureIsFatal` | test/e2e/e2e.go:276-284 | If every earlier fatal step passed, a pod-readiness failure runs the diagnostics, aborts the suite and starts no node killer. |

Each method above has a function that specifies it, and the lemmas are stated about that function:
- `NotReadyNames` specifies `CollectNotReady`.
- `DaemonSetsCondition` specifies `CheckDaemonSets`.
- `EffectiveSkipString` specifies `GinkgoConfig.DisableSkippedTestsByDefault`.
- `DefaultClusterIPFamily` specifies `TestContext.SetupSuitePerGinkgoNode`.

`JoinZoneKey` is the key-building step of `GetZoneKey`, shared by its contract and the injectivity lemmas.

Two facts about the code that the model keeps:
- Each daemonset's own gap is compared with the tolerance (`e2e.go:192`). There is no aggregate shortfall.
- The IP family is the string `"ipv6"` or `"ipv4"` (`e2e.go:166-169`).

## Left out

- The parallel-runner barrier (`SynchronizedBeforeSuite`/`SynchronizedAfterSuite`), reporters and JUnit file naming: test-runner plumbing and report I/O.
- The cluster calls of the one-time setup are not modelled, only their outcomes. Their success or failure is the abstract input `SetupEnv.failing`. This covers client loading, namespace deletion and its wait, the node-schedulable wait, the pod running-and-ready wait, the `NumNodes` auto-detect and the server-version lookup. Their bodies are network I/O in framework code that is not part of this model. The value stored in `NumNodes` is not modelled.
- The protected namespace list passed to namespace deletion: the deletion function itself is not part of this model.
- The poll loop (`wait.PollImmediate`), its interval and its timeout: wall-clock behaviour. The model covers one evaluation of the polled condition.
- The canary pod (`runKubernetesServiceTestContainer`) and the state dumps after a pod-readiness failure are modelled only as an ordered list of diagnostic markers. Manifest reading and pod create/delete/logs are I/O.
- The node killer goroutine: concurrency and chaos injection. The model records only whether it is started.
- The IPv6 text parser: it is the parameter `isIPv6String`. Whether an API error is retryable is the flag `ApiError.retryable`.
- Logging (every `Logf`, including the log of the not-ready names), the GCE image-source log and the version log lines.
- The client load at the start of the per-runner setup: client loading is I/O.
- The values of the label-key constants come from the core/v1 API package, which is not part of this model. The model uses their published values.
- `DaemonSetReadiness.CheckDaemonSets`: the tolerance is given as an `int32`, so the narrowing of the configured `int` to `int32` by the caller is not modelled.
- `SuiteSetup.EffectiveSkipString`: the skip pattern is a plain string; its regular-expression meaning is not modelled.
- Labels are sequences of characters, while Go strings are bytes. This changes no proved property, because the separator `":\x00:"` is ASCII and a split at the first separator gives the same parts at byte level.
- A nil `*v1.Pod` or `*v1.Node` makes `PodPriority` or `GetZoneKey` panic in Go. The model's `Pod` and `Node` are values with no nil case.
- `test/e2e/examples.go` (test scenarios driving kubectl) and `test/e2e/node/framework.go` (a one-line describe wrapper).
