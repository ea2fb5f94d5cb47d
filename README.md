# Broker reconciler model

A Dafny model of the Submariner operator's Broker controller: the
`BrokerReconciler.Reconcile` loop body in `controllers/broker_controller.go`.
One call fetches the Broker named by the request, returns at once when it is
gone, unreadable or being deleted, builds a kube client from the reconciler's
rest config, and then runs four dependency steps in a fixed order —
`gateway.Ensure`, `lighthouse.Ensure` for the broker-cluster role,
`globalnet.ValidateExistingGlobalNetworks` and `globalnet.CreateConfigMap` —
returning the first error unchanged. Every path returns an empty
`ctrl.Result`; retries are driven only by the error.

Layout:

- `wrappers.dfy` — `Option`.
- `broker_api.dfy` — the request, the Broker and its spec, the controller Result.
- `cluster.dfy` — the collaborators as total functions of a cluster state `S`
  (`Client`, `RestConfig`), errors with `errors.Wrap` as a `Wrapped`
  constructor, the call log entries (`Call`), and `Invoke` for one dependency step.
- `pipeline.dfy` — `RunInOrder`, an independent reference definition of
  "run steps in order and stop at the first failure", with its lemmas.
- `broker_controller.dfy` — the specification function `Reconciled`, the
  class `BrokerReconciler` with its imperative `Reconcile` method proved
  equal to it, and the lemmas about the paths, the call order and the
  arguments.
- `replay.dfy` — idempotence of the steps stated as assumptions, and the
  proof that a second reconciliation after a successful one is a no-op.

The cluster is a value threaded through the calls. Each dependency step returns
its outcome and the cluster it leaves. Get only reads the cluster and returns
no new one. `kubernetes.NewForConfig` is called with the rest config alone, so
its outcome is a fixed property of that config: the same on every call, and it
never changes the cluster. Every run also returns the log of the
external calls it made, with their arguments, so that "no further call" and
"in this order" are contracts about that log. Beyond those two modelling
choices nothing is assumed about the collaborators, except in `replay.dfy`,
where the assumptions are explicit predicates in the lemmas' `requires`.

## Model

| member | source | states |
|---|---|---|
| BrokerController.Reconciled | controllers/broker_controller.go:56-112 | Every path returns an empty Result and the fetch is always the first call. NotFound ends Done after the Get alone, with the cluster unchanged. Any other fetch error ends with that error wrapped as "error retrieving Broker resource", after the Get alone. A Broker with a deletion timestamp ends Done after the Get alone, with no client built and no step run. A kube-client failure ends with the error wrapped as "error creating kube client", after Get and NewForConfig and before any dependency step. |
| BrokerController.BrokerReconciler.Reconcile | controllers/broker_controller.go:56-112 | The imperative method returns exactly the Result, outcome, call log and cluster of `Reconciled`. It has no `modifies` clause, so it writes none of the reconciler's fields. |
| BrokerController.BrokerReconciler.constructor | controllers/broker_controller.go:41-46 | The reconciler holds the given client and rest config. |
| BrokerController.ReconcileRunsPlan | controllers/broker_controller.go:85-111 | Once the Broker is live and the kube client exists, Reconcile equals `RunInOrder` over the four-step plan. Its calls are Get, NewForConfig and then the steps that ran. It leaves the cluster they leave. It ends Done if none failed, else with the failure attributed to the last step that ran. |
| BrokerController.CallsFollowPlan | controllers/broker_controller.go:80-111 | For a live Broker the call log is a prefix of Get, NewForConfig, gateway, lighthouse, validate, config map. Once the client exists, gateway.Ensure is always attempted. A Done run made every one of those calls in that order. A failing dependency step is the last call made. |
| BrokerController.DependencyArguments | controllers/broker_controller.go:94-106 | Any lighthouse call uses the broker-cluster role. The globalnet validation uses the request's namespace. CreateConfigMap receives exactly the fetched spec's GlobalnetEnabled, GlobalnetCIDRRange and DefaultGlobalnetClusterSize, and the request's namespace. |
| BrokerController.FirstFailureReturned | controllers/broker_controller.go:88-109 | A dependency failure is the first failure. All steps before it ran and succeeded, each on the cluster the previous one left. The failing step is the last call. The returned error is that step's own error, not wrapped. |
| Pipeline.RunInOrder | controllers/broker_controller.go:88-111 | The steps that ran are a prefix of the plan. A non-empty plan runs at least its first step. A run without failure ran the whole plan. A failed run ran at least one step. |
| Pipeline.StopsAtFirstFailure | controllers/broker_controller.go:88-109 | When a run fails, the prefix before its last step runs cleanly. The last step, run on the cluster that prefix leaves, produces exactly the run's error and final cluster. |
| Pipeline.RunOneMore | controllers/broker_controller.go:88-111 | Extending a clean prefix by one step gives that step's outcome. If that step fails, it is the outcome of the whole plan: nothing after it runs. |
| Replay.RunKeepsSettled | controllers/broker_controller.go:88-111 | Under the assumption that later steps keep an earlier step settled, a clean run keeps it settled. |
| Replay.RunSettlesAll | controllers/broker_controller.go:88-111 | Under the idempotence assumptions, every step of a plan that ran cleanly is settled in the cluster the run leaves. |
| Replay.SettledRunIsNoOp | controllers/broker_controller.go:88-111 | Running steps that are all settled succeeds, runs every step and leaves the cluster unchanged. |
| Replay.RunKeepsObject | controllers/broker_controller.go:63-111 | When no step changes the Broker as Get reports it, a clean run leaves the Broker's fetch result unchanged. |
| Replay.ReconcileReplayIsNoOp | controllers/broker_controller.go:52-111 | Under the idempotence assumptions, a reconciliation that ended Done, run again on the cluster it left, returns the same Result, outcome and calls and leaves that cluster unchanged. |

## Left out

- Logging (`log.FromContext`, `r.Log.WithValues`, lines 57-58): no effect on the result.
- `SetupWithManager` (lines 114-119) and the kubebuilder RBAC markers (lines 48-50): wiring and permissions, not behaviour of a reconciliation.
- The `Scheme` field of the reconciler: Reconcile does not use it. The `Log` field is used only for the discarded `r.Log.WithValues` call (see Logging above).
- `crd.UpdaterFromControllerClient` (line 86) cannot fail. It is folded into the `Client`, through which gateway.Ensure and lighthouse.Ensure act.
- The internals of `kubernetes.NewForConfig`, `client.Get`, and the gateway, lighthouse and globalnet packages are not part of this model. Each is a total function of the cluster state. `NewForConfig` is reduced to whether it fails.
- `apierrors.IsNotFound` is reduced to a three-way outcome of Get: found, not found, or another error.
- The `context.Context`, cancellation, concurrent reconciliations and the controller-runtime work queue are not modelled. The cluster is a value that only Reconcile's own calls change.
- The value `lighthouse.Ensure` returns alongside its error is discarded by Reconcile and is not modelled.
- `DefaultGlobalnetClusterSize` is an unsigned Go integer, modelled as `nat` without a width bound; Reconcile only passes it on.
- Replay.ReconcileReplayIsNoOp: the idempotence of the dependency steps is an assumption (`IdempotentPlan`) and is not proved. The packages that would have to guarantee it are not part of this model.
