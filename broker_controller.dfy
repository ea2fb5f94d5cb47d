/**
 * BrokerReconciler.Reconcile: fetch the Broker named by the request, stop when
 * it is gone or being deleted, build a kube client, then run the four
 * dependency steps in a fixed order, stopping at the first failure.
 */
module BrokerController {
  import opened Wrappers
  import opened BrokerApi
  import opened Cluster
  import opened Pipeline

  const RetrieveBrokerMessage := "error retrieving Broker resource"
  const CreateKubeClientMessage := "error creating kube client"

  /** Where a run stopped with an error. */
  datatype Stage =
    | FetchBroker
    | CreateKubeClient
    | DependencyFailed(step: DependencyStep)

  /** How a run ended: nothing left to do, or an error to be retried, attributed to its stage. */
  datatype Outcome =
    | Done
    | Err(stage: Stage, cause: Error)

  /** Everything one call of Reconcile produces: its Result, its outcome, its call log and the cluster it leaves. */
  datatype Run<S> = Run(result: CtrlResult, outcome: Outcome, calls: seq<Call>, state: S)

  /** The four dependency steps of a Broker, in the order Reconcile runs them, with their arguments. */
  function EnsurePlan(request: Request, spec: BrokerSpec): seq<DependencyStep>
  {
    [ GatewayEnsure,
      LighthouseEnsure(BrokerCluster),
      ValidateExistingGlobalNetworks(request.Namespace()),
      CreateConfigMap(spec.globalnetEnabled, spec.globalnetCIDRRange,
                      spec.defaultGlobalnetClusterSize, request.Namespace()) ]
  }

  /** The call log of a run in which every step succeeds. */
  function FullTrace(request: Request, spec: BrokerSpec): seq<Call>
  {
    [Get(request.namespacedName), NewForConfig] + EnsurePlan(request, spec)
  }

  /** True when the fetch returned a Broker that is not being deleted: only then does Reconcile act. */
  predicate Live(fetched: FetchOutcome)
  {
    fetched.Found? && !fetched.broker.BeingDeleted()
  }

  /** The Run that a failure at `stage`, after the calls `calls`, produces. */
  function Failed<S>(stage: Stage, cause: Error, calls: seq<Call>, cluster: S): Run<S>
  {
    Run(EmptyResult, Err(stage, cause), calls, cluster)
  }

  /**
   * What one call of Reconcile does, step by step: the fetch and its early
   * exits, the kube client, then the four dependency steps of EnsurePlan,
   * each ending the run when it fails.
   */
  function Reconciled<S>(client: Client<S>, config: RestConfig<S>, request: Request, cluster: S): (r: Run<S>)
    // retry is only ever signalled by an error, never by a requeue
    ensures r.result.IsEmpty()
    // the fetch always comes first
    ensures r.calls != [] && r.calls[0] == Get(request.namespacedName)
    // not found: done, and nothing else is called
    ensures client.get(cluster, request.namespacedName).NotFound? ==>
              r.outcome == Done && r.calls == [Get(request.namespacedName)] && r.state == cluster
    // any other fetch error: wrapped, retried, and nothing else is called
    ensures client.get(cluster, request.namespacedName).FetchFailed? ==>
              r.outcome == Err(FetchBroker, Wrapped(RetrieveBrokerMessage, client.get(cluster, request.namespacedName).cause))
              && r.calls == [Get(request.namespacedName)] && r.state == cluster
    // being deleted: done, no client built, no step run
    ensures client.get(cluster, request.namespacedName).Found? &&
            client.get(cluster, request.namespacedName).broker.BeingDeleted() ==>
              r.outcome == Done && r.calls == [Get(request.namespacedName)] && r.state == cluster
    // kube client fails: wrapped, and it happens before any step
    ensures Live(client.get(cluster, request.namespacedName)) && config.newForConfig.Some? ==>
              r.outcome == Err(CreateKubeClient, Wrapped(CreateKubeClientMessage, config.newForConfig.value))
              && r.calls == [Get(request.namespacedName), NewForConfig] && r.state == cluster
  {
    var key := request.namespacedName;
    match client.get(cluster, key)
    case NotFound =>
      Run(EmptyResult, Done, [Get(key)], cluster)
    case FetchFailed(e) =>
      Failed(FetchBroker, Wrapped(RetrieveBrokerMessage, e), [Get(key)], cluster)
    case Found(broker) =>
      if broker.BeingDeleted() then
        Run(EmptyResult, Done, [Get(key)], cluster)
      else if config.newForConfig.Some? then
        Failed(CreateKubeClient, Wrapped(CreateKubeClientMessage, config.newForConfig.value), [Get(key), NewForConfig], cluster)
      else
        var plan := EnsurePlan(request, broker.spec);
        var prior := [Get(key), NewForConfig];
        var gateway := Invoke(client, config, plan[0], cluster);
        if gateway.err.Some? then
          Failed(DependencyFailed(plan[0]), gateway.err.value, prior + plan[..1], gateway.state)
        else
          var lighthouse := Invoke(client, config, plan[1], gateway.state);
          if lighthouse.err.Some? then
            Failed(DependencyFailed(plan[1]), lighthouse.err.value, prior + plan[..2], lighthouse.state)
          else
            var validate := Invoke(client, config, plan[2], lighthouse.state);
            if validate.err.Some? then
              Failed(DependencyFailed(plan[2]), validate.err.value, prior + plan[..3], validate.state)
            else
              var configMap := Invoke(client, config, plan[3], validate.state);
              if configMap.err.Some? then
                Failed(DependencyFailed(plan[3]), configMap.err.value, prior + plan, configMap.state)
              else
                Run(EmptyResult, Done, prior + plan, configMap.state)
  }

  /**
   * Once the Broker is live and the kube client is built, Reconcile is exactly
   * the dependency plan run in order: it logs the steps that ran, leaves the
   * cluster they leave, and ends with the first failure, attributed to the
   * failing step, or with Done.
   */
  lemma ReconcileRunsPlan<S>(client: Client<S>, config: RestConfig<S>, request: Request, cluster: S)
    requires Live(client.get(cluster, request.namespacedName)) && config.newForConfig.None?
    ensures var steps := RunInOrder(client, config, EnsurePlan(request, client.get(cluster, request.namespacedName).broker.spec), cluster);
            var r := Reconciled(client, config, request, cluster);
            && r.calls == [Get(request.namespacedName), NewForConfig] + steps.ran
            && r.state == steps.state
            && r.outcome == if steps.failure.None? then Done else Err(DependencyFailed(steps.ran[|steps.ran| - 1]), steps.failure.value)
  {
    var plan := EnsurePlan(request, client.get(cluster, request.namespacedName).broker.spec);
    assert plan[..0] == [];
    RunOneMore(client, config, plan, 0, cluster, cluster);
    var s1 := Invoke(client, config, plan[0], cluster);
    if s1.err.None? {
      RunOneMore(client, config, plan, 1, cluster, s1.state);
      var s2 := Invoke(client, config, plan[1], s1.state);
      if s2.err.None? {
        RunOneMore(client, config, plan, 2, cluster, s2.state);
        var s3 := Invoke(client, config, plan[2], s2.state);
        if s3.err.None? {
          RunOneMore(client, config, plan, 3, cluster, s3.state);
          assert plan[..4] == plan;
        }
      }
    }
  }

  /**
   * Once the Broker is live, the calls follow the plan: they are a prefix of
   * the full trace, gateway.Ensure is always attempted once the kube client
   * exists, a run that ends Done made every call of the trace, and a failing
   * dependency step is the last call made.
   */
  lemma CallsFollowPlan<S>(client: Client<S>, config: RestConfig<S>, request: Request, cluster: S)
    requires Live(client.get(cluster, request.namespacedName))
    ensures var r := Reconciled(client, config, request, cluster);
            var spec := client.get(cluster, request.namespacedName).broker.spec;
            && r.calls <= FullTrace(request, spec)
            && (config.newForConfig.None? ==> |r.calls| >= 3)
            && (r.outcome.Done? ==> r.calls == FullTrace(request, spec))
            && (r.outcome.Err? && r.outcome.stage.DependencyFailed? ==> r.calls[|r.calls| - 1] == r.outcome.stage.step)
  {
    if config.newForConfig.None? {
      ReconcileRunsPlan(client, config, request, cluster);
    }
  }

  /**
   * The arguments the dependency steps receive: lighthouse.Ensure is asked for
   * the broker-cluster role, the globalnet validation looks in the request's
   * namespace, and CreateConfigMap gets exactly the fetched spec's globalnet
   * fields and the request's namespace.
   */
  lemma DependencyArguments<S>(client: Client<S>, config: RestConfig<S>, request: Request, cluster: S, i: nat)
    requires client.get(cluster, request.namespacedName).Found?
    requires i < |Reconciled(client, config, request, cluster).calls|
    ensures var call := Reconciled(client, config, request, cluster).calls[i];
            var spec := client.get(cluster, request.namespacedName).broker.spec;
            && (call.LighthouseEnsure? ==> call.clusterType == BrokerCluster)
            && (call.ValidateExistingGlobalNetworks? ==> call.namespace == request.Namespace())
            && (call.CreateConfigMap? ==>
                  call == CreateConfigMap(spec.globalnetEnabled, spec.globalnetCIDRRange,
                                          spec.defaultGlobalnetClusterSize, request.Namespace()))
  {
    if Live(client.get(cluster, request.namespacedName)) {
      CallsFollowPlan(client, config, request, cluster);
      var trace := FullTrace(request, client.get(cluster, request.namespacedName).broker.spec);
      assert Reconciled(client, config, request, cluster).calls[i] == trace[i];
    }
  }

  /**
   * A dependency failure is the first failure: every step before the failing
   * one succeeded, each in the cluster the previous one left, and the error
   * Reconcile returns is the failing step's own error, unwrapped.
   */
  lemma FirstFailureReturned<S>(client: Client<S>, config: RestConfig<S>, request: Request, cluster: S)
    requires Reconciled(client, config, request, cluster).outcome.Err?
    requires Reconciled(client, config, request, cluster).outcome.stage.DependencyFailed?
    ensures client.get(cluster, request.namespacedName).Found?
    ensures var r := Reconciled(client, config, request, cluster);
            var plan := EnsurePlan(request, client.get(cluster, request.namespacedName).broker.spec);
            var k := |r.calls| - 3;
            var before := RunInOrder(client, config, plan[..k], cluster);
            && 0 <= k < |plan|
            && r.calls == [Get(request.namespacedName), NewForConfig] + plan[..k + 1]
            && before.failure.None?
            && r.outcome.stage == DependencyFailed(plan[k])
            && Invoke(client, config, plan[k], before.state) == StepOutcome(r.state, Some(r.outcome.cause))
  {
    var plan := EnsurePlan(request, client.get(cluster, request.namespacedName).broker.spec);
    ReconcileRunsPlan(client, config, request, cluster);
    StopsAtFirstFailure(client, config, plan, cluster);
  }

  /**
   * The reconciler: a read-only holder of the controller-runtime client and the
   * rest config. Reconcile writes neither, so no state survives from one call
   * to the next; every call starts again from the fetch.
   */
  class BrokerReconciler<!S> {
    const client: Client<S>
    const config: RestConfig<S>

    constructor (client: Client<S>, config: RestConfig<S>)
      ensures this.client == client && this.config == config
    {
      this.client := client;
      this.config := config;
    }

    /**
     * One reconciliation of the Broker named by `request` against the cluster
     * `cluster`: returns the Result, how the run ended, the external calls made
     * in order, and the cluster the dependency steps leave.
     */
    method Reconcile(request: Request, cluster: S) returns (result: CtrlResult, outcome: Outcome, calls: seq<Call>, after: S)
      ensures Run(result, outcome, calls, after) == Reconciled(client, config, request, cluster)
    {
      result, calls, after := EmptyResult, [], cluster;

      calls := calls + [Get(request.namespacedName)];
      var fetched := client.get(cluster, request.namespacedName);
      if fetched.NotFound? {
        outcome := Done;
        return;
      }
      if fetched.FetchFailed? {
        outcome := Err(FetchBroker, Wrapped(RetrieveBrokerMessage, fetched.cause));
        return;
      }
      var instance := fetched.broker;

      if instance.deletionTimestamp.Some? {
        outcome := Done;
        return;
      }

      calls := calls + [NewForConfig];
      if config.newForConfig.Some? {
        outcome := Err(CreateKubeClient, Wrapped(CreateKubeClientMessage, config.newForConfig.value));
        return;
      }

      calls := calls + [GatewayEnsure];
      var step := client.gatewayEnsure(after);
      after := step.state;
      if step.err.Some? {
        outcome := Err(DependencyFailed(GatewayEnsure), step.err.value);
        return;
      }

      calls := calls + [LighthouseEnsure(BrokerCluster)];
      step := client.lighthouseEnsure(after, BrokerCluster);
      after := step.state;
      if step.err.Some? {
        outcome := Err(DependencyFailed(LighthouseEnsure(BrokerCluster)), step.err.value);
        return;
      }

      var validate := ValidateExistingGlobalNetworks(request.Namespace());
      calls := calls + [validate];
      step := config.validateExistingGlobalNetworks(after, request.Namespace());
      after := step.state;
      if step.err.Some? {
        outcome := Err(DependencyFailed(validate), step.err.value);
        return;
      }

      var spec := instance.spec;
      var createConfigMap := CreateConfigMap(spec.globalnetEnabled, spec.globalnetCIDRRange,
                                             spec.defaultGlobalnetClusterSize, request.Namespace());
      calls := calls + [createConfigMap];
      step := config.createConfigMap(after, spec.globalnetEnabled, spec.globalnetCIDRRange,
                                     spec.defaultGlobalnetClusterSize, request.Namespace());
      after := step.state;
      if step.err.Some? {
        outcome := Err(DependencyFailed(createConfigMap), step.err.value);
        return;
      }

      outcome := Done;
    }
  }
}
