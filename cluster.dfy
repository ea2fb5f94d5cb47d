/**
 * The collaborators Reconcile calls but whose code is not part of this model:
 * the API server reached through the reconciler's client, the kube client built
 * from its rest config, and the gateway, lighthouse and globalnet packages.
 *
 * Each collaborator is a total function of the cluster state `S` (and of the
 * arguments it is called with) that yields an outcome and, for the steps that
 * write, a new cluster state. Nothing is assumed about these functions here, so
 * every property proved about Reconcile holds whatever the collaborators do.
 */
module Cluster {
  import opened Wrappers
  import opened BrokerApi

  /** An error value. `Wrapped` is what errors.Wrap builds: a message and the cause it keeps. */
  datatype Error =
    | Failure(reason: string)
    | Wrapped(message: string, cause: Error)

  /** What Get reports: the object, a NotFound status error, or any other error. */
  datatype FetchOutcome =
    | Found(broker: Broker)
    | NotFound
    | FetchFailed(cause: Error)

  /** The role passed to lighthouse.Ensure. */
  datatype ClusterType = DataCluster | BrokerCluster

  /** An entry of the call log: every external call Reconcile makes, with its arguments. */
  datatype Call =
    | Get(key: NamespacedName)
    | NewForConfig
    | GatewayEnsure
    | LighthouseEnsure(clusterType: ClusterType)
    | ValidateExistingGlobalNetworks(namespace: string)
    | CreateConfigMap(globalnetEnabled: bool, globalnetCIDRRange: string,
                      defaultGlobalnetClusterSize: nat, namespace: string)
  {
    /** True for the calls into the gateway, lighthouse and globalnet packages. */
    predicate IsDependencyStep() { !Get? && !NewForConfig? }
  }

  /** One of the four dependency steps, with the arguments it is called with. */
  type DependencyStep = c: Call | c.IsDependencyStep() witness GatewayEnsure

  /** The outcome of one dependency step: the cluster it leaves and its error, if any. */
  datatype StepOutcome<S> = StepOutcome(state: S, err: Option<Error>)

  /**
   * The reconciler's controller-runtime client: Get, and the CRD updater built
   * from it, through which gateway.Ensure and lighthouse.Ensure act.
   */
  datatype Client<!S> = Client(
    get: (S, NamespacedName) -> FetchOutcome,
    gatewayEnsure: S -> StepOutcome<S>,
    lighthouseEnsure: (S, ClusterType) -> StepOutcome<S>)

  /**
   * The reconciler's rest config: whether kubernetes.NewForConfig fails on it,
   * and the globalnet calls made through the kube client built from it.
   */
  datatype RestConfig<!S> = RestConfig(
    newForConfig: Option<Error>,
    validateExistingGlobalNetworks: (S, string) -> StepOutcome<S>,
    createConfigMap: (S, bool, string, nat, string) -> StepOutcome<S>)

  /** Performs one dependency step against the cluster. */
  function Invoke<S>(client: Client<S>, config: RestConfig<S>, step: DependencyStep, cluster: S): StepOutcome<S>
  {
    match step
    case GatewayEnsure => client.gatewayEnsure(cluster)
    case LighthouseEnsure(t) => client.lighthouseEnsure(cluster, t)
    case ValidateExistingGlobalNetworks(ns) => config.validateExistingGlobalNetworks(cluster, ns)
    case CreateConfigMap(enabled, cidr, size, ns) => config.createConfigMap(cluster, enabled, cidr, size, ns)
  }
}
