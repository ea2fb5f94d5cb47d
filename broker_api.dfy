/**
 * The values Reconcile reads and returns: the request identifier, the Broker
 * resource as the API server stores it, and controller-runtime's Result.
 */
module BrokerApi {
  import opened Wrappers

  /** Namespace plus name: the key of an object in the API server. */
  datatype NamespacedName = NamespacedName(namespace: string, name: string)

  /** A reconcile request carries the key of the object and nothing else. */
  datatype Request = Request(namespacedName: NamespacedName)
  {
    function Namespace(): string { namespacedName.namespace }
  }

  /** A point in time, as far as Reconcile cares: only its presence matters. */
  type Timestamp = int

  /** The desired-state fields of a Broker that Reconcile passes on. */
  datatype BrokerSpec = BrokerSpec(
    globalnetEnabled: bool,
    globalnetCIDRRange: string,
    defaultGlobalnetClusterSize: nat)

  /** A Broker as fetched: the deletion marker of its object metadata, and its spec. */
  datatype Broker = Broker(deletionTimestamp: Option<Timestamp>, spec: BrokerSpec)
  {
    /** True when graceful deletion has been requested for this object. */
    predicate BeingDeleted() { deletionTimestamp.Some? }
  }

  /** controller-runtime's reconcile.Result: ask for a requeue, at once or after a delay. */
  datatype CtrlResult = CtrlResult(requeue: bool, requeueAfter: nat)
  {
    /** The zero Result: no requeue is asked for. */
    predicate IsEmpty() { !requeue && requeueAfter == 0 }
  }

  /** `ctrl.Result{}`, the only Result Reconcile ever builds. */
  const EmptyResult := CtrlResult(false, 0)
}
