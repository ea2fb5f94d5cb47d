/**
 * Replaying a reconciliation. Reconcile keeps no memory between calls and
 * undoes nothing after a failure; what makes that correct is that every
 * dependency step is idempotent. The gateway, lighthouse and globalnet
 * packages are not part of this model, so their idempotence is stated here as
 * assumptions on the collaborators, and what follows from them for Reconcile
 * is proved: a reconciliation that ended Done, run again on the cluster it
 * left, ends Done again, makes the same calls, and changes nothing.
 */
module Replay {
  import opened Wrappers
  import opened BrokerApi
  import opened Cluster
  import opened Pipeline
  import opened BrokerController

  /** `step` is settled in `cluster`: running it again succeeds and changes nothing. */
  ghost predicate Settled<S(!new)>(client: Client<S>, config: RestConfig<S>, step: DependencyStep, cluster: S)
  {
    Invoke(client, config, step, cluster) == StepOutcome(cluster, None)
  }

  /** Assumption: when `step` succeeds, what it ensured is in place, so running it again is a no-op. */
  ghost predicate SettlesOnSuccess<S(!new)>(client: Client<S>, config: RestConfig<S>, step: DependencyStep)
  {
    forall cluster: S :: Invoke(client, config, step, cluster).err.None? ==>
      Settled(client, config, step, Invoke(client, config, step, cluster).state)
  }

  /** Assumption: a successful `later` step does not undo what the `earlier` step ensured. */
  ghost predicate KeepsSettled<S(!new)>(client: Client<S>, config: RestConfig<S>, later: DependencyStep, earlier: DependencyStep)
  {
    forall cluster: S :: Settled(client, config, earlier, cluster) && Invoke(client, config, later, cluster).err.None? ==>
      Settled(client, config, earlier, Invoke(client, config, later, cluster).state)
  }

  /** Assumption: a successful `step` leaves the object at `key` as Get reports it. */
  ghost predicate KeepsObject<S(!new)>(client: Client<S>, config: RestConfig<S>, step: DependencyStep, key: NamespacedName)
  {
    forall cluster: S :: Invoke(client, config, step, cluster).err.None? ==>
      client.get(Invoke(client, config, step, cluster).state, key) == client.get(cluster, key)
  }

  /** The idempotence the reconciler relies on, for one plan of steps acting for the object at `key`. */
  ghost predicate IdempotentPlan<S(!new)>(client: Client<S>, config: RestConfig<S>, plan: seq<DependencyStep>, key: NamespacedName)
  {
    && (forall i :: 0 <= i < |plan| ==> SettlesOnSuccess(client, config, plan[i]))
    && (forall i :: 0 <= i < |plan| ==> KeepsObject(client, config, plan[i], key))
    && (forall i, j :: 0 <= i < j < |plan| ==> KeepsSettled(client, config, plan[j], plan[i]))
  }

  /** A successful run of steps that each keep `earlier` settled leaves it settled. */
  lemma {:induction false} RunKeepsSettled<S(!new)>(client: Client<S>, config: RestConfig<S>, plan: seq<DependencyStep>,
                                              earlier: DependencyStep, cluster: S)
    requires Settled(client, config, earlier, cluster)
    requires forall i :: 0 <= i < |plan| ==> KeepsSettled(client, config, plan[i], earlier)
    requires RunInOrder(client, config, plan, cluster).failure.None?
    ensures Settled(client, config, earlier, RunInOrder(client, config, plan, cluster).state)
    decreases |plan|
  {
    if plan != [] {
      var first := Invoke(client, config, plan[0], cluster);
      assert KeepsSettled(client, config, plan[0], earlier);
      assert forall i :: 0 <= i < |plan[1..]| ==> plan[1..][i] == plan[i + 1];
      RunKeepsSettled(client, config, plan[1..], earlier, first.state);
    }
  }

  /** After a successful run of an idempotent plan, every step of the plan is settled. */
  lemma {:induction false} RunSettlesAll<S(!new)>(client: Client<S>, config: RestConfig<S>, plan: seq<DependencyStep>,
                                            key: NamespacedName, cluster: S)
    requires IdempotentPlan(client, config, plan, key)
    requires RunInOrder(client, config, plan, cluster).failure.None?
    ensures forall i :: 0 <= i < |plan| ==> Settled(client, config, plan[i], RunInOrder(client, config, plan, cluster).state)
    decreases |plan|
  {
    if plan != [] {
      var first := Invoke(client, config, plan[0], cluster);
      var rest := plan[1..];
      assert forall i :: 0 <= i < |rest| ==> rest[i] == plan[i + 1];
      assert IdempotentPlan(client, config, rest, key) by {
        forall i, j | 0 <= i < j < |rest|
          ensures KeepsSettled(client, config, rest[j], rest[i])
        {
          assert KeepsSettled(client, config, plan[j + 1], plan[i + 1]);
        }
      }
      RunSettlesAll(client, config, rest, key, first.state);
      assert SettlesOnSuccess(client, config, plan[0]);
      assert forall i :: 0 <= i < |rest| ==> KeepsSettled(client, config, rest[i], plan[0]) by {
        forall i | 0 <= i < |rest|
          ensures KeepsSettled(client, config, rest[i], plan[0])
        {
          assert KeepsSettled(client, config, plan[i + 1], plan[0]);
        }
      }
      RunKeepsSettled(client, config, rest, plan[0], first.state);
      forall i | 0 <= i < |plan|
        ensures Settled(client, config, plan[i], RunInOrder(client, config, plan, cluster).state)
      {
        if i > 0 {
          assert plan[i] == rest[i - 1];
        }
      }
    }
  }

  /** Running steps that are all settled succeeds, runs them all, and changes nothing. */
  lemma {:induction false} SettledRunIsNoOp<S(!new)>(client: Client<S>, config: RestConfig<S>, plan: seq<DependencyStep>, cluster: S)
    requires forall i :: 0 <= i < |plan| ==> Settled(client, config, plan[i], cluster)
    ensures RunInOrder(client, config, plan, cluster) == StepsRun(plan, None, cluster)
    decreases |plan|
  {
    if plan != [] {
      assert Settled(client, config, plan[0], cluster);
      assert forall i :: 0 <= i < |plan[1..]| ==> plan[1..][i] == plan[i + 1];
      SettledRunIsNoOp(client, config, plan[1..], cluster);
    }
  }

  /** A successful run of steps that each keep the object at `key` leaves it as Get reports it. */
  lemma {:induction false} RunKeepsObject<S(!new)>(client: Client<S>, config: RestConfig<S>, plan: seq<DependencyStep>,
                                             key: NamespacedName, cluster: S)
    requires forall i :: 0 <= i < |plan| ==> KeepsObject(client, config, plan[i], key)
    requires RunInOrder(client, config, plan, cluster).failure.None?
    ensures client.get(RunInOrder(client, config, plan, cluster).state, key) == client.get(cluster, key)
    decreases |plan|
  {
    if plan != [] {
      var first := Invoke(client, config, plan[0], cluster);
      assert KeepsObject(client, config, plan[0], key);
      assert forall i :: 0 <= i < |plan[1..]| ==> plan[1..][i] == plan[i + 1];
      RunKeepsObject(client, config, plan[1..], key, first.state);
    }
  }

  /**
   * Reconciling again after a Done is a no-op: when the Broker's dependency
   * steps are idempotent, a second Reconcile of the same request on the
   * cluster the first one left returns exactly what the first returned
   * (Done, the same calls) and leaves that cluster unchanged.
   */
  lemma ReconcileReplayIsNoOp<S(!new)>(client: Client<S>, config: RestConfig<S>, request: Request, cluster: S)
    requires Reconciled(client, config, request, cluster).outcome.Done?
    requires client.get(cluster, request.namespacedName).Found? ==>
               IdempotentPlan(client, config, EnsurePlan(request, client.get(cluster, request.namespacedName).broker.spec),
                              request.namespacedName)
    ensures var first := Reconciled(client, config, request, cluster);
            Reconciled(client, config, request, first.state) == first
  {
    var key := request.namespacedName;
    if Live(client.get(cluster, key)) {
      var plan := EnsurePlan(request, client.get(cluster, key).broker.spec);
      ReconcileRunsPlan(client, config, request, cluster);
      var left := RunInOrder(client, config, plan, cluster).state;
      RunKeepsObject(client, config, plan, key, cluster);
      RunSettlesAll(client, config, plan, key, cluster);
      SettledRunIsNoOp(client, config, plan, left);
      ReconcileRunsPlan(client, config, request, left);
    }
  }
}
