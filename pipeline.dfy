/**
 * The dependency steps of a reconciliation, run one after another against
 * the cluster and stopped at the first that fails. Nothing is undone on a
 * failure: recovery is the next reconciliation, which starts again from the
 * first step.
 */
module Pipeline {
  import opened Wrappers
  import opened Cluster

  /** What the steps run in order did: the steps invoked, the error that stopped them, and the cluster left. */
  datatype StepsRun<S> = StepsRun(ran: seq<DependencyStep>, failure: Option<Error>, state: S)

  /**
   * Runs dependency steps in order and stops at the first that fails.
   * Only a prefix of the plan is invoked; it is the whole plan when none fails,
   * and at least the first step is always invoked.
   */
  function RunInOrder<S>(client: Client<S>, config: RestConfig<S>, plan: seq<DependencyStep>, cluster: S): (r: StepsRun<S>)
    ensures r.ran <= plan
    ensures plan != [] ==> r.ran != []
    ensures r.failure.None? ==> r.ran == plan
    ensures r.failure.Some? ==> r.ran != []
    decreases |plan|
  {
    if plan == [] then
      StepsRun([], None, cluster)
    else
      var first := Invoke(client, config, plan[0], cluster);
      if first.err.Some? then
        StepsRun([plan[0]], first.err, first.state)
      else
        var rest := RunInOrder(client, config, plan[1..], first.state);
        StepsRun([plan[0]] + rest.ran, rest.failure, rest.state)
  }

  /**
   * A failed run ends at its first failure: the steps before the failing one
   * all succeeded, one after another, and the error returned is the failing
   * step's own error, unchanged, in the cluster those steps left.
   */
  lemma {:induction false} StopsAtFirstFailure<S>(client: Client<S>, config: RestConfig<S>, plan: seq<DependencyStep>, cluster: S)
    requires RunInOrder(client, config, plan, cluster).failure.Some?
    ensures var r := RunInOrder(client, config, plan, cluster);
            var k := |r.ran| - 1;
            var before := RunInOrder(client, config, plan[..k], cluster);
            && before.failure.None?
            && before.ran == plan[..k]
            && Invoke(client, config, plan[k], before.state) == StepOutcome(r.state, r.failure)
  {
    var first := Invoke(client, config, plan[0], cluster);
    if first.err.Some? {
      assert plan[..0] == [];
    } else {
      var rest := RunInOrder(client, config, plan[1..], first.state);
      StopsAtFirstFailure(client, config, plan[1..], first.state);
      var k := |rest.ran|;
      var prefix := plan[..k];
      assert prefix[0] == plan[0] && prefix[1..] == plan[1..][..k - 1];
      assert plan[k] == plan[1..][k - 1];
    }
  }

  /**
   * The pipeline can be run one step at a time: when the first `i` steps of
   * the plan succeeded and left `cluster`, running one step more invokes
   * step `i` on `cluster`, and if that step fails the whole plan ends there.
   */
  lemma {:induction false} RunOneMore<S>(client: Client<S>, config: RestConfig<S>, plan: seq<DependencyStep>, i: nat, start: S, cluster: S)
    requires i < |plan|
    requires RunInOrder(client, config, plan[..i], start) == StepsRun(plan[..i], None, cluster)
    ensures var next := Invoke(client, config, plan[i], cluster);
            && RunInOrder(client, config, plan[..i + 1], start) == StepsRun(plan[..i + 1], next.err, next.state)
            && (next.err.Some? ==> RunInOrder(client, config, plan, start) == StepsRun(plan[..i + 1], next.err, next.state))
    decreases i
  {
    var first := Invoke(client, config, plan[0], start);
    if i == 0 {
      assert plan[..1] == [plan[0]];
      assert RunInOrder(client, config, plan[..1][1..], first.state) == StepsRun([], None, first.state);
    } else {
      assert plan[..i][0] == plan[0] && plan[..i][1..] == plan[1..][..i - 1];
      assert plan[..i + 1][0] == plan[0] && plan[..i + 1][1..] == plan[1..][..i];
      assert plan[..i] == [plan[0]] + plan[1..][..i - 1];
      assert plan[..i + 1] == [plan[0]] + plan[1..][..i];
      RunOneMore(client, config, plan[1..], i - 1, first.state, cluster);
    }
  }
}
