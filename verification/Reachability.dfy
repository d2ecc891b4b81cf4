/** Which states the operator can bring about, step by step. */
module Reachability {
  import opened Protocol
  import opened Wrappers

  /** Steps of the operator's own parts and of the kubelets. */
  predicate OfOperator(step: Step) {
    !(step.OfCluster? && (step.c.OthersCreate? || step.c.OthersDelete?))
  }

  predicate OnlyOperator(steps: seq<Step>) {
    forall i :: 0 <= i < |steps| ==> OfOperator(steps[i])
  }

  ghost predicate Reaches(s: State, t: State) {
    exists steps :: OnlyOperator(steps) && Run(s, steps) == Some(t)
  }

  lemma ReachesSelf(s: State)
    ensures Reaches(s, s)
  {
    assert OnlyOperator([]) && Run(s, []) == Some(s);
  }

  lemma RunIsReach(s: State, steps: seq<Step>)
    requires OnlyOperator(steps) && Run(s, steps).Some?
    ensures Reaches(s, Run(s, steps).value)
  {
  }

  lemma ReachesOn(s: State, t: State, step: Step)
    requires Reaches(s, t) && OfOperator(step) && Next(t, step).Some?
    ensures Reaches(s, Next(t, step).value)
  {
    hide Next;
    var steps :| OnlyOperator(steps) && Run(s, steps) == Some(t);
    RunAppend(s, steps, [step]);
    assert [step][1..] == [];
    assert Run(t, [step]) == Next(t, step);
    assert OnlyOperator(steps + [step]);
  }

  lemma ReachesTrans(s: State, t: State, u: State)
    requires Reaches(s, t) && Reaches(t, u)
    ensures Reaches(s, u)
  {
    hide Run;
    var a :| OnlyOperator(a) && Run(s, a) == Some(t);
    var b :| OnlyOperator(b) && Run(t, b) == Some(u);
    RunAppend(s, a, b);
    assert OnlyOperator(a + b);
  }

  lemma BuildNext(s: State, b: BuildStep)
    ensures Next(s, Build(b)) == NextBuild(s, b)
  {
    hide NextBuild;
  }

  lemma ClusterNext(s: State, c: ClusterStep)
    ensures Next(s, OfCluster(c)) == NextCluster(s, c)
  {
    hide NextCluster;
  }

  lemma ReaderNext(s: State, d: nat, a: DeployStep)
    requires d < |s.deployers| && d < |s.registries|
    ensures Next(s, Deploy(d, a)) == NextDeploy(s, d, a)
  {
    hide NextDeploy;
  }

  lemma ReconcileNext(s: State, r: ReconcileStep)
    ensures Next(s, Reconcile(r)) == NextReconcile(s, r)
  {
    hide NextReconcile;
  }
}
