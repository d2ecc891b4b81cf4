/** Exactly when the restore daemon acts on one announcement twice, in runs of the whole system. */
module Redelivery {
  import opened Handoff
  import opened Kafka
  import opened Protocol
  import opened Schedule
  import RestoreDaemon

  /** Step i is a round of the daemon on log q. */
  predicate RestoresAt(steps: seq<Step>, i: nat, q: nat) {
    i < |steps| && steps[i].OfCluster? && steps[i].c.Restore? && steps[i].c.log == q
  }

  function LogOf(s: State, q: nat): DeleteLog {
    if q < |s.deletions| then s.deletions[q] else DeleteLog([], 0)
  }

  lemma StepOffset(s: State, step: Step, q: nat)
    requires Next(s, step).Some?
    ensures var t := Next(s, step).value;
            && LogOf(s, q).log <= LogOf(t, q).log
            && LogOf(t, q).committed ==
                 LogOf(s, q).committed + if RestoresAt([step], 0, q) && step.c.commits then 1 else 0
  {
    hide NextReconcile, NextBuild;
    match step
    case Reconcile(r) => ReconcileFrame(s, r);
    case Build(b) => BuildFrame(s, b);
    case Deploy(d, a) => DeployOffset(s, d, a, q);
    case OfCluster(c) =>
  }

  lemma DeployOffset(s: State, d: nat, a: DeployStep, q: nat)
    requires d < |s.deployers| && d < |s.registries| && NextDeploy(s, d, a).Some?
    ensures var t := NextDeploy(s, d, a).value;
            LogOf(s, q).log <= LogOf(t, q).log && LogOf(t, q).committed == LogOf(s, q).committed
  {
    hide KeyOf, CopyOf, CanCreate, CopyKey, EnsureNamespace, PollOne, Close, DeleteMessage;
  }

  lemma {:induction false} OffsetsBetween(s: State, steps: seq<Step>, q: nat, i: nat, j: nat)
    requires Run(s, steps).Some? && i <= j <= |steps|
    ensures var a, b := LogOf(After(s, steps, i), q), LogOf(After(s, steps, j), q);
            && a.log <= b.log && a.committed <= b.committed
            && (a.committed == b.committed <==>
                  forall x: nat :: i <= x < j && RestoresAt(steps, x, q) ==> !steps[x].c.commits)
    decreases j
  {
    hide Next, Run, After, LogOf;
    if i < j {
      OffsetsBetween(s, steps, q, i, j - 1);
      AfterNext(s, steps, j - 1);
      StepOffset(After(s, steps, j - 1), steps[j - 1], q);
      assert RestoresAt([steps[j - 1]], 0, q) <==> RestoresAt(steps, j - 1, q);
    }
  }

  lemma RestoreFetches(s: State, steps: seq<Step>, q: nat, i: nat)
    requires Run(s, steps).Some? && RestoresAt(steps, i, q)
    ensures LogOf(After(s, steps, i), q).committed < |LogOf(After(s, steps, i), q).log|
  {
    hide Run, After;
    AfterNext(s, steps, i);
  }

  /** In every run, whatever happens between them: two rounds of the daemon on one log act on the
      announcement at the same offset exactly if no commit took effect from the first to the second.
      What stands at that offset is the same for both. */
  lemma RestoredAgainIff(s: State, steps: seq<Step>, q: nat, i: nat, j: nat)
    requires Run(s, steps).Some? && i < j && RestoresAt(steps, i, q) && RestoresAt(steps, j, q)
    ensures var a, b := LogOf(After(s, steps, i), q), LogOf(After(s, steps, j), q);
            && a.committed < |a.log| && b.committed < |b.log| && a.log <= b.log && a.committed <= b.committed
            && (a.committed == b.committed <==>
                  forall x: nat :: i <= x < j && RestoresAt(steps, x, q) ==> !steps[x].c.commits)
  {
    hide Run, After, LogOf;
    OffsetsBetween(s, steps, q, i, j);
    RestoreFetches(s, steps, q, i);
    RestoreFetches(s, steps, q, j);
  }

  /** What a round of the daemon does to the pods: if both calls succeed, the pod named at its offset goes,
      and that is all; a deletion is on record exactly if a pod has gone. */
  lemma RestoreDeletes(s: State, steps: seq<Step>, q: nat, i: nat)
    requires Run(s, steps).Some? && RestoresAt(steps, i, q)
    ensures var log := LogOf(After(s, steps, i), q);
            var t, u := After(s, steps, i), After(s, steps, i + 1);
            && log.committed < |log.log|
            && (var victim := RestoreDaemon.Victim(RestoreDaemon.Decode(log.log[log.committed]));
                && u.pods == (if victim.Some? && steps[i].c.api.get && steps[i].c.api.delete
                              then t.pods - {victim.value} else t.pods)
                && u.history == t.history + (if u.pods != t.pods then [Deleted(victim.value)] else []))
  {
    hide Run, After, RestoreDaemon.Victim, RestoreDaemon.Decode;
    AfterNext(s, steps, i);
    var c, t := steps[i].c, After(s, steps, i);
    RestoreFrame(t, q, c.commits, c.api);
    RestoreRecords(t, q, c.commits, c.api);
  }

  lemma RestoreRecords(t: State, q: nat, commits: bool, api: RestoreDaemon.Api)
    requires RestoreStep(t, q, commits, api).Some?
    ensures var u := RestoreStep(t, q, commits, api).value;
            var victim := RestoreDaemon.Victim(RestoreDaemon.Decode(t.deletions[q].log[t.deletions[q].committed]));
            && (u.pods != t.pods ==> victim.Some?)
            && u.history == t.history + (if u.pods != t.pods then [Deleted(victim.value)] else [])
  {
    RestoreDaemon.ConsumesNext(t.deletions[q], commits);
    hide RestoreDaemon.Victim, RestoreDaemon.Decode, RestoreDaemon.Consume;
    var victim := RestoreDaemon.Victim(RestoreDaemon.Decode(t.deletions[q].log[t.deletions[q].committed]));
    if victim.Some? && victim.value in t.pods { assert victim.value !in t.pods - {victim.value}; }
    assert victim.Some? && victim.value !in t.pods ==> t.pods - {victim.value} == t.pods;
  }
}
