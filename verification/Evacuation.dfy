/** From the node monitor to the copy: where a pod goes that an overloaded node is relieved of. */
module Evacuation {
  import opened Freshness
  import opened Migrations
  import opened NodeMonitor
  import opened Protocol
  import opened Schedule

  /** The copy that is made for a request of the node monitor is in the namespace of the pod it was asked
      for, on the target node, and has that pod's name with the prefix of checkpoints. */
  lemma EvacuatedWithinItsNamespace(s: State, steps: seq<Step>, f: nat, a: nat, c: nat, d: nat, n: nat, p: string,
                                    measured: seq<Measured>, target: string) returns (i: nat)
    requires Operating(s) && Run(s, steps).Some? && StartsAt(s, steps, f, n, p)
    requires AsksForOne(After(s, steps, f).migrations[n], measured, target)
    requires Restores(s, steps, f, a, c, d, p)
    ensures i < |measured| && measured[i].metrics.Some? && measured[i].key.name == p
    ensures var at := PodKey(measured[i].key.namespace, "checkpoint-" + measured[i].key.name);
            var t, u := After(s, steps, c), After(s, steps, c + 1);
            at in u.pods && u.pods[at].node == target && u.pods == t.pods[at := u.pods[at]]
  {
    hide Operating, Run, After, Restores;
    StartEnters(s, steps, f, n, p);
    CopiesImage(s, steps, f, a, c, d, p);
    i :| 0 <= i < |measured| && measured[i].metrics.Some?
         && IsRequestFor(After(s, steps, f).migrations[n], measured[i].key, target);
  }
}
