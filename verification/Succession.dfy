/** Migrations one after another: in a cluster where none can lose anything, each of them can be carried
    through, and leaves a cluster of the same kind behind. */
module Succession {
  import opened Completion
  import opened Handoff
  import opened Kafka
  import opened Lifeline
  import opened Lineage
  import opened Migrations
  import opened Names
  import opened Progress
  import opened Protocol
  import opened Routing
  import opened Trail
  import opened Wrappers

  predicate Calm(s: State) {
    && RegistriesOk(s.registries) && s.registries != [] && |s.deployers| == |s.registries|
    && (forall d :: 0 <= d < |s.deployers| ==> Free(s.deployers[d]))
    && s.work == Idle && s.processing == map[]
    && s.topic != [] && CaughtUp(s.topic) && s.deletions != [] && AllDeleted(s.deletions)
  }

  /** Every pod can be checkpointed: it runs, and its one container has a memory. */
  predicate AllMovable(pods: map<PodKey, Pod>) {
    forall k :: k in pods ==>
      CanRun(pods[k]) && |pods[k].containers| == 1 && pods[k].containers[0].memory.Some?
  }

  /** A cluster at rest in which no two pods share a lineage of names. */
  ghost predicate Safe(s: State) {
    && Calm(s) && AllAccounted(s.topic)
    && UniqueLineages(s.pods) && ValidPods(s.pods) && AllMovable(s.pods)
  }

  /** A migration by pod name of any pod, to any namespace and node that can be written down. */
  predicate Sensible(s: State, plan: Plan) {
    && plan.picked == plan.Source() && plan.Source() in s.pods
    && plan.destinationNode != "" && ValidName(plan.destinationNamespace)
  }

  lemma OperableIsSafe(s: State)
    requires Operable(s) && UniqueLineages(s.pods) && SoleContainers(s.pods)
    ensures Safe(s)
  {
  }

  /** In such a cluster, whatever is planned, everything that completion needs is there. */
  lemma SafeIsSteady(s: State, plan: Plan)
    requires Safe(s) && Sensible(s, plan)
    ensures Steady(s, plan)
  {
    hide RegistriesOk, CanRun, AllAccounted, Root;
    CopyIsOneDeeper(plan.podName);
    assert |plan.Image()| > |plan.podName|;
  }

  lemma ImageIsValid(name: string)
    requires ValidName(name)
    ensures ValidName(CHECKPOINT + name)
  {
  }

  lemma TopicCaughtUp(was: seq<Partition>, m: Message, topic: seq<Partition>)
    requires TopicAt(was, m, true, true, topic)
    ensures |topic| == |was| && CaughtUp(topic) && AllAccounted(topic)
  {
    hide AllAccounted;
  }

  lemma DeletionsCaughtUp(was: seq<DeleteLog>, m: Message, deletions: seq<DeleteLog>)
    requires DeletionsAt(was, m, true, true, deletions)
    ensures |deletions| == |was| && AllDeleted(deletions)
  {
  }

  lemma PodsStaySafe(s: State, plan: Plan, pods: map<PodKey, Pod>)
    requires UniqueLineages(s.pods) && ValidPods(s.pods) && AllMovable(s.pods) && Sensible(s, plan)
    requires PodsAt(s, plan, true, true, pods) && plan.Copy() in pods && CanRun(pods[plan.Copy()])
    ensures UniqueLineages(pods) && ValidPods(pods) && AllMovable(pods)
  {
    hide Root, ValidName;
    CopyIsOneDeeper(plan.podName);
    ImageIsValid(plan.podName);
  }

  /** The memories that are in the cluster are those that were there. */
  lemma PodsKeepMemory(s: State, plan: Plan, pods: map<PodKey, Pod>, w: Workload)
    requires UniqueLineages(s.pods) && AllMovable(s.pods) && Sensible(s, plan)
    requires PodsAt(s, plan, true, true, pods) && plan.Copy() in pods
    ensures Carried(s.pods, w) <==> Carried(pods, w)
  {
    hide Root, CanRun;
    var source, copy := plan.Source(), plan.Copy();
    CopyIsOneDeeper(plan.podName);
    assert copy != source by { assert |plan.Image()| > |plan.podName|; }
    assert Carries(s.pods[source], w) <==> s.pods[source].containers[0].memory == Some(w);
    assert Carries(pods[copy], w) <==> pods[copy].containers[0].memory == Some(w);
    if k :| k in s.pods && Carries(s.pods[k], w) {
      assert k != source ==> k in pods && Carries(pods[k], w);
      assert Carried(pods, w);
    }
    if k :| k in pods && Carries(pods[k], w) {
      assert k != copy ==> k in s.pods && Carries(s.pods[k], w);
    }
  }

  lemma DoneIsCalm(s: State, plan: Plan, t: State)
    requires Calm(s) && Steady(s, plan) && OnTrack(s, plan, t) && Done(s, plan, t)
    ensures Calm(t) && AllAccounted(t.topic)
  {
    hide RegistriesOk, CanRun, AllAccounted, PodsAt, Position;
    TopicCaughtUp(s.topic, plan.Msg(s), t.topic);
    DeletionsCaughtUp(s.deletions, Announcement(s, plan), t.deletions);
  }

  /** When a migration is over, the cluster is as safe as it was before. */
  lemma DoneIsSafe(s: State, plan: Plan, t: State)
    requires Safe(s) && Sensible(s, plan) && Steady(s, plan) && OnTrack(s, plan, t) && Done(s, plan, t)
    ensures Safe(t)
  {
    hide Calm, CanRun, AllAccounted, UniqueLineages, ValidPods, AllMovable, PodsAt, Sensible, Position, OnTrack, Steady;
    DoneIsCalm(s, plan, t);
    PodsStaySafe(s, plan, t.pods);
  }

  // ---------------------------------------------------------------- any number of migrations

  /** The plans are carried out in turn, each by a fault-free run of its own. */
  ghost predicate InTurn(s: State, plans: seq<Plan>, runs: seq<seq<Step>>)
    requires |runs| == |plans|
    decreases |plans|
  {
    plans == [] ||
    (Sensible(s, plans[0]) && s.registries != [] && |s.pods[plans[0].Source()].containers| == 1
     && FaultFreeRun(s, plans[0], s, runs[0]) && Run(s, runs[0]).Some?
     && Done(s, plans[0], Run(s, runs[0]).value)
     && InTurn(Run(s, runs[0]).value, plans[1..], runs[1..]))
  }

  ghost function AfterAll(s: State, runs: seq<seq<Step>>): State
    decreases |runs|
  {
    if runs == [] || Run(s, runs[0]).None? then s else AfterAll(Run(s, runs[0]).value, runs[1..])
  }

  lemma OneMigration(s: State, plan: Plan, steps: seq<Step>)
    requires Safe(s) && Sensible(s, plan) && FaultFreeRun(s, plan, s, steps)
    requires Run(s, steps).Some? && Done(s, plan, Run(s, steps).value)
    ensures Safe(Run(s, steps).value)
    ensures forall w :: Carried(s.pods, w) <==> Carried(Run(s, steps).value.pods, w)
  {
    hide Run, FaultFreeRun, OnTrack, Carried, PodsAt, Stage, Advances;
    SafeIsSteady(s, plan);
    var more := FaultFreeRunsComplete(s, plan, steps);
    var t := Run(s, steps).value;
    DoneIsSafe(s, plan, t);
    forall w ensures Carried(s.pods, w) <==> Carried(t.pods, w) { PodsKeepMemory(s, plan, t.pods, w); }
  }

  /** Any number of migrations, of any pods to any places, one after another: the cluster stays safe and
      every memory stays in it, neither lost nor joined by another. */
  lemma {:induction false} SafeForever(s: State, plans: seq<Plan>, runs: seq<seq<Step>>, w: Workload)
    requires Safe(s) && |runs| == |plans| && InTurn(s, plans, runs)
    ensures Safe(AfterAll(s, runs)) && (Carried(s.pods, w) <==> Carried(AfterAll(s, runs).pods, w))
    decreases |plans|
  {
    hide Safe, Sensible, Run, Done, FaultFreeRun, Carried;
    if plans != [] {
      OneMigration(s, plans[0], runs[0]);
      SafeForever(Run(s, runs[0]).value, plans[1..], runs[1..], w);
    }
  }

  lemma {:induction false} InTurnSnoc(s: State, plans: seq<Plan>, runs: seq<seq<Step>>, plan: Plan, steps: seq<Step>)
    requires |runs| == |plans| && InTurn(s, plans, runs)
    requires InTurn(AfterAll(s, runs), [plan], [steps])
    ensures InTurn(s, plans + [plan], runs + [steps])
    decreases |plans|
  {
    hide Sensible, Run, Done, FaultFreeRun;
    if plans == [] {
      assert plans + [plan] == [plan] && runs + [steps] == [steps];
    } else {
      assert (plans + [plan])[1..] == plans[1..] + [plan] && (runs + [steps])[1..] == runs[1..] + [steps];
      InTurnSnoc(Run(s, runs[0]).value, plans[1..], runs[1..], plan, steps);
    }
  }

  /** And a further one can always be added: of any pod there is, and however it has begun. */
  lemma NextCompletes(s: State, plans: seq<Plan>, runs: seq<seq<Step>>, plan: Plan, begun: seq<Step>)
    returns (more: seq<Step>)
    requires Operable(s) && UniqueLineages(s.pods) && SoleContainers(s.pods)
    requires |runs| == |plans| && InTurn(s, plans, runs)
    requires Sensible(AfterAll(s, runs), plan) && FaultFreeRun(AfterAll(s, runs), plan, AfterAll(s, runs), begun)
    ensures InTurn(s, plans + [plan], runs + [begun + more])
  {
    hide Run, Done, FaultFreeRun, OnTrack, Stage, Advances, AfterAll, Operable;
    var t := AfterAll(s, runs);
    OperableIsSafe(s);
    SafeForever(s, plans, runs, Workload(plan.Source(), ""));
    SafeIsSteady(t, plan);
    more := FaultFreeRunsComplete(t, plan, begun);
    InTurnSnoc(s, plans, runs, plan, begun + more);
  }
}
