/** Progress: from a quiet system, the migration of one pod can be carried through, step by step, to
    the end, and this is the state in which it ends. */
module Completion {
  import opened Handoff
  import opened Kafka
  import opened Migrations
  import opened Names
  import opened Protocol
  import opened Reachability
  import opened Refinement
  import opened Registry
  import opened Routing
  import opened Selection
  import opened Trail
  import opened Webhook
  import opened Wrappers
  import Reconciler
  import RestoreDaemon

  /** Nobody is busy, nothing is in flight, and the consumers have caught up. */
  predicate Quiet(s: State) {
    && NamesValid(s) && RegistriesOk(s.registries)
    && s.registries != [] && |s.deployers| == |s.registries|
    && (forall d :: 0 <= d < |s.deployers| ==> s.deployers[d] == Resting)
    && s.work == Idle && s.processing == map[]
    && s.topic != [] && s.topic[0].Committed() == |s.topic[0].log|
    && s.deletions != [] && s.deletions[0].committed == |s.deletions[0].log|
  }

  /** A migration by pod name; picked is the pod of that name that is listed last. */
  datatype Plan = Plan(podName: string, namespace: string, destinationNode: string, destinationNamespace: string,
                       picked: PodKey)
  {
    function Spec(): MigrationSpec {
      MigrationSpec(podName, "", namespace, destinationNode, destinationNamespace, [])
    }

    function Info(): MigrationInfo { InfoOf(Spec(), "") }

    function Source(): PodKey { PodKey(namespace, podName) }

    function Image(): string { CHECKPOINT + podName }

    function Copy(): PodKey { PodKey(destinationNamespace, Image()) }

    /** The registry, and hence the deployer, that is used. */
    function Via(s: State): (r: nat)
      requires s.registries != []
      ensures r < |s.registries|
    {
      RegistryFor(s.registries, destinationNamespace)
    }

    function Msg(s: State): Message
      requires s.registries != []
    {
      Message(s.registries[Via(s)].node, Image())
    }
  }

  predicate CanRun(pod: Pod) {
    pod.running && pod.containers != [] && pod.imageIDs != []
  }

  predicate Ready(s: State, plan: Plan) {
    && Quiet(s)
    && plan.Source() in s.pods
    && plan.picked in s.pods && plan.picked.name == plan.podName && CanRun(s.pods[plan.picked])
    && plan.destinationNode != "" && ValidName(plan.destinationNamespace)
    && plan.Copy() !in s.pods
  }

  /** The memories that are checkpointed, container by container. */
  function Memories(pod: Pod): seq<Option<Workload>> {
    seq(|pod.containers|, (i: nat) requires i < |pod.containers| => MemoryOf(pod.containers, pod.containers[i].name))
  }

  /** All of them are pushed under one name, so that this one is left in the registry. */
  function Surviving(pod: Pod): Option<Workload>
    requires pod.containers != []
  {
    Memories(pod)[|pod.containers| - 1]
  }

  // ---------------------------------------------------------------- reconcile

  /** The answers when nothing fails. */
  function Good(plan: Plan, registries: seq<RegistryPod>, container: string): Reconciler.Answers {
    Reconciler.Answers(true, true, true, [KubeletPath(plan.podName, plan.picked.namespace, container, "")], true,
                       Some(RegistryIP(registries, plan.destinationNamespace)), true, true)
  }

  function AllGood(plan: Plan, registries: seq<RegistryPod>, pod: Pod): AnswersAt {
    (n: nat) => Good(plan, registries, if n < |pod.containers| then pod.containers[n].name else "")
  }

  function JobsFor(image: string, registryIp: string, memories: seq<Option<Workload>>): (jobs: seq<Job>)
    ensures |jobs| == |memories|
  {
    if memories == [] then []
    else [Job(image, registryIp, memories[0])] + JobsFor(image, registryIp, memories[1..])
  }

  lemma GoodAttempt(target: Reconciler.Target, a: Reconciler.Answers, node: string, pods: map<PodKey, Pod>)
    requires a.checkpoint && a.body && a.json && a.client && a.registryIp.Some? && a.imageCheck && a.push
    requires a.items != []
    requires target.listed.pod.imageIDs != []
    ensures Reconciler.Attempt(target, a, node).1 == Reconciler.Proceed
    ensures JobsOf(Reconciler.Attempt(target, a, node).0, pods) ==
              [Job(ModifyCheckpointToImageName(a.items[0]), a.registryIp.value,
                   MemoryAt(pods, target.listed.key, target.container))]
  {
    JobsOfShort(Reconciler.Attempt(target, a, node).0, pods);
    hide ModifyCheckpointToImageName;
  }

  /** One job for each container, in order, whatever else is in the cluster. */
  lemma {:induction false} GoodTrace(s: State, plan: Plan, item: Listed, k: nat)
    requires item.key == plan.picked && item.key in s.pods && s.pods[item.key] == item.pod && CanRun(item.pod)
    requires plan.picked.name == plan.podName && ValidName(plan.podName) && k <= |item.pod.containers|
    ensures JobsOf(Reconciler.CheckpointAll(Reconciler.ContainersOf(item, k), AllGood(plan, s.registries, item.pod), k,
                                            plan.destinationNode).0, s.pods) ==
              JobsFor(plan.Image(), RegistryIP(s.registries, plan.destinationNamespace), Memories(item.pod)[k..])
    decreases |item.pod.containers| - k
  {
    hide ModifyCheckpointToImageName, KubeletPath, Reconciler.Attempt, JobsOf, RegistryIP, MemoryOf, ValidName;
    var targets := Reconciler.ContainersOf(item, k);
    var answers := AllGood(plan, s.registries, item.pod);
    if k == |item.pod.containers| {
      assert Memories(item.pod)[k..] == [];
      NoEffectsNoJobs(s.pods);
    } else {
      JobNameValid(plan.picked, targets[0].container, "");
      GoodAttempt(targets[0], answers(k), plan.destinationNode, s.pods);
      assert targets[1..] == Reconciler.ContainersOf(item, k + 1);
      assert Memories(item.pod)[k..][1..] == Memories(item.pod)[k + 1..];
      GoodTrace(s, plan, item, k + 1);
      JobsOfAppend(Reconciler.Attempt(targets[0], answers(k), plan.destinationNode).0,
                   Reconciler.CheckpointAll(targets[1..], answers, k + 1, plan.destinationNode).0, s.pods);
    }
  }

  lemma {:induction false} TargetsAt(item: Listed, k: nat, j: nat)
    requires k + j < |item.pod.containers|
    ensures Reconciler.ContainersOf(item, k)[j] == Reconciler.Target(item, item.pod.containers[k + j].name)
    decreases j
  {
    if j > 0 { TargetsAt(item, k + 1, j - 1); }
  }

  lemma GoodAnswers(s: State, plan: Plan, item: Listed)
    requires item.key == plan.picked && item.key in s.pods && s.pods[item.key] == item.pod
    requires plan.picked.name == plan.podName
    ensures CanAnswerAll(s, plan.Spec(), Reconciler.ContainersOf(item, 0), AllGood(plan, s.registries, item.pod),
                         _ => "", 0)
  {
    hide KubeletPath, RegistryIP, Reconciler.ContainersOf;
    forall k | 0 <= k < |item.pod.containers|
      ensures CanAnswer(s, plan.Spec(), Reconciler.ContainersOf(item, 0)[k],
                        AllGood(plan, s.registries, item.pod)(0 + k), "")
    {
      TargetsAt(item, 0, k);
      assert item.pod.containers[k].name == Reconciler.ContainersOf(item, 0)[k].container;
    }
  }

  lemma LastIsPicked(plan: Plan, items: seq<Listed>)
    requires items != [] && items[|items| - 1].key.name == plan.podName
    ensures ModeOf(plan.Spec()) == ByPodName && Select(plan.Spec(), items) == Success([items[|items| - 1]])
  {
    assert LastNamed(items, plan.podName, |items| - 1);
    ByNameIsExact(items, plan.podName);
    hide LastNamed, SelectByName;
  }

  lemma {:induction false} SingleTargets(item: Listed)
    requires CanRun(item.pod)
    ensures Reconciler.Targets([item]) == Reconciler.ContainersOf(item, 0)
  {
    var rest: seq<Listed> := [item][1..];
    assert rest == [] && Reconciler.Targets(rest) == [];
  }

  lemma Submitted(s: State, plan: Plan) returns (t: State)
    requires Ready(s, plan)
    ensures Reaches(s, t) && t == s.(migrations := s.migrations + [plan.Spec()])
  {
    var spec := plan.Spec();
    AdmittedIff(spec, ViewOf(s), s.processing);
    assert ValidName(plan.Source().name) && ValidName(plan.Source().namespace);
    assert NamedPods(spec) == {plan.podName};
    hide ValidateMigration, NamesValid, RegistriesOk, Quiet;
    t := s.(migrations := s.migrations + [spec]);
    assert Next(s, Reconcile(Submit(spec))) == Some(t);
    ReachesSelf(s);
    ReachesOn(s, s, Reconcile(Submit(spec)));
  }

  /** Admission and one complete reconcile, in which every container is checkpointed. */
  lemma Reconciled(s: State, plan: Plan) returns (t: State)
    requires Ready(s, plan)
    ensures Reaches(s, t)
    ensures t == s.(migrations := s.migrations + [plan.Spec()],
                    processing := map[plan.podName := plan.Info()],
                    jobs := s.jobs + JobsFor(plan.Image(), RegistryIP(s.registries, plan.destinationNamespace),
                                             Memories(s.pods[plan.picked])),
                    history := t.history)
  {
    assert ValidName(plan.Source().name) && s.work == Idle && s.processing == map[];
    hide Next, NamesValid, RegistriesOk, ValidName, Reconciler.ContainersOf, RegistryIP, Quiet;
    var u := Submitted(s, plan);
    var items := ListingEndingIn(u.pods, plan.picked);
    var last := items[|items| - 1];
    LastIsPicked(plan, items);
    SingleTargets(last);
    GoodAnswers(u, plan, last);
    GoodTrace(u, plan, last, 0);
    assert Memories(last.pod)[0..] == Memories(last.pod);
    assert IsListing(u, plan.Spec(), items);
    hide IsListing, Select, CanAnswerAll, Reaches, Memories, JobsFor, JobsOf;
    t := FetchedIsRun(u, |s.migrations|, Some(items), AllGood(plan, u.registries, last.pod), _ => "");
    ReachesTrans(s, u, t);
  }

  // ---------------------------------------------------------------- build, push, event, message

  /** The jobs run one after the other; each push replaces the image of the one before. */
  lemma {:induction false} BuiltAll(s: State, plan: Plan, j: nat, memories: seq<Option<Workload>>) returns (t: State)
    requires RegistriesOk(s.registries) && s.registries != [] && j <= |s.jobs| && memories != []
    requires s.jobs[j..] == JobsFor(plan.Image(), RegistryIP(s.registries, plan.destinationNamespace), memories)
    ensures Reaches(s, t)
    ensures t == s.(images := s.images[(plan.Via(s), plan.Image()) := Image(memories[|memories| - 1],
                                                                            j + |memories| - 1)],
                    events := t.events)
    ensures t.events != [] && t.events[|t.events| - 1] ==
              Event(Push, OciManifest, PushHost(s.registries[plan.Via(s)].podIP), plan.Image())
    decreases memories
  {
    hide Next, Reaches, RegistriesOk, RegistryFor, PushHost;
    assert s.jobs[j] == Job(plan.Image(), RegistryIP(s.registries, plan.destinationNamespace), memories[0]);
    var u := Built(s, plan, j, memories[0]);
    ReachesSelf(s);
    ReachesOn(s, s, Build(RunJob(j)));
    if |memories| == 1 {
      t := u;
    } else {
      assert s.jobs[j..][1..] == s.jobs[j + 1..];
      t := BuiltAll(u, plan, j + 1, memories[1..]);
      ReachesTrans(s, u, t);
      var last := Image(memories[|memories| - 1], j + |memories| - 1);
      assert u.images[(plan.Via(s), plan.Image()) := last] == s.images[(plan.Via(s), plan.Image()) := last];
    }
  }

  lemma Built(s: State, plan: Plan, j: nat, memory: Option<Workload>) returns (t: State)
    requires RegistriesOk(s.registries) && s.registries != [] && j < |s.jobs|
    requires s.jobs[j] == Job(plan.Image(), RegistryIP(s.registries, plan.destinationNamespace), memory)
    ensures Next(s, Build(RunJob(j))) == Some(t)
    ensures t == s.(images := s.images[(plan.Via(s), plan.Image()) := Image(memory, j)], events := t.events)
    ensures t.events != [] && t.events[|t.events| - 1] ==
              Event(Push, OciManifest, PushHost(s.registries[plan.Via(s)].podIP), plan.Image())
  {
    var r := plan.Via(s);
    assert RegistryAt(s.registries, s.registries[r].podIP) == r by {
      var i := RegistryAt(s.registries, s.registries[r].podIP);
      assert i <= r && s.registries[i].podIP == s.registries[r].podIP;
    }
    hide RegistryAt, RegistryFor, PushHost, Next;
    BuildNext(s, RunJob(j));
    t := RunBuild(s, j).value;
  }

  lemma Notified(s: State, plan: Plan) returns (t: State)
    requires RegistriesOk(s.registries) && s.registries != [] && s.events != [] && s.topic != []
    requires s.events[|s.events| - 1] ==
               Event(Push, OciManifest, PushHost(s.registries[plan.Via(s)].podIP), plan.Image())
    ensures Next(s, Build(Notify(|s.events| - 1, 0))) == Some(t)
    ensures t == s.(topic := s.topic[0 := Produce(s.topic[0], plan.Msg(s))])
  {
    hide RegistriesOk, RegistryFor, PushHost, Next, Publish, Produce;
    var e := s.events[|s.events| - 1];
    PublishedTo(s, plan.Via(s), plan.Image(), e);
    BuildNext(s, Notify(|s.events| - 1, 0));
    t := s.(topic := Publish(s.topic, s.registries, e, true, 0));
  }

  lemma PublishedTo(s: State, r: nat, image: string, e: Event)
    requires RegistriesOk(s.registries) && r < |s.registries| && s.topic != []
    requires e == Event(Push, OciManifest, PushHost(s.registries[r].podIP), image)
    ensures Publish(s.topic, s.registries, e, true, 0) ==
              s.topic[0 := Produce(s.topic[0], Message(s.registries[r].node, image))]
  {
    hide PushHost, NodeOfEvent;
    EventNamesItsNodeIff(s.registries, r, e);
    assert s.registries[r].node != "";
  }

  // ---------------------------------------------------------------- the deployer reads the message

  lemma FetchLast(p: Partition, node: string, m: Message)
    requires p.log != [] && p.Committed() == |p.log| - 1 && p.log[|p.log| - 1] == m && m.key == node && !IsEmpty(m)
    ensures CanFetch(Assign(p, node)) && Fetch(Assign(p, node), Acked).1 == Got(m)
    ensures var q := Fetch(Assign(p, node), Acked).0;
            q.log == p.log && q.Committed() == |p.log| && q.fates == p.fates + [Returned(node)]
  {
  }

  /** One short call of ConsumeMessage, which gets the next message of the first partition. */
  function ReadNext(d: nat): seq<Step> {
    [Deploy(d, OpenReader), Deploy(d, Rebalance(0)), Deploy(d, PollTopic(FetchedFrom(0, Acked))),
     Deploy(d, CloseReader(false))]
  }

  lemma Consumed(s: State, d: nat, m: Message) returns (t: State)
    requires d < |s.deployers| && d < |s.registries| && s.deployers[d] == Resting && s.topic != []
    requires m.key == s.registries[d].node && !IsEmpty(m)
    requires s.topic[0].log != [] && s.topic[0].log[|s.topic[0].log| - 1] == m
    requires s.topic[0].Committed() == |s.topic[0].log| - 1
    ensures Run(s, ReadNext(d)) == Some(t)
    ensures t == s.(deployers := s.deployers[d := Deploying([m])], topic := t.topic)
    ensures |t.topic| == |s.topic| && t.topic[0].log == s.topic[0].log && t.topic[0].Committed() == |t.topic[0].log|
    ensures t.topic[0].fates == s.topic[0].fates + [Returned(m.key)]
    ensures forall i :: 0 <= i < |s.topic| ==> t.topic[i].log == s.topic[i].log
  {
    hide Fetch, Next;
    var node, poll := s.registries[d].node, FetchedFrom(0, Acked);
    FetchLast(s.topic[0], node, m);
    var s1 := SetPhase(s, d, Consuming([]));
    ReaderNext(s, d, OpenReader);
    var s2 := s1.(topic := s1.topic[0 := Assign(s1.topic[0], node)]);
    ReaderNext(s1, d, Rebalance(0));
    ReaderNext(s2, d, PollTopic(poll));
    var s3 := PollStep(s2, d, poll).value;
    ReaderNext(s3, d, CloseReader(false));
    t := NextDeploy(s3, d, CloseReader(false)).value;
    FourSteps(s, s1, s2, s3, t, ReadNext(d));
    assert s3.deployers[d] == Consuming([] + [m]) && [] + [m] == [m];
    assert t.deployers == s.deployers[d := Deploying([m])];
  }

  lemma FourSteps(s: State, s1: State, s2: State, s3: State, t: State, steps: seq<Step>)
    requires |steps| == 4 && Next(s, steps[0]) == Some(s1) && Next(s1, steps[1]) == Some(s2)
    requires Next(s2, steps[2]) == Some(s3) && Next(s3, steps[3]) == Some(t)
    ensures Run(s, steps) == Some(t)
  {
    hide Next;
    assert steps[3..][1..] == [] && Run(s3, steps[3..]) == Some(t);
    assert steps[2..][1..] == steps[3..] && Run(s2, steps[2..]) == Some(t);
    assert steps[1..][1..] == steps[2..] && Run(s1, steps[1..]) == Some(t);
  }

  // ---------------------------------------------------------------- claim, copy, announce

  lemma KeyOfImage(plan: Plan, m: Message)
    requires m.value == plan.Image()
    ensures KeyOf(m) == plan.podName
  {
    DecodePrefixed(plan.podName);
  }

  lemma EntryClaimed(s: State, plan: Plan, d: nat, m: Message) returns (t: State)
    requires d < |s.deployers| && d < |s.registries| && s.deployers[d] == Deploying([m])
    requires m.value == plan.Image() && s.processing == map[plan.podName := plan.Info()]
    requires ValidName(plan.destinationNamespace)
    ensures Reaches(s, t)
    ensures t == s.(deployers := s.deployers[d := Prepared(plan.Info(), m, [])], processing := map[],
                    namespaces := s.namespaces + {plan.destinationNamespace}, history := t.history)
  {
    hide KeyOf, ValidName, Next, Reaches;
    KeyOfImage(plan, m);
    ReaderNext(s, d, Claim);
    var s1 := ClaimStep(s, d).value;
    assert [m][1..] == [];
    ReachesSelf(s);
    ReachesOn(s, s, Deploy(d, Claim));
    var exists' := plan.destinationNamespace in s.namespaces;
    ReaderNext(s1, d, Prepare(exists', !exists'));
    t := PrepareStep(s1, d, exists', !exists').value;
    assert exists' ==> s.namespaces == s.namespaces + {plan.destinationNamespace};
    ReachesOn(s, s1, Deploy(d, Prepare(exists', !exists')));
    assert t.deployers == s.deployers[d := Prepared(plan.Info(), m, [])];
  }

  lemma CopyCreated(s: State, plan: Plan, d: nat, m: Message, memory: Option<Workload>) returns (t: State, copy: Pod)
    requires d < |s.deployers| && d < |s.registries| && s.deployers[d] == Prepared(plan.Info(), m, [])
    requires m.value == plan.Image() && plan.destinationNamespace in s.namespaces && plan.Copy() !in s.pods
    requires (d, m.value) in s.images && s.images[(d, m.value)].memory == memory
    ensures Reaches(s, t)
    ensures t == s.(deployers := s.deployers[d := CopyMade(plan.Info(), m, [])], pods := s.pods[plan.Copy() := copy],
                    history := t.history)
    ensures copy.containers == [Container(plan.Image(), memory)] && copy.node == plan.destinationNode
  {
    hide KeyOf, ImageLocation, Next, Reaches;
    copy := CopyOf(s.registries[d], d, plan.Info(), m, s.images);
    ReaderNext(s, d, CreateCopy);
    t := CopyStep(s, d).value;
    ReachesSelf(s);
    ReachesOn(s, s, Deploy(d, CreateCopy));
  }

  lemma CopyAnnounced(s: State, plan: Plan, d: nat, m: Message) returns (t: State)
    requires d < |s.deployers| && d < |s.registries| && s.deployers[d] == CopyMade(plan.Info(), m, []) &&
        s.deletions != []
    ensures Reaches(s, t)
    ensures t == s.(deployers := s.deployers[d := Resting],
                    deletions := AppendTo(s.deletions, 0, DeleteMessage(plan.Info(), m)), history := t.history)
  {
    hide KeyOf, Next, Reaches, AppendTo, DeleteMessage;
    ReaderNext(s, d, Announce(Some(0)));
    var s1 := AnnounceStep(s, d, Some(0)).value;
    ReachesSelf(s);
    ReachesOn(s, s, Deploy(d, Announce(Some(0))));
    ReaderNext(s1, d, EndBatch);
    t := NextDeploy(s1, d, EndBatch).value;
    ReachesOn(s, s1, Deploy(d, EndBatch));
    assert t.deployers == s.deployers[d := Resting];
  }

  // ---------------------------------------------------------------- restore

  lemma Restored(s: State, plan: Plan, node: string) returns (t: State)
    requires s.deletions != [] && s.deletions[0].log != [] && s.deletions[0].committed == |s.deletions[0].log| - 1
    requires s.deletions[0].log[|s.deletions[0].log| - 1] == Message(plan.Image(), EncodeValue(plan.namespace, node))
    requires ValidName(plan.podName) && ValidName(plan.namespace) && node != ""
    requires plan.Source() in s.pods
    ensures Reaches(s, t)
    ensures t == s.(deletions := t.deletions, pods := s.pods - {plan.Source()}, history := t.history)
    ensures t.deletions == s.deletions[0 := s.deletions[0].(committed := |s.deletions[0].log|)]
  {
    var m := s.deletions[0].log[|s.deletions[0].log| - 1];
    ValueRoundTrip(plan.namespace, node);
    DecodePrefixed(plan.podName);
    assert RestoreDaemon.Victim(RestoreDaemon.Decode(m)) == Some(plan.Source());
    hide RestoreDaemon.Decode, RestoreDaemon.Victim, ValidName, RestoreDaemon.Consume;
    hide Next, Reaches;
    RestoreDaemon.ConsumesNext(s.deletions[0], true);
    assert RestoreDaemon.Consume(s.deletions[0], [RestoreDaemon.Fetches(true)]).0 ==
             s.deletions[0].(committed := |s.deletions[0].log|);
    var api := RestoreDaemon.Api(true, true);
    var step := Restore(0, true, api);
    ClusterNext(s, step);
    t := RestoreStep(s, 0, true, api).value;
    ReachesSelf(s);
    ReachesOn(s, s, OfCluster(step));
  }

  lemma Started(s: State, key: PodKey) returns (t: State)
    requires key in s.pods && Restorable(s.pods[key])
    ensures Reaches(s, t)
    ensures t == s.(pods := s.pods[key := s.pods[key].(running := true, imageIDs := [s.pods[key].image])])
  {
    t := s.(pods := s.pods[key := s.pods[key].(running := true, imageIDs := [s.pods[key].image])]);
    assert Next(s, OfCluster(PodStarts(key))) == Some(t);
    ReachesSelf(s);
    ReachesOn(s, s, OfCluster(PodStarts(key)));
    hide Next, Reaches;
  }

  // ---------------------------------------------------------------- the whole migration

  /** How a migration that nothing disturbs ends: the source is gone, its copy runs in the destination
      namespace on the destination node with the memory of the last container of the pod that was
      checkpointed,
      the entry has left the map, both messages have been consumed, and all is quiet again. */
  ghost predicate Migrated(s: State, plan: Plan, t: State)
    requires Quiet(s) && plan.picked in s.pods && s.pods[plan.picked].containers != []
  {
    && Quiet(t)
    && plan.Copy() in t.pods
    && t.pods == s.pods[plan.Copy() := t.pods[plan.Copy()]] - {plan.Source()}
    && t.pods[plan.Copy()].containers == [Container(plan.Image(), Surviving(s.pods[plan.picked]))]
    && t.pods[plan.Copy()].node == plan.destinationNode
    && CanRun(t.pods[plan.Copy()])
    && t.topic[0].log == s.topic[0].log + [plan.Msg(s)]
    && t.topic[0].fates == s.topic[0].fates + [Returned(plan.Msg(s).key)]
    && t.deletions[0].log == s.deletions[0].log + [DeleteMessage(plan.Info(), plan.Msg(s))]
  }

  /** From the webhook to the deployer: the message for the pod's image has been read. */
  lemma MessageRead(s: State, plan: Plan) returns (t: State)
    requires Ready(s, plan)
    ensures Reaches(s, t)
    ensures t == s.(migrations := t.migrations, processing := map[plan.podName := plan.Info()], jobs := t.jobs,
                    images := s.images[(plan.Via(s), plan.Image()) :=
                                         Image(Surviving(s.pods[plan.picked]),
                                               |s.jobs| + |s.pods[plan.picked].containers| - 1)],
                    events := t.events,
                    topic := t.topic, deployers := s.deployers[plan.Via(s) := Deploying([plan.Msg(s)])],
                    history := t.history)
    ensures |t.jobs| == |s.jobs| + |s.pods[plan.picked].containers|
    ensures t.events != [] && t.events[|t.events| - 1] ==
              Event(Push, OciManifest, PushHost(s.registries[plan.Via(s)].podIP), plan.Image())
    ensures t.topic != [] && t.topic[0].log == s.topic[0].log + [plan.Msg(s)]
    ensures t.topic[0].fates == s.topic[0].fates + [Returned(plan.Msg(s).key)]
  {
    hide Next, Reaches, NamesValid, RegistryFor, RegistryIP;
    var d, m := plan.Via(s), plan.Msg(s);
    assert s.registries[d].node != "" && !IsEmpty(m);
    var a := Reconciled(s, plan);
    var b := BuiltAll(a, plan, |s.jobs|, Memories(s.pods[plan.picked]));
    ReachesTrans(s, a, b);
    var c := Notified(b, plan);
    ReachesOn(s, b, Build(Notify(|b.events| - 1, 0)));
    assert c.topic[0] == Produce(s.topic[0], m);
    t := Consumed(c, d, m);
    RunIsReach(c, ReadNext(d));
    ReachesTrans(s, c, t);
  }

  /** From the deployer to the restore daemon. */
  lemma CopyReplacesSource(s: State, plan: Plan, d: nat, m: Message, memory: Option<Workload>) returns (t: State)
    requires d < |s.deployers| && d < |s.registries| && s.deployers[d] == Deploying([m]) && m.key != ""
    requires m.value == plan.Image() && s.processing == map[plan.podName := plan.Info()]
    requires ValidName(plan.destinationNamespace) && ValidName(plan.podName) && ValidName(plan.namespace)
    requires (d, m.value) in s.images && s.images[(d, m.value)].memory == memory && memory.Some?
    requires plan.Copy() !in s.pods && plan.Source() in s.pods
    requires s.deletions != [] && s.deletions[0].committed == |s.deletions[0].log|
    ensures Reaches(s, t)
    ensures plan.Copy() in t.pods
    ensures t == s.(deployers := s.deployers[d := Resting], processing := map[],
                    namespaces := s.namespaces + {plan.destinationNamespace},
                    pods := s.pods[plan.Copy() := t.pods[plan.Copy()]] - {plan.Source()},
                    deletions := t.deletions, history := t.history)
    ensures t.pods[plan.Copy()].containers == [Container(plan.Image(), memory)]
    ensures t.pods[plan.Copy()].node == plan.destinationNode
    ensures CanRun(t.pods[plan.Copy()])
    ensures t.deletions != [] && t.deletions[0].log == s.deletions[0].log + [DeleteMessage(plan.Info(), m)]
    ensures t.deletions[0].committed == |t.deletions[0].log|
  {
    hide Next, Reaches, ValidName;
    var f := EntryClaimed(s, plan, d, m);
    var g, copy := CopyCreated(f, plan, d, m, memory);
    ReachesTrans(s, f, g);
    var h := CopyAnnounced(g, plan, d, m);
    ReachesTrans(s, g, h);
    var k := Restored(h, plan, m.key);
    ReachesTrans(s, h, k);
    assert plan.Copy() != plan.Source() by { assert |plan.Image()| > |plan.podName|; }
    t := Started(k, plan.Copy());
    ReachesTrans(s, k, t);
    assert t.deployers == s.deployers[d := Resting];
    assert t.pods == s.pods[plan.Copy() := t.pods[plan.Copy()]] - {plan.Source()};
  }

  lemma MigrationCompletes(s: State, plan: Plan) returns (t: State)
    requires Ready(s, plan) && Surviving(s.pods[plan.picked]).Some?
    ensures Reaches(s, t) && Migrated(s, plan, t)
  {
    var d, m := plan.Via(s), plan.Msg(s);
    assert ValidName(plan.Source().name) && ValidName(plan.Source().namespace);
    assert s.registries[d].node != "";
    var a := MessageRead(s, plan);
    t := CopyReplacesSource(a, plan, d, m, Surviving(s.pods[plan.picked]));
    ReachesTrans(s, a, t);
    ReachNamesValid(s, t);
    hide Reaches, NamesValid, RegistriesOk, ValidName, RegistryFor, DeleteMessage;
    assert t.deployers == s.deployers;
  }

  lemma {:induction false} ReachNamesValid(s: State, t: State)
    requires NamesValid(s) && Reaches(s, t)
    ensures NamesValid(t)
  {
    var steps :| OnlyOperator(steps) && Run(s, steps) == Some(t);
    RunNamesValid(s, steps);
  }

  lemma {:induction false} RunNamesValid(s: State, steps: seq<Step>)
    requires NamesValid(s) && Run(s, steps).Some?
    ensures NamesValid(Run(s, steps).value)
    decreases steps
  {
    hide NamesValid, Next;
    if steps != [] {
      NamesStep(s, steps[0]);
      RunNamesValid(Next(s, steps[0]).value, steps[1..]);
    }
  }
}
