/** Completion, for every fault-free run: whatever order the parties step in, each step of the protocol
    brings the migration one stage further, no step throws it back, and it can never get stuck. */
module Progress {
  import opened Completion
  import opened Handoff
  import opened Kafka
  import opened Migrations
  import opened Names
  import opened Protocol
  import opened Reachability
  import opened Registry
  import opened Routing
  import opened Selection
  import opened Trail
  import opened Webhook
  import opened Wrappers
  import Reconciler
  import RestoreDaemon

  // ---------------------------------------------------------------- where a run begins

  /** A deployer that has nothing in hand, wherever it is in its round. */
  predicate Free(phase: Phase) {
    phase == Resting || phase == Consuming([]) || phase == Deploying([])
  }

  predicate CaughtUp(topic: seq<Partition>) {
    forall i :: 0 <= i < |topic| ==> topic[i].Committed() == |topic[i].log|
  }

  predicate AllDeleted(deletions: seq<DeleteLog>) {
    forall q :: 0 <= q < |deletions| ==> deletions[q].committed == |deletions[q].log|
  }

  /** Nothing is in flight, and the plan is to migrate the only pod of its name: a running pod with one
      container, to a namespace where the name of the copy is free. */
  ghost predicate Steady(s: State, plan: Plan) {
    && RegistriesOk(s.registries) && s.registries != [] && |s.deployers| == |s.registries|
    && (forall d :: 0 <= d < |s.deployers| ==> Free(s.deployers[d]))
    && s.work == Idle && s.processing == map[]
    && s.topic != [] && AllAccounted(s.topic) && CaughtUp(s.topic)
    && s.deletions != [] && AllDeleted(s.deletions)
    && plan.picked == plan.Source() && plan.Source() in s.pods
    && (forall k :: k in s.pods && k.name == plan.podName ==> k == plan.Source())
    && ValidName(plan.podName) && ValidName(plan.namespace) && ValidName(plan.destinationNamespace)
    && CanRun(s.pods[plan.Source()]) && |s.pods[plan.Source()].containers| == 1
    && s.pods[plan.Source()].containers[0].memory.Some?
    && plan.destinationNode != "" && plan.Copy() !in s.pods
  }

  function MemoryIn(s: State, plan: Plan): Option<Workload>
    requires plan.Source() in s.pods && |s.pods[plan.Source()].containers| == 1
  {
    s.pods[plan.Source()].containers[0].memory
  }

  // ---------------------------------------------------------------- fault-free steps

  predicate IsGood(a: Reconciler.Answers) {
    a.checkpoint && a.body && a.json && a.client && a.registryIp.Some? && a.imageCheck && a.push && a.items != []
  }

  predicate SameLogs(was: seq<Partition>, topic: seq<Partition>) {
    |topic| == |was| && forall i :: 0 <= i < |was| ==> topic[i].log == was[i].log
  }

  /** The registry has reported a manifest since s. */
  predicate Arrived(s: State, events: seq<Event>) {
    exists e :: |s.events| <= e < |events| && IsManifestPush(events[e])
  }

  /** The spec of the plan is submitted once and reconciled once; its job runs once and the event of the
      manifest is delivered once, those of layers, pulls and the like any number of times; external calls
      succeed, and a consume call that has messages ends without an error. Deployers may join, poll, time
      out, rebalance and rest as they like, fetches may fail and be tried again, any pod may be
      restarted, listings come in any order, and messages go to any partition. */
  predicate FaultFree(s: State, plan: Plan, t: State, step: Step) {
    match step
    case Reconcile(r) =>
      (match r
       case Submit(spec) => spec == plan.Spec() && |t.migrations| == |s.migrations|
       case StartReconcile(i) => i == |s.migrations| && |t.history| == |s.history|
       case ListPods(_) => true
       case Checkpoint(a, _) => IsGood(a)
       case EndReconcile => t.work.Working? && t.work.targets == []
       case _ => false)
    case Build(b) =>
      (match b
       case RunJob(j) => j == |s.jobs| && !Arrived(s, t.events)
       case Upload(_, _, _) => true
       case Notify(e, i) =>
         && |s.events| <= e < |t.events| && i < |t.topic|
         && (IsManifestPush(t.events[e]) ==> SameLogs(s.topic, t.topic)))
    case Deploy(d, a) =>
      (match a
       case PollTopic(poll) => poll.FetchFailed? || poll.commit == Acked
       case CloseReader(failed) => !failed || (d < |t.deployers| && t.deployers[d] == Consuming([]))
       case Announce(to) => to.Some?
       case Abandon => false
       case _ => true)
    case OfCluster(c) =>
      (match c
       case Restore(_, commits, api) => commits && api.get && api.delete
       case PodStarts(_) => true
       case _ => false)
  }

  ghost predicate FaultFreeRun(s: State, plan: Plan, t: State, steps: seq<Step>)
    decreases steps
  {
    steps == [] ||
    (FaultFree(s, plan, t, steps[0]) && Next(t, steps[0]).Some?
     && FaultFreeRun(s, plan, Next(t, steps[0]).value, steps[1..]))
  }

  // ---------------------------------------------------------------- stages

  function One(b: bool): nat {
    if b then 1 else 0
  }

  /** How many steps lie between the migration and the deletion of its source: submit, start, list,
      checkpoint, build, notify, read, close, claim, prepare, copy, announce, restore. */
  function Position(s: State, plan: Plan, t: State): nat
    requires s.registries != []
  {
    var via := plan.Via(s);
    if |t.migrations| == |s.migrations| then 13
    else if |t.history| == |s.history| then 12
    else if t.work.Listing? then 11
    else if |t.jobs| == |s.jobs| then 10
    else if !Arrived(s, t.events) then 9
    else if SameLogs(s.topic, t.topic) then 8
    else if !CaughtUp(t.topic) then 7
    else if via < |t.deployers| && !Free(t.deployers[via]) then
      match t.deployers[via]
      case Consuming(_) => 6
      case Deploying(_) => 5
      case Claimed(_, _, _) => 4
      case Prepared(_, _, _) => 3
      case _ => 2
    else if !AllDeleted(t.deletions) then 1
    else 0
  }

  /** Independently of these, the reconcile has to end and the copy to start. */
  function Stage(s: State, plan: Plan, t: State): nat
    requires s.registries != []
  {
    Position(s, plan, t) + One(EndDue(s, t)) + One(StartDue(plan, t))
  }

  predicate EndDue(s: State, t: State) {
    |t.jobs| == |s.jobs| || !t.work.Idle?
  }

  predicate StartDue(plan: Plan, t: State) {
    plan.Copy() !in t.pods || !t.pods[plan.Copy()].running
  }

  /** The steps of the protocol; all others are idle turns, retries and restarts. */
  predicate MovesPosition(t: State, step: Step) {
    match step
    case Reconcile(r) => !r.EndReconcile?
    case Build(b) =>
      b.RunJob? || (b.Notify? && b.event < |t.events| && IsManifestPush(t.events[b.event]))
    case Deploy(d, a) =>
      if a.PollTopic? then d < |t.registries| && PollOne(t.topic, t.registries[d].node, a.poll).1.Got?
      else if a.CloseReader? then d < |t.deployers| && t.deployers[d].Consuming? && t.deployers[d].list != []
      else a.Claim? || a.Prepare? || a.CreateCopy? || a.Announce?
    case OfCluster(c) => c.Restore?
  }

  predicate EndsReconcile(step: Step) {
    step.Reconcile? && step.r.EndReconcile?
  }

  predicate StartsCopy(plan: Plan, t: State, step: Step) {
    step.OfCluster? && step.c == PodStarts(plan.Copy()) && StartDue(plan, t)
  }

  predicate IsProtocolStep(plan: Plan, t: State, step: Step) {
    MovesPosition(t, step) || EndsReconcile(step) || StartsCopy(plan, t, step)
  }

  // ---------------------------------------------------------------- the stage invariant

  function TheJob(s: State, plan: Plan): Job
    requires plan.Source() in s.pods && |s.pods[plan.Source()].containers| == 1
  {
    Job(plan.Image(), RegistryIP(s.registries, plan.destinationNamespace), MemoryIn(s, plan))
  }

  function TheEvent(s: State, plan: Plan): Event
    requires s.registries != []
  {
    Event(Push, OciManifest, PushHost(s.registries[plan.Via(s)].podIP), plan.Image())
  }

  function Announcement(s: State, plan: Plan): Message
    requires s.registries != []
  {
    DeleteMessage(plan.Info(), plan.Msg(s))
  }

  predicate WorkAt(s: State, plan: Plan, n: nat, work: Work)
    requires plan.Source() in s.pods && |s.pods[plan.Source()].containers| == 1
  {
    if n >= 12 then work == Idle
    else if n == 11 then work == Listing(plan.Spec())
    else if n == 10 then
      && work.Working? && work.spec == plan.Spec() && work.fills == [] && |work.targets| == 1
      && work.targets[0].listed.key == plan.Source() && work.targets[0].listed.pod.imageIDs != []
      && work.targets[0].container == s.pods[plan.Source()].containers[0].name
    else work == Idle || work == Working(plan.Spec(), [], [])
  }

  predicate PublishedIn(was: seq<Partition>, m: Message, taken: bool, topic: seq<Partition>, i: nat)
    requires |topic| == |was|
  {
    && i < |was| && topic[i].log == was[i].log + [m]
    && topic[i].Committed() == |was[i].log| + One(taken)
    && (taken ==> topic[i].fates[|was[i].log|] == Returned(m.key))
    && forall j :: 0 <= j < |was| && j != i ==> topic[j].log == was[j].log && topic[j].Committed() == |topic[j].log|
  }

  ghost predicate TopicAt(was: seq<Partition>, m: Message, published: bool, taken: bool, topic: seq<Partition>) {
    && |topic| == |was| && AllAccounted(topic)
    && if published then exists i: nat :: PublishedIn(was, m, taken, topic, i)
       else SameLogs(was, topic) && CaughtUp(topic)
  }

  function Held(s: State, plan: Plan, n: nat): Option<Phase>
    requires s.registries != []
  {
    var m := plan.Msg(s);
    if n == 6 then Some(Consuming([m]))
    else if n == 5 then Some(Deploying([m]))
    else if n == 4 then Some(Claimed(plan.Info(), m, []))
    else if n == 3 then Some(Prepared(plan.Info(), m, []))
    else if n == 2 then Some(CopyMade(plan.Info(), m, []))
    else None
  }

  predicate DeployersAt(via: nat, held: Option<Phase>, deployers: seq<Phase>) {
    forall d :: 0 <= d < |deployers| ==>
      if d == via && held.Some? then deployers[d] == held.value else Free(deployers[d])
  }

  /** The same pod, possibly restarted. */
  predicate SamePod(a: Pod, b: Pod) {
    b.containers == a.containers && b.node == a.node && (CanRun(a) ==> CanRun(b))
  }

  ghost predicate PodsAt(s: State, plan: Plan, copied: bool, deleted: bool, pods: map<PodKey, Pod>)
    requires plan.Source() in s.pods && |s.pods[plan.Source()].containers| == 1
  {
    && (forall k :: k in pods <==>
          (k in s.pods && !(deleted && k == plan.Source())) || (copied && k == plan.Copy()))
    && (forall k :: k in pods && k in s.pods ==> SamePod(s.pods[k], pods[k]))
    && (copied && plan.Copy() in pods ==>
          && pods[plan.Copy()].containers == [Container(plan.Image(), MemoryIn(s, plan))]
          && pods[plan.Copy()].node == plan.destinationNode
          && (pods[plan.Copy()].running ==> CanRun(pods[plan.Copy()])))
  }

  predicate AnnouncedIn(was: seq<DeleteLog>, m: Message, consumed: bool, deletions: seq<DeleteLog>, q: nat)
    requires |deletions| == |was|
  {
    && q < |was| && deletions[q].log == was[q].log + [m]
    && deletions[q].committed == |was[q].log| + One(consumed)
    && forall j :: 0 <= j < |was| && j != q ==>
         deletions[j].log == was[j].log && deletions[j].committed == |deletions[j].log|
  }

  ghost predicate DeletionsAt(was: seq<DeleteLog>, m: Message, announced: bool, consumed: bool,
                              deletions: seq<DeleteLog>) {
    && |deletions| == |was|
    && if announced then exists q: nat :: AnnouncedIn(was, m, consumed, deletions, q) else deletions == was
  }

  predicate HistoryAt(s: State, started: bool, h: seq<Effect>) {
    if started then |h| > |s.history| else |h| == |s.history|
  }

  predicate ImagesAt(s: State, plan: Plan, built: bool, images: Images)
    requires s.registries != [] && plan.Source() in s.pods && |s.pods[plan.Source()].containers| == 1
  {
    built ==>
      && (plan.Via(s), plan.Image()) in images
      && images[(plan.Via(s), plan.Image())] == Image(MemoryIn(s, plan), |s.jobs|)
  }

  /** Of the events since s, one or none tells of a manifest, that of the job's image. */
  predicate EventsAt(s: State, plan: Plan, built: bool, events: seq<Event>)
    requires s.registries != []
  {
    && s.events <= events && (Arrived(s, events) <==> built)
    && forall e :: |s.events| <= e < |events| && IsManifestPush(events[e]) ==> events[e] == TheEvent(s, plan)
  }

  /** The state of a migration that has n steps to go, in all its parts. */
  ghost predicate TrackAt(s: State, plan: Plan, n: nat, t: State)
    requires s.registries != [] && plan.Source() in s.pods && |s.pods[plan.Source()].containers| == 1
  {
    && n <= 13 && t.registries == s.registries && |t.deployers| == |s.registries|
    && t.migrations == s.migrations + (if n <= 12 then [plan.Spec()] else [])
    && WorkAt(s, plan, n, t.work)
    && t.processing == (if 5 <= n <= 11 then map[plan.podName := plan.Info()] else map[])
    && t.jobs == s.jobs + (if n <= 9 then [TheJob(s, plan)] else [])
    && EventsAt(s, plan, n <= 8, t.events)
    && ImagesAt(s, plan, n <= 8, t.images)
    && TopicAt(s.topic, plan.Msg(s), n <= 7, n <= 6, t.topic)
    && DeployersAt(plan.Via(s), Held(s, plan, n), t.deployers)
    && (n <= 3 ==> plan.destinationNamespace in t.namespaces)
    && PodsAt(s, plan, n <= 2, n == 0, t.pods)
    && DeletionsAt(s.deletions, Announcement(s, plan), n <= 1, n == 0, t.deletions)
    && HistoryAt(s, n < 12, t.history)
  }

  // ---------------------------------------------------------------- the invariant fixes the stage

  lemma TopicShows(was: seq<Partition>, m: Message, published: bool, taken: bool, topic: seq<Partition>)
    requires TopicAt(was, m, published, taken, topic) && CaughtUp(was) && (taken ==> published)
    ensures SameLogs(was, topic) <==> !published
    ensures CaughtUp(topic) <==> !published || taken
  {
    if published {
      var i: nat :| PublishedIn(was, m, taken, topic, i);
      assert |topic[i].log| == |was[i].log| + 1;
    }
  }

  lemma DeletionsShow(was: seq<DeleteLog>, m: Message, announced: bool, consumed: bool, deletions: seq<DeleteLog>)
    requires DeletionsAt(was, m, announced, consumed, deletions) && AllDeleted(was) && (consumed ==> announced)
    ensures AllDeleted(deletions) <==> !announced || consumed
  {
    if announced {
      var q: nat :| AnnouncedIn(was, m, consumed, deletions, q);
      assert |deletions[q].log| == |was[q].log| + 1;
    }
  }

  lemma PositionIs(s: State, plan: Plan, n: nat, t: State)
    requires Steady(s, plan) && TrackAt(s, plan, n, t)
    ensures Position(s, plan, t) == n
  {
    hide TopicAt, DeletionsAt, PodsAt, ImagesAt, CaughtUp, SameLogs, AllDeleted, RegistriesOk, CanRun, AllAccounted;
    TopicShows(s.topic, plan.Msg(s), n <= 7, n <= 6, t.topic);
    DeletionsShow(s.deletions, Announcement(s, plan), n <= 1, n == 0, t.deletions);
  }

  // ---------------------------------------------------------------- the topic

  lemma TopicSame(was: seq<Partition>, m: Message, published: bool, taken: bool, topic: seq<Partition>,
                  next: seq<Partition>)
    requires TopicAt(was, m, published, taken, topic) && |next| == |topic| && AllAccounted(next)
    requires forall i :: 0 <= i < |topic| ==> next[i].log == topic[i].log && next[i].fates == topic[i].fates
    ensures TopicAt(was, m, published, taken, next)
  {
    hide Accounted;
    if published {
      var i: nat :| PublishedIn(was, m, taken, topic, i);
      assert PublishedIn(was, m, taken, next, i);
    }
  }

  lemma TopicAssign(was: seq<Partition>, m: Message, published: bool, taken: bool, topic: seq<Partition>, i: nat,
                    node: string)
    requires TopicAt(was, m, published, taken, topic) && i < |topic|
    ensures TopicAt(was, m, published, taken, topic[i := Assign(topic[i], node)])
  {
    StepAccounted(topic[i], Assigned(node));
    hide Accounted, TopicAt;
    TopicSame(was, m, published, taken, topic, topic[i := Assign(topic[i], node)]);
  }

  lemma TopicClose(was: seq<Partition>, m: Message, published: bool, taken: bool, topic: seq<Partition>, node: string)
    requires TopicAt(was, m, published, taken, topic)
    ensures TopicAt(was, m, published, taken, Close(topic, node))
  {
    forall i | 0 <= i < |topic| ensures Accounted(Close(topic, node)[i]) { StepAccounted(topic[i], Released); }
    hide Accounted, TopicAt;
    TopicSame(was, m, published, taken, topic, Close(topic, node));
  }

  lemma TopicPublish(was: seq<Partition>, m: Message, topic: seq<Partition>, i: nat)
    requires TopicAt(was, m, false, false, topic) && i < |topic|
    ensures TopicAt(was, m, true, false, topic[i := Produce(topic[i], m)])
  {
    hide Accounted;
    StepAccounted(topic[i], Produced(m));
    assert PublishedIn(was, m, false, topic[i := Produce(topic[i], m)], i);
  }

  /** A poll finds the message, if it is there for this node and has not been taken, and nothing else. */
  lemma TopicPoll(was: seq<Partition>, m: Message, published: bool, taken: bool, topic: seq<Partition>, node: string,
                  poll: Poll)
    requires TopicAt(was, m, published, taken, topic) && CaughtUp(was) && !IsEmpty(m)
    requires poll.FetchFailed? || poll.commit == Acked
    ensures var (next, outcome) := PollOne(topic, node, poll);
            if outcome.Got? then
              published && !taken && outcome.message == m && m.key == node && TopicAt(was, m, true, true, next)
            else outcome.Nothing? && TopicAt(was, m, published, taken, next)
  {
    if poll.FetchedFrom? && poll.partition < |topic| && ReadyFor(topic[poll.partition], node) {
      var i := poll.partition;
      FetchAccounted(topic[i], Acked);
      assert topic[i].Committed() < |topic[i].log|;
      assert published && !taken by { NothingToFetch(was, m, published, taken, topic, i); }
      var j: nat :| PublishedIn(was, m, false, topic, j);
      assert i == j;
      var next := topic[i := Fetch(topic[i], Acked).0];
      if m.key == node {
        FetchTakes(topic[i], m, was[i].log);
        hide Fetch, Accounted;
        assert PublishedIn(was, m, true, next, i);
      } else {
        hide Accounted, TopicAt;
        TopicSame(was, m, published, taken, topic, next);
      }
    }
  }

  lemma NothingToFetch(was: seq<Partition>, m: Message, published: bool, taken: bool, topic: seq<Partition>, i: nat)
    requires TopicAt(was, m, published, taken, topic) && CaughtUp(was) && i < |topic|
    ensures topic[i].Committed() < |topic[i].log| ==> published && !taken && PublishedIn(was, m, false, topic, i)
  {
    if published { var j: nat :| PublishedIn(was, m, taken, topic, j); }
  }

  lemma FetchTakes(p: Partition, m: Message, before: seq<Message>)
    requires Accounted(p) && CanFetch(p) && p.log == before + [m] && p.Committed() == |before| && !IsEmpty(m)
    requires p.reader.node == m.key
    ensures var (q, outcome) := Fetch(p, Acked);
            && outcome == Got(m) && q.log == p.log && q.Committed() == |before| + 1
            && q.fates[|before|] == Returned(m.key)
  {
    assert p.reader.position == |before|;
    assert SkippedFates(p.log, p.Committed(), p.reader.position, p.reader.node) == [];
  }

  // ---------------------------------------------------------------- the steps

  lemma SubmitTracks(s: State, plan: Plan, n: nat, t: State, spec: MigrationSpec)
    requires Steady(s, plan) && TrackAt(s, plan, n, t) && spec == plan.Spec() && |t.migrations| == |s.migrations|
    requires Admit(t, spec).Some?
    ensures n == 13 && TrackAt(s, plan, 12, Admit(t, spec).value)
  {
    hide TopicAt, DeletionsAt, PodsAt, ImagesAt, DeployersAt, ValidateMigration, RegistriesOk;
    assert n == 13 && t.migrations == s.migrations;
  }

  lemma StartTracks(s: State, plan: Plan, n: nat, t: State)
    requires Steady(s, plan) && TrackAt(s, plan, n, t) && |t.history| == |s.history|
    requires Start(t, |s.migrations|).Some?
    ensures n == 12 && TrackAt(s, plan, 11, Start(t, |s.migrations|).value)
  {
    hide TopicAt, DeletionsAt, PodsAt, ImagesAt, DeployersAt, RegistriesOk;
    assert n == 12 && t.migrations[|s.migrations|] == plan.Spec();
    assert t.processing[plan.podName := plan.Info()] == map[plan.podName := plan.Info()];
  }

  /** Whatever listing arrives, the pod is selected. */
  lemma PicksSource(s: State, plan: Plan, pods: map<PodKey, Pod>, items: seq<Listed>)
    requires Steady(s, plan) && PodsAt(s, plan, false, false, pods) && ClusterListing(items, pods)
    ensures var pod := pods[plan.Source()];
            && Select(plan.Spec(), items) == Success([Listed(plan.Source(), pod)])
            && Reconciler.Targets([Listed(plan.Source(), pod)]) ==
                 [Reconciler.Target(Listed(plan.Source(), pod), s.pods[plan.Source()].containers[0].name)]
  {
    hide ClusterListing, SelectByName, Reconciler.Targets;
    var source := plan.Source();
    assert source in pods && SamePod(s.pods[source], pods[source]);
    RightPodIff(pods, source);
    assert forall key :: key in pods && key.name == source.name ==> key == source;
    assert SelectByName(items, source.name) == [Listed(source, pods[source])];
    var item := Listed(source, pods[source]);
    SingleTargets(item);
    assert Reconciler.ContainersOf(item, 1) == [];
  }

  lemma ListTracks(s: State, plan: Plan, n: nat, t: State, items: seq<Listed>)
    requires Steady(s, plan) && TrackAt(s, plan, n, t) && ListStep(t, items).Some?
    ensures n == 11 && TrackAt(s, plan, 10, ListStep(t, items).value)
  {
    assert n == 11 && IsListing(t, plan.Spec(), items);
    PicksSource(s, plan, t.pods, items);
    assert SamePod(s.pods[plan.Source()], t.pods[plan.Source()]);
    hide TopicAt, DeletionsAt, PodsAt, ImagesAt, DeployersAt, RegistriesOk, Select, Reconciler.Targets, IsListing;
  }

  /** The one container is checkpointed, and its image pushed to the one registry. */
  lemma CheckpointIs(s: State, plan: Plan, t: State, a: Reconciler.Answers, stamp: string)
    requires Steady(s, plan) && WorkAt(s, plan, 10, t.work) && t.registries == s.registries
    requires PodsAt(s, plan, false, false, t.pods) && IsGood(a) && CheckpointStep(t, a, stamp).Some?
    ensures CheckpointStep(t, a, stamp) ==
              Some(t.(jobs := t.jobs + [TheJob(s, plan)], work := Working(plan.Spec(), [], [])))
  {
    var target := t.work.targets[0];
    var source := plan.Source();
    assert source in t.pods && SamePod(s.pods[source], t.pods[source]);
    assert MemoryAt(t.pods, source, target.container) == MemoryIn(s, plan);
    JobNameValid(source, target.container, stamp);
    GoodAttempt(target, a, plan.destinationNode, t.pods);
    assert t.work.targets[1..] == [];
    hide Steady, PodsAt, Reconciler.Attempt, JobsOf, KubeletPath, ModifyCheckpointToImageName, RegistryIP, MemoryAt,
      CanRun,
      SamePod, HasContainer, ValidName;
  }

  lemma CheckpointTracks(s: State, plan: Plan, n: nat, t: State, a: Reconciler.Answers, stamp: string)
    requires Steady(s, plan) && TrackAt(s, plan, n, t) && IsGood(a) && CheckpointStep(t, a, stamp).Some?
    ensures n == 10 && TrackAt(s, plan, 9, CheckpointStep(t, a, stamp).value)
    ensures EndDue(s, t) && EndDue(s, CheckpointStep(t, a, stamp).value)
  {
    assert n == 10;
    CheckpointIs(s, plan, t, a, stamp);
    assert t.jobs == s.jobs;
    hide Steady, TopicAt, DeletionsAt, PodsAt, ImagesAt, DeployersAt, CheckpointStep, RegistryIP;
  }

  lemma EndTracks(s: State, plan: Plan, n: nat, t: State)
    requires Steady(s, plan) && TrackAt(s, plan, n, t) && t.work.Working? && t.work.targets == []
    ensures n <= 9 && TrackAt(s, plan, n, t.(work := Idle))
  {
    hide TopicAt, DeletionsAt, PodsAt, ImagesAt, DeployersAt, RegistriesOk, HistoryAt;
  }

  lemma BuildTracks(s: State, plan: Plan, n: nat, t: State)
    requires Steady(s, plan) && TrackAt(s, plan, n, t) && !Arrived(s, t.events) && |s.jobs| < |t.jobs|
    requires RunBuild(t, |s.jobs|).Some?
    ensures n == 9 && TrackAt(s, plan, 8, RunBuild(t, |s.jobs|).value)
  {
    hide TopicAt, DeletionsAt, PodsAt, DeployersAt, RegistryAt, RegistryFor, PushHost, RegistriesOk, EventsAt, CanRun;
    assert !Arrived(s, t.events) <==> n > 8 by { EventsShow(s, plan, n <= 8, t.events); }
    assert n == 9 && t.jobs[|s.jobs|] == TheJob(s, plan);
    BuildIs(s, plan, t);
    ManifestArrives(s, plan, t.events);
  }

  lemma EventsShow(s: State, plan: Plan, built: bool, events: seq<Event>)
    requires s.registries != [] && EventsAt(s, plan, built, events)
    ensures Arrived(s, events) <==> built
  {
  }

  lemma BuildIs(s: State, plan: Plan, t: State)
    requires Steady(s, plan) && t.registries == s.registries && |s.jobs| < |t.jobs|
    requires t.jobs[|s.jobs|] == TheJob(s, plan)
    ensures RunBuild(t, |s.jobs|) ==
              Some(t.(images := t.images[(plan.Via(s), plan.Image()) := Image(MemoryIn(s, plan), |s.jobs|)],
                      events := t.events + [TheEvent(s, plan)]))
  {
    RegistryAtItsIP(s.registries, plan.Via(s));
    hide RegistryAt, RegistryFor, PushHost, Steady, RegistriesOk;
  }

  lemma ManifestArrives(s: State, plan: Plan, events: seq<Event>)
    requires s.registries != [] && EventsAt(s, plan, false, events)
    ensures EventsAt(s, plan, true, events + [TheEvent(s, plan)])
  {
    hide PushHost;
    var more := events + [TheEvent(s, plan)];
    assert IsManifestPush(more[|events|]);
  }

  lemma PartArrives(s: State, plan: Plan, built: bool, events: seq<Event>, e: Event)
    requires s.registries != [] && EventsAt(s, plan, built, events) && !IsManifestPush(e)
    ensures EventsAt(s, plan, built, events + [e])
  {
    hide IsManifestPush, TheEvent;
    var more := events + [e];
    if i :| |s.events| <= i < |events| && IsManifestPush(events[i]) { assert IsManifestPush(more[i]); }
  }

  lemma UploadTracks(s: State, plan: Plan, n: nat, t: State, e: Event)
    requires Steady(s, plan) && TrackAt(s, plan, n, t) && !IsManifestPush(e)
    ensures TrackAt(s, plan, n, t.(events := t.events + [e]))
  {
    PartArrives(s, plan, n <= 8, t.events, e);
    hide TopicAt, DeletionsAt, PodsAt, DeployersAt, Steady, EventsAt, ImagesAt;
  }

  lemma RegistryAtItsIP(registries: seq<RegistryPod>, r: nat)
    requires RegistriesOk(registries) && r < |registries|
    ensures RegistryAt(registries, registries[r].podIP) == r
  {
    var i := RegistryAt(registries, registries[r].podIP);
    assert i <= r && registries[i].podIP == registries[r].podIP;
  }

  lemma NotifyIs(s: State, plan: Plan, topic: seq<Partition>, i: nat)
    requires Steady(s, plan) && i < |topic|
    ensures Publish(topic, s.registries, TheEvent(s, plan), true, i) == topic[i := Produce(topic[i], plan.Msg(s))]
  {
    hide RegistryFor, PushHost, NodeOfEvent;
    EventNamesItsNodeIff(s.registries, plan.Via(s), TheEvent(s, plan));
    assert s.registries[plan.Via(s)].node != "";
  }

  lemma NotifyTracks(s: State, plan: Plan, n: nat, t: State, e: nat, i: nat)
    requires Steady(s, plan) && TrackAt(s, plan, n, t) && |s.events| <= e < |t.events| && i < |t.topic|
    requires IsManifestPush(t.events[e]) && SameLogs(s.topic, t.topic)
    ensures n == 8
    ensures TrackAt(s, plan, 7, t.(topic := Publish(t.topic, t.registries, t.events[e], true, i)))
  {
    hide TopicAt, PodsAt, DeletionsAt, ImagesAt, DeployersAt, HistoryAt, WorkAt, RegistriesOk, CanRun, TheEvent, TheJob,
      Publish, Produce, SameLogs, CaughtUp, IsManifestPush, EventsAt, Held;
    TopicShows(s.topic, plan.Msg(s), n <= 7, n <= 6, t.topic);
    ManifestIs(s, plan, n <= 8, t.events, e);
    NotifyIs(s, plan, t.topic, i);
    TopicPublish(s.topic, plan.Msg(s), t.topic, i);
    PublishTracks(s, plan, t, t.topic[i := Produce(t.topic[i], plan.Msg(s))]);
  }

  lemma ManifestIs(s: State, plan: Plan, built: bool, events: seq<Event>, e: nat)
    requires s.registries != [] && EventsAt(s, plan, built, events) && |s.events| <= e < |events|
    requires IsManifestPush(events[e])
    ensures built && events[e] == TheEvent(s, plan)
  {
    hide IsManifestPush, TheEvent;
    assert Arrived(s, events);
  }

  lemma PublishTracks(s: State, plan: Plan, t: State, topic: seq<Partition>)
    requires Steady(s, plan) && TrackAt(s, plan, 8, t) && TopicAt(s.topic, plan.Msg(s), true, false, topic)
    ensures TrackAt(s, plan, 7, t.(topic := topic))
  {
    hide TopicAt, DeletionsAt, PodsAt, DeployersAt, Steady, TheEvent;
  }

  /** Only readers have moved. */
  lemma TopicTracks(s: State, plan: Plan, n: nat, t: State, topic: seq<Partition>)
    requires Steady(s, plan) && TrackAt(s, plan, n, t) && TopicAt(s.topic, plan.Msg(s), n <= 7, n <= 6, topic)
    ensures TrackAt(s, plan, n, t.(topic := topic))
  {
    hide TopicAt, DeletionsAt, PodsAt, ImagesAt, Steady, Held, WorkAt, HistoryAt, DeployersAt;
  }

  /** A deployer that is free goes on with its round; nothing else changes but the readers of the topic. */
  lemma FreeTracks(s: State, plan: Plan, n: nat, t: State, d: nat, phase: Phase, topic: seq<Partition>)
    requires Steady(s, plan) && TrackAt(s, plan, n, t) && d < |t.deployers| && Free(phase)
    requires d == plan.Via(s) ==> Held(s, plan, n).None?
    requires TopicAt(s.topic, plan.Msg(s), n <= 7, n <= 6, topic)
    ensures TrackAt(s, plan, n, SetPhase(t, d, phase).(topic := topic))
  {
    hide TopicAt, DeletionsAt, PodsAt, ImagesAt, Steady, Free, Held, WorkAt, HistoryAt;
  }

  lemma RebalanceTracks(s: State, plan: Plan, n: nat, t: State, i: nat, node: string)
    requires Steady(s, plan) && TrackAt(s, plan, n, t) && i < |t.topic|
    ensures TrackAt(s, plan, n, t.(topic := t.topic[i := Assign(t.topic[i], node)]))
  {
    hide TopicAt, Steady, Assign;
    TopicAssign(s.topic, plan.Msg(s), n <= 7, n <= 6, t.topic, i, node);
    TopicTracks(s, plan, n, t, t.topic[i := Assign(t.topic[i], node)]);
  }

  /** The deployer of the plan's registry has read the message, or closed its reader with it. */
  lemma ReadTracks(s: State, plan: Plan, n: nat, t: State, topic: seq<Partition>)
    requires Steady(s, plan) && TrackAt(s, plan, n, t) && 6 <= n <= 7 && plan.Via(s) < |t.deployers|
    requires TopicAt(s.topic, plan.Msg(s), true, true, topic)
    ensures TrackAt(s, plan, n - 1, SetPhase(t, plan.Via(s), Held(s, plan, n - 1).value).(topic := topic))
  {
    hide TopicAt, DeletionsAt, PodsAt, ImagesAt, Steady, Free, HistoryAt, RegistryFor;
  }

  lemma PollTracks(s: State, plan: Plan, n: nat, t: State, d: nat, poll: Poll)
    requires Steady(s, plan) && TrackAt(s, plan, n, t) && d < |t.deployers| && d < |t.registries|
    requires (poll.FetchFailed? || poll.commit == Acked) && PollStep(t, d, poll).Some?
    ensures var got := PollOne(t.topic, t.registries[d].node, poll).1.Got?;
            (got ==> n == 7) && TrackAt(s, plan, if got then 6 else n, PollStep(t, d, poll).value)
  {
    var m := plan.Msg(s);
    assert !IsEmpty(m);
    var (topic, outcome) := PollOne(t.topic, t.registries[d].node, poll);
    TopicPoll(s.topic, m, n <= 7, n <= 6, t.topic, t.registries[d].node, poll);
    OneRegistryPerNode(s.registries, d, plan.Via(s));
    hide TopicAt, DeletionsAt, PodsAt, ImagesAt, Steady, WorkAt, HistoryAt, PollOne, Close, RegistriesOk, RegistryFor,
      Free;
    if outcome.Got? {
      FreeWhileConsuming(s, plan, n, t, d);
      assert t.deployers[d] == Consuming([]) && [] + [m] == [m];
      hide DeployersAt, TrackAt;
      ReadTracks(s, plan, n, t, topic);
      assert PollStep(t, d, poll).value == SetPhase(t, d, Consuming([m])).(topic := topic);
      assert Held(s, plan, 6) == Some(Consuming([m]));
    } else {
      hide DeployersAt, TrackAt;
      TopicTracks(s, plan, n, t, topic);
      assert PollStep(t, d, poll).value == t.(topic := topic);
    }
  }

  lemma FreeWhileConsuming(s: State, plan: Plan, n: nat, t: State, d: nat)
    requires Steady(s, plan) && TrackAt(s, plan, n, t) && d < |t.deployers| && t.deployers[d].Consuming?
    ensures || t.deployers[d] == Consuming([])
            || (n == 6 && d == plan.Via(s) && t.deployers[d] == Consuming([plan.Msg(s)]))
  {
    hide TopicAt, DeletionsAt, PodsAt, ImagesAt, Steady, WorkAt, HistoryAt, RegistryFor;
  }

  lemma OneRegistryPerNode(registries: seq<RegistryPod>, a: nat, b: nat)
    requires RegistriesOk(registries) && a < |registries| && b < |registries|
    ensures registries[a].node == registries[b].node ==> a == b
  {
  }

  lemma CloseTracks(s: State, plan: Plan, n: nat, t: State, d: nat, failed: bool)
    requires Steady(s, plan) && TrackAt(s, plan, n, t) && d < |t.deployers| && d < |t.registries|
    requires t.deployers[d].Consuming? && (failed ==> t.deployers[d].list == [])
    ensures var list := t.deployers[d].list;
            var u := SetPhase(t, d, if failed then Resting else Deploying(list))
                     .(topic := Close(t.topic, t.registries[d].node));
            (list != [] ==> n == 6) && TrackAt(s, plan, if list != [] then 5 else n, u)
  {
    var topic := Close(t.topic, t.registries[d].node);
    TopicClose(s.topic, plan.Msg(s), n <= 7, n <= 6, t.topic, t.registries[d].node);
    FreeWhileConsuming(s, plan, n, t, d);
    if t.deployers[d].list == [] {
      assert d == plan.Via(s) ==> Held(s, plan, n).None? by { FreeMeansNothingHeld(s, plan, n, t, d); }
      hide TrackAt, Steady, Close;
      FreeTracks(s, plan, n, t, d, if failed then Resting else Deploying([]), topic);
    } else {
      hide TopicAt, TrackAt, Steady, Close, RegistryFor;
      ReadTracks(s, plan, n, t, topic);
    }
  }

  lemma FreeMeansNothingHeld(s: State, plan: Plan, n: nat, t: State, d: nat)
    requires Steady(s, plan) && TrackAt(s, plan, n, t) && d < |t.deployers| && Free(t.deployers[d])
    ensures d == plan.Via(s) ==> Held(s, plan, n).None?
  {
    hide TopicAt, DeletionsAt, PodsAt, ImagesAt, Steady, WorkAt, HistoryAt, RegistryFor;
  }

  // ---------------------------------------------------------------- the hand-off

  /** The deployer of the plan's registry goes from one phase to the next. */
  lemma PhaseTracks(s: State, plan: Plan, n: nat, t: State, u: State)
    requires Steady(s, plan) && TrackAt(s, plan, n, t) && 2 <= n <= 5 && plan.Via(s) < |t.deployers|
    requires u.registries == t.registries && u.migrations == t.migrations && u.work == t.work && u.jobs == t.jobs
    requires u.events == t.events && u.images == t.images && u.topic == t.topic && HistoryAt(s, true, u.history)
    requires |u.deployers| == |t.deployers|
    requires if n == 2 then Free(u.deployers[plan.Via(s)]) else u.deployers[plan.Via(s)] == Held(s, plan, n - 1).value
    requires u.deployers == t.deployers[plan.Via(s) := u.deployers[plan.Via(s)]]
    requires u.processing == map[] && (n <= 4 ==> plan.destinationNamespace in u.namespaces)
    requires PodsAt(s, plan, n <= 3, false, u.pods)
    requires DeletionsAt(s.deletions, Announcement(s, plan), n == 2, false, u.deletions)
    ensures TrackAt(s, plan, n - 1, u)
  {
    hide TopicAt, DeletionsAt, PodsAt, ImagesAt, Steady, Free, HistoryAt, RegistryFor;
  }

  lemma ClaimTracks(s: State, plan: Plan, n: nat, t: State, d: nat)
    requires Steady(s, plan) && TrackAt(s, plan, n, t) && d < |t.deployers| && ClaimStep(t, d).Some?
    ensures n == 5 && TrackAt(s, plan, 4, ClaimStep(t, d).value)
  {
    BusyIs(s, plan, n, t, d);
    DecodePrefixed(plan.podName);
    var m := plan.Msg(s);
    assert KeyOf(m) == plan.podName && n == 5 && d == plan.Via(s);
    assert [m][1..] == [];
    var u := ClaimStep(t, d).value;
    assert u.processing == map[];
    assert HistoryAt(s, true, u.history);
    assert t.pods == u.pods;
    hide TopicAt, DeletionsAt, PodsAt, ImagesAt, Steady, HistoryAt, RegistryFor, WorkAt, DeployersAt, KeyOf, TrackAt;
    PhaseTracks(s, plan, 5, t, u);
  }

  /** A deployer that is not free holds the message of the plan. */
  lemma BusyIs(s: State, plan: Plan, n: nat, t: State, d: nat)
    requires Steady(s, plan) && TrackAt(s, plan, n, t) && d < |t.deployers| && !Free(t.deployers[d])
    ensures d == plan.Via(s) && 2 <= n <= 6 && t.deployers[d] == Held(s, plan, n).value
  {
    hide TopicAt, DeletionsAt, PodsAt, ImagesAt, Steady, WorkAt, HistoryAt, RegistryFor;
  }

  lemma PrepareTracks(s: State, plan: Plan, n: nat, t: State, d: nat, get: bool, create: bool)
    requires Steady(s, plan) && TrackAt(s, plan, n, t) && d < |t.deployers| && PrepareStep(t, d, get, create).Some?
    ensures n == 4 && TrackAt(s, plan, 3, PrepareStep(t, d, get, create).value)
  {
    BusyIs(s, plan, n, t, d);
    assert n == 4;
    var u := PrepareStep(t, d, get, create).value;
    assert plan.destinationNamespace in u.namespaces;
    hide TopicAt, DeletionsAt, PodsAt, ImagesAt, Steady, RegistryFor, WorkAt, DeployersAt, EnsureNamespace;
    assert HistoryAt(s, true, u.history) && u.processing == map[];
    assert PodsAt(s, plan, false, false, u.pods);
    hide TrackAt, HistoryAt;
    PhaseTracks(s, plan, 4, t, u);
  }

  lemma CopyTracks(s: State, plan: Plan, n: nat, t: State, d: nat)
    requires Steady(s, plan) && TrackAt(s, plan, n, t) && d < |t.deployers| && d < |t.registries|
    requires CopyStep(t, d).Some?
    ensures n == 3 && TrackAt(s, plan, 2, CopyStep(t, d).value)
  {
    BusyIs(s, plan, n, t, d);
    assert n == 3;
    var u := CopyStep(t, d).value;
    var copy := CopyOf(t.registries[d], d, plan.Info(), plan.Msg(s), t.images);
    assert copy.containers == [Container(plan.Image(), MemoryIn(s, plan))] && !copy.running;
    CopiedPods(s, plan, t.pods, copy);
    hide TopicAt, DeletionsAt, PodsAt, ImagesAt, Steady, RegistryFor, WorkAt, DeployersAt, CanCreate, CopyOf, KeyOf;
    assert u.pods == t.pods[plan.Copy() := copy];
    assert HistoryAt(s, true, u.history) && u.processing == map[];
    hide TrackAt, HistoryAt;
    PhaseTracks(s, plan, 3, t, u);
  }

  lemma CopiedPods(s: State, plan: Plan, pods: map<PodKey, Pod>, copy: Pod)
    requires Steady(s, plan) && PodsAt(s, plan, false, false, pods)
    requires copy.containers == [Container(plan.Image(), MemoryIn(s, plan))] && copy.node == plan.destinationNode
    requires !copy.running
    ensures PodsAt(s, plan, true, false, pods[plan.Copy() := copy])
  {
    hide SamePod, CanRun, RegistriesOk;
  }

  lemma AnnounceTracks(s: State, plan: Plan, n: nat, t: State, d: nat, to: Option<nat>)
    requires Steady(s, plan) && TrackAt(s, plan, n, t) && d < |t.deployers| && to.Some? && AnnounceStep(t, d, to).Some?
    ensures n == 2 && TrackAt(s, plan, 1, AnnounceStep(t, d, to).value)
  {
    BusyIs(s, plan, n, t, d);
    assert n == 2;
    var u := AnnounceStep(t, d, to).value;
    assert u.deletions == AppendTo(s.deletions, to.value, Announcement(s, plan));
    AnnouncedLogs(s, plan, to.value);
    hide TopicAt, DeletionsAt, PodsAt, ImagesAt, Steady, RegistryFor, WorkAt, DeployersAt, KeyOf, AppendTo,
      DeleteMessage;
    assert HistoryAt(s, true, u.history) && u.processing == map[] && u.deployers[d] == Deploying([]);
    assert PodsAt(s, plan, true, false, u.pods);
    hide TrackAt, HistoryAt;
    PhaseTracks(s, plan, 2, t, u);
  }

  lemma AnnouncedLogs(s: State, plan: Plan, q: nat)
    requires Steady(s, plan) && q < |s.deletions|
    ensures DeletionsAt(s.deletions, Announcement(s, plan), true, false,
                        AppendTo(s.deletions, q, Announcement(s, plan)))
  {
    assert AnnouncedIn(s.deletions, Announcement(s, plan), false, AppendTo(s.deletions, q, Announcement(s, plan)), q);
    hide DeleteMessage, RegistriesOk;
  }

  /** The daemon finds the announcement, and nothing else, and deletes the source, and nothing else. */
  lemma RestoreTracks(s: State, plan: Plan, n: nat, t: State, q: nat, api: RestoreDaemon.Api)
    requires Steady(s, plan) && TrackAt(s, plan, n, t) && api.get && api.delete && RestoreStep(t, q, true, api).Some?
    ensures n == 1 && TrackAt(s, plan, 0, RestoreStep(t, q, true, api).value)
  {
    hide TopicAt, DeletionsAt, PodsAt, ImagesAt, Steady, RegistryFor, RestoreStep, RestoreDaemon.Victim, DeleteMessage,
      RestoreDaemon.Decode, Free;
    RestoreIs(t, q, api);
    RestoreFrame(t, q, true, api);
    OnlyAnnouncement(s, plan, n, t.deletions, q);
    var u := RestoreStep(t, q, true, api).value;
    VictimIsSource(s, plan);
    assert u.pods == t.pods - {plan.Source()};
    RestoredLogs(s, plan, t.deletions, q);
    RestoredPods(s, plan, t.pods);
    assert HistoryAt(s, true, u.history);
  }

  lemma RestoreIs(t: State, q: nat, api: RestoreDaemon.Api)
    requires RestoreStep(t, q, true, api).Some?
    ensures q < |t.deletions| && t.deletions[q].committed < |t.deletions[q].log|
    ensures RestoreStep(t, q, true, api).value.deletions ==
              t.deletions[q := t.deletions[q].(committed := t.deletions[q].committed + 1)]
  {
    RestoreDaemon.ConsumesNext(t.deletions[q], true);
    hide RestoreDaemon.Consume, RestoreDaemon.Victim, RestoreDaemon.Decode;
  }

  lemma OnlyAnnouncement(s: State, plan: Plan, n: nat, deletions: seq<DeleteLog>, q: nat)
    requires Steady(s, plan) && DeletionsAt(s.deletions, Announcement(s, plan), n <= 1, n == 0, deletions)
    requires q < |deletions| && deletions[q].committed < |deletions[q].log|
    ensures n == 1 && |deletions| == |s.deletions|
    ensures AnnouncedIn(s.deletions, Announcement(s, plan), false, deletions, q)
    ensures deletions[q].log[deletions[q].committed] == Announcement(s, plan)
  {
    hide DeleteMessage, RegistriesOk, CanRun;
    assert AllDeleted(s.deletions);
    if n <= 1 { var i: nat :| AnnouncedIn(s.deletions, Announcement(s, plan), n == 0, deletions, i); }
  }

  lemma VictimIsSource(s: State, plan: Plan)
    requires Steady(s, plan)
    ensures RestoreDaemon.Victim(RestoreDaemon.Decode(Announcement(s, plan))) == Some(plan.Source())
  {
    assert s.registries[plan.Via(s)].node != "";
    ValueRoundTrip(plan.namespace, s.registries[plan.Via(s)].node);
    DecodePrefixed(plan.podName);
    hide RegistryFor, CanRun;
  }

  lemma RestoredLogs(s: State, plan: Plan, deletions: seq<DeleteLog>, q: nat)
    requires Steady(s, plan) && |deletions| == |s.deletions|
    requires AnnouncedIn(s.deletions, Announcement(s, plan), false, deletions, q)
    ensures DeletionsAt(s.deletions, Announcement(s, plan), true, true,
                        deletions[q := deletions[q].(committed := deletions[q].committed + 1)])
  {
    hide DeleteMessage, Steady;
    assert AnnouncedIn(s.deletions, Announcement(s, plan), true,
                       deletions[q := deletions[q].(committed := deletions[q].committed + 1)], q);
  }

  lemma RestoredPods(s: State, plan: Plan, pods: map<PodKey, Pod>)
    requires Steady(s, plan) && PodsAt(s, plan, true, false, pods)
    ensures PodsAt(s, plan, true, true, pods - {plan.Source()})
  {
    hide SamePod, CanRun, RegistriesOk;
    assert plan.Copy() != plan.Source() by { assert |plan.Image()| > |plan.podName|; }
  }

  lemma PodStartTracks(s: State, plan: Plan, n: nat, t: State, key: PodKey)
    requires Steady(s, plan) && TrackAt(s, plan, n, t) && key in t.pods
    ensures var started := t.pods[key].(running := true, imageIDs := [t.pods[key].image]);
            TrackAt(s, plan, n, t.(pods := t.pods[key := started]))
  {
    hide TopicAt, DeletionsAt, PodsAt, ImagesAt, Steady, WorkAt, HistoryAt, DeployersAt, Held;
    RestartedPods(s, plan, n <= 2, n == 0, t.pods, key);
  }

  lemma RestartedPods(s: State, plan: Plan, copied: bool, deleted: bool, pods: map<PodKey, Pod>, key: PodKey)
    requires Steady(s, plan) && PodsAt(s, plan, copied, deleted, pods) && key in pods
    ensures PodsAt(s, plan, copied, deleted, pods[key := pods[key].(running := true, imageIDs := [pods[key].image])])
  {
    hide RegistriesOk;
  }

  // ---------------------------------------------------------------- every step

  /** What a fault-free step does to the stage and to the two independent duties. */
  ghost predicate Steps(s: State, plan: Plan, n: nat, t: State, step: Step, u: State)
    requires s.registries != [] && plan.Source() in s.pods && |s.pods[plan.Source()].containers| == 1
  {
    && (MovesPosition(t, step) ==> n > 0)
    && TrackAt(s, plan, if MovesPosition(t, step) then n - 1 else n, u)
    && (EndDue(s, u) <==> EndDue(s, t) && !EndsReconcile(step)) && (EndsReconcile(step) ==> EndDue(s, t))
    && (StartDue(plan, u) <==> StartDue(plan, t) && !StartsCopy(plan, t, step))
  }

  lemma ReconcileSteps(s: State, plan: Plan, n: nat, t: State, r: ReconcileStep)
    requires Steady(s, plan) && TrackAt(s, plan, n, t) && FaultFree(s, plan, t, Reconcile(r))
    requires NextReconcile(t, r).Some?
    ensures Steps(s, plan, n, t, Reconcile(r), NextReconcile(t, r).value)
  {
    hide Steady, ListStep, CheckpointStep, TopicAt, DeletionsAt, PodsAt, ImagesAt, DeployersAt, Held;
    ReconcileFrame(t, r);
    match r
    case Submit(spec) => SubmitTracks(s, plan, n, t, spec);
    case StartReconcile(i) => StartTracks(s, plan, n, t);
    case ListPods(items) => ListTracks(s, plan, n, t, items);
    case Checkpoint(a, stamp) => CheckpointTracks(s, plan, n, t, a, stamp);
    case EndReconcile => EndTracks(s, plan, n, t);
    case _ =>
  }

  lemma BuildSteps(s: State, plan: Plan, n: nat, t: State, b: BuildStep)
    requires Steady(s, plan) && TrackAt(s, plan, n, t) && FaultFree(s, plan, t, Build(b)) && NextBuild(t, b).Some?
    ensures Steps(s, plan, n, t, Build(b), NextBuild(t, b).value)
  {
    hide Steady, TopicAt, DeletionsAt, PodsAt, ImagesAt, DeployersAt, Held, Publish, TheEvent, TheJob;
    match b
    case RunJob(j) => BuildTracks(s, plan, n, t);
    case Upload(j, action, mediaType) =>
      UploadTracks(s, plan, n, t, Event(action, mediaType, PushHost(t.jobs[j].registryIp), t.jobs[j].image));
    case Notify(e, i) => if IsManifestPush(t.events[e]) { NotifyTracks(s, plan, n, t, e, i); }
                         else { PublishesNothing(t, e, i); }
  }

  lemma PublishesNothing(t: State, e: nat, i: nat)
    requires e < |t.events| && !IsManifestPush(t.events[e])
    ensures Publish(t.topic, t.registries, t.events[e], true, i) == t.topic
  {
  }

  lemma DeploySteps(s: State, plan: Plan, n: nat, t: State, d: nat, a: DeployStep)
    requires Steady(s, plan) && TrackAt(s, plan, n, t) && d < |t.deployers| && d < |t.registries|
    requires FaultFree(s, plan, t, Deploy(d, a)) && NextDeploy(t, d, a).Some?
    ensures Steps(s, plan, n, t, Deploy(d, a), NextDeploy(t, d, a).value)
  {
    hide Steady, ClaimStep, PrepareStep, CopyStep, AnnounceStep, PollStep, TrackAt, EndDue, StartDue, PollOne, Close,
      Held;
    DeployKeeps(s, plan, t, d, a);
    match a
    case OpenReader => FreeTurn(s, plan, n, t, d, Consuming([]));
    case EndBatch => FreeTurn(s, plan, n, t, d, Resting);
    case Rebalance(i) => RebalanceTracks(s, plan, n, t, i, t.registries[d].node);
    case PollTopic(poll) => PollTracks(s, plan, n, t, d, poll);
    case CloseReader(failed) => CloseTracks(s, plan, n, t, d, failed);
    case Claim => ClaimTracks(s, plan, n, t, d);
    case Prepare(get, create) => PrepareTracks(s, plan, n, t, d, get, create);
    case CreateCopy => CopyTracks(s, plan, n, t, d);
    case Announce(to) => AnnounceTracks(s, plan, n, t, d, to);
    case Abandon =>
  }

  lemma FreeTurn(s: State, plan: Plan, n: nat, t: State, d: nat, phase: Phase)
    requires Steady(s, plan) && TrackAt(s, plan, n, t) && d < |t.deployers| && Free(t.deployers[d]) && Free(phase)
    ensures TrackAt(s, plan, n, SetPhase(t, d, phase))
  {
    hide Steady, TopicAt, DeletionsAt, PodsAt, ImagesAt, DeployersAt, Held, Free;
    FreeMeansNothingHeld(s, plan, n, t, d);
    FreeTracks(s, plan, n, t, d, phase, t.topic);
  }

  /** Deployers leave the reconcile alone, and the copies they create have not started. */
  lemma DeployKeeps(s: State, plan: Plan, t: State, d: nat, a: DeployStep)
    requires d < |t.deployers| && d < |t.registries| && NextDeploy(t, d, a).Some?
    ensures var u := NextDeploy(t, d, a).value;
            (EndDue(s, u) <==> EndDue(s, t)) && (StartDue(plan, u) <==> StartDue(plan, t))
  {
    hide KeyOf, CopyKey, EnsureNamespace, PollOne, Close, AppendTo, DeleteMessage, ImageLocation;
  }

  lemma RestoreSteps(s: State, plan: Plan, n: nat, t: State, q: nat, api: RestoreDaemon.Api)
    requires Steady(s, plan) && TrackAt(s, plan, n, t) && api.get && api.delete && RestoreStep(t, q, true, api).Some?
    ensures Steps(s, plan, n, t, OfCluster(Restore(q, true, api)), RestoreStep(t, q, true, api).value)
  {
    RestoreTracks(s, plan, n, t, q, api);
    RestoreFrame(t, q, true, api);
    OnlyAnnouncement(s, plan, n, t.deletions, q);
    VictimIsSource(s, plan);
    hide Steady, RestoreStep, TrackAt, AnnouncedIn, RestoreDaemon.Victim, RestoreDaemon.Decode;
    assert plan.Copy() != plan.Source() by { assert |plan.Image()| > |plan.podName|; }
    assert EndDue(s, RestoreStep(t, q, true, api).value) == EndDue(s, t);
    hide EndDue;
  }

  lemma PodStartSteps(s: State, plan: Plan, n: nat, t: State, key: PodKey)
    requires Steady(s, plan) && TrackAt(s, plan, n, t) && key in t.pods && Restorable(t.pods[key])
    ensures Steps(s, plan, n, t, OfCluster(PodStarts(key)), NextCluster(t, PodStarts(key)).value)
  {
    hide Steady, TrackAt, Restorable;
    PodStartTracks(s, plan, n, t, key);
  }

  lemma ClusterSteps(s: State, plan: Plan, n: nat, t: State, c: ClusterStep)
    requires Steady(s, plan) && TrackAt(s, plan, n, t) && FaultFree(s, plan, t, OfCluster(c)) && NextCluster(t, c).Some?
    ensures Steps(s, plan, n, t, OfCluster(c), NextCluster(t, c).value)
  {
    hide Steady, RestoreStep, TrackAt, Steps, Restorable;
    match c
    case Restore(q, commits, api) => RestoreSteps(s, plan, n, t, q, api);
    case PodStarts(key) => PodStartSteps(s, plan, n, t, key);
    case _ =>
  }

  /** One fault-free step, of any party and in any state on the way. */
  lemma StepTracks(s: State, plan: Plan, n: nat, t: State, step: Step)
    requires Steady(s, plan) && TrackAt(s, plan, n, t) && FaultFree(s, plan, t, step) && Next(t, step).Some?
    ensures Steps(s, plan, n, t, step, Next(t, step).value)
  {
    hide Steady, TrackAt, Steps, FaultFree, NextReconcile, NextBuild, NextDeploy, NextCluster;
    match step
    case Reconcile(r) => ReconcileSteps(s, plan, n, t, r);
    case Build(b) => BuildSteps(s, plan, n, t, b);
    case Deploy(d, a) => DeploySteps(s, plan, n, t, d, a);
    case OfCluster(c) => ClusterSteps(s, plan, n, t, c);
  }

  // ---------------------------------------------------------------- the theorems

  /** The stage invariant: everything is as the position says. */
  ghost predicate OnTrack(s: State, plan: Plan, t: State)
    requires s.registries != [] && plan.Source() in s.pods && |s.pods[plan.Source()].containers| == 1
  {
    TrackAt(s, plan, Position(s, plan, t), t)
  }

  lemma Begins(s: State, plan: Plan)
    requires Steady(s, plan)
    ensures OnTrack(s, plan, s) && Stage(s, plan, s) == 15
  {
    assert TrackAt(s, plan, 13, s);
  }

  /** In every state on the way, each fault-free step keeps the invariant; it brings the migration one
      stage further if it is a step of the protocol, and otherwise leaves the stage as it is. */
  lemma StepAdvances(s: State, plan: Plan, t: State, step: Step)
    requires Steady(s, plan) && OnTrack(s, plan, t) && FaultFree(s, plan, t, step) && Next(t, step).Some?
    ensures var u := Next(t, step).value;
            OnTrack(s, plan, u) && Stage(s, plan, t) == Stage(s, plan, u) + One(IsProtocolStep(plan, t, step))
  {
    hide RegistriesOk, CanRun, TrackAt, FaultFree, Next, MovesPosition, EndDue, StartDue, Position;
    var n, u := Position(s, plan, t), Next(t, step).value;
    StepTracks(s, plan, n, t, step);
    PositionIs(s, plan, if MovesPosition(t, step) then n - 1 else n, u);
    OneKindOfStep(plan, t, step);
  }

  lemma OneKindOfStep(plan: Plan, t: State, step: Step)
    ensures !(MovesPosition(t, step) && EndsReconcile(step))
    ensures !(MovesPosition(t, step) && StartsCopy(plan, t, step))
    ensures !(EndsReconcile(step) && StartsCopy(plan, t, step))
    ensures StartsCopy(plan, t, step) ==> StartDue(plan, t)
  {
  }

  /** How many steps of a run are steps of the protocol. */
  ghost function Advances(plan: Plan, t: State, steps: seq<Step>): nat
    decreases steps
  {
    if steps == [] || Next(t, steps[0]).None? then 0
    else One(IsProtocolStep(plan, t, steps[0])) + Advances(plan, Next(t, steps[0]).value, steps[1..])
  }

  /** For every fault-free run, of any length and in any interleaving: it is a run, it stays on track, and
      the stage falls by exactly one with each of its protocol steps, of which there are at most 15. */
  lemma {:induction false} RunAdvances(s: State, plan: Plan, t: State, steps: seq<Step>)
    requires Steady(s, plan) && OnTrack(s, plan, t) && FaultFreeRun(s, plan, t, steps)
    ensures Run(t, steps).Some? && OnTrack(s, plan, Run(t, steps).value)
    ensures Stage(s, plan, t) == Stage(s, plan, Run(t, steps).value) + Advances(plan, t, steps)
    decreases steps
  {
    hide Steady, OnTrack, FaultFree, Next, Stage, IsProtocolStep;
    if steps != [] {
      StepAdvances(s, plan, t, steps[0]);
      RunAdvances(s, plan, Next(t, steps[0]).value, steps[1..]);
    }
  }

  /** The migration is over: the source is gone, its copy runs in the destination namespace and on the
      destination node with the memory that was checkpointed, no other pod has come or gone, the entry
      has left the map, exactly one message went through each topic and has been consumed, and nobody
      has anything in hand. */
  ghost predicate Done(s: State, plan: Plan, t: State)
    requires s.registries != [] && plan.Source() in s.pods && |s.pods[plan.Source()].containers| == 1
  {
    && t.work == Idle && t.processing == map[]
    && (forall d :: 0 <= d < |t.deployers| ==> Free(t.deployers[d]))
    && PodsAt(s, plan, true, true, t.pods) && plan.Copy() in t.pods && CanRun(t.pods[plan.Copy()])
    && TopicAt(s.topic, plan.Msg(s), true, true, t.topic)
    && DeletionsAt(s.deletions, Announcement(s, plan), true, true, t.deletions)
  }

  lemma LastStageIsDone(s: State, plan: Plan, t: State)
    requires Steady(s, plan) && OnTrack(s, plan, t) && Stage(s, plan, t) == 0
    ensures Done(s, plan, t)
  {
    hide TopicAt, DeletionsAt, Steady, Position, ImagesAt, HistoryAt, CanRun, SamePod;
  }

  lemma DoneIsLastStage(s: State, plan: Plan, t: State)
    requires Steady(s, plan) && OnTrack(s, plan, t) && Done(s, plan, t)
    ensures Stage(s, plan, t) == 0
  {
    hide TopicAt, DeletionsAt, RegistriesOk, Position, ImagesAt, HistoryAt, SamePod;
    assert plan.Source() !in t.pods by { assert |plan.Image()| > |plan.podName|; }
    assert Position(s, plan, t) == 0;
  }

  // ---------------------------------------------------------------- nothing gets stuck

  /** A fault-free step of the protocol that can be taken. */
  ghost predicate CanAdvance(s: State, plan: Plan, t: State, step: Step) {
    FaultFree(s, plan, t, step) && Next(t, step).Some? && IsProtocolStep(plan, t, step)
  }

  lemma SubmitEnabled(s: State, plan: Plan, t: State)
    requires Steady(s, plan) && TrackAt(s, plan, 13, t)
    ensures CanAdvance(s, plan, t, Reconcile(Submit(plan.Spec())))
  {
    hide RegistriesOk, CanRun, TopicAt, DeletionsAt, DeployersAt, ImagesAt, SamePod, ValidateMigration;
    var spec := plan.Spec();
    AdmittedIff(spec, ViewOf(t), t.processing);
    assert NamedPods(spec) == {plan.podName};
    assert plan.Source() in t.pods;
    ReconcileNext(t, Submit(spec));
  }

  lemma StartEnabled(s: State, plan: Plan, t: State)
    requires Steady(s, plan) && TrackAt(s, plan, 12, t)
    ensures CanAdvance(s, plan, t, Reconcile(StartReconcile(|s.migrations|)))
  {
    hide RegistriesOk, CanRun, TopicAt, DeletionsAt, DeployersAt, ImagesAt, PodsAt;
    ReconcileNext(t, StartReconcile(|s.migrations|));
  }

  lemma ListEnabled(s: State, plan: Plan, t: State) returns (items: seq<Listed>)
    requires Steady(s, plan) && TrackAt(s, plan, 11, t)
    ensures CanAdvance(s, plan, t, Reconcile(ListPods(items)))
  {
    hide RegistriesOk, CanRun, TopicAt, DeletionsAt, DeployersAt, ImagesAt, SamePod, Select;
    assert plan.Source() in t.pods;
    items := ListingEndingIn(t.pods, plan.Source());
    assert ModeOf(plan.Spec()) == ByPodName;
    assert IsListing(t, plan.Spec(), items);
    ReconcileNext(t, ListPods(items));
  }

  lemma CheckpointEnabled(s: State, plan: Plan, t: State) returns (a: Reconciler.Answers)
    requires Steady(s, plan) && TrackAt(s, plan, 10, t)
    ensures CanAdvance(s, plan, t, Reconcile(Checkpoint(a, "")))
  {
    hide RegistriesOk, CanRun, TopicAt, DeletionsAt, DeployersAt, ImagesAt, KubeletPath, RegistryIP,
      Reconciler.Attempt, JobsOf;
    var container := s.pods[plan.Source()].containers[0].name;
    assert plan.Source() in t.pods && SamePod(s.pods[plan.Source()], t.pods[plan.Source()]);
    assert t.pods[plan.Source()].containers[0].name == container;
    a := Good(plan, t.registries, container);
    assert CanAnswer(t, plan.Spec(), t.work.targets[0], a, "");
    ReconcileNext(t, Checkpoint(a, ""));
  }

  lemma BuildEnabled(s: State, plan: Plan, t: State)
    requires Steady(s, plan) && TrackAt(s, plan, 9, t)
    ensures CanAdvance(s, plan, t, Build(RunJob(|s.jobs|)))
  {
    hide CanRun, TopicAt, DeletionsAt, DeployersAt, ImagesAt, PodsAt, RegistryAt, RegistryFor, PushHost, RegistriesOk;
    RegistryAtItsIP(s.registries, plan.Via(s));
    assert t.jobs[|s.jobs|] == TheJob(s, plan);
    BuildNext(t, RunJob(|s.jobs|));
  }

  lemma NotifyEnabled(s: State, plan: Plan, t: State) returns (e: nat)
    requires Steady(s, plan) && TrackAt(s, plan, 8, t)
    ensures CanAdvance(s, plan, t, Build(Notify(e, 0)))
  {
    TopicShows(s.topic, plan.Msg(s), false, false, t.topic);
    hide CanRun, DeletionsAt, DeployersAt, ImagesAt, PodsAt, RegistriesOk, PushHost;
    assert Arrived(s, t.events);
    e :| |s.events| <= e < |t.events| && IsManifestPush(t.events[e]);
    BuildNext(t, Notify(e, 0));
  }

  lemma HandoffEnabled(s: State, plan: Plan, n: nat, t: State) returns (a: DeployStep)
    requires Steady(s, plan) && TrackAt(s, plan, n, t) && 2 <= n <= 6
    ensures CanAdvance(s, plan, t, Deploy(plan.Via(s), a))
  {
    if n == 5 {
      a := Claim;
      ClaimEnabled(s, plan, t);
    } else if n == 3 {
      a := CreateCopy;
      CopyEnabled(s, plan, t);
    } else {
      a := if n == 6 then CloseReader(false)
           else if n == 4 then PrepareAs(plan, t)
           else Announce(Some(0));
      TurnEnabled(s, plan, n, t, a);
    }
  }

  function PrepareAs(plan: Plan, t: State): DeployStep {
    Prepare(plan.destinationNamespace in t.namespaces, plan.destinationNamespace !in t.namespaces)
  }

  lemma TurnEnabled(s: State, plan: Plan, n: nat, t: State, a: DeployStep)
    requires Steady(s, plan) && TrackAt(s, plan, n, t) && (n == 6 || n == 4 || n == 2)
    requires a == if n == 6 then CloseReader(false) else if n == 4 then PrepareAs(plan, t) else Announce(Some(0))
    ensures CanAdvance(s, plan, t, Deploy(plan.Via(s), a))
  {
    hide RegistriesOk, CanRun, TopicAt, ImagesAt, PodsAt, SamePod, RegistryFor, AppendTo, DeleteMessage, Close, KeyOf,
      EventsAt, HistoryAt;
    var d := plan.Via(s);
    assert t.deployers[d] == Held(s, plan, n).value;
    assert n == 2 ==> |t.deletions| == |s.deletions|;
    ReaderNext(t, d, a);
  }

  lemma ClaimEnabled(s: State, plan: Plan, t: State)
    requires Steady(s, plan) && TrackAt(s, plan, 5, t)
    ensures CanAdvance(s, plan, t, Deploy(plan.Via(s), Claim))
  {
    hide RegistriesOk, CanRun, TopicAt, ImagesAt, PodsAt, DeletionsAt, SamePod, RegistryFor, EventsAt, HistoryAt;
    var d := plan.Via(s);
    assert t.deployers[d] == Held(s, plan, 5).value;
    DecodePrefixed(plan.podName);
    ReaderNext(t, d, Claim);
  }

  lemma CopyEnabled(s: State, plan: Plan, t: State)
    requires Steady(s, plan) && TrackAt(s, plan, 3, t)
    ensures CanAdvance(s, plan, t, Deploy(plan.Via(s), CreateCopy))
  {
    hide RegistriesOk, CanRun, TopicAt, ImagesAt, DeletionsAt, SamePod, RegistryFor, CopyOf, EventsAt, HistoryAt, KeyOf;
    var d := plan.Via(s);
    assert t.deployers[d] == Held(s, plan, 3).value;
    ReaderNext(t, d, CreateCopy);
  }

  lemma RestoreEnabled(s: State, plan: Plan, t: State) returns (q: nat)
    requires Steady(s, plan) && TrackAt(s, plan, 1, t)
    ensures CanAdvance(s, plan, t, OfCluster(Restore(q, true, RestoreDaemon.Api(true, true))))
  {
    hide RegistriesOk, CanRun, TopicAt, DeployersAt, ImagesAt, PodsAt, RestoreDaemon.Consume, RestoreDaemon.Victim;
    q :| AnnouncedIn(s.deletions, Announcement(s, plan), false, t.deletions, q);
    ClusterNext(t, Restore(q, true, RestoreDaemon.Api(true, true)));
  }

  lemma DutyEnabled(s: State, plan: Plan, t: State) returns (step: Step)
    requires Steady(s, plan) && TrackAt(s, plan, 0, t) && (EndDue(s, t) || StartDue(plan, t))
    ensures CanAdvance(s, plan, t, step)
  {
    hide RegistriesOk, CanRun, TopicAt, DeployersAt, ImagesAt, DeletionsAt;
    if EndDue(s, t) {
      step := Reconcile(EndReconcile);
      ReconcileNext(t, EndReconcile);
    } else {
      step := OfCluster(PodStarts(plan.Copy()));
      assert plan.Copy() in t.pods && Restorable(t.pods[plan.Copy()]);
      ClusterNext(t, PodStarts(plan.Copy()));
    }
  }

  // ---------------------------------------------------------------- reading the message

  lemma {:induction false} RunJoins(s: State, plan: Plan, t: State, a: seq<Step>, b: seq<Step>)
    requires FaultFreeRun(s, plan, t, a) && Run(t, a).Some? && FaultFreeRun(s, plan, Run(t, a).value, b)
    ensures FaultFreeRun(s, plan, t, a + b) && Run(t, a + b) == Run(Run(t, a).value, b)
    decreases a
  {
    hide Next, FaultFree;
    if a == [] {
      assert a + b == b;
    } else {
      assert (a + b)[0] == a[0] && (a + b)[1..] == a[1..] + b;
      RunJoins(s, plan, Next(t, a[0]).value, a[1..], b);
    }
  }

  lemma OneStepRun(s: State, plan: Plan, t: State, step: Step)
    requires FaultFree(s, plan, t, step) && Next(t, step).Some?
    ensures FaultFreeRun(s, plan, t, [step]) && Run(t, [step]) == Next(t, step)
  {
    hide Next, FaultFree;
    assert [step][1..] == [];
  }

  /** The deployer of the plan's registry can always be brought to its consume loop, in two turns. */
  lemma ReaderOpens(s: State, plan: Plan, t: State) returns (steps: seq<Step>, u: State)
    requires Steady(s, plan) && TrackAt(s, plan, 7, t)
    ensures |steps| <= 2 && FaultFreeRun(s, plan, t, steps) && Run(t, steps) == Some(u)
    ensures TrackAt(s, plan, 7, u) && u.deployers[plan.Via(s)] == Consuming([])
    ensures u.jobs == t.jobs && u.work == t.work && u.pods == t.pods
  {
    hide RegistriesOk, CanRun, TopicAt, ImagesAt, PodsAt, DeletionsAt, RegistryFor, WorkAt, HistoryAt, Next, Run;
    var d := plan.Via(s);
    assert Free(t.deployers[d]);
    if t.deployers[d] == Consuming([]) {
      steps, u := [], t;
      assert Run(t, []) == Some(t) by { RunNothing(t); }
    } else {
      var v, front := t, [];
      assert Run(t, []) == Some(t) by { RunNothing(t); }
      if t.deployers[d] == Deploying([]) {
        ReaderNext(t, d, EndBatch);
        v, front := SetPhase(t, d, Resting), [Deploy(d, EndBatch)];
        FreeTurn(s, plan, 7, t, d, Resting);
        OneStepRun(s, plan, t, front[0]);
      }
      ReaderNext(v, d, OpenReader);
      u := SetPhase(v, d, Consuming([]));
      FreeTurn(s, plan, 7, v, d, Consuming([]));
      OneStepRun(s, plan, v, Deploy(d, OpenReader));
      RunJoins(s, plan, t, front, [Deploy(d, OpenReader)]);
      steps := front + [Deploy(d, OpenReader)];
    }
  }

  lemma RunNothing(t: State)
    ensures Run(t, []) == Some(t)
  {
  }

  /** From there, it takes over the partition with the message and polls. */
  lemma ReaderReads(s: State, plan: Plan, t: State) returns (steps: seq<Step>, u: State)
    requires Steady(s, plan) && TrackAt(s, plan, 7, t) && t.deployers[plan.Via(s)] == Consuming([])
    ensures |steps| == 2 && FaultFreeRun(s, plan, t, steps) && Run(t, steps) == Some(u)
    ensures TrackAt(s, plan, 6, u) && u.jobs == t.jobs && u.work == t.work && u.pods == t.pods
  {
    hide RegistriesOk, CanRun, ImagesAt, PodsAt, DeletionsAt, RegistryFor, WorkAt, HistoryAt, DeployersAt, Next, Run,
      PollOne, Close, Held;
    var d := plan.Via(s);
    var node := t.registries[d].node;
    var i: nat :| PublishedIn(s.topic, plan.Msg(s), false, t.topic, i);
    ReaderNext(t, d, Rebalance(i));
    var v := t.(topic := t.topic[i := Assign(t.topic[i], node)]);
    RebalanceTracks(s, plan, 7, t, i, node);
    OneStepRun(s, plan, t, Deploy(d, Rebalance(i)));
    var poll := FetchedFrom(i, Acked);
    MessageNotEmpty(s, plan);
    MessageIsNext(t.topic[i], node, plan.Msg(s));
    PollGets(v.topic, node, i, plan.Msg(s));
    PollTracks(s, plan, 7, v, d, poll);
    ReaderNext(v, d, PollTopic(poll));
    u := PollStep(v, d, poll).value;
    OneStepRun(s, plan, v, Deploy(d, PollTopic(poll)));
    steps := [Deploy(d, Rebalance(i))] + [Deploy(d, PollTopic(poll))];
    RunJoins(s, plan, t, [Deploy(d, Rebalance(i))], [Deploy(d, PollTopic(poll))]);
  }

  lemma MessageNotEmpty(s: State, plan: Plan)
    requires Steady(s, plan)
    ensures !IsEmpty(plan.Msg(s))
  {
    hide RegistryFor, CanRun;
  }

  lemma MessageIsNext(p: Partition, node: string, m: Message)
    requires p.log != [] && p.Committed() == |p.log| - 1 && p.log[|p.log| - 1] == m && m.key == node && !IsEmpty(m)
    ensures var q := Assign(p, node); CanFetch(q) && q.reader.node == node && Fetch(q, Acked).1 == Got(m)
  {
  }

  lemma PollGets(topic: seq<Partition>, node: string, i: nat, m: Message)
    requires i < |topic| && ReadyFor(topic[i], node) && Fetch(topic[i], Acked).1 == Got(m)
    ensures PollOne(topic, node, FetchedFrom(i, Acked)).1 == Got(m)
  {
    hide Fetch;
  }

  /** The migration never gets stuck: as long as it is not over, at most four fault-free steps bring it
      one stage further, in whatever state the parties are. */
  lemma NeverStuck(s: State, plan: Plan, t: State) returns (steps: seq<Step>)
    requires Steady(s, plan) && OnTrack(s, plan, t) && Stage(s, plan, t) > 0
    ensures |steps| <= 4 && FaultFreeRun(s, plan, t, steps) && Run(t, steps).Some?
    ensures OnTrack(s, plan, Run(t, steps).value)
    ensures Stage(s, plan, Run(t, steps).value) == Stage(s, plan, t) - 1
  {
    hide RegistriesOk, CanRun, TrackAt, Position, EndDue, StartDue, FaultFree, IsProtocolStep, Next, Run;
    var n := Position(s, plan, t);
    if n == 7 {
      steps := MessageIsRead(s, plan, t);
    } else {
      var step := AdvancingStep(s, plan, n, t);
      StepAdvances(s, plan, t, step);
      OneStepRun(s, plan, t, step);
      steps := [step];
    }
  }

  lemma AdvancingStep(s: State, plan: Plan, n: nat, t: State) returns (step: Step)
    requires Steady(s, plan) && TrackAt(s, plan, n, t) && n != 7 && (n == 0 ==> EndDue(s, t) || StartDue(plan, t))
    ensures CanAdvance(s, plan, t, step)
  {
    assert n <= 13;
    hide Steady, TrackAt, CanAdvance, EndDue, StartDue;
    if n == 13 {
      step := Reconcile(Submit(plan.Spec()));
      SubmitEnabled(s, plan, t);
    } else if n == 12 {
      step := Reconcile(StartReconcile(|s.migrations|));
      StartEnabled(s, plan, t);
    } else if n == 11 {
      var items := ListEnabled(s, plan, t);
      step := Reconcile(ListPods(items));
    } else if n == 10 {
      var a := CheckpointEnabled(s, plan, t);
      step := Reconcile(Checkpoint(a, ""));
    } else if n == 9 {
      step := Build(RunJob(|s.jobs|));
      BuildEnabled(s, plan, t);
    } else if n == 8 {
      var e := NotifyEnabled(s, plan, t);
      step := Build(Notify(e, 0));
    } else if n >= 2 {
      var a := HandoffEnabled(s, plan, n, t);
      step := Deploy(plan.Via(s), a);
    } else if n == 1 {
      var q := RestoreEnabled(s, plan, t);
      step := OfCluster(Restore(q, true, RestoreDaemon.Api(true, true)));
    } else {
      step := DutyEnabled(s, plan, t);
    }
  }

  lemma SameDuties(s: State, plan: Plan, t: State, u: State)
    requires u.jobs == t.jobs && u.work == t.work && u.pods == t.pods
    ensures EndDue(s, u) == EndDue(s, t) && StartDue(plan, u) == StartDue(plan, t)
  {
  }

  lemma MessageIsRead(s: State, plan: Plan, t: State) returns (steps: seq<Step>)
    requires Steady(s, plan) && OnTrack(s, plan, t) && Position(s, plan, t) == 7
    ensures |steps| <= 4 && FaultFreeRun(s, plan, t, steps) && Run(t, steps).Some?
    ensures OnTrack(s, plan, Run(t, steps).value)
    ensures Stage(s, plan, Run(t, steps).value) == Stage(s, plan, t) - 1
  {
    hide RegistriesOk, CanRun, TrackAt, Position, EndDue, StartDue, FaultFree, IsProtocolStep, Next, Run, Free;
    var front, u := ReaderOpens(s, plan, t);
    var back, v := ReaderReads(s, plan, u);
    RunJoins(s, plan, t, front, back);
    steps := front + back;
    RunAdvances(s, plan, t, steps);
    PositionIs(s, plan, 6, v);
    SameDuties(s, plan, t, v);
  }

  /** Completion: after any fault-free run whatever, some fault-free continuation, of at most four steps
      for each stage that is left, ends the migration. */
  lemma {:induction false} CanStillComplete(s: State, plan: Plan, t: State) returns (steps: seq<Step>)
    requires Steady(s, plan) && OnTrack(s, plan, t)
    ensures |steps| <= 4 * Stage(s, plan, t) && FaultFreeRun(s, plan, t, steps) && Run(t, steps).Some?
    ensures Stage(s, plan, Run(t, steps).value) == 0 && Done(s, plan, Run(t, steps).value)
    decreases Stage(s, plan, t)
  {
    hide RegistriesOk, CanRun, OnTrack, Stage, FaultFreeRun, Next, Run, Done;
    if Stage(s, plan, t) == 0 {
      steps := [];
      EmptyRun(s, plan, t);
      LastStageIsDone(s, plan, t);
    } else {
      var first := NeverStuck(s, plan, t);
      var u := Run(t, first).value;
      var rest := CanStillComplete(s, plan, u);
      RunJoins(s, plan, t, first, rest);
      steps := first + rest;
    }
  }

  lemma EmptyRun(s: State, plan: Plan, t: State)
    ensures FaultFreeRun(s, plan, t, []) && Run(t, []) == Some(t)
  {
  }

  /** The two results together, from the beginning: every fault-free run has taken 15 steps of the
      protocol exactly when the migration is over, and until then it can be carried on to its end. */
  lemma FaultFreeRunsComplete(s: State, plan: Plan, steps: seq<Step>) returns (more: seq<Step>)
    requires Steady(s, plan) && FaultFreeRun(s, plan, s, steps)
    ensures Run(s, steps).Some? && OnTrack(s, plan, Run(s, steps).value)
    ensures Stage(s, plan, Run(s, steps).value) == 15 - Advances(plan, s, steps)
    ensures Advances(plan, s, steps) == 15 <==> Done(s, plan, Run(s, steps).value)
    ensures FaultFreeRun(s, plan, s, steps + more) && Run(s, steps + more).Some?
    ensures Done(s, plan, Run(s, steps + more).value)
  {
    hide RegistriesOk, CanRun, OnTrack, Stage, FaultFreeRun, Next, Run, Done, Advances;
    Begins(s, plan);
    RunAdvances(s, plan, s, steps);
    var t := Run(s, steps).value;
    if Stage(s, plan, t) == 0 { LastStageIsDone(s, plan, t); }
    if Done(s, plan, t) { DoneIsLastStage(s, plan, t); }
    more := CanStillComplete(s, plan, t);
    RunJoins(s, plan, s, steps, more);
  }
}
