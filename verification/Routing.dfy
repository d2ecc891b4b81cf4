/** Where messages and images go in the whole system: through any run, every event, message and copy is
    about an image that the registry it names really holds. */
module Routing {
  import opened Handoff
  import opened Kafka
  import opened Migrations
  import opened Protocol
  import opened Registry
  import opened Trail
  import opened Wrappers

  /** One registry pod per node, with IPv4 addresses of their own. */
  predicate RegistriesOk(registries: seq<RegistryPod>) {
    ValidRegistries(registries) && forall i :: 0 <= i < |registries| ==> ':' !in registries[i].podIP
  }

  /** Every event that tells of a manifest comes from a registry that holds the image it names. */
  predicate EventBacked(registries: seq<RegistryPod>, images: Images, e: Event) {
    e.action == Push && (e.mediaType == OciManifest || e.mediaType == DockerManifest) ==>
      exists r :: 0 <= r < |registries| && e.host == PushHost(registries[r].podIP) && (r, e.repository) in images
  }

  predicate EventsBacked(registries: seq<RegistryPod>, images: Images, events: seq<Event>) {
    forall i :: 0 <= i < |events| ==> EventBacked(registries, images, events[i])
  }

  /** Every message is keyed with the node of a registry that holds the image it names. */
  predicate MessageBacked(registries: seq<RegistryPod>, images: Images, m: Message) {
    exists r :: 0 <= r < |registries| && m.key == registries[r].node && (r, m.value) in images
  }

  predicate TopicBacked(registries: seq<RegistryPod>, images: Images, topic: seq<Partition>) {
    forall i :: 0 <= i < |topic| ==> forall m :: m in topic[i].log ==> MessageBacked(registries, images, m)
  }

  /** A deployer works only on messages for its own node, and its own registry holds their images. */
  predicate PhaseBacked(registries: seq<RegistryPod>, images: Images, d: nat, phase: Phase) {
    forall m :: m in HeldBy(phase) ==> d < |registries| && m.key == registries[d].node && (d, m.value) in images
  }

  predicate PhasesBacked(registries: seq<RegistryPod>, images: Images, deployers: seq<Phase>) {
    forall d :: 0 <= d < |deployers| ==> PhaseBacked(registries, images, d, deployers[d])
  }

  /** The image reference of a copy names the registry on the node that its message was for, and that
      registry holds the image of the copy's name. */
  ghost predicate CopyBacked(registries: seq<RegistryPod>, images: Images, e: Effect) {
    e.Copied? ==>
      exists r :: 0 <= r < |registries| && registries[r].node == e.via
                  && e.image == ImageLocation(registries[r], e.at.name) && (r, e.at.name) in images
  }

  ghost predicate CopiesBacked(registries: seq<RegistryPod>, images: Images, h: seq<Effect>) {
    forall i :: 0 <= i < |h| ==> CopyBacked(registries, images, h[i])
  }

  ghost predicate Routed(s: State) {
    && RegistriesOk(s.registries)
    && EventsBacked(s.registries, s.images, s.events) && TopicBacked(s.registries, s.images, s.topic)
    && PhasesBacked(s.registries, s.images, s.deployers) && CopiesBacked(s.registries, s.images, s.history)
  }

  // ---------------------------------------------------------------- one step

  lemma RoutedReconcile(s: State, r: ReconcileStep)
    requires Routed(s) && NextReconcile(s, r).Some?
    ensures Routed(NextReconcile(s, r).value)
  {
    hide CheckpointStep, ListStep, Routed, Fill;
    ReconcileFrame(s, r);
    match r
    case FetchFails => RoutedFill(s, "", InfoOf(ZERO_SPEC, ""));
    case StartReconcile(i) =>
      var spec := s.migrations[i];
      RoutedFill(s, spec.podName, InfoOf(spec, spec.deployment));
      SameRouted(Fill(s, spec.podName, InfoOf(spec, spec.deployment)), NextReconcile(s, r).value);
    case FillNext =>
      RoutedFill(s, s.work.fills[0], InfoOf(s.work.spec, ""));
      SameRouted(Fill(s, s.work.fills[0], InfoOf(s.work.spec, "")), NextReconcile(s, r).value);
    case _ => SameRouted(s, NextReconcile(s, r).value);
  }

  lemma SameRouted(s: State, t: State)
    requires Routed(s) && t.registries == s.registries && t.images == s.images && t.events == s.events
    requires t.topic == s.topic && t.deployers == s.deployers && t.history == s.history
    ensures Routed(t)
  {
  }

  lemma RoutedFill(s: State, key: string, info: MigrationInfo)
    requires Routed(s)
    ensures Routed(Fill(s, key, info))
  {
  }

  lemma RoutedBuild(s: State, b: BuildStep)
    requires Routed(s) && NextBuild(s, b).Some?
    ensures Routed(NextBuild(s, b).value)
  {
    hide Routed, RunBuild;
    match b
    case RunJob(j) => RoutedJob(s, j);
    case Upload(j, action, mediaType) => RoutedUpload(s, j, action, mediaType);
    case Notify(e, i) => RoutedNotify(s, e, i);
  }

  lemma RoutedJob(s: State, j: nat)
    requires j < |s.jobs| && Routed(s) && RunBuild(s, j).Some?
    ensures Routed(RunBuild(s, j).value)
  {
  }

  /** Until the manifest arrives, a registry's events are about images that need not be there. */
  lemma RoutedUpload(s: State, j: nat, action: Action, mediaType: MediaType)
    requires j < |s.jobs| && Routed(s) && UploadPart(s, j, action, mediaType).Some?
    ensures Routed(UploadPart(s, j, action, mediaType).value)
  {
    hide TopicBacked, PhasesBacked, CopiesBacked, RegistriesOk, PushHost;
  }

  lemma RoutedNotify(s: State, e: nat, i: nat)
    requires Routed(s) && e < |s.events|
    ensures Routed(s.(topic := Publish(s.topic, s.registries, s.events[e], true, i)))
  {
    PublishBacked(s.registries, s.images, s.topic, s.events[e], i);
    hide TopicBacked, EventBacked, PhasesBacked, CopiesBacked, Publish;
  }

  /** The event of a push becomes a message for the node of the registry that holds the image. */
  lemma PublishBacked(registries: seq<RegistryPod>, images: Images, topic: seq<Partition>, e: Event, i: nat)
    requires RegistriesOk(registries) && EventBacked(registries, images, e) && TopicBacked(registries, images, topic)
    ensures TopicBacked(registries, images, Publish(topic, registries, e, true, i))
  {
    hide NodeOfEvent, PushHost;
    if IsManifestPush(e) { ManifestBacked(registries, images, topic, e, i); }
  }

  lemma ManifestBacked(registries: seq<RegistryPod>, images: Images, topic: seq<Partition>, e: Event, i: nat)
    requires RegistriesOk(registries) && EventBacked(registries, images, e) && TopicBacked(registries, images, topic)
    requires IsManifestPush(e)
    ensures TopicBacked(registries, images, Publish(topic, registries, e, true, i))
  {
    hide NodeOfEvent, PushHost;
    var r :| 0 <= r < |registries| && e.host == PushHost(registries[r].podIP) && (r, e.repository) in images;
    EventNamesItsNodeIff(registries, r, e);
    var m := Message(NodeOfEvent(registries, e), e.repository);
    assert MessageBacked(registries, images, m);
    hide MessageBacked, RegistriesOk;
    if i < |topic| {
      assert Produce(topic[i], m).log == topic[i].log + [m];
      assert forall x :: x in topic[i].log + [m] ==> MessageBacked(registries, images, x);
    }
  }

  /** Messages keyed with a node are about images of the one registry on that node. */
  lemma PollBacked(registries: seq<RegistryPod>, images: Images, topic: seq<Partition>, d: nat, poll: Poll)
    requires RegistriesOk(registries) && d < |registries| && TopicBacked(registries, images, topic)
    ensures var (next, outcome) := PollOne(topic, registries[d].node, poll);
            TopicBacked(registries, images, next) && (outcome.Got? ==> (d, outcome.message.value) in images)
  {
    var (next, outcome) := PollOne(topic, registries[d].node, poll);
    if outcome.Got? {
      var m := outcome.message;
      assert m in topic[poll.partition].log && m.key == registries[d].node;
      assert MessageBacked(registries, images, m);
      var r :| 0 <= r < |registries| && m.key == registries[r].node && (r, m.value) in images;
      assert forall i :: 0 <= i < |registries| && registries[i].node == registries[d].node ==> i == d;
    }
    hide MessageBacked;
  }

  /** A deployer moves to a phase in which it holds no more than before. */
  lemma MoveRouted(s: State, t: State, d: nat, phase: Phase)
    requires Routed(s) && d < |s.deployers|
    requires t.registries == s.registries && t.images == s.images && t.events == s.events
    requires t.deployers == s.deployers[d := phase] && PhaseBacked(s.registries, s.images, d, phase)
    requires TopicBacked(s.registries, s.images, t.topic) && CopiesBacked(s.registries, s.images, t.history)
    ensures Routed(t)
  {
  }

  lemma RoutedDeploy(s: State, d: nat, a: DeployStep)
    requires d < |s.deployers| && d < |s.registries| && Routed(s) && NextDeploy(s, d, a).Some?
    ensures Routed(NextDeploy(s, d, a).value)
  {
    hide Routed, ClaimStep, PrepareStep, CopyStep, AnnounceStep, PollStep;
    match a
    case PollTopic(poll) => RoutedPoll(s, d, poll);
    case Claim => RoutedClaim(s, d);
    case Prepare(get, create) => RoutedPrepare(s, d, get, create);
    case CreateCopy => RoutedCopy(s, d);
    case Announce(to) => RoutedAnnounce(s, d, to);
    case Abandon => RoutedAbandon(s, d);
    case _ => RoutedReader(s, d, a);
  }

  lemma RoutedReader(s: State, d: nat, a: DeployStep)
    requires d < |s.deployers| && d < |s.registries| && (a.OpenReader? || a.Rebalance? || a.CloseReader? || a.EndBatch?)
    requires Routed(s) && NextDeploy(s, d, a).Some?
    ensures Routed(NextDeploy(s, d, a).value)
  {
    var t := NextDeploy(s, d, a).value;
    hide MessageBacked, RegistriesOk, EventsBacked, CopiesBacked;
    assert PhaseBacked(s.registries, s.images, d, s.deployers[d]);
    assert TopicBacked(s.registries, s.images, t.topic);
    assert PhaseBacked(s.registries, s.images, d, t.deployers[d]);
    hide TopicBacked, PhaseBacked, Routed;
    MoveRouted(s, t, d, t.deployers[d]);
  }

  lemma RoutedPoll(s: State, d: nat, poll: Poll)
    requires d < |s.deployers| && d < |s.registries| && Routed(s) && PollStep(s, d, poll).Some?
    ensures Routed(PollStep(s, d, poll).value)
  {
    var t := PollStep(s, d, poll).value;
    PollBacked(s.registries, s.images, s.topic, d, poll);
    assert PhaseBacked(s.registries, s.images, d, s.deployers[d]);
    assert HeldBy(s.deployers[d]) == s.deployers[d].list;
    hide PollOne, MessageBacked, RegistriesOk, EventsBacked, CopiesBacked;
    assert TopicBacked(s.registries, s.images, t.topic);
    assert PhaseBacked(s.registries, s.images, d, t.deployers[d]);
    hide TopicBacked, PhaseBacked, Routed;
    MoveRouted(s, t, d, t.deployers[d]);
  }

  lemma FewerBacked(registries: seq<RegistryPod>, images: Images, d: nat, a: Phase, b: Phase)
    requires PhaseBacked(registries, images, d, a) && forall m :: m in HeldBy(b) ==> m in HeldBy(a)
    ensures PhaseBacked(registries, images, d, b)
  {
  }

  lemma RoutedClaim(s: State, d: nat)
    requires d < |s.deployers| && Routed(s) && ClaimStep(s, d).Some?
    ensures Routed(ClaimStep(s, d).value)
  {
    hide KeyOf, CopyBacked;
    var t := ClaimStep(s, d).value;
    var rest := s.deployers[d].rest;
    assert PhaseBacked(s.registries, s.images, d, s.deployers[d]);
    assert rest == [rest[0]] + rest[1..];
    FewerBacked(s.registries, s.images, d, s.deployers[d], t.deployers[d]);
    if t.history != s.history { OtherEffectBacked(s.registries, s.images, s.history, t.history[|s.history|]); }
    hide PhaseBacked, Routed;
    MoveRouted(s, t, d, t.deployers[d]);
  }

  lemma OtherEffectBacked(registries: seq<RegistryPod>, images: Images, h: seq<Effect>, e: Effect)
    requires CopiesBacked(registries, images, h) && !e.Copied?
    ensures CopiesBacked(registries, images, h + [e])
  {
  }

  lemma RoutedAbandon(s: State, d: nat)
    requires d < |s.deployers| && d < |s.registries| && Routed(s) && NextDeploy(s, d, Abandon).Some?
    ensures Routed(NextDeploy(s, d, Abandon).value)
  {
    hide KeyOf, CopyBacked, RegistriesOk, EventsBacked, MessageBacked;
    var t := NextDeploy(s, d, Abandon).value;
    assert t.deployers == s.deployers[d := Resting];
    OtherEffectBacked(s.registries, s.images, s.history, t.history[|s.history|]);
    assert PhaseBacked(s.registries, s.images, d, Resting);
    hide Routed, TopicBacked;
    MoveRouted(s, t, d, Resting);
  }

  lemma RoutedPrepare(s: State, d: nat, get: bool, create: bool)
    requires d < |s.deployers| && Routed(s) && PrepareStep(s, d, get, create).Some?
    ensures Routed(PrepareStep(s, d, get, create).value)
  {
    hide CopyBacked, RegistriesOk, EventsBacked, MessageBacked, EnsureNamespace;
    var t := PrepareStep(s, d, get, create).value;
    assert PhaseBacked(s.registries, s.images, d, s.deployers[d]);
    FewerBacked(s.registries, s.images, d, s.deployers[d], t.deployers[d]);
    hide Routed, TopicBacked, PhaseBacked;
    MoveRouted(s, t, d, t.deployers[d]);
  }

  lemma RoutedCopy(s: State, d: nat)
    requires d < |s.deployers| && d < |s.registries| && Routed(s) && CopyStep(s, d).Some?
    ensures Routed(CopyStep(s, d).value)
  {
  }

  lemma RoutedAnnounce(s: State, d: nat, to: Option<nat>)
    requires d < |s.deployers| && Routed(s) && AnnounceStep(s, d, to).Some?
    ensures Routed(AnnounceStep(s, d, to).value)
  {
    hide KeyOf, CopyBacked, DeleteMessage, AppendTo;
    var t := AnnounceStep(s, d, to).value;
    var phase := s.deployers[d];
    assert PhaseBacked(s.registries, s.images, d, phase);
    assert HeldBy(phase) == [phase.msg] + phase.rest;
    assert forall m :: m in phase.rest ==> m in HeldBy(phase);
    FewerBacked(s.registries, s.images, d, phase, t.deployers[d]);
    OtherEffectBacked(s.registries, s.images, s.history, t.history[|s.history|]);
    MoveRouted(s, t, d, t.deployers[d]);
    hide Routed, PhaseBacked;
  }

  lemma RoutedCluster(s: State, c: ClusterStep)
    requires Routed(s) && NextCluster(s, c).Some?
    ensures Routed(NextCluster(s, c).value)
  {
  }

  lemma RoutedStep(s: State, step: Step)
    requires Routed(s) && Next(s, step).Some?
    ensures Routed(Next(s, step).value)
  {
    hide Routed, NextReconcile, NextBuild, NextDeploy, NextCluster;
    match step
    case Reconcile(r) => RoutedReconcile(s, r);
    case Build(b) => RoutedBuild(s, b);
    case Deploy(d, a) => RoutedDeploy(s, d, a);
    case OfCluster(c) => RoutedCluster(s, c);
  }

  lemma {:induction false} RunRouted(s: State, steps: seq<Step>)
    requires Routed(s) && Run(s, steps).Some?
    ensures Routed(Run(s, steps).value)
    decreases steps
  {
    hide Routed, Next;
    if steps != [] {
      RoutedStep(s, steps[0]);
      RunRouted(Next(s, steps[0]).value, steps[1..]);
    }
  }

  // ---------------------------------------------------------------- the theorems

  lemma InitRouted(s: State)
    requires Init(s) && RegistriesOk(s.registries)
    ensures Routed(s)
  {
  }

  /** Image routing, in every run: every copy refers to its image at the address of a registry into
      which exactly that image has been pushed, though no part of the protocol sends the registry's
      address along. */
  lemma EveryCopyFindsItsImage(s: State, steps: seq<Step>)
    requires Init(s) && RegistriesOk(s.registries) && Run(s, steps).Some?
    ensures var t := Run(s, steps).value; CopiesBacked(t.registries, t.images, t.history)
  {
    InitRouted(s);
    RunRouted(s, steps);
    hide CopiesBacked, RegistriesOk, Run;
  }

  /** What resolving the image reference of a copy leads to: the registry that answers at its host, on the
      node its message was for, and there an image that has been pushed under the copy's own name. */
  ghost predicate CopyPulls(registries: seq<RegistryPod>, images: Images, e: Effect) {
    e.Copied? ==>
      var r := RegistryServing(registries, HostOf(e.image));
      && r < |registries| && registries[r].node == e.via
      && RepositoryOf(e.image) == e.at.name && TagOf(e.image) == "latest"
      && (r, RepositoryOf(e.image)) in images
  }

  lemma BackedPulls(registries: seq<RegistryPod>, images: Images, e: Effect)
    requires RegistriesOk(registries) && Pullable(registries) && CopyBacked(registries, images, e)
    ensures CopyPulls(registries, images, e)
  {
    hide RegistriesOk, Pullable, HostOf, RepositoryOf, TagOf, ImageLocation, RegistryServing;
    if e.Copied? {
      var r :| 0 <= r < |registries| && registries[r].node == e.via
               && e.image == ImageLocation(registries[r], e.at.name) && (r, e.at.name) in images;
      PullLeadsBack(registries, r, e.at.name);
    }
  }

  /** In every run, the image reference of every copy, taken apart at its first '/' and its last ':', names
      the copy's own checkpoint by its tag latest, in the registry on the node of its message. */
  lemma EveryCopyPullsItsImage(s: State, steps: seq<Step>)
    requires Init(s) && RegistriesOk(s.registries) && Pullable(s.registries) && Run(s, steps).Some?
    ensures var t := Run(s, steps).value;
            && t.registries == s.registries
            && forall i :: 0 <= i < |t.history| ==> CopyPulls(t.registries, t.images, t.history[i])
  {
    EveryCopyFindsItsImage(s, steps);
    var t := Run(s, steps).value;
    InitRouted(s);
    RunRouted(s, steps);
    RunKeepsRegistries(s, steps);
    hide Run, CopyPulls, CopyBacked, RegistriesOk, Pullable, Init;
    forall i | 0 <= i < |t.history| ensures CopyPulls(t.registries, t.images, t.history[i]) {
      BackedPulls(t.registries, t.images, t.history[i]);
    }
  }

  lemma StepKeepsRegistries(s: State, step: Step)
    requires Next(s, step).Some?
    ensures Next(s, step).value.registries == s.registries
  {
    hide NextReconcile, NextBuild, NextDeploy, NextCluster;
    match step
    case Reconcile(r) => ReconcileFrame(s, r);
    case Build(b) => BuildFrame(s, b);
    case Deploy(d, a) => DeployFrame(s, d, a);
    case OfCluster(c) => ClusterFrame(s, c);
  }

  lemma {:induction false} RunKeepsRegistries(s: State, steps: seq<Step>)
    requires Run(s, steps).Some?
    ensures Run(s, steps).value.registries == s.registries
    decreases steps
  {
    hide Next;
    if steps != [] {
      StepKeepsRegistries(s, steps[0]);
      RunKeepsRegistries(Next(s, steps[0]).value, steps[1..]);
    }
  }
}
