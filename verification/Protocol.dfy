/** The whole migration hand-off as a state machine. Webhook, reconciler, build jobs, registries,
    event handler, one deployer per registry pod and the restore daemon step independently, in any
    order; every choice the outside world makes is a parameter of a step. */
module Protocol {
  import opened Handoff
  import opened Kafka
  import opened Migrations
  import opened Names
  import opened Registry
  import opened Selection
  import opened Webhook
  import opened Wrappers
  import Reconciler
  import RestoreDaemon

  /** What the (single) migration reconciler is doing. fills are the pods of a deployment that are
      still to be entered into ProcessPodsMap before the first checkpoint. */
  datatype Work =
    | Idle
    | Listing(spec: MigrationSpec)
    | Working(spec: MigrationSpec, fills: seq<string>, targets: seq<Reconciler.Target>)

  /** A build job: it pushes the checkpoint of one container, under the name of its pod, to an address. */
  datatype Job = Job(image: string, registryIp: string, memory: Option<Workload>)

  /** Where the deployer of one registry pod is in DeployPodOnNewNode. */
  datatype Phase =
    | Resting
    | Consuming(list: seq<Message>)
    | Deploying(rest: seq<Message>)
    | Claimed(info: MigrationInfo, msg: Message, rest: seq<Message>)
    | Prepared(info: MigrationInfo, msg: Message, rest: seq<Message>)
    | CopyMade(info: MigrationInfo, msg: Message, rest: seq<Message>)

  /** What has happened, for stating properties of runs. */
  datatype Effect =
    | Filled(key: string, info: MigrationInfo)
    | Overwritten(key: string)
    | Taken(key: string, info: MigrationInfo)
    | Dropped(key: string)
    | Copied(key: string, via: string, at: PodKey, node: string, image: string)
    | Announced(key: string, namespace: string)
    | Unannounced(key: string)
    | Deleted(at: PodKey)

  datatype State = State(
    registries: seq<RegistryPod>,
    deployments: set<PodKey>,
    pods: map<PodKey, Pod>,
    namespaces: set<string>,
    migrations: seq<MigrationSpec>,
    processing: map<string, MigrationInfo>,
    work: Work,
    jobs: seq<Job>,
    images: Images,
    events: seq<Event>,
    topic: seq<Partition>,
    deployers: seq<Phase>,
    deletions: seq<DeleteLog>,
    history: seq<Effect>)

  /** Steps of the webhook and of the reconciler. */
  datatype ReconcileStep =
    | Submit(spec: MigrationSpec)
    | FetchFails
    | StartReconcile(migration: nat)
    | ListPods(items: seq<Listed>)
    | FillNext
    | Checkpoint(answers: Reconciler.Answers, stamp: string)
    | EndReconcile

  /** Steps of build jobs, registries and the event handler. */
  datatype BuildStep =
    | RunJob(job: nat)
    | Upload(job: nat, action: Action, mediaType: MediaType)
    | Notify(event: nat, partition: nat)

  /** Steps of one deployer. */
  datatype DeployStep =
    | OpenReader
    | Rebalance(partition: nat)
    | PollTopic(poll: Poll)
    | CloseReader(failed: bool)
    | Claim
    | Abandon
    | Prepare(get: bool, create: bool)
    | CreateCopy
    | Announce(to: Option<nat>)
    | EndBatch

  /** Steps of the restore daemon, the kubelets, and everybody else who uses the cluster. */
  datatype ClusterStep =
    | Restore(log: nat, commits: bool, api: RestoreDaemon.Api)
    | PodStarts(pod: PodKey)
    | OthersCreate(pod: PodKey, what: Pod)
    | OthersDelete(pod: PodKey)

  datatype Step =
    | Reconcile(r: ReconcileStep)
    | Build(b: BuildStep)
    | Deploy(d: nat, a: DeployStep)
    | OfCluster(c: ClusterStep)

  // ---------------------------------------------------------------- pieces of a step

  function ViewOf(s: State): ClusterView {
    ClusterView(true, s.pods.Keys, s.deployments)
  }

  /** FillinGlobalVariables, with its entry in the history. */
  function Fill(s: State, key: string, info: MigrationInfo): State {
    s.(processing := s.processing[key := info],
       history := s.history + (if key in s.processing then [Overwritten(key)] else []) + [Filled(key, info)])
  }

  /** The answers r.List can give in each mode. */
  ghost predicate IsListing(s: State, spec: MigrationSpec, items: seq<Listed>) {
    && DistinctKeys(items)
    && (forall x :: x in items ==> x.key in s.pods && s.pods[x.key] == x.pod)
    && match ModeOf(spec)
       case ByPodName => ClusterListing(items, s.pods)
       case OfDeployment => InNamespace(items, spec.namespace)
       case Specified =>
         && InNamespace(items, spec.namespace)
         && forall key :: key in s.pods && key.namespace == spec.namespace ==> Listed(key, s.pods[key]) in items
  }

  function NamesOf(items: seq<Listed>): seq<string> {
    seq(|items|, (i: nat) requires i < |items| => items[i].key.name)
  }

  predicate HasContainer(pod: Pod, name: string) {
    exists i :: 0 <= i < |pod.containers| && pod.containers[i].name == name
  }

  /** The answers the world can give while target is being checkpointed. */
  predicate CanAnswer(s: State, spec: MigrationSpec, target: Reconciler.Target, a: Reconciler.Answers, stamp: string) {
    var key := target.listed.key;
    && (a.checkpoint ==> key in s.pods && HasContainer(s.pods[key], target.container))
    && (a.items == [] || a.items == [KubeletPath(key.name, key.namespace, target.container, stamp)])
    && (a.registryIp.Some? ==> a.registryIp.value == RegistryIP(s.registries, spec.destinationNamespace))
  }

  function MemoryAt(pods: map<PodKey, Pod>, key: PodKey, container: string): Option<Workload> {
    if key in pods then MemoryOf(pods[key].containers, container) else None
  }

  /** The build jobs that a trace of effects leaves behind; pods says what was checkpointed. */
  function JobsOf(effects: seq<Reconciler.Effect>, pods: map<PodKey, Pod>): seq<Job> {
    if effects == [] then []
    else (if effects[0].Pushed? && effects[0].ok
          then [Job(effects[0].image, effects[0].registryIp,
                    MemoryAt(pods, effects[0].target.listed.key, effects[0].target.container))]
          else [])
         + JobsOf(effects[1..], pods)
  }

  /** The first registry with an address, |pods| if there is none. */
  function RegistryAt(pods: seq<RegistryPod>, ip: string): (i: nat)
    ensures i <= |pods|
    ensures i < |pods| ==> pods[i].podIP == ip
    ensures forall j :: 0 <= j < i ==> pods[j].podIP != ip
  {
    if pods == [] || pods[0].podIP == ip then 0 else 1 + RegistryAt(pods[1..], ip)
  }

  function KeyOf(m: Message): string {
    DeployerOldName(m.value)
  }

  /** Every container has an image to start from. */
  predicate Restorable(pod: Pod) {
    forall i :: 0 <= i < |pod.containers| ==> pod.containers[i].memory.Some?
  }

  function SetPhase(s: State, d: nat, phase: Phase): State
    requires d < |s.deployers|
  {
    s.(deployers := s.deployers[d := phase])
  }

  function Log(s: State, e: Effect): State {
    s.(history := s.history + [e])
  }

  // ---------------------------------------------------------------- the steps

  /** None if the step cannot happen in s. */
  ghost function Next(s: State, step: Step): Option<State> {
    match step
    case Reconcile(r) => NextReconcile(s, r)
    case Build(b) => NextBuild(s, b)
    case Deploy(d, a) => if d < |s.deployers| && d < |s.registries| then NextDeploy(s, d, a) else None
    case OfCluster(c) => NextCluster(s, c)
  }

  ghost function NextReconcile(s: State, r: ReconcileStep): Option<State> {
    match r
    case Submit(spec) => Admit(s, spec)
    case FetchFails => if s.work.Idle? then Some(Fill(s, "", InfoOf(ZERO_SPEC, ""))) else None
    case StartReconcile(i) => Start(s, i)
    case ListPods(items) => ListStep(s, items)
    case FillNext => FillStep(s)
    case Checkpoint(a, stamp) => CheckpointStep(s, a, stamp)
    case EndReconcile => if s.work.Idle? then None else Some(s.(work := Idle))
  }

  function Admit(s: State, spec: MigrationSpec): Option<State> {
    if ValidateMigration(spec, ViewOf(s), s.processing).Success?
    then Some(s.(migrations := s.migrations + [spec])) else None
  }

  function Start(s: State, i: nat): Option<State> {
    if s.work.Idle? && i < |s.migrations| then
      var spec := s.migrations[i];
      Some(Fill(s, spec.podName, InfoOf(spec, spec.deployment)).(work := Listing(spec)))
    else None
  }

  ghost function ListStep(s: State, items: seq<Listed>): Option<State> {
    if s.work.Listing? && IsListing(s, s.work.spec, items) then
      var spec := s.work.spec;
      var selected := Select(spec, items);
      if selected.Failure? then Some(s.(work := Idle))
      else Some(s.(work := Working(spec, if ModeOf(spec) == OfDeployment then NamesOf(items) else [],
                                   Reconciler.Targets(selected.value))))
    else None
  }

  function FillStep(s: State): Option<State> {
    if s.work.Working? && s.work.fills != [] then
      Some(Fill(s, s.work.fills[0], InfoOf(s.work.spec, "")).(work := s.work.(fills := s.work.fills[1..])))
    else None
  }

  function CheckpointStep(s: State, a: Reconciler.Answers, stamp: string): Option<State> {
    if s.work.Working? && s.work.fills == [] && s.work.targets != []
       && CanAnswer(s, s.work.spec, s.work.targets[0], a, stamp) then
      var target := s.work.targets[0];
      var (effects, verdict) := Reconciler.Attempt(target, a, s.work.spec.destinationNode);
      Some(s.(jobs := s.jobs + JobsOf(effects, s.pods),
              work := if verdict == Reconciler.Proceed then s.work.(targets := s.work.targets[1..]) else Idle))
    else None
  }

  function NextBuild(s: State, b: BuildStep): Option<State> {
    match b
    case RunJob(j) => if j < |s.jobs| then RunBuild(s, j) else None
    case Upload(j, action, mediaType) => if j < |s.jobs| then UploadPart(s, j, action, mediaType) else None
    case Notify(e, i) =>
      if e < |s.events| then Some(s.(topic := Publish(s.topic, s.registries, s.events[e], true, i))) else None
  }

  function RunBuild(s: State, j: nat): Option<State>
    requires j < |s.jobs|
  {
    var job := s.jobs[j];
    var r := RegistryAt(s.registries, job.registryIp);
    if r == |s.registries| then None
    else Some(s.(images := s.images[(r, job.image) := Image(job.memory, j)],
                 events := s.events + [Event(Push, OciManifest, PushHost(job.registryIp), job.image)]))
  }

  /** What a registry reports before and after an image is complete: the layers that a job pushes, pulls,
      mounts, and so on. The image need not be there. */
  function UploadPart(s: State, j: nat, action: Action, mediaType: MediaType): Option<State>
    requires j < |s.jobs|
  {
    var job := s.jobs[j];
    if action == Push && (mediaType == OciManifest || mediaType == DockerManifest) then None
    else Some(s.(events := s.events + [Event(action, mediaType, PushHost(job.registryIp), job.image)]))
  }

  function NextDeploy(s: State, d: nat, a: DeployStep): Option<State>
    requires d < |s.deployers| && d < |s.registries|
  {
    match a
    case OpenReader => if s.deployers[d].Resting? then Some(SetPhase(s, d, Consuming([]))) else None
    case Rebalance(i) =>
      if s.deployers[d].Consuming? && i < |s.topic|
      then Some(s.(topic := s.topic[i := Assign(s.topic[i], s.registries[d].node)])) else None
    case PollTopic(poll) => PollStep(s, d, poll)
    case CloseReader(failed) =>
      if s.deployers[d].Consuming?
      then Some(SetPhase(s, d, if failed then Resting else Deploying(s.deployers[d].list))
                .(topic := Close(s.topic, s.registries[d].node)))
      else None
    case Claim => ClaimStep(s, d)
    case Abandon =>
      if s.deployers[d].Claimed? || s.deployers[d].Prepared?
      then Some(Log(SetPhase(s, d, Resting), Dropped(KeyOf(s.deployers[d].msg)))) else None
    case Prepare(get, create) => PrepareStep(s, d, get, create)
    case CreateCopy => CopyStep(s, d)
    case Announce(to) => AnnounceStep(s, d, to)
    case EndBatch => if s.deployers[d] == Deploying([]) then Some(SetPhase(s, d, Resting)) else None
  }

  function PollStep(s: State, d: nat, poll: Poll): Option<State>
    requires d < |s.deployers| && d < |s.registries|
  {
    if s.deployers[d].Consuming? then
      var node := s.registries[d].node;
      var (topic, outcome) := PollOne(s.topic, node, poll);
      match outcome
      case Nothing => Some(s.(topic := topic))
      case Got(m) => Some(SetPhase(s, d, Consuming(s.deployers[d].list + [m])).(topic := topic))
      case CommitError => Some(SetPhase(s, d, Resting).(topic := Close(topic, node)))
    else None
  }

  function ClaimStep(s: State, d: nat): Option<State>
    requires d < |s.deployers|
  {
    if s.deployers[d].Deploying? && s.deployers[d].rest != [] then
      var m, rest := s.deployers[d].rest[0], s.deployers[d].rest[1..];
      var key := KeyOf(m);
      if key in s.processing then
        Some(Log(SetPhase(s, d, Claimed(s.processing[key], m, rest)), Taken(key, s.processing[key]))
             .(processing := s.processing - {key}))
      else Some(SetPhase(s, d, Resting))
    else None
  }

  function PrepareStep(s: State, d: nat, get: bool, create: bool): Option<State>
    requires d < |s.deployers|
  {
    if s.deployers[d].Claimed? then
      var Claimed(info, m, rest) := s.deployers[d];
      var namespaces := EnsureNamespace(s.namespaces, info.destinationNamespace, get, create);
      if namespaces.None? then None else Some(SetPhase(s, d, Prepared(info, m, rest)).(namespaces := namespaces.value))
    else None
  }

  function CopyStep(s: State, d: nat): Option<State>
    requires d < |s.deployers| && d < |s.registries|
  {
    if s.deployers[d].Prepared?
       && CanCreate(s.pods, s.namespaces, CopyKey(s.deployers[d].info, s.deployers[d].msg)) then
      var Prepared(info, m, rest) := s.deployers[d];
      var at, copy := CopyKey(info, m), CopyOf(s.registries[d], d, info, m, s.images);
      Some(Log(SetPhase(s, d, CopyMade(info, m, rest)), Copied(KeyOf(m), m.key, at, copy.node, copy.image))
           .(pods := s.pods[at := copy]))
    else None
  }

  function AnnounceStep(s: State, d: nat, to: Option<nat>): Option<State>
    requires d < |s.deployers|
  {
    if s.deployers[d].CopyMade? then
      var CopyMade(info, m, rest) := s.deployers[d];
      if to.None? then Some(Log(SetPhase(s, d, Resting), Unannounced(KeyOf(m))))
      else if to.value < |s.deletions| then
        Some(Log(SetPhase(s, d, Deploying(rest)), Announced(KeyOf(m), info.sourceNamespace))
             .(deletions := AppendTo(s.deletions, to.value, DeleteMessage(info, m))))
      else None
    else None
  }

  function NextCluster(s: State, c: ClusterStep): Option<State> {
    match c
    case Restore(q, commits, api) => RestoreStep(s, q, commits, api)
    case PodStarts(key) =>
      if key in s.pods && Restorable(s.pods[key])
      then Some(s.(pods := s.pods[key := s.pods[key].(running := true, imageIDs := [s.pods[key].image])])) else None
    case OthersCreate(key, pod) =>
      if key !in s.pods && ValidName(key.name) && ValidName(key.namespace)
      then Some(s.(pods := s.pods[key := pod], namespaces := s.namespaces + {key.namespace})) else None
    case OthersDelete(key) => if key in s.pods then Some(s.(pods := s.pods - {key})) else None
  }

  function RestoreStep(s: State, q: nat, commits: bool, api: RestoreDaemon.Api): Option<State> {
    if q < |s.deletions| && s.deletions[q].committed < |s.deletions[q].log| then
      var (next, a) := RestoreDaemon.Consume(s.deletions[q], [RestoreDaemon.Fetches(commits)]);
      var victim := RestoreDaemon.Victim(a);
      Some(s.(deletions := s.deletions[q := next],
              pods := RestoreDaemon.DeleteFrom(s.pods, victim, api),
              history := s.history + if victim.Some? && victim.value in s.pods && api.get && api.delete
                                     then [Deleted(victim.value)] else []))
    else None
  }

  // ---------------------------------------------------------------- what a step leaves alone

  /** Only the start of a reconcile, a failed fetch and FillNext touch the map and the history; only a
      checkpoint adds to the jobs. */
  lemma ReconcileFrame(s: State, r: ReconcileStep)
    requires NextReconcile(s, r).Some?
    ensures var t := NextReconcile(s, r).value;
            && t == s.(migrations := t.migrations, processing := t.processing, work := t.work, jobs := t.jobs,
                history := t.history)
            && t.migrations == s.migrations + (if r.Submit? then [r.spec] else [])
            && s.jobs <= t.jobs && (t.jobs != s.jobs ==> r.Checkpoint?)
            && (r.FetchFails? || r.StartReconcile? || r.FillNext?
                || (t.processing == s.processing && t.history == s.history))
            && (t.work.Listing? ==> t.work == s.work || r.StartReconcile?)
            && (r.ListPods? && t.work.Working? ==>
                  s.work.Listing? && (ModeOf(s.work.spec) != OfDeployment ==> t.work.fills == []))
            && (r.Checkpoint? && t.work.Working? ==> t.work.fills == [])
  {
    hide IsListing, CanAnswer, Select, Reconciler.Attempt, JobsOf, ValidateMigration, NamesOf, Reconciler.Targets;
  }

  lemma BuildFrame(s: State, b: BuildStep)
    requires NextBuild(s, b).Some?
    ensures var t := NextBuild(s, b).value; t == s.(images := t.images, events := t.events, topic := t.topic)
  {
    hide RegistryAt, Publish, PushHost;
  }

  lemma DeployFrame(s: State, d: nat, a: DeployStep)
    requires d < |s.deployers| && d < |s.registries| && NextDeploy(s, d, a).Some?
    ensures var t := NextDeploy(s, d, a).value;
            t == s.(topic := t.topic, deployers := t.deployers, processing := t.processing, namespaces := t.namespaces,
                pods := t.pods, deletions := t.deletions, history := t.history)
  {
    hide KeyOf, CopyOf, CanCreate, CopyKey, EnsureNamespace, PollOne, Close, AppendTo, DeleteMessage;
  }

  /** A deployer acts for itself alone. */
  lemma OtherDeployersStay(s: State, d: nat, a: DeployStep)
    requires d < |s.deployers| && d < |s.registries| && NextDeploy(s, d, a).Some?
    ensures var t := NextDeploy(s, d, a).value;
            && |t.deployers| == |s.deployers|
            && forall x :: 0 <= x < |s.deployers| && x != d ==> t.deployers[x] == s.deployers[x]
  {
    hide KeyOf, CopyOf, CanCreate, CopyKey, EnsureNamespace, PollOne, Close, AppendTo, DeleteMessage;
  }

  /** What the cluster does leaves the operator's own state alone, and adds no more than a deletion
      to the history. */
  lemma ClusterFrame(s: State, c: ClusterStep)
    requires NextCluster(s, c).Some?
    ensures var t := NextCluster(s, c).value;
            && t == s.(pods := t.pods, namespaces := t.namespaces, deletions := t.deletions, history := t.history)
            && (t.history != s.history ==>
                  && |t.history| == |s.history| + 1 && t.history[|s.history|].Deleted?
                  && t.history == s.history + [t.history[|s.history|]])
  {
  }

  /** What a round of the daemon does, by the announcement it fetches. */
  lemma RestoreFrame(s: State, q: nat, commits: bool, api: RestoreDaemon.Api)
    requires RestoreStep(s, q, commits, api).Some?
    ensures var t := RestoreStep(s, q, commits, api).value;
            var victim := RestoreDaemon.Victim(RestoreDaemon.Decode(s.deletions[q].log[s.deletions[q].committed]));
            && t == s.(deletions := t.deletions, pods := RestoreDaemon.DeleteFrom(s.pods, victim, api),
                history := t.history)
            && |t.deletions| == |s.deletions|
            && (forall i :: 0 <= i < |s.deletions| ==> t.deletions[i].log == s.deletions[i].log)
            && (t.history == s.history || (victim.Some? && t.history == s.history + [Deleted(victim.value)]))
  {
  }

  // ---------------------------------------------------------------- runs

  /** A pod that has never been migrated. */
  predicate IsOriginal(key: PodKey, pod: Pod) {
    && DistinctNames(pod.containers)
    && forall i :: 0 <= i < |pod.containers| ==> pod.containers[i].memory == Some(Workload(key, pod.containers[i].name))
  }

  ghost function Run(s: State, steps: seq<Step>): Option<State>
    decreases steps
  {
    if steps == [] then Some(s)
    else
      var next := Next(s, steps[0]);
      if next.None? then None else Run(next.value, steps[1..])
  }

  /** Nothing has happened yet. Pods, namespaces and deployments obey the API server's name rules;
      every container has its own memory. */
  predicate Init(s: State) {
    && s.migrations == [] && s.processing == map[] && s.work == Idle
    && s.jobs == [] && s.images == map[] && s.events == [] && s.history == []
    && |s.deployers| == |s.registries| && (forall d :: 0 <= d < |s.deployers| ==> s.deployers[d] == Resting)
    && (forall i :: 0 <= i < |s.topic| ==> s.topic[i] == NewPartition([]))
    && (forall q :: 0 <= q < |s.deletions| ==> s.deletions[q] == DeleteLog([], 0))
    && (forall k :: k in s.pods ==> ValidName(k.name) && ValidName(k.namespace) && IsOriginal(k, s.pods[k]))
    && (forall k :: k in s.deployments ==> ValidName(k.namespace))
    && (forall n :: n in s.namespaces ==> ValidName(n))
  }

  lemma {:induction false} RunAppend(s: State, a: seq<Step>, b: seq<Step>)
    ensures Run(s, a + b) == (if Run(s, a).None? then None else Run(Run(s, a).value, b))
    decreases a
  {
    if a == [] {
      assert a + b == b;
    } else {
      assert (a + b)[1..] == a[1..] + b;
      if Next(s, a[0]).Some? { RunAppend(Next(s, a[0]).value, a[1..], b); }
    }
  }
}
