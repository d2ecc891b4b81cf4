/** Safety over every run: what precedes the deletion of an old pod. */
module Trail {
  import opened Handoff
  import opened Kafka
  import opened Migrations
  import opened Names
  import opened Protocol
  import opened Registry
  import opened Selection
  import opened Webhook
  import opened Wrappers
  import Reconciler
  import RestoreDaemon

  /** The entry (key, info) was filled into ProcessPodsMap. */
  ghost predicate WasFilled(h: seq<Effect>, key: string, info: MigrationInfo) {
    exists f :: 0 <= f < |h| && h[f] == Filled(key, info)
  }

  /** ... and, later, claimed by a deployer. */
  ghost predicate WasTaken(h: seq<Effect>, key: string, info: MigrationInfo) {
    exists t :: 0 <= t < |h| && h[t] == Taken(key, info) && WasFilled(h[..t], key, info)
  }

  /** ... and, later still, the copy of exactly that pod was created where the entry says. */
  ghost predicate WasCopied(h: seq<Effect>, key: string, info: MigrationInfo) {
    exists c :: 0 <= c < |h| && IsCopyFor(h[c], key, info) && WasTaken(h[..c], key, info)
  }

  predicate IsCopyFor(e: Effect, key: string, info: MigrationInfo) {
    && e.Copied? && e.key == key
    && e.at == PodKey(info.destinationNamespace, CHECKPOINT + key)
    && e.node == info.destinationNode
  }

  /** The deletion of the pod at: its name is the key, and its namespace the source namespace, of an
      entry that was filled, claimed and copied, in this order, before. */
  ghost predicate Justified(h: seq<Effect>, at: PodKey) {
    exists info :: WasCopied(h, at.name, info) && info.sourceNamespace == at.namespace
  }

  // ---------------------------------------------------------------- history only grows

  lemma FilledStays(h: seq<Effect>, h': seq<Effect>, key: string, info: MigrationInfo)
    requires h <= h' && WasFilled(h, key, info)
    ensures WasFilled(h', key, info)
  {
  }

  lemma TakenStays(h: seq<Effect>, h': seq<Effect>, key: string, info: MigrationInfo)
    requires h <= h' && WasTaken(h, key, info)
    ensures WasTaken(h', key, info)
  {
  }

  lemma CopiedStays(h: seq<Effect>, h': seq<Effect>, key: string, info: MigrationInfo)
    requires h <= h' && WasCopied(h, key, info)
    ensures WasCopied(h', key, info)
  {
    var c :| 0 <= c < |h| && IsCopyFor(h[c], key, info) && WasTaken(h[..c], key, info);
    assert h'[..c] == h[..c] && h'[c] == h[c];
  }

  // ---------------------------------------------------------------- names that travel

  /** A message value, image or repository made from a checkpoint of a pod with a valid name. */
  predicate IsImageName(s: string) {
    CHECKPOINT <= s && ValidName(DeployerOldName(s))
  }

  lemma ImageNameFacts(s: string)
    requires IsImageName(s)
    ensures s == CHECKPOINT + DeployerOldName(s) && DaemonOldName(s) == DeployerOldName(s)
  {
    DecodePrefixed(s[|CHECKPOINT|..]);
  }

  predicate ValidTargets(targets: seq<Reconciler.Target>) {
    forall i :: 0 <= i < |targets| ==> ValidName(targets[i].listed.key.name)
  }

  predicate ValidSpec(spec: MigrationSpec) {
    spec.podName != "" || spec.deployment != "" ==> ValidName(spec.namespace)
  }

  predicate ValidWork(work: Work) {
    && (work.Listing? ==> ValidSpec(work.spec))
    && (work.Working? ==> ValidSpec(work.spec) && ValidTargets(work.targets))
    && (work.Working? && work.fills != [] ==> ValidName(work.spec.namespace))
  }

  predicate ImageNames(msgs: seq<Message>) {
    forall m :: m in msgs ==> IsImageName(m.value)
  }

  function HeldBy(phase: Phase): seq<Message> {
    match phase
    case Resting => []
    case Consuming(list) => list
    case Deploying(rest) => rest
    case Claimed(_, msg, rest) => [msg] + rest
    case Prepared(_, msg, rest) => [msg] + rest
    case CopyMade(_, msg, rest) => [msg] + rest
  }

  predicate ValidPods(pods: map<PodKey, Pod>) {
    forall k :: k in pods ==> ValidName(k.name) && ValidName(k.namespace)
  }

  predicate ValidMigrations(migrations: seq<MigrationSpec>) {
    forall i :: 0 <= i < |migrations| ==> ValidSpec(migrations[i])
  }

  predicate ValidJobs(jobs: seq<Job>) {
    forall i :: 0 <= i < |jobs| ==> IsImageName(jobs[i].image)
  }

  predicate ValidEvents(events: seq<Event>) {
    forall i :: 0 <= i < |events| ==> IsImageName(events[i].repository)
  }

  predicate ValidTopic(topic: seq<Partition>) {
    forall i :: 0 <= i < |topic| ==> ImageNames(topic[i].log)
  }

  predicate ValidDeployers(deployers: seq<Phase>) {
    forall d :: 0 <= d < |deployers| ==> ImageNames(HeldBy(deployers[d]))
  }

  predicate ValidNames(names: set<string>) {
    forall n :: n in names ==> ValidName(n)
  }

  predicate ValidDeployments(deployments: set<PodKey>) {
    forall k :: k in deployments ==> ValidName(k.namespace)
  }

  /** Every name in the system is well formed; only checkpoint images travel. */
  predicate NamesValid(s: State) {
    && ValidPods(s.pods) && ValidDeployments(s.deployments) && ValidNames(s.namespaces)
    && ValidMigrations(s.migrations) && ValidWork(s.work)
    && ValidJobs(s.jobs) && ValidEvents(s.events) && ValidTopic(s.topic) && ValidDeployers(s.deployers)
  }

  lemma {:induction false} TargetsValid(items: seq<Listed>)
    requires forall i :: 0 <= i < |items| ==> ValidName(items[i].key.name)
    ensures ValidTargets(Reconciler.Targets(items))
  {
    if items != [] {
      TargetsValid(items[1..]);
      ContainersValid(items[0], 0);
    }
  }

  lemma {:induction false} ContainersValid(item: Listed, k: nat)
    requires k <= |item.pod.containers| && ValidName(item.key.name)
    ensures ValidTargets(Reconciler.ContainersOf(item, k))
    decreases |item.pod.containers| - k
  {
    if k < |item.pod.containers| { ContainersValid(item, k + 1); }
  }

  lemma JobNameValid(key: PodKey, container: string, stamp: string)
    requires ValidName(key.name)
    ensures ModifyCheckpointToImageName(KubeletPath(key.name, key.namespace, container, stamp)) == CHECKPOINT + key.name
    ensures IsImageName(CHECKPOINT + key.name) && DeployerOldName(CHECKPOINT + key.name) == key.name
  {
    ImageNameOf(key.name, key.namespace, container, stamp);
    DecodePrefixed(key.name);
  }

  /** The jobs of one attempt: none, or one for the target's own pod. */
  lemma JobsOfAttempt(s: State, spec: MigrationSpec, target: Reconciler.Target, a: Reconciler.Answers, stamp: string)
    requires CanAnswer(s, spec, target, a, stamp) && ValidName(target.listed.key.name)
    ensures var effects := Reconciler.Attempt(target, a, spec.destinationNode).0;
            || JobsOf(effects, s.pods) == []
            || (target.listed.key in s.pods && HasContainer(s.pods[target.listed.key], target.container)
                && JobsOf(effects, s.pods) == [Job(CHECKPOINT + target.listed.key.name,
                                                   RegistryIP(s.registries, spec.destinationNamespace),
                                                   MemoryAt(s.pods, target.listed.key, target.container))])
  {
    var key := target.listed.key;
    JobNameValid(key, target.container, stamp);
    var effects := Reconciler.Attempt(target, a, spec.destinationNode).0;
    JobsOfShort(effects, s.pods);
  }

  lemma {:induction false} JobsOfShort(e: seq<Reconciler.Effect>, pods: map<PodKey, Pod>)
    requires forall i :: 0 <= i < |e| && i != 2 ==> !e[i].Pushed?
    ensures JobsOf(e, pods) == if |e| > 2 && e[2].Pushed? && e[2].ok
                                then [Job(e[2].image, e[2].registryIp,
                                          MemoryAt(pods, e[2].target.listed.key, e[2].target.container))]
                                else []
  {
    if |e| > 2 {
      NoJobs(e[3..], pods);
      assert e[1..][1..] == e[2..] && e[2..][1..] == e[3..];
      assert JobsOf(e[1..], pods) == JobsOf(e[2..], pods);
    } else {
      NoJobs(e, pods);
    }
  }

  lemma {:induction false} NoJobs(e: seq<Reconciler.Effect>, pods: map<PodKey, Pod>)
    requires forall i :: 0 <= i < |e| ==> !e[i].Pushed?
    ensures JobsOf(e, pods) == []
  {
    if e != [] { NoJobs(e[1..], pods); }
  }

  /** All that travels is named after a checkpoint, whatever happens. */
  lemma NamesStep(s: State, step: Step)
    requires NamesValid(s) && Next(s, step).Some?
    ensures NamesValid(Next(s, step).value)
  {
    hide NamesValid, NextReconcile, NextBuild, NextDeploy, NextCluster;
    match step
    case Reconcile(r) => NamesOfReconcile(s, r);
    case Build(b) => NamesOfBuild(s, b);
    case Deploy(d, a) => NamesOfDeploy(s, d, a);
    case OfCluster(c) => NamesOfCluster(s, c);
  }

  lemma NamesOfReconcile(s: State, r: ReconcileStep)
    requires NamesValid(s) && NextReconcile(s, r).Some?
    ensures NamesValid(NextReconcile(s, r).value)
  {
    match r
    case Submit(spec) =>
      AdmittedIff(spec, ViewOf(s), s.processing);
      assert spec.podName != "" ==> spec.podName in NamedPods(spec);
    case ListPods(items) => NamesOfListing(s, items);
    case Checkpoint(a, stamp) => NamesOfCheckpoint(s, a, stamp);
    case _ =>
  }

  lemma NamesOfListing(s: State, items: seq<Listed>)
    requires NamesValid(s) && ListStep(s, items).Some?
    ensures NamesValid(ListStep(s, items).value)
  {
    SelectedAreListed(s.work.spec, items);
    var selected := Select(s.work.spec, items);
    if selected.Success? {
      assert forall i :: 0 <= i < |selected.value| ==> selected.value[i] in items;
      TargetsValid(selected.value);
    }
  }

  lemma NamesOfCheckpoint(s: State, a: Reconciler.Answers, stamp: string)
    requires NamesValid(s) && CheckpointStep(s, a, stamp).Some?
    ensures NamesValid(CheckpointStep(s, a, stamp).value)
  {
    var target := s.work.targets[0];
    JobsOfAttempt(s, s.work.spec, target, a, stamp);
    JobNameValid(target.listed.key, target.container, stamp);
  }

  lemma NamesOfBuild(s: State, b: BuildStep)
    requires NamesValid(s) && NextBuild(s, b).Some?
    ensures NamesValid(NextBuild(s, b).value)
  {
  }

  lemma NamesOfCluster(s: State, c: ClusterStep)
    requires NamesValid(s) && NextCluster(s, c).Some?
    ensures NamesValid(NextCluster(s, c).value)
  {
  }

  predicate IsReaderStep(a: DeployStep) {
    a.OpenReader? || a.Rebalance? || a.PollTopic? || a.CloseReader?
  }

  lemma NamesOfDeploy(s: State, d: nat, a: DeployStep)
    requires d < |s.deployers| && d < |s.registries|
    requires NamesValid(s) && NextDeploy(s, d, a).Some?
    ensures NamesValid(NextDeploy(s, d, a).value)
  {
    if IsReaderStep(a) { NamesOfReader(s, d, a); } else { NamesOfHandoff(s, d, a); }
    hide NextDeploy, NamesValid;
  }

  lemma NamesOfReader(s: State, d: nat, a: DeployStep)
    requires d < |s.deployers| && d < |s.registries| && IsReaderStep(a)
    requires NamesValid(s) && NextDeploy(s, d, a).Some?
    ensures NamesValid(NextDeploy(s, d, a).value)
  {
    hide IsImageName, ValidName, PollOne;
    assert ImageNames(HeldBy(s.deployers[d]));
    if a.PollTopic? { NamesOfPoll(s.topic, s.registries[d].node, a.poll); }
  }

  lemma NamesOfHandoff(s: State, d: nat, a: DeployStep)
    requires d < |s.deployers| && d < |s.registries| && !IsReaderStep(a)
    requires NamesValid(s) && NextDeploy(s, d, a).Some?
    ensures NamesValid(NextDeploy(s, d, a).value)
  {
    hide IsImageName, ValidName, CopyStep, PrepareStep, ClaimStep, AnnounceStep;
    match a
    case Claim => NamesOfClaim(s, d);
    case Prepare(get, create) => NamesOfPrepare(s, d, get, create);
    case CreateCopy => NamesOfCopy(s, d);
    case Announce(to) => NamesOfAnnounce(s, d, to);
    case _ =>
  }

  lemma NamesOfClaim(s: State, d: nat)
    requires d < |s.deployers|
    requires NamesValid(s) && ClaimStep(s, d).Some?
    ensures NamesValid(ClaimStep(s, d).value)
  {
    hide IsImageName, ValidName, KeyOf;
    var rest := s.deployers[d].rest;
    assert ImageNames(HeldBy(s.deployers[d]));
    assert rest == [rest[0]] + rest[1..];
  }

  lemma NamesOfAnnounce(s: State, d: nat, to: Option<nat>)
    requires d < |s.deployers|
    requires NamesValid(s) && AnnounceStep(s, d, to).Some?
    ensures NamesValid(AnnounceStep(s, d, to).value)
  {
  }

  lemma NamesOfPrepare(s: State, d: nat, get: bool, create: bool)
    requires d < |s.deployers|
    requires NamesValid(s) && PrepareStep(s, d, get, create).Some?
    ensures NamesValid(PrepareStep(s, d, get, create).value)
  {
  }

  lemma NamesOfCopy(s: State, d: nat)
    requires d < |s.deployers| && d < |s.registries|
    requires NamesValid(s) && CopyStep(s, d).Some?
    ensures NamesValid(CopyStep(s, d).value)
  {
    hide KeyOf, CopyOf, IsImageName, ValidName, ValidMigrations, ValidWork, ValidJobs, ValidEvents, ValidTopic;
    var t, phase := CopyStep(s, d).value, s.deployers[d];
    assert ImageNames(HeldBy(phase)) && phase.msg in HeldBy(phase);
    ImageIsValidName(phase.msg.value);
    var at := CopyKey(phase.info, phase.msg);
    assert ValidPods(t.pods);
    assert HeldBy(t.deployers[d]) == HeldBy(phase);
    SetPhaseValid(s.deployers, d, t.deployers[d]);
  }

  lemma ImageIsValidName(s: string)
    requires IsImageName(s)
    ensures ValidName(s)
  {
    ImageNameFacts(s);
  }

  lemma SetPhaseValid(deployers: seq<Phase>, d: nat, phase: Phase)
    requires ValidDeployers(deployers) && d < |deployers| && ImageNames(HeldBy(phase))
    ensures ValidDeployers(deployers[d := phase])
  {
    hide ImageNames, HeldBy;
  }

  lemma NamesOfPoll(topic: seq<Partition>, node: string, poll: Poll)
    requires ValidTopic(topic)
    ensures var (next, outcome) := PollOne(topic, node, poll);
            ValidTopic(next) && (outcome.Got? ==> IsImageName(outcome.message.value))
  {
  }

  // ---------------------------------------------------------------- everything in flight has a past

  ghost predicate EntriesGrounded(h: seq<Effect>, processing: map<string, MigrationInfo>) {
    forall k :: k in processing ==>
      WasFilled(h, k, processing[k]) && (k != "" ==> ValidName(processing[k].sourceNamespace))
  }

  ghost predicate PhaseGrounded(h: seq<Effect>, phase: Phase) {
    && (phase.Claimed? || phase.Prepared? ==>
          WasTaken(h, KeyOf(phase.msg), phase.info) && ValidName(phase.info.sourceNamespace))
    && (phase.CopyMade? ==>
          WasCopied(h, KeyOf(phase.msg), phase.info) && ValidName(phase.info.sourceNamespace))
  }

  ghost predicate PhasesGrounded(h: seq<Effect>, deployers: seq<Phase>) {
    forall d :: 0 <= d < |deployers| ==> PhaseGrounded(h, deployers[d])
  }

  /** A message of delete-pod: it names a copy that was made, and where the original came from. */
  ghost predicate IsAnnouncement(h: seq<Effect>, m: Message) {
    && IsImageName(m.key)
    && exists info, node :: WasCopied(h, DeployerOldName(m.key), info) && ValidName(info.sourceNamespace)
                            && m.value == EncodeValue(info.sourceNamespace, node)
  }

  ghost predicate LogGrounded(h: seq<Effect>, log: seq<Message>) {
    forall m :: m in log ==> IsAnnouncement(h, m)
  }

  ghost predicate LogsGrounded(h: seq<Effect>, deletions: seq<DeleteLog>) {
    forall q :: 0 <= q < |deletions| ==> LogGrounded(h, deletions[q].log)
  }

  ghost predicate HistoryGrounded(h: seq<Effect>) {
    forall i :: 0 <= i < |h| && h[i].Deleted? ==> Justified(h[..i], h[i].at)
  }

  ghost predicate Grounded(s: State) {
    && EntriesGrounded(s.history, s.processing)
    && PhasesGrounded(s.history, s.deployers)
    && LogsGrounded(s.history, s.deletions)
    && HistoryGrounded(s.history)
  }

  lemma PhaseStays(h: seq<Effect>, h': seq<Effect>, phase: Phase)
    requires h <= h' && PhaseGrounded(h, phase)
    ensures PhaseGrounded(h', phase)
  {
    hide WasTaken, WasCopied, KeyOf, ValidName;
    if phase.Claimed? || phase.Prepared? { TakenStays(h, h', KeyOf(phase.msg), phase.info); }
    if phase.CopyMade? { CopiedStays(h, h', KeyOf(phase.msg), phase.info); }
  }

  lemma AnnouncementStays(h: seq<Effect>, h': seq<Effect>, m: Message)
    requires h <= h' && IsAnnouncement(h, m)
    ensures IsAnnouncement(h', m)
  {
    hide WasCopied, ValidName, DeployerOldName;
    var info, node :| WasCopied(h, DeployerOldName(m.key), info) && ValidName(info.sourceNamespace)
                      && m.value == EncodeValue(info.sourceNamespace, node);
    CopiedStays(h, h', DeployerOldName(m.key), info);
  }

  /** What has a past keeps it while the history grows by anything but a deletion. */
  lemma GroundedStays(s: State, h: seq<Effect>)
    requires Grounded(s) && s.history <= h
    requires forall i :: |s.history| <= i < |h| ==> !h[i].Deleted?
    ensures Grounded(s.(history := h))
  {
    hide WasFilled, PhaseGrounded, IsAnnouncement, Justified;
    forall k | k in s.processing ensures WasFilled(h, k, s.processing[k]) {
      FilledStays(s.history, h, k, s.processing[k]);
    }
    forall d | 0 <= d < |s.deployers| ensures PhaseGrounded(h, s.deployers[d]) {
      PhaseStays(s.history, h, s.deployers[d]);
    }
    forall q | 0 <= q < |s.deletions| ensures LogGrounded(h, s.deletions[q].log) {
      forall m | m in s.deletions[q].log ensures IsAnnouncement(h, m) {
        AnnouncementStays(s.history, h, m);
      }
    }
    forall i | 0 <= i < |h| && h[i].Deleted? ensures Justified(h[..i], h[i].at) {
      assert h[i] == s.history[i] && h[..i] == s.history[..i];
    }
  }

  lemma FillGrounded(s: State, key: string, info: MigrationInfo)
    requires Grounded(s) && (key != "" ==> ValidName(info.sourceNamespace))
    ensures Grounded(Fill(s, key, info))
  {
    var t := Fill(s, key, info);
    GroundedStays(s, t.history);
    assert t.history[|t.history| - 1] == Filled(key, info);
    assert WasFilled(t.history, key, info);
    hide WasFilled, PhasesGrounded, LogsGrounded, HistoryGrounded, ValidName;
  }

  lemma ReconcileGrounded(s: State, r: ReconcileStep)
    requires NamesValid(s) && Grounded(s) && NextReconcile(s, r).Some?
    ensures Grounded(NextReconcile(s, r).value)
  {
    hide Grounded, ListStep, CheckpointStep;
    ReconcileFrame(s, r);
    match r
    case FetchFails => FillGrounded(s, "", InfoOf(ZERO_SPEC, ""));
    case StartReconcile(i) =>
      var spec := s.migrations[i];
      FillGrounded(s, spec.podName, InfoOf(spec, spec.deployment));
      SameGrounded(Fill(s, spec.podName, InfoOf(spec, spec.deployment)), NextReconcile(s, r).value);
    case FillNext =>
      FillGrounded(s, s.work.fills[0], InfoOf(s.work.spec, ""));
      SameGrounded(Fill(s, s.work.fills[0], InfoOf(s.work.spec, "")), NextReconcile(s, r).value);
    case _ => SameGrounded(s, NextReconcile(s, r).value);
  }

  lemma SameGrounded(s: State, t: State)
    requires Grounded(s)
    requires t.history == s.history && t.processing == s.processing && t.deployers == s.deployers &&
        t.deletions == s.deletions
    ensures Grounded(t)
  {
  }

  lemma DeployGrounded(s: State, d: nat, a: DeployStep)
    requires d < |s.deployers| && d < |s.registries|
    requires NamesValid(s) && Grounded(s) && NextDeploy(s, d, a).Some?
    ensures Grounded(NextDeploy(s, d, a).value)
  {
    hide Grounded, NamesValid, ClaimStep, PrepareStep, CopyStep, AnnounceStep, PollStep;
    match a
    case PollTopic(poll) => ReaderGrounded(s, d, a);
    case Claim => ClaimGrounded(s, d);
    case Abandon => AbandonGrounded(s, d);
    case Prepare(get, create) => PrepareGrounded(s, d, get, create);
    case CreateCopy => CopyGrounded(s, d);
    case Announce(to) => AnnounceGrounded(s, d, to);
    case _ => ReaderGrounded(s, d, a);
  }

  /** A deployer moves to a phase with a past; entries may leave the map. */
  lemma MovedGrounded(s: State, t: State, d: nat, phase: Phase)
    requires Grounded(s) && d < |s.deployers| && PhaseGrounded(s.history, phase)
    requires t.history == s.history && t.deletions == s.deletions && t.deployers == s.deployers[d := phase]
    requires forall k :: k in t.processing ==> k in s.processing && t.processing[k] == s.processing[k]
    ensures Grounded(t)
  {
  }

  lemma ReaderGrounded(s: State, d: nat, a: DeployStep)
    requires d < |s.deployers| && d < |s.registries| && (IsReaderStep(a) || a.EndBatch?)
    requires Grounded(s) && NextDeploy(s, d, a).Some?
    ensures Grounded(NextDeploy(s, d, a).value)
  {
    hide PollOne, Close, WasTaken, WasCopied, KeyOf, ValidName, Grounded;
    var t := NextDeploy(s, d, a).value;
    assert t.deployers == s.deployers[d := t.deployers[d]] && t.deletions == s.deletions;
    MovedGrounded(s, t, d, t.deployers[d]);
  }

  lemma ClaimGrounded(s: State, d: nat)
    requires d < |s.deployers|
    requires NamesValid(s) && Grounded(s) && ClaimStep(s, d).Some?
    ensures Grounded(ClaimStep(s, d).value)
  {
    var t := ClaimStep(s, d).value;
    var m := s.deployers[d].rest[0];
    var key := KeyOf(m);
    assert key != "" by {
      assert m in HeldBy(s.deployers[d]);
      assert IsImageName(m.value);
    }
    hide KeyOf, NamesValid;
    if key in s.processing {
      assert WasFilled(s.history, key, s.processing[key]) && ValidName(s.processing[key].sourceNamespace);
      hide Grounded, ValidName, WasFilled, WasCopied;
      GroundedStays(s, t.history);
      var last := |s.history|;
      assert t.history[last] == Taken(key, s.processing[key]) && t.history[..last] == s.history;
      assert WasTaken(t.history, key, s.processing[key]);
      hide WasTaken;
      MovedGrounded(s.(history := t.history), t, d, t.deployers[d]);
    } else {
      hide Grounded;
      MovedGrounded(s, t, d, Resting);
    }
  }

  lemma AbandonGrounded(s: State, d: nat)
    requires d < |s.deployers| && d < |s.registries|
    requires Grounded(s) && NextDeploy(s, d, Abandon).Some?
    ensures Grounded(NextDeploy(s, d, Abandon).value)
  {
    hide WasFilled, WasTaken, WasCopied, KeyOf, ValidName, LogsGrounded, HistoryGrounded;
    var t := NextDeploy(s, d, Abandon).value;
    GroundedStays(s, t.history);
  }

  lemma PrepareGrounded(s: State, d: nat, get: bool, create: bool)
    requires d < |s.deployers|
    requires Grounded(s) && PrepareStep(s, d, get, create).Some?
    ensures Grounded(PrepareStep(s, d, get, create).value)
  {
  }

  lemma CopyGrounded(s: State, d: nat)
    requires d < |s.deployers| && d < |s.registries|
    requires NamesValid(s) && Grounded(s) && CopyStep(s, d).Some?
    ensures Grounded(CopyStep(s, d).value)
  {
    var t := CopyStep(s, d).value;
    var m, info := s.deployers[d].msg, s.deployers[d].info;
    assert m in HeldBy(s.deployers[d]);
    ImageNameFacts(m.value);
    GroundedStays(s, t.history);
    var last := |s.history|;
    assert t.history[..last] == s.history && IsCopyFor(t.history[last], KeyOf(m), info);
    assert WasTaken(s.history, KeyOf(m), info);
    assert WasCopied(t.history, KeyOf(m), info);
    hide WasFilled, WasTaken, WasCopied, KeyOf, ValidName, IsImageName, CanCreate, CopyOf, LogsGrounded,
      HistoryGrounded;
  }

  lemma AnnounceGrounded(s: State, d: nat, to: Option<nat>)
    requires d < |s.deployers|
    requires NamesValid(s) && Grounded(s) && AnnounceStep(s, d, to).Some?
    ensures Grounded(AnnounceStep(s, d, to).value)
  {
    var t := AnnounceStep(s, d, to).value;
    var m, info := s.deployers[d].msg, s.deployers[d].info;
    assert m in HeldBy(s.deployers[d]);
    GroundedStays(s, t.history);
    hide WasFilled, WasTaken, WasCopied, ValidName, IsImageName, DeployerOldName;
    assert WasCopied(t.history, KeyOf(m), info) by { assert PhaseGrounded(t.history, s.deployers[d]); }
    assert IsAnnouncement(t.history, DeleteMessage(info, m));
    hide KeyOf, HistoryGrounded, IsAnnouncement;
  }

  /** The daemon deletes exactly what an announcement names: the pod whose copy was made. */
  lemma RestoreGrounded(s: State, q: nat, commits: bool, api: RestoreDaemon.Api)
    requires Grounded(s) && RestoreStep(s, q, commits, api).Some?
    ensures Grounded(RestoreStep(s, q, commits, api).value)
  {
    var t := RestoreStep(s, q, commits, api).value;
    var m := s.deletions[q].log[s.deletions[q].committed];
    AnnouncementVictim(s.history, m);
    RestoreFrame(s, q, commits, api);
    var victim := RestoreDaemon.Victim(RestoreDaemon.Decode(m));
    hide Grounded, Justified, IsAnnouncement, RestoreStep, RestoreDaemon.Victim, RestoreDaemon.Decode;
    if t.history == s.history {
      SameLogsGrounded(s, t);
    } else {
      DeletionGrounded(s, victim.value);
      SameLogsGrounded(s.(history := s.history + [Deleted(victim.value)]), t);
    }
  }

  lemma SameLogsGrounded(s: State, t: State)
    requires Grounded(s)
    requires t.history == s.history && t.processing == s.processing && t.deployers == s.deployers
    requires |t.deletions| == |s.deletions| &&
        forall q :: 0 <= q < |s.deletions| ==> t.deletions[q].log == s.deletions[q].log
    ensures Grounded(t)
  {
  }

  /** Decoding an announcement, by the daemon's own decoders, gives back the namespace of the entry
      and the key under which the deployer claimed it. */
  lemma AnnouncementVictim(h: seq<Effect>, m: Message)
    requires IsAnnouncement(h, m)
    ensures !RestoreDaemon.Decode(m).Panic?
    ensures var victim := RestoreDaemon.Victim(RestoreDaemon.Decode(m));
            victim.Some? ==> Justified(h, victim.value) && victim.value.name == DeployerOldName(m.key)
  {
    hide WasCopied;
    var info, node :| WasCopied(h, DeployerOldName(m.key), info) && ValidName(info.sourceNamespace)
                      && m.value == EncodeValue(info.sourceNamespace, node);
    ValueRoundTrip(info.sourceNamespace, node);
    ImageNameFacts(m.key);
  }

  lemma DeletionGrounded(s: State, at: PodKey)
    requires Grounded(s) && Justified(s.history, at)
    ensures Grounded(s.(history := s.history + [Deleted(at)]))
  {
    hide WasFilled, PhaseGrounded, IsAnnouncement, Justified;
    var h := s.history + [Deleted(at)];
    forall k | k in s.processing ensures WasFilled(h, k, s.processing[k]) {
      FilledStays(s.history, h, k, s.processing[k]);
    }
    forall d | 0 <= d < |s.deployers| ensures PhaseGrounded(h, s.deployers[d]) {
      PhaseStays(s.history, h, s.deployers[d]);
    }
    forall q | 0 <= q < |s.deletions| ensures LogGrounded(h, s.deletions[q].log) {
      forall m | m in s.deletions[q].log ensures IsAnnouncement(h, m) {
        AnnouncementStays(s.history, h, m);
      }
    }
    forall i | 0 <= i < |h| && h[i].Deleted? ensures Justified(h[..i], h[i].at) {
      if i < |s.history| { assert h[i] == s.history[i]; }
      assert h[..i] == s.history[..i];
    }
  }

  lemma GroundedStep(s: State, step: Step)
    requires NamesValid(s) && Grounded(s) && Next(s, step).Some?
    ensures Grounded(Next(s, step).value)
  {
    hide NamesValid, Grounded, NextReconcile, NextDeploy, RestoreStep;
    match step
    case Reconcile(r) => ReconcileGrounded(s, r);
    case Build(b) => SameGrounded(s, Next(s, step).value);
    case Deploy(d, a) => DeployGrounded(s, d, a);
    case OfCluster(c) =>
      match c
      case Restore(q, commits, api) => RestoreGrounded(s, q, commits, api);
      case _ => SameGrounded(s, Next(s, step).value);
  }

  // ---------------------------------------------------------------- the theorems, over every run

  lemma InitGrounded(s: State)
    requires Init(s)
    ensures NamesValid(s) && Grounded(s)
  {
  }

  lemma {:induction false} RunGrounded(s: State, steps: seq<Step>)
    requires NamesValid(s) && Grounded(s) && Run(s, steps).Some?
    ensures NamesValid(Run(s, steps).value) && Grounded(Run(s, steps).value)
    decreases steps
  {
    hide NamesValid, Grounded, Next;
    if steps != [] {
      NamesStep(s, steps[0]);
      GroundedStep(s, steps[0]);
      RunGrounded(Next(s, steps[0]).value, steps[1..]);
    }
  }

  /** In every run of the system, with every interleaving and every failure: whenever an old pod is
      deleted, an entry for exactly its name and namespace was filled, then claimed, and then its
      copy was created in the namespace and on the node of that entry. */
  lemma OldPodDeletedOnlyAfterItsCopy(s: State, steps: seq<Step>, i: nat)
    requires Init(s) && Run(s, steps).Some?
    requires i < |Run(s, steps).value.history| && Run(s, steps).value.history[i].Deleted?
    ensures var h := Run(s, steps).value.history; Justified(h[..i], h[i].at)
  {
    InitGrounded(s);
    RunGrounded(s, steps);
  }

  /** Every message ever on delete-pod can be decoded by the daemon, and both decoders recover the
      key under which the deployer claimed the entry. */
  lemma EveryDeleteMessageDecodes(s: State, steps: seq<Step>, q: nat, m: Message)
    requires Init(s) && Run(s, steps).Some?
    requires q < |Run(s, steps).value.deletions| && m in Run(s, steps).value.deletions[q].log
    ensures '/' in m.value && !RestoreDaemon.Decode(m).Panic?
    ensures DaemonOldName(m.key) == DeployerOldName(m.key) && m.key == CHECKPOINT + DeployerOldName(m.key)
    ensures exists info :: WasCopied(Run(s, steps).value.history, DeployerOldName(m.key), info)
                           && DecodeValue(m.value).value.0 == info.sourceNamespace
  {
    InitGrounded(s);
    RunGrounded(s, steps);
    var h := Run(s, steps).value.history;
    assert IsAnnouncement(h, m);
    AnnouncementVictim(h, m);
    ImageNameFacts(m.key);
    var info, node :| WasCopied(h, DeployerOldName(m.key), info) && ValidName(info.sourceNamespace)
                      && m.value == EncodeValue(info.sourceNamespace, node);
    ValueRoundTrip(info.sourceNamespace, node);
  }
}
