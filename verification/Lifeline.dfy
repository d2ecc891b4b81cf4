/** No lineage is lost: through any run of the operator, every container keeps a pod that has its memory
    or descends from a checkpoint of it, provided every pod has one container and no two pods share a
    lineage of names. */
module Lifeline {
  import opened Handoff
  import opened Kafka
  import opened Migrations
  import opened Names
  import opened Protocol
  import opened Registry
  import opened Routing
  import opened Trail
  import opened Wrappers
  import Reconciler
  import RestoreDaemon

  /** Whose memory a name stands for, however often it has been migrated. */
  type Origin = string -> Workload

  /** A pod with one container, and its memory. */
  predicate IsSole(pod: Pod, memory: Workload) {
    |pod.containers| == 1 && pod.containers[0].memory == Some(memory)
  }

  ghost predicate FaithfulPods(origin: Origin, pods: map<PodKey, Pod>) {
    forall k :: k in pods ==> IsSole(pods[k], origin(Root(k.name)))
  }

  ghost predicate FaithfulJobs(origin: Origin, jobs: seq<Job>) {
    forall i :: 0 <= i < |jobs| ==> jobs[i].memory == Some(origin(Root(jobs[i].image)))
  }

  ghost predicate FaithfulImages(origin: Origin, images: Images) {
    forall x :: x in images ==> images[x].memory == Some(origin(Root(x.1)))
  }

  /** Some pod of the lineage has been migrated at least this often. */
  predicate AliveAt(pods: map<PodKey, Pod>, root: string, depth: nat) {
    exists k :: k in pods && Root(k.name) == root && Depth(k.name) >= depth
  }

  /** The copy that an announcement, sent or about to be sent, is about still has a live descendant. */
  predicate CopyAlive(pods: map<PodKey, Pod>, copy: string) {
    AliveAt(pods, Root(copy), Depth(copy))
  }

  predicate PhasesAlive(pods: map<PodKey, Pod>, deployers: seq<Phase>) {
    forall d :: 0 <= d < |deployers| && deployers[d].CopyMade? ==> CopyAlive(pods, deployers[d].msg.value)
  }

  predicate LogAlive(pods: map<PodKey, Pod>, log: seq<Message>) {
    forall m :: m in log ==> IsImageName(m.key) && CopyAlive(pods, m.key)
  }

  predicate LogsAlive(pods: map<PodKey, Pod>, deletions: seq<DeleteLog>) {
    forall q :: 0 <= q < |deletions| ==> LogAlive(pods, deletions[q].log)
  }

  predicate RootsAlive(pods: map<PodKey, Pod>, roots: set<string>) {
    forall r :: r in roots ==> AliveAt(pods, r, 0)
  }

  ghost predicate Faithful(origin: Origin, roots: set<string>, s: State) {
    && FaithfulPods(origin, s.pods) && FaithfulJobs(origin, s.jobs) && FaithfulImages(origin, s.images)
    && PhasesAlive(s.pods, s.deployers) && LogsAlive(s.pods, s.deletions) && RootsAlive(s.pods, roots)
  }

  /** Nobody but the restore daemon deletes pods, and pods created by others are what their lineage
      of names says they are. */
  predicate Benign(origin: Origin, step: Step) {
    && !(step.OfCluster? && step.c.OthersDelete?)
    && (step.OfCluster? && step.c.OthersCreate? ==> IsSole(step.c.what, origin(Root(step.c.pod.name))))
  }

  predicate AllBenign(origin: Origin, steps: seq<Step>) {
    forall i :: 0 <= i < |steps| ==> Benign(origin, steps[i])
  }

  /** Every pod has one container, whose memory its name leads back to; no two pods share a lineage then. */
  predicate TracesBack(origin: Origin, pods: map<PodKey, Pod>) {
    forall k :: k in pods ==> IsSole(pods[k], origin(Root(k.name)))
  }

  // ---------------------------------------------------------------- liveness of a lineage

  lemma AllAliveStay(s: State, more: map<PodKey, Pod>, roots: set<string>)
    requires PhasesAlive(s.pods, s.deployers) && LogsAlive(s.pods, s.deletions) && RootsAlive(s.pods, roots)
    requires s.pods.Keys <= more.Keys
    ensures PhasesAlive(more, s.deployers) && LogsAlive(more, s.deletions) && RootsAlive(more, roots)
  {
  }

  /** Deleting the original of a copy whose lineage reaches deeper ends no lineage at all. */
  lemma DeletionSparesLineages(pods: map<PodKey, Pod>, victim: PodKey, copy: string, root: string, depth: nat)
    requires CopyAlive(pods, copy) && Root(copy) == Root(victim.name) && Depth(copy) == Depth(victim.name) + 1
    requires AliveAt(pods, root, depth)
    ensures AliveAt(pods - {victim}, root, depth)
  {
    var deep :| deep in pods && Root(deep.name) == Root(copy) && Depth(deep.name) >= Depth(copy);
    var k :| k in pods && Root(k.name) == root && Depth(k.name) >= depth;
    assert deep != victim;
    assert deep in pods - {victim};
    if k != victim { assert k in pods - {victim}; }
  }

  // ---------------------------------------------------------------- one step

  lemma FaithfulReconcile(origin: Origin, roots: set<string>, s: State, r: ReconcileStep)
    requires NamesValid(s) && Faithful(origin, roots, s) && NextReconcile(s, r).Some?
    ensures Faithful(origin, roots, NextReconcile(s, r).value)
  {
    hide CheckpointStep, ListStep, Faithful, NamesValid;
    ReconcileFrame(s, r);
    match r
    case Checkpoint(a, stamp) => FaithfulCheckpoint(origin, roots, s, a, stamp);
    case _ => SameFaithful(origin, roots, s, NextReconcile(s, r).value);
  }

  lemma SameFaithful(origin: Origin, roots: set<string>, s: State, t: State)
    requires Faithful(origin, roots, s)
    requires t.pods == s.pods && t.jobs == s.jobs && t.images == s.images
    requires t.deployers == s.deployers && t.deletions == s.deletions
    ensures Faithful(origin, roots, t)
  {
  }

  lemma FaithfulCheckpoint(origin: Origin, roots: set<string>, s: State, a: Reconciler.Answers, stamp: string)
    requires NamesValid(s) && Faithful(origin, roots, s) && CheckpointStep(s, a, stamp).Some?
    ensures Faithful(origin, roots, CheckpointStep(s, a, stamp).value)
  {
    var t := CheckpointStep(s, a, stamp).value;
    var target := s.work.targets[0];
    var key := target.listed.key;
    JobsOfAttempt(s, s.work.spec, target, a, stamp);
    CopyIsOneDeeper(key.name);
    hide Reconciler.Attempt, JobsOf, CanAnswer, NamesValid;
    assert FaithfulJobs(origin, t.jobs);
    hide FaithfulJobs;
  }

  lemma FaithfulBuild(origin: Origin, roots: set<string>, s: State, b: BuildStep)
    requires Faithful(origin, roots, s) && NextBuild(s, b).Some?
    ensures Faithful(origin, roots, NextBuild(s, b).value)
  {
  }

  lemma FaithfulDeploy(origin: Origin, roots: set<string>, s: State, d: nat, a: DeployStep)
    requires d < |s.deployers| && d < |s.registries|
    requires NamesValid(s) && Routed(s) && Faithful(origin, roots, s) && NextDeploy(s, d, a).Some?
    ensures Faithful(origin, roots, NextDeploy(s, d, a).value)
  {
    hide Faithful, NamesValid, Routed, ClaimStep, PrepareStep, CopyStep, AnnounceStep, PollStep;
    match a
    case PollTopic(poll) => FaithfulPoll(origin, roots, s, d, poll);
    case Claim => FaithfulClaim(origin, roots, s, d);
    case Prepare(get, create) => FaithfulPrepare(origin, roots, s, d, get, create);
    case CreateCopy => FaithfulCopy(origin, roots, s, d);
    case Announce(to) => FaithfulAnnounce(origin, roots, s, d, to);
    case _ => FaithfulReader(origin, roots, s, d, a);
  }

  /** A deployer moves to a phase in which it has made no new copy. */
  lemma MoveFaithful(origin: Origin, roots: set<string>, s: State, t: State, d: nat, phase: Phase)
    requires Faithful(origin, roots, s) && d < |s.deployers|
    requires t.pods == s.pods && t.jobs == s.jobs && t.images == s.images
    requires t.deletions == s.deletions && t.deployers == s.deployers[d := phase] && !phase.CopyMade?
    ensures Faithful(origin, roots, t)
  {
  }

  lemma FaithfulReader(origin: Origin, roots: set<string>, s: State, d: nat, a: DeployStep)
    requires d < |s.deployers| && d < |s.registries|
    requires a.OpenReader? || a.Rebalance? || a.CloseReader? || a.Abandon? || a.EndBatch?
    requires Faithful(origin, roots, s) && NextDeploy(s, d, a).Some?
    ensures Faithful(origin, roots, NextDeploy(s, d, a).value)
  {
    hide KeyOf, Faithful, Close;
    var t := NextDeploy(s, d, a).value;
    assert t.deployers == s.deployers[d := t.deployers[d]];
    MoveFaithful(origin, roots, s, t, d, t.deployers[d]);
  }

  lemma FaithfulPoll(origin: Origin, roots: set<string>, s: State, d: nat, poll: Poll)
    requires d < |s.deployers| && d < |s.registries|
    requires Faithful(origin, roots, s) && PollStep(s, d, poll).Some?
    ensures Faithful(origin, roots, PollStep(s, d, poll).value)
  {
    hide PollOne, Close, Faithful;
    var t := PollStep(s, d, poll).value;
    assert t.deployers == s.deployers[d := t.deployers[d]];
    MoveFaithful(origin, roots, s, t, d, t.deployers[d]);
  }

  lemma FaithfulClaim(origin: Origin, roots: set<string>, s: State, d: nat)
    requires d < |s.deployers| && Faithful(origin, roots, s) && ClaimStep(s, d).Some?
    ensures Faithful(origin, roots, ClaimStep(s, d).value)
  {
  }

  lemma FaithfulPrepare(origin: Origin, roots: set<string>, s: State, d: nat, get: bool, create: bool)
    requires d < |s.deployers| && Faithful(origin, roots, s) && PrepareStep(s, d, get, create).Some?
    ensures Faithful(origin, roots, PrepareStep(s, d, get, create).value)
  {
  }

  lemma FaithfulCopy(origin: Origin, roots: set<string>, s: State, d: nat)
    requires d < |s.deployers| && d < |s.registries|
    requires Routed(s) && Faithful(origin, roots, s) && CopyStep(s, d).Some?
    ensures Faithful(origin, roots, CopyStep(s, d).value)
  {
    var t := CopyStep(s, d).value;
    var info, m, rest := s.deployers[d].info, s.deployers[d].msg, s.deployers[d].rest;
    var at := CopyKey(info, m);
    assert PhaseBacked(s.registries, s.images, d, s.deployers[d]) && m in HeldBy(s.deployers[d]);
    assert t.pods == s.pods[at := t.pods[at]] && at.name == m.value;
    assert FaithfulPods(origin, t.pods);
    AllAliveStay(s, t.pods, roots);
    assert CopyAlive(t.pods, m.value) by { assert at in t.pods; }
    hide ImageLocation, KeyOf, CanCreate, AliveAt, CopyAlive, FaithfulPods, FaithfulJobs, FaithfulImages, Routed,
        LogsAlive, RootsAlive;
  }

  lemma FaithfulAnnounce(origin: Origin, roots: set<string>, s: State, d: nat, to: Option<nat>)
    requires d < |s.deployers| && NamesValid(s) && Faithful(origin, roots, s) && AnnounceStep(s, d, to).Some?
    ensures Faithful(origin, roots, AnnounceStep(s, d, to).value)
  {
    var t := AnnounceStep(s, d, to).value;
    var m := s.deployers[d].msg;
    assert m in HeldBy(s.deployers[d]);
    assert IsImageName(m.value) && CopyAlive(s.pods, m.value);
    hide KeyOf, IsImageName, CopyAlive, RootsAlive, FaithfulPods, FaithfulJobs, FaithfulImages, NamesValid;
    assert LogsAlive(t.pods, t.deletions);
    hide LogsAlive;
  }

  /** The heart of the matter: the daemon may delete the pod an announcement names, because the
      lineage of that pod is alive at a greater depth. */
  lemma FaithfulRestore(origin: Origin, roots: set<string>, s: State, q: nat, commits: bool, api: RestoreDaemon.Api)
    requires Faithful(origin, roots, s) && RestoreStep(s, q, commits, api).Some?
    ensures Faithful(origin, roots, RestoreStep(s, q, commits, api).value)
  {
    hide RestoreStep, RestoreDaemon.Victim, RestoreDaemon.Decode, FaithfulPods, FaithfulJobs, FaithfulImages,
      PhasesAlive, LogAlive, RootsAlive, CopyAlive, IsImageName;
    var t := RestoreStep(s, q, commits, api).value;
    RestoreFrame(s, q, commits, api);
    RestoreReads(s, q, commits, api);
    var m := s.deletions[q].log[s.deletions[q].committed];
    var victim := RestoreDaemon.Victim(RestoreDaemon.Decode(m));
    AnnouncedIsAlive(s.pods, s.deletions[q].log, m);
    if t.pods != s.pods {
      VictimIsShallower(m, victim.value);
      DeletionSparesAll(s, victim.value, m.key, roots);
      FewerFaithful(origin, s.pods, victim.value);
    }
    SameLogsAlive(t.pods, s.deletions, t.deletions);
  }

  lemma RestoreReads(s: State, q: nat, commits: bool, api: RestoreDaemon.Api)
    requires RestoreStep(s, q, commits, api).Some?
    ensures q < |s.deletions| && s.deletions[q].committed < |s.deletions[q].log|
  {
  }

  lemma AnnouncedIsAlive(pods: map<PodKey, Pod>, log: seq<Message>, m: Message)
    requires LogAlive(pods, log) && m in log
    ensures IsImageName(m.key) && CopyAlive(pods, m.key)
  {
  }

  lemma VictimIsShallower(m: Message, victim: PodKey)
    requires IsImageName(m.key) && RestoreDaemon.Victim(RestoreDaemon.Decode(m)) == Some(victim)
    ensures Root(m.key) == Root(victim.name) && Depth(m.key) == Depth(victim.name) + 1
  {
    ImageNameFacts(m.key);
    CopyIsOneDeeper(victim.name);
  }

  lemma FewerFaithful(origin: Origin, pods: map<PodKey, Pod>, victim: PodKey)
    requires FaithfulPods(origin, pods)
    ensures FaithfulPods(origin, pods - {victim})
  {
  }

  lemma SameLogsAlive(pods: map<PodKey, Pod>, a: seq<DeleteLog>, b: seq<DeleteLog>)
    requires LogsAlive(pods, a) && |b| == |a| && forall i :: 0 <= i < |a| ==> b[i].log == a[i].log
    ensures LogsAlive(pods, b)
  {
    hide LogAlive;
  }

  lemma DeletionSparesAll(s: State, victim: PodKey, copy: string, roots: set<string>)
    requires PhasesAlive(s.pods, s.deployers) && LogsAlive(s.pods, s.deletions) && RootsAlive(s.pods, roots)
    requires CopyAlive(s.pods, copy) && Root(copy) == Root(victim.name) && Depth(copy) == Depth(victim.name) + 1
    ensures var pods := s.pods - {victim};
            PhasesAlive(pods, s.deployers) && LogsAlive(pods, s.deletions) && RootsAlive(pods, roots)
  {
    hide AliveAt, IsImageName;
    forall root: string, depth: nat | AliveAt(s.pods, root, depth) ensures AliveAt(s.pods - {victim}, root, depth) {
      DeletionSparesLineages(s.pods, victim, copy, root, depth);
    }
  }

  lemma FaithfulCluster(origin: Origin, roots: set<string>, s: State, c: ClusterStep)
    requires NamesValid(s) && Faithful(origin, roots, s) && Benign(origin, OfCluster(c)) && NextCluster(s, c).Some?
    ensures Faithful(origin, roots, NextCluster(s, c).value)
  {
    hide RestoreStep;
    if c.Restore? {
      FaithfulRestore(origin, roots, s, c.log, c.commits, c.api);
      hide Faithful;
    } else {
      var t := NextCluster(s, c).value;
      AllAliveStay(s, t.pods, roots);
      assert FaithfulPods(origin, t.pods);
      hide FaithfulPods, FaithfulJobs, FaithfulImages, PhasesAlive, LogsAlive, RootsAlive;
    }
  }

  lemma FaithfulStep(origin: Origin, roots: set<string>, s: State, step: Step)
    requires NamesValid(s) && Routed(s) && Faithful(origin, roots, s) && Benign(origin, step) && Next(s, step).Some?
    ensures Faithful(origin, roots, Next(s, step).value)
  {
    hide NamesValid, Routed, Faithful, NextReconcile, NextBuild, NextDeploy, NextCluster;
    match step
    case Reconcile(r) => FaithfulReconcile(origin, roots, s, r);
    case Build(b) => FaithfulBuild(origin, roots, s, b);
    case Deploy(d, a) => FaithfulDeploy(origin, roots, s, d, a);
    case OfCluster(c) => FaithfulCluster(origin, roots, s, c);
  }

  lemma {:induction false} RunFaithful(origin: Origin, roots: set<string>, s: State, steps: seq<Step>)
    requires NamesValid(s) && Routed(s) && Faithful(origin, roots, s) && Run(s, steps).Some?
    requires AllBenign(origin, steps)
    ensures Faithful(origin, roots, Run(s, steps).value)
    decreases steps
  {
    hide NamesValid, Routed, Faithful, Next;
    if steps != [] {
      NamesStep(s, steps[0]);
      RoutedStep(s, steps[0]);
      FaithfulStep(origin, roots, s, steps[0]);
      RunFaithful(origin, roots, Next(s, steps[0]).value, steps[1..]);
    }
  }

  // ---------------------------------------------------------------- the theorem

  predicate Carries(pod: Pod, w: Workload) {
    exists i :: 0 <= i < |pod.containers| && pod.containers[i].memory == Some(w)
  }

  predicate Carried(pods: map<PodKey, Pod>, w: Workload) {
    exists k :: k in pods && Carries(pods[k], w)
  }

  /** In every run in which only the daemon deletes pods, whatever else fails, repeats or overtakes,
      and however often pods and their copies are migrated, overwritten and redelivered: every container
      the cluster began with has a pod that carries its memory, as of some checkpoint. */
  lemma NoLineageLost(origin: Origin, s: State, steps: seq<Step>, w: Workload)
    requires Init(s) && RegistriesOk(s.registries) && Run(s, steps).Some?
    requires TracesBack(origin, s.pods) && AllBenign(origin, steps) && Carried(s.pods, w)
    ensures Carried(Run(s, steps).value.pods, w)
  {
    hide Init, RegistriesOk, Faithful, Run, NamesValid, Routed, IsSole, Carries;
    var roots := set k | k in s.pods :: Root(k.name);
    InitFaithful(origin, s, roots);
    RunFaithful(origin, roots, s, steps);
    FaithfulCarries(origin, roots, s, Run(s, steps).value, w);
  }

  lemma InitFaithful(origin: Origin, s: State, roots: set<string>)
    requires Init(s) && RegistriesOk(s.registries) && TracesBack(origin, s.pods)
    requires roots == set k | k in s.pods :: Root(k.name)
    ensures NamesValid(s) && Routed(s) && Faithful(origin, roots, s)
  {
    forall r | r in roots ensures AliveAt(s.pods, r, 0) {
      var k :| k in s.pods && Root(k.name) == r;
    }
    InitGrounded(s);
    InitRouted(s);
    hide NamesValid, Routed, RegistriesOk;
  }

  lemma FaithfulCarries(origin: Origin, roots: set<string>, s: State, t: State, w: Workload)
    requires Faithful(origin, roots, t) && TracesBack(origin, s.pods) && Carried(s.pods, w)
    requires roots == set k | k in s.pods :: Root(k.name)
    ensures Carried(t.pods, w)
  {
    hide FaithfulJobs, FaithfulImages, PhasesAlive, LogsAlive;
    var home :| home in s.pods && Carries(s.pods[home], w);
    assert Root(home.name) in roots;
    assert AliveAt(t.pods, Root(home.name), 0);
    var k :| k in t.pods && Root(k.name) == Root(home.name);
    assert IsSole(t.pods[k], w);
    assert Carries(t.pods[k], w);
  }
}
