/** Which checkpoint a copy is restored from: exactly when that is one taken before the entry it was
    made for had even been filled, so that all that the pod has done since is lost. */
module Freshness {
  import opened Completion
  import opened Deliveries
  import opened Handoff
  import opened Kafka
  import opened Migrations
  import opened Names
  import opened Protocol
  import opened Reachability
  import opened Registry
  import opened Routing
  import opened Schedule
  import opened Stability
  import opened Trail
  import opened Wrappers
  import Reconciler

  // ---------------------------------------------------------------- what keeps a system operating

  /** Every build job pushes to one of the registries. */
  predicate JobsPlaced(registries: seq<RegistryPod>, jobs: seq<Job>) {
    forall j :: 0 <= j < |jobs| ==> RegistryAt(registries, jobs[j].registryIp) < |registries|
  }

  ghost predicate Operating(s: State) {
    && NamesValid(s) && Routed(s) && AllAccounted(s.topic) && JobsPlaced(s.registries, s.jobs)
    && |s.deployers| == |s.registries| > 0 && s.topic != []
  }

  lemma LookedUpIsPlaced(registries: seq<RegistryPod>, node: string)
    requires registries != []
    ensures RegistryAt(registries, RegistryIP(registries, node)) < |registries|
  {
    var r := RegistryFor(registries, node);
    assert registries[r].podIP == RegistryIP(registries, node);
  }

  lemma CheckpointPlaced(s: State, a: Reconciler.Answers, stamp: string)
    requires NamesValid(s) && s.registries != [] && JobsPlaced(s.registries, s.jobs)
    requires CheckpointStep(s, a, stamp).Some?
    ensures JobsPlaced(s.registries, CheckpointStep(s, a, stamp).value.jobs)
  {
    var spec, target := s.work.spec, s.work.targets[0];
    JobsOfAttempt(s, spec, target, a, stamp);
    LookedUpIsPlaced(s.registries, spec.destinationNamespace);
    hide Reconciler.Attempt, JobsOf, CanAnswer, RegistryIP, RegistryAt;
  }

  lemma StepSizes(s: State, step: Step)
    requires Next(s, step).Some? && NamesValid(s) && s.registries != [] && JobsPlaced(s.registries, s.jobs)
    ensures var t := Next(s, step).value;
            && t.registries == s.registries && |t.deployers| == |s.deployers| && s.jobs <= t.jobs
            && JobsPlaced(t.registries, t.jobs)
  {
    hide NextReconcile, NextBuild, NextDeploy, NextCluster, NamesValid, CheckpointStep, JobsPlaced;
    match step
    case Reconcile(r) =>
      ReconcileFrame(s, r);
      if r.Checkpoint? {
        ReconcileNext(s, r);
        CheckpointIsNext(s, r.answers, r.stamp);
        CheckpointPlaced(s, r.answers, r.stamp);
      }
    case Build(b) => BuildFrame(s, b);
    case Deploy(d, a) => DeployFrame(s, d, a); OtherDeployersStay(s, d, a);
    case OfCluster(c) => ClusterFrame(s, c);
  }

  lemma CheckpointIsNext(s: State, a: Reconciler.Answers, stamp: string)
    ensures NextReconcile(s, Reconcile(Checkpoint(a, stamp)).r) == CheckpointStep(s, a, stamp)
  {
    hide CheckpointStep;
  }

  lemma StepOperating(s: State, step: Step)
    requires Operating(s) && Next(s, step).Some?
    ensures var t := Next(s, step).value; Operating(t) && t.registries == s.registries && s.jobs <= t.jobs
  {
    hide Next, NamesValid, Routed, AllAccounted, JobsPlaced;
    NamesStep(s, step);
    RoutedStep(s, step);
    StepTopic(s, step);
    StepSizes(s, step);
  }

  lemma {:induction false} AlongOperating(s: State, steps: seq<Step>, k: nat)
    requires Operating(s) && Run(s, steps).Some? && k <= |steps|
    ensures Operating(After(s, steps, k)) && After(s, steps, k).registries == s.registries
    decreases k
  {
    hide Next, Run, After, Operating;
    AfterEnds(s, steps);
    if k > 0 {
      AlongOperating(s, steps, k - 1);
      AfterNext(s, steps, k - 1);
      StepOperating(After(s, steps, k - 1), steps[k - 1]);
    }
  }

  lemma {:induction false} JobsAlong(s: State, steps: seq<Step>, i: nat, k: nat)
    requires Operating(s) && Run(s, steps).Some? && i <= k <= |steps|
    ensures After(s, steps, i).jobs <= After(s, steps, k).jobs
    decreases k
  {
    hide Next, Run, After, Operating;
    if i < k {
      JobsAlong(s, steps, i, k - 1);
      AlongOperating(s, steps, k - 1);
      AfterNext(s, steps, k - 1);
      StepOperating(After(s, steps, k - 1), steps[k - 1]);
    }
  }

  lemma InitOperating(s: State)
    requires Init(s) && RegistriesOk(s.registries) && s.registries != [] && s.topic != []
    ensures Operating(s)
  {
    InitGrounded(s);
    InitRouted(s);
    hide NamesValid, Routed, RegistriesOk;
  }

  // ---------------------------------------------------------------- which push an image is from

  /** Step k runs job j, which pushes the image to registry r. */
  ghost predicate PushesAt(s: State, steps: seq<Step>, k: nat, r: nat, image: string, j: nat)
    requires Run(s, steps).Some?
  {
    && k < |steps| && steps[k] == Build(RunJob(j)) && j < |After(s, steps, k).jobs|
    && After(s, steps, k).jobs[j].image == image
    && RegistryAt(s.registries, After(s, steps, k).jobs[j].registryIp) == r
  }

  /** Job j was the last one before step c to push the image to registry r. */
  ghost predicate LastPush(s: State, steps: seq<Step>, c: nat, r: nat, image: string, j: nat)
    requires Run(s, steps).Some?
  {
    exists k: nat :: k < c && PushesAt(s, steps, k, r, image, j)
                     && forall x: nat, i: nat :: k < x < c ==> !PushesAt(s, steps, x, r, image, i)
  }

  lemma StepImages(s: State, step: Step)
    requires Next(s, step).Some? && JobsPlaced(s.registries, s.jobs)
    ensures var t := Next(s, step).value;
            if step.Build? && step.b.RunJob? then
              && step.b.job < |s.jobs|
              && (var job := s.jobs[step.b.job];
                  t.images == s.images[(RegistryAt(s.registries, job.registryIp), job.image) :=
                                       Image(job.memory, step.b.job)])
            else t.images == s.images
  {
    hide NextReconcile, NextDeploy, NextCluster, RegistryAt, Publish, PushHost;
    match step
    case Reconcile(r) => ReconcileFrame(s, r);
    case Build(b) =>
    case Deploy(d, a) => DeployFrame(s, d, a);
    case OfCluster(c) => ClusterFrame(s, c);
  }

  /** What a registry holds is the checkpoint of the job that was run last. */
  lemma {:induction false} ImageIsLastPush(s: State, steps: seq<Step>, c: nat, r: nat, image: string, j: nat)
    requires Operating(s) && Run(s, steps).Some? && c <= |steps| && (r, image) !in s.images
    ensures var t := After(s, steps, c);
            && LastPush(s, steps, c, r, image, j) == ((r, image) in t.images && t.images[(r, image)].job == j)
            && ((r, image) in t.images && t.images[(r, image)].job == j ==>
                  j < |t.jobs| && t.jobs[j].image == image && t.images[(r, image)].memory == t.jobs[j].memory)
    decreases c
  {
    hide Next, Run, After, RegistryAt, NamesValid, Routed, AllAccounted, JobsPlaced;
    AfterEnds(s, steps);
    if c > 0 {
      var b: nat := c - 1;
      var t, step := After(s, steps, b), steps[b];
      ImageIsLastPush(s, steps, b, r, image, j);
      AlongOperating(s, steps, b);
      AfterNext(s, steps, b);
      StepImages(t, step);
      JobsAlong(s, steps, b, c);
      hide Operating;
      LastPushNext(s, steps, b, r, image, j);
      if step.Build? && step.b.RunJob? {
        var i := step.b.job;
        assert PushesAt(s, steps, b, r, image, i) <==>
                 t.jobs[i].image == image && RegistryAt(s.registries, t.jobs[i].registryIp) == r;
        assert forall x: nat :: PushesAt(s, steps, b, r, image, x) ==> x == i;
      } else {
        assert forall x: nat :: !PushesAt(s, steps, b, r, image, x);
      }
    }
  }

  lemma LastPushNext(s: State, steps: seq<Step>, c: nat, r: nat, image: string, j: nat)
    requires Run(s, steps).Some? && c < |steps|
    ensures LastPush(s, steps, c + 1, r, image, j) <==>
              PushesAt(s, steps, c, r, image, j)
              || (LastPush(s, steps, c, r, image, j) && forall i: nat :: !PushesAt(s, steps, c, r, image, i))
  {
    hide PushesAt, Run;
    if PushesAt(s, steps, c, r, image, j) { assert LastPush(s, steps, c + 1, r, image, j); }
    if k: nat :| k < c + 1 && PushesAt(s, steps, k, r, image, j)
                 && forall x: nat, i: nat :: k < x < c + 1 ==> !PushesAt(s, steps, x, r, image, i) {
      assert k < c ==> LastPush(s, steps, c, r, image, j);
    }
    if LastPush(s, steps, c, r, image, j) && forall i: nat :: !PushesAt(s, steps, c, r, image, i) {
      var k: nat :| k < c && PushesAt(s, steps, k, r, image, j)
                    && forall x: nat, i: nat :: k < x < c ==> !PushesAt(s, steps, x, r, image, i);
      assert forall x: nat, i: nat :: k < x < c + 1 ==> !PushesAt(s, steps, x, r, image, i);
    }
  }

  // ---------------------------------------------------------------- which entry a copy is made for

  /** The entry of p that is filled at f is claimed at a, and copied at c, by deployer d. */
  ghost predicate Restores(s: State, steps: seq<Step>, f: nat, a: nat, c: nat, d: nat, p: string)
    requires Run(s, steps).Some?
  {
    && f < a < c < |steps| && FillsAt(s, steps, f, p) && ClaimsAt(s, steps, a, p)
    && steps[a] == Deploy(d, Claim) && steps[c] == Deploy(d, CreateCopy)
    && (forall x: nat :: f < x < a ==> !FillsAt(s, steps, x, p))
    && (forall x: nat :: a < x < c ==> steps[x] != Deploy(d, Claim))
  }

  /** The entry as it was filled is what is claimed. */
  lemma {:induction false} EntryStays(s: State, steps: seq<Step>, f: nat, x: nat, a: nat, p: string)
    requires Run(s, steps).Some? && f < x <= a < |steps| && ClaimsAt(s, steps, a, p)
    requires forall y: nat :: f < y < a ==> !FillsAt(s, steps, y, p)
    ensures p in After(s, steps, x).processing && p in After(s, steps, a).processing
    ensures After(s, steps, x).processing[p] == After(s, steps, a).processing[p]
    decreases a - x
  {
    hide Next, Run, After, FillKey, Fill;
    if x < a {
      EntryStays(s, steps, f, x + 1, a, p);
      AfterNext(s, steps, x);
      StepMoves(After(s, steps, x), steps[x]);
      assert !FillsAt(s, steps, x, p);
    }
  }

  /** The deployer goes on with this entry and its message, or not at all. */
  predicate StillHas(phase: Phase, info: MigrationInfo, m: Message) {
    phase.Claimed? || phase.Prepared? ==> phase.info == info && phase.msg == m
  }

  lemma StepStillHas(s: State, step: Step, d: nat, info: MigrationInfo, m: Message)
    requires Next(s, step).Some? && d < |s.deployers| && StillHas(s.deployers[d], info, m) && step != Deploy(d, Claim)
    ensures var t := Next(s, step).value; d < |t.deployers| && StillHas(t.deployers[d], info, m)
  {
    hide NextReconcile, NextBuild, NextCluster;
    match step
    case Reconcile(r) => ReconcileFrame(s, r);
    case Build(b) => BuildFrame(s, b);
    case OfCluster(c) => ClusterFrame(s, c);
    case Deploy(x, a) =>
      if x == d { OwnStepStillHas(s, d, a, info, m); }
      else { DeployFrame(s, x, a); OtherDeployersStay(s, x, a); }
      hide NextDeploy;
  }

  lemma OwnStepStillHas(s: State, d: nat, a: DeployStep, info: MigrationInfo, m: Message)
    requires d < |s.deployers| && d < |s.registries| && !a.Claim? && StillHas(s.deployers[d], info, m)
    requires NextDeploy(s, d, a).Some?
    ensures var t := NextDeploy(s, d, a).value; d < |t.deployers| && StillHas(t.deployers[d], info, m)
  {
    hide KeyOf, CopyOf, CanCreate, CopyKey, EnsureNamespace, PollOne, Close, AppendTo, DeleteMessage;
  }

  lemma ClaimGives(s: State, step: Step, p: string)
    requires Next(s, step).Some? && ClaimKey(s, step) == Some(p)
    ensures step.d < |s.deployers| && s.deployers[step.d].Deploying? && s.deployers[step.d].rest != []
    ensures p in s.processing
    ensures var m := s.deployers[step.d].rest[0];
            && KeyOf(m) == p && step.d < |Next(s, step).value.deployers|
            && StillHas(Next(s, step).value.deployers[step.d], s.processing[p], m)
  {
    hide KeyOf;
  }

  lemma {:induction false} HeldUntil(s: State, steps: seq<Step>, a: nat, x: nat, d: nat, p: string) returns (m: Message)
    requires Run(s, steps).Some? && a < x <= |steps| && ClaimsAt(s, steps, a, p) && steps[a] == Deploy(d, Claim)
    requires forall y: nat :: a < y < x ==> steps[y] != Deploy(d, Claim)
    ensures d < |After(s, steps, x).deployers| && KeyOf(m) == p && p in After(s, steps, a).processing
    ensures StillHas(After(s, steps, x).deployers[d], After(s, steps, a).processing[p], m)
    decreases x
  {
    hide Next, Run, After, ClaimKey, StillHas, KeyOf;
    AfterNext(s, steps, x - 1);
    if x == a + 1 {
      ClaimGives(After(s, steps, a), steps[a], p);
      m := After(s, steps, a).deployers[d].rest[0];
    } else {
      m := HeldUntil(s, steps, a, x - 1, d, p);
      StepStillHas(After(s, steps, x - 1), steps[x - 1], d, After(s, steps, a).processing[p], m);
    }
  }

  /** What is copied: the image that d's registry holds at c, under the name of p's checkpoints, into
      the namespace that the entry was filled with. */
  lemma CopiesImage(s: State, steps: seq<Step>, f: nat, a: nat, c: nat, d: nat, p: string)
    requires Operating(s) && Run(s, steps).Some? && Restores(s, steps, f, a, c, d, p)
    ensures p in After(s, steps, f + 1).processing
    ensures var t, u := After(s, steps, c), After(s, steps, c + 1);
            var at := PodKey(After(s, steps, f + 1).processing[p].destinationNamespace, CHECKPOINT + p);
            && (d, CHECKPOINT + p) in t.images && at.namespace in t.namespaces
            && at in u.pods && u.pods == t.pods[at := u.pods[at]]
            && u.pods[at].containers == [Container(CHECKPOINT + p, t.images[(d, CHECKPOINT + p)].memory)]
            && d < |s.registries| && u.pods[at].image == ImageLocation(s.registries[d], CHECKPOINT + p)
            && u.pods[at].node == After(s, steps, f + 1).processing[p].destinationNode
  {
    hide Run, After, Next, StillHas, ImageLocation, Operating, ClaimKey, FillKey;
    EntryStays(s, steps, f, f + 1, a, p);
    var m := HeldUntil(s, steps, a, c, d, p);
    AfterNext(s, steps, c);
    AlongOperating(s, steps, c);
    CreatesFromImage(After(s, steps, c), d, After(s, steps, a).processing[p], m, p);
  }

  lemma CreatesFromImage(t: State, d: nat, info: MigrationInfo, m: Message, p: string)
    requires Operating(t) && Next(t, Deploy(d, CreateCopy)).Some? && d < |t.deployers|
    requires StillHas(t.deployers[d], info, m) && KeyOf(m) == p
    ensures var u := Next(t, Deploy(d, CreateCopy)).value;
            var at := PodKey(info.destinationNamespace, CHECKPOINT + p);
            && (d, CHECKPOINT + p) in t.images && at.namespace in t.namespaces
            && at in u.pods && u.pods == t.pods[at := u.pods[at]]
            && u.pods[at].containers == [Container(CHECKPOINT + p, t.images[(d, CHECKPOINT + p)].memory)]
            && d < |t.registries| && u.pods[at].image == ImageLocation(t.registries[d], CHECKPOINT + p)
            && u.pods[at].node == info.destinationNode
  {
    assert PhaseBacked(t.registries, t.images, d, t.deployers[d]) && m in HeldBy(t.deployers[d]);
    assert IsImageName(m.value);
    ImageNameFacts(m.value);
    ReaderNext(t, d, CreateCopy);
    hide ImageLocation, NamesValid, Routed, AllAccounted, JobsPlaced, Next, DeployerOldName;
  }

  /** The memory of the copy is that of the image its reference leads to when it is resolved. */
  lemma CopyRunsWhatItPulls(s: State, steps: seq<Step>, f: nat, a: nat, c: nat, d: nat, p: string)
    requires Operating(s) && Pullable(s.registries) && Run(s, steps).Some? && Restores(s, steps, f, a, c, d, p)
    ensures p in After(s, steps, f + 1).processing
    ensures var t, u := After(s, steps, c), After(s, steps, c + 1);
            var at := PodKey(After(s, steps, f + 1).processing[p].destinationNamespace, CHECKPOINT + p);
            && at in u.pods
            && (var reference := u.pods[at].image;
                var key := (RegistryServing(s.registries, HostOf(reference)), RepositoryOf(reference));
                && key in t.images && TagOf(reference) == "latest"
                && u.pods[at].containers == [Container(at.name, t.images[key].memory)])
  {
    hide Run, After, Restores, ImageLocation, HostOf, RepositoryOf, TagOf, RegistryServing, Pullable, Operating;
    CopiesImage(s, steps, f, a, c, d, p);
    PullLeadsBack(s.registries, d, CHECKPOINT + p);
  }

  // ---------------------------------------------------------------- exactly when a copy is stale

  /** The checkpoint that is restored at c was taken before the entry was filled at f. */
  ghost predicate Stale(s: State, steps: seq<Step>, f: nat, c: nat, d: nat, p: string)
    requires Run(s, steps).Some? && f <= |steps| && c <= |steps|
  {
    var t := After(s, steps, c);
    (d, CHECKPOINT + p) in t.images && t.images[(d, CHECKPOINT + p)].job < |After(s, steps, f).jobs|
  }

  /** Step k takes the checkpoint of job j. */
  ghost predicate TakesAt(s: State, steps: seq<Step>, k: nat, j: nat)
    requires Run(s, steps).Some?
  {
    k < |steps| && |After(s, steps, k).jobs| <= j < |After(s, steps, k + 1).jobs|
  }

  lemma {:induction false} TakenBefore(s: State, steps: seq<Step>, f: nat, j: nat)
    requires Operating(s) && Run(s, steps).Some? && f <= |steps| && |s.jobs| <= j
    ensures j < |After(s, steps, f).jobs| <==> exists k: nat :: k < f && TakesAt(s, steps, k, j)
    decreases f
  {
    hide Run, After, Operating;
    AfterEnds(s, steps);
    if f > 0 {
      TakenBefore(s, steps, f - 1, j);
      JobsAlong(s, steps, f - 1, f);
      if j < |After(s, steps, f).jobs| && |After(s, steps, f - 1).jobs| <= j { assert TakesAt(s, steps, f - 1, j); }
    }
  }

  /** In every run: the copy made at c for the entry filled at f is restored from a checkpoint older
      than that entry exactly if the last job before c that pushed this image to the deployer's registry
      was one whose checkpoint had been taken before f, be it a job run late or a message read late. */
  lemma StaleIff(s: State, steps: seq<Step>, f: nat, a: nat, c: nat, d: nat, p: string)
    requires Init(s) && RegistriesOk(s.registries) && s.registries != [] && s.topic != []
    requires Run(s, steps).Some? && Restores(s, steps, f, a, c, d, p)
    ensures Stale(s, steps, f, c, d, p) <==>
              exists j: nat, k: nat ::
                k < f && TakesAt(s, steps, k, j) && LastPush(s, steps, c, d, CHECKPOINT + p, j)
  {
    InitOperating(s);
    assert s.images == map[] && s.jobs == [];
    hide Run, After, Operating, LastPush, TakesAt, Init, RegistriesOk, ClaimKey, FillKey;
    CopiesImage(s, steps, f, a, c, d, p);
    var image := CHECKPOINT + p;
    var j := After(s, steps, c).images[(d, image)].job;
    ImageIsLastPush(s, steps, c, d, image, j);
    TakenBefore(s, steps, f, j);
    if i: nat, k: nat :| k < f && TakesAt(s, steps, k, i) && LastPush(s, steps, c, d, image, i) {
      ImageIsLastPush(s, steps, c, d, image, i);
    }
  }

  // ---------------------------------------------------------------- leading a system to a stale copy

  /** Steps of build jobs, deployers and the cluster: none of them fills or checkpoints anything. */
  predicate NoReconcile(steps: seq<Step>) {
    forall i :: 0 <= i < |steps| ==> !steps[i].Reconcile?
  }

  ghost predicate Leads(s: State, t: State) {
    exists steps :: NoReconcile(steps) && Run(s, steps) == Some(t)
  }

  lemma LeadsBy(s: State, t: State, steps: seq<Step>)
    requires Leads(s, t) && NoReconcile(steps) && Run(t, steps).Some?
    ensures Leads(s, Run(t, steps).value)
  {
    hide Next;
    var before :| NoReconcile(before) && Run(s, before) == Some(t);
    RunAppend(s, before, steps);
    assert NoReconcile(before + steps);
  }

  lemma LeadsOn(s: State, t: State, step: Step)
    requires Leads(s, t) && !step.Reconcile? && Next(t, step).Some?
    ensures Leads(s, Next(t, step).value)
  {
    hide Next, Leads;
    assert [step][1..] == [] && Run(t, [step]) == Next(t, step);
    LeadsBy(s, t, [step]);
  }

  lemma LeadsTrans(s: State, t: State, u: State)
    requires Leads(s, t) && Leads(t, u)
    ensures Leads(s, u)
  {
    hide Run;
    var steps :| NoReconcile(steps) && Run(t, steps) == Some(u);
    LeadsBy(s, t, steps);
  }

  lemma LeadsSelf(s: State)
    ensures Leads(s, s)
  {
    assert NoReconcile([]) && Run(s, []) == Some(s);
  }

  function ImageEvent(registry: RegistryPod, p: string): Event {
    Event(Push, OciManifest, PushHost(registry.podIP), CHECKPOINT + p)
  }

  /** Job j has been run last, its event is at hand, and p's entry waits for somebody to claim it. */
  ghost predicate Primed(t: State, d: nat, p: string, info: MigrationInfo, j: nat) {
    && Operating(t) && d < |t.deployers|
    && p in t.processing && t.processing[p] == info && ValidName(info.destinationNamespace)
    && PodKey(info.destinationNamespace, CHECKPOINT + p) !in t.pods
    && (d, CHECKPOINT + p) in t.images && t.images[(d, CHECKPOINT + p)].job == j
    && t.events != [] && t.events[|t.events| - 1] == ImageEvent(t.registries[d], p)
  }

  /** A step of deployer d that leaves the entry, the copy's name, images and events alone. */
  lemma PrimedOn(t: State, d: nat, p: string, info: MigrationInfo, j: nat, a: DeployStep)
    requires Primed(t, d, p, info, j) && NextDeploy(t, d, a).Some?
    requires var u := NextDeploy(t, d, a).value; p in u.processing && u.processing[p] == info && u.pods == t.pods
    ensures var u := NextDeploy(t, d, a).value; Primed(u, d, p, info, j) && Leads(t, u)
  {
    hide NextDeploy, NamesValid, Routed, AllAccounted, JobsPlaced, Next, ImageEvent, ValidName;
    ReaderNext(t, d, a);
    StepOperating(t, Deploy(d, a));
    DeployFrame(t, d, a);
    LeadsSelf(t);
    LeadsOn(t, t, Deploy(d, a));
    hide Leads;
  }

  /** The deployer drops what it is doing, unless it is about to claim p's entry anyway. */
  lemma ToRest(t: State, d: nat, p: string, info: MigrationInfo, j: nat) returns (u: State)
    requires Primed(t, d, p, info, j)
    ensures Primed(u, d, p, info, j) && Leads(t, u)
    ensures var phase := u.deployers[d];
            phase.Resting? || (phase.Deploying? && phase.rest != [] && KeyOf(phase.rest[0]) == p)
  {
    hide Primed, Leads, KeyOf, Close, AnnounceStep;
    assert d < |t.deployers| && d < |t.registries| && p in t.processing by { PrimedFits(t, d, p, info, j); }
    LeadsSelf(t);
    u := t;
    match t.deployers[d]
    case Resting =>
    case Consuming(_) => u := DropStep(t, d, p, info, j, CloseReader(true));
    case Claimed(_, _, _) => u := DropStep(t, d, p, info, j, Abandon);
    case Prepared(_, _, _) => u := DropStep(t, d, p, info, j, Abandon);
    case CopyMade(_, _, _) => u := DropCopy(t, d, p, info, j);
    case Deploying(rest) =>
      if rest == [] {
        u := DropStep(t, d, p, info, j, EndBatch);
      } else if KeyOf(rest[0]) != p {
        u := DropBatch(t, d, p, info, j);
      }
  }

  lemma PrimedFits(t: State, d: nat, p: string, info: MigrationInfo, j: nat)
    requires Primed(t, d, p, info, j)
    ensures d < |t.deployers| == |t.registries| && p in t.processing && t.processing[p] == info
    ensures Operating(t)
  {
  }

  lemma DropStep(t: State, d: nat, p: string, info: MigrationInfo, j: nat, a: DeployStep) returns (u: State)
    requires Primed(t, d, p, info, j) && (a == CloseReader(true) || a == Abandon || a == EndBatch)
    requires NextDeploy(t, d, a).Some?
    ensures Primed(u, d, p, info, j) && Leads(t, u) && u.deployers[d].Resting? && u == NextDeploy(t, d, a).value
  {
    hide Operating, Leads, KeyOf, Close;
    PrimedFits(t, d, p, info, j);
    u := NextDeploy(t, d, a).value;
    PrimedOn(t, d, p, info, j, a);
  }

  lemma DropCopy(t: State, d: nat, p: string, info: MigrationInfo, j: nat) returns (u: State)
    requires Primed(t, d, p, info, j) && t.deployers[d].CopyMade?
    ensures Primed(u, d, p, info, j) && Leads(t, u) && u.deployers[d].Resting?
  {
    hide Operating, Leads, KeyOf, DeleteMessage, AppendTo;
    u := AnnounceStep(t, d, None).value;
    PrimedOn(t, d, p, info, j, Announce(None));
  }

  lemma DropBatch(t: State, d: nat, p: string, info: MigrationInfo, j: nat) returns (u: State)
    requires Primed(t, d, p, info, j) && t.deployers[d].Deploying? && t.deployers[d].rest != []
    requires KeyOf(t.deployers[d].rest[0]) != p
    ensures Primed(u, d, p, info, j) && Leads(t, u) && u.deployers[d].Resting?
  {
    hide Operating, Leads, KeyOf;
    u := ClaimStep(t, d).value;
    PrimedOn(t, d, p, info, j, Claim);
    if u.deployers[d].Claimed? {
      var v := DropStep(u, d, p, info, j, Abandon);
      LeadsTrans(t, u, v);
      u := v;
    }
  }

  lemma EventArrives(t: State, d: nat, p: string, info: MigrationInfo, j: nat) returns (u: State)
    requires Primed(t, d, p, info, j)
    ensures Next(t, Build(Notify(|t.events| - 1, 0))) == Some(u) && Primed(u, d, p, info, j) && Leads(t, u)
    ensures u == t.(topic := t.topic[0 := Produce(t.topic[0], Message(t.registries[d].node, CHECKPOINT + p))])
    ensures t.registries[d].node != ""
  {
    hide NamesValid, AllAccounted, JobsPlaced, Next, PushHost, Publish, ValidName, RegistryAt;
    var e := |t.events| - 1;
    PublishedTo(t, d, CHECKPOINT + p, t.events[e]);
    BuildNext(t, Notify(e, 0));
    StepOperating(t, Build(Notify(e, 0)));
    u := NextBuild(t, Notify(e, 0)).value;
    LeadsSelf(t);
    LeadsOn(t, t, Build(Notify(e, 0)));
    hide Routed, Leads;
  }

  lemma FetchMovesOn(q: Partition)
    requires Accounted(q) && CanFetch(q)
    ensures var (next, outcome) := Fetch(q, Acked);
            && !outcome.CommitError? && next.log == q.log
            && next.reader == Reading(q.reader.node, q.reader.position + 1)
            && (IsOwn(q.log[q.reader.position], q.reader.node) ==> next.Committed() == q.reader.position + 1)
  {
  }

  /** The reader reads on to the end, where its own message makes it commit everything. */
  lemma {:induction false} ReadsToEnd(t: State, d: nat, p: string, info: MigrationInfo, j: nat) returns (u: State)
    requires Primed(t, d, p, info, j) && t.deployers[d].Consuming?
    requires ReadyFor(t.topic[0], t.registries[d].node)
    requires IsOwn(t.topic[0].log[|t.topic[0].log| - 1], t.registries[d].node)
    ensures Primed(u, d, p, info, j) && Leads(t, u) && u.deployers[d].Consuming?
    ensures u.topic != [] && u.topic[0].Committed() == |u.topic[0].log|
    decreases |t.topic[0].log| - t.topic[0].reader.position
  {
    hide NamesValid, Routed, JobsPlaced, Leads, Fetch, Accounted, IsOwn, ImageEvent;
    var q, poll := t.topic[0], FetchedFrom(0, Acked);
    FetchMovesOn(q);
    assert PollOne(t.topic, t.registries[d].node, poll).0 == t.topic[0 := Fetch(q, Acked).0];
    var v := PollStep(t, d, poll).value;
    PrimedOn(t, d, p, info, j, PollTopic(poll));
    if q.reader.position == |q.log| - 1 {
      u := v;
    } else {
      assert ReadyFor(v.topic[0], v.registries[d].node) by { assert Accounted(v.topic[0]); ReaderInPlace(v.topic[0]); }
      u := ReadsToEnd(v, d, p, info, j);
      LeadsTrans(t, v, u);
    }
  }

  lemma ReaderInPlace(q: Partition)
    requires Accounted(q)
    ensures q.reader.Reading? ==> q.Committed() <= q.reader.position
  {
  }

  /** The event once more, and a call that fails in the end: now the first partition is read up. */
  lemma ReadUp(t: State, d: nat, p: string, info: MigrationInfo, j: nat) returns (u: State)
    requires Primed(t, d, p, info, j) && t.deployers[d].Resting?
    ensures Primed(u, d, p, info, j) && Leads(t, u) && u.deployers[d].Resting?
    ensures u.topic[0].Committed() == |u.topic[0].log|
  {
    hide NamesValid, Routed, JobsPlaced, Leads, Accounted, ImageEvent;
    var node := t.registries[d].node;
    var v := EventArrives(t, d, p, info, j);
    var w := NextDeploy(v, d, OpenReader).value;
    PrimedOn(v, d, p, info, j, OpenReader);
    LeadsTrans(t, v, w);
    var x := NextDeploy(w, d, Rebalance(0)).value;
    PrimedOn(w, d, p, info, j, Rebalance(0));
    LeadsTrans(t, w, x);
    assert ReadyFor(x.topic[0], node) by { CommittedInside(t.topic[0]); }
    var y := ReadsToEnd(x, d, p, info, j);
    LeadsTrans(t, x, y);
    u := DropStep(y, d, p, info, j, CloseReader(true));
    LeadsTrans(t, y, u);
  }

  lemma CommittedInside(q: Partition)
    requires Accounted(q)
    ensures q.Committed() <= |q.log|
  {
  }

  /** The event again, and a call that ends as it should. */
  lemma ReadLast(t: State, d: nat, p: string, info: MigrationInfo, j: nat) returns (u: State)
    requires Primed(t, d, p, info, j) && t.deployers[d].Resting?
    requires t.topic[0].Committed() == |t.topic[0].log|
    ensures Primed(u, d, p, info, j) && Leads(t, u) && Run(t, NotifiedAndRead(d, |t.events| - 1)) == Some(u)
    ensures var m := Message(t.registries[d].node, CHECKPOINT + p);
            && u == t.(topic := u.topic, deployers := t.deployers[d := Deploying([m])])
            && KeyOf(m) == p && m.key != ""
  {
    hide NamesValid, Routed, JobsPlaced, AllAccounted, Leads, ImageEvent, Run, KeyOf;
    var m := Message(t.registries[d].node, CHECKPOINT + p);
    var v := EventArrives(t, d, p, info, j);
    u := Consumed(v, d, m);
    RunFirst(t, v, [Build(Notify(|t.events| - 1, 0))] + ReadNext(d));
    assert ([Build(Notify(|t.events| - 1, 0))] + ReadNext(d))[1..] == ReadNext(d);
    AlongOperating(v, ReadNext(d), 4);
    AfterEnds(v, ReadNext(d));
    LeadsBy(t, v, ReadNext(d));
    KeyOfMessage(p, m);
    hide After;
  }

  function NotifiedAndRead(d: nat, e: nat): seq<Step> {
    [Build(Notify(e, 0))] + ReadNext(d)
  }

  lemma RunFirst(s: State, t: State, steps: seq<Step>)
    requires steps != [] && Next(s, steps[0]) == Some(t)
    ensures Run(s, steps) == Run(t, steps[1..])
  {
    hide Next;
  }

  lemma KeyOfMessage(p: string, m: Message)
    requires m.value == CHECKPOINT + p
    ensures KeyOf(m) == p
  {
    DecodePrefixed(p);
  }

  lemma MessageInHand(t: State, d: nat, p: string, info: MigrationInfo, j: nat) returns (u: State)
    requires Primed(t, d, p, info, j)
    ensures Primed(u, d, p, info, j) && Leads(t, u)
    ensures u.deployers[d].Deploying? && u.deployers[d].rest != [] && KeyOf(u.deployers[d].rest[0]) == p
  {
    hide NamesValid, Routed, JobsPlaced, AllAccounted, Leads, ImageEvent, KeyOf;
    u := ToRest(t, d, p, info, j);
    if u.deployers[d].Resting? {
      var v := ReadUp(u, d, p, info, j);
      LeadsTrans(t, u, v);
      u := ReadLast(v, d, p, info, j);
      LeadsTrans(t, v, u);
    }
  }

  /** Claim, namespace and copy, with nothing in between. */
  function Handed(d: nat, here: bool): seq<Step> {
    [Deploy(d, Claim), Deploy(d, Prepare(here, !here)), Deploy(d, CreateCopy)]
  }

  lemma CopyFollows(t: State, d: nat, p: string, info: MigrationInfo, j: nat) returns (here: bool)
    requires Primed(t, d, p, info, j) && t.deployers[d].Deploying? && t.deployers[d].rest != []
    requires KeyOf(t.deployers[d].rest[0]) == p
    ensures Run(t, Handed(d, here)).Some? && ClaimKey(t, Handed(d, here)[0]) == Some(p)
    ensures Run(t, Handed(d, here)[..2]).Some? && Run(t, Handed(d, here)[..2]).value.images == t.images
    ensures var w, at := Run(t, Handed(d, here)).value, PodKey(info.destinationNamespace, CHECKPOINT + p);
            var m, rest := t.deployers[d].rest[0], t.deployers[d].rest[1..];
            && at in w.pods
            && w == t.(deployers := t.deployers[d := CopyMade(info, m, rest)], processing := t.processing - {p},
                namespaces := w.namespaces, pods := t.pods[at := w.pods[at]], history := w.history)
            && w.pods[at].containers == [Container(CHECKPOINT + p, t.images[(d, CHECKPOINT + p)].memory)]
            && w.pods[at].node == info.destinationNode
  {
    hide Operating, Next, KeyOf, ImageLocation, ImageEvent, ValidName, Run;
    HeadIsImage(t, d, p);
    PrimedFits(t, d, p, info, j);
    here := info.destinationNamespace in t.namespaces;
    var steps := Handed(d, here);
    ReaderNext(t, d, Claim);
    var u := ClaimStep(t, d).value;
    ReaderNext(u, d, Prepare(here, !here));
    var v := PrepareStep(u, d, here, !here).value;
    ReaderNext(v, d, CreateCopy);
    var w := CopyStep(v, d).value;
    ThreeSteps(t, u, v, w, steps);
  }

  lemma HeadIsImage(t: State, d: nat, p: string)
    requires Operating(t) && d < |t.deployers| && t.deployers[d].Deploying? && t.deployers[d].rest != []
    requires KeyOf(t.deployers[d].rest[0]) == p
    ensures t.deployers[d].rest[0].value == CHECKPOINT + p
  {
    assert IsImageName(t.deployers[d].rest[0].value);
    ImageNameFacts(t.deployers[d].rest[0].value);
  }

  lemma ThreeSteps(s: State, s1: State, s2: State, t: State, steps: seq<Step>)
    requires |steps| == 3 && Next(s, steps[0]) == Some(s1) && Next(s1, steps[1]) == Some(s2)
    requires Next(s2, steps[2]) == Some(t)
    ensures Run(s, steps) == Some(t) && Run(s, steps[..2]) == Some(s2)
  {
    hide Next;
    assert steps[2..][1..] == [] && Run(s2, steps[2..]) == Some(t);
    assert steps[1..][1..] == steps[2..] && Run(s1, steps[1..]) == Some(t);
    assert steps[..2] == [steps[0], steps[1]] && steps[..2][1..] == [steps[1]] && [steps[1]][1..] == [];
    assert Run(s1, [steps[1]]) == Some(s2);
  }

  /** A job whose checkpoint is there is run, now or again, and what it pushes is handed out. */
  lemma PrimedBy(t: State, p: string, j: nat) returns (u: State, d: nat)
    requires Operating(t) && p in t.processing && ValidName(t.processing[p].destinationNamespace)
    requires j < |t.jobs| && t.jobs[j].image == CHECKPOINT + p
    ensures Leads(t, u) && Primed(u, d, p, t.processing[p], j)
  {
    hide NamesValid, Routed, AllAccounted, Next, Leads, ValidName, PushHost;
    var at := PodKey(t.processing[p].destinationNamespace, CHECKPOINT + p);
    var v := t;
    LeadsSelf(t);
    if at in t.pods {
      ClusterNext(t, OthersDelete(at));
      StepOperating(t, OfCluster(OthersDelete(at)));
      v := NextCluster(t, OthersDelete(at)).value;
      LeadsOn(t, t, OfCluster(OthersDelete(at)));
    }
    d := RegistryAt(t.registries, t.jobs[j].registryIp);
    BuildNext(v, RunJob(j));
    StepOperating(v, Build(RunJob(j)));
    u := RunBuild(v, j).value;
    LeadsOn(t, v, Build(RunJob(j)));
  }

  /** From any state of a run in which p's entry waits and an old checkpoint of that name is there, the
      entry can be claimed and a copy made from that checkpoint, without another reconcile. */
  lemma StaleFollows(t: State, p: string, j: nat) returns (more: seq<Step>, a: nat, d: nat)
    requires Operating(t) && p in t.processing && ValidName(t.processing[p].destinationNamespace)
    requires j < |t.jobs| && t.jobs[j].image == CHECKPOINT + p
    ensures NoReconcile(more) && |more| == a + 3 && Run(t, more).Some?
    ensures more[a] == Deploy(d, Claim) && more[a + 1] != Deploy(d, Claim) && more[a + 2] == Deploy(d, CreateCopy)
    ensures ClaimsAt(t, more, a, p)
    ensures var u := After(t, more, a + 2);
            (d, CHECKPOINT + p) in u.images && u.images[(d, CHECKPOINT + p)].job == j
  {
    hide Operating, Run, Next, After, KeyOf, ValidName, ClaimKey;
    var v, e := PrimedBy(t, p, j);
    d := e;
    var u := MessageInHand(v, d, p, t.processing[p], j);
    LeadsTrans(t, v, u);
    var here := CopyFollows(u, d, p, t.processing[p], j);
    var before :| NoReconcile(before) && Run(t, before) == Some(u);
    var steps := Handed(d, here);
    a := |before|;
    more := before + steps;
    RunAppend(t, before, steps);
    AfterTail(t, before, steps, 0);
    AfterTail(t, before, steps, 2);
    AfterEnds(u, steps);
    assert After(u, steps, 2) == Run(u, steps[..2]).value by { AfterIs(u, steps, 2); }
    assert more[a] == steps[0] && more[a + 1] == steps[1] && more[a + 2] == steps[2];
    assert NoReconcile(more);
  }

  lemma AfterIs(s: State, steps: seq<Step>, k: nat)
    requires Run(s, steps).Some? && k <= |steps|
    ensures Run(s, steps[..k]) == Some(After(s, steps, k))
  {
    PrefixRuns(s, steps, k);
  }

  /** A run in two parts: the states of the first are its own, those of the second follow its end. */
  lemma AfterTail(s: State, first: seq<Step>, then': seq<Step>, k: nat)
    requires Run(s, first).Some? && Run(s, first + then').Some? && k <= |then'|
    ensures Run(Run(s, first).value, then').Some?
    ensures After(s, first + then', |first| + k) == After(Run(s, first).value, then', k)
  {
    hide Next, Run;
    RunAppend(s, first, then');
    PrefixRuns(Run(s, first).value, then', k);
    RunAppend(s, first, then'[..k]);
    assert (first + then')[..|first| + k] == first + then'[..k];
  }

  lemma AfterFront(s: State, first: seq<Step>, then': seq<Step>, k: nat)
    requires Run(s, first).Some? && Run(s, first + then').Some? && k <= |first|
    ensures After(s, first + then', k) == After(s, first, k)
  {
    hide Next, Run;
    assert (first + then')[..k] == first[..k];
  }

  // ---------------------------------------------------------------- exactly which entries are safe from it

  /** However the run goes on after its last step has filled p, the copy made for that entry is fresh. */
  ghost predicate AlwaysFresh(s: State, steps: seq<Step>, p: string)
    requires steps != []
  {
    forall more: seq<Step>, a: nat, c: nat, d: nat :: !StaleLater(s, steps, more, a, c, d, p)
  }

  ghost predicate StaleLater(s: State, steps: seq<Step>, more: seq<Step>, a: nat, c: nat, d: nat, p: string)
    requires steps != []
  {
    var all, f := steps + more, |steps| - 1;
    Run(s, all).Some? && Restores(s, all, f, a, c, d, p) && Stale(s, all, f, c, d, p)
  }

  predicate HasJobFor(jobs: seq<Job>, image: string) {
    exists j :: 0 <= j < |jobs| && jobs[j].image == image
  }

  lemma NoOldJobNotStale(s: State, steps: seq<Step>, f: nat, a: nat, c: nat, d: nat, p: string)
    requires Operating(s) && s.images == map[] && Run(s, steps).Some? && Restores(s, steps, f, a, c, d, p)
    requires !HasJobFor(After(s, steps, f).jobs, CHECKPOINT + p)
    ensures !Stale(s, steps, f, c, d, p)
  {
    hide Run, After, Operating, LastPush, ClaimKey, FillKey;
    if Stale(s, steps, f, c, d, p) {
      var j := After(s, steps, c).images[(d, CHECKPOINT + p)].job;
      ImageIsLastPush(s, steps, c, d, CHECKPOINT + p, j);
      JobsAlong(s, steps, f, c);
    }
  }

  lemma NowhereToCopy(s: State, steps: seq<Step>, f: nat, a: nat, c: nat, d: nat, p: string)
    requires Operating(s) && Run(s, steps).Some? && Restores(s, steps, f, a, c, d, p)
    ensures p in After(s, steps, f + 1).processing
    ensures ValidName(After(s, steps, f + 1).processing[p].destinationNamespace)
  {
    hide Run, After, ClaimKey, FillKey, ValidName;
    CopiesImage(s, steps, f, a, c, d, p);
    AlongOperating(s, steps, c);
  }

  lemma OldJobCanBeStale(s: State, steps: seq<Step>, p: string, j: nat)
    requires Operating(s) && steps != [] && Run(s, steps).Some? && FillsAt(s, steps, |steps| - 1, p)
    requires p in Run(s, steps).value.processing
    requires ValidName(Run(s, steps).value.processing[p].destinationNamespace)
    requires j < |After(s, steps, |steps| - 1).jobs|
    requires After(s, steps, |steps| - 1).jobs[j].image == CHECKPOINT + p
    ensures !AlwaysFresh(s, steps, p)
  {
    hide Run, After, Operating, ClaimKey, FillKey, ValidName;
    var f, n, t := |steps| - 1, |steps|, Run(s, steps).value;
    AfterEnds(s, steps);
    AlongOperating(s, steps, n);
    JobsAlong(s, steps, f, n);
    var more, a, d := StaleFollows(t, p, j);
    var all := steps + more;
    RunAppend(s, steps, more);
    AfterFront(s, steps, more, f);
    AfterTail(s, steps, more, a);
    AfterTail(s, steps, more, a + 2);
    forall x: nat | f < x < n + a ensures !FillsAt(s, all, x, p) {
      assert all[x] == more[x - n];
      OnlyReconcilesFill(After(s, all, x), all[x]);
    }
    assert all[n + a] == more[a] && all[n + a + 1] == more[a + 1] && all[n + a + 2] == more[a + 2];
    assert all[f] == steps[f];
    assert StaleLater(s, steps, more, n + a, n + a + 2, d, p);
  }

  lemma OnlyReconcilesFill(s: State, step: Step)
    ensures FillKey(s, step).Some? ==> step.Reconcile?
  {
  }

  /** Exactly which fills are safe: at the end of any run whose last step has filled p, all that may
      follow - late jobs, redelivered events and messages, failures, other users - restores p from a
      checkpoint taken after this fill if, and only if, no job there is has pushed or may yet push a
      checkpoint of p's name (or the destination namespace can never exist, and so no copy). */
  lemma AlwaysFreshIff(s: State, steps: seq<Step>, p: string)
    requires Init(s) && RegistriesOk(s.registries) && s.registries != [] && s.topic != []
    requires steps != [] && Run(s, steps).Some? && FillsAt(s, steps, |steps| - 1, p)
    ensures p in Run(s, steps).value.processing
    ensures AlwaysFresh(s, steps, p) <==>
              || !ValidName(Run(s, steps).value.processing[p].destinationNamespace)
              || !HasJobFor(After(s, steps, |steps| - 1).jobs, CHECKPOINT + p)
  {
    InitOperating(s);
    assert s.images == map[];
    hide Run, After, Operating, Init, RegistriesOk, ValidName, Restores, Stale, FillsAt;
    FillEnters(s, steps, p);
    var f, jobs := |steps| - 1, After(s, steps, |steps| - 1).jobs;
    var info := Run(s, steps).value.processing[p];
    if j: nat :| j < |jobs| && jobs[j].image == CHECKPOINT + p && ValidName(info.destinationNamespace) {
      OldJobCanBeStale(s, steps, p, j);
    }
    if !ValidName(info.destinationNamespace) || !HasJobFor(jobs, CHECKPOINT + p) {
      forall more: seq<Step>, a: nat, c: nat, d: nat ensures !StaleLater(s, steps, more, a, c, d, p) {
        if Run(s, steps + more).Some? && Restores(s, steps + more, f, a, c, d, p) {
          AfterFront(s, steps, more, f);
          AfterFront(s, steps, more, f + 1);
          AfterEnds(s, steps);
          NowhereToCopy(s, steps + more, f, a, c, d, p);
          NoOldJobNotStale(s, steps + more, f, a, c, d, p);
        }
      }
    }
  }

  lemma FillEnters(s: State, steps: seq<Step>, p: string)
    requires steps != [] && Run(s, steps).Some? && FillsAt(s, steps, |steps| - 1, p)
    ensures p in Run(s, steps).value.processing
  {
    hide Run, After, Next, FillKey;
    var f := |steps| - 1;
    AfterEnds(s, steps);
    AfterNext(s, steps, f);
    StepKeys(After(s, steps, f), steps[f], p);
  }

  // ---------------------------------------------------------------- the failing input

  /** A migration that is given up after its claim, and asked for again before its message has been read
      for the second time: this is where the second one stands when it has just been admitted. */
  lemma TriedAndAskedAgain(s: State, plan: Plan) returns (t: State)
    requires Ready(s, plan) && Operating(s)
    ensures Reaches(s, t) && Operating(t) && t.registries == s.registries && t.pods == s.pods
    ensures t.work == Idle && t.processing == map[] && t.deployers == s.deployers && t.deletions == s.deletions
    ensures t.migrations != [] && t.migrations[|t.migrations| - 1] == plan.Spec()
    ensures t.topic != [] && t.topic[0].Committed() == |t.topic[0].log|
    ensures t.events != [] && t.events[|t.events| - 1] == ImageEvent(t.registries[plan.Via(s)], plan.podName)
    ensures var key := (plan.Via(s), plan.Image());
            && key in t.images && t.images[key].memory == Surviving(s.pods[plan.picked])
            && t.images[key].job < |t.jobs|
  {
    hide Reaches, Operating, NamesValid, RegistriesOk, Next, RegistryFor, KeyOf;
    var d := plan.Via(s);
    var u := MessageRead(s, plan);
    KeyOfImage(plan, plan.Msg(s));
    ReaderNext(u, d, Claim);
    var v := ClaimStep(u, d).value;
    ReachesOn(s, u, Deploy(d, Claim));
    ReaderNext(v, d, Abandon);
    var w := NextDeploy(v, d, Abandon).value;
    ReachesOn(s, v, Deploy(d, Abandon));
    assert w.deployers == s.deployers;
    assert w.processing == map[];
    ReachNamesValid(s, w);
    t := Submitted(w, plan);
    ReachesTrans(s, w, t);
    ReachesOperating(s, t);
  }

  lemma ReachesOperating(s: State, t: State)
    requires Operating(s) && Reaches(s, t)
    ensures Operating(t)
  {
    hide Operating, Run;
    var steps :| OnlyOperator(steps) && Run(s, steps) == Some(t);
    AlongOperating(s, steps, |steps|);
    AfterEnds(s, steps);
  }

  /** The second attempt from its start to its copy: no list, no checkpoint, only the old event. */
  function Again(n: nat, e: nat, d: nat, here: bool): seq<Step> {
    [Reconcile(StartReconcile(n))] + NotifiedAndRead(d, e) + Handed(d, here)
  }

  lemma CopiedAgain(t: State, plan: Plan, d: nat, j: nat) returns (here: bool, u: State)
    requires Operating(t) && d < |t.deployers| && t.deployers[d].Resting? && t.work == Idle
    requires plan.podName !in t.processing && ValidName(plan.destinationNamespace) && plan.Copy() !in t.pods
    requires t.migrations != [] && t.migrations[|t.migrations| - 1] == plan.Spec()
    requires t.topic[0].Committed() == |t.topic[0].log|
    requires t.events != [] && t.events[|t.events| - 1] == ImageEvent(t.registries[d], plan.podName)
    requires (d, plan.Image()) in t.images && t.images[(d, plan.Image())].job == j < |t.jobs|
    ensures var steps := Again(|t.migrations| - 1, |t.events| - 1, d, here);
            && Run(t, steps) == Some(u) && OnlyOperator(steps)
            && Restores(t, steps, 0, 6, 8, d, plan.podName) && Stale(t, steps, 0, 8, d, plan.podName)
    ensures plan.Copy() in u.pods && t.registries[d].node != ""
    ensures var m := Message(t.registries[d].node, plan.Image());
            u == t.(deployers := t.deployers[d := CopyMade(plan.Info(), m, [])],
                    work := Listing(plan.Spec()), processing := t.processing, namespaces := u.namespaces,
                    topic := u.topic, pods := t.pods[plan.Copy() := u.pods[plan.Copy()]], history := u.history)
    ensures u.pods[plan.Copy()].containers == [Container(plan.Image(), t.images[(d, plan.Image())].memory)]
    ensures u.pods[plan.Copy()].node == plan.destinationNode
  {
    hide Operating, Run, Next, After, KeyOf, ValidName, ClaimKey, FillKey, ImageEvent, Leads;
    var n, e, p := |t.migrations| - 1, |t.events| - 1, plan.podName;
    var v := StartsAgain(t, plan, d, j);
    var w := ReadLast(v, d, p, plan.Info(), j);
    here := CopyFollows(w, d, p, plan.Info(), j);
    var first, second, third := [Reconcile(StartReconcile(n))], NotifiedAndRead(d, e), Handed(d, here);
    var steps := Again(n, e, d, here);
    assert first[1..] == [] && Run(v, []) == Some(v) by { EmptyIsRun(v); }
    RunFirst(t, v, first);
    RunAppend(t, first, second);
    RunAppend(t, first + second, third);
    u := Run(w, third).value;
    AfterTail(t, first + second, third, 0);
    AfterTail(t, first + second, third, 2);
    AfterEnds(w, third);
    AfterIs(w, third, 2);
    AfterEnds(t, steps);
    assert steps[6] == third[0] && steps[8] == third[2];
    OnlyStartFills(t, steps, p);
    FillsFirst(t, steps, p);
    forall x: nat | 6 < x < 8 ensures steps[x] != Deploy(d, Claim) { assert x == 7 && steps[x] == third[1]; }
    assert w.deployers[d].rest[1..] == [];
    assert u.deployers == t.deployers[d := u.deployers[d]];
    assert t.processing[p := plan.Info()] - {p} == t.processing;
  }

  lemma EmptyIsRun(s: State)
    ensures Run(s, []) == Some(s)
  {
  }

  lemma StartsAgain(t: State, plan: Plan, d: nat, j: nat) returns (u: State)
    requires Operating(t) && d < |t.deployers| && t.work == Idle
    requires plan.podName !in t.processing && ValidName(plan.destinationNamespace) && plan.Copy() !in t.pods
    requires t.migrations != [] && t.migrations[|t.migrations| - 1] == plan.Spec()
    requires t.events != [] && t.events[|t.events| - 1] == ImageEvent(t.registries[d], plan.podName)
    requires (d, plan.Image()) in t.images && t.images[(d, plan.Image())].job == j
    ensures Next(t, Reconcile(StartReconcile(|t.migrations| - 1))) == Some(u)
    ensures u == t.(processing := t.processing[plan.podName := plan.Info()], work := Listing(plan.Spec()),
                    history := u.history)
    ensures FillKey(t, Reconcile(StartReconcile(|t.migrations| - 1))) == Some(plan.podName)
    ensures Primed(u, d, plan.podName, plan.Info(), j)
  {
    hide NamesValid, Routed, AllAccounted, JobsPlaced, Next, ImageEvent, ValidName;
    var step := StartReconcile(|t.migrations| - 1);
    ReconcileNext(t, step);
    StepOperating(t, Reconcile(step));
    u := NextReconcile(t, step).value;
  }

  lemma OnlyStartFills(t: State, steps: seq<Step>, p: string)
    requires Run(t, steps).Some? && |steps| == 9 && forall x :: 0 < x < 9 ==> !steps[x].Reconcile?
    ensures forall x: nat :: 0 < x < 9 ==> !FillsAt(t, steps, x, p)
  {
    hide Run, After, FillKey;
    forall x: nat | 0 < x < 9 ensures !FillsAt(t, steps, x, p) { OnlyReconcilesFill(After(t, steps, x), steps[x]); }
  }

  lemma FillsFirst(t: State, steps: seq<Step>, p: string)
    requires Run(t, steps).Some? && steps != [] && FillKey(t, steps[0]) == Some(p)
    ensures FillsAt(t, steps, 0, p)
  {
    hide Run, FillKey;
    AfterEnds(t, steps);
  }

  lemma RestoresLater(s: State, before: seq<Step>, steps: seq<Step>, f: nat, a: nat, c: nat, d: nat, p: string)
    requires Run(s, before).Some? && Run(s, before + steps).Some? && Run(Run(s, before).value, steps).Some?
    requires Restores(Run(s, before).value, steps, f, a, c, d, p) && Stale(Run(s, before).value, steps, f, c, d, p)
    ensures var n := |before|;
            && Restores(s, before + steps, n + f, n + a, n + c, d, p)
            && Stale(s, before + steps, n + f, n + c, d, p)
  {
    hide Run, After, ClaimKey, FillKey;
    var n, all, t := |before|, before + steps, Run(s, before).value;
    AfterTail(s, before, steps, f);
    AfterTail(s, before, steps, a);
    AfterTail(s, before, steps, c);
    forall x: nat | n + f < x < n + a ensures !FillsAt(s, all, x, p) {
      AfterTail(s, before, steps, x - n);
      assert all[x] == steps[x - n] && !FillsAt(t, steps, x - n, p);
    }
    forall x: nat | n + a < x < n + c ensures all[x] != Deploy(d, Claim) { assert all[x] == steps[x - n]; }
  }

  /** From the copy that has just been made to the end: it is announced, and the source is deleted. */
  lemma SourceGoes(s: State, plan: Plan, d: nat, m: Message) returns (t: State)
    requires d < |s.deployers| && d < |s.registries| && s.deployers[d] == CopyMade(plan.Info(), m, [])
    requires m == Message(s.registries[d].node, plan.Image()) && m.key != ""
    requires ValidName(plan.podName) && ValidName(plan.namespace)
    requires s.deletions != [] && s.deletions[0].committed == |s.deletions[0].log|
    requires plan.Source() in s.pods && plan.Copy() in s.pods && Restorable(s.pods[plan.Copy()])
    ensures Reaches(s, t) && plan.Source() !in t.pods && plan.Copy() in t.pods && t.pods[plan.Copy()].running
    ensures t.pods[plan.Copy()].containers == s.pods[plan.Copy()].containers
    ensures t.jobs == s.jobs && t.images == s.images
  {
    hide Reaches, ValidName, Restorable;
    var u := CopyAnnounced(s, plan, d, m);
    var v := Restored(u, plan, m.key);
    ReachesTrans(s, u, v);
    assert plan.Copy() != plan.Source() by { assert |plan.Image()| > |plan.podName|; }
    t := Started(v, plan.Copy());
    ReachesTrans(s, v, t);
  }

  /** The failing input, in every cluster in which a migration is possible at all, also one with distinct
      lineages and single containers: the first attempt fails after its claim, and its event is
      delivered once more when the second one has started. The second one's entry is claimed for the
      checkpoint of the first; its own is never taken; and the source is deleted. */
  lemma StaleRestore(s: State, plan: Plan) returns (steps: seq<Step>, f: nat, a: nat, c: nat, t: State)
    requires Ready(s, plan) && Operating(s) && Surviving(s.pods[plan.picked]).Some?
    ensures OnlyOperator(steps) && Run(s, steps).Some? && Restores(s, steps, f, a, c, plan.Via(s), plan.podName)
    ensures Stale(s, steps, f, c, plan.Via(s), plan.podName)
    ensures Reaches(Run(s, steps).value, t) && t.jobs == After(s, steps, f).jobs
    ensures plan.Source() !in t.pods && plan.Copy() in t.pods && t.pods[plan.Copy()].running
    ensures t.pods[plan.Copy()].containers == [Container(plan.Image(), Surviving(s.pods[plan.picked]))]
  {
    hide Ready, Operating, Run, After, Reaches, Restores, Stale, ValidName, ImageEvent, Surviving, RegistryFor;
    ReadyMeans(s, plan);
    var d := plan.Via(s);
    var u := TriedAndAskedAgain(s, plan);
    var here, v := CopiedAgain(u, plan, d, u.images[(d, plan.Image())].job);
    var before: seq<Step> := StepsTo(s, u);
    var again := Again(|u.migrations| - 1, |u.events| - 1, d, here);
    steps, f, a, c := before + again, |before|, |before| + 6, |before| + 8;
    RunAppend(s, before, again);
    RestoresLater(s, before, again, 0, 6, 8, d, plan.podName);
    AfterTail(s, before, again, 0);
    AfterEnds(u, again);
    t := SourceGoes(v, plan, d, Message(u.registries[d].node, plan.Image()));
  }

  lemma ReadyMeans(s: State, plan: Plan)
    requires Ready(s, plan)
    ensures ValidName(plan.podName) && ValidName(plan.namespace) && ValidName(plan.destinationNamespace)
    ensures s.registries != [] && s.deletions != [] && s.deletions[0].committed == |s.deletions[0].log|
    ensures plan.Via(s) < |s.deployers| == |s.registries| && s.deployers[plan.Via(s)].Resting?
    ensures plan.Source() in s.pods && plan.Copy() !in s.pods && plan.Source() != plan.Copy()
    ensures plan.picked in s.pods && s.pods[plan.picked].containers != []
  {
    assert |plan.Image()| > |plan.podName|;
    hide RegistriesOk, RegistryFor;
  }

  lemma StepsTo(s: State, t: State) returns (steps: seq<Step>)
    requires Reaches(s, t)
    ensures OnlyOperator(steps) && Run(s, steps) == Some(t)
  {
    steps :| OnlyOperator(steps) && Run(s, steps) == Some(t);
  }
}
