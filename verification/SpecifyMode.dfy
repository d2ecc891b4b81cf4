/** Which pods can be carried through at all: only those that a spec names as its pod, or that the listing
    of a deployment contains. A migration that lists its pods is checkpointed and pushed, and no more. */
module SpecifyMode {
  import opened Conservation
  import opened Handoff
  import opened Kafka
  import opened Migrations
  import opened Names
  import opened Protocol
  import opened Schedule
  import opened Stability
  import opened Trail
  import opened Webhook
  import opened Wrappers
  import Reconciler
  import RestoreDaemon

  /** Along the run, no submitted spec has p as its pod name, and no listing of a deployment has a p. */
  ghost predicate NeverNamed(s: State, steps: seq<Step>, p: string)
    decreases steps
  {
    steps == [] || Next(s, steps[0]).None?
    || (!Mentions(s, steps[0], p) && NeverNamed(Next(s, steps[0]).value, steps[1..], p))
  }

  predicate Mentions(s: State, step: Step, p: string) {
    step.Reconcile? &&
    (|| (step.r.Submit? && step.r.spec.podName == p)
     || (step.r.ListPods? && s.work.Listing? && s.work.spec.deployment != "" && s.work.spec.specify == []
         && p in NamesOf(step.r.items)))
  }

  predicate IsAboutPod(phase: Phase, p: string) {
    (phase.Claimed? || phase.Prepared? || phase.CopyMade?) && KeyOf(phase.msg) == p
  }

  predicate LogSilent(log: seq<Message>, p: string) {
    forall m :: m in log ==> DeployerOldName(m.key) != p
  }

  predicate Acts(e: Effect, p: string) {
    match e
    case Filled(key, _) => key == p
    case Overwritten(key) => key == p
    case Taken(key, _) => key == p
    case Dropped(key) => key == p
    case Copied(key, _, _, _, _) => key == p
    case Announced(key, _) => key == p
    case Unannounced(key) => key == p
    case Deleted(at) => at.name == p
  }

  predicate HistorySilent(h: seq<Effect>, p: string) {
    forall i :: 0 <= i < |h| ==> !Acts(h[i], p)
  }

  predicate MapSilent(s: State, p: string) {
    && p !in s.processing
    && (forall i :: 0 <= i < |s.migrations| ==> s.migrations[i].podName != p)
    && (s.work.Listing? ==> s.work.spec.podName != p)
    && (s.work.Working? ==> p !in s.work.fills)
  }

  predicate DeployersSilent(deployers: seq<Phase>, p: string) {
    forall d :: 0 <= d < |deployers| ==> !IsAboutPod(deployers[d], p)
  }

  predicate LogsSilent(deletions: seq<DeleteLog>, p: string) {
    forall q :: 0 <= q < |deletions| ==> LogSilent(deletions[q].log, p)
  }

  /** Nothing that goes on is about p, except checkpoints, images and messages nobody can use. */
  ghost predicate Unserved(s: State, p: string) {
    MapSilent(s, p) && DeployersSilent(s.deployers, p) && LogsSilent(s.deletions, p) && HistorySilent(s.history, p)
  }

  // ---------------------------------------------------------------- one step

  lemma SilentSnoc(h: seq<Effect>, e: Effect, p: string)
    requires HistorySilent(h, p) && !Acts(e, p)
    ensures HistorySilent(h + [e], p)
  {
    hide Acts;
  }

  lemma FillSilent(s: State, key: string, info: MigrationInfo, p: string)
    requires HistorySilent(s.history, p) && key != p
    ensures HistorySilent(Fill(s, key, info).history, p)
  {
    var over := if key in s.processing then [Overwritten(key)] else [];
    if over == [] { assert s.history + over == s.history; } else { SilentSnoc(s.history, Overwritten(key), p); }
    SilentSnoc(s.history + over, Filled(key, info), p);
  }

  lemma ReconcileUnserved(s: State, r: ReconcileStep, p: string)
    requires Unserved(s, p) && p != "" && NextReconcile(s, r).Some? && !Mentions(s, Reconcile(r), p)
    ensures Unserved(NextReconcile(s, r).value, p)
  {
    hide ListStep, CheckpointStep, HistorySilent, LogsSilent, DeployersSilent, ValidateMigration;
    match r
    case FetchFails => FillSilent(s, "", InfoOf(ZERO_SPEC, ""), p);
    case StartReconcile(i) =>
      FillSilent(s, s.migrations[i].podName, InfoOf(s.migrations[i], s.migrations[i].deployment), p);
    case FillNext => FillSilent(s, s.work.fills[0], InfoOf(s.work.spec, ""), p);
    case ListPods(items) => ListingUnserved(s, items, p);
    case Checkpoint(a, stamp) => CheckpointUnserved(s, a, stamp, p);
    case _ =>
  }

  lemma ListingUnserved(s: State, items: seq<Listed>, p: string)
    requires Unserved(s, p) && ListStep(s, items).Some? && !Mentions(s, Reconcile(ListPods(items)), p)
    ensures Unserved(ListStep(s, items).value, p)
  {
    hide HistorySilent, LogsSilent, DeployersSilent, IsListing, Reconciler.Targets;
  }

  lemma CheckpointUnserved(s: State, a: Reconciler.Answers, stamp: string, p: string)
    requires Unserved(s, p) && CheckpointStep(s, a, stamp).Some?
    ensures Unserved(CheckpointStep(s, a, stamp).value, p)
  {
    hide HistorySilent, LogsSilent, DeployersSilent, CanAnswer, Reconciler.Attempt, JobsOf;
  }

  lemma BuildUnserved(s: State, b: BuildStep, p: string)
    requires Unserved(s, p) && NextBuild(s, b).Some?
    ensures Unserved(NextBuild(s, b).value, p)
  {
    hide HistorySilent, LogsSilent, DeployersSilent;
  }

  lemma RestoreUnserved(s: State, q: nat, commits: bool, api: RestoreDaemon.Api, p: string)
    requires NamesValid(s) && Grounded(s) && Unserved(s, p) && RestoreStep(s, q, commits, api).Some?
    ensures Unserved(RestoreStep(s, q, commits, api).value, p)
  {
    hide NamesValid, MapSilent, Justified, RestoreDaemon.Victim, RestoreDaemon.Decode, DeployersSilent;
    RestoreFrame(s, q, commits, api);
    var t := RestoreStep(s, q, commits, api).value;
    var m := s.deletions[q].log[s.deletions[q].committed];
    assert LogGrounded(s.history, s.deletions[q].log) && LogSilent(s.deletions[q].log, p);
    AnnouncementVictim(s.history, m);
    if t.history != s.history {
      SilentSnoc(s.history, Deleted(RestoreDaemon.Victim(RestoreDaemon.Decode(m)).value), p);
    }
    SameMap(s, t, p);
  }

  lemma SameMap(s: State, t: State, p: string)
    requires MapSilent(s, p) && t.processing == s.processing && t.migrations == s.migrations && t.work == s.work
    ensures MapSilent(t, p)
  {
  }

  lemma ClusterUnserved(s: State, c: ClusterStep, p: string)
    requires NamesValid(s) && Grounded(s) && Unserved(s, p) && NextCluster(s, c).Some?
    ensures Unserved(NextCluster(s, c).value, p)
  {
    hide NamesValid, Grounded, RestoreStep, HistorySilent, LogsSilent, DeployersSilent;
    if c.Restore? { RestoreUnserved(s, c.log, c.commits, c.api, p); }
  }

  /** A deployer moves on; what it did, if it is on record, was not about p. */
  lemma MoveUnserved(s: State, t: State, d: nat, phase: Phase, p: string)
    requires Unserved(s, p) && d < |s.deployers| && t.deployers == s.deployers[d := phase] && !IsAboutPod(phase, p)
    requires t.processing.Keys <= s.processing.Keys && t.migrations == s.migrations && t.work == s.work
    requires LogsSilent(t.deletions, p) && HistorySilent(t.history, p)
    ensures Unserved(t, p)
  {
    hide LogsSilent, HistorySilent, IsAboutPod;
  }

  lemma DeployUnserved(s: State, d: nat, a: DeployStep, p: string)
    requires d < |s.deployers| && d < |s.registries| && Unserved(s, p) && NextDeploy(s, d, a).Some?
    ensures Unserved(NextDeploy(s, d, a).value, p)
  {
    hide KeyOf, CopyOf, CanCreate, CopyKey, EnsureNamespace, PollOne, Close, AppendTo, DeleteMessage, LogsSilent,
      HistorySilent, MapSilent, Unserved, AnnounceStep;
    var t := NextDeploy(s, d, a).value;
    if a.Announce? {
      AnnounceUnserved(s, d, a.to, p);
    } else {
      NotAbout(s, d, p);
      KeysStay(s, d, a, p);
      if t.history != s.history { SilentSnoc(s.history, t.history[|s.history|], p); }
      assert t.deployers == s.deployers[d := t.deployers[d]];
      MoveUnserved(s, t, d, t.deployers[d], p);
    }
  }

  lemma NotAbout(s: State, d: nat, p: string)
    requires Unserved(s, p) && d < |s.deployers|
    ensures !IsAboutPod(s.deployers[d], p) && p !in s.processing && HistorySilent(s.history, p)
    ensures LogsSilent(s.deletions, p)
  {
    hide LogsSilent, HistorySilent, IsAboutPod;
  }

  lemma KeysStay(s: State, d: nat, a: DeployStep, p: string)
    requires d < |s.deployers| && d < |s.registries| && NextDeploy(s, d, a).Some?
    ensures NextDeploy(s, d, a).value.processing.Keys <= s.processing.Keys
  {
    hide KeyOf, CopyOf, CanCreate, CopyKey, EnsureNamespace, PollOne, Close, AppendTo, DeleteMessage;
  }

  lemma AnnounceUnserved(s: State, d: nat, to: Option<nat>, p: string)
    requires d < |s.deployers| && Unserved(s, p) && AnnounceStep(s, d, to).Some?
    ensures Unserved(AnnounceStep(s, d, to).value, p)
  {
    hide HistorySilent, MapSilent;
    NotAbout(s, d, p);
    var t := AnnounceStep(s, d, to).value;
    SilentSnoc(s.history, t.history[|s.history|], p);
    SameMap(s, t, p);
  }

  lemma StepUnserved(s: State, step: Step, p: string)
    requires NamesValid(s) && Grounded(s) && Unserved(s, p) && p != "" && Next(s, step).Some? && !Mentions(s, step, p)
    ensures Unserved(Next(s, step).value, p)
  {
    hide NamesValid, Grounded, Unserved, Mentions, NextReconcile, NextBuild, NextDeploy, NextCluster;
    match step
    case Reconcile(r) => ReconcileUnserved(s, r, p);
    case Build(b) => BuildUnserved(s, b, p);
    case Deploy(d, a) => DeployUnserved(s, d, a, p);
    case OfCluster(c) => ClusterUnserved(s, c, p);
  }

  lemma {:induction false} RunUnserved(s: State, steps: seq<Step>, p: string)
    requires NamesValid(s) && Grounded(s) && Unserved(s, p) && p != "" && Run(s, steps).Some? && NeverNamed(s, steps, p)
    ensures Unserved(Run(s, steps).value, p)
    decreases steps
  {
    hide NamesValid, Grounded, Unserved, Mentions, Next;
    if steps != [] {
      NamesStep(s, steps[0]);
      GroundedStep(s, steps[0]);
      StepUnserved(s, steps[0], p);
      RunUnserved(Next(s, steps[0]).value, steps[1..], p);
    }
  }

  // ---------------------------------------------------------------- the theorems

  /** In every run, of specs of all kinds: as long as no spec names p as its pod and no deployment's
      listing contains it, nothing is ever filled, claimed, copied, announced or deleted for p. */
  lemma UnnamedPodNeverMoved(s: State, steps: seq<Step>, p: string)
    requires Init(s) && Run(s, steps).Some? && NeverNamed(s, steps, p) && p != ""
    ensures HistorySilent(Run(s, steps).value.history, p)
  {
    hide NamesValid, Grounded, Next, Run, NeverNamed;
    InitGrounded(s);
    RunUnserved(s, steps, p);
  }

  /** Every spec that is submitted lists its pods. */
  predicate OnlySpecified(steps: seq<Step>) {
    forall i :: 0 <= i < |steps| && steps[i].Reconcile? && steps[i].r.Submit? ==> steps[i].r.spec.specify != []
  }

  predicate ListsPods(spec: MigrationSpec) {
    spec.specify != [] && spec.podName == "" && spec.deployment == ""
  }

  predicate AllList(s: State) {
    && (forall i :: 0 <= i < |s.migrations| ==> ListsPods(s.migrations[i]))
    && (s.work.Listing? ==> ListsPods(s.work.spec))
  }

  lemma AllListStep(s: State, step: Step)
    requires AllList(s) && Next(s, step).Some? && OnlySpecified([step])
    ensures AllList(Next(s, step).value)
    ensures forall p :: p != "" ==> !Mentions(s, step, p)
  {
    hide NextBuild, NextDeploy, NextCluster, ListStep, CheckpointStep, ValidateMigration;
    assert [step][0] == step;
    StepMigrations(s, step);
    match step
    case Reconcile(r) =>
      if r.Submit? { AdmittedIff(r.spec, ViewOf(s), s.processing); }
      ReconcileFrame(s, r);
    case Build(b) => BuildFrame(s, b);
    case Deploy(d, a) => DeployFrame(s, d, a);
    case OfCluster(c) => ClusterFrame(s, c);
  }

  lemma {:induction false} ListsNameNobody(s: State, steps: seq<Step>, p: string)
    requires AllList(s) && Run(s, steps).Some? && OnlySpecified(steps) && p != ""
    ensures NeverNamed(s, steps, p)
    decreases steps
  {
    hide AllList, Next, Mentions;
    if steps != [] {
      assert OnlySpecified([steps[0]]);
      AllListStep(s, steps[0]);
      ListsNameNobody(Next(s, steps[0]).value, steps[1..], p);
    }
  }

  lemma SpecifiedPodNeverMoved(s: State, steps: seq<Step>, p: string)
    requires Init(s) && Run(s, steps).Some? && OnlySpecified(steps) && p != ""
    ensures HistorySilent(Run(s, steps).value.history, p)
  {
    hide Next, Run, NeverNamed, OnlySpecified, HistorySilent;
    ListsNameNobody(s, steps, p);
    UnnamedPodNeverMoved(s, steps, p);
  }

  predicate NamelessUntaken(h: seq<Effect>) {
    forall i :: 0 <= i < |h| ==> !(h[i].Taken? && h[i].key == "")
  }

  /** The entry without a name is never claimed in any run. */
  lemma {:induction false} NamelessNeverTaken(s: State, steps: seq<Step>)
    requires NamesValid(s) && NamelessUntaken(s.history) && Run(s, steps).Some?
    ensures NamelessUntaken(Run(s, steps).value.history)
    decreases steps
  {
    hide NamesValid, Next, FillKey, ClaimKey, NamelessUntaken;
    if steps != [] {
      NamesStep(s, steps[0]);
      NamelessStep(s, steps[0]);
      NamelessNeverTaken(Next(s, steps[0]).value, steps[1..]);
    }
  }

  lemma NamelessStep(s: State, step: Step)
    requires NamesValid(s) && NamelessUntaken(s.history) && Next(s, step).Some?
    ensures NamelessUntaken(Next(s, step).value.history)
  {
    hide Next, FillKey;
    StepMoves(s, step);
    if ClaimKey(s, step).Some? {
      var m := s.deployers[step.d].rest[0];
      assert m in HeldBy(s.deployers[step.d]);
      assert IsImageName(m.value);
    }
    hide NamesValid, ClaimKey;
  }

  /** No claim, no drop, no copy, no announcement, no deletion. */
  predicate OnlyFills(h: seq<Effect>) {
    forall i :: 0 <= i < |h| ==> h[i].Filled? || h[i].Overwritten?
  }

  predicate NothingAnnounced(deletions: seq<DeleteLog>) {
    forall q :: 0 <= q < |deletions| ==> deletions[q].log == []
  }

  lemma {:induction false} CountedOnce(h: seq<Effect>, i: nat, kind: Kind, key: string)
    requires i < |h| && KindFor(h[i], key) == Some(kind)
    ensures Tally(h, kind, key) > 0
  {
    if i < |h| - 1 { CountedOnce(h[..|h| - 1], i, kind, key); }
  }

  lemma {:induction false} UntakenIsUncounted(h: seq<Effect>, key: string)
    requires forall i :: 0 <= i < |h| ==> !(h[i].Taken? && h[i].key == key)
    ensures Tally(h, Claims, key) == 0
  {
    if h != [] { UntakenIsUncounted(h[..|h| - 1], key); }
  }

  predicate NothingTaken(h: seq<Effect>) {
    forall i :: 0 <= i < |h| ==> !h[i].Taken?
  }

  lemma NothingTakenNothingDone(s: State, steps: seq<Step>)
    requires Init(s) && Run(s, steps).Some?
    requires NothingTaken(Run(s, steps).value.history)
    ensures OnlyFills(Run(s, steps).value.history) && NothingAnnounced(Run(s, steps).value.deletions)
  {
    hide Run, Init, NamesValid;
    var t := Run(s, steps).value;
    var h := t.history;
    InitGrounded(s);
    RunGrounded(s, steps);
    assert Grounded(t);
    forall i | 0 <= i < |h| && !h[i].Deleted? ensures h[i].Filled? || h[i].Overwritten? {
      var key := h[i].key;
      UntakenIsUncounted(h, key);
      EveryEntryAccounted(s, steps, key);
      CountedOnce(h, i, KindFor(h[i], key).value, key);
    }
    forall key, info ensures !WasCopied(h, key, info) {
    }
    NothingCopiedNothingDeleted(t);
  }

  lemma AnnouncementShowsCopy(h: seq<Effect>, log: seq<Message>)
    requires LogGrounded(h, log) && log != []
    ensures exists key, info :: WasCopied(h, key, info)
  {
    hide WasCopied;
    assert IsAnnouncement(h, log[0]);
  }

  lemma NothingCopiedNothingDeleted(t: State)
    requires Grounded(t) && forall key, info :: !WasCopied(t.history, key, info)
    ensures forall i :: 0 <= i < |t.history| ==> !t.history[i].Deleted?
    ensures NothingAnnounced(t.deletions)
  {
    hide WasCopied, IsAnnouncement;
    if i :| 0 <= i < |t.history| && t.history[i].Deleted? {
      var info :| WasCopied(t.history[..i], t.history[i].at.name, info);
      CopiedStays(t.history[..i], t.history, t.history[i].at.name, info);
    }
    forall q | 0 <= q < |t.deletions| ensures t.deletions[q].log == [] {
      if t.deletions[q].log != [] { AnnouncementShowsCopy(t.history, t.deletions[q].log); }
    }
  }

  /** However long the system runs, and however lucky it is: as long as all specs list their pods, no
      entry is ever claimed, no copy made, nothing announced, and no old pod deleted. */
  lemma SpecifiedPodsNeverMoved(s: State, steps: seq<Step>)
    requires Init(s) && Run(s, steps).Some? && OnlySpecified(steps)
    ensures OnlyFills(Run(s, steps).value.history) && NothingAnnounced(Run(s, steps).value.deletions)
  {
    InitGrounded(s);
    NamelessNeverTaken(s, steps);
    var h := Run(s, steps).value.history;
    forall i | 0 <= i < |h| ensures !h[i].Taken? {
      if h[i].Taken? && h[i].key != "" {
        assert Acts(h[i], h[i].key);
        SpecifiedPodNeverMoved(s, steps, h[i].key);
      }
    }
    NothingTakenNothingDone(s, steps);
    hide Run, Init, OnlySpecified, OnlyFills, NothingAnnounced, NamesValid, Grounded;
  }
}
