/** Where every map entry goes: exact accounts of fills, claims, copies and announcements. */
module Conservation {
  import opened Handoff
  import opened Kafka
  import opened Migrations
  import opened Protocol
  import opened Wrappers

  datatype Kind = Fills | Overwrites | Claims | Drops | Copies | Announcements | Silences

  /** What an effect counts as for a key. */
  function KindFor(e: Effect, key: string): Option<Kind> {
    if e.Deleted? || e.key != key then None
    else match e
         case Filled(_, _) => Some(Fills)
         case Overwritten(_) => Some(Overwrites)
         case Taken(_, _) => Some(Claims)
         case Dropped(_) => Some(Drops)
         case Copied(_, _, _, _, _) => Some(Copies)
         case Announced(_, _) => Some(Announcements)
         case Unannounced(_) => Some(Silences)
  }

  function Tally(h: seq<Effect>, kind: Kind, key: string): nat {
    if h == [] then 0
    else Tally(h[..|h| - 1], kind, key) + if KindFor(h[|h| - 1], key) == Some(kind) then 1 else 0
  }

  /** Deployers between the claim of key and the creation of its copy. */
  predicate HoldsEntry(phase: Phase, key: string) {
    (phase.Claimed? || phase.Prepared?) && KeyOf(phase.msg) == key
  }

  /** Deployers between the creation of the copy and its announcement. */
  predicate HoldsCopy(phase: Phase, key: string) {
    phase.CopyMade? && KeyOf(phase.msg) == key
  }

  function EntriesHeld(deployers: seq<Phase>, key: string): nat {
    if deployers == [] then 0
    else EntriesHeld(deployers[..|deployers| - 1], key) + if HoldsEntry(deployers[|deployers| - 1], key) then 1 else 0
  }

  function CopiesHeld(deployers: seq<Phase>, key: string): nat {
    if deployers == [] then 0
    else CopiesHeld(deployers[..|deployers| - 1], key) + if HoldsCopy(deployers[|deployers| - 1], key) then 1 else 0
  }

  /** Every fill is claimed once, overwritten once, or still in the map; every claim is dropped,
      turned into one copy, or in a deployer's hands; every copy is announced, left unannounced, or
      about to be. */
  predicate Balanced(s: State, key: string) {
    var h := s.history;
    && Tally(h, Fills, key) ==
         Tally(h, Claims, key) + Tally(h, Overwrites, key) + (if key in s.processing then 1 else 0)
    && Tally(h, Claims, key) == Tally(h, Copies, key) + Tally(h, Drops, key) + EntriesHeld(s.deployers, key)
    && Tally(h, Copies, key) == Tally(h, Announcements, key) + Tally(h, Silences, key) + CopiesHeld(s.deployers, key)
  }

  lemma TallySnoc(h: seq<Effect>, e: Effect, kind: Kind, key: string)
    ensures Tally(h + [e], kind, key) == Tally(h, kind, key) + if KindFor(e, key) == Some(kind) then 1 else 0
  {
  }

  /** The only tally that may differ between two histories is that of one kind, by one. */
  predicate Counted(before: seq<Effect>, after: seq<Effect>, key: string, kind: Option<Kind>) {
    && Tally(after, Fills, key) == Tally(before, Fills, key) + (if kind == Some(Fills) then 1 else 0)
    && Tally(after, Overwrites, key) == Tally(before, Overwrites, key) + (if kind == Some(Overwrites) then 1 else 0)
    && Tally(after, Claims, key) == Tally(before, Claims, key) + (if kind == Some(Claims) then 1 else 0)
    && Tally(after, Drops, key) == Tally(before, Drops, key) + (if kind == Some(Drops) then 1 else 0)
    && Tally(after, Copies, key) == Tally(before, Copies, key) + (if kind == Some(Copies) then 1 else 0)
    && Tally(after, Announcements, key) ==
         Tally(before, Announcements, key) + (if kind == Some(Announcements) then 1 else 0)
    && Tally(after, Silences, key) == Tally(before, Silences, key) + (if kind == Some(Silences) then 1 else 0)
  }

  lemma LogSnoc(h: seq<Effect>, e: Effect, key: string)
    ensures Counted(h, h + [e], key, KindFor(e, key))
  {
    hide KindFor;
    assert (h + [e])[..|h + [e]| - 1] == h;
  }

  lemma {:induction false} HeldUpdate(deployers: seq<Phase>, d: nat, phase: Phase, key: string)
    requires d < |deployers|
    ensures EntriesHeld(deployers[d := phase], key) + (if HoldsEntry(deployers[d], key) then 1 else 0) ==
              EntriesHeld(deployers, key) + if HoldsEntry(phase, key) then 1 else 0
    ensures CopiesHeld(deployers[d := phase], key) + (if HoldsCopy(deployers[d], key) then 1 else 0) ==
              CopiesHeld(deployers, key) + if HoldsCopy(phase, key) then 1 else 0
  {
    var n := |deployers| - 1;
    if d < n {
      HeldUpdate(deployers[..n], d, phase, key);
      assert deployers[d := phase][..n] == deployers[..n][d := phase];
    } else {
      assert deployers[d := phase][..n] == deployers[..n];
    }
  }

  lemma FillBalanced(s: State, filled: string, info: MigrationInfo, key: string)
    requires Balanced(s, key)
    ensures Balanced(Fill(s, filled, info), key)
  {
    hide Tally, EntriesHeld, CopiesHeld;
    var over := if filled in s.processing then [Overwritten(filled)] else [];
    if over != [] { LogSnoc(s.history, Overwritten(filled), key); } else { assert s.history + over == s.history; }
    LogSnoc(s.history + over, Filled(filled, info), key);
  }

  lemma ReconcileBalanced(s: State, r: ReconcileStep, key: string)
    requires Balanced(s, key) && NextReconcile(s, r).Some?
    ensures Balanced(NextReconcile(s, r).value, key)
  {
    hide Balanced, CheckpointStep, ListStep;
    ReconcileFrame(s, r);
    match r
    case FetchFails => FillBalanced(s, "", InfoOf(ZERO_SPEC, ""), key);
    case StartReconcile(i) =>
      var spec := s.migrations[i];
      FillBalanced(s, spec.podName, InfoOf(spec, spec.deployment), key);
      SameBalanced(Fill(s, spec.podName, InfoOf(spec, spec.deployment)), NextReconcile(s, r).value, key);
    case FillNext =>
      FillBalanced(s, s.work.fills[0], InfoOf(s.work.spec, ""), key);
      SameBalanced(Fill(s, s.work.fills[0], InfoOf(s.work.spec, "")), NextReconcile(s, r).value, key);
    case _ => SameBalanced(s, NextReconcile(s, r).value, key);
  }

  lemma SameBalanced(s: State, t: State, key: string)
    requires Balanced(s, key) && t.history == s.history && t.processing == s.processing && t.deployers == s.deployers
    ensures Balanced(t, key)
  {
  }

  /** A deployer changes phase without an entry in the history. */
  lemma QuietMoveBalanced(s: State, t: State, d: nat, phase: Phase, key: string)
    requires Balanced(s, key) && d < |s.deployers| && t.deployers == s.deployers[d := phase]
    requires t.history == s.history && t.processing == s.processing
    requires HoldsEntry(phase, key) == HoldsEntry(s.deployers[d], key) &&
        HoldsCopy(phase, key) == HoldsCopy(s.deployers[d], key)
    ensures Balanced(t, key)
  {
    hide HoldsEntry, HoldsCopy, Tally, EntriesHeld, CopiesHeld;
    HeldUpdate(s.deployers, d, phase, key);
  }

  lemma DeployBalanced(s: State, d: nat, a: DeployStep, key: string)
    requires d < |s.deployers| && d < |s.registries| && Balanced(s, key) && NextDeploy(s, d, a).Some?
    ensures Balanced(NextDeploy(s, d, a).value, key)
  {
    hide Balanced, ClaimStep, CopyStep, AnnounceStep, PrepareStep, PollStep;
    match a
    case PollTopic(poll) => PollBalanced(s, d, poll, key);
    case Claim => ClaimBalanced(s, d, key);
    case Abandon => AbandonBalanced(s, d, key);
    case Prepare(get, create) => PrepareBalanced(s, d, get, create, key);
    case CreateCopy => CopyBalanced(s, d, key);
    case Announce(to) => AnnounceBalanced(s, d, to, key);
    case _ => var t := NextDeploy(s, d, a).value; QuietMoveBalanced(s, t, d, t.deployers[d], key);
  }

  lemma PollBalanced(s: State, d: nat, poll: Poll, key: string)
    requires d < |s.deployers| && d < |s.registries| && Balanced(s, key) && PollStep(s, d, poll).Some?
    ensures Balanced(PollStep(s, d, poll).value, key)
  {
    hide Balanced, PollOne, Close;
    var t := PollStep(s, d, poll).value;
    QuietMoveBalanced(s, t, d, t.deployers[d], key);
  }

  lemma PrepareBalanced(s: State, d: nat, get: bool, create: bool, key: string)
    requires d < |s.deployers| && Balanced(s, key) && PrepareStep(s, d, get, create).Some?
    ensures Balanced(PrepareStep(s, d, get, create).value, key)
  {
    hide Balanced, EnsureNamespace;
    var t := PrepareStep(s, d, get, create).value;
    QuietMoveBalanced(s, t, d, t.deployers[d], key);
  }

  lemma ClaimBalanced(s: State, d: nat, key: string)
    requires d < |s.deployers| && Balanced(s, key) && ClaimStep(s, d).Some?
    ensures Balanced(ClaimStep(s, d).value, key)
  {
    hide KeyOf, Tally, EntriesHeld, CopiesHeld, Balanced;
    var t := ClaimStep(s, d).value;
    if t.deployers[d].Resting? {
      QuietMoveBalanced(s, t, d, Resting, key);
    } else {
      var m := s.deployers[d].rest[0];
      ClaimedBalanced(s, t, d, t.deployers[d], m, key);
    }
  }

  lemma ClaimedBalanced(s: State, t: State, d: nat, phase: Phase, m: Message, key: string)
    requires Balanced(s, key) && d < |s.deployers| && s.deployers[d].Deploying? && phase.Claimed? && phase.msg == m
    requires t.deployers == s.deployers[d := phase] && KeyOf(m) in s.processing &&
        t.processing == s.processing - {KeyOf(m)}
    requires t.history == s.history + [Taken(KeyOf(m), phase.info)]
    ensures Balanced(t, key)
  {
    hide KeyOf, Tally, EntriesHeld, CopiesHeld;
    HeldUpdate(s.deployers, d, phase, key);
    LogSnoc(s.history, Taken(KeyOf(m), phase.info), key);
  }

  function One(b: bool): nat {
    if b then 1 else 0
  }

  /** A deployer moves on with a claimed entry: what it gives up is what the effect counts. */
  lemma MoveBalanced(s: State, t: State, d: nat, phase: Phase, e: Effect, key: string)
    requires Balanced(s, key) && d < |s.deployers| && t.deployers == s.deployers[d := phase]
    requires t.processing == s.processing && t.history == s.history + [e]
    requires KindFor(e, key) in {None, Some(Drops), Some(Copies), Some(Announcements), Some(Silences)}
    requires var kind := KindFor(e, key);
             && One(HoldsEntry(s.deployers[d], key)) ==
                  One(HoldsEntry(phase, key)) + One(kind == Some(Copies)) + One(kind == Some(Drops))
             && One(HoldsCopy(s.deployers[d], key)) + One(kind == Some(Copies)) ==
                  One(HoldsCopy(phase, key)) + One(kind == Some(Announcements)) + One(kind == Some(Silences))
    ensures Balanced(t, key)
  {
    hide KindFor, HoldsEntry, HoldsCopy, Tally, EntriesHeld, CopiesHeld;
    HeldUpdate(s.deployers, d, phase, key);
    LogSnoc(s.history, e, key);
  }

  lemma AbandonBalanced(s: State, d: nat, key: string)
    requires d < |s.deployers| && d < |s.registries| && Balanced(s, key) && NextDeploy(s, d, Abandon).Some?
    ensures Balanced(NextDeploy(s, d, Abandon).value, key)
  {
    hide KeyOf, Balanced;
    MoveBalanced(s, NextDeploy(s, d, Abandon).value, d, Resting, Dropped(KeyOf(s.deployers[d].msg)), key);
  }

  lemma CopyBalanced(s: State, d: nat, key: string)
    requires d < |s.deployers| && d < |s.registries| && Balanced(s, key) && CopyStep(s, d).Some?
    ensures Balanced(CopyStep(s, d).value, key)
  {
    hide KeyOf, CopyOf, CanCreate, CopyKey, Balanced;
    var t := CopyStep(s, d).value;
    MoveBalanced(s, t, d, t.deployers[d], t.history[|s.history|], key);
  }

  lemma AnnounceBalanced(s: State, d: nat, to: Option<nat>, key: string)
    requires d < |s.deployers| && Balanced(s, key) && AnnounceStep(s, d, to).Some?
    ensures Balanced(AnnounceStep(s, d, to).value, key)
  {
    hide KeyOf, AppendTo, DeleteMessage, Balanced;
    var t := AnnounceStep(s, d, to).value;
    MoveBalanced(s, t, d, t.deployers[d], t.history[|s.history|], key);
  }

  lemma ClusterBalanced(s: State, c: ClusterStep, key: string)
    requires Balanced(s, key) && NextCluster(s, c).Some?
    ensures Balanced(NextCluster(s, c).value, key)
  {
    hide NextCluster, Balanced;
    ClusterFrame(s, c);
    var t := NextCluster(s, c).value;
    if t.history == s.history {
      SameBalanced(s, t, key);
    } else {
      DeletionBalanced(s, t, t.history[|s.history|], key);
    }
  }

  /** Deletions are not counted. */
  lemma DeletionBalanced(s: State, t: State, e: Effect, key: string)
    requires Balanced(s, key) && t.history == s.history + [e] && e.Deleted?
    requires t.processing == s.processing && t.deployers == s.deployers
    ensures Balanced(t, key)
  {
    LogSnoc(s.history, e, key);
    hide Tally, EntriesHeld, CopiesHeld;
  }

  lemma StepBalanced(s: State, step: Step, key: string)
    requires Balanced(s, key) && Next(s, step).Some?
    ensures Balanced(Next(s, step).value, key)
  {
    hide Balanced, NextReconcile, NextDeploy, NextCluster;
    match step
    case Reconcile(r) => ReconcileBalanced(s, r, key);
    case Build(b) => SameBalanced(s, Next(s, step).value, key);
    case Deploy(d, a) => DeployBalanced(s, d, a, key);
    case OfCluster(c) => ClusterBalanced(s, c, key);
  }

  lemma {:induction false} RunBalanced(s: State, steps: seq<Step>, key: string)
    requires Balanced(s, key) && Run(s, steps).Some?
    ensures Balanced(Run(s, steps).value, key)
    decreases steps
  {
    hide Balanced, Next;
    if steps != [] {
      StepBalanced(s, steps[0], key);
      RunBalanced(Next(s, steps[0]).value, steps[1..], key);
    }
  }

  lemma {:induction false} AllResting(deployers: seq<Phase>, key: string)
    requires forall d :: 0 <= d < |deployers| ==> deployers[d] == Resting
    ensures EntriesHeld(deployers, key) == 0 && CopiesHeld(deployers, key) == 0
  {
    if deployers != [] { AllResting(deployers[..|deployers| - 1], key); }
  }

  /** Conservation, in every run: no entry is used twice and none disappears without a trace. */
  lemma EveryEntryAccounted(s: State, steps: seq<Step>, key: string)
    requires Init(s) && Run(s, steps).Some?
    ensures Balanced(Run(s, steps).value, key)
  {
    AllResting(s.deployers, key);
    RunBalanced(s, steps, key);
  }

  /** At most once: neither several messages for one pod, nor deployers that run at the same time,
      nor messages delivered again, make more copies of a pod than it was entered into the map. */
  lemma CopiesNeverExceedFills(s: State, steps: seq<Step>, key: string)
    requires Init(s) && Run(s, steps).Some?
    ensures var h := Run(s, steps).value.history;
            Tally(h, Announcements, key) <= Tally(h, Copies, key) <= Tally(h, Claims, key) <= Tally(h, Fills, key)
  {
    EveryEntryAccounted(s, steps, key);
  }
}
