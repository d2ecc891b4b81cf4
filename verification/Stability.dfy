/** When an entry of ProcessPodsMap can be overwritten before a deployer has claimed it. */
module Stability {
  import opened Conservation
  import opened Handoff
  import opened Kafka
  import opened Migrations
  import opened Protocol
  import opened Reachability
  import opened Selection
  import opened Webhook
  import opened Wrappers

  predicate NoneOverwritten(h: seq<Effect>) {
    forall i :: 0 <= i < |h| ==> !h[i].Overwritten?
  }

  /** The key that a step enters into the map, if it enters one. */
  function FillKey(s: State, step: Step): Option<string> {
    if !step.Reconcile? then None
    else match step.r
         case FetchFails => Some("")
         case StartReconcile(i) => if i < |s.migrations| then Some(s.migrations[i].podName) else None
         case FillNext => if s.work.Working? && s.work.fills != [] then Some(s.work.fills[0]) else None
         case _ => None
  }

  /** The key that a step takes out of the map, if it takes one. */
  function ClaimKey(s: State, step: Step): Option<string> {
    if step.Deploy? && step.a.Claim? && step.d < |s.deployers| && s.deployers[step.d].Deploying?
       && s.deployers[step.d].rest != [] && KeyOf(s.deployers[step.d].rest[0]) in s.processing
    then Some(KeyOf(s.deployers[step.d].rest[0])) else None
  }

  // ---------------------------------------------------------------- one step

  predicate IsOtherEffect(e: Effect) {
    !e.Filled? && !e.Overwritten? && !e.Taken?
  }

  /** What becomes of the map and of the history in a step that fills and claims these keys. */
  ghost predicate Moves(s: State, t: State, fill: Option<string>, claim: Option<string>) {
    if fill.Some? then
      exists info :: t.processing == s.processing[fill.value := info] && t.history == Fill(s, fill.value, info).history
    else if claim.Some? then
      && claim.value in s.processing && t.processing == s.processing - {claim.value}
      && t.history == s.history + [Taken(claim.value, s.processing[claim.value])]
    else
      && t.processing == s.processing
      && (t.history == s.history
          || (|t.history| == |s.history| + 1 && t.history == s.history + [t.history[|s.history|]]
              && IsOtherEffect(t.history[|s.history|])))
  }

  lemma FillMoves(s: State, t: State, key: string, info: MigrationInfo)
    requires t.processing == Fill(s, key, info).processing && t.history == Fill(s, key, info).history
    ensures Moves(s, t, Some(key), None)
  {
  }

  lemma ReconcileMoves(s: State, r: ReconcileStep)
    requires NextReconcile(s, r).Some?
    ensures Moves(s, NextReconcile(s, r).value, FillKey(s, Reconcile(r)), None)
  {
    hide Fill, ListStep, CheckpointStep, Moves;
    ReconcileFrame(s, r);
    var t := NextReconcile(s, r).value;
    match r
    case FetchFails => FillMoves(s, t, "", InfoOf(ZERO_SPEC, ""));
    case StartReconcile(i) =>
      FillMoves(s, t, s.migrations[i].podName, InfoOf(s.migrations[i], s.migrations[i].deployment));
    case FillNext => FillMoves(s, t, s.work.fills[0], InfoOf(s.work.spec, ""));
    case _ => NothingMoves(s, t);
  }

  lemma NothingMoves(s: State, t: State)
    requires t.processing == s.processing && t.history == s.history
    ensures Moves(s, t, None, None)
  {
  }

  lemma DeployMoves(s: State, d: nat, a: DeployStep)
    requires d < |s.deployers| && d < |s.registries| && NextDeploy(s, d, a).Some?
    ensures Moves(s, NextDeploy(s, d, a).value, None, ClaimKey(s, Deploy(d, a)))
  {
    hide KeyOf, CopyOf, CanCreate, CopyKey, EnsureNamespace, PollOne, Close, AppendTo, DeleteMessage;
  }

  lemma StepMoves(s: State, step: Step)
    requires Next(s, step).Some?
    ensures Moves(s, Next(s, step).value, FillKey(s, step), ClaimKey(s, step))
  {
    hide NextReconcile, NextDeploy, NextCluster, Moves, KeyOf;
    match step
    case Reconcile(r) => ReconcileMoves(s, r);
    case Build(b) => NothingMoves(s, Next(s, step).value);
    case Deploy(d, a) => DeployMoves(s, d, a);
    case OfCluster(c) => ClusterMoves(s, c);
  }

  lemma ClusterMoves(s: State, c: ClusterStep)
    requires NextCluster(s, c).Some?
    ensures Moves(s, NextCluster(s, c).value, None, None)
  {
    hide NextCluster;
    ClusterFrame(s, c);
  }

  predicate WasOverwritten(h: seq<Effect>, key: string) {
    exists i :: 0 <= i < |h| && h[i] == Overwritten(key)
  }

  lemma OverwrittenSnoc(h: seq<Effect>, e: Effect, key: string)
    ensures WasOverwritten(h + [e], key) <==> WasOverwritten(h, key) || e == Overwritten(key)
  {
    assert (h + [e])[|h|] == e;
    if i :| 0 <= i < |h| && h[i] == Overwritten(key) { assert (h + [e])[i] == Overwritten(key); }
  }

  /** A step overwrites the entry of a key exactly if it fills it while it is there. */
  lemma StepOverwrites(s: State, step: Step, key: string)
    requires Next(s, step).Some?
    ensures WasOverwritten(Next(s, step).value.history, key) <==>
              WasOverwritten(s.history, key) || (FillKey(s, step) == Some(key) && key in s.processing)
  {
    hide Next, KeyOf, ClaimKey, FillKey, WasOverwritten;
    StepMoves(s, step);
    var t := Next(s, step).value;
    if FillKey(s, step).Some? {
      var k := FillKey(s, step).value;
      var info :| t.processing == s.processing[k := info] && t.history == Fill(s, k, info).history;
      var over := if k in s.processing then [Overwritten(k)] else [];
      if over == [] { assert s.history + over == s.history; } else { OverwrittenSnoc(s.history, Overwritten(k), key); }
      OverwrittenSnoc(s.history + over, Filled(k, info), key);
    } else if t.history != s.history {
      OverwrittenSnoc(s.history, t.history[|s.history|], key);
    }
  }

  // ---------------------------------------------------------------- what the history tells

  /** The last fill of the key has not been claimed. */
  predicate InFlight(h: seq<Effect>, key: string) {
    h != [] &&
    (var last := h[|h| - 1];
     (last.Filled? && last.key == key)
     || (InFlight(h[..|h| - 1], key) && !(last.Taken? && last.key == key)))
  }

  predicate FilledAt(h: seq<Effect>, i: nat, key: string) {
    i < |h| && h[i].Filled? && h[i].key == key
  }

  predicate TakenAt(h: seq<Effect>, i: nat, key: string) {
    i < |h| && h[i].Taken? && h[i].key == key
  }

  ghost predicate UnclaimedSince(h: seq<Effect>, f: nat, key: string) {
    FilledAt(h, f, key) && forall c: nat :: f < c ==> !TakenAt(h, c, key)
  }

  lemma {:induction false} InFlightIff(h: seq<Effect>, key: string)
    ensures InFlight(h, key) <==> exists f: nat :: UnclaimedSince(h, f, key)
  {
    if h != [] {
      var n := |h| - 1;
      var front := h[..n];
      InFlightIff(front, key);
      assert forall i: nat :: i < n ==> (FilledAt(h, i, key) <==> FilledAt(front, i, key));
      assert forall i: nat :: i < n ==> (TakenAt(h, i, key) <==> TakenAt(front, i, key));
      if FilledAt(h, n, key) {
        assert UnclaimedSince(h, n, key);
      } else {
        if f: nat :| UnclaimedSince(front, f, key) && !TakenAt(h, n, key) { assert UnclaimedSince(h, f, key); }
        if f: nat :| UnclaimedSince(h, f, key) {
          assert !TakenAt(h, n, key);
          assert UnclaimedSince(front, f, key);
        }
      }
    }
  }

  /** The history tells what is in the map, and marks each fill of a key in flight, and no other. */
  ghost predicate Told(s: State) {
    && (forall key :: key in s.processing <==> InFlight(s.history, key))
    && Marked(s.history)
  }

  ghost predicate Marked(h: seq<Effect>) {
    && (forall i :: 0 <= i < |h| && h[i].Overwritten? ==>
          i + 1 < |h| && FilledAt(h, i + 1, h[i].key) && InFlight(h[..i], h[i].key))
    && (forall i :: 0 <= i < |h| && h[i].Filled? && InFlight(h[..i], h[i].key) ==>
          i > 0 && h[i - 1] == Overwritten(h[i].key))
  }

  lemma InFlightSnoc(h: seq<Effect>, e: Effect, key: string)
    ensures InFlight(h + [e], key) <==>
              (e.Filled? && e.key == key) || (InFlight(h, key) && !(e.Taken? && e.key == key))
  {
    assert (h + [e])[..|h + [e]| - 1] == h;
  }

  lemma MarkedOther(h: seq<Effect>, e: Effect)
    requires Marked(h) && !e.Filled? && !e.Overwritten?
    ensures Marked(h + [e])
  {
    var g := h + [e];
    assert forall i :: 0 <= i < |h| ==> g[i] == h[i] && g[..i] == h[..i];
    hide InFlight;
  }

  lemma MarkedFill(h: seq<Effect>, key: string, info: MigrationInfo)
    requires Marked(h)
    ensures Marked(h + (if InFlight(h, key) then [Overwritten(key)] else []) + [Filled(key, info)])
  {
    hide InFlight, Marked;
    if InFlight(h, key) { MarkedRefill(h, key, info); } else { MarkedFirstFill(h, key, info); }
    assert h + [] == h;
  }

  lemma MarkedFirstFill(h: seq<Effect>, key: string, info: MigrationInfo)
    requires Marked(h) && !InFlight(h, key)
    ensures Marked(h + [Filled(key, info)])
  {
    var g := h + [Filled(key, info)];
    assert g[..|h|] == h;
    assert forall i :: 0 <= i < |h| ==> g[i] == h[i] && g[..i] == h[..i];
    hide InFlight;
  }

  lemma MarkedRefill(h: seq<Effect>, key: string, info: MigrationInfo)
    requires Marked(h) && InFlight(h, key)
    ensures Marked(h + [Overwritten(key)] + [Filled(key, info)])
  {
    hide InFlight;
    var g := h + [Overwritten(key)] + [Filled(key, info)];
    assert g[..|h|] == h && g[|h|] == Overwritten(key) && FilledAt(g, |h| + 1, key);
    assert forall i :: 0 <= i < |h| ==> g[i] == h[i] && g[..i] == h[..i];
  }

  lemma ToldStep(s: State, step: Step)
    requires Told(s) && Next(s, step).Some?
    ensures Told(Next(s, step).value)
  {
    hide Next, KeyOf, ClaimKey, FillKey, InFlight, Marked;
    StepMoves(s, step);
    var t := Next(s, step).value;
    if FillKey(s, step).Some? {
      var k := FillKey(s, step).value;
      var info :| t.processing == s.processing[k := info] && t.history == Fill(s, k, info).history;
      var over := if k in s.processing then [Overwritten(k)] else [];
      MarkedFill(s.history, k, info);
      forall key ensures key in t.processing <==> InFlight(t.history, key) {
        if over == [] { assert s.history + over == s.history; } else { InFlightSnoc(s.history, Overwritten(k), key); }
        InFlightSnoc(s.history + over, Filled(k, info), key);
      }
    } else if t.history != s.history {
      var e := t.history[|s.history|];
      MarkedOther(s.history, e);
      forall key ensures key in t.processing <==> InFlight(t.history, key) { InFlightSnoc(s.history, e, key); }
    }
  }

  lemma {:induction false} RunTold(s: State, steps: seq<Step>)
    requires Told(s) && Run(s, steps).Some?
    ensures Told(Run(s, steps).value)
    decreases steps
  {
    hide Told, Next;
    if steps != [] {
      ToldStep(s, steps[0]);
      RunTold(Next(s, steps[0]).value, steps[1..]);
    }
  }

  /** Between any two fills of one key there is a claim of it. */
  ghost predicate FillsSeparated(h: seq<Effect>) {
    forall i: nat, j: nat, key :: i < j && FilledAt(h, i, key) && FilledAt(h, j, key) ==>
      exists c: nat :: i < c < j && TakenAt(h, c, key)
  }

  lemma SeparatedIfUnmarked(h: seq<Effect>)
    requires Marked(h) && NoneOverwritten(h)
    ensures FillsSeparated(h)
  {
    forall i: nat, j: nat, key | i < j && FilledAt(h, i, key) && FilledAt(h, j, key)
      ensures exists c: nat :: i < c < j && TakenAt(h, c, key)
    {
      assert !InFlight(h[..j], key);
      InFlightIff(h[..j], key);
      assert FilledAt(h[..j], i, key) && !UnclaimedSince(h[..j], i, key);
      var c: nat :| i < c && TakenAt(h[..j], c, key);
      assert TakenAt(h, c, key);
    }
  }

  lemma UnmarkedIfSeparated(h: seq<Effect>)
    requires Marked(h) && FillsSeparated(h)
    ensures NoneOverwritten(h)
  {
    if i :| 0 <= i < |h| && h[i].Overwritten? {
      var key := h[i].key;
      InFlightIff(h[..i], key);
      var f: nat :| UnclaimedSince(h[..i], f, key);
      assert FilledAt(h, f, key) && FilledAt(h, i + 1, key);
      var c: nat :| f < c < i + 1 && TakenAt(h, c, key);
      assert !h[i].Taken?;
      assert TakenAt(h[..i], c, key);
    }
  }

  /** In runs of every mode and any length, nothing is overwritten exactly if between any two fills of
      a key the entry was claimed. */
  lemma NothingOverwrittenIff(s: State, steps: seq<Step>)
    requires Init(s) && Run(s, steps).Some?
    ensures var h := Run(s, steps).value.history; NoneOverwritten(h) <==> FillsSeparated(h)
  {
    RunTold(s, steps);
    var h := Run(s, steps).value.history;
    hide Run, Init;
    if NoneOverwritten(h) { SeparatedIfUnmarked(h); }
    if FillsSeparated(h) { UnmarkedIfSeparated(h); }
  }

  // ---------------------------------------------------------------- admission and start as one step

  predicate StartsOrFills(step: Step) {
    step.Reconcile? && (step.r.Submit? || step.r.StartReconcile? || step.r.FetchFails?)
  }

  /** Pod-name mode, with admission and the start of the one reconcile taken as one step. */
  ghost predicate Atomic(s: State, steps: seq<Step>)
    decreases steps
  {
    if steps == [] then true
    else if !StartsOrFills(steps[0]) then
      Next(s, steps[0]).Some? ==> Atomic(Next(s, steps[0]).value, steps[1..])
    else
      && steps[0].r.Submit? && steps[0].r.spec.podName != ""
      && |steps| >= 2 && steps[1] == Reconcile(StartReconcile(|s.migrations|))
      && (Run(s, steps[..2]).Some? ==> Atomic(Run(s, steps[..2]).value, steps[2..]))
  }

  /** Nothing is left to be filled, now or after the listing. */
  predicate NoFillsDue(work: Work) {
    && (work.Listing? ==> ModeOf(work.spec) == ByPodName)
    && (work.Working? ==> work.fills == [])
  }

  lemma OtherStepFillsNothing(s: State, step: Step)
    requires NoFillsDue(s.work) && Next(s, step).Some? && !StartsOrFills(step)
    ensures FillKey(s, step).None? && NoFillsDue(Next(s, step).value.work)
  {
    hide NextBuild, NextDeploy, NextCluster, ListStep, CheckpointStep;
    match step
    case Reconcile(r) => ReconcileFrame(s, r);
    case Build(b) => BuildFrame(s, b);
    case Deploy(d, a) => DeployFrame(s, d, a);
    case OfCluster(c) => ClusterFrame(s, c);
  }

  /** The webhook's test and the fill it guards, with nothing in between. */
  lemma AdmittedFillIsFresh(s: State, spec: MigrationSpec)
    requires spec.podName != "" && Next(s, Reconcile(Submit(spec))).Some?
    ensures var t := Next(s, Reconcile(Submit(spec))).value;
            && t.processing == s.processing && |t.migrations| == |s.migrations| + 1
            && t.migrations[|s.migrations|] == spec
            && spec.podName !in t.processing && ModeOf(spec) == ByPodName
  {
    AdmittedIff(spec, ViewOf(s), s.processing);
    assert spec.podName in NamedPods(spec);
  }

  lemma StartIsFresh(s: State, i: nat)
    requires i < |s.migrations| && s.migrations[i].podName !in s.processing && ModeOf(s.migrations[i]) == ByPodName
    requires Next(s, Reconcile(StartReconcile(i))).Some?
    ensures NoFillsDue(Next(s, Reconcile(StartReconcile(i))).value.work)
    ensures FillKey(s, Reconcile(StartReconcile(i))) == Some(s.migrations[i].podName)
  {
  }

  lemma {:induction false} AtomicOverwritesNothing(s: State, steps: seq<Step>, key: string)
    requires Atomic(s, steps) && NoFillsDue(s.work) && Run(s, steps).Some? && !WasOverwritten(s.history, key)
    ensures !WasOverwritten(Run(s, steps).value.history, key)
    decreases |steps|
  {
    hide Next, FillKey, NoFillsDue, ModeOf, WasOverwritten;
    if steps != [] {
      var t := Next(s, steps[0]).value;
      StepOverwrites(s, steps[0], key);
      if !StartsOrFills(steps[0]) {
        OtherStepFillsNothing(s, steps[0]);
        AtomicOverwritesNothing(t, steps[1..], key);
      } else {
        var spec := steps[0].r.spec;
        AdmittedFillIsFresh(s, spec);
        assert FillKey(s, steps[0]) == None by { SubmitFillsNothing(s, spec); }
        assert steps[1..][0] == steps[1] && steps[1..][1..] == steps[2..];
        var u := Next(t, steps[1]).value;
        StartIsFresh(t, |s.migrations|);
        StepOverwrites(t, steps[1], key);
        assert steps[..2] == [steps[0], steps[1]] && steps[..2][1..] == [steps[1]] && [steps[1]][1..] == [];
        assert Run(t, [steps[1]]) == Some(u) && Run(s, steps[..2]) == Some(u);
        AtomicOverwritesNothing(u, steps[2..], key);
      }
    }
  }

  lemma SubmitFillsNothing(s: State, spec: MigrationSpec)
    ensures FillKey(s, Reconcile(Submit(spec))) == None
  {
  }

  lemma {:induction false} NoOverwrites(h: seq<Effect>, key: string)
    requires NoneOverwritten(h)
    ensures Tally(h, Overwrites, key) == 0
  {
    if h != [] {
      var front := h[..|h| - 1];
      assert forall i :: 0 <= i < |front| ==> front[i] == h[i];
      NoOverwrites(front, key);
    }
  }

  /** In-flight stability, for runs of any length and any interleaving: when every spec names a pod
      and is reconciled once, atomically with its admission, no entry is overwritten between its fill
      and its claim; so each fill is claimed exactly once, or is still in the map. */
  lemma EntriesStable(s: State, steps: seq<Step>, key: string)
    requires Init(s) && Atomic(s, steps) && Run(s, steps).Some?
    ensures var t := Run(s, steps).value;
            && NoneOverwritten(t.history)
            && Tally(t.history, Fills, key) == Tally(t.history, Claims, key) + if key in t.processing then 1 else 0
  {
    var h := Run(s, steps).value.history;
    forall k ensures !WasOverwritten(h, k) { AtomicOverwritesNothing(s, steps, k); }
    assert forall i :: 0 <= i < |h| && h[i].Overwritten? ==> WasOverwritten(h, h[i].key);
    NoOverwrites(h, key);
    EveryEntryAccounted(s, steps, key);
    hide WasOverwritten, Run;
  }

  // ---------------------------------------------------------------- why atomicity matters

  function Raced(n: nat, first: MigrationSpec, second: MigrationSpec): seq<Step> {
    [Reconcile(Submit(first)), Reconcile(Submit(second)),
     Reconcile(StartReconcile(n)), Reconcile(EndReconcile), Reconcile(StartReconcile(n + 1))]
  }

  /** Two specs for one pod that are both admitted before the first is reconciled: from every idle
      state, the second destroys the entry of the first, whose destination is forgotten. */
  lemma RaceOverwrites(s: State, first: MigrationSpec, second: MigrationSpec)
    requires s.work.Idle? && first.podName == second.podName != ""
    requires ValidateMigration(first, ViewOf(s), s.processing).Success?
    requires ValidateMigration(second, ViewOf(s), s.processing).Success?
    ensures var r := Run(s, Raced(|s.migrations|, first, second));
            && r.Some? && WasOverwritten(r.value.history, first.podName)
            && first.podName in r.value.processing && r.value.processing[first.podName] == InfoOf(second, "")
  {
    hide ValidateMigration, ViewOf, Fill, Next, WasOverwritten;
    var n := |s.migrations|;
    AdmittedIff(second, ViewOf(s), s.processing);
    var a := s.(migrations := s.migrations + [first]);
    var b := a.(migrations := a.migrations + [second]);
    var c := Fill(b, first.podName, InfoOf(first, first.deployment)).(work := Listing(first));
    var d := c.(work := Idle);
    var e := Fill(d, second.podName, InfoOf(second, second.deployment)).(work := Listing(second));
    SameView(s, a);
    var steps := Raced(n, first, second);
    ReconcileNext(s, Submit(first));
    ReconcileNext(a, Submit(second));
    ReconcileNext(b, StartReconcile(n));
    ReconcileNext(c, EndReconcile);
    SameMigrations(b, first.podName, InfoOf(first, first.deployment));
    ReconcileNext(d, StartReconcile(n + 1));
    RunFrom(s, steps, 0);
    RunFrom(a, steps, 1);
    RunFrom(b, steps, 2);
    RunFrom(c, steps, 3);
    RunFrom(d, steps, 4);
    assert steps[0..] == steps && steps[5..] == [];
    assert Run(s, steps) == Some(e);
    FillIsIn(b, first.podName, InfoOf(first, first.deployment));
    FillMarks(d, second.podName, InfoOf(second, second.deployment));
    FillIsIn(d, second.podName, InfoOf(second, second.deployment));
  }

  lemma SameView(s: State, t: State)
    requires t.pods == s.pods && t.deployments == s.deployments
    ensures ViewOf(t) == ViewOf(s)
  {
  }

  lemma FillMarks(s: State, key: string, info: MigrationInfo)
    requires key in s.processing
    ensures WasOverwritten(Fill(s, key, info).history, key)
  {
    assert Fill(s, key, info).history[|s.history|] == Overwritten(key);
  }

  lemma FillIsIn(s: State, key: string, info: MigrationInfo)
    ensures key in Fill(s, key, info).processing && Fill(s, key, info).processing[key] == info
  {
  }

  lemma SameMigrations(s: State, key: string, info: MigrationInfo)
    ensures Fill(s, key, info).migrations == s.migrations
  {
  }

  lemma RunFrom(s: State, steps: seq<Step>, i: nat)
    ensures i < |steps| && Next(s, steps[i]).Some? ==>
              Run(s, steps[i..]) == Run(Next(s, steps[i]).value, steps[i + 1..])
  {
    hide Next;
    if i < |steps| { assert steps[i..][1..] == steps[i + 1..]; }
  }
}
