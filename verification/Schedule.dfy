/** Exactly which schedules destroy an entry of ProcessPodsMap before it is claimed. */
module Schedule {
  import opened Migrations
  import opened Protocol
  import opened Selection
  import opened Stability
  import opened Trail
  import opened Webhook
  import opened Wrappers

  // ---------------------------------------------------------------- the states of a run

  lemma PrefixRuns(s: State, steps: seq<Step>, k: nat)
    requires k <= |steps| && Run(s, steps).Some?
    ensures Run(s, steps[..k]).Some?
  {
    RunAppend(s, steps[..k], steps[k..]);
    assert steps == steps[..k] + steps[k..];
  }

  /** The state in which step k is taken. */
  ghost function After(s: State, steps: seq<Step>, k: nat): State
    requires k <= |steps| && Run(s, steps).Some?
  {
    PrefixRuns(s, steps, k);
    Run(s, steps[..k]).value
  }

  lemma AfterNext(s: State, steps: seq<Step>, k: nat)
    requires k < |steps| && Run(s, steps).Some?
    ensures Next(After(s, steps, k), steps[k]) == Some(After(s, steps, k + 1))
  {
    hide Next;
    PrefixRuns(s, steps, k);
    PrefixRuns(s, steps, k + 1);
    RunAppend(s, steps[..k], [steps[k]]);
    assert steps[..k + 1] == steps[..k] + [steps[k]];
    assert [steps[k]][1..] == [];
  }

  lemma AfterEnds(s: State, steps: seq<Step>)
    requires Run(s, steps).Some?
    ensures After(s, steps, 0) == s && After(s, steps, |steps|) == Run(s, steps).value
  {
    assert steps[..|steps|] == steps && steps[..0] == [];
  }

  ghost predicate FillsAt(s: State, steps: seq<Step>, j: nat, p: string)
    requires Run(s, steps).Some?
  {
    j < |steps| && FillKey(After(s, steps, j), steps[j]) == Some(p)
  }

  ghost predicate ClaimsAt(s: State, steps: seq<Step>, j: nat, p: string)
    requires Run(s, steps).Some?
  {
    j < |steps| && ClaimKey(After(s, steps, j), steps[j]) == Some(p)
  }

  /** The entry filled at f has not been claimed when step j is taken. */
  ghost predicate Pending(s: State, steps: seq<Step>, f: nat, j: nat, p: string)
    requires Run(s, steps).Some?
  {
    f < j <= |steps| && FillsAt(s, steps, f, p) && forall c: nat :: f < c < j ==> !ClaimsAt(s, steps, c, p)
  }

  // ---------------------------------------------------------------- what is in the map

  lemma StepKeys(s: State, step: Step, p: string)
    requires Next(s, step).Some?
    ensures p in Next(s, step).value.processing <==>
              FillKey(s, step) == Some(p) || (p in s.processing && ClaimKey(s, step) != Some(p))
  {
    StepMoves(s, step);
    assert FillKey(s, step).Some? ==> ClaimKey(s, step).None?;
    hide Next, FillKey, ClaimKey;
  }

  /** A key is in the map exactly if it was filled and not claimed since. */
  lemma {:induction false} InMapIff(s: State, steps: seq<Step>, j: nat, p: string)
    requires Run(s, steps).Some? && j <= |steps| && p !in s.processing
    ensures p in After(s, steps, j).processing <==> exists f: nat :: Pending(s, steps, f, j, p)
    decreases j
  {
    hide Next, Run, FillKey, ClaimKey, After;
    AfterEnds(s, steps);
    if j > 0 {
      var i := j - 1;
      InMapIff(s, steps, i, p);
      AfterNext(s, steps, i);
      StepKeys(After(s, steps, i), steps[i], p);
      if FillsAt(s, steps, i, p) {
        assert Pending(s, steps, i, j, p);
      } else {
        if f: nat :| Pending(s, steps, f, i, p) && !ClaimsAt(s, steps, i, p) { assert Pending(s, steps, f, j, p); }
        if f: nat :| Pending(s, steps, f, j, p) {
          assert f != i && !ClaimsAt(s, steps, i, p);
          assert Pending(s, steps, f, i, p);
        }
      }
    }
  }

  ghost predicate OverwritesAt(s: State, steps: seq<Step>, j: nat, p: string)
    requires Run(s, steps).Some?
  {
    FillsAt(s, steps, j, p) && p in After(s, steps, j).processing
  }

  lemma {:induction false} OverwrittenBySomeStep(s: State, steps: seq<Step>, k: nat, p: string)
    requires Run(s, steps).Some? && k <= |steps| && !WasOverwritten(s.history, p)
    ensures WasOverwritten(After(s, steps, k).history, p) <==> exists j: nat :: j < k && OverwritesAt(s, steps, j, p)
    decreases k
  {
    hide Next, Run, FillKey, After, WasOverwritten;
    AfterEnds(s, steps);
    if k > 0 {
      OverwrittenBySomeStep(s, steps, k - 1, p);
      AfterNext(s, steps, k - 1);
      StepOverwrites(After(s, steps, k - 1), steps[k - 1], p);
      assert OverwritesAt(s, steps, k - 1, p) <==>
               FillsAt(s, steps, k - 1, p) && p in After(s, steps, k - 1).processing;
      assert (exists j: nat :: j < k && OverwritesAt(s, steps, j, p)) <==>
               (exists j: nat :: j < k - 1 && OverwritesAt(s, steps, j, p)) || OverwritesAt(s, steps, k - 1, p);
    }
  }

  /** In runs of every mode: an entry is lost by overwriting exactly if its key is filled twice, by
      whatever steps - the start or the restart of a reconcile, a failed fetch, the listing of a
      deployment - with no claim in between. */
  lemma OverwrittenIff(s: State, steps: seq<Step>, p: string)
    requires Init(s) && Run(s, steps).Some?
    ensures WasOverwritten(Run(s, steps).value.history, p) <==>
              exists f: nat, j: nat :: FillsAt(s, steps, j, p) && Pending(s, steps, f, j, p)
  {
    AfterEnds(s, steps);
    OverwrittenBySomeStep(s, steps, |steps|, p);
    hide Run, After, FillsAt, Pending, WasOverwritten, Init;
    forall j: nat | j <= |steps|
      ensures p in After(s, steps, j).processing <==> exists f: nat :: Pending(s, steps, f, j, p)
    {
      InMapIff(s, steps, j, p);
    }
    if j: nat :| j < |steps| && OverwritesAt(s, steps, j, p) {
      var f: nat :| Pending(s, steps, f, j, p);
    }
    if f: nat, j: nat :| FillsAt(s, steps, j, p) && Pending(s, steps, f, j, p) {
      assert j < |steps| by { FillsInside(s, steps, j, p); }
      assert OverwritesAt(s, steps, j, p);
    }
  }

  lemma FillsInside(s: State, steps: seq<Step>, j: nat, p: string)
    requires Run(s, steps).Some? && FillsAt(s, steps, j, p)
    ensures j < |steps|
  {
  }

  // ---------------------------------------------------------------- fetches that fail, specs without a pod name

  lemma NoClaimWithoutName(s: State, steps: seq<Step>, c: nat)
    requires Init(s) && Run(s, steps).Some?
    ensures !ClaimsAt(s, steps, c, "")
  {
    if c < |steps| {
      InitGrounded(s);
      PrefixRuns(s, steps, c);
      RunGrounded(s, steps[..c]);
      var t := After(s, steps, c);
      assert NamesValid(t);
      if ClaimKey(t, steps[c]).Some? {
        var d := steps[c].d;
        assert t.deployers[d].rest[0] in HeldBy(t.deployers[d]);
        assert IsImageName(t.deployers[d].rest[0].value);
      }
      hide Init, NamesValid, Run;
    }
  }

  /** The entry without a name, which failed fetches and specs without a pod name fill, is overwritten
      exactly if there are two such fills: nobody ever claims it. */
  lemma NamelessOverwrittenIff(s: State, steps: seq<Step>)
    requires Init(s) && Run(s, steps).Some?
    ensures WasOverwritten(Run(s, steps).value.history, "") <==>
              exists f: nat, j: nat :: f < j && FillsAt(s, steps, f, "") && FillsAt(s, steps, j, "")
  {
    OverwrittenIff(s, steps, "");
    forall c: nat ensures !ClaimsAt(s, steps, c, "") { NoClaimWithoutName(s, steps, c); }
    hide Run, Init, WasOverwritten, ClaimsAt, After, FillKey;
    if f: nat, j: nat :| f < j && FillsAt(s, steps, f, "") && FillsAt(s, steps, j, "") {
      assert Pending(s, steps, f, j, "");
    }
  }

  // ---------------------------------------------------------------- starts

  lemma StepMigrations(s: State, step: Step)
    requires Next(s, step).Some?
    ensures var t := Next(s, step).value;
            t.migrations == s.migrations + if step.Reconcile? && step.r.Submit? then [step.r.spec] else []
  {
    hide NextReconcile, NextBuild, NextDeploy, NextCluster;
    match step
    case Reconcile(r) => ReconcileFrame(s, r);
    case Build(b) => BuildFrame(s, b);
    case Deploy(d, a) => DeployFrame(s, d, a);
    case OfCluster(c) => ClusterFrame(s, c);
  }

  ghost predicate SubmitsAt(s: State, steps: seq<Step>, i: nat, spec: MigrationSpec)
    requires Run(s, steps).Some?
  {
    i < |steps| && steps[i] == Reconcile(Submit(spec))
  }

  /** A spec that is stored later than at f was submitted later than at f. */
  lemma {:induction false} SubmittedBetween(s: State, steps: seq<Step>, f: nat, j: nat, n: nat)
    requires Run(s, steps).Some? && f <= j <= |steps|
    requires |After(s, steps, f).migrations| <= n < |After(s, steps, j).migrations|
    ensures exists i: nat :: f <= i < j && SubmitsAt(s, steps, i, After(s, steps, j).migrations[n])
    decreases j
  {
    hide Next, Run, After;
    var t := After(s, steps, j - 1);
    AfterNext(s, steps, j - 1);
    StepMigrations(t, steps[j - 1]);
    if n < |t.migrations| {
      SubmittedBetween(s, steps, f, j - 1, n);
      var i: nat :| f <= i < j - 1 && SubmitsAt(s, steps, i, t.migrations[n]);
      assert t.migrations[n] == After(s, steps, j).migrations[n];
    } else {
      assert SubmitsAt(s, steps, j - 1, After(s, steps, j).migrations[n]);
    }
  }

  ghost predicate StartsAt(s: State, steps: seq<Step>, j: nat, n: nat, p: string)
    requires Run(s, steps).Some?
  {
    && j < |steps| && steps[j] == Reconcile(StartReconcile(n))
    && n < |After(s, steps, j).migrations| && After(s, steps, j).migrations[n].podName == p
  }

  lemma StartFills(s: State, steps: seq<Step>, j: nat, n: nat, p: string)
    requires Run(s, steps).Some? && StartsAt(s, steps, j, n, p)
    ensures FillsAt(s, steps, j, p)
  {
  }

  /** The entry that a start makes, field by field; the pod's name is only its key. */
  lemma StartEnters(s: State, steps: seq<Step>, j: nat, n: nat, p: string)
    requires Run(s, steps).Some? && StartsAt(s, steps, j, n, p)
    ensures var spec := After(s, steps, j).migrations[n];
            && p in After(s, steps, j + 1).processing
            && After(s, steps, j + 1).processing[p] ==
                 MigrationInfo("", spec.deployment, spec.namespace, spec.destinationNode, spec.destinationNamespace,
                               spec.specify)
  {
    hide Run, After;
    AfterNext(s, steps, j);
  }

  lemma SubmitIsChecked(s: State, spec: MigrationSpec)
    requires Next(s, Reconcile(Submit(spec))).Some?
    ensures spec.podName != "" ==> spec.podName !in s.processing && ModeOf(spec) == ByPodName
    ensures FillKey(s, Reconcile(Submit(spec))).None?
  {
    AdmittedIff(spec, ViewOf(s), s.processing);
    assert spec.podName != "" ==> spec.podName in NamedPods(spec);
  }

  /** The start of a reconcile, be it the first or a later one of its spec, in a run of every mode: it
      overwrites an entry of its pod exactly if that entry was filled, and not claimed since, at a time
      when the spec had already been admitted. The webhook protects only what comes after. */
  lemma StartOverwritesIff(s: State, steps: seq<Step>, j: nat, n: nat, p: string)
    requires Init(s) && Run(s, steps).Some? && StartsAt(s, steps, j, n, p) && p != ""
    ensures OverwritesAt(s, steps, j, p) <==>
              exists f: nat :: Pending(s, steps, f, j, p) && n < |After(s, steps, f).migrations|
  {
    StartFills(s, steps, j, n, p);
    InMapIff(s, steps, j, p);
    if f: nat :| Pending(s, steps, f, j, p) {
      LateSpecIsRefused(s, steps, f, j, n, p);
    }
    hide Run, After, Pending, FillsAt, Init;
  }

  lemma LateSpecIsRefused(s: State, steps: seq<Step>, f: nat, j: nat, n: nat, p: string)
    requires Run(s, steps).Some? && p !in s.processing && p != "" && StartsAt(s, steps, j, n, p)
    requires Pending(s, steps, f, j, p)
    ensures n < |After(s, steps, f).migrations|
  {
    hide Next, Run, After, ClaimsAt, FillKey;
    if n >= |After(s, steps, f).migrations| {
      SubmittedBetween(s, steps, f, j, n);
      var spec := After(s, steps, j).migrations[n];
      var i: nat :| f <= i < j && SubmitsAt(s, steps, i, spec);
      assert Pending(s, steps, f, i, p) || f == i;
      AfterNext(s, steps, i);
      SubmitIsChecked(After(s, steps, i), spec);
      InMapIff(s, steps, i, p);
    }
  }

  // ---------------------------------------------------------------- specs that are started once

  /** Pod-name specs only, each started at most once, and every fetch succeeds. Admission and start may
      be any distance apart. */
  predicate PodNamesOnce(steps: seq<Step>) {
    && (forall i :: 0 <= i < |steps| && steps[i].Reconcile? && steps[i].r.Submit? ==> steps[i].r.spec.podName != "")
    && (forall i :: 0 <= i < |steps| && steps[i].Reconcile? ==> !steps[i].r.FetchFails?)
    && (forall i, j :: 0 <= i < j < |steps| && steps[i].Reconcile? && steps[i].r.StartReconcile? ==>
          steps[i] != steps[j])
  }

  ghost predicate OnlyPodNames(t: State) {
    && (forall n :: 0 <= n < |t.migrations| ==> t.migrations[n].podName != "" && ModeOf(t.migrations[n]) == ByPodName)
    && NoFillsDue(t.work)
  }

  lemma PodNamesStep(t: State, step: Step)
    requires OnlyPodNames(t) && Next(t, step).Some? && PodNamesOnce([step])
    ensures OnlyPodNames(Next(t, step).value)
    ensures FillKey(t, step).Some? ==> step.Reconcile? && step.r.StartReconcile?
  {
    hide NextBuild, NextDeploy, NextCluster, ListStep, CheckpointStep;
    assert [step][0] == step;
    StepMigrations(t, step);
    if !StartsOrFills(step) {
      OtherStepFillsNothing(t, step);
    } else if step.r.Submit? {
      SubmitIsChecked(t, step.r.spec);
    }
  }

  lemma InitOnlyPodNames(s: State)
    requires Init(s)
    ensures OnlyPodNames(s)
  {
  }

  lemma {:induction false} PodNamesAlong(s: State, steps: seq<Step>, k: nat)
    requires Init(s) && Run(s, steps).Some? && PodNamesOnce(steps) && k <= |steps|
    ensures OnlyPodNames(After(s, steps, k))
    decreases k
  {
    hide Init, Run, After, OnlyPodNames, Next;
    AfterEnds(s, steps);
    InitOnlyPodNames(s);
    if k > 0 {
      PodNamesAlong(s, steps, k - 1);
      AfterNext(s, steps, k - 1);
      assert PodNamesOnce([steps[k - 1]]);
      PodNamesStep(After(s, steps, k - 1), steps[k - 1]);
    }
  }

  /** Two specs for p, both admitted before the first of them is started, both started, and no claim of
      p between the two starts. */
  ghost predicate Race(s: State, steps: seq<Step>, p: string, j1: nat, n1: nat, j2: nat, n2: nat)
    requires Run(s, steps).Some?
  {
    && j1 < j2 && n1 != n2 && StartsAt(s, steps, j1, n1, p) && StartsAt(s, steps, j2, n2, p)
    && n2 < |After(s, steps, j1).migrations|
    && forall c: nat :: j1 < c < j2 ==> !ClaimsAt(s, steps, c, p)
  }

  /** In pod-name runs in which each spec is started once, an entry is overwritten exactly by a race. */
  lemma RaceIff(s: State, steps: seq<Step>, p: string)
    requires Init(s) && Run(s, steps).Some? && PodNamesOnce(steps) && p != ""
    ensures WasOverwritten(Run(s, steps).value.history, p) <==>
              exists j1: nat, n1: nat, j2: nat, n2: nat :: Race(s, steps, p, j1, n1, j2, n2)
  {
    hide Run, Init, After, WasOverwritten, ClaimsAt;
    OverwrittenIff(s, steps, p);
    if f: nat, j: nat :| FillsAt(s, steps, j, p) && Pending(s, steps, f, j, p) {
      OverwriteIsRace(s, steps, j, p);
    }
    if j1: nat, n1: nat, j2: nat, n2: nat :| Race(s, steps, p, j1, n1, j2, n2) {
      StartFills(s, steps, j1, n1, p);
      StartFills(s, steps, j2, n2, p);
      assert Pending(s, steps, j1, j2, p);
    }
  }

  lemma FillIsStart(s: State, steps: seq<Step>, j: nat, p: string) returns (n: nat)
    requires Init(s) && Run(s, steps).Some? && PodNamesOnce(steps) && FillsAt(s, steps, j, p)
    ensures StartsAt(s, steps, j, n, p)
  {
    hide Init, Run, After, OnlyPodNames, Next;
    PodNamesAlong(s, steps, j);
    AfterNext(s, steps, j);
    assert PodNamesOnce([steps[j]]);
    PodNamesStep(After(s, steps, j), steps[j]);
    n := steps[j].r.migration;
  }

  lemma OverwriteIsRace(s: State, steps: seq<Step>, j: nat, p: string)
    requires Init(s) && Run(s, steps).Some? && PodNamesOnce(steps) && p != ""
    requires FillsAt(s, steps, j, p) && exists f: nat :: Pending(s, steps, f, j, p)
    ensures exists j1: nat, n1: nat, n2: nat :: Race(s, steps, p, j1, n1, j, n2)
  {
    var n2 := FillIsStart(s, steps, j, p);
    InMapIff(s, steps, j, p);
    StartOverwritesIff(s, steps, j, n2, p);
    hide Init, Run, After, FillKey, ClaimsAt;
    var f: nat :| Pending(s, steps, f, j, p) && n2 < |After(s, steps, f).migrations|;
    var n1 := FillIsStart(s, steps, f, p);
    assert steps[f] != steps[j];
    assert Race(s, steps, p, f, n1, j, n2);
  }
}
