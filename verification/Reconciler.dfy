/** internal/controller/migration_controller.go: what one reconcile of a Migration does. */
module Reconciler {
  import opened Migrations
  import opened Names
  import opened Selection
  import opened Wrappers

  /** One container of a running pod, the unit of checkpointing. */
  datatype Target = Target(listed: Listed, container: string)

  /** How the outside world answers the calls made for one target, in the order of the calls. */
  datatype Answers = Answers(checkpoint: bool, body: bool, json: bool, items: seq<string>, client: bool,
                             registryIp: Option<string>, imageCheck: bool, push: bool)

  datatype Effect =
    | Checkpointed(target: Target, ok: bool)
    | ImageChecked(target: Target, node: string, ok: bool)
    | Pushed(target: Target, buildNode: string, image: string, registryIp: string, ok: bool)
    | JobsDeleted

  /** Panicked stands for an out-of-range index: no image of the pod is known, or the kubelet's list
      of checkpoint files is empty. */
  datatype Verdict = Proceed | Failed | Panicked

  function ContainersOf(item: Listed, k: nat): (r: seq<Target>)
    requires k <= |item.pod.containers|
    ensures |r| == |item.pod.containers| - k
    decreases |item.pod.containers| - k
  {
    if k == |item.pod.containers| then []
    else [Target(item, item.pod.containers[k].name)] + ContainersOf(item, k + 1)
  }

  /** Running pods times containers, in list order. */
  function Targets(items: seq<Listed>): seq<Target> {
    if items == [] then []
    else (if items[0].pod.running then ContainersOf(items[0], 0) else []) + Targets(items[1..])
  }

  /** The body of the inner loop. */
  function Attempt(target: Target, a: Answers, destinationNode: string): (seq<Effect>, Verdict) {
    if !a.checkpoint then ([Checkpointed(target, false)], Failed)
    else if !a.body || !a.json then ([Checkpointed(target, true)], Proceed)
    else if !a.client || a.registryIp.None? then ([Checkpointed(target, true)], Failed)
    else if target.listed.pod.imageIDs == [] then ([Checkpointed(target, true)], Panicked)
    else if !a.imageCheck then
      ([Checkpointed(target, true), ImageChecked(target, destinationNode, false)], Failed)
    else if a.items == [] then
      ([Checkpointed(target, true), ImageChecked(target, destinationNode, true)], Panicked)
    else
      var push := Pushed(target, target.listed.pod.node, ModifyCheckpointToImageName(a.items[0]),
                         a.registryIp.value, a.push);
      var done := [Checkpointed(target, true), ImageChecked(target, destinationNode, true), push];
      if a.push then (done + [JobsDeleted], Proceed) else (done, Failed)
  }

  /** The loops of checkpointSinglePod; answers(i) is the outside world during the i-th attempt. */
  function CheckpointAll(targets: seq<Target>, answers: nat -> Answers, i: nat,
                         destinationNode: string): (seq<Effect>, Verdict)
    decreases targets
  {
    if targets == [] then ([], Proceed)
    else
      var (effects, verdict) := Attempt(targets[0], answers(i), destinationNode);
      if verdict != Proceed then (effects, verdict)
      else
        var (rest, last) := CheckpointAll(targets[1..], answers, i + 1, destinationNode);
        (effects + rest, last)
  }

  // ---------------------------------------------------------------- properties of a trace

  /** The targets whose checkpoint was attempted, in order. */
  function Attempted(trace: seq<Effect>): seq<Target> {
    if trace == [] then []
    else (if trace[0].Checkpointed? then [trace[0].target] else []) + Attempted(trace[1..])
  }

  /** Every push comes straight after a successful image check and, before that, a successful
      checkpoint of the same target; it is built on the node of the pod; and the finished jobs are
      cleaned up after each push that succeeds, and only then. */
  predicate PushesEarned(trace: seq<Effect>, destinationNode: string) {
    forall j :: 0 <= j < |trace| ==> EarnedAt(trace, j, destinationNode)
  }

  predicate EarnedAt(trace: seq<Effect>, j: nat, destinationNode: string)
    requires j < |trace|
  {
    && (trace[j].Pushed? ==>
          && j >= 2
          && trace[j - 1] == ImageChecked(trace[j].target, destinationNode, true)
          && trace[j - 2] == Checkpointed(trace[j].target, true)
          && trace[j].buildNode == trace[j].target.listed.pod.node
          && (trace[j].ok ==> j + 1 < |trace| && trace[j + 1].JobsDeleted?))
    && (trace[j].JobsDeleted? ==> j >= 1 && trace[j - 1].Pushed? && trace[j - 1].ok)
  }

  lemma JoinTargets(a: seq<Target>, b: seq<Target>, c: seq<Target>)
    ensures a + (b + c) == (a + b) + c
  {
  }

  lemma {:induction false} AttemptedFirst(e: Effect, rest: seq<Effect>)
    ensures Attempted([e] + rest) == (if e.Checkpointed? then [e.target] else []) + Attempted(rest)
  {
    assert ([e] + rest)[1..] == rest;
  }

  lemma {:induction false} AttemptedAppend(a: seq<Effect>, b: seq<Effect>)
    ensures Attempted(a + b) == Attempted(a) + Attempted(b)
  {
    hide Attempted;
    if a == [] {
      AttemptedNone();
      assert a + b == b;
    } else {
      var rest := a[1..];
      AttemptedAppend(rest, b);
      AttemptedFirst(a[0], rest);
      AttemptedFirst(a[0], rest + b);
      assert a == [a[0]] + rest && a + b == [a[0]] + (rest + b);
      JoinTargets(if a[0].Checkpointed? then [a[0].target] else [], Attempted(rest), Attempted(b));
    }
  }

  lemma AttemptedNone()
    ensures Attempted([]) == []
  {
  }

  // ---------------------------------------------------------------- which containers are targets

  /** How many containers the running ones among the first i pods have. */
  function Earlier(items: seq<Listed>, i: nat): nat
    requires i <= |items|
  {
    if i == 0 then 0
    else Earlier(items, i - 1) + if items[i - 1].pod.running then |items[i - 1].pod.containers| else 0
  }

  lemma {:induction false} TargetsAppend(a: seq<Listed>, b: seq<Listed>)
    ensures Targets(a + b) == Targets(a) + Targets(b)
  {
    hide ContainersOf;
    if a == [] {
      assert a + b == b;
    } else {
      assert (a + b)[0] == a[0] && (a + b)[1..] == a[1..] + b;
      TargetsAppend(a[1..], b);
    }
  }

  lemma {:induction false} ContainerAt(item: Listed, k: nat, c: nat)
    requires k <= c < |item.pod.containers|
    ensures ContainersOf(item, k)[c - k] == Target(item, item.pod.containers[c].name)
    decreases c - k
  {
    if k < c { ContainerAt(item, k + 1, c); }
  }

  lemma {:induction false} TargetCount(items: seq<Listed>, i: nat)
    requires i <= |items|
    ensures |Targets(items[..i])| == Earlier(items, i)
  {
    hide ContainersOf;
    if i > 0 {
      TargetCount(items, i - 1);
      assert items[..i] == items[..i - 1] + [items[i - 1]];
      TargetsAppend(items[..i - 1], [items[i - 1]]);
      assert [items[i - 1]][1..] == [];
    }
  }

  /** Where the targets stand: those of a running pod after those of all running pods listed before it,
      its containers in their order; pods that are not running have none. */
  lemma TargetsAre(items: seq<Listed>, i: nat, c: nat)
    requires i < |items| && items[i].pod.running && c < |items[i].pod.containers|
    ensures |Targets(items)| == Earlier(items, |items|)
    ensures Earlier(items, i) + c < |Targets(items)|
    ensures Targets(items)[Earlier(items, i) + c] == Target(items[i], items[i].pod.containers[c].name)
  {
    hide Targets, Earlier, ContainersOf;
    TargetCount(items, |items|);
    TargetCount(items, i);
    var before, one, after := items[..i], [items[i]], items[i + 1..];
    assert items == before + (one + after) && items[..|items|] == items;
    TargetsAppend(before, one + after);
    TargetsAppend(one, after);
    OneRunning(items[i]);
    ContainerAt(items[i], 0, c);
    var mine := ContainersOf(items[i], 0);
    assert (Targets(before) + (mine + Targets(after)))[|Targets(before)| + c] == mine[c];
  }

  lemma {:induction false} OneRunning(item: Listed)
    requires item.pod.running
    ensures Targets([item]) == ContainersOf(item, 0)
  {
    assert [item][1..] == [];
  }

  /** Exactly the containers of running pods are targets. */
  lemma {:induction false} RunningOnly(items: seq<Listed>, t: Target)
    ensures t in Targets(items) <==>
              exists i, c :: 0 <= i < |items| && items[i].pod.running && 0 <= c < |items[i].pod.containers|
                             && t == Target(items[i], items[i].pod.containers[c].name)
  {
    if items != [] {
      var rest := items[1..];
      RunningOnly(rest, t);
      var mine := ContainersOf(items[0], 0);
      forall c | 0 <= c < |items[0].pod.containers|
        ensures mine[c] == Target(items[0], items[0].pod.containers[c].name)
      {
        ContainerAt(items[0], 0, c);
      }
      hide ContainersOf;
      if i, c :| 0 <= i < |rest| && rest[i].pod.running && 0 <= c < |rest[i].pod.containers|
                 && t == Target(rest[i], rest[i].pod.containers[c].name) {
        assert items[i + 1] == rest[i];
      }
      if i, c :| 0 < i < |items| && items[i].pod.running && 0 <= c < |items[i].pod.containers|
                 && t == Target(items[i], items[i].pod.containers[c].name) {
        assert rest[i - 1] == items[i];
      }
    }
  }

  lemma {:induction false} CheckpointedIsAttempted(trace: seq<Effect>, e: Effect)
    requires e in trace && e.Checkpointed?
    ensures e.target in Attempted(trace)
  {
    if e != trace[0] { CheckpointedIsAttempted(trace[1..], e); }
  }

  /** Only containers of listed, running pods are ever checkpointed, and where nothing runs, nothing
      happens at all. */
  lemma OnlyRunningCheckpointed(items: seq<Listed>, answers: nat -> Answers, destinationNode: string)
    ensures var (trace, verdict) := CheckpointAll(Targets(items), answers, 0, destinationNode);
            && (forall e :: e in trace && e.Checkpointed? ==> e.target.listed in items && e.target.listed.pod.running)
            && ((forall x :: x in items ==> !x.pod.running) ==> trace == [] && verdict == Proceed)
  {
    hide Targets, Attempted, Attempt;
    var trace := CheckpointAll(Targets(items), answers, 0, destinationNode).0;
    TraceIsPrefix(Targets(items), answers, 0, destinationNode);
    forall e | e in trace && e.Checkpointed? ensures e.target.listed in items && e.target.listed.pod.running {
      CheckpointedIsAttempted(trace, e);
      RunningOnly(items, e.target);
    }
    if forall x :: x in items ==> !x.pod.running {
      if Targets(items) != [] { RunningOnly(items, Targets(items)[0]); }
    }
  }

  /** The same for what a fetched reconcile does with any listing, in every mode. */
  lemma OutcomeOfRunning(spec: MigrationSpec, listing: Option<seq<Listed>>, answers: nat -> Answers)
    ensures var trace := Outcome(spec, listing, answers).0;
            && (forall e :: e in trace && e.Checkpointed? ==>
                  listing.Some? && e.target.listed in listing.value && e.target.listed.pod.running)
            && (listing.Some? && (forall x :: x in listing.value ==> !x.pod.running) ==> trace == [])
  {
    hide CheckpointAll, Targets, Select;
    if listing.Some? && Select(spec, listing.value).Success? {
      SelectedAreListed(spec, listing.value);
      OnlyRunningCheckpointed(Select(spec, listing.value).value, answers, spec.destinationNode);
    }
  }

  // ---------------------------------------------------------------- when an attempt lets the loops go on

  /** The answers after which the loops go on: what the kubelet said cannot be read, or all went well. */
  predicate Proceeds(target: Target, a: Answers) {
    a.checkpoint &&
    (!a.body || !a.json
     || (a.client && a.registryIp.Some? && target.listed.pod.imageIDs != [] && a.imageCheck && a.items != [] && a.push))
  }

  /** A missing image or checkpoint file panics; every other answer after which the loops do not go on is
      an error. */
  lemma AttemptTells(target: Target, a: Answers, destinationNode: string)
    ensures var verdict := Attempt(target, a, destinationNode).1;
            && (verdict == Proceed <==> Proceeds(target, a))
            && (verdict == Panicked <==>
                  && a.checkpoint && a.body && a.json && a.client && a.registryIp.Some?
                  && (target.listed.pod.imageIDs == [] || (a.imageCheck && a.items == [])))
  {
    hide ModifyCheckpointToImageName;
  }

  /** What an attempt does, by the answers: it looks for the original image on the destination node exactly
      if the kubelet's answer can be read, client, registry and image id are there; and it pushes the first
      checkpoint file, from the pod's node, exactly if that image is there and a file is named. */
  lemma AttemptActs(target: Target, a: Answers, destinationNode: string)
    ensures var effects := Attempt(target, a, destinationNode).0;
            var ready := a.checkpoint && a.body && a.json && a.client && a.registryIp.Some?
                         && target.listed.pod.imageIDs != [];
            && (forall e :: e in effects && e.Checkpointed? ==> e == Checkpointed(target, a.checkpoint))
            && (forall e :: e in effects && e.ImageChecked? ==>
                  e == ImageChecked(target, destinationNode, a.imageCheck))
            && ((exists e :: e in effects && e.ImageChecked?) <==> ready)
            && ((exists e :: e in effects && e.Pushed?) <==> ready && a.imageCheck && a.items != [])
            && (forall e :: e in effects && e.Pushed? ==>
                  e == Pushed(target, target.listed.pod.node, ModifyCheckpointToImageName(a.items[0]),
                              a.registryIp.value, a.push))
  {
    hide ModifyCheckpointToImageName;
    var effects := Attempt(target, a, destinationNode).0;
    if |effects| > 1 { assert effects[1] in effects && effects[1].ImageChecked?; }
    if |effects| > 2 { assert effects[2] in effects && effects[2].Pushed?; }
  }

  lemma {:induction false} NoneAttempted(trace: seq<Effect>)
    requires forall i :: 0 <= i < |trace| ==> !trace[i].Checkpointed?
    ensures Attempted(trace) == []
  {
    if trace != [] { NoneAttempted(trace[1..]); }
  }

  lemma OneAttempted(trace: seq<Effect>)
    requires trace != [] && trace[0].Checkpointed? && forall i :: 0 < i < |trace| ==> !trace[i].Checkpointed?
    ensures Attempted(trace) == [trace[0].target]
  {
    NoneAttempted(trace[1..]);
  }

  lemma AttemptIsOne(target: Target, a: Answers, destinationNode: string)
    ensures var (effects, verdict) := Attempt(target, a, destinationNode);
            && Attempted(effects) == [target]
            && PushesEarned(effects, destinationNode)
            && effects != [] && effects[0] == Checkpointed(target, a.checkpoint)
  {
    hide Attempted, ModifyCheckpointToImageName;
    OneAttempted(Attempt(target, a, destinationNode).0);
  }

  /** What is attempted is a prefix of the running pods times containers in list order, and all of
      them if the loops run to their end. */
  lemma {:induction false} TraceIsPrefix(targets: seq<Target>, answers: nat -> Answers, i: nat,
                                         destinationNode: string)
    ensures var (trace, verdict) := CheckpointAll(targets, answers, i, destinationNode);
            && Attempted(trace) <= targets
            && (verdict == Proceed ==> Attempted(trace) == targets)
    decreases targets
  {
    if targets != [] {
      var (effects, verdict) := Attempt(targets[0], answers(i), destinationNode);
      AttemptIsOne(targets[0], answers(i), destinationNode);
      assert targets == [targets[0]] + targets[1..];
      if verdict == Proceed {
        TraceIsPrefix(targets[1..], answers, i + 1, destinationNode);
        AttemptedAppend(effects, CheckpointAll(targets[1..], answers, i + 1, destinationNode).0);
      }
    }
  }

  /** If the loops are left early, it is because of the last attempt. */
  lemma {:induction false} LastAttemptStops(targets: seq<Target>, answers: nat -> Answers, i: nat,
                                            destinationNode: string)
    ensures var (trace, verdict) := CheckpointAll(targets, answers, i, destinationNode);
            var n := |Attempted(trace)|;
            verdict != Proceed ==>
              0 < n <= |targets| && Attempt(targets[n - 1], answers(i + n - 1), destinationNode).1 == verdict
    decreases targets
  {
    if targets != [] {
      var (effects, verdict) := Attempt(targets[0], answers(i), destinationNode);
      AttemptIsOne(targets[0], answers(i), destinationNode);
      hide Attempt;
      if verdict == Proceed {
        LastAttemptStops(targets[1..], answers, i + 1, destinationNode);
        var (rest, last) := CheckpointAll(targets[1..], answers, i + 1, destinationNode);
        AttemptedAppend(effects, rest);
        hide CheckpointAll, Attempted;
        var n := |Attempted(rest)|;
        assert last != Proceed ==> targets[1..][n - 1] == targets[n] && i + 1 + n - 1 == i + (n + 1) - 1;
      }
    }
  }

  /** The loops run to their end when, and only when, no attempt fails. */
  lemma {:induction false} EndReachedIff(targets: seq<Target>, answers: nat -> Answers, i: nat, destinationNode: string)
    ensures CheckpointAll(targets, answers, i, destinationNode).1 == Proceed <==>
              forall k :: 0 <= k < |targets| ==> Proceeds(targets[k], answers(i + k))
    decreases targets
  {
    if targets != [] {
      var tail := targets[1..];
      AttemptTells(targets[0], answers(i), destinationNode);
      hide Attempt;
      EndReachedIff(tail, answers, i + 1, destinationNode);
      if Proceeds(targets[0], answers(i)) {
        if forall k :: 0 <= k < |tail| ==> Proceeds(tail[k], answers(i + 1 + k)) {
          forall k | 0 <= k < |targets| ensures Proceeds(targets[k], answers(i + k)) {
            if k > 0 { assert Proceeds(tail[k - 1], answers(i + 1 + (k - 1))); }
          }
        } else {
          var k :| 0 <= k < |tail| && !Proceeds(tail[k], answers(i + 1 + k));
          assert !Proceeds(targets[k + 1], answers(i + (k + 1)));
        }
      } else {
        assert !Proceeds(targets[0], answers(i + 0));
      }
    }
  }

  lemma EarnedAppend(a: seq<Effect>, b: seq<Effect>, destinationNode: string)
    requires PushesEarned(a, destinationNode) && PushesEarned(b, destinationNode)
    ensures PushesEarned(a + b, destinationNode)
  {
    forall j | 0 <= j < |a + b| ensures EarnedAt(a + b, j, destinationNode) {
      if j < |a| {
        assert EarnedAt(a, j, destinationNode);
      } else {
        assert EarnedAt(b, j - |a|, destinationNode);
      }
    }
  }

  /** No image is pushed without its own checkpoint and its own check of the original image; and a
      reconcile that reaches the end has pushed exactly the readable checkpoints, in order. */
  lemma {:induction false} TracePushes(targets: seq<Target>, answers: nat -> Answers, i: nat, destinationNode: string)
    ensures var (trace, verdict) := CheckpointAll(targets, answers, i, destinationNode);
            && PushesEarned(trace, destinationNode)
            && (verdict == Proceed ==> PushTargets(trace) == Readable(targets, answers, i))
    decreases targets
  {
    if targets != [] {
      var (effects, verdict) := Attempt(targets[0], answers(i), destinationNode);
      AttemptIsOne(targets[0], answers(i), destinationNode);
      if verdict == Proceed {
        TracePushes(targets[1..], answers, i + 1, destinationNode);
        var (rest, _) := CheckpointAll(targets[1..], answers, i + 1, destinationNode);
        EarnedAppend(effects, rest, destinationNode);
        PushTargetsAppend(effects, rest);
        AttemptPushes(targets[0], answers(i), destinationNode);
      }
    }
  }

  function PushTargets(trace: seq<Effect>): seq<Target> {
    if trace == [] then []
    else (if trace[0].Pushed? then [trace[0].target] else []) + PushTargets(trace[1..])
  }

  function Readable(targets: seq<Target>, answers: nat -> Answers, i: nat): seq<Target>
    decreases targets
  {
    if targets == [] then []
    else (if answers(i).body && answers(i).json then [targets[0]] else []) + Readable(targets[1..], answers, i + 1)
  }

  lemma {:induction false} PushTargetsFirst(e: Effect, rest: seq<Effect>)
    ensures PushTargets([e] + rest) == (if e.Pushed? then [e.target] else []) + PushTargets(rest)
  {
    assert ([e] + rest)[1..] == rest;
  }

  lemma {:induction false} PushTargetsAppend(a: seq<Effect>, b: seq<Effect>)
    ensures PushTargets(a + b) == PushTargets(a) + PushTargets(b)
  {
    hide PushTargets;
    if a == [] {
      PushTargetsNone();
      assert a + b == b;
    } else {
      var rest := a[1..];
      PushTargetsAppend(rest, b);
      PushTargetsFirst(a[0], rest);
      PushTargetsFirst(a[0], rest + b);
      assert a == [a[0]] + rest && a + b == [a[0]] + (rest + b);
      JoinTargets(if a[0].Pushed? then [a[0].target] else [], PushTargets(rest), PushTargets(b));
    }
  }

  lemma PushTargetsNone()
    ensures PushTargets([]) == []
  {
  }

  lemma AttemptPushes(target: Target, a: Answers, destinationNode: string)
    ensures var (effects, verdict) := Attempt(target, a, destinationNode);
            verdict == Proceed ==> PushTargets(effects) == if a.body && a.json then [target] else []
  {
    var (effects, verdict) := Attempt(target, a, destinationNode);
    if verdict == Proceed && a.body && a.json {
      var push := effects[2];
      assert effects == [effects[0], effects[1]] + [push] + [JobsDeleted];
      PushTargetsAppend([effects[0], effects[1]], [push]);
      PushTargetsAppend([effects[0], effects[1]] + [push], [JobsDeleted]);
      PushTargetsAppend([effects[0]], [effects[1]]);
    }
  }

  // ---------------------------------------------------------------- the reconciler itself

  class MigrationReconciler {
    var migrationSpec: MigrationSpec
    var trace: seq<Effect>
    const processing: ProcessPods

    constructor (processing: ProcessPods)
      ensures this.processing == processing && trace == []
    {
      this.processing := processing;
      migrationSpec := ZERO_SPEC;
      trace := [];
    }

    /** filterPods; listing is the answer of r.List, None if it failed. */
    method FilterPods(listing: Option<seq<Listed>>, nilOptions: bool, specifyOrNot: bool)
      returns (r: Result<seq<Listed>, SelectError>)
      requires nilOptions <==> ModeOf(migrationSpec) == ByPodName
      requires specifyOrNot <==> ModeOf(migrationSpec) == Specified
      modifies processing
      ensures r == if listing.None? then Failure(ListFailed) else Select(migrationSpec, listing.value)
      ensures processing.entries ==
                if listing.Some? && ModeOf(migrationSpec) == OfDeployment
                then FillAll(old(processing.entries), listing.value, migrationSpec)
                else old(processing.entries)
    {
      if listing.None? {
        return Failure(ListFailed);
      }
      if nilOptions {
        var podList := KeepByName(listing.value);
        r := Success(podList);
      } else if specifyOrNot {
        r := KeepSpecified(listing.value);
      } else {
        var podList := KeepDeployment(listing.value);
        r := Success(podList);
      }
    }

    /** The branch without list options: the list is reassigned while its snapshot is ranged over. */
    method KeepByName(listed: seq<Listed>) returns (podList: seq<Listed>)
      ensures podList == SelectByName(listed, migrationSpec.podName)
    {
      podList := listed;
      for i := 0 to |listed|
        invariant podList == SelectByNameFrom(listed, migrationSpec.podName, i)
      {
        NamedSnoc(listed, i, migrationSpec.podName);
        if listed[i].key.name == migrationSpec.podName {
          podList := [listed[i]];
        }
      }
      assert listed[..|listed|] == listed;
    }

    method KeepSpecified(listed: seq<Listed>) returns (r: Result<seq<Listed>, SelectError>)
      ensures r == (var all := SelectSpecified(migrationSpec.specify, listed);
                    if all.Some? then Success(all.value) else Failure(PodNotFound))
    {
      var names := migrationSpec.specify;
      var podList := [];
      assert names[0..] == names;
      ghost var goal := SelectSpecified(names, listed);
      assert goal.Some? ==> [] + goal.value == goal.value;
      for s := 0 to |names|
        invariant goal == PrependTo(podList, SelectSpecified(names[s..], listed))
      {
        assert names[s..][1..] == names[s + 1..];
        ghost var before, rest := podList, SelectSpecified(names[s + 1..], listed);
        var found;
        podList, found := AppendNamed(podList, listed, names[s]);
        if !found {
          return Failure(PodNotFound);
        }
        assert rest.Some? ==> before + (Named(listed, names[s]) + rest.value) == podList + rest.value;
      }
      assert names[|names|..] == [] && podList + [] == podList;
      r := Success(podList);
    }

    /** The inner loop of specify mode. */
    method AppendNamed(before: seq<Listed>, listed: seq<Listed>, name: string)
      returns (podList: seq<Listed>, found: bool)
      ensures podList == before + Named(listed, name)
      ensures found <==> Named(listed, name) != []
    {
      podList, found := before, false;
      for i := 0 to |listed|
        invariant podList == before + Named(listed[..i], name)
        invariant found <==> Named(listed[..i], name) != []
      {
        NamedSnoc(listed, i, name);
        if listed[i].key.name == name {
          podList := podList + [listed[i]];
          found := true;
        }
      }
      assert listed[..|listed|] == listed;
    }

    method KeepDeployment(listed: seq<Listed>) returns (filteredPods: seq<Listed>)
      modifies processing
      ensures filteredPods == WithPrefix(listed, migrationSpec.podName)
      ensures processing.entries == FillAll(old(processing.entries), listed, migrationSpec)
    {
      filteredPods := [];
      assert listed[0..] == listed;
      for i := 0 to |listed|
        invariant FillAll(old(processing.entries), listed, migrationSpec) ==
                    FillAll(processing.entries, listed[i..], migrationSpec)
        invariant WithPrefix(listed, migrationSpec.podName) ==
                    filteredPods + WithPrefix(listed[i..], migrationSpec.podName)
      {
        var pod := listed[i];
        assert listed[i..][1..] == listed[i + 1..];
        processing.FillinGlobalVariables(pod.key.name, "", migrationSpec.namespace,
                                         migrationSpec.destinationNode,
                                         migrationSpec.destinationNamespace, migrationSpec.specify);
        if migrationSpec.podName <= pod.key.name {
          filteredPods := filteredPods + [pod];
        }
      }
    }

    /** checkpointSinglePod, without the listing error; answers(n) is the world in attempt n. */
    method CheckpointPods(podList: seq<Listed>, answers: nat -> Answers) returns (verdict: Verdict)
      modifies this`trace
      ensures var (effects, last) := CheckpointAll(Targets(podList), answers, 0, migrationSpec.destinationNode);
              trace == old(trace) + effects && verdict == last
    {
      hide Attempt, ContainersOf;
      ghost var node := migrationSpec.destinationNode;
      ghost var goal := CheckpointAll(Targets(podList), answers, 0, node);
      var attempt: nat := 0;
      assert podList[0..] == podList;
      for p := 0 to |podList|
        invariant Joins(goal, old(trace), trace, CheckpointAll(Targets(podList[p..]), answers, attempt, node))
      {
        assert podList[p..][1..] == podList[p + 1..];
        ghost var start, mine, others := trace, ContainersOf(podList[p], 0), Targets(podList[p + 1..]);
        if podList[p].pod.running {
          assert Targets(podList[p..]) == mine + others;
          CheckpointAllAppend(mine, others, answers, attempt, node);
          verdict := CheckpointContainers(podList[p], answers, attempt);
          if verdict != Proceed {
            return;
          }
          ghost var done := CheckpointAll(mine, answers, attempt, node).0;
          attempt := attempt + |podList[p].pod.containers|;
          JoinStep(goal, old(trace), start, done, CheckpointAll(others, answers, attempt, node));
        } else {
          assert Targets(podList[p..]) == others;
        }
      }
      verdict := Proceed;
    }

    /** The inner loop over the containers of one running pod. */
    method CheckpointContainers(item: Listed, answers: nat -> Answers, first: nat) returns (verdict: Verdict)
      modifies this`trace
      ensures var (effects, last) :=
                CheckpointAll(ContainersOf(item, 0), answers, first, migrationSpec.destinationNode);
              trace == old(trace) + effects && verdict == last
    {
      hide Attempt;
      ghost var node := migrationSpec.destinationNode;
      ghost var goal := CheckpointAll(ContainersOf(item, 0), answers, first, node);
      for c := 0 to |item.pod.containers|
        invariant Joins(goal, old(trace), trace, CheckpointAll(ContainersOf(item, c), answers, first + c, node))
      {
        var target := Target(item, item.pod.containers[c].name);
        assert ContainersOf(item, c)[1..] == ContainersOf(item, c + 1);
        var (effects, v) := Attempt(target, answers(first + c), migrationSpec.destinationNode);
        ghost var before := trace;
        trace := trace + effects;
        if v != Proceed {
          return v;
        }
        JoinStep(goal, old(trace), before, effects,
                 CheckpointAll(ContainersOf(item, c + 1), answers, first + c + 1, node));
      }
      verdict := Proceed;
    }

    /** Reconcile: fetch is the stored spec, None if r.Get failed. The deployment's own Get is part
        of listing. Only specify mode reports its failure to the caller. */
    method Reconcile(fetch: Option<MigrationSpec>, listing: Option<seq<Listed>>, answers: nat -> Answers)
      returns (ok: bool, verdict: Verdict)
      modifies this, processing
      ensures migrationSpec == if fetch.Some? then fetch.value else ZERO_SPEC
      ensures processing.entries == Entries(fetch, listing, old(processing.entries))
      ensures fetch.None? ==> !ok && trace == old(trace)
      ensures fetch.Some? ==>
                var outcome := Outcome(fetch.value, listing, answers);
                && trace == old(trace) + outcome.0
                && verdict == outcome.1
                && (ok <==> verdict == Proceed || (verdict == Failed && ModeOf(fetch.value) != Specified))
      ensures forall k :: |old(trace)| <= k < |trace| && trace[k].Checkpointed? ==>
                listing.Some? && trace[k].target.listed in listing.value && trace[k].target.listed.pod.running
      ensures listing.Some? && (forall x :: x in listing.value ==> !x.pod.running) ==> trace == old(trace)
    {
      hide Outcome;
      if fetch.Some? { OutcomeOfRunning(fetch.value, listing, answers); OutcomeIs(fetch.value, listing, answers); }
      verdict := Proceed;
      migrationSpec := if fetch.Some? then fetch.value else ZERO_SPEC;
      processing.FillinGlobalVariables(migrationSpec.podName, migrationSpec.deployment, migrationSpec.namespace,
                                       migrationSpec.destinationNode, migrationSpec.destinationNamespace,
                                       migrationSpec.specify);
      if fetch.None? {
        return false, verdict;
      }
      var selected := FilterPods(listing, ModeOf(migrationSpec) == ByPodName, ModeOf(migrationSpec) == Specified);
      if selected.Failure? {
        verdict := Failed;
      } else {
        verdict := CheckpointPods(selected.value, answers);
      }
      ok := verdict == Proceed || (verdict == Failed && ModeOf(migrationSpec) != Specified);
    }
  }

  function Entries(fetch: Option<MigrationSpec>, listing: Option<seq<Listed>>,
                   processing: map<string, MigrationInfo>): map<string, MigrationInfo> {
    var spec := if fetch.Some? then fetch.value else ZERO_SPEC;
    var filled := processing[spec.podName := InfoOf(spec, spec.deployment)];
    if fetch.Some? && listing.Some? && ModeOf(spec) == OfDeployment
    then FillAll(filled, listing.value, spec) else filled
  }

  function Outcome(spec: MigrationSpec, listing: Option<seq<Listed>>, answers: nat -> Answers): (seq<Effect>, Verdict) {
    if listing.None? then ([], Failed)
    else
      var selected := Select(spec, listing.value);
      if selected.Failure? then ([], Failed)
      else CheckpointAll(Targets(selected.value), answers, 0, spec.destinationNode)
  }

  lemma OutcomeIs(spec: MigrationSpec, listing: Option<seq<Listed>>, answers: nat -> Answers)
    ensures Outcome(spec, listing, answers) ==
              if listing.None? || Select(spec, listing.value).Failure? then ([], Failed)
              else CheckpointAll(Targets(Select(spec, listing.value).value), answers, 0, spec.destinationNode)
  {
  }

  /** A reconcile comes to its end exactly if the pods can be listed, those the spec lists are among them,
      and the answers to every attempt let it go on; without pods to work on it fails and does nothing. */
  lemma OutcomeEndsIff(spec: MigrationSpec, listing: Option<seq<Listed>>, answers: nat -> Answers)
    ensures listing.None? || Select(spec, listing.value).Failure? ==> Outcome(spec, listing, answers) == ([], Failed)
    ensures Outcome(spec, listing, answers).1 == Proceed <==>
              && listing.Some? && Select(spec, listing.value).Success?
              && var targets := Targets(Select(spec, listing.value).value);
                 forall k :: 0 <= k < |targets| ==> Proceeds(targets[k], answers(k))
  {
    hide Select, Targets, CheckpointAll, Proceeds, Outcome;
    OutcomeIs(spec, listing, answers);
    if listing.Some? && Select(spec, listing.value).Success? {
      EndReachedFromStart(Targets(Select(spec, listing.value).value), answers, spec.destinationNode);
    }
  }

  lemma EndReachedFromStart(targets: seq<Target>, answers: nat -> Answers, destinationNode: string)
    ensures CheckpointAll(targets, answers, 0, destinationNode).1 == Proceed <==>
              forall k :: 0 <= k < |targets| ==> Proceeds(targets[k], answers(k))
  {
    hide CheckpointAll, Proceeds;
    EndReachedIff(targets, answers, 0, destinationNode);
    forall k | 0 <= k < |targets| ensures answers(0 + k) == answers(k) {
    }
  }

  // ---------------------------------------------------------------- loop bookkeeping

  lemma {:induction false} CheckpointAllAppend(a: seq<Target>, b: seq<Target>, answers: nat -> Answers, i: nat,
                                               destinationNode: string)
    ensures var (first, stop) := CheckpointAll(a, answers, i, destinationNode);
            var (second, last) := CheckpointAll(b, answers, i + |a|, destinationNode);
            CheckpointAll(a + b, answers, i, destinationNode) ==
              if stop != Proceed then (first, stop) else (first + second, last)
    decreases a
  {
    if a == [] {
      assert a + b == b;
      assert [] + CheckpointAll(b, answers, i, destinationNode).0 == CheckpointAll(b, answers, i, destinationNode).0;
    } else {
      assert (a + b)[1..] == a[1..] + b;
      CheckpointAllAppend(a[1..], b, answers, i + 1, destinationNode);
      var effects := Attempt(a[0], answers(i), destinationNode).0;
      var middle := CheckpointAll(a[1..], answers, i + 1, destinationNode).0;
      var second := CheckpointAll(b, answers, i + |a|, destinationNode).0;
      assert effects + (middle + second) == (effects + middle) + second;
    }
  }

  function SelectByNameFrom(snapshot: seq<Listed>, name: string, i: nat): seq<Listed>
    requires i <= |snapshot|
  {
    var named := Named(snapshot[..i], name);
    if named == [] then snapshot else [named[|named| - 1]]
  }

  lemma NamedSnoc(items: seq<Listed>, i: nat, name: string)
    requires i < |items|
    ensures Named(items[..i + 1], name) ==
              Named(items[..i], name) + (if items[i].key.name == name then [items[i]] else [])
  {
    assert items[..i + 1] == items[..i] + [items[i]];
    NamedAppend(items[..i], [items[i]], name);
  }

  function PrependTo(front: seq<Listed>, rest: Option<seq<Listed>>): Option<seq<Listed>> {
    if rest.None? then None else Some(front + rest.value)
  }

  lemma JoinStep(goal: (seq<Effect>, Verdict), start: seq<Effect>, now: seq<Effect>, effects: seq<Effect>,
                 rest: (seq<Effect>, Verdict))
    requires Joins(goal, start, now, (effects + rest.0, rest.1))
    ensures Joins(goal, start, now + effects, rest)
  {
  }

  /** The whole result is what has been done so far followed by what remains. */
  ghost predicate Joins(goal: (seq<Effect>, Verdict), start: seq<Effect>, now: seq<Effect>,
                        rest: (seq<Effect>, Verdict)) {
    start + goal.0 == now + rest.0 && goal.1 == rest.1
  }
}
