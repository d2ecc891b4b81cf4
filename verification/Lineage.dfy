/** Exactly in which clusters the lineage of every container is always kept alive: those where every pod
    has one container and no two pods share a lineage of names. A memory counts as kept if a checkpoint
    of it lives on; what was done after that checkpoint is the subject of Freshness. */
module Lineage {
  import opened Completion
  import opened Handoff
  import opened Lifeline
  import opened Migrations
  import opened Names
  import opened Protocol
  import opened Reachability
  import opened Routing
  import opened Wrappers

  /** No pod has the name another one has, or would have after some migrations. */
  predicate UniqueLineages(pods: map<PodKey, Pod>) {
    forall a, b :: a in pods && b in pods && Root(a.name) == Root(b.name) ==> a == b
  }

  predicate SoleContainers(pods: map<PodKey, Pod>) {
    forall k :: k in pods ==> |pods[k].containers| == 1
  }

  /** Whatever the operator does, some pod has, or descends from a checkpoint of, every container of s. */
  ghost predicate LineagesKept(s: State) {
    forall t, w :: Reaches(s, t) && Carried(s.pods, w) ==> Carried(t.pods, w)
  }

  /** A fresh cluster in which migrations are possible at all. */
  predicate Operable(s: State) {
    && Init(s) && RegistriesOk(s.registries) && s.registries != [] && s.topic != [] && s.deletions != []
    && forall k :: k in s.pods ==> CanRun(s.pods[k])
  }

  ghost function HomeIn(pods: map<PodKey, Pod>, root: string): (k: PodKey)
    ensures (exists x :: x in pods && Root(x.name) == root) ==> k in pods && Root(k.name) == root
  {
    if exists x :: x in pods && Root(x.name) == root then
      var x :| x in pods && Root(x.name) == root; x
    else PodKey("", "")
  }

  ghost function OriginIn(pods: map<PodKey, Pod>, root: string): Workload {
    var home := HomeIn(pods, root);
    Workload(home, if home in pods && pods[home].containers != [] then pods[home].containers[0].name else "")
  }

  lemma OriginsTraceBack(s: State, origin: Origin)
    requires Operable(s) && UniqueLineages(s.pods) && SoleContainers(s.pods)
    requires origin == ((root: string) => OriginIn(s.pods, root))
    ensures TracesBack(origin, s.pods)
  {
    forall k | k in s.pods ensures IsSole(s.pods[k], origin(Root(k.name))) {
      assert HomeIn(s.pods, Root(k.name)) == k;
      assert IsOriginal(k, s.pods[k]);
    }
  }

  lemma UniqueLineagesSuffice(s: State, t: State, w: Workload)
    requires Operable(s) && UniqueLineages(s.pods) && SoleContainers(s.pods) && Reaches(s, t) && Carried(s.pods, w)
    ensures Carried(t.pods, w)
  {
    hide OriginIn, TracesBack, Carried, RegistriesOk;
    var origin: Origin := (root: string) => OriginIn(s.pods, root);
    OriginsTraceBack(s, origin);
    var steps :| OnlyOperator(steps) && Run(s, steps) == Some(t);
    assert AllBenign(origin, steps) by {
      forall i | 0 <= i < |steps| ensures Benign(origin, steps[i]) {
        assert OfOperator(steps[i]);
      }
    }
    NoLineageLost(origin, s, steps, w);
  }

  // ---------------------------------------------------------------- how memory gets lost

  lemma {:induction false} LongerThanAll(keys: set<PodKey>) returns (n: nat)
    ensures forall k :: k in keys ==> |k.namespace| < n
  {
    if k :| k in keys {
      var m := LongerThanAll(keys - {k});
      n := if |k.namespace| < m then m else |k.namespace| + 1;
    } else {
      n := 0;
    }
  }

  lemma FreshNamespace(pods: map<PodKey, Pod>) returns (name: string)
    ensures ValidName(name) && forall k :: k in pods ==> k.namespace != name
  {
    var n := LongerThanAll(pods.Keys);
    name := seq(n + 1, _ => 'a');
    assert |name| == n + 1;
  }

  predicate OnlyCarrier(pods: map<PodKey, Pod>, key: PodKey, w: Workload) {
    && key in pods && Carries(pods[key], w)
    && forall k :: k in pods && Carries(pods[k], w) ==> k == key
  }

  /** A pod that can be checkpointed and restored. */
  predicate Movable(pods: map<PodKey, Pod>, key: PodKey) {
    key in pods && CanRun(pods[key]) && Surviving(pods[key]).Some?
  }

  lemma {:induction false} MemoryIsCarried(containers: seq<Container>, name: string)
    ensures MemoryOf(containers, name).Some? ==>
              exists i :: 0 <= i < |containers| && containers[i].memory == MemoryOf(containers, name)
  {
    if containers != [] && containers[0].name != name {
      MemoryIsCarried(containers[1..], name);
      if i :| 0 <= i < |containers[1..]| && containers[1..][i].memory == MemoryOf(containers[1..], name) {
        assert containers[i + 1] == containers[1..][i];
      }
    }
  }

  lemma {:induction false} MemoryAtItsName(containers: seq<Container>, i: nat)
    requires DistinctNames(containers) && i < |containers|
    ensures MemoryOf(containers, containers[i].name) == containers[i].memory
  {
    if i > 0 {
      assert DistinctNames(containers[1..]);
      MemoryAtItsName(containers[1..], i - 1);
    }
  }

  /** A migration that deletes the only carrier of w and checkpoints, last, something else. */
  lemma SourceIsLost(s: State, a: PodKey, b: PodKey, w: Workload) returns (t: State)
    requires Quiet(s) && OnlyCarrier(s.pods, a, w) && Movable(s.pods, b) && a.name == b.name
    requires Surviving(s.pods[b]) != Some(w)
    ensures Reaches(s, t) && !Carried(t.pods, w)
  {
    hide Reaches, Quiet, Surviving, CanRun;
    var destination := FreshNamespace(s.pods);
    var plan := Plan(a.name, a.namespace, "node", destination, b);
    assert plan.Source() == a;
    t := MigrationCompletes(s, plan);
    forall k | k in t.pods ensures !Carries(t.pods[k], w) {
      if k != plan.Copy() { assert t.pods[k] == s.pods[k]; }
    }
  }

  /** Two pods of one name in different namespaces: a migration of the first can checkpoint the
      second and then delete the first. */
  lemma TwinIsLost(s: State, a: PodKey, b: PodKey, w: Workload) returns (t: State)
    requires Quiet(s) && OnlyCarrier(s.pods, a, w) && Movable(s.pods, b) && a != b && a.name == b.name
    ensures Reaches(s, t) && !Carried(t.pods, w)
  {
    hide Reaches, Quiet, Carried;
    var pod := s.pods[b];
    MemoryIsCarried(pod.containers, pod.containers[|pod.containers| - 1].name);
    assert Surviving(pod) == Some(w) ==> Carries(pod, w);
    t := SourceIsLost(s, a, b, w);
  }

  /** A pod with several containers, in a cluster of any kind: all its checkpoints are pushed under one
      name, the copy is restored from the last of them, and the pod with the others is deleted, in a
      migration in which nothing fails. */
  lemma MultiContainerIsLost(s: State, a: PodKey, i: nat) returns (t: State)
    requires Quiet(s) && Movable(s.pods, a) && DistinctNames(s.pods[a].containers)
    requires i < |s.pods[a].containers| - 1 && s.pods[a].containers[i].memory.Some?
    requires OnlyCarrier(s.pods, a, s.pods[a].containers[i].memory.value)
    requires forall j :: 0 <= j < |s.pods[a].containers| && j != i ==>
               s.pods[a].containers[j].memory != s.pods[a].containers[i].memory
    ensures Reaches(s, t) && !Carried(t.pods, s.pods[a].containers[i].memory.value)
  {
    hide Reaches, Quiet, Carried, OnlyCarrier;
    MemoryAtItsName(s.pods[a].containers, |s.pods[a].containers| - 1);
    t := SourceIsLost(s, a, a, s.pods[a].containers[i].memory.value);
  }

  /** Two pods of one lineage at different depths: migrate the shallower one until they are twins. */
  lemma {:induction false} SharedLineageIsFatal(s: State, a: PodKey, b: PodKey, w: Workload) returns (t: State)
    requires Quiet(s) && OnlyCarrier(s.pods, a, w) && Movable(s.pods, a) && Surviving(s.pods[a]) == Some(w)
    requires Movable(s.pods, b) && a != b && Root(a.name) == Root(b.name) && Depth(a.name) <= Depth(b.name)
    ensures Reaches(s, t) && !Carried(t.pods, w)
    decreases Depth(b.name) - Depth(a.name)
  {
    if Depth(a.name) == Depth(b.name) {
      RootAndDepthIdentify(a.name, b.name);
      t := TwinIsLost(s, a, b, w);
    } else {
      var u, copy := MigratedDeeper(s, a, b, w);
      hide Reaches, Quiet, OnlyCarrier, Movable, Carried;
      t := SharedLineageIsFatal(u, copy, b, w);
      ReachesTrans(s, u, t);
    }
  }

  /** One ordinary migration of a, with b looking on. */
  lemma MigratedDeeper(s: State, a: PodKey, b: PodKey, w: Workload) returns (u: State, copy: PodKey)
    requires Quiet(s) && OnlyCarrier(s.pods, a, w) && Movable(s.pods, a) && Surviving(s.pods[a]) == Some(w)
    requires Movable(s.pods, b) && a != b && Depth(a.name) < Depth(b.name)
    ensures Reaches(s, u) && Quiet(u) && OnlyCarrier(u.pods, copy, w)
    ensures Movable(u.pods, copy) && Surviving(u.pods[copy]) == Some(w) && Movable(u.pods, b) && copy != b
    ensures Root(copy.name) == Root(a.name) && Depth(copy.name) == Depth(a.name) + 1
  {
    hide Reaches, Quiet;
    var destination := FreshNamespace(s.pods);
    var plan := Plan(a.name, a.namespace, "node", destination, a);
    assert plan.Source() == a;
    u := MigrationCompletes(s, plan);
    copy := plan.Copy();
    CopyIsOneDeeper(a.name);
    assert u.pods[copy].containers[0].memory == Some(w);
    assert MemoryOf(u.pods[copy].containers, u.pods[copy].containers[0].name) == Some(w);
    assert u.pods[b] == s.pods[b];
    assert OnlyCarrier(u.pods, copy, w) by {
      hide Surviving;
      forall k | k in u.pods && k != copy ensures !Carries(u.pods[k], w) {
        assert u.pods[k] == s.pods[k];
      }
    }
  }

  // ---------------------------------------------------------------- exactly when

  /** In all runs of the operator, every container of a fresh cluster keeps a pod that is or descends from
      it, exactly when every pod of the cluster has a single container and no two are of one lineage.
      How old the checkpoint is that lives on is another matter: Freshness.StaleRestore. */
  lemma LineagesKeptIff(s: State)
    requires Operable(s)
    ensures LineagesKept(s) <==> UniqueLineages(s.pods) && SoleContainers(s.pods)
  {
    hide Operable, Reaches, Carried;
    if UniqueLineages(s.pods) && SoleContainers(s.pods) {
      forall t, w | Reaches(s, t) && Carried(s.pods, w) ensures Carried(t.pods, w) {
        UniqueLineagesSuffice(s, t, w);
      }
    } else if a :| a in s.pods && |s.pods[a].containers| != 1 {
      var t, w := SeveralContainersLose(s, a);
      assert Reaches(s, t) && Carried(s.pods, w) && !Carried(t.pods, w);
    } else {
      var a, b :| a in s.pods && b in s.pods && Root(a.name) == Root(b.name) && a != b;
      var t, w := SharedLineageLoses(s, a, b);
      assert Reaches(s, t) && Carried(s.pods, w) && !Carried(t.pods, w);
    }
  }

  lemma SeveralContainersLose(s: State, a: PodKey) returns (t: State, w: Workload)
    requires Operable(s) && a in s.pods && |s.pods[a].containers| != 1
    ensures Reaches(s, t) && Carried(s.pods, w) && !Carried(t.pods, w)
  {
    FreshIsQuiet(s);
    FreshPodsAreMovable(s, a);
    w := s.pods[a].containers[0].memory.value;
    FreshMemoriesAreAlone(s, a, 0);
    assert forall j :: 0 <= j < |s.pods[a].containers| && j != 0 ==>
             s.pods[a].containers[j].memory != s.pods[a].containers[0].memory;
    assert Carried(s.pods, w);
    hide Operable, Quiet, Reaches, OnlyCarrier, Movable, Carried;
    t := MultiContainerIsLost(s, a, 0);
  }

  lemma SharedLineageLoses(s: State, a: PodKey, b: PodKey) returns (t: State, w: Workload)
    requires Operable(s) && a in s.pods && b in s.pods && Root(a.name) == Root(b.name) && a != b
    ensures Reaches(s, t) && Carried(s.pods, w) && !Carried(t.pods, w)
  {
    FreshIsQuiet(s);
    FreshPodsAreMovable(s, a);
    FreshPodsAreMovable(s, b);
    var (first, other) := if Depth(a.name) <= Depth(b.name) then (a, b) else (b, a);
    var last := |s.pods[first].containers| - 1;
    FreshMemoriesAreAlone(s, first, last);
    w := s.pods[first].containers[last].memory.value;
    assert Carried(s.pods, w);
    hide Operable, Quiet, Reaches, OnlyCarrier, Movable, Carried;
    t := SharedLineageIsFatal(s, first, other, w);
  }

  lemma FreshIsQuiet(s: State)
    requires Operable(s)
    ensures Quiet(s)
  {
  }

  lemma FreshPodsAreMovable(s: State, key: PodKey)
    requires Operable(s) && key in s.pods
    ensures Movable(s.pods, key) && DistinctNames(s.pods[key].containers)
    ensures Surviving(s.pods[key]) == s.pods[key].containers[|s.pods[key].containers| - 1].memory
  {
    assert IsOriginal(key, s.pods[key]);
    MemoryAtItsName(s.pods[key].containers, |s.pods[key].containers| - 1);
  }

  lemma FreshMemoriesAreAlone(s: State, key: PodKey, i: nat)
    requires Operable(s) && key in s.pods && i < |s.pods[key].containers|
    ensures s.pods[key].containers[i].memory.Some?
    ensures OnlyCarrier(s.pods, key, s.pods[key].containers[i].memory.value)
    ensures forall j :: 0 <= j < |s.pods[key].containers| && j != i ==>
              s.pods[key].containers[j].memory != s.pods[key].containers[i].memory
  {
    assert IsOriginal(key, s.pods[key]);
    assert forall k :: k in s.pods ==> IsOriginal(k, s.pods[k]);
    assert Carries(s.pods[key], s.pods[key].containers[i].memory.value);
  }
}
