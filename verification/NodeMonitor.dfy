/** internal/controller/nodemonitor_controller.go: where the pods of an overloaded node are sent, and
    which of its pods are. */
module NodeMonitor {
  import opened Migrations
  import opened Selection
  import opened Webhook
  import opened Wrappers

  /** Usage rates by node name; Go ranges over them in any order. */
  type Rates = map<string, real>

  // ---------------------------------------------------------------- the least loaded node

  predicate IsLeast(rates: Rates, low: real) {
    && (forall k :: k in rates ==> low <= rates[k])
    && exists k :: k in rates && rates[k] == low
  }

  /** target is the node to which the search leads, from a previous one, for an overloaded node. */
  predicate LeadsTo(rates: Rates, node: string, previous: string, target: string)
    requires node in rates
  {
    if IsLeast(rates, rates[node]) then target == previous
    else target in rates && IsLeast(rates, rates[target])
  }

  /** The loop of Reconcile: low starts as the rate of the node under test, whose entry is already in
      the map. The node is told to send its pods to itself exactly when no other node is better off
      and it was itself the last target found. */
  method LeastLoaded(rates: Rates, node: string, previous: string) returns (low: real, target: string)
    requires node in rates
    ensures IsLeast(rates, low)
    ensures LeadsTo(rates, node, previous, target)
    ensures target == node <==> IsLeast(rates, rates[node]) && previous == node
  {
    low, target := rates[node], previous;
    var rest := rates.Keys;
    while rest != {}
      invariant rest <= rates.Keys
      invariant forall k :: k in rates && k !in rest ==> low <= rates[k]
      invariant low <= rates[node]
      invariant if low == rates[node] then target == previous else target in rates && rates[target] == low
      decreases |rest|
    {
      var nodeName :| nodeName in rest;
      rest := rest - {nodeName};
      if rates[nodeName] < low {
        low := rates[nodeName];
        target := nodeName;
      }
    }
  }

  /** Unless there is no better node, the order of the search does not matter to how loaded the
      target is. */
  lemma OrderIrrelevant(rates: Rates, node: string, previous: string, a: string, b: string)
    requires node in rates && LeadsTo(rates, node, previous, a) && LeadsTo(rates, node, previous, b)
    ensures a == b || (a in rates && b in rates && rates[a] == rates[b] < rates[node])
  {
  }

  // ---------------------------------------------------------------- which pods

  /** A pod with the metrics found for it: the usage of each container, None where it is not given. */
  datatype Measured = Measured(key: PodKey, metrics: Option<seq<Option<int>>>)

  datatype PodUsage = PodUsage(pod: PodKey, usage: int)

  const TWO_63 := 0x8000_0000_0000_0000

  /** int64 */
  function Wrap(n: int): (r: int)
    ensures -TWO_63 <= r < TWO_63
    ensures -TWO_63 <= n < TWO_63 ==> r == n
    ensures (r - n) % 0x1_0000_0000_0000_0000 == 0
  {
    (n + TWO_63) % (2 * TWO_63) - TWO_63
  }

  function Total(containers: seq<Option<int>>): int {
    if containers == [] then 0
    else
      var last := containers[|containers| - 1];
      var sum := Total(containers[..|containers| - 1]);
      if last.Some? then Wrap(sum + last.value) else sum
  }

  /** The usages of the containers for which one is given, added up without a bound. */
  function Sum(containers: seq<Option<int>>): int {
    if containers == [] then 0
    else (if containers[0].Some? then containers[0].value else 0) + Sum(containers[1..])
  }

  lemma {:induction false} SumAppend(a: seq<Option<int>>, b: seq<Option<int>>)
    ensures Sum(a + b) == Sum(a) + Sum(b)
  {
    if a == [] {
      assert a + b == b;
    } else {
      assert (a + b)[0] == a[0] && (a + b)[1..] == a[1..] + b;
      SumAppend(a[1..], b);
    }
  }

  lemma WrapAdds(a: int, b: int)
    ensures Wrap(Wrap(a) + b) == Wrap(a + b)
  {
    SameResidue(Wrap(a) + b, a + b);
  }

  lemma SameResidue(a: int, b: int)
    requires (a - b) % 0x1_0000_0000_0000_0000 == 0
    ensures Wrap(a) == Wrap(b)
  {
  }

  /** A pod's usage is the sum over its containers, wrapped as an int64 is; so it is the plain sum as long
      as that is in range. */
  lemma {:induction false} TotalIsSum(containers: seq<Option<int>>)
    ensures Total(containers) == Wrap(Sum(containers))
    ensures -0x8000_0000_0000_0000 <= Sum(containers) < 0x8000_0000_0000_0000 ==> Total(containers) == Sum(containers)
  {
    hide Wrap;
    if containers != [] {
      var n := |containers| - 1;
      var front, last := containers[..n], containers[n];
      TotalIsSum(front);
      assert containers == front + [last];
      SumAppend(front, [last]);
      assert [last][1..] == [];
      if last.Some? { WrapAdds(Sum(front), last.value); }
    }
  }

  /** In whatever parts the containers are added up, and in whatever order. */
  lemma TotalAppend(a: seq<Option<int>>, b: seq<Option<int>>)
    ensures Total(a + b) == Total(b + a) == Wrap(Total(a) + Total(b))
  {
    hide Wrap, Total, Sum;
    TotalIsSum(a);
    TotalIsSum(b);
    TotalIsSum(a + b);
    TotalIsSum(b + a);
    SumAppend(a, b);
    SumAppend(b, a);
    WrapAdds(Sum(a), Wrap(Sum(b)));
    WrapAdds(Sum(b), Sum(a));
  }

  function UsageOf(pod: Measured): PodUsage
    requires pod.metrics.Some?
  {
    PodUsage(pod.key, Total(pod.metrics.value))
  }

  /** The usages of the pods that have metrics, in list order. */
  function Collected(pods: seq<Measured>): seq<PodUsage> {
    if pods == [] then []
    else
      var last := pods[|pods| - 1];
      var before := Collected(pods[..|pods| - 1]);
      if last.metrics.Some? then before + [UsageOf(last)] else before
  }

  /** Pods with metrics give one usage each, in list order, and it is the sum over their containers. */
  lemma {:induction false} CollectedAppend(a: seq<Measured>, b: seq<Measured>)
    ensures Collected(a + b) == Collected(a) + Collected(b)
    decreases b
  {
    if b == [] {
      assert a + b == a;
    } else {
      var n := |b| - 1;
      assert (a + b)[|a| + n] == b[n] && (a + b)[..|a| + n] == a + b[..n];
      CollectedAppend(a, b[..n]);
      hide UsageOf;
    }
  }

  lemma CollectedOne(pod: Measured)
    ensures Collected([pod]) == if pod.metrics.Some? then [PodUsage(pod.key, Wrap(Sum(pod.metrics.value)))] else []
  {
    if pod.metrics.Some? { TotalIsSum(pod.metrics.value); }
    assert [pod][..0] == [];
    hide Total;
  }

  method Collect(pods: seq<Measured>) returns (usages: seq<PodUsage>)
    ensures usages == Collected(pods)
  {
    usages := [];
    for p := 0 to |pods|
      invariant usages == Collected(pods[..p])
    {
      assert pods[..p + 1][..p] == pods[..p];
      if pods[p].metrics.None? {
        continue;
      }
      var total := AddUp(pods[p].metrics.value);
      usages := usages + [PodUsage(pods[p].key, total)];
    }
    assert pods[..|pods|] == pods;
  }

  method AddUp(containers: seq<Option<int>>) returns (total: int)
    ensures total == Total(containers)
  {
    total := 0;
    for c := 0 to |containers|
      invariant total == Total(containers[..c])
    {
      assert containers[..c + 1][..c] == containers[..c];
      if containers[c].Some? {
        total := Wrap(total + containers[c].value);
      }
    }
    assert containers[..|containers|] == containers;
  }

  predicate Descending(s: seq<PodUsage>) {
    forall i, j :: 0 <= i < j < |s| ==> s[i].usage >= s[j].usage
  }

  /** sort.Slice, which promises no more than this; pods of equal usage end up in any order. */
  method SortDescending(s: seq<PodUsage>) returns (r: seq<PodUsage>)
    ensures multiset(r) == multiset(s)
    ensures Descending(r)
  {
    r := [];
    for i := 0 to |s|
      invariant multiset(r) == multiset(s[..i])
      invariant Descending(r)
    {
      assert s[..i + 1] == s[..i] + [s[i]];
      r := Insert(r, s[i]);
    }
    assert s[..|s|] == s;
  }

  method Insert(s: seq<PodUsage>, x: PodUsage) returns (r: seq<PodUsage>)
    requires Descending(s)
    ensures multiset(r) == multiset(s) + multiset{x}
    ensures Descending(r)
  {
    var i := 0;
    while i < |s| && s[i].usage >= x.usage
      invariant 0 <= i <= |s|
      invariant forall j :: 0 <= j < i ==> s[j].usage >= x.usage
    {
      i := i + 1;
    }
    InsertedAddsOne(s, i, x);
    InsertedDescends(s, i, x);
    r := s[..i] + [x] + s[i..];
  }

  lemma InsertedAddsOne(s: seq<PodUsage>, i: nat, x: PodUsage)
    requires i <= |s|
    ensures multiset(s[..i] + [x] + s[i..]) == multiset(s) + multiset{x}
  {
    var front, back := s[..i], s[i..];
    assert s == front + back;
    assert multiset(front + back) == multiset(front) + multiset(back);
    assert multiset(front + [x] + back) == multiset(front + [x]) + multiset(back);
    assert multiset(front + [x]) == multiset(front) + multiset{x};
  }

  lemma InsertedDescends(s: seq<PodUsage>, i: nat, x: PodUsage)
    requires Descending(s) && i <= |s|
    requires (i > 0 ==> s[i - 1].usage >= x.usage) && (i < |s| ==> x.usage > s[i].usage)
    ensures Descending(s[..i] + [x] + s[i..])
  {
  }

  function Min(a: nat, b: nat): nat {
    if a < b then a else b
  }

  /** top is a list of the five heaviest of the given usages, heaviest first. */
  ghost predicate IsTopFive(all: seq<PodUsage>, top: seq<PodUsage>) {
    && |top| == Min(5, |all|)
    && Descending(top)
    && multiset(top) <= multiset(all)
    && forall x, y :: x in top && y in multiset(all) - multiset(top) ==> y.usage <= x.usage
  }

  lemma FrontIsHeaviest(front: seq<PodUsage>, rest: seq<PodUsage>)
    requires Descending(front + rest)
    ensures Descending(front)
    ensures multiset(front + rest) - multiset(front) == multiset(rest)
    ensures forall x, y :: x in front && y in multiset(rest) ==> y.usage <= x.usage
  {
    var s := front + rest;
    assert forall i :: 0 <= i < |front| ==> s[i] == front[i];
    assert forall j :: 0 <= j < |rest| ==> s[|front| + j] == rest[j];
    assert multiset(s) == multiset(front) + multiset(rest);
    forall x: PodUsage, y: PodUsage | x in front && y in multiset(rest) ensures y.usage <= x.usage {
      assert y in rest;
      var i :| 0 <= i < |front| && front[i] == x;
      var j :| 0 <= j < |rest| && rest[j] == y;
      assert s[i].usage >= s[|front| + j].usage;
    }
  }

  lemma PrefixIsTopFive(all: seq<PodUsage>, sorted: seq<PodUsage>)
    requires multiset(sorted) == multiset(all) && Descending(sorted)
    ensures IsTopFive(all, sorted[..Min(5, |sorted|)])
  {
    hide Descending;
    var n := Min(5, |sorted|);
    assert sorted == sorted[..n] + sorted[n..];
    FrontIsHeaviest(sorted[..n], sorted[n..]);
    assert multiset(sorted) == multiset(sorted[..n]) + multiset(sorted[n..]);
    assert |multiset(sorted)| == |sorted| && |multiset(all)| == |all|;
  }

  /** No pod's usage is out of the range of an int64. */
  predicate InRange(pods: seq<Measured>) {
    forall i :: 0 <= i < |pods| && pods[i].metrics.Some? ==>
      -0x8000_0000_0000_0000 <= Sum(pods[i].metrics.value) < 0x8000_0000_0000_0000
  }

  ghost predicate NotIn(pod: PodKey, usages: seq<PodUsage>) {
    forall u :: u in usages ==> u.pod != pod
  }

  /** The list tells of pods with metrics what their containers use together, and no pod with metrics that
      is not in it uses more than one that is. */
  ghost predicate IsHeaviest(pods: seq<Measured>, top: seq<PodUsage>) {
    && (forall u :: u in top ==> exists i :: 0 <= i < |pods| && pods[i].metrics.Some?
                                             && u == PodUsage(pods[i].key, Sum(pods[i].metrics.value)))
    && (forall i, u :: 0 <= i < |pods| && pods[i].metrics.Some? && u in top && NotIn(pods[i].key, top) ==>
          u.usage >= Sum(pods[i].metrics.value))
  }

  lemma TopFiveIsHeaviest(pods: seq<Measured>, top: seq<PodUsage>)
    requires IsTopFive(Collected(pods), top) && InRange(pods)
    ensures IsHeaviest(pods, top)
    ensures |top| == if |MeasuredAt(pods)| < 5 then |MeasuredAt(pods)| else 5
  {
    CollectedLength(pods);
    hide Collected, MeasuredAt, Sum, Descending;
    var all := Collected(pods);
    forall u | u in top
      ensures exists i :: 0 <= i < |pods| && pods[i].metrics.Some?
                          && u == PodUsage(pods[i].key, Sum(pods[i].metrics.value))
    {
      assert u in multiset(top) && u in multiset(all);
      CollectedMembers(pods, u);
    }
    forall i, u | 0 <= i < |pods| && pods[i].metrics.Some? && u in top && NotIn(pods[i].key, top)
      ensures u.usage >= Sum(pods[i].metrics.value)
    {
      var y := PodUsage(pods[i].key, Sum(pods[i].metrics.value));
      CollectedMembers(pods, y);
      assert y in multiset(all) && y !in top && y !in multiset(top);
      assert y in multiset(all) - multiset(top);
    }
  }

  method GetTopFivePodsByMemory(pods: seq<Measured>) returns (topPods: seq<PodUsage>)
    ensures IsTopFive(Collected(pods), topPods)
    ensures InRange(pods) ==> IsHeaviest(pods, topPods)
  {
    var podMemoryUsages := Collect(pods);
    ghost var all := podMemoryUsages;
    podMemoryUsages := SortDescending(podMemoryUsages);
    PrefixIsTopFive(all, podMemoryUsages);
    topPods := podMemoryUsages;
    assert podMemoryUsages[..|podMemoryUsages|] == podMemoryUsages;
    if |podMemoryUsages| > 5 {
      topPods := podMemoryUsages[..5];
    }
    if InRange(pods) { TopFiveIsHeaviest(pods, topPods); }
  }

  /** The positions of the pods that have metrics. */
  function MeasuredAt(pods: seq<Measured>): set<nat> {
    set i: nat | i < |pods| && pods[i].metrics.Some?
  }

  /** The pods that have metrics are listed by descending usage. */
  predicate ListedByUsage(pods: seq<Measured>) {
    forall i, j :: 0 <= i < j < |pods| && pods[i].metrics.Some? && pods[j].metrics.Some? ==>
      Wrap(Sum(pods[i].metrics.value)) >= Wrap(Sum(pods[j].metrics.value))
  }

  lemma {:induction false} CollectedLength(pods: seq<Measured>)
    ensures |Collected(pods)| == |MeasuredAt(pods)|
  {
    if pods == [] {
      assert MeasuredAt(pods) == {};
    } else {
      var n := |pods| - 1;
      CollectedLength(pods[..n]);
      assert MeasuredAt(pods) == MeasuredAt(pods[..n]) + if pods[n].metrics.Some? then {n} else {};
    }
  }

  lemma {:induction false} CollectedMembers(pods: seq<Measured>, u: PodUsage)
    ensures u in Collected(pods) <==>
              exists i :: 0 <= i < |pods| && pods[i].metrics.Some?
                          && u == PodUsage(pods[i].key, Wrap(Sum(pods[i].metrics.value)))
  {
    if pods != [] {
      var n := |pods| - 1;
      CollectedMembers(pods[..n], u);
      if pods[n].metrics.Some? { TotalIsSum(pods[n].metrics.value); }
      hide Total, Sum, Wrap;
      assert forall i :: 0 <= i < n ==> pods[..n][i] == pods[i];
    }
  }

  lemma {:induction false} CollectedOrder(pods: seq<Measured>)
    ensures Descending(Collected(pods)) <==> ListedByUsage(pods)
  {
    hide Total, Sum, Wrap;
    if pods != [] {
      var n := |pods| - 1;
      var front, all := Collected(pods[..n]), Collected(pods);
      CollectedOrder(pods[..n]);
      assert forall i :: 0 <= i < n ==> pods[..n][i] == pods[i];
      if pods[n].metrics.Some? {
        var last := UsageOf(pods[n]);
        TotalIsSum(pods[n].metrics.value);
        DescendingSnoc(front, last);
        forall u: PodUsage
          ensures u in front <==>
                    exists i :: 0 <= i < n && pods[i].metrics.Some?
                                && u == PodUsage(pods[i].key, Wrap(Sum(pods[i].metrics.value)))
        {
          CollectedMembers(pods[..n], u);
        }
        forall i | 0 <= i < n && pods[i].metrics.Some?
          ensures PodUsage(pods[i].key, Wrap(Sum(pods[i].metrics.value))) in front
        {
        }
        hide Collected;
      }
    }
  }

  lemma DescendingSnoc(s: seq<PodUsage>, x: PodUsage)
    ensures Descending(s + [x]) <==> Descending(s) && forall u :: u in s ==> u.usage >= x.usage
  {
    var r := s + [x];
    assert forall i :: 0 <= i < |s| ==> r[i] == s[i];
    if Descending(r) {
      forall u | u in s ensures u.usage >= x.usage {
        var i :| 0 <= i < |s| && s[i] == u;
        assert r[i].usage >= r[|s|].usage;
      }
    }
  }

  /** What getTopFivePodsByCPU returns is a top five exactly when at most five of the node's pods have
      metrics and the API server happens to list those by descending usage. */
  lemma CPUListIsTopFiveIff(pods: seq<Measured>)
    ensures IsTopFive(Collected(pods), Collected(pods)) <==> |MeasuredAt(pods)| <= 5 && ListedByUsage(pods)
  {
    CollectedLength(pods);
    CollectedOrder(pods);
    var all := Collected(pods);
    hide Collected, MeasuredAt, ListedByUsage;
    assert multiset(all) - multiset(all) == multiset{};
  }

  method GetTopFivePodsByCPU(pods: seq<Measured>) returns (usages: seq<PodUsage>)
    ensures usages == Collected(pods)
    ensures IsTopFive(Collected(pods), usages) <==> |MeasuredAt(pods)| <= 5 && ListedByUsage(pods)
  {
    usages := Collect(pods);
    CPUListIsTopFiveIff(pods);
  }

  /** Two pods in the wrong order, and six pods in any order, are returned all the same. */
  lemma CPUListFails(light: PodKey, heavy: PodKey, six: seq<Measured>)
    requires |six| == 6 && forall i :: 0 <= i < 6 ==> six[i].metrics.Some?
    ensures var two := [Measured(light, Some([Some(1)])), Measured(heavy, Some([Some(2)]))];
            !IsTopFive(Collected(two), Collected(two))
    ensures !IsTopFive(Collected(six), Collected(six))
  {
    hide Collected, IsTopFive;
    var two := [Measured(light, Some([Some(1)])), Measured(heavy, Some([Some(2)]))];
    CPUListIsTopFiveIff(two);
    assert Sum([Some(1)]) == 1 && Sum([Some(2)]) == 2;
    assert Wrap(Sum(two[0].metrics.value)) < Wrap(Sum(two[1].metrics.value));
    CPUListIsTopFiveIff(six);
    assert MeasuredAt(six) == {0, 1, 2, 3, 4, 5};
  }

  function Without(s: seq<PodUsage>, j: nat): seq<PodUsage>
    requires j < |s|
  {
    s[..j] + s[j + 1..]
  }

  lemma WithoutRemovesOne(s: seq<PodUsage>, j: nat)
    requires j < |s|
    ensures multiset(Without(s, j)) == multiset(s) - multiset{s[j]}
  {
    var before, after := s[..j], s[j + 1..];
    assert s == before + ([s[j]] + after);
    assert multiset(before + ([s[j]] + after)) == multiset(before) + multiset([s[j]] + after);
    assert multiset([s[j]] + after) == multiset{s[j]} + multiset(after);
    assert multiset(before + after) == multiset(before) + multiset(after);
  }

  lemma WithoutDescends(s: seq<PodUsage>, j: nat)
    requires j < |s| && Descending(s)
    ensures Descending(Without(s, j))
    ensures forall i :: 0 <= i < |s| - 1 ==> Without(s, j)[i] == if i < j then s[i] else s[i + 1]
  {
  }

  lemma HeadsAgree(a: seq<PodUsage>, b: seq<PodUsage>)
    requires multiset(a) == multiset(b) && Descending(a) && Descending(b) && a != []
    ensures b != [] && a[0].usage == b[0].usage && a[0] in b
  {
    assert a[0] in multiset(a) && a[0] in multiset(b);
    assert b[0] in multiset(b) && b[0] in multiset(a);
    var i :| 0 <= i < |a| && a[i] == b[0];
    var j :| 0 <= j < |b| && b[j] == a[0];
  }

  /** Whatever an unstable sort does with equal pods, all answers agree on every usage in the list. */
  lemma {:induction false} SortedUsagesAgree(a: seq<PodUsage>, b: seq<PodUsage>)
    requires multiset(a) == multiset(b) && Descending(a) && Descending(b)
    ensures |a| == |b| && forall i :: 0 <= i < |a| ==> a[i].usage == b[i].usage
    decreases |a|
  {
    assert |multiset(a)| == |a| && |multiset(b)| == |b|;
    if a != [] {
      HeadsAgree(a, b);
      var j :| 0 <= j < |b| && b[j] == a[0];
      WithoutRemovesOne(a, 0);
      WithoutRemovesOne(b, j);
      WithoutDescends(a, 0);
      WithoutDescends(b, j);
      var rest := Without(b, j);
      SortedUsagesAgree(Without(a, 0), rest);
      forall i | 0 < i < |a| ensures a[i].usage == b[i].usage {
        assert a[i] == Without(a, 0)[i - 1];
        if i <= j { assert b[0].usage >= b[i - 1].usage >= b[i].usage >= b[j].usage; }
      }
    }
  }

  // ---------------------------------------------------------------- what is asked for

  /** checkIsValidNamespace */
  predicate MayMigrate(namespace: string) {
    namespace !in {"kube-system", "kube-public", "kube-node-lease",
                   "calico-apiserver", "calico-system", "cert-manager", "tigera-operator",
                   "kafka", "docker-registry", "practice-system", "restore"}
  }

  /** handlers/cr-decoder.go: the Migration applied for a pod, to another node but the same namespace. */
  function EvacuationSpec(pod: PodKey, target: string): MigrationSpec {
    MigrationSpec(pod.name, "", pod.namespace, target, pod.namespace, [])
  }

  function Evacuations(pods: seq<PodUsage>, target: string): seq<MigrationSpec> {
    if pods == [] then []
    else (if MayMigrate(pods[0].pod.namespace) then [EvacuationSpec(pods[0].pod, target)] else [])
         + Evacuations(pods[1..], target)
  }

  /** An evacuation passes the webhook exactly when a target has been found, the pod is still there,
      and it is not on its way already. The target itself is not looked at. */
  lemma EvacuationAdmittedIff(pod: PodKey, target: string, view: ClusterView, processing: map<string, MigrationInfo>)
    requires pod.name != "" && pod.namespace != ""
    ensures ValidateMigration(EvacuationSpec(pod, target), view, processing).Success? <==>
              target != "" && view.client && pod in view.pods && pod.name !in processing
    ensures ModeOf(EvacuationSpec(pod, target)) == ByPodName
  {
  }

  /** One request for each pod outside the protected namespaces, in order: by name and within its own
      namespace, to the target node. */
  lemma {:induction false} EvacuationsAppend(a: seq<PodUsage>, b: seq<PodUsage>, target: string)
    ensures Evacuations(a + b, target) == Evacuations(a, target) + Evacuations(b, target)
  {
    if a == [] {
      assert a + b == b;
    } else {
      var rest := a[1..];
      assert (a + b)[0] == a[0] && (a + b)[1..] == rest + b;
      EvacuationsAppend(rest, b, target);
      hide MayMigrate, EvacuationSpec;
      var head := if MayMigrate(a[0].pod.namespace) then [EvacuationSpec(a[0].pod, target)] else [];
      assert Evacuations(a + b, target) == head + (Evacuations(rest, target) + Evacuations(b, target));
    }
  }

  lemma {:induction false} EvacuationsAre(pods: seq<PodUsage>, target: string)
    ensures forall spec :: spec in Evacuations(pods, target) <==>
              exists i :: 0 <= i < |pods| && IsRequestFor(spec, pods[i].pod, target)
    ensures |Evacuations(pods, target)| <= |pods|
  {
    if pods != [] {
      var rest := Evacuations(pods[1..], target);
      EvacuationsAre(pods[1..], target);
      forall spec
        ensures spec in Evacuations(pods, target) <==>
                  exists i :: 0 <= i < |pods| && IsRequestFor(spec, pods[i].pod, target)
      {
        assert IsRequestFor(spec, pods[0].pod, target) <==>
                 MayMigrate(pods[0].pod.namespace) && spec == EvacuationSpec(pods[0].pod, target);
        hide MayMigrate, EvacuationSpec, IsRequestFor;
        if i :| 0 < i < |pods| && IsRequestFor(spec, pods[i].pod, target) {
          assert pods[1..][i - 1] == pods[i];
        }
        if spec in rest {
          var i :| 0 <= i < |pods[1..]| && IsRequestFor(spec, pods[1..][i].pod, target);
          assert pods[i + 1] == pods[1..][i];
        }
      }
    }
  }

  /** The request asks for this pod by name, from its own namespace to the same namespace on the target;
      and the pod is in none of the eleven namespaces of the system and of the operator. */
  predicate IsRequestFor(spec: MigrationSpec, pod: PodKey, target: string) {
    && spec.podName == pod.name && spec.namespace == pod.namespace && spec.destinationNamespace == pod.namespace
    && spec.destinationNode == target && spec.deployment == "" && spec.specify == []
    && pod.namespace != "kube-system" && pod.namespace != "kube-public" && pod.namespace != "kube-node-lease"
    && pod.namespace != "calico-apiserver" && pod.namespace != "calico-system" && pod.namespace != "cert-manager"
    && pod.namespace != "tigera-operator" && pod.namespace != "kafka" && pod.namespace != "docker-registry"
    && pod.namespace != "practice-system" && pod.namespace != "restore"
  }

  /** The request is for some pod of the list that has metrics. */
  predicate AsksForOne(spec: MigrationSpec, pods: seq<Measured>, target: string) {
    exists i :: 0 <= i < |pods| && pods[i].metrics.Some? && IsRequestFor(spec, pods[i].key, target)
  }

  lemma EvacuationsAsk(pods: seq<Measured>, usages: seq<PodUsage>, target: string)
    requires forall u :: u in usages ==> u in Collected(pods)
    ensures forall spec :: spec in Evacuations(usages, target) ==> AsksForOne(spec, pods, target)
  {
    hide Collected, Evacuations, IsRequestFor, Sum, Wrap;
    EvacuationsAre(usages, target);
    forall spec | spec in Evacuations(usages, target) ensures AsksForOne(spec, pods, target) {
      var k :| 0 <= k < |usages| && IsRequestFor(spec, usages[k].pod, target);
      CollectedMembers(pods, usages[k]);
    }
  }

  lemma TopAreCollected(pods: seq<Measured>, top: seq<PodUsage>)
    requires IsTopFive(Collected(pods), top)
    ensures forall u :: u in top ==> u in Collected(pods)
  {
    hide Collected;
    forall u | u in top ensures u in Collected(pods) { assert u in multiset(top) && u in multiset(Collected(pods)); }
  }

  // ---------------------------------------------------------------- the one resource

  /** handlers/cr-decoder.go: every request is written to the resource migration-sample. This is what it
      holds after these requests, of which the API server has accepted some. */
  function Stored(before: Option<MigrationSpec>, applied: seq<MigrationSpec>, accepted: set<nat>)
    : Option<MigrationSpec>
  {
    if applied == [] then before
    else
      var n := |applied| - 1;
      if n in accepted then Some(applied[n]) else Stored(before, applied[..n], accepted)
  }

  /** When the migration reconciler fetches the resource after n of the requests, it finds that of the
      k-th exactly if this one was accepted and none of those after it has been: all others are lost. */
  lemma {:induction false} RequestLeftIff(before: Option<MigrationSpec>, applied: seq<MigrationSpec>,
                                          accepted: set<nat>, n: nat, k: nat)
    requires k < n <= |applied| && before != Some(applied[k])
    requires forall j :: 0 <= j < n && j != k ==> applied[j] != applied[k]
    ensures Stored(before, applied[..n], accepted) == Some(applied[k]) <==>
              k in accepted && forall j :: k < j < n ==> j !in accepted
  {
    assert n > 1 ==> applied[..n][..n - 1] == applied[..n - 1];
    if k < n - 1 {
      RequestLeftIff(before, applied, accepted, n - 1, k);
    } else if k !in accepted {
      NeverApplied(before, applied[..n - 1], accepted, applied[k]);
      assert applied[..n][..n - 1] == applied[..n - 1];
    }
  }

  lemma {:induction false} NeverApplied(before: Option<MigrationSpec>, applied: seq<MigrationSpec>,
                                        accepted: set<nat>, spec: MigrationSpec)
    requires before != Some(spec) && forall j :: 0 <= j < |applied| ==> applied[j] != spec
    ensures Stored(before, applied, accepted) != Some(spec)
  {
    if applied != [] { NeverApplied(before, applied[..|applied| - 1], accepted, spec); }
  }

  // ---------------------------------------------------------------- the reconciler

  datatype Lookup = NodeNotFound | LookupFailed | Found(controlPlane: bool)

  /** The answers to one reconcile: rates and pod lists are None if they could not be had; accepted are
      the calls of DoSSA that succeed, by their number. */
  datatype Answers = Answers(lookup: Lookup, cpu: Option<real>, cpuPods: Option<seq<Measured>>,
                             memory: Option<real>, memoryPods: Option<seq<Measured>>, accepted: set<nat>)

  class NodeMonitorReconciler {
    var cpuUsageRates: Rates
    var memoryUsageRates: Rates
    var migrationCPUNode: string
    var migrationMemoryNode: string
    var resource: Option<MigrationSpec>

    /** Targets are nodes that have been measured, if any has been found. */
    ghost predicate Valid()
      reads this
    {
      && (migrationCPUNode == "" || migrationCPUNode in cpuUsageRates)
      && (migrationMemoryNode == "" || migrationMemoryNode in memoryUsageRates)
    }

    constructor ()
      ensures Valid() && cpuUsageRates == map[] && memoryUsageRates == map[]
      ensures migrationCPUNode == "" && migrationMemoryNode == "" && resource == None
    {
      cpuUsageRates, memoryUsageRates := map[], map[];
      migrationCPUNode, migrationMemoryNode, resource := "", "", None;
    }

    method Reconcile(node: string, a: Answers) returns (applied: seq<MigrationSpec>, heaviest: seq<PodUsage>, ok: bool)
      requires Valid()
      modifies this
      ensures Valid()
      ensures var worker := a.lookup.Found? && !a.lookup.controlPlane;
              var hot := worker && a.cpu.Some? && a.cpu.value > 60.0 && a.cpuPods.Some?;
              var listed := hot || (worker && a.cpu.Some? && a.cpu.value <= 60.0);
              var full := listed && a.memory.Some? && a.memory.value > 70.0;
              && cpuUsageRates == (if worker && a.cpu.Some? then old(cpuUsageRates)[node := a.cpu.value]
                                   else old(cpuUsageRates))
              && memoryUsageRates == (if listed && a.memory.Some? then old(memoryUsageRates)[node := a.memory.value]
                                      else old(memoryUsageRates))
              && (if hot then LeadsTo(cpuUsageRates, node, old(migrationCPUNode), migrationCPUNode)
                  else migrationCPUNode == old(migrationCPUNode))
              && (if full then LeadsTo(memoryUsageRates, node, old(migrationMemoryNode), migrationMemoryNode)
                  else migrationMemoryNode == old(migrationMemoryNode))
              && (if full && a.memoryPods.Some? then IsTopFive(Collected(a.memoryPods.value), heaviest)
                  else heaviest == [])
              && applied == (if hot then Evacuations(Collected(a.cpuPods.value), migrationCPUNode) else [])
                            + Evacuations(heaviest, migrationMemoryNode)
              && resource == Stored(old(resource), applied, a.accepted)
              && (ok <==> a.lookup.NodeNotFound? || (a.lookup.Found? && a.lookup.controlPlane)
                          || (listed && a.memory.Some? && (full ==> a.memoryPods.Some?)))
      ensures forall spec :: spec in applied ==>
                || (a.cpuPods.Some? && AsksForOne(spec, a.cpuPods.value, migrationCPUNode))
                || (a.memoryPods.Some? && AsksForOne(spec, a.memoryPods.value, migrationMemoryNode))
    {
      hide AsksForOne, Collected, IsTopFive, MayMigrate, EvacuationSpec, IsLeast;
      applied, heaviest := [], [];
      if !a.lookup.Found? {
        return applied, heaviest, a.lookup.NodeNotFound?;
      }
      if a.lookup.controlPlane {
        return applied, heaviest, true;
      }
      if a.cpu.None? {
        return applied, heaviest, false;
      }
      cpuUsageRates := cpuUsageRates[node := a.cpu.value];
      if a.cpu.value > 60.0 {
        if a.cpuPods.None? {
          return applied, heaviest, false;
        }
        applied := RelieveCPU(node, a.cpuPods.value, a.accepted);
      }
      if a.memory.None? {
        return applied, heaviest, false;
      }
      memoryUsageRates := memoryUsageRates[node := a.memory.value];
      ok := true;
      if a.memory.value > 70.0 {
        applied, heaviest, ok := RelieveMemory(node, applied, a.memoryPods, a.accepted, old(resource));
      }
    }

    method RelieveCPU(node: string, pods: seq<Measured>, accepted: set<nat>) returns (applied: seq<MigrationSpec>)
      requires node in cpuUsageRates
      modifies this`migrationCPUNode, this`resource
      ensures resource == Stored(old(resource), applied, accepted)
      ensures LeadsTo(cpuUsageRates, node, old(migrationCPUNode), migrationCPUNode)
      ensures applied == Evacuations(Collected(pods), migrationCPUNode)
      ensures forall spec :: spec in applied ==> AsksForOne(spec, pods, migrationCPUNode)
    {
      hide Collected, AsksForOne, IsTopFive, ListedByUsage, MeasuredAt;
      var topFivePodsByCPU := GetTopFivePodsByCPU(pods);
      var low;
      low, migrationCPUNode := LeastLoaded(cpuUsageRates, node, migrationCPUNode);
      applied := Apply([], topFivePodsByCPU, migrationCPUNode, accepted, resource);
      EvacuationsAsk(pods, topFivePodsByCPU, migrationCPUNode);
    }

    method RelieveMemory(node: string, before: seq<MigrationSpec>, pods: Option<seq<Measured>>, accepted: set<nat>,
                         ghost first: Option<MigrationSpec>)
      returns (applied: seq<MigrationSpec>, heaviest: seq<PodUsage>, ok: bool)
      requires node in memoryUsageRates && resource == Stored(first, before, accepted)
      modifies this`migrationMemoryNode, this`resource
      ensures resource == Stored(first, applied, accepted)
      ensures LeadsTo(memoryUsageRates, node, old(migrationMemoryNode), migrationMemoryNode)
      ensures ok <==> pods.Some?
      ensures if pods.Some? then IsTopFive(Collected(pods.value), heaviest) else heaviest == []
      ensures applied == before + Evacuations(heaviest, migrationMemoryNode)
      ensures forall spec :: spec in Evacuations(heaviest, migrationMemoryNode) ==>
                pods.Some? && AsksForOne(spec, pods.value, migrationMemoryNode)
    {
      hide Collected, AsksForOne, IsTopFive, IsHeaviest, InRange;
      var low;
      low, migrationMemoryNode := LeastLoaded(memoryUsageRates, node, migrationMemoryNode);
      if pods.None? {
        return before, [], false;
      }
      heaviest := GetTopFivePodsByMemory(pods.value);
      applied := Apply(before, heaviest, migrationMemoryNode, accepted, first);
      TopAreCollected(pods.value, heaviest);
      EvacuationsAsk(pods.value, heaviest, migrationMemoryNode);
      ok := true;
    }

    /** The loops over the selected pods; failures of DoSSA are only logged. */
    method Apply(before: seq<MigrationSpec>, pods: seq<PodUsage>, target: string, accepted: set<nat>,
                 ghost first: Option<MigrationSpec>)
      returns (applied: seq<MigrationSpec>)
      requires resource == Stored(first, before, accepted)
      modifies this`resource
      ensures applied == before + Evacuations(pods, target)
      ensures resource == Stored(first, applied, accepted)
    {
      applied := before;
      assert pods[0..] == pods;
      for i := 0 to |pods|
        invariant before + Evacuations(pods, target) == applied + Evacuations(pods[i..], target)
        invariant resource == Stored(first, applied, accepted)
      {
        assert pods[i..][1..] == pods[i + 1..];
        if MayMigrate(pods[i].pod.namespace) {
          var spec := EvacuationSpec(pods[i].pod, target);
          if |applied| in accepted {
            resource := Some(spec);
          }
          assert (applied + [spec])[..|applied|] == applied;
          applied := applied + [spec];
        }
      }
    }
  }

  /** An overloaded node can be told to send its pods to itself: a is idle enough to be the target for b
      and is then overloaded itself, though less than b. Every request for its pods names a. */
  method SendsToItself(a: string, b: string, pods: seq<Measured>) returns (applied: seq<MigrationSpec>)
    requires a != b
    ensures forall spec :: spec in applied ==> spec.destinationNode == a
    ensures applied == Evacuations(Collected(pods), a)
  {
    var monitor := new NodeMonitorReconciler();
    var _, _, _ := monitor.Reconcile(a, CPUAnswers(50.0, []));
    var _, _, _ := monitor.Reconcile(b, CPUAnswers(90.0, []));
    assert monitor.cpuUsageRates[b] == 90.0 && monitor.cpuUsageRates[a] == 50.0;
    assert monitor.migrationCPUNode == a;
    ghost var overloaded := monitor.cpuUsageRates[a := 80.0];
    assert IsLeast(overloaded, 80.0) by { assert overloaded[a] == 80.0; }
    var heaviest, ok;
    applied, heaviest, ok := monitor.Reconcile(a, CPUAnswers(80.0, pods));
    EvacuationsAre(Collected(pods), a);
  }

  /** Answers about the CPU of a worker node, from an API server that has no memory metrics. */
  function CPUAnswers(rate: real, pods: seq<Measured>): Answers {
    Answers(Found(false), Some(rate), Some(pods), None, None, {})
  }
}
