/** Which pods a reconcile works on: the three modes of filterPods in
    internal/controller/migration_controller.go. */
module Selection {
  import opened Migrations
  import opened Webhook
  import opened Wrappers

  datatype Mode = Specified | OfDeployment | ByPodName

  /** The dispatch in Reconcile. */
  function ModeOf(spec: MigrationSpec): Mode {
    if |spec.specify| != 0 then Specified
    else if spec.deployment != "" then OfDeployment
    else ByPodName
  }

  datatype SelectError = ListFailed | PodNotFound

  function Select(spec: MigrationSpec, items: seq<Listed>): Result<seq<Listed>, SelectError> {
    match ModeOf(spec)
    case Specified =>
      var r := SelectSpecified(spec.specify, items);
      if r.Some? then Success(r.value) else Failure(PodNotFound)
    case OfDeployment => Success(WithPrefix(items, spec.podName))
    case ByPodName => Success(SelectByName(items, spec.podName))
  }

  function Named(items: seq<Listed>, name: string): seq<Listed> {
    if items == [] then []
    else (if items[0].key.name == name then [items[0]] else []) + Named(items[1..], name)
  }

  function SelectSpecified(names: seq<string>, items: seq<Listed>): Option<seq<Listed>> {
    if names == [] then Some([])
    else if Named(items, names[0]) == [] then None
    else
      var rest := SelectSpecified(names[1..], items);
      if rest.None? then None else Some(Named(items, names[0]) + rest.value)
  }

  function WithPrefix(items: seq<Listed>, prefix: string): seq<Listed> {
    if items == [] then []
    else (if prefix <= items[0].key.name then [items[0]] else []) + WithPrefix(items[1..], prefix)
  }

  function SelectByName(items: seq<Listed>, name: string): seq<Listed> {
    var named := Named(items, name);
    if named == [] then items else [named[|named| - 1]]
  }

  /** A deployment's pods enter ProcessPodsMap one by one, before the prefix test. */
  function FillAll(processing: map<string, MigrationInfo>, items: seq<Listed>,
                      spec: MigrationSpec): map<string, MigrationInfo>
    decreases items
  {
    if items == [] then processing
    else FillAll(processing[items[0].key.name := InfoOf(spec, "")], items[1..], spec)
  }

  /** The names of a listing of one namespace are distinct. */
  predicate DistinctKeys(items: seq<Listed>) {
    forall i, j :: 0 <= i < j < |items| ==> items[i].key != items[j].key
  }

  predicate InNamespace(items: seq<Listed>, namespace: string) {
    forall i :: 0 <= i < |items| ==> items[i].key.namespace == namespace
  }

  // ---------------------------------------------------------------- what the selections mean

  lemma {:induction false} NamedAppend(a: seq<Listed>, b: seq<Listed>, name: string)
    ensures Named(a + b, name) == Named(a, name) + Named(b, name)
  {
    if a == [] {
      assert a + b == b;
    } else {
      assert (a + b)[1..] == a[1..] + b;
      NamedAppend(a[1..], b, name);
    }
  }

  lemma {:induction false} NamedMembers(items: seq<Listed>, name: string)
    ensures Named(items, name) == [] <==> forall i :: 0 <= i < |items| ==> items[i].key.name != name
    ensures forall x :: x in Named(items, name) <==> x in items && x.key.name == name
  {
    if items != [] {
      NamedMembers(items[1..], name);
      assert items == [items[0]] + items[1..];
    }
  }

  lemma {:induction false} NamedUnique(items: seq<Listed>, namespace: string, k: nat)
    requires DistinctKeys(items) && InNamespace(items, namespace) && k < |items|
    ensures Named(items, items[k].key.name) == [items[k]]
  {
    var name := items[k].key.name;
    var before, after := items[..k], items[k + 1..];
    assert items == before + [items[k]] + after;
    NamedAppend(before, [items[k]], name);
    NamedAppend(before + [items[k]], after, name);
    NamedMembers(before, name);
    NamedMembers(after, name);
    forall i | 0 <= i < |items| && i != k ensures items[i].key.name != name {
      assert items[if i < k then i else k].key != items[if i < k then k else i].key;
      assert items[i].key.namespace == items[k].key.namespace;
    }
    assert Named([items[k]], name) == [items[k]];
  }

  /** Specify mode: exactly the listed names in the order of the spec, or an error when, and only
      when, one of them is missing. */
  lemma {:induction false} SpecifiedIsExact(names: seq<string>, items: seq<Listed>, namespace: string)
    requires DistinctKeys(items) && InNamespace(items, namespace)
    ensures var r := SelectSpecified(names, items);
            && (r.Some? <==> forall n :: n in names ==> exists x :: x in items && x.key.name == n)
            && (r.Some? ==> |r.value| == |names|)
            && (r.Some? ==> forall i :: 0 <= i < |names| ==> r.value[i] in items && r.value[i].key.name == names[i])
  {
    if names != [] {
      var name := names[0];
      SpecifiedIsExact(names[1..], items, namespace);
      NamedMembers(items, name);
      assert names == [name] + names[1..];
      if Named(items, name) == [] {
        assert name in names;
        assert !exists x :: x in items && x.key.name == name;
      } else {
        var x := Named(items, name)[0];
        assert x in items && x.key.name == name;
        var k :| 0 <= k < |items| && items[k] == x;
        NamedUnique(items, namespace, k);
        assert forall n :: n in names <==> n == name || n in names[1..];
        assert exists y :: y in items && y.key.name == name;
      }
    }
  }

  /** The last item with a name, if there is one. */
  predicate LastNamed(items: seq<Listed>, name: string, k: nat) {
    && k < |items| && items[k].key.name == name
    && forall j :: k < j < |items| ==> items[j].key.name != name
  }

  /** Pod-name mode: the last match alone, whatever its namespace; when nothing matches, the whole
      cluster. */
  lemma ByNameIsExact(items: seq<Listed>, name: string)
    ensures (forall i :: 0 <= i < |items| ==> items[i].key.name != name) ==>
              SelectByName(items, name) == items
    ensures forall k: nat :: LastNamed(items, name, k) ==> SelectByName(items, name) == [items[k]]
    ensures (exists i :: 0 <= i < |items| && items[i].key.name == name) ==>
              exists k: nat :: LastNamed(items, name, k)
  {
    NamedMembers(items, name);
    forall k: nat | LastNamed(items, name, k) ensures SelectByName(items, name) == [items[k]] {
      var before, after := items[..k], items[k + 1..];
      assert items == before + [items[k]] + after;
      NamedAppend(before, [items[k]], name);
      NamedAppend(before + [items[k]], after, name);
      NamedMembers(after, name);
      assert Named([items[k]], name) == [items[k]];
    }
    if i :| 0 <= i < |items| && items[i].key.name == name {
      LastExists(items, name, i);
    }
  }

  lemma {:induction false} LastExists(items: seq<Listed>, name: string, i: nat)
    requires i < |items| && items[i].key.name == name
    ensures exists k: nat :: LastNamed(items, name, k)
    decreases |items| - i
  {
    if j :| i < j < |items| && items[j].key.name == name {
      LastExists(items, name, j);
    } else {
      assert LastNamed(items, name, i);
    }
  }

  /** A list of the whole cluster: each of its pods once, in any order. */
  ghost predicate ClusterListing(items: seq<Listed>, pods: map<PodKey, Pod>) {
    && DistinctKeys(items)
    && (forall x :: x in items ==> x.key in pods && pods[x.key] == x.pod)
    && forall key :: key in pods ==> Listed(key, pods[key]) in items
  }

  /** Pod-name mode lists all namespaces, so the pod that is checkpointed is sure to be the one the
      spec addresses when, and only when, no other namespace has a pod of that name. */
  lemma RightPodIff(pods: map<PodKey, Pod>, target: PodKey)
    requires target in pods
    ensures (forall items: seq<Listed> :: ClusterListing(items, pods) ==>
               SelectByName(items, target.name) == [Listed(target, pods[target])])
            <==> forall key :: key in pods && key.name == target.name ==> key == target
  {
    if other :| other in pods && other.name == target.name && other != target {
      var items := ListingEndingIn(pods, other);
      assert LastNamed(items, target.name, |items| - 1);
      ByNameIsExact(items, target.name);
    } else {
      forall items: seq<Listed> | ClusterListing(items, pods)
        ensures SelectByName(items, target.name) == [Listed(target, pods[target])]
      {
        var i: nat :| i < |items| && items[i] == Listed(target, pods[target]);
        assert forall j :: i < j < |items| ==> items[j].key != items[i].key && items[j] in items;
        assert LastNamed(items, target.name, i);
        ByNameIsExact(items, target.name);
      }
    }
  }

  /** Some listing of the cluster has a given pod at the end. */
  lemma {:induction false} ListingEndingIn(pods: map<PodKey, Pod>, last: PodKey) returns (items: seq<Listed>)
    requires last in pods
    ensures ClusterListing(items, pods)
    ensures items != [] && items[|items| - 1] == Listed(last, pods[last])
    decreases |pods|
  {
    var rest := pods - {last};
    assert rest.Keys == pods.Keys - {last};
    assert |pods.Keys| == |pods| && |rest.Keys| == |rest|;
    var front: seq<Listed> := [];
    if key :| key in rest {
      front := ListingEndingIn(rest, key);
    } else {
      assert ClusterListing([], rest);
    }
    items := front + [Listed(last, pods[last])];
    hide ClusterListing;
    assert ClusterListing(items, pods) by { ListingSnoc(front, pods, last); }
  }

  lemma ListingSnoc(front: seq<Listed>, pods: map<PodKey, Pod>, last: PodKey)
    requires last in pods && ClusterListing(front, pods - {last})
    ensures ClusterListing(front + [Listed(last, pods[last])], pods)
  {
    var rest, items := pods - {last}, front + [Listed(last, pods[last])];
    forall key | key in pods ensures Listed(key, pods[key]) in items {
      if key != last { assert key in rest; assert Listed(key, rest[key]) in front; }
    }
    forall i, j | 0 <= i < j < |items| ensures items[i].key != items[j].key {
      assert items[i] in front;
    }
  }

  lemma {:induction false} EmptyPrefixKeepsAll(items: seq<Listed>)
    ensures WithPrefix(items, "") == items
  {
    if items != [] { EmptyPrefixKeepsAll(items[1..]); }
  }

  /** The prefix filter keeps exactly the pods whose names begin with the prefix, list by list. */
  lemma {:induction false} PrefixedIff(items: seq<Listed>, prefix: string, x: Listed)
    ensures x in WithPrefix(items, prefix) <==> x in items && prefix <= x.key.name
  {
    if items != [] { PrefixedIff(items[1..], prefix, x); }
  }

  lemma {:induction false} PrefixedInOrder(a: seq<Listed>, b: seq<Listed>, prefix: string)
    ensures WithPrefix(a + b, prefix) == WithPrefix(a, prefix) + WithPrefix(b, prefix)
    ensures |WithPrefix(a, prefix)| <= |a|
  {
    if a == [] {
      assert a + b == b;
    } else {
      assert (a + b)[1..] == a[1..] + b;
      PrefixedInOrder(a[1..], b, prefix);
    }
  }

  lemma {:induction false} SpecifiedAreListed(names: seq<string>, items: seq<Listed>)
    ensures var r := SelectSpecified(names, items); r.Some? ==> forall x :: x in r.value ==> x in items
  {
    if names != [] {
      SpecifiedAreListed(names[1..], items);
      NamedMembers(items, names[0]);
    }
  }

  /** Whatever the mode, only listed pods are selected. */
  lemma SelectedAreListed(spec: MigrationSpec, items: seq<Listed>)
    ensures Select(spec, items).Success? ==>
              forall i :: 0 <= i < |Select(spec, items).value| ==> Select(spec, items).value[i] in items
  {
    match ModeOf(spec)
    case Specified => SpecifiedAreListed(spec.specify, items);
    case OfDeployment => forall x ensures x in WithPrefix(items, spec.podName) ==> x in items {
      PrefixedIff(items, spec.podName, x);
    }
    case ByPodName => NamedMembers(items, spec.podName);
  }

  /** The three modes, told by the fields of the spec alone: the names it lists come first, then its
      deployment, then its pod; and only a name that is listed in vain is an error. */
  lemma SelectTells(spec: MigrationSpec, items: seq<Listed>)
    ensures spec.specify != [] && DistinctKeys(items) && InNamespace(items, spec.namespace) ==>
              if forall n :: n in spec.specify ==> exists x :: x in items && x.key.name == n then
                && Select(spec, items).Success? && |Select(spec, items).value| == |spec.specify|
                && forall i :: 0 <= i < |spec.specify| ==>
                     Select(spec, items).value[i] in items && Select(spec, items).value[i].key.name == spec.specify[i]
              else Select(spec, items) == Failure(PodNotFound)
    ensures spec.specify == [] && spec.deployment != "" ==>
              Select(spec, items).Success?
              && forall x :: x in Select(spec, items).value <==> x in items && spec.podName <= x.key.name
    ensures spec.specify == [] && spec.deployment == "" ==>
              && Select(spec, items).Success?
              && (forall k: nat :: LastNamed(items, spec.podName, k) ==> Select(spec, items).value == [items[k]])
              && ((forall i :: 0 <= i < |items| ==> items[i].key.name != spec.podName) ==>
                    Select(spec, items).value == items)
  {
    hide SelectSpecified, WithPrefix, SelectByName, LastNamed;
    if DistinctKeys(items) && InNamespace(items, spec.namespace) {
      SpecifiedIsExact(spec.specify, items, spec.namespace);
    }
    forall x ensures x in WithPrefix(items, spec.podName) <==> x in items && spec.podName <= x.key.name {
      PrefixedIff(items, spec.podName, x);
    }
    ByNameIsExact(items, spec.podName);
  }

  lemma {:induction false} FillAllAdds(processing: map<string, MigrationInfo>, items: seq<Listed>,
                                       spec: MigrationSpec)
    decreases items
    ensures var filled := FillAll(processing, items, spec);
            && (forall x :: x in items ==> x.key.name in filled && filled[x.key.name] == InfoOf(spec, ""))
            && (forall n :: n in processing && (forall x :: x in items ==> x.key.name != n) ==>
                  n in filled && filled[n] == processing[n])
            && (forall n :: n in filled ==> n in processing || exists x :: x in items && x.key.name == n)
  {
    if items != [] {
      var p := processing[items[0].key.name := InfoOf(spec, "")];
      FillAllAdds(p, items[1..], spec);
      assert items[0] in items;
      assert forall x :: x in items[1..] ==> x in items;
      assert forall x :: x in items ==> x == items[0] || x in items[1..];
      if forall x :: x in items[1..] ==> x.key.name != items[0].key.name {
        assert items[0].key.name in FillAll(p, items[1..], spec);
      }
    }
  }

  /** Webhook and reconciler composed: an admitted deployment spec selects every listed pod, in
      order, and leaves each of them in ProcessPodsMap with the destination of the spec. */
  lemma AdmittedDeploymentSelectsAll(spec: MigrationSpec, view: ClusterView, before: map<string, MigrationInfo>,
                                        processing: map<string, MigrationInfo>, items: seq<Listed>)
    requires spec.deployment != "" && ValidateMigration(spec, view, before).Success?
    ensures Select(spec, items) == Success(items)
    ensures var filled := FillAll(processing, items, spec);
            forall x :: x in items ==>
              && x.key.name in filled
              && filled[x.key.name].destinationNode == spec.destinationNode
              && filled[x.key.name].destinationNamespace == spec.destinationNamespace
              && filled[x.key.name].sourceNamespace == spec.namespace
  {
    AdmittedIff(spec, view, before);
    EmptyPrefixKeepsAll(items);
    FillAllAdds(processing, items, spec);
  }
}
