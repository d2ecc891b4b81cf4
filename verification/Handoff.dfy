/** handlers/deploy-new-pod.go: one registry pod's deployer turns a batch of messages into copies
    and delete messages. The functions say what each call does; the methods are the code. */
module Handoff {
  import opened Kafka
  import opened Migrations
  import opened Names
  import opened Registry
  import opened Wrappers

  /** A partition of delete-pod with the daemon's committed offset. */
  datatype DeleteLog = DeleteLog(log: seq<Message>, committed: nat)

  /** A pushed checkpoint: whose memory it holds, and which build job pushed it. */
  datatype Image = Image(memory: Option<Workload>, job: nat)

  /** What each registry holds, by the registry's index and the image's name. */
  type Images = map<(nat, string), Image>

  /** Name rules of the API server, as far as separators go. */
  predicate ValidName(s: string) {
    s != "" && '_' !in s && '/' !in s
  }

  /** checkDestinationNameSpaceExists: None if the namespace could neither be read nor made. */
  function EnsureNamespace(namespaces: set<string>, name: string, get: bool, create: bool): Option<set<string>> {
    if get && name in namespaces then Some(namespaces)
    else if create && name !in namespaces && ValidName(name) then Some(namespaces + {name})
    else None
  }

  /** The pod that is created for a message. It runs what the image holds. */
  function CopyOf(registry: RegistryPod, d: nat, info: MigrationInfo, m: Message, images: Images): Pod {
    var memory := if (d, m.value) in images then images[(d, m.value)].memory else None;
    Pod(info.destinationNode, false, [Container(m.value, memory)], [], ImageLocation(registry, m.value))
  }

  function CopyKey(info: MigrationInfo, m: Message): PodKey {
    PodKey(info.destinationNamespace, m.value)
  }

  /** createNewPod: refused if the name is taken or the namespace is missing. */
  predicate CanCreate(pods: map<PodKey, Pod>, namespaces: set<string>, key: PodKey) {
    key !in pods && key.namespace in namespaces
  }

  function DeleteMessage(info: MigrationInfo, m: Message): Message {
    Message(m.value, EncodeValue(info.sourceNamespace, m.key))
  }

  function AppendTo(logs: seq<DeleteLog>, q: nat, m: Message): seq<DeleteLog>
    requires q < |logs|
  {
    logs[q := logs[q].(log := logs[q].log + [m])]
  }

  /** What the deployer shares with the rest of the system. */
  datatype View = View(processing: map<string, MigrationInfo>, pods: map<PodKey, Pod>,
                       namespaces: set<string>, deletions: seq<DeleteLog>)

  /** Which of the external calls for one message succeed; announce is the partition the delete
      message goes to, None if it cannot be sent. */
  datatype Calls = Calls(metrics: bool, get: bool, create: bool, pod: bool, announce: Option<nat>)

  /** The loop body; false stands for every error return. */
  function DeployMessage(v: View, registry: RegistryPod, d: nat, images: Images, m: Message, c: Calls): (View, bool) {
    var key := DeployerOldName(m.value);
    if key !in v.processing then (v, false)
    else DeployClaimed(v.(processing := v.processing - {key}), registry, d, images, v.processing[key], m, c)
  }

  /** What is left of the loop body once the entry has been claimed. */
  function DeployClaimed(v: View, registry: RegistryPod, d: nat, images: Images, info: MigrationInfo, m: Message,
                         c: Calls): (View, bool) {
    if !c.metrics then (v, false)
    else
      var namespaces := EnsureNamespace(v.namespaces, info.destinationNamespace, c.get, c.create);
      if namespaces.None? then (v, false)
      else DeployPrepared(v.(namespaces := namespaces.value), registry, d, images, info, m, c)
  }

  /** ... and once its namespace is there. */
  function DeployPrepared(v: View, registry: RegistryPod, d: nat, images: Images, info: MigrationInfo, m: Message,
                          c: Calls): (View, bool) {
    if !c.pod || !CanCreate(v.pods, v.namespaces, CopyKey(info, m)) then (v, false)
    else
      var copied := v.(pods := v.pods[CopyKey(info, m) := CopyOf(registry, d, info, m, images)]);
      if c.announce.None? || c.announce.value >= |v.deletions| then (copied, false)
      else (copied.(deletions := AppendTo(v.deletions, c.announce.value, DeleteMessage(info, m))), true)
  }

  function DeployBatch(v: View, registry: RegistryPod, d: nat, images: Images, msgs: seq<Message>, calls: nat -> Calls,
                       n: nat): (View, bool)
    decreases msgs
  {
    if msgs == [] then (v, true)
    else
      var (next, ok) := DeployMessage(v, registry, d, images, msgs[0], calls(n));
      if ok then DeployBatch(next, registry, d, images, msgs[1..], calls, n + 1) else (next, false)
  }

  /** How many messages of a batch are attempted: all up to the first that fails. */
  function Attempts(v: View, registry: RegistryPod, d: nat, images: Images, msgs: seq<Message>, calls: nat -> Calls,
                    n: nat): nat
    decreases msgs
  {
    if msgs == [] then 0
    else
      var (next, ok) := DeployMessage(v, registry, d, images, msgs[0], calls(n));
      1 + if ok then Attempts(next, registry, d, images, msgs[1..], calls, n + 1) else 0
  }

  // ---------------------------------------------------------------- what is lost on the way

  /** The namespace can be read, or it is missing and can be made. */
  predicate NamespaceAnswers(namespaces: set<string>, name: string, c: Calls) {
    (c.get && name in namespaces) || (c.create && name !in namespaces && ValidName(name))
  }

  /** A message whose pod has an entry uses the entry up in any case. No copy comes of it exactly when
      the metrics cannot be had, the namespace can be neither read nor made, the create call fails, or
      the name of the copy is taken. */
  lemma EntryLostIff(v: View, registry: RegistryPod, d: nat, images: Images, m: Message, c: Calls)
    requires DeployerOldName(m.value) in v.processing
    ensures var info := v.processing[DeployerOldName(m.value)];
            var (w, _) := DeployMessage(v, registry, d, images, m, c);
            && w.processing == v.processing - {DeployerOldName(m.value)}
            && (w.pods == v.pods <==>
                  || !c.metrics || !NamespaceAnswers(v.namespaces, info.destinationNamespace, c) || !c.pod
                  || CopyKey(info, m) in v.pods)
            && (w.pods != v.pods ==>
                  && CopyKey(info, m) in w.pods && w.pods - {CopyKey(info, m)} == v.pods
                  && w.pods[CopyKey(info, m)].node == info.destinationNode)
  {
    hide ImageLocation, DeployerOldName;
    var info := v.processing[DeployerOldName(m.value)];
    var (w, _) := DeployMessage(v, registry, d, images, m, c);
    if CopyKey(info, m) !in v.pods && w.pods != v.pods {
      assert w.pods == v.pods[CopyKey(info, m) := CopyOf(registry, d, info, m, images)];
      assert w.pods - {CopyKey(info, m)} == v.pods;
    }
  }

  /** The failing input: where the name is taken, say by an earlier copy, no outcome of the calls saves
      the entry, and nothing tells the source. */
  lemma TakenNameLosesEntry(v: View, registry: RegistryPod, d: nat, images: Images, m: Message, c: Calls)
    requires DeployerOldName(m.value) in v.processing
    requires CopyKey(v.processing[DeployerOldName(m.value)], m) in v.pods
    ensures var (w, ok) := DeployMessage(v, registry, d, images, m, c);
            !ok && DeployerOldName(m.value) !in w.processing && w.pods == v.pods && w.deletions == v.deletions
  {
    hide ImageLocation, DeployerOldName;
    EntryLostIff(v, registry, d, images, m, c);
  }

  /** A copy that has been created is left beside its source exactly when it cannot be announced. */
  lemma CopyBesideSourceIff(v: View, registry: RegistryPod, d: nat, images: Images, m: Message, c: Calls)
    requires DeployMessage(v, registry, d, images, m, c).0.pods != v.pods
    ensures var (w, ok) := DeployMessage(v, registry, d, images, m, c);
            && (forall k :: k in v.pods ==> k in w.pods)
            && (w.deletions == v.deletions <==> c.announce.None? || c.announce.value >= |v.deletions|)
            && (ok <==> w.deletions != v.deletions)
  {
    hide ImageLocation, DeployerOldName, EnsureNamespace, CopyOf;
    var (w, ok) := DeployMessage(v, registry, d, images, m, c);
    if ok {
      var q := c.announce.value;
      assert |w.deletions[q].log| == |v.deletions[q].log| + 1;
    }
  }

  /** What the answers to one message must be for its deployment to fail: nobody waits for its pod, no
      copy comes of the entry, or the copy cannot be announced. */
  predicate Fails(v: View, m: Message, c: Calls) {
    var key := DeployerOldName(m.value);
    || key !in v.processing
    || !c.metrics || !NamespaceAnswers(v.namespaces, v.processing[key].destinationNamespace, c) || !c.pod
    || CopyKey(v.processing[key], m) in v.pods
    || c.announce.None? || c.announce.value >= |v.deletions|
  }

  lemma FailsIff(v: View, registry: RegistryPod, d: nat, images: Images, m: Message, c: Calls)
    ensures !DeployMessage(v, registry, d, images, m, c).1 <==> Fails(v, m, c)
  {
    hide DeployerOldName, CopyOf, AppendTo, DeleteMessage;
  }

  /** The deployment of the j-th message of a batch, after those before it, fails. */
  predicate FailsAt(v: View, registry: RegistryPod, d: nat, images: Images, msgs: seq<Message>, calls: nat -> Calls,
                    n: nat, j: nat)
    requires j < |msgs|
  {
    Fails(DeployBatch(v, registry, d, images, msgs[..j], calls, n).0, msgs[j], calls(n + j))
  }

  lemma {:induction false} AttemptedIff(v: View, registry: RegistryPod, d: nat, images: Images, msgs: seq<Message>,
                                        calls: nat -> Calls, n: nat, k: nat)
    requires k < |msgs|
    ensures k < Attempts(v, registry, d, images, msgs, calls, n) <==>
              forall j: nat :: j < k ==> !FailsAt(v, registry, d, images, msgs, calls, n, j)
    decreases msgs
  {
    hide DeployMessage, Fails;
    var (next, ok) := DeployMessage(v, registry, d, images, msgs[0], calls(n));
    FailsIff(v, registry, d, images, msgs[0], calls(n));
    assert msgs[..0] == [];
    assert FailsAt(v, registry, d, images, msgs, calls, n, 0) <==> !ok;
    if k > 0 && ok {
      var tail, next1 := msgs[1..], n + 1;
      AttemptedIff(next, registry, d, images, tail, calls, next1, k - 1);
      forall j: nat | 0 < j < k
        ensures FailsAt(v, registry, d, images, msgs, calls, n, j) <==>
                  FailsAt(next, registry, d, images, tail, calls, next1, j - 1)
      {
        assert msgs[..j][0] == msgs[0] && msgs[..j][1..] == tail[..j - 1];
        assert n + 1 + (j - 1) == n + j;
      }
      if j: nat :| j < k && FailsAt(v, registry, d, images, msgs, calls, n, j) {
        assert FailsAt(next, registry, d, images, tail, calls, next1, j - 1);
      }
      if j: nat :| j < k - 1 && FailsAt(next, registry, d, images, tail, calls, next1, j) {
        assert FailsAt(v, registry, d, images, msgs, calls, n, j + 1);
      }
    }
  }

  /** Consume call and deployment together. Every message of the batch is on record as returned and will
      not be delivered again. It is never even attempted exactly when the call met an own message whose
      commit was not acknowledged, the time was up in the select, or one of the calls for an earlier
      message of the batch failed. */
  lemma UnattemptedIff(parts: seq<Partition>, node: string, mine: set<nat>, polls: seq<Poll>, endInSelect: bool,
                       v: View, registry: RegistryPod, d: nat, images: Images, calls: nat -> Calls, k: nat,
                       kind: MessageKind)
    requires AllAccounted(parts)
    requires k < |PollAll(Open(parts, node, mine), node, polls).1|
    ensures var joined := Open(parts, node, mine);
            var (last, list, commitFailed) := PollAll(joined, node, polls);
            var consumed := !(commitFailed || endInSelect);
            var attempted := if consumed then Attempts(v, registry, d, images, list, calls, 0) else 0;
            && Delivered(Close(last, node), kind) == Delivered(parts, kind) + CountIn(list, kind)
            && (k >= attempted <==>
                  || (exists i: nat :: i < |polls| && RefusedAt(joined, node, polls, i)) || endInSelect
                  || exists j: nat :: j < k && FailsAt(v, registry, d, images, list, calls, 0, j))
  {
    hide PollAll, Attempts, FailsAt, Delivered, CountIn, Open, Close, AllAccounted, RefusedAt;
    ConsumeAccounted(parts, node, mine, polls, kind);
    CommitFailsIff(Open(parts, node, mine), node, polls);
    var list := PollAll(Open(parts, node, mine), node, polls).1;
    AttemptedIff(v, registry, d, images, list, calls, 0, k);
  }

  /** A message that nobody waits for any more, such as one delivered twice, takes the rest of its batch
      with it: here the entry of the next one stays in the map, and no message is left to claim it. */
  lemma LeftoverDropsBatch(v: View, registry: RegistryPod, d: nat, images: Images, old': Message, next: Message,
                           calls: nat -> Calls)
    requires DeployerOldName(old'.value) !in v.processing && DeployerOldName(next.value) in v.processing
    ensures DeployBatch(v, registry, d, images, [old', next], calls, 0) == (v, false)
    ensures Attempts(v, registry, d, images, [old', next], calls, 0) == 1
  {
    hide DeployerOldName;
    assert [old', next][1..] == [next];
  }

  // ---------------------------------------------------------------- the code

  class Cluster {
    var pods: map<PodKey, Pod>
    var namespaces: set<string>

    constructor (pods: map<PodKey, Pod>, namespaces: set<string>)
      ensures this.pods == pods && this.namespaces == namespaces
    {
      this.pods, this.namespaces := pods, namespaces;
    }

    method CheckDestinationNameSpaceExists(destination: string, get: bool, create: bool) returns (ok: bool)
      modifies this`namespaces
      ensures ok <==> EnsureNamespace(old(namespaces), destination, get, create).Some?
      ensures namespaces == if ok then EnsureNamespace(old(namespaces), destination, get, create).value
                            else old(namespaces)
    {
      ok := get && destination in namespaces;
      if !ok {
        ok := create && destination !in namespaces && ValidName(destination);
        if ok {
          namespaces := namespaces + {destination};
        }
      }
    }

    method CreateNewPod(key: PodKey, migratePod: Pod, answered: bool) returns (ok: bool)
      modifies this`pods
      ensures ok <==> answered && CanCreate(old(pods), namespaces, key)
      ensures pods == if ok then old(pods)[key := migratePod] else old(pods)
    {
      ok := answered && key !in pods && key.namespace in namespaces;
      if ok {
        pods := pods[key := migratePod];
      }
    }
  }

  class DeleteTopic {
    var logs: seq<DeleteLog>

    constructor (logs: seq<DeleteLog>)
      ensures this.logs == logs
    {
      this.logs := logs;
    }

    /** handlers/kafka.go: ProduceMessageToDifferentTopics */
    method ProduceMessageToDifferentTopics(key: string, nameSpace: string, nodeName: string, q: Option<nat>)
      returns (ok: bool)
      modifies this
      ensures ok <==> q.Some? && q.value < |old(logs)|
      ensures logs == if ok then AppendTo(old(logs), q.value, Message(key, EncodeValue(nameSpace, nodeName)))
                      else old(logs)
    {
      ok := q.Some? && q.value < |logs|;
      if ok {
        var message := Message(key, nameSpace + "/" + nodeName);
        logs := logs[q.value := logs[q.value].(log := logs[q.value].log + [message])];
      }
    }
  }

  /** DeployPodOnNewNode of the d-th registry pod, after ConsumeMessage has returned msgList; consumed
      is false when it returned an error, in which case the batch it also returned is dropped. */
  method DeployPodOnNewNode(registry: RegistryPod, d: nat, images: Images, msgList: seq<Message>, consumed: bool,
                            calls: nat -> Calls, processing: ProcessPods, cluster: Cluster, deletions: DeleteTopic)
    returns (ok: bool, ghost attempted: nat)
    modifies processing, cluster, deletions
    ensures attempted == if consumed
                         then Attempts(old(View(processing.entries, cluster.pods, cluster.namespaces, deletions.logs)),
                                       registry, d, images, msgList, calls, 0) else 0
    ensures var (last, done) :=
              if consumed
              then DeployBatch(old(View(processing.entries, cluster.pods, cluster.namespaces, deletions.logs)),
                               registry, d, images, msgList, calls, 0)
              else (old(View(processing.entries, cluster.pods, cluster.namespaces, deletions.logs)), false);
            && View(processing.entries, cluster.pods, cluster.namespaces, deletions.logs) == last
            && ok == done
  {
    attempted := 0;
    if !consumed {
      return false, attempted;
    }
    ghost var start := View(processing.entries, cluster.pods, cluster.namespaces, deletions.logs);
    assert msgList[0..] == msgList;
    for n := 0 to |msgList|
      invariant DeployBatch(start, registry, d, images, msgList, calls, 0) ==
                  DeployBatch(View(processing.entries, cluster.pods, cluster.namespaces, deletions.logs),
                              registry, d, images, msgList[n..], calls, n)
      invariant attempted == n
      invariant Attempts(start, registry, d, images, msgList, calls, 0) == attempted +
                  Attempts(View(processing.entries, cluster.pods, cluster.namespaces, deletions.logs),
                           registry, d, images, msgList[n..], calls, n)
    {
      assert msgList[n..][1..] == msgList[n + 1..];
      attempted := attempted + 1;
      ok := DeployOne(registry, d, images, msgList[n], calls(n), processing, cluster, deletions);
      if !ok {
        return;
      }
    }
    ok := true;
  }

  /** The loop body of DeployPodOnNewNode. */
  method DeployOne(registry: RegistryPod, d: nat, images: Images, msg: Message, c: Calls,
                   processing: ProcessPods, cluster: Cluster, deletions: DeleteTopic)
    returns (ok: bool)
    modifies processing, cluster, deletions
    ensures (View(processing.entries, cluster.pods, cluster.namespaces, deletions.logs), ok) ==
              DeployMessage(old(View(processing.entries, cluster.pods, cluster.namespaces, deletions.logs)),
                            registry, d, images, msg, c)
  {
    var nodeName, podName := msg.key, msg.value;
    var oldPodName := DeployerOldName(podName);
    var info := processing.Claim(oldPodName);
    if info.None? {
      return false;
    }
    var podIP := GetPodHostPort(registry);
    var imageLocation := podIP + "/" + (podName + ":latest");
    if !c.metrics {
      return false;
    }
    var memory := if (d, podName) in images then images[(d, podName)].memory else None;
    var migratePod := Pod(info.value.destinationNode, false, [Container(podName, memory)], [], imageLocation);
    ok := cluster.CheckDestinationNameSpaceExists(info.value.destinationNamespace, c.get, c.create);
    if !ok {
      return;
    }
    ok := cluster.CreateNewPod(PodKey(info.value.destinationNamespace, podName), migratePod, c.pod);
    if !ok {
      return;
    }
    ok := deletions.ProduceMessageToDifferentTopics(podName, info.value.sourceNamespace, nodeName, c.announce);
  }
}
