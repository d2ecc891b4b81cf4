/** One image registry runs on every node. How a push finds a registry, how the registry's event
    becomes a message for a node, and how the copy's image reference names that registry again. */
module Registry {
  import opened Kafka
  import opened Text

  /** A docker-registry pod; ports holds the host ports of each of its containers. */
  datatype RegistryPod = RegistryPod(node: string, podIP: string, hostIP: string, ports: seq<seq<int>>)

  /** handlers/registry.go: the first pod on the node, and otherwise the last pod listed. */
  function RegistryFor(pods: seq<RegistryPod>, nodeName: string): (i: nat)
    requires pods != []
    ensures i < |pods|
    ensures pods[i].node == nodeName || i == |pods| - 1
    ensures forall j :: 0 <= j < i ==> pods[j].node != nodeName
  {
    if pods[0].node == nodeName || |pods| == 1 then 0 else 1 + RegistryFor(pods[1..], nodeName)
  }

  function RegistryIP(pods: seq<RegistryPod>, nodeName: string): string {
    if pods == [] then "" else pods[RegistryFor(pods, nodeName)].podIP
  }

  method ReturnRegistryIP(pods: seq<RegistryPod>, nodeName: string) returns (ip: string)
    ensures ip == RegistryIP(pods, nodeName)
    ensures pods == [] ==> ip == ""
    ensures pods != [] ==>
              exists k :: 0 <= k < |pods| && ip == pods[k].podIP && (pods[k].node == nodeName || k == |pods| - 1)
                          && forall j :: 0 <= j < k ==> pods[j].node != nodeName
  {
    var registryPod := RegistryPod("", "", "", []);
    for i := 0 to |pods|
      invariant i > 0 ==> registryPod == pods[i - 1]
      invariant i == 0 ==> registryPod.podIP == ""
      invariant forall j :: 0 <= j < i ==> pods[j].node != nodeName
    {
      registryPod := pods[i];
      if registryPod.node == nodeName {
        break;
      }
    }
    ip := registryPod.podIP;
  }

  /** testwebhook/util/nodeIP.go: the node of the first pod with the address; "" is the error. */
  function NodeByIP(pods: seq<RegistryPod>, podIP: string): string {
    if pods == [] then ""
    else if pods[0].podIP == podIP then pods[0].node
    else NodeByIP(pods[1..], podIP)
  }

  /** Pod k is the first one with the address. */
  predicate IsFirstAt(pods: seq<RegistryPod>, ip: string, k: nat) {
    k < |pods| && pods[k].podIP == ip && forall j :: 0 <= j < k ==> pods[j].podIP != ip
  }

  lemma {:induction false} FirstAt(pods: seq<RegistryPod>, ip: string, n: nat) returns (k: nat)
    requires n < |pods| && pods[n].podIP == ip
    ensures IsFirstAt(pods, ip, k)
  {
    k := n;
    if j :| 0 <= j < n && pods[j].podIP == ip { k := FirstAt(pods, ip, j); }
  }

  /** The first pod with the address decides. */
  lemma {:induction false} NodeByIPIsFirst(pods: seq<RegistryPod>, ip: string, k: nat)
    requires IsFirstAt(pods, ip, k)
    ensures NodeByIP(pods, ip) == pods[k].node
  {
    if k > 0 {
      assert pods[0].podIP != ip;
      NodeByIPIsFirst(pods[1..], ip, k - 1);
    }
  }

  lemma {:induction false} NodeByIPUnknown(pods: seq<RegistryPod>, ip: string)
    requires forall j :: 0 <= j < |pods| ==> pods[j].podIP != ip
    ensures NodeByIP(pods, ip) == ""
  {
    if pods != [] { NodeByIPUnknown(pods[1..], ip); }
  }

  method GetNodeNameByHostIP(podIP: string, pods: seq<RegistryPod>) returns (nodeName: string, ok: bool)
    ensures nodeName == NodeByIP(pods, podIP)
    ensures ok <==> nodeName != ""
  {
    nodeName := "";
    assert pods[0..] == pods;
    for i := 0 to |pods|
      invariant nodeName == "" && NodeByIP(pods, podIP) == NodeByIP(pods[i..], podIP)
    {
      assert pods[i..][1..] == pods[i + 1..];
      if pods[i].podIP == podIP {
        nodeName := pods[i].node;
        break;
      }
    }
    ok := nodeName != "";
  }

  /** fmt's %d */
  function Decimal(n: int): string
    decreases if n < 0 then 1 - n else n
  {
    if n < 0 then "-" + Decimal(-n)
    else if n < 10 then [('0' as int + n) as char]
    else Decimal(n / 10) + Decimal(n % 10)
  }

  predicate IsDigit(c: char) {
    '0' <= c <= '9'
  }

  /** The number that a string of digits stands for. */
  function Value(digits: string): int {
    if digits == [] then 0
    else 10 * Value(digits[..|digits| - 1]) + (digits[|digits| - 1] as int - '0' as int)
  }

  /** The digits of a number, read from the left, give it back, and they begin with 0 only if it is 0. */
  lemma {:induction false} DecimalReads(n: nat)
    ensures Decimal(n) != [] && (forall i :: 0 <= i < |Decimal(n)| ==> IsDigit(Decimal(n)[i]))
    ensures Value(Decimal(n)) == n
    ensures Decimal(n)[0] == '0' ==> n == 0
  {
    if n < 10 {
      assert Decimal(n)[..0] == [];
    } else {
      var last := n % 10;
      DecimalReads(n / 10);
      assert Decimal(last) == [('0' as int + last) as char];
      assert Decimal(n)[..|Decimal(n)| - 1] == Decimal(n / 10);
    }
  }

  /** util/service.go: the first port of the last container that has any. */
  function HostPort(ports: seq<seq<int>>): string {
    if ports == [] then ""
    else if ports[|ports| - 1] != [] then Decimal(ports[|ports| - 1][0])
    else HostPort(ports[..|ports| - 1])
  }

  /** Only the last container that has ports counts, and of its ports only the first. */
  lemma {:induction false} HostPortIs(ports: seq<seq<int>>, k: nat)
    requires k < |ports| && ports[k] != [] && forall j :: k < j < |ports| ==> ports[j] == []
    ensures HostPort(ports) == Decimal(ports[k][0])
  {
    if k < |ports| - 1 { HostPortIs(ports[..|ports| - 1], k); }
  }

  function PodHostPort(pod: RegistryPod): string {
    pod.hostIP + ":" + HostPort(pod.ports)
  }

  method GetPodHostPort(pod: RegistryPod) returns (r: string)
    ensures r == PodHostPort(pod)
  {
    var hostPort := "";
    for c := 0 to |pod.ports|
      invariant hostPort == HostPort(pod.ports[..c])
    {
      assert pod.ports[..c + 1][..c] == pod.ports[..c];
      for p := 0 to |pod.ports[c]|
        invariant p == 0 && hostPort == HostPort(pod.ports[..c])
      {
        hostPort := Decimal(pod.ports[c][p]);
        break;
      }
    }
    assert pod.ports[..|pod.ports|] == pod.ports;
    r := pod.hostIP + ":" + hostPort;
  }

  /** handlers/deploy-new-pod.go: where the copy pulls its image from. */
  function ImageLocation(pod: RegistryPod, podName: string): string {
    PodHostPort(pod) + "/" + (podName + ":latest")
  }

  /** handlers/buildah.go: the address part of the push command. */
  function PushHost(registryIp: string): string {
    registryIp + ":5000"
  }

  /** handlers/buildah.go: where the build job pushes the image. */
  function PushReference(registryIp: string, image: string): string {
    PushHost(registryIp) + "/" + (image + ":latest")
  }

  // ---------------------------------------------------------------- image references

  /** A reference is host, '/', repository, ':', tag; the repository may have '/' and the host ':'. */
  function HostOf(reference: string): string {
    Before(reference, '/')
  }

  function RepositoryOf(reference: string): string {
    var i, j := Index(reference, '/') + 1, LastIndex(reference, ':');
    if i <= j then reference[i..j] else reference[i..]
  }

  function TagOf(reference: string): string {
    reference[LastIndex(reference, ':') + 1..]
  }

  lemma ReferenceParts(reference: string, host: string, repository: string, tag: string)
    requires reference == host + "/" + (repository + ":" + tag) && '/' !in host && ':' !in tag
    ensures HostOf(reference) == host && RepositoryOf(reference) == repository && TagOf(reference) == tag
  {
    hide Before, Index, LastIndex;
    var i := |host| + 1;
    IndexOfJoin(host, '/', repository + ":" + tag);
    assert reference == host + ['/'] + (repository + ":" + tag);
    LastIndexOfJoin(host + "/" + repository, ':', tag);
    assert reference == (host + "/" + repository) + [':'] + tag;
    assert reference[i..] == repository + ":" + tag;
    assert reference[i..i + |repository|] == reference[i..][..|repository|] == repository;
  }

  /** What the copy pulls: from the node's address and the registry's port, the image of its own name. */
  lemma PulledReference(pod: RegistryPod, name: string)
    requires '/' !in pod.hostIP
    ensures var reference := ImageLocation(pod, name);
            && HostOf(reference) == pod.hostIP + ":" + HostPort(pod.ports)
            && RepositoryOf(reference) == name && TagOf(reference) == "latest"
  {
    HostPortHasNoSlash(pod.ports);
    hide HostPort;
    assert name + ":" + "latest" == name + ":latest";
    ReferenceParts(ImageLocation(pod, name), PodHostPort(pod), name, "latest");
  }

  /** What the build job pushes: to port 5000 of the registry, the image of the checkpoint's name. */
  lemma PushedReference(registryIp: string, image: string)
    requires '/' !in registryIp
    ensures var reference := PushReference(registryIp, image);
            && HostOf(reference) == registryIp + ":5000"
            && RepositoryOf(reference) == image && TagOf(reference) == "latest"
  {
    assert image + ":" + "latest" == image + ":latest";
    ReferenceParts(PushReference(registryIp, image), PushHost(registryIp), image, "latest");
  }

  /** The registry that answers at an address, |pods| if there is none. */
  function RegistryServing(pods: seq<RegistryPod>, address: string): (i: nat)
    ensures i <= |pods|
    ensures i < |pods| ==> pods[i].hostIP + ":" + HostPort(pods[i].ports) == address
    ensures forall j :: 0 <= j < i ==> pods[j].hostIP + ":" + HostPort(pods[j].ports) != address
  {
    if pods == [] || pods[0].hostIP + ":" + HostPort(pods[0].ports) == address then 0
    else 1 + RegistryServing(pods[1..], address)
  }

  /** The registries can be told apart by node address and port. */
  predicate Pullable(pods: seq<RegistryPod>) {
    && (forall i :: 0 <= i < |pods| ==> '/' !in pods[i].hostIP)
    && (forall i, j :: 0 <= i < j < |pods| ==>
          pods[i].hostIP + ":" + HostPort(pods[i].ports) != pods[j].hostIP + ":" + HostPort(pods[j].ports))
  }

  /** Resolving the reference of a copy made beside registry d leads to d. */
  lemma PullLeadsBack(pods: seq<RegistryPod>, d: nat, name: string)
    requires Pullable(pods) && d < |pods|
    ensures var reference := ImageLocation(pods[d], name);
            && RegistryServing(pods, HostOf(reference)) == d
            && RepositoryOf(reference) == name && TagOf(reference) == "latest"
  {
    hide HostPort, ImageLocation, RepositoryOf, TagOf, HostOf;
    PulledReference(pods[d], name);
  }

  /** ... and to what has been pushed there under that name: both references have one repository and tag. */
  lemma PullFindsPush(pods: seq<RegistryPod>, d: nat, name: string)
    requires Pullable(pods) && d < |pods| && '/' !in pods[d].podIP
    ensures var pulled, pushed := ImageLocation(pods[d], name), PushReference(pods[d].podIP, name);
            && RegistryServing(pods, HostOf(pulled)) == d && HostOf(pushed) == PushHost(pods[d].podIP)
            && RepositoryOf(pulled) == RepositoryOf(pushed) == name && TagOf(pulled) == TagOf(pushed)
  {
    hide HostPort, ImageLocation, PushReference, RepositoryOf, TagOf, HostOf;
    PullLeadsBack(pods, d, name);
    PushedReference(pods[d].podIP, name);
  }

  // ---------------------------------------------------------------- the event handler

  /** The media types under which a registry reports that an image is complete, and the rest:
      application/vnd.oci.image.manifest.v1+json and application/vnd.docker.distribution.manifest.v2+json. */
  datatype MediaType = OciManifest | DockerManifest | OtherMedia(name: string)

  datatype Action = Push | OtherAction(name: string)

  datatype Event = Event(action: Action, mediaType: MediaType, host: string, repository: string)

  predicate IsManifestPush(e: Event) {
    e.action == Push && (e.mediaType == OciManifest || e.mediaType == DockerManifest)
  }

  function NodeOfEvent(pods: seq<RegistryPod>, e: Event): string {
    NodeByIP(pods, Before(e.host, ':'))
  }

  /** What one event does to my-topic: sent says whether the producer reached the broker, and i is
      the partition its balancer picked. */
  function Publish(parts: seq<Partition>, pods: seq<RegistryPod>, e: Event, sent: bool, i: nat): seq<Partition> {
    if IsManifestPush(e) && NodeOfEvent(pods, e) != "" && sent && i < |parts|
    then parts[i := Produce(parts[i], Message(NodeOfEvent(pods, e), e.repository))]
    else parts
  }

  /** A registry that is known reports that the manifest of an image, and so all of it, has arrived. */
  ghost predicate IsNews(pods: seq<RegistryPod>, e: Event) {
    && e.action == Push && (e.mediaType == OciManifest || e.mediaType == DockerManifest)
    && exists k: nat :: IsFirstAt(pods, Before(e.host, ':'), k) && pods[k].node != ""
  }

  /** An event changes my-topic exactly if it is news, the producer reaches the broker and the partition
      exists; then it adds one message, for the node of the registry and about the image. */
  lemma PublishIff(parts: seq<Partition>, pods: seq<RegistryPod>, e: Event, sent: bool, i: nat)
    ensures Publish(parts, pods, e, sent, i) != parts <==> IsNews(pods, e) && sent && i < |parts|
    ensures Publish(parts, pods, e, sent, i) != parts ==>
              exists k: nat :: IsFirstAt(pods, Before(e.host, ':'), k)
                               && Publish(parts, pods, e, sent, i) ==
                                    parts[i := parts[i].(log := parts[i].log + [Message(pods[k].node, e.repository)])]
  {
    hide Before;
    var ip := Before(e.host, ':');
    if k :| 0 <= k < |pods| && pods[k].podIP == ip {
      var first := FirstAt(pods, ip, k);
      NodeByIPIsFirst(pods, ip, first);
      assert forall i: nat :: IsFirstAt(pods, ip, i) ==> i == first;
    } else {
      NodeByIPUnknown(pods, ip);
    }
    if i < |parts| {
      var m := Message(NodeOfEvent(pods, e), e.repository);
      assert |parts[i].log + [m]| == |parts[i].log| + 1;
      assert Produce(parts[i], m) != parts[i];
    }
  }

  function PublishAll(parts: seq<Partition>, pods: seq<RegistryPod>, events: seq<Event>, sent: nat -> bool,
                      choose: nat -> nat, n: nat): seq<Partition>
    decreases events
  {
    if events == [] then parts
    else PublishAll(Publish(parts, pods, events[0], sent(n), choose(n)), pods, events[1..], sent, choose, n + 1)
  }

  /** testwebhook/main.go: webhookHandler, after decoding the request. */
  method WebhookHandler(events: seq<Event>, pods: seq<RegistryPod>, topic: Topic, sent: nat -> bool, choose: nat -> nat)
    requires forall n :: choose(n) < |topic.partitions|
    modifies topic
    ensures topic.partitions == PublishAll(old(topic.partitions), pods, events, sent, choose, 0)
  {
    assert events[0..] == events;
    for n := 0 to |events|
      invariant |topic.partitions| == |old(topic.partitions)|
      invariant PublishAll(old(topic.partitions), pods, events, sent, choose, 0) ==
                  PublishAll(topic.partitions, pods, events[n..], sent, choose, n)
    {
      assert events[n..][1..] == events[n + 1..];
      var e := events[n];
      if e.action == Push {
        if e.mediaType == OciManifest || e.mediaType == DockerManifest {
          var registryPodIP := Before(e.host, ':');
          var nodeName, ok := GetNodeNameByHostIP(registryPodIP, pods);
          if nodeName == "" {
            continue;
          }
          if sent(n) {
            topic.ProduceMessage(nodeName, e.repository, choose(n));
          }
        }
      }
    }
  }

  /** The messages that the events of one call send to partition i. */
  ghost function SentTo(pods: seq<RegistryPod>, events: seq<Event>, sent: nat -> bool, choose: nat -> nat, n: nat,
                        i: nat): seq<Message>
    decreases events
  {
    if events == [] then []
    else (if IsNews(pods, events[0]) && sent(n) && choose(n) == i
          then [Message(NodeOfEvent(pods, events[0]), events[0].repository)] else [])
         + SentTo(pods, events[1..], sent, choose, n + 1, i)
  }

  /** One call of the handler adds to each partition exactly the messages of its news that reached the
      broker and were put there, in the order of the events, and touches nothing else. */
  lemma {:induction false} HandlerAdds(parts: seq<Partition>, pods: seq<RegistryPod>, events: seq<Event>,
                                       sent: nat -> bool, choose: nat -> nat, n: nat, i: nat)
    requires i < |parts|
    ensures |PublishAll(parts, pods, events, sent, choose, n)| == |parts|
    ensures PublishAll(parts, pods, events, sent, choose, n)[i] ==
              parts[i].(log := parts[i].log + SentTo(pods, events, sent, choose, n, i))
    decreases events
  {
    hide IsNews, NodeOfEvent, Publish;
    if events == [] {
      assert parts[i].log + [] == parts[i].log;
    } else {
      var e := events[0];
      PublishedAt(parts, pods, e, sent(n), choose(n), i);
      HandlerAdds(Publish(parts, pods, e, sent(n), choose(n)), pods, events[1..], sent, choose, n + 1, i);
      var rest := SentTo(pods, events[1..], sent, choose, n + 1, i);
      LogJoins(parts[i].log, [Message(NodeOfEvent(pods, e), e.repository)], rest);
    }
  }

  lemma LogJoins(log: seq<Message>, mine: seq<Message>, rest: seq<Message>)
    ensures (log + mine) + rest == log + (mine + rest) && [] + rest == rest
  {
  }

  lemma PublishedAt(parts: seq<Partition>, pods: seq<RegistryPod>, e: Event, sent: bool, c: nat, i: nat)
    requires i < |parts|
    ensures |Publish(parts, pods, e, sent, c)| == |parts|
    ensures Publish(parts, pods, e, sent, c)[i] ==
              if IsNews(pods, e) && sent && c == i
              then Produce(parts[i], Message(NodeOfEvent(pods, e), e.repository)) else parts[i]
  {
    PublishIff(parts, pods, e, sent, c);
    hide IsNews, NodeOfEvent;
  }

  // ---------------------------------------------------------------- routing

  /** One registry pod on each node, with addresses of their own. */
  predicate ValidRegistries(pods: seq<RegistryPod>) {
    && (forall i :: 0 <= i < |pods| ==> pods[i].node != "")
    && (forall i, j :: 0 <= i < j < |pods| ==> pods[i].node != pods[j].node && pods[i].podIP != pods[j].podIP)
  }

  lemma {:induction false} NodeByIPIs(pods: seq<RegistryPod>, i: nat)
    requires ValidRegistries(pods) && i < |pods|
    ensures NodeByIP(pods, pods[i].podIP) == pods[i].node
  {
    if i > 0 {
      assert pods[0].podIP != pods[i].podIP;
      NodeByIPIs(pods[1..], i - 1);
    }
  }

  lemma {:induction false} NodeByIPFinds(pods: seq<RegistryPod>, ip: string)
    ensures NodeByIP(pods, ip) != "" ==>
              exists i :: 0 <= i < |pods| && pods[i].podIP == ip && pods[i].node == NodeByIP(pods, ip)
  {
    if pods != [] {
      NodeByIPFinds(pods[1..], ip);
      if pods[0].podIP != ip && NodeByIP(pods, ip) != "" {
        var i :| 0 <= i < |pods[1..]| && pods[1..][i].podIP == ip && pods[1..][i].node == NodeByIP(pods[1..], ip);
        assert pods[i + 1].podIP == ip;
      }
    }
  }

  /** The two look-ups are inverse to each other on exactly the nodes that have a registry. */
  lemma LookupsInverse(pods: seq<RegistryPod>, node: string)
    requires ValidRegistries(pods) && node != ""
    ensures NodeByIP(pods, RegistryIP(pods, node)) == node <==>
              exists i :: 0 <= i < |pods| && pods[i].node == node
  {
    if pods != [] {
      NodeByIPIs(pods, RegistryFor(pods, node));
      RegistryForFinds(pods, node);
      hide NodeByIP, RegistryFor, ValidRegistries;
    }
  }

  lemma RegistryForFinds(pods: seq<RegistryPod>, node: string)
    requires pods != []
    ensures pods[RegistryFor(pods, node)].node == node <==> exists i :: 0 <= i < |pods| && pods[i].node == node
  {
  }

  /** The reconciler asks for the registry of the destination *namespace*. That is the registry of
      the destination node exactly when a node happens to be called like the namespace and is the
      destination, or when there is no such node and the destination's registry is listed last. */
  lemma PushReachesDestinationIff(pods: seq<RegistryPod>, destinationNamespace: string, k: nat)
    requires ValidRegistries(pods) && k < |pods|
    ensures RegistryIP(pods, destinationNamespace) == pods[k].podIP <==>
              || destinationNamespace == pods[k].node
              || (k == |pods| - 1 && forall i :: 0 <= i < |pods| ==> pods[i].node != destinationNamespace)
  {
  }

  /** Where it fails: with two registries and a namespace that is not called like the first one's node, a
      pod that is to go to that node is pushed to the other registry. */
  lemma PushMissesDestination(first: RegistryPod, last: RegistryPod, destinationNamespace: string)
    requires ValidRegistries([first, last]) && destinationNamespace != first.node
    ensures RegistryIP([first, last], destinationNamespace) == last.podIP != first.podIP
  {
    PushReachesDestinationIff([first, last], destinationNamespace, 0);
    PushReachesDestinationIff([first, last], destinationNamespace, 1);
    assert [first, last][1] == last;
    hide RegistryIP;
  }

  /** A push to the registry of a node comes back as a message for that very node exactly when the
      address has no ':' of its own, that is, when it is not an IPv6 address. */
  lemma EventNamesItsNodeIff(pods: seq<RegistryPod>, i: nat, e: Event)
    requires ValidRegistries(pods) && i < |pods| && e.host == PushHost(pods[i].podIP)
    ensures NodeOfEvent(pods, e) == pods[i].node <==> ':' !in pods[i].podIP
  {
    var ip := pods[i].podIP;
    if ':' in ip {
      BeforeStopsInside(ip, ':', ":5000");
      var cut := Before(e.host, ':');
      NodeByIPFinds(pods, cut);
      assert forall j :: 0 <= j < |pods| && pods[j].podIP == cut ==> j != i;
      assert forall j :: 0 <= j < |pods| && j != i ==> pods[j].node != pods[i].node;
    } else {
      IndexOfJoin(ip, ':', "5000");
      assert e.host == ip + [':'] + "5000";
      NodeByIPIs(pods, i);
    }
  }

  /** From push to pull: whatever node was asked for, the one deployer that gets the message of the
      push is that of the registry which holds the image, and the image it deploys names that host. */
  lemma ImageRouting(pods: seq<RegistryPod>, asked: string, podName: string, d: nat, e: Event)
    requires ValidRegistries(pods) && d < |pods| && forall i :: 0 <= i < |pods| ==> ':' !in pods[i].podIP
    requires e.host == PushHost(RegistryIP(pods, asked))
    ensures pods[d].node == NodeOfEvent(pods, e) <==> d == RegistryFor(pods, asked)
    ensures pods[d].node == NodeOfEvent(pods, e) ==> pods[d].podIP == RegistryIP(pods, asked)
  {
    var i := RegistryFor(pods, asked);
    EventNamesItsNodeIff(pods, i, e);
    if d < i { assert pods[d].node != pods[i].node; }
    if i < d { assert pods[i].node != pods[d].node; }
  }

  lemma {:induction false} DecimalHasNoSlash(n: int)
    ensures '/' !in Decimal(n)
    decreases if n < 0 then 1 - n else n
  {
    if n < 0 {
      DecimalHasNoSlash(-n);
    } else if n >= 10 {
      DecimalHasNoSlash(n / 10);
      DecimalHasNoSlash(n % 10);
    }
  }

  lemma {:induction false} HostPortHasNoSlash(ports: seq<seq<int>>)
    ensures '/' !in HostPort(ports)
  {
    if ports != [] {
      if ports[|ports| - 1] != [] {
        DecimalHasNoSlash(ports[|ports| - 1][0]);
      } else {
        HostPortHasNoSlash(ports[..|ports| - 1]);
      }
    }
  }

  /** A puller that cuts the reference at its first '/' is sent to the registry's own host and port
      exactly when the host address has no '/' in it. */
  lemma PullReachesHostIff(pod: RegistryPod, podName: string)
    ensures Before(ImageLocation(pod, podName), '/') == PodHostPort(pod) <==> '/' !in pod.hostIP
  {
    HostPortHasNoSlash(pod.ports);
    var address := PodHostPort(pod);
    hide HostPort;
    assert '/' in address <==> '/' in pod.hostIP;
    if '/' !in address {
      IndexOfJoin(address, '/', podName + ":latest");
      assert ImageLocation(pod, podName) == address + ['/'] + (podName + ":latest");
    }
  }
}
