/** Names and messages that carry a migration from the kubelet to the restore daemon. */
module Names {
  import opened Text
  import opened Wrappers

  const KUBELET_DIR := "/var/lib/kubelet/checkpoints/"
  const CHECKPOINT := "checkpoint-"

  /** util/checkpoint_to_image.go */
  function ModifyCheckpointToImageName(checkpoint: string): string {
    Before(TrimPrefix(checkpoint, KUBELET_DIR), '_')
  }

  /** Where the kubelet stores the checkpoint of one container (the form the repository's test expects). */
  function KubeletPath(pod: string, namespace: string, container: string, stamp: string): string {
    KUBELET_DIR + CHECKPOINT + pod + "_" + namespace + "-" + container + "-" + stamp + ".tar"
  }

  function ImageName(pod: string, namespace: string, container: string, stamp: string): string {
    ModifyCheckpointToImageName(KubeletPath(pod, namespace, container, stamp))
  }

  /** The deployer's decoder: strings.TrimPrefix(podName, "checkpoint-"). */
  function DeployerOldName(podName: string): string {
    TrimPrefix(podName, CHECKPOINT)
  }

  /** The restore daemon's decoder: newPodName[strings.Index(newPodName, "-")+1:]. */
  function DaemonOldName(newPodName: string): string {
    newPodName[Index(newPodName, '-') + 1..]
  }

  /** Value of a delete-pod message. */
  function EncodeValue(namespace: string, node: string): string {
    namespace + "/" + node
  }

  /** The daemon's two slices of the value; None stands for Go's out-of-range panic. */
  function DecodeValue(value: string): (r: Option<(string, string)>)
    ensures r.None? <==> '/' !in value
    ensures r.Some? ==> EncodeValue(r.value.0, r.value.1) == value
  {
    var i := Index(value, '/');
    if i == -1 then None else Some((value[..i], value[i + 1..]))
  }

  /** How often a name has been through a migration, and the name it started from. */
  function Depth(name: string): nat {
    if CHECKPOINT <= name then 1 + Depth(name[|CHECKPOINT|..]) else 0
  }

  function Root(name: string): string {
    if CHECKPOINT <= name then Root(name[|CHECKPOINT|..]) else name
  }

  /** What the path of any pod, also one with '_' in its name, turns into. */
  lemma ImageNameOf(pod: string, namespace: string, container: string, stamp: string)
    ensures ImageName(pod, namespace, container, stamp) == CHECKPOINT + Before(pod, '_')
  {
    var tail := namespace + "-" + container + "-" + stamp + ".tar";
    var rest := CHECKPOINT + pod + "_" + tail;
    assert KubeletPath(pod, namespace, container, stamp) == KUBELET_DIR + rest;
    TrimJoined(KUBELET_DIR, rest);
    BeforeUnderscore(CHECKPOINT, pod, tail);
  }

  /** The same with the kubelet's path written out. */
  lemma ImageOfPath(pod: string, rest: string)
    requires '_' !in pod
    ensures ModifyCheckpointToImageName("/var/lib/kubelet/checkpoints/checkpoint-" + pod + "_" + rest) ==
              "checkpoint-" + pod
  {
    var name := "checkpoint-" + pod;
    assert "/var/lib/kubelet/checkpoints/checkpoint-" + pod + "_" + rest == KUBELET_DIR + (name + "_" + rest);
    TrimJoined(KUBELET_DIR, name + "_" + rest);
    IndexOfJoin(name, '_', rest);
    assert name + "_" + rest == name + ['_'] + rest;
  }

  lemma BeforeUnderscore(prefix: string, pod: string, tail: string)
    requires '_' !in prefix
    ensures Before(prefix + pod + "_" + tail, '_') == prefix + Before(pod, '_')
  {
    var head := Before(pod, '_');
    var rest := if '_' in pod then pod[|head| + 1..] + "_" + tail else tail;
    IndexOfJoin(prefix + head, '_', rest);
    assert prefix + pod + "_" + tail == (prefix + head) + ['_'] + rest by {
      if '_' in pod { assert pod == head + ['_'] + pod[|head| + 1..]; }
    }
  }

  /** Both decoders undo the naming of a checkpoint exactly when the pod name has no '_'. */
  lemma NamingRoundTrip(pod: string, namespace: string, container: string, stamp: string)
    ensures var image := ImageName(pod, namespace, container, stamp);
            && CHECKPOINT <= image
            && (DeployerOldName(image) == pod <==> '_' !in pod)
            && (DaemonOldName(image) == pod <==> '_' !in pod)
  {
    ImageNameOf(pod, namespace, container, stamp);
    DecodePrefixed(Before(pod, '_'));
  }

  /** Images of two checkpoints have one name exactly when the pods do, whatever the
      namespaces, containers and time stamps: the name forgets everything but the pod. */
  lemma ImageNameIdentifiesPod(p: string, q: string, ns1: string, ns2: string,
                               c1: string, c2: string, t1: string, t2: string)
    requires '_' !in p && '_' !in q
    ensures ImageName(p, ns1, c1, t1) == ImageName(q, ns2, c2, t2) <==> p == q
  {
    NamingRoundTrip(p, ns1, c1, t1);
    NamingRoundTrip(q, ns2, c2, t2);
    ImageNameOf(p, ns1, c1, t1);
    ImageNameOf(q, ns2, c2, t2);
  }

  lemma DecodePrefixed(pod: string)
    ensures DeployerOldName(CHECKPOINT + pod) == pod
    ensures DaemonOldName(CHECKPOINT + pod) == pod
  {
    assert CHECKPOINT == "checkpoint" + ['-'];
    assert CHECKPOINT + pod == "checkpoint" + ['-'] + pod;
    assert '-' !in "checkpoint";
    IndexOfJoin("checkpoint", '-', pod);
  }

  /** The two decoders are different functions; this is where they agree. */
  lemma DecodersAgree(s: string)
    ensures DeployerOldName(s) == DaemonOldName(s) <==> CHECKPOINT <= s || '-' !in s
  {
    if CHECKPOINT <= s {
      assert s == CHECKPOINT + s[|CHECKPOINT|..];
      DecodePrefixed(s[|CHECKPOINT|..]);
    } else if '-' in s {
      assert |DaemonOldName(s)| < |s|;
    }
  }

  /** Decoding never panics on an encoded value, and is exact when, and only when, the
      namespace has no '/' of its own. */
  lemma ValueRoundTrip(namespace: string, node: string)
    ensures DecodeValue(EncodeValue(namespace, node)).Some?
    ensures DecodeValue(EncodeValue(namespace, node)) == Some((namespace, node)) <==> '/' !in namespace
  {
    var v := EncodeValue(namespace, node);
    assert v[|namespace|] == '/';
    if '/' in namespace {
      BeforeStopsInside(namespace, '/', "/" + node);
      assert v == namespace + ("/" + node);
    } else {
      IndexOfJoin(namespace, '/', node);
      assert v == namespace + ['/'] + node;
    }
  }

  lemma CopyIsOneDeeper(name: string)
    ensures Depth(CHECKPOINT + name) == Depth(name) + 1
    ensures Root(CHECKPOINT + name) == Root(name)
  {
  }

  /** A name is determined by where it started and how often it was migrated. */
  lemma {:induction false} RootAndDepthIdentify(a: string, b: string)
    requires Root(a) == Root(b) && Depth(a) == Depth(b)
    ensures a == b
  {
    if CHECKPOINT <= a {
      assert CHECKPOINT <= b;
      RootAndDepthIdentify(a[|CHECKPOINT|..], b[|CHECKPOINT|..]);
      assert a == CHECKPOINT + a[|CHECKPOINT|..] && b == CHECKPOINT + b[|CHECKPOINT|..];
    }
  }
}
