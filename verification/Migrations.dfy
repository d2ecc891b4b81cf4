/** The entities a migration is about: pods, the custom resource, and the shared map. */
module Migrations {
  import opened Wrappers

  /** A pod is addressed by its namespace and name. */
  datatype PodKey = PodKey(namespace: string, name: string)

  /** What must not get lost: the memory of one container, known by the pod and container it began in.
      It has no version; which checkpoint of it a copy holds is told by the job that pushed the image. */
  datatype Workload = Workload(pod: PodKey, container: string)

  /** A container restored from an image has the memory of the checkpoint in it, None if there is no image. */
  datatype Container = Container(name: string, memory: Option<Workload>)

  datatype Pod = Pod(node: string, running: bool, containers: seq<Container>, imageIDs: seq<string>, image: string)

  /** The memory of the container of a name; the API server keeps the names of one pod distinct. */
  function MemoryOf(containers: seq<Container>, name: string): Option<Workload> {
    if containers == [] then None
    else if containers[0].name == name then containers[0].memory
    else MemoryOf(containers[1..], name)
  }

  predicate DistinctNames(containers: seq<Container>) {
    forall i, j :: 0 <= i < j < |containers| ==> containers[i].name != containers[j].name
  }

  /** One item of a pod list. */
  datatype Listed = Listed(key: PodKey, pod: Pod)

  /** api/v1alpha1/migration_types.go */
  datatype MigrationSpec = MigrationSpec(podName: string, deployment: string, namespace: string,
                                         destinationNode: string, destinationNamespace: string,
                                         specify: seq<string>)

  /** What Reconcile works with when the resource cannot be fetched. */
  const ZERO_SPEC := MigrationSpec("", "", "", "", "", [])

  /** util/global.go: the value type of ProcessPodsMap. */
  datatype MigrationInfo = MigrationInfo(podName: string, deployment: string, sourceNamespace: string,
                                         destinationNode: string, destinationNamespace: string,
                                         specify: seq<string>)

  /** What a fill stores for a spec. The PodName field of the entry is never set. */
  function InfoOf(spec: MigrationSpec, deployment: string): MigrationInfo {
    MigrationInfo("", deployment, spec.namespace, spec.destinationNode, spec.destinationNamespace,
                  spec.specify)
  }

  /** ProcessPodsMap: the pods whose migration has begun, shared by webhook, reconciler and deployers. */
  class ProcessPods {
    var entries: map<string, MigrationInfo>

    constructor ()
      ensures entries == map[]
    {
      entries := map[];
    }

    /** util/global.go: FillinGlobalVariables */
    method FillinGlobalVariables(podName: string, deployment: string, sourceNamespace: string,
                                 destinationNode: string, destinationNamespace: string,
                                 specify: seq<string>)
      modifies this
      ensures entries == old(entries)[podName :=
                           MigrationInfo("", deployment, sourceNamespace, destinationNode,
                                         destinationNamespace, specify)]
    {
      var info := MigrationInfo("", "", "", "", "", []);
      info := info.(deployment := deployment);
      info := info.(sourceNamespace := sourceNamespace);
      info := info.(destinationNode := destinationNode);
      info := info.(destinationNamespace := destinationNamespace);
      info := info.(specify := specify);
      entries := entries[podName := info];
    }

    /** The lookup and the delete of DeployPodOnNewNode, taken as one atomic step. */
    method Claim(key: string) returns (info: Option<MigrationInfo>)
      modifies this
      ensures info == if key in old(entries) then Some(old(entries)[key]) else None
      ensures entries == if key in old(entries) then old(entries) - {key} else old(entries)
    {
      if key in entries {
        info := Some(entries[key]);
        entries := entries - {key};
      } else {
        info := None;
      }
    }
  }
}
