/** api/v1alpha1/migration_webhook.go: which Migration resources are let into the cluster. */
module Webhook {
  import opened Migrations
  import opened Wrappers

  /** What the webhook can see: whether its client could be created, and which Get calls succeed. */
  datatype ClusterView = ClusterView(client: bool, pods: set<PodKey>, deployments: set<PodKey>)

  datatype Rejection =
    | PodNameAndDeployment | PodNameAndSpecify | DeploymentAndSpecify
    | NoDestinationNode | NoDestinationNamespace | NoNamespace
    | NoClient | NilClientPanic
    | NoSuchPod(pod: string) | NoSuchDeployment(deployment: string)
    | BeingProcessed(pod: string)

  function ValidateMigration(spec: MigrationSpec, view: ClusterView,
                             processing: map<string, MigrationInfo>): Result<(), Rejection>
  {
    if spec.podName != "" && spec.deployment != "" then Failure(PodNameAndDeployment)
    else if spec.podName != "" && |spec.specify| > 0 then Failure(PodNameAndSpecify)
    else if spec.deployment != "" && |spec.specify| > 0 then Failure(DeploymentAndSpecify)
    else if spec.destinationNode == "" then Failure(NoDestinationNode)
    else if spec.destinationNamespace == "" then Failure(NoDestinationNamespace)
    else if spec.namespace == "" then Failure(NoNamespace)
    else if spec.podName != "" && !view.client then Failure(NoClient)
    else if spec.podName != "" && PodKey(spec.namespace, spec.podName) !in view.pods then
      Failure(NoSuchPod(spec.podName))
    else if spec.deployment != "" && !view.client then Failure(NilClientPanic)
    else if spec.deployment != "" && PodKey(spec.namespace, spec.deployment) !in view.deployments then
      Failure(NoSuchDeployment(spec.deployment))
    else if |spec.specify| > 0 && !view.client then Failure(NilClientPanic)
    else if FirstMissing(spec.specify, spec.namespace, view.pods).Some? then
      Failure(NoSuchPod(FirstMissing(spec.specify, spec.namespace, view.pods).value))
    else if spec.podName != "" && spec.podName in processing then Failure(BeingProcessed(spec.podName))
    else if FirstBusy(spec.specify, processing).Some? then
      Failure(BeingProcessed(FirstBusy(spec.specify, processing).value))
    else Success(())
  }

  function FirstMissing(names: seq<string>, namespace: string, pods: set<PodKey>): (r: Option<string>)
    ensures r.None? <==> forall n :: n in names ==> PodKey(namespace, n) in pods
    ensures r.Some? ==>
              exists k :: 0 <= k < |names| && names[k] == r.value && PodKey(namespace, names[k]) !in pods
                          && forall j :: 0 <= j < k ==> PodKey(namespace, names[j]) in pods
  {
    if names == [] then None
    else if PodKey(namespace, names[0]) !in pods then Some(names[0])
    else
      var rest := FirstMissing(names[1..], namespace, pods);
      assert rest.Some? ==>
          exists k :: 0 <= k < |names[1..]| && names[1..][k] == rest.value && names[k + 1] == rest.value
                      && PodKey(namespace, names[k + 1]) !in pods
                      && forall j :: 0 <= j < k ==> PodKey(namespace, names[1..][j]) in pods;
      rest
  }

  function FirstBusy(names: seq<string>, processing: map<string, MigrationInfo>): (r: Option<string>)
    ensures r.None? <==> forall n :: n in names ==> n !in processing
    ensures r.Some? ==>
              exists k :: 0 <= k < |names| && names[k] == r.value && names[k] in processing
                          && forall j :: 0 <= j < k ==> names[j] !in processing
  {
    if names == [] then None
    else if names[0] in processing then Some(names[0])
    else
      var rest := FirstBusy(names[1..], processing);
      assert rest.Some? ==>
          exists k :: 0 <= k < |names[1..]| && names[1..][k] == rest.value && names[k + 1] == rest.value
                      && names[k + 1] in processing && forall j :: 0 <= j < k ==> names[1..][j] !in processing;
      rest
  }

  /** At most one way of naming pods, a complete destination, everything named exists. */
  predicate WellFormed(spec: MigrationSpec) {
    && (spec.podName == "" || spec.deployment == "")
    && (spec.specify == [] || (spec.podName == "" && spec.deployment == ""))
    && spec.destinationNode != "" && spec.destinationNamespace != "" && spec.namespace != ""
  }

  /** The names whose migration the spec asks for directly. */
  function NamedPods(spec: MigrationSpec): set<string> {
    (if spec.podName != "" then {spec.podName} else {}) + set n | n in spec.specify
  }

  /** Admission, without the order of the checks. */
  lemma AdmittedIff(spec: MigrationSpec, view: ClusterView, processing: map<string, MigrationInfo>)
    ensures ValidateMigration(spec, view, processing).Success? <==>
              && WellFormed(spec)
              && (forall n :: n in NamedPods(spec) ==>
                    view.client && PodKey(spec.namespace, n) in view.pods && n !in processing)
              && (spec.deployment != "" ==>
                    view.client && PodKey(spec.namespace, spec.deployment) in view.deployments)
  {
    var named := NamedPods(spec);
    assert spec.podName != "" ==> spec.podName in named;
    assert forall n :: n in spec.specify ==> n in named;
    assert forall n :: n in named ==> (n != "" && n == spec.podName) || n in spec.specify;
    if spec.specify != [] { assert spec.specify[0] in spec.specify; }
  }

  /** Everything the spec names exists, as far as the webhook looks. */
  predicate AllExist(spec: MigrationSpec, view: ClusterView) {
    && (forall n :: n in NamedPods(spec) ==> PodKey(spec.namespace, n) in view.pods)
    && (spec.deployment != "" ==> PodKey(spec.namespace, spec.deployment) in view.deployments)
  }

  /** What is wrong with a spec that is refused: the message is true of it. A spec that is ill-formed is
      told so before anything is looked up, and one that names something missing before the map is. */
  lemma RejectionTells(spec: MigrationSpec, view: ClusterView, processing: map<string, MigrationInfo>)
    requires ValidateMigration(spec, view, processing).Failure?
    ensures match ValidateMigration(spec, view, processing).error
            case PodNameAndDeployment => spec.podName != "" && spec.deployment != ""
            case PodNameAndSpecify => spec.podName != "" && spec.specify != []
            case DeploymentAndSpecify => spec.deployment != "" && spec.specify != []
            case NoDestinationNode => spec.destinationNode == ""
            case NoDestinationNamespace => spec.destinationNamespace == ""
            case NoNamespace => spec.namespace == ""
            case NoClient => WellFormed(spec) && !view.client && spec.podName != ""
            case NilClientPanic => WellFormed(spec) && !view.client && (spec.deployment != "" || spec.specify != [])
            case NoSuchPod(n) => WellFormed(spec) && view.client && n in NamedPods(spec)
                                 && PodKey(spec.namespace, n) !in view.pods
            case NoSuchDeployment(n) => WellFormed(spec) && view.client && n == spec.deployment != ""
                                        && PodKey(spec.namespace, n) !in view.deployments
            case BeingProcessed(n) => WellFormed(spec) && AllExist(spec, view) && n in NamedPods(spec)
                                      && n in processing
  {
    assert spec.podName != "" ==> spec.podName in NamedPods(spec);
    assert forall n :: n in spec.specify ==> n in NamedPods(spec);
    assert forall n :: n in NamedPods(spec) ==> (n != "" && n == spec.podName) || n in spec.specify;
    if spec.specify != [] { assert spec.specify[0] in spec.specify; }
  }

  /** Without a client, the webhook reports that for a pod name, panics for a deployment or a list, and
      admits what names nothing. */
  lemma WithoutClient(spec: MigrationSpec, view: ClusterView, processing: map<string, MigrationInfo>)
    requires WellFormed(spec) && !view.client
    ensures ValidateMigration(spec, view, processing) ==
              if spec.podName != "" then Failure(NoClient)
              else if spec.deployment != "" || spec.specify != [] then Failure(NilClientPanic)
              else Success(())
  {
    hide FirstMissing, FirstBusy;
    assert spec.specify == [] ==> FirstMissing(spec.specify, spec.namespace, view.pods).None?;
    assert spec.specify == [] ==> FirstBusy(spec.specify, processing).None?;
  }
}
