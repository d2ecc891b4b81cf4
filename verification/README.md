# Checkpoint migration operator: a verified model

The operator moves a running pod to another node by checkpointing it. A webhook admits a Migration
resource; the migration reconciler enters the pod into `ProcessPodsMap`, checkpoints its containers and
has the checkpoint built into an image and pushed to a registry; the registry's event handler puts a
message on `my-topic`; the deployer of the registry pod on the message's node claims the map entry,
creates the copy and announces it on `delete-pod`; the restore daemon then deletes the original. A node
monitor asks for such migrations when a node is overloaded.

This project models the code of that chain and proves what it guarantees, in every run with every
interleaving and every failure of an external call.

## How the project is built

* `Text`, `Names` - the string functions and the names that carry a migration from the kubelet to the daemon.
* `Migrations`, `Webhook`, `Selection`, `Reconciler` - admission, the three ways of selecting pods, and the
  effects of one reconcile.
* `Kafka` - partitions, cumulative commits and the consume loop, with an account of every offset.
* `Registry`, `Handoff`, `RestoreDaemon` - the event handler, the deployers, the daemon.
* `NodeMonitor`, `Evacuation`, `JobPolling` - who is sent where, where the copy of such a pod ends up, and the loop
  that waits for a job.
* `Protocol` - all parties together as a state machine (`Next`, `Run`); every choice of the outside world
  is a parameter of a step.
* `Refinement` - the methods that model the Go code are runs of that machine.
* `Trail`, `Conservation`, `Deliveries`, `Routing`, `SpecifyMode` - safety over all runs.
* `Stability`, `Schedule` - when an entry of the map is overwritten, read off the history and off the schedule.
* `Reachability`, `Completion`, `Lifeline`, `Lineage` - one migration as a run, and exactly when every
  container's lineage stays alive.
* `Freshness`, `Redelivery` - exactly when a copy is restored from an outdated checkpoint, and when the daemon
  acts on an announcement again.
* `Progress`, `Succession` - every fault-free run advances and can be completed, and so can any number of
  migrations one after another.

Code that changes state is a class or a loop proved against a specification function; the properties are
lemmas about those functions and about the machine. The main results are

* `Lineage.LineagesKeptIff` - exactly in which clusters every container's lineage always keeps a carrier;
* `Freshness.StaleIff` and `Freshness.AlwaysFreshIff` - exactly when the checkpoint that is restored is older than
  the request it is restored for, and which requests are safe from that;
* `Progress.FaultFreeRunsComplete` and `Succession.SafeForever` - completion of one and of many migrations;
* `Trail.OldPodDeletedOnlyAfterItsCopy`, `Conservation.EveryEntryAccounted`,
  `Deliveries.EveryCopyHasItsMessage`, `Routing.EveryCopyPullsItsImage` and
  `SpecifyMode.UnnamedPodNeverMoved` - safety in every run;
* `Stability.NothingOverwrittenIff`, `Schedule.StartOverwritesIff` and `Schedule.RaceIff` - when entries are
  destroyed in flight;
* `Kafka.PassedOverIff`, `Handoff.UnattemptedIff` and `Redelivery.RestoredAgainIff` - which messages are lost,
  dropped or acted on again.

## Assumptions

* Look-up and delete on `ProcessPodsMap` are one atomic step. The Go code has no lock.
* One migration reconcile runs at a time, which is the default of the controller runtime.
* A Kafka commit covers every lower offset of its partition; a reader that joins, or a rebalance, starts at
  the committed offset. A commit that is reported as failed may have taken effect.
* Pod and namespace names contain neither `_` nor `/` (host name syntax, section 2.1 of RFC 1123) where a
  statement says so; that is `Handoff.ValidName`. Only checkpoint images are pushed to the registries.
* The list of registry pods does not change. Routing results assume one registry per node with an IPv4
  address of its own (`Routing.RegistriesOk`), and, where an image reference is resolved, that node address and port
  tell the registries apart (`Registry.Pullable`); without that, the exact conditions are in `Registry`.
* The kubelet names a checkpoint file in the form that `practice/util/checkpoint_to_image_test.go:8` expects.
* No name has a length limit. The API server refuses pod names over 253 and namespaces over 63 characters, so
  that a pod whose name comes near that limit can in fact not be copied.
* The containers of a pod have different names, which the API server checks. A checkpoint holds the memory of
  one container, and an image name holds what was pushed under it last. A memory has no version of its own: which
  checkpoint of it an image holds is told by the number of the build job that pushed it.
* Rates of the node monitor are real numbers.

## What turned out to be false

* A copy can be restored from a checkpoint that was taken before its migration was even asked for, so that all
  that the pod has done since is lost with the source. It happens in every cluster in which a migration is
  possible: a first attempt fails after its claim, and its event is delivered again when the second attempt has
  started (`Freshness.StaleRestore`). `Freshness.StaleIff` says exactly when a copy is stale, and
  `Freshness.AlwaysFreshIff` exactly which requests nothing that follows can make stale: those before which no
  checkpoint of the pod's name has been taken.
* A lineage can end altogether, and `Lineage.LineagesKeptIff` shows that there are exactly two ways. First, the
  checkpoints of all containers of a pod are pushed under one image name, the copy has one container, and the pod is
  then deleted with the memories of the others; nothing has to fail for that (`Lineage.MultiContainerIsLost`). Second,
  pod-name mode lists all namespaces and keys the map by the bare name, so with two pods of one name, or of one
  lineage of names such as `x` and `checkpoint-x`, the operator can checkpoint one and delete the other
  (`Lineage.TwinIsLost`, `Lineage.SharedLineageIsFatal`).
* The reconciler passes the destination namespace where `ReturnRegistryIP` expects a node name, while the
  documentation says that the image is pushed to the destination node. `Registry.PushReachesDestinationIff`
  says when it is, and `Registry.PushMissesDestination` gives two registries where it is not. The hand-off works
  all the same (`Routing.EveryCopyPullsItsImage`), because the deployer of the registry that got the image is the
  one that hears of it.
* Migrations that list their pods never get beyond the push: only the empty name enters the map
  (`SpecifyMode.SpecifiedPodsNeverMoved`); in mixed runs, a pod is moved only if some spec names it or a
  deployment's listing contains it (`SpecifyMode.UnnamedPodNeverMoved`).
* An entry can be overwritten in flight (`Stability.RaceOverwrites`): in any mode exactly when its key is filled
  twice without a claim in between (`Schedule.OverwrittenIff`); by the start of a reconcile exactly when the entry
  it destroys was filled after its spec had been admitted (`Schedule.StartOverwritesIff`); and, where each spec
  names a pod and is started once, exactly when two specs for the pod are admitted before the first of them is
  started (`Schedule.RaceIff`). Failed fetches fill the empty name, which two of them suffice to overwrite
  (`Schedule.NamelessOverwrittenIff`).
* The requests of the node monitor overwrite each other in the one resource `migration-sample`: a reconcile finds
  only the last that was accepted before it looks (`NodeMonitor.RequestLeftIff`).
* A reader for another node can commit past a message, and exactly which messages can be lost that way is
  `Kafka.PassedOverIff`.
* A consume call that ends in an error, and a deployment that fails, drop the rest of the batch after it has been
  committed. Exactly which messages get no attempt is `Handoff.UnattemptedIff`; when a call ends in a commit error is
  `Kafka.CommitFailsIff`. A message that is delivered twice can do that to the next one (`Handoff.LeftoverDropsBatch`).
* A deployer that fails after its claim loses the entry, exactly in the cases of `Handoff.EntryLostIff`; where the
  copy's name is taken, nothing can save it (`Handoff.TakenNameLosesEntry`). A copy stays beside its source
  exactly when it cannot be announced (`Handoff.CopyBesideSourceIff`).
* The restore daemon ignores the result of its commit, and so acts on the announcement at an offset again for as
  long as no commit takes effect (`RestoreDaemon.FetchedAgainIff` for the rounds of its loop,
  `Redelivery.RestoredAgainIff` for runs of the whole system); a pod of the old name that has been created in the
  meantime is then deleted, too (`RestoreDaemon.DeletesAgainIff`).
* The two decoders of the old name are different functions (`Names.DecodersAgree`); on every message of
  `delete-pod` they agree (`Trail.EveryDeleteMessageDecodes`).
* An IPv6 address is cut at its first colon, and the message is then not for its node
  (`Registry.EventNamesItsNodeIff`).
* `getTopFivePodsByCPU` neither sorts nor truncates: it is right exactly when at most five pods have metrics and
  are listed by descending usage (`NodeMonitor.CPUListIsTopFiveIff`, `NodeMonitor.CPUListFails`). And an overloaded
  node can be told to send its pods to itself, exactly when no node is better off and it was the last target
  (`NodeMonitor.LeastLoaded`); `NodeMonitor.SendsToItself` is such a case.

## Model

| member | source | states |
|---|---|---|
| Names.ImageNameOf | practice/util/checkpoint_to_image.go:7-18 | the image name of any pod's checkpoint, also of a name with an underscore, whatever namespace, container and time |
| Names.ImageOfPath | practice/util/checkpoint_to_image_test.go:8 | the same for a path that is written out |
| Names.NamingRoundTrip | practice/util/checkpoint_to_image.go:7-18 | both decoders give back the pod's name exactly when it has no underscore |
| Names.ImageNameIdentifiesPod | practice/util/checkpoint_to_image.go:7-18 | two checkpoints have one image name exactly when the pod names are equal, so the namespace is forgotten |
| Names.DecodersAgree | practice/handlers/restore/cmd/main.go:27 | TrimPrefix of the deployer and the cut at the first hyphen agree exactly on names that start with checkpoint- or have no hyphen |
| Names.DecodePrefixed | practice/handlers/deploy-new-pod.go:100 | both decoders undo the prefix on every name |
| Names.DecodeValue | practice/handlers/restore/kafka/consumer.go:50-52 | the two slices are in range exactly when there is a slash, and put together they give the value back |
| Names.ValueRoundTrip | practice/handlers/kafka.go:166-169 | an encoded value never makes the daemon panic, and is decoded exactly if and only if the namespace has no slash |
| Names.RootAndDepthIdentify | practice/handlers/deploy-new-pod.go:96-100 | a name is determined by the name it started from and the number of its migrations |
| Migrations.ProcessPods.FillinGlobalVariables | practice/util/global.go:12-20 | the map changes at the pod's name only; the entry's own PodName stays empty |
| Migrations.ProcessPods.Claim | practice/handlers/deploy-new-pod.go:101-109 | an entry is handed out once: present gives the entry and removes it, absent changes nothing |
| Webhook.FirstMissing | practice/api/v1alpha1/migration_webhook.go:132-140 | finds the first listed pod that does not exist, if and only if there is one |
| Webhook.FirstBusy | practice/api/v1alpha1/migration_webhook.go:148-154 | finds the first listed pod that is being migrated, if and only if there is one |
| Webhook.AdmittedIff | practice/api/v1alpha1/migration_webhook.go:90-157 | the chain of checks admits a spec exactly when it names pods in at most one way, is complete, and everything named exists and is not in the map |
| Webhook.RejectionTells | practice/api/v1alpha1/migration_webhook.go:90-157 | every message of refusal is true of the spec; form is checked before existence, and existence before the map |
| Webhook.WithoutClient | practice/api/v1alpha1/migration_webhook.go:110-140 | without a client: an error for a pod name, a nil panic for a deployment or a list, admission of what names nothing |
| Selection.SpecifiedIsExact | practice/internal/controller/migration_controller.go:253-274 | the listed names in their order, one pod each, or an error exactly when one is missing |
| Selection.ByNameIsExact | practice/internal/controller/migration_controller.go:239-251 | the last match alone; the whole list when nothing matches |
| Selection.RightPodIff | practice/internal/controller/migration_controller.go:239-251 | the pod the spec addresses is selected for every listing exactly when no other namespace has a pod of that name |
| Selection.EmptyPrefixKeepsAll | practice/internal/controller/migration_controller.go:283-291 | the prefix filter of an admitted deployment spec keeps every pod in order |
| Selection.PrefixedIff | practice/internal/controller/migration_controller.go:283-291 | the prefix filter keeps a pod if and only if its name begins with the prefix |
| Selection.PrefixedInOrder | practice/internal/controller/migration_controller.go:283-291 | the filter works part by part, so it keeps order and number |
| Selection.SelectTells | practice/internal/controller/migration_controller.go:236-296 | which mode a spec is in, by its fields, and what each mode selects; only a listed name that is missing is an error |
| Selection.FillAllAdds | practice/internal/controller/migration_controller.go:283-286 | the fills of deployment mode: every listed name, with the spec's destination, and nothing else changes |
| Selection.AdmittedDeploymentSelectsAll | practice/internal/controller/migration_controller.go:276-292 | webhook and filter composed: every listed pod is selected and is in the map with the spec's destination and source |
| Reconciler.TargetsAre | practice/internal/controller/migration_controller.go:162-165 | where each container of each running pod stands among the targets: after those of all running pods listed before it, in their order; and how many there are |
| Reconciler.RunningOnly | practice/internal/controller/migration_controller.go:162-165 | exactly the containers of running pods are targets |
| Reconciler.TraceIsPrefix | practice/internal/controller/migration_controller.go:162-232 | attempted checkpoints are a prefix of the targets, all of them if the loops end |
| Reconciler.OnlyRunningCheckpointed | practice/internal/controller/migration_controller.go:162-232 | only listed, running pods are ever checkpointed, and where none runs nothing happens |
| Reconciler.OutcomeOfRunning | practice/internal/controller/migration_controller.go:73-114 | the same for a whole reconcile in every mode |
| Reconciler.AttemptTells | practice/internal/controller/migration_controller.go:166-229 | after which answers the loops go on, and after which they panic: an unreadable kubelet answer is passed over, a missing image id or checkpoint file panics, all else is an error |
| Reconciler.AttemptActs | practice/internal/controller/migration_controller.go:166-229 | which of image check and push an attempt makes, exactly when, for which image, from which node and to which registry |
| Reconciler.LastAttemptStops | practice/internal/controller/migration_controller.go:162-232 | leaving early is due to the last attempt |
| Reconciler.EndReachedIff | practice/internal/controller/migration_controller.go:162-232 | the loops end exactly when the answers to every attempt let them go on |
| Reconciler.OutcomeEndsIff | practice/internal/controller/migration_controller.go:73-114 | a reconcile ends well exactly if listing and selection succeed and every attempt's answers let it go on; without a selection it fails and does nothing |
| Reconciler.TracePushes | practice/internal/controller/migration_controller.go:175-229 | every push directly follows a successful checkpoint and image check of its own target and is followed by the clean-up of jobs exactly if it succeeds; a complete reconcile pushes exactly the readable checkpoints |
| Reconciler.MigrationReconciler.FilterPods | practice/internal/controller/migration_controller.go:236-296 | the result and the fills in all three modes and on a failed listing |
| Reconciler.MigrationReconciler.KeepByName | practice/internal/controller/migration_controller.go:246-251 | the list that is reassigned while its snapshot is ranged over |
| Reconciler.MigrationReconciler.KeepSpecified | practice/internal/controller/migration_controller.go:260-274 | the nested search of specify mode and its error |
| Reconciler.MigrationReconciler.KeepDeployment | practice/internal/controller/migration_controller.go:276-292 | every listed pod is filled, those with the prefix are kept |
| Reconciler.MigrationReconciler.CheckpointPods | practice/internal/controller/migration_controller.go:162-233 | the nested loops add exactly the trace of the targets and stop where it stops |
| Reconciler.MigrationReconciler.CheckpointContainers | practice/internal/controller/migration_controller.go:165-230 | the same for the containers of one pod |
| Reconciler.MigrationReconciler.Reconcile | practice/internal/controller/migration_controller.go:73-114 | dispatch: the map is filled before the fetch error is looked at, only specify mode reports a failure, only listed running pods are checkpointed, and a listing of none that runs leaves no trace |
| Kafka.StepAccounted | practice/handlers/kafka.go:34-71 | fetches, commits, rebalances and productions keep the account of a partition: one fitting fate per committed offset, returned offsets strictly increasing |
| Kafka.RunAccounted | practice/handlers/kafka.go:34-71 | ... over any sequence of them, and fates once decided stay |
| Kafka.OneKeyNothingPassedOver | practice/handlers/kafka.go:55-69 | in a partition with one node's messages only, none of them empty, nothing is ever passed over |
| Kafka.PassedOverIff | practice/handlers/kafka.go:55-69 | a message can be passed over by some sequence of readers exactly when it is not empty and a later one is empty or for another node |
| Kafka.SessionPassesOver | practice/handlers/kafka.go:34-71 | what an undisturbed reader does with each offset it has fetched |
| Kafka.FetchTells | practice/handlers/kafka.go:41-68 | by key and value: what is handed out, what is committed, when the call ends, and where the reader stands |
| Kafka.OpenTells | practice/handlers/kafka.go:21-26 | a reader that joins starts after the last commit of each partition it is given |
| Kafka.CloseTells | practice/handlers/kafka.go:27 | closing a reader frees its own partitions only |
| Kafka.Topic.ProduceMessage | practice/testwebhook/kafkaproducer/producer.go:11-43 | one partition grows by exactly the message, the others stay |
| Kafka.Topic.ConsumeMessage | practice/handlers/kafka.go:15-72 | the loop returns the messages of its polls in order, closes its reader, and reports the two kinds of error |
| Kafka.PollAllDelivers | practice/handlers/kafka.go:34-71 | the returned messages are the node's own and are, of every kind, as many as newly recorded returned offsets |
| Kafka.ReturnedInOrder | practice/handlers/kafka.go:34-71 | from a topic of one partition, a call returns the messages at the newly returned offsets in the order of the log |
| Kafka.ConsumeAccounted | practice/handlers/kafka.go:15-72 | the same for a whole call with joining and leaving |
| Kafka.CommitFailsIff | practice/handlers/kafka.go:55-69 | a call ends with a commit error exactly when some poll, after those before it, gets a non-empty message for this node whose commit is not acknowledged |
| Registry.ReturnRegistryIP | practice/handlers/registry.go:11-27 | the loop finds the first pod on the node, and otherwise the last one listed |
| Registry.GetNodeNameByHostIP | practice/testwebhook/util/nodeIP.go:10-25 | the loop finds the node of the first pod with the address, or reports that there is none |
| Registry.NodeByIPIsFirst | practice/testwebhook/util/nodeIP.go:13-24 | the first pod with the address decides |
| Registry.GetPodHostPort | practice/util/service.go:9-21 | the loop yields the node address and the port found |
| Registry.HostPortIs | practice/util/service.go:11-16 | that is the first port of the last container that has one |
| Registry.DecimalReads | practice/util/service.go:13 | the digits of a port, read back, are the port, without a leading zero |
| Registry.WebhookHandler | practice/testwebhook/main.go:51-91 | the loop treats the events one by one, in order |
| Registry.PublishIff | practice/testwebhook/main.go:60-86 | an event changes the topic exactly if it is a push of a manifest of either type, its address is that of a known pod with a node, and the broker is reached; it adds the one message of that node and image |
| Registry.HandlerAdds | practice/testwebhook/main.go:60-88 | a whole call adds to each partition exactly the messages of such events, in order, and nothing else |
| Registry.LookupsInverse | practice/testwebhook/util/nodeIP.go:13-24 | the two look-ups are inverse to each other on exactly the nodes with a registry |
| Registry.PushReachesDestinationIff | practice/internal/controller/migration_controller.go:206 | when the registry looked up by destination namespace is that of a given node |
| Registry.PushMissesDestination | practice/internal/controller/migration_controller.go:206 | the failing input: two registries and a namespace not called like the first node |
| Registry.EventNamesItsNodeIff | practice/testwebhook/main.go:68-73 | a push comes back as a message for its registry's node exactly when the address has no colon |
| Registry.ImageRouting | practice/handlers/registry.go:19-26 | exactly one deployer, that of the registry which got the push, is addressed by the message |
| Registry.PullReachesHostIff | practice/handlers/deploy-new-pod.go:112-118 | the image reference of the copy is cut back to the host and port of that registry |
| Registry.PulledReference | practice/handlers/deploy-new-pod.go:112-118 | the copy's image reference, taken apart: node address and registry port, the copy's own name as repository, latest as tag |
| Registry.PushedReference | practice/handlers/buildah.go:47-48 | the reference of the push, taken apart: port 5000 of the registry, the checkpoint's name, latest |
| Registry.PullFindsPush | practice/handlers/deploy-new-pod.go:112-118 | resolving the copy's reference leads to the registry pushed to, and both references have one repository and tag |
| Handoff.Cluster.CheckDestinationNameSpaceExists | practice/handlers/deploy-new-pod.go:180-201 | the namespace exists afterwards, or nothing has changed and the call failed |
| Handoff.Cluster.CreateNewPod | practice/handlers/deploy-new-pod.go:76-86 | creates the pod or fails without effect |
| Handoff.DeleteTopic.ProduceMessageToDifferentTopics | practice/handlers/kafka.go:153-183 | one log grows by the encoded announcement, or nothing changes |
| Handoff.DeployOne | practice/handlers/deploy-new-pod.go:94-177 | claim, namespace, copy and announcement for one message, with what is left behind at each error return |
| Handoff.DeployPodOnNewNode | practice/handlers/deploy-new-pod.go:88-179 | the batch is worked off in order up to the first failure; a failed consume drops it; how many messages were attempted |
| Handoff.EntryLostIff | practice/handlers/deploy-new-pod.go:101-137 | a claimed entry leaves the map in any case; no copy comes of it exactly when metrics or the namespace or the create call fail or the name of the copy is taken |
| Handoff.TakenNameLosesEntry | practice/handlers/deploy-new-pod.go:112-137 | the failing input: a taken name loses the entry whatever the calls answer, and the source is never told |
| Handoff.CopyBesideSourceIff | practice/handlers/deploy-new-pod.go:138-177 | a created copy is left beside its source exactly when it cannot be announced |
| Handoff.AttemptedIff | practice/handlers/deploy-new-pod.go:94-177 | a message of a batch is attempted exactly when none before it fails |
| Handoff.UnattemptedIff | practice/handlers/deploy-new-pod.go:88-179 | consume call and deployment composed: a message on record as returned is never attempted exactly when the commit of an own message was not acknowledged, the end came in the select, or for an earlier message of its batch the entry was missing, a call failed, the copy's name was taken or the announcement had nowhere to go |
| Handoff.LeftoverDropsBatch | practice/handlers/deploy-new-pod.go:105-108 | a message without an entry at the head of a batch: the next one is dropped and its entry stays |
| RestoreDaemon.Queue.ConsumeMessage | practice/handlers/restore/kafka/consumer.go:14-56 | gives the first message not yet committed, decoded, whether or not the commit works |
| RestoreDaemon.VictimTells | practice/handlers/restore/cmd/main.go:22-28 | which pod a message makes the daemon delete, letter by letter: none unless pod, namespace and node are given |
| RestoreDaemon.DeleteOldPod | practice/handlers/restore/handler/oldpod_deletion.go:10-32 | removes that one pod if both calls succeed; a missing pod and a failed delete count as done |
| RestoreDaemon.Serve | practice/handlers/restore/cmd/main.go:11-35 | any number of rounds of the loop delete exactly what their announcements name |
| RestoreDaemon.FetchedAgainIff | practice/handlers/restore/kafka/consumer.go:44 | in any sequence of rounds of the main loop, two of them get the message at the same offset exactly when no commit from the first to the second took effect |
| RestoreDaemon.ActsAsAnnounced | practice/handlers/restore/cmd/main.go:14-34 | a round that gets the message at an offset deletes the pod which that announcement names |
| RestoreDaemon.PanicStops | practice/handlers/restore/kafka/consumer.go:50-52 | a message without a slash ends the daemon: nothing more is read or deleted |
| RestoreDaemon.PanicsIff | practice/handlers/restore/kafka/consumer.go:50-52 | the daemon ends if and only if some round gets such a message |
| RestoreDaemon.DeletesAgainIff | practice/handlers/restore/cmd/main.go:11-35 | a pod created again under the deleted name is deleted by the next round exactly when the commit did not take effect or the next announcement names the same pod |
| Refinement.FetchedIsRun | practice/internal/controller/migration_controller.go:73-114 | everything a reconcile does to the map and to the build jobs is done by a run of the machine |
| Refinement.UnfetchedIsRun | practice/internal/controller/migration_controller.go:79-90 | ... and what it does when the resource cannot be fetched |
| Refinement.HandlerIsRun | practice/testwebhook/main.go:60-88 | the event handler's loop is a run of the machine |
| Refinement.ConsumeIsRun | practice/handlers/kafka.go:15-72 | a ConsumeMessage call, from joining to closing, is a run of the machine |
| Refinement.MessageIsRun | practice/handlers/deploy-new-pod.go:94-177 | the loop body of DeployPodOnNewNode, with any failures, is a run of the machine |
| Refinement.BatchIsRun | practice/handlers/deploy-new-pod.go:88-179 | so is the whole loop |
| Refinement.RoundIsRun | practice/handlers/restore/cmd/main.go:14-34 | so is a round of the restore daemon |
| Trail.NamesStep | practice/handlers/deploy-new-pod.go:94-170 | in every step, all names stay well formed and only checkpoint images travel |
| Trail.GroundedStep | practice/handlers/deploy-new-pod.go:94-170 | every entry, phase and announcement in flight has the past it should have |
| Trail.OldPodDeletedOnlyAfterItsCopy | practice/handlers/deploy-new-pod.go:94-170 | in every run, a deletion follows the fill, the claim and the copy, in that order, of one entry with exactly that name and source namespace |
| Trail.AnnouncementVictim | practice/handlers/restore/cmd/main.go:15-32 | the pod an announcement makes the daemon delete is the one whose entry was claimed and copied |
| Trail.EveryDeleteMessageDecodes | practice/handlers/restore/kafka/consumer.go:50-52 | every message ever on delete-pod is decoded without panic to the claimed key and the entry's source namespace, by both decoders |
| Conservation.EveryEntryAccounted | practice/handlers/deploy-new-pod.go:100-109 | in every run: fills are claims, overwrites and what is in the map; claims are copies, drops and what is in hand; copies are announced, unannounced or about to be |
| Conservation.CopiesNeverExceedFills | practice/handlers/deploy-new-pod.go:100-109 | no pod is announced, copied or claimed more often than it was filled |
| Deliveries.EveryPartitionAccounted | practice/handlers/kafka.go:34-71 | in every run, with any number of deployers, every partition keeps its account and nothing recorded is taken back |
| Deliveries.EveryCopyHasItsMessage | practice/internal/controller/daemonset_controller.go:71-83 | concurrent deployers make no more copies for a pod than offsets about it were returned, each returned once |
| Redelivery.RestoredAgainIff | practice/handlers/restore/kafka/consumer.go:44 | in every run, two rounds of the daemon on one log act on the announcement at the same offset exactly when no commit took effect between them |
| Redelivery.RestoreDeletes | practice/handlers/restore/cmd/main.go:14-34 | what such a round does in a run: the pod named at its offset goes if both calls succeed, nothing else changes, and exactly that is on record |
| Stability.NothingOverwrittenIff | practice/util/global.go:12-20 | in runs of every mode, nothing is overwritten exactly when between any two fills of a key there is a claim of it |
| Stability.EntriesStable | practice/api/v1alpha1/migration_webhook.go:143-154 | pod-name mode with admission and reconcile as one step: nothing is overwritten between fill and claim, and each fill is claimed once or still there |
| Stability.RaceOverwrites | practice/api/v1alpha1/migration_webhook.go:143-147 | two specs for one pod admitted before the first reconcile: the second destroys the first's entry |
| Schedule.InMapIff | practice/util/global.go:12-20 | at any moment of any run, a key is in the map exactly when some step has filled it and none has claimed it since |
| Schedule.StartEnters | practice/util/global.go:12-20 | the entry that the start of a reconcile makes, field by field |
| Schedule.OverwrittenIff | practice/internal/controller/migration_controller.go:83 | in runs of every mode: an entry is overwritten exactly when its key is filled twice, by whatever steps, with no claim in between |
| Schedule.NamelessOverwrittenIff | practice/internal/controller/migration_controller.go:79-90 | the entry without a name, which failed fetches and specs without a pod name fill, is overwritten exactly when there are two such fills |
| Schedule.StartOverwritesIff | practice/api/v1alpha1/migration_webhook.go:143-147 | a first or repeated start of a reconcile destroys an entry exactly when that entry was filled, and not claimed since, after the spec had been admitted |
| Schedule.RaceIff | practice/api/v1alpha1/migration_webhook.go:143-147 | where every spec names a pod and is started at most once: an entry of p is overwritten exactly when two specs for p are both admitted before the first one starts, and both start with no claim of p in between |
| Routing.PublishBacked | practice/testwebhook/main.go:63-86 | the message of a push is for the node of the registry that holds the image |
| Routing.RoutedUpload | practice/testwebhook/main.go:63-66 | layers, pulls and other events that come before the image is complete leave every message backed |
| Routing.EveryCopyFindsItsImage | practice/handlers/deploy-new-pod.go:112-137 | in every run, the image reference of every copy names the registry of the node its message was keyed with, and an image of that name was pushed into that registry; how old it may be is Freshness.StaleIff |
| Routing.EveryCopyPullsItsImage | practice/handlers/deploy-new-pod.go:112-137 | in every run, the image reference of every copy, cut at its first slash and last colon, resolves to the registry on the node of its message, and there to the image of the copy's own name with tag latest, which has been pushed |
| Freshness.ImageIsLastPush | practice/handlers/buildah.go:16-60 | what a registry holds under a name is, in every run, the checkpoint of the job that was last run for it |
| Freshness.CopiesImage | practice/handlers/deploy-new-pod.go:112-137 | the copy for an entry goes to the namespace it was filled with and is restored from what the claiming deployer's registry holds under the pod's image name at that moment |
| Freshness.CopyRunsWhatItPulls | practice/handlers/deploy-new-pod.go:112-137 | the memory of the copy is that of the image its reference resolves to |
| Freshness.StaleIff | practice/handlers/deploy-new-pod.go:96-137 | in every run: the copy is restored from a checkpoint older than the entry it is made for exactly when the last job that pushed this image to this registry is one whose checkpoint was taken before the fill |
| Freshness.AlwaysFreshIff | practice/internal/controller/migration_controller.go:83 | whatever follows a fill, no copy for it is stale, if and only if no checkpoint of the pod's name had been taken before, or the destination namespace cannot exist |
| Freshness.StaleRestore | practice/handlers/deploy-new-pod.go:105-137 | the failing input, in every cluster ready for a migration: a second attempt whose entry is claimed for the first one's checkpoint, and whose source is then deleted |
| SpecifyMode.UnnamedPodNeverMoved | practice/internal/controller/migration_controller.go:91-100 | in every run, of specs of all kinds: a pod that no spec names and no deployment listing contains is never filled, claimed, copied, announced or deleted |
| SpecifyMode.SpecifiedPodsNeverMoved | practice/internal/controller/migration_controller.go:91-100 | in every run in which all specs list their pods, nothing is claimed, copied, announced or deleted |
| Lifeline.DeletionSparesLineages | practice/handlers/restore/handler/oldpod_deletion.go:10-32 | deleting the original of a copy with a live descendant ends no lineage |
| Lifeline.FaithfulStep | practice/handlers/deploy-new-pod.go:94-170 | in every step, each pod is of the one container its lineage began with, so are the jobs and images on their way, and whatever was announced has a live descendant |
| Lifeline.NoLineageLost | practice/handlers/deploy-new-pod.go:94-170 | in every run in which only the daemon deletes pods, every container keeps a pod that is or descends from it, if lineages are distinct and pods have one container; work done after the checkpoint is not counted |
| Lineage.UniqueLineagesSuffice | practice/handlers/deploy-new-pod.go:94-170 | the same, lineage by lineage and not counting what was done after the checkpoint, for a fresh cluster and all that the operator does |
| Lineage.TwinIsLost | practice/internal/controller/migration_controller.go:245-251 | two pods of one name: a migration that checkpoints one and deletes the other |
| Lineage.MultiContainerIsLost | practice/internal/controller/migration_controller.go:162-233 | a pod with several containers, alone of its lineage: a migration without any failure after which the memory of all but the last one pushed has no carrier |
| Lineage.SharedLineageIsFatal | practice/handlers/deploy-new-pod.go:99-101 | two pods of one lineage, at any depths: a run after which a memory has no carrier |
| Lineage.LineagesKeptIff | practice/handlers/deploy-new-pod.go:94-170 | every container's lineage keeps a carrier in all runs from a fresh cluster exactly when every pod has one container and no two pods share a lineage; work done after the checkpoint is not counted |
| Completion.Reconciled | practice/internal/controller/migration_controller.go:73-114 | from a quiet system, admission and reconcile leave the entry in the map and one build job for every container of the pod that was picked |
| Completion.Consumed | practice/handlers/kafka.go:34-71 | the deployer of the message's node takes the last message and commits exactly it |
| Completion.CopyReplacesSource | practice/handlers/deploy-new-pod.go:94-170 | from the message in hand to the running copy with the source gone |
| Completion.MigrationCompletes | practice/internal/controller/migration_controller.go:73-114 | the witness run that the negative results rest on, also for a wrong twin and for several containers: source gone, copy running in the right namespace and node with the memory that was pushed last, entry gone, messages consumed, all quiet again |
| Progress.StepAdvances | practice/internal/controller/migration_controller.go:73-114 | for a pod with one container: in every state on the way, each fault-free step keeps the stage invariant, and lowers the stage by one if it belongs to the protocol and by nothing otherwise |
| Progress.RunAdvances | practice/handlers/deploy-new-pod.go:94-170 | over every fault-free run, in any interleaving, the stage falls by exactly the number of its protocol steps |
| Progress.LastStageIsDone | practice/handlers/deploy-new-pod.go:94-170 | stage zero: source gone, copy running in its namespace and node with the checkpointed memory, no other pod changed, entry gone, one message through each topic and consumed, nobody busy |
| Progress.NeverStuck | practice/handlers/deploy-new-pod.go:94-170 | while the stage is positive, at most four fault-free steps lower it by one, whatever state the deployers are in |
| Progress.CanStillComplete | practice/handlers/deploy-new-pod.go:94-170 | from every state on the way, a fault-free run ends the migration, within four steps per stage |
| Progress.FaultFreeRunsComplete | practice/internal/controller/migration_controller.go:73-114 | every fault-free run has taken 15 protocol steps exactly when the migration is over, and can be carried on until it is |
| Succession.SafeIsSteady | practice/internal/controller/migration_controller.go:73-114 | in a cluster at rest with single containers and distinct lineages, every pod can be migrated to every sensible destination |
| Succession.DoneIsSafe | practice/handlers/deploy-new-pod.go:94-170 | a completed migration leaves such a cluster behind, with the copy in the place of the source |
| Succession.SafeForever | practice/handlers/deploy-new-pod.go:94-170 | so any number of fault-free migrations in turn keeps the cluster safe and exactly the memories that were in it |
| Succession.NextCompletes | practice/handlers/deploy-new-pod.go:94-170 | and after any number of them, a further one of any pod, however it has begun, can be completed |
| NodeMonitor.LeastLoaded | practice/internal/controller/nodemonitor_controller.go:139-145 | for every order of the search: the minimum is found; the target attains it, or is the previous one exactly when no node is better; it is the node itself exactly when it was so before |
| NodeMonitor.OrderIrrelevant | practice/internal/controller/nodemonitor_controller.go:179-184 | two orders lead to targets that are equally loaded |
| NodeMonitor.Collect | practice/internal/controller/nodemonitor_controller.go:274-295 | the loop over the pods |
| NodeMonitor.TotalIsSum | practice/internal/controller/nodemonitor_controller.go:284-289 | a pod's usage is the sum over its containers modulo int64, the plain sum as long as that is in range |
| NodeMonitor.TotalAppend | practice/internal/controller/nodemonitor_controller.go:284-289 | the order of the containers and how they are grouped do not matter |
| NodeMonitor.CollectedOne | practice/internal/controller/nodemonitor_controller.go:274-295 | a pod with metrics gives one usage, its sum; one without gives none |
| NodeMonitor.CollectedAppend | practice/internal/controller/nodemonitor_controller.go:274-295 | usages stand in list order |
| NodeMonitor.SortDescending | practice/internal/controller/nodemonitor_controller.go:297-300 | a descending permutation, no more |
| NodeMonitor.GetTopFivePodsByMemory | practice/internal/controller/nodemonitor_controller.go:265-309 | at most five of the measured pods, descending, and no pod left out whose containers use more together than those of one kept |
| NodeMonitor.TopFiveIsHeaviest | practice/internal/controller/nodemonitor_controller.go:265-309 | the same for any list that is a top five, told by plain sums |
| NodeMonitor.SortedUsagesAgree | practice/internal/controller/nodemonitor_controller.go:297-306 | whatever an unstable sort does with ties, all answers show the same usages |
| NodeMonitor.GetTopFivePodsByCPU | practice/internal/controller/nodemonitor_controller.go:310-342 | all pods with metrics, in list order, with their sums |
| NodeMonitor.CPUListIsTopFiveIff | practice/internal/controller/nodemonitor_controller.go:310-342 | that is a top five exactly when at most five of the pods handed in have metrics and those are listed by descending usage |
| NodeMonitor.CPUListFails | practice/internal/controller/nodemonitor_controller.go:310-342 | the failing inputs: two pods in the wrong order, and any six pods with metrics |
| NodeMonitor.EvacuationAdmittedIff | practice/handlers/cr-decoder.go:40-56 | a migration asked for by the monitor is admitted exactly when a target is known and the pod exists and is not on its way |
| NodeMonitor.EvacuationsAre | practice/internal/controller/nodemonitor_controller.go:150-163 | exactly the selected pods outside the eleven protected namespaces are asked for, each by name, from and to its own namespace, and to the target node |
| NodeMonitor.EvacuationsAppend | practice/internal/controller/nodemonitor_controller.go:150-163 | one request per such pod, in order |
| Evacuation.EvacuatedWithinItsNamespace | practice/handlers/cr-decoder.go:40-56 | in every run, the copy made for such a request is in the pod's own namespace, on the target, under the pod's prefixed name |
| NodeMonitor.RequestLeftIff | practice/handlers/cr-decoder.go:40-56 | of the requests written to the one resource, a fetch after n of them finds the k-th exactly when it was accepted and none of the later ones was |
| NodeMonitor.NodeMonitorReconciler.Reconcile | practice/internal/controller/nodemonitor_controller.go:93-209 | which maps, targets and requests result from each combination of answers, what the one resource holds in the end, and field by field that every request is for a measured pod within its own namespace; targets are always nodes that were measured |
| NodeMonitor.SendsToItself | practice/internal/controller/nodemonitor_controller.go:139-164 | the failing input: three reconciles after which every request for the pods of a node names that node |
| JobPolling.CheckJobStatus | practice/util/check_origin_image.go:121-155 | at most 32 polls; success exactly when one shows Succeeded == 1 and no earlier one decided; time out exactly when none of the 32 decides |
| JobPolling.PullCommand | practice/util/check_origin_image.go:24-39 | the command is the conjunction of one pull per image, written out for one and two, and the slice panics exactly when there is none |

## Left out

- Kubernetes, kubelet and Kafka clients: calls that succeed with a stated effect or fail; a nil client after a
  failed creation is modelled in the webhook only.
- Job and pod specs, resource limits (`int64(float64(x) * 0.2)`), TLS, YAML and JSON: data without behaviour here.
- Time: sleeps, ten-second contexts and requeue delays are replaced by an end that may come at any turn.
- `AliveCheck` is never called by the operator, so what is guaranteed is that a copy was created; that it runs is a step
  of the kubelet (`PodStarts`).
- `ConsumeMessageFromDifferentTopics`, `CheckPodStatus`, `validationwebhook`, `benchmark`, the demo producers and
  consumers, generated code and manager set-up are not part of this model.
- The pods and registry addresses that the deployment and registry look-ups return are taken from one state; the
  Get of the deployment is folded into its listing.
- Group coordination between the readers of `my-topic` is not modelled beyond assignment: any partition may be
  assigned to any open reader at any time.
- Progress.FaultFreeRunsComplete: is about pod-name mode and pods with one container, the others losing memory; no
  scheduler or fairness is modelled, so it says that every fault-free run can be carried on to its end, not that
  every schedule does so. A manifest event that is delivered twice is not fault-free: the second message can outlive the
  migration and drop the next one's batch (Handoff.LeftoverDropsBatch). Completion in deployment mode is not stated.
- Completion.MigrationCompletes: gives one run; that all fault-free runs complete is Progress.FaultFreeRunsComplete.
- Lineage.LineagesKeptIff: counts a memory as kept if some checkpoint of it lives on; how old that is, is the subject
  of Freshness.StaleIff.
- Routing.EveryCopyFindsItsImage: says that the image was pushed into that registry, not that a garbage collector
  has left it there.
- Refinement.FetchedIsRun: takes the pods to be left alone by others during that reconcile; the machine itself allows
  interference between any two steps. Histories, which exist for the statements only, are not compared.
- Stability.EntriesStable: gives one direction for atomic runs; the exact conditions are Stability.NothingOverwrittenIff
  and Schedule.RaceIff.
- NodeMonitor.NodeMonitorReconciler.Reconcile: NaN and infinite rates, which a node without allocatable CPU would have,
  are not modelled. That the one resource holds only its last request is not carried into the state machine, where
  every admitted spec stays.
