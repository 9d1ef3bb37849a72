# RabbitMQ cluster operator, verified model

This project models the RabbitMQ cluster operator under
`deployment/cloud/k8/data-services/rabbitmq/install_commericial/cluster-operator/` in Dafny and
proves what its reconcile loop keeps over all histories.

## How it is put together

`Worlds` is the versioned object store: the cluster, its StatefulSet, claims, two ConfigMaps,
pods, secrets and endpoints, plus the clock. `Between` is everything others may do while no run is
active: edit, annotate, delete and recreate the cluster, move readiness and revisions, annotate or
delete children, create and resize claims. `Rely` is what they may do between two calls of one
run, which is the same except that nobody else creates or resizes claims then. A deleted
StatefulSet may go at once or stay, terminating, until its finalizers are done.

`Api.ApiServer` is the server as the operator's client sees it. Every call lets others act and may
then fail: refused, lost, or done with its answer lost. A run that stops after some call (crash,
error, conflict, requeue) is a run whose later calls fail, so what holds after every run holds
wherever a run may stop. Every write is recorded in a ghost log together with the stores before
and after it and with what the run had read and executed by then. A command is recorded with the
revision of the store at which it succeeded. A second ghost field, `heard`, counts every answer
the operator was given: an error of a method is tied to the answers, or to the object read, that
it rests on (`Api.Given`, `Controller.Explained`).

`Steps.SafeStep` states what is promised of each write, for instance that a run reports a
generation only after every builder succeeded, and sets a marker only for a change of its own. The
operator's own code, in the form of the Go code, is in `Scaling`, `Configurations`,
`StatefulSets`, `Cli`, `Finalizer`, `Reconciler` and `Controller`. Each of its methods keeps
`Runs.Good`: the log is linked by `Between`, and all of its steps are safe. `Traces` turns that
into statements about whole histories, and `Controller.Operate` shows that any number of runs makes
such a history.

`Conditions`, `Ports`, `PodTemplate`, `Plugins`, `Annotations`, `Names` and `Timestamps` are the
algorithms the loop rests on, each proved against a specification of its own. The bottom of the
stamp comparison is `Text`: decimal digits and string order. `Witnesses` holds concrete histories
in which the code does less than its comments say; each of their writes is of the form the
operator's methods promise of theirs (`TextWritten`, `CreatedFrom`, `RestartWritten`).

What is assumed of others, besides what an API server guarantees (versions, generations and UIDs
are fresh): one worker per cluster; a clock that does not go backwards and keeps its offset;
nobody else writes the operator's markers on the children, the data of the two ConfigMaps or the
observed generation, deletes the ConfigMaps, takes this cluster's controller reference off one, or
takes the deletion label off a pod; the cluster's own annotations do not carry the three markers
that belong on its children, and its Vault annotations do not carry the restart stamp
(`StatefulSets.RebuildKeepsStamps` shows these two to be exactly what is needed). Except for
deletion runs (`Controller.OperateDeletions`), nobody else creates the StatefulSet or edits its
replicas, claim template and the two stamps (`exclusive`).

## Where the code does less than its comments say

* `sortEnvVar` does not always bring its three names to the front. `PodTemplate.SortEnvVarWorksIff`
  gives the exact condition, `PodTemplate.SortEnvVarCanFail` an input that fails.
* A conflict while filling in defaults is swallowed, because the callers return only on an error.
  The run goes on with a stale version (`Witnesses.RunCanGoOnPastConflict`), and for the rest of it
  no write of the cluster or its status succeeds any more, the final one included
  (`Traces.NoClusterWriteAfterConflict`).
* A run that stops between writing a ConfigMap and annotating it loses the marker, because the next
  run finds the text unchanged; so does one that stops between creating the StatefulSet and
  annotating it, whose feature flags then stay as they are. The concrete steps are in `Witnesses`.
  A marker is left exactly when the run that makes the change reaches the annotation
  (`Controller.BuildConfig`, `Controller.ApplyStatefulSet`), and one missed stays missed until the
  next such change (`Traces.LostMarkerStaysLost`). For the server configuration this means that a
  new text need never reach the running nodes: with a restart stamp later than the older marker no
  later run restarts them (`Traces.LostConfChangeIsNeverRestarted`, `Witnesses.RestartCanBeLost`).
  No-loss is proved from the marker on.
* A restart in the very second of its marker is repeated by a later run, because the
  comparison of the stamps is strict (`Witnesses.RestartCanRepeat`). That second is the only one in
  which this can happen: a restart by a run that began later is the last one for its marker
  (`Traces.RestartByALaterRunIsTheLast`, `Traces.RestartAgainOnlyInTheSameSecond`).
* The secret's ports and the service's ports agree only under `Ports.SecretReachableIff`;
  `Ports.SecretCanMislead` is a specification for which they do not.
* Pods are listed by name label without a namespace; the pods of `Worlds.World` are therefore those
  of all namespaces.

## Model

| member | source | states |
|---|---|---|
| Traces.PluginWorkIsNeverLost | deployment/cloud/k8/data-services/rabbitmq/install_commericial/cluster-operator/controllers/reconcile_cli.go:29-103 | from any step that leaves a plugin marker, in every later state of every history the marker is still there, or a later step took it away after the list stored in the ConfigMap had been set on every pod by commands that all succeeded once the ConfigMap had that version |
| Traces.FeatureFlagsAreNeverForgotten | deployment/cloud/k8/data-services/rabbitmq/install_commericial/cluster-operator/controllers/reconcile_cli.go:51-81 | while a StatefulSet lives, its creation marker stays until the feature-flag command has succeeded after the version the marker was seen in |
| Traces.NoRestartOnceSettled | deployment/cloud/k8/data-services/rabbitmq/install_commericial/cluster-operator/controllers/reconcile_rabbitmq_configurations.go:100-114 | a restart stamp later than the configuration marker is never replaced while the marker and the StatefulSet stay the same, rebuilds by the StatefulSet builder included |
| Traces.RestartAgainOnlyInTheSameSecond | deployment/cloud/k8/data-services/rabbitmq/install_commericial/cluster-operator/controllers/reconcile_rabbitmq_configurations.go:81-129 | a restart for a marker is the last one for it, unless its stamp is the very text of the marker and its run began no later than that text says |
| Traces.RestartByALaterRunIsTheLast | deployment/cloud/k8/data-services/rabbitmq/install_commericial/cluster-operator/controllers/reconcile_rabbitmq_configurations.go:81-129 | a restart made by a run that began later than the configuration marker says is the last one for that marker while the StatefulSet stays, over every later run |
| Traces.ClaimsNeverShrink | deployment/cloud/k8/data-services/rabbitmq/install_commericial/cluster-operator/internal/scaling/scaling.go:32-192 | from any moment of any history since which nobody else has created or shrunk a claim, such as right after its creation, it never gets smaller, with stops anywhere, any specification edits, and the StatefulSet gone or not |
| Traces.ResizeMakesProgress | deployment/cloud/k8/data-services/rabbitmq/install_commericial/cluster-operator/internal/scaling/scaling.go:170-192 | a claim write happens only while there is no StatefulSet, not even a terminating one, and leaves exactly one claim less below the desired size |
| Traces.NoScaleDownEver | deployment/cloud/k8/data-services/rabbitmq/install_commericial/cluster-operator/controllers/rabbitmqcluster_controller.go:183-199 | the replicas of a living StatefulSet never go down through the operator, in any history |
| Traces.TemplateNeverShrinks | deployment/cloud/k8/data-services/rabbitmq/install_commericial/cluster-operator/internal/scaling/scaling.go:49-54 | while a StatefulSet lives, the operator never lowers the storage its claim template asks for, nor adds or removes the template, in any history |
| Traces.CreatedStatefulSetIsOwned | deployment/cloud/k8/data-services/rabbitmq/install_commericial/cluster-operator/internal/resource/statefulset.go:95-136 | a StatefulSet the operator creates has the replicas, storage and memory of the specification, and for as long as it lives it is under the controller reference of the cluster it was created for |
| Traces.UserDataIsKept | deployment/cloud/k8/data-services/rabbitmq/install_commericial/cluster-operator/controllers/reconcile_operator_defaults.go:16-44 | over any history in which nobody else edits the cluster, everything users wrote stays: only an empty image, pull-secret list or updater image is filled in, and of the annotations only the rebalance marker moves |
| Traces.StatefulSetWritesFit | deployment/cloud/k8/data-services/rabbitmq/install_commericial/cluster-operator/controllers/rabbitmqcluster_controller.go:166-217 | whenever the operator creates or updates the StatefulSet, every existing claim of its pods already has the written template capacity, and there are at least as many replicas as the run found at its scale-down check |
| Traces.RebalanceIsNotForgotten | deployment/cloud/k8/data-services/rabbitmq/install_commericial/cluster-operator/controllers/reconcile_cli.go:105-117 | the operator takes a rebalance marker away only after the command succeeded on the version of the cluster that carried it |
| Traces.ObservedGenerationIsEarned | deployment/cloud/k8/data-services/rabbitmq/install_commericial/cluster-operator/controllers/rabbitmqcluster_controller.go:219-243 | whatever observed generation a cluster shows was there from the start or was reported by a step whose stored specification was that of the generation, whose builders had all succeeded, whose children had converged with no marker left and the StatefulSet under this cluster's reference, whose status showed success and the names to use, whose Service and container ports agree, and whose run had rebalanced if it found an update in progress that matters and had read the StatefulSet fully ready on one revision; if it equals the generation, that specification is the present one |
| Traces.GoneForGood | deployment/cloud/k8/data-services/rabbitmq/install_commericial/cluster-operator/controllers/reconcile_finalizer.go:58-63 | a StatefulSet that is gone never returns under its UID, whatever others recreate under its name |
| Traces.DeletionIsGuarded | deployment/cloud/k8/data-services/rabbitmq/install_commericial/cluster-operator/controllers/reconcile_finalizer.go:41-103 | with others deleting and recreating at will, a deletion run removes only an object it read under this cluster's controller reference, never one created after that object had gone, and every pod it listed was labelled or gone before |
| Traces.FinalizerIsGuarded | deployment/cloud/k8/data-services/rabbitmq/install_commericial/cluster-operator/controllers/reconcile_finalizer.go:41-78 | the operator takes the finalizer off only a cluster being deleted, in a run that has looked for its StatefulSet |
| Traces.LostMarkerStaysLost | deployment/cloud/k8/data-services/rabbitmq/install_commericial/cluster-operator/controllers/rabbitmqcluster_controller.go:200-216 | take any change of a ConfigMap's text or creation of the StatefulSet, an older marker stored or not, whose run stops before it marks: as long as no such change is made again, no marker is ever set that was not there before, and the configuration marker stays exactly as it was |
| Traces.LostConfChangeIsNeverRestarted | deployment/cloud/k8/data-services/rabbitmq/install_commericial/cluster-operator/controllers/reconcile_rabbitmq_configurations.go:81-129 | if the restart stamp is later than the stored marker when a run writes a new server configuration and stops before marking, no later run restarts the StatefulSet until the configuration changes again |
| Traces.ChildrenAreWrittenByBuildingRuns | deployment/cloud/k8/data-services/rabbitmq/install_commericial/cluster-operator/controllers/rabbitmqcluster_controller.go:101-140 | whatever changes a ConfigMap, a claim or writes the StatefulSet is a step of a run on a cluster neither being deleted nor paused and whose TLS settings pass the gate; pods are labelled and StatefulSets deleted by UID only by runs on a cluster being deleted |
| Traces.DeletionHasACause | deployment/cloud/k8/data-services/rabbitmq/install_commericial/cluster-operator/internal/scaling/scaling.go:56-168 | when the operator makes a StatefulSet go, or start to, either the cluster is being deleted and the object is the one read under its controller reference, or the run has read a claim of one of the wanted pods smaller than the storage wanted |
| Traces.ExclusiveIsSpecial | deployment/cloud/k8/data-services/rabbitmq/install_commericial/cluster-operator/controllers/reconcile_finalizer.go:41-103 | a history of `Controller.Operate` is one of the histories `GoneForGood` and `DeletionIsGuarded` speak about |
| Traces.NoClusterWriteAfterConflict | deployment/cloud/k8/data-services/rabbitmq/install_commericial/cluster-operator/controllers/reconcile_operator_defaults.go:48-60 | after a conflict, be it swallowed, the rest of the run writes neither the cluster nor its status |
| Witnesses.RunCanGoOnPastConflict | deployment/cloud/k8/data-services/rabbitmq/install_commericial/cluster-operator/controllers/reconcile_operator_defaults.go:16-44 | for any two plugin lists that differ: a history in which a run, after a conflict, carries an image nobody has stored and still replaces the one list by the other, as the builder writes it |
| Witnesses.PluginsMarkerCanBeLost | deployment/cloud/k8/data-services/rabbitmq/install_commericial/cluster-operator/controllers/rabbitmqcluster_controller.go:200-216 | for any two plugin lists that differ: a step that replaces the one by the other, as the builder writes it, and leaves no marker |
| Witnesses.RestartCanBeLost | deployment/cloud/k8/data-services/rabbitmq/install_commericial/cluster-operator/controllers/reconcile_rabbitmq_configurations.go:81-129 | for any two server configurations that differ: a step that replaces the one by the other, as the builder writes it, while the restart stamp is later than the stored marker, so that `LostConfChangeIsNeverRestarted` applies |
| Witnesses.CreationMarkerCanBeLost | deployment/cloud/k8/data-services/rabbitmq/install_commericial/cluster-operator/controllers/rabbitmqcluster_controller.go:200-216 | a step that creates the very StatefulSet the builder makes, claim template included, and leaves no creation marker |
| Witnesses.RestartCanRepeat | deployment/cloud/k8/data-services/rabbitmq/install_commericial/cluster-operator/controllers/reconcile_rabbitmq_configurations.go:100-129 | a history of two runs that each restart the same StatefulSet for one marker, with the clock as the stamp: the first in the very second of the marker, the second a second later |
| Controller.OperateDeletions | deployment/cloud/k8/data-services/rabbitmq/install_commericial/cluster-operator/controllers/reconcile_finalizer.go:41-103 | any number of deletion runs make a history of safe steps, with nobody else held back from recreating the StatefulSet |
| Controller.Reconcile | deployment/cloud/k8/data-services/rabbitmq/install_commericial/cluster-operator/controllers/rabbitmqcluster_controller.go:89-243 | a whole run, stopped at any call, only adds safe steps to the history. It finishes without error or requeue only if there is no cluster, if the finalizer has been taken off one being deleted, if the status says that reconciliation is paused, that the TLS settings are refused or that a scale-down is, or if every builder succeeded, the children match the specification, no marker is left, the queues were rebalanced where an update called for it, the StatefulSet was fully ready and the status says so. It asks for another run in two seconds only after a conflict in its status write or, with everything built, with a plugin marker under two seconds old; in ten only with everything built and the server ConfigMap or the StatefulSet gone; in fifteen only with everything built and the StatefulSet read not ready. It fails only with a refusal, lost call, failed command, conflict or missing object it was answered with, or over a StatefulSet of another owner, one that vanished or would not go, a refused expansion, an unreadable marker or an incomplete TLS secret, each as read in this run. For a paused cluster nothing but the status is written |
| Controller.ReconcileLive | deployment/cloud/k8/data-services/rabbitmq/install_commericial/cluster-operator/controllers/rabbitmqcluster_controller.go:120-243 | the same for the part of a run on a cluster neither being deleted nor paused |
| Controller.Complete | deployment/cloud/k8/data-services/rabbitmq/install_commericial/cluster-operator/controllers/rabbitmqcluster_controller.go:219-243 | the same for the part after the builders: restart, status, commands, report |
| Controller.Operate | deployment/cloud/k8/data-services/rabbitmq/install_commericial/cluster-operator/controllers/rabbitmqcluster_controller.go:89-243 | any number of runs with anything in between make a history to which the theorems of `Traces` apply |
| Controller.BuildChildren | deployment/cloud/k8/data-services/rabbitmq/install_commericial/cluster-operator/controllers/rabbitmqcluster_controller.go:157-217 | when no builder stops the run, every builder has succeeded, and the texts of both ConfigMaps, the replicas and template storage of the StatefulSet and the claims are those of the specification at once, whatever others did meanwhile |
| Controller.EveryBuilderIsListed | deployment/cloud/k8/data-services/rabbitmq/install_commericial/cluster-operator/internal/resource/rabbitmq_resource_builder.go:29-48 | every builder has its turn, but that of the default-user Secret with a Vault backend for the default user |
| Controller.StatefulSetIsBuiltLast | deployment/cloud/k8/data-services/rabbitmq/install_commericial/cluster-operator/internal/resource/rabbitmq_resource_builder.go:29-48 | the StatefulSet has its turn once, after all others |
| Controller.BuildConfig | deployment/cloud/k8/data-services/rabbitmq/install_commericial/cluster-operator/controllers/rabbitmqcluster_controller.go:200-216 | getting past a ConfigMap builder leaves the desired text, and a marker exactly when the text stored before was a different one; a run that stops here without the text applied has told the failure in the status, and one that stops for a conflict has met five |
| Controller.CheckScaleDown | deployment/cloud/k8/data-services/rabbitmq/install_commericial/cluster-operator/controllers/rabbitmqcluster_controller.go:176-191 | with a StatefulSet present the run goes on only if it does not want fewer replicas, and a run that ends here for that has said so in the status; absent, the check is skipped |
| Controller.ReconcilePVC | deployment/cloud/k8/data-services/rabbitmq/install_commericial/cluster-operator/controllers/reconcile_persistence.go:15-34 | going on means that no claim of a wanted pod is smaller than the wanted storage and that a StatefulSet there asks for no more than is wanted; a stop is shown in the status as ReconcileSuccess False, with its reason and on top of the conditions there were |
| Controller.ApplyStatefulSet | deployment/cloud/k8/data-services/rabbitmq/install_commericial/cluster-operator/controllers/rabbitmqcluster_controller.go:200-216 | going on means that at some moment of this call the builder had nothing left to apply to the StatefulSet, that its replicas and template storage and the claims still fit, and that a StatefulSet created here carries its creation marker; a run that stops here without having applied it has told the failure in the status |
| Controller.CommandStage | deployment/cloud/k8/data-services/rabbitmq/install_commericial/cluster-operator/controllers/rabbitmqcluster_controller.go:227-234 | going on means that every marker was worked off and the run is complete; a failed command is shown in the status as ReconcileSuccess False with its reason; another run is asked for only as the gate demands |
| Controller.Prepare | deployment/cloud/k8/data-services/rabbitmq/install_commericial/cluster-operator/controllers/rabbitmqcluster_controller.go:120-149 | the stages before the builders are left only with the gate passed, the finalizer on the object the run goes on with, four conditions in order, and the rebalance marker set if the StatefulSet read is in an update that matters; they finish the run only with the TLS settings refused and the status saying so, and put it off only for a conflict in the status write |
| Controller.Report | deployment/cloud/k8/data-services/rabbitmq/install_commericial/cluster-operator/controllers/rabbitmqcluster_controller.go:235-238 | the status write reports the generation and success only over converged children; with a stale version nothing is written |
| Controller.ReportStepSafe | deployment/cloud/k8/data-services/rabbitmq/install_commericial/cluster-operator/controllers/rabbitmqcluster_controller.go:235-238 | the last status write is sound: same specification, same generation, converged children |
| Runs.StaleStays | deployment/cloud/k8/data-services/rabbitmq/install_commericial/cluster-operator/controllers/reconcile_operator_defaults.go:48-60 | a version once stale is stale for good, whatever is written meanwhile |
| Runs.UpdateCluster | deployment/cloud/k8/data-services/rabbitmq/install_commericial/cluster-operator/controllers/reconcile_operator_defaults.go:48-60 | a write of the cluster is safe, disturbs nothing else a run relies on, and fails without a write when the version is stale |
| Runs.UpdateStatus | deployment/cloud/k8/data-services/rabbitmq/install_commericial/cluster-operator/controllers/rabbitmqcluster_controller.go:327-334 | the same for the status subresource |
| Runs.SetReconcileSuccess | deployment/cloud/k8/data-services/rabbitmq/install_commericial/cluster-operator/controllers/rabbitmqcluster_controller.go:327-334 | sets exactly the success condition; a failing status write is swallowed and cannot touch the observed generation |
| Scaling.Scale | deployment/cloud/k8/data-services/rabbitmq/install_commericial/cluster-operator/internal/scaling/scaling.go:32-74 | wherever it stops no claim has shrunk and the claims still too small have not grown in number; done means that none is left and that a StatefulSet there asks for no more storage than is desired and, if it asks for none, that none is desired; an error is such a StatefulSet as it was read, an answer of the server, or a StatefulSet still there after ten looks; a refused or unneeded expansion writes nothing; anything written means the StatefulSet is gone or terminating |
| Scaling.BelowNeverGrows | deployment/cloud/k8/data-services/rabbitmq/install_commericial/cluster-operator/internal/scaling/scaling.go:56-73 | the set of claims below the desired size is a measure no stopped expansion increases |
| Scaling.GetClusterPVCs | deployment/cloud/k8/data-services/rabbitmq/install_commericial/cluster-operator/internal/scaling/scaling.go:76-98 | exactly the existing claims of the first replicas, each with its stored request |
| Scaling.PvcsNeedingScaling | deployment/cloud/k8/data-services/rabbitmq/install_commericial/cluster-operator/internal/scaling/scaling.go:100-112 | exactly the claims below the desired size, in order |
| Scaling.CheckCapacity | deployment/cloud/k8/data-services/rabbitmq/install_commericial/cluster-operator/internal/scaling/scaling.go:35-54 | it goes on past a StatefulSet only if its template asks for no more than is desired and, with no template or one of zero, only if nothing is desired; a refusal names a StatefulSet read for which that does not hold |
| Scaling.DeleteSts | deployment/cloud/k8/data-services/rabbitmq/install_commericial/cluster-operator/internal/scaling/scaling.go:134-168 | success means that the wait has seen the StatefulSet gone; a deletion accepted with the object still there after ten looks is a failure; claims are left alone |
| Scaling.ScaleUpPVCs | deployment/cloud/k8/data-services/rabbitmq/install_commericial/cluster-operator/internal/scaling/scaling.go:170-192 | each listed claim that still exists ends at the desired size; others are untouched; there is no StatefulSet throughout |
| Configurations.CreateOrUpdateConfig | deployment/cloud/k8/data-services/rabbitmq/install_commericial/cluster-operator/controllers/rabbitmqcluster_controller.go:201-207 | creates, updates or leaves a ConfigMap, reports unchanged exactly when nothing was written, and writes only the desired text, with the cluster's annotations copied to a new ConfigMap and those of an existing one kept |
| Configurations.ApplyConfig | deployment/cloud/k8/data-services/rabbitmq/install_commericial/cluster-operator/controllers/rabbitmqcluster_controller.go:200-216 | the builder's turn: the text is applied first, and only an update that succeeded is then marked |
| Configurations.UpdateAnnotation | deployment/cloud/k8/data-services/rabbitmq/install_commericial/cluster-operator/controllers/utils.go:36-56 | success means the marker is there; the text is untouched; a new configuration marker is never older than the one it replaces |
| Configurations.AnnotateIfNeeded | deployment/cloud/k8/data-services/rabbitmq/install_commericial/cluster-operator/controllers/reconcile_rabbitmq_configurations.go:30-76 | only an update leaves a marker |
| Configurations.ConfigStepSafe | deployment/cloud/k8/data-services/rabbitmq/install_commericial/cluster-operator/controllers/reconcile_cli.go:87-103 | a ConfigMap write is safe if it keeps the pending plugin work and does not move the configuration marker back |
| StatefulSets.Update | deployment/cloud/k8/data-services/rabbitmq/install_commericial/cluster-operator/internal/resource/statefulset.go:95-136 | it fails exactly on a StatefulSet somebody else controls; otherwise the result is controlled by this cluster, has its replicas and its memory limit and request, asks for its storage wherever there is a claim template, and keeps UID, version and readiness |
| StatefulSets.RebuildOverlays | deployment/cloud/k8/data-services/rabbitmq/install_commericial/cluster-operator/internal/resource/statefulset.go:109-119 | key by key: annotations of the StatefulSet and of its pod template stay unless the cluster brings other values, and keys of Kubernetes are never brought along |
| StatefulSets.RebuildKeepsStamps | deployment/cloud/k8/data-services/rabbitmq/install_commericial/cluster-operator/internal/resource/statefulset.go:109-119 | a rebuild keeps the restart stamp and the creation marker exactly when the cluster brings no other value for them |
| StatefulSets.RebuildIsIdempotent | deployment/cloud/k8/data-services/rabbitmq/install_commericial/cluster-operator/internal/resource/statefulset.go:95-136 | a second rebuild changes nothing |
| StatefulSets.RebuiltIsMade | deployment/cloud/k8/data-services/rabbitmq/install_commericial/cluster-operator/internal/resource/statefulset.go:95-136 | the object that is created has the controller reference, the replicas, the storage and the memory of the cluster the run began with, and no creation marker |
| StatefulSets.CreateOrUpdateSts | deployment/cloud/k8/data-services/rabbitmq/install_commericial/cluster-operator/controllers/rabbitmqcluster_controller.go:201-207 | success leaves a StatefulSet to which the builder has nothing left to apply; reported as created exactly when this call created it |
| StatefulSets.AnnotateIfCreated | deployment/cloud/k8/data-services/rabbitmq/install_commericial/cluster-operator/controllers/reconcile_rabbitmq_configurations.go:55-76 | only a creation leaves the creation marker, and success means it is there |
| StatefulSets.StampNow | deployment/cloud/k8/data-services/rabbitmq/install_commericial/cluster-operator/controllers/reconcile_rabbitmq_configurations.go:117-125 | the write of a restart changes nothing but the stamp of the pod template, which becomes the time of that moment |
| StatefulSets.RestartStatefulSetIfNeeded | deployment/cloud/k8/data-services/rabbitmq/install_commericial/cluster-operator/controllers/reconcile_rabbitmq_configurations.go:81-129 | it restarts exactly when the stored stamp is not later than the stored marker, and success leaves a stamp at least as late as the marker |
| StatefulSets.StsStepSafe | deployment/cloud/k8/data-services/rabbitmq/install_commericial/cluster-operator/internal/scaling/scaling.go:56-73 | a StatefulSet write is safe if every existing claim of its pods already has the written template capacity |
| Cli.RunRabbitmqCLICommandsIfAnnotated | deployment/cloud/k8/data-services/rabbitmq/install_commericial/cluster-operator/controllers/reconcile_cli.go:18-66 | success means every marker read was worked off, the StatefulSet was fully ready on one revision, and the plugins ConfigMap, when looked at, carried no marker or one that parses to a time at least two seconds before the clock; two seconds are asked for only with a marker that parses to less than two seconds before it, fifteen only with a StatefulSet read not ready, and nothing was written then; an error is a failed command, an answer of the server, or a marker read that is no time |
| Cli.RunSetPluginsCommand | deployment/cloud/k8/data-services/rabbitmq/install_commericial/cluster-operator/controllers/reconcile_cli.go:87-103 | the marker goes, with the version read before the commands ran, only after the command succeeded on every pod |
| Cli.RunEnableFeatureFlagsCommand | deployment/cloud/k8/data-services/rabbitmq/install_commericial/cluster-operator/controllers/reconcile_cli.go:68-81 | the creation marker goes only after the command succeeded, and nothing else of the StatefulSet changes |
| Cli.RunQueueRebalanceCommand | deployment/cloud/k8/data-services/rabbitmq/install_commericial/cluster-operator/controllers/reconcile_cli.go:105-117 | the rebalance marker goes only after the command succeeded |
| Cli.OwnMarkerIsReadable | deployment/cloud/k8/data-services/rabbitmq/install_commericial/cluster-operator/controllers/reconcile_rabbitmq_configurations.go:131-141 | a marker the operator wrote always parses, and counts as recent for exactly two seconds |
| Finalizer.PrepareForDeletion | deployment/cloud/k8/data-services/rabbitmq/install_commericial/cluster-operator/controllers/reconcile_finalizer.go:41-78 | success means the last write of the run took the finalizer off, after the StatefulSet had been looked for; without a finalizer nothing is written |
| Finalizer.DeleteAndRelease | deployment/cloud/k8/data-services/rabbitmq/install_commericial/cluster-operator/controllers/reconcile_finalizer.go:41-78 | the finalizer goes only after up to five attempts at deleting the StatefulSet; the last one left it gone or terminating, or failed for the server, a pod, or a StatefulSet read under another reference; it goes after a failure too |
| Finalizer.AddRabbitmqDeletionLabel | deployment/cloud/k8/data-services/rabbitmq/install_commericial/cluster-operator/controllers/reconcile_finalizer.go:80-103 | success means that each listed pod is labelled or gone |
| Finalizer.DeleteOwnedStatefulSet | deployment/cloud/k8/data-services/rabbitmq/install_commericial/cluster-operator/controllers/reconcile_finalizer.go:43-68 | success means that the owned StatefulSet is gone or terminating; the deletion carries the UID read under this cluster's reference |
| Finalizer.StatefulSetUID | deployment/cloud/k8/data-services/rabbitmq/install_commericial/cluster-operator/controllers/utils.go:71-85 | a UID only of a StatefulSet controlled by this cluster |
| Reconciler.ReconcileOperatorDefaults | deployment/cloud/k8/data-services/rabbitmq/install_commericial/cluster-operator/controllers/reconcile_operator_defaults.go:16-44 | the run goes on with exactly the defaults filled in, stored or with a version that is stale for good |
| Reconciler.DefaultsSettle | deployment/cloud/k8/data-services/rabbitmq/install_commericial/cluster-operator/controllers/reconcile_operator_defaults.go:16-44 | defaulting is idempotent and changes nothing that ports, the TLS gate or pod annotations depend on |
| Reconciler.DefaultPullSecrets | deployment/cloud/k8/data-services/rabbitmq/install_commericial/cluster-operator/controllers/reconcile_operator_defaults.go:24-31 | the non-empty parts of the comma separated list, or none at all |
| Reconciler.NonEmptyPicks | deployment/cloud/k8/data-services/rabbitmq/install_commericial/cluster-operator/controllers/reconcile_operator_defaults.go:24-31 | the parts kept are exactly the non-empty ones, in their order |
| Reconciler.AddFinalizerIfNeeded | deployment/cloud/k8/data-services/rabbitmq/install_commericial/cluster-operator/controllers/reconcile_finalizer.go:22-30 | success means a cluster not being deleted has the finalizer, and nothing else of it has changed |
| Reconciler.UpdateStatusConditions | deployment/cloud/k8/data-services/rabbitmq/install_commericial/cluster-operator/controllers/rabbitmqcluster_controller.go:279-302 | the conditions are the evaluation of the children as read, tied to readiness, addresses, memory limit and memory request of the stored objects; nothing is written when the evaluation changes nothing, and another run is asked for, in two seconds, only when the write met a conflict |
| Reconciler.GetChildResources | deployment/cloud/k8/data-services/rabbitmq/install_commericial/cluster-operator/controllers/rabbitmqcluster_controller.go:304-325 | the two children as stored at the two moments they were read |
| Reconciler.EvaluationTells | deployment/cloud/k8/data-services/rabbitmq/install_commericial/cluster-operator/internal/status/no_warnings.go:22-58 | after an evaluation the first three conditions shown say these things of the very StatefulSet and endpoints that were read |
| Reconciler.ReconcileStatus | deployment/cloud/k8/data-services/rabbitmq/install_commericial/cluster-operator/controllers/reconcile_status.go:18-51 | the status names the Service, and the default-user Secret and binding exactly when no Vault backend supplies the user; a status that does already is not written |
| Reconciler.ReferencesMean | deployment/cloud/k8/data-services/rabbitmq/install_commericial/cluster-operator/controllers/reconcile_status.go:18-51 | the Service is called like the cluster, the Secret has the suffix default-user, and there is none with a Vault backend for the default user |
| Reconciler.ReconcileTLS | deployment/cloud/k8/data-services/rabbitmq/install_commericial/cluster-operator/controllers/reconcile_tls.go:18-34 | the run goes on only if non-TLS listeners are kept or TLS is on, and with a TLS secret only if the secrets read hold certificate, key and, with a CA secret named, the CA certificate; it ends without an error exactly when the gate fails, and every stop is shown in the status |
| Reconciler.CheckTLSSecrets | deployment/cloud/k8/data-services/rabbitmq/install_commericial/cluster-operator/controllers/reconcile_tls.go:37-85 | success means certificate, key and, for mutual TLS, the CA certificate are in the secrets read |
| Reconciler.MarkIfBeingUpdated | deployment/cloud/k8/data-services/rabbitmq/install_commericial/cluster-operator/controllers/rabbitmqcluster_controller.go:139-149 | the rebalance marker is set exactly when the StatefulSet read is in the middle of an update that matters, and a run that goes on carries it |
| Reconciler.MarkForQueueRebalance | deployment/cloud/k8/data-services/rabbitmq/install_commericial/cluster-operator/controllers/rabbitmqcluster_controller.go:375-389 | the marker is there afterwards, and an existing one is not rewritten |
| Reconciler.ScaleDown | deployment/cloud/k8/data-services/rabbitmq/install_commericial/cluster-operator/controllers/reconcile_scale_down.go:17-34 | refuses exactly when fewer replicas are wanted than there are, with a status that names both numbers, and otherwise changes nothing |
| Conditions.TransitionTimeIsLastChange | deployment/cloud/k8/data-services/rabbitmq/install_commericial/cluster-operator/api/v1beta1/rabbitmqcluster_status.go:54-101 | over every history of evaluations and assignments each condition's transition time is the time of the last change of its status, creation included |
| Conditions.EvaluationIsStable | deployment/cloud/k8/data-services/rabbitmq/install_commericial/cluster-operator/api/v1beta1/rabbitmqcluster_status.go:54-90 | one evaluation gives four conditions of distinct types in fixed order, and a later evaluation of the same children changes nothing |
| Conditions.HistoryShape | deployment/cloud/k8/data-services/rabbitmq/install_commericial/cluster-operator/api/v1beta1/rabbitmqcluster_status.go:54-101 | after any history the conditions are none or the four types in order |
| Conditions.ClusterStatus.SetConditions | deployment/cloud/k8/data-services/rabbitmq/install_commericial/cluster-operator/api/v1beta1/rabbitmqcluster_status.go:54-90 | the loop over old conditions computes the evaluation |
| Conditions.ClusterStatus.SetCondition | deployment/cloud/k8/data-services/rabbitmq/install_commericial/cluster-operator/api/v1beta1/rabbitmqcluster_status.go:92-101 | the first condition of the type, and no other, is updated; its transition time moves only with its status |
| Conditions.VerdictsMean | deployment/cloud/k8/data-services/rabbitmq/install_commericial/cluster-operator/internal/status/all_replicas_ready.go:22-66 | in terms of the fields: replicas are ready when as many are ready as wanted, one if none is given; the cluster is available when some subset has an address; there is no warning exactly when memory limit and request are equal, both absent, or one absent and the other zero; each with its reason |
| Conditions.AllReplicasReadyCondition | deployment/cloud/k8/data-services/rabbitmq/install_commericial/cluster-operator/internal/status/all_replicas_ready.go:22-66 | the loop with its early exits judges the resources as specified |
| Conditions.ClusterAvailableCondition | deployment/cloud/k8/data-services/rabbitmq/install_commericial/cluster-operator/internal/status/cluster_available.go:25-65 | the nested loops with their early exit judge the resources as specified |
| Conditions.NoWarningsCondition | deployment/cloud/k8/data-services/rabbitmq/install_commericial/cluster-operator/internal/status/no_warnings.go:22-58 | the loop with its early exits judges the resources as specified |
| Timestamps.StampOrderIsTimeOrder | deployment/cloud/k8/data-services/rabbitmq/install_commericial/cluster-operator/controllers/reconcile_rabbitmq_configurations.go:100-114 | with one offset, the order of the printed stamps as strings is the order of the moments (section 5.1 of RFC 3339) |
| Timestamps.MixedOffsetsBreakStampOrder | deployment/cloud/k8/data-services/rabbitmq/install_commericial/cluster-operator/controllers/reconcile_rabbitmq_configurations.go:100-114 | with different offsets a later moment can print as the smaller string |
| Timestamps.ParseOfFormat | deployment/cloud/k8/data-services/rabbitmq/install_commericial/cluster-operator/controllers/reconcile_rabbitmq_configurations.go:131-141 | parsing a printed stamp gives back the moment |
| PodTemplate.SortEnvVar | deployment/cloud/k8/data-services/rabbitmq/install_commericial/cluster-operator/internal/resource/statefulset.go:296-310 | the in-place loop computes the swaps of the specification and ends with a permutation of the list |
| PodTemplate.SortEnvVarWorksIff | deployment/cloud/k8/data-services/rabbitmq/install_commericial/cluster-operator/internal/resource/statefulset.go:296-310 | for any positions of the three names: they end at 0, 1 and 2 if and only if the positions are not one of three defeating patterns |
| PodTemplate.DefinitionOrderIsSorted | deployment/cloud/k8/data-services/rabbitmq/install_commericial/cluster-operator/internal/resource/statefulset.go:296-310 | in the order in which the pod template defines them the three names always end in front |
| PodTemplate.SortEnvVarCanFail | deployment/cloud/k8/data-services/rabbitmq/install_commericial/cluster-operator/internal/resource/statefulset.go:296-310 | a concrete list that ends with MY_POD_NAMESPACE last |
| PodTemplate.SortVolumeMounts | deployment/cloud/k8/data-services/rabbitmq/install_commericial/cluster-operator/internal/resource/statefulset.go:316-326 | the in-place loop never leaves the list and ends with a permutation of it |
| PodTemplate.SortVolumeMountsWorks | deployment/cloud/k8/data-services/rabbitmq/install_commericial/cluster-operator/internal/resource/statefulset.go:316-326 | cookie and persistence mounts, in either order, end at 0 and 1 |
| PodTemplate.SentPermutes | deployment/cloud/k8/data-services/rabbitmq/install_commericial/cluster-operator/internal/resource/statefulset.go:296-326 | any such swap loop ends with a permutation |
| Ports.PortsAgreeIffGate | deployment/cloud/k8/data-services/rabbitmq/install_commericial/cluster-operator/internal/resource/statefulset.go:863-1033 | the service opens exactly the container's ports minus `epmd`, and minus plain `prometheus` under TLS, if and only if non-TLS listeners are kept or a TLS secret or a Vault PKI issuer is given |
| Ports.AlwaysServed | deployment/cloud/k8/data-services/rabbitmq/install_commericial/cluster-operator/internal/resource/service.go:115-269 | under that gate AMQP and the management API are always offered, on 5671 and 15671 exactly with TLS and on 5672 and 15672 unless disabled, and metrics on exactly one port |
| Ports.PluginsServed | deployment/cloud/k8/data-services/rabbitmq/install_commericial/cluster-operator/internal/resource/service.go:115-269 | the plain port of a plugin is offered exactly with that plugin, the stream port with either of the two plugins that need it, unless plain listeners are disabled |
| Ports.ContainerPorts | deployment/cloud/k8/data-services/rabbitmq/install_commericial/cluster-operator/internal/resource/statefulset.go:863-1033 | exactly the open ports, with unique names and numbers |
| Ports.GenerateServicePortsMap | deployment/cloud/k8/data-services/rabbitmq/install_commericial/cluster-operator/internal/resource/service.go:115-269 | exactly the ports the service opens, each under its own name with its number and application protocol |
| Ports.UpdatePorts | deployment/cloud/k8/data-services/rabbitmq/install_commericial/cluster-operator/internal/resource/service.go:271-289 | for every map order: the names are exactly the wanted ones, each once; surviving ports come first, in their order, with their NodePorts |
| Ports.SecondPassChangesNothing | deployment/cloud/k8/data-services/rabbitmq/install_commericial/cluster-operator/internal/resource/service.go:271-289 | a second pass over the result, in any map order, returns the identical list |
| Ports.KeptOrder | deployment/cloud/k8/data-services/rabbitmq/install_commericial/cluster-operator/internal/resource/service.go:271-279 | what survives is the first occurrence of each wanted port, in the old order |
| Ports.Service.Update | deployment/cloud/k8/data-services/rabbitmq/install_commericial/cluster-operator/internal/resource/service.go:55-81 | service ports after an update: exactly those wanted, with number and protocol, old ones first in their order, NodePorts kept or, for ClusterIP services, cleared |
| Ports.Secret.UpdatePorts | deployment/cloud/k8/data-services/rabbitmq/install_commericial/cluster-operator/internal/resource/default_user_secret.go:98-146 | each published port is the one in force, and withdrawn plugins' ports are deleted |
| Ports.SecretReachableIff | deployment/cloud/k8/data-services/rabbitmq/install_commericial/cluster-operator/internal/resource/default_user_secret.go:98-146 | exactly when every port the secret publishes is one the service opens |
| Ports.SecretCanMislead | deployment/cloud/k8/data-services/rabbitmq/install_commericial/cluster-operator/internal/resource/default_user_secret.go:98-146 | a specification that passes the TLS gate and whose secret publishes a port the service does not open |
| Plugins.DesiredPlugins | deployment/cloud/k8/data-services/rabbitmq/install_commericial/cluster-operator/internal/resource/rabbitmq_plugins.go:82-94 | each plugin once, in order of first mention |
| Plugins.DedupIsFirstMentions | deployment/cloud/k8/data-services/rabbitmq/install_commericial/cluster-operator/internal/resource/rabbitmq_plugins.go:82-94 | de-duplication meets that description |
| Plugins.FirstMentionsUnique | deployment/cloud/k8/data-services/rabbitmq/install_commericial/cluster-operator/internal/resource/rabbitmq_plugins.go:82-94 | and no other list meets it |
| Plugins.DesiredIsStable | deployment/cloud/k8/data-services/rabbitmq/install_commericial/cluster-operator/internal/resource/rabbitmq_plugins.go:82-94 | required plugins first, the union of both lists, idempotent |
| Plugins.FileAndCommandAgree | deployment/cloud/k8/data-services/rabbitmq/install_commericial/cluster-operator/internal/resource/rabbitmq_plugins.go:96-103 | the file text and the command text both read back as the same list |
| Annotations.MergeWithFilter | deployment/cloud/k8/data-services/rabbitmq/install_commericial/cluster-operator/internal/metadata/annotation.go:22-37 | for every map order, the base overlaid by the admitted entries of each map in turn |
| Annotations.LastMapWins | deployment/cloud/k8/data-services/rabbitmq/install_commericial/cluster-operator/internal/metadata/annotation.go:22-37 | the last map that admits a key decides it, else the base |
| Annotations.FilterKeepsKubernetesOut | deployment/cloud/k8/data-services/rabbitmq/install_commericial/cluster-operator/internal/metadata/annotation.go:18-45 | a filtered merge leaves Kubernetes annotations as they were |
| Annotations.KubernetesKeys | deployment/cloud/k8/data-services/rabbitmq/install_commericial/cluster-operator/internal/metadata/annotation.go:43-45 | the keys kept out are exactly those with one of the two Kubernetes domains somewhere in them |
| Annotations.MergeIsIdempotent | deployment/cloud/k8/data-services/rabbitmq/install_commericial/cluster-operator/internal/metadata/annotation.go:22-37 | merging the same maps again changes nothing |
| Names.ClaimOwnerOfPVCName | deployment/cloud/k8/data-services/rabbitmq/install_commericial/cluster-operator/api/v1beta1/rabbitmqcluster_types.go:461-463 | cluster name and index can be read back from a claim name |
| Names.ClaimNamesAreDistinct | deployment/cloud/k8/data-services/rabbitmq/install_commericial/cluster-operator/api/v1beta1/rabbitmqcluster_types.go:461-463 | two claims share a name exactly when cluster and index are the same |
| Names.ClaimNameFollowsStatefulSet | deployment/cloud/k8/data-services/rabbitmq/install_commericial/cluster-operator/api/v1beta1/rabbitmqcluster_types.go:457-463 | the claim name is the template name, the StatefulSet name and the index |

## Left out

- Reads from a cache: reads return the stored object. A stale cached StatefulSet or ConfigMap would only make the following optimistic write fail, but the create-or-update comparison and the scale-down check could be fooled by one.
- Overrides (`applyStsOverride`, `patchPodSpec`, `applySvcOverride`): a strategic merge patch is foreign semantics. The capacity theorem assumes no claim-template override, since with the StatefulSet absent the override is not applied before the expansion.
- Scale-down across two runs when the StatefulSet has gone in between: the check is skipped then, as in the code. `Traces.NoScaleDownEver` speaks about a living StatefulSet, and within one run a deleted and recreated one is covered by the check.
- Claims created by the StatefulSet controller while a run is active: they appear between runs only.
- ini parsing and printing of the server configuration: `serverConf` is the rendered text. The several data keys of that ConfigMap are one text.
- Service, Secret, headless Service, Erlang cookie and RBAC objects in the reconcile loop: abstract calls that may fail. Port and secret updates are modelled on their own in `Ports`.
- The rest of the pod template (volumes, probes, security context, shell commands, Vault templates), labels, `removeHeadroom`: constants or easy members.
- Contents of the shell commands: an exec either succeeds or fails.
- Configurations.CreateOrUpdateConfig: does not model that a ConfigMap without this cluster's controller reference gets it back, which the code reports as an update and marks with the text unchanged; nobody is assumed to take the reference off.
- The namespace and key names that the default-user status adds to its two names.
- Time spent: sleeps, back-off and requeue delays only appear as numbers; the two-second and ten-look waits are modelled without duration. Fractions of seconds are dropped.
- `time.Parse` on texts with fractional seconds: the operator never writes them.
- Integer widths: replica counts, quantities and resource versions are unbounded integers.
- Events, logging, random credentials, watches, the work queue and profiling.
- Controller.Reconcile: does not model that several clusters share one operator, because objects of different clusters have different names (`Names.ClaimNamesAreDistinct`).
- Finalizer.PrepareForDeletion: does not promise that the StatefulSet is gone, because the code removes the finalizer after a failed deletion too.
- Conditions.ClusterStatus.SetConditions: takes its clock readings as given; `Reconciler.UpdateStatusConditions` uses one reading for all four.
- The Java, Kotlin and .NET applications of the repository.
