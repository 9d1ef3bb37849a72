/** The objects kept by the API server, as values, and the controller's in-memory cluster. */
module Objects {
  import opened Wrappers
  import opened Annotations
  import opened Conditions
  import opened ClusterSpec
  import opened Names

  const PLUGINS_UPDATED_AT := "rabbitmq.com/pluginsUpdatedAt"
  const SERVER_CONF_UPDATED_AT := "rabbitmq.com/serverConfUpdatedAt"
  const LAST_RESTART_AT := "rabbitmq.com/lastRestartAt"
  const CREATED_AT := "rabbitmq.com/createdAt"
  const QUEUE_REBALANCE_NEEDED_AT := "rabbitmq.com/queueRebalanceNeededAt"

  /** The text under a key, if the key is present. */
  function Stamp(m: Annotation, key: string): Option<string> { if key in m then Some(m[key]) else None }

  /** The marker asks for work: present and not empty. */
  predicate Marked(m: Annotation, key: string) { key in m && m[key] != "" }

  /** `version` is the resource version; every write gives the object a new one. */
  datatype Cluster = Cluster(
    name: string, uid: nat, version: nat, generation: int,
    deleting: bool, finalizer: bool, paused: bool,
    annotations: Annotation, spec: Spec,
    conditions: seq<Condition>, observedGeneration: int,
    defaultUser: Option<DefaultUser>, binding: Option<string>)

  /**
   `storage` is the request of the claim template "persistence"; None when there is no such
   template. A terminating StatefulSet has been deleted and is waiting for its finalizers.
   */
  datatype StatefulSet = StatefulSet(
    uid: nat, version: nat, owner: Option<nat>,
    replicas: int, storage: Option<int>, annotations: Annotation, podAnnotations: Annotation,
    memoryLimit: Option<int>, memoryRequest: Option<int>,
    ready: int, currentRevision: string, updateRevision: string, terminating: bool)

  datatype ConfigMap = ConfigMap(version: nat, data: string, annotations: Annotation)

  datatype Claim = Claim(version: nat, request: int)

  datatype Pod = Pod(version: nat, deletionLabel: bool)

  predicate BeingUpdated(s: StatefulSet) { s.currentRevision != s.updateRevision }

  predicate AllReplicasReadyAndUpdated(s: StatefulSet) { s.ready == s.replicas && !BeingUpdated(s) }

  /** As many replicas are ready as there are, and no rolling update is under way. */
  ghost predicate FullyReady(s: StatefulSet) { s.ready == s.replicas && s.currentRevision == s.updateRevision }

  /** A rolling update that matters to the queues of a cluster. */
  predicate NeedsQueueRebalance(s: StatefulSet, spec: Spec) {
    BeingUpdated(s) && !spec.skipPostDeploySteps && spec.replicas > 1
  }

  /** The Service and Secret names a status shows. */
  function References(cluster: string, spec: Spec): DefaultUser {
    DefaultUser(ChildResourceName(cluster, ""),
                if spec.VaultDefaultUserSecretEnabled() then None else Some(ChildResourceName(cluster, "default-user")))
  }

  /** A finished defaulting pass may have filled in these three fields; nothing else of a specification. */
  ghost function Defaulted(spec: Spec, filled: Spec): Spec {
    spec.(image := filled.image, pullSecrets := filled.pullSecrets,
          vault := if spec.vault.Some? && filled.vault.Some?
                   then Some(spec.vault.value.(updaterImage := filled.vault.value.updaterImage)) else spec.vault)
  }

  /** The cluster object a reconcile run carries along and changes. */
  class RabbitmqCluster {
    var name: string
    var uid: nat
    var version: nat
    var generation: int
    var deleting: bool
    var finalizer: bool
    var paused: bool
    var annotations: Annotation
    var spec: Spec
    const status: ClusterStatus

    ghost function Snapshot(): Cluster
      reads this, status
    {
      Cluster(name, uid, version, generation, deleting, finalizer, paused, annotations, spec,
              status.conditions, status.observedGeneration, status.defaultUser, status.binding)
    }

    constructor (c: Cluster)
      ensures Snapshot() == c && fresh(status)
    {
      name, uid, version, generation := c.name, c.uid, c.version, c.generation;
      deleting, finalizer, paused := c.deleting, c.finalizer, c.paused;
      annotations, spec := c.annotations, c.spec;
      status := new ClusterStatus(c.conditions, c.observedGeneration, c.defaultUser, c.binding);
    }

    /** The client fills the object in from the server's answer to a write. */
    method Load(c: Cluster)
      modifies this, status
      ensures Snapshot() == c
    {
      name, uid, version, generation := c.name, c.uid, c.version, c.generation;
      deleting, finalizer, paused := c.deleting, c.finalizer, c.paused;
      annotations, spec := c.annotations, c.spec;
      status.conditions, status.observedGeneration := c.conditions, c.observedGeneration;
      status.defaultUser, status.binding := c.defaultUser, c.binding;
    }

    method Read() returns (c: Cluster)
      ensures c == Snapshot()
    {
      c := Cluster(name, uid, version, generation, deleting, finalizer, paused, annotations, spec,
                   status.conditions, status.observedGeneration, status.defaultUser, status.binding);
    }
  }
}
