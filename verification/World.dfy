/**
 What the API server stores, and what others may do to it.

 Names: `Between` is what may happen while no run is active, `Rely` what may happen between two
 calls of one run. `exclusive` says that nobody but the operator creates a StatefulSet of this
 name or edits the parts of it that the operator writes.
 */
module Worlds {
  import opened Wrappers
  import opened Text
  import opened Timestamps
  import opened Annotations
  import opened Plugins
  import opened ClusterSpec
  import opened Objects

  datatype World = World(
    revision: nat,                   // resource version of the latest write
    nextUid: nat,
    clock: DateTime,
    cluster: Option<Cluster>,
    sts: Option<StatefulSet>,
    claims: map<int, Claim>,         // by pod index
    plugins: Option<ConfigMap>,
    conf: Option<ConfigMap>,
    pods: map<nat, Pod>,             // pods with the cluster's name label in any namespace, by uid
    secrets: map<string, set<string>>,
    endpoints: Option<seq<nat>>)

  datatype Which = PluginsMap | ConfMap

  function Config(w: World, which: Which): Option<ConfigMap> { if which.PluginsMap? then w.plugins else w.conf }

  function WithConfig(w: World, which: Which, cm: ConfigMap): World {
    if which.PluginsMap? then w.(plugins := Some(cm)) else w.(conf := Some(cm))
  }

  function MarkerKey(which: Which): string { if which.PluginsMap? then PLUGINS_UPDATED_AT else SERVER_CONF_UPDATED_AT }

  /**
   A specification the resource definition admits, and annotations that leave alone the stamps
   the operator keeps on other objects: both are copied there, by the pod template and by the
   builders' annotation merges.
   */
  predicate Admissible(spec: Spec, annotations: Annotation) {
    && Words(spec.plugins) && LAST_RESTART_AT !in spec.PodAnnotations()
    && PLUGINS_UPDATED_AT !in annotations && SERVER_CONF_UPDATED_AT !in annotations && CREATED_AT !in annotations
  }

  /** What the API server guarantees of its own store. */
  predicate Wellformed(w: World) {
    && Valid(w.clock)
    && (w.cluster.Some? ==>
        && w.cluster.value.version <= w.revision && w.cluster.value.uid < w.nextUid
        && Admissible(w.cluster.value.spec, w.cluster.value.annotations))
    && (w.sts.Some? ==> w.sts.value.version <= w.revision && w.sts.value.uid < w.nextUid)
    && (w.plugins.Some? ==> w.plugins.value.version <= w.revision)
    && (w.conf.Some? ==> w.conf.value.version <= w.revision)
    && (forall u :: u in w.pods ==> w.pods[u].version <= w.revision && u < w.nextUid)
    && (forall i :: i in w.claims ==> w.claims[i].version <= w.revision)
  }

  /** The configuration marker is not from the future. */
  predicate MarkerPast(w: World)
    requires Valid(w.clock)
  {
    w.conf.Some? && SERVER_CONF_UPDATED_AT in w.conf.value.annotations ==>
      AtMost(w.conf.value.annotations[SERVER_CONF_UPDATED_AT], Format(w.clock))
  }

  predicate TimePasses(pre: World, post: World) {
    && Valid(pre.clock) && Valid(post.clock) && pre.clock.offset == post.clock.offset
    && Instant(pre.clock) <= Instant(post.clock)
    && pre.revision <= post.revision && pre.nextUid <= post.nextUid
  }

  /**
   Users edit, annotate, delete and recreate the cluster; every change gets a new version, every
   change of the specification a new generation, every recreation a new uid. Nobody else reports
   an observed generation.
   */
  predicate ClusterMoves(pre: World, post: World) {
    post.cluster.Some? ==>
      var c := post.cluster.value;
      && (c.version <= pre.revision ==> post.cluster == pre.cluster)
      && (if pre.cluster.Some? && pre.cluster.value.uid == c.uid then SameCluster(pre.cluster.value, c)
          else pre.nextUid <= c.uid && c.observedGeneration == 0)
  }

  /** The same cluster object at a later moment. */
  predicate SameCluster(a: Cluster, b: Cluster) {
    && a.observedGeneration == b.observedGeneration
    && a.generation <= b.generation && (a.generation == b.generation ==> a.spec == b.spec)
  }

  /** The parts of a StatefulSet that only the operator writes. */
  predicate SameDesign(a: StatefulSet, b: StatefulSet) {
    && a.uid == b.uid && a.owner == b.owner && a.replicas == b.replicas && a.storage == b.storage
    && Stamp(a.annotations, CREATED_AT) == Stamp(b.annotations, CREATED_AT)
    && Stamp(a.podAnnotations, LAST_RESTART_AT) == Stamp(b.podAnnotations, LAST_RESTART_AT)
  }

  /**
   Readiness and revisions move, others annotate or delete, and what is terminating goes some time
   but never comes back; without exclusivity, others also
   recreate, which makes a new uid.
   */
  predicate StsMoves(exclusive: bool, pre: World, post: World) {
    post.sts.Some? ==>
      && (post.sts.value.version <= pre.revision ==> post.sts == pre.sts)
      && (if pre.sts.Some? && pre.sts.value.uid == post.sts.value.uid
          then pre.sts.value.terminating ==> post.sts.value.terminating else pre.nextUid <= post.sts.value.uid)
      && (exclusive ==> pre.sts.Some? && SameDesign(pre.sts.value, post.sts.value))
  }

  /** Others annotate the ConfigMaps but touch neither the data nor the operator's marker. */
  predicate ConfigMoves(pre: Option<ConfigMap>, post: Option<ConfigMap>, key: string, revision: nat) {
    && (pre.Some? <==> post.Some?)
    && (pre.Some? ==>
        && pre.value.data == post.value.data
        && Stamp(pre.value.annotations, key) == Stamp(post.value.annotations, key)
        && (post.value.version <= revision ==> post == pre))
  }

  /** Pods come and go; a new pod is a new uid, and nobody takes the deletion label off. */
  predicate PodsMove(pre: World, post: World) {
    forall u :: u in post.pods ==>
      && (u < pre.nextUid ==> u in pre.pods && (pre.pods[u].deletionLabel ==> post.pods[u].deletionLabel))
      && (post.pods[u].version <= pre.revision ==> u in pre.pods && post.pods[u] == pre.pods[u])
  }

  /** Deleted, be it with the object still there until its finalizers are done. */
  predicate GoneOrGoing(w: World) { w.sts.Some? ==> w.sts.value.terminating }

  predicate Between(exclusive: bool, pre: World, post: World) {
    && TimePasses(pre, post)
    && ClusterMoves(pre, post)
    && StsMoves(exclusive, pre, post)
    && ConfigMoves(pre.plugins, post.plugins, PLUGINS_UPDATED_AT, pre.revision)
    && ConfigMoves(pre.conf, post.conf, SERVER_CONF_UPDATED_AT, pre.revision)
    && PodsMove(pre, post)
  }

  /** During a run claims may be deleted or annotated, but not created or resized. */
  predicate ClaimsHold(pre: World, post: World) {
    forall i :: i in post.claims ==>
      && i in pre.claims && post.claims[i].request == pre.claims[i].request
      && (post.claims[i].version <= pre.revision ==> post.claims[i] == pre.claims[i])
  }

  predicate Rely(exclusive: bool, pre: World, post: World) {
    Between(exclusive, pre, post) && ClaimsHold(pre, post) && Wellformed(post)
  }

  lemma RelyReflexive(exclusive: bool, w: World)
    requires Wellformed(w)
    ensures Rely(exclusive, w, w)
  {
  }

  lemma BetweenTransitive(exclusive: bool, a: World, b: World, c: World)
    requires Wellformed(a) && Wellformed(b) && Between(exclusive, a, b) && Between(exclusive, b, c)
    ensures Between(exclusive, a, c)
  {
  }

  lemma ClaimsHoldTransitive(exclusive: bool, a: World, b: World, c: World)
    requires Between(exclusive, a, b) && ClaimsHold(a, b) && ClaimsHold(b, c)
    ensures ClaimsHold(a, c)
  {
  }

  lemma RelyTransitive(exclusive: bool, a: World, b: World, c: World)
    requires Wellformed(a) && Rely(exclusive, a, b) && Rely(exclusive, b, c)
    ensures Rely(exclusive, a, c)
  {
    BetweenTransitive(exclusive, a, b, c);
    ClaimsHoldTransitive(exclusive, a, b, c);
  }

  /** Time only makes markers older: the clock's text never goes back (section 5.1 of RFC 3339). */
  lemma MarkerStaysPast(exclusive: bool, pre: World, post: World)
    requires Between(exclusive, pre, post) && MarkerPast(pre)
    ensures MarkerPast(post)
  {
    LaterClockLaterStamp(pre.clock, post.clock);
    if post.conf.Some? && SERVER_CONF_UPDATED_AT in post.conf.value.annotations {
      var u := post.conf.value.annotations[SERVER_CONF_UPDATED_AT];
      assert Stamp(pre.conf.value.annotations, SERVER_CONF_UPDATED_AT) == Some(u);
      AtMostTransitive(u, Format(pre.clock), Format(post.clock));
    }
  }
}
