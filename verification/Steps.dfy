/**
 The record of the operator's writes, and what is promised of each of them.

 Every write of the operator is logged with the store before and after it and with what the
 current run has read and done so far. A promise about all runs is a promise about all steps of
 the log, because what happens between two steps is `Between`.
 */
module Steps {
  import opened Wrappers
  import opened Text
  import opened Timestamps
  import opened Annotations
  import opened Plugins
  import opened Conditions
  import opened ClusterSpec
  import opened Builders
  import opened Objects
  import opened Worlds

  /** Places in the code that read the StatefulSet and go by what they read; reads elsewhere are not recorded. */
  datatype Site = RebalanceCheck | ScaleDownCheck | CommandGate | OwnerCheck | Elsewhere

  /** Commands run in pods, by pod index. The last two run in pod 0. */
  datatype Command = SetPlugins(pod: int, text: string) | EnableFeatureFlags | RebalanceQueues

  /** The annotations that remember work for later runs, by the change that makes them due. */
  datatype Marker = PluginsMarker | ConfMarker | CreationMarker

  function MarkerOf(which: Which): Marker { if which.PluginsMap? then PluginsMarker else ConfMarker }

  /** What the current run has read and done. */
  datatype History = History(
    run: nat,                                     // number of the run
    began: DateTime,                              // the clock when it began
    cluster: Cluster,                             // as read at the start of the run
    seen: map<Site, Option<StatefulSet>>,        // latest read at each site
    ran: map<Command, nat>,                       // commands that succeeded, with the store's revision by then
    listed: Option<set<nat>>,                     // pods of the latest listing
    claims: map<int, int>,                        // sizes of claims, as last read
    built: set<Builder>,                          // builders whose create-or-update succeeded
    due: map<Marker, nat>,                        // changes made that call for a marker, by step number
    conflicted: bool,                             // a write of the cluster or its status met a conflict
    shown: Option<seq<Condition>>)                // conditions of the latest status sent, answered or not

  datatype Op =
    | PutCluster | PutStatus
    | CreateSts | PutSts | DeleteSts(uid: Option<nat>)
    | CreateConfig(which: Which) | PutConfig(which: Which)
    | PutClaim(index: int) | PutPod(pod: nat)

  datatype Step = Step(op: Op, h: History, pre: World, post: World)

  // ---------- promises ----------

  /** Claims never shrink, and they are resized only while there is no StatefulSet. */
  ghost predicate ClaimsGrow(s: Step) {
    s.post.claims != s.pre.claims ==>
      && s.pre.sts.None? && s.op.PutClaim? && s.op.index in s.pre.claims
      && 0 <= s.op.index < s.h.cluster.spec.replicas
      && s.pre.claims[s.op.index].request < s.h.cluster.spec.storage
      && s.post.claims.Keys == s.pre.claims.Keys
      && s.post.claims[s.op.index].request == s.h.cluster.spec.storage
      && forall i :: i in s.pre.claims && i != s.op.index ==> s.post.claims[i] == s.pre.claims[i]
  }

  /** Every claim of a pod of the StatefulSet is at least as large as its claim template. */
  ghost predicate Covered(w: World) {
    w.sts.Some? && w.sts.value.storage.Some? ==>
      forall i :: 0 <= i < w.sts.value.replicas && i in w.claims ==> w.claims[i].request >= w.sts.value.storage.value
  }

  /** Creates or updates the StatefulSet, as opposed to deleting it. */
  ghost predicate WritesSts(s: Step) { s.post.sts.Some? && s.post.sts != s.pre.sts && !s.op.DeleteSts? }

  ghost predicate ClaimsCoverTemplate(s: Step) { WritesSts(s) ==> Covered(s.post) }

  /** No StatefulSet is written with fewer replicas than the run found at its scale-down check. */
  ghost predicate NoScaleDown(s: Step) {
    WritesSts(s) && ScaleDownCheck in s.h.seen && s.h.seen[ScaleDownCheck].Some? ==>
      s.h.seen[ScaleDownCheck].value.replicas <= s.post.sts.value.replicas
  }

  /** While a StatefulSet lives, its replicas never go down. */
  ghost predicate ReplicasGrow(s: Step) {
    s.pre.sts.Some? && s.post.sts.Some? ==> s.pre.sts.value.replicas <= s.post.sts.value.replicas
  }

  /** While a StatefulSet lives, its claim template neither comes nor goes, and never asks for less. */
  ghost predicate StorageGrows(s: Step) {
    s.pre.sts.Some? && s.post.sts.Some? ==>
      var was, now := s.pre.sts.value.storage, s.post.sts.value.storage;
      (was.Some? <==> now.Some?) && (was.Some? ==> was.value <= now.value)
  }

  /** A StatefulSet is created under the controller reference of the cluster, the way its specification has it. */
  ghost predicate CreatedAsSpecified(s: Step) {
    s.op.CreateSts? ==>
      && s.post.sts.Some? && s.post.sts.value.owner == Some(s.h.cluster.uid)
      && s.post.sts.value.replicas == s.h.cluster.spec.replicas
      && s.post.sts.value.storage == (if s.h.cluster.spec.storage == 0 then None else Some(s.h.cluster.spec.storage))
      && s.post.sts.value.memoryLimit == s.h.cluster.spec.memoryLimit
      && s.post.sts.value.memoryRequest == s.h.cluster.spec.memoryRequest
  }

  /** The operator never takes a StatefulSet away from its owner. */
  ghost predicate OwnerKept(s: Step) {
    s.pre.sts.Some? && s.post.sts.Some? && s.pre.sts.value.owner != s.post.sts.value.owner ==>
      s.pre.sts.value.owner.None? && s.post.sts.value.owner == Some(s.h.cluster.uid)
  }

  /**
   Of what users wrote the operator changes nothing: it fills in parts of the specification that were
   left empty, and of the annotations it writes its own rebalance marker only.
   */
  ghost predicate UserDataKept(s: Step) {
    s.post.cluster.Some? && s.post.cluster != s.pre.cluster ==>
      && s.pre.cluster.Some?
      && var was, now := s.pre.cluster.value, s.post.cluster.value;
      && now.name == was.name && now.deleting == was.deleting && now.paused == was.paused
      && now.annotations - {QUEUE_REBALANCE_NEEDED_AT} == was.annotations - {QUEUE_REBALANCE_NEEDED_AT}
      && OnlyFilled(was.spec, now.spec)
  }

  /** Nothing but empty parts of the specification have been filled in. */
  ghost predicate OnlyFilled(was: Spec, now: Spec) {
    && now == Defaulted(was, now)
    && (was.image != "" ==> now.image == was.image)
    && (was.pullSecrets.Some? ==> now.pullSecrets == was.pullSecrets)
    && (was.vault.Some? && was.vault.value.updaterImage.Some? ==> now.vault == was.vault)
  }

  ghost predicate PluginsPending(w: World) {
    w.plugins.Some? && Marked(w.plugins.value.annotations, PLUGINS_UPDATED_AT)
  }

  /** The command succeeded in this run, after the object got its version. */
  ghost predicate RanSince(h: History, c: Command, version: nat) { c in h.ran && version <= h.ran[c] }

  /** Since the ConfigMap was last written, its list was set on every pod of the cluster. */
  ghost predicate PluginsSetEverywhere(h: History, stored: ConfigMap) {
    && ReadCommand(CommandText(h.cluster.spec.plugins)) == ReadFile(stored.data)
    && forall p :: 0 <= p < h.cluster.spec.replicas ==>
         RanSince(h, SetPlugins(p, CommandText(h.cluster.spec.plugins)), stored.version)
  }

  /** The plugin marker goes only once its work is done. */
  ghost predicate PluginWorkKept(s: Step) {
    PluginsPending(s.pre) && !PluginsPending(s.post) ==>
      s.post.plugins.Some? && s.post.plugins.value.data == s.pre.plugins.value.data
      && PluginsSetEverywhere(s.h, s.pre.plugins.value)
  }

  ghost predicate FlagsPending(w: World) { w.sts.Some? && Marked(w.sts.value.annotations, CREATED_AT) }

  ghost predicate RebalancePending(w: World) {
    w.cluster.Some? && Marked(w.cluster.value.annotations, QUEUE_REBALANCE_NEEDED_AT)
  }

  /** The feature-flag and queue-rebalance markers go only once their commands have succeeded. */
  ghost predicate CommandsKept(s: Step) {
    && (FlagsPending(s.pre) && s.post.sts.Some? && !FlagsPending(s.post) ==>
        RanSince(s.h, EnableFeatureFlags, s.pre.sts.value.version))
    && (RebalancePending(s.pre) && s.post.cluster.Some? && !RebalancePending(s.post) ==>
        RanSince(s.h, RebalanceQueues, s.pre.cluster.value.version))
  }

  /** The value of a marker, if it is set. */
  ghost function MarkerStamp(w: World, m: Marker): Option<string> {
    match m
    case PluginsMarker => if w.plugins.Some? then Stamp(w.plugins.value.annotations, PLUGINS_UPDATED_AT) else None
    case ConfMarker => if w.conf.Some? then Stamp(w.conf.value.annotations, SERVER_CONF_UPDATED_AT) else None
    case CreationMarker => if w.sts.Some? then Stamp(w.sts.value.annotations, CREATED_AT) else None
  }

  /** A new text in a ConfigMap, or a new StatefulSet: the run that does this owes a marker. */
  ghost predicate MakesDue(s: Step, m: Marker) {
    match m
    case PluginsMarker =>
      s.pre.plugins.Some? && s.post.plugins.Some? && s.pre.plugins.value.data != s.post.plugins.value.data
    case ConfMarker =>
      s.pre.conf.Some? && s.post.conf.Some? && s.pre.conf.value.data != s.post.conf.value.data
    case CreationMarker => s.op.CreateSts?
  }

  ghost predicate Marks(s: Step, m: Marker) {
    MarkerStamp(s.post, m).Some? && MarkerStamp(s.post, m) != MarkerStamp(s.pre, m)
  }

  /** A marker is set only by a run that itself made the change the marker stands for. */
  ghost predicate MarkersJustified(s: Step) {
    && (Marks(s, PluginsMarker) ==> PluginsMarker in s.h.due)
    && (Marks(s, ConfMarker) ==> ConfMarker in s.h.due)
    && (Marks(s, CreationMarker) ==> CreationMarker in s.h.due)
  }

  /** After a conflict the run writes neither the cluster nor its status any more. */
  ghost predicate ConflictIsFinal(s: Step) {
    s.h.conflicted ==> !s.op.PutCluster? && !s.op.PutStatus? && s.post.cluster == s.pre.cluster
  }

  /** The finalizer goes only in a deletion run that has looked for the StatefulSet. */
  ghost predicate FinalizerGuarded(s: Step) {
    s.pre.cluster.Some? && s.post.cluster.Some? && s.pre.cluster.value.finalizer && !s.post.cluster.value.finalizer ==>
      s.h.cluster.deleting && OwnerCheck in s.h.seen
  }

  ghost function RestartStamp(s: StatefulSet): Option<string> { Stamp(s.podAnnotations, LAST_RESTART_AT) }

  ghost function ConfStamp(w: World): Option<string> {
    if w.conf.Some? then Stamp(w.conf.value.annotations, SERVER_CONF_UPDATED_AT) else None
  }

  /** The restart stamp is strictly later than the configuration marker, as the strings compare. */
  ghost predicate Settled(stamp: Option<string>, u: string) { stamp.Some? && Less(u, stamp.value) }

  /**
   A restart happens only for a configuration marker the stamp is not later than, and catches up
   with it. The new stamp is a clock reading of this run: not from before it began, and not from
   the future.
   */
  ghost predicate RestartsJustified(s: Step) {
    s.pre.sts.Some? && s.post.sts.Some? && RestartStamp(s.pre.sts.value) != RestartStamp(s.post.sts.value) ==>
      && s.pre.sts.value.uid == s.post.sts.value.uid
      && ConfStamp(s.pre).Some? && ConfStamp(s.post) == ConfStamp(s.pre)
      && !Settled(RestartStamp(s.pre.sts.value), ConfStamp(s.pre).value)
      && RestartStamp(s.post.sts.value).Some?
      && AtMost(ConfStamp(s.pre).value, RestartStamp(s.post.sts.value).value)
      && AtMost(Format(s.h.began), RestartStamp(s.post.sts.value).value)
      && AtMost(RestartStamp(s.post.sts.value).value, Format(s.pre.clock))
  }

  /** Configuration markers are never taken away and never move back. */
  ghost predicate ConfMarkerAdvances(s: Step) {
    ConfStamp(s.pre).Some? && ConfStamp(s.post) != ConfStamp(s.pre) ==>
      ConfStamp(s.post).Some? && AtMost(ConfStamp(s.pre).value, ConfStamp(s.post).value)
  }

  /** The children reflect a specification and nothing is left to do for it. */
  ghost predicate Converged(w: World, c: Cluster) {
    && w.plugins.Some? && w.plugins.value.data == FileText(c.spec.plugins) && !PluginsPending(w)
    && w.conf.Some? && w.conf.value.data == c.spec.serverConf
    && (w.sts.Some? ==>
        && w.sts.value.owner == Some(c.uid)
        && w.sts.value.replicas == c.spec.replicas
        && (w.sts.value.storage.Some? ==> w.sts.value.storage.value == c.spec.storage)
        && !Marked(w.sts.value.annotations, CREATED_AT)
        && (ConfStamp(w).Some? ==>
            RestartStamp(w.sts.value).Some? && AtMost(ConfStamp(w).value, RestartStamp(w.sts.value).value)))
    && Covered(w)
    && !Marked(c.annotations, QUEUE_REBALANCE_NEEDED_AT)
  }

  /** Every builder succeeded; only a default user whom Vault keeps has no Secret to be built. */
  ghost predicate EverythingBuilt(built: set<Builder>, spec: Spec) {
    forall b: Builder ::
      b in built || (b.DefaultUserSecret? && spec.vault.Some? && spec.vault.value.defaultUserPath != "")
  }

  ghost predicate AllBuilt(h: History) { EverythingBuilt(h.built, h.cluster.spec) }

  /** What the success of a builder whose object is modelled amounts to; the others report for themselves. */
  ghost predicate Evident(b: Builder, w: World, spec: Spec) {
    match b
    case PluginsConfigMap => w.plugins.Some? && w.plugins.value.data == FileText(spec.plugins)
    case ServerConfigMap => w.conf.Some? && w.conf.value.data == spec.serverConf
    case StatefulSetBuilder => Covered(w) && (w.sts.Some? ==> w.sts.value.replicas == spec.replicas)
    case _ => false
  }

  /** A rolling update of a StatefulSet with several replicas, of a cluster whose post-deploy steps are not skipped. */
  ghost predicate UpdateFound(found: Option<StatefulSet>, spec: Spec) {
    && found.Some? && found.value.currentRevision != found.value.updateRevision
    && !spec.skipPostDeploySteps && spec.replicas > 1
  }

  /** The run looked for a rolling update, and if it found one that matters the queues were rebalanced. */
  ghost predicate RebalanceSettled(h: History) {
    && RebalanceCheck in h.seen
    && (UpdateFound(h.seen[RebalanceCheck], h.cluster.spec) ==> RebalanceQueues in h.ran)
  }

  /** The status that goes with it: all four conditions, success, and the references of the specification. */
  ghost predicate ShowsSuccess(c: Cluster) {
    && FourInOrder(c.conditions) && c.conditions[3].status == True
    && c.defaultUser == Some(References(c.name, c.spec)) && c.binding == References(c.name, c.spec).secret
  }

  /** The run is one that builds: the cluster is live and not paused, and its TLS settings pass the gate. */
  ghost predicate Building(h: History) { !h.cluster.deleting && !h.cluster.paused && TLSGate(h.cluster.spec) }

  /** The run has read a claim smaller than the storage wanted. */
  ghost predicate FoundSmall(h: History) {
    exists i :: i in h.claims && 0 <= i < h.cluster.spec.replicas && h.claims[i] < h.cluster.spec.storage
  }

  ghost predicate KeepsConfigsAndClaims(s: Step) {
    s.post.plugins == s.pre.plugins && s.post.conf == s.pre.conf && s.post.claims == s.pre.claims
  }

  /**
   Children are written only by a run that builds, and such a run deletes the StatefulSet only if
   it has found a claim too small; pods are labelled, and owned StatefulSets deleted, only by a
   deletion run. Every other write leaves the children alone.
   */
  ghost predicate StageGuarded(s: Step) {
    match s.op
    case CreateConfig(_) | PutConfig(_) | PutClaim(_) | CreateSts | PutSts => Building(s.h)
    case DeleteSts(uid) =>
      KeepsConfigsAndClaims(s) && if uid.None? then Building(s.h) && FoundSmall(s.h) else s.h.cluster.deleting
    case PutPod(_) => KeepsConfigsAndClaims(s) && s.post.sts == s.pre.sts && s.h.cluster.deleting
    case PutCluster | PutStatus => KeepsConfigsAndClaims(s) && s.post.sts == s.pre.sts
  }

  /**
   A generation is reported as observed only when the stored specification is the one of that
   generation, all builders have succeeded, the children have converged, the status shows it, and
   the run read a StatefulSet fully ready on one revision.
   */
  ghost predicate ObservedSound(s: Step) {
    s.pre.cluster.Some? && s.post.cluster.Some?
    && s.pre.cluster.value.observedGeneration != s.post.cluster.value.observedGeneration ==>
      var c := s.post.cluster.value;
      && s.op.PutStatus?
      && c.uid == s.pre.cluster.value.uid
      && c.observedGeneration == c.generation == s.pre.cluster.value.generation
      && c.spec == s.pre.cluster.value.spec
      && Converged(s.post, c) && EverythingBuilt(s.h.built, c.spec) && RebalanceSettled(s.h)
      && TLSGate(c.spec) && ShowsSuccess(c)
      && CommandGate in s.h.seen && s.h.seen[CommandGate].Some?
      && FullyReady(s.h.seen[CommandGate].value)
  }

  /** With a UID precondition, only a StatefulSet read under this cluster's reference, all listed pods labelled. */
  ghost predicate DeletionGuarded(s: Step) {
    && (s.pre.sts.Some? && s.post.sts.None? ==> s.op.DeleteSts?)
    && (GoneOrGoing(s.post) && !GoneOrGoing(s.pre) ==> s.op.DeleteSts?)
    && (s.op.DeleteSts? && s.op.uid.Some? ==>
        && s.pre.sts.Some? && s.pre.sts.value.uid == s.op.uid.value && GoneOrGoing(s.post)
        && OwnerCheck in s.h.seen && s.h.seen[OwnerCheck].Some?
        && s.h.seen[OwnerCheck].value.uid == s.op.uid.value
        && s.h.seen[OwnerCheck].value.owner == Some(s.h.cluster.uid)
        && s.h.listed.Some?
        && forall u :: u in s.h.listed.value && u in s.pre.pods ==> s.pre.pods[u].deletionLabel)
  }

  /** What the store itself guarantees of a write: the object written gets a new version. */
  ghost predicate Versioned(s: Step) {
    && Wellformed(s.pre) && Wellformed(s.post) && TimePasses(s.pre, s.post)
    && (s.post.plugins != s.pre.plugins ==> s.post.plugins.Some? && s.pre.revision < s.post.plugins.value.version)
    && (s.post.sts != s.pre.sts && s.post.sts.Some? ==>
        && s.pre.revision < s.post.sts.value.version
        && ((s.pre.sts.Some? && s.pre.sts.value.uid == s.post.sts.value.uid) || s.pre.nextUid <= s.post.sts.value.uid))
    && (s.post.cluster != s.pre.cluster ==>
        && s.pre.cluster.Some? && s.post.cluster.Some? && s.pre.revision < s.post.cluster.value.version
        && s.pre.cluster.value.uid == s.post.cluster.value.uid
        && s.pre.cluster.value.generation <= s.post.cluster.value.generation
        && (s.pre.cluster.value.generation == s.post.cluster.value.generation ==>
            s.pre.cluster.value.spec == s.post.cluster.value.spec))
  }

  ghost predicate SafeStep(s: Step) {
    && Versioned(s)
    && ClaimsGrow(s) && ClaimsCoverTemplate(s) && NoScaleDown(s) && ReplicasGrow(s) && StorageGrows(s)
    && CreatedAsSpecified(s) && OwnerKept(s) && UserDataKept(s)
    && PluginWorkKept(s) && CommandsKept(s)
    && RestartsJustified(s) && ConfMarkerAdvances(s)
    && ObservedSound(s) && DeletionGuarded(s)
    && MarkersJustified(s) && ConflictIsFinal(s) && FinalizerGuarded(s)
    && StageGuarded(s)
  }

  ghost predicate AllSafe(log: seq<Step>) {
    forall k {:trigger SafeStep(log[k])} :: 0 <= k < |log| ==> SafeStep(log[k])
  }

  // ---------- how a log grows ----------

  /** The store after the first k steps, as step k - 1 left it. */
  ghost function Left(init: World, log: seq<Step>, k: nat): World
    requires k <= |log|
  {
    if k == 0 then init else log[k - 1].post
  }

  /** The store that step k found; after the last step, the store as it is now. */
  ghost function Found(log: seq<Step>, now: World, k: nat): World
    requires k <= |log|
  {
    if k < |log| then log[k].pre else now
  }

  /** After k steps, a run remembers changes and conflicts of its own, and is not older than the runs before. */
  ghost predicate Remembers(h: History, log: seq<Step>, k: nat)
    requires k <= |log|
  {
    && (forall m: Marker {:trigger h.due[m]} :: m in h.due ==>
        h.due[m] < k && MakesDue(log[h.due[m]], m) && log[h.due[m]].h.run == h.run)
    && (forall j {:trigger log[j].h.run} :: 0 <= j < k ==>
        log[j].h.run <= h.run && (log[j].h.run == h.run && log[j].h.conflicted ==> h.conflicted))
  }

  ghost predicate LinkedAt(exclusive: bool, init: World, log: seq<Step>, now: World, k: nat)
    requires k <= |log|
  {
    && Between(exclusive, Left(init, log, k), Found(log, now, k))
    && Wellformed(Left(init, log, k)) && Wellformed(Found(log, now, k))
    && (k < |log| ==> Remembers(log[k].h, log, k))
  }

  /** Nothing but `Between` happened between the steps. */
  ghost predicate Linked(exclusive: bool, init: World, log: seq<Step>, now: World) {
    forall k :: 0 <= k <= |log| ==> LinkedAt(exclusive, init, log, now, k)
  }

  /** A call that wrote nothing. */
  ghost predicate Quiet(exclusive: bool, log0: seq<Step>, log1: seq<Step>, w0: World, w1: World) {
    log1 == log0 && Rely(exclusive, w0, w1)
  }

  /** A call that wrote once: interference up to the write, and no more. */
  ghost predicate Wrote(exclusive: bool, log0: seq<Step>, log1: seq<Step>, op: Op, h: History, w0: World, w1: World) {
    && |log1| == |log0| + 1 && log1[..|log0|] == log0
    && log1[|log0|] == Step(op, h, log1[|log0|].pre, w1)
    && Rely(exclusive, w0, log1[|log0|].pre) && Wellformed(w1)
  }

  lemma LinkedMoves(exclusive: bool, init: World, log: seq<Step>, w0: World, w1: World)
    requires Linked(exclusive, init, log, w0) && Between(exclusive, w0, w1) && Wellformed(w1)
    ensures Linked(exclusive, init, log, w1)
  {
    forall k | 0 <= k <= |log| ensures LinkedAt(exclusive, init, log, w1, k) {
      assert LinkedAt(exclusive, init, log, w0, k);
      if k == |log| { BetweenTransitive(exclusive, Left(init, log, k), w0, w1); }
    }
  }

  /** What a run remembers is about the steps before, whatever follows them. */
  lemma RemembersStill(h: History, log0: seq<Step>, log1: seq<Step>, k: nat)
    requires k <= |log0| <= |log1| && log1[..|log0|] == log0
    ensures Remembers(h, log0, k) <==> Remembers(h, log1, k)
  {
    assert forall j :: 0 <= j < k ==> log1[j] == log0[j];
  }

  lemma LinkedGrows(exclusive: bool, init: World, log: seq<Step>, s: Step)
    requires Linked(exclusive, init, log, s.pre) && Wellformed(s.post) && Remembers(s.h, log, |log|)
    ensures Linked(exclusive, init, log + [s], s.post)
  {
    var more := log + [s];
    forall k | 0 <= k <= |more| ensures LinkedAt(exclusive, init, more, s.post, k) {
      if k <= |log| {
        assert LinkedAt(exclusive, init, log, s.pre, k);
        RemembersStill(more[k].h, log, more, k);
      } else {
        RelyReflexive(exclusive, s.post);
      }
    }
  }

  /** A step more for the run to remember, and perhaps a change it made with it. */
  lemma RemembersMore(h: History, log: seq<Step>, s: Step, m: Marker)
    requires Remembers(h, log, |log|) && s.h == h
    ensures Remembers(h, log + [s], |log| + 1)
    ensures MakesDue(s, m) ==> Remembers(h.(due := h.due[m := |log|]), log + [s], |log| + 1)
  {
    var more := log + [s];
    assert forall j :: 0 <= j < |log| ==> more[j] == log[j];
    assert more[|log|] == s;
  }

  lemma AllSafeGrows(log0: seq<Step>, log1: seq<Step>)
    requires AllSafe(log0) && |log1| == |log0| + 1 && log1[..|log0|] == log0 && SafeStep(log1[|log0|])
    ensures AllSafe(log1) && log0 <= log1
  {
    forall k | 0 <= k < |log1| ensures SafeStep(log1[k]) {
      if k < |log0| { assert log1[k] == log0[k]; }
    }
  }
}
