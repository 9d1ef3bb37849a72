/** What a reconcile run carries along, and the two writes every part of a run may make. */
module Runs {
  import Text
  import Timestamps
  import opened Wrappers
  import opened Annotations
  import opened Conditions
  import opened ClusterSpec
  import opened Objects
  import opened Worlds
  import opened Steps
  import opened Api

  /** Everything the operator has ever written was safe. */
  ghost predicate Good(api: ApiServer)
    reads api
  {
    api.Ready() && AllSafe(api.log)
  }

  /** The in-memory cluster is the stored one, unless somebody has written the stored one since. */
  ghost predicate Tracks(c: Cluster, w: World) {
    c.version <= w.revision && (w.cluster.Some? && w.cluster.value.version == c.version ==> w.cluster.value == c)
  }

  /** As above, when the run has changed its status and not yet written it. */
  ghost predicate TracksButStatus(c: Cluster, w: World) {
    && c.version <= w.revision
    && (w.cluster.Some? && w.cluster.value.version == c.version ==>
        var now := w.cluster.value;
        now == c.(conditions := now.conditions, defaultUser := now.defaultUser, binding := now.binding))
  }

  /** As above, for the one thing a status write could spoil. */
  ghost predicate TracksStatus(c: Cluster, w: World) {
    && c.version <= w.revision
    && (w.cluster.Some? && w.cluster.value.version == c.version ==>
        w.cluster.value.observedGeneration == c.observedGeneration)
  }

  /** The specification is the one the run began with, up to filled-in defaults. */
  ghost predicate Carries(c: Cluster, began: Cluster) {
    c.uid == began.uid && Admissible(c.spec, c.annotations) && c.spec == Defaulted(began.spec, c.spec)
  }

  /** Somebody has written the cluster since: with this version no write will ever succeed again. */
  ghost predicate Stale(version: nat, w: World) {
    version <= w.revision && (w.cluster.Some? ==> w.cluster.value.version != version)
  }

  lemma StaleStays(exclusive: bool, version: nat, w0: World, w1: World)
    requires Between(exclusive, w0, w1) && Stale(version, w0)
    ensures Stale(version, w1)
  {
  }

  /** A run that has met a conflict carries a stale version. */
  ghost predicate Heeds(h: History, version: nat, w: World) { h.conflicted ==> Stale(version, w) }

  /** The server may be asked to write children. */
  ghost predicate CanBuild(api: ApiServer)
    reads api
  {
    Good(api) && api.exclusive && Building(api.h)
  }

  ghost predicate InRun(api: ApiServer, rmq: RabbitmqCluster)
    reads api, rmq, rmq.status
  {
    && Good(api) && api.exclusive
    && Tracks(rmq.Snapshot(), api.w) && Heeds(api.h, rmq.version, api.w)
    && Carries(rmq.Snapshot(), api.h.cluster)
  }

  /** A run that found a rolling update which matters carries the rebalance marker until the command has succeeded. */
  ghost predicate RebalanceKept(h: History, annotations: Annotation) {
    && RebalanceCheck in h.seen
    && (UpdateFound(h.seen[RebalanceCheck], h.cluster.spec) ==>
        Marked(annotations, QUEUE_REBALANCE_NEEDED_AT) || RebalanceQueues in h.ran)
  }

  /** All that a status write at the end of a run needs. */
  ghost predicate CanReport(api: ApiServer, rmq: RabbitmqCluster)
    reads api, rmq, rmq.status
  {
    Good(api) && TracksStatus(rmq.Snapshot(), api.w) && Heeds(api.h, rmq.version, api.w)
  }

  /** The run may owe markers it did not owe before; nothing else of its history is new. */
  ghost predicate Owing(h0: History, h1: History) { h1 == h0.(due := h1.due) }

  /** The run may owe markers and have built more; nothing else of its history is new. */
  ghost predicate Progressed(h0: History, h1: History) {
    h1 == h0.(due := h1.due, built := h1.built) && h0.built <= h1.built
  }

  /** The run may have sent a status and met a conflict; nothing else of its history is new. */
  ghost predicate Met(h0: History, h1: History) {
    h1 == h0.(conflicted := h1.conflicted, shown := h1.shown) && (h0.conflicted ==> h1.conflicted)
  }

  /** The run went on: it may have read claims, built and owe more, have sent a status and met a conflict. */
  ghost predicate SameRun(h0: History, h1: History) {
    && h1 == h0.(claims := h1.claims, built := h1.built, due := h1.due,
                 conflicted := h1.conflicted, shown := h1.shown)
    && h0.built <= h1.built && (h0.conflicted ==> h1.conflicted)
  }

  lemma TracksStays(exclusive: bool, c: Cluster, w0: World, w1: World)
    requires Rely(exclusive, w0, w1) && Tracks(c, w0)
    ensures Tracks(c, w1)
  {
  }

  lemma InRunStays(exclusive: bool, h: History, c: Cluster, w0: World, w1: World)
    requires Rely(exclusive, w0, w1) && Tracks(c, w0) && Heeds(h, c.version, w0)
    ensures Tracks(c, w1) && Heeds(h, c.version, w1)
  {
    TracksStays(exclusive, c, w0, w1);
    if h.conflicted { StaleStays(exclusive, c.version, w0, w1); }
  }

  // ---------- writes of the cluster object ----------

  /**
   What a write of the cluster must not take away: what users wrote, a rebalance marker still due,
   the finalizer of a live cluster.
   */
  ghost predicate MayPut(h: History, was: Cluster, c: Cluster) {
    && c == was.(annotations := c.annotations, finalizer := c.finalizer, spec := c.spec)
    && c.annotations - {QUEUE_REBALANCE_NEEDED_AT} == was.annotations - {QUEUE_REBALANCE_NEEDED_AT}
    && OnlyFilled(was.spec, c.spec)
    && (Marked(was.annotations, QUEUE_REBALANCE_NEEDED_AT) && !Marked(c.annotations, QUEUE_REBALANCE_NEEDED_AT) ==>
        RanSince(h, RebalanceQueues, was.version))
    && (was.finalizer && !c.finalizer ==> h.cluster.deleting && OwnerCheck in h.seen)
  }

  lemma ClusterStepSafe(s: Step, c: Cluster, was: Cluster)
    requires s.op.PutCluster? && Wellformed(s.pre) && Wellformed(s.post) && ClusterPut(s.pre, c, s.post)
    requires Tracks(was, s.pre) && was.version == c.version
    requires MayPut(s.h, was, c) && !s.h.conflicted
    ensures SafeStep(s)
  {
  }

  lemma StatusStepSafe(s: Step, c: Cluster)
    requires s.op.PutStatus? && Wellformed(s.pre) && Wellformed(s.post) && StatusPut(s.pre, c, s.post)
    requires TracksStatus(c, s.pre) && !s.h.conflicted
    ensures SafeStep(s)
  {
  }

  /** Writing the cluster object is, to everything else a run looks at, like others writing it. */
  lemma ClusterWriteIsMild(exclusive: bool, w0: World, pre: World, post: World)
    requires Wellformed(w0) && Rely(exclusive, w0, pre) && Wellformed(post)
    requires pre.cluster.Some? && post.cluster.Some? && pre.cluster.value.uid == post.cluster.value.uid
    requires SameCluster(pre.cluster.value, post.cluster.value)
    requires post.cluster.value.version == pre.revision + 1
    requires post == pre.(revision := pre.revision + 1, cluster := post.cluster)
    ensures Rely(exclusive, w0, post)
  {
    RelyReflexive(exclusive, pre);
    assert Between(exclusive, pre, post);
    RelyTransitive(exclusive, w0, pre, post);
  }

  lemma ClusterCallSafe(exclusive: bool, log0: seq<Step>, log1: seq<Step>, h: History, w0: World, w1: World,
        c: Cluster, was: Cluster)
    requires AllSafe(log0) && Wellformed(w0)
    requires Quiet(exclusive, log0, log1, w0, w1)
          || (Wrote(exclusive, log0, log1, Op.PutCluster, h, w0, w1) && ClusterPut(log1[|log0|].pre, c, w1))
    requires Tracks(was, w0) && MayPut(h, was, c) && Heeds(h, c.version, w0)
    ensures AllSafe(log1) && log0 <= log1 && Rely(exclusive, w0, w1)
    ensures TracksStatus(was, w1)
    ensures Stale(c.version, w0) ==> log1 == log0 && Stale(c.version, w1)
    ensures log1 != log0 ==>
      && w1.cluster.Some? && Tracks(w1.cluster.value, w1)
      && w1.cluster.value == c.(version := w1.cluster.value.version, generation := w1.cluster.value.generation)
  {
    if log1 == log0 {
      if Stale(c.version, w0) { StaleStays(exclusive, c.version, w0, w1); }
    } else {
      var s := log1[|log0|];
      if h.conflicted { StaleStays(exclusive, c.version, w0, s.pre); }
      ClusterStepSafe(s, c, was);
      AllSafeGrows(log0, log1);
      ClusterWriteIsMild(exclusive, w0, s.pre, s.post);
    }
  }

  /** At most one write since `log0`, and that of the status. */
  ghost predicate OnlyStatusWritten(log0: seq<Step>, log1: seq<Step>) {
    log1 != log0 ==> |log1| == |log0| + 1 && log1[|log0|].op.PutStatus?
  }

  lemma StatusCallSafe(exclusive: bool, log0: seq<Step>, log1: seq<Step>, h: History, w0: World, w1: World, c: Cluster)
    requires AllSafe(log0) && Wellformed(w0)
    requires Quiet(exclusive, log0, log1, w0, w1)
          || (Wrote(exclusive, log0, log1, Op.PutStatus, h, w0, w1) && StatusPut(log1[|log0|].pre, c, w1))
    requires TracksStatus(c, w0) && Heeds(h, c.version, w0)
    ensures AllSafe(log1) && log0 <= log1 && Rely(exclusive, w0, w1)
    ensures TracksStatus(c, w1)
    ensures Stale(c.version, w0) ==> log1 == log0 && Stale(c.version, w1)
    ensures log1 != log0 ==>
      && w1.cluster.Some? && Tracks(w1.cluster.value, w1)
      && (TracksButStatus(c, w0) ==> w1.cluster.value == c.(version := w1.cluster.value.version))
      && w1.cluster.value.conditions == c.conditions && OnlyStatusWritten(log0, log1)
  {
    if log1 == log0 {
      if Stale(c.version, w0) { StaleStays(exclusive, c.version, w0, w1); }
    } else {
      var s := log1[|log0|];
      if h.conflicted { StaleStays(exclusive, c.version, w0, s.pre); }
      StatusStepSafe(s, c);
      AllSafeGrows(log0, log1);
      ClusterWriteIsMild(exclusive, w0, s.pre, s.post);
    }
  }

  /**
   `client.Update` of the cluster, which differs from the object it was read as (`was`) only in
   what the caller changed. The client fills the answer in.
   */
  method UpdateCluster(api: ApiServer, rmq: RabbitmqCluster, ghost was: Cluster) returns (r: Result<()>)
    requires Good(api) && Tracks(was, api.w) && Heeds(api.h, rmq.version, api.w)
    requires Admissible(rmq.spec, rmq.annotations) && MayPut(api.h, was, rmq.Snapshot())
    modifies api, rmq, rmq.status
    ensures Good(api) && old(api.log) <= api.log && Met(old(api.h), api.h) && Rely(api.exclusive, old(api.w), api.w)
    ensures r.Ok? ==>
      && Tracks(rmq.Snapshot(), api.w) && Heeds(api.h, rmq.version, api.w)
      && rmq.Snapshot() == old(rmq.Snapshot()).(version := rmq.version, generation := rmq.generation)
    ensures r.Ok? ==>
      && |api.log| == |old(api.log)| + 1 && api.log[|old(api.log)|].op.PutCluster?
      && api.log[|old(api.log)|].post.cluster == Some(rmq.Snapshot())
    ensures r.Err? ==> rmq.Snapshot() == old(rmq.Snapshot()) && CanReport(api, rmq)
    ensures r.Err? && r.error.Conflict? ==> Tracks(rmq.Snapshot(), api.w) && Stale(rmq.version, api.w)
    ensures Stale(old(rmq.version), old(api.w)) ==> r.Err? && api.log == old(api.log) && Stale(rmq.version, api.w)
    ensures Answered(r, TheCluster, old(api.heard), api.heard)
  {
    var c := rmq.Read();
    var answer := api.PutCluster(c);
    ClusterCallSafe(api.exclusive, old(api.log), api.log, old(api.h), old(api.w), api.w, c, was);
    if answer.Err? {
      return Err(answer.error);
    }
    rmq.Load(answer.value);
    r := Ok(());
  }

  /** `Status().Update`. */
  method UpdateStatus(api: ApiServer, rmq: RabbitmqCluster) returns (r: Result<()>)
    requires CanReport(api, rmq)
    modifies api, rmq, rmq.status
    ensures Good(api) && old(api.log) <= api.log && Met(old(api.h), api.h) && Rely(api.exclusive, old(api.w), api.w)
    ensures OnlyStatusWritten(old(api.log), api.log) && rmq.status.conditions == old(rmq.status.conditions)
    ensures api.h.shown == Some(old(rmq.status.conditions))
    ensures r.Ok? && TracksButStatus(old(rmq.Snapshot()), old(api.w)) ==>
      && Tracks(rmq.Snapshot(), api.w) && Heeds(api.h, rmq.version, api.w)
      && rmq.Snapshot() == old(rmq.Snapshot()).(version := rmq.version)
    ensures r.Err? ==> rmq.Snapshot() == old(rmq.Snapshot()) && CanReport(api, rmq)
    ensures r.Err? && r.error.Conflict? ==> Tracks(rmq.Snapshot(), api.w) && Stale(rmq.version, api.w)
    ensures Stale(old(rmq.version), old(api.w)) ==> r.Err? && api.log == old(api.log) && Stale(rmq.version, api.w)
    ensures Answered(r, TheCluster, old(api.heard), api.heard)
  {
    var c := rmq.Read();
    var answer := api.PutStatus(c);
    StatusCallSafe(api.exclusive, old(api.log), api.log, Sending(old(api.h), c), old(api.w), api.w, c);
    if answer.Err? {
      return Err(answer.error);
    }
    rmq.Load(answer.value);
    r := Ok(());
  }

  /** The status shows a failure with this reason, on top of what it showed before. */
  ghost predicate ShowsFailure(before: seq<Condition>, after: seq<Condition>, reason: string) {
    exists message: string, t: int :: after == Assigned(before, ReconcileSuccess, False, reason, message, t)
  }

  /** A failing status write is only logged, so the run goes on to its end either way. */
  method SetReconcileSuccess(api: ApiServer, rmq: RabbitmqCluster, status: ConditionStatus, reason: string,
        message: string)
    requires CanReport(api, rmq)
    modifies api, rmq, rmq.status
    ensures Good(api) && old(api.log) <= api.log && Met(old(api.h), api.h) && Rely(api.exclusive, old(api.w), api.w)
    ensures OnlyStatusWritten(old(api.log), api.log) && api.h.shown == Some(rmq.status.conditions)
    ensures old(api.heard) <= api.heard
    ensures rmq.status.conditions
         == Assigned(old(rmq.status.conditions), ReconcileSuccess, status, reason, message,
                     Timestamps.Instant(old(api.w.clock)))
  {
    assert Text.Join([message], ". ") == message;
    rmq.status.SetCondition(ReconcileSuccess, status, reason, [message], Timestamps.Instant(api.w.clock));
    var _ := UpdateStatus(api, rmq);
  }

  /** The failure is the last thing the run told: ReconcileSuccess is False, with this reason. */
  ghost predicate Told(h: History, before: seq<Condition>, now: seq<Condition>, reason: string) {
    h.shown == Some(now) && ShowsFailure(before, now, reason)
  }

  /** `setReconcileSuccess` with a failure. */
  method TellFailure(api: ApiServer, rmq: RabbitmqCluster, reason: string, message: string)
    requires CanReport(api, rmq)
    modifies api, rmq, rmq.status
    ensures Good(api) && old(api.log) <= api.log && Met(old(api.h), api.h)
    ensures OnlyStatusWritten(old(api.log), api.log) && old(api.heard) <= api.heard
    ensures Told(api.h, old(rmq.status.conditions), rmq.status.conditions, reason)
  {
    SetReconcileSuccess(api, rmq, False, reason, message);
  }

  // ---------- calls that change one child object ----------

  /** An object read earlier in the run is the stored one, unless somebody has written that since. */
  ghost predicate ConfigAsRead(which: Which, was: ConfigMap, w: World) {
    was.version <= w.revision
    && (Config(w, which).Some? && Config(w, which).value.version == was.version ==> Config(w, which).value == was)
  }

  ghost predicate StsAsRead(was: StatefulSet, w: World) {
    was.version <= w.revision && (w.sts.Some? && w.sts.value.version == was.version ==> w.sts.value == was)
  }

  /** Others acted, and the operator wrote nothing but this ConfigMap. */
  ghost predicate OnlyConfig(which: Which, w0: World, w1: World) {
    Rely(true, if which.PluginsMap? then w0.(plugins := w1.plugins) else w0.(conf := w1.conf), w1)
  }

  /** Others acted, and the operator wrote nothing but the StatefulSet. */
  ghost predicate OnlySts(w0: World, w1: World) { Rely(true, w0.(sts := w1.sts), w1) }

  lemma OnlyConfigTransitive(which: Which, a: World, b: World, c: World)
    requires Wellformed(a) && Wellformed(b) && OnlyConfig(which, a, b) && OnlyConfig(which, b, c)
    ensures OnlyConfig(which, a, c)
  {
  }

  lemma OnlyStsTransitive(a: World, b: World, c: World)
    requires Wellformed(a) && Wellformed(b) && OnlySts(a, b) && OnlySts(b, c)
    ensures OnlySts(a, c)
  {
  }

  lemma RelyIsOnly(a: World, b: World)
    requires Wellformed(a) && Rely(true, a, b)
    ensures OnlyConfig(PluginsMap, a, b) && OnlyConfig(ConfMap, a, b) && OnlySts(a, b)
  {
  }

  lemma OnlyConfigKeepsTrack(which: Which, c: Cluster, w0: World, w1: World)
    requires OnlyConfig(which, w0, w1) && Tracks(c, w0)
    ensures Tracks(c, w1) && (Stale(c.version, w0) ==> Stale(c.version, w1))
  {
  }

  /** What one more attempt leaves behind, after others that wrote nothing. */
  lemma OnlyStsAfterQuiet(a: World, b: World, c: World)
    requires Wellformed(a) && Rely(true, a, b) && OnlySts(b, c)
    ensures OnlySts(a, c) && (Rely(true, b, c) ==> Rely(true, a, c))
  {
    RelyIsOnly(a, b);
    OnlyStsTransitive(a, b, c);
    if Rely(true, b, c) { RelyTransitive(true, a, b, c); }
  }

  lemma OnlyConfigAfterQuiet(which: Which, a: World, b: World, c: World)
    requires Wellformed(a) && Rely(true, a, b) && OnlyConfig(which, b, c)
    ensures OnlyConfig(which, a, c) && (Rely(true, b, c) ==> Rely(true, a, c))
  {
    RelyIsOnly(a, b);
    OnlyConfigTransitive(which, a, b, c);
    if Rely(true, b, c) { RelyTransitive(true, a, b, c); }
  }

  // ---------- deleting the StatefulSet ----------

  /** To everything else a run looks at, its own deletion of the StatefulSet is like one by others. */
  lemma StsDeletionIsMild(exclusive: bool, w0: World, pre: World, post: World)
    requires Wellformed(w0) && Rely(exclusive, w0, pre) && Wellformed(post) && StsDeleted(pre, post)
    ensures Rely(exclusive, w0, post) && GoneOrGoing(post)
  {
    RelyReflexive(exclusive, pre);
    assert Rely(exclusive, pre, post);
    RelyTransitive(exclusive, w0, pre, post);
  }

  lemma StsDeletionSafe(s: Step)
    requires s.op.DeleteSts? && Wellformed(s.pre) && Wellformed(s.post) && StsDeleted(s.pre, s.post)
    requires if s.op.uid.Some? then DeletionGuarded(s) && s.h.cluster.deleting else Building(s.h) && FoundSmall(s.h)
    ensures SafeStep(s)
  {
  }
}
