/** RabbitMQ commands that annotations ask for, run once the StatefulSet has settled. */
module Cli {
  import opened Wrappers
  import opened Text
  import opened Timestamps
  import opened Annotations
  import opened Plugins
  import opened ClusterSpec
  import opened Objects
  import opened Worlds
  import opened Steps
  import opened Api
  import opened Runs
  import opened Configurations
  import opened StatefulSets

  // ---------- how old a plugin marker is ----------

  /** `pluginsConfigUpdatedRecently`; None when the marker is no RFC 3339 time. */
  function UpdatedRecently(annotations: Annotation, now: DateTime): Option<bool>
    requires Valid(now)
  {
    if PLUGINS_UPDATED_AT !in annotations then Some(false)
    else if Parse(annotations[PLUGINS_UPDATED_AT]).None? then None
    else Some(Instant(now) - Instant(Parse(annotations[PLUGINS_UPDATED_AT]).value) < 2)
  }

  /** A marker is there, is a time, and that is less than two seconds before the clock. */
  ghost predicate JustMarked(w: World)
    requires Valid(w.clock)
  {
    && w.plugins.Some? && PLUGINS_UPDATED_AT in w.plugins.value.annotations
    && var written := Parse(w.plugins.value.annotations[PLUGINS_UPDATED_AT]);
    written.Some? && Instant(w.clock) < Instant(written.value) + 2
  }

  /** There is no marker, or it is a time at least two seconds before the clock. */
  ghost predicate PluginsQuiet(w: World)
    requires Valid(w.clock)
  {
    && w.plugins.Some?
    && (PLUGINS_UPDATED_AT in w.plugins.value.annotations ==>
        var written := Parse(w.plugins.value.annotations[PLUGINS_UPDATED_AT]);
        written.Some? && Instant(written.value) + 2 <= Instant(w.clock))
  }

  /** A ConfigMap was read whose marker is no time. */
  ghost predicate Unreadable(e: ApiError, a0: multiset<Answer>, a1: multiset<Answer>) {
    && e.Declined? && e.why.UnreadableMarker? && New(a0, a1, GotConfig(PluginsMap, e.why.cm))
    && PLUGINS_UPDATED_AT in e.why.cm.annotations && Parse(e.why.cm.annotations[PLUGINS_UPDATED_AT]) == None
  }

  /** A marker the operator itself wrote is always readable, and recent for exactly two seconds. */
  lemma OwnMarkerIsReadable(annotations: Annotation, written: DateTime, now: DateTime)
    requires Valid(written) && Valid(now) && Stamp(annotations, PLUGINS_UPDATED_AT) == Some(Format(written))
    ensures UpdatedRecently(annotations, now) == Some(Instant(now) < Instant(written) + 2)
  {
    ParseOfFormat(written);
  }

  // ---------- the three commands ----------

  /** Commands ran: only that is new in the history. */
  ghost predicate RanMore(h0: History, h1: History) {
    h1 == h0.(ran := h1.ran) && h0.ran.Keys <= h1.ran.Keys
  }

  /** The same, and perhaps a conflict. */
  ghost predicate RanOn(h0: History, h1: History) {
    && h1 == h0.(ran := h1.ran, conflicted := h1.conflicted, shown := h1.shown)
    && h0.ran.Keys <= h1.ran.Keys && (h0.conflicted ==> h1.conflicted)
  }

  method SetPluginsOnPods(api: ApiServer, spec: Spec, ghost since: nat) returns (ok: bool)
    requires Good(api) && api.exclusive && since <= api.w.revision
    modifies api
    ensures old(api.heard) <= api.heard && (!ok ==> New(old(api.heard), api.heard, NoAnswer))
    ensures Good(api) && Quiet(true, old(api.log), api.log, old(api.w), api.w) && RanMore(old(api.h), api.h)
    ensures ok ==>
      forall p :: 0 <= p < spec.replicas ==> RanSince(api.h, SetPlugins(p, CommandText(spec.plugins)), since)
  {
    RelyReflexive(true, api.w);
    var i := 0;
    while i < spec.replicas
      invariant Good(api) && Quiet(true, old(api.log), api.log, old(api.w), api.w) && RanMore(old(api.h), api.h)
      invariant 0 <= i && old(api.heard) <= api.heard
      invariant forall p :: 0 <= p < i && p < spec.replicas ==>
        RanSince(api.h, SetPlugins(p, CommandText(spec.plugins)), since)
    {
      ghost var w0 := api.w;
      ok := api.Exec(SetPlugins(i, CommandText(spec.plugins)));
      RelyTransitive(true, old(api.w), w0, api.w);
      if !ok {
        return;
      }
      i := i + 1;
    }
    ok := true;
  }

  lemma AsReadStays(which: Which, cm: ConfigMap, w0: World, w1: World)
    requires Rely(true, w0, w1) && ConfigAsRead(which, cm, w0)
    ensures ConfigAsRead(which, cm, w1)
  {
  }

  lemma WorkDone(h: History, spec: Spec, cm: ConfigMap, annotations: Annotation)
    requires Words(spec.plugins) && cm.data == FileText(spec.plugins)
    requires h.cluster.spec.plugins == spec.plugins && h.cluster.spec.replicas == spec.replicas
    requires forall p :: 0 <= p < spec.replicas ==> RanSince(h, SetPlugins(p, CommandText(spec.plugins)), cm.version)
    ensures KeepsWork(PluginsMap, h, cm, cm.(annotations := annotations))
  {
    FileAndCommandAgree(spec.plugins);
  }

  /** The marker is deleted with the version read before the commands ran. */
  method RunSetPluginsCommand(api: ApiServer, spec: Spec, cm: ConfigMap) returns (r: Result<()>)
    requires CanBuild(api) && ConfigAsRead(PluginsMap, cm, api.w) && api.w.plugins.Some?
    requires Words(spec.plugins) && cm.data == FileText(spec.plugins)
    requires api.h.cluster.spec.plugins == spec.plugins && api.h.cluster.spec.replicas == spec.replicas
    modifies api
    ensures Good(api) && old(api.log) <= api.log && OnlyConfig(PluginsMap, old(api.w), api.w)
    ensures RanMore(old(api.h), api.h)
    ensures r.Ok? ==> ConfigBuilt(PluginsMap, api.w, spec) && !PluginsPending(api.w)
    ensures Answered(r, TheConfig(PluginsMap), old(api.heard), api.heard)
    ensures r.Err? ==> !r.error.NotFound?
  {
    var ok := SetPluginsOnPods(api, spec, cm.version);
    AsReadStays(PluginsMap, cm, old(api.w), api.w);
    RelyIsOnly(old(api.w), api.w);
    if !ok {
      return Err(Refused);
    }
    ghost var w1 := api.w;
    var bare := cm.(annotations := cm.annotations - {PLUGINS_UPDATED_AT});
    ghost var h1 := api.h;
    WorkDone(h1, spec, cm, bare.annotations);
    var put := api.PutConfig(PluginsMap, bare);
    ConfigCallSafe(old(api.log), api.log, h1, w1, api.w, PluginsMap, cm, bare);
    OnlyConfigTransitive(PluginsMap, old(api.w), w1, api.w);
    r := if put.Ok? then Ok(()) else Err(put.error);
  }

  lemma StsAsReadStays(s: StatefulSet, w0: World, w1: World)
    requires Rely(true, w0, w1) && StsAsRead(s, w0)
    ensures StsAsRead(s, w1)
  {
  }

  /** `deleteAnnotation` of the creation marker, with the version read before the command ran. */
  method DropCreationMarker(api: ApiServer, spec: Spec, sts: StatefulSet) returns (r: Result<()>)
    requires CanBuild(api) && StsAsRead(sts, api.w)
    requires Fits(api.w, api.h.cluster.uid, spec) && Allowed(api.h, spec.replicas)
    requires RanSince(api.h, EnableFeatureFlags, sts.version) && MayBecome(sts, sts, api.h.cluster.uid, spec)
    modifies api
    ensures Answered(r, TheSts, old(api.heard), api.heard)
    ensures Good(api) && old(api.log) <= api.log && OnlySts(old(api.w), api.w) && api.h == old(api.h)
    ensures r.Ok? ==>
      && Fits(api.w, api.h.cluster.uid, spec) && !FlagsPending(api.w)
      && HasDesign(api.w, sts.(annotations := sts.annotations - {CREATED_AT}))
  {
    var bare := sts.(annotations := sts.annotations - {CREATED_AT});
    var put := api.PutSts(bare);
    StsCallSafe(old(api.log), api.log, api.h, old(api.w), api.w, spec, sts, bare);
    r := if put.Ok? then Ok(()) else Err(put.error);
  }

  method RunEnableFeatureFlagsCommand(api: ApiServer, spec: Spec, sts: StatefulSet) returns (r: Result<()>)
    requires CanBuild(api) && StsAsRead(sts, api.w)
    requires Fits(api.w, api.h.cluster.uid, spec) && Allowed(api.h, spec.replicas)
    requires MayBecome(sts, sts, api.h.cluster.uid, spec)
    modifies api
    ensures Answered(r, TheSts, old(api.heard), api.heard)
    ensures Good(api) && old(api.log) <= api.log && OnlySts(old(api.w), api.w) && RanMore(old(api.h), api.h)
    ensures r.Ok? ==>
      && Fits(api.w, api.h.cluster.uid, spec) && !FlagsPending(api.w)
      && HasDesign(api.w, sts.(annotations := sts.annotations - {CREATED_AT}))
  {
    var ok := api.Exec(EnableFeatureFlags);
    StsAsReadStays(sts, old(api.w), api.w);
    RelyIsOnly(old(api.w), api.w);
    if !ok {
      return Err(Refused);
    }
    ghost var w1 := api.w;
    FitsStays(old(api.w), w1, api.h.cluster.uid, spec);
    r := DropCreationMarker(api, spec, sts);
    OnlyStsTransitive(old(api.w), w1, api.w);
  }

  /** Only the rebalance marker of the cluster is another one, and what the server numbers. */
  ghost predicate SameButMarker(c0: Cluster, c1: Cluster) {
    c1 == c0.(version := c1.version, generation := c1.generation, annotations := c1.annotations)
  }

  /** `deleteAnnotation` of the rebalance marker. */
  method DropRebalanceMarker(api: ApiServer, rmq: RabbitmqCluster) returns (r: Result<()>)
    requires InRun(api, rmq) && RanSince(api.h, RebalanceQueues, rmq.version)
    modifies api, rmq, rmq.status
    ensures Good(api) && old(api.log) <= api.log && Rely(true, old(api.w), api.w) && Met(old(api.h), api.h)
    ensures r.Ok? ==> InRun(api, rmq) && !Marked(rmq.annotations, QUEUE_REBALANCE_NEEDED_AT)
    ensures SameButMarker(old(rmq.Snapshot()), rmq.Snapshot())
    ensures r.Err? ==> CanReport(api, rmq)
    ensures Answered(r, TheCluster, old(api.heard), api.heard)
  {
    ghost var was := rmq.Snapshot();
    rmq.annotations := rmq.annotations - {QUEUE_REBALANCE_NEEDED_AT};
    r := UpdateCluster(api, rmq, was);
  }

  method RunQueueRebalanceCommand(api: ApiServer, rmq: RabbitmqCluster) returns (r: Result<()>)
    requires InRun(api, rmq)
    modifies api, rmq, rmq.status
    ensures Good(api) && old(api.log) <= api.log && Rely(true, old(api.w), api.w) && RanOn(old(api.h), api.h)
    ensures r.Ok? ==>
      InRun(api, rmq) && !Marked(rmq.annotations, QUEUE_REBALANCE_NEEDED_AT) && RebalanceQueues in api.h.ran
    ensures SameButMarker(old(rmq.Snapshot()), rmq.Snapshot())
    ensures r.Err? ==> CanReport(api, rmq)
    ensures Answered(r, TheCluster, old(api.heard), api.heard)
  {
    var ok := api.Exec(RebalanceQueues);
    ghost var w1 := api.w;
    InRunStays(true, api.h, rmq.Snapshot(), old(api.w), w1);
    if !ok {
      return Err(Refused);
    }
    r := DropRebalanceMarker(api, rmq);
    RelyTransitive(true, old(api.w), w1, api.w);
  }

  // ---------- runRabbitmqCLICommandsIfAnnotated ----------

  /** The children as the builders left them. */
  ghost predicate ChildrenBuilt(w: World, uid: nat, spec: Spec) {
    ConfigBuilt(PluginsMap, w, spec) && ConfigBuilt(ConfMap, w, spec) && Fits(w, uid, spec) && Restarted(w)
  }

  lemma ChildrenStay(w0: World, w1: World, uid: nat, spec: Spec)
    requires Rely(true, w0, w1)
    ensures ChildrenBuilt(w0, uid, spec) ==> ChildrenBuilt(w1, uid, spec)
    ensures !PluginsPending(w0) ==> !PluginsPending(w1)
    ensures !FlagsPending(w0) ==> !FlagsPending(w1)
  {
    if ChildrenBuilt(w0, uid, spec) {
      FitsStays(w0, w1, uid, spec);
      RestartedStays(w0, w1);
    }
  }

  /** What was read at the gate is still good to write: it fits, is restarted, and says whether flags are pending. */
  ghost predicate GateRead(sts: StatefulSet, w: World, uid: nat, spec: Spec) {
    && StsAsRead(sts, w) && MayBecome(sts, sts, uid, spec)
    && (ConfStamp(w).Some? ==> RestartStamp(sts).Some? && AtMost(ConfStamp(w).value, RestartStamp(sts).value))
    && (!Marked(sts.annotations, CREATED_AT) ==> !FlagsPending(w))
  }

  lemma GateReadAtRead(w: World, uid: nat, spec: Spec)
    requires Wellformed(w) && w.sts.Some? && Fits(w, uid, spec) && Restarted(w)
    ensures GateRead(w.sts.value, w, uid, spec)
  {
  }

  lemma GateReadStays(sts: StatefulSet, w0: World, w1: World, uid: nat, spec: Spec)
    requires GateRead(sts, w0, uid, spec) && (Rely(true, w0, w1) || OnlyConfig(PluginsMap, w0, w1))
    ensures GateRead(sts, w1, uid, spec)
  {
  }

  lemma ChildrenAfterPlugins(w0: World, w1: World, uid: nat, spec: Spec)
    requires OnlyConfig(PluginsMap, w0, w1) && ChildrenBuilt(w0, uid, spec) && ConfigBuilt(PluginsMap, w1, spec)
    ensures ChildrenBuilt(w1, uid, spec)
  {
    BelowStays(w0, w1, spec);
  }

  lemma AfterPlugins(sts: StatefulSet, w0: World, w1: World, uid: nat, spec: Spec)
    requires OnlyConfig(PluginsMap, w0, w1) && ChildrenBuilt(w0, uid, spec) && GateRead(sts, w0, uid, spec)
    ensures GateRead(sts, w1, uid, spec) && (ConfigBuilt(PluginsMap, w1, spec) ==> ChildrenBuilt(w1, uid, spec))
  {
    GateReadStays(sts, w0, w1, uid, spec);
    if ConfigBuilt(PluginsMap, w1, spec) { ChildrenAfterPlugins(w0, w1, uid, spec); }
  }

  /** Between the gate and the end of the commands. */
  ghost predicate AtCommands(api: ApiServer, rmq: RabbitmqCluster, sts: StatefulSet)
    reads api, rmq, rmq.status
  {
    && InRun(api, rmq) && Building(api.h)
    && ChildrenBuilt(api.w, api.h.cluster.uid, rmq.spec) && Allowed(api.h, rmq.spec.replicas)
    && GateRead(sts, api.w, api.h.cluster.uid, rmq.spec)
  }

  /** The children are as the specification wants them and no marker is left. */
  ghost predicate CaughtUp(api: ApiServer, rmq: RabbitmqCluster)
    reads api, rmq, rmq.status
  {
    && InRun(api, rmq) && ChildrenBuilt(api.w, api.h.cluster.uid, rmq.spec)
    && !PluginsPending(api.w) && !FlagsPending(api.w) && !Marked(rmq.annotations, QUEUE_REBALANCE_NEEDED_AT)
  }

  method SetPluginsIfMarked(api: ApiServer, rmq: RabbitmqCluster, sts: StatefulSet, cm: ConfigMap)
    returns (r: Result<()>)
    requires AtCommands(api, rmq, sts) && api.w.plugins == Some(cm)
    modifies api
    ensures Good(api) && old(api.log) <= api.log && RanMore(old(api.h), api.h)
    ensures r.Ok? ==> AtCommands(api, rmq, sts) && !PluginsPending(api.w)
    ensures r.Err? ==> CanReport(api, rmq)
    ensures Answered(r, TheConfig(PluginsMap), old(api.heard), api.heard) && (r.Err? ==> !r.error.NotFound?)
  {
    r := Ok(());
    if cm.annotations != map[] && Marked(cm.annotations, PLUGINS_UPDATED_AT) {
      r := RunSetPluginsCommand(api, rmq.spec, cm);
      OnlyConfigKeepsTrack(PluginsMap, rmq.Snapshot(), old(api.w), api.w);
      AfterPlugins(sts, old(api.w), api.w, api.h.cluster.uid, rmq.spec);
    }
  }

  method EnableFlagsIfMarked(api: ApiServer, rmq: RabbitmqCluster, sts: StatefulSet) returns (r: Result<()>)
    requires AtCommands(api, rmq, sts) && !PluginsPending(api.w)
    modifies api
    ensures Good(api) && old(api.log) <= api.log && RanMore(old(api.h), api.h)
    ensures r.Ok? ==>
      && InRun(api, rmq) && ChildrenBuilt(api.w, api.h.cluster.uid, rmq.spec)
      && !PluginsPending(api.w) && !FlagsPending(api.w)
    ensures r.Err? ==> CanReport(api, rmq)
    ensures Answered(r, TheSts, old(api.heard), api.heard)
  {
    if sts.annotations != map[] && Marked(sts.annotations, CREATED_AT) {
      r := RunEnableFeatureFlagsCommand(api, rmq.spec, sts);
    } else {
      r := Ok(());
    }
  }

  method RebalanceIfMarked(api: ApiServer, rmq: RabbitmqCluster) returns (r: Result<()>)
    requires InRun(api, rmq) && ChildrenBuilt(api.w, api.h.cluster.uid, rmq.spec)
    requires !PluginsPending(api.w) && !FlagsPending(api.w)
    modifies api, rmq, rmq.status
    ensures Answered(r, TheCluster, old(api.heard), api.heard)
    ensures Good(api) && old(api.log) <= api.log && RanOn(old(api.h), api.h)
    ensures r.Ok? ==> CaughtUp(api, rmq)
    ensures r.Ok? && Marked(old(rmq.annotations), QUEUE_REBALANCE_NEEDED_AT) ==> RebalanceQueues in api.h.ran
    ensures SameButMarker(old(rmq.Snapshot()), rmq.Snapshot())
    ensures r.Err? ==> CanReport(api, rmq)
  {
    if rmq.annotations != map[] && Marked(rmq.annotations, QUEUE_REBALANCE_NEEDED_AT) {
      r := RunQueueRebalanceCommand(api, rmq);
      ChildrenStay(old(api.w), api.w, api.h.cluster.uid, old(rmq.spec));
    } else {
      r := Ok(());
    }
  }

  /** What stops the commands: one that failed, or the server when their marker was to be taken away. */
  ghost predicate CommandTrouble(e: ApiError, a0: multiset<Answer>, a1: multiset<Answer>) {
    || (Given(e, TheConfig(PluginsMap), a0, a1) && !e.NotFound?)
    || Given(e, TheSts, a0, a1) || Given(e, TheCluster, a0, a1) || Unreadable(e, a0, a1)
  }

  lemma CommandTroubleStays(e: ApiError, a: multiset<Answer>, a0: multiset<Answer>, a1: multiset<Answer>)
    requires a <= a0 && CommandTrouble(e, a0, a1)
    ensures CommandTrouble(e, a, a1)
  {
  }

  /** Plugins first, then feature flags, then the queues; a failure leaves the rest for a later run. */
  method RunMarkedCommands(api: ApiServer, rmq: RabbitmqCluster, sts: StatefulSet, cm: ConfigMap)
    returns (r: Result<()>)
    requires AtCommands(api, rmq, sts) && api.w.plugins == Some(cm)
    modifies api, rmq, rmq.status
    ensures Good(api) && old(api.log) <= api.log && RanOn(old(api.h), api.h)
    ensures r.Ok? ==> CaughtUp(api, rmq)
    ensures r.Ok? && Marked(old(rmq.annotations), QUEUE_REBALANCE_NEEDED_AT) ==> RebalanceQueues in api.h.ran
    ensures SameButMarker(old(rmq.Snapshot()), rmq.Snapshot())
    ensures r.Err? ==> CanReport(api, rmq)
    ensures old(api.heard) <= api.heard && (r.Err? ==> CommandTrouble(r.error, old(api.heard), api.heard))
  {
    r := SetPluginsIfMarked(api, rmq, sts, cm);
    if r.Err? {
      return;
    }
    r := EnableFlagsIfMarked(api, rmq, sts);
    if r.Err? {
      return;
    }
    r := RebalanceIfMarked(api, rmq);
  }

  /** The StatefulSet; None unless all its replicas are ready and on one revision. */
  method ReadyStatefulSet(api: ApiServer, spec: Spec) returns (r: Result<Option<StatefulSet>>)
    requires Good(api) && api.exclusive && ChildrenBuilt(api.w, api.h.cluster.uid, spec)
    modifies api
    ensures Good(api) && Quiet(true, old(api.log), api.log, old(api.w), api.w)
    ensures CommandGate in api.h.seen
    ensures api.h == old(api.h).(seen := old(api.h).seen[CommandGate := api.h.seen[CommandGate]])
    ensures ChildrenBuilt(api.w, api.h.cluster.uid, spec)
    ensures r.Ok? && r.value.Some? ==>
      && GateRead(r.value.value, api.w, api.h.cluster.uid, spec) && api.h.seen[CommandGate] == r.value
      && FullyReady(r.value.value)
    ensures r == Ok(None) ==> api.h.seen[CommandGate].Some? && !FullyReady(api.h.seen[CommandGate].value)
    ensures Answered(r, TheSts, old(api.heard), api.heard)
  {
    var sts := api.GetSts(CommandGate);
    ChildrenStay(old(api.w), api.w, api.h.cluster.uid, spec);
    if sts.Err? {
      return Err(sts.error);
    }
    if !AllReplicasReadyAndUpdated(sts.value) {
      return Ok(None);
    }
    GateReadAtRead(api.w, api.h.cluster.uid, spec);
    r := Ok(Some(sts.value));
  }

  /** The plugins ConfigMap; None when it was written less than two seconds ago. */
  method SettledPluginsConfig(api: ApiServer) returns (r: Result<Option<ConfigMap>>)
    requires Good(api)
    modifies api
    ensures Good(api) && Quiet(api.exclusive, old(api.log), api.log, old(api.w), api.w) && api.h == old(api.h)
    ensures r.Ok? && r.value.Some? ==> api.w.plugins == r.value && PluginsQuiet(api.w)
    ensures r == Ok(None) ==> JustMarked(api.w)
    ensures old(api.heard) <= api.heard
    ensures r.Err? ==>
      || Unreadable(r.error, old(api.heard), api.heard)
      || (Given(r.error, TheConfig(PluginsMap), old(api.heard), api.heard)
          && (r.error.NotFound? ==> api.w.plugins.None?))
  {
    var cm := api.GetConfig(PluginsMap);
    if cm.Err? {
      return Err(cm.error);
    }
    var recently := UpdatedRecently(cm.value.annotations, api.w.clock);
    if recently.None? {
      return Err(Declined(UnreadableMarker(cm.value)));
    }
    r := Ok(if recently.value then None else Some(cm.value));
  }

  /** Why the commands have to wait: the plugin list has just changed, or the StatefulSet is not ready. */
  ghost predicate NotYet(w: World, h: History, seconds: nat)
    requires Wellformed(w)
  {
    && CommandGate in h.seen && h.seen[CommandGate].Some?
    && if seconds == 2 then FullyReady(h.seen[CommandGate].value) && JustMarked(w)
       else seconds == 15 && !FullyReady(h.seen[CommandGate].value)
  }

  datatype Gate = Wait(seconds: nat) | Go(sts: StatefulSet, cm: ConfigMap)

  /** The reads that decide whether commands are run now. */
  method PassGate(api: ApiServer, spec: Spec) returns (r: Result<Gate>)
    requires Good(api) && api.exclusive && ChildrenBuilt(api.w, api.h.cluster.uid, spec)
    modifies api
    ensures Good(api) && Quiet(true, old(api.log), api.log, old(api.w), api.w)
    ensures CommandGate in api.h.seen
    ensures api.h == old(api.h).(seen := old(api.h).seen[CommandGate := api.h.seen[CommandGate]])
    ensures ChildrenBuilt(api.w, api.h.cluster.uid, spec)
    ensures r.Ok? && r.value.Wait? ==> NotYet(api.w, api.h, r.value.seconds) && r.value.seconds > 0
    ensures r.Ok? && r.value.Go? ==>
      && api.w.plugins == Some(r.value.cm) && GateRead(r.value.sts, api.w, api.h.cluster.uid, spec)
      && PluginsQuiet(api.w) && api.h.seen[CommandGate] == Some(r.value.sts) && FullyReady(r.value.sts)
    ensures old(api.heard) <= api.heard && (r.Err? ==> CommandTrouble(r.error, old(api.heard), api.heard))
  {
    var sts := ReadyStatefulSet(api, spec);
    if sts.Err? {
      return Err(sts.error);
    }
    if sts.value.None? {
      return Ok(Wait(15));
    }
    ghost var w1 := api.w;
    var settled := SettledPluginsConfig(api);
    RelyTransitive(true, old(api.w), w1, api.w);
    ChildrenStay(w1, api.w, api.h.cluster.uid, spec);
    GateReadStays(sts.value.value, w1, api.w, api.h.cluster.uid, spec);
    if settled.Err? {
      return Err(settled.error);
    }
    r := Ok(if settled.value.None? then Wait(2) else Go(sts.value.value, settled.value.value));
  }

  /** The StatefulSet was read fully ready on one revision. */
  ghost predicate GatePassed(h: History) {
    && CommandGate in h.seen && h.seen[CommandGate].Some?
    && FullyReady(h.seen[CommandGate].value)
  }

  /** Between the two moments of a run only the gate was read, commands were run and a conflict was met. */
  ghost predicate Commanded(h0: History, h1: History) {
    CommandGate in h1.seen && RanOn(h0.(seen := h0.seen[CommandGate := h1.seen[CommandGate]]), h1)
  }

  lemma CommandedThen(h0: History, h1: History, h2: History)
    requires Commanded(h0, h1) && RanOn(h1, h2)
    ensures Commanded(h0, h2) && (GatePassed(h1) ==> GatePassed(h2))
  {
  }

  /** The gate in the course of a run: past it, commands may be run. */
  method GateStage(api: ApiServer, rmq: RabbitmqCluster) returns (passed: Result<Gate>)
    requires InRun(api, rmq) && Building(api.h)
    requires ChildrenBuilt(api.w, api.h.cluster.uid, rmq.spec) && Allowed(api.h, rmq.spec.replicas)
    modifies api
    ensures InRun(api, rmq) && api.log == old(api.log) && Rely(true, old(api.w), api.w)
    ensures Commanded(old(api.h), api.h)
    ensures passed.Ok? && passed.value.Wait? ==> NotYet(api.w, api.h, passed.value.seconds) && passed.value.seconds > 0
    ensures passed.Ok? && passed.value.Go? ==>
      && AtCommands(api, rmq, passed.value.sts) && api.w.plugins == Some(passed.value.cm)
      && PluginsQuiet(api.w) && GatePassed(api.h)
    ensures old(api.heard) <= api.heard && (passed.Err? ==> CommandTrouble(passed.error, old(api.heard), api.heard))
  {
    passed := PassGate(api, rmq.spec);
    InRunStays(true, api.h, rmq.Snapshot(), old(api.w), api.w);
  }

  /**
   The result is the number of seconds after which to try again. When it is zero, every marker the
   run read has been worked off, the StatefulSet was fully ready on one revision, and at the moment
   `gate` the plugin list had been left alone for two seconds.
   */
  method RunRabbitmqCLICommandsIfAnnotated(api: ApiServer, rmq: RabbitmqCluster)
    returns (r: Result<nat>, ghost gate: World)
    requires InRun(api, rmq) && Building(api.h)
    requires ChildrenBuilt(api.w, api.h.cluster.uid, rmq.spec) && Allowed(api.h, rmq.spec.replicas)
    modifies api, rmq, rmq.status
    ensures old(api.heard) <= api.heard && (r.Err? ==> CommandTrouble(r.error, old(api.heard), api.heard))
    ensures Good(api) && old(api.log) <= api.log && Commanded(old(api.h), api.h)
    ensures SameButMarker(old(rmq.Snapshot()), rmq.Snapshot())
    ensures r == Ok(0) ==> CaughtUp(api, rmq) && GatePassed(api.h)
    ensures Rely(true, old(api.w), gate) && (r == Ok(0) ==> PluginsQuiet(gate))
    ensures r == Ok(0) && Marked(old(rmq.annotations), QUEUE_REBALANCE_NEEDED_AT) ==> RebalanceQueues in api.h.ran
    ensures r.Err? ==> CanReport(api, rmq)
    ensures r.Err? || r.value == 0 || (api.log == old(api.log) && NotYet(api.w, api.h, r.value))
  {
    var passed := GateStage(api, rmq);
    gate := api.w;
    if passed.Err? {
      r := Err(passed.error);
    } else if passed.value.Wait? {
      r := Ok(passed.value.seconds);
    } else {
      ghost var h1, a1 := api.h, api.heard;
      var done := RunMarkedCommands(api, rmq, passed.value.sts, passed.value.cm);
      CommandedThen(old(api.h), h1, api.h);
      if done.Err? { CommandTroubleStays(done.error, old(api.heard), a1, api.heard); }
      r := if done.Ok? then Ok(0) else Err(done.error);
    }
  }
}
