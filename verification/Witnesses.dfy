/**
 Concrete histories in which the operator does less than its comments say. Each of their steps is a
 write of the very form the operator makes: `TextWritten`, `CreatedFrom` and `RestartWritten` are
 what the methods of `Configurations` and `StatefulSets` promise of theirs.
 */
module Witnesses {
  import opened Wrappers
  import opened Text
  import opened Timestamps
  import opened Annotations
  import opened Plugins
  import opened Builders
  import opened ClusterSpec
  import opened Objects
  import opened Worlds
  import opened Steps
  import opened Api
  import opened Runs
  import opened Configurations
  import opened StatefulSets
  import opened Traces

  // ---------- a small cluster ----------

  function SampleSpec(image: string, plugins: seq<Plugin>, serverConf: string): Spec {
    Spec(1, image, Some([]), 10, ClusterIP, plugins, serverConf, TLSSpec("", "", false), None, false, None, None)
  }

  function SampleCluster(spec: Spec, version: nat): Cluster {
    Cluster("sample", 0, version, 1, false, true, false, map[], spec, [], 0, None, None)
  }

  function SampleSts(version: nat, podAnnotations: Annotation): StatefulSet {
    StatefulSet(1, version, Some(0), 1, Some(10), map[], podAnnotations, None, None, 1, "", "", false)
  }

  /** The turn of a year, and a second later. */
  function Midnight(second: nat): DateTime { DateTime(2024, 1, 1, 0, 0, second, 0) }

  function Store(revision: nat, clock: DateTime, cluster: Cluster, sts: Option<StatefulSet>,
      plugins: ConfigMap, conf: ConfigMap): World {
    World(revision, 2, clock, Some(cluster), sts, map[], Some(plugins), Some(conf), map[], map[], None)
  }

  function SampleRun(run: nat, began: DateTime, cluster: Cluster, sts: Option<StatefulSet>, conflicted: bool): History {
    var seen := map[RebalanceCheck := sts, ScaleDownCheck := sts];
    History(run, began, cluster, seen, map[], None, map[], {}, map[], conflicted, None)
  }

  /** One safe step makes a history. */
  lemma OneStep(s: Step)
    requires SafeStep(s) && s.h.due == map[]
    ensures Trace(true, s.pre, [s], s.post)
  {
    RelyReflexive(true, s.pre);
    RelyReflexive(true, s.post);
    forall k | 0 <= k <= 1 ensures LinkedAt(true, s.pre, [s], s.post, k) {}
    assert AllSafe([s]);
  }

  /** Plugin lists that de-duplicate differently are written differently. */
  lemma DifferentTexts(was: seq<Plugin>, wanted: seq<Plugin>)
    requires Words(was) && Words(wanted) && Desired(was) != Desired(wanted)
    ensures FileText(was) != FileText(wanted)
  {
    FileAndCommandAgree(was);
    FileAndCommandAgree(wanted);
  }

  // ---------- lost markers ----------

  function Listing(revision: nat, stored: Cluster, listed: seq<Plugin>): World {
    Store(revision, Midnight(0), stored, None, ConfigMap(revision, FileText(listed), map[]),
          ConfigMap(0, stored.spec.serverConf, map[]))
  }

  /** One step, of the form a ConfigMap builder writes, that owes a marker and leaves none. */
  ghost predicate LosesPluginsMarker(init: World, s: Step, now: World, was: seq<Plugin>, wanted: seq<Plugin>) {
    && Trace(true, init, [s], now) && Building(s.h) && MakesDue(s, PluginsMarker)
    && s.h.cluster.spec.plugins == wanted && s.pre.plugins.Some? && s.pre.plugins.value.data == FileText(was)
    && TextWritten(s, PluginsMap, s.h.cluster.annotations, DesiredData(PluginsMap, s.h.cluster.spec))
    && MarkerStamp(now, PluginsMarker).None?
  }

  /**
   For any two plugin lists that differ: a run replaces the one by the other and stops. No marker,
   and by `LostMarkerStaysLost` none to come.
   */
  lemma PluginsMarkerCanBeLost(was: seq<Plugin>, wanted: seq<Plugin>)
    requires Words(was) && Words(wanted) && Desired(was) != Desired(wanted)
    ensures exists init: World, s: Step, now: World :: LosesPluginsMarker(init, s, now, was, wanted)
  {
    DifferentTexts(was, wanted);
    var c := SampleCluster(SampleSpec("rabbitmq", wanted, ""), 0);
    var pre, post := Listing(0, c, was), Listing(1, c, wanted);
    var s := Step(Op.PutConfig(PluginsMap), SampleRun(1, Midnight(0), c, None, false), pre, post);
    assert SafeStep(s);
    OneStep(s);
    assert LosesPluginsMarker(s.pre, s, s.post, was, wanted);
  }

  function Configured(revision: nat, stored: Cluster, text: string, u: string, stamp: string): World {
    Store(revision, Midnight(1), stored, Some(SampleSts(0, map[LAST_RESTART_AT := stamp])),
          ConfigMap(0, FileText([]), map[]), ConfigMap(revision, text, map[SERVER_CONF_UPDATED_AT := u]))
  }

  /** One step, of the form a ConfigMap builder writes, whose new text no restart will roll out. */
  ghost predicate LosesRestart(init: World, s: Step, now: World, u: string) {
    && Trace(true, init, [s], now) && Building(s.h) && Unmarked([s], ConfMarker, 0)
    && TextWritten(s, ConfMap, s.h.cluster.annotations, DesiredData(ConfMap, s.h.cluster.spec))
    && ConfStamp(now) == Some(u) && now.sts.Some? && Settled(RestartStamp(now.sts.value), u)
  }

  /**
   The cluster has been restarted for an older marker; a run writes a new server configuration and
   stops. The older marker stays, and by `LostConfChangeIsNeverRestarted` no restart follows.
   */
  lemma RestartCanBeLost(before: string, after: string)
    requires before != after
    ensures exists init: World, s: Step, now: World, u: string :: LosesRestart(init, s, now, u)
  {
    var u, stamp := Format(Midnight(0)), Format(Midnight(1));
    assert Valid(Midnight(0)) && Valid(Midnight(1)) && Instant(Midnight(0)) < Instant(Midnight(1));
    StampOrderIsTimeOrder(Midnight(0), Midnight(1));
    LosesRestartAt(before, after, u, stamp);
  }

  /** A run that writes a new server configuration over another one, whose marker is `u`. */
  function Reconfiguring(before: string, after: string, u: string, stamp: string): Step {
    var c := SampleCluster(SampleSpec("rabbitmq", [], after), 0);
    Step(Op.PutConfig(ConfMap), SampleRun(1, Midnight(1), c, None, false),
         Configured(0, c, before, u, stamp), Configured(1, c, after, u, stamp))
  }

  lemma ReconfiguringIsSafe(before: string, after: string, u: string, stamp: string)
    requires before != after
    ensures SafeStep(Reconfiguring(before, after, u, stamp))
  {
  }

  lemma LosesRestartAt(before: string, after: string, u: string, stamp: string)
    requires before != after && Less(u, stamp)
    ensures exists init: World, s: Step, now: World :: LosesRestart(init, s, now, u)
  {
    var s := Reconfiguring(before, after, u, stamp);
    ReconfiguringIsSafe(before, after, u, stamp);
    OneStep(s);
    assert LosesRestart(s.pre, s, s.post, u);
  }

  /** One step, of the form the StatefulSet builder creates, that owes a marker and leaves none. */
  ghost predicate LosesCreationMarker(init: World, s: Step, now: World) {
    && Trace(true, init, [s], now) && Building(s.h) && MakesDue(s, CreationMarker)
    && CreatedFrom(s, s.h.cluster, Built(s.h.cluster)) && Fits(s.post, s.h.cluster.uid, s.h.cluster.spec)
    && now.sts.Some? && MarkerStamp(now, CreationMarker).None?
  }

  /** A run creates the StatefulSet and stops: no creation marker, so nothing asks for its feature flags. */
  lemma CreationMarkerCanBeLost()
    ensures exists init: World, s: Step, now: World :: LosesCreationMarker(init, s, now)
  {
    var c := SampleCluster(SampleSpec("rabbitmq", [], ""), 0);
    var pre := Listing(0, c, []);
    var made := Rebuilt(c, Built(c)).(uid := 2, version := 1);
    var post := pre.(revision := 1, nextUid := 3, sts := Some(made));
    MergedOne(true, map[], map[]);
    MergedOne(false, map[], map[]);
    var s := Step(Op.CreateSts, SampleRun(1, Midnight(0), c, None, false), pre, post);
    assert Fits(post, c.uid, c.spec);
    RebuiltIsMade(c, Built(c), c);
    StsCreationStepSafe(s, c.spec, Rebuilt(c, Built(c)));
    OneStep(s);
    assert LosesCreationMarker(s.pre, s, s.post);
  }

  // ---------- a swallowed conflict ----------

  /**
   A step, of the form a ConfigMap builder writes, of a run that has met a conflict and carries an
   image nobody has stored.
   */
  ghost predicate GoesOn(init: World, s: Step, now: World, carried: Cluster) {
    && Trace(true, init, [s], now) && s.h.conflicted && Building(s.h)
    && Tracks(carried, s.pre) && Heeds(s.h, carried.version, s.pre) && Carries(carried, s.h.cluster)
    && TextWritten(s, PluginsMap, carried.annotations, DesiredData(PluginsMap, carried.spec))
    && s.h.cluster.spec.image == "" && s.pre.cluster.Some? && s.pre.cluster.value.spec.image != carried.spec.image
  }

  /** A run that met a conflict while it filled in the image goes on, and still writes the plugin list. */
  lemma RunCanGoOnPastConflict(was: seq<Plugin>, wanted: seq<Plugin>)
    requires Words(was) && Words(wanted) && Desired(was) != Desired(wanted)
    ensures exists init: World, s: Step, now: World, carried: Cluster :: GoesOn(init, s, now, carried)
  {
    DifferentTexts(was, wanted);
    var bare := SampleSpec("", wanted, "");
    var began, stored := SampleCluster(bare, 0), SampleCluster(bare, 1);
    var carried := SampleCluster(bare.(image := "rabbitmq"), 0);
    var pre, post := Listing(1, stored, was), Listing(2, stored, wanted);
    var s := Step(Op.PutConfig(PluginsMap), SampleRun(1, Midnight(0), began, None, true), pre, post);
    assert SafeStep(s);
    OneStep(s);
    assert Carries(carried, began);
    assert |bare.image| == 0 && |carried.spec.image| == 8;
    assert GoesOn(s.pre, s, s.post, carried);
  }

  // ---------- a repeated restart ----------

  function Restarting(revision: nat, clock: DateTime, stamps: Annotation, u: string): World {
    Store(revision, clock, SampleCluster(SampleSpec("rabbitmq", [], ""), 0), Some(SampleSts(revision, stamps)),
          ConfigMap(0, FileText([]), map[]), ConfigMap(0, "", map[SERVER_CONF_UPDATED_AT := u]))
  }

  /** A run that begins and restarts the StatefulSet at `clock`. */
  function RestartStep(run: nat, revision: nat, clock: DateTime, was: Annotation, u: string): Step {
    var pre := Restarting(revision, clock, was, u);
    Step(Op.PutSts, SampleRun(run, clock, SampleCluster(SampleSpec("rabbitmq", [], ""), 0), pre.sts, false), pre,
         Restarting(revision + 1, clock, was[LAST_RESTART_AT := Format(clock)], u))
  }

  lemma RestartStepSafe(run: nat, revision: nat, clock: DateTime, was: Annotation, u: string)
    requires Valid(clock) && AtMost(u, Format(clock)) && !Settled(Stamp(was, LAST_RESTART_AT), u)
    ensures
      var s := RestartStep(run, revision, clock, was, u);
      SafeStep(s) && Building(s.h) && RestartWritten(s, s.h.cluster.spec, Format(clock))
  {
    var s := RestartStep(run, revision, clock, was, u);
    LessTotal(Format(clock), Format(clock));
    assert Fits(s.post, s.h.cluster.uid, s.h.cluster.spec);
    FittingIsCovered(s.post, s.h.cluster.uid, s.h.cluster.spec);
  }

  /** Two runs, each of which restarts the same StatefulSet for the same marker the way the operator does. */
  ghost predicate TwoRestarts(init: World, log: seq<Step>, now: World, uid: nat, u: string) {
    && Trace(true, init, log, now) && |log| == 2 && CaseHolds(log, now, 0, uid, u) && log[0].h.run < log[1].h.run
    && (forall k :: 0 <= k < 2 ==>
        && Building(log[k].h)
        && RestartWritten(log[k], log[k].h.cluster.spec, Format(log[k].pre.clock))
        && RestartStamp(log[k].pre.sts.value) != RestartStamp(log[k].post.sts.value))
  }

  /** A restart in the second its marker names is followed by another one, by a later run a second later. */
  lemma RestartCanRepeat()
    ensures exists init: World, log: seq<Step>, now: World, uid: nat, u: string :: TwoRestarts(init, log, now, uid, u)
  {
    var t0, t1 := Midnight(0), Midnight(1);
    assert Valid(t0) && Valid(t1) && Instant(t0) < Instant(t1);
    StampOrderIsTimeOrder(t0, t1);
    RestartTwice(t0, t1);
  }

  lemma RestartTwice(t0: DateTime, t1: DateTime)
    requires Valid(t0) && Valid(t1) && t0.offset == t1.offset && Instant(t0) <= Instant(t1)
    requires Less(Format(t0), Format(t1))
    ensures exists init: World, log: seq<Step>, now: World, uid: nat, u: string :: TwoRestarts(init, log, now, uid, u)
  {
    var u := Format(t0);
    LessTotal(u, Format(t1));
    LessTotal(u, u);
    var first: Annotation := map[];
    RestartStepSafe(1, 0, t0, first, u);
    RestartStepSafe(2, 1, t1, first[LAST_RESTART_AT := u], u);
    var s0, s1 := RestartStep(1, 0, t0, first, u), RestartStep(2, 1, t1, first[LAST_RESTART_AT := u], u);
    TwoSteps(s0, s1);
    TwoStepsCase(s0, s1, 1, u);
    assert TwoRestarts(s0.pre, [s0, s1], s1.post, 1, u);
  }

  lemma TwoSteps(s0: Step, s1: Step)
    requires SafeStep(s0) && SafeStep(s1) && Between(true, s0.post, s1.pre)
    requires s0.h.run < s1.h.run && s0.h.due == s1.h.due == map[]
    ensures Trace(true, s0.pre, [s0, s1], s1.post)
  {
    var log := [s0, s1];
    RelyReflexive(true, s0.pre);
    RelyReflexive(true, s1.post);
    forall k | 0 <= k <= 2 ensures LinkedAt(true, s0.pre, log, s1.post, k) {}
    forall k | 0 <= k < 2 ensures SafeStep(log[k]) {}
  }

  lemma TwoStepsCase(s0: Step, s1: Step, uid: nat, u: string)
    requires SameRestartCase(s0.post, uid, u) && SameRestartCase(s1.pre, uid, u) && SameRestartCase(s1.post, uid, u)
    ensures CaseHolds([s0, s1], s1.post, 0, uid, u)
  {
  }
}
