/**
 What holds over whole histories of the operator, runs stopped anywhere and everything others may
 do in between included.

 A history starts from a store `init`, makes the steps of `log`, and has arrived at `now`.
 `Controller.Operate` produces such histories, with every step safe, as long as nobody else
 creates or redesigns the StatefulSet (`exclusive`); `Controller.OperateDeletions` produces them
 for deletion runs whatever others do.
 */
module Traces {
  import opened Wrappers
  import opened Text
  import opened Timestamps
  import opened Plugins
  import opened ClusterSpec
  import opened Builders
  import opened Objects
  import opened Worlds
  import opened Steps
  import opened Api
  import opened Runs
  import opened Scaling
  import Ports

  ghost predicate Trace(exclusive: bool, init: World, log: seq<Step>, now: World) {
    Linked(exclusive, init, log, now) && AllSafe(log)
  }

  /** Whatever the operator has done to a server of its own is such a history. */
  lemma OperatorMakesTraces(api: ApiServer)
    requires Good(api)
    ensures Trace(api.exclusive, api.init, api.log, api.w)
  {
  }

  /** Every prefix of a history is a history, which has arrived at what its next step found. */
  lemma PrefixIsTrace(exclusive: bool, init: World, log: seq<Step>, now: World, k: nat)
    requires Trace(exclusive, init, log, now) && k <= |log|
    ensures Trace(exclusive, init, log[..k], Found(log, now, k))
  {
    forall j | 0 <= j <= k ensures LinkedAt(exclusive, init, log[..k], Found(log, now, k), j) {
      assert LinkedAt(exclusive, init, log, now, j);
      assert Left(init, log[..k], j) == Left(init, log, j);
      assert Found(log[..k], Found(log, now, k), j) == Found(log, now, j);
    }
    PrefixIsSafe(log, k);
  }

  lemma PrefixIsSafe(log: seq<Step>, k: nat)
    requires AllSafe(log) && k <= |log|
    ensures AllSafe(log[..k])
  {
    forall j | 0 <= j < k ensures SafeStep(log[..k][j]) {
      assert SafeStep(log[j]) && log[..k][j] == log[j];
    }
  }

  lemma LastLink(exclusive: bool, init: World, log: seq<Step>, now: World)
    requires Trace(exclusive, init, log, now)
    ensures Between(exclusive, Left(init, log, |log|), now) && Wellformed(Left(init, log, |log|)) && Wellformed(now)
    ensures log != [] ==> Trace(exclusive, init, log[..|log| - 1], log[|log| - 1].pre)
  {
    assert LinkedAt(exclusive, init, log, now, |log|);
    if log != [] { PrefixIsTrace(exclusive, init, log, now, |log| - 1); }
  }

  /** A history with the StatefulSet left alone is one with others free to recreate it, who did not. */
  lemma ExclusiveIsSpecial(init: World, log: seq<Step>, now: World)
    requires Trace(true, init, log, now)
    ensures Trace(false, init, log, now)
  {
    forall k | 0 <= k <= |log| ensures LinkedAt(false, init, log, now, k) {
      assert LinkedAt(true, init, log, now, k);
    }
  }

  // ---------- plugins ----------

  /** Step k took the marker away after the stored list had been set on every pod, each time at or after `version`. */
  ghost predicate WorkedOff(s: Step, version: nat) {
    && PluginsPending(s.pre) && !PluginsPending(s.post) && s.post.plugins.Some?
    && ReadCommand(CommandText(s.h.cluster.spec.plugins)) == ReadFile(s.post.plugins.value.data)
    && forall p :: 0 <= p < s.h.cluster.spec.replicas ==>
         RanSince(s.h, SetPlugins(p, CommandText(s.h.cluster.spec.plugins)), version)
  }

  lemma StepKeepsPluginWork(s: Step, version: nat)
    requires SafeStep(s) && s.pre.plugins.Some? && version <= s.pre.plugins.value.version
    ensures s.post.plugins.Some? && version <= s.post.plugins.value.version
    ensures PluginsPending(s.pre) ==> PluginsPending(s.post) || WorkedOff(s, version)
  {
    assert PluginWorkKept(s);
  }

  lemma OthersKeepPluginWork(a: World, b: World)
    requires Between(true, a, b) && Wellformed(a) && a.plugins.Some?
    ensures b.plugins.Some? && a.plugins.value.version <= b.plugins.value.version
    ensures PluginsPending(b) <==> PluginsPending(a)
  {
  }

  /**
   Plugin work is never lost. Take any step that leaves the plugins ConfigMap with a marker: at
   any later moment the marker is still there, or a later step took it away, and by then the list
   stored in the ConfigMap had been set on every pod by commands that all succeeded after the
   ConfigMap got the version it had at that step.
   */
  lemma {:induction false} PluginWorkIsNeverLost(init: World, log: seq<Step>, now: World, i: nat)
    requires Trace(true, init, log, now) && i < |log| && PluginsPending(log[i].post)
    ensures now.plugins.Some? && log[i].post.plugins.value.version <= now.plugins.value.version
    ensures PluginsPending(now) || exists k :: i < k < |log| && WorkedOff(log[k], log[i].post.plugins.value.version)
  {
    LastLink(true, init, log, now);
    var n := |log| - 1;
    var version := log[i].post.plugins.value.version;
    if i < n {
      assert log[..n][i] == log[i];
      PluginWorkIsNeverLost(init, log[..n], log[n].pre, i);
      assert SafeStep(log[n]);
      StepKeepsPluginWork(log[n], version);
      if !PluginsPending(log[n].pre) {
        var k :| i < k < n && WorkedOff(log[..n][k], version);
        assert WorkedOff(log[k], version);
      }
    }
    OthersKeepPluginWork(log[n].post, now);
  }

  // ---------- feature flags ----------

  ghost predicate StsGone(log: seq<Step>, now: World, k: nat)
    requires k <= |log|
  {
    Found(log, now, k).sts.None? || (k < |log| && log[k].post.sts.None?)
  }

  lemma StepKeepsFlagWork(s: Step, version: nat)
    requires SafeStep(s) && s.pre.sts.Some? && s.post.sts.Some? && version <= s.pre.sts.value.version
    ensures version <= s.post.sts.value.version
    ensures FlagsPending(s.pre) ==> FlagsPending(s.post) || RanSince(s.h, EnableFeatureFlags, version)
  {
    assert Versioned(s) && CommandsKept(s);
  }

  lemma OthersKeepFlagWork(a: World, b: World)
    requires Between(true, a, b) && Wellformed(a) && a.sts.Some? && b.sts.Some?
    ensures a.sts.value.version <= b.sts.value.version
    ensures FlagsPending(b) <==> FlagsPending(a)
  {
  }

  lemma NeverGonePrefix(log: seq<Step>, now: World, i: nat)
    requires i + 1 < |log| && forall k :: i < k <= |log| ==> !StsGone(log, now, k)
    ensures
      var n := |log| - 1;
      var prefix, found := log[..n], log[n].pre;
      found.sts.Some? && log[n].post.sts.Some? && forall k :: i < k <= n ==> !StsGone(prefix, found, k)
  {
    var n := |log| - 1;
    forall k | i < k <= n ensures !StsGone(log[..n], log[n].pre, k) {
      assert !StsGone(log, now, k);
    }
    assert !StsGone(log, now, n);
  }

  /** As long as the StatefulSet lives, its feature-flag work is kept until the command has succeeded. */
  lemma {:induction false} FeatureFlagsAreNeverForgotten(init: World, log: seq<Step>, now: World, i: nat)
    requires Trace(true, init, log, now) && i < |log| && FlagsPending(log[i].post)
    requires forall k :: i < k <= |log| ==> !StsGone(log, now, k)
    ensures now.sts.Some? && log[i].post.sts.value.version <= now.sts.value.version
    ensures FlagsPending(now)
         || exists k :: i < k < |log| && RanSince(log[k].h, EnableFeatureFlags, log[i].post.sts.value.version)
  {
    LastLink(true, init, log, now);
    var n := |log| - 1;
    var version := log[i].post.sts.value.version;
    assert !StsGone(log, now, |log|);
    if i < n {
      assert log[..n][i] == log[i];
      NeverGonePrefix(log, now, i);
      FeatureFlagsAreNeverForgotten(init, log[..n], log[n].pre, i);
      assert SafeStep(log[n]);
      StepKeepsFlagWork(log[n], version);
      if !FlagsPending(log[n].pre) {
        var k :| i < k < n && RanSince(log[..n][k].h, EnableFeatureFlags, version);
        assert RanSince(log[k].h, EnableFeatureFlags, version);
      }
    }
    OthersKeepFlagWork(log[n].post, now);
  }

  // ---------- restarts ----------

  /** The same StatefulSet object and the same configuration marker. */
  ghost predicate SameRestartCase(w: World, uid: nat, u: string) {
    w.sts.Some? && w.sts.value.uid == uid && ConfStamp(w) == Some(u)
  }

  ghost predicate CaseHolds(log: seq<Step>, now: World, i: nat, uid: nat, u: string)
    requires i < |log|
  {
    && SameRestartCase(log[i].post, uid, u)
    && (forall k :: i < k <= |log| ==> SameRestartCase(Found(log, now, k), uid, u))
    && (forall k :: i < k < |log| ==> SameRestartCase(log[k].post, uid, u))
  }

  /** Once the stamp is later than the configuration marker there is no further restart for it. */
  lemma {:induction false} NoRestartOnceSettled(init: World, log: seq<Step>, now: World, i: nat, uid: nat, u: string)
    requires Trace(true, init, log, now) && i < |log| && CaseHolds(log, now, i, uid, u)
    requires Settled(RestartStamp(log[i].post.sts.value), u)
    ensures now.sts.Some? && RestartStamp(now.sts.value) == RestartStamp(log[i].post.sts.value)
  {
    LastLink(true, init, log, now);
    var n := |log| - 1;
    assert SameRestartCase(Found(log, now, |log|), uid, u);
    if i < n {
      assert log[..n][i] == log[i];
      CasePrefix(log, now, i, uid, u);
      assert SafeStep(log[n]) && RestartsJustified(log[n]);
      NoRestartOnceSettled(init, log[..n], log[n].pre, i, uid, u);
    }
  }

  lemma CasePrefix(log: seq<Step>, now: World, i: nat, uid: nat, u: string)
    requires i + 1 < |log| && CaseHolds(log, now, i, uid, u)
    ensures CaseHolds(log[..|log| - 1], log[|log| - 1].pre, i, uid, u)
    ensures SameRestartCase(log[|log| - 1].pre, uid, u) && SameRestartCase(log[|log| - 1].post, uid, u)
  {
    var n := |log| - 1;
    forall k | i < k <= n ensures SameRestartCase(Found(log[..n], log[n].pre, k), uid, u) {
      assert SameRestartCase(Found(log, now, k), uid, u);
    }
    assert SameRestartCase(Found(log, now, n), uid, u);
  }

  /**
   No endless restarts. A restart by a run that began later than the marker says is the last one
   for that marker: it leaves a stamp later than the marker.
   */
  lemma RestartByALaterRunIsTheLast(init: World, log: seq<Step>, now: World, i: nat, uid: nat, u: string)
    requires Trace(true, init, log, now) && i < |log| && CaseHolds(log, now, i, uid, u)
    requires log[i].pre.sts.Some? && RestartStamp(log[i].pre.sts.value) != RestartStamp(log[i].post.sts.value)
    requires Less(u, Format(log[i].h.began))
    ensures now.sts.Some? && RestartStamp(now.sts.value) == RestartStamp(log[i].post.sts.value)
  {
    assert SafeStep(log[i]) && RestartsJustified(log[i]);
    var stamp := RestartStamp(log[i].post.sts.value).value;
    LaterThan(u, Format(log[i].h.began), stamp);
    NoRestartOnceSettled(init, log, now, i, uid, u);
  }

  lemma LaterThan(u: string, began: string, stamp: string)
    requires Less(u, began) && AtMost(began, stamp)
    ensures Less(u, stamp)
  {
    LessTotal(began, stamp);
    LessTransitive(u, began, stamp);
  }

  /**
   Any other restart: it is followed by no further one for its marker, or it was made by a run that
   began in the second the marker names or before, and fell into that second itself.
   */
  lemma RestartAgainOnlyInTheSameSecond(init: World, log: seq<Step>, now: World, i: nat, uid: nat, u: string)
    requires Trace(true, init, log, now) && i < |log| && CaseHolds(log, now, i, uid, u)
    requires log[i].pre.sts.Some? && RestartStamp(log[i].pre.sts.value) != RestartStamp(log[i].post.sts.value)
    ensures now.sts.Some?
    ensures
      var stamp := RestartStamp(log[i].post.sts.value);
      RestartStamp(now.sts.value) == stamp || (stamp == Some(u) && AtMost(Format(log[i].h.began), u))
  {
    assert SafeStep(log[i]) && RestartsJustified(log[i]);
    assert SameRestartCase(Found(log, now, |log|), uid, u);
    var stamp := RestartStamp(log[i].post.sts.value);
    assert stamp.Some? && AtMost(u, stamp.value);
    LessTotal(u, stamp.value);
    if Settled(stamp, u) { NoRestartOnceSettled(init, log, now, i, uid, u); }
  }

  // ---------- claims and replicas ----------

  /** From the store before step i on, others keep a claim or enlarge it, and delete it only for good. */
  ghost predicate OthersKeep(init: World, log: seq<Step>, now: World, index: int, i: nat) {
    forall k :: i <= k <= |log| && index in Found(log, now, k).claims ==>
      index in Left(init, log, k).claims
      && Left(init, log, k).claims[index].request <= Found(log, now, k).claims[index].request
  }

  /**
   The operator never shrinks a claim, even while the StatefulSet is gone and its shrink check is
   skipped. Take any moment since which nobody else has created or shrunk the claim, such as the
   one right after its creation: it is at least as large now as it was then.
   */
  lemma {:induction false} ClaimsNeverShrink(init: World, log: seq<Step>, now: World, index: int, i: nat)
    requires Trace(true, init, log, now) && i <= |log|
    requires OthersKeep(init, log, now, index, i) && index in now.claims
    ensures index in Left(init, log, i).claims && Left(init, log, i).claims[index].request <= now.claims[index].request
    decreases |log|
  {
    LastLink(true, init, log, now);
    assert index in Found(log, now, |log|).claims;
    if i < |log| {
      var n := |log| - 1;
      assert SafeStep(log[n]) && ClaimsGrow(log[n]);
      forall k | i <= k <= n && index in Found(log[..n], log[n].pre, k).claims
        ensures index in Left(init, log[..n], k).claims
             && Left(init, log[..n], k).claims[index].request <= Found(log[..n], log[n].pre, k).claims[index].request
      {
        assert index in Found(log, now, k).claims;
      }
      ClaimsNeverShrink(init, log[..n], log[n].pre, index, i);
    }
  }

  /** Each successful resize happens without a StatefulSet and leaves exactly one claim less to do. */
  lemma ResizeMakesProgress(s: Step)
    requires SafeStep(s) && s.post.claims != s.pre.claims
    ensures s.pre.sts.None?
    ensures
      var n, d := s.h.cluster.spec.replicas, s.h.cluster.spec.storage;
      |Below(s.post.claims, n, d)| + 1 == |Below(s.pre.claims, n, d)|
  {
    var n, d := s.h.cluster.spec.replicas, s.h.cluster.spec.storage;
    assert Below(s.pre.claims, n, d) == Below(s.post.claims, n, d) + {s.op.index};
    assert s.op.index !in Below(s.post.claims, n, d);
  }

  /** As long as the StatefulSet lives, its replicas never go down. */
  lemma {:induction false} NoScaleDownEver(init: World, log: seq<Step>, now: World, i: nat)
    requires Trace(true, init, log, now) && i < |log| && log[i].post.sts.Some?
    requires forall k :: i < k <= |log| ==> !StsGone(log, now, k)
    ensures now.sts.Some? && log[i].post.sts.value.replicas <= now.sts.value.replicas
  {
    LastLink(true, init, log, now);
    var n := |log| - 1;
    assert !StsGone(log, now, |log|);
    if i < n {
      assert log[..n][i] == log[i];
      NeverGonePrefix(log, now, i);
      NoScaleDownEver(init, log[..n], log[n].pre, i);
      assert SafeStep(log[n]) && ReplicasGrow(log[n]);
    }
  }

  /** As long as the StatefulSet lives, its claim template stays and never asks for less. */
  lemma {:induction false} TemplateNeverShrinks(init: World, log: seq<Step>, now: World, i: nat)
    requires Trace(true, init, log, now) && i < |log| && log[i].post.sts.Some?
    requires forall k :: i < k <= |log| ==> !StsGone(log, now, k)
    ensures now.sts.Some?
    ensures
      var was, template := log[i].post.sts.value.storage, now.sts.value.storage;
      if was.None? then template.None? else template.Some? && was.value <= template.value
  {
    LastLink(true, init, log, now);
    var n := |log| - 1;
    assert !StsGone(log, now, |log|);
    if i < n {
      assert log[..n][i] == log[i];
      NeverGonePrefix(log, now, i);
      TemplateNeverShrinks(init, log[..n], log[n].pre, i);
      assert SafeStep(log[n]) && StorageGrows(log[n]);
    }
  }

  /** As long as the StatefulSet lives, it stays with its owner. */
  lemma {:induction false} OwnerStays(init: World, log: seq<Step>, now: World, i: nat)
    requires Trace(true, init, log, now) && i < |log| && log[i].post.sts.Some? && log[i].post.sts.value.owner.Some?
    requires forall k :: i < k <= |log| ==> !StsGone(log, now, k)
    ensures now.sts.Some? && now.sts.value.owner == log[i].post.sts.value.owner
  {
    LastLink(true, init, log, now);
    var n := |log| - 1;
    assert !StsGone(log, now, |log|);
    if i < n {
      assert log[..n][i] == log[i];
      NeverGonePrefix(log, now, i);
      OwnerStays(init, log[..n], log[n].pre, i);
      assert SafeStep(log[n]) && OwnerKept(log[n]);
    }
  }

  /**
   A StatefulSet the operator creates is controlled by the cluster of that run for as long as it
   lives, and is created with the replicas, the storage and the memory of the specification.
   */
  lemma CreatedStatefulSetIsOwned(init: World, log: seq<Step>, now: World, i: nat)
    requires Trace(true, init, log, now) && i < |log| && log[i].op.CreateSts?
    requires forall k :: i < k <= |log| ==> !StsGone(log, now, k)
    ensures now.sts.Some? && now.sts.value.owner == Some(log[i].h.cluster.uid)
    ensures
      var made, spec := log[i].post.sts, log[i].h.cluster.spec;
      && made.Some? && made.value.replicas == spec.replicas
      && made.value.storage == (if spec.storage == 0 then None else Some(spec.storage))
      && made.value.memoryLimit == spec.memoryLimit && made.value.memoryRequest == spec.memoryRequest
  {
    assert SafeStep(log[i]) && CreatedAsSpecified(log[i]);
    OwnerStays(init, log, now, i);
  }

  // ---------- what users wrote ----------

  /** The same cluster with what its users wrote, but for parts they had left empty and the rebalance marker. */
  ghost predicate AsWritten(was: Cluster, c: Cluster) {
    && c.uid == was.uid && c.name == was.name && c.deleting == was.deleting && c.paused == was.paused
    && c.annotations - {QUEUE_REBALANCE_NEEDED_AT} == was.annotations - {QUEUE_REBALANCE_NEEDED_AT}
    && OnlyFilled(was.spec, c.spec)
  }

  /** From the store before step i on, nobody else edits the cluster. */
  ghost predicate UsersRest(init: World, log: seq<Step>, now: World, i: nat) {
    forall k :: i <= k <= |log| ==>
      Found(log, now, k).cluster.Some? && Left(init, log, k).cluster.Some?
      && AsWritten(Left(init, log, k).cluster.value, Found(log, now, k).cluster.value)
  }

  lemma AsWrittenTransitive(a: Cluster, b: Cluster, c: Cluster)
    requires AsWritten(a, b) && AsWritten(b, c)
    ensures AsWritten(a, c)
  {
  }

  lemma StepKeepsUserData(s: Step)
    requires SafeStep(s) && s.pre.cluster.Some?
    ensures s.post.cluster.Some? && AsWritten(s.pre.cluster.value, s.post.cluster.value)
  {
    assert Versioned(s) && UserDataKept(s);
  }

  /**
   Whatever runs there are while nobody edits the cluster, what its users had written is still
   there: image, pull secrets and updater image may have been filled in where they were empty.
   */
  lemma {:induction false} UserDataIsKept(init: World, log: seq<Step>, now: World, i: nat)
    requires Trace(false, init, log, now) && i <= |log| && UsersRest(init, log, now, i)
    ensures Left(init, log, i).cluster.Some? && now.cluster.Some?
    ensures AsWritten(Left(init, log, i).cluster.value, now.cluster.value)
    decreases |log|
  {
    LastLink(false, init, log, now);
    assert AsWritten(Left(init, log, |log|).cluster.value, Found(log, now, |log|).cluster.value);
    if i < |log| {
      var n := |log| - 1;
      assert SafeStep(log[n]);
      forall k | i <= k <= n
        ensures Found(log[..n], log[n].pre, k).cluster.Some? && Left(init, log[..n], k).cluster.Some?
             && AsWritten(Left(init, log[..n], k).cluster.value, Found(log[..n], log[n].pre, k).cluster.value)
      {
        assert Found(log, now, k).cluster.Some?;
      }
      UserDataIsKept(init, log[..n], log[n].pre, i);
      StepKeepsUserData(log[n]);
      var a, b := Left(init, log, i).cluster.value, log[n].post.cluster.value;
      AsWrittenTransitive(a, log[n].pre.cluster.value, b);
      AsWrittenTransitive(a, b, now.cluster.value);
    }
  }

  // ---------- markers that are lost ----------

  lemma OthersDoNotMark(a: World, b: World, m: Marker)
    requires Between(true, a, b)
    ensures MarkerStamp(b, m).Some? ==> MarkerStamp(a, m) == MarkerStamp(b, m)
  {
  }

  lemma MarkIsOwed(s: Step, m: Marker)
    requires SafeStep(s) && Marks(s, m)
    ensures m in s.h.due
  {
    assert MarkersJustified(s);
  }

  lemma RunRemembers(exclusive: bool, init: World, log: seq<Step>, now: World, k: nat)
    requires Linked(exclusive, init, log, now) && k < |log|
    ensures Remembers(log[k].h, log, k)
  {
    assert LinkedAt(exclusive, init, log, now, k);
  }

  lemma OwedByTheSameRun(log: seq<Step>, m: Marker, i: nat, n: nat)
    requires i < n < |log| && Remembers(log[n].h, log, n) && Remembers(log[i].h, log, i)
    requires m in log[n].h.due && forall j :: i < j < n ==> !MakesDue(log[j], m)
    ensures log[n].h.run == log[i].h.run
  {
    var j := log[n].h.due[m];
    assert j <= i && log[j].h.run == log[n].h.run;
    assert log[i].h.run <= log[n].h.run && (j < i ==> log[j].h.run <= log[i].h.run);
  }

  /** A run marks only for a change of its own, so no run but that of step i marks for the last change, step i. */
  lemma OnlyTheRunOfTheChangeMarks(init: World, log: seq<Step>, now: World, m: Marker, i: nat, n: nat)
    requires Trace(true, init, log, now) && i < n < |log|
    requires forall j :: i < j < n ==> !MakesDue(log[j], m)
    ensures Marks(log[n], m) ==> log[n].h.run == log[i].h.run
  {
    if Marks(log[n], m) {
      assert SafeStep(log[n]);
      MarkIsOwed(log[n], m);
      RunRemembers(true, init, log, now, n);
      RunRemembers(true, init, log, now, i);
      OwedByTheSameRun(log, m, i, n);
    }
  }

  /** Nobody marks for the change of step i: its own run stops before it does, and no such change is made again. */
  ghost predicate Unmarked(log: seq<Step>, m: Marker, i: nat)
    requires i < |log|
  {
    && MakesDue(log[i], m)
    && (forall j {:trigger log[j]} :: i < j < |log| ==> !MakesDue(log[j], m))
    && (forall j {:trigger log[j]} :: i < j < |log| && log[j].h.run == log[i].h.run ==> !Marks(log[j], m))
  }

  /**
   A marker once missed is missed for good. Take a step that changes a ConfigMap's text, or creates
   the StatefulSet; if its run stops before it sets the marker, and no later step makes such a
   change again, no marker is ever set that was not there before. The marker of the server
   configuration even stays exactly as it was, for nobody takes it away.
   */
  lemma {:induction false} LostMarkerStaysLost(init: World, log: seq<Step>, now: World, m: Marker, i: nat)
    requires Trace(true, init, log, now) && i < |log| && Unmarked(log, m, i)
    ensures MarkerStamp(now, m).Some? || m.ConfMarker? ==> MarkerStamp(now, m) == MarkerStamp(log[i].post, m)
  {
    LastLink(true, init, log, now);
    var n := |log| - 1;
    OthersDoNotMark(log[n].post, now, m);
    if i < n {
      UnmarkedPrefix(log, m, i);
      LostMarkerStaysLost(init, log[..n], log[n].pre, m, i);
      UnmarkedStep(init, log, now, m, i, n);
    }
  }

  lemma UnmarkedPrefix(log: seq<Step>, m: Marker, i: nat)
    requires i + 1 < |log| && Unmarked(log, m, i)
    ensures Unmarked(log[..|log| - 1], m, i) && log[..|log| - 1][i] == log[i]
  {
    var n := |log| - 1;
    assert forall j :: 0 <= j < n ==> log[..n][j] == log[j];
  }

  lemma UnmarkedStep(init: World, log: seq<Step>, now: World, m: Marker, i: nat, n: nat)
    requires Trace(true, init, log, now) && i < n < |log| && Unmarked(log, m, i)
    ensures !Marks(log[n], m)
    ensures MarkerStamp(log[n].post, m).Some? || m.ConfMarker? ==>
      MarkerStamp(log[n].post, m) == MarkerStamp(log[n].pre, m)
  {
    OnlyTheRunOfTheChangeMarks(init, log, now, m, i, n);
    assert SafeStep(log[n]) && ConfMarkerAdvances(log[n]);
  }

  /** The StatefulSet of this uid is there at every moment after step i. */
  ghost predicate StaysThere(log: seq<Step>, now: World, i: nat, uid: nat)
    requires i < |log|
  {
    && IsThere(log[i].post, uid)
    && (forall k :: i < k <= |log| ==> IsThere(Found(log, now, k), uid))
    && (forall k :: i < k < |log| ==> IsThere(log[k].post, uid))
  }

  ghost predicate IsThere(w: World, uid: nat) { w.sts.Some? && w.sts.value.uid == uid }

  /**
   A lost configuration change is never rolled out by a restart. If the stamp is later than an
   older marker when a run writes a new text and stops, no later run restarts the StatefulSet.
   */
  lemma LostConfChangeIsNeverRestarted(init: World, log: seq<Step>, now: World, i: nat, uid: nat, u: string)
    requires Trace(true, init, log, now) && i < |log| && Unmarked(log, ConfMarker, i)
    requires StaysThere(log, now, i, uid) && ConfStamp(log[i].post) == Some(u)
    requires Settled(RestartStamp(log[i].post.sts.value), u)
    ensures now.sts.Some? && RestartStamp(now.sts.value) == RestartStamp(log[i].post.sts.value)
  {
    forall k | i < k <= |log|
      ensures SameRestartCase(Found(log, now, k), uid, u) && (k < |log| ==> SameRestartCase(log[k].post, uid, u))
    {
      assert IsThere(Found(log, now, k), uid);
      PrefixIsTrace(true, init, log, now, k);
      assert forall j :: 0 <= j < k ==> log[..k][j] == log[j];
      LostMarkerStaysLost(init, log[..k], Found(log, now, k), ConfMarker, i);
      if k < |log| {
        assert IsThere(log[k].post, uid);
        UnmarkedStep(init, log, now, ConfMarker, i, k);
      }
    }
    NoRestartOnceSettled(init, log, now, i, uid, u);
  }

  // ---------- stages ----------

  /**
   Children are written only by runs on a live cluster that is not paused and whose TLS settings
   pass the gate; pods are labelled, and StatefulSets deleted by UID, only by deletion runs. Read
   off the history: the proof is that of `Controller.Operate`.
   */
  lemma ChildrenAreWrittenByBuildingRuns(exclusive: bool, init: World, log: seq<Step>, now: World, k: nat)
    requires Trace(exclusive, init, log, now) && k < |log|
    ensures
      var s, c := log[k], log[k].h.cluster;
      && (s.post.plugins != s.pre.plugins || s.post.conf != s.pre.conf || s.post.claims != s.pre.claims || WritesSts(s)
          ==> !c.deleting && !c.paused && TLSGate(c.spec))
      && (s.op.PutPod? || (s.op.DeleteSts? && s.op.uid.Some?) ==> c.deleting)
  {
    assert SafeStep(log[k]) && StageGuarded(log[k]);
  }

  /**
   A StatefulSet that stays is not deleted without a cause. When the operator makes one disappear,
   or start to, the cluster is being deleted and the object is the one read as owned, or the run
   builds and has read a claim smaller than the storage wanted.
   */
  lemma DeletionHasACause(exclusive: bool, init: World, log: seq<Step>, now: World, k: nat)
    requires Trace(exclusive, init, log, now) && k < |log|
    requires !GoneOrGoing(log[k].pre) && GoneOrGoing(log[k].post)
    ensures
      var s, c := log[k], log[k].h.cluster;
      if c.deleting then
        && s.op == DeleteSts(Some(s.pre.sts.value.uid)) && OwnerCheck in s.h.seen && s.h.seen[OwnerCheck].Some?
        && s.h.seen[OwnerCheck].value.uid == s.op.uid.value && s.h.seen[OwnerCheck].value.owner == Some(c.uid)
      else !c.paused && exists i :: i in s.h.claims && 0 <= i < c.spec.replicas && s.h.claims[i] < c.spec.storage
  {
    assert SafeStep(log[k]) && StageGuarded(log[k]) && DeletionGuarded(log[k]);
  }

  // ---------- conflicts ----------

  /**
   A conflict, be it swallowed, ends a run's writes of the cluster: whatever the run still does,
   it writes neither the cluster nor its status again, and so reports no generation.
   */
  lemma NoClusterWriteAfterConflict(init: World, log: seq<Step>, now: World, i: nat, k: nat)
    requires Trace(true, init, log, now) && i <= k < |log|
    requires log[i].h.conflicted && log[k].h.run == log[i].h.run
    ensures !log[k].op.PutCluster? && !log[k].op.PutStatus?
    ensures log[k].post.cluster == log[k].pre.cluster
  {
    assert LinkedAt(true, init, log, now, k);
    assert log[i].h.run <= log[k].h.run;
    assert SafeStep(log[k]) && ConflictIsFinal(log[k]);
  }

  /**
   Capacity and scale-down at every write of the StatefulSet, the one that recreates it in the
   middle of an expansion included: every existing claim of its pods already has the written
   template capacity, and there are at least as many replicas as the run found at its check. The
   proof is that of `Controller.Operate`: here the promise is only read off the history.
   */
  lemma StatefulSetWritesFit(init: World, log: seq<Step>, now: World, k: nat)
    requires Trace(true, init, log, now) && k < |log| && WritesSts(log[k])
    ensures
      var s, sts := log[k], log[k].post.sts.value;
      && (sts.storage.Some? ==>
          forall i :: 0 <= i < sts.replicas && i in s.post.claims ==> sts.storage.value <= s.post.claims[i].request)
      && (ScaleDownCheck in s.h.seen && s.h.seen[ScaleDownCheck].Some? ==>
          s.h.seen[ScaleDownCheck].value.replicas <= sts.replicas)
  {
    assert SafeStep(log[k]) && ClaimsCoverTemplate(log[k]) && NoScaleDown(log[k]);
  }

  /**
   The operator takes a rebalance marker away only after the command succeeded on that very version
   of the cluster. Read off the history, as above.
   */
  lemma RebalanceIsNotForgotten(init: World, log: seq<Step>, now: World, k: nat)
    requires Trace(true, init, log, now) && k < |log|
    requires RebalancePending(log[k].pre) && !RebalancePending(log[k].post)
    ensures log[k].post.cluster.Some? && RanSince(log[k].h, RebalanceQueues, log[k].pre.cluster.value.version)
  {
    assert SafeStep(log[k]) && Versioned(log[k]) && CommandsKept(log[k]);
  }

  // ---------- observed generation ----------

  /** A step that reported what `c` shows, for the specification it shows it of. */
  ghost predicate Earned(s: Step, c: Cluster) {
    && s.op.PutStatus? && s.post.cluster.Some?
    && s.post.cluster.value.uid == c.uid
    && s.post.cluster.value.observedGeneration == s.post.cluster.value.generation == c.observedGeneration
    && c.observedGeneration <= c.generation
    && (c.observedGeneration == c.generation ==> s.post.cluster.value.spec == c.spec)
    && Converged(s.post, s.post.cluster.value) && ShowsSuccess(s.post.cluster.value)
    && RebalanceSettled(s.h) && Ports.PortsAgree(s.post.cluster.value.spec)
    && EverythingBuilt(s.h.built, s.post.cluster.value.spec)
    && CommandGate in s.h.seen && s.h.seen[CommandGate].Some?
    && FullyReady(s.h.seen[CommandGate].value)
  }

  /** What the same cluster object showed at an earlier moment. */
  ghost predicate Showed(w: World, c: Cluster) {
    && w.cluster.Some? && w.cluster.value.uid == c.uid && w.cluster.value.observedGeneration == c.observedGeneration
  }

  lemma EarnedLater(s: Step, a: Cluster, b: Cluster)
    requires Earned(s, a) && a.uid == b.uid && SameCluster(a, b)
    ensures Earned(s, b)
  {
  }

  /**
   An observed generation is never made up. Whatever generation a cluster shows as observed, it
   showed from the start, or some step reported it for that very specification, in a run whose
   builders had all succeeded, with converged children, a rebalance wherever one was called for,
   ports that agree between Service and container, and a StatefulSet that had been read fully ready
   on one revision. In particular a cluster whose observed generation is its generation had
   converged to its present specification.
   */
  lemma {:induction false} ObservedGenerationIsEarned(init: World, log: seq<Step>, now: World)
    requires Trace(true, init, log, now) && now.cluster.Some? && now.cluster.value.observedGeneration != 0
    ensures Showed(init, now.cluster.value) || exists k :: 0 <= k < |log| && Earned(log[k], now.cluster.value)
  {
    LastLink(true, init, log, now);
    var c := now.cluster.value;
    var before := Left(init, log, |log|);
    assert before.cluster.Some? && before.cluster.value.uid == c.uid && SameCluster(before.cluster.value, c);
    if log != [] {
      var n := |log| - 1;
      var s := log[n];
      assert SafeStep(s) && Versioned(s);
      var b := s.post.cluster.value;
      if s.pre.cluster.value.observedGeneration != b.observedGeneration {
        assert SafeStep(s) && ObservedSound(s);
        Ports.PortsAgreeIffGate(b.spec);
        assert Earned(s, b);
        EarnedLater(s, b, c);
      } else {
        ObservedGenerationIsEarned(init, log[..n], s.pre);
        if !Showed(init, s.pre.cluster.value) {
          var k :| 0 <= k < n && Earned(log[..n][k], s.pre.cluster.value);
          EarnedLater(log[k], s.pre.cluster.value, b);
          EarnedLater(log[k], b, c);
        }
      }
    }
  }

  // ---------- deletion ----------

  /** The finalizer goes only in a deletion run, and after that run has looked for the StatefulSet. */
  lemma FinalizerIsGuarded(exclusive: bool, init: World, log: seq<Step>, now: World, k: nat)
    requires Trace(exclusive, init, log, now) && k < |log| && log[k].pre.cluster.Some? && log[k].post.cluster.Some?
    requires log[k].pre.cluster.value.finalizer && !log[k].post.cluster.value.finalizer
    ensures log[k].h.cluster.deleting && OwnerCheck in log[k].h.seen
  {
    assert SafeStep(log[k]) && FinalizerGuarded(log[k]);
  }

  /** The object with this uid has existed and exists no more. */
  ghost predicate Gone(w: World, uid: nat) { uid < w.nextUid && (w.sts.Some? ==> w.sts.value.uid != uid) }

  /** Others deleting and recreating included, a StatefulSet that is gone never comes back under its uid. */
  lemma {:induction false} GoneForGood(init: World, log: seq<Step>, now: World, i: nat, uid: nat)
    requires Trace(false, init, log, now) && i < |log| && Gone(log[i].post, uid)
    ensures Gone(now, uid)
  {
    LastLink(false, init, log, now);
    var n := |log| - 1;
    if i < n {
      assert log[..n][i] == log[i];
      GoneForGood(init, log[..n], log[n].pre, i, uid);
      assert SafeStep(log[n]) && Versioned(log[n]);
    }
  }

  /**
   Guarded deletion, whatever others create and delete in between: a deletion with a UID removes
   an object read under this cluster's controller reference, never one created after that object
   had gone, and every pod the run had listed was labelled or gone by then.
   */
  lemma DeletionIsGuarded(init: World, log: seq<Step>, now: World, k: nat)
    requires Trace(false, init, log, now) && k < |log|
    requires log[k].op.DeleteSts? && log[k].op.uid.Some?
    ensures
      var s := log[k];
      && OwnerCheck in s.h.seen && s.h.seen[OwnerCheck].Some?
      && s.h.seen[OwnerCheck].value.owner == Some(s.h.cluster.uid)
      && s.pre.sts.Some? && s.pre.sts.value.uid == s.h.seen[OwnerCheck].value.uid && GoneOrGoing(s.post)
      && (forall i :: 0 <= i < k ==> !Gone(log[i].post, s.h.seen[OwnerCheck].value.uid))
      && s.h.listed.Some? && (forall u :: u in s.h.listed.value && u in s.pre.pods ==> s.pre.pods[u].deletionLabel)
  {
    var s := log[k];
    assert SafeStep(s) && DeletionGuarded(s);
    forall i | 0 <= i < k ensures !Gone(log[i].post, s.op.uid.value) {
      if Gone(log[i].post, s.op.uid.value) {
        PrefixIsTrace(false, init, log, now, k);
        assert log[..k][i] == log[i];
        GoneForGood(init, log[..k], s.pre, i, s.op.uid.value);
      }
    }
  }
}
