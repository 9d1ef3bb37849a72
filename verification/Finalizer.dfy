/**
 Deletion of a cluster: pods are labelled so that their pre-stop hooks do not wait, then the
 StatefulSet is deleted with a precondition on its UID. Nothing here assumes that the operator is
 the only one to create or edit the StatefulSet.
 */
module Finalizer {
  import opened Wrappers
  import opened Objects
  import opened Worlds
  import opened Steps
  import opened Api
  import opened Runs

  /** Each listed pod has the deletion label or is gone. */
  ghost predicate Labelled(listed: set<nat>, w: World) {
    forall u :: u in listed ==> u < w.nextUid && (u in w.pods ==> w.pods[u].deletionLabel)
  }

  lemma LabelledStays(exclusive: bool, listed: set<nat>, w0: World, w1: World)
    requires Rely(exclusive, w0, w1) && Labelled(listed, w0)
    ensures Labelled(listed, w1)
  {
  }

  lemma LabelStepSafe(s: Step, u: nat, p: Pod)
    requires s.h.cluster.deleting && s.op == Op.PutPod(u)
    requires Wellformed(s.pre) && Wellformed(s.post) && PodPut(s.pre, u, p, s.post)
    ensures SafeStep(s)
  {
  }

  /** Labelling a pod is, to everything else a run looks at, like others labelling it. */
  lemma LabelIsMild(exclusive: bool, w0: World, pre: World, post: World, u: nat, p: Pod)
    requires Wellformed(w0) && Rely(exclusive, w0, pre) && Wellformed(post) && PodPut(pre, u, p, post)
    requires p.deletionLabel
    ensures Rely(exclusive, w0, post)
  {
    RelyReflexive(exclusive, pre);
    assert Rely(exclusive, pre, post);
    RelyTransitive(exclusive, w0, pre, post);
  }

  lemma LabelSafe(exclusive: bool, log0: seq<Step>, log1: seq<Step>, h: History, w0: World, w1: World, u: nat, p: Pod)
    requires AllSafe(log0) && Wellformed(w0) && p.deletionLabel && h.cluster.deleting
    requires Quiet(exclusive, log0, log1, w0, w1)
          || (Wrote(exclusive, log0, log1, Op.PutPod(u), h, w0, w1) && PodPut(log1[|log0|].pre, u, p, w1))
    ensures AllSafe(log1) && log0 <= log1 && Rely(exclusive, w0, w1)
    ensures log1 != log0 ==> u in w1.pods && w1.pods[u].deletionLabel
  {
    if log1 != log0 {
      LabelStepSafe(log1[|log0|], u, p);
      AllSafeGrows(log0, log1);
      LabelIsMild(exclusive, w0, log1[|log0|].pre, w1, u, p);
    }
  }

  method LabelPod(api: ApiServer, u: nat, pod: Pod) returns (r: Result<()>)
    requires Good(api) && api.h.cluster.deleting
    modifies api
    ensures Good(api) && old(api.log) <= api.log && Rely(api.exclusive, old(api.w), api.w) && api.h == old(api.h)
    ensures r.Ok? || r.error.NotFound? ==> (u in api.w.pods ==> api.w.pods[u].deletionLabel)
    ensures Answered(r, ThePod(u), old(api.heard), api.heard)
  {
    var p := pod.(deletionLabel := true);
    var put := api.PutPod(u, p);
    LabelSafe(api.exclusive, old(api.log), api.log, api.h, old(api.w), api.w, u, p);
    r := if put.Ok? then Ok(()) else Err(put.error);
  }

  /** The server did not list or label a pod. */
  ghost predicate PodTrouble(e: ApiError, a0: multiset<Answer>, a1: multiset<Answer>) {
    !e.NotFound? && exists u: nat :: Given(e, ThePod(u), a0, a1)
  }

  lemma PodTroubleStays(e: ApiError, a: multiset<Answer>, a0: multiset<Answer>, a1: multiset<Answer>,
        a2: multiset<Answer>)
    requires a <= a0 && a1 <= a2 && PodTrouble(e, a0, a1)
    ensures PodTrouble(e, a, a2)
  {
    var u: nat :| Given(e, ThePod(u), a0, a1);
    assert Given(e, ThePod(u), a, a2);
  }

  /** The loop over the pods listed; one that has gone in the meantime is no failure. */
  method LabelPods(api: ApiServer, pods: map<nat, Pod>) returns (r: Result<()>)
    requires Good(api) && api.h.cluster.deleting && forall u :: u in pods ==> u < api.w.nextUid
    modifies api
    ensures Good(api) && old(api.log) <= api.log && Rely(api.exclusive, old(api.w), api.w) && api.h == old(api.h)
    ensures r.Ok? ==> Labelled(pods.Keys, api.w)
    ensures old(api.heard) <= api.heard
    ensures r.Err? ==> PodTrouble(r.error, old(api.heard), api.heard)
  {
    RelyReflexive(api.exclusive, api.w);
    var left := pods.Keys;
    while left != {}
      invariant left <= pods.Keys
      invariant Good(api) && old(api.log) <= api.log && Rely(api.exclusive, old(api.w), api.w) && api.h == old(api.h)
      invariant Labelled(pods.Keys - left, api.w) && old(api.heard) <= api.heard
      decreases left
    {
      var u :| u in left;
      ghost var w0 := api.w;
      var put := LabelPod(api, u, pods[u]);
      RelyTransitive(api.exclusive, old(api.w), w0, api.w);
      LabelledStays(api.exclusive, pods.Keys - left, w0, api.w);
      if put.Err? && !put.error.NotFound? {
        assert Given(put.error, ThePod(u), old(api.heard), api.heard);
        return Err(put.error);
      }
      left := left - {u};
    }
    assert pods.Keys - left == pods.Keys;
    r := Ok(());
  }

  /** `addRabbitmqDeletionLabel`. */
  method AddRabbitmqDeletionLabel(api: ApiServer) returns (r: Result<()>)
    requires Good(api) && api.h.cluster.deleting
    modifies api
    ensures Good(api) && old(api.log) <= api.log && Rely(api.exclusive, old(api.w), api.w)
    ensures api.h == old(api.h).(listed := api.h.listed)
    ensures r.Ok? ==> api.h.listed.Some? && Labelled(api.h.listed.value, api.w)
    ensures old(api.heard) <= api.heard
    ensures r.Err? ==> PodTrouble(r.error, old(api.heard), api.heard)
  {
    var pods := api.ListPods();
    if pods.Err? {
      assert Given(pods.error, ThePod(0), old(api.heard), api.heard);
      return Err(pods.error);
    }
    ghost var w1, a1 := api.w, api.heard;
    r := LabelPods(api, pods.value);
    RelyTransitive(api.exclusive, old(api.w), w1, api.w);
    if r.Err? { PodTroubleStays(r.error, old(api.heard), a1, api.heard, api.heard); }
  }

  /** A StatefulSet was read whose controller reference is not this cluster. */
  ghost predicate NotOurs(e: ApiError, clusterUid: nat, a0: multiset<Answer>, a1: multiset<Answer>) {
    e.Declined? && e.why.SomebodyElses? && New(a0, a1, GotSts(e.why.found)) && e.why.found.owner != Some(clusterUid)
  }

  /** `statefulSetUID`: only of a StatefulSet whose controller reference is this very cluster. */
  method StatefulSetUID(api: ApiServer, clusterUid: nat) returns (r: Result<nat>)
    requires Good(api)
    modifies api
    ensures Good(api) && Quiet(api.exclusive, old(api.log), api.log, old(api.w), api.w)
    ensures api.h == old(api.h).(seen := api.h.seen) && OwnerCheck in api.h.seen
    ensures r.Ok? ==> OwnedAsRead(api.h, r.value, clusterUid)
    ensures New(old(api.heard), api.heard, Looked)
    ensures r.Err? ==> !r.error.Conflict?
    ensures old(api.heard) <= api.heard
    ensures r.Err? ==>
      Given(r.error, TheSts, old(api.heard), api.heard) || NotOurs(r.error, clusterUid, old(api.heard), api.heard)
  {
    var sts := api.GetSts(OwnerCheck);
    if sts.Err? {
      return Err(sts.error);
    }
    if sts.value.owner.None? {
      return Err(Declined(SomebodyElses(sts.value)));
    }
    if sts.value.owner.value != clusterUid {
      return Err(Declined(SomebodyElses(sts.value)));
    }
    r := Ok(sts.value.uid);
  }

  ghost predicate OwnedAsRead(h: History, uid: nat, clusterUid: nat) {
    && OwnerCheck in h.seen && h.seen[OwnerCheck].Some?
    && h.seen[OwnerCheck].value.uid == uid && h.seen[OwnerCheck].value.owner == Some(clusterUid)
  }

  lemma GuardedDeleteSafe(exclusive: bool, log0: seq<Step>, log1: seq<Step>, h: History, w0: World, w1: World, uid: nat)
    requires AllSafe(log0) && Wellformed(w0)
    requires Quiet(exclusive, log0, log1, w0, w1)
          || (Wrote(exclusive, log0, log1, Op.DeleteSts(Some(uid)), h, w0, w1)
              && StsDeleted(log1[|log0|].pre, w1) && log1[|log0|].pre.sts.value.uid == uid)
    requires OwnedAsRead(h, uid, h.cluster.uid) && h.listed.Some? && Labelled(h.listed.value, w0) && h.cluster.deleting
    ensures AllSafe(log1) && log0 <= log1 && Rely(exclusive, w0, w1)
    ensures log1 != log0 ==> GoneOrGoing(w1)
  {
    if log1 != log0 {
      var s := log1[|log0|];
      LabelledStays(exclusive, h.listed.value, w0, s.pre);
      assert DeletionGuarded(s);
      StsDeletionSafe(s);
      AllSafeGrows(log0, log1);
      StsDeletionIsMild(exclusive, w0, s.pre, w1);
    }
  }

  /** What keeps a deletion run from deleting the StatefulSet: the server, or its being somebody else's. */
  ghost predicate DeletionTrouble(e: ApiError, clusterUid: nat, a0: multiset<Answer>, a1: multiset<Answer>) {
    Given(e, TheSts, a0, a1) || PodTrouble(e, a0, a1) || NotOurs(e, clusterUid, a0, a1)
  }

  lemma DeletionTroubleStays(e: ApiError, clusterUid: nat, a: multiset<Answer>, a0: multiset<Answer>,
        a1: multiset<Answer>, a2: multiset<Answer>)
    requires a <= a0 && a1 <= a2 && DeletionTrouble(e, clusterUid, a0, a1)
    ensures DeletionTrouble(e, clusterUid, a, a2)
  {
    if PodTrouble(e, a0, a1) { PodTroubleStays(e, a, a0, a1, a2); }
  }

  /** The deletion itself, with the UID as its precondition; an object that has gone is no failure. */
  method DeleteLabelled(api: ApiServer, uid: nat) returns (r: Result<()>)
    requires Good(api) && OwnedAsRead(api.h, uid, api.h.cluster.uid) && api.h.cluster.deleting
    requires api.h.listed.Some? && Labelled(api.h.listed.value, api.w)
    modifies api
    ensures Good(api) && old(api.log) <= api.log && Rely(api.exclusive, old(api.w), api.w) && api.h == old(api.h)
    ensures r.Ok? ==> GoneOrGoing(api.w)
    ensures Answered(r, TheSts, old(api.heard), api.heard)
  {
    r := api.DeleteSts(Some(uid));
    GuardedDeleteSafe(api.exclusive, old(api.log), api.log, api.h, old(api.w), api.w, uid);
    if r.Err? && r.error.NotFound? {
      r := Ok(());
    }
  }

  /** The run has looked for the StatefulSet, and perhaps for its pods; nothing else of its history is new. */
  ghost predicate Searched(h0: History, h1: History) {
    h1 == h0.(seen := h1.seen, listed := h1.listed) && OwnerCheck in h1.seen
  }

  lemma SearchedAgain(h0: History, h1: History, h2: History)
    requires Searched(h0, h1) && Searched(h1, h2)
    ensures Searched(h0, h2)
  {
  }

  /** One attempt at deleting the StatefulSet. */
  method DeleteOwnedStatefulSet(api: ApiServer, clusterUid: nat) returns (r: Result<()>)
    requires Good(api) && clusterUid == api.h.cluster.uid && api.h.cluster.deleting
    modifies api
    ensures Good(api) && old(api.log) <= api.log && Rely(api.exclusive, old(api.w), api.w)
    ensures Searched(old(api.h), api.h)
    ensures r.Ok? ==> GoneOrGoing(api.w)
    ensures old(api.heard) <= api.heard && old(api.heard)[Looked] < api.heard[Looked]
    ensures r.Err? ==> DeletionTrouble(r.error, clusterUid, old(api.heard), api.heard)
  {
    var uid := StatefulSetUID(api, clusterUid);
    if uid.Err? {
      return Err(uid.error);
    }
    ghost var w1, a1 := api.w, api.heard;
    var labelled := AddRabbitmqDeletionLabel(api);
    RelyTransitive(api.exclusive, old(api.w), w1, api.w);
    if labelled.Err? {
      DeletionTroubleStays(labelled.error, clusterUid, old(api.heard), a1, api.heard, api.heard);
      return Err(labelled.error);
    }
    ghost var w2, a2 := api.w, api.heard;
    r := DeleteLabelled(api, uid.value);
    RelyTransitive(api.exclusive, old(api.w), w2, api.w);
    if r.Err? { DeletionTroubleStays(r.error, clusterUid, old(api.heard), a2, api.heard, api.heard); }
  }

  /** `clientretry.RetryOnConflict` around it. */
  method RetryDeletion(api: ApiServer, clusterUid: nat) returns (r: Result<()>)
    requires Good(api) && clusterUid == api.h.cluster.uid && api.h.cluster.deleting
    modifies api
    ensures Good(api) && old(api.log) <= api.log && Rely(api.exclusive, old(api.w), api.w)
    ensures Searched(old(api.h), api.h)
    ensures r.Ok? ==> GoneOrGoing(api.w)
    ensures old(api.heard) <= api.heard
    ensures r.Err? ==> DeletionTrouble(r.error, clusterUid, old(api.heard), api.heard)
    ensures r.Err? && r.error.Conflict? ==> old(api.heard)[Looked] + 5 <= api.heard[Looked]
  {
    RelyReflexive(api.exclusive, api.w);
    r := Err(Conflict(TheSts));
    for attempt := 0 to RETRIES
      invariant Good(api) && old(api.log) <= api.log && Rely(api.exclusive, old(api.w), api.w)
      invariant if attempt == 0 then api.h == old(api.h) else Searched(old(api.h), api.h)
      invariant r.Err? && (attempt > 0 ==> DeletionTrouble(r.error, clusterUid, old(api.heard), api.heard))
      invariant old(api.heard) <= api.heard && old(api.heard)[Looked] + attempt <= api.heard[Looked]
    {
      ghost var w0, a0, h0 := api.w, api.heard, api.h;
      r := DeleteOwnedStatefulSet(api, clusterUid);
      if attempt > 0 { SearchedAgain(old(api.h), h0, api.h); }
      if r.Err? { DeletionTroubleStays(r.error, clusterUid, old(api.heard), a0, api.heard, api.heard); }
      RelyTransitive(api.exclusive, old(api.w), w0, api.w);
      if r.Ok? || !r.error.Conflict? {
        return;
      }
    }
  }

  /** The write that takes the finalizer off the cluster. */
  ghost predicate Releases(s: Step) {
    s.op.PutCluster? && s.post.cluster.Some? && !s.post.cluster.value.finalizer
  }

  method RemoveFinalizer(api: ApiServer, rmq: RabbitmqCluster) returns (r: Result<()>)
    requires Good(api) && Tracks(rmq.Snapshot(), api.w) && Heeds(api.h, rmq.version, api.w)
    requires Admissible(rmq.spec, rmq.annotations) && api.h.cluster.deleting && OwnerCheck in api.h.seen
    modifies api, rmq, rmq.status
    ensures Good(api) && old(api.log) <= api.log && Met(old(api.h), api.h) && Rely(api.exclusive, old(api.w), api.w)
    ensures r.Ok? ==>
      rmq.Snapshot() == old(rmq.Snapshot()).(version := rmq.version, generation := rmq.generation, finalizer := false)
    ensures r.Ok? ==> |api.log| == |old(api.log)| + 1 && Releases(api.log[|old(api.log)|])
    ensures Answered(r, TheCluster, old(api.heard), api.heard)
  {
    ghost var was := rmq.Snapshot();
    rmq.finalizer := false;
    r := UpdateCluster(api, rmq, was);
  }

  /**
   The finalizer goes only after an attempt at deleting the StatefulSet. The result of the last
   attempt is `attempt`, and `left` the store after it: with a success the StatefulSet was gone or
   terminating. A failure is only logged, and the finalizer goes anyway.
   */
  method DeleteAndRelease(api: ApiServer, rmq: RabbitmqCluster)
    returns (r: Result<()>, ghost attempt: Result<()>, ghost left: World)
    requires Good(api) && Tracks(rmq.Snapshot(), api.w) && Heeds(api.h, rmq.version, api.w)
    requires rmq.uid == api.h.cluster.uid && Admissible(rmq.spec, rmq.annotations) && api.h.cluster.deleting
    modifies api, rmq, rmq.status
    ensures Good(api) && old(api.log) <= api.log && api.h.cluster == old(api.h).cluster && OwnerCheck in api.h.seen
    ensures r.Ok? ==> |old(api.log)| < |api.log| && Releases(api.log[|api.log| - 1])
    ensures Answered(r, TheCluster, old(api.heard), api.heard)
    ensures Rely(api.exclusive, old(api.w), left) && Rely(api.exclusive, left, api.w)
    ensures if attempt.Ok? then GoneOrGoing(left)
            else DeletionTrouble(attempt.error, api.h.cluster.uid, old(api.heard), api.heard)
  {
    var deleted := RetryDeletion(api, rmq.uid);
    attempt, left := deleted, api.w;
    ghost var a1 := api.heard;
    InRunStays(api.exclusive, old(api.h), rmq.Snapshot(), old(api.w), left);
    r := RemoveFinalizer(api, rmq);
    if attempt.Err? {
      DeletionTroubleStays(attempt.error, api.h.cluster.uid, old(api.heard), old(api.heard), a1, api.heard);
    }
  }

  /** `prepareForDeletion`: a cluster without the operator's finalizer is left alone. */
  method PrepareForDeletion(api: ApiServer, rmq: RabbitmqCluster) returns (r: Result<()>)
    requires Good(api) && Tracks(rmq.Snapshot(), api.w) && Heeds(api.h, rmq.version, api.w)
    requires rmq.uid == api.h.cluster.uid && Admissible(rmq.spec, rmq.annotations) && api.h.cluster.deleting
    modifies api, rmq, rmq.status
    ensures Good(api) && old(api.log) <= api.log && api.h.cluster == old(api.h).cluster
    ensures !old(rmq.finalizer) ==> r.Ok? && api.log == old(api.log) && api.h == old(api.h)
    ensures old(rmq.finalizer) && r.Ok? ==>
      |old(api.log)| < |api.log| && Releases(api.log[|api.log| - 1]) && OwnerCheck in api.h.seen
    ensures Answered(r, TheCluster, old(api.heard), api.heard)
  {
    r := Ok(());
    if rmq.finalizer {
      var released, _, _ := DeleteAndRelease(api, rmq);
      r := released;
    }
  }
}
