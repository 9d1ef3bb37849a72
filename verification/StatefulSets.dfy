/** The StatefulSet builder and the controller's writes of the StatefulSet. */
module StatefulSets {
  import opened Wrappers
  import opened Text
  import opened Timestamps
  import opened Annotations
  import opened Conditions
  import opened Builders
  import opened ClusterSpec
  import opened Objects
  import opened Worlds
  import opened Steps
  import opened Api
  import opened Runs
  import opened Scaling
  import opened Configurations

  // ---------- the builder ----------

  /** `persistentVolumeClaim`: no claim template when the requested storage is zero. */
  function Built(c: Cluster): StatefulSet {
    StatefulSet(0, 0, None, 1, if c.spec.storage == 0 then None else Some(c.spec.storage), map[], map[],
                None, None, 0, "", "", false)
  }

  /** What `Update` makes of a StatefulSet: all it does not mention stays. */
  ghost function Rebuilt(c: Cluster, s: StatefulSet): StatefulSet {
    s.(owner := Some(c.uid), replicas := c.spec.replicas,
       storage := if s.storage.Some? then Some(c.spec.storage) else None,
       annotations := Merged(true, s.annotations, [c.annotations]),
       podAnnotations := Merged(false, s.podAnnotations, [c.spec.PodAnnotations()]),
       memoryLimit := c.spec.memoryLimit, memoryRequest := c.spec.memoryRequest)
  }

  /** The last statement sets the controller reference, which fails on an object someone else controls. */
  method Update(c: Cluster, s: StatefulSet) returns (r: Result<StatefulSet>)
    ensures r.Ok? <==> s.owner.None? || s.owner == Some(c.uid)
    ensures r.Ok? ==> r.value == Rebuilt(c, s)
    ensures r.Ok? ==> r.value.owner == Some(c.uid) && r.value.replicas == c.spec.replicas
    ensures r.Ok? ==> r.value.storage == if s.storage.Some? then Some(c.spec.storage) else None
    ensures r.Ok? ==> r.value.memoryLimit == c.spec.memoryLimit && r.value.memoryRequest == c.spec.memoryRequest
    ensures r.Ok? ==> r.value.uid == s.uid && r.value.version == s.version && r.value.ready == s.ready
    ensures r.Err? ==> r.error == Declined(SomebodyElses(s))
  {
    var sts := s.(replicas := c.spec.replicas);
    var annotations := MergeWithFilter(true, sts.annotations, [c.annotations]);
    sts := sts.(annotations := annotations);
    sts := UpdatePersistenceStorageCapacity(sts, c.spec.storage);
    var podAnnotations := MergeWithFilter(false, sts.podAnnotations, [c.spec.PodAnnotations()]);
    sts := sts.(podAnnotations := podAnnotations);
    sts := sts.(memoryLimit := c.spec.memoryLimit, memoryRequest := c.spec.memoryRequest);
    if sts.owner.Some? && sts.owner.value != c.uid {
      return Err(Declined(SomebodyElses(s)));
    }
    r := Ok(sts.(owner := Some(c.uid)));
  }

  method UpdatePersistenceStorageCapacity(s: StatefulSet, capacity: int) returns (r: StatefulSet)
    ensures r == s.(storage := if s.storage.Some? then Some(capacity) else None)
  {
    r := s;
    if s.storage.Some? {
      r := s.(storage := Some(capacity));
    }
  }

  lemma MergedOne(filtered: bool, base: Annotation, m: Annotation)
    ensures Merged(filtered, base, [m]) == base + Admitted(filtered, m)
  {
    assert [m][..0] == [];
    assert Merged(filtered, base, []) == base;
  }

  /** A merge keeps the stamp under a key exactly when it does not bring a different one along. */
  lemma MergeKeepsStamp(filtered: bool, base: Annotation, m: Annotation, key: string)
    ensures Stamp(Merged(filtered, base, [m]), key) == Stamp(base, key)
       <==> (key !in m || !Admits(filtered, key) || Stamp(base, key) == Some(m[key]))
  {
    MergedOne(filtered, base, m);
  }

  /**
   Rebuilding keeps the restart stamp and the creation marker, so a rebuild neither restarts the
   cluster again nor forgets its feature flags, exactly when the cluster's own annotations do not
   bring other values for these two keys.
   */
  lemma RebuildKeepsStamps(c: Cluster, s: StatefulSet)
    ensures RestartStamp(Rebuilt(c, s)) == RestartStamp(s)
       <==> (LAST_RESTART_AT !in c.spec.PodAnnotations()
             || RestartStamp(s) == Some(c.spec.PodAnnotations()[LAST_RESTART_AT]))
    ensures Stamp(Rebuilt(c, s).annotations, CREATED_AT) == Stamp(s.annotations, CREATED_AT)
       <==> (CREATED_AT !in c.annotations || !Admits(true, CREATED_AT)
             || Stamp(s.annotations, CREATED_AT) == Some(c.annotations[CREATED_AT]))
  {
    MergeKeepsStamp(false, s.podAnnotations, c.spec.PodAnnotations(), LAST_RESTART_AT);
    MergeKeepsStamp(true, s.annotations, c.annotations, CREATED_AT);
  }

  /**
   Key by key: annotations of the StatefulSet and of its pod template stay, unless the cluster brings
   other values; Kubernetes' own are never brought along to the StatefulSet.
   */
  lemma RebuildOverlays(c: Cluster, s: StatefulSet, k: string)
    ensures
      var now, brought := Rebuilt(c, s), k in c.annotations && !IsKubernetesAnnotation(k);
      && (k in now.annotations <==> k in s.annotations || brought)
      && (k in now.annotations ==> now.annotations[k] == if brought then c.annotations[k] else s.annotations[k])
    ensures
      var now, given := Rebuilt(c, s), c.spec.PodAnnotations();
      && (k in now.podAnnotations <==> k in s.podAnnotations || k in given)
      && (k in now.podAnnotations ==> now.podAnnotations[k] == if k in given then given[k] else s.podAnnotations[k])
  {
    MergedOne(true, s.annotations, c.annotations);
    MergedOne(false, s.podAnnotations, c.spec.PodAnnotations());
  }

  /** A second rebuild changes nothing, so an unchanged specification causes no write. */
  lemma RebuildIsIdempotent(c: Cluster, s: StatefulSet)
    ensures Rebuilt(c, Rebuilt(c, s)) == Rebuilt(c, s)
  {
    MergeIsIdempotent(true, s.annotations, [c.annotations]);
    MergeIsIdempotent(false, s.podAnnotations, [c.spec.PodAnnotations()]);
  }

  // ---------- one write of the StatefulSet ----------

  /** The run's scale-down check allows this many replicas. */
  ghost predicate Allowed(h: History, replicas: int) {
    ScaleDownCheck in h.seen && h.seen[ScaleDownCheck].Some? ==> h.seen[ScaleDownCheck].value.replicas <= replicas
  }

  /** The StatefulSet, if there is one, has no more replicas than this. */
  ghost predicate Within(w: World, replicas: int) { w.sts.Some? ==> w.sts.value.replicas <= replicas }

  /** The claims and the StatefulSet, if there is one, are those of this cluster and fit the specification. */
  ghost predicate Fits(w: World, uid: nat, spec: Spec) {
    && Below(w.claims, spec.replicas, spec.storage) == {}
    && (w.sts.Some? ==>
        && w.sts.value.owner == Some(uid)
        && w.sts.value.replicas == spec.replicas
        && (w.sts.value.storage.Some? ==> w.sts.value.storage.value == spec.storage))
  }

  lemma FittingIsCovered(w: World, uid: nat, spec: Spec)
    requires Fits(w, uid, spec)
    ensures Covered(w)
  {
    forall i | w.sts.Some? && w.sts.value.storage.Some? && 0 <= i < w.sts.value.replicas && i in w.claims
      ensures w.claims[i].request >= spec.storage
    {
      assert i !in Below(w.claims, spec.replicas, spec.storage);
    }
  }

  /**
   The restart stamp stays, or catches up with a configuration marker it was not later than; then
   it is a clock reading of this run.
   */
  ghost predicate RestartsRightly(h: History, w: World, was: StatefulSet, s: StatefulSet)
    requires Wellformed(w)
  {
    RestartStamp(s) != RestartStamp(was) ==>
      && ConfStamp(w).Some? && !Settled(RestartStamp(was), ConfStamp(w).value)
      && RestartStamp(s).Some? && AtMost(ConfStamp(w).value, RestartStamp(s).value)
      && AtMost(Format(h.began), RestartStamp(s).value) && AtMost(RestartStamp(s).value, Format(w.clock))
  }

  ghost predicate KeepsFlags(h: History, was: StatefulSet, s: StatefulSet) {
    Marked(was.annotations, CREATED_AT) ==>
      Marked(s.annotations, CREATED_AT) || RanSince(h, EnableFeatureFlags, was.version)
  }

  /** A creation marker that was not there before is one the run owes. */
  ghost predicate MayMarkCreation(h: History, was: StatefulSet, s: StatefulSet) {
    Stamp(s.annotations, CREATED_AT).Some? && Stamp(s.annotations, CREATED_AT) != Stamp(was.annotations, CREATED_AT) ==>
      CreationMarker in h.due
  }

  /** The stored StatefulSet is what the builder makes of it: nothing is left to apply. */
  ghost predicate Applied(w: World, c: Cluster) { w.sts.Some? && Rebuilt(c, w.sts.value) == w.sts.value }

  /** The written parts of a StatefulSet as the caller wanted them. */
  ghost predicate HasDesign(w: World, s: StatefulSet) {
    w.sts.Some? && w.sts.value.owner == s.owner && w.sts.value.replicas == s.replicas
    && w.sts.value.storage == s.storage && w.sts.value.annotations == s.annotations
    && w.sts.value.podAnnotations == s.podAnnotations
  }

  /** A design that one that is there may be changed to: owned, and with no less of anything. */
  ghost predicate MayBecome(was: StatefulSet, s: StatefulSet, uid: nat, spec: Spec) {
    && s.owner == Some(uid) && (was.owner.None? || was.owner == s.owner)
    && was.replicas <= s.replicas == spec.replicas
    && (was.storage.Some? <==> s.storage.Some?)
    && (s.storage.Some? ==> was.storage.value <= s.storage.value == spec.storage)
  }

  lemma StsStepSafe(step: Step, spec: Spec, was: StatefulSet, s: StatefulSet)
    requires Building(step.h)
    requires step.op.PutSts? && Wellformed(step.pre) && Wellformed(step.post)
    requires StsPut(step.pre, s, step.post) && step.pre.sts == Some(was)
    requires Fits(step.post, step.h.cluster.uid, spec) && Allowed(step.h, spec.replicas)
    requires MayBecome(was, s, step.h.cluster.uid, spec)
    requires KeepsFlags(step.h, was, s) && MayMarkCreation(step.h, was, s) && RestartsRightly(step.h, step.pre, was, s)
    ensures SafeStep(step)
  {
    FittingIsCovered(step.post, step.h.cluster.uid, spec);
  }

  lemma StsWriteIsOnly(w0: World, pre: World, post: World)
    requires Wellformed(w0) && Wellformed(post) && Rely(true, w0, pre)
    requires pre.nextUid <= post.nextUid
    requires post == pre.(revision := pre.revision + 1, nextUid := post.nextUid, sts := post.sts)
    ensures OnlySts(w0, post)
  {
    RelyIsOnly(w0, pre);
    RelyReflexive(true, post);
    assert OnlySts(pre, post);
    OnlyStsTransitive(w0, pre, post);
  }

  /** Claims that are large enough stay so while nobody creates or resizes any. */
  lemma BelowStays(w0: World, w1: World, spec: Spec)
    requires ClaimsHold(w0, w1) && Below(w0.claims, spec.replicas, spec.storage) == {}
    ensures Below(w1.claims, spec.replicas, spec.storage) == {}
  {
    BelowNeverGrows(w0.claims, w1.claims, spec.replicas, spec.storage);
  }

  /** What a successful optimistic write knows of the store it found. */
  lemma FoundAsRead(w0: World, pre: World, spec: Spec)
    requires Wellformed(w0) && Rely(true, w0, pre) && Below(w0.claims, spec.replicas, spec.storage) == {}
    ensures Below(pre.claims, spec.replicas, spec.storage) == {} && ConfStamp(pre) == ConfStamp(w0)
    ensures pre.sts.Some? && pre.sts.value.version <= w0.revision ==> pre.sts == w0.sts
  {
    BelowStays(w0, pre, spec);
  }

  /** A logged write of the StatefulSet is safe. */
  lemma StsWriteSafe(log0: seq<Step>, log1: seq<Step>, op: Op, h: History, w0: World, w1: World)
    requires AllSafe(log0) && Wellformed(w0) && Wrote(true, log0, log1, op, h, w0, w1)
    requires SafeStep(log1[|log0|])
    requires
      var pre := log1[|log0|].pre;
      w1 == pre.(revision := pre.revision + 1, nextUid := w1.nextUid, sts := w1.sts) && pre.nextUid <= w1.nextUid
    ensures AllSafe(log1) && log0 <= log1 && OnlySts(w0, w1)
  {
    AllSafeGrows(log0, log1);
    StsWriteIsOnly(w0, log1[|log0|].pre, w1);
  }

  /** A stamp that was right when it was taken is right when it is written. */
  lemma StillRight(h: History, w0: World, pre: World, was: StatefulSet, s: StatefulSet)
    requires Wellformed(w0) && Rely(true, w0, pre) && RestartsRightly(h, w0, was, s)
    ensures RestartsRightly(h, pre, was, s)
  {
    assert ConfStamp(pre) == ConfStamp(w0);
    if RestartStamp(s) != RestartStamp(was) { StillPast(true, RestartStamp(s).value, w0, pre); }
  }

  lemma StsCallSafe(log0: seq<Step>, log1: seq<Step>, h: History, w0: World, w1: World, spec: Spec, was: StatefulSet,
        s: StatefulSet)
    requires Building(h)
    requires AllSafe(log0) && Wellformed(w0)
    requires Quiet(true, log0, log1, w0, w1)
          || (Wrote(true, log0, log1, Op.PutSts, h, w0, w1) && StsPut(log1[|log0|].pre, s, w1))
    requires StsAsRead(was, w0) && was.version == s.version
    requires Below(w0.claims, spec.replicas, spec.storage) == {} && Allowed(h, spec.replicas)
    requires MayBecome(was, s, h.cluster.uid, spec)
    requires KeepsFlags(h, was, s) && MayMarkCreation(h, was, s) && RestartsRightly(h, w0, was, s)
    ensures AllSafe(log1) && log0 <= log1 && OnlySts(w0, w1)
    ensures log1 != log0 ==>
      Fits(w1, h.cluster.uid, spec) && HasDesign(w1, s) && log1[|log0|].pre.sts == Some(was)
  {
    if log1 == log0 {
      RelyIsOnly(w0, w1);
    } else {
      var step := log1[|log0|];
      FoundAsRead(w0, step.pre, spec);
      StillRight(h, w0, step.pre, was, s);
      StsStepSafe(step, spec, was, s);
      StsWriteSafe(log0, log1, Op.PutSts, h, w0, w1);
    }
  }

  /** The object that is created for a cluster. */
  ghost predicate MadeFor(s: StatefulSet, c: Cluster) {
    && s.owner == Some(c.uid) && s.replicas == c.spec.replicas
    && s.storage == (if c.spec.storage == 0 then None else Some(c.spec.storage))
    && s.memoryLimit == c.spec.memoryLimit && s.memoryRequest == c.spec.memoryRequest
    && CREATED_AT !in s.annotations
  }

  lemma StsCreationStepSafe(step: Step, spec: Spec, s: StatefulSet)
    requires Building(step.h)
    requires step.op.CreateSts? && Wellformed(step.pre) && Wellformed(step.post) && StsCreated(step.pre, s, step.post)
    requires Fits(step.post, step.h.cluster.uid, spec) && Allowed(step.h, spec.replicas) && MadeFor(s, step.h.cluster)
    ensures SafeStep(step)
  {
    FittingIsCovered(step.post, step.h.cluster.uid, spec);
  }

  lemma StsCreationSafe(log0: seq<Step>, log1: seq<Step>, h: History, w0: World, w1: World, spec: Spec, s: StatefulSet)
    requires Building(h)
    requires AllSafe(log0) && Wellformed(w0)
    requires Quiet(true, log0, log1, w0, w1)
          || (Wrote(true, log0, log1, Op.CreateSts, h, w0, w1) && StsCreated(log1[|log0|].pre, s, w1))
    requires Below(w0.claims, spec.replicas, spec.storage) == {} && Allowed(h, spec.replicas)
    requires MadeFor(s, h.cluster) && s.replicas == spec.replicas
    requires s.storage.Some? ==> s.storage.value == spec.storage
    ensures AllSafe(log1) && log0 <= log1 && OnlySts(w0, w1)
    ensures log1 != log0 ==> Fits(w1, h.cluster.uid, spec)
  {
    if log1 == log0 {
      RelyIsOnly(w0, w1);
    } else {
      var step := log1[|log0|];
      FoundAsRead(w0, step.pre, spec);
      StsCreationStepSafe(step, spec, s);
      StsWriteSafe(log0, log1, Op.CreateSts, h, w0, w1);
    }
  }

  lemma FitsStays(w0: World, w1: World, uid: nat, spec: Spec)
    requires Rely(true, w0, w1) && Fits(w0, uid, spec)
    ensures Fits(w1, uid, spec)
  {
    BelowStays(w0, w1, spec);
  }

  // ---------- create or update ----------

  lemma RebuildIsSafe(h: History, w: World, c: Cluster, s: StatefulSet)
    requires Wellformed(w) && Admissible(c.spec, c.annotations)
    ensures KeepsFlags(h, s, Rebuilt(c, s)) && MayMarkCreation(h, s, Rebuilt(c, s))
    ensures RestartsRightly(h, w, s, Rebuilt(c, s))
  {
    RebuildKeepsStamps(c, s);
  }

  /** The first write since `log0` created the StatefulSet. */
  ghost predicate CreatedAfter(log0: seq<Step>, log1: seq<Step>) {
    |log0| < |log1| && log1[|log0|].op.CreateSts?
  }

  /** The write that creates the StatefulSet from the builder's object. */
  ghost predicate CreatedFrom(s: Step, c: Cluster, built: StatefulSet) {
    s.op.CreateSts? && StsCreated(s.pre, Rebuilt(c, built), s.post)
  }

  /** The builder's object, before or after the scale-down check has brought it up to date once. */
  ghost predicate BuiltFor(built: StatefulSet, c: Cluster) {
    && (built.owner.None? || built.owner == Some(c.uid)) && CREATED_AT !in built.annotations
    && built.storage == (if c.spec.storage == 0 then None else Some(c.spec.storage))
  }

  /** A StatefulSet was read that another object controls. */
  ghost predicate SomebodyHasIt(e: ApiError, uid: nat, a0: multiset<Answer>, a1: multiset<Answer>) {
    e.Declined? && e.why.SomebodyElses? && New(a0, a1, GotSts(e.why.found))
    && e.why.found.owner.Some? && e.why.found.owner.value != uid
  }

  /** What kept the builder from its work, other than the server: an object of somebody else, or one gone meanwhile. */
  ghost predicate StsTrouble(e: ApiError, uid: nat, a0: multiset<Answer>, a1: multiset<Answer>) {
    || (Given(e, TheSts, a0, a1) && (e.NotFound? ==> SawSts(a0, a1)))
    || (e.Declined? && e.why.Vanished? && New(a0, a1, GotSts(e.why.found)) && New(a0, a1, Absent(TheSts)))
    || SomebodyHasIt(e, uid, a0, a1)
  }

  /** The object as read in this attempt or, if it was not found, in an earlier one. */
  ghost predicate WasRead(read: Option<StatefulSet>, fetched: Option<StatefulSet>, a0: multiset<Answer>,
        a1: multiset<Answer>)
  {
    read == fetched || (read.Some? && New(a0, a1, GotSts(read.value)))
  }

  ghost predicate UpdateTrouble(e: ApiError, uid: nat, got: StatefulSet, a0: multiset<Answer>, a1: multiset<Answer>) {
    || Given(e, TheSts, a0, a1)
    || (e == Declined(SomebodyElses(got)) && got.owner.Some? && got.owner.value != uid)
  }

  lemma UpdateTroubleIsTrouble(e: ApiError, uid: nat, fetched: Option<StatefulSet>, got: StatefulSet,
        a: multiset<Answer>, a0: multiset<Answer>, a1: multiset<Answer>)
    requires a <= a0 <= a1 && New(a, a0, GotSts(got)) && UpdateTrouble(e, uid, got, a0, a1)
    ensures OnceTrouble(e, uid, fetched, Some(got), a, a1)
  {
  }

  /** The same for one attempt. */
  ghost predicate OnceTrouble(e: ApiError, uid: nat, fetched: Option<StatefulSet>, read: Option<StatefulSet>,
        a0: multiset<Answer>, a1: multiset<Answer>)
  {
    || (Given(e, TheSts, a0, a1) && (e.NotFound? ==> read.Some? && New(a0, a1, GotSts(read.value))))
    || (fetched.Some? && e == Declined(Vanished(fetched.value)) && New(a0, a1, Absent(TheSts)))
    || SomebodyHasIt(e, uid, a0, a1)
  }

  lemma OnceTroubleIsTrouble(e: ApiError, uid: nat, fetched: Option<StatefulSet>, read: Option<StatefulSet>,
        a: multiset<Answer>, a0: multiset<Answer>, a1: multiset<Answer>)
    requires a <= a0 <= a1 && OnceTrouble(e, uid, fetched, read, a0, a1)
    requires fetched.Some? ==> New(a, a0, GotSts(fetched.value))
    ensures StsTrouble(e, uid, a, a1)
  {
    if Given(e, TheSts, a0, a1) && e.NotFound? {
      assert New(a, a1, GotSts(read.value));
    }
  }

  lemma RebuiltIsMade(c: Cluster, built: StatefulSet, began: Cluster)
    requires BuiltFor(built, c) && Carries(c, began)
    ensures MadeFor(Rebuilt(c, built), began)
  {
    RebuildKeepsStamps(c, built);
  }

  lemma CreationCallSafe(log0: seq<Step>, log1: seq<Step>, h: History, w0: World, w1: World, c: Cluster,
        built: StatefulSet)
    requires Building(h) && AllSafe(log0) && Wellformed(w0)
    requires Quiet(true, log0, log1, w0, w1)
          || (Wrote(true, log0, log1, Op.CreateSts, h, w0, w1) && StsCreated(log1[|log0|].pre, Rebuilt(c, built), w1))
    requires Below(w0.claims, c.spec.replicas, c.spec.storage) == {} && Allowed(h, c.spec.replicas)
    requires BuiltFor(built, c) && Carries(c, h.cluster)
    ensures AllSafe(log1) && log0 <= log1 && OnlySts(w0, w1)
    ensures log1 != log0 ==> Fits(w1, h.cluster.uid, c.spec) && Applied(w1, c) && CreatedAfter(log0, log1)
    ensures log1 != log0 ==> |log1| == |log0| + 1 && CreatedFrom(log1[|log0|], c, built)
  {
    RebuiltIsMade(c, built, h.cluster);
    RebuildIsIdempotent(c, built);
    StsCreationSafe(log0, log1, h, w0, w1, c.spec, Rebuilt(c, built));
  }

  /** The create half: the builder's object, brought up to date, becomes the StatefulSet. */
  method CreateFrom(api: ApiServer, c: Cluster, built: StatefulSet) returns (r: Result<Operation>)
    requires CanBuild(api) && Carries(c, api.h.cluster) && api.w.sts.None?
    requires Below(api.w.claims, c.spec.replicas, c.spec.storage) == {}
    requires Allowed(api.h, c.spec.replicas) && BuiltFor(built, c)
    modifies api
    ensures old(api.heard) <= api.heard
    ensures r.Err? ==> r.error.Refused? && New(old(api.heard), api.heard, NoAnswer)
    ensures Good(api) && old(api.log) <= api.log && Owing(old(api.h), api.h) && OnlySts(old(api.w), api.w)
    ensures r.Ok? ==> Fits(api.w, api.h.cluster.uid, c.spec) && Applied(api.w, c)
    ensures r.Ok? ==> r.value.Created? && CreationMarker in api.h.due && CreatedAfter(old(api.log), api.log)
    ensures api.log != old(api.log) ==>
      |api.log| == |old(api.log)| + 1 && CreatedFrom(api.log[|old(api.log)|], c, built)
  {
    var made := Update(c, built);
    var created := api.CreateSts(made.value);
    CreationCallSafe(old(api.log), api.log, old(api.h), old(api.w), api.w, c, built);
    r := if created.Ok? then Ok(Created) else Err(created.error);
  }

  /** The update half: nothing is written when the builder changes nothing. */
  method UpdateFrom(api: ApiServer, c: Cluster, got: StatefulSet) returns (r: Result<Operation>)
    requires CanBuild(api) && Carries(c, api.h.cluster) && api.w.sts == Some(got)
    requires Below(api.w.claims, c.spec.replicas, c.spec.storage) == {}
    requires Allowed(api.h, c.spec.replicas) && Within(api.w, c.spec.replicas) && TemplateWithin(api.w, c.spec.storage)
    modifies api
    ensures old(api.heard) <= api.heard
    ensures r.Err? ==> UpdateTrouble(r.error, c.uid, got, old(api.heard), api.heard)
    ensures Good(api) && old(api.log) <= api.log && api.h == old(api.h) && OnlySts(old(api.w), api.w)
    ensures r.Ok? ==> Fits(api.w, api.h.cluster.uid, c.spec) && Applied(api.w, c)
    ensures r.Ok? ==> !r.value.Created? && !CreatedAfter(old(api.log), api.log)
    ensures r.Err? && r.error.Conflict? ==> Quiet(true, old(api.log), api.log, old(api.w), api.w)
  {
    RelyReflexive(true, api.w);
    RelyIsOnly(api.w, api.w);
    var made := Update(c, got);
    if made.Err? {
      return Err(made.error);
    }
    if made.value == got {
      return Ok(Unchanged);
    }
    RebuildIsIdempotent(c, got);
    RebuildIsSafe(api.h, api.w, c, got);
    var put := api.PutSts(made.value);
    StsCallSafe(old(api.log), api.log, api.h, old(api.w), api.w, c.spec, got, made.value);
    r := if put.Ok? then Ok(Updated) else Err(put.error);
  }

  /**
   `controllerutil.CreateOrUpdate` of the StatefulSet. The object passed in is filled in by the
   first successful read, and an object once read cannot be created again.
   */
  method CreateOrUpdateSts(api: ApiServer, c: Cluster, built: StatefulSet, fetched: Option<StatefulSet>)
    returns (r: Result<Operation>, read: Option<StatefulSet>)
    requires CanBuild(api) && Carries(c, api.h.cluster)
    requires Below(api.w.claims, c.spec.replicas, c.spec.storage) == {} && Allowed(api.h, c.spec.replicas)
    requires Within(api.w, c.spec.replicas) && TemplateWithin(api.w, c.spec.storage) && BuiltFor(built, c)
    modifies api
    ensures old(api.heard) <= api.heard && WasRead(read, fetched, old(api.heard), api.heard)
    ensures r.Err? ==> OnceTrouble(r.error, c.uid, fetched, read, old(api.heard), api.heard)
    ensures Good(api) && old(api.log) <= api.log && Owing(old(api.h), api.h) && OnlySts(old(api.w), api.w)
    ensures r.Ok? ==> Fits(api.w, api.h.cluster.uid, c.spec) && Applied(api.w, c)
    ensures r == Ok(Created) ==> CreationMarker in api.h.due
    ensures r.Ok? ==> (r.value.Created? <==> CreatedAfter(old(api.log), api.log))
    ensures r.Err? && r.error.Conflict? ==>
      Quiet(true, old(api.log), api.log, old(api.w), api.w) && api.h == old(api.h)
  {
    var got := api.GetSts(Elsewhere);
    read := if got.Ok? then Some(got.value) else fetched;
    ghost var w1 := api.w;
    BelowStays(old(api.w), w1, c.spec);
    if got.Err? {
      if !got.error.NotFound? {
        RelyIsOnly(old(api.w), api.w);
        return Err(got.error), read;
      }
      if fetched.Some? {
        RelyIsOnly(old(api.w), api.w);
        return Err(Declined(Vanished(fetched.value))), read;
      }
      r := CreateFrom(api, c, built);
    } else {
      ghost var a1 := api.heard;
      r := UpdateFrom(api, c, got.value);
      if r.Err? { UpdateTroubleIsTrouble(r.error, c.uid, fetched, got.value, old(api.heard), a1, api.heard); }
    }
    OnlyStsAfterQuiet(old(api.w), w1, api.w);
  }

  /** `clientretry.RetryOnConflict` around it. */
  method ReconcileSts(api: ApiServer, c: Cluster, built: StatefulSet) returns (r: Result<Operation>)
    requires CanBuild(api) && Carries(c, api.h.cluster)
    requires Below(api.w.claims, c.spec.replicas, c.spec.storage) == {} && Allowed(api.h, c.spec.replicas)
    requires Within(api.w, c.spec.replicas) && TemplateWithin(api.w, c.spec.storage) && BuiltFor(built, c)
    modifies api
    ensures old(api.heard) <= api.heard
    ensures r.Err? ==> StsTrouble(r.error, c.uid, old(api.heard), api.heard)
    ensures r.Err? && r.error.Conflict? ==>
      Setbacks(old(api.heard), TheSts) + 5 <= Setbacks(api.heard, TheSts)
    ensures Good(api) && old(api.log) <= api.log && Owing(old(api.h), api.h) && OnlySts(old(api.w), api.w)
    ensures r.Ok? ==> Fits(api.w, api.h.cluster.uid, c.spec) && Applied(api.w, c)
    ensures r == Ok(Created) ==> CreationMarker in api.h.due
    ensures r.Ok? ==> (r.value.Created? <==> CreatedAfter(old(api.log), api.log))
  {
    RelyReflexive(true, api.w);
    r := Err(Conflict(TheSts));
    var fetched: Option<StatefulSet> := None;
    for attempt := 0 to RETRIES
      invariant CanBuild(api) && api.h == old(api.h) && Quiet(true, old(api.log), api.log, old(api.w), api.w)
      invariant r == Err(Conflict(TheSts)) && Tried(attempt, r, TheSts, old(api.heard), api.heard)
      invariant fetched.Some? ==> New(old(api.heard), api.heard, GotSts(fetched.value))
    {
      ghost var w0, a0, before := api.w, api.heard, fetched;
      BelowStays(old(api.w), w0, c.spec);
      r, fetched := CreateOrUpdateSts(api, c, built, fetched);
      if r.Err? { OnceTroubleIsTrouble(r.error, c.uid, before, fetched, old(api.heard), a0, api.heard); }
      OnlyStsAfterQuiet(old(api.w), w0, api.w);
      if r.Ok? || !r.error.Conflict? {
        return;
      }
    }
    RelyIsOnly(old(api.w), api.w);
  }

  // ---------- the creation marker ----------

  method PutCreatedMarker(api: ApiServer, spec: Spec, was: StatefulSet, value: string) returns (r: Result<()>)
    requires CanBuild(api) && api.w.sts == Some(was) && value != "" && CreationMarker in api.h.due
    requires Fits(api.w, api.h.cluster.uid, spec) && Allowed(api.h, spec.replicas)
    modifies api
    ensures Good(api) && old(api.log) <= api.log && api.h == old(api.h) && OnlySts(old(api.w), api.w)
    ensures Fits(api.w, api.h.cluster.uid, spec)
    ensures Answered(r, TheSts, old(api.heard), api.heard)
    ensures r.Ok? ==> api.w.sts.Some? && Marked(api.w.sts.value.annotations, CREATED_AT)
    ensures r.Err? && (r.error.Conflict? || r.error.NotFound?) ==> Quiet(true, old(api.log), api.log, old(api.w), api.w)
  {
    var s := was.(annotations := was.annotations[CREATED_AT := value]);
    assert KeepsFlags(api.h, was, s) && RestartsRightly(api.h, api.w, was, s);
    var put := api.PutSts(s);
    StsCallSafe(old(api.log), api.log, api.h, old(api.w), api.w, spec, was, s);
    if api.log == old(api.log) { FitsStays(old(api.w), api.w, api.h.cluster.uid, spec); }
    r := if put.Ok? then Ok(()) else Err(put.error);
  }

  /** One attempt: read the StatefulSet, set the marker, write it. */
  method MarkCreatedOnce(api: ApiServer, spec: Spec, value: string) returns (r: Result<()>)
    requires CanBuild(api) && value != "" && CreationMarker in api.h.due
    requires Fits(api.w, api.h.cluster.uid, spec) && Allowed(api.h, spec.replicas)
    modifies api
    ensures Good(api) && old(api.log) <= api.log && api.h == old(api.h) && OnlySts(old(api.w), api.w)
    ensures Fits(api.w, api.h.cluster.uid, spec)
    ensures r.Ok? ==> api.w.sts.Some? && Marked(api.w.sts.value.annotations, CREATED_AT)
    ensures r.Err? && (r.error.Conflict? || r.error.NotFound?) ==> Quiet(true, old(api.log), api.log, old(api.w), api.w)
    ensures Answered(r, TheSts, old(api.heard), api.heard)
  {
    var got := api.GetSts(Elsewhere);
    RelyIsOnly(old(api.w), api.w);
    FitsStays(old(api.w), api.w, api.h.cluster.uid, spec);
    if got.Err? {
      return Err(got.error);
    }
    ghost var w1 := api.w;
    r := PutCreatedMarker(api, spec, got.value, value);
    OnlyStsAfterQuiet(old(api.w), w1, api.w);
  }

  /** `annotateIfNeeded` for the StatefulSet: only a creation leaves a marker, with `updateAnnotation`'s retries. */
  method AnnotateIfCreated(api: ApiServer, spec: Spec, operation: Operation) returns (r: Result<()>)
    requires CanBuild(api) && Fits(api.w, api.h.cluster.uid, spec) && Allowed(api.h, spec.replicas)
    requires operation.Created? ==> CreationMarker in api.h.due
    modifies api
    ensures Good(api) && old(api.log) <= api.log && api.h == old(api.h) && OnlySts(old(api.w), api.w)
    ensures Fits(api.w, api.h.cluster.uid, spec)
    ensures r.Ok? && operation.Created? ==> api.w.sts.Some? && Marked(api.w.sts.value.annotations, CREATED_AT)
    ensures !operation.Created? ==> api.log == old(api.log) && api.w == old(api.w) && r.Ok?
    ensures Answered(r, TheSts, old(api.heard), api.heard)
    ensures r.Err? && (r.error.Conflict? || r.error.NotFound?) ==>
      Setbacks(old(api.heard), TheSts) + 5 <= Setbacks(api.heard, TheSts)
  {
    RelyReflexive(true, api.w);
    RelyIsOnly(api.w, api.w);
    if !operation.Created? {
      return Ok(());
    }
    StampNotEmpty(api.w.clock);
    var value := api.Now();
    r := Err(NotFound(TheSts));
    for attempt := 0 to RETRIES
      invariant CanBuild(api) && api.h == old(api.h) && Quiet(true, old(api.log), api.log, old(api.w), api.w)
      invariant Tried(attempt, r, TheSts, old(api.heard), api.heard)
      invariant r.Err? && Fits(api.w, api.h.cluster.uid, spec)
    {
      ghost var w0, a0, was := api.w, api.heard, r;
      r := MarkCreatedOnce(api, spec, value);
      TriedAgain(attempt, was, r, TheSts, old(api.heard), a0, api.heard);
      OnlyStsAfterQuiet(old(api.w), w0, api.w);
      if r.Ok? || !ConflictOrNotFound(r.error) {
        return;
      }
    }
    RelyIsOnly(old(api.w), api.w);
  }

  /** The StatefulSet's turn: create or update it, then leave a marker if it was created. */
  method ApplySts(api: ApiServer, c: Cluster, built: StatefulSet)
    returns (operation: Result<Operation>, annotated: Result<()>, ghost applied: World)
    requires CanBuild(api) && Carries(c, api.h.cluster)
    requires Below(api.w.claims, c.spec.replicas, c.spec.storage) == {} && Allowed(api.h, c.spec.replicas)
    requires Within(api.w, c.spec.replicas) && TemplateWithin(api.w, c.spec.storage) && BuiltFor(built, c)
    modifies api
    ensures old(api.heard) <= api.heard
    ensures operation.Err? ==> StsTrouble(operation.error, c.uid, old(api.heard), api.heard)
    ensures operation.Ok? ==> Answered(annotated, TheSts, old(api.heard), api.heard)
    ensures Good(api) && old(api.log) <= api.log && Progressed(old(api.h), api.h) && OnlySts(old(api.w), api.w)
    ensures if operation.Ok? then StatefulSetBuilder in api.h.built else annotated.Err?
    ensures annotated.Ok? ==> Fits(api.w, api.h.cluster.uid, c.spec) && Applied(applied, c) && OnlySts(applied, api.w)
    ensures annotated.Ok? && CreatedAfter(old(api.log), api.log) ==> FlagsPending(api.w)
  {
    operation := ReconcileSts(api, c, built);
    annotated, applied := Err(Refused), api.w;
    if operation.Ok? {
      FittingIsCovered(api.w, api.h.cluster.uid, c.spec);
      api.Succeeded(StatefulSetBuilder);
      annotated := AnnotateIfCreated(api, c.spec, operation.value);
      OnlyStsTransitive(old(api.w), applied, api.w);
    }
  }

  // ---------- restarts ----------

  /** The StatefulSet, if there is one, has been restarted since the configuration changed. */
  ghost predicate Restarted(w: World) {
    w.sts.Some? && ConfStamp(w).Some? ==>
      RestartStamp(w.sts.value).Some? && AtMost(ConfStamp(w).value, RestartStamp(w.sts.value).value)
  }

  lemma RestartedStays(w0: World, w1: World)
    requires Rely(true, w0, w1) && Restarted(w0)
    ensures Restarted(w1)
  {
  }

  /** A stored StatefulSet is due for a restart: its stamp is not later than the configuration marker. */
  ghost predicate RestartDue(w: World) {
    w.sts.Some? && ConfStamp(w).Some? && !Settled(RestartStamp(w.sts.value), ConfStamp(w).value)
  }

  /** The write that restarts the StatefulSet: it was due, and nothing but the stamp of its pod template changes. */
  ghost predicate RestartWritten(s: Step, spec: Spec, stamp: string) {
    && s.op.PutSts? && RestartDue(s.pre) && Fits(s.post, s.h.cluster.uid, spec)
    && s.post == s.pre.(revision := s.pre.revision + 1, sts := Some(s.pre.sts.value.(
         version := s.pre.revision + 1,
         podAnnotations := s.pre.sts.value.podAnnotations[LAST_RESTART_AT := stamp])))
  }

  /** One attempt: read the StatefulSet, stamp its pod template with the time, write it. */
  method RestartOnce(api: ApiServer, spec: Spec) returns (r: Result<()>)
    requires CanBuild(api) && Fits(api.w, api.h.cluster.uid, spec) && Allowed(api.h, spec.replicas)
    requires ConfStamp(api.w).Some? && (api.w.sts.Some? ==> RestartDue(api.w))
    modifies api
    ensures Good(api) && old(api.log) <= api.log && api.h == old(api.h)
    ensures OnlySts(old(api.w), api.w) && Fits(api.w, api.h.cluster.uid, spec)
    ensures r.Ok? ==> Restarted(api.w) && api.log != old(api.log)
    ensures r.Err? && r.error.Conflict? ==> Quiet(true, old(api.log), api.log, old(api.w), api.w)
    ensures Answered(r, TheSts, old(api.heard), api.heard)
  {
    var got := api.GetSts(Elsewhere);
    FitsStays(old(api.w), api.w, api.h.cluster.uid, spec);
    RelyIsOnly(old(api.w), api.w);
    if got.Err? {
      return Err(got.error);
    }
    ghost var w1 := api.w;
    r := StampNow(api, spec, got.value);
    OnlyStsAfterQuiet(old(api.w), w1, api.w);
  }

  /** The stamp is the time as the StatefulSet has just been read. */
  method StampNow(api: ApiServer, spec: Spec, got: StatefulSet) returns (r: Result<()>)
    requires CanBuild(api) && Fits(api.w, api.h.cluster.uid, spec) && Allowed(api.h, spec.replicas)
    requires api.w.sts == Some(got) && RestartDue(api.w)
    modifies api
    ensures Good(api) && old(api.log) <= api.log && api.h == old(api.h)
    ensures OnlySts(old(api.w), api.w) && Fits(api.w, api.h.cluster.uid, spec)
    ensures r.Ok? ==> Restarted(api.w) && api.log != old(api.log)
    ensures api.log != old(api.log) ==>
      |api.log| == |old(api.log)| + 1 && RestartWritten(api.log[|old(api.log)|], spec, Format(old(api.w).clock))
    ensures r.Err? && r.error.Conflict? ==> Quiet(true, old(api.log), api.log, old(api.w), api.w)
    ensures Answered(r, TheSts, old(api.heard), api.heard)
  {
    var s := got.(podAnnotations := got.podAnnotations[LAST_RESTART_AT := api.Now()]);
    LaterClockLaterStamp(api.h.began, api.w.clock);
    LessTotal(api.Now(), api.Now());
    assert RestartsRightly(api.h, api.w, got, s);
    var put := api.PutSts(s);
    StsCallSafe(old(api.log), api.log, api.h, old(api.w), api.w, spec, got, s);
    if api.log == old(api.log) {
      FitsStays(old(api.w), api.w, api.h.cluster.uid, spec);
    } else {
      assert ConfStamp(api.log[|old(api.log)|].pre) == ConfStamp(old(api.w));
    }
    r := if put.Ok? then Ok(()) else Err(put.error);
  }

  lemma RestartStillDue(w0: World, w1: World, uid: nat, spec: Spec)
    requires Rely(true, w0, w1) && Fits(w0, uid, spec)
    requires ConfStamp(w0).Some? && (w0.sts.Some? ==> RestartDue(w0))
    ensures Fits(w1, uid, spec) && ConfStamp(w1).Some? && (w1.sts.Some? ==> RestartDue(w1))
  {
    FitsStays(w0, w1, uid, spec);
  }

  method RestartSts(api: ApiServer, spec: Spec) returns (r: Result<()>)
    requires CanBuild(api) && Fits(api.w, api.h.cluster.uid, spec) && Allowed(api.h, spec.replicas)
    requires ConfStamp(api.w).Some? && (api.w.sts.Some? ==> RestartDue(api.w))
    modifies api
    ensures Good(api) && old(api.log) <= api.log && api.h == old(api.h) && OnlySts(old(api.w), api.w)
    ensures Fits(api.w, api.h.cluster.uid, spec)
    ensures r.Ok? ==> Restarted(api.w) && api.log != old(api.log)
    ensures Answered(r, TheSts, old(api.heard), api.heard)
    ensures r.Err? && r.error.Conflict? ==>
      Setbacks(old(api.heard), TheSts) + 5 <= Setbacks(api.heard, TheSts)
  {
    RelyReflexive(true, api.w);
    r := Err(Conflict(TheSts));
    for attempt := 0 to RETRIES
      invariant CanBuild(api) && api.h == old(api.h) && Quiet(true, old(api.log), api.log, old(api.w), api.w)
      invariant Tried(attempt, r, TheSts, old(api.heard), api.heard)
      invariant r == Err(Conflict(TheSts))
    {
      ghost var w0, a0, was := api.w, api.heard, r;
      RestartStillDue(old(api.w), w0, api.h.cluster.uid, spec);
      r := RestartOnce(api, spec);
      TriedAgain(attempt, was, r, TheSts, old(api.heard), a0, api.heard);
      OnlyStsAfterQuiet(old(api.w), w0, api.w);
      if r.Ok? || !r.error.Conflict? {
        return;
      }
    }
    RelyIsOnly(old(api.w), api.w);
    RestartStillDue(old(api.w), api.w, api.h.cluster.uid, spec);
  }

  /** While only others act, a StatefulSet due for a restart stays so for as long as it is there. */
  lemma NotDueNow(a: World, b: World, c: World)
    requires Wellformed(a) && Rely(true, a, b) && Rely(true, b, c) && c.sts.Some? && !RestartDue(c)
    ensures !RestartDue(a)
  {
  }

  /** The StatefulSet is restarted unless its stamp is later than the marker `u`. */
  method RestartIfBehind(api: ApiServer, spec: Spec, u: string) returns (r: Result<nat>)
    requires CanBuild(api) && Fits(api.w, api.h.cluster.uid, spec) && Allowed(api.h, spec.replicas)
    requires ConfStamp(api.w) == Some(u)
    modifies api
    ensures Good(api) && old(api.log) <= api.log && api.h == old(api.h) && OnlySts(old(api.w), api.w)
    ensures Fits(api.w, api.h.cluster.uid, spec)
    ensures r == Ok(0) ==> Restarted(api.w)
    ensures api.log != old(api.log) ==> RestartDue(old(api.w))
    ensures r == Ok(0) && api.log == old(api.log) ==>
      Rely(true, old(api.w), api.w) && api.w.sts.Some? && !RestartDue(api.w)
    ensures r.Ok? && r.value > 0 ==> r.value == 10 && api.log == old(api.log) && api.w.sts.None?
    ensures Answered(r, TheSts, old(api.heard), api.heard)
    ensures r.Err? && r.error.NotFound? ==> SawSts(old(api.heard), api.heard)
  {
    var sts := api.GetSts(Elsewhere);
    FitsStays(old(api.w), api.w, api.h.cluster.uid, spec);
    RelyIsOnly(old(api.w), api.w);
    if sts.Err? {
      return if sts.error.NotFound? then Ok(10) else Err(sts.error);
    }
    if LAST_RESTART_AT in sts.value.podAnnotations && Less(u, sts.value.podAnnotations[LAST_RESTART_AT]) {
      LessTotal(u, sts.value.podAnnotations[LAST_RESTART_AT]);
      return Ok(0);
    }
    ghost var w1, a1 := api.w, api.heard;
    var done := RestartSts(api, spec);
    OnlyStsAfterQuiet(old(api.w), w1, api.w);
    assert New(old(api.heard), a1, GotSts(sts.value));
    SawStsStays(old(api.heard), old(api.heard), a1, api.heard);
    r := if done.Ok? then Ok(0) else Err(done.error);
  }

  /**
   `restartStatefulSetIfNeeded`; the result is the number of seconds after which to try again.
   It restarts exactly when the stored stamp is not later than the stored marker.
   */
  method RestartStatefulSetIfNeeded(api: ApiServer, spec: Spec) returns (r: Result<nat>)
    requires CanBuild(api) && Fits(api.w, api.h.cluster.uid, spec) && Allowed(api.h, spec.replicas)
    modifies api
    ensures Good(api) && old(api.log) <= api.log && api.h == old(api.h) && OnlySts(old(api.w), api.w)
    ensures Fits(api.w, api.h.cluster.uid, spec)
    ensures r == Ok(0) ==> Restarted(api.w)
    ensures api.log != old(api.log) ==> RestartDue(old(api.w))
    ensures r == Ok(0) && RestartDue(old(api.w)) ==> api.log != old(api.log)
    ensures r.Ok? && r.value > 0 ==> r.value == 10 && api.log == old(api.log) && (api.w.conf.None? || api.w.sts.None?)
    ensures Answered(r, TheSts, old(api.heard), api.heard)
    ensures r.Err? && r.error.NotFound? ==> SawSts(old(api.heard), api.heard)
  {
    var conf := api.GetConfig(ConfMap);
    FitsStays(old(api.w), api.w, api.h.cluster.uid, spec);
    RelyIsOnly(old(api.w), api.w);
    if conf.Err? {
      return if conf.error.NotFound? then Ok(10) else Err(conf.error);
    }
    if SERVER_CONF_UPDATED_AT !in conf.value.annotations {
      return Ok(0);
    }
    ghost var w1, a1 := api.w, api.heard;
    r := RestartIfBehind(api, spec, conf.value.annotations[SERVER_CONF_UPDATED_AT]);
    OnlyStsAfterQuiet(old(api.w), w1, api.w);
    if r.Err? && r.error.NotFound? { SawStsStays(old(api.heard), a1, api.heard, api.heard); }
    if r == Ok(0) && api.log == old(api.log) { NotDueNow(old(api.w), w1, api.w); }
  }
}
