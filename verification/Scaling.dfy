/**
 Expansion of persistent volume claims: the StatefulSet is deleted with its pods and claims
 left in place, the claims are resized, and a later builder creates the StatefulSet again.
 */
module Scaling {
  import opened Wrappers
  import opened ClusterSpec
  import opened Objects
  import opened Worlds
  import opened Steps
  import opened Api
  import opened Runs

  /** An existing claim and the pod index its name stands for. */
  datatype Existing = Existing(index: int, request: int)

  /** The claim template of the StatefulSet, if there is one, asks for no more than this. */
  ghost predicate TemplateWithin(w: World, storage: int) {
    w.sts.Some? && w.sts.value.storage.Some? ==> w.sts.value.storage.value <= storage
  }

  /** The claims of the first `n` pods that are smaller than `d`: what an expansion still has to do. */
  ghost function Below(claims: map<int, Claim>, n: int, d: int): set<int> {
    set i | i in claims && 0 <= i < n && claims[i].request < d
  }

  /** Claims others deleted or annotated, and claims of the first `n` pods resized from below `d` to `d`. */
  ghost predicate Resized(was: map<int, Claim>, claims: map<int, Claim>, n: int, d: int) {
    forall i :: i in claims ==>
      && i in was
      && (claims[i].request != was[i].request ==> 0 <= i < n && was[i].request < d == claims[i].request)
  }

  /** Whatever an expansion does and wherever it stops, what is left to do does not grow. */
  lemma BelowNeverGrows(was: map<int, Claim>, claims: map<int, Claim>, n: int, d: int)
    requires Resized(was, claims, n, d)
    ensures Below(claims, n, d) <= Below(was, n, d)
  {
  }

  /** The StatefulSet and the request of its claim template "persistence", which is zero when there is none. */
  method ExistingCapacity(api: ApiServer) returns (r: Result<(StatefulSet, int)>)
    requires api.Ready()
    modifies api
    ensures api.Ready() && Quiet(api.exclusive, old(api.log), api.log, old(api.w), api.w) && api.h == old(api.h)
    ensures Answered(r, TheSts, old(api.heard), api.heard)
    ensures r.Ok? ==> api.w.sts == Some(r.value.0) && New(old(api.heard), api.heard, GotSts(r.value.0))
    ensures r.Ok? ==> r.value.1 == if r.value.0.storage.Some? then r.value.0.storage.value else 0
    ensures r.Err? ==> !r.error.Conflict? && (r.error.NotFound? ==> api.w.sts.None?)
  {
    var sts := api.GetSts(Elsewhere);
    if sts.Err? {
      return Err(sts.error);
    }
    r := Ok((sts.value, if sts.value.storage.Some? then sts.value.storage.value else 0));
  }

  ghost predicate Ascending(pvcs: seq<Existing>) {
    forall j, k :: 0 <= j < k < |pvcs| ==> pvcs[j].index < pvcs[k].index
  }

  /** The claims found so far: those of the first `i` pods, as large as they were at the start. */
  ghost predicate Collected(pvcs: seq<Existing>, was: map<int, Claim>, claims: map<int, Claim>, i: int) {
    && Ascending(pvcs)
    && (forall e :: e in pvcs ==> 0 <= e.index < i && e.index in was && was[e.index].request == e.request)
    && (forall k :: 0 <= k < i && k in claims ==> Existing(k, claims[k].request) in pvcs)
  }

  lemma CollectedStays(pvcs: seq<Existing>, was: map<int, Claim>, w0: World, w1: World, i: int)
    requires Collected(pvcs, was, w0.claims, i) && ClaimsHold(w0, w1)
    ensures Collected(pvcs, was, w1.claims, i)
  {
  }

  lemma CollectedNext(pvcs: seq<Existing>, was: map<int, Claim>, claims: map<int, Claim>, i: nat)
    requires Collected(pvcs, was, claims, i)
    ensures i !in claims ==> Collected(pvcs, was, claims, i + 1)
    ensures i in claims && i in was && was[i].request == claims[i].request ==>
      Collected(pvcs + [Existing(i, claims[i].request)], was, claims, i + 1)
  {
    if i in claims {
      var more := pvcs + [Existing(i, claims[i].request)];
      assert forall e :: e in more <==> e in pvcs || e == Existing(i, claims[i].request);
      assert forall k :: 0 <= k < |pvcs| ==> pvcs[k] in pvcs;
    }
  }

  /** The run read claims; nothing else of its history is new. */
  ghost predicate ReadClaims(h0: History, h1: History) { h1 == h0.(claims := h1.claims) }

  ghost predicate AsLastRead(pvcs: seq<Existing>, h: History) {
    forall e :: e in pvcs ==> e.index in h.claims && h.claims[e.index] == e.request
  }

  /** The claims of the first `replicas` pods that exist. */
  method GetClusterPVCs(api: ApiServer, replicas: int) returns (r: Result<seq<Existing>>)
    requires api.Ready()
    modifies api
    ensures api.Ready() && Quiet(api.exclusive, old(api.log), api.log, old(api.w), api.w)
    ensures ReadClaims(old(api.h), api.h)
    ensures r.Ok? ==> Collected(r.value, old(api.w).claims, api.w.claims, replicas) && AsLastRead(r.value, api.h)
    ensures old(api.heard) <= api.heard && (r.Err? ==> r.error.Refused? && New(old(api.heard), api.heard, NoAnswer))
  {
    var pvcs: seq<Existing> := [];
    RelyReflexive(api.exclusive, api.w);
    var i := 0;
    while i < replicas
      invariant api.Ready() && Quiet(api.exclusive, old(api.log), api.log, old(api.w), api.w)
      invariant ReadClaims(old(api.h), api.h) && AsLastRead(pvcs, api.h) && old(api.heard) <= api.heard
      invariant 0 <= i && (i <= replicas || i == 0)
      invariant Collected(pvcs, old(api.w).claims, api.w.claims, i)
    {
      ghost var w0 := api.w;
      var pvc := api.GetClaim(i);
      CollectedStays(pvcs, old(api.w).claims, w0, api.w, i);
      RelyTransitive(api.exclusive, old(api.w), w0, api.w);
      CollectedNext(pvcs, old(api.w).claims, api.w.claims, i);
      if pvc.Err? && !pvc.error.NotFound? {
        return Err(pvc.error);
      }
      if pvc.Ok? {
        pvcs := pvcs + [Existing(i, pvc.value.request)];
      }
      i := i + 1;
    }
    r := Ok(pvcs);
  }

  method PvcsNeedingScaling(existing: seq<Existing>, desired: int) returns (pvcs: seq<Existing>)
    requires Ascending(existing)
    ensures Ascending(pvcs)
    ensures forall e :: e in pvcs <==> e in existing && e.request < desired
  {
    pvcs := [];
    for i := 0 to |existing|
      invariant Ascending(pvcs)
      invariant forall e :: e in pvcs <==> e in existing[..i] && e.request < desired
    {
      assert forall e :: e in pvcs ==> e.index < existing[i].index;
      if existing[i].request < desired {
        pvcs := pvcs + [existing[i]];
      }
    }
  }

  /** Ten looks at the StatefulSet, until it is gone. */
  method WaitForDeletion(api: ApiServer) returns (gone: bool)
    requires api.Ready()
    modifies api
    ensures api.Ready() && Quiet(api.exclusive, old(api.log), api.log, old(api.w), api.w) && api.h == old(api.h)
    ensures gone ==> api.w.sts.None?
    ensures old(api.heard) <= api.heard && (!gone ==> old(api.heard)[Looked] + 10 <= api.heard[Looked])
  {
    RelyReflexive(api.exclusive, api.w);
    for attempt := 0 to 10
      invariant api.Ready() && Quiet(api.exclusive, old(api.log), api.log, old(api.w), api.w) && api.h == old(api.h)
      invariant old(api.heard) <= api.heard && old(api.heard)[Looked] + attempt <= api.heard[Looked]
    {
      ghost var w0 := api.w;
      var sts := api.GetSts(Elsewhere);
      RelyTransitive(api.exclusive, old(api.w), w0, api.w);
      if sts.Err? && sts.error.NotFound? {
        return true;
      }
    }
    gone := false;
  }

  lemma OrphaningDeleteSafe(exclusive: bool, log0: seq<Step>, log1: seq<Step>, h: History, w0: World, w1: World)
    requires AllSafe(log0) && Wellformed(w0) && Building(h) && FoundSmall(h)
    requires Quiet(exclusive, log0, log1, w0, w1)
          || (Wrote(exclusive, log0, log1, Op.DeleteSts(None), h, w0, w1)
              && StsDeleted(log1[|log0|].pre, w1))
    ensures AllSafe(log1) && log0 <= log1 && Rely(exclusive, w0, w1)
    ensures log1 != log0 ==> GoneOrGoing(w1)
  {
    if log1 != log0 {
      StsDeletionSafe(log1[|log0|]);
      AllSafeGrows(log0, log1);
      StsDeletionIsMild(exclusive, w0, log1[|log0|].pre, w1);
    }
  }

  /**
   Deletes the StatefulSet, leaving pods and claims, and waits until it is gone. The deletion may
   be accepted and the object still be there when the wait is over; then this fails.
   */
  method DeleteSts(api: ApiServer) returns (r: Result<()>)
    requires CanBuild(api) && FoundSmall(api.h)
    modifies api
    ensures Good(api) && old(api.log) <= api.log && api.h == old(api.h) && Rely(api.exclusive, old(api.w), api.w)
    ensures r.Ok? ==> api.w.sts.None?
    ensures api.log != old(api.log) ==> GoneOrGoing(api.w)
    ensures old(api.heard) <= api.heard
    ensures r.Err? ==>
      || Given(r.error, TheSts, old(api.heard), api.heard)
      || (r.error == Declined(StillThere) && old(api.heard)[Looked] + 10 <= api.heard[Looked] && GoneOrGoing(api.w))
  {
    var sts := api.GetSts(Elsewhere);
    if sts.Err? {
      return if sts.error.NotFound? then Ok(()) else Err(sts.error);
    }
    ghost var w0 := api.w;
    r := api.DeleteSts(None);
    OrphaningDeleteSafe(api.exclusive, old(api.log), api.log, api.h, w0, api.w);
    RelyTransitive(api.exclusive, old(api.w), w0, api.w);
    if r.Err? {
      return;
    }
    ghost var w1 := api.w;
    var gone := WaitForDeletion(api);
    RelyTransitive(api.exclusive, old(api.w), w1, api.w);
    r := if gone then Ok(()) else Err(Declined(StillThere));
  }

  lemma ResizeStepSafe(s: Step, i: int, c: Claim)
    requires Wellformed(s.pre) && Wellformed(s.post) && s.op == Op.PutClaim(i) && ClaimPut(s.pre, i, c, s.post)
    requires Building(s.h) && s.pre.sts.None? && s.pre.claims[i].request < c.request
    requires 0 <= i < s.h.cluster.spec.replicas && c.request == s.h.cluster.spec.storage
    ensures SafeStep(s)
  {
  }

  lemma ResizeSafe(log0: seq<Step>, log1: seq<Step>, h: History, w0: World, w1: World, i: int, c: Claim)
    requires AllSafe(log0) && Wellformed(w0) && w0.sts.None? && Building(h)
    requires Quiet(true, log0, log1, w0, w1)
          || (Wrote(true, log0, log1, Op.PutClaim(i), h, w0, w1) && ClaimPut(log1[|log0|].pre, i, c, w1))
    requires i in w0.claims && w0.claims[i].request < c.request && c.version == w0.claims[i].version
    requires 0 <= i < h.cluster.spec.replicas && c.request == h.cluster.spec.storage
    ensures AllSafe(log1) && log0 <= log1 && Between(true, w0, w1) && w1.sts.None?
    ensures forall k :: k in w1.claims ==>
      k in w0.claims && w1.claims[k].request == if k == i && log1 != log0 then c.request else w0.claims[k].request
  {
    if log1 != log0 {
      var s := log1[|log0|];
      assert s.pre.claims[i].request == w0.claims[i].request;
      ResizeStepSafe(s, i, c);
      AllSafeGrows(log0, log1);
      RelyReflexive(true, s.pre);
      BetweenTransitive(true, w0, s.pre, s.post);
    }
  }

  /** What a call that resizes claims leaves behind, stopped or not. */
  ghost predicate Resizing(w0: World, w1: World, n: int, d: int) {
    Between(true, w0, w1) && Wellformed(w1) && Resized(w0.claims, w1.claims, n, d)
  }

  lemma ResizingTransitive(a: World, b: World, c: World, n: int, d: int)
    requires Wellformed(a) && Resizing(a, b, n, d) && Resizing(b, c, n, d)
    ensures Resizing(a, c, n, d)
  {
    BetweenTransitive(true, a, b, c);
  }

  lemma RelyIsResizing(w0: World, w1: World, n: int, d: int)
    requires Rely(true, w0, w1)
    ensures Resizing(w0, w1, n, d)
  {
  }

  /** Claims of the first `n` pods that were smaller than `d` when read, and are still as they were. */
  ghost predicate Expandable(pvcs: seq<Existing>, claims: map<int, Claim>, n: int, d: int) {
    forall e :: e in pvcs ==>
      && 0 <= e.index < n && e.request < d
      && (e.index in claims ==> claims[e.index].request == e.request)
  }

  /** The server did not let a claim be enlarged. */
  ghost predicate ClaimTrouble(e: ApiError, a0: multiset<Answer>, a1: multiset<Answer>) {
    exists i :: Given(e, TheClaim(i), a0, a1)
  }

  /** One claim: read it again, write the new request. */
  method ScaleUpPVC(api: ApiServer, pvc: Existing, desired: int) returns (r: Result<()>)
    requires CanBuild(api) && api.w.sts.None? && desired == api.h.cluster.spec.storage
    requires 0 <= pvc.index < api.h.cluster.spec.replicas && pvc.request < desired
    requires pvc.index in api.w.claims ==> api.w.claims[pvc.index].request == pvc.request
    modifies api
    ensures Good(api) && old(api.log) <= api.log && api.w.sts.None?
    ensures api.h == old(api.h) || api.h == old(api.h).(claims := old(api.h.claims)[pvc.index := pvc.request])
    ensures Between(true, old(api.w), api.w)
    ensures r.Ok? ==> api.log != old(api.log)
    ensures forall k :: k in api.w.claims ==>
      && k in old(api.w).claims
      && api.w.claims[k].request
        == if k == pvc.index && api.log != old(api.log) then desired else old(api.w).claims[k].request
    ensures Answered(r, TheClaim(pvc.index), old(api.heard), api.heard)
  {
    var got := api.GetClaim(pvc.index);
    if got.Err? {
      return Err(got.error);
    }
    ghost var w1, log1 := api.w, api.log;
    var c := got.value.(request := desired);
    var answer := api.PutClaim(pvc.index, c);
    ResizeSafe(log1, api.log, api.h, w1, api.w, pvc.index, c);
    BetweenTransitive(true, old(api.w), w1, api.w);
    r := if answer.Ok? then Ok(()) else Err(answer.error);
  }

  method ScaleUpPVCs(api: ApiServer, pvcs: seq<Existing>, desired: int) returns (r: Result<()>)
    requires CanBuild(api) && api.w.sts.None?
    requires desired == api.h.cluster.spec.storage && Ascending(pvcs)
    requires Expandable(pvcs, api.w.claims, api.h.cluster.spec.replicas, desired) && AsLastRead(pvcs, api.h)
    modifies api
    ensures Good(api) && old(api.log) <= api.log && ReadClaims(old(api.h), api.h) && api.w.sts.None?
    ensures AsLastRead(pvcs, api.h)
    ensures Resizing(old(api.w), api.w, api.h.cluster.spec.replicas, desired)
    ensures r.Ok? ==> forall e :: e in pvcs && e.index in api.w.claims ==> api.w.claims[e.index].request >= desired
    ensures old(api.heard) <= api.heard
    ensures r.Err? ==> ClaimTrouble(r.error, old(api.heard), api.heard)
  {
    RelyReflexive(true, api.w);
    ghost var n := api.h.cluster.spec.replicas;
    for k := 0 to |pvcs|
      invariant CanBuild(api) && old(api.log) <= api.log && ReadClaims(old(api.h), api.h) && api.w.sts.None?
      invariant old(api.heard) <= api.heard && AsLastRead(pvcs, api.h)
      invariant Resizing(old(api.w), api.w, n, desired)
      invariant forall j :: 0 <= j < |pvcs| && pvcs[j].index in api.w.claims ==>
        api.w.claims[pvcs[j].index].request == if j < k then desired else pvcs[j].request
    {
      ghost var w0, a0 := api.w, api.heard;
      assert pvcs[k] in pvcs;
      r := ScaleUpPVC(api, pvcs[k], desired);
      assert Resizing(w0, api.w, n, desired);
      ResizingTransitive(old(api.w), w0, api.w, n, desired);
      if r.Err? {
        assert Given(r.error, TheClaim(pvcs[k].index), old(api.heard), api.heard);
        return;
      }
    }
    r := Ok(());
  }

  /** The claims an expansion has to resize, by what the store said when it was asked. */
  method ClaimsToExpand(api: ApiServer, replicas: int, desired: int) returns (r: Result<seq<Existing>>)
    requires api.Ready()
    modifies api
    ensures api.Ready() && Quiet(api.exclusive, old(api.log), api.log, old(api.w), api.w)
    ensures ReadClaims(old(api.h), api.h) && (r.Ok? ==> AsLastRead(r.value, api.h))
    ensures old(api.heard) <= api.heard && (r.Err? ==> r.error.Refused? && New(old(api.heard), api.heard, NoAnswer))
    ensures r.Ok? ==> Ascending(r.value)
    ensures r.Ok? && Below(old(api.w).claims, replicas, desired) == {} ==> r.value == []
    ensures r.Ok? ==> Expandable(r.value, api.w.claims, replicas, desired)
    ensures r.Ok? ==>
      forall i :: i in Below(api.w.claims, replicas, desired) ==> Existing(i, api.w.claims[i].request) in r.value
  {
    var pvcs := GetClusterPVCs(api, replicas);
    if pvcs.Err? {
      return Err(pvcs.error);
    }
    var small := PvcsNeedingScaling(pvcs.value, desired);
    if small != [] {
      assert small[0] in small;
      assert small[0].index in Below(old(api.w).claims, replicas, desired);
    }
    r := Ok(small);
  }

  lemma AllExpanded(claims: map<int, Claim>, was: map<int, Claim>, pvcs: seq<Existing>, replicas: int, desired: int)
    requires Resized(was, claims, replicas, desired)
    requires forall i :: i in Below(was, replicas, desired) ==> Existing(i, was[i].request) in pvcs
    requires forall e :: e in pvcs && e.index in claims ==> claims[e.index].request >= desired
    ensures Below(claims, replicas, desired) == {}
  {
    forall i | 0 <= i < replicas && i in claims ensures claims[i].request >= desired {
      if i in Below(was, replicas, desired) {
        var e := Existing(i, was[i].request);
        assert e in pvcs && claims[e.index].request >= desired;
      }
    }
  }

  /** What stops an expansion that has begun: the server, or a StatefulSet that does not go. */
  ghost predicate ExpansionTrouble(e: ApiError, a0: multiset<Answer>, a1: multiset<Answer>) {
    || ClaimTrouble(e, a0, a1) || Given(e, TheSts, a0, a1)
    || (e == Declined(StillThere) && a0[Looked] + 10 <= a1[Looked])
  }

  lemma ClaimTroubleStays(e: ApiError, a: multiset<Answer>, a0: multiset<Answer>, a1: multiset<Answer>)
    requires a <= a0 && ClaimTrouble(e, a0, a1)
    ensures ClaimTrouble(e, a, a1)
  {
    var i :| Given(e, TheClaim(i), a0, a1);
    assert Given(e, TheClaim(i), a, a1);
  }

  lemma ExpansionTroubleStays(e: ApiError, a: multiset<Answer>, a0: multiset<Answer>, a1: multiset<Answer>)
    requires a <= a0 && ExpansionTrouble(e, a0, a1)
    ensures ExpansionTrouble(e, a, a1)
  {
    if ClaimTrouble(e, a0, a1) { ClaimTroubleStays(e, a, a0, a1); }
  }

  /** Deletes the StatefulSet and resizes the claims. */
  method Expand(api: ApiServer, pvcs: seq<Existing>, replicas: int, desired: int) returns (r: Result<()>)
    requires CanBuild(api) && Ascending(pvcs) && pvcs != [] && AsLastRead(pvcs, api.h)
    requires replicas == api.h.cluster.spec.replicas && desired == api.h.cluster.spec.storage
    requires Expandable(pvcs, api.w.claims, replicas, desired)
    requires forall i :: i in Below(api.w.claims, replicas, desired) ==> Existing(i, api.w.claims[i].request) in pvcs
    modifies api
    ensures Good(api) && old(api.log) <= api.log && ReadClaims(old(api.h), api.h)
    ensures Resizing(old(api.w), api.w, replicas, desired) && FoundSmall(api.h)
    ensures r.Ok? ==> Below(api.w.claims, replicas, desired) == {} && api.w.sts.None?
    ensures api.log != old(api.log) ==> GoneOrGoing(api.w)
    ensures old(api.heard) <= api.heard
    ensures r.Err? ==> ExpansionTrouble(r.error, old(api.heard), api.heard)
  {
    assert pvcs[0] in pvcs;
    var deleted := DeleteSts(api);
    RelyIsResizing(old(api.w), api.w, replicas, desired);
    if deleted.Err? {
      return Err(deleted.error);
    }
    ghost var w1, a1 := api.w, api.heard;
    var scaled := ScaleUpPVCs(api, pvcs, desired);
    ResizingTransitive(old(api.w), w1, api.w, replicas, desired);
    if scaled.Err? {
      ClaimTroubleStays(scaled.error, old(api.heard), a1, api.heard);
      return Err(scaled.error);
    }
    AllExpanded(api.w.claims, old(api.w).claims, pvcs, replicas, desired);
    r := Ok(());
  }

  /** A StatefulSet was read whose template asks for more than desired, or for nothing when something is desired. */
  ghost predicate Unshrinkable(e: ApiError, desired: int, a0: multiset<Answer>, a1: multiset<Answer>) {
    && e.Declined? && e.why.CannotShrink? && New(a0, a1, GotSts(e.why.found))
    && var template := e.why.found.storage;
    if template.None? || template.value == 0 then desired != 0 else desired < template.value
  }

  /**
   A smaller request, or one that would turn ephemeral storage persistent, ends the expansion. It
   goes on only past a StatefulSet whose template asks for no more than is desired and, if it asks
   for nothing or is missing, only when nothing is desired.
   */
  method CheckCapacity(api: ApiServer, desired: int) returns (r: Result<()>)
    requires api.Ready()
    modifies api
    ensures api.Ready() && Quiet(api.exclusive, old(api.log), api.log, old(api.w), api.w) && api.h == old(api.h)
    ensures r.Ok? && api.w.sts.Some? ==>
      var template := api.w.sts.value.storage;
      if template.None? || template.value == 0 then desired == 0 else template.value <= desired
    ensures old(api.heard) <= api.heard
    ensures r.Err? ==>
      || (r.error == Refused && New(old(api.heard), api.heard, NoAnswer))
      || Unshrinkable(r.error, desired, old(api.heard), api.heard)
  {
    var existing := ExistingCapacity(api);
    if existing.Err? {
      return if existing.error.NotFound? then Ok(()) else Err(existing.error);
    }
    if existing.value.1 == 0 && desired != 0 {
      return Err(Declined(CannotShrink(existing.value.0)));
    }
    if existing.value.1 > desired {
      return Err(Declined(CannotShrink(existing.value.0)));
    }
    r := Ok(());
  }

  method ExpandIfNeeded(api: ApiServer, replicas: int, desired: int) returns (r: Result<()>)
    requires CanBuild(api)
    requires replicas == api.h.cluster.spec.replicas && desired == api.h.cluster.spec.storage
    modifies api
    ensures Good(api) && old(api.log) <= api.log && ReadClaims(old(api.h), api.h)
    ensures Resizing(old(api.w), api.w, replicas, desired)
    ensures r.Ok? ==> Below(api.w.claims, replicas, desired) == {}
    ensures r.Ok? ==> api.w.sts.None? || Rely(true, old(api.w), api.w)
    ensures api.log != old(api.log) ==> GoneOrGoing(api.w)
    ensures Below(old(api.w).claims, replicas, desired) == {} ==> api.log == old(api.log)
    ensures old(api.heard) <= api.heard
    ensures r.Err? ==>
      || (r.error == Refused && New(old(api.heard), api.heard, NoAnswer))
      || (FoundSmall(api.h) && ExpansionTrouble(r.error, old(api.heard), api.heard))
  {
    var small := ClaimsToExpand(api, replicas, desired);
    RelyIsResizing(old(api.w), api.w, replicas, desired);
    if small.Err? {
      return Err(small.error);
    }
    if |small.value| == 0 {
      return Ok(());
    }
    ghost var w2, a2 := api.w, api.heard;
    r := Expand(api, small.value, replicas, desired);
    ResizingTransitive(old(api.w), w2, api.w, replicas, desired);
    if r.Err? { ExpansionTroubleStays(r.error, old(api.heard), a2, api.heard); }
  }

  /** Why claims are not as large as desired: the desire is one the operator refuses, or the expansion was stopped. */
  ghost predicate ScaleTrouble(e: ApiError, h: History, desired: int, a0: multiset<Answer>, a1: multiset<Answer>) {
    || (e == Refused && New(a0, a1, NoAnswer))
    || Unshrinkable(e, desired, a0, a1)
    || (FoundSmall(h) && ExpansionTrouble(e, a0, a1))
  }

  /**
   `Scale`. It may stop anywhere; wherever it stops, no claim has shrunk, the claims resized had
   the desired size written to them while there was no StatefulSet, and what is left to do has
   not grown. A refused or unneeded expansion writes nothing. It is done only past a StatefulSet
   that asks for no more storage than is desired.
   */
  method Scale(api: ApiServer, replicas: int, desired: int) returns (r: Result<()>)
    requires CanBuild(api)
    requires replicas == api.h.cluster.spec.replicas && desired == api.h.cluster.spec.storage
    modifies api
    ensures Good(api) && old(api.log) <= api.log && ReadClaims(old(api.h), api.h)
    ensures Resizing(old(api.w), api.w, replicas, desired)
    ensures r.Ok? ==> Below(api.w.claims, replicas, desired) == {}
    ensures r.Ok? && api.w.sts.Some? ==>
      var template := api.w.sts.value.storage;
      if template.None? || template.value == 0 then desired == 0 else template.value <= desired
    ensures api.log != old(api.log) ==> GoneOrGoing(api.w)
    ensures Below(old(api.w).claims, replicas, desired) == {} ==> api.log == old(api.log)
    ensures old(api.heard) <= api.heard
    ensures r.Err? ==> ScaleTrouble(r.error, api.h, desired, old(api.heard), api.heard)
    ensures r.Err? && r.error.Declined? && r.error.why.CannotShrink? ==> api.log == old(api.log)
  {
    var checked := CheckCapacity(api, desired);
    RelyIsResizing(old(api.w), api.w, replicas, desired);
    if checked.Err? {
      return Err(checked.error);
    }
    ghost var w1 := api.w;
    BelowNeverGrows(old(api.w).claims, w1.claims, replicas, desired);
    r := ExpandIfNeeded(api, replicas, desired);
    ResizingTransitive(old(api.w), w1, api.w, replicas, desired);
  }
}
