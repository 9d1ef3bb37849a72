/** The parts of a reconcile run that read children and write only the cluster object. */
module Reconciler {
  import Configurations
  import opened Wrappers
  import opened Text
  import opened Timestamps
  import opened Annotations
  import opened Conditions
  import opened ClusterSpec
  import opened Names
  import opened Objects
  import opened Worlds
  import opened Steps
  import opened Api
  import opened Runs

  /** What the operator was started with. */
  datatype OperatorDefaults = OperatorDefaults(image: string, pullSecrets: string, updaterImage: string)

  // ---------- defaults ----------

  ghost function NonEmpty(parts: seq<string>): seq<string> {
    if parts == [] then []
    else if parts[|parts| - 1] == "" then NonEmpty(parts[..|parts| - 1])
    else NonEmpty(parts[..|parts| - 1]) + [parts[|parts| - 1]]
  }

  /** `picked` are the parts at the places `at`, which are those of all parts that are not empty, in order. */
  ghost predicate Picks(parts: seq<string>, at: seq<nat>, picked: seq<string>) {
    && |at| == |picked|
    && (forall k :: 0 <= k < |at| ==> at[k] < |parts| && picked[k] == parts[at[k]] != "")
    && (forall j, k :: 0 <= j < k < |at| ==> at[j] < at[k])
    && (forall i :: 0 <= i < |parts| && parts[i] != "" ==> i in at)
  }

  lemma PicksNext(parts: seq<string>, at: seq<nat>, picked: seq<string>)
    requires parts != [] && Picks(parts[..|parts| - 1], at, picked)
    ensures
      var n := |parts| - 1;
      if parts[n] == "" then Picks(parts, at, picked) else Picks(parts, at + [n], picked + [parts[n]])
  {
    var n := |parts| - 1;
    forall i | 0 <= i < n && parts[i] != "" ensures i in at { assert parts[..n][i] == parts[i]; }
    forall k | 0 <= k < |at| ensures at[k] < n && picked[k] == parts[at[k]] {
      assert parts[..n][at[k]] == parts[at[k]];
    }
  }

  /** Nothing but empty parts is left out, and the order stays. */
  lemma {:induction false} NonEmptyPicks(parts: seq<string>) returns (at: seq<nat>)
    ensures Picks(parts, at, NonEmpty(parts))
  {
    at := [];
    if parts != [] {
      var n := |parts| - 1;
      at := NonEmptyPicks(parts[..n]);
      PicksNext(parts, at, NonEmpty(parts[..n]));
      at := if parts[n] == "" then at else at + [n];
    }
  }

  /** The comma separated list without its empty parts; a nil slice stays nil when nothing is appended. */
  method DefaultPullSecrets(d: OperatorDefaults) returns (r: Option<seq<string>>)
    ensures r == DefaultSecrets(d)
  {
    var parts := Split(d.pullSecrets, ',');
    r := None;
    for i := 0 to |parts|
      invariant r == if NonEmpty(parts[..i]) == [] then None else Some(NonEmpty(parts[..i]))
    {
      assert parts[..i + 1][..i] == parts[..i] && parts[..i + 1][i] == parts[i];
      if |parts[i]| > 0 {
        r := Some((if r.Some? then r.value else []) + [parts[i]]);
      }
    }
    assert parts[..|parts|] == parts;
  }

  ghost function DefaultSecrets(d: OperatorDefaults): Option<seq<string>> {
    var parts := NonEmpty(Split(d.pullSecrets, ','));
    if parts == [] then None else Some(parts)
  }

  /** The specification with the operator's defaults in the places its author left empty. */
  ghost function WithDefaults(spec: Spec, d: OperatorDefaults): Spec {
    spec.(image := if spec.image == "" then d.image else spec.image,
          pullSecrets := if spec.pullSecrets.None? then DefaultSecrets(d) else spec.pullSecrets,
          vault := if spec.UsesDefaultUserUpdaterImage()
                   then Some(spec.vault.value.(updaterImage := Some(d.updaterImage))) else spec.vault)
  }

  /** Defaulting settles in one pass and changes nothing the children are built from. */
  lemma DefaultsSettle(spec: Spec, d: OperatorDefaults)
    ensures WithDefaults(WithDefaults(spec, d), d) == WithDefaults(spec, d)
    ensures Defaulted(spec, WithDefaults(spec, d)) == WithDefaults(spec, d)
    ensures
      var filled := WithDefaults(spec, d);
      && SwitchesOf(filled) == SwitchesOf(spec) && (TLSGate(filled) <==> TLSGate(spec))
      && filled.PodAnnotations() == spec.PodAnnotations()
  {
  }

  /** The object is as it was, but for what the server numbers. */
  ghost predicate Numbered(c0: Cluster, c1: Cluster) {
    c1 == c0.(version := c1.version, generation := c1.generation)
  }

  /** The specification of the object has been worked on, and the server has numbered it. */
  ghost predicate Specified(c0: Cluster, c1: Cluster) {
    c1 == c0.(version := c1.version, generation := c1.generation, spec := c1.spec)
  }

  /** A conflict ends only the attempt, not the run: it leaves the run with a version that is stale for good. */
  method UpdateRabbitmqCluster(api: ApiServer, rmq: RabbitmqCluster, ghost was: Cluster) returns (r: Result<()>)
    requires Good(api) && api.exclusive && Tracks(was, api.w) && Heeds(api.h, rmq.version, api.w)
    requires Carries(rmq.Snapshot(), api.h.cluster)
    requires rmq.Snapshot() == was.(spec := rmq.spec) && OnlyFilled(was.spec, rmq.spec)
    modifies api, rmq, rmq.status
    ensures Good(api) && old(api.log) <= api.log && Met(old(api.h), api.h) && Rely(true, old(api.w), api.w)
    ensures r.Ok? ==> InRun(api, rmq) && Numbered(old(rmq.Snapshot()), rmq.Snapshot())
    ensures Answered(r, TheCluster, old(api.heard), api.heard) && (r.Err? ==> !r.error.Conflict?)
    ensures r.Ok? && Stale(old(rmq.version), old(api.w)) ==> api.log == old(api.log) && Stale(rmq.version, api.w)
  {
    var put := UpdateCluster(api, rmq, was);
    if put.Err? && !put.error.Conflict? {
      return Err(put.error);
    }
    r := Ok(());
  }

  method FillImage(api: ApiServer, rmq: RabbitmqCluster, d: OperatorDefaults) returns (r: Result<()>)
    requires InRun(api, rmq)
    modifies api, rmq, rmq.status
    ensures Good(api) && old(api.log) <= api.log && Met(old(api.h), api.h) && Rely(true, old(api.w), api.w)
    ensures Answered(r, TheCluster, old(api.heard), api.heard) && (r.Err? ==> !r.error.Conflict?)
    ensures r.Ok? ==> InRun(api, rmq) && Specified(old(rmq.Snapshot()), rmq.Snapshot())
    ensures r.Ok? ==>
      rmq.spec == old(rmq.spec).(image := if old(rmq.spec).image == "" then d.image else old(rmq.spec).image)
  {
    RelyReflexive(true, api.w);
    r := Ok(());
    if rmq.spec.image == "" {
      ghost var was := rmq.Snapshot();
      rmq.spec := rmq.spec.(image := d.image);
      r := UpdateRabbitmqCluster(api, rmq, was);
    }
  }

  method FillPullSecrets(api: ApiServer, rmq: RabbitmqCluster, d: OperatorDefaults) returns (r: Result<()>)
    requires InRun(api, rmq)
    modifies api, rmq, rmq.status
    ensures Good(api) && old(api.log) <= api.log && Met(old(api.h), api.h) && Rely(true, old(api.w), api.w)
    ensures Answered(r, TheCluster, old(api.heard), api.heard) && (r.Err? ==> !r.error.Conflict?)
    ensures r.Ok? ==> InRun(api, rmq) && Specified(old(rmq.Snapshot()), rmq.Snapshot())
    ensures r.Ok? ==> rmq.spec == old(rmq.spec).(pullSecrets :=
      if old(rmq.spec).pullSecrets.None? then DefaultSecrets(d) else old(rmq.spec).pullSecrets)
  {
    RelyReflexive(true, api.w);
    r := Ok(());
    if rmq.spec.pullSecrets.None? {
      ghost var was := rmq.Snapshot();
      var secrets := DefaultPullSecrets(d);
      rmq.spec := rmq.spec.(pullSecrets := secrets);
      r := UpdateRabbitmqCluster(api, rmq, was);
    }
  }

  method FillUpdaterImage(api: ApiServer, rmq: RabbitmqCluster, d: OperatorDefaults) returns (r: Result<()>)
    requires InRun(api, rmq)
    modifies api, rmq, rmq.status
    ensures Good(api) && old(api.log) <= api.log && Met(old(api.h), api.h) && Rely(true, old(api.w), api.w)
    ensures Answered(r, TheCluster, old(api.heard), api.heard) && (r.Err? ==> !r.error.Conflict?)
    ensures r.Ok? ==> InRun(api, rmq) && Specified(old(rmq.Snapshot()), rmq.Snapshot())
    ensures r.Ok? ==> rmq.spec == old(rmq.spec).(vault :=
      if old(rmq.spec).UsesDefaultUserUpdaterImage()
      then Some(old(rmq.spec).vault.value.(updaterImage := Some(d.updaterImage))) else old(rmq.spec).vault)
  {
    RelyReflexive(true, api.w);
    r := Ok(());
    if rmq.spec.UsesDefaultUserUpdaterImage() {
      ghost var was := rmq.Snapshot();
      rmq.spec := rmq.spec.(vault := Some(rmq.spec.vault.value.(updaterImage := Some(d.updaterImage))));
      r := UpdateRabbitmqCluster(api, rmq, was);
    }
  }

  method FillImageAndSecrets(api: ApiServer, rmq: RabbitmqCluster, d: OperatorDefaults) returns (r: Result<()>)
    requires InRun(api, rmq)
    modifies api, rmq, rmq.status
    ensures Good(api) && old(api.log) <= api.log && Met(old(api.h), api.h) && Rely(true, old(api.w), api.w)
    ensures Answered(r, TheCluster, old(api.heard), api.heard) && (r.Err? ==> !r.error.Conflict?)
    ensures r.Ok? ==> InRun(api, rmq) && Specified(old(rmq.Snapshot()), rmq.Snapshot())
    ensures r.Ok? ==> rmq.spec == WithDefaults(old(rmq.spec), d).(vault := old(rmq.spec).vault)
  {
    r := FillImage(api, rmq, d);
    if r.Ok? {
      ghost var w1 := api.w;
      r := FillPullSecrets(api, rmq, d);
      RelyTransitive(true, old(api.w), w1, api.w);
    }
  }

  method ReconcileOperatorDefaults(api: ApiServer, rmq: RabbitmqCluster, d: OperatorDefaults) returns (r: Result<()>)
    requires InRun(api, rmq)
    modifies api, rmq, rmq.status
    ensures Good(api) && old(api.log) <= api.log && Met(old(api.h), api.h) && Rely(true, old(api.w), api.w)
    ensures Answered(r, TheCluster, old(api.heard), api.heard) && (r.Err? ==> !r.error.Conflict?)
    ensures r.Ok? ==> InRun(api, rmq) && Specified(old(rmq.Snapshot()), rmq.Snapshot())
    ensures r.Ok? ==> rmq.spec == WithDefaults(old(rmq.spec), d)
    ensures r.Ok? ==> rmq.spec.image == if old(rmq.spec).image == "" then d.image else old(rmq.spec).image
    ensures r.Ok? ==>
      rmq.spec.pullSecrets == if old(rmq.spec).pullSecrets == None then DefaultSecrets(d) else old(rmq.spec).pullSecrets
    ensures r.Ok? && rmq.spec.vault.Some? ==>
      && old(rmq.spec).vault.Some?
      && rmq.spec.vault.value.updaterImage
        == if old(rmq.spec).vault.value.updaterImage == None then Some(d.updaterImage)
           else old(rmq.spec).vault.value.updaterImage
  {
    r := FillImageAndSecrets(api, rmq, d);
    if r.Ok? {
      ghost var w1 := api.w;
      r := FillUpdaterImage(api, rmq, d);
      RelyTransitive(true, old(api.w), w1, api.w);
    }
  }

  // ---------- finalizer ----------

  method AddFinalizerIfNeeded(api: ApiServer, rmq: RabbitmqCluster) returns (r: Result<()>)
    requires InRun(api, rmq)
    modifies api, rmq, rmq.status
    ensures Good(api) && old(api.log) <= api.log && Met(old(api.h), api.h) && Rely(true, old(api.w), api.w)
    ensures Answered(r, TheCluster, old(api.heard), api.heard)
    ensures r.Ok? ==>
      && InRun(api, rmq)
      && rmq.Snapshot() == old(rmq.Snapshot()).(version := rmq.version, generation := rmq.generation,
                                                finalizer := old(rmq.finalizer) || !old(rmq.deleting))
  {
    RelyReflexive(true, api.w);
    r := Ok(());
    if !rmq.deleting && !rmq.finalizer {
      ghost var was := rmq.Snapshot();
      rmq.finalizer := true;
      r := UpdateCluster(api, rmq, was);
    }
  }

  // ---------- status ----------

  function View(s: StatefulSet): StatefulSetView {
    StatefulSetView(Some(s.replicas), s.ready, s.memoryLimit, s.memoryRequest)
  }

  /** The children as the status sees them, the StatefulSet read at one moment and the endpoints at another. */
  ghost function Children(first: World, second: World): seq<Resource> {
    [StatefulSetResource(if first.sts.Some? then Some(View(first.sts.value)) else None),
     EndpointsResource(second.endpoints)]
  }

  method GetChildResources(api: ApiServer) returns (r: Result<seq<Resource>>, ghost first: World)
    requires Good(api)
    modifies api
    ensures Good(api) && Quiet(api.exclusive, old(api.log), api.log, old(api.w), api.w) && api.h == old(api.h)
    ensures Rely(api.exclusive, old(api.w), first) && Rely(api.exclusive, first, api.w)
    ensures r.Ok? ==> r.value == Children(first, api.w)
    ensures old(api.heard) <= api.heard && (r.Err? ==> r.error == Refused && New(old(api.heard), api.heard, NoAnswer))
  {
    var sts := api.GetSts(Elsewhere);
    first := api.w;
    RelyReflexive(api.exclusive, first);
    if sts.Err? && !sts.error.NotFound? {
      return Err(sts.error), first;
    }
    var endpoints := api.GetEndpoints();
    RelyTransitive(api.exclusive, old(api.w), first, api.w);
    if endpoints.Err? && !endpoints.error.NotFound? {
      return Err(endpoints.error), first;
    }
    r := Ok([StatefulSetResource(if sts.Ok? then Some(View(sts.value)) else None),
             EndpointsResource(if endpoints.Ok? then Some(endpoints.value) else None)]);
  }

  /** The clock readings of an evaluation that takes less than a second. */
  function ReadingsAt(w: World): Readings
    requires Wellformed(w)
  {
    Readings(Instant(w.clock), Instant(w.clock), Instant(w.clock), Instant(w.clock))
  }

  /**
   What the first three conditions say of the StatefulSet and the endpoints as read: all replicas
   ready, an address available, memory limit and request the same, one that is not set counting as
   zero; unknown where there was nothing to read.
   */
  ghost predicate Tell(cs: seq<Condition>, sts: Option<StatefulSet>, endpoints: Option<seq<nat>>) {
    && FourInOrder(cs)
    && cs[0].status == (
      if sts == None then Unknown else if sts.value.ready == sts.value.replicas then True else False)
    && cs[1].status == (
      if endpoints == None then Unknown else if exists n :: n in endpoints.value && n > 0 then True else False)
    && cs[2].status == (
      if sts == None then Unknown
      else if || sts.value.memoryLimit == sts.value.memoryRequest
              || (sts.value.memoryLimit == None && sts.value.memoryRequest == Some(0))
              || (sts.value.memoryLimit == Some(0) && sts.value.memoryRequest == None) then True
      else False)
  }

  lemma EvaluationTells(cs: seq<Condition>, first: World, second: World, now: Readings)
    ensures Tell(Evaluated(cs, Children(first, second), now), first.sts, second.endpoints)
  {
    var sts := if first.sts.Some? then Some(View(first.sts.value)) else None;
    EvaluationIsStable(cs, Children(first, second), now, now);
    VerdictsMean(sts, second.endpoints);
  }

  /**
   `updateStatusConditions`. The result is the number of seconds after which to try again. The
   status is written only if the evaluation changed it, so evaluating children that are as they
   were evaluated last time writes nothing.
   */
  method UpdateStatusConditions(api: ApiServer, rmq: RabbitmqCluster)
    returns (r: Result<nat>, ghost first: World, ghost second: World)
    requires InRun(api, rmq)
    modifies api, rmq, rmq.status
    ensures Good(api) && old(api.log) <= api.log && Met(old(api.h), api.h)
    ensures Rely(true, old(api.w), first) && Rely(true, first, second) && Rely(true, second, api.w)
    ensures r == Ok(0) ==> InRun(api, rmq) && FourInOrder(rmq.status.conditions)
    ensures r == Ok(0) ==>
      rmq.Snapshot() == old(rmq.Snapshot()).(version := rmq.version, conditions := rmq.status.conditions)
    ensures r == Ok(0) ==>
      rmq.status.conditions == Evaluated(old(rmq.status.conditions), Children(first, second), ReadingsAt(second))
    ensures r == Ok(0) ==> Tell(rmq.status.conditions, first.sts, second.endpoints)
    ensures old(api.heard) <= api.heard
    ensures r.Err? ==> Given(r.error, TheCluster, old(api.heard), api.heard)
    ensures r.Ok? && r.value > 0 ==>
      r.value == 2 && New(old(api.heard), api.heard, Clash(TheCluster)) && api.h.shown == Some(rmq.status.conditions)
    ensures
      var before := old(rmq.status.conditions);
      Evaluated(before, Children(first, second), ReadingsAt(second)) == before ==> api.log == old(api.log)
  {
    var resources, f := GetChildResources(api);
    first, second := f, api.w;
    if resources.Err? {
      RelyReflexive(true, second);
      return Err(resources.error), first, second;
    }
    InRunStays(true, api.h, rmq.Snapshot(), old(api.w), second);
    ghost var a1 := api.heard;
    r := SetConditions(api, rmq, resources.value);
    EvaluationTells(old(rmq.status.conditions), first, second, ReadingsAt(second));
  }

  lemma StatusChanged(was: Cluster, c: Cluster, w: World)
    requires Tracks(was, w) && c == was.(conditions := c.conditions)
    ensures TracksButStatus(c, w) && TracksStatus(c, w)
  {
  }

  /** The evaluation, and the write if it changed anything. A conflict asks for another run in two seconds. */
  method SetConditions(api: ApiServer, rmq: RabbitmqCluster, resources: seq<Resource>) returns (r: Result<nat>)
    requires InRun(api, rmq)
    modifies api, rmq, rmq.status
    ensures Good(api) && old(api.log) <= api.log && Met(old(api.h), api.h) && Rely(true, old(api.w), api.w)
    ensures rmq.status.conditions == Evaluated(old(rmq.status.conditions), resources, ReadingsAt(old(api.w)))
    ensures r == Ok(0) ==> InRun(api, rmq) && FourInOrder(rmq.status.conditions)
    ensures r == Ok(0) ==>
      rmq.Snapshot() == old(rmq.Snapshot()).(version := rmq.version, conditions := rmq.status.conditions)
    ensures rmq.status.conditions == old(rmq.status.conditions) ==> api.log == old(api.log)
    ensures old(api.heard) <= api.heard && (r.Err? ==> Given(r.error, TheCluster, old(api.heard), api.heard))
    ensures r.Ok? && r.value > 0 ==>
      r.value == 2 && New(old(api.heard), api.heard, Clash(TheCluster)) && api.h.shown == Some(rmq.status.conditions)
  {
    RelyReflexive(true, api.w);
    ghost var was := rmq.Snapshot();
    var before := rmq.status.conditions;
    var now := ReadingsAt(api.w);
    EvaluationIsStable(before, resources, now, now);
    rmq.status.SetConditions(resources, now);
    r := Ok(0);
    if rmq.status.conditions != before {
      StatusChanged(was, rmq.Snapshot(), api.w);
      r := WriteConditions(api, rmq);
    }
  }

  method WriteConditions(api: ApiServer, rmq: RabbitmqCluster) returns (r: Result<nat>)
    requires CanReport(api, rmq) && api.exclusive
    requires TracksButStatus(rmq.Snapshot(), api.w) && Carries(rmq.Snapshot(), api.h.cluster)
    modifies api, rmq, rmq.status
    ensures Good(api) && old(api.log) <= api.log && Met(old(api.h), api.h) && Rely(true, old(api.w), api.w)
    ensures rmq.status.conditions == old(rmq.status.conditions)
    ensures r == Ok(0) ==> InRun(api, rmq) && rmq.Snapshot() == old(rmq.Snapshot()).(version := rmq.version)
    ensures old(api.heard) <= api.heard && (r.Err? ==> Given(r.error, TheCluster, old(api.heard), api.heard))
    ensures r.Ok? && r.value > 0 ==>
      r.value == 2 && New(old(api.heard), api.heard, Clash(TheCluster)) && api.h.shown == Some(rmq.status.conditions)
  {
    var put := UpdateStatus(api, rmq);
    r := if put.Ok? then Ok(0) else if put.error.Conflict? then Ok(2) else Err(put.error);
  }

  /**
   `reconcileStatus`: default user and binding show what the specification makes of them, and a
   status that does already is not written.
   */
  method ReconcileStatus(api: ApiServer, rmq: RabbitmqCluster) returns (r: Result<()>)
    requires InRun(api, rmq)
    modifies api, rmq, rmq.status
    ensures Good(api) && old(api.log) <= api.log && Met(old(api.h), api.h) && Rely(true, old(api.w), api.w)
    ensures r.Ok? ==> InRun(api, rmq)
    ensures r.Ok? ==>
      rmq.Snapshot() == old(rmq.Snapshot()).(version := rmq.version, defaultUser := rmq.status.defaultUser,
                                             binding := rmq.status.binding)
    ensures Answered(r, TheCluster, old(api.heard), api.heard)
    ensures r.Ok? ==>
      var shown := References(old(rmq.name), rmq.spec);
      rmq.status.defaultUser == Some(shown) && rmq.status.binding == shown.secret
    ensures
      var shown := References(old(rmq.name), old(rmq.spec));
      old(rmq.status.defaultUser) == Some(shown) && old(rmq.status.binding) == shown.secret ==> api.log == old(api.log)
  {
    RelyReflexive(true, api.w);
    var user := References(rmq.name, rmq.spec);
    var binding := user.secret;
    r := Ok(());
    if rmq.status.defaultUser != Some(user) || rmq.status.binding != binding {
      rmq.status.defaultUser := Some(user);
      rmq.status.binding := binding;
      r := UpdateStatus(api, rmq);
    }
  }

  /** The Service is called like the cluster; the Secret exists unless Vault keeps the default user. */
  lemma ReferencesMean(cluster: string, spec: Spec)
    ensures References(cluster, spec) == DefaultUser(cluster,
      if spec.vault.Some? && spec.vault.value.defaultUserPath != "" then None else Some(cluster + "-default-user"))
  {
    ClaimNameFollowsStatefulSet(cluster, 0);
    assert Join(["default-user"], "-") == "default-user";
    assert [cluster, "default-user"][1..] == ["default-user"];
    var secret := Join([cluster, "default-user"], "-");
    assert secret == cluster + "-" + "default-user" == cluster + "-default-user";
    assert secret[|secret| - 1] == 'r';
  }

  // ---------- TLS ----------

  /** A secret the specification names could not be read, or was read and lacks a key. */
  ghost predicate TLSTrouble(e: ApiError, spec: Spec, a0: multiset<Answer>, a1: multiset<Answer>) {
    || Given(e, TheSecret(spec.tls.secretName), a0, a1)
    || Given(e, TheSecret(spec.tls.caSecretName), a0, a1)
    || (e.Declined? && e.why.IncompleteSecret? && New(a0, a1, GotSecret(e.why.name, e.why.keys))
        && ((e.why.name == spec.tls.secretName && !({"tls.crt", "tls.key"} <= e.why.keys))
            || (e.why.name == spec.tls.caSecretName && spec.MutualTLSEnabled() && "ca.crt" !in e.why.keys)))
  }

  /** The secrets a specification names hold what RabbitMQ needs; the two are read one after the other. */
  ghost predicate SecretsComplete(spec: Spec, first: map<string, set<string>>, second: map<string, set<string>>) {
    && spec.tls.secretName in first && {"tls.crt", "tls.key"} <= first[spec.tls.secretName]
    && (spec.MutualTLSEnabled() ==>
        if spec.SingleTLSSecret() then "ca.crt" in first[spec.tls.secretName]
        else spec.tls.caSecretName in second && "ca.crt" in second[spec.tls.caSecretName])
  }

  method CheckTLSSecrets(api: ApiServer, spec: Spec) returns (r: Result<()>, ghost first: World)
    requires Good(api)
    modifies api
    ensures Good(api) && Quiet(api.exclusive, old(api.log), api.log, old(api.w), api.w) && api.h == old(api.h)
    ensures Rely(api.exclusive, old(api.w), first) && Rely(api.exclusive, first, api.w)
    ensures r.Ok? ==> SecretsComplete(spec, first.secrets, api.w.secrets)
    ensures old(api.heard) <= api.heard
    ensures r.Err? ==> TLSTrouble(r.error, spec, old(api.heard), api.heard)
  {
    var secret := api.GetSecret(spec.tls.secretName);
    first := api.w;
    RelyReflexive(api.exclusive, first);
    if secret.Err? {
      return Err(secret.error), first;
    }
    if "tls.crt" !in secret.value || "tls.key" !in secret.value {
      return Err(Declined(IncompleteSecret(spec.tls.secretName, secret.value))), first;
    }
    if spec.MutualTLSEnabled() {
      if !spec.SingleTLSSecret() {
        secret := api.GetSecret(spec.tls.caSecretName);
        RelyTransitive(api.exclusive, old(api.w), first, api.w);
        if secret.Err? {
          return Err(secret.error), first;
        }
      }
      if "ca.crt" !in secret.value {
        return Err(Declined(IncompleteSecret(spec.tls.caSecretName, secret.value))), first;
      }
    }
    r := Ok(());
  }

  /** The secrets are checked, and a failure shown in the status. */
  method CheckSecretsAndReport(api: ApiServer, rmq: RabbitmqCluster) returns (r: Result<()>, ghost first: World)
    requires InRun(api, rmq)
    modifies api, rmq, rmq.status
    ensures Good(api) && old(api.log) <= api.log && Met(old(api.h), api.h) && old(api.heard) <= api.heard
    ensures r.Ok? ==> InRun(api, rmq) && rmq.Snapshot() == old(rmq.Snapshot())
    ensures r.Ok? ==> Rely(true, old(api.w), first) && Rely(true, first, api.w)
    ensures r.Ok? ==> SecretsComplete(rmq.spec, first.secrets, api.w.secrets)
    ensures r.Err? ==> TLSTrouble(r.error, old(rmq.spec), old(api.heard), api.heard)
    ensures r.Err? ==> Told(api.h, old(rmq.status.conditions), rmq.status.conditions, "TLSError")
  {
    r, first := CheckTLSSecrets(api, rmq.spec);
    if r.Err? {
      TellFailure(api, rmq, "TLSError", "TLS secret missing or incomplete");
    }
  }

  /**
   `reconcileTLS`: the run goes on only with TLS settings that pass the gate the port tables rest on
   and, with a TLS secret, only if the secrets read hold the keys that are needed.
   */
  method ReconcileTLS(api: ApiServer, rmq: RabbitmqCluster) returns (r: Result<()>, ghost first: World)
    requires InRun(api, rmq)
    modifies api, rmq, rmq.status
    ensures Good(api) && old(api.log) <= api.log && Met(old(api.h), api.h) && old(api.heard) <= api.heard
    ensures r.Ok? ==> InRun(api, rmq) && rmq.Snapshot() == old(rmq.Snapshot()) && TLSGate(rmq.spec)
    ensures r == Err(Declined(NonTLSDisabled)) <==> !TLSGate(old(rmq.spec))
    ensures r.Err? && TLSGate(old(rmq.spec)) ==> TLSTrouble(r.error, old(rmq.spec), old(api.heard), api.heard)
    ensures r.Err? ==> Told(api.h, old(rmq.status.conditions), rmq.status.conditions, "TLSError")
    ensures r.Ok? ==> Rely(true, old(api.w), first) && Rely(true, first, api.w)
    ensures r.Ok? && rmq.spec.tls.secretName != "" ==>
      && rmq.spec.tls.secretName in first.secrets
      && "tls.crt" in first.secrets[rmq.spec.tls.secretName] && "tls.key" in first.secrets[rmq.spec.tls.secretName]
      && (rmq.spec.tls.caSecretName != "" && rmq.spec.tls.caSecretName != rmq.spec.tls.secretName ==>
          rmq.spec.tls.caSecretName in api.w.secrets && "ca.crt" in api.w.secrets[rmq.spec.tls.caSecretName])
      && (rmq.spec.tls.caSecretName == rmq.spec.tls.secretName ==>
          "ca.crt" in first.secrets[rmq.spec.tls.secretName])
  {
    first := api.w;
    r := Ok(());
    if rmq.spec.DisableNonTLSListeners() && !rmq.spec.TLSEnabled() {
      TellFailure(api, rmq, "TLSError", "TLS must be enabled if disableNonTLSListeners is set to true");
      return Err(Declined(NonTLSDisabled)), first;
    }
    if rmq.spec.SecretTLSEnabled() {
      r, first := CheckSecretsAndReport(api, rmq);
    } else {
      RelyReflexive(true, api.w);
    }
  }

  // ---------- queue rebalance ----------

  /** An existing marker is kept; otherwise one is set. Either way it is there afterwards. */
  method MarkForQueueRebalance(api: ApiServer, rmq: RabbitmqCluster) returns (r: Result<()>)
    requires InRun(api, rmq)
    modifies api, rmq, rmq.status
    ensures Good(api) && old(api.log) <= api.log && Met(old(api.h), api.h) && Rely(true, old(api.w), api.w)
    ensures r.Ok? ==> InRun(api, rmq) && Marked(rmq.annotations, QUEUE_REBALANCE_NEEDED_AT)
    ensures r.Ok? ==>
      rmq.Snapshot() == old(rmq.Snapshot()).(version := rmq.version, generation := rmq.generation,
                                             annotations := rmq.annotations)
    ensures Marked(old(rmq.annotations), QUEUE_REBALANCE_NEEDED_AT) ==> api.log == old(api.log) && r.Ok?
    ensures Answered(r, TheCluster, old(api.heard), api.heard)
  {
    RelyReflexive(true, api.w);
    if Marked(rmq.annotations, QUEUE_REBALANCE_NEEDED_AT) {
      return Ok(());
    }
    ghost var was := rmq.Snapshot();
    Configurations.StampNotEmpty(api.w.clock);
    rmq.annotations := rmq.annotations[QUEUE_REBALANCE_NEEDED_AT := api.Now()];
    r := UpdateCluster(api, rmq, was);
  }

  /** The run's history with another read at the rebalance check. */
  ghost predicate Checked(h0: History, h1: History) {
    && RebalanceCheck in h1.seen
    && Met(h0.(seen := h0.seen[RebalanceCheck := h1.seen[RebalanceCheck]]), h1)
  }

  /** The cluster is marked exactly when the StatefulSet, as read, is in the middle of an update that matters. */
  method MarkIfBeingUpdated(api: ApiServer, rmq: RabbitmqCluster) returns (r: Result<()>)
    requires InRun(api, rmq)
    modifies api, rmq, rmq.status
    ensures Good(api) && old(api.log) <= api.log && Checked(old(api.h), api.h)
    ensures r.Ok? ==> InRun(api, rmq) && RebalanceKept(api.h, rmq.annotations)
    ensures r.Ok? ==>
      rmq.Snapshot() == old(rmq.Snapshot()).(version := rmq.version, generation := rmq.generation,
                                             annotations := rmq.annotations)
    ensures r.Ok? ==>
      if UpdateFound(api.h.seen[RebalanceCheck], rmq.spec)
      then Marked(rmq.annotations, QUEUE_REBALANCE_NEEDED_AT)
      else rmq.annotations == old(rmq.annotations)
    ensures Answered(r, TheCluster, old(api.heard), api.heard)
  {
    var sts := api.GetSts(RebalanceCheck);
    InRunStays(true, api.h, rmq.Snapshot(), old(api.w), api.w);
    if sts.Err? && !sts.error.NotFound? {
      return Err(sts.error);
    }
    r := Ok(());
    if sts.Ok? && NeedsQueueRebalance(sts.value, rmq.spec) {
      r := MarkForQueueRebalance(api, rmq);
    }
  }

  // ---------- scale down ----------

  function ScaleDownMessage(there: int, wanted: int): string {
    "Cluster Scale down not supported; tried to scale cluster from " + Itoa(there) + " nodes to " + Itoa(wanted)
    + " nodes"
  }

  /** `scaleDown`: refuses, and says so in the status, exactly when fewer replicas are wanted than there are. */
  method ScaleDown(api: ApiServer, rmq: RabbitmqCluster, current: StatefulSet, sts: StatefulSet) returns (refused: bool)
    requires InRun(api, rmq)
    modifies api, rmq, rmq.status
    ensures Good(api) && old(api.log) <= api.log && Met(old(api.h), api.h) && old(api.heard) <= api.heard
    ensures refused ==> Told(api.h, old(rmq.status.conditions), rmq.status.conditions, "UnsupportedOperation")
    ensures refused <==> sts.replicas < current.replicas
    ensures refused ==>
      rmq.status.conditions == Assigned(old(rmq.status.conditions), ReconcileSuccess, False, "UnsupportedOperation",
        "Cluster Scale down not supported; tried to scale cluster from " + Itoa(current.replicas) + " nodes to "
        + Itoa(sts.replicas) + " nodes", Instant(old(api.w.clock)))
    ensures !refused ==>
      api.w == old(api.w) && api.h == old(api.h) && api.log == old(api.log) && rmq.Snapshot() == old(rmq.Snapshot())
  {
    if current.replicas > sts.replicas {
      SetReconcileSuccess(api, rmq, False, "UnsupportedOperation",
        ScaleDownMessage(current.replicas, sts.replicas));
      return true;
    }
    refused := false;
  }
}
