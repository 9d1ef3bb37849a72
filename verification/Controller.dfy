/** A whole reconcile run, and runs without end. */
module Controller {
  import opened Wrappers
  import opened Text
  import Timestamps
  import opened Annotations
  import opened Conditions
  import opened Builders
  import opened ClusterSpec
  import opened Objects
  import opened Worlds
  import opened Steps
  import opened Api
  import opened Runs
  import opened Scaling
  import opened Configurations
  import opened StatefulSets
  import opened Cli
  import opened Finalizer
  import opened Reconciler
  import Traces

  /** How a run ends; an error makes the queue try again. */
  datatype RunResult = Finished | RequeueAfter(seconds: nat) | Failed(error: ApiError)

  /** The run found a StatefulSet with more replicas than the specification wants. */
  ghost predicate ScaleDownWanted(h: History) {
    ScaleDownCheck in h.seen && h.seen[ScaleDownCheck].Some?
    && h.cluster.spec.replicas < h.seen[ScaleDownCheck].value.replicas
  }

  /** It refused to scale down, and its status says so. */
  ghost predicate ScaleDownRefused(h: History, before: seq<Condition>, now: seq<Condition>) {
    ScaleDownWanted(h) && Told(h, before, now, "UnsupportedOperation")
  }

  /** The run went on past reads, builders and status writes; what it had checked and executed stands. */
  ghost predicate Onward(h0: History, h1: History) {
    && h1.cluster == h0.cluster && h1.ran == h0.ran && h0.built <= h1.built
    && (RebalanceCheck in h0.seen ==> RebalanceCheck in h1.seen && h1.seen[RebalanceCheck] == h0.seen[RebalanceCheck])
  }

  /** What the stages before the builders have seen to. */
  ghost predicate Prepared(api: ApiServer, rmq: RabbitmqCluster)
    reads api, rmq, rmq.status
  {
    && InRun(api, rmq) && Building(api.h)
    && rmq.finalizer && FourInOrder(rmq.status.conditions) && RebalanceKept(api.h, rmq.annotations)
  }

  // ---------- why a run stops ----------

  /** A run found nothing where it looked for this, though it would have been there had others not acted. */
  ghost predicate MayMiss(thing: Thing, h: History, a0: multiset<Answer>, a1: multiset<Answer>) {
    match thing
    case TheCluster => true
    case TheSts => StatefulSetBuilder in h.built || FoundSmall(h) || SawSts(a0, a1)
    case TheClaim(_) => FoundSmall(h)
    case TheSecret(name) => name == h.cluster.spec.tls.secretName || name == h.cluster.spec.tls.caSecretName
    case _ => false
  }

  /** A decision of the operator not to go on, with the object it was given between the two moments. */
  ghost predicate Excused(why: Reason, h: History, a0: multiset<Answer>, a1: multiset<Answer>) {
    match why
    case SomebodyElses(s) => New(a0, a1, GotSts(s)) && s.owner.Some? && s.owner.value != h.cluster.uid
    case Vanished(s) => New(a0, a1, GotSts(s)) && New(a0, a1, Absent(TheSts))
    case StillThere => FoundSmall(h) && a0[Looked] + 10 <= a1[Looked]
    case CannotShrink(_) => Unshrinkable(Declined(why), h.cluster.spec.storage, a0, a1)
    case UnreadableMarker(_) => Unreadable(Declined(why), a0, a1)
    case IncompleteSecret(_, _) => TLSTrouble(Declined(why), h.cluster.spec, a0, a1)
    case NonTLSDisabled => false
  }

  /**
   An error a run may end with: a refusal, a lost call or a failed command, a conflict, an object
   that has gone, each as answered between the two moments, or an excuse.
   */
  ghost predicate Explained(e: ApiError, h: History, a0: multiset<Answer>, a1: multiset<Answer>) {
    match e
    case Refused => New(a0, a1, NoAnswer)
    case Conflict(thing) => New(a0, a1, Clash(thing))
    case NotFound(thing) => New(a0, a1, Absent(thing)) && MayMiss(thing, h, a0, a1)
    case AlreadyExists(_) => false
    case Declined(why) => Excused(why, h, a0, a1)
  }

  /** A failure is explained by what was answered between the two moments. */
  ghost predicate Accounted(stop: Option<RunResult>, h: History, a0: multiset<Answer>, a1: multiset<Answer>) {
    a0 <= a1 && (stop.Some? && stop.value.Failed? ==> Explained(stop.value.error, h, a0, a1))
  }

  lemma MayMissStays(thing: Thing, h0: History, h1: History, a: multiset<Answer>, a0: multiset<Answer>,
        a1: multiset<Answer>, a2: multiset<Answer>)
    requires a <= a0 && a1 <= a2 && MayMiss(thing, h0, a0, a1)
    requires h1.cluster == h0.cluster && h0.built <= h1.built && (FoundSmall(h0) ==> FoundSmall(h1))
    ensures MayMiss(thing, h1, a, a2)
  {
    if thing.TheSts? && SawSts(a0, a1) { SawStsStays(a, a0, a1, a2); }
  }

  lemma ExplainedStays(e: ApiError, h0: History, h1: History, a: multiset<Answer>, a0: multiset<Answer>,
        a1: multiset<Answer>, a2: multiset<Answer>)
    requires a <= a0 && a1 <= a2 && Explained(e, h0, a0, a1)
    requires h1.cluster == h0.cluster && h0.built <= h1.built && (FoundSmall(h0) ==> FoundSmall(h1))
    ensures Explained(e, h1, a, a2)
  {
    if e.NotFound? { MayMissStays(e.thing, h0, h1, a, a0, a1, a2); }
  }

  /** What explains a failure of a later stage explains it for the whole run. */
  lemma AccountedEarlier(stop: Option<RunResult>, h: History, a: multiset<Answer>, a0: multiset<Answer>,
        a1: multiset<Answer>)
    requires a <= a0 && Accounted(stop, h, a0, a1)
    ensures Accounted(stop, h, a, a1)
  {
    if stop.Some? && stop.value.Failed? { ExplainedStays(stop.value.error, h, h, a, a0, a1, a1); }
  }

  lemma GivenIsExplained(e: ApiError, thing: Thing, h: History, a0: multiset<Answer>, a1: multiset<Answer>)
    requires Given(e, thing, a0, a1) && (e.NotFound? ==> MayMiss(thing, h, a0, a1))
    ensures Explained(e, h, a0, a1)
  {
  }

  lemma StsTroubleIsExplained(e: ApiError, h: History, a0: multiset<Answer>, a1: multiset<Answer>)
    requires StsTrouble(e, h.cluster.uid, a0, a1)
    ensures Explained(e, h, a0, a1)
  {
  }

  lemma ScaleTroubleIsExplained(e: ApiError, h: History, a0: multiset<Answer>, a1: multiset<Answer>)
    requires ScaleTrouble(e, h, h.cluster.spec.storage, a0, a1)
    ensures Explained(e, h, a0, a1)
  {
    if ClaimTrouble(e, a0, a1) && FoundSmall(h) {
      var i :| Given(e, TheClaim(i), a0, a1);
    }
  }

  lemma CommandTroubleIsExplained(e: ApiError, h: History, a0: multiset<Answer>, a1: multiset<Answer>)
    requires CommandTrouble(e, a0, a1) && StatefulSetBuilder in h.built
    ensures Explained(e, h, a0, a1)
  {
  }

  lemma TLSTroubleIsExplained(e: ApiError, h: History, spec: Spec, a0: multiset<Answer>, a1: multiset<Answer>)
    requires TLSTrouble(e, spec, a0, a1) && spec == Defaulted(h.cluster.spec, spec)
    ensures Explained(e, h, a0, a1)
  {
  }

  /** `setReconcileSuccess` with a failure that ends the run. */
  method StopAndTell(api: ApiServer, rmq: RabbitmqCluster, e: ApiError, reason: string, message: string,
        ghost a0: multiset<Answer>) returns (stop: Option<RunResult>)
    requires CanReport(api, rmq) && a0 <= api.heard && Explained(e, api.h, a0, api.heard)
    modifies api, rmq, rmq.status
    ensures Good(api) && old(api.log) <= api.log && Met(old(api.h), api.h)
    ensures stop == Some(Failed(e)) && Accounted(stop, api.h, a0, api.heard) && old(api.heard) <= api.heard
    ensures Told(api.h, old(rmq.status.conditions), rmq.status.conditions, reason)
  {
    TellFailure(api, rmq, reason, message);
    ExplainedStays(e, old(api.h), api.h, a0, a0, old(api.heard), api.heard);
    stop := Some(Failed(e));
  }

  /** The status sent last says whether the run succeeded, and why. */
  ghost predicate Shows(h: History, status: ConditionStatus, reason: string) {
    && h.shown.Some? && FourInOrder(h.shown.value)
    && h.shown.value[3].status == status && h.shown.value[3].reason == reason
  }

  lemma ToldIsShown(h: History, before: seq<Condition>, now: seq<Condition>, reason: string)
    requires FourInOrder(before) && Told(h, before, now, reason)
    ensures Shows(h, False, reason)
  {
    var message: string, t: int :| now == Assigned(before, ReconcileSuccess, False, reason, message, t);
    AssignedShape(before, 3, False, reason, message, t);
  }

  // ---------- one builder ----------

  /**
   A ConfigMap builder. A run that gets past it has left a marker if the stored text was not the
   desired one, and has written nothing if it was: a marker missed by a run that stopped after
   writing the text is not made up for. A run that stops here has told so, unless the text was
   applied and only the marker failed.
   */
  method BuildConfig(api: ApiServer, rmq: RabbitmqCluster, which: Which) returns (stop: Option<RunResult>)
    requires InRun(api, rmq) && Building(api.h)
    modifies api, rmq, rmq.status
    ensures Good(api) && old(api.log) <= api.log && SameRun(old(api.h), api.h) && (stop.Some? ==> stop.value.Failed?)
    ensures stop.None? ==>
      InRun(api, rmq) && rmq.Snapshot() == old(rmq.Snapshot()) && OnlyConfig(which, old(api.w), api.w)
    ensures stop.None? ==> ConfigBuilt(which, api.w, rmq.spec) && BuilderOf(which) in api.h.built
    ensures stop.None? && Config(old(api.w), which).Some? ==>
      if ConfigBuilt(which, old(api.w), rmq.spec) then api.log == old(api.log)
      else Marked(Config(api.w, which).value.annotations, MarkerKey(which))
    ensures stop.Some? ==>
      BuilderOf(which) in api.h.built || Told(api.h, old(rmq.status.conditions), rmq.status.conditions, "Error")
    ensures Accounted(stop, api.h, old(api.heard), api.heard)
    ensures stop.Some? && stop.value.error.Conflict? ==>
      Setbacks(old(api.heard), TheConfig(which)) + 5 <= Setbacks(api.heard, TheConfig(which))
  {
    var operation, annotated := ApplyConfig(api, which, rmq.annotations, DesiredData(which, rmq.spec));
    OnlyConfigKeepsTrack(which, rmq.Snapshot(), old(api.w), api.w);
    if operation.Err? {
      GivenIsExplained(operation.error, TheConfig(which), api.h, old(api.heard), api.heard);
      stop := StopAndTell(api, rmq, operation.error, "Error", "failed to create or update ConfigMap", old(api.heard));
      return;
    }
    if annotated.Err? {
      GivenIsExplained(annotated.error, TheConfig(which), api.h, old(api.heard), api.heard);
    }
    stop := if annotated.Ok? then None else Some(Failed(annotated.error));
  }

  /** The desired StatefulSet against the one there is. */
  method CompareReplicas(api: ApiServer, rmq: RabbitmqCluster, current: StatefulSet, built: StatefulSet)
    returns (stop: Option<RunResult>, sts: StatefulSet)
    requires InRun(api, rmq) && built.owner.None? && BuiltFor(built, rmq.Snapshot())
    modifies api, rmq, rmq.status
    ensures Good(api) && old(api.log) <= api.log && Met(old(api.h), api.h) && old(api.heard) <= api.heard
    ensures stop == Some(Finished) || stop.None?
    ensures stop.None? <==> current.replicas <= old(rmq.spec).replicas
    ensures stop.Some? ==> Told(api.h, old(rmq.status.conditions), rmq.status.conditions, "UnsupportedOperation")
    ensures stop.None? ==> api.w == old(api.w) && api.h == old(api.h) && rmq.Snapshot() == old(rmq.Snapshot())
    ensures stop.None? ==> BuiltFor(sts, rmq.Snapshot())
  {
    var c := rmq.Read();
    RebuiltIsMade(c, built, api.h.cluster);
    var made := Update(c, built);
    sts := if made.Ok? then made.value else built;
    var refused := ScaleDown(api, rmq, current, sts);
    stop := if refused then Some(Finished) else None;
  }

  /** The scale-down check reads the StatefulSet there is; without one there is nothing to check. */
  method CheckScaleDown(api: ApiServer, rmq: RabbitmqCluster, built: StatefulSet)
    returns (stop: Option<RunResult>, sts: StatefulSet)
    requires InRun(api, rmq) && built.owner.None? && BuiltFor(built, rmq.Snapshot())
    modifies api, rmq, rmq.status
    ensures Good(api) && old(api.log) <= api.log && Onward(old(api.h), api.h)
    ensures stop == Some(Finished) ==>
      ScaleDownRefused(api.h, old(rmq.status.conditions), rmq.status.conditions)
    ensures stop.None? ==> InRun(api, rmq) && rmq.Snapshot() == old(rmq.Snapshot()) && Rely(true, old(api.w), api.w)
    ensures stop.None? ==> Allowed(api.h, rmq.spec.replicas) && Within(api.w, rmq.spec.replicas)
    ensures stop.None? ==> BuiltFor(sts, rmq.Snapshot())
    ensures Accounted(stop, api.h, old(api.heard), api.heard) && (stop.Some? ==> !stop.value.RequeueAfter?)
  {
    sts := built;
    var current := api.GetSts(ScaleDownCheck);
    InRunStays(true, api.h, rmq.Snapshot(), old(api.w), api.w);
    if current.Ok? {
      stop, sts := CompareReplicas(api, rmq, current.value, built);
    } else {
      stop := if current.error.NotFound? then None else Some(Failed(current.error));
    }
  }

  /** What the StatefulSet stage leaves alone: everything but claims and the StatefulSet. */
  ghost predicate KeepsConfigs(w0: World, w1: World) {
    && ClusterMoves(w0, w1) && TimePasses(w0, w1)
    && ConfigMoves(w0.plugins, w1.plugins, PLUGINS_UPDATED_AT, w0.revision)
    && ConfigMoves(w0.conf, w1.conf, SERVER_CONF_UPDATED_AT, w0.revision)
  }

  lemma KeepsConfigsTransitive(a: World, b: World, c: World)
    requires Wellformed(a) && Wellformed(b) && KeepsConfigs(a, b) && KeepsConfigs(b, c)
    ensures KeepsConfigs(a, c)
  {
  }

  lemma InRunKept(c: Cluster, w0: World, w1: World)
    requires Tracks(c, w0) && KeepsConfigs(w0, w1)
    ensures Tracks(c, w1) && (Stale(c.version, w0) ==> Stale(c.version, w1))
  {
  }

  /**
   `reconcilePVC`. The run goes on only past a StatefulSet that asks for no more storage than the
   specification does and, if it asks for none, only with a specification that asks for none either.
   */
  method ReconcilePVC(api: ApiServer, rmq: RabbitmqCluster, sts: StatefulSet) returns (stop: Option<RunResult>)
    requires InRun(api, rmq) && Building(api.h) && Within(api.w, rmq.spec.replicas) && BuiltFor(sts, rmq.Snapshot())
    modifies api, rmq, rmq.status
    ensures Good(api) && old(api.log) <= api.log && SameRun(old(api.h), api.h)
    ensures stop.None? ==> InRun(api, rmq) && rmq.Snapshot() == old(rmq.Snapshot()) && KeepsConfigs(old(api.w), api.w)
    ensures stop.None? ==>
      Below(api.w.claims, rmq.spec.replicas, rmq.spec.storage) == {} && Within(api.w, rmq.spec.replicas)
    ensures stop.None? && api.w.sts.Some? ==>
      var template := api.w.sts.value.storage;
      if template.None? || template.value == 0 then rmq.spec.storage == 0 else template.value <= rmq.spec.storage
    ensures stop.Some? ==>
      && stop.value.Failed?
      && Told(api.h, old(rmq.status.conditions), rmq.status.conditions, "FailedReconcilePVC")
    ensures Accounted(stop, api.h, old(api.heard), api.heard)
  {
    var scaled := Scale(api, rmq.spec.replicas, if sts.storage.Some? then sts.storage.value else 0);
    InRunKept(rmq.Snapshot(), old(api.w), api.w);
    stop := None;
    if scaled.Err? {
      ScaleTroubleIsExplained(scaled.error, api.h, old(api.heard), api.heard);
      stop := StopAndTell(api, rmq, scaled.error, "FailedReconcilePVC", "failed to scale PVCs", old(api.heard));
    }
  }

  /**
   The create-or-update of the StatefulSet and the marker of a creation. At the moment `applied`
   nothing of the builder's work was left to do; after that only others and the marker moved.
   */
  method ApplyStatefulSet(api: ApiServer, rmq: RabbitmqCluster, sts: StatefulSet)
    returns (stop: Option<RunResult>, ghost applied: World)
    requires InRun(api, rmq) && Building(api.h) && Allowed(api.h, rmq.spec.replicas)
    requires Below(api.w.claims, rmq.spec.replicas, rmq.spec.storage) == {} && Within(api.w, rmq.spec.replicas)
    requires TemplateWithin(api.w, rmq.spec.storage) && BuiltFor(sts, rmq.Snapshot())
    modifies api, rmq, rmq.status
    ensures Good(api) && old(api.log) <= api.log && SameRun(old(api.h), api.h) && stop != Some(Finished)
    ensures stop.None? ==> InRun(api, rmq) && rmq.Snapshot() == old(rmq.Snapshot()) && KeepsConfigs(old(api.w), api.w)
    ensures stop.None? ==> Fits(api.w, api.h.cluster.uid, rmq.spec)
    ensures stop.None? ==> Applied(applied, rmq.Snapshot()) && OnlySts(applied, api.w)
    ensures stop.None? && CreatedAfter(old(api.log), api.log) ==> FlagsPending(api.w)
    ensures stop.None? ==> StatefulSetBuilder in api.h.built
    ensures stop.Some? ==>
      && stop.value.Failed?
      && (StatefulSetBuilder in api.h.built || Told(api.h, old(rmq.status.conditions), rmq.status.conditions, "Error"))
    ensures Accounted(stop, api.h, old(api.heard), api.heard)
  {
    var c := rmq.Read();
    var operation, annotated, at := ApplySts(api, c, sts);
    applied := at;
    InRunKept(c, old(api.w), api.w);
    if operation.Err? {
      StsTroubleIsExplained(operation.error, api.h, old(api.heard), api.heard);
      stop := StopAndTell(api, rmq, operation.error, "Error", "failed to create or update StatefulSet", old(api.heard));
      return;
    }
    if annotated.Err? {
      GivenIsExplained(annotated.error, TheSts, api.h, old(api.heard), api.heard);
    }
    stop := if annotated.Ok? then None else Some(Failed(annotated.error));
  }

  method ExpandAndApply(api: ApiServer, rmq: RabbitmqCluster, sts: StatefulSet) returns (stop: Option<RunResult>)
    requires InRun(api, rmq) && Building(api.h) && Allowed(api.h, rmq.spec.replicas) && Within(api.w, rmq.spec.replicas)
    requires BuiltFor(sts, rmq.Snapshot())
    modifies api, rmq, rmq.status
    ensures Good(api) && old(api.log) <= api.log && SameRun(old(api.h), api.h)
    ensures stop.None? ==> InRun(api, rmq) && rmq.Snapshot() == old(rmq.Snapshot()) && KeepsConfigs(old(api.w), api.w)
    ensures stop.None? ==> Fits(api.w, api.h.cluster.uid, rmq.spec) && StatefulSetBuilder in api.h.built
    ensures Accounted(stop, api.h, old(api.heard), api.heard) && (stop.Some? ==> stop.value.Failed?)
  {
    stop := ReconcilePVC(api, rmq, sts);
    if stop.None? {
      ghost var w1, a1 := api.w, api.heard;
      ghost var applied: World;
      stop, applied := ApplyStatefulSet(api, rmq, sts);
      AccountedEarlier(stop, api.h, old(api.heard), a1, api.heard);
      if stop.None? { KeepsConfigsTransitive(old(api.w), w1, api.w); }
    }
  }

  /** The StatefulSet builder's turn. */
  method BuildStatefulSet(api: ApiServer, rmq: RabbitmqCluster) returns (stop: Option<RunResult>)
    requires InRun(api, rmq) && Building(api.h)
    modifies api, rmq, rmq.status
    ensures Good(api) && old(api.log) <= api.log && Onward(old(api.h), api.h)
    ensures stop == Some(Finished) ==>
      ScaleDownRefused(api.h, old(rmq.status.conditions), rmq.status.conditions)
    ensures stop.None? ==> InRun(api, rmq) && rmq.Snapshot() == old(rmq.Snapshot()) && KeepsConfigs(old(api.w), api.w)
    ensures stop.None? ==>
      Fits(api.w, api.h.cluster.uid, rmq.spec) && Allowed(api.h, rmq.spec.replicas) && StatefulSetBuilder in api.h.built
    ensures Accounted(stop, api.h, old(api.heard), api.heard) && (stop.Some? ==> !stop.value.RequeueAfter?)
  {
    var c := rmq.Read();
    var sts := Built(c);
    stop, sts := CheckScaleDown(api, rmq, sts);
    if stop.None? {
      ghost var w1, a1 := api.w, api.heard;
      stop := ExpandAndApply(api, rmq, sts);
      AccountedEarlier(stop, api.h, old(api.heard), a1, api.heard);
      if stop.None? { KeepsConfigsTransitive(old(api.w), w1, api.w); }
    }
  }

  // ---------- the builders in turn ----------

  /** What the builders whose turn is over have achieved. */
  ghost predicate Achieved(done: seq<Builder>, w: World, h: History, spec: Spec) {
    && (PluginsConfigMap in done ==> ConfigBuilt(PluginsMap, w, spec))
    && (ServerConfigMap in done ==> ConfigBuilt(ConfMap, w, spec))
    && (StatefulSetBuilder in done ==> Fits(w, h.cluster.uid, spec) && Allowed(h, spec.replicas))
    && (forall b :: b in done ==> b in h.built)
  }

  lemma AchievedStays(done: seq<Builder>, w0: World, w1: World, h0: History, h1: History, spec: Spec, which: Which)
    requires Achieved(done, w0, h0, spec) && OnlyConfig(which, w0, w1) && ConfigBuilt(which, w1, spec)
    requires SameRun(h0, h1)
    ensures Achieved(done, w1, h1, spec)
  {
    if StatefulSetBuilder in done { BelowStays(w0, w1, spec); }
  }

  lemma AchievedStaysQuiet(done: seq<Builder>, w0: World, w1: World, h0: History, h1: History, spec: Spec)
    requires Achieved(done, w0, h0, spec) && Rely(true, w0, w1) && SameRun(h0, h1)
    ensures Achieved(done, w1, h1, spec)
  {
    if StatefulSetBuilder in done { FitsStays(w0, w1, h0.cluster.uid, spec); }
  }

  lemma AchievedNext(done: seq<Builder>, b: Builder, w: World, h: History, spec: Spec)
    requires Achieved(done, w, h, spec) && b in h.built
    requires b.PluginsConfigMap? ==> ConfigBuilt(PluginsMap, w, spec)
    requires b.ServerConfigMap? ==> ConfigBuilt(ConfMap, w, spec)
    requires b.StatefulSetBuilder? ==> Fits(w, h.cluster.uid, spec) && Allowed(h, spec.replicas)
    ensures Achieved(done + [b], w, h, spec)
  {
    assert forall x :: x in done + [b] <==> x in done || x == b;
  }

  lemma AchievedStaysApplied(done: seq<Builder>, w0: World, w1: World, h0: History, h1: History, spec: Spec)
    requires Achieved(done, w0, h0, spec) && KeepsConfigs(w0, w1) && h0.built <= h1.built
    requires Fits(w1, h1.cluster.uid, spec) && Allowed(h1, spec.replicas)
    ensures Achieved(done, w1, h1, spec)
  {
  }

  /** A builder whose object this model does not look into. */
  method BuildOther(api: ApiServer, rmq: RabbitmqCluster, builder: Builder) returns (stop: Option<RunResult>)
    requires InRun(api, rmq)
    modifies api, rmq, rmq.status
    ensures Good(api) && old(api.log) <= api.log && SameRun(old(api.h), api.h)
    ensures stop.None? ==> InRun(api, rmq) && rmq.Snapshot() == old(rmq.Snapshot()) && Rely(true, old(api.w), api.w)
    ensures stop.None? ==> builder in api.h.built
    ensures stop.Some? ==>
      stop.value.Failed? && Told(api.h, old(rmq.status.conditions), rmq.status.conditions, "Error")
    ensures Accounted(stop, api.h, old(api.heard), api.heard)
  {
    var ok := api.ReconcileOther(builder);
    stop := None;
    if !ok {
      stop := StopAndTell(api, rmq, Refused, "Error", "failed to create or update", old(api.heard));
    }
  }

  /** A ConfigMap builder's turn. */
  method ConfigTurn(api: ApiServer, rmq: RabbitmqCluster, which: Which, ghost done: seq<Builder>)
    returns (stop: Option<RunResult>)
    requires InRun(api, rmq) && Building(api.h) && Achieved(done, api.w, api.h, rmq.spec)
    modifies api, rmq, rmq.status
    ensures Good(api) && old(api.log) <= api.log && Onward(old(api.h), api.h)
    ensures stop.None? ==> InRun(api, rmq) && rmq.Snapshot() == old(rmq.Snapshot())
    ensures stop.None? ==> Achieved(done + [BuilderOf(which)], api.w, api.h, rmq.spec)
    ensures Accounted(stop, api.h, old(api.heard), api.heard) && (stop.Some? ==> stop.value.Failed?)
  {
    stop := BuildConfig(api, rmq, which);
    if stop.None? {
      AchievedStays(done, old(api.w), api.w, old(api.h), api.h, rmq.spec, which);
      AchievedNext(done, BuilderOf(which), api.w, api.h, rmq.spec);
    }
  }

  /** The StatefulSet builder's turn among the others. */
  method StatefulSetTurn(api: ApiServer, rmq: RabbitmqCluster, ghost done: seq<Builder>)
    returns (stop: Option<RunResult>)
    requires InRun(api, rmq) && Building(api.h) && Achieved(done, api.w, api.h, rmq.spec)
    modifies api, rmq, rmq.status
    ensures Good(api) && old(api.log) <= api.log && Onward(old(api.h), api.h)
    ensures stop == Some(Finished) ==>
      ScaleDownRefused(api.h, old(rmq.status.conditions), rmq.status.conditions)
    ensures stop.None? ==> InRun(api, rmq) && rmq.Snapshot() == old(rmq.Snapshot())
    ensures stop.None? ==> Achieved(done + [StatefulSetBuilder], api.w, api.h, rmq.spec)
    ensures Accounted(stop, api.h, old(api.heard), api.heard) && (stop.Some? ==> !stop.value.RequeueAfter?)
  {
    stop := BuildStatefulSet(api, rmq);
    if stop.None? {
      AchievedStaysApplied(done, old(api.w), api.w, old(api.h), api.h, rmq.spec);
      AchievedNext(done, StatefulSetBuilder, api.w, api.h, rmq.spec);
    }
  }

  /** Any other builder's turn. */
  method OtherTurn(api: ApiServer, rmq: RabbitmqCluster, builder: Builder, ghost done: seq<Builder>)
    returns (stop: Option<RunResult>)
    requires InRun(api, rmq) && Building(api.h) && Achieved(done, api.w, api.h, rmq.spec)
    requires !builder.PluginsConfigMap? && !builder.ServerConfigMap? && !builder.StatefulSetBuilder?
    modifies api, rmq, rmq.status
    ensures Good(api) && old(api.log) <= api.log && Onward(old(api.h), api.h)
    ensures stop.None? ==> InRun(api, rmq) && rmq.Snapshot() == old(rmq.Snapshot())
    ensures stop.None? ==> Achieved(done + [builder], api.w, api.h, rmq.spec)
    ensures Accounted(stop, api.h, old(api.heard), api.heard) && (stop.Some? ==> stop.value.Failed?)
  {
    stop := BuildOther(api, rmq, builder);
    if stop.None? {
      AchievedStaysQuiet(done, old(api.w), api.w, old(api.h), api.h, rmq.spec);
      AchievedNext(done, builder, api.w, api.h, rmq.spec);
    }
  }

  method BuildOne(api: ApiServer, rmq: RabbitmqCluster, builder: Builder, ghost done: seq<Builder>)
    returns (stop: Option<RunResult>)
    requires InRun(api, rmq) && Building(api.h) && Achieved(done, api.w, api.h, rmq.spec)
    modifies api, rmq, rmq.status
    ensures Good(api) && old(api.log) <= api.log && Onward(old(api.h), api.h)
    ensures stop == Some(Finished) ==>
      ScaleDownRefused(api.h, old(rmq.status.conditions), rmq.status.conditions)
    ensures stop.None? ==> InRun(api, rmq) && rmq.Snapshot() == old(rmq.Snapshot())
    ensures stop.None? ==> Achieved(done + [builder], api.w, api.h, rmq.spec)
    ensures Accounted(stop, api.h, old(api.heard), api.heard) && (stop.Some? ==> !stop.value.RequeueAfter?)
  {
    match builder
    case PluginsConfigMap => stop := ConfigTurn(api, rmq, PluginsMap, done);
    case ServerConfigMap => stop := ConfigTurn(api, rmq, ConfMap, done);
    case StatefulSetBuilder => stop := StatefulSetTurn(api, rmq, done);
    case _ => stop := OtherTurn(api, rmq, builder, done);
  }

  /** The list has every builder, but for the Secret of a default user whom Vault keeps. */
  lemma EveryBuilderIsListed(spec: Spec, b: Builder)
    ensures b in ResourceBuilders(spec)
         || (b.DefaultUserSecret? && spec.vault.Some? && spec.vault.value.defaultUserPath != "")
  {
    var last := [PluginsConfigMap, ServerConfigMap, ServiceAccount, Role, RoleBinding, StatefulSetBuilder];
    assert last[0] in last && last[1] in last && last[2] in last;
    assert last[3] in last && last[4] in last && last[5] in last;
  }

  /** The StatefulSet comes last, when everything its pods need is there. */
  lemma StatefulSetIsBuiltLast(spec: Spec)
    ensures
      var builders := ResourceBuilders(spec);
      builders != [] && forall i :: 0 <= i < |builders| ==>
        (builders[i] == StatefulSetBuilder <==> i == |builders| - 1)
  {
  }

  method BuildChildren(api: ApiServer, rmq: RabbitmqCluster) returns (stop: Option<RunResult>)
    requires Prepared(api, rmq)
    modifies api, rmq, rmq.status
    ensures Good(api) && old(api.log) <= api.log && Onward(old(api.h), api.h)
    ensures stop == Some(Finished) ==> ScaleDownWanted(api.h) && Shows(api.h, False, "UnsupportedOperation")
    ensures stop.None? ==> Prepared(api, rmq) && rmq.Snapshot() == old(rmq.Snapshot())
    ensures stop.None? ==>
      && ConfigBuilt(PluginsMap, api.w, rmq.spec) && ConfigBuilt(ConfMap, api.w, rmq.spec)
      && Fits(api.w, api.h.cluster.uid, rmq.spec) && Allowed(api.h, rmq.spec.replicas) && AllBuilt(api.h)
    ensures Accounted(stop, api.h, old(api.heard), api.heard) && (stop.Some? ==> !stop.value.RequeueAfter?)
  {
    var builders := ResourceBuilders(rmq.spec);
    for i := 0 to |builders|
      invariant InRun(api, rmq) && rmq.Snapshot() == old(rmq.Snapshot()) && old(api.log) <= api.log
      invariant Onward(old(api.h), api.h) && old(api.heard) <= api.heard
      invariant Achieved(builders[..i], api.w, api.h, rmq.spec)
    {
      assert builders[..i + 1] == builders[..i] + [builders[i]];
      ghost var a1 := api.heard;
      stop := BuildOne(api, rmq, builders[i], builders[..i]);
      AccountedEarlier(stop, api.h, old(api.heard), a1, api.heard);
      if stop.Some? {
        if stop.value.Finished? {
          ToldIsShown(api.h, old(rmq.status.conditions), rmq.status.conditions, "UnsupportedOperation");
        }
        return;
      }
    }
    assert builders[..|builders|] == builders;
    forall b: Builder ensures b in builders || b in api.h.built || b.DefaultUserSecret? {
      EveryBuilderIsListed(rmq.spec, b);
    }
    stop := None;
  }

  // ---------- the last write ----------

  /** Everything a run must know before it reports a generation as observed. */
  ghost predicate Reportable(w: World, uid: nat, spec: Spec) {
    ChildrenBuilt(w, uid, spec) && !PluginsPending(w) && !FlagsPending(w)
  }

  /** What the run itself has done by then. */
  ghost predicate RunComplete(h: History) {
    AllBuilt(h) && GatePassed(h) && RebalanceSettled(h) && Building(h)
  }

  lemma ReportableIsConverged(w: World, c: Cluster)
    requires Reportable(w, c.uid, c.spec) && !Marked(c.annotations, QUEUE_REBALANCE_NEEDED_AT)
    ensures Converged(w, c)
  {
    FittingIsCovered(w, c.uid, c.spec);
  }

  lemma ReportStepSafe(s: Step, c: Cluster, was: Cluster)
    requires s.op.PutStatus? && Wellformed(s.pre) && Wellformed(s.post) && StatusPut(s.pre, c, s.post)
    requires Tracks(was, s.pre) && was.version == c.version && c.observedGeneration == was.generation
    requires was.uid == s.h.cluster.uid && was.spec == Defaulted(s.h.cluster.spec, was.spec)
    requires !s.h.conflicted && RunComplete(s.h)
    requires c.name == was.name && c.spec == was.spec && ShowsSuccess(c)
    requires Reportable(s.pre, s.h.cluster.uid, was.spec) && !Marked(was.annotations, QUEUE_REBALANCE_NEEDED_AT)
    ensures SafeStep(s) && Reportable(s.post, s.h.cluster.uid, was.spec)
  {
    ReportableIsConverged(s.post, s.post.cluster.value);
  }

  /** All four conditions are there and the references are those of the specification. */
  ghost predicate StatusFilled(rmq: RabbitmqCluster)
    reads rmq, rmq.status
  {
    && FourInOrder(rmq.status.conditions)
    && rmq.status.defaultUser == Some(References(rmq.name, rmq.spec))
    && rmq.status.binding == References(rmq.name, rmq.spec).secret
  }

  /** Sets the observed generation and success, and writes the status; a failure is only logged. */
  method Report(api: ApiServer, rmq: RabbitmqCluster)
    requires CaughtUp(api, rmq) && RunComplete(api.h) && StatusFilled(rmq)
    modifies api, rmq, rmq.status
    ensures Good(api) && old(api.log) <= api.log && old(api.heard) <= api.heard
    ensures Stale(old(rmq.version), old(api.w)) ==> api.log == old(api.log)
    ensures api.log != old(api.log) ==>
      && api.w.cluster.Some? && api.w.cluster.value.observedGeneration == old(rmq.generation)
    ensures rmq.status.conditions
         == Assigned(old(rmq.status.conditions), ReconcileSuccess, True, "Success", "Finish reconciling",
                     Timestamps.Instant(old(api.w).clock))
    ensures api.h.shown == Some(rmq.status.conditions) && Shows(api.h, True, "Success")
    ensures Reportable(api.w, api.h.cluster.uid, old(rmq.spec)) && Met(old(api.h), api.h)
  {
    ghost var was := rmq.Snapshot();
    assert Join(["Finish reconciling"], ". ") == "Finish reconciling";
    var now := Timestamps.Instant(api.w.clock);
    AssignedShape(rmq.status.conditions, 3, True, "Success", "Finish reconciling", now);
    rmq.status.observedGeneration := rmq.generation;
    rmq.status.SetCondition(ReconcileSuccess, True, "Success", ["Finish reconciling"], now);
    var c := rmq.Read();
    var put := api.PutStatus(c);
    ReportCallSafe(old(api.log), api.log, Sending(old(api.h), c), old(api.w), api.w, c, was);
  }

  lemma ReportCallSafe(log0: seq<Step>, log1: seq<Step>, h: History, w0: World, w1: World, c: Cluster, was: Cluster)
    requires AllSafe(log0) && Wellformed(w0)
    requires Quiet(true, log0, log1, w0, w1)
          || (Wrote(true, log0, log1, Op.PutStatus, h, w0, w1) && StatusPut(log1[|log0|].pre, c, w1))
    requires Tracks(was, w0) && Heeds(h, was.version, w0)
    requires was.version == c.version && c.observedGeneration == was.generation
    requires was.uid == h.cluster.uid && was.spec == Defaulted(h.cluster.spec, was.spec) && RunComplete(h)
    requires c.name == was.name && c.spec == was.spec && ShowsSuccess(c)
    requires Reportable(w0, h.cluster.uid, was.spec) && !Marked(was.annotations, QUEUE_REBALANCE_NEEDED_AT)
    ensures AllSafe(log1) && log0 <= log1 && Reportable(w1, h.cluster.uid, was.spec)
    ensures Stale(was.version, w0) ==> log1 == log0
    ensures log1 != log0 ==> w1.cluster.Some? && w1.cluster.value.observedGeneration == was.generation
  {
    if log1 == log0 {
      ChildrenStay(w0, w1, h.cluster.uid, was.spec);
    } else {
      var s := log1[|log0|];
      TracksStays(true, was, w0, s.pre);
      ChildrenStay(w0, s.pre, h.cluster.uid, was.spec);
      if Stale(was.version, w0) || h.conflicted { StaleStays(true, was.version, w0, s.pre); }
      ReportStepSafe(s, c, was);
      AllSafeGrows(log0, log1);
    }
  }

  // ---------- a run ----------

  /** Defaults and finalizer. */
  method CompleteObject(api: ApiServer, rmq: RabbitmqCluster, d: OperatorDefaults) returns (stop: Option<RunResult>)
    requires InRun(api, rmq)
    modifies api, rmq, rmq.status
    ensures Good(api) && old(api.log) <= api.log && Met(old(api.h), api.h)
    ensures stop.None? ==> InRun(api, rmq) && rmq.spec == WithDefaults(old(rmq.spec), d)
    ensures stop.None? ==> rmq.finalizer || old(rmq.deleting)
    ensures Accounted(stop, api.h, old(api.heard), api.heard) && (stop.Some? ==> stop.value.Failed?)
  {
    var r := ReconcileOperatorDefaults(api, rmq, d);
    if r.Ok? {
      r := AddFinalizerIfNeeded(api, rmq);
    }
    stop := if r.Ok? then None else Some(Failed(r.error));
  }

  /** The status could not be written for a conflict. */
  ghost predicate Clashed(seconds: nat, h: History, a0: multiset<Answer>, a1: multiset<Answer>) {
    seconds == 2 && New(a0, a1, Clash(TheCluster)) && h.shown.Some?
  }

  /** The conditions, or the reason why another run has to set them. */
  method EvaluationStage(api: ApiServer, rmq: RabbitmqCluster) returns (stop: Option<RunResult>)
    requires InRun(api, rmq)
    modifies api, rmq, rmq.status
    ensures Good(api) && old(api.log) <= api.log && Met(old(api.h), api.h) && stop != Some(Finished)
    ensures stop.None? ==> InRun(api, rmq) && FourInOrder(rmq.status.conditions) && rmq.finalizer == old(rmq.finalizer)
    ensures Accounted(stop, api.h, old(api.heard), api.heard)
    ensures stop.Some? && stop.value.RequeueAfter? ==>
      Clashed(stop.value.seconds, api.h, old(api.heard), api.heard)
  {
    var requeue, _, _ := UpdateStatusConditions(api, rmq);
    if requeue.Err? {
      return Some(Failed(requeue.error));
    }
    stop := if requeue.value > 0 then Some(RequeueAfter(requeue.value)) else None;
  }

  /** Settings that leave no listener end the run without asking for another one. */
  method TLSStage(api: ApiServer, rmq: RabbitmqCluster) returns (stop: Option<RunResult>)
    requires InRun(api, rmq) && FourInOrder(rmq.status.conditions)
    modifies api, rmq, rmq.status
    ensures Good(api) && old(api.log) <= api.log && Met(old(api.h), api.h)
    ensures stop == Some(Finished) ==> !TLSGate(api.h.cluster.spec)
    ensures stop.Some? ==> Shows(api.h, False, "TLSError") && !stop.value.RequeueAfter?
    ensures stop.None? ==> InRun(api, rmq) && rmq.Snapshot() == old(rmq.Snapshot()) && TLSGate(api.h.cluster.spec)
    ensures Accounted(stop, api.h, old(api.heard), api.heard)
  {
    var r, _ := ReconcileTLS(api, rmq);
    stop := None;
    if r.Err? {
      ToldIsShown(api.h, old(rmq.status.conditions), rmq.status.conditions, "TLSError");
      if r.error == Declined(NonTLSDisabled) {
        return Some(Finished);
      }
      TLSTroubleIsExplained(r.error, api.h, old(rmq.spec), old(api.heard), api.heard);
      stop := Some(Failed(r.error));
    }
  }

  method PrepareTLSAndRebalance(api: ApiServer, rmq: RabbitmqCluster) returns (stop: Option<RunResult>)
    requires InRun(api, rmq) && !api.h.cluster.deleting && !api.h.cluster.paused
    requires rmq.finalizer && FourInOrder(rmq.status.conditions)
    modifies api, rmq, rmq.status
    ensures Good(api) && old(api.log) <= api.log && Onward(old(api.h).(seen := map[]), api.h)
    ensures stop == Some(Finished) ==> !TLSGate(api.h.cluster.spec) && Shows(api.h, False, "TLSError")
    ensures stop.None? ==> Prepared(api, rmq)
    ensures Accounted(stop, api.h, old(api.heard), api.heard) && (stop.Some? ==> !stop.value.RequeueAfter?)
  {
    stop := TLSStage(api, rmq);
    if stop.None? {
      ghost var a1 := api.heard;
      var r := MarkIfBeingUpdated(api, rmq);
      stop := if r.Ok? then None else Some(Failed(r.error));
      AccountedEarlier(stop, api.h, old(api.heard), a1, api.heard);
    }
  }

  /** From the conditions to the rebalance marker. */
  method PrepareStatus(api: ApiServer, rmq: RabbitmqCluster) returns (stop: Option<RunResult>)
    requires InRun(api, rmq) && rmq.finalizer && !api.h.cluster.deleting && !api.h.cluster.paused
    modifies api, rmq, rmq.status
    ensures Good(api) && old(api.log) <= api.log && Onward(old(api.h).(seen := map[]), api.h)
    ensures stop == Some(Finished) ==> !TLSGate(api.h.cluster.spec) && Shows(api.h, False, "TLSError")
    ensures stop.None? ==> Prepared(api, rmq)
    ensures Accounted(stop, api.h, old(api.heard), api.heard)
    ensures stop.Some? && stop.value.RequeueAfter? ==>
      Clashed(stop.value.seconds, api.h, old(api.heard), api.heard)
  {
    stop := EvaluationStage(api, rmq);
    if stop.None? {
      ghost var a1 := api.heard;
      stop := PrepareTLSAndRebalance(api, rmq);
      AccountedEarlier(stop, api.h, old(api.heard), a1, api.heard);
    }
  }

  /** From the defaults to the rebalance marker: only the cluster object is written. */
  method Prepare(api: ApiServer, rmq: RabbitmqCluster, d: OperatorDefaults) returns (stop: Option<RunResult>)
    requires InRun(api, rmq) && !rmq.deleting && !api.h.cluster.deleting && !api.h.cluster.paused
    modifies api, rmq, rmq.status
    ensures Good(api) && old(api.log) <= api.log && Onward(old(api.h).(seen := map[]), api.h)
    ensures stop == Some(Finished) ==> !TLSGate(api.h.cluster.spec) && Shows(api.h, False, "TLSError")
    ensures stop.None? ==> Prepared(api, rmq)
    ensures Accounted(stop, api.h, old(api.heard), api.heard)
    ensures stop.Some? && stop.value.RequeueAfter? ==>
      Clashed(stop.value.seconds, api.h, old(api.heard), api.heard)
  {
    stop := CompleteObject(api, rmq, d);
    if stop.None? {
      ghost var a1 := api.heard;
      stop := PrepareStatus(api, rmq);
      AccountedEarlier(stop, api.h, old(api.heard), a1, api.heard);
    }
  }

  /** The children are as the builders left them, and the run may go on with them. */
  ghost predicate AllInPlace(api: ApiServer, rmq: RabbitmqCluster)
    reads api, rmq, rmq.status
  {
    && ConfigBuilt(PluginsMap, api.w, rmq.spec) && ConfigBuilt(ConfMap, api.w, rmq.spec)
    && Fits(api.w, api.h.cluster.uid, rmq.spec) && Allowed(api.h, rmq.spec.replicas) && AllBuilt(api.h)
  }

  /** The StatefulSet, or the ConfigMap whose marker says when it is to be restarted, is not there. */
  ghost predicate NothingToRestart(seconds: nat, w: World) { seconds == 10 && (w.conf.None? || w.sts.None?) }

  lemma RestartKeepsChildren(c: Cluster, w0: World, w1: World, uid: nat)
    requires Tracks(c, w0) && OnlySts(w0, w1) && Fits(w1, uid, c.spec)
    requires ConfigBuilt(PluginsMap, w0, c.spec) && ConfigBuilt(ConfMap, w0, c.spec)
    ensures Tracks(c, w1) && (Stale(c.version, w0) ==> Stale(c.version, w1))
    ensures Restarted(w1) ==> ChildrenBuilt(w1, uid, c.spec)
  {
    InRunKept(c, w0, w1);
  }

  method RestartStage(api: ApiServer, rmq: RabbitmqCluster) returns (stop: Option<RunResult>)
    requires InRun(api, rmq) && Building(api.h) && AllInPlace(api, rmq)
    modifies api
    ensures Good(api) && old(api.log) <= api.log && api.h == old(api.h) && stop != Some(Finished)
    ensures stop.None? ==> InRun(api, rmq) && ChildrenBuilt(api.w, api.h.cluster.uid, rmq.spec)
    ensures Accounted(stop, api.h, old(api.heard), api.heard)
    ensures stop.Some? && stop.value.RequeueAfter? ==> NothingToRestart(stop.value.seconds, api.w)
  {
    var restart := RestartStatefulSetIfNeeded(api, rmq.spec);
    RestartKeepsChildren(rmq.Snapshot(), old(api.w), api.w, api.h.cluster.uid);
    if restart.Err? {
      GivenIsExplained(restart.error, TheSts, api.h, old(api.heard), api.heard);
      return Some(Failed(restart.error));
    }
    stop := if restart.value > 0 then Some(RequeueAfter(restart.value)) else None;
  }

  /** The same run, with no less built. */
  ghost predicate Ongoing(h0: History, h1: History) { h1.cluster == h0.cluster && h0.built <= h1.built }

  /** The commands, or the reason why the run ends before its report. */
  method CommandStage(api: ApiServer, rmq: RabbitmqCluster) returns (stop: Option<RunResult>)
    requires Prepared(api, rmq) && StatusFilled(rmq)
    requires ChildrenBuilt(api.w, api.h.cluster.uid, rmq.spec) && Allowed(api.h, rmq.spec.replicas) && AllBuilt(api.h)
    modifies api, rmq, rmq.status
    ensures Good(api) && old(api.log) <= api.log && Ongoing(old(api.h), api.h) && stop != Some(Finished)
    ensures stop.None? ==> CaughtUp(api, rmq) && RunComplete(api.h) && StatusFilled(rmq)
    ensures stop.Some? && stop.value.Failed? ==>
      Told(api.h, old(rmq.status.conditions), rmq.status.conditions, "FailedCLICommand")
    ensures Accounted(stop, api.h, old(api.heard), api.heard)
    ensures stop.Some? && stop.value.RequeueAfter? ==> NotYet(api.w, api.h, stop.value.seconds)
  {
    var requeue, _ := RunRabbitmqCLICommandsIfAnnotated(api, rmq);
    if requeue.Err? {
      CommandTroubleIsExplained(requeue.error, api.h, old(api.heard), api.heard);
      stop := StopAndTell(api, rmq, requeue.error, "FailedCLICommand", "command failed", old(api.heard));
      return;
    }
    stop := if requeue.value > 0 then Some(RequeueAfter(requeue.value)) else None;
  }

  /** Why a run that has built everything asks for another one. */
  ghost predicate Postponed(seconds: nat, w: World, h: History)
    requires Wellformed(w)
  {
    AllBuilt(h) && Building(h) && (NothingToRestart(seconds, w) || NotYet(w, h, seconds))
  }

  /** The children are as specified, the run has done its part, and the status says so. */
  ghost predicate Succeeded(w: World, h: History) {
    Reportable(w, h.cluster.uid, h.cluster.spec) && RunComplete(h) && Shows(h, True, "Success")
  }

  method RunCommandsAndReport(api: ApiServer, rmq: RabbitmqCluster) returns (r: RunResult)
    requires Prepared(api, rmq) && StatusFilled(rmq)
    requires ChildrenBuilt(api.w, api.h.cluster.uid, rmq.spec) && Allowed(api.h, rmq.spec.replicas) && AllBuilt(api.h)
    modifies api, rmq, rmq.status
    ensures Good(api) && old(api.log) <= api.log && Ongoing(old(api.h), api.h)
    ensures r.Finished? ==> Succeeded(api.w, api.h)
    ensures r.Failed? ==> Told(api.h, old(rmq.status.conditions), rmq.status.conditions, "FailedCLICommand")
    ensures Accounted(Some(r), api.h, old(api.heard), api.heard)
    ensures r.RequeueAfter? ==> NotYet(api.w, api.h, r.seconds)
  {
    var stop := CommandStage(api, rmq);
    r := Finished;
    if stop.Some? {
      r := stop.value;
    } else {
      Report(api, rmq);
    }
  }

  method ShowCommandAndReport(api: ApiServer, rmq: RabbitmqCluster) returns (r: RunResult)
    requires Prepared(api, rmq)
    requires ChildrenBuilt(api.w, api.h.cluster.uid, rmq.spec) && Allowed(api.h, rmq.spec.replicas) && AllBuilt(api.h)
    modifies api, rmq, rmq.status
    ensures Good(api) && old(api.log) <= api.log && Ongoing(old(api.h), api.h)
    ensures r.Finished? ==> Succeeded(api.w, api.h)
    ensures Accounted(Some(r), api.h, old(api.heard), api.heard)
    ensures r.RequeueAfter? ==> NotYet(api.w, api.h, r.seconds)
  {
    var bound := ReconcileStatus(api, rmq);
    ChildrenStay(old(api.w), api.w, api.h.cluster.uid, old(rmq.spec));
    if bound.Err? {
      return Failed(bound.error);
    }
    ghost var a1 := api.heard;
    r := RunCommandsAndReport(api, rmq);
    AccountedEarlier(Some(r), api.h, old(api.heard), a1, api.heard);
  }

  /** After the builders: restart, status, commands, report. */
  method Complete(api: ApiServer, rmq: RabbitmqCluster) returns (r: RunResult)
    requires Prepared(api, rmq) && AllInPlace(api, rmq)
    modifies api, rmq, rmq.status
    ensures Good(api) && old(api.log) <= api.log && Ongoing(old(api.h), api.h)
    ensures r.Finished? ==> Succeeded(api.w, api.h)
    ensures Accounted(Some(r), api.h, old(api.heard), api.heard)
    ensures r.RequeueAfter? ==> Postponed(r.seconds, api.w, api.h)
  {
    var stop := RestartStage(api, rmq);
    if stop.Some? {
      return stop.value;
    }
    ghost var a1 := api.heard;
    r := ShowCommandAndReport(api, rmq);
    AccountedEarlier(Some(r), api.h, old(api.heard), a1, api.heard);
  }

  /** How a run on a live cluster may finish: it could not be reconciled as it is, and was told so, or it was. */
  ghost predicate LiveFinish(w: World, h: History) {
    || (!TLSGate(h.cluster.spec) && Shows(h, False, "TLSError"))
    || (ScaleDownWanted(h) && Shows(h, False, "UnsupportedOperation"))
    || Succeeded(w, h)
  }

  method BuildAndComplete(api: ApiServer, rmq: RabbitmqCluster) returns (r: RunResult)
    requires Prepared(api, rmq)
    modifies api, rmq, rmq.status
    ensures Good(api) && old(api.log) <= api.log && api.h.cluster == old(api.h).cluster
    ensures r.Finished? ==> LiveFinish(api.w, api.h)
    ensures Accounted(Some(r), api.h, old(api.heard), api.heard)
    ensures r.RequeueAfter? ==> Postponed(r.seconds, api.w, api.h)
  {
    var stop := BuildChildren(api, rmq);
    if stop.Some? {
      return stop.value;
    }
    ghost var a1 := api.heard;
    r := Complete(api, rmq);
    AccountedEarlier(Some(r), api.h, old(api.heard), a1, api.heard);
  }

  /** A run on a cluster that is neither being deleted nor paused. */
  method ReconcileLive(api: ApiServer, rmq: RabbitmqCluster, d: OperatorDefaults) returns (r: RunResult)
    requires InRun(api, rmq) && !rmq.deleting && !api.h.cluster.deleting && !api.h.cluster.paused
    modifies api, rmq, rmq.status
    ensures Good(api) && old(api.log) <= api.log && api.h.cluster == old(api.h).cluster
    ensures r.Finished? ==> LiveFinish(api.w, api.h)
    ensures Accounted(Some(r), api.h, old(api.heard), api.heard)
    ensures r.RequeueAfter? ==>
      Clashed(r.seconds, api.h, old(api.heard), api.heard) || Postponed(r.seconds, api.w, api.h)
  {
    var stop := Prepare(api, rmq, d);
    if stop.Some? {
      return stop.value;
    }
    ghost var a1 := api.heard;
    r := BuildAndComplete(api, rmq);
    AccountedEarlier(Some(r), api.h, old(api.heard), a1, api.heard);
  }

  /** A run on a paused cluster sends this status and does no more; a failure is only logged. */
  method ShowPause(api: ApiServer, rmq: RabbitmqCluster)
    requires InRun(api, rmq)
    modifies api, rmq, rmq.status
    ensures Good(api) && old(api.log) <= api.log && OnlyStatusWritten(old(api.log), api.log)
    ensures Met(old(api.h), api.h) && old(api.heard) <= api.heard
    ensures api.h.shown == Some(Assigned(old(rmq.status.conditions), NoWarnings, False, "reconciliation paused", "",
                                         Timestamps.Instant(old(api.w).clock)))
  {
    rmq.status.SetCondition(NoWarnings, False, "reconciliation paused", [], Timestamps.Instant(api.w.clock));
    var _ := UpdateStatus(api, rmq);
  }

  /** What a run that finished has to show: the deletion, the pause, or the state of a live cluster. */
  ghost predicate Finish(w: World, h: History, log0: seq<Step>, log1: seq<Step>)
    requires Timestamps.Valid(h.began)
  {
    if h.cluster.deleting then
      if h.cluster.finalizer then |log0| < |log1| && Releases(log1[|log1| - 1]) else log1 == log0
    else if h.cluster.paused then
      h.shown == Some(Assigned(h.cluster.conditions, NoWarnings, False, "reconciliation paused", "",
                               Timestamps.Instant(h.began)))
    else LiveFinish(w, h)
  }

  /** The run after its first read. */
  method ReconcileCluster(api: ApiServer, c: Cluster, d: OperatorDefaults) returns (r: RunResult)
    requires Good(api) && api.exclusive && api.w.cluster == Some(c) && api.h.cluster == c
    requires !api.h.conflicted && api.h.began == api.w.clock
    modifies api
    ensures Good(api) && old(api.log) <= api.log
    ensures api.h.cluster.paused && !api.h.cluster.deleting ==> OnlyStatusWritten(old(api.log), api.log)
    ensures r.Finished? ==> Finish(api.w, api.h, old(api.log), api.log)
    ensures r.RequeueAfter? ==>
      && !api.h.cluster.deleting && !api.h.cluster.paused
      && (Clashed(r.seconds, api.h, old(api.heard), api.heard) || Postponed(r.seconds, api.w, api.h))
    ensures Accounted(Some(r), api.h, old(api.heard), api.heard)
  {
    var rmq := new RabbitmqCluster(c);
    if rmq.deleting {
      var deleted := PrepareForDeletion(api, rmq);
      return if deleted.Ok? then Finished else Failed(deleted.error);
    }
    if rmq.paused {
      ShowPause(api, rmq);
      return Finished;
    }
    r := ReconcileLive(api, rmq, d);
  }

  /**
   `Reconcile`. A run that finishes without an error and without asking for another one found no
   cluster, or has taken its finalizer off, shown that it is paused, shown why it cannot be
   reconciled as it is, or had every builder succeed and leaves behind children that are as the
   specification wants them, with no marker left and the StatefulSet fully ready when it looked.
   It asks for another one in two seconds only after a conflict in its status write or with a plugin
   list that has just changed, in ten only with everything built and the StatefulSet or the server
   ConfigMap gone, in fifteen only with everything built and the StatefulSet read not ready. Any
   error is one it was answered with, or about an object it read. For a paused cluster it writes
   nothing but the status.
   */
  method Reconcile(api: ApiServer, d: OperatorDefaults) returns (r: RunResult)
    requires Good(api) && api.exclusive
    modifies api
    ensures Good(api) && old(api.log) <= api.log
    ensures api.h.cluster.paused && !api.h.cluster.deleting ==> OnlyStatusWritten(old(api.log), api.log)
    ensures r.Finished? ==>
      || (api.w.cluster.None? && New(old(api.heard), api.heard, Absent(TheCluster)))
      || Finish(api.w, api.h, old(api.log), api.log)
    ensures r.RequeueAfter? ==>
      && !api.h.cluster.deleting && !api.h.cluster.paused
      && (Clashed(r.seconds, api.h, old(api.heard), api.heard) || Postponed(r.seconds, api.w, api.h))
    ensures r.Failed? ==> Explained(r.error, api.h, old(api.heard), api.heard)
  {
    var got := api.BeginRun();
    if got.Err? {
      return if got.error.NotFound? then Finished else Failed(got.error);
    }
    ghost var a1 := api.heard;
    r := ReconcileCluster(api, got.value, d);
    AccountedEarlier(Some(r), api.h, old(api.heard), a1, api.heard);
  }

  /** Any number of runs, with anything in `Between` before each, make a history of safe steps. */
  method Operate(api: ApiServer, d: OperatorDefaults, runs: nat)
    requires Good(api) && api.exclusive
    modifies api
    ensures Good(api) && old(api.log) <= api.log
    ensures Traces.Trace(true, api.init, api.log, api.w)
  {
    for run := 0 to runs
      invariant Good(api) && old(api.log) <= api.log
    {
      api.Pause();
      var _ := Reconcile(api, d);
    }
    Traces.OperatorMakesTraces(api);
  }

  /**
   Any number of runs on a cluster that is being deleted. Nobody has to leave the StatefulSet
   alone: others may delete it and create another one of its name at any moment.
   */
  method OperateDeletions(api: ApiServer, runs: nat)
    requires Good(api)
    modifies api
    ensures Good(api) && old(api.log) <= api.log
    ensures Traces.Trace(api.exclusive, api.init, api.log, api.w)
  {
    for run := 0 to runs
      invariant Good(api) && old(api.log) <= api.log
    {
      api.Pause();
      var got := api.BeginRun();
      if got.Ok? && got.value.deleting {
        var rmq := new RabbitmqCluster(got.value);
        var _ := PrepareForDeletion(api, rmq);
      }
    }
    Traces.OperatorMakesTraces(api);
  }
}
