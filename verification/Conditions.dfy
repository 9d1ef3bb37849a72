/** The status conditions of a RabbitmqCluster. */
module Conditions {
  import opened Wrappers
  import opened Text

  datatype ConditionStatus = True | False | Unknown
  datatype ConditionType = AllReplicasReady | ClusterAvailable | NoWarnings | ReconcileSuccess | Other(name: string)

  /** `lastTransition` is a clock reading. */
  datatype Condition =
    Condition(ctype: ConditionType, status: ConditionStatus, lastTransition: int, reason: string, message: string)

  // ---------- the child resources that conditions are computed from ----------

  /** What the conditions read of a StatefulSet. Go's nil pointers are None. */
  datatype StatefulSetView =
    StatefulSetView(replicas: Option<int>, ready: int, memoryLimit: Option<int>, memoryRequest: Option<int>)

  /** An Endpoints object is the number of addresses in each of its subsets. */
  datatype Resource =
    | StatefulSetResource(sts: Option<StatefulSetView>)
    | EndpointsResource(subsets: Option<seq<nat>>)
    | OtherResource

  function Desired(s: StatefulSetView): int { if s.replicas.Some? then s.replicas.value else 1 }

  /** A missing quantity compares as zero. */
  function Quantity(q: Option<int>): int { if q.Some? then q.value else 0 }

  datatype Verdict = Verdict(status: ConditionStatus, reason: string, message: string)

  const INITIAL := Verdict(Unknown, "", "")

  function PodsReady(s: StatefulSetView): string { Itoa(s.ready) + "/" + Itoa(Desired(s)) + " Pods ready" }

  ghost function AllReplicasVerdict(resources: seq<Resource>, v: Verdict): Verdict {
    if resources == [] then v
    else match resources[0]
      case StatefulSetResource(None) => Verdict(Unknown, "MissingStatefulSet", "Could not find StatefulSet")
      case StatefulSetResource(Some(s)) =>
        if Desired(s) == s.ready then Verdict(True, "AllPodsAreReady", v.message)
        else AllReplicasVerdict(resources[1..], Verdict(False, "NotAllPodsReady", PodsReady(s)))
      case _ => AllReplicasVerdict(resources[1..], v)
  }

  const NO_ENDPOINTS := Verdict(False, "NoEndpointsAvailable", "The service has no endpoints available")

  ghost function AvailableVerdict(resources: seq<Resource>, v: Verdict): Verdict {
    if resources == [] then v
    else match resources[0]
      case EndpointsResource(None) =>
        Verdict(Unknown, "CouldNotRetrieveEndpoints", "Could not verify available service endpoints")
      case EndpointsResource(Some(subsets)) =>
        if exists n :: n in subsets && n > 0 then Verdict(True, "AtLeastOneEndpointAvailable", v.message)
        else AvailableVerdict(resources[1..], NO_ENDPOINTS)
      case _ => AvailableVerdict(resources[1..], v)
  }

  ghost function WarningsVerdict(resources: seq<Resource>, v: Verdict): Verdict {
    if resources == [] then v
    else match resources[0]
      case StatefulSetResource(None) => Verdict(Unknown, "MissingStatefulSet", "Could not find StatefulSet")
      case StatefulSetResource(Some(s)) =>
        if Quantity(s.memoryLimit) != Quantity(s.memoryRequest) then
          Verdict(False, "MemoryRequestAndLimitDifferent",
                  "RabbitMQ container memory resource request and limit must be equal")
        else WarningsVerdict(resources[1..], Verdict(True, "NoWarnings", v.message))
      case _ => WarningsVerdict(resources[1..], v)
  }

  /** A verdict turned into a condition: the old transition time survives unless the status moved. */
  ghost function Judged(t: ConditionType, v: Verdict, prev: Option<Condition>, now: int): Condition {
    Condition(t, v.status, if prev.Some? && prev.value.status == v.status then prev.value.lastTransition else now,
              v.reason, v.message)
  }

  method AllReplicasReadyCondition(resources: seq<Resource>, prev: Option<Condition>, now: int) returns (c: Condition)
    ensures c == Judged(AllReplicasReady, AllReplicasVerdict(resources, INITIAL), prev, now)
  {
    c := Condition(AllReplicasReady, Unknown, if prev.Some? then prev.value.lastTransition else 0, "", "");
    label assignLastTransitionTime:
    for i := 0 to |resources|
      invariant c.ctype == AllReplicasReady && (prev.Some? ==> c.lastTransition == prev.value.lastTransition)
      invariant AllReplicasVerdict(resources, INITIAL)
             == AllReplicasVerdict(resources[i..], Verdict(c.status, c.reason, c.message))
    {
      match resources[i] {
        case StatefulSetResource(None) =>
          c := c.(status := Unknown, reason := "MissingStatefulSet", message := "Could not find StatefulSet");
          break assignLastTransitionTime;
        case StatefulSetResource(Some(s)) =>
          var desired := 1;
          if s.replicas.Some? { desired := s.replicas.value; }
          if desired == s.ready {
            c := c.(status := True, reason := "AllPodsAreReady");
            break assignLastTransitionTime;
          }
          c := c.(status := False, reason := "NotAllPodsReady", message := PodsReady(s));
        case _ =>
      }
    }
    if prev.None? || prev.value.status != c.status { c := c.(lastTransition := now); }
  }

  method ClusterAvailableCondition(resources: seq<Resource>, prev: Option<Condition>, now: int) returns (c: Condition)
    ensures c == Judged(ClusterAvailable, AvailableVerdict(resources, INITIAL), prev, now)
  {
    c := Condition(ClusterAvailable, Unknown, if prev.Some? then prev.value.lastTransition else 0, "", "");
    label assignLastTransitionTime:
    for i := 0 to |resources|
      invariant c.ctype == ClusterAvailable && (prev.Some? ==> c.lastTransition == prev.value.lastTransition)
      invariant AvailableVerdict(resources, INITIAL)
             == AvailableVerdict(resources[i..], Verdict(c.status, c.reason, c.message))
    {
      match resources[i] {
        case EndpointsResource(None) =>
          c := c.(status := Unknown, reason := "CouldNotRetrieveEndpoints",
                  message := "Could not verify available service endpoints");
          break assignLastTransitionTime;
        case EndpointsResource(Some(subsets)) =>
          ghost var before := c;
          for k := 0 to |subsets|
            invariant c == before && forall j :: 0 <= j < k ==> subsets[j] == 0
          {
            if subsets[k] > 0 {
              assert subsets[k] in subsets;
              c := c.(status := True, reason := "AtLeastOneEndpointAvailable");
              break assignLastTransitionTime;
            }
          }
          c := c.(status := False, reason := "NoEndpointsAvailable",
                  message := "The service has no endpoints available");
        case _ =>
      }
    }
    if prev.None? || prev.value.status != c.status { c := c.(lastTransition := now); }
  }

  method NoWarningsCondition(resources: seq<Resource>, prev: Option<Condition>, now: int) returns (c: Condition)
    ensures c == Judged(NoWarnings, WarningsVerdict(resources, INITIAL), prev, now)
  {
    c := Condition(NoWarnings, Unknown, if prev.Some? then prev.value.lastTransition else 0, "", "");
    label assignLastTransitionTime:
    for i := 0 to |resources|
      invariant c.ctype == NoWarnings && (prev.Some? ==> c.lastTransition == prev.value.lastTransition)
      invariant WarningsVerdict(resources, INITIAL)
             == WarningsVerdict(resources[i..], Verdict(c.status, c.reason, c.message))
    {
      match resources[i] {
        case StatefulSetResource(None) =>
          c := c.(status := Unknown, reason := "MissingStatefulSet", message := "Could not find StatefulSet");
          break assignLastTransitionTime;
        case StatefulSetResource(Some(s)) =>
          if Quantity(s.memoryLimit) != Quantity(s.memoryRequest) {
            c := c.(status := False, reason := "MemoryRequestAndLimitDifferent",
                    message := "RabbitMQ container memory resource request and limit must be equal");
            break assignLastTransitionTime;
          }
          c := c.(status := True, reason := "NoWarnings");
        case _ =>
      }
    }
    if prev.None? || prev.value.status != c.status { c := c.(lastTransition := now); }
  }

  /**
   What the three computed conditions say about the two resources the controller passes in: all
   replicas are ready when as many are ready as are wanted, one if nothing is said about that; the
   cluster is available when some subset of the endpoints has an address; there is a warning when
   memory limit and request are different.
   */
  lemma VerdictsMean(sts: Option<StatefulSetView>, endpoints: Option<seq<nat>>)
    ensures
      var v := AllReplicasVerdict([StatefulSetResource(sts), EndpointsResource(endpoints)], INITIAL);
      match sts
      case None => v.status == Unknown && v.reason == "MissingStatefulSet"
      case Some(s) =>
        if s.replicas == Some(s.ready) || (s.replicas == None && s.ready == 1)
        then v.status == True && v.reason == "AllPodsAreReady"
        else v.status == False && v.reason == "NotAllPodsReady"
    ensures
      var v := AvailableVerdict([StatefulSetResource(sts), EndpointsResource(endpoints)], INITIAL);
      match endpoints
      case None => v.status == Unknown && v.reason == "CouldNotRetrieveEndpoints"
      case Some(subsets) =>
        if exists n :: n in subsets && n > 0 then v.status == True && v.reason == "AtLeastOneEndpointAvailable"
        else v.status == False && v.reason == "NoEndpointsAvailable"
    ensures
      var v := WarningsVerdict([StatefulSetResource(sts), EndpointsResource(endpoints)], INITIAL);
      match sts
      case None => v.status == Unknown && v.reason == "MissingStatefulSet"
      case Some(s) =>
        if || s.memoryLimit == s.memoryRequest
           || (s.memoryLimit == None && s.memoryRequest == Some(0))
           || (s.memoryLimit == Some(0) && s.memoryRequest == None)
        then v.status == True && v.reason == "NoWarnings"
        else v.status == False && v.reason == "MemoryRequestAndLimitDifferent"
  {
    var r := [StatefulSetResource(sts), EndpointsResource(endpoints)];
    assert r[0] == StatefulSetResource(sts) && r[1..] == [EndpointsResource(endpoints)];
    match sts
    case None =>
      OneEndpoints(endpoints);
    case Some(s) =>
      NotAboutEndpoints(endpoints, Verdict(False, "NotAllPodsReady", PodsReady(s)));
      NotAboutEndpoints(endpoints, Verdict(True, "NoWarnings", ""));
      OneEndpoints(endpoints);
  }

  lemma NotAboutEndpoints(endpoints: Option<seq<nat>>, v: Verdict)
    ensures AllReplicasVerdict([EndpointsResource(endpoints)], v) == v
    ensures WarningsVerdict([EndpointsResource(endpoints)], v) == v
  {
    assert [EndpointsResource(endpoints)][1..] == [];
  }

  lemma OneEndpoints(endpoints: Option<seq<nat>>)
    ensures
      var v := AvailableVerdict([EndpointsResource(endpoints)], INITIAL);
      match endpoints
      case None => v.status == Unknown && v.reason == "CouldNotRetrieveEndpoints"
      case Some(subsets) =>
        if exists n :: n in subsets && n > 0 then v.status == True && v.reason == "AtLeastOneEndpointAvailable"
        else v == NO_ENDPOINTS
  {
    assert [EndpointsResource(endpoints)][1..] == [];
  }

  // ---------- SetConditions and SetCondition ----------

  /** The clock readings one evaluation takes, in the order in which it takes them. */
  datatype Readings = Readings(ready: int, available: int, warnings: int, reconcile: int)

  /** The last condition of a type, which is the one an evaluation carries over. */
  ghost function LastOf(cs: seq<Condition>, t: ConditionType): Option<Condition> {
    if cs == [] then None
    else if cs[|cs| - 1].ctype == t then Some(cs[|cs| - 1])
    else LastOf(cs[..|cs| - 1], t)
  }

  ghost function Evaluated(cs: seq<Condition>, resources: seq<Resource>, now: Readings): seq<Condition> {
    [Judged(AllReplicasReady, AllReplicasVerdict(resources, INITIAL), LastOf(cs, AllReplicasReady), now.ready),
     Judged(ClusterAvailable, AvailableVerdict(resources, INITIAL), LastOf(cs, ClusterAvailable), now.available),
     Judged(NoWarnings, WarningsVerdict(resources, INITIAL), LastOf(cs, NoWarnings), now.warnings),
     if LastOf(cs, ReconcileSuccess).Some? then LastOf(cs, ReconcileSuccess).value
     else Condition(ReconcileSuccess, Unknown, now.reconcile, "Initialising", "")]
  }

  ghost function Updated(c: Condition, status: ConditionStatus, reason: string, message: string, now: int): Condition {
    Condition(c.ctype, status, if c.status != status then now else c.lastTransition, reason, message)
  }

  /** The first condition of the type is updated in place, if there is one. */
  ghost function Assigned(cs: seq<Condition>, t: ConditionType, status: ConditionStatus, reason: string,
        message: string, now: int): (r: seq<Condition>)
    ensures |r| == |cs|
  {
    if cs == [] then []
    else if cs[0].ctype == t then [Updated(cs[0], status, reason, message, now)] + cs[1..]
    else [cs[0]] + Assigned(cs[1..], t, status, reason, message, now)
  }

  /** Where applications find the cluster: the names of its Service and, unless Vault keeps it, of the user's Secret. */
  datatype DefaultUser = DefaultUser(service: string, secret: Option<string>)

  class ClusterStatus {
    var conditions: seq<Condition>
    var observedGeneration: int
    var defaultUser: Option<DefaultUser>
    var binding: Option<string>

    constructor (conditions: seq<Condition>, observedGeneration: int,
        defaultUser: Option<DefaultUser>, binding: Option<string>)
      ensures this.conditions == conditions && this.observedGeneration == observedGeneration
      ensures this.defaultUser == defaultUser && this.binding == binding
    {
      this.conditions, this.observedGeneration := conditions, observedGeneration;
      this.defaultUser, this.binding := defaultUser, binding;
    }

    method SetConditions(resources: seq<Resource>, now: Readings)
      modifies this`conditions
      ensures conditions == Evaluated(old(conditions), resources, now)
    {
      var ready, available, warnings, reconcile: Option<Condition> := None, None, None, None;
      for i := 0 to |conditions|
        invariant conditions == old(conditions)
        invariant ready == LastOf(conditions[..i], AllReplicasReady)
        invariant available == LastOf(conditions[..i], ClusterAvailable)
        invariant warnings == LastOf(conditions[..i], NoWarnings)
        invariant reconcile == LastOf(conditions[..i], ReconcileSuccess)
      {
        assert conditions[..i + 1][..i] == conditions[..i];
        match conditions[i].ctype {
          case AllReplicasReady => ready := Some(conditions[i]);
          case ClusterAvailable => available := Some(conditions[i]);
          case NoWarnings => warnings := Some(conditions[i]);
          case ReconcileSuccess => reconcile := Some(conditions[i]);
          case Other(_) =>
        }
      }
      assert conditions[..|conditions|] == conditions;
      var c0 := AllReplicasReadyCondition(resources, ready, now.ready);
      var c1 := ClusterAvailableCondition(resources, available, now.available);
      var c2 := NoWarningsCondition(resources, warnings, now.warnings);
      var c3 := if reconcile.Some? then reconcile.value
                else Condition(ReconcileSuccess, Unknown, now.reconcile, "Initialising", "");
      conditions := [c0, c1, c2, c3];
    }

    method SetCondition(t: ConditionType, status: ConditionStatus, reason: string, messages: seq<string>, now: int)
      modifies this`conditions
      ensures conditions == Assigned(old(conditions), t, status, reason, Join(messages, ". "), now)
    {
      var message := Join(messages, ". ");
      for i := 0 to |conditions|
        invariant conditions == old(conditions)
        invariant forall k :: 0 <= k < i ==> conditions[k].ctype != t
      {
        if conditions[i].ctype == t {
          AssignedFirst(conditions, t, status, reason, message, now, i);
          var c := conditions[i];
          if c.status != status { c := c.(lastTransition := now); }
          c := c.(status := status);
          c := c.(reason := reason, message := message);
          conditions := conditions[i := c];
          return;
        }
      }
      AssignedNone(conditions, t, status, reason, message, now);
    }
  }

  lemma {:induction false} AssignedFirst(cs: seq<Condition>, t: ConditionType, status: ConditionStatus, reason: string,
        message: string, now: int, k: nat)
    requires k < |cs| && cs[k].ctype == t && forall i :: 0 <= i < k ==> cs[i].ctype != t
    ensures Assigned(cs, t, status, reason, message, now) == cs[k := Updated(cs[k], status, reason, message, now)]
  {
    if k > 0 { AssignedFirst(cs[1..], t, status, reason, message, now, k - 1); }
  }

  lemma {:induction false} AssignedNone(cs: seq<Condition>, t: ConditionType, status: ConditionStatus, reason: string,
        message: string, now: int)
    requires forall i :: 0 <= i < |cs| ==> cs[i].ctype != t
    ensures Assigned(cs, t, status, reason, message, now) == cs
  {
    if cs != [] { AssignedNone(cs[1..], t, status, reason, message, now); }
  }

  // ---------- histories ----------

  datatype Event =
    | Evaluate(resources: seq<Resource>, readings: Readings)
    | Assign(ctype: ConditionType, status: ConditionStatus, reason: string, message: string, now: int)

  ghost function After(cs: seq<Condition>, e: Event): seq<Condition> {
    match e
    case Evaluate(resources, now) => Evaluated(cs, resources, now)
    case Assign(t, status, reason, message, now) => Assigned(cs, t, status, reason, message, now)
  }

  /** The conditions after a history that starts from an empty status. */
  ghost function History(events: seq<Event>): seq<Condition> {
    if events == [] then [] else After(History(events[..|events| - 1]), events[|events| - 1])
  }

  const TYPES: seq<ConditionType> := [AllReplicasReady, ClusterAvailable, NoWarnings, ReconcileSuccess]

  /** Four conditions of the four types, in fixed order. */
  ghost predicate FourInOrder(cs: seq<Condition>) {
    |cs| == 4 && forall k :: 0 <= k < 4 ==> cs[k].ctype == TYPES[k]
  }

  lemma FourLastOf(cs: seq<Condition>)
    requires FourInOrder(cs)
    ensures forall k :: 0 <= k < 4 ==> LastOf(cs, TYPES[k]) == Some(cs[k])
  {
    var c3 := cs[..3];
    var c2 := c3[..2];
    var c1 := c2[..1];
    assert LastOf(cs, TYPES[3]) == Some(cs[3]);
    assert forall k :: 0 <= k < 3 ==> LastOf(cs, TYPES[k]) == LastOf(c3, TYPES[k]);
    assert forall k :: 0 <= k < 2 ==> LastOf(c3, TYPES[k]) == LastOf(c2, TYPES[k]);
    assert LastOf(c2, TYPES[0]) == LastOf(c1, TYPES[0]) == Some(cs[0]);
    assert LastOf(c2, TYPES[1]) == Some(cs[1]);
    assert LastOf(c3, TYPES[2]) == Some(cs[2]);
  }

  lemma {:induction false} AssignedAt(cs: seq<Condition>, t: ConditionType, status: ConditionStatus, reason: string,
        message: string, now: int, k: nat)
    requires k < |cs| && forall i :: 0 <= i < |cs| && i != k ==> cs[i].ctype != cs[k].ctype
    ensures Assigned(cs, t, status, reason, message, now)[k]
         == if cs[k].ctype == t then Updated(cs[k], status, reason, message, now) else cs[k]
  {
    if k > 0 {
      if cs[0].ctype != t {
        AssignedAt(cs[1..], t, status, reason, message, now, k - 1);
      }
    }
  }

  /** An assignment keeps the shape, and shows its status under its type. */
  lemma AssignedShape(cs: seq<Condition>, k: nat, status: ConditionStatus, reason: string, message: string, now: int)
    requires FourInOrder(cs) && k < 4
    ensures FourInOrder(Assigned(cs, TYPES[k], status, reason, message, now))
    ensures
      var c := Assigned(cs, TYPES[k], status, reason, message, now)[k];
      c.status == status && c.reason == reason && c.message == message
    ensures forall j :: 0 <= j < 4 && j != k ==> Assigned(cs, TYPES[k], status, reason, message, now)[j] == cs[j]
  {
    forall j | 0 <= j < 4
      ensures Assigned(cs, TYPES[k], status, reason, message, now)[j].ctype == TYPES[j]
      ensures j != k ==> Assigned(cs, TYPES[k], status, reason, message, now)[j] == cs[j]
    {
      AssignedAt(cs, TYPES[k], status, reason, message, now, j);
    }
    AssignedAt(cs, TYPES[k], status, reason, message, now, k);
  }

  lemma {:induction false} HistoryShape(events: seq<Event>)
    ensures History(events) == [] || FourInOrder(History(events))
  {
    if events != [] {
      var cs, e := History(events[..|events| - 1]), events[|events| - 1];
      HistoryShape(events[..|events| - 1]);
      if e.Assign? && cs != [] {
        forall k | 0 <= k < 4 ensures History(events)[k].ctype == TYPES[k] {
          AssignedAt(cs, e.ctype, e.status, e.reason, e.message, e.now, k);
        }
      } else if e.Evaluate? && cs != [] {
        FourLastOf(cs);
      }
    }
  }

  /** The status the conditions show for the k-th type; None before the first evaluation. */
  ghost function StatusAt(events: seq<Event>, k: nat): Option<ConditionStatus> {
    var cs := History(events);
    if k < |cs| then Some(cs[k].status) else None
  }

  /** The clock reading that belongs to the k-th type in an event. */
  function Reading(e: Event, k: nat): int {
    match e
    case Evaluate(_, r) =>
      if k == 0 then r.ready else if k == 1 then r.available else if k == 2 then r.warnings else r.reconcile
    case Assign(_, _, _, _, now) => now
  }

  /** The time of the last event across which the shown status changed, creation included. */
  ghost function LastChange(events: seq<Event>, k: nat): Option<int> {
    if events == [] then None
    else if StatusAt(events[..|events| - 1], k) != StatusAt(events, k) then Some(Reading(events[|events| - 1], k))
    else LastChange(events[..|events| - 1], k)
  }

  /**
   Over every history of evaluations and assignments, and for each of the four types, the
   transition time shown is the time of the last change of the status shown.
   */
  lemma {:induction false} TransitionTimeIsLastChange(events: seq<Event>, k: nat)
    requires k < 4
    ensures
      var cs := History(events);
      LastChange(events, k) == if k < |cs| then Some(cs[k].lastTransition) else None
  {
    if events != [] {
      var init, e := events[..|events| - 1], events[|events| - 1];
      var cs := History(init);
      TransitionTimeIsLastChange(init, k);
      HistoryShape(init);
      if cs != [] {
        if e.Evaluate? {
          FourLastOf(cs);
        } else {
          AssignedAt(cs, e.ctype, e.status, e.reason, e.message, e.now, k);
        }
      }
    }
  }

  /**
   Evaluation settles in one step from any conditions at all, and a later evaluation of the same
   child resources, whenever it happens, changes nothing.
   */
  lemma EvaluationIsStable(cs: seq<Condition>, resources: seq<Resource>, now: Readings, later: Readings)
    ensures FourInOrder(Evaluated(cs, resources, now))
    ensures Evaluated(Evaluated(cs, resources, now), resources, later) == Evaluated(cs, resources, now)
  {
    var once := Evaluated(cs, resources, now);
    assert LastOf(cs, ReconcileSuccess).Some? ==> LastOf(cs, ReconcileSuccess).value.ctype == ReconcileSuccess by {
      LastOfType(cs, ReconcileSuccess);
    }
    assert FourInOrder(once);
    FourLastOf(once);
    assert TYPES[0] == AllReplicasReady && TYPES[1] == ClusterAvailable;
    assert TYPES[2] == NoWarnings && TYPES[3] == ReconcileSuccess;
  }

  lemma {:induction false} LastOfType(cs: seq<Condition>, t: ConditionType)
    ensures LastOf(cs, t).Some? ==> LastOf(cs, t).value.ctype == t
  {
    if cs != [] { LastOfType(cs[..|cs| - 1], t); }
  }
}
