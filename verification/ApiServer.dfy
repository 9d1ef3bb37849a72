/**
 The API server as the operator sees it.

 Each call first lets everybody else act (`Interfere`) and may then fail: a read without an
 answer, a write refused, lost on the way, or done with its answer lost. A run that stops after
 some call is a run whose later calls all fail, so whatever holds after every run holds wherever
 a run may stop.
 */
module Api {
  import opened Wrappers
  import opened Text
  import opened Timestamps
  import opened Annotations
  import opened ClusterSpec
  import opened Builders
  import opened Objects
  import opened Worlds
  import opened Steps

  /** What a call was about. */
  datatype Thing =
    | TheCluster | TheSts | TheConfig(which: Which) | TheClaim(index: int) | ThePod(uid: nat)
    | TheSecret(name: string) | TheEndpoints

  /** Why the operator itself does not go on, with the object it goes by. */
  datatype Reason =
    | SomebodyElses(found: StatefulSet)                    // another object controls it
    | Vanished(found: StatefulSet)                         // read before and gone now, so it cannot be created
    | StillThere                                           // deleted, and not gone when the wait was over
    | CannotShrink(found: StatefulSet)                     // less storage wanted, or storage where there was none
    | UnreadableMarker(cm: ConfigMap)                      // its plugin marker is no time
    | IncompleteSecret(name: string, keys: set<string>)    // a TLS key is missing
    | NonTLSDisabled                                       // neither TLS nor other listeners

  /** `Refused` stands for every refusal, lost call and lost answer; conflicts and missing objects are told apart. */
  datatype ApiError =
    | NotFound(thing: Thing) | Conflict(thing: Thing) | AlreadyExists(thing: Thing) | Refused
    | Declined(why: Reason)

  datatype Result<+T> = Ok(value: T) | Err(error: ApiError)

  // ---------- what the operator was answered ----------

  /** `Looked` is each look at the StatefulSet, whatever came of it. `NoAnswer` includes commands that failed. */
  datatype Answer =
    | NoAnswer | Absent(thing: Thing) | Clash(thing: Thing) | Exists(thing: Thing)
    | Looked | GotSts(sts: StatefulSet) | GotConfig(which: Which, cm: ConfigMap)
    | GotSecret(name: string, keys: set<string>)

  /** Between the two moments this answer was given, once at least. */
  ghost predicate New(a0: multiset<Answer>, a1: multiset<Answer>, x: Answer) { a0[x] < a1[x] }

  /** The answer an error of a call stands for. */
  ghost function AnswerOf(e: ApiError): Answer {
    match e
    case NotFound(thing) => Absent(thing)
    case Conflict(thing) => Clash(thing)
    case AlreadyExists(thing) => Exists(thing)
    case _ => NoAnswer
  }

  /** A decision of the operator is about an object it was given between the two moments. */
  ghost predicate Decided(why: Reason, a0: multiset<Answer>, a1: multiset<Answer>) {
    match why
    case SomebodyElses(s) => New(a0, a1, GotSts(s))
    case CannotShrink(s) => New(a0, a1, GotSts(s))
    case Vanished(s) => New(a0, a1, GotSts(s)) && New(a0, a1, Absent(TheSts))
    case StillThere => a0[Looked] + 10 <= a1[Looked]
    case UnreadableMarker(cm) => New(a0, a1, GotConfig(PluginsMap, cm))
    case IncompleteSecret(name, keys) => New(a0, a1, GotSecret(name, keys))
    case NonTLSDisabled => true
  }

  /** The error is an answer given between the two moments, or a decision about an object read between them. */
  ghost predicate Because(e: ApiError, a0: multiset<Answer>, a1: multiset<Answer>) {
    if e.Declined? then Decided(e.why, a0, a1) else New(a0, a1, AnswerOf(e))
  }

  /** One call about one thing: an error is its answer. */
  ghost predicate Answered<T>(r: Result<T>, thing: Thing, a0: multiset<Answer>, a1: multiset<Answer>) {
    && a0 <= a1
    && (r.Err? ==> Given(r.error, thing, a0, a1))
  }

  /** An error a call about this thing may be answered with, and was between the two moments. */
  ghost predicate Given(e: ApiError, thing: Thing, a0: multiset<Answer>, a1: multiset<Answer>) {
    Plain(e, thing) && New(a0, a1, AnswerOf(e))
  }

  ghost predicate Plain(e: ApiError, thing: Thing) { e == Refused || e == NotFound(thing) || e == Conflict(thing) }

  /** Conflicts about a thing, and vain looks for it. */
  ghost function Setbacks(a: multiset<Answer>, thing: Thing): nat { a[Clash(thing)] + a[Absent(thing)] }

  /** After some attempts that were conflicts or vain looks; once there was one, `r` is the answer to the last. */
  ghost predicate Tried<T>(attempts: nat, r: Result<T>, thing: Thing, a0: multiset<Answer>, a1: multiset<Answer>) {
    && a0 <= a1 && Setbacks(a0, thing) + attempts <= Setbacks(a1, thing)
    && (attempts > 0 && r.Err? ==> Given(r.error, thing, a0, a1))
  }

  /** One attempt more. */
  lemma TriedAgain<T>(attempts: nat, was: Result<T>, r: Result<T>, thing: Thing, a: multiset<Answer>,
        a0: multiset<Answer>, a1: multiset<Answer>)
    requires Tried(attempts, was, thing, a, a0) && Answered(r, thing, a0, a1)
    ensures Answered(r, thing, a, a1)
    ensures r.Err? && (r.error.Conflict? || r.error.NotFound?) ==> Tried(attempts + 1, r, thing, a, a1)
  {
  }

  /** The StatefulSet was read between the two moments. */
  ghost predicate SawSts(a0: multiset<Answer>, a1: multiset<Answer>) { exists s :: New(a0, a1, GotSts(s)) }

  lemma SawStsStays(a: multiset<Answer>, a0: multiset<Answer>, a1: multiset<Answer>, a2: multiset<Answer>)
    requires a <= a0 && a1 <= a2 && SawSts(a0, a1)
    ensures SawSts(a, a2)
  {
    var s :| New(a0, a1, GotSts(s));
    assert New(a, a2, GotSts(s));
  }

  /** What is heard between two moments is heard between an earlier and a later one. */
  lemma BecauseStays(e: ApiError, a: multiset<Answer>, a0: multiset<Answer>, a1: multiset<Answer>, a2: multiset<Answer>)
    requires a <= a0 && a1 <= a2 && Because(e, a0, a1)
    ensures Because(e, a, a2)
  {
  }

  predicate ConflictOrNotFound(e: ApiError) { e.Conflict? || e.NotFound? }

  /** `clientretry.DefaultRetry` and `retry.DefaultRetry` make five attempts. */
  const RETRIES: nat := 5

  // ---------- what the writes store ----------

  /** Status is not written through the object, and the generation counts changes of the specification. */
  function StoredCluster(c: Cluster, was: Cluster, revision: nat): Cluster {
    c.(uid := was.uid, version := revision, deleting := was.deleting,
       generation := if c.spec == was.spec then was.generation else was.generation + 1,
       conditions := was.conditions, observedGeneration := was.observedGeneration,
       defaultUser := was.defaultUser, binding := was.binding)
  }

  function StoredStatus(c: Cluster, was: Cluster, revision: nat): Cluster {
    was.(version := revision, conditions := c.conditions, observedGeneration := c.observedGeneration,
         defaultUser := c.defaultUser, binding := c.binding)
  }

  function StoredSts(s: StatefulSet, was: StatefulSet, revision: nat): StatefulSet {
    s.(uid := was.uid, version := revision, ready := was.ready,
       currentRevision := was.currentRevision, updateRevision := was.updateRevision, terminating := was.terminating)
  }

  ghost predicate ClusterPut(pre: World, c: Cluster, post: World) {
    && pre.cluster.Some? && pre.cluster.value.version == c.version
    && post == pre.(revision := pre.revision + 1,
                    cluster := Some(StoredCluster(c, pre.cluster.value, pre.revision + 1)))
  }

  ghost predicate StatusPut(pre: World, c: Cluster, post: World) {
    && pre.cluster.Some? && pre.cluster.value.version == c.version
    && post == pre.(revision := pre.revision + 1, cluster := Some(StoredStatus(c, pre.cluster.value, pre.revision + 1)))
  }

  ghost predicate StsPut(pre: World, s: StatefulSet, post: World) {
    && pre.sts.Some? && pre.sts.value.version == s.version
    && post == pre.(revision := pre.revision + 1, sts := Some(StoredSts(s, pre.sts.value, pre.revision + 1)))
  }

  ghost predicate StsCreated(pre: World, s: StatefulSet, post: World) {
    && pre.sts.None?
    && post == pre.(revision := pre.revision + 1, nextUid := pre.nextUid + 1,
                    sts := Some(s.(uid := pre.nextUid, version := pre.revision + 1,
                                   ready := 0, currentRevision := "", updateRevision := "", terminating := false)))
  }

  /** Gone at once, or marked and gone later, when its finalizers are done. */
  ghost predicate StsDeleted(pre: World, post: World) {
    && pre.sts.Some?
    && (post == pre.(sts := None)
        || post == pre.(revision := pre.revision + 1,
                        sts := Some(pre.sts.value.(version := pre.revision + 1, terminating := true))))
  }

  ghost predicate ConfigPut(pre: World, which: Which, cm: ConfigMap, post: World) {
    && Config(pre, which).Some? && Config(pre, which).value.version == cm.version
    && post == WithConfig(pre, which, cm.(version := pre.revision + 1)).(revision := pre.revision + 1)
  }

  ghost predicate ConfigCreated(pre: World, which: Which, cm: ConfigMap, post: World) {
    && Config(pre, which).None?
    && post == WithConfig(pre, which, cm.(version := pre.revision + 1)).(revision := pre.revision + 1)
  }

  ghost predicate ClaimPut(pre: World, i: int, c: Claim, post: World) {
    && i in pre.claims && pre.claims[i].version == c.version
    && post == pre.(revision := pre.revision + 1, claims := pre.claims[i := c.(version := pre.revision + 1)])
  }

  ghost predicate PodPut(pre: World, u: nat, p: Pod, post: World) {
    && u in pre.pods && pre.pods[u].version == p.version
    && post == pre.(revision := pre.revision + 1, pods := pre.pods[u := p.(version := pre.revision + 1)])
  }

  /** A text that was not from the future is not from the future later on. */
  lemma StillPast(exclusive: bool, u: string, w0: World, w1: World)
    requires Wellformed(w0) && Between(exclusive, w0, w1) && AtMost(u, Format(w0.clock))
    ensures AtMost(u, Format(w1.clock))
  {
    LaterClockLaterStamp(w0.clock, w1.clock);
    AtMostTransitive(u, Format(w0.clock), Format(w1.clock));
  }

  /** A ConfigMap written with a marker that is not from the future leaves a sound store. */
  lemma ConfigWriteKeeps(w: World, which: Which, cm: ConfigMap)
    requires Wellformed(w) && MarkerPast(w) && Config(w, which).Some?
    requires which.ConfMap? && SERVER_CONF_UPDATED_AT in cm.annotations ==>
      AtMost(cm.annotations[SERVER_CONF_UPDATED_AT], Format(w.clock))
    ensures
      var post := WithConfig(w, which, cm.(version := w.revision + 1)).(revision := w.revision + 1);
      Wellformed(post) && MarkerPast(post)
  {
  }

  /** A run that changes a text owes the marker. */
  ghost function AfterConfigPut(h: History, which: Which, was: ConfigMap, cm: ConfigMap, step: nat): History {
    if was.data != cm.data then h.(due := h.due[MarkerOf(which) := step]) else h
  }

  /** The run began at a moment that is not in the future. */
  ghost predicate Began(h: History, clock: DateTime)
    requires Valid(clock)
  {
    Valid(h.began) && h.began.offset == clock.offset && Instant(h.began) <= Instant(clock)
  }

  /** The run sends a status. */
  function Sending(h: History, c: Cluster): History { h.(shown := Some(c.conditions)) }

  class ApiServer {
    const exclusive: bool
    var w: World
    ghost var h: History
    ghost var log: seq<Step>
    ghost var heard: multiset<Answer>
    ghost const init: World

    ghost predicate Ready()
      reads this
    {
      Wellformed(w) && MarkerPast(w) && Linked(exclusive, init, log, w) && Remembers(h, log, |log|)
      && Began(h, w.clock)
    }

    constructor (exclusive: bool, w: World, ghost h: History)
      requires Wellformed(w) && MarkerPast(w) && h.due == map[] && Began(h, w.clock)
      ensures Ready() && this.exclusive == exclusive && this.w == w && init == w && log == []
    {
      this.exclusive, this.w, this.init, this.h, this.log, this.heard := exclusive, w, w, h, [], multiset{};
      RelyReflexive(exclusive, w);
    }

    /** The text `time.Now()` would be printed as. */
    function Now(): string
      reads this
    {
      Format(w.clock)
    }

    /** Everybody else acts. */
    method Interfere()
      requires Ready()
      modifies this`w
      ensures Ready() && Rely(exclusive, old(w), w)
    {
      RelyReflexive(exclusive, w);
      var next :| Between(exclusive, w, next) && ClaimsHold(w, next) && Wellformed(next);
      MarkerStaysPast(exclusive, w, next);
      LinkedMoves(exclusive, init, log, w, next);
      w := next;
    }

    /** Between two runs others may also create and resize claims. */
    method Pause()
      requires Ready()
      modifies this`w
      ensures Ready() && Between(exclusive, old(w), w)
    {
      RelyReflexive(exclusive, w);
      var next :| Between(exclusive, w, next) && Wellformed(next);
      MarkerStaysPast(exclusive, w, next);
      LinkedMoves(exclusive, init, log, w, next);
      w := next;
    }

    ghost method Record(s: Step)
      requires Linked(exclusive, init, log, s.pre) && Wellformed(s.post) && s.post == w
      requires s.h == h && Remembers(h, log, |log|)
      modifies this`log
      ensures Linked(exclusive, init, log, w) && log == old(log) + [s] && Remembers(h, log, |log|)
    {
      LinkedGrows(exclusive, init, log, s);
      RemembersMore(h, log, s, PluginsMarker);
      log := log + [s];
    }

    /** Records a step that makes a marker due, and that it does. */
    ghost method RecordDue(s: Step, m: Marker)
      requires Linked(exclusive, init, log, s.pre) && Wellformed(s.post) && s.post == w
      requires s.h == h && Remembers(h, log, |log|) && MakesDue(s, m)
      modifies this`log, this`h
      ensures Linked(exclusive, init, log, w) && log == old(log) + [s] && Remembers(h, log, |log|)
      ensures h == old(h).(due := old(h).due[m := |old(log)|])
    {
      LinkedGrows(exclusive, init, log, s);
      RemembersMore(h, log, s, m);
      log, h := log + [s], h.(due := h.due[m := |log|]);
    }

    /** Notes that a builder whose object is modelled has done its work. */
    ghost method Succeeded(b: Builder)
      requires Ready() && Evident(b, w, h.cluster.spec)
      modifies this`h
      ensures Ready() && h == old(h).(built := old(h).built + {b})
    {
      h := h.(built := h.built + {b});
    }

    /** Notes an answer. */
    ghost method Hear(a: Answer)
      modifies this`heard
      ensures old(heard) <= heard && New(old(heard), heard, a)
    {
      heard := heard + multiset{a};
    }

    /** Notes how a call about `thing` was answered. */
    ghost method Note<T>(r: Result<T>, thing: Thing)
      requires r.Err? ==> Plain(r.error, thing)
      modifies this`heard
      ensures Answered(r, thing, old(heard), heard)
    {
      if r.Err? {
        Hear(AnswerOf(r.error));
      }
    }

    ghost method NoteSts(r: Result<StatefulSet>)
      requires r.Err? ==> Plain(r.error, TheSts)
      modifies this`heard
      ensures Answered(r, TheSts, old(heard), heard)
      ensures New(old(heard), heard, Looked) && (r.Ok? ==> New(old(heard), heard, GotSts(r.value)))
    {
      Hear(Looked);
      if r.Ok? {
        Hear(GotSts(r.value));
      }
      Note(r, TheSts);
    }

    ghost method NoteConfig(which: Which, r: Result<ConfigMap>)
      requires r.Err? ==> Plain(r.error, TheConfig(which))
      modifies this`heard
      ensures Answered(r, TheConfig(which), old(heard), heard)
      ensures r.Ok? ==> New(old(heard), heard, GotConfig(which, r.value))
    {
      if r.Ok? {
        Hear(GotConfig(which, r.value));
      }
      Note(r, TheConfig(which));
    }

    ghost method NoteSecret(name: string, r: Result<set<string>>)
      requires r.Err? ==> Plain(r.error, TheSecret(name))
      modifies this`heard
      ensures Answered(r, TheSecret(name), old(heard), heard)
      ensures r.Ok? ==> New(old(heard), heard, GotSecret(name, r.value))
    {
      if r.Ok? {
        Hear(GotSecret(name, r.value));
      }
      Note(r, TheSecret(name));
    }

    // ---------- reads ----------

    /** The read a run starts with. */
    method BeginRun() returns (r: Result<Cluster>)
      requires Ready()
      modifies this`w, this`h, this`heard
      ensures Answered(r, TheCluster, old(heard), heard)
      ensures Ready() && Quiet(exclusive, old(log), log, old(w), w)
      ensures r.Ok? ==>
        && w.cluster == Some(r.value)
        && h == History(old(h).run + 1, w.clock, r.value, map[], map[], None, map[], {}, map[], false, None)
      ensures r.Err? ==> h == old(h) && (r.error.NotFound? ==> w.cluster.None?)
    {
      Interfere();
      r := Err(Refused);
      if * {
        // refused or lost
      } else if w.cluster.None? {
        r := Err(NotFound(TheCluster));
      } else {
        r := Ok(w.cluster.value);
        h := History(h.run + 1, w.clock, r.value, map[], map[], None, map[], {}, map[], false, None);
      }
      Note(r, TheCluster);
    }

    method GetSts(ghost site: Site) returns (r: Result<StatefulSet>)
      requires Ready()
      modifies this`w, this`h, this`heard
      ensures Answered(r, TheSts, old(heard), heard)
      ensures r.Ok? ==> New(old(heard), heard, GotSts(r.value))
      ensures New(old(heard), heard, Looked)
      ensures Ready() && Quiet(exclusive, old(log), log, old(w), w)
      ensures r.Ok? ==> w.sts == Some(r.value)
      ensures r.Err? ==> !r.error.Conflict? && (r.error.NotFound? ==> w.sts.None?)
      ensures h == if site.Elsewhere? then old(h)
                   else old(h).(seen := old(h).seen[site := if r.Ok? then Some(r.value) else None])
    {
      Interfere();
      r := Err(Refused);
      if * {
        // refused or lost
      } else if w.sts.None? {
        r := Err(NotFound(TheSts));
      } else {
        r := Ok(w.sts.value);
      }
      NoteSts(r);
      if !site.Elsewhere? {
        h := h.(seen := h.seen[site := if r.Ok? then Some(r.value) else None]);
      }
    }

    method GetConfig(which: Which) returns (r: Result<ConfigMap>)
      requires Ready()
      modifies this`w, this`heard
      ensures Answered(r, TheConfig(which), old(heard), heard)
      ensures r.Ok? ==> New(old(heard), heard, GotConfig(which, r.value))
      ensures Ready() && Quiet(exclusive, old(log), log, old(w), w)
      ensures r.Ok? ==> Config(w, which) == Some(r.value)
      ensures r.Err? ==> !r.error.Conflict? && (r.error.NotFound? ==> Config(w, which).None?)
    {
      Interfere();
      r := Err(Refused);
      if * {
        // refused or lost
      } else if Config(w, which).None? {
        r := Err(NotFound(TheConfig(which)));
      } else {
        r := Ok(Config(w, which).value);
      }
      NoteConfig(which, r);
    }

    method GetClaim(i: int) returns (r: Result<Claim>)
      requires Ready()
      modifies this`w, this`h, this`heard
      ensures Answered(r, TheClaim(i), old(heard), heard)
      ensures Ready() && Quiet(exclusive, old(log), log, old(w), w)
      ensures h == if r.Ok? then old(h).(claims := old(h).claims[i := r.value.request]) else old(h)
      ensures r.Ok? ==> i in w.claims && w.claims[i] == r.value
      ensures r.Err? ==> !r.error.Conflict? && (r.error.NotFound? ==> i !in w.claims)
    {
      Interfere();
      r := Err(Refused);
      if * {
        // refused or lost
      } else if i !in w.claims {
        r := Err(NotFound(TheClaim(i)));
      } else {
        r := Ok(w.claims[i]);
        h := h.(claims := h.claims[i := r.value.request]);
      }
      Note(r, TheClaim(i));
    }

    method GetEndpoints() returns (r: Result<seq<nat>>)
      requires Ready()
      modifies this`w, this`heard
      ensures Answered(r, TheEndpoints, old(heard), heard)
      ensures Ready() && Quiet(exclusive, old(log), log, old(w), w)
      ensures r.Ok? ==> w.endpoints == Some(r.value)
      ensures r.Err? ==> !r.error.Conflict? && (r.error.NotFound? ==> w.endpoints.None?)
    {
      Interfere();
      r := Err(Refused);
      if * {
        // refused or lost
      } else if w.endpoints.None? {
        r := Err(NotFound(TheEndpoints));
      } else {
        r := Ok(w.endpoints.value);
      }
      Note(r, TheEndpoints);
    }

    /** The keys of a secret. */
    method GetSecret(name: string) returns (r: Result<set<string>>)
      requires Ready()
      modifies this`w, this`heard
      ensures Answered(r, TheSecret(name), old(heard), heard)
      ensures r.Ok? ==> New(old(heard), heard, GotSecret(name, r.value))
      ensures Ready() && Quiet(exclusive, old(log), log, old(w), w)
      ensures r.Ok? ==> name in w.secrets && w.secrets[name] == r.value
    {
      Interfere();
      r := Err(Refused);
      if * {
        // refused or lost
      } else if name !in w.secrets {
        r := Err(NotFound(TheSecret(name)));
      } else {
        r := Ok(w.secrets[name]);
      }
      NoteSecret(name, r);
    }

    method ListPods() returns (r: Result<map<nat, Pod>>)
      requires Ready()
      modifies this`w, this`h, this`heard
      ensures Answered(r, ThePod(0), old(heard), heard)
      ensures Ready() && Quiet(exclusive, old(log), log, old(w), w)
      ensures r.Ok? ==> r.value == w.pods && h == old(h).(listed := Some(w.pods.Keys))
      ensures r.Err? ==> r.error == Refused && h == old(h)
    {
      Interfere();
      r := Err(Refused);
      if * {
        // refused or lost
      } else {
        r := Ok(w.pods);
        h := h.(listed := Some(w.pods.Keys));
      }
      Note(r, ThePod(0));
    }

    /** Create or update of an object this model does not look into. */
    method ReconcileOther(b: Builder) returns (ok: bool)
      requires Ready()
      modifies this`w, this`h, this`heard
      ensures old(heard) <= heard
      ensures !ok ==> New(old(heard), heard, NoAnswer)
      ensures Ready() && Quiet(exclusive, old(log), log, old(w), w)
      ensures h == if ok then old(h).(built := old(h).built + {b}) else old(h)
    {
      Interfere();
      ok := *;
      if ok {
        h := h.(built := h.built + {b});
      } else {
        Hear(NoAnswer);
      }
    }

    /** Runs a command in a pod. */
    method Exec(c: Command) returns (ok: bool)
      requires Ready()
      modifies this`w, this`h, this`heard
      ensures old(heard) <= heard
      ensures !ok ==> New(old(heard), heard, NoAnswer)
      ensures Ready() && Quiet(exclusive, old(log), log, old(w), w)
      ensures h == if ok then old(h).(ran := old(h).ran[c := w.revision]) else old(h)
    {
      Interfere();
      ok := *;
      if ok {
        h := h.(ran := h.ran[c := w.revision]);
      } else {
        Hear(NoAnswer);
      }
    }

    // ---------- writes ----------

    method StoreCluster(c: Cluster)
      requires Ready() && w.cluster.Some? && w.cluster.value.version == c.version && Admissible(c.spec, c.annotations)
      modifies this`w, this`log
      ensures Ready() && log == old(log) + [Step(Op.PutCluster, old(h), old(w), w)] && ClusterPut(old(w), c, w)
    {
      ghost var pre := w;
      w := w.(revision := w.revision + 1, cluster := Some(StoredCluster(c, w.cluster.value, w.revision + 1)));
      Record(Step(Op.PutCluster, h, pre, w));
    }

    method PutCluster(c: Cluster) returns (r: Result<Cluster>)
      requires Ready() && Admissible(c.spec, c.annotations)
      modifies this`w, this`log, this`h, this`heard
      ensures Answered(r, TheCluster, old(heard), heard)
      ensures Ready() && h == if r == Err(Conflict(TheCluster)) then old(h).(conflicted := true) else old(h)
      ensures Quiet(exclusive, old(log), log, old(w), w)
           || (Wrote(exclusive, old(log), log, Op.PutCluster, old(h), old(w), w)
               && ClusterPut(log[|old(log)|].pre, c, w))
      ensures r.Ok? ==> log != old(log) && w.cluster == Some(r.value)
      ensures r.Err? && !r.error.Refused? ==> log == old(log)
      ensures r.Err? && r.error.Conflict? ==> (w.cluster.Some? ==> w.cluster.value.version != c.version)
    {
      Interfere();
      r := Err(Refused);
      if * {
        // refused or lost
      } else if w.cluster.None? {
        r := Err(NotFound(TheCluster));
      } else if w.cluster.value.version != c.version {
        h := h.(conflicted := true);
        r := Err(Conflict(TheCluster));
      } else {
        StoreCluster(c);
        if * {
          r := Ok(w.cluster.value);
        }
      }
      Note(r, TheCluster);
    }

    method StoreStatus(c: Cluster)
      requires Ready() && w.cluster.Some? && w.cluster.value.version == c.version
      modifies this`w, this`log
      ensures Ready() && log == old(log) + [Step(Op.PutStatus, old(h), old(w), w)] && StatusPut(old(w), c, w)
    {
      ghost var pre := w;
      w := w.(revision := w.revision + 1, cluster := Some(StoredStatus(c, w.cluster.value, w.revision + 1)));
      Record(Step(Op.PutStatus, h, pre, w));
    }

    method PutStatus(c: Cluster) returns (r: Result<Cluster>)
      requires Ready()
      modifies this`w, this`log, this`h, this`heard
      ensures Answered(r, TheCluster, old(heard), heard)
      ensures Ready()
      ensures h == old(h).(shown := Some(c.conditions),
                           conflicted := old(h).conflicted || r == Err(Conflict(TheCluster)))
      ensures Quiet(exclusive, old(log), log, old(w), w)
           || (Wrote(exclusive, old(log), log, Op.PutStatus, Sending(old(h), c), old(w), w)
               && StatusPut(log[|old(log)|].pre, c, w))
      ensures r.Ok? ==> log != old(log) && w.cluster == Some(r.value)
      ensures r.Err? && !r.error.Refused? ==> log == old(log)
      ensures r.Err? && r.error.Conflict? ==> (w.cluster.Some? ==> w.cluster.value.version != c.version)
    {
      h := Sending(h, c);
      Interfere();
      r := Err(Refused);
      if * {
        // refused or lost
      } else if w.cluster.None? {
        r := Err(NotFound(TheCluster));
      } else if w.cluster.value.version != c.version {
        h := h.(conflicted := true);
        r := Err(Conflict(TheCluster));
      } else {
        StoreStatus(c);
        if * {
          r := Ok(w.cluster.value);
        }
      }
      Note(r, TheCluster);
    }

    method AddSts(s: StatefulSet)
      requires Ready() && w.sts.None?
      modifies this`w, this`log, this`h
      ensures Ready() && log == old(log) + [Step(Op.CreateSts, old(h), old(w), w)] && StsCreated(old(w), s, w)
      ensures h == old(h).(due := old(h).due[CreationMarker := |old(log)|])
    {
      ghost var pre := w;
      w := w.(revision := w.revision + 1, nextUid := w.nextUid + 1,
              sts := Some(s.(uid := w.nextUid, version := w.revision + 1,
                             ready := 0, currentRevision := "", updateRevision := "", terminating := false)));
      RecordDue(Step(Op.CreateSts, h, pre, w), CreationMarker);
    }

    method CreateSts(s: StatefulSet) returns (r: Result<StatefulSet>)
      requires Ready()
      modifies this`w, this`log, this`h, this`heard
      ensures old(heard) <= heard
      ensures r.Err? ==> r.error.Refused? || r.error == AlreadyExists(TheSts)
      ensures r.Err? ==> New(old(heard), heard, AnswerOf(r.error))
      ensures Ready()
      ensures (Quiet(exclusive, old(log), log, old(w), w) && h == old(h))
           || (Wrote(exclusive, old(log), log, Op.CreateSts, old(h), old(w), w) && StsCreated(log[|old(log)|].pre, s, w)
               && h == old(h).(due := old(h).due[CreationMarker := |old(log)|]))
      ensures r.Ok? ==> log != old(log) && w.sts == Some(r.value)
      ensures r.Err? && r.error.AlreadyExists? ==> w.sts.Some? && log == old(log)
    {
      Interfere();
      r := Err(Refused);
      if * {
        // refused or lost
      } else if w.sts.Some? {
        r := Err(AlreadyExists(TheSts));
      } else {
        AddSts(s);
        if * {
          r := Ok(w.sts.value);
        }
      }
      if r.Err? {
        Hear(AnswerOf(r.error));
      }
    }

    method StoreSts(s: StatefulSet)
      requires Ready() && w.sts.Some? && w.sts.value.version == s.version
      modifies this`w, this`log
      ensures Ready() && log == old(log) + [Step(Op.PutSts, old(h), old(w), w)] && StsPut(old(w), s, w)
    {
      ghost var pre := w;
      w := w.(revision := w.revision + 1, sts := Some(StoredSts(s, w.sts.value, w.revision + 1)));
      Record(Step(Op.PutSts, h, pre, w));
    }

    method PutSts(s: StatefulSet) returns (r: Result<StatefulSet>)
      requires Ready()
      modifies this`w, this`log, this`heard
      ensures Answered(r, TheSts, old(heard), heard)
      ensures Ready() && h == old(h)
      ensures Quiet(exclusive, old(log), log, old(w), w)
           || (Wrote(exclusive, old(log), log, Op.PutSts, h, old(w), w) && StsPut(log[|old(log)|].pre, s, w))
      ensures r.Ok? ==> log != old(log) && w.sts == Some(r.value)
      ensures r.Err? ==> (r.error.NotFound? ==> w.sts.None?)
      ensures r.Err? && !r.error.Refused? ==> log == old(log)
    {
      Interfere();
      r := Err(Refused);
      if * {
        // refused or lost
      } else if w.sts.None? {
        r := Err(NotFound(TheSts));
      } else if w.sts.value.version != s.version {
        r := Err(Conflict(TheSts));
      } else {
        StoreSts(s);
        if * {
          r := Ok(w.sts.value);
        }
      }
      Note(r, TheSts);
    }

    method RemoveSts(uid: Option<nat>)
      requires Ready() && w.sts.Some?
      modifies this`w, this`log
      ensures Ready() && log == old(log) + [Step(Op.DeleteSts(uid), old(h), old(w), w)] && StsDeleted(old(w), w)
    {
      ghost var pre := w;
      if * {
        w := w.(sts := None);
      } else {
        w := w.(revision := w.revision + 1, sts := Some(w.sts.value.(version := w.revision + 1, terminating := true)));
      }
      Record(Step(Op.DeleteSts(uid), h, pre, w));
    }

    /** Deletes by name; a precondition on the UID that does not hold is a conflict. */
    method DeleteSts(uid: Option<nat>) returns (r: Result<()>)
      requires Ready()
      modifies this`w, this`log, this`heard
      ensures Answered(r, TheSts, old(heard), heard)
      ensures Ready() && h == old(h)
      ensures Quiet(exclusive, old(log), log, old(w), w)
           || (Wrote(exclusive, old(log), log, Op.DeleteSts(uid), h, old(w), w) && StsDeleted(log[|old(log)|].pre, w)
               && (uid.Some? ==> log[|old(log)|].pre.sts.value.uid == uid.value))
      ensures r.Ok? ==> log != old(log)
      ensures r.Err? && r.error.NotFound? ==> w.sts.None?
    {
      Interfere();
      r := Err(Refused);
      if * {
        // refused or lost
      } else if w.sts.None? {
        r := Err(NotFound(TheSts));
      } else if uid.Some? && w.sts.value.uid != uid.value {
        r := Err(Conflict(TheSts));
      } else {
        RemoveSts(uid);
        if * {
          r := Ok(());
        }
      }
      Note(r, TheSts);
    }

    method AddConfig(which: Which, cm: ConfigMap)
      requires Ready() && Config(w, which).None? && MarkerKey(which) !in cm.annotations
      modifies this`w, this`log
      ensures Ready() && log == old(log) + [Step(Op.CreateConfig(which), old(h), old(w), w)]
      ensures ConfigCreated(old(w), which, cm, w)
    {
      ghost var pre := w;
      w := WithConfig(w, which, cm.(version := w.revision + 1)).(revision := w.revision + 1);
      Record(Step(Op.CreateConfig(which), h, pre, w));
    }

    method CreateConfig(which: Which, cm: ConfigMap) returns (r: Result<ConfigMap>)
      requires Ready() && MarkerKey(which) !in cm.annotations
      modifies this`w, this`log, this`heard
      ensures old(heard) <= heard
      ensures r.Err? ==> r.error.Refused? || r.error == AlreadyExists(TheConfig(which))
      ensures r.Err? ==> New(old(heard), heard, AnswerOf(r.error))
      ensures Ready() && h == old(h)
      ensures Quiet(exclusive, old(log), log, old(w), w)
           || (Wrote(exclusive, old(log), log, Op.CreateConfig(which), h, old(w), w)
               && ConfigCreated(log[|old(log)|].pre, which, cm, w))
      ensures r.Ok? ==> log != old(log) && Config(w, which) == Some(r.value)
      ensures r.Err? && r.error.AlreadyExists? ==> Config(w, which).Some? && log == old(log)
    {
      Interfere();
      r := Err(Refused);
      if * {
        // refused or lost
      } else if Config(w, which).Some? {
        r := Err(AlreadyExists(TheConfig(which)));
      } else {
        AddConfig(which, cm);
        if * {
          r := Ok(Config(w, which).value);
        }
      }
      if r.Err? {
        Hear(AnswerOf(r.error));
      }
    }

    method StoreConfig(which: Which, cm: ConfigMap)
      requires Ready() && Config(w, which).Some? && Config(w, which).value.version == cm.version
      requires which.ConfMap? && SERVER_CONF_UPDATED_AT in cm.annotations ==>
        AtMost(cm.annotations[SERVER_CONF_UPDATED_AT], Now())
      modifies this`w, this`log, this`h
      ensures Ready() && log == old(log) + [Step(Op.PutConfig(which), old(h), old(w), w)]
      ensures ConfigPut(old(w), which, cm, w)
      ensures h == AfterConfigPut(old(h), which, Config(old(w), which).value, cm, |old(log)|)
    {
      ghost var pre := w;
      ConfigWriteKeeps(w, which, cm);
      w := WithConfig(w, which, cm.(version := w.revision + 1)).(revision := w.revision + 1);
      if Config(pre, which).value.data != cm.data {
        RecordDue(Step(Op.PutConfig(which), h, pre, w), MarkerOf(which));
      } else {
        Record(Step(Op.PutConfig(which), h, pre, w));
      }
    }

    method PutConfig(which: Which, cm: ConfigMap) returns (r: Result<ConfigMap>)
      requires Ready()
      requires which.ConfMap? && SERVER_CONF_UPDATED_AT in cm.annotations ==>
        AtMost(cm.annotations[SERVER_CONF_UPDATED_AT], Now())
      modifies this`w, this`log, this`h, this`heard
      ensures Answered(r, TheConfig(which), old(heard), heard)
      ensures Ready()
      ensures (Quiet(exclusive, old(log), log, old(w), w) && h == old(h))
           || (Wrote(exclusive, old(log), log, Op.PutConfig(which), old(h), old(w), w)
               && ConfigPut(log[|old(log)|].pre, which, cm, w)
               && h == AfterConfigPut(old(h), which, Config(log[|old(log)|].pre, which).value, cm, |old(log)|))
      ensures r.Ok? ==> log != old(log) && Config(w, which) == Some(r.value)
      ensures r.Err? ==> (r.error.NotFound? ==> Config(w, which).None?)
      ensures r.Err? && !r.error.Refused? ==> log == old(log)
    {
      ghost var early := w;
      Interfere();
      if which.ConfMap? && SERVER_CONF_UPDATED_AT in cm.annotations {
        StillPast(exclusive, cm.annotations[SERVER_CONF_UPDATED_AT], early, w);
      }
      r := Err(Refused);
      if * {
        // refused or lost
      } else if Config(w, which).None? {
        r := Err(NotFound(TheConfig(which)));
      } else if Config(w, which).value.version != cm.version {
        r := Err(Conflict(TheConfig(which)));
      } else {
        StoreConfig(which, cm);
        if * {
          r := Ok(Config(w, which).value);
        }
      }
      Note(r, TheConfig(which));
    }

    method StoreClaim(i: int, c: Claim)
      requires Ready() && i in w.claims && w.claims[i].version == c.version
      modifies this`w, this`log
      ensures Ready() && log == old(log) + [Step(Op.PutClaim(i), old(h), old(w), w)] && ClaimPut(old(w), i, c, w)
    {
      ghost var pre := w;
      w := w.(revision := w.revision + 1, claims := w.claims[i := c.(version := w.revision + 1)]);
      Record(Step(Op.PutClaim(i), h, pre, w));
    }

    method PutClaim(i: int, c: Claim) returns (r: Result<Claim>)
      requires Ready()
      modifies this`w, this`log, this`heard
      ensures Answered(r, TheClaim(i), old(heard), heard)
      ensures Ready() && h == old(h)
      ensures Quiet(exclusive, old(log), log, old(w), w)
           || (Wrote(exclusive, old(log), log, Op.PutClaim(i), h, old(w), w) && ClaimPut(log[|old(log)|].pre, i, c, w))
      ensures r.Ok? ==> log != old(log)
    {
      Interfere();
      r := Err(Refused);
      if * {
        // refused or lost
      } else if i !in w.claims {
        r := Err(NotFound(TheClaim(i)));
      } else if w.claims[i].version != c.version {
        r := Err(Conflict(TheClaim(i)));
      } else {
        StoreClaim(i, c);
        if * {
          r := Ok(w.claims[i]);
        }
      }
      Note(r, TheClaim(i));
    }

    method StorePod(u: nat, p: Pod)
      requires Ready() && u in w.pods && w.pods[u].version == p.version
      modifies this`w, this`log
      ensures Ready() && log == old(log) + [Step(Op.PutPod(u), old(h), old(w), w)] && PodPut(old(w), u, p, w)
    {
      ghost var pre := w;
      w := w.(revision := w.revision + 1, pods := w.pods[u := p.(version := w.revision + 1)]);
      Record(Step(Op.PutPod(u), h, pre, w));
    }

    method PutPod(u: nat, p: Pod) returns (r: Result<Pod>)
      requires Ready()
      modifies this`w, this`log, this`heard
      ensures Answered(r, ThePod(u), old(heard), heard)
      ensures Ready() && h == old(h)
      ensures Quiet(exclusive, old(log), log, old(w), w)
           || (Wrote(exclusive, old(log), log, Op.PutPod(u), h, old(w), w) && PodPut(log[|old(log)|].pre, u, p, w))
      ensures r.Ok? ==> log != old(log)
      ensures r.Err? && r.error.NotFound? ==> log == old(log) && u !in w.pods
    {
      Interfere();
      r := Err(Refused);
      if * {
        // refused or lost
      } else if u !in w.pods {
        r := Err(NotFound(ThePod(u)));
      } else if w.pods[u].version != p.version {
        r := Err(Conflict(ThePod(u)));
      } else {
        StorePod(u, p);
        if * {
          r := Ok(w.pods[u]);
        }
      }
      Note(r, ThePod(u));
    }
  }
}
