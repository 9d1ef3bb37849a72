/** The two ConfigMaps the operator writes, and the annotations that remember work for later runs. */
module Configurations {
  import opened Wrappers
  import opened Text
  import opened Timestamps
  import opened Annotations
  import opened Plugins
  import opened Conditions
  import opened Builders
  import opened ClusterSpec
  import opened Objects
  import opened Worlds
  import opened Steps
  import opened Api
  import opened Runs

  /** What `controllerutil.CreateOrUpdate` reports. */
  datatype Operation = Created | Updated | Unchanged

  function DesiredData(which: Which, spec: Spec): string {
    if which.PluginsMap? then FileText(spec.plugins) else spec.serverConf
  }

  ghost predicate ConfigBuilt(which: Which, w: World, spec: Spec) {
    Config(w, which).Some? && Config(w, which).value.data == DesiredData(which, spec)
  }

  // ---------- one write of a ConfigMap ----------

  /** What a new text of a ConfigMap must not lose of the one it replaces. */
  ghost predicate KeepsWork(which: Which, h: History, was: ConfigMap, cm: ConfigMap) {
    if which.PluginsMap? then
      Marked(was.annotations, PLUGINS_UPDATED_AT) ==>
        Marked(cm.annotations, PLUGINS_UPDATED_AT) || (cm.data == was.data && PluginsSetEverywhere(h, was))
    else
      var before := Stamp(was.annotations, SERVER_CONF_UPDATED_AT);
      var after := Stamp(cm.annotations, SERVER_CONF_UPDATED_AT);
      before.Some? ==> after == before || (after.Some? && AtMost(before.value, after.value))
  }

  /** A marker that was not there before is one the run owes. */
  ghost predicate MayMark(which: Which, h: History, was: ConfigMap, cm: ConfigMap) {
    var key := MarkerKey(which);
    Stamp(cm.annotations, key).Some? && Stamp(cm.annotations, key) != Stamp(was.annotations, key) ==>
      MarkerOf(which) in h.due
  }

  lemma ConfigStepSafe(s: Step, which: Which, cm: ConfigMap)
    requires Building(s.h)
    requires Wellformed(s.pre) && Wellformed(s.post) && s.op == Op.PutConfig(which)
    requires ConfigPut(s.pre, which, cm, s.post)
    requires KeepsWork(which, s.h, Config(s.pre, which).value, cm)
    requires MayMark(which, s.h, Config(s.pre, which).value, cm)
    ensures SafeStep(s)
  {
    if which.PluginsMap? {
      assert s.post.conf == s.pre.conf;
    } else {
      assert s.post.plugins == s.pre.plugins;
    }
  }

  lemma ConfigWriteIsOnly(which: Which, w0: World, pre: World, post: World, cm: ConfigMap)
    requires Wellformed(w0) && Wellformed(post) && Rely(true, w0, pre)
    requires post == WithConfig(pre, which, cm).(revision := pre.revision + 1)
    ensures OnlyConfig(which, w0, post)
  {
    RelyIsOnly(w0, pre);
    RelyReflexive(true, post);
    if which.PluginsMap? {
      assert pre.(plugins := post.plugins) == post.(revision := pre.revision);
    } else {
      assert pre.(conf := post.conf) == post.(revision := pre.revision);
    }
    assert OnlyConfig(which, pre, post);
    OnlyConfigTransitive(which, w0, pre, post);
  }

  lemma ConfigCallSafe(log0: seq<Step>, log1: seq<Step>, h: History, w0: World, w1: World, which: Which,
        was: ConfigMap, cm: ConfigMap)
    requires Building(h)
    requires AllSafe(log0) && Wellformed(w0)
    requires Quiet(true, log0, log1, w0, w1)
          || (Wrote(true, log0, log1, Op.PutConfig(which), h, w0, w1) && ConfigPut(log1[|log0|].pre, which, cm, w1))
    requires ConfigAsRead(which, was, w0) && was.version == cm.version
    requires KeepsWork(which, h, was, cm) && MayMark(which, h, was, cm)
    ensures AllSafe(log1) && log0 <= log1 && OnlyConfig(which, w0, w1)
    ensures log1 == log0 ==> Rely(true, w0, w1)
    ensures log1 != log0 ==>
      && Config(log1[|log0|].pre, which) == Some(was)
      && Config(w1, which).Some? && Config(w1, which).value == cm.(version := Config(w1, which).value.version)
  {
    if log1 == log0 {
      RelyIsOnly(w0, w1);
    } else {
      var s := log1[|log0|];
      assert Config(s.pre, which) == Some(was);
      ConfigStepSafe(s, which, cm);
      AllSafeGrows(log0, log1);
      ConfigWriteIsOnly(which, w0, s.pre, s.post, cm.(version := s.pre.revision + 1));
    }
  }

  lemma ConfigCreationStepSafe(s: Step, which: Which, cm: ConfigMap)
    requires Building(s.h)
    requires Wellformed(s.pre) && Wellformed(s.post) && s.op == Op.CreateConfig(which)
    requires ConfigCreated(s.pre, which, cm, s.post)
    requires MarkerKey(which) !in cm.annotations
    ensures SafeStep(s)
  {
    if which.PluginsMap? {
      assert s.post.conf == s.pre.conf;
    } else {
      assert s.post.plugins == s.pre.plugins;
    }
  }

  lemma ConfigCreationSafe(log0: seq<Step>, log1: seq<Step>, h: History, w0: World, w1: World, which: Which,
        cm: ConfigMap)
    requires Building(h)
    requires AllSafe(log0) && Wellformed(w0)
    requires Quiet(true, log0, log1, w0, w1)
          || (Wrote(true, log0, log1, Op.CreateConfig(which), h, w0, w1)
              && ConfigCreated(log1[|log0|].pre, which, cm, w1))
    requires MarkerKey(which) !in cm.annotations
    ensures AllSafe(log1) && log0 <= log1 && OnlyConfig(which, w0, w1)
    ensures log1 != log0 ==> Config(w1, which).Some? && Config(w1, which).value.data == cm.data
  {
    if log1 == log0 {
      RelyIsOnly(w0, w1);
    } else {
      var s := log1[|log0|];
      ConfigCreationStepSafe(s, which, cm);
      AllSafeGrows(log0, log1);
      ConfigWriteIsOnly(which, w0, s.pre, s.post, cm.(version := s.pre.revision + 1));
    }
  }

  /** The write of a ConfigMap builder: the desired text, with what was annotated before or copied from the cluster. */
  ghost predicate TextWritten(s: Step, which: Which, copied: Annotation, data: string) {
    && Config(s.post, which).Some? && Config(s.post, which).value.data == data
    && s.post == WithConfig(s.pre, which, Config(s.post, which).value).(revision := s.pre.revision + 1)
    && (if Config(s.pre, which).Some? then
          && s.op == Op.PutConfig(which) && Config(s.pre, which).value.data != data
          && Config(s.post, which).value.annotations == Config(s.pre, which).value.annotations
        else
          s.op == Op.CreateConfig(which) && Config(s.post, which).value.annotations == Merged(true, map[], [copied]))
  }

  /** The create half: the text, with the cluster's annotations copied. */
  method CreateConfigFrom(api: ApiServer, which: Which, annotations: Annotation, data: string)
    returns (r: Result<Operation>)
    requires CanBuild(api) && MarkerKey(which) !in annotations && Config(api.w, which).None?
    modifies api
    ensures Good(api) && old(api.log) <= api.log && api.h == old(api.h) && OnlyConfig(which, old(api.w), api.w)
    ensures r.Ok? ==> r.value.Created? && Config(api.w, which).Some? && Config(api.w, which).value.data == data
    ensures r.Ok? ==> api.log != old(api.log)
    ensures api.log != old(api.log) ==>
      |api.log| == |old(api.log)| + 1 && TextWritten(api.log[|old(api.log)|], which, annotations, data)
    ensures old(api.heard) <= api.heard && (r.Err? ==> r.error == Refused && New(old(api.heard), api.heard, NoAnswer))
  {
    var copied := MergeWithFilter(true, map[], [annotations]);
    assert Merged(true, map[], [annotations][..0]) == map[];
    var cm := ConfigMap(0, data, copied);
    var created := api.CreateConfig(which, cm);
    ConfigCreationSafe(old(api.log), api.log, api.h, old(api.w), api.w, which, cm);
    r := if created.Ok? then Ok(Created) else Err(created.error);
  }

  /** The update half: nothing is written when the text is the desired one. */
  method UpdateConfigFrom(api: ApiServer, which: Which, got: ConfigMap, ghost annotations: Annotation, data: string)
    returns (r: Result<Operation>)
    requires CanBuild(api) && Config(api.w, which) == Some(got)
    modifies api
    ensures Good(api) && old(api.log) <= api.log && Owing(old(api.h), api.h) && OnlyConfig(which, old(api.w), api.w)
    ensures r.Ok? ==> Config(api.w, which).Some? && Config(api.w, which).value.data == data
    ensures r.Ok? ==> r.value == (if got.data == data then Unchanged else Updated)
    ensures r.Ok? ==> (r.value.Unchanged? <==> api.log == old(api.log))
    ensures r == Ok(Updated) ==> MarkerOf(which) in api.h.due
    ensures r.Err? && r.error.Conflict? ==> Quiet(true, old(api.log), api.log, old(api.w), api.w) && api.h == old(api.h)
    ensures api.log != old(api.log) ==>
      |api.log| == |old(api.log)| + 1 && TextWritten(api.log[|old(api.log)|], which, annotations, data)
    ensures Answered(r, TheConfig(which), old(api.heard), api.heard) && (r.Err? ==> !r.error.NotFound?)
  {
    if got.data == data {
      RelyReflexive(true, api.w);
      RelyIsOnly(api.w, api.w);
      return Ok(Unchanged);
    }
    var cm := got.(data := data);
    var put := api.PutConfig(which, cm);
    ConfigCallSafe(old(api.log), api.log, old(api.h), old(api.w), api.w, which, got, cm);
    r := if put.Ok? then Ok(Updated) else Err(put.error);
  }

  /** `controllerutil.CreateOrUpdate` of a ConfigMap. */
  method CreateOrUpdateConfig(api: ApiServer, which: Which, annotations: Annotation, data: string)
    returns (r: Result<Operation>)
    requires CanBuild(api) && MarkerKey(which) !in annotations
    modifies api
    ensures Good(api) && old(api.log) <= api.log && Owing(old(api.h), api.h) && OnlyConfig(which, old(api.w), api.w)
    ensures r.Ok? ==> Config(api.w, which).Some? && Config(api.w, which).value.data == data
    ensures r.Ok? && Config(old(api.w), which).None? ==> r.value.Created?
    ensures r.Ok? && Config(old(api.w), which).Some? ==>
      r.value == (if Config(old(api.w), which).value.data == data then Unchanged else Updated)
    ensures r.Ok? ==> (r.value.Unchanged? <==> api.log == old(api.log))
    ensures r == Ok(Updated) ==> MarkerOf(which) in api.h.due
    ensures r.Err? && r.error.Conflict? ==> Quiet(true, old(api.log), api.log, old(api.w), api.w) && api.h == old(api.h)
    ensures Answered(r, TheConfig(which), old(api.heard), api.heard) && (r.Err? ==> !r.error.NotFound?)
    ensures api.log != old(api.log) ==>
      |api.log| == |old(api.log)| + 1 && TextWritten(api.log[|old(api.log)|], which, annotations, data)
  {
    var got := api.GetConfig(which);
    RelyIsOnly(old(api.w), api.w);
    ghost var w1 := api.w;
    if got.Err? {
      if !got.error.NotFound? {
        return Err(got.error);
      }
      r := CreateConfigFrom(api, which, annotations, data);
      OnlyConfigTransitive(which, old(api.w), w1, api.w);
      return;
    }
    r := UpdateConfigFrom(api, which, got.value, annotations, data);
    OnlyConfigAfterQuiet(which, old(api.w), w1, api.w);
  }

  /** `clientretry.RetryOnConflict` around it. */
  method ReconcileConfigMap(api: ApiServer, which: Which, annotations: Annotation, data: string)
    returns (r: Result<Operation>)
    requires CanBuild(api) && MarkerKey(which) !in annotations
    modifies api
    ensures Good(api) && old(api.log) <= api.log && Owing(old(api.h), api.h) && OnlyConfig(which, old(api.w), api.w)
    ensures r.Ok? ==> Config(api.w, which).Some? && Config(api.w, which).value.data == data
    ensures r.Ok? && Config(old(api.w), which).None? ==> r.value.Created?
    ensures r.Ok? && Config(old(api.w), which).Some? ==>
      r.value == (if Config(old(api.w), which).value.data == data then Unchanged else Updated)
    ensures r.Ok? ==> (r.value.Unchanged? <==> api.log == old(api.log))
    ensures r == Ok(Updated) ==> MarkerOf(which) in api.h.due
    ensures api.log != old(api.log) ==>
      |api.log| == |old(api.log)| + 1 && TextWritten(api.log[|old(api.log)|], which, annotations, data)
    ensures Answered(r, TheConfig(which), old(api.heard), api.heard) && (r.Err? ==> !r.error.NotFound?)
    ensures r.Err? && r.error.Conflict? ==>
      Setbacks(old(api.heard), TheConfig(which)) + 5 <= Setbacks(api.heard, TheConfig(which))
  {
    RelyReflexive(true, api.w);
    r := Err(Conflict(TheConfig(which)));
    for attempt := 0 to RETRIES
      invariant CanBuild(api) && api.h == old(api.h) && Quiet(true, old(api.log), api.log, old(api.w), api.w)
      invariant r == Err(Conflict(TheConfig(which)))
      invariant Tried(attempt, r, TheConfig(which), old(api.heard), api.heard)
    {
      ghost var w0, a0, was := api.w, api.heard, r;
      r := CreateOrUpdateConfig(api, which, annotations, data);
      TriedAgain(attempt, was, r, TheConfig(which), old(api.heard), a0, api.heard);
      OnlyConfigAfterQuiet(which, old(api.w), w0, api.w);
      if r.Ok? || !r.error.Conflict? {
        return;
      }
    }
    RelyIsOnly(old(api.w), api.w);
  }

  // ---------- markers ----------

  lemma StampNotEmpty(t: DateTime)
    ensures Format(t) != ""
  {
    var s := DateText(t);
    assert |s| >= 1;
  }

  /** A marker value that is timely stays so: the clock goes on and others leave the marker alone. */
  lemma MarkerTiming(w0: World, w1: World, value: string)
    requires Wellformed(w0) && Rely(true, w0, w1) && Timely(w0, value)
    ensures Timely(w1, value)
  {
    StillPast(true, value, w0, w1);
    assert ConfStamp(w1) == ConfStamp(w0);
  }

  method PutMarker(api: ApiServer, which: Which, was: ConfigMap, value: string) returns (r: Result<()>)
    requires CanBuild(api) && Config(api.w, which) == Some(was) && value != ""
    requires MarkerOf(which) in api.h.due
    requires AtMost(value, api.Now())
    requires which.ConfMap? && ConfStamp(api.w).Some? ==> AtMost(ConfStamp(api.w).value, value)
    modifies api
    ensures Good(api) && old(api.log) <= api.log && api.h == old(api.h) && OnlyConfig(which, old(api.w), api.w)
    ensures Config(api.w, which).Some? && Config(api.w, which).value.data == was.data
    ensures r.Ok? ==> Stamp(Config(api.w, which).value.annotations, MarkerKey(which)) == Some(value)
    ensures Answered(r, TheConfig(which), old(api.heard), api.heard) && (r.Err? ==> !r.error.NotFound?)
    ensures r.Err? && (r.error.Conflict? || r.error.NotFound?) ==> Quiet(true, old(api.log), api.log, old(api.w), api.w)
  {
    var cm := was.(annotations := was.annotations[MarkerKey(which) := value]);
    assert KeepsWork(which, api.h, was, cm);
    var put := api.PutConfig(which, cm);
    ConfigCallSafe(old(api.log), api.log, old(api.h), old(api.w), api.w, which, was, cm);
    r := if put.Ok? then Ok(()) else Err(put.error);
  }

  /** A marker value that is not in the future and not older than the marker there is. */
  ghost predicate Timely(w: World, value: string)
    requires Valid(w.clock)
  {
    AtMost(value, Format(w.clock)) && (ConfStamp(w).Some? ==> AtMost(ConfStamp(w).value, value))
  }

  /** The ConfigMap, if it was there, is there still with the same text. */
  ghost predicate SameText(which: Which, w0: World, w1: World) {
    || Config(w0, which).None?
    || (Config(w1, which).Some? && Config(w1, which).value.data == Config(w0, which).value.data)
  }

  /** One attempt: read the ConfigMap, set the marker, write it. */
  method MarkOnce(api: ApiServer, which: Which, value: string) returns (r: Result<()>)
    requires CanBuild(api) && value != "" && MarkerOf(which) in api.h.due && Timely(api.w, value)
    modifies api
    ensures Good(api) && old(api.log) <= api.log && api.h == old(api.h) && OnlyConfig(which, old(api.w), api.w)
    ensures SameText(which, old(api.w), api.w)
    ensures r.Ok? ==>
      Config(api.w, which).Some? && Stamp(Config(api.w, which).value.annotations, MarkerKey(which)) == Some(value)
    ensures r.Err? && (r.error.Conflict? || r.error.NotFound?) ==> Quiet(true, old(api.log), api.log, old(api.w), api.w)
    ensures Answered(r, TheConfig(which), old(api.heard), api.heard)
    ensures r.Err? && r.error.NotFound? ==> Config(old(api.w), which).None?
  {
    var got := api.GetConfig(which);
    RelyIsOnly(old(api.w), api.w);
    MarkerTiming(old(api.w), api.w, value);
    if got.Err? {
      return Err(got.error);
    }
    ghost var w1 := api.w;
    r := PutMarker(api, which, got.value, value);
    OnlyConfigAfterQuiet(which, old(api.w), w1, api.w);
  }

  /** `updateAnnotation` on a ConfigMap: five attempts, going on after a conflict or a missing object. */
  method UpdateAnnotation(api: ApiServer, which: Which, value: string) returns (r: Result<()>)
    requires CanBuild(api) && value != "" && Timely(api.w, value) && MarkerOf(which) in api.h.due
    modifies api
    ensures Good(api) && old(api.log) <= api.log && api.h == old(api.h) && OnlyConfig(which, old(api.w), api.w)
    ensures SameText(which, old(api.w), api.w)
    ensures
      || r.Err?
      || (Config(api.w, which).Some? && Stamp(Config(api.w, which).value.annotations, MarkerKey(which)) == Some(value))
    ensures Answered(r, TheConfig(which), old(api.heard), api.heard)
    ensures r.Ok? || !r.error.NotFound? || Config(old(api.w), which).None?
    ensures r.Err? && (r.error.Conflict? || r.error.NotFound?) ==>
      Setbacks(old(api.heard), TheConfig(which)) + 5 <= Setbacks(api.heard, TheConfig(which))
  {
    RelyReflexive(true, api.w);
    r := Err(Conflict(TheConfig(which)));
    for attempt := 0 to RETRIES
      invariant CanBuild(api) && api.h == old(api.h) && Quiet(true, old(api.log), api.log, old(api.w), api.w)
      invariant Tried(attempt, r, TheConfig(which), old(api.heard), api.heard)
      invariant r.Err? && (!r.error.NotFound? || Config(old(api.w), which).None?)
    {
      ghost var w0, a0, was := api.w, api.heard, r;
      MarkerTiming(old(api.w), w0, value);
      r := MarkOnce(api, which, value);
      TriedAgain(attempt, was, r, TheConfig(which), old(api.heard), a0, api.heard);
      OnlyConfigAfterQuiet(which, old(api.w), w0, api.w);
      if r.Ok? || !ConflictOrNotFound(r.error) {
        return;
      }
    }
    RelyIsOnly(old(api.w), api.w);
  }

  /** `annotateIfNeeded`, for the two ConfigMaps: only an update leaves a marker. */
  method AnnotateIfNeeded(api: ApiServer, which: Which, operation: Operation) returns (r: Result<()>)
    requires CanBuild(api) && (operation.Updated? ==> MarkerOf(which) in api.h.due)
    modifies api
    ensures Good(api) && old(api.log) <= api.log && api.h == old(api.h) && OnlyConfig(which, old(api.w), api.w)
    ensures SameText(which, old(api.w), api.w)
    ensures r.Ok? && operation.Updated? ==>
      Config(api.w, which).Some? && Marked(Config(api.w, which).value.annotations, MarkerKey(which))
    ensures !operation.Updated? ==> api.log == old(api.log) && api.w == old(api.w) && r.Ok?
    ensures Answered(r, TheConfig(which), old(api.heard), api.heard)
    ensures r.Err? && r.error.NotFound? ==> Config(old(api.w), which).None?
    ensures r.Err? && r.error.Conflict? ==>
      Setbacks(old(api.heard), TheConfig(which)) + 5 <= Setbacks(api.heard, TheConfig(which))
  {
    if !operation.Updated? {
      RelyReflexive(true, api.w);
      RelyIsOnly(api.w, api.w);
      return Ok(());
    }
    StampNotEmpty(api.w.clock);
    LessTotal(api.Now(), api.Now());
    r := UpdateAnnotation(api, which, api.Now());
  }

  function BuilderOf(which: Which): Builder { if which.PluginsMap? then PluginsConfigMap else ServerConfigMap }

  /** A ConfigMap's turn: create or update it, then leave a marker if it was updated. */
  method ApplyConfig(api: ApiServer, which: Which, copied: Annotation, data: string)
    returns (operation: Result<Operation>, annotated: Result<()>)
    requires CanBuild(api) && MarkerKey(which) !in copied && data == DesiredData(which, api.h.cluster.spec)
    modifies api
    ensures Good(api) && old(api.log) <= api.log && Progressed(old(api.h), api.h)
    ensures OnlyConfig(which, old(api.w), api.w)
    ensures if operation.Ok? then BuilderOf(which) in api.h.built else annotated.Err?
    ensures Answered(operation, TheConfig(which), old(api.heard), api.heard)
    ensures operation.Ok? ==> Answered(annotated, TheConfig(which), old(api.heard), api.heard)
    ensures operation.Err? ==> !operation.error.NotFound?
    ensures operation.Err? && operation.error.Conflict? ==>
      Setbacks(old(api.heard), TheConfig(which)) + 5 <= Setbacks(api.heard, TheConfig(which))
    ensures operation.Ok? && annotated.Err? && annotated.error.Conflict? ==>
      Setbacks(old(api.heard), TheConfig(which)) + 5 <= Setbacks(api.heard, TheConfig(which))
    ensures operation.Ok? && annotated.Err? ==> !annotated.error.NotFound?
    ensures annotated.Ok? ==> Config(api.w, which).Some? && Config(api.w, which).value.data == data
    ensures annotated.Ok? && Config(old(api.w), which).Some? ==>
      if Config(old(api.w), which).value.data == data then api.log == old(api.log)
      else Marked(Config(api.w, which).value.annotations, MarkerKey(which))
  {
    operation := ReconcileConfigMap(api, which, copied, data);
    annotated := Err(Refused);
    if operation.Ok? {
      ghost var w1 := api.w;
      api.Succeeded(BuilderOf(which));
      annotated := AnnotateIfNeeded(api, which, operation.value);
      OnlyConfigTransitive(which, old(api.w), w1, api.w);
    }
  }
}
