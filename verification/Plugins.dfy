/**
 The plugin list and the two texts it is published in: the `enabled_plugins` file, read by a
 node that starts, and the argument of `rabbitmq-plugins set`, run on nodes that are up.
 */
module Plugins {
  import opened Wrappers
  import opened Text

  type Plugin = string

  const REQUIRED_PLUGINS: seq<Plugin> :=
    ["rabbitmq_peer_discovery_k8s", "rabbitmq_prometheus", "rabbitmq_management"]

  // ---------- what de-duplication means ----------

  ghost predicate Distinct<T>(s: seq<T>) { forall i, j :: 0 <= i < j < |s| ==> s[i] != s[j] }

  /** Position of the first occurrence. */
  function First<T(==)>(s: seq<T>, x: T): (i: nat)
    requires x in s
    ensures i < |s| && s[i] == x && x !in s[..i]
  {
    if s[0] == x then 0 else 1 + First(s[1..], x)
  }

  /** `d` lists each element of `s` once, in the order in which `s` first mentions it. */
  ghost predicate FirstMentions<T(!new)>(s: seq<T>, d: seq<T>) {
    && Distinct(d)
    && (forall x :: x in d <==> x in s)
    && (forall i, j :: 0 <= i < j < |d| && d[i] in s && d[j] in s ==> First(s, d[i]) < First(s, d[j]))
  }

  /** Keep the first occurrence of everything. */
  function Dedup<T(==)>(s: seq<T>): seq<T> {
    if s == [] then []
    else
      var init := Dedup(s[..|s| - 1]);
      if s[|s| - 1] in s[..|s| - 1] then init else init + [s[|s| - 1]]
  }

  lemma {:induction false} FirstInPrefix<T>(p: seq<T>, q: seq<T>, x: T)
    requires x in p
    ensures x in p + q && First(p + q, x) == First(p, x)
  {
    assert (p + q)[0] == p[0];
    if p[0] != x {
      assert (p + q)[1..] == p[1..] + q;
      FirstInPrefix(p[1..], q, x);
    }
  }

  lemma {:induction false} FirstAfter<T>(p: seq<T>, q: seq<T>, x: T)
    requires x !in p && x in q
    ensures x in p + q && First(p + q, x) == |p| + First(q, x)
  {
    if p == [] {
      assert p + q == q;
    } else {
      assert (p + q)[1..] == p[1..] + q;
      FirstAfter(p[1..], q, x);
    }
  }

  lemma {:induction false} FirstInDistinct<T>(d: seq<T>, i: nat)
    requires Distinct(d) && i < |d|
    ensures First(d, d[i]) == i
  {
    if i > 0 { FirstInDistinct(d[1..], i - 1); }
  }

  lemma {:induction false} DedupIsFirstMentions<T(!new)>(s: seq<T>)
    ensures FirstMentions(s, Dedup(s))
  {
    if s != [] {
      var p, x := s[..|s| - 1], s[|s| - 1];
      assert s == p + [x];
      DedupIsFirstMentions(p);
      var d := Dedup(s);
      forall y ensures y in d <==> y in s { }
      forall i, j | 0 <= i < j < |d| ensures d[i] != d[j] && First(s, d[i]) < First(s, d[j]) {
        assert d[i] in d && d[j] in d;
        assert d[i] == Dedup(p)[i] && d[i] in p;
        FirstInPrefix(p, [x], d[i]);
        if j < |Dedup(p)| {
          assert d[j] == Dedup(p)[j] && d[j] in p;
          FirstInPrefix(p, [x], d[j]);
        } else {
          FirstAfter(p, [x], x);
        }
      }
    }
  }

  /** Order of first mention leaves no choice: there is only one such list. */
  lemma {:induction false} FirstMentionsUnique<T(!new)>(s: seq<T>, d: seq<T>, e: seq<T>)
    requires FirstMentions(s, d) && FirstMentions(s, e)
    ensures d == e
  {
    forall i | 0 <= i < |d| && i < |e| ensures d[i] == e[i] { SameAt(s, d, e, i); }
    if |d| <= |e| { NoLonger(s, d, e); } else { NoLonger(s, e, d); }
  }

  lemma {:induction false} SameAt<T(!new)>(s: seq<T>, d: seq<T>, e: seq<T>, i: nat)
    requires FirstMentions(s, d) && FirstMentions(s, e) && i < |d| && i < |e|
    ensures d[i] == e[i]
  {
    forall k | 0 <= k < i ensures d[k] == e[k] { SameAt(s, d, e, k); }
    assert d[i] in d && e[i] in e;
    var j :| 0 <= j < |e| && e[j] == d[i];
    var k :| 0 <= k < |d| && d[k] == e[i];
  }

  lemma NoLonger<T(!new)>(s: seq<T>, d: seq<T>, e: seq<T>)
    requires FirstMentions(s, d) && FirstMentions(s, e) && d <= e
    ensures |e| <= |d|
  {
    if e != [] {
      var k := |e| - 1;
      assert e[k] in e && e[k] in d;
      var j :| 0 <= j < |d| && d[j] == e[k];
      assert e[j] == e[k];
    }
  }

  // ---------- DesiredPlugins ----------

  function Desired(additional: seq<Plugin>): seq<Plugin> { Dedup(REQUIRED_PLUGINS + additional) }

  method DesiredPlugins(required: seq<Plugin>, additional: seq<Plugin>) returns (enabled: seq<Plugin>)
    ensures enabled == Dedup(required + additional)
    ensures FirstMentions(required + additional, enabled)
  {
    var all := required + additional;
    var check: map<Plugin, bool> := map[];
    enabled := [];
    for i := 0 to |all|
      invariant enabled == Dedup(all[..i])
      invariant forall p :: p in check <==> p in all[..i]
    {
      assert all[..i + 1][..i] == all[..i];
      var p := all[i];
      if p !in check {
        check := check[p := true];
        enabled := enabled + [p];
      }
    }
    assert all[..|all|] == all;
    DedupIsFirstMentions(all);
  }

  lemma {:induction false} DedupOfDistinct<T>(s: seq<T>)
    requires Distinct(s)
    ensures Dedup(s) == s
  {
    if s != [] {
      DedupOfDistinct(s[..|s| - 1]);
      assert s == s[..|s| - 1] + [s[|s| - 1]];
    }
  }

  lemma {:induction false} DedupKeepsPrefix<T>(p: seq<T>, q: seq<T>)
    requires Distinct(p)
    ensures p <= Dedup(p + q)
  {
    if q == [] {
      assert p + q == p;
      DedupOfDistinct(p);
    } else {
      assert (p + q)[..|p + q| - 1] == p + q[..|q| - 1];
      DedupKeepsPrefix(p, q[..|q| - 1]);
    }
  }

  /** The required plugins come first, and asking again with the answer changes nothing. */
  lemma DesiredIsStable(additional: seq<Plugin>)
    ensures REQUIRED_PLUGINS <= Desired(additional)
    ensures Desired(Desired(additional)) == Desired(additional)
    ensures forall p :: p in Desired(additional) <==> p in REQUIRED_PLUGINS || p in additional
  {
    var all := REQUIRED_PLUGINS + additional;
    var d := Desired(additional);
    DedupIsFirstMentions(all);
    assert Distinct(REQUIRED_PLUGINS) by {
      assert |REQUIRED_PLUGINS[0]| == 27 && |REQUIRED_PLUGINS[1]| == 19 && |REQUIRED_PLUGINS[2]| == 19;
      assert REQUIRED_PLUGINS[1][9] == 'p' && REQUIRED_PLUGINS[2][9] == 'm';
    }
    DedupKeepsPrefix(REQUIRED_PLUGINS, additional);
    forall i, j | 0 <= i < j < |d|
      ensures First(REQUIRED_PLUGINS + d, d[i]) < First(REQUIRED_PLUGINS + d, d[j])
    {
      MentionOrder(REQUIRED_PLUGINS, d, i, j);
    }
    assert FirstMentions(REQUIRED_PLUGINS + d, d);
    DedupIsFirstMentions(REQUIRED_PLUGINS + d);
    FirstMentionsUnique(REQUIRED_PLUGINS + d, d, Dedup(REQUIRED_PLUGINS + d));
  }

  lemma MentionOrder<T>(p: seq<T>, d: seq<T>, i: nat, j: nat)
    requires p <= d && Distinct(d) && i < j < |d|
    ensures d[i] in p + d && d[j] in p + d && First(p + d, d[i]) < First(p + d, d[j])
  {
    MentionAt(p, d, i);
    MentionAt(p, d, j);
  }

  lemma MentionAt<T>(p: seq<T>, d: seq<T>, i: nat)
    requires p <= d && Distinct(d) && i < |d|
    ensures d[i] in p + d && First(p + d, d[i]) == if i < |p| then i else |p| + i
  {
    if i < |p| {
      assert p[i] == d[i];
      FirstInPrefix(p, d, p[i]);
      FirstInDistinct(p, i);
    } else {
      assert forall k :: 0 <= k < |p| ==> p[k] == d[k];
      FirstAfter(p, d, d[i]);
      FirstInDistinct(d, i);
    }
  }

  // ---------- the two texts ----------

  function AsString(plugins: seq<Plugin>, sep: string): string { Join(plugins, sep) }

  /** Content of the `enabled_plugins` file. */
  function FileText(additional: seq<Plugin>): string {
    "[" + AsString(Desired(additional), ",") + "]."
  }

  /** Argument of `rabbitmq-plugins set`. */
  function CommandText(additional: seq<Plugin>): string { AsString(Desired(additional), " ") }

  /** What a starting node reads from the file. */
  ghost function ReadFile(text: string): seq<Plugin> {
    if |text| < 3 then [] else Split(text[1..|text| - 2], ',')
  }

  /** What the command line tool reads from its argument. */
  ghost function ReadCommand(text: string): seq<Plugin> { Split(text, ' ') }

  /** The resource definition admits only names matching `^\w+$`. */
  predicate Word(p: Plugin) {
    p != "" && forall i :: 0 <= i < |p| ==>
      'a' <= p[i] <= 'z' || 'A' <= p[i] <= 'Z' || '0' <= p[i] <= '9' || p[i] == '_'
  }

  predicate Words(plugins: seq<Plugin>) { forall p :: p in plugins ==> Word(p) }

  lemma RequiredAreWords()
    ensures Words(REQUIRED_PLUGINS)
  {
    assert Word("rabbitmq_peer_discovery_k8s");
    assert Word("rabbitmq_prometheus");
    assert Word("rabbitmq_management");
  }

  lemma DesiredAreWords(additional: seq<Plugin>)
    requires Words(additional)
    ensures Desired(additional) != [] && forall p :: p in Desired(additional) ==> ',' !in p && ' ' !in p
  {
    DesiredIsStable(additional);
    RequiredAreWords();
    forall p | p in Desired(additional) ensures ',' !in p && ' ' !in p {
      assert Word(p);
    }
  }

  lemma FileTextBody(additional: seq<Plugin>)
    ensures ReadFile(FileText(additional)) == Split(Join(Desired(additional), ","), ',')
  {
    var body := Join(Desired(additional), ",");
    var t := "[" + body + "].";
    assert t[1..|t| - 2] == body;
  }

  /** Both paths enable the same list: `Desired`, whatever admissible names the user asked for. */
  lemma FileAndCommandAgree(additional: seq<Plugin>)
    requires Words(additional)
    ensures ReadFile(FileText(additional)) == Desired(additional)
    ensures ReadCommand(CommandText(additional)) == Desired(additional)
  {
    DesiredAreWords(additional);
    FileTextBody(additional);
    SplitOfJoin(Desired(additional), ',');
    SplitOfJoin(Desired(additional), ' ');
  }
}
