/** Merging of annotation maps (`metadata.ReconcileAnnotations` and its filtered form). */
module Annotations {
  import opened Text

  type Annotation = map<string, string>

  predicate Contains(s: string, part: string) {
    exists i :: 0 <= i <= |s| && StartsAt(s, i, part)
  }

  predicate StartsAt(s: string, i: nat, part: string)
    requires i <= |s|
  {
    part <= s[i..]
  }

  predicate IsKubernetesAnnotation(k: string) { Contains(k, "kubernetes.io") || Contains(k, "k8s.io") }

  /** Kubernetes' own keys are those with one of its two domains anywhere in them. */
  lemma KubernetesKeys(k: string)
    ensures IsKubernetesAnnotation(k) <==>
      exists p: string, q: string :: k == p + "kubernetes.io" + q || k == p + "k8s.io" + q
  {
    ContainsMeans(k, "kubernetes.io");
    ContainsMeans(k, "k8s.io");
    if Contains(k, "kubernetes.io") {
      var p: string, q: string :| k == p + "kubernetes.io" + q;
    }
    if Contains(k, "k8s.io") {
      var p: string, q: string :| k == p + "k8s.io" + q;
    }
  }

  lemma ContainsMeans(s: string, part: string)
    ensures Contains(s, part) <==> exists p: string, q: string :: s == p + part + q
  {
    if Contains(s, part) {
      var i :| 0 <= i <= |s| && StartsAt(s, i, part);
      assert s == s[..i] + part + s[i + |part|..];
    }
    if p: string, q: string :| s == p + part + q {
      assert s[|p|..] == part + q;
      assert StartsAt(s, |p|, part);
    }
  }

  /** Which keys a merge lets through. */
  predicate Admits(filtered: bool, k: string) { !filtered || !IsKubernetesAnnotation(k) }

  /** The base overlaid with the admitted entries of each map in turn. */
  ghost function Merged(filtered: bool, base: Annotation, maps: seq<Annotation>): Annotation {
    if maps == [] then base
    else
      var before := Merged(filtered, base, maps[..|maps| - 1]);
      before + Admitted(filtered, maps[|maps| - 1])
  }

  ghost function Admitted(filtered: bool, m: Annotation): Annotation {
    map k | k in m && Admits(filtered, k) :: m[k]
  }

  /** `mergeWithFilter`: Go visits the entries of each map in an order of its own choosing. */
  method MergeWithFilter(filtered: bool, base: Annotation, maps: seq<Annotation>) returns (result: Annotation)
    ensures result == Merged(filtered, base, maps)
  {
    result := base;
    for i := 0 to |maps|
      invariant result == Merged(filtered, base, maps[..i])
    {
      result := Overlay(filtered, result, maps[i]);
      assert maps[..i + 1][..i] == maps[..i];
    }
    assert maps[..|maps|] == maps;
  }

  /** The inner loop over one map. */
  method Overlay(filtered: bool, base: Annotation, m: Annotation) returns (result: Annotation)
    ensures result == base + Admitted(filtered, m)
  {
    result := base;
    var left := m.Keys;
    while left != {}
      invariant left <= m.Keys
      invariant result == base + (map k | k in m && k !in left && Admits(filtered, k) :: m[k])
      decreases left
    {
      var k :| k in left;
      if Admits(filtered, k) {
        result := result[k := m[k]];
      }
      left := left - {k};
    }
  }

  /** Some map of the list brings the key along. */
  ghost predicate Brings(filtered: bool, maps: seq<Annotation>, k: string) {
    exists i :: 0 <= i < |maps| && k in maps[i] && Admits(filtered, k)
  }

  /** The i-th map is the last one that mentions the key. */
  ghost predicate LastWith(maps: seq<Annotation>, k: string, i: int) {
    0 <= i < |maps| && k in maps[i] && forall j :: i < j < |maps| ==> k !in maps[j]
  }

  /** The map that decides the value of a key: the last one that admits it, else the base. */
  lemma {:induction false} LastMapWins(filtered: bool, base: Annotation, maps: seq<Annotation>, k: string)
    ensures
      var r := Merged(filtered, base, maps);
      if Brings(filtered, maps, k) then k in r && exists i :: LastWith(maps, k, i) && r[k] == maps[i][k]
      else (k in r <==> k in base) && (k in base ==> r[k] == base[k])
  {
    if maps != [] {
      var n := |maps| - 1;
      var init, last := maps[..n], maps[n];
      LastMapWins(filtered, base, init, k);
      if k in last && Admits(filtered, k) {
        assert LastWith(maps, k, n);
      } else if Brings(filtered, maps, k) {
        BringsBefore(filtered, maps, k);
        var i :| LastWith(init, k, i) && Merged(filtered, base, init)[k] == init[i][k];
        assert LastWith(maps, k, i);
      } else {
        NotBefore(filtered, maps, k);
      }
    }
  }

  lemma BringsBefore(filtered: bool, maps: seq<Annotation>, k: string)
    requires maps != [] && Brings(filtered, maps, k) && !(k in maps[|maps| - 1] && Admits(filtered, k))
    ensures Brings(filtered, maps[..|maps| - 1], k)
  {
    var i :| 0 <= i < |maps| && k in maps[i] && Admits(filtered, k);
    assert k in maps[..|maps| - 1][i];
  }

  lemma NotBefore(filtered: bool, maps: seq<Annotation>, k: string)
    requires maps != [] && !Brings(filtered, maps, k)
    ensures !Brings(filtered, maps[..|maps| - 1], k)
  {
    var init := maps[..|maps| - 1];
    forall i | 0 <= i < |init| ensures !(k in init[i] && Admits(filtered, k)) {
      assert init[i] == maps[i];
    }
  }

  /** The operator's own annotation merges never introduce a Kubernetes annotation. */
  lemma FilterKeepsKubernetesOut(base: Annotation, maps: seq<Annotation>, k: string)
    requires IsKubernetesAnnotation(k)
    ensures k in Merged(true, base, maps) <==> k in base
    ensures k in base ==> Merged(true, base, maps)[k] == base[k]
  {
    LastMapWins(true, base, maps, k);
  }

  /** Merging the same maps again changes nothing, so a second reconcile writes nothing. */
  lemma MergeIsIdempotent(filtered: bool, base: Annotation, maps: seq<Annotation>)
    ensures Merged(filtered, Merged(filtered, base, maps), maps) == Merged(filtered, base, maps)
  {
    var r := Merged(filtered, base, maps);
    var rr := Merged(filtered, r, maps);
    forall k ensures (k in rr <==> k in r) && (k in r ==> rr[k] == r[k]) {
      LastMapWins(filtered, base, maps, k);
      LastMapWins(filtered, r, maps, k);
    }
  }
}
