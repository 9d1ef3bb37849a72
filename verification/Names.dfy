/** Names of the objects a RabbitmqCluster owns. */
module Names {
  import opened Wrappers
  import opened Text

  /** Go's `strings.TrimSuffix(s, "-")`: at most one trailing dash is removed. */
  function TrimDash(s: string): string {
    if s != "" && s[|s| - 1] == '-' then s[..|s| - 1] else s
  }

  function ChildResourceName(cluster: string, name: string): string {
    TrimDash(Join([cluster, name], "-"))
  }

  function PVCName(cluster: string, i: int): string {
    Join(["persistence", cluster, "server", Itoa(i)], "-")
  }

  const PVC_HEAD := "persistence-"
  const PVC_MIDDLE := "-server-"

  /** Position of the last dash. */
  ghost function LastDash(s: string): (k: Option<nat>)
    ensures k.Some? ==> k.value < |s| && s[k.value] == '-' && '-' !in s[k.value + 1..]
  {
    if s == "" then None
    else if s[|s| - 1] == '-' then Some(|s| - 1)
    else LastDash(s[..|s| - 1])
  }

  lemma {:induction false} LastDashAt(head: string, tail: string)
    requires '-' !in tail
    ensures LastDash(head + "-" + tail) == Some(|head|)
  {
    var s := head + "-" + tail;
    if tail != "" {
      assert s[..|s| - 1] == head + "-" + tail[..|tail| - 1];
      LastDashAt(head, tail[..|tail| - 1]);
    }
  }

  /** The cluster and the pod index that a claim name belongs to. */
  ghost function ClaimOwner(pvc: string): Option<(string, int)> {
    var k := LastDash(pvc);
    if k.None? || k.value < |PVC_HEAD| || !AllDigits(pvc[k.value + 1..]) then None
    else
      var negative := pvc[k.value - 1] == '-';
      var head := if negative then pvc[..k.value] else pvc[..k.value + 1];
      if |head| < |PVC_HEAD| + |PVC_MIDDLE| then None
      else
        var number: int := Value(pvc[k.value + 1..]);
        Some((head[|PVC_HEAD|..|head| - |PVC_MIDDLE|], if negative then -number else number))
  }

  lemma ClaimNameParts(cluster: string, i: int)
    ensures PVCName(cluster, i) == PVC_HEAD + cluster + PVC_MIDDLE + Itoa(i)
  {
    var n := Itoa(i);
    assert Join([n], "-") == n;
    assert ["server", n][1..] == [n];
    assert Join(["server", n], "-") == "server" + "-" + n;
    assert [cluster, "server", n][1..] == ["server", n];
    assert Join([cluster, "server", n], "-") == cluster + "-" + ("server" + "-" + n);
    assert ["persistence", cluster, "server", n][1..] == [cluster, "server", n];
    assert PVCName(cluster, i) == "persistence" + "-" + (cluster + "-" + ("server" + "-" + n));
  }

  lemma ClaimOwnerOfNegative(cluster: string, digits: string, n: int)
    requires AllDigits(digits) && digits != "" && Value(digits) == n
    ensures ClaimOwner(PVC_HEAD + cluster + PVC_MIDDLE + "-" + digits) == Some((cluster, -n))
  {
    var head := PVC_HEAD + cluster + PVC_MIDDLE;
    var s := head + "-" + digits;
    LastDashAt(head, digits);
    assert s[|head| + 1..] == digits && s[..|head|] == head && s[|head| - 1] == '-';
    assert head[|PVC_HEAD|..|head| - |PVC_MIDDLE|] == cluster;
  }

  lemma ClaimOwnerOfNatural(cluster: string, digits: string, n: int)
    requires AllDigits(digits) && digits != "" && Value(digits) == n
    ensures ClaimOwner(PVC_HEAD + cluster + PVC_MIDDLE + digits) == Some((cluster, n))
  {
    var head := PVC_HEAD + cluster + PVC_MIDDLE;
    var stem := head[..|head| - 1];
    var s := head + digits;
    assert head == stem + "-" && s == stem + "-" + digits;
    LastDashAt(stem, digits);
    assert s[|stem| + 1..] == digits && s[..|stem| + 1] == head && s[|stem| - 1] == 'r';
    assert head[|PVC_HEAD|..|head| - |PVC_MIDDLE|] == cluster;
  }

  /** A claim name determines its owner: the cluster and the index can be read back from it. */
  lemma ClaimOwnerOfPVCName(cluster: string, i: int)
    ensures ClaimOwner(PVCName(cluster, i)) == Some((cluster, i))
  {
    ClaimNameParts(cluster, i);
    var n: nat := if i < 0 then -i else i;
    ValueOfDigits(n);
    if i < 0 {
      assert PVC_HEAD + cluster + PVC_MIDDLE + Itoa(i) == PVC_HEAD + cluster + PVC_MIDDLE + "-" + Digits(n);
      ClaimOwnerOfNegative(cluster, Digits(n), n);
    } else {
      ClaimOwnerOfNatural(cluster, Digits(n), n);
    }
  }

  /** Distinct clusters or distinct indices never share a claim. */
  lemma ClaimNamesAreDistinct(cluster1: string, i1: int, cluster2: string, i2: int)
    ensures PVCName(cluster1, i1) == PVCName(cluster2, i2) <==> cluster1 == cluster2 && i1 == i2
  {
    ClaimOwnerOfPVCName(cluster1, i1);
    ClaimOwnerOfPVCName(cluster2, i2);
  }

  /** The name the StatefulSet controller gives a claim: template name, StatefulSet name, ordinal. */
  lemma ClaimNameFollowsStatefulSet(cluster: string, i: int)
    ensures PVCName(cluster, i) == "persistence-" + ChildResourceName(cluster, "server") + "-" + Itoa(i)
    ensures ChildResourceName(cluster, "server") == cluster + "-server"
    ensures ChildResourceName(cluster, "") == cluster
  {
    ClaimNameParts(cluster, i);
    assert Join(["server"], "-") == "server";
    assert [cluster, "server"][1..] == ["server"];
    assert Join([cluster, "server"], "-") == cluster + "-" + "server";
    assert Join([""], "-") == "";
    assert [cluster, ""][1..] == [""];
    assert Join([cluster, ""], "-") == cluster + "-";
  }
}
