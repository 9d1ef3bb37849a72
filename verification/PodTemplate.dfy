/**
 The in-place reordering that follows an override of the RabbitMQ container: three environment
 variables, or two volume mounts, are swapped to the front of their list.
 */
module PodTemplate {

  datatype EnvVar = EnvVar(name: string, value: string)
  datatype VolumeMount = VolumeMount(name: string, path: string)

  /** The index an environment variable is sent to; -1 for one that is left alone. */
  function EnvSlot(e: EnvVar): int {
    if e.name == "MY_POD_NAME" then 0
    else if e.name == "MY_POD_NAMESPACE" then 1
    else if e.name == "K8S_SERVICE_NAME" then 2
    else -1
  }

  function MountSlot(m: VolumeMount): int {
    if m.name == "rabbitmq-erlang-cookie" then 0
    else if m.name == "persistence" then 1
    else -1
  }

  // ---------- the loops as functions on sequences ----------

  /** Every slot mentioned exists. A shorter list makes the Go loop panic. */
  predicate Room<T>(slot: T -> int, s: seq<T>) {
    forall i :: 0 <= i < |s| ==> slot(s[i]) < |s|
  }

  function Swap<T>(s: seq<T>, i: nat, j: nat): seq<T>
    requires i < |s| && j < |s|
  {
    s[i := s[j]][j := s[i]]
  }

  function Step<T>(slot: T -> int, s: seq<T>, i: nat): (r: seq<T>)
    requires Room(slot, s) && i < |s|
    ensures |r| == |s| && Room(slot, r)
  {
    if slot(s[i]) >= 0 then Swap(s, slot(s[i]), i) else s
  }

  /** What the loop makes of `s` from iteration `i` on. */
  function Sent<T>(slot: T -> int, s: seq<T>, i: nat): (r: seq<T>)
    requires Room(slot, s) && i <= |s|
    ensures |r| == |s|
    decreases |s| - i
  {
    if i == |s| then s else Sent(slot, Step(slot, s, i), i + 1)
  }

  method SortEnvVar(env: array<EnvVar>)
    requires Room(EnvSlot, env[..])
    modifies env
    ensures env[..] == Sent(EnvSlot, old(env[..]), 0)
    ensures multiset(env[..]) == multiset(old(env[..]))
  {
    for i := 0 to env.Length
      invariant Room(EnvSlot, env[..])
      invariant Sent(EnvSlot, env[..], i) == Sent(EnvSlot, old(env[..]), 0)
    {
      ghost var before := env[..];
      var e := env[i];
      if e.name == "MY_POD_NAME" {
        assert EnvSlot(before[i]) == 0;
        env[0], env[i] := env[i], env[0];
      } else if e.name == "MY_POD_NAMESPACE" {
        assert EnvSlot(before[i]) == 1;
        env[1], env[i] := env[i], env[1];
      } else if e.name == "K8S_SERVICE_NAME" {
        assert EnvSlot(before[i]) == 2;
        env[2], env[i] := env[i], env[2];
      }
      assert env[..] == Step(EnvSlot, before, i);
    }
    SentPermutes(EnvSlot, old(env[..]), 0);
  }

  method SortVolumeMounts(mounts: array<VolumeMount>)
    requires Room(MountSlot, mounts[..])
    modifies mounts
    ensures mounts[..] == Sent(MountSlot, old(mounts[..]), 0)
    ensures multiset(mounts[..]) == multiset(old(mounts[..]))
  {
    for i := 0 to mounts.Length
      invariant Room(MountSlot, mounts[..])
      invariant Sent(MountSlot, mounts[..], i) == Sent(MountSlot, old(mounts[..]), 0)
    {
      ghost var before := mounts[..];
      var m := mounts[i];
      if m.name == "rabbitmq-erlang-cookie" {
        assert MountSlot(before[i]) == 0;
        mounts[0], mounts[i] := mounts[i], mounts[0];
      } else if m.name == "persistence" {
        assert MountSlot(before[i]) == 1;
        mounts[1], mounts[i] := mounts[i], mounts[1];
      }
      assert mounts[..] == Step(MountSlot, before, i);
    }
    SentPermutes(MountSlot, old(mounts[..]), 0);
  }

  // ---------- permutation ----------

  lemma SwapPermutes<T>(s: seq<T>, i: nat, j: nat)
    requires i < |s| && j < |s|
    ensures multiset(Swap(s, i, j)) == multiset(s)
  {
  }

  /** Nothing is lost, duplicated or invented. */
  lemma {:induction false} SentPermutes<T>(slot: T -> int, s: seq<T>, i: nat)
    requires Room(slot, s) && i <= |s|
    ensures multiset(Sent(slot, s, i)) == multiset(s)
    decreases |s| - i
  {
    if i < |s| {
      SentPermutes(slot, Step(slot, s, i), i + 1);
      if slot(s[i]) >= 0 { SwapPermutes(s, slot(s[i]), i); }
    }
  }

  // ---------- where the sent entries end up ----------

  /** Positions of the entries for slots 0, 1 and 2. A position past the end means "not in the list". */
  datatype Places = Places(a: nat, b: nat, c: nat)

  /** Slots are 0, 1, 2 at most, and each is claimed at most once, at the place given. */
  predicate At<T>(slot: T -> int, s: seq<T>, p: Places) {
    forall i :: 0 <= i < |s| ==>
      && slot(s[i]) < 3
      && (slot(s[i]) == 0 <==> i == p.a)
      && (slot(s[i]) == 1 <==> i == p.b)
      && (slot(s[i]) == 2 <==> i == p.c)
  }

  function Displaced(x: nat, slot: nat, i: nat): nat { if x == slot then i else x }

  /** One iteration, seen on places only. */
  function Moved(p: Places, i: nat): Places {
    if p.a == i then Places(0, Displaced(p.b, 0, i), Displaced(p.c, 0, i))
    else if p.b == i then Places(Displaced(p.a, 1, i), 1, Displaced(p.c, 1, i))
    else if p.c == i then Places(Displaced(p.a, 2, i), Displaced(p.b, 2, i), 2)
    else p
  }

  function Final(p: Places, i: nat, n: nat): Places
    requires i <= n
    decreases n - i
  {
    if i == n then p else Final(Moved(p, i), i + 1, n)
  }

  /** Each entry that is in the list stands in its slot. */
  predicate InPlace(p: Places, n: nat) {
    (p.a < n ==> p.a == 0) && (p.b < n ==> p.b == 1) && (p.c < n ==> p.c == 2)
  }

  lemma StepMoves<T>(slot: T -> int, s: seq<T>, p: Places, i: nat)
    requires Room(slot, s) && At(slot, s, p) && i < |s|
    ensures At(slot, Step(slot, s, i), Moved(p, i))
  {
  }

  lemma {:induction false} SentMoves<T>(slot: T -> int, s: seq<T>, p: Places, i: nat)
    requires Room(slot, s) && At(slot, s, p) && i <= |s|
    ensures At(slot, Sent(slot, s, i), Final(p, i, |s|))
    decreases |s| - i
  {
    if i < |s| {
      StepMoves(slot, s, p, i);
      SentMoves(slot, Step(slot, s, i), Moved(p, i), i + 1);
    }
  }

  /** From the fourth iteration on, an entry comes right unless it is already left behind in a wrong place. */
  lemma {:induction false} LateMoves(p: Places, i: nat, n: nat)
    requires 3 <= i <= n
    requires p.a != p.b && p.b != p.c && p.a != p.c
    ensures InPlace(Final(p, i, n), n) <==>
            (p.a == 0 || p.a >= i) && (p.b == 1 || p.b >= i) && (p.c == 2 || p.c >= i)
    decreases n - i
  {
    if i < n { LateMoves(Moved(p, i), i + 1, n); }
  }

  /** The placements that defeat the three-way swap: two entries chase each other into processed slots. */
  predicate Defeats(p: Places) {
    || (p.b == 0 && p.c == 1 && p.a > 2)
    || (p.c == 1 && p.a == 2 && p.b > 2)
    || (p.c == 0 && p.b == 2 && p.a > 2)
  }

  lemma EarlyMoves(p: Places, n: nat)
    requires p.a != p.b && p.b != p.c && p.a != p.c && n >= 3
    ensures InPlace(Final(p, 0, n), n) <==> !Defeats(p)
  {
    var p1 := Moved(p, 0);
    var p2 := Moved(p1, 1);
    var p3 := Moved(p2, 2);
    assert Final(p, 0, n) == Final(p1, 1, n) == Final(p2, 2, n) == Final(p3, 3, n);
    LateMoves(p3, 3, n);
  }

  /** A list shorter than the slots it needs would panic; a list of one or two has room only for the first ones. */
  lemma ShortMoves(p: Places, n: nat)
    requires n < 3 && p.c > 2 && (n < 2 ==> p.b > 2) && Known(p, n)
    ensures InPlace(Final(p, 0, n), n) && !Defeats(p)
  {
    if n >= 1 {
      var p1 := Moved(p, 0);
      assert Final(p, 0, n) == Final(p1, 1, n);
      if n == 2 {
        assert Final(p1, 1, n) == Final(Moved(p1, 1), 2, n);
      }
    }
  }

  /** Places as a caller can see them: distinct, and past every slot for an entry that is missing. */
  predicate Known(p: Places, n: nat) {
    && (p.a < n || p.a > 2) && (p.b < n || p.b > 2) && (p.c < n || p.c > 2)
    && p.a != p.b && p.b != p.c && p.a != p.c
  }

  predicate EnvAt(s: seq<EnvVar>, p: Places) { At(EnvSlot, s, p) && Known(p, |s|) }

  lemma RoomForClaims<T>(slot: T -> int, s: seq<T>, p: Places)
    requires Room(slot, s) && At(slot, s, p)
    ensures p.b < |s| ==> |s| >= 2
    ensures p.c < |s| ==> |s| >= 3
  {
    if p.b < |s| { assert slot(s[p.b]) == 1; }
    if p.c < |s| { assert slot(s[p.c]) == 2; }
  }

  predicate EnvSorted(s: seq<EnvVar>) {
    forall i :: 0 <= i < |s| && EnvSlot(s[i]) >= 0 ==> EnvSlot(s[i]) == i
  }

  /** `sortEnvVar` keeps its promise exactly when the incoming order is not one of the three defeating ones. */
  lemma SortEnvVarWorksIff(s: seq<EnvVar>, p: Places)
    requires EnvAt(s, p) && Room(EnvSlot, s)
    ensures EnvSorted(Sent(EnvSlot, s, 0)) <==> !Defeats(p)
  {
    var n, r, f := |s|, Sent(EnvSlot, s, 0), Final(p, 0, |s|);
    SentMoves(EnvSlot, s, p, 0);
    RoomForClaims(EnvSlot, s, p);
    if n < 3 {
      ShortMoves(p, n);
    } else {
      EarlyMoves(p, n);
    }
    assert f.a < n ==> EnvSlot(r[f.a]) == 0;
    assert f.b < n ==> EnvSlot(r[f.b]) == 1;
    assert f.c < n ==> EnvSlot(r[f.c]) == 2;
    forall i | 0 <= i < n && EnvSlot(r[i]) >= 0
      ensures i == f.a || i == f.b || i == f.c
    {
    }
  }

  /** In the order in which the operator itself defines them, the three variables always reach the front. */
  lemma DefinitionOrderIsSorted(s: seq<EnvVar>, p: Places)
    requires EnvAt(s, p) && p.a < p.b < p.c < |s|
    ensures
      var r := Sent(EnvSlot, s, 0);
      r[0].name == "MY_POD_NAME" && r[1].name == "MY_POD_NAMESPACE" && r[2].name == "K8S_SERVICE_NAME"
      && multiset(r) == multiset(s)
  {
    SortEnvVarWorksIff(s, p);
    SentMoves(EnvSlot, s, p, 0);
    EarlyMoves(p, |s|);
    FinalInRange(p, 0, |s|);
    SentPermutes(EnvSlot, s, 0);
    var r := Sent(EnvSlot, s, 0);
    assert EnvSlot(r[0]) == 0 && EnvSlot(r[1]) == 1 && EnvSlot(r[2]) == 2;
  }

  lemma {:induction false} FinalInRange(p: Places, i: nat, n: nat)
    requires i <= n && 3 <= n
    ensures p.a < n ==> Final(p, i, n).a < n
    ensures p.b < n ==> Final(p, i, n).b < n
    ensures p.c < n ==> Final(p, i, n).c < n
    decreases n - i
  {
    if i < n { FinalInRange(Moved(p, i), i + 1, n); }
  }

  /** A list on which the promise of `sortEnvVar` fails: the namespace ends up last. */
  lemma SortEnvVarCanFail(x: EnvVar)
    requires EnvSlot(x) == -1
    ensures
      var s := [EnvVar("K8S_SERVICE_NAME", ""), x, EnvVar("MY_POD_NAMESPACE", ""), EnvVar("MY_POD_NAME", "")];
      Room(EnvSlot, s) && Sent(EnvSlot, s, 0)[3].name == "MY_POD_NAMESPACE"
  {
    var s := [EnvVar("K8S_SERVICE_NAME", ""), x, EnvVar("MY_POD_NAMESPACE", ""), EnvVar("MY_POD_NAME", "")];
    assert EnvSlot(s[0]) == 2 && EnvSlot(s[2]) == 1 && EnvSlot(s[3]) == 0;
    var s1 := Step(EnvSlot, s, 0);
    assert s1 == [s[2], x, s[0], s[3]];
    var s2 := Step(EnvSlot, s1, 1);
    var s3 := Step(EnvSlot, s2, 2);
    assert s3 == s1;
    var s4 := Step(EnvSlot, s3, 3);
    assert s4 == [s[3], x, s[0], s[2]];
    assert Sent(EnvSlot, s, 0) == Sent(EnvSlot, s2, 2) == Sent(EnvSlot, s4, 4) == s4;
  }

  /** The two entries of a list without others come right in two swaps. */
  lemma TwoEntries(p: Places)
    requires p.a < 2 && p.b < 2 && p.a != p.b && p.c > 2
    ensures Final(p, 0, 2).a == 0 && Final(p, 0, 2).b == 1
  {
    var p1 := Moved(p, 0);
    assert Final(p, 0, 2) == Final(p1, 1, 2) == Final(Moved(p1, 1), 2, 2);
  }

  /** With a third place free, no order of two entries is a defeating one. */
  lemma TwoPlaces(p: Places, n: nat)
    requires n >= 2 && p.a < n && p.b < n && p.a != p.b && p.c > n
    ensures Final(p, 0, n).a == 0 && Final(p, 0, n).b == 1
  {
    if n == 2 {
      TwoEntries(p);
    } else {
      EarlyMoves(p, n);
      FinalInRange(p, 0, n);
    }
  }

  lemma TwoSlots<T>(slot: T -> int, s: seq<T>, a: nat, b: nat)
    requires Room(slot, s) && a < |s| && b < |s| && a != b
    requires forall i :: 0 <= i < |s| ==>
      slot(s[i]) < 2 && (slot(s[i]) == 0 <==> i == a) && (slot(s[i]) == 1 <==> i == b)
    ensures slot(Sent(slot, s, 0)[0]) == 0 && slot(Sent(slot, s, 0)[1]) == 1
  {
    var p := Places(a, b, |s| + 3);
    SentMoves(slot, s, p, 0);
    TwoPlaces(p, |s|);
  }

  lemma MountNames(m: VolumeMount)
    ensures MountSlot(m) < 2
    ensures MountSlot(m) == 0 ==> m.name == "rabbitmq-erlang-cookie"
    ensures MountSlot(m) == 1 ==> m.name == "persistence"
  {
  }

  /** `sortVolumeMounts` works for every list that holds the two mounts once each, in either order. */
  lemma SortVolumeMountsWorks(s: seq<VolumeMount>, cookie: nat, data: nat)
    requires cookie < |s| && data < |s| && cookie != data
    requires forall i :: 0 <= i < |s| ==>
      (MountSlot(s[i]) == 0 <==> i == cookie) && (MountSlot(s[i]) == 1 <==> i == data)
    ensures Room(MountSlot, s)
    ensures
      var r := Sent(MountSlot, s, 0);
      r[0].name == "rabbitmq-erlang-cookie" && r[1].name == "persistence" && multiset(r) == multiset(s)
  {
    forall i | 0 <= i < |s| ensures MountSlot(s[i]) < 2 { MountNames(s[i]); }
    TwoSlots(MountSlot, s, cookie, data);
    SentPermutes(MountSlot, s, 0);
    MountNames(Sent(MountSlot, s, 0)[0]);
    MountNames(Sent(MountSlot, s, 0)[1]);
  }
}
