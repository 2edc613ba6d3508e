/** Sequences read as rings: a ring lists its members in the order in which `prev` visits them. */
module RingOrder {

  import opened Common

  ghost predicate Distinct(s: seq<Addr>) {
    forall i, j | 0 <= i < j < |s| :: s[i] != s[j]
  }

  /** The position `k` places behind `i` in a ring of `n`. */
  function Pos(i: nat, k: nat, n: nat): nat
    requires i < n && k <= n
  {
    if i + k < n then i + k else i + k - n
  }

  /** The `k` members from position `i` on. */
  function Arc(r: seq<Addr>, i: nat, k: nat): seq<Addr>
    requires i < |r| && k <= |r|
  {
    if i + k <= |r| then r[i..i + k] else r[i..] + r[..i + k - |r|]
  }

  function IndexOf(r: seq<Addr>, x: Addr): (i: nat)
    requires x in r
    ensures i < |r| && r[i] == x
  {
    if r[0] == x then 0 else 1 + IndexOf(r[1..], x)
  }

  lemma IndexIsUnique(r: seq<Addr>, i: nat)
    requires Distinct(r) && i < |r|
    ensures IndexOf(r, r[i]) == i
  {
  }

  lemma ArcAt(r: seq<Addr>, i: nat, k: nat)
    requires i < |r| && k <= |r|
    ensures |Arc(r, i, k)| == k
    ensures forall j | 0 <= j < k :: Arc(r, i, k)[j] == r[Pos(i, j, |r|)]
  {
  }

  lemma ArcExtends(r: seq<Addr>, i: nat, k: nat)
    requires i < |r| && k < |r|
    ensures Arc(r, i, k) + [r[Pos(i, k, |r|)]] == Arc(r, i, k + 1)
  {
  }

  lemma ArcMembers(r: seq<Addr>, i: nat, k: nat)
    requires i < |r| && k <= |r|
    ensures forall x | x in Arc(r, i, k) :: x in r
    ensures k == |r| ==> forall x | x in r :: x in Arc(r, i, k)
  {
  }

  /** `s` is the ring `r`, written down from some member on. */
  ghost predicate Rotation(r: seq<Addr>, s: seq<Addr>) {
    exists i :: 0 <= i < |r| && s == Arc(r, i, |r|)
  }

  lemma RotationOfRotation(r: seq<Addr>, i: nat, j: nat)
    requires i < |r| && j < |r|
    ensures |Arc(r, i, |r|)| == |r|
    ensures Arc(Arc(r, i, |r|), j, |r|) == Arc(r, Pos(i, j, |r|), |r|)
  {
    var s := Arc(r, i, |r|);
    ArcAt(r, i, |r|);
    ArcAt(s, j, |r|);
    ArcAt(r, Pos(i, j, |r|), |r|);
    var t, u := Arc(s, j, |r|), Arc(r, Pos(i, j, |r|), |r|);
    forall m | 0 <= m < |r| ensures t[m] == u[m] {
    }
  }

  // ----- Survivors -----

  /** The members of `s` in `live`, in the order of `s`. */
  function Filter(s: seq<Addr>, live: set<Addr>): seq<Addr> {
    if s == [] then []
    else (if s[0] in live then [s[0]] else []) + Filter(s[1..], live)
  }

  lemma {:induction false} FilterConcat(s: seq<Addr>, t: seq<Addr>, live: set<Addr>)
    ensures Filter(s + t, live) == Filter(s, live) + Filter(t, live)
    decreases |s|
  {
    if s == [] {
      assert s + t == t;
    } else {
      var head := if s[0] in live then [s[0]] else [];
      assert (s + t)[0] == s[0] && (s + t)[1..] == s[1..] + t;
      assert Filter(s + t, live) == head + Filter(s[1..] + t, live);
      FilterConcat(s[1..], t, live);
    }
  }

  lemma {:induction false} FilterMembers(s: seq<Addr>, live: set<Addr>)
    ensures forall x :: x in Filter(s, live) <==> x in s && x in live
    decreases |s|
  {
    if s != [] {
      FilterMembers(s[1..], live);
      assert s == [s[0]] + s[1..];
    }
  }

  lemma {:induction false} FilterDistinct(s: seq<Addr>, live: set<Addr>)
    requires Distinct(s)
    ensures Distinct(Filter(s, live))
    decreases |s|
  {
    if s != [] {
      FilterDistinct(s[1..], live);
      FilterMembers(s[1..], live);
      assert s[0] !in s[1..];
    }
  }

  /** The first member of `s` that is alive. */
  function FirstIn(s: seq<Addr>, live: set<Addr>): (x: Addr)
    requires exists y :: y in s && y in live
    ensures x in s && x in live
  {
    if s[0] in live then s[0]
    else
      assert s == [s[0]] + s[1..];
      FirstIn(s[1..], live)
  }

  lemma {:induction false} FirstInIsFirst(s: seq<Addr>, live: set<Addr>)
    requires exists y :: y in s && y in live
    ensures |Filter(s, live)| > 0 && FirstIn(s, live) == Filter(s, live)[0]
    decreases |s|
  {
    if s[0] !in live {
      assert s == [s[0]] + s[1..];
      FirstInIsFirst(s[1..], live);
    }
  }

  lemma {:induction false} FirstInAt(s: seq<Addr>, live: set<Addr>, i: nat)
    requires i < |s| && s[i] in live && forall j | 0 <= j < i :: s[j] !in live
    ensures FirstIn(s, live) == s[i]
    decreases i
  {
    assert s[i] in s;
    if i > 0 {
      FirstInAt(s[1..], live, i - 1);
    }
  }

  /** The ring as seen from `x` when it looks for a predecessor: everybody behind it, itself last. */
  function Behind(r: seq<Addr>, x: Addr): seq<Addr>
    requires x in r
  {
    Arc(r, Pos(IndexOf(r, x), 1, |r|), |r|)
  }

  lemma BehindSplits(r: seq<Addr>, x: Addr)
    requires x in r
    ensures var i := IndexOf(r, x);
      && r == r[..i] + [x] + r[i + 1..]
      && Behind(r, x) == r[i + 1..] + r[..i] + [x]
  {
  }

  /** From where the ring is written down does not matter. */
  lemma BehindRotation(r: seq<Addr>, s: seq<Addr>, x: Addr)
    requires Distinct(r) && Rotation(r, s) && x in r
    ensures x in s && Behind(s, x) == Behind(r, x)
  {
    var i :| 0 <= i < |r| && s == Arc(r, i, |r|);
    ArcMembers(r, i, |r|);
    ArcAt(r, i, |r|);
    var j := IndexOf(s, x);
    assert r[Pos(i, j, |r|)] == x;
    IndexIsUnique(r, Pos(i, j, |r|));
    RotationOfRotation(r, i, Pos(j, 1, |r|));
    assert Pos(i, Pos(j, 1, |r|), |r|) == Pos(Pos(i, j, |r|), 1, |r|);
  }

  /** The survivors before and after a survivor, in the ring and in its view. */
  lemma FilterAround(r: seq<Addr>, live: set<Addr>, x: Addr)
    requires x in r && x in live
    ensures var i := IndexOf(r, x);
      && Filter(r, live) == Filter(r[..i], live) + [x] + Filter(r[i + 1..], live)
      && Filter(Behind(r, x), live) == Filter(r[i + 1..], live) + Filter(r[..i], live) + [x]
  {
    var i := IndexOf(r, x);
    BehindSplits(r, x);
    FilterConcat(r[..i] + [x], r[i + 1..], live);
    FilterConcat(r[..i], [x], live);
    FilterConcat(r[i + 1..] + r[..i], [x], live);
    FilterConcat(r[i + 1..], r[..i], live);
    assert Filter([x], live) == [x];
  }

  /** Looking for the first survivor behind a survivor is stepping on in the ring of survivors. */
  lemma FirstSurvivor(r: seq<Addr>, live: set<Addr>, j: nat)
    requires Distinct(r) && j < |Filter(r, live)|
    ensures var f := Filter(r, live);
      && f[j] in r && f[j] in live
      && (exists y :: y in Behind(r, f[j]) && y in live)
      && FirstIn(Behind(r, f[j]), live) == f[Pos(j, 1, |f|)]
  {
    var f := Filter(r, live);
    var x := f[j];
    FilterMembers(r, live);
    FilterDistinct(r, live);
    assert x in f;
    FilterAround(r, live, x);
    BehindSplits(r, x);
    var i := IndexOf(r, x);
    var fa, fb := Filter(r[..i], live), Filter(r[i + 1..], live);
    hide Behind, Filter, IndexOf;
    assert f[|fa|] == x;
    assert j == |fa|;
    assert x in Behind(r, x);
    FirstInIsFirst(Behind(r, x), live);
    assert (fb + fa + [x])[0] == f[Pos(j, 1, |f|)];
  }
}
