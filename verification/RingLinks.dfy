/** The pointers of a ring, and how joins and leaves move them. */
module RingLinks {
  import opened Common
  import opened RingOrder

  datatype Link = Link(prev: Addr, next: Addr)

  type Links = map<Addr, Link>

  /** From position `i` of `r`, `prev` leads one place on and `next` back again. */
  ghost predicate Linked(links: Links, r: seq<Addr>, i: nat) {
    && i < |r|
    && r[i] in links && r[Pos(i, 1, |r|)] in links
    && links[r[i]].prev == r[Pos(i, 1, |r|)]
    && links[r[Pos(i, 1, |r|)]].next == r[i]
  }

  /** `prev` walks the members in the order of `r` and `next` walks back. */
  ghost predicate IsRing(links: Links, r: seq<Addr>) {
    |r| > 0 && Distinct(r) && forall i | 0 <= i < |r| :: Linked(links, r, i)
  }

  function SetPrev(links: Links, at: Addr, x: Addr): Links
    requires at in links
  {
    links[at := Link(x, links[at].next)]
  }

  function SetNext(links: Links, at: Addr, x: Addr): Links
    requires at in links
  {
    links[at := Link(links[at].prev, x)]
  }

  lemma PrevIsMember(links: Links, r: seq<Addr>, x: Addr)
    requires IsRing(links, r) && x in r
    ensures x in links && links[x].prev in r && links[x].next in r
    ensures links[x].prev in links && links[links[x].prev].next == x
    ensures links[x].next in links && links[links[x].next].prev == x
  {
    var i :| 0 <= i < |r| && r[i] == x;
    var h := Pos(i, |r| - 1, |r|);
    assert Linked(links, r, i) && Linked(links, r, h);
    assert Pos(h, 1, |r|) == i;
  }

  // ----- Joining -----

  /** `m` asks `at` to let it in: `at` takes `m` as its prev, tells its old prev about `m`, and `m`
      settles between the two. */
  function Join(links: Links, m: Addr, at: Addr): Links
    requires at in links && links[at].prev in links
  {
    HalfJoin(links, m, at)[m := Link(links[at].prev, at)]
  }

  /** The part of a join that does not need the newcomer to hear of it. */
  function HalfJoin(links: Links, m: Addr, at: Addr): Links
    requires at in links && links[at].prev in links
  {
    SetNext(SetPrev(links, at, m), links[at].prev, m)
  }

  function Inserted(r: seq<Addr>, m: Addr, at: Addr): seq<Addr>
    requires at in r
  {
    var i := IndexOf(r, at);
    r[..i + 1] + [m] + r[i + 1..]
  }

  lemma RingAt(links: Links, r: seq<Addr>, j: nat, k: nat)
    requires IsRing(links, r) && j < |r| && k < |r|
    ensures r[j] == r[k] <==> j == k
    ensures r[j] in links && r[Pos(j, 1, |r|)] in links
    ensures links[r[j]].prev == r[Pos(j, 1, |r|)] && links[r[Pos(j, 1, |r|)]].next == r[j]
  {
    assert Linked(links, r, j);
  }

  /** Every step of the old ring but the one from `at` survives the join. */
  lemma JoinSteps(links: Links, r: seq<Addr>, m: Addr, i: nat, j: nat)
    requires IsRing(links, r) && i < |r| && j < |r| && m !in r
    requires r[i] in links && links[r[i]].prev in links
    ensures var to := Join(links, m, r[i]);
      && r[i] in to && r[j] in to && r[Pos(j, 1, |r|)] in to && m in to
      && to[r[i]].prev == m && to[m].next == r[i]
      && to[m].prev == r[Pos(i, 1, |r|)] && to[r[Pos(i, 1, |r|)]].next == m
      && (j != i ==> to[r[j]].prev == r[Pos(j, 1, |r|)] && to[r[Pos(j, 1, |r|)]].next == r[j])
  {
    RingAt(links, r, i, j);
    RingAt(links, r, j, i);
    RingAt(links, r, Pos(i, 1, |r|), Pos(j, 1, |r|));
    RingAt(links, r, i, Pos(j, 1, |r|));
    RingAt(links, r, i, Pos(i, 1, |r|));
    assert r[i] in r && r[j] in r && r[Pos(i, 1, |r|)] in r && r[Pos(j, 1, |r|)] in r;
    hide IsRing;
  }

  lemma InsertedAt(r: seq<Addr>, m: Addr, at: Addr)
    requires Distinct(r) && at in r && m !in r
    ensures var i, s := IndexOf(r, at), Inserted(r, m, at);
      && |s| == |r| + 1 && Distinct(s)
      && (forall x | x in s :: x in r || x == m)
      && (forall j | 0 <= j <= i :: s[j] == r[j]) && s[i + 1] == m
      && (forall j | i + 1 < j <= |r| :: s[j] == r[j - 1])
  {
  }

  lemma InsertedIndex(r: seq<Addr>, m: Addr, at: Addr, j: nat)
    requires at in r && j < |r| + 1
    ensures var i, s := IndexOf(r, at), Inserted(r, m, at);
      |s| == |r| + 1 && s[j] == if j <= i then r[j] else if j == i + 1 then m else r[j - 1]
  {
  }

  lemma JoinStepAt(links: Links, r: seq<Addr>, m: Addr, at: Addr, j: nat)
    requires IsRing(links, r) && at in r && m !in r && j < |r| + 1
    requires at in links && links[at].prev in links
    ensures var s, to := Inserted(r, m, at), Join(links, m, at);
      && |s| == |r| + 1
      && s[j] in to && s[Pos(j, 1, |s|)] in to
      && to[s[j]].prev == s[Pos(j, 1, |s|)] && to[s[Pos(j, 1, |s|)]].next == s[j]
  {
    hide IsRing, Join, Inserted, IndexOf, Distinct;
    var i, k := IndexOf(r, at), Pos(j, 1, |r| + 1);
    InsertedIndex(r, m, at, j);
    InsertedIndex(r, m, at, k);
    assert r[i] == at;
    JoinSteps(links, r, m, i, if j <= i then j else if j == i + 1 then i else j - 1);
  }

  lemma JoinKeepsRing(links: Links, r: seq<Addr>, m: Addr, at: Addr)
    requires IsRing(links, r) && at in r && m !in r
    ensures at in links && links[at].prev in links
    ensures IsRing(Join(links, m, at), Inserted(r, m, at))
  {
    hide Join, Inserted, IndexOf, Distinct;
    PrevIsMember(links, r, at);
    InsertedAt(r, m, at);
    var s, to := Inserted(r, m, at), Join(links, m, at);
    forall j | 0 <= j < |s|
      ensures s[j] in to && to[s[j]].prev == s[Pos(j, 1, |s|)]
      ensures s[Pos(j, 1, |s|)] in to && to[s[Pos(j, 1, |s|)]].next == s[j]
    {
      JoinStepAt(links, r, m, at, j);
    }
  }

  /** A join whose call to the old prev fails is rolled back; `reached` says whether that call took
      effect all the same. */
  function FailedJoin(links: Links, m: Addr, at: Addr, reached: bool): Links
    requires at in links && links[at].prev in links
  {
    var oldPrev := links[at].prev;
    var asked := SetPrev(links, at, m);
    SetPrev(if reached then SetNext(asked, oldPrev, m) else asked, at, oldPrev)
  }

  /** The rollback restores the ring exactly when the failed call did not take effect. */
  lemma RollbackIff(links: Links, r: seq<Addr>, m: Addr, at: Addr, reached: bool)
    requires IsRing(links, r) && at in r && m !in r
    ensures at in links && links[at].prev in links
    ensures IsRing(FailedJoin(links, m, at, reached), r) <==> !reached
    ensures !reached ==> FailedJoin(links, m, at, reached) == links
  {
    PrevIsMember(links, r, at);
    hide IsRing;
    if reached {
      var to, oldPrev := FailedJoin(links, m, at, reached), links[at].prev;
      assert to[oldPrev].next == m;
      if IsRing(to, r) {
        PrevIsMember(to, r, oldPrev);
      }
    } else {
      assert FailedJoin(links, m, at, reached) == links;
    }
  }

  /** A join whose reply the newcomer does not get leaves no ring, with it or without it. */
  lemma LostReplyBreaksRing(links: Links, r: seq<Addr>, m: Addr, at: Addr)
    requires IsRing(links, r) && at in r && m !in r && m in links && links[m] == Link(m, m)
    ensures at in links && links[at].prev in links
    ensures !IsRing(HalfJoin(links, m, at), r)
    ensures !IsRing(HalfJoin(links, m, at), Inserted(r, m, at))
  {
    PrevIsMember(links, r, at);
    var to, s := HalfJoin(links, m, at), Inserted(r, m, at);
    if IsRing(to, r) {
      PrevIsMember(to, r, at);
    }
    if IsRing(to, s) {
      assert s[IndexOf(r, at) + 1] == m;
      RingAt(to, s, IndexOf(r, at) + 1, Pos(IndexOf(r, at) + 1, 1, |s|));
    }
  }

  // ----- Leaving -----

  /** The leaver links its two neighbours. The flags say which of the two calls took effect. */
  function Leave(links: Links, x: Addr, nextTold: bool, prevTold: bool): Links
    requires x in links && links[x].prev in links && links[x].next in links
  {
    var prev, next := links[x].prev, links[x].next;
    var one := if nextTold then SetPrev(links, next, prev) else links;
    if prevTold then SetNext(one, prev, next) else one
  }

  function Removed(r: seq<Addr>, x: Addr): seq<Addr>
    requires x in r
  {
    var i := IndexOf(r, x);
    r[..i] + r[i + 1..]
  }

  /** Every step of the old ring that does not touch the leaver survives, and its neighbours meet. */
  lemma LeaveSteps(links: Links, r: seq<Addr>, i: nat, h: nat, j: nat)
    requires IsRing(links, r) && |r| >= 2 && i < |r| && h < |r| && Pos(h, 1, |r|) == i && j < |r|
    requires r[i] in links && links[r[i]].prev in links && links[r[i]].next in links
    ensures var to := Leave(links, r[i], true, true);
      && r[h] in to && r[j] in to && r[Pos(i, 1, |r|)] in to && r[Pos(j, 1, |r|)] in to
      && to[r[h]].prev == r[Pos(i, 1, |r|)] && to[r[Pos(i, 1, |r|)]].next == r[h]
      && (j != i && j != h ==> to[r[j]].prev == r[Pos(j, 1, |r|)] && to[r[Pos(j, 1, |r|)]].next == r[j])
  {
    RingAt(links, r, h, i);
    RingAt(links, r, i, j);
    RingAt(links, r, j, h);
    RingAt(links, r, Pos(i, 1, |r|), Pos(j, 1, |r|));
    RingAt(links, r, h, Pos(i, 1, |r|));
    hide IsRing;
  }

  lemma RemovedAt(r: seq<Addr>, x: Addr)
    requires Distinct(r) && x in r
    ensures var i, s := IndexOf(r, x), Removed(r, x);
      && |s| == |r| - 1 && Distinct(s)
      && (forall y | y in s :: y in r)
      && (forall j | 0 <= j < i :: s[j] == r[j])
      && (forall j | i <= j < |s| :: s[j] == r[j + 1])
  {
  }

  lemma LeaveStepAt(links: Links, r: seq<Addr>, x: Addr, j: nat)
    requires IsRing(links, r) && x in r && |r| >= 2 && j < |r| - 1
    requires x in links && links[x].prev in links && links[x].next in links
    ensures var s, to := Removed(r, x), Leave(links, x, true, true);
      && |s| == |r| - 1
      && s[j] in to && s[Pos(j, 1, |s|)] in to
      && to[s[j]].prev == s[Pos(j, 1, |s|)] && to[s[Pos(j, 1, |s|)]].next == s[j]
  {
    var i := IndexOf(r, x);
    assert Distinct(r);
    RemovedAt(r, x);
    LeaveSteps(links, r, i, Pos(i, |r| - 1, |r|), if j < i then j else j + 1);
    hide IsRing, Leave, Removed, IndexOf, Distinct;
  }

  lemma LeaveKeepsRing(links: Links, r: seq<Addr>, x: Addr)
    requires IsRing(links, r) && x in r && |r| >= 2
    ensures x in links && links[x].prev in links && links[x].next in links
    ensures IsRing(Leave(links, x, true, true), Removed(r, x))
  {
    hide Leave, Removed, IndexOf, Distinct;
    PrevIsMember(links, r, x);
    RemovedAt(r, x);
    var s, to := Removed(r, x), Leave(links, x, true, true);
    forall j | 0 <= j < |s|
      ensures s[j] in to && to[s[j]].prev == s[Pos(j, 1, |s|)]
      ensures s[Pos(j, 1, |s|)] in to && to[s[Pos(j, 1, |s|)]].next == s[j]
    {
      LeaveStepAt(links, r, x, j);
    }
  }

  /** The ring closes behind the leaver exactly when both neighbours heard of it. */
  lemma LeaveClosesIff(links: Links, r: seq<Addr>, x: Addr, nextTold: bool, prevTold: bool)
    requires IsRing(links, r) && x in r && |r| >= 2
    ensures x in links && links[x].prev in links && links[x].next in links
    ensures IsRing(Leave(links, x, nextTold, prevTold), Removed(r, x)) <==> nextTold && prevTold
  {
    PrevIsMember(links, r, x);
    LeaveKeepsRing(links, r, x);
    var s, to := Removed(r, x), Leave(links, x, nextTold, prevTold);
    var prev, next := links[x].prev, links[x].next;
    LeaverIsGone(links, r, x);
    if IsRing(to, s) {
      PrevIsMember(to, s, next);
      PrevIsMember(to, s, prev);
    }
  }

  lemma LeaverIsGone(links: Links, r: seq<Addr>, x: Addr)
    requires IsRing(links, r) && x in r && |r| >= 2 && x in links
    ensures var s := Removed(r, x); x !in s && links[x].prev in s && links[x].next in s
  {
    var n, i, s := |r|, IndexOf(r, x), Removed(r, x);
    var h, k := Pos(i, n - 1, n), Pos(i, 1, n);
    RingAt(links, r, h, i);
    RingAt(links, r, i, k);
    RingAt(links, r, i, h);
    assert x !in s;
    hide IsRing, Distinct, IndexOf;
    assert Pos(h, 1, n) == i;
    assert s[if h < i then h else h - 1] == r[h];
    assert s[if k < i then k else k - 1] == r[k];
  }

  // ----- Any sequence of joins and leaves, one after the other -----

  datatype Change =
    | Joins(m: Addr, at: Addr)
    | JoinFails(m: Addr, at: Addr)
    | Leaves(x: Addr)

  predicate Possible(r: seq<Addr>, change: Change) {
    match change
    case Joins(m, at) => at in r && m !in r
    case JoinFails(m, at) => at in r && m !in r
    case Leaves(x) => x in r && |r| >= 2
  }

  function Members(r: seq<Addr>, change: Change): seq<Addr>
    requires Possible(r, change)
  {
    match change
    case Joins(m, at) => Inserted(r, m, at)
    case JoinFails(_, _) => r
    case Leaves(x) => Removed(r, x)
  }

  ghost function Changed(links: Links, r: seq<Addr>, change: Change): Links
    requires IsRing(links, r) && Possible(r, change)
  {
    match change
    case Joins(m, at) => PrevIsMember(links, r, at); Join(links, m, at)
    case JoinFails(m, at) => PrevIsMember(links, r, at); FailedJoin(links, m, at, false)
    case Leaves(x) => PrevIsMember(links, r, x); Leave(links, x, true, true)
  }

  lemma ChangeKeepsRing(links: Links, r: seq<Addr>, change: Change)
    requires IsRing(links, r) && Possible(r, change)
    ensures IsRing(Changed(links, r, change), Members(r, change))
  {
    match change
    case Joins(m, at) => JoinKeepsRing(links, r, m, at);
    case JoinFails(m, at) => RollbackIff(links, r, m, at, false);
    case Leaves(x) => LeaveKeepsRing(links, r, x);
  }

  predicate AllPossible(r: seq<Addr>, changes: seq<Change>)
    decreases |changes|
  {
    changes == [] || (Possible(r, changes[0]) && AllPossible(Members(r, changes[0]), changes[1..]))
  }

  function MembersAfter(r: seq<Addr>, changes: seq<Change>): seq<Addr>
    requires AllPossible(r, changes)
    decreases |changes|
  {
    if changes == [] then r else MembersAfter(Members(r, changes[0]), changes[1..])
  }

  ghost function LinksAfter(links: Links, r: seq<Addr>, changes: seq<Change>): Links
    requires IsRing(links, r) && AllPossible(r, changes)
    decreases |changes|
  {
    if changes == [] then links
    else
      ChangeKeepsRing(links, r, changes[0]);
      LinksAfter(Changed(links, r, changes[0]), Members(r, changes[0]), changes[1..])
  }

  /** Joins, failed joins and leaves that do not overlap keep one ring, over exactly the members. */
  lemma {:induction false} ChangesKeepRing(links: Links, r: seq<Addr>, changes: seq<Change>)
    requires IsRing(links, r) && AllPossible(r, changes)
    ensures IsRing(LinksAfter(links, r, changes), MembersAfter(r, changes))
    decreases |changes|
  {
    if changes != [] {
      ChangeKeepsRing(links, r, changes[0]);
      ChangesKeepRing(Changed(links, r, changes[0]), Members(r, changes[0]), changes[1..]);
    }
  }

  /** A server starts as a ring of its own. */
  lemma AloneIsRing(x: Addr)
    ensures IsRing(map[x := Link(x, x)], [x])
  {
  }
}
