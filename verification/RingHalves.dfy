/** Rings in one direction: what is left of the ring when only one of two calls arrives. Messages walk along
    `prev` alone, joins and leaves need `next` as well. */
module RingHalves {
  import opened Common
  import opened RingOrder
  import opened RingLinks

  /** `prev` walks the members in the order of `r`. */
  ghost predicate PrevRing(links: Links, r: seq<Addr>) {
    && |r| > 0 && Distinct(r)
    && forall i {:trigger r[i]} | 0 <= i < |r| :: r[i] in links && links[r[i]].prev == r[Pos(i, 1, |r|)]
  }

  /** `next` walks them back. */
  ghost predicate NextRing(links: Links, r: seq<Addr>) {
    && |r| > 0 && Distinct(r)
    && forall i {:trigger r[i]} | 0 <= i < |r| ::
         r[Pos(i, 1, |r|)] in links && links[r[Pos(i, 1, |r|)]].next == r[i]
  }

  lemma BothHalves(links: Links, r: seq<Addr>)
    ensures IsRing(links, r) <==> PrevRing(links, r) && NextRing(links, r)
  {
    if IsRing(links, r) {
      forall i | 0 <= i < |r|
        ensures r[i] in links && links[r[i]].prev == r[Pos(i, 1, |r|)]
        ensures r[Pos(i, 1, |r|)] in links && links[r[Pos(i, 1, |r|)]].next == r[i]
      {
        RingAt(links, r, i, i);
      }
    }
  }

  /** Pointers that agree on `prev` make the same prev ring. */
  lemma SamePrevs(links: Links, other: Links, r: seq<Addr>)
    requires PrevRing(links, r) && forall a | a in r :: a in other && (a in links ==> other[a].prev == links[a].prev)
    ensures PrevRing(other, r)
  {
    assert forall i | 0 <= i < |r| :: r[i] in r;
  }

  lemma SameNexts(links: Links, other: Links, r: seq<Addr>)
    requires NextRing(links, r) && forall a | a in r :: a in other && (a in links ==> other[a].next == links[a].next)
    ensures NextRing(other, r)
  {
    forall i | 0 <= i < |r|
      ensures r[Pos(i, 1, |r|)] in other && other[r[Pos(i, 1, |r|)]].next == r[i]
    {
      assert r[Pos(i, 1, |r|)] in r;
    }
  }

  lemma PrevStaysInside(links: Links, r: seq<Addr>, a: Addr)
    requires PrevRing(links, r) && a in r
    ensures a in links && links[a].prev in r
  {
    var i := IndexOf(r, a);
    assert r[i] == a;
  }

  lemma NextStaysInside(links: Links, r: seq<Addr>, a: Addr)
    requires NextRing(links, r) && a in r
    ensures a in links && links[a].next in r
  {
    var i := IndexOf(r, a);
    var h := Pos(i, |r| - 1, |r|);
    assert Pos(h, 1, |r|) == i && r[h] in r;
  }

  // ----- Leaving -----

  /** Where every pointer is after a leave: each call that arrives moves the one pointer it is about,
      whatever became of the other call, and nothing else moves. */
  lemma LeaveMoves(links: Links, x: Addr, nextTold: bool, prevTold: bool, a: Addr)
    requires x in links && links[x].prev in links && links[x].next in links
    ensures var to := Leave(links, x, nextTold, prevTold);
      && to.Keys == links.Keys
      && (a in links ==>
            && to[a].prev == (if a == links[x].next && nextTold then links[x].prev else links[a].prev)
            && to[a].next == (if a == links[x].prev && prevTold then links[x].next else links[a].next))
  {
  }

  /** Each call closes its own half of the ring behind the leaver: messages find their way around again
      exactly when the next neighbour was told, whether or not the other one was, and the other way
      round. */
  lemma LeaveClosesHalvesIff(links: Links, r: seq<Addr>, x: Addr, nextTold: bool, prevTold: bool)
    requires IsRing(links, r) && x in r && |r| >= 2
    ensures x in links && links[x].prev in links && links[x].next in links
    ensures var to, others := Leave(links, x, nextTold, prevTold), Removed(r, x);
      && (PrevRing(to, others) <==> nextTold)
      && (NextRing(to, others) <==> prevTold)
  {
    LeaveKeepsRing(links, r, x);
    LeaverIsGone(links, r, x);
    var to, whole, others := Leave(links, x, nextTold, prevTold), Leave(links, x, true, true), Removed(r, x);
    BothHalves(whole, others);
    forall a ensures to.Keys == links.Keys == whole.Keys
      ensures a in links && nextTold ==> to[a].prev == whole[a].prev
      ensures a in links && prevTold ==> to[a].next == whole[a].next
    {
      LeaveMoves(links, x, nextTold, prevTold, a);
      LeaveMoves(links, x, true, true, a);
    }
    LeaveMoves(links, x, nextTold, prevTold, links[x].prev);
    LeaveMoves(links, x, nextTold, prevTold, links[x].next);
    PrevIsMember(links, r, x);
    hide IsRing, Leave, Removed, PrevRing, NextRing;
    ClosedHalves(to, whole, others, nextTold, prevTold);
    if PrevRing(to, others) {
      PrevStaysInside(to, others, links[x].next);
    }
    if NextRing(to, others) {
      NextStaysInside(to, others, links[x].prev);
    }
  }

  lemma ClosedHalves(to: Links, whole: Links, r: seq<Addr>, prevs: bool, nexts: bool)
    requires PrevRing(whole, r) && NextRing(whole, r) && to.Keys == whole.Keys
    requires forall a | a in to :: prevs ==> to[a].prev == whole[a].prev
    requires forall a | a in to :: nexts ==> to[a].next == whole[a].next
    ensures prevs ==> PrevRing(to, r)
    ensures nexts ==> NextRing(to, r)
  {
    forall a | a in r ensures a in to {
      PrevStaysInside(whole, r, a);
    }
    if prevs {
      SamePrevs(whole, to, r);
    }
    if nexts {
      SameNexts(whole, to, r);
    }
  }

  // ----- Failed joins -----

  /** Where every pointer is after a failed join: the asked server has its prev back in any case, and only
      the next of that prev may have moved, if the call took effect after all. */
  lemma FailedJoinMoves(links: Links, m: Addr, at: Addr, reached: bool, a: Addr)
    requires at in links && links[at].prev in links
    ensures var to := FailedJoin(links, m, at, reached);
      && to.Keys == links.Keys
      && (a in links ==>
            && to[a].prev == links[a].prev
            && to[a].next == (if a == links[at].prev && reached then m else links[a].next))
  {
  }

  /** So messages always find their way around after a failed join; the way back is broken exactly when the
      call took effect. */
  lemma FailedJoinHalves(links: Links, r: seq<Addr>, m: Addr, at: Addr, reached: bool)
    requires IsRing(links, r) && at in r && m !in r
    ensures at in links && links[at].prev in links
    ensures PrevRing(FailedJoin(links, m, at, reached), r)
    ensures NextRing(FailedJoin(links, m, at, reached), r) <==> !reached
  {
    PrevIsMember(links, r, at);
    BothHalves(links, r);
    var to := FailedJoin(links, m, at, reached);
    forall a ensures to.Keys == links.Keys
      ensures a in links ==> to[a].prev == links[a].prev
      ensures a in links && !reached ==> to[a].next == links[a].next
    {
      FailedJoinMoves(links, m, at, reached, a);
    }
    FailedJoinMoves(links, m, at, reached, links[at].prev);
    hide IsRing, FailedJoin, PrevRing, NextRing;
    ClosedHalves(to, links, r, true, !reached);
    if NextRing(to, r) {
      NextStaysInside(to, r, links[at].prev);
    }
  }

  // ----- Joins whose reply is lost -----

  /** Where every pointer is when a newcomer was let in and does not hear of it: the asked server and its old
      prev point at the newcomer, which has not moved itself. */
  lemma HalfJoinMoves(links: Links, m: Addr, at: Addr, a: Addr)
    requires at in links && links[at].prev in links
    ensures var to := HalfJoin(links, m, at);
      && to.Keys == links.Keys
      && (a in links ==>
            && to[a].prev == (if a == at then m else links[a].prev)
            && to[a].next == (if a == links[at].prev then m else links[a].next))
  {
  }

  /** Then neither direction closes, with the newcomer or without it. */
  lemma HalfJoinHalves(links: Links, r: seq<Addr>, m: Addr, at: Addr)
    requires IsRing(links, r) && at in r && m !in r && m in links && links[m] == Link(m, m)
    ensures at in links && links[at].prev in links
    ensures var to := HalfJoin(links, m, at);
      && !PrevRing(to, r) && !NextRing(to, r)
      && !PrevRing(to, Inserted(r, m, at)) && !NextRing(to, Inserted(r, m, at))
  {
    PrevIsMember(links, r, at);
    var to, s := HalfJoin(links, m, at), Inserted(r, m, at);
    HalfJoinMoves(links, m, at, at);
    HalfJoinMoves(links, m, at, m);
    HalfJoinMoves(links, m, at, links[at].prev);
    InsertedIndex(r, m, at, IndexOf(r, at) + 1);
    hide IsRing, HalfJoin, Inserted;
    if PrevRing(to, r) {
      PrevStaysInside(to, r, at);
    }
    if NextRing(to, r) {
      NextStaysInside(to, r, links[at].prev);
    }
    LonelyInNoRing(to, s, IndexOf(r, at) + 1);
  }

  /** A server that points at itself is in no ring of two or more. */
  lemma LonelyInNoRing(links: Links, s: seq<Addr>, i: nat)
    requires i < |s| && |s| >= 2 && s[i] in links && links[s[i]] == Link(s[i], s[i])
    ensures !PrevRing(links, s) && !NextRing(links, s)
  {
    var h := Pos(i, |s| - 1, |s|);
    var before := s[h];
    assert Pos(h, 1, |s|) == i && h != i && Pos(i, 1, |s|) != i;
  }
}
