/** The ring servers as objects, and the calls between them that move pointers. */
module RingServer {
  import opened Common
  import opened RingOrder
  import opened RingLinks
  import opened RingTokens
  import Repair = RingRepair

  class Node {
    const me: Addr
    var prev: Addr
    var next: Addr
    var amCoordinator: bool
    var ringCache: seq<Addr>

    constructor (me: Addr)
      ensures this.me == prev == next == me && !amCoordinator && ringCache == []
    {
      this.me, prev, next := me, me, me;
      amCoordinator, ringCache := false, [];
    }

    /** The token a message to this server is carried by. */
    ghost function Arrived(msg: Message): Token {
      Token(me, msg, 0, 0, 0)
    }

    ghost function Forward(msg: Message): Token
      requires !Finished(Arrived(msg))
      reads this
    {
      Passed(Rust, map[me := Link(prev, next)], Arrived(msg))
    }

    method SetNext(address: Addr)
      modifies this`next
      ensures next == address
    {
      next := address;
    }

    method SetPrev(address: Addr)
      modifies this`prev
      ensures prev == address
    {
      prev := address;
    }

    method OnElection(list: seq<Addr>) returns (msg: Message, to: Addr)
      ensures msg == Forward(Election(list)).msg && to == Forward(Election(list)).to
    {
      to := prev;
      if me !in list {
        msg := Election(list + [me]);
      } else {
        var read: seq<Addr> := [];
        msg := Coordinate(list, read + [me]);
      }
    }

    /** Returns the message to pass on, if the round is not over. */
    method OnCoordinate(members: seq<Addr>, read: seq<Addr>) returns (msg: Option<Message>)
      modifies this`amCoordinator
      ensures amCoordinator == Flag(Rust, Arrived(Coordinate(members, read)), old(amCoordinator))
      ensures msg == if me in read then None else Some(Forward(Coordinate(members, read)).msg)
      ensures me in read ==> Forward(Coordinate(members, read)).msg == Elected(members)
    {
      amCoordinator := IsLeast(members, me);
      if me !in read {
        msg := Some(Coordinate(members, read + [me]));
      } else {
        msg := None;
      }
    }

    method OnList(list: seq<Addr>) returns (msg: Message)
      modifies this`amCoordinator
      ensures amCoordinator == Flag(Rust, Arrived(Listing(list)), old(amCoordinator))
      ensures msg == Forward(Listing(list)).msg
    {
      if me !in list {
        if !IsLeast(list, me) {
          amCoordinator := false;
        }
        msg := Listing(list + [me]);
      } else {
        msg := Announcing(list, 0);
      }
    }

    method OnAnnounce(list: seq<Addr>)
      modifies this`ringCache
      ensures ringCache == list
    {
      ringCache := list;
    }
  }

  lemma ModBelowTwice(q: nat, n: nat)
    requires 0 < n && q < 2 * n
    ensures q % n == if q < n then q else q - n
  {
  }

  lemma ModIsPos(i: nat, j: nat, n: nat)
    requires i < n && j < n
    ensures (i + j + 1) % n == Pos(Pos(i, 1, n), j, n)
  {
    ModBelowTwice(i + j + 1, n);
  }

  lemma BehindIndex(cache: seq<Addr>, x: Addr, j: nat)
    requires x in cache && j < |cache|
    ensures |Behind(cache, x)| == |cache|
    ensures Behind(cache, x)[j] == cache[Pos(Pos(IndexOf(cache, x), 1, |cache|), j, |cache|)]
  {
  }

  lemma BehindLast(cache: seq<Addr>, x: Addr)
    requires x in cache
    ensures |Behind(cache, x)| == |cache| && Behind(cache, x)[|cache| - 1] == x
  {
  }

  /** What the search tries at turn `j`; its last turn is the searcher itself. */
  lemma SearchOrder(cache: seq<Addr>, x: Addr, j: nat)
    requires x in cache && j < |cache|
    ensures |Behind(cache, x)| == |cache| && Behind(cache, x)[|cache| - 1] == x
    ensures Behind(cache, x)[j] == cache[(IndexOf(cache, x) + j + 1) % |cache|]
  {
    hide Behind, Pos;
    BehindIndex(cache, x, j);
    BehindLast(cache, x);
    ModIsPos(IndexOf(cache, x), j, |cache|);
  }

  /** The pointers after the members `tried` were told, as far as they are up, that `x` follows. */
  function AfterTold(links: Links, tried: seq<Addr>, up: set<Addr>, x: Addr): Links
    decreases |tried|
  {
    if tried == [] then links
    else
      var last, rest := tried[|tried| - 1], AfterTold(links, tried[..|tried| - 1], up, x);
      if last in up && last in rest then RingLinks.SetNext(rest, last, x) else rest
  }

  lemma ToldOneMore(links: Links, tried: seq<Addr>, y: Addr, up: set<Addr>, x: Addr)
    ensures var before := AfterTold(links, tried, up, x);
      AfterTold(links, tried + [y], up, x)
        == if y in up && y in before then RingLinks.SetNext(before, y, x) else before
  {
    assert (tried + [y])[..|tried|] == tried;
  }

  lemma {:induction false} ToldNobody(links: Links, tried: seq<Addr>, up: set<Addr>, x: Addr)
    requires forall y | y in tried :: y !in up
    ensures AfterTold(links, tried, up, x) == links
    decreases |tried|
  {
    if tried != [] {
      ToldNobody(links, tried[..|tried| - 1], up, x);
    }
  }

  lemma {:induction false} ToldKeepsKeys(links: Links, tried: seq<Addr>, up: set<Addr>, x: Addr)
    ensures AfterTold(links, tried, up, x).Keys == links.Keys
    decreases |tried|
  {
    if tried != [] {
      ToldKeepsKeys(links, tried[..|tried| - 1], up, x);
    }
  }

  /** How many members are tried until one in `heard` answers. */
  function Tries(behind: seq<Addr>, heard: set<Addr>): (n: nat)
    ensures n <= |behind| && forall j | 0 <= j < n :: behind[j] !in heard
    ensures n < |behind| ==> behind[n] in heard
  {
    if behind == [] || behind[0] in heard then 0 else 1 + Tries(behind[1..], heard)
  }

  /** The pointers after the search of `x`: it settles on the first member it hears from. */
  function AfterSearch(links: Links, behind: seq<Addr>, up: set<Addr>, answered: set<Addr>, x: Addr): Links {
    var n := Tries(behind, up * answered);
    if n == |behind| then AfterTold(links, behind, up, x)
    else
      var told := AfterTold(links, behind[..n + 1], up, x);
      if x in told then RingLinks.SetPrev(told, x, behind[n]) else told
  }

  /** One more member is tried. */
  lemma SearchGoesOn(links: Links, behind: seq<Addr>, i: nat, up: set<Addr>, x: Addr)
    requires i < |behind| && up <= links.Keys
    ensures var before := AfterTold(links, behind[..i], up, x);
      && before.Keys == links.Keys
      && AfterTold(links, behind[..i + 1], up, x)
           == if behind[i] in up then RingLinks.SetNext(before, behind[i], x) else before
  {
    assert behind[..i + 1] == behind[..i] + [behind[i]];
    ToldOneMore(links, behind[..i], behind[i], up, x);
    ToldKeepsKeys(links, behind[..i], up, x);
  }

  lemma SearchEnds(links: Links, behind: seq<Addr>, i: nat, up: set<Addr>, answered: set<Addr>, x: Addr)
    requires i < |behind| && behind[i] in up * answered && forall j | 0 <= j < i :: behind[j] !in up * answered
    requires x in links
    ensures x in AfterTold(links, behind[..i + 1], up, x)
    ensures AfterSearch(links, behind, up, answered, x)
         == RingLinks.SetPrev(AfterTold(links, behind[..i + 1], up, x), x, behind[i])
  {
    assert Tries(behind, up * answered) == i;
    ToldKeepsKeys(links, behind[..i + 1], up, x);
  }

  lemma SearchFails(links: Links, behind: seq<Addr>, up: set<Addr>, answered: set<Addr>, x: Addr)
    requires forall j | 0 <= j < |behind| :: behind[j] !in up * answered
    ensures AfterSearch(links, behind, up, answered, x) == AfterTold(links, behind[..|behind|], up, x)
  {
    assert Tries(behind, up * answered) == |behind|;
    assert behind[..|behind|] == behind;
  }

  lemma SearchSettlesAt(links: Links, behind: seq<Addr>, n: nat, up: set<Addr>, x: Addr)
    requires x in up && up <= links.Keys && n < |behind| && behind[n] in up
    requires forall j | 0 <= j < n :: behind[j] !in up
    ensures AfterSearch(links, behind, up, up, x)
         == RingLinks.SetPrev(RingLinks.SetNext(links, behind[n], x), x, behind[n])
  {
    hide AfterTold;
    assert up * up == up && Tries(behind, up) == n;
    assert behind[..n + 1] == behind[..n] + [behind[n]];
    ToldNobody(links, behind[..n], up, x);
    ToldOneMore(links, behind[..n], behind[n], up, x);
  }

  lemma SearchSettles(links: Links, behind: seq<Addr>, up: set<Addr>, x: Addr)
    requires x in up && x in behind && up <= links.Keys
    ensures var y := FirstIn(behind, up);
      y in links && AfterSearch(links, behind, up, up, x) == RingLinks.SetPrev(RingLinks.SetNext(links, y, x), x, y)
  {
    hide AfterSearch;
    var n := Tries(behind, up);
    FirstInAt(behind, up, n);
    SearchSettlesAt(links, behind, n, up, x);
  }

  lemma MoreAnswers(links: Links, behind: seq<Addr>, up: set<Addr>, answered: set<Addr>, x: Addr)
    requires up <= answered
    ensures AfterSearch(links, behind, up, answered, x) == AfterSearch(links, behind, up, up, x)
  {
    assert up * answered == up == up * up;
  }

  /** When all answers arrive, the search settles on the member the repair is proved with, and nobody
      else is told. */
  lemma SearchFinds(links: Links, cache: seq<Addr>, x: Addr, up: set<Addr>, answered: set<Addr>)
    requires x in cache && x in up && up <= links.Keys
    ensures up <= answered ==>
      var y := Repair.Found(cache, x, up);
      AfterSearch(links, Behind(cache, x), up, answered, x)
        == RingLinks.SetPrev(RingLinks.SetNext(links, y, x), x, y)
  {
    if up <= answered {
      BehindLast(cache, x);
      hide Behind, AfterSearch;
      MoreAnswers(links, Behind(cache, x), up, answered, x);
      SearchSettles(links, Behind(cache, x), up, x);
    }
  }

  /** All servers there are, and which of them answer. */
  class Network {
    const nodes: map<Addr, Node>
    const up: set<Addr>

    constructor (nodes: map<Addr, Node>, up: set<Addr>)
      ensures this.nodes == nodes && this.up == up
    {
      this.nodes, this.up := nodes, up;
    }

    ghost predicate Valid() {
      up <= nodes.Keys && forall a | a in nodes :: nodes[a].me == a
    }

    ghost function LinksNow(): Links
      reads nodes.Values
    {
      map a | a in nodes :: Link(nodes[a].prev, nodes[a].next)
    }

    /** A call may take effect and still look failed, when its answer is lost. */
    method CallSetNext(dest: Addr, address: Addr, answered: bool) returns (ok: bool)
      requires Valid()
      modifies nodes.Values
      ensures ok == (dest in up && answered)
      ensures LinksNow() == if dest in up then RingLinks.SetNext(old(LinksNow()), dest, address) else old(LinksNow())
      ensures forall a | a in nodes :: nodes[a].ringCache == old(nodes[a].ringCache)
    {
      if dest !in up {
        return false;
      }
      nodes[dest].SetNext(address);
      return answered;
    }

    method CallSetPrev(dest: Addr, address: Addr, answered: bool) returns (ok: bool)
      requires Valid()
      modifies nodes.Values
      ensures ok == (dest in up && answered)
      ensures LinksNow() == if dest in up then RingLinks.SetPrev(old(LinksNow()), dest, address) else old(LinksNow())
    {
      if dest !in up {
        return false;
      }
      nodes[dest].SetPrev(address);
      return answered;
    }

    /** The side that lets `newPrev` in: the old prev, or nothing after the rollback. */
    method JoinImpl(at: Addr, newPrev: Addr, answered: bool) returns (result: Option<Addr>)
      requires Valid() && at in nodes && nodes[at].prev in nodes
      modifies nodes.Values
      ensures var oldPrev := old(nodes[at].prev);
        result == if oldPrev in up && answered then Some(oldPrev) else None
      ensures result.Some? ==>
        LinksNow() == RingLinks.SetNext(RingLinks.SetPrev(old(LinksNow()), at, newPrev), result.value, newPrev)
      ensures result.None? ==> LinksNow() == FailedJoin(old(LinksNow()), newPrev, at, old(nodes[at].prev) in up)
    {
      var oldPrev := nodes[at].prev;
      nodes[at].prev := newPrev;
      assert LinksNow() == RingLinks.SetPrev(old(LinksNow()), at, newPrev);
      var ok := CallSetNext(oldPrev, newPrev, answered);
      if ok {
        return Some(oldPrev);
      }
      nodes[at].prev := oldPrev;
      return None;
    }

    /** The side that joins; the reply to it may be lost as well. */
    method JoinRing(m: Addr, at: Addr, answered: bool, replied: bool) returns (joined: bool)
      requires Valid() && m in nodes && at in nodes && nodes[at].prev in nodes
      modifies nodes.Values
      ensures var admitted := old(nodes[at].prev) in up && answered;
        && joined == (admitted && replied)
        && LinksNow() ==
             if joined then Join(old(LinksNow()), m, at)
             else if admitted then HalfJoin(old(LinksNow()), m, at)
             else FailedJoin(old(LinksNow()), m, at, old(nodes[at].prev) in up)
    {
      var result := JoinImpl(at, m, answered);
      if result.None? || !replied {
        return false;
      }
      nodes[m].next := at;
      nodes[m].prev := result.value;
      return true;
    }

    method LeaveRing(x: Addr)
      requires Valid() && x in nodes && nodes[x].prev in nodes && nodes[x].next in nodes
      modifies nodes.Values
      ensures LinksNow() == Leave(old(LinksNow()), x, old(nodes[x].next) in up, old(nodes[x].prev) in up)
    {
      var prev, next := nodes[x].prev, nodes[x].next;
      var _ := CallSetPrev(next, prev, true);
      var _ := CallSetNext(prev, next, true);
    }

    method Settle(x: Addr, y: Addr)
      requires Valid() && x in nodes
      modifies nodes.Values
      ensures LinksNow() == RingLinks.SetPrev(old(LinksNow()), x, y)
    {
      nodes[x].prev := y;
    }

    /** Tries the cached members behind `x`, itself last, until one answers. A member whose answer is
        lost has been told all the same. */
    method RecoveryPrev(x: Addr, answered: set<Addr>)
      requires Valid() && x in up
      modifies nodes.Values
      ensures old(x !in nodes[x].ringCache) ==> LinksNow() == old(LinksNow())
      ensures old(x in nodes[x].ringCache) ==>
        LinksNow() == AfterSearch(old(LinksNow()), Behind(old(nodes[x].ringCache), x), up, answered, x)
      ensures old(x in nodes[x].ringCache) && up <= answered ==>
        var y := Repair.Found(old(nodes[x].ringCache), x, up);
        LinksNow() == RingLinks.SetPrev(RingLinks.SetNext(old(LinksNow()), y, x), x, y)
    {
      var cache := nodes[x].ringCache;
      if x !in cache {
        return;
      }
      var index := IndexOf(cache, x);
      ghost var behind, links := Behind(cache, x), LinksNow();
      hide Behind, AfterTold, AfterSearch, Tries;
      SearchOrder(cache, x, 0);
      SearchFinds(links, cache, x, up, answered);
      ToldNobody(links, behind[..0], up, x);
      var i := 0;
      while i < |cache|
        invariant 0 <= i <= |cache|
        invariant LinksNow() == AfterTold(links, behind[..i], up, x)
        invariant forall j | 0 <= j < i :: behind[j] !in up * answered
      {
        SearchOrder(cache, x, i);
        SearchGoesOn(links, behind, i, up, x);
        var prev := cache[(index + i + 1) % |cache|];
        var ok := CallSetNext(prev, x, prev in answered);
        if ok {
          SearchEnds(links, behind, i, up, answered, x);
          Settle(x, prev);
          return;
        }
        i := i + 1;
      }
      SearchFails(links, behind, up, answered, x);
    }
  }
}
