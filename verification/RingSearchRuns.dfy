/** Single runs of module RingSearches: the search of one server when nothing comes between its steps, and
    a run after which a retry does not help. */
module RingSearchRuns {
  import opened Common
  import opened RingOrder
  import opened RingLinks
  import opened RingSearches
  import Repair = RingRepair
  import Server = RingServer

  lemma OneMove(links: Links, s: Search, r: seq<Addr>, w: Repair.Setting, move: Move, moves: seq<Move>, end: Search)
    requires Repair.Crashed(links, r, w) && SearchOk(links, s, r, w) && CanMove(s, r, w, move)
    requires SearchOk(links, Moved(s, r, w, move), r, w)
    requires Legal(links, Moved(s, r, w, move), r, w, moves) && Run(links, Moved(s, r, w, move), r, w, moves) == end
    ensures Legal(links, s, r, w, [move] + moves) && Run(links, s, r, w, [move] + moves) == end
  {
    hide Repair.Crashed, SearchOk, CanMove, Moved;
    assert ([move] + moves)[0] == move && ([move] + moves)[1..] == moves;
  }

  // ----- A search without interruption -----

  /** The search of `x` is at member `i`, has told `start` along the way, and is alone. */
  ghost predicate SearchingAt(s: Search, w: Repair.Setting, start: Links, x: Addr, i: nat)
    requires x in w.caches && x in w.caches[x]
  {
    var behind := Behind(w.caches[x], x);
    && i < |behind| && (x, i) in s.searches
    && (forall n :: (x, n) in s.searches ==> n == i)
    && (forall y :: (x, y) !in s.found)
    && s.links == Server.AfterTold(start, behind[..i], w.live, x)
  }

  /** What a try leaves, when its answer arrives or not. */
  lemma TryTells(
      links: Links, s: Search, r: seq<Addr>, w: Repair.Setting, start: Links, x: Addr, i: nat, answered: bool)
    requires Repair.Crashed(links, r, w) && SearchOk(links, s, r, w) && Survives(r, w, x)
    requires x in w.caches && x in w.caches[x] && SearchingAt(s, w, start, x, i)
    ensures var behind, t := Behind(w.caches[x], x), Moved(s, r, w, Try(x, i, answered));
      && CanMove(s, r, w, Try(x, i, answered))
      && t.links == Server.AfterTold(start, behind[..i + 1], w.live, x)
      && (behind[i] in w.live && answered ==> (x, behind[i]) in t.found && x in t.links)
      && t.searches == (if behind[i] in w.live && answered then s.searches - {(x, i)}
                        else Onward(s.searches, x, i, |behind|))
      && t.found == (if behind[i] in w.live && answered then s.found + {(x, behind[i])} else s.found)
  {
    var behind := Behind(w.caches[x], x);
    TriedIsMember(links, r, w, x, i);
    assert behind[..i + 1] == behind[..i] + [behind[i]];
    Server.ToldOneMore(start, behind[..i], behind[i], w.live, x);
    assert behind[i] in w.live ==> PointersOk(links, s, behind[i]);
    assert PointersOk(links, s, x);
    hide Repair.Crashed, SearchOk, Behind, Server.AfterTold;
  }

  /** From member `i` on. */
  lemma {:induction false} SearchGoesThrough(
      links: Links, s: Search, r: seq<Addr>, w: Repair.Setting, start: Links, x: Addr, i: nat, answered: set<Addr>)
    returns (moves: seq<Move>, end: Search)
    requires Repair.Crashed(links, r, w) && SearchOk(links, s, r, w) && Survives(r, w, x)
    requires x in w.caches && x in w.caches[x] && SearchingAt(s, w, start, x, i) && x in start
    requires forall j | 0 <= j < i :: Behind(w.caches[x], x)[j] !in w.live * answered
    ensures Legal(links, s, r, w, moves) && Run(links, s, r, w, moves) == end
    ensures end.links == Server.AfterSearch(start, Behind(w.caches[x], x), w.live, answered, x)
    ensures end.searches == s.searches - {(x, i)} && end.found == s.found
    ensures forall move | move in moves :: move.x == x && !move.Look?
    ensures (forall y | y in Behind(w.caches[x], x) :: y in answered) ==> NoLoss(moves)
    decreases |Behind(w.caches[x], x)| - i
  {
    hide Repair.Crashed, SearchOk, Behind, Moved, CanMove, Server.AfterTold, Server.AfterSearch, Survives;
    var behind := Behind(w.caches[x], x);
    var try := Try(x, i, behind[i] in answered);
    TryTells(links, s, r, w, start, x, i, behind[i] in answered);
    MoveKeepsOk(links, s, r, w, try);
    var t := Moved(s, r, w, try);
    if behind[i] in w.live && behind[i] in answered {
      Server.SearchEnds(start, behind, i, w.live, answered, x);
      end := Chooses(links, t, r, w, x, behind[i]);
      moves := [Choose(x, behind[i])];
    } else if i + 1 < |behind| {
      moves, end := SearchGoesThrough(links, t, r, w, start, x, i + 1, answered);
    } else {
      assert behind[..|behind|] == behind[..i + 1];
      Server.SearchFails(start, behind, w.live, answered, x);
      moves, end := [], t;
    }
    OneMove(links, s, r, w, try, moves, end);
    moves := [try] + moves;
  }

  lemma Chooses(links: Links, s: Search, r: seq<Addr>, w: Repair.Setting, x: Addr, y: Addr) returns (end: Search)
    requires Repair.Crashed(links, r, w) && SearchOk(links, s, r, w) && (x, y) in s.found && x in s.links
    ensures Legal(links, s, r, w, [Choose(x, y)]) && Run(links, s, r, w, [Choose(x, y)]) == end
    ensures end.links == SetPrev(s.links, x, y) && end.searches == s.searches && end.found == s.found - {(x, y)}
  {
    hide Repair.Crashed, SearchOk;
    end := Moved(s, r, w, Choose(x, y));
    MoveKeepsOk(links, s, r, w, Choose(x, y));
    assert Legal(links, end, r, w, []) && Run(links, end, r, w, []) == end;
    OneMove(links, s, r, w, Choose(x, y), [], end);
    assert [Choose(x, y)] + [] == [Choose(x, y)];
  }

  /** The whole search of a server, as the object of module RingServer makes it in one piece, is a run of
      its moves: a look, a try for each member until an answer arrives, and the choice, whatever other
      searches are under way. */
  lemma SearchIsRun(links: Links, s: Search, r: seq<Addr>, w: Repair.Setting, x: Addr, answered: set<Addr>)
    returns (moves: seq<Move>, end: Search)
    requires Repair.Crashed(links, r, w) && SearchOk(links, s, r, w) && Survives(r, w, x)
    requires forall n :: (x, n) !in s.searches
    requires forall y :: (x, y) !in s.found
    ensures x in w.caches && x in w.caches[x]
    ensures Legal(links, s, r, w, moves) && Run(links, s, r, w, moves) == end
    ensures end.links == Server.AfterSearch(s.links, Behind(w.caches[x], x), w.live, answered, x)
    ensures end.searches == s.searches && end.found == s.found
    ensures forall move | move in moves :: move.x == x
    ensures (forall y | y in Behind(w.caches[x], x) :: y in answered) ==> NoLoss(moves)
  {
    hide Server.AfterTold, Server.AfterSearch;
    SearcherIsThere(links, s, r, w, x);
    hide Repair.Crashed, SearchOk, Behind;
    MoveKeepsOk(links, s, r, w, Look(x));
    Server.ToldNobody(s.links, Behind(w.caches[x], x)[..0], w.live, x);
    moves, end := SearchGoesThrough(links, Moved(s, r, w, Look(x)), r, w, s.links, x, 0, answered);
    OneMove(links, s, r, w, Look(x), moves, end);
    moves := [Look(x)] + moves;
  }

  lemma SearcherIsThere(links: Links, s: Search, r: seq<Addr>, w: Repair.Setting, x: Addr)
    requires Repair.Crashed(links, r, w) && SearchOk(links, s, r, w) && Survives(r, w, x)
    ensures x in w.caches && x in w.caches[x] && |Behind(w.caches[x], x)| > 0 && x in s.links
  {
    BehindRotation(r, w.caches[x], x);
    BehindSplits(w.caches[x], x);
    assert PointersOk(links, s, x);
  }

  // ----- A retry that does not help -----

  /** After the run `moves`, server `x` had been the last to tell `y`, which it should not find. It has
      searched again without loss, found the right member, and the survivors are no ring. */
  ghost predicate RetriedInVain(links: Links, r: seq<Addr>, w: Repair.Setting, moves: seq<Move>, s: Search,
                                retries: seq<Move>, end: Search, x: Addr, y: Addr)
  {
    && Searched(links, r, w, moves, s) && Honest(s, r, w)
    && NoLoss(retries) && Legal(links, s, r, w, retries) && end == Run(links, s, r, w, retries)
    && Survives(r, w, x) && Survives(r, w, y) && y != Repair.Heir(r, w.live, x) && LastToldBy(s, y, x)
    && (forall m | m in retries :: m.x == x)
    && x in end.links && end.links[x].prev == Repair.Heir(r, w.live, x)
    && !IsRing(end.links, Filter(r, w.live))
  }

  /** The ring of four servers in which 2 has crashed, and 1 has to find 3. */
  const RING: seq<Addr> := [1, 2, 3, 4]

  const LINKS: Links := map[1 := Link(2, 4), 2 := Link(3, 1), 3 := Link(4, 2), 4 := Link(1, 3)]

  const SETTING := Repair.Setting(map[1 := RING, 3 := RING, 4 := RING], {1, 3, 4})

  lemma FourInRing()
    ensures IsRing(LINKS, RING)
  {
    forall i | 0 <= i < 4 ensures Linked(LINKS, RING, i) {
      assert i == 0 || i == 1 || i == 2 || i == 3;
    }
  }

  lemma FourCrashed()
    ensures Repair.Crashed(LINKS, RING, SETTING) && Survives(RING, SETTING, 1) && Survives(RING, SETTING, 4)
  {
    FourInRing();
    hide IsRing, Arc;
    assert RING[0] in RING && RING[3] in RING;
    WholeIsRotation(RING);
  }

  lemma WholeIsRotation(r: seq<Addr>)
    requires |r| > 0
    ensures Rotation(r, r)
  {
    assert Arc(r, 0, |r|) == r;
  }

  lemma OneLooks()
    ensures 1 in RING && Behind(RING, 1) == [2, 3, 4, 1] && Repair.Heir(RING, SETTING.live, 1) == 3
  {
    assert RING[0] in RING && RING == [1] + RING[1..];
    BehindSplits(RING, 1);
    hide Behind;
    FirstInAt([2, 3, 4, 1], SETTING.live, 1);
  }

  /** The search of 1 tells 3, whose answer is lost, and then 4. */
  lemma LostAnswerTellsTwo()
    ensures Server.AfterSearch(LINKS, [2, 3, 4, 1], SETTING.live, {1, 4}, 1)
         == map[1 := Link(4, 4), 2 := Link(3, 1), 3 := Link(4, 1), 4 := Link(1, 1)]
  {
    var behind: seq<Addr> := [2, 3, 4, 1];
    assert behind[..0] == [] && behind[..1] == [2] && behind[..2] == [2, 3] && behind[..3] == [2, 3, 4];
    Server.SearchGoesOn(LINKS, behind, 0, SETTING.live, 1);
    Server.SearchGoesOn(LINKS, behind, 1, SETTING.live, 1);
    Server.SearchGoesOn(LINKS, behind, 2, SETTING.live, 1);
    Server.SearchEnds(LINKS, behind, 2, SETTING.live, {1, 4}, 1);
  }

  lemma RetryTellsOne(links: Links)
    requires links == map[1 := Link(4, 4), 2 := Link(3, 1), 3 := Link(4, 1), 4 := Link(1, 1)]
    ensures var to := Server.AfterSearch(links, [2, 3, 4, 1], SETTING.live, {1, 2, 3, 4}, 1);
      1 in to && to[1].prev == 3
  {
    var behind: seq<Addr> := [2, 3, 4, 1];
    assert behind[..0] == [] && behind[..1] == [2] && behind[..2] == [2, 3];
    Server.SearchGoesOn(links, behind, 0, SETTING.live, 1);
    Server.SearchGoesOn(links, behind, 1, SETTING.live, 1);
    Server.SearchEnds(links, behind, 1, SETTING.live, {1, 2, 3, 4}, 1);
  }

  lemma OwnRetryFails()
    ensures exists links, r, w, moves, s, retries, end, x, y ::
      RetriedInVain(links, r, w, moves, s, retries, end, x, y)
  {
    FourCrashed();
    OneLooks();
    LostAnswerTellsTwo();
    hide Repair.Crashed, Behind, Repair.Heir, Server.AfterSearch, Server.AfterTold, Legal, Run;
    BegunIsOk(LINKS, RING, SETTING);
    var moves, s := SearchIsRun(LINKS, Begun(LINKS), RING, SETTING, 1, {1, 4});
    RetryTellsOne(s.links);
    assert PointersOk(LINKS, s, 4);
    hide SearchOk;
    var retries, end := SearchIsRun(LINKS, s, RING, SETTING, 1, {1, 2, 3, 4});
    OwnRetryIsNotEnough(LINKS, RING, SETTING, moves, s, retries, end, 1, 4);
    assert RetriedInVain(LINKS, RING, SETTING, moves, s, retries, end, 1, 4);
  }
}
