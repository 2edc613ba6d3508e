/** Repairs in which answers are lost: a member that is alive is told, but the searcher goes on to the
    next one. When such runs still end in the ring of the survivors. */
module RingSearches {
  import opened Common
  import opened RingOrder
  import opened RingLinks
  import opened RingRepair

  /** `searches` are the searches under way, with the number of members tried; `found` are those that
      got an answer, before they set their own prev. `told` has who last told a server that it follows,
      `chose` the member a server last settled on. */
  datatype Search = Search(
    links: Links,
    searches: set<(Addr, nat)>,
    found: set<(Addr, Addr)>,
    told: map<Addr, Addr>,
    chose: map<Addr, Addr>)

  datatype Move =
    | Look(x: Addr)
    | Try(x: Addr, n: nat, answered: bool)
    | Choose(x: Addr, y: Addr)

  ghost predicate Survives(r: seq<Addr>, w: Setting, x: Addr) {
    x in r && x in w.live
  }

  ghost predicate CanMove(s: Search, r: seq<Addr>, w: Setting, move: Move) {
    match move
    case Look(x) => Survives(r, w, x)
    case Try(x, n, _) =>
      (x, n) in s.searches && x in w.caches && x in w.caches[x] && n < |Behind(w.caches[x], x)|
    case Choose(x, y) => (x, y) in s.found && x in s.links
  }

  function Tell(s: Search, x: Addr, y: Addr): Search {
    if y in s.links then s.(links := SetNext(s.links, y, x), told := s.told[y := x]) else s
  }

  /** The search goes on to the next member, if there is one. */
  function Onward(searches: set<(Addr, nat)>, x: Addr, n: nat, size: nat): set<(Addr, nat)> {
    if n + 1 < size then searches - {(x, n)} + {(x, n + 1)} else searches - {(x, n)}
  }

  function Moved(s: Search, r: seq<Addr>, w: Setting, move: Move): Search
    requires move.Try? ==>
      && move.x in w.caches && move.x in w.caches[move.x]
      && move.n < |Behind(w.caches[move.x], move.x)|
    requires move.Choose? ==> move.x in s.links
  {
    match move
    case Look(x) => s.(searches := s.searches + {(x, 0)})
    case Try(x, n, answered) =>
      var y, size := Behind(w.caches[x], x)[n], |Behind(w.caches[x], x)|;
      if y !in w.live then s.(searches := Onward(s.searches, x, n, size))
      else if answered then Tell(s, x, y).(searches := s.searches - {(x, n)}, found := s.found + {(x, y)})
      else Tell(s, x, y).(searches := Onward(s.searches, x, n, size))
    case Choose(x, y) =>
      s.(links := SetPrev(s.links, x, y), chose := s.chose[x := y], found := s.found - {(x, y)})
  }

  function Begun(links: Links): Search {
    Search(links, {}, {}, map[], map[])
  }

  // ----- The pointers, at any time -----

  ghost predicate PointersOk(links: Links, s: Search, x: Addr) {
    && x in links && x in s.links
    && s.links[x].prev == (if x in s.chose then s.chose[x] else links[x].prev)
    && s.links[x].next == (if x in s.told then s.told[x] else links[x].next)
  }

  ghost predicate SearchOk(links: Links, s: Search, r: seq<Addr>, w: Setting) {
    && (forall x {:trigger PointersOk(links, s, x)} | Survives(r, w, x) :: PointersOk(links, s, x))
    && (forall p | p in s.searches :: Survives(r, w, p.0))
    && (forall p | p in s.found :: Survives(r, w, p.0) && Survives(r, w, p.1))
    && (forall y | y in s.told :: Survives(r, w, s.told[y]))
    && (forall x | x in s.chose :: Survives(r, w, s.chose[x]))
  }

  lemma BegunIsOk(links: Links, r: seq<Addr>, w: Setting)
    requires Crashed(links, r, w)
    ensures SearchOk(links, Begun(links), r, w)
  {
    forall x | Survives(r, w, x) ensures PointersOk(links, Begun(links), x) {
      RingAt(links, r, IndexOf(r, x), 0);
    }
  }

  /** Whom a search tries is a member of the ring, the same for every rotation of it in the cache. */
  lemma TriedIsMember(links: Links, r: seq<Addr>, w: Setting, x: Addr, n: nat)
    requires Crashed(links, r, w) && Survives(r, w, x)
    requires x in w.caches && x in w.caches[x] && n < |Behind(w.caches[x], x)|
    ensures Behind(w.caches[x], x) == Behind(r, x) && Behind(r, x)[n] in r
  {
    BehindRotation(r, w.caches[x], x);
    ArcMembers(r, Pos(IndexOf(r, x), 1, |r|), |r|);
    assert Behind(r, x)[n] in Behind(r, x);
  }

  lemma TellKeepsPointers(links: Links, s: Search, x: Addr, y: Addr, z: Addr)
    requires PointersOk(links, s, z)
    ensures PointersOk(links, Tell(s, x, y), z)
  {
  }

  lemma TryKeepsOk(links: Links, s: Search, r: seq<Addr>, w: Setting, move: Move)
    requires Crashed(links, r, w) && SearchOk(links, s, r, w) && CanMove(s, r, w, move) && move.Try?
    ensures SearchOk(links, Moved(s, r, w, move), r, w)
  {
    hide Crashed, Behind;
    assert Survives(r, w, (move.x, move.n).0);
    TriedIsMember(links, r, w, move.x, move.n);
    var y, t := Behind(w.caches[move.x], move.x)[move.n], Moved(s, r, w, move);
    hide PointersOk;
    forall z | Survives(r, w, z) ensures PointersOk(links, t, z) {
      assert PointersOk(links, s, z);
      TellKeepsPointers(links, s, move.x, y, z);
      SamePointers(links, s, t, z);
      SamePointers(links, Tell(s, move.x, y), t, z);
    }
  }

  lemma SamePointers(links: Links, s: Search, t: Search, z: Addr)
    ensures t.links == s.links && t.told == s.told && t.chose == s.chose ==>
      PointersOk(links, t, z) == PointersOk(links, s, z)
  {
  }

  lemma MoveKeepsOk(links: Links, s: Search, r: seq<Addr>, w: Setting, move: Move)
    requires Crashed(links, r, w) && SearchOk(links, s, r, w) && CanMove(s, r, w, move)
    ensures SearchOk(links, Moved(s, r, w, move), r, w)
  {
    hide Crashed, Behind;
    if move.Try? {
      TryKeepsOk(links, s, r, w, move);
    } else {
      assert move.Choose? ==> Survives(r, w, (move.x, move.y).0) && Survives(r, w, (move.x, move.y).1);
      forall z | Survives(r, w, z) ensures PointersOk(links, Moved(s, r, w, move), z) {
        assert PointersOk(links, s, z);
      }
    }
  }

  // ----- Runs -----

  ghost predicate Legal(links: Links, s: Search, r: seq<Addr>, w: Setting, moves: seq<Move>)
    requires Crashed(links, r, w) && SearchOk(links, s, r, w)
    decreases |moves|
  {
    moves == [] ||
    (CanMove(s, r, w, moves[0]) &&
     (MoveKeepsOk(links, s, r, w, moves[0]); Legal(links, Moved(s, r, w, moves[0]), r, w, moves[1..])))
  }

  ghost function Run(links: Links, s: Search, r: seq<Addr>, w: Setting, moves: seq<Move>): (end: Search)
    requires Crashed(links, r, w) && SearchOk(links, s, r, w) && Legal(links, s, r, w, moves)
    ensures SearchOk(links, end, r, w)
    decreases |moves|
  {
    if moves == [] then s
    else
      MoveKeepsOk(links, s, r, w, moves[0]);
      Run(links, Moved(s, r, w, moves[0]), r, w, moves[1..])
  }

  /** `end` is reached from the crash by searches of survivors, in any order and number, finished or not,
      with answers lost or not. */
  ghost predicate Searched(links: Links, r: seq<Addr>, w: Setting, moves: seq<Move>, end: Search) {
    && Crashed(links, r, w)
    && (BegunIsOk(links, r, w);
        Legal(links, Begun(links), r, w, moves) && Run(links, Begun(links), r, w, moves) == end)
  }

  // ----- When the survivors form the ring -----

  /** A server that settled, settled last on the member it should find; one that did not, lost no prev. */
  ghost predicate ChoseRight(links: Links, r: seq<Addr>, w: Setting, end: Search, x: Addr)
    requires Survives(r, w, x) && x in links
  {
    if x in end.chose then end.chose[x] == Heir(r, w.live, x) else links[x].prev in w.live
  }

  /** A server that was told, was told last by the one that should find it; one that was not, lost no
      next. */
  ghost predicate ToldRight(links: Links, r: seq<Addr>, w: Setting, end: Search, y: Addr)
    requires Survives(r, w, y) && y in links
  {
    if y in end.told then Survives(r, w, end.told[y]) && Heir(r, w.live, end.told[y]) == y
    else links[y].next in w.live
  }

  ghost predicate AllRight(links: Links, r: seq<Addr>, w: Setting, end: Search) {
    forall x {:trigger Survives(r, w, x)} | Survives(r, w, x) ::
      x in links && ChoseRight(links, r, w, end, x) && ToldRight(links, r, w, end, x)
  }

  /** The server whose right prev is `y`, if its next has not changed. */
  lemma LiveNextFindsIt(links: Links, r: seq<Addr>, w: Setting, y: Addr)
    requires IsRing(links, r) && Survives(r, w, y) && y in links && links[y].next in w.live
    ensures Survives(r, w, links[y].next) && Heir(r, w.live, links[y].next) == y
  {
    PrevIsMember(links, r, y);
    LivePrevIsHeir(links, r, w.live, links[y].next);
  }

  lemma RightStep(links: Links, r: seq<Addr>, w: Setting, end: Search, x: Addr)
    requires Crashed(links, r, w) && Distinct(r) && SearchOk(links, end, r, w) && AllRight(links, r, w, end)
    requires Survives(r, w, x)
    ensures var y := Heir(r, w.live, x);
      x in end.links && y in end.links && end.links[x].prev == y && end.links[y].next == x
  {
    var y := Heir(r, w.live, x);
    assert Survives(r, w, y) && PointersOk(links, end, x) && PointersOk(links, end, y);
    assert ChoseRight(links, r, w, end, x) && ToldRight(links, r, w, end, y);
    hide AllRight, SearchOk;
    if x !in end.chose {
      LivePrevIsHeir(links, r, w.live, x);
    }
    if y !in end.told {
      LiveNextFindsIt(links, r, w, y);
    }
    HeirsDiffer(r, w.live, x, end.links[y].next);
  }

  lemma RightStepOnly(links: Links, r: seq<Addr>, w: Setting, end: Search, x: Addr)
    requires Crashed(links, r, w) && Distinct(r) && SearchOk(links, end, r, w)
    requires Survives(r, w, x) && IsRing(end.links, Filter(r, w.live))
    ensures x in links && ChoseRight(links, r, w, end, x) && ToldRight(links, r, w, end, x)
  {
    var f := Filter(r, w.live);
    assert PointersOk(links, end, x);
    hide SearchOk, Crashed;
    FilterMembers(r, w.live);
    hide Filter, Heir;
    var j :| 0 <= j < |f| && f[j] == x;
    HeirSteps(r, w.live, j);
    RingAt(end.links, f, j, 0);
    var h := Pos(j, |f| - 1, |f|);
    assert Pos(h, 1, |f|) == j;
    HeirSteps(r, w.live, h);
    RingAt(end.links, f, h, 0);
  }

  /** With answers lost, the survivors form one ring, in the order they had, exactly when each of them
      settled last on the member it should find and was told last by the one that should find it. */
  lemma SearchesRestoreRingIff(links: Links, r: seq<Addr>, w: Setting, moves: seq<Move>, end: Search)
    requires Searched(links, r, w, moves, end)
    ensures IsRing(end.links, Filter(r, w.live)) <==> AllRight(links, r, w, end)
  {
    hide Legal;
    BegunIsOk(links, r, w);
    RingIsDistinct(links, r);
    hide SearchOk, ChoseRight, ToldRight, Run, Searched;
    if AllRight(links, r, w, end) {
      RightStepsFormRing(links, r, w, end);
    }
    if IsRing(end.links, Filter(r, w.live)) {
      forall x | Survives(r, w, x)
        ensures x in links && ChoseRight(links, r, w, end, x) && ToldRight(links, r, w, end, x)
      {
        RightStepOnly(links, r, w, end, x);
      }
    }
  }

  lemma RightStepsFormRing(links: Links, r: seq<Addr>, w: Setting, end: Search)
    requires Crashed(links, r, w) && Distinct(r) && SearchOk(links, end, r, w) && AllRight(links, r, w, end)
    ensures IsRing(end.links, Filter(r, w.live))
  {
    hide SearchOk, AllRight;
    var f := Filter(r, w.live);
    FilterMembers(r, w.live);
    FilterDistinct(r, w.live);
    hide Filter, Heir;
    forall j | 0 <= j < |f| ensures Linked(end.links, f, j) {
      HeirSteps(r, w.live, j);
      RightStep(links, r, w, end, f[j]);
    }
    var x :| x in r && x in w.live;
    assert x in f;
  }

  // ----- Retries -----

  ghost predicate NoLoss(moves: seq<Move>) {
    forall move | move in moves :: move.Try? ==> move.answered
  }

  /** Nobody alive was passed over by a search under way, and whoever found a server was the last to tell
      it. */
  ghost predicate Honest(s: Search, r: seq<Addr>, w: Setting) {
    && (forall p | p in s.searches :: p.0 in r && forall j | 0 <= j < p.1 && j < |Behind(r, p.0)| ::
          Behind(r, p.0)[j] !in w.live)
    && (forall p | p in s.found :: Survives(r, w, p.0) && p.1 == Heir(r, w.live, p.0) && LastToldBy(s, p.1, p.0))
  }

  ghost predicate LastToldBy(s: Search, y: Addr, x: Addr) {
    y in s.told && s.told[y] == x
  }

  /** The server has settled on the right member and was the last to tell it. */
  ghost predicate Done(s: Search, r: seq<Addr>, w: Setting, x: Addr)
    requires Survives(r, w, x)
  {
    x in s.chose && s.chose[x] == Heir(r, w.live, x) && LastToldBy(s, Heir(r, w.live, x), x)
  }

  lemma TriedIsHeir(r: seq<Addr>, w: Setting, x: Addr, n: nat)
    requires Survives(r, w, x) && n < |Behind(r, x)| && Behind(r, x)[n] in w.live
    requires forall j | 0 <= j < n :: Behind(r, x)[j] !in w.live
    ensures Behind(r, x)[n] == Heir(r, w.live, x)
  {
    hide Behind;
    FirstInAt(Behind(r, x), w.live, n);
  }

  /** Telling the right member does not undo what another found. */
  lemma HonestTell(s: Search, r: seq<Addr>, w: Setting, x: Addr)
    requires Distinct(r) && Survives(r, w, x)
    ensures forall z, y | Survives(r, w, z) && y == Heir(r, w.live, z) && LastToldBy(s, y, z) ::
      LastToldBy(s.(told := s.told[Heir(r, w.live, x) := x]), y, z)
  {
    forall z, y | Survives(r, w, z) && y == Heir(r, w.live, z) && LastToldBy(s, y, z)
      ensures LastToldBy(s.(told := s.told[Heir(r, w.live, x) := x]), y, z)
    {
      if y == Heir(r, w.live, x) {
        HeirsDiffer(r, w.live, x, z);
      }
    }
  }

  /** The member is dead, and the search goes on. */
  lemma HonestPass(s: Search, r: seq<Addr>, w: Setting, x: Addr, n: nat)
    requires Honest(s, r, w) && (x, n) in s.searches && x in r && n < |Behind(r, x)| && Behind(r, x)[n] !in w.live
    ensures Honest(s.(searches := Onward(s.searches, x, n, |Behind(r, x)|)), r, w)
  {
    hide Behind, Heir;
    assert forall j | 0 <= j < (x, n).1 && j < |Behind(r, (x, n).0)| :: Behind(r, (x, n).0)[j] !in w.live;
  }

  /** The member answers, and is the right one. */
  lemma HonestHit(s: Search, r: seq<Addr>, w: Setting, x: Addr, n: nat)
    requires Honest(s, r, w) && Distinct(r) && Survives(r, w, x) && Heir(r, w.live, x) in s.links
    ensures var y := Heir(r, w.live, x);
      Honest(Tell(s, x, y).(searches := s.searches - {(x, n)}, found := s.found + {(x, y)}), r, w)
  {
    hide Behind, Heir, Distinct;
    HonestTell(s, r, w, x);
  }

  /** Without loss a try tells only the right member. */
  lemma HonestTry(links: Links, s: Search, r: seq<Addr>, w: Setting, move: Move)
    requires Crashed(links, r, w) && Distinct(r) && SearchOk(links, s, r, w) && Honest(s, r, w)
    requires CanMove(s, r, w, move) && move.Try? && move.answered
    ensures var t := Moved(s, r, w, move);
      && Honest(t, r, w)
      && t.chose == s.chose
      && Survives(r, w, move.x)
      && (t.told == s.told || t.told == s.told[Heir(r, w.live, move.x) := move.x])
  {
    hide Behind, Heir, Crashed, Distinct;
    var x, n := move.x, move.n;
    assert Survives(r, w, (x, n).0);
    TriedIsMember(links, r, w, x, n);
    var y := Behind(r, x)[n];
    if y in w.live {
      TryIsHonest(s, r, w, x, n);
      TriedIsHeir(r, w, x, n);
      assert PointersOk(links, s, y);
      hide Honest, SearchOk;
      HonestHit(s, r, w, x, n);
    } else {
      hide Honest, SearchOk;
      HonestPass(s, r, w, x, n);
    }
  }

  lemma TryIsHonest(s: Search, r: seq<Addr>, w: Setting, x: Addr, n: nat)
    requires Honest(s, r, w) && (x, n) in s.searches && x in r
    ensures forall j | 0 <= j < n && j < |Behind(r, x)| :: Behind(r, x)[j] !in w.live
  {
    hide Behind, Heir;
    assert forall j | 0 <= j < (x, n).1 && j < |Behind(r, (x, n).0)| :: Behind(r, (x, n).0)[j] !in w.live;
  }

  lemma HonestMove(links: Links, s: Search, r: seq<Addr>, w: Setting, move: Move)
    requires Crashed(links, r, w) && Distinct(r) && SearchOk(links, s, r, w) && Honest(s, r, w)
    requires CanMove(s, r, w, move) && (move.Try? ==> move.answered)
    ensures Honest(Moved(s, r, w, move), r, w)
    ensures forall z | Survives(r, w, z) && Done(s, r, w, z) :: Done(Moved(s, r, w, move), r, w, z)
    ensures move.Choose? ==> Survives(r, w, move.x) && Done(Moved(s, r, w, move), r, w, move.x)
  {
    hide Behind, Crashed, Heir, SearchOk;
    match move
    case Look(x) =>
    case Try(x, _, _) =>
      HonestTry(links, s, r, w, move);
      HonestTell(s, r, w, x);
    case Choose(x, y) =>
      assert Survives(r, w, (x, y).0) && (x, y).1 == Heir(r, w.live, x) && LastToldBy(s, y, x);
  }

  lemma {:induction false} HonestRun(links: Links, s: Search, r: seq<Addr>, w: Setting, moves: seq<Move>)
    requires Crashed(links, r, w) && Distinct(r) && SearchOk(links, s, r, w) && Honest(s, r, w)
    requires NoLoss(moves) && Legal(links, s, r, w, moves)
    ensures forall x | Survives(r, w, x) && (Done(s, r, w, x) || exists y :: Choose(x, y) in moves) ::
      Done(Run(links, s, r, w, moves), r, w, x)
    decreases |moves|
  {
    hide Crashed, Honest, Done, SearchOk, Survives;
    if moves != [] {
      assert moves[0] in moves;
      MoveKeepsOk(links, s, r, w, moves[0]);
      HonestMove(links, s, r, w, moves[0]);
      assert forall m | m in moves[1..] :: m in moves;
      assert forall m | m in moves :: m == moves[0] || m in moves[1..];
      HonestRun(links, Moved(s, r, w, moves[0]), r, w, moves[1..]);
    }
  }

  /** Whatever answers were lost before: once every survivor has repaired again without loss, in any order
      and interleaved, the survivors form one ring. Searches from before may go on meanwhile, as long as
      they have passed over nobody alive. */
  lemma RetriesRestoreRing(
      links: Links, r: seq<Addr>, w: Setting, moves: seq<Move>, s: Search, retries: seq<Move>, end: Search)
    requires Searched(links, r, w, moves, s) && Honest(s, r, w)
    requires NoLoss(retries) && Legal(links, s, r, w, retries) && end == Run(links, s, r, w, retries)
    requires forall x | Survives(r, w, x) :: exists y :: Choose(x, y) in retries
    ensures IsRing(end.links, Filter(r, w.live))
  {
    RingIsDistinct(links, r);
    hide SearchOk, Heir, Honest, Legal, Run, Searched, NoLoss;
    HonestRun(links, s, r, w, retries);
    assert forall x | Survives(r, w, x) :: Done(end, r, w, x);
    hide Crashed;
    forall x | Survives(r, w, x)
      ensures x in links && ChoseRight(links, r, w, end, x) && ToldRight(links, r, w, end, x)
    {
      SurvivorHasLinks(links, end, r, w, x);
      assert Done(end, r, w, x);
      var z := Follower(r, w, x);
      assert Done(end, r, w, z);
    }
    RightStepsFormRing(links, r, w, end);
  }

  lemma SurvivorHasLinks(links: Links, s: Search, r: seq<Addr>, w: Setting, x: Addr)
    requires SearchOk(links, s, r, w) && Survives(r, w, x)
    ensures x in links
  {
    assert PointersOk(links, s, x);
  }

  /** The one that should find `y`. */
  lemma Follower(r: seq<Addr>, w: Setting, y: Addr) returns (x: Addr)
    requires Distinct(r) && Survives(r, w, y)
    ensures Survives(r, w, x) && Heir(r, w.live, x) == y
  {
    var f := Filter(r, w.live);
    FilterMembers(r, w.live);
    hide Filter, Heir;
    assert y in f;
    var j :| 0 <= j < |f| && f[j] == y;
    var h := Pos(j, |f| - 1, |f|);
    assert Pos(h, 1, |f|) == j;
    HeirSteps(r, w.live, h);
    x := f[h];
  }

  /** A retry of the server that lost an answer is not enough: a member it told by mistake goes on
      pointing at it, and the survivors form no ring until another server tells that member. */
  lemma OwnRetryIsNotEnough(
      links: Links, r: seq<Addr>, w: Setting, moves: seq<Move>, s: Search, retries: seq<Move>, end: Search,
      x: Addr, y: Addr)
    requires Searched(links, r, w, moves, s) && Honest(s, r, w)
    requires NoLoss(retries) && Legal(links, s, r, w, retries) && end == Run(links, s, r, w, retries)
    requires Survives(r, w, x) && Survives(r, w, y) && y != Heir(r, w.live, x) && LastToldBy(s, y, x)
    requires forall m | m in retries :: m.x == x
    ensures LastToldBy(end, y, x) && !IsRing(end.links, Filter(r, w.live))
  {
    RingIsDistinct(links, r);
    hide SearchOk, Heir, Honest, Legal, Run, Searched, NoLoss, Crashed;
    OwnMovesLeaveOthers(links, s, r, w, retries, x, y);
    if IsRing(end.links, Filter(r, w.live)) {
      RightStepOnly(links, r, w, end, y);
    }
  }

  lemma {:induction false} OwnMovesLeaveOthers(
      links: Links, s: Search, r: seq<Addr>, w: Setting, moves: seq<Move>, x: Addr, y: Addr)
    requires Crashed(links, r, w) && Distinct(r) && SearchOk(links, s, r, w) && Honest(s, r, w)
    requires NoLoss(moves) && Legal(links, s, r, w, moves) && forall m | m in moves :: m.x == x
    requires Survives(r, w, x) && y != Heir(r, w.live, x) && LastToldBy(s, y, x)
    ensures LastToldBy(Run(links, s, r, w, moves), y, x)
    decreases |moves|
  {
    hide Crashed, Honest, SearchOk, Survives, Heir, Behind;
    if moves != [] {
      assert moves[0] in moves;
      MoveKeepsOk(links, s, r, w, moves[0]);
      HonestMove(links, s, r, w, moves[0]);
      if moves[0].Try? {
        HonestTry(links, s, r, w, moves[0]);
      }
      assert forall m | m in moves[1..] :: m in moves;
      OwnMovesLeaveOthers(links, Moved(s, r, w, moves[0]), r, w, moves[1..], x, y);
    }
  }
}
