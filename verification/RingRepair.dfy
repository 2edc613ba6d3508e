/** Repair after crashes: survivors look for the first reachable member behind them in the cached
    member list, tell it that they follow, and take it as their prev. */
module RingRepair {
  import opened Common
  import opened RingOrder
  import opened RingLinks

  /** Whom the search of `x` ends at: it tries the cached members behind it, itself last. */
  function Found(cache: seq<Addr>, x: Addr, live: set<Addr>): (y: Addr)
    requires x in cache && x in live
    ensures y in cache && y in live
  {
    BehindSplits(cache, x);
    assert x in Behind(cache, x);
    var y := FirstIn(Behind(cache, x), live);
    ArcMembers(cache, Pos(IndexOf(cache, x), 1, |cache|), |cache|);
    y
  }

  /** A repair has two effects that others may come between: `reached` is the call that sets the next
      of the found member, after it the searcher sets its own prev. `calls` are the repairs between
      their two effects; `mended` are the servers that finished one. */
  datatype State = State(links: Links, calls: set<(Addr, Addr)>, reached: set<Addr>, mended: set<Addr>)

  datatype Step = Reach(x: Addr) | Settle(x: Addr, y: Addr)

  datatype Setting = Setting(caches: map<Addr, seq<Addr>>, live: set<Addr>)

  /** A ring was whole, and every survivor has it cached, written down from wherever. */
  ghost predicate Crashed(links: Links, r: seq<Addr>, w: Setting) {
    && IsRing(links, r)
    && (exists x :: x in r && x in w.live)
    && (forall x | x in r && x in w.live :: x in w.caches && Rotation(r, w.caches[x]))
  }

  ghost predicate Enabled(s: State, r: seq<Addr>, w: Setting, step: Step) {
    match step
    case Reach(x) => x in r && x in w.live
    case Settle(x, y) => (x, y) in s.calls
  }

  function Start(links: Links): State {
    State(links, {}, {}, {})
  }

  /** The member a survivor finds: the same for every rotation of the ring in its cache. */
  ghost function Heir(r: seq<Addr>, live: set<Addr>, x: Addr): (y: Addr)
    requires x in r && x in live
    ensures y in r && y in live
  {
    Found(r, x, live)
  }

  lemma CacheDoesNotMatter(links: Links, r: seq<Addr>, w: Setting, x: Addr)
    requires Crashed(links, r, w) && x in r && x in w.live
    ensures x in w.caches && x in w.caches[x] && Found(w.caches[x], x, w.live) == Heir(r, w.live, x)
  {
    BehindRotation(r, w.caches[x], x);
  }

  function Reached(s: State, x: Addr, y: Addr): State
    requires y in s.links
  {
    s.(links := SetNext(s.links, y, x), calls := s.calls + {(x, y)}, reached := s.reached + {x})
  }

  function Settled(s: State, x: Addr, y: Addr): State
    requires x in s.links
  {
    s.(links := SetPrev(s.links, x, y), calls := s.calls - {(x, y)}, mended := s.mended + {x})
  }

  ghost function Apply(links: Links, s: State, r: seq<Addr>, w: Setting, step: Step): State
    requires Crashed(links, r, w) && StateOk(links, s, r, w) && Enabled(s, r, w, step)
  {
    match step
    case Reach(x) =>
      assert SurvivorOk(links, s, r, w.live, x);
      CacheDoesNotMatter(links, r, w, x);
      var y := Found(w.caches[x], x, w.live);
      Reached(s, x, y)
    case Settle(x, y) =>
      assert SurvivorOk(links, s, r, w.live, (x, y).0);
      Settled(s, x, y)
  }

  // ----- Who follows whom among the survivors -----

  lemma HeirSteps(r: seq<Addr>, live: set<Addr>, j: nat)
    requires Distinct(r) && j < |Filter(r, live)|
    ensures var f := Filter(r, live);
      f[j] in r && f[j] in live && Heir(r, live, f[j]) == f[Pos(j, 1, |f|)]
  {
    FirstSurvivor(r, live, j);
  }

  lemma HeirsDiffer(r: seq<Addr>, live: set<Addr>, x: Addr, y: Addr)
    requires Distinct(r) && x in r && x in live && y in r && y in live
    requires Heir(r, live, x) == Heir(r, live, y)
    ensures x == y
  {
    var f := Filter(r, live);
    FilterMembers(r, live);
    FilterDistinct(r, live);
    hide Filter, Heir;
    var i :| 0 <= i < |f| && f[i] == x;
    var j :| 0 <= j < |f| && f[j] == y;
    HeirSteps(r, live, i);
    HeirSteps(r, live, j);
    hide Distinct;
    assert Pos(i, 1, |f|) == Pos(j, 1, |f|) ==> i == j;
  }

  /** A survivor whose prev survived would find just that. */
  lemma LivePrevIsHeir(links: Links, r: seq<Addr>, live: set<Addr>, x: Addr)
    requires IsRing(links, r) && x in r && x in live
    requires x in links && links[x].prev in live
    ensures Heir(r, live, x) == links[x].prev
  {
    var i := IndexOf(r, x);
    assert Linked(links, r, i);
    assert Behind(r, x)[0] == r[Pos(i, 1, |r|)];
  }

  // ----- Invariant -----

  ghost predicate SurvivorOk(links: Links, s: State, r: seq<Addr>, live: set<Addr>, x: Addr)
    requires x in r && x in live
  {
    var y := Heir(r, live, x);
    && x in links && x in s.links && y in links && y in s.links
    && s.links[x].prev == (if x in s.mended then y else links[x].prev)
    && s.links[y].next == (if x in s.reached then x else links[y].next)
    && (x in s.mended ==> x in s.reached)
    && (forall z | (x, z) in s.calls :: z == y && x in s.reached)
  }

  ghost predicate StateOk(links: Links, s: State, r: seq<Addr>, w: Setting) {
    && (forall x {:trigger SurvivorOk(links, s, r, w.live, x)} | x in r && x in w.live ::
          SurvivorOk(links, s, r, w.live, x))
    && (forall c | c in s.calls :: c.0 in r && c.0 in w.live)
  }

  lemma StartIsOk(links: Links, r: seq<Addr>, w: Setting)
    requires Crashed(links, r, w)
    ensures StateOk(links, Start(links), r, w)
  {
    forall x | x in r && x in w.live ensures SurvivorOk(links, Start(links), r, w.live, x) {
      RingAt(links, r, IndexOf(r, x), 0);
      RingAt(links, r, IndexOf(r, Heir(r, w.live, x)), 0);
    }
  }

  lemma ReachKeepsSurvivor(links: Links, s: State, r: seq<Addr>, live: set<Addr>, a: Addr, x: Addr)
    requires Distinct(r) && a in r && a in live && x in r && x in live
    requires SurvivorOk(links, s, r, live, a) && SurvivorOk(links, s, r, live, x)
    ensures SurvivorOk(links, Reached(s, a, Heir(r, live, a)), r, live, x)
  {
    if Heir(r, live, x) == Heir(r, live, a) {
      HeirsDiffer(r, live, x, a);
    }
    hide Heir, Distinct;
  }

  lemma SettleKeepsSurvivor(links: Links, s: State, r: seq<Addr>, live: set<Addr>, a: Addr, y: Addr, x: Addr)
    requires a in r && a in live && x in r && x in live && (a, y) in s.calls
    requires SurvivorOk(links, s, r, live, a) && SurvivorOk(links, s, r, live, x)
    ensures SurvivorOk(links, Settled(s, a, y), r, live, x)
  {
  }

  lemma HeirIsLinked(links: Links, s: State, r: seq<Addr>, live: set<Addr>, x: Addr)
    requires x in r && x in live && SurvivorOk(links, s, r, live, x)
    ensures Heir(r, live, x) in s.links
  {
  }

  lemma ReachKeepsOk(links: Links, s: State, r: seq<Addr>, w: Setting, a: Addr)
    requires Distinct(r) && StateOk(links, s, r, w) && a in r && a in w.live
    ensures Heir(r, w.live, a) in s.links
    ensures StateOk(links, Reached(s, a, Heir(r, w.live, a)), r, w)
  {
    hide SurvivorOk, Heir, Distinct;
    HeirIsLinked(links, s, r, w.live, a);
    forall x | x in r && x in w.live ensures SurvivorOk(links, Reached(s, a, Heir(r, w.live, a)), r, w.live, x) {
      ReachKeepsSurvivor(links, s, r, w.live, a, x);
    }
  }

  lemma SettleKeepsOk(links: Links, s: State, r: seq<Addr>, w: Setting, a: Addr, y: Addr)
    requires StateOk(links, s, r, w) && (a, y) in s.calls
    ensures a in s.links && StateOk(links, Settled(s, a, y), r, w)
  {
    assert SurvivorOk(links, s, r, w.live, (a, y).0);
    forall x | x in r && x in w.live ensures SurvivorOk(links, Settled(s, a, y), r, w.live, x) {
      SettleKeepsSurvivor(links, s, r, w.live, a, y, x);
    }
    hide SurvivorOk, Heir;
  }

  lemma StepKeepsOk(links: Links, s: State, r: seq<Addr>, w: Setting, step: Step)
    requires Crashed(links, r, w) && StateOk(links, s, r, w) && Enabled(s, r, w, step)
    ensures StateOk(links, Apply(links, s, r, w, step), r, w)
  {
    RingIsDistinct(links, r);
    hide StateOk, SurvivorOk, Found, Heir, Rotation, Distinct, Settled, Reached;
    match step
    case Reach(x) =>
      ReachKeepsOk(links, s, r, w, x);
      CacheDoesNotMatter(links, r, w, x);
    case Settle(x, y) =>
      SettleKeepsOk(links, s, r, w, x, y);
  }

  lemma RingIsDistinct(links: Links, r: seq<Addr>)
    requires IsRing(links, r)
    ensures Distinct(r)
  {
  }

  // ----- Runs -----

  ghost predicate Legal(links: Links, s: State, r: seq<Addr>, w: Setting, steps: seq<Step>)
    requires Crashed(links, r, w) && StateOk(links, s, r, w)
    decreases |steps|
  {
    steps == [] ||
    (Enabled(s, r, w, steps[0]) &&
     (StepKeepsOk(links, s, r, w, steps[0]); Legal(links, Apply(links, s, r, w, steps[0]), r, w, steps[1..])))
  }

  ghost function Run(links: Links, s: State, r: seq<Addr>, w: Setting, steps: seq<Step>): (end: State)
    requires Crashed(links, r, w) && StateOk(links, s, r, w) && Legal(links, s, r, w, steps)
    ensures StateOk(links, end, r, w)
    decreases |steps|
  {
    if steps == [] then s
    else
      StepKeepsOk(links, s, r, w, steps[0]);
      Run(links, Apply(links, s, r, w, steps[0]), r, w, steps[1..])
  }

  /** `end` is reached from the crash by repairs of survivors, in any order and number, finished or
      not. */
  ghost predicate Repaired(links: Links, r: seq<Addr>, w: Setting, steps: seq<Step>, end: State) {
    && Crashed(links, r, w)
    && (StartIsOk(links, r, w);
        Legal(links, Start(links), r, w, steps) && Run(links, Start(links), r, w, steps) == end)
  }

  /** Every survivor whose prev died has finished a repair. */
  ghost predicate AllMended(links: Links, r: seq<Addr>, live: set<Addr>, end: State) {
    forall x | x in r && x in live && x in links && links[x].prev !in live :: x in end.mended
  }

  /** Repair after arbitrary crashes: the survivors form one ring, in the order they had, exactly
      when each of them whose prev died has finished a repair. */
  lemma RepairRestoresRingIff(links: Links, r: seq<Addr>, w: Setting, steps: seq<Step>, end: State)
    requires Repaired(links, r, w, steps, end)
    ensures IsRing(end.links, Filter(r, w.live)) <==> AllMended(links, r, w.live, end)
    ensures forall x :: x in Filter(r, w.live) <==> x in r && x in w.live
  {
    StartIsOk(links, r, w);
    RingIsDistinct(links, r);
    FilterMembers(r, w.live);
    if AllMended(links, r, w.live, end) {
      SurvivorsFormRing(links, r, w, end);
    } else {
      var x :| x in r && x in w.live && x in links && links[x].prev !in w.live && x !in end.mended;
      assert SurvivorOk(links, end, r, w.live, x);
      if IsRing(end.links, Filter(r, w.live)) {
        PrevIsMember(end.links, Filter(r, w.live), x);
      }
    }
  }

  // ----- Lost answers -----

  /** With answers lost, the search ends at the first member that is alive and whose answer arrives;
      that is the right one exactly when the right one's answer arrives. */
  lemma LostAnswerMissesIff(cache: seq<Addr>, x: Addr, live: set<Addr>, answered: set<Addr>)
    requires x in cache && x in live && exists y :: y in Behind(cache, x) && y in live * answered
    ensures FirstIn(Behind(cache, x), live * answered) == Found(cache, x, live)
       <==> Found(cache, x, live) in answered
  {
    BehindSplits(cache, x);
    assert x in Behind(cache, x);
    hide Behind;
    FirstAmongAnswered(Behind(cache, x), live, answered);
  }

  lemma {:induction false} FirstAmongAnswered(s: seq<Addr>, live: set<Addr>, answered: set<Addr>)
    requires (exists y :: y in s && y in live) && exists y :: y in s && y in live * answered
    ensures FirstIn(s, live * answered) == FirstIn(s, live) <==> FirstIn(s, live) in answered
    decreases |s|
  {
    if s[0] !in live {
      assert s == [s[0]] + s[1..];
      FirstAmongAnswered(s[1..], live, answered);
    }
  }

  /** A survivor that settled on another member than the right one is in no ring of the survivors. */
  lemma MissedRepairBreaksRing(r: seq<Addr>, live: set<Addr>, to: Links, x: Addr)
    requires Distinct(r) && x in r && x in live && x in to && to[x].prev != Heir(r, live, x)
    ensures !IsRing(to, Filter(r, live))
  {
    var f := Filter(r, live);
    FilterMembers(r, live);
    hide Filter, Heir;
    assert x in f;
    var j :| 0 <= j < |f| && f[j] == x;
    HeirSteps(r, live, j);
    assert !Linked(to, f, j);
  }

  lemma SurvivorsFormRing(links: Links, r: seq<Addr>, w: Setting, end: State)
    requires Crashed(links, r, w) && StateOk(links, end, r, w) && Distinct(r)
    requires AllMended(links, r, w.live, end)
    ensures IsRing(end.links, Filter(r, w.live))
  {
    hide StateOk;
    var f := Filter(r, w.live);
    FilterMembers(r, w.live);
    FilterDistinct(r, w.live);
    hide Filter, Heir;
    forall j | 0 <= j < |f|
      ensures f[j] in end.links && end.links[f[j]].prev == f[Pos(j, 1, |f|)]
      ensures f[Pos(j, 1, |f|)] in end.links && end.links[f[Pos(j, 1, |f|)]].next == f[j]
    {
      HeirSteps(r, w.live, j);
      SurvivorJoins(links, r, w, end, f[j]);
    }
    var x :| x in r && x in w.live;
    assert x in f;
  }

  lemma SurvivorJoins(links: Links, r: seq<Addr>, w: Setting, end: State, x: Addr)
    requires Crashed(links, r, w) && StateOk(links, end, r, w) && x in r && x in w.live
    requires x in links && links[x].prev !in w.live ==> x in end.mended
    ensures var y := Heir(r, w.live, x);
      x in end.links && y in end.links && end.links[x].prev == y && end.links[y].next == x
  {
    assert SurvivorOk(links, end, r, w.live, x);
    PrevIsMember(links, r, x);
    if links[x].prev in w.live {
      LivePrevIsHeir(links, r, w.live, x);
    }
  }
}
