/** Joins that overlap, which the program does not prevent: the lock of the server that is asked is given
    back at once. Exactly when they still end in one ring. */
module RingJoins {
  import opened Common
  import opened RingOrder
  import opened RingLinks

  /** A join reads the prev of the server it asks, swaps it for the newcomer, tells the old prev, and
      then the newcomer hears the reply. The reply carries what was read first; the call goes to what the
      swap replaced. */
  datatype Phase = Asked | Swapped | Called | Joined

  datatype Joining = Joining(at: Addr, first: Addr, second: Addr, phase: Phase)

  /** `order` has the members in ring order as the swaps put them; no step reads it. */
  datatype State = State(links: Links, joins: map<Addr, Joining>, order: seq<Addr>)

  datatype Step =
    | Read(m: Addr, at: Addr)
    | Swap(m: Addr)
    | Call(m: Addr)
    | Reply(m: Addr)

  predicate InPhase(s: State, m: Addr, phase: Phase) {
    m in s.joins && s.joins[m].phase == phase
  }

  /** A server joins once, and not itself. */
  predicate Enabled(s: State, r: seq<Addr>, step: Step) {
    && step.m in s.links && step.m !in r
    && match step
       case Read(m, at) => m !in s.joins && at in s.links && at != m
       case Swap(m) => InPhase(s, m, Asked) && s.joins[m].at in s.links
       case Call(m) => InPhase(s, m, Swapped) && s.joins[m].second in s.links
       case Reply(m) => InPhase(s, m, Called)
  }

  function InsertBehind(order: seq<Addr>, m: Addr, at: Addr): seq<Addr> {
    if at in order then Inserted(order, m, at) else order
  }

  function Moved(s: State, r: seq<Addr>, step: Step): State
    requires Enabled(s, r, step)
  {
    match step
    case Read(m, at) =>
      s.(joins := s.joins[m := Joining(at, s.links[at].prev, s.links[at].prev, Asked)])
    case Swap(m) =>
      var j := s.joins[m];
      s.(links := SetPrev(s.links, j.at, m),
         joins := s.joins[m := j.(second := s.links[j.at].prev, phase := Swapped)],
         order := InsertBehind(s.order, m, j.at))
    case Call(m) =>
      var j := s.joins[m];
      s.(links := SetNext(s.links, j.second, m), joins := s.joins[m := j.(phase := Called)])
    case Reply(m) =>
      var j := s.joins[m];
      s.(links := s.links[m := Link(j.first, j.at)], joins := s.joins[m := j.(phase := Joined)])
  }

  function Begun(links: Links, r: seq<Addr>): State {
    State(links, map[], r)
  }

  predicate Legal(s: State, r: seq<Addr>, steps: seq<Step>)
    decreases |steps|
  {
    steps == [] || (Enabled(s, r, steps[0]) && Legal(Moved(s, r, steps[0]), r, steps[1..]))
  }

  function Run(s: State, r: seq<Addr>, steps: seq<Step>): State
    requires Legal(s, r, steps)
    decreases |steps|
  {
    if steps == [] then s else Run(Moved(s, r, steps[0]), r, steps[1..])
  }

  /** `end` is reached from the ring `r` by joins, interleaved in any way, and all of them are over. */
  ghost predicate AllJoined(links: Links, r: seq<Addr>, steps: seq<Step>, end: State) {
    && IsRing(links, r) && Legal(Begun(links, r), r, steps) && Run(Begun(links, r), r, steps) == end
    && forall m | m in end.joins :: InPhase(end, m, Joined)
  }

  // ----- The condition -----

  /** A founder, or a newcomer that has heard its reply. */
  predicate Settled(s: State, r: seq<Addr>, a: Addr) {
    a in r || InPhase(s, a, Joined)
  }

  /** Only settled servers are asked, the swap finds what was read, and the call goes to a settled
      server. */
  predicate Guarded(s: State, r: seq<Addr>, step: Step)
    requires Enabled(s, r, step)
  {
    match step
    case Read(_, at) => Settled(s, r, at)
    case Swap(m) => s.links[s.joins[m].at].prev == s.joins[m].first
    case Call(m) => Settled(s, r, s.joins[m].second)
    case Reply(_) => true
  }

  predicate GuardedRun(s: State, r: seq<Addr>, steps: seq<Step>)
    requires Legal(s, r, steps)
    decreases |steps|
  {
    steps == [] || (Guarded(s, r, steps[0]) && GuardedRun(Moved(s, r, steps[0]), r, steps[1..]))
  }

  // ----- Guarded joins form a ring -----

  /** The newcomer `n` has swapped `a` out, and is about to tell it. */
  predicate Pending(s: State, a: Addr, n: Addr) {
    InPhase(s, n, Swapped) && s.joins[n].second == a
  }

  ghost predicate MemberFits(s: State, r: seq<Addr>, goal: Links, a: Addr) {
    && a in goal
    && (Settled(s, r, a) ==>
          && a in s.links && s.links[a].prev == goal[a].prev
          && (s.links[a].next == goal[a].next || Pending(s, a, goal[a].next)))
    && (!Settled(s, r, a) ==>
          && a in s.joins && goal[a].prev == s.joins[a].first
          && (goal[a].next == s.joins[a].at || Pending(s, a, goal[a].next)))
    && (InPhase(s, a, Swapped) ==>
          s.joins[a].second in s.order && s.joins[a].second in goal && goal[s.joins[a].second].next == a)
  }

  /** `goal` is where the pointers will be when all that have swapped have joined. */
  ghost predicate Fits(s: State, r: seq<Addr>, goal: Links) {
    && IsRing(goal, s.order)
    && (forall a :: a in s.order <==> a in r || (a in s.joins && !s.joins[a].phase.Asked?))
    && (forall a | a in s.order :: MemberFits(s, r, goal, a))
    && (forall m | m in s.joins :: m !in r && Settled(s, r, s.joins[m].at))
  }

  lemma BegunFits(links: Links, r: seq<Addr>)
    requires IsRing(links, r)
    ensures Fits(Begun(links, r), r, links)
  {
    forall a | a in r ensures MemberFits(Begun(links, r), r, links, a) {
      PrevIsMember(links, r, a);
    }
  }

  lemma ReadFits(s: State, r: seq<Addr>, goal: Links, m: Addr, at: Addr)
    requires Fits(s, r, goal) && Enabled(s, r, Read(m, at)) && Guarded(s, r, Read(m, at))
    ensures Fits(Moved(s, r, Read(m, at)), r, goal)
  {
    hide IsRing;
  }

  lemma CallFits(s: State, r: seq<Addr>, goal: Links, m: Addr)
    requires Fits(s, r, goal) && Enabled(s, r, Call(m)) && Guarded(s, r, Call(m))
    ensures Fits(Moved(s, r, Call(m)), r, goal)
  {
    hide IsRing;
    assert MemberFits(s, r, goal, m);
  }

  lemma ReplyFits(s: State, r: seq<Addr>, goal: Links, m: Addr)
    requires Fits(s, r, goal) && Enabled(s, r, Reply(m))
    ensures Fits(Moved(s, r, Reply(m)), r, goal)
  {
    hide IsRing;
    assert MemberFits(s, r, goal, m);
  }

  /** A swap at `at`, whose prev is `p` in the pointers and in the goal. */
  ghost predicate Swaps(s: State, r: seq<Addr>, goal: Links, m: Addr, at: Addr, p: Addr) {
    && Enabled(s, r, Swap(m)) && s.joins[m].at == at && s.joins[m].first == p && s.links[at].prev == p
    && m !in s.order && at in s.order && p in s.order && Settled(s, r, at)
    && at in goal && p in goal && goal[at].prev == p && goal[p].next == at
    && forall n | n in s.joins :: n !in r
  }

  lemma SwapFindsPrev(s: State, r: seq<Addr>, goal: Links, m: Addr)
    requires Fits(s, r, goal) && Enabled(s, r, Swap(m)) && Guarded(s, r, Swap(m))
    ensures Swaps(s, r, goal, m, s.joins[m].at, s.joins[m].first)
  {
    assert MemberFits(s, r, goal, s.joins[m].at);
    PrevIsMember(goal, s.order, s.joins[m].at);
    hide IsRing, MemberFits;
  }

  lemma SwapKeepsMember(s: State, r: seq<Addr>, goal: Links, m: Addr, at: Addr, p: Addr, a: Addr)
    requires Swaps(s, r, goal, m, at, p) && a in s.order && MemberFits(s, r, goal, a)
    ensures MemberFits(Moved(s, r, Swap(m)), r, Join(goal, m, at), a)
  {
    SwapKeepsOrder(s, r, m);
    hide InsertBehind;
  }

  lemma SwapAddsMember(s: State, r: seq<Addr>, goal: Links, m: Addr, at: Addr, p: Addr)
    requires Swaps(s, r, goal, m, at, p)
    ensures MemberFits(Moved(s, r, Swap(m)), r, Join(goal, m, at), m)
  {
    SwapKeepsOrder(s, r, m);
    hide InsertBehind;
  }

  lemma SwapKeepsOrder(s: State, r: seq<Addr>, m: Addr)
    requires Enabled(s, r, Swap(m)) && s.joins[m].at in s.order
    ensures Moved(s, r, Swap(m)).order == Inserted(s.order, m, s.joins[m].at)
    ensures forall a :: a in Moved(s, r, Swap(m)).order <==> a in s.order || a == m
  {
    InsertedMembers(s.order, m, s.joins[m].at);
  }

  lemma SwapKeepsMembers(s: State, r: seq<Addr>, goal: Links, m: Addr, at: Addr, p: Addr)
    requires Fits(s, r, goal) && Swaps(s, r, goal, m, at, p)
    ensures forall a | a in Moved(s, r, Swap(m)).order :: MemberFits(Moved(s, r, Swap(m)), r, Join(goal, m, at), a)
  {
    SwapKeepsOrder(s, r, m);
    SwapAddsMember(s, r, goal, m, at, p);
    hide MemberFits, Moved, Join, Inserted, IsRing;
    forall a | a in Moved(s, r, Swap(m)).order
      ensures MemberFits(Moved(s, r, Swap(m)), r, Join(goal, m, at), a)
    {
      if a != m {
        SwapKeepsMember(s, r, goal, m, at, p, a);
      }
    }
  }

  lemma SwapFits(s: State, r: seq<Addr>, goal: Links, m: Addr) returns (goal': Links)
    requires Fits(s, r, goal) && Enabled(s, r, Swap(m)) && Guarded(s, r, Swap(m))
    ensures Fits(Moved(s, r, Swap(m)), r, goal')
  {
    var at, p := s.joins[m].at, s.joins[m].first;
    SwapFindsPrev(s, r, goal, m);
    SwapKeepsMembers(s, r, goal, m, at, p);
    SwapKeepsOrder(s, r, m);
    JoinKeepsRing(goal, s.order, m, at);
    goal' := Join(goal, m, at);
    hide IsRing, MemberFits, Join, Inserted, InsertBehind;
  }

  lemma InsertedMembers(r: seq<Addr>, m: Addr, at: Addr)
    requires at in r
    ensures forall a :: a in Inserted(r, m, at) <==> a in r || a == m
  {
    var i := IndexOf(r, at);
    assert r == r[..i + 1] + r[i + 1..];
  }

  lemma {:induction false} GuardedRunFits(s: State, r: seq<Addr>, goal: Links, steps: seq<Step>)
    returns (goal': Links)
    requires Fits(s, r, goal) && Legal(s, r, steps) && GuardedRun(s, r, steps)
    ensures Fits(Run(s, r, steps), r, goal')
    decreases |steps|
  {
    goal' := goal;
    if steps != [] {
      match steps[0] {
        case Read(m, at) => ReadFits(s, r, goal, m, at);
        case Swap(m) => goal' := SwapFits(s, r, goal, m);
        case Call(m) => CallFits(s, r, goal, m);
        case Reply(m) => ReplyFits(s, r, goal, m);
      }
      hide Fits, Enabled, Moved, Guarded;
      goal' := GuardedRunFits(Moved(s, r, steps[0]), r, goal', steps[1..]);
    }
  }

  /** Guarded joins, however they overlap: once all are over there is one ring of the founders and the
      newcomers, each newcomer behind the server it asked. */
  lemma GuardedJoinsFormRing(links: Links, r: seq<Addr>, steps: seq<Step>, end: State)
    requires AllJoined(links, r, steps, end) && GuardedRun(Begun(links, r), r, steps)
    ensures IsRing(end.links, end.order)
    ensures forall a :: a in end.order <==> a in r || a in end.joins
  {
    hide IsRing, Legal, Run, GuardedRun;
    BegunFits(links, r);
    var goal := GuardedRunFits(Begun(links, r), r, links, steps);
    hide Settled;
    OverIsRing(end, r, goal);
  }

  lemma OverIsRing(s: State, r: seq<Addr>, goal: Links)
    requires Fits(s, r, goal) && forall m | m in s.joins :: InPhase(s, m, Joined)
    ensures IsRing(s.links, s.order)
    ensures forall a :: a in s.order <==> a in r || a in s.joins
  {
    forall a | a in s.order ensures a in goal && a in s.links && s.links[a] == goal[a] {
      assert MemberFits(s, r, goal, a);
    }
    hide Fits;
    forall i | 0 <= i < |s.order| ensures Linked(s.links, s.order, i) {
      assert Linked(goal, s.order, i);
    }
  }

  // ----- Unguarded joins of founders form none -----

  predicate AsksFounders(r: seq<Addr>, steps: seq<Step>) {
    forall step | step in steps :: step.Read? ==> step.at in r
  }

  predicate HasSwapped(s: State, m: Addr) {
    m in s.joins && !s.joins[m].phase.Asked?
  }

  /** What holds in all runs in which only founders are asked: a newcomer keeps the prev it was told, and
      what a join has read is still there or was swapped out by another join. */
  ghost predicate JoinTraced(s: State, r: seq<Addr>, m: Addr)
    requires m in s.joins
  {
    var j := s.joins[m];
    && m !in r && j.at in r && j.at in s.links
    && (j.phase.Asked? ==> s.links[j.at].prev == j.first || exists x :: Replaced(s, x, j.first))
    && (j.phase.Swapped? ==> j.second != m && (j.second in r || j.second in s.joins))
    && (j.phase.Joined? ==> m in s.links && s.links[m].prev == j.first)
  }

  ghost predicate Replaced(s: State, x: Addr, a: Addr) {
    HasSwapped(s, x) && s.joins[x].second == a
  }

  ghost predicate Traced(s: State, r: seq<Addr>) {
    && (forall m {:trigger JoinTraced(s, r, m)} | m in s.joins :: JoinTraced(s, r, m))
    && (forall a | a in r :: a in s.links && (s.links[a].prev in r || HasSwapped(s, s.links[a].prev)))
  }

  lemma BegunIsTraced(links: Links, r: seq<Addr>)
    requires IsRing(links, r)
    ensures Traced(Begun(links, r), r)
  {
    forall a | a in r ensures a in links && links[a].prev in r {
      PrevIsMember(links, r, a);
    }
  }

  /** Swaps stay, and so does what they replaced. */
  lemma ReplacedStays(s: State, r: seq<Addr>, step: Step, x: Addr, a: Addr)
    requires Enabled(s, r, step) && Replaced(s, x, a)
    ensures Replaced(Moved(s, r, step), x, a)
  {
  }

  lemma StepKeepsJoinTraced(s: State, r: seq<Addr>, step: Step, m: Addr)
    requires Traced(s, r) && Enabled(s, r, step) && (step.Read? ==> step.at in r) && m in s.joins
    ensures m in Moved(s, r, step).joins && JoinTraced(Moved(s, r, step), r, m)
  {
    assert JoinTraced(s, r, m);
    assert step.m in s.joins ==> JoinTraced(s, r, step.m);
    hide InsertBehind;
    var j, s' := s.joins[m], Moved(s, r, step);
    if j.phase.Asked? && step.m != m {
      if s.links[j.at].prev != j.first {
        var x :| Replaced(s, x, j.first);
        ReplacedStays(s, r, step, x, j.first);
      } else if step.Swap? && s.joins[step.m].at == j.at {
        assert Replaced(s', step.m, j.first);
      }
    }
  }

  lemma StepKeepsTraced(s: State, r: seq<Addr>, step: Step)
    requires Traced(s, r) && Enabled(s, r, step) && (step.Read? ==> step.at in r)
    ensures Traced(Moved(s, r, step), r)
  {
    hide InsertBehind;
    var s' := Moved(s, r, step);
    forall m | m in s'.joins ensures JoinTraced(s', r, m) {
      if m in s.joins {
        StepKeepsJoinTraced(s, r, step, m);
      }
    }
  }

  /** All swaps so far found what was read. */
  ghost predicate Clean(s: State) {
    forall m | HasSwapped(s, m) :: s.joins[m].first == s.joins[m].second
  }

  /** Two newcomers were told the same prev. */
  ghost predicate SamePrev(s: State, x: Addr, m: Addr) {
    x != m && HasSwapped(s, x) && HasSwapped(s, m) && s.joins[x].first == s.joins[m].first
  }

  /** The call of `m` went to a newcomer `q` whose reply undoes it. */
  ghost predicate Undone(s: State, r: seq<Addr>, m: Addr, q: Addr) {
    && m in s.joins && (s.joins[m].phase.Called? || s.joins[m].phase.Joined?)
    && s.joins[m].first == s.joins[m].second == q && q in s.joins && q != m && m !in r
    && (s.joins[q].phase.Joined? ==> q in s.links && s.links[q].next != m)
  }

  ghost predicate Broken(s: State, r: seq<Addr>) {
    (exists x, m :: SamePrev(s, x, m)) || (exists m, q :: Undone(s, r, m, q))
  }

  lemma UnguardedBreaks(s: State, r: seq<Addr>, step: Step)
    requires Traced(s, r) && Clean(s) && Enabled(s, r, step) && (step.Read? ==> step.at in r)
    ensures Guarded(s, r, step) ==> Clean(Moved(s, r, step))
    ensures !Guarded(s, r, step) ==> Broken(Moved(s, r, step), r)
  {
    assert step.m in s.joins ==> JoinTraced(s, r, step.m);
    hide Traced, InsertBehind;
    var s' := Moved(s, r, step);
    if !Guarded(s, r, step) {
      match step
      case Swap(m) =>
        var x :| Replaced(s, x, s.joins[m].first);
        assert SamePrev(s', x, m);
      case Call(m) =>
        assert Undone(s', r, m, s.joins[m].second);
    }
  }

  lemma BrokenStays(s: State, r: seq<Addr>, step: Step)
    requires Traced(s, r) && Broken(s, r) && Enabled(s, r, step)
    ensures Broken(Moved(s, r, step), r)
  {
    assert step.m in s.joins ==> JoinTraced(s, r, step.m);
    hide Traced, InsertBehind;
    var s' := Moved(s, r, step);
    if x, m :| SamePrev(s, x, m) {
      assert SamePrev(s', x, m);
    } else {
      var m, q :| Undone(s, r, m, q);
      assert Undone(s', r, m, q);
    }
  }

  lemma {:induction false} UnguardedRunBreaks(s: State, r: seq<Addr>, steps: seq<Step>)
    requires Traced(s, r) && Legal(s, r, steps) && AsksFounders(r, steps)
    requires Broken(s, r) || (Clean(s) && !GuardedRun(s, r, steps))
    ensures Traced(Run(s, r, steps), r) && Broken(Run(s, r, steps), r)
    decreases |steps|
  {
    hide Traced, Broken, Clean, Moved, Enabled, Guarded;
    if steps != [] {
      assert steps[0] in steps && forall step | step in steps[1..] :: step in steps;
      StepKeepsTraced(s, r, steps[0]);
      if Broken(s, r) {
        BrokenStays(s, r, steps[0]);
      } else {
        UnguardedBreaks(s, r, steps[0]);
      }
      UnguardedRunBreaks(Moved(s, r, steps[0]), r, steps[1..]);
    }
  }

  lemma BrokenIsNoRing(s: State, r: seq<Addr>, q: seq<Addr>)
    requires Traced(s, r) && Broken(s, r) && forall m | m in s.joins :: InPhase(s, m, Joined)
    requires forall m | m in s.joins :: m in q
    ensures !IsRing(s.links, q)
  {
    if IsRing(s.links, q) {
      if x, m :| SamePrev(s, x, m) {
        assert JoinTraced(s, r, x) && JoinTraced(s, r, m);
        PrevIsMember(s.links, q, x);
        PrevIsMember(s.links, q, m);
      } else {
        var m, p :| Undone(s, r, m, p);
        assert JoinTraced(s, r, m);
        PrevIsMember(s.links, q, m);
      }
      assert false;
    }
  }

  /** `q` is a ring of the founders and all newcomers. */
  ghost predicate RingOfAll(s: State, r: seq<Addr>, q: seq<Addr>) {
    IsRing(s.links, q) && forall a :: a in q <==> a in r || a in s.joins
  }

  /** When newcomers ask founders, any number of joins that overlap in any way end in one ring of all
      exactly when every swap found the prev that was read, and every call went to a server that was not
      itself still waiting for its reply. */
  lemma JoinsFormRingIff(links: Links, r: seq<Addr>, steps: seq<Step>, end: State)
    requires AllJoined(links, r, steps, end) && AsksFounders(r, steps)
    ensures (exists q :: RingOfAll(end, r, q)) <==> GuardedRun(Begun(links, r), r, steps)
  {
    if GuardedRun(Begun(links, r), r, steps) {
      GuardedJoinsFormRing(links, r, steps, end);
      assert RingOfAll(end, r, end.order);
    } else {
      BegunIsTraced(links, r);
      UnguardedRunBreaks(Begun(links, r), r, steps);
      hide Traced, Broken, GuardedRun;
      if q :| RingOfAll(end, r, q) {
        BrokenIsNoRing(end, r, q);
      }
    }
  }

  // ----- Joins at different servers -----

  /** A join under way at `at`. */
  predicate UnderWayAt(s: State, m: Addr, at: Addr) {
    m in s.joins && !s.joins[m].phase.Joined? && s.joins[m].at == at
  }

  /** Nobody asks a server that is still joining, or one that is being asked. */
  ghost predicate Apart(s: State, r: seq<Addr>, step: Step) {
    step.Read? ==> Settled(s, r, step.at) && forall m :: !UnderWayAt(s, m, step.at)
  }

  ghost predicate ApartRun(s: State, r: seq<Addr>, steps: seq<Step>)
    requires Legal(s, r, steps)
    decreases |steps|
  {
    steps == [] || (Apart(s, r, steps[0]) && ApartRun(Moved(s, r, steps[0]), r, steps[1..]))
  }

  /** The prev of a settled server is settled, or has just been swapped in. */
  ghost predicate PrevSettled(s: State, r: seq<Addr>, a: Addr) {
    a in s.links && (Settled(s, r, s.links[a].prev) || UnderWayAt(s, s.links[a].prev, a))
  }

  ghost predicate JoinApart(s: State, r: seq<Addr>, m: Addr)
    requires m in s.joins
  {
    var j := s.joins[m];
    && m !in r && m in s.links && Settled(s, r, j.at) && Settled(s, r, j.first)
    && (!j.phase.Joined? ==> j.second == j.first)
    && (j.phase.Asked? ==> j.at in s.links && s.links[j.at].prev == j.first)
    && (!j.phase.Joined? ==> forall x | x != m :: !UnderWayAt(s, x, j.at))
  }

  ghost predicate AllApart(s: State, r: seq<Addr>) {
    && (forall m {:trigger JoinApart(s, r, m)} | m in s.joins :: JoinApart(s, r, m))
    && (forall a {:trigger PrevSettled(s, r, a)} | Settled(s, r, a) :: PrevSettled(s, r, a))
  }

  lemma UnderWayBefore(s: State, r: seq<Addr>, step: Step, at: Addr)
    requires Enabled(s, r, step)
    ensures forall x :: UnderWayAt(Moved(s, r, step), x, at) ==>
      UnderWayAt(s, x, at) || (step.Read? && x == step.m && at == step.at)
  {
  }

  lemma ApartStep(s: State, r: seq<Addr>, step: Step)
    requires AllApart(s, r) && Enabled(s, r, step) && Apart(s, r, step)
    ensures Guarded(s, r, step) && AllApart(Moved(s, r, step), r)
  {
    hide InsertBehind;
    assert step.m in s.joins ==> JoinApart(s, r, step.m);
    assert step.Read? ==> PrevSettled(s, r, step.at);
    var s' := Moved(s, r, step);
    forall m | m in s'.joins ensures JoinApart(s', r, m) {
      assert m in s.joins ==> JoinApart(s, r, m) && (UnderWayAt(s, m, s.joins[m].at) || s.joins[m].phase.Joined?);
      UnderWayBefore(s, r, step, s'.joins[m].at);
    }
    forall a | Settled(s', r, a) ensures PrevSettled(s', r, a) {
      assert Settled(s, r, a) ==> PrevSettled(s, r, a);
    }
  }

  lemma {:induction false} ApartRunIsGuarded(s: State, r: seq<Addr>, steps: seq<Step>)
    requires AllApart(s, r) && Legal(s, r, steps) && ApartRun(s, r, steps)
    ensures GuardedRun(s, r, steps)
    decreases |steps|
  {
    hide AllApart, Enabled, Moved, Guarded, Apart;
    if steps != [] {
      ApartStep(s, r, steps[0]);
      ApartRunIsGuarded(Moved(s, r, steps[0]), r, steps[1..]);
    }
  }

  /** Joins may overlap as much as they like, as long as no two of them are under way at one server, and
      nobody asks a server that has not joined itself. */
  lemma ApartJoinsFormRing(links: Links, r: seq<Addr>, steps: seq<Step>, end: State)
    requires AllJoined(links, r, steps, end) && ApartRun(Begun(links, r), r, steps)
    ensures IsRing(end.links, end.order)
    ensures forall a :: a in end.order <==> a in r || a in end.joins
  {
    forall a | a in r ensures PrevSettled(Begun(links, r), r, a) {
      PrevIsMember(links, r, a);
    }
    ApartRunIsGuarded(Begun(links, r), r, steps);
    GuardedJoinsFormRing(links, r, steps, end);
  }

  // ----- Joins at one server -----

  const SMALL_RING: seq<Addr> := [10, 20]

  const SMALL_LINKS: Links := map[10 := Link(20, 20), 20 := Link(10, 10), 1 := Link(1, 1), 2 := Link(2, 2)]

  /** Server 2 asks 10 when 1 has been swapped in, and joins before 1 hears its reply. */
  const OVERTAKEN: seq<Step> :=
    [Read(1, 10), Swap(1), Call(1), Read(2, 10), Swap(2), Call(2), Reply(2), Reply(1)]

  lemma SmallRingIsRing()
    ensures IsRing(SMALL_LINKS, SMALL_RING)
  {
    forall i | 0 <= i < 2 ensures Linked(SMALL_LINKS, SMALL_RING, i) {
      assert i == 0 || i == 1;
    }
  }

  predicate Gives(s: State, r: seq<Addr>, steps: seq<Step>, end: State) {
    Legal(s, r, steps) && Run(s, r, steps) == end
  }

  lemma OneMore(s: State, r: seq<Addr>, step: Step, steps: seq<Step>, end: State)
    requires Enabled(s, r, step) && Gives(Moved(s, r, step), r, steps, end)
    ensures Gives(s, r, [step] + steps, end)
  {
    hide Enabled, Moved;
    assert ([step] + steps)[0] == step && ([step] + steps)[1..] == steps;
  }

  lemma FourMore(s: State, r: seq<Addr>, a: Step, b: Step, c: Step, d: Step, steps: seq<Step>, end: State)
    requires Enabled(s, r, a) && Enabled(Moved(s, r, a), r, b)
    requires Enabled(Moved(Moved(s, r, a), r, b), r, c)
    requires Enabled(Moved(Moved(Moved(s, r, a), r, b), r, c), r, d)
    requires Gives(Moved(Moved(Moved(Moved(s, r, a), r, b), r, c), r, d), r, steps, end)
    ensures Gives(s, r, [a, b, c, d] + steps, end)
  {
    hide Enabled, Moved, Gives;
    OneMore(Moved(Moved(Moved(s, r, a), r, b), r, c), r, d, steps, end);
    OneMore(Moved(Moved(s, r, a), r, b), r, c, [d] + steps, end);
    OneMore(Moved(s, r, a), r, b, [c] + ([d] + steps), end);
    OneMore(s, r, a, [b] + ([c] + ([d] + steps)), end);
    assert [a] + ([b] + ([c] + ([d] + steps))) == [a, b, c, d] + steps;
  }

  /** Where the pointers and the joins are after four steps. */
  ghost predicate Halfway(s: State) {
    && s.links == map[10 := Link(1, 20), 20 := Link(10, 1), 1 := Link(1, 1), 2 := Link(2, 2)]
    && s.joins == map[1 := Joining(10, 20, 20, Called), 2 := Joining(10, 1, 1, Asked)]
  }

  lemma SecondHalf(s: State) returns (end: State)
    requires Halfway(s)
    ensures Gives(s, SMALL_RING, [Swap(2), Call(2), Reply(2), Reply(1)], end)
    ensures end.joins.Keys == {1, 2} && InPhase(end, 1, Joined) && InPhase(end, 2, Joined)
    ensures end.links == map[10 := Link(2, 20), 20 := Link(10, 1), 2 := Link(1, 10), 1 := Link(20, 10)]
  {
    hide InsertBehind;
    var r := SMALL_RING;
    end := Moved(Moved(Moved(Moved(s, r, Swap(2)), r, Call(2)), r, Reply(2)), r, Reply(1));
    assert Gives(end, r, [], end);
    hide Legal, Run, Gives;
    FourMore(s, r, Swap(2), Call(2), Reply(2), Reply(1), [], end);
    assert [Swap(2), Call(2), Reply(2), Reply(1)] + [] == [Swap(2), Call(2), Reply(2), Reply(1)];
  }

  lemma OvertakenRun() returns (end: State)
    ensures Gives(Begun(SMALL_LINKS, SMALL_RING), SMALL_RING, OVERTAKEN, end)
    ensures end.joins.Keys == {1, 2} && InPhase(end, 1, Joined) && InPhase(end, 2, Joined)
    ensures end.links == map[10 := Link(2, 20), 20 := Link(10, 1), 2 := Link(1, 10), 1 := Link(20, 10)]
  {
    hide InsertBehind, Legal, Run, Gives;
    var s, r := Begun(SMALL_LINKS, SMALL_RING), SMALL_RING;
    end := SecondHalf(Moved(Moved(Moved(Moved(s, r, Read(1, 10)), r, Swap(1)), r, Call(1)), r, Read(2, 10)));
    FourMore(s, r, Read(1, 10), Swap(1), Call(1), Read(2, 10), [Swap(2), Call(2), Reply(2), Reply(1)], end);
    assert [Read(1, 10), Swap(1), Call(1), Read(2, 10)] + [Swap(2), Call(2), Reply(2), Reply(1)] == OVERTAKEN;
  }

  /** The reply to 1 then undoes the call that told it of 2. */
  lemma OverlapBreaksRing()
    ensures Legal(Begun(SMALL_LINKS, SMALL_RING), SMALL_RING, OVERTAKEN)
    ensures var end := Run(Begun(SMALL_LINKS, SMALL_RING), SMALL_RING, OVERTAKEN);
      && AllJoined(SMALL_LINKS, SMALL_RING, OVERTAKEN, end) && end.joins.Keys == {1, 2}
      && end.links == map[10 := Link(2, 20), 20 := Link(10, 1), 2 := Link(1, 10), 1 := Link(20, 10)]
      && forall q :: 1 in q ==> !IsRing(end.links, q)
  {
    SmallRingIsRing();
    var end := OvertakenRun();
    hide Run, Legal, IsRing, Begun;
    forall q | 1 in q ensures !IsRing(end.links, q) {
      if IsRing(end.links, q) {
        PrevIsMember(end.links, q, 1);
        assert false;
      }
    }
  }
}
