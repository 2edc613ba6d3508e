/** List rounds make coordinators resign: on a fixed ring of the Rust version, with no election under way,
    exactly which servers are coordinators still. */
module RingResigns {
  import opened Common
  import opened RingOrder
  import opened RingLinks
  import opened RingTokens

  /** A lesser server stands before `y` on the list. */
  ghost predicate Outranked(list: seq<Addr>, y: Addr) {
    exists j, k :: 0 <= k < j < |list| && list[j] == y && list[k] < list[j]
  }

  /** What a list round has listed so far. */
  function ListOf(t: Token): seq<Addr> {
    match t.msg
    case Listing(list) => list
    case Announcing(members, _) => members
    case _ => []
  }

  ghost predicate OnlyLists(s: State) {
    s.deciding == {} && forall i | 0 <= i < |s.tokens| :: s.tokens[i].msg.Listing? || s.tokens[i].msg.Announcing?
  }

  /** Some list round under way, or over, has listed `y` behind a lesser server. */
  ghost predicate OutrankedInSome(s: State, y: Addr) {
    exists i :: 0 <= i < |s.tokens| && Outranked(ListOf(s.tokens[i]), y)
  }

  /** Coordinators are those of the start that no list round has outranked. */
  ghost predicate FlagIs(start: State, s: State, y: Addr) {
    && y in start.coordinator && y in s.coordinator
    && (s.coordinator[y] <==> start.coordinator[y] && !OutrankedInSome(s, y))
  }

  ghost predicate FlagsAre(start: State, s: State, r: seq<Addr>) {
    OnlyLists(s) && forall y | y in r :: FlagIs(start, s, y)
  }

  lemma ListGoesOn(list: seq<Addr>, x: Addr, y: Addr)
    requires x !in list
    ensures Outranked(list + [x], y) <==> Outranked(list, y) || (y == x && !IsLeast(list, x))
  {
    var more := list + [x];
    if Outranked(list, y) {
      var j, k :| 0 <= k < j < |list| && list[j] == y && list[k] < list[j];
      assert more[j] == y && more[k] < more[j];
    }
    if y == x && !IsLeast(list, x) {
      var k :| 0 <= k < |list| && list[k] < x;
      assert more[|list|] == y && more[k] < more[|list|];
    }
  }

  /** What a delivery makes of the list its token carries. */
  lemma PassedList(s: State, r: seq<Addr>, t: Token, y: Addr)
    requires t.to in s.links && !Finished(t) && (t.msg.Listing? || t.msg.Announcing?)
    ensures var u := Passed(Rust, s.links, t);
      && (u.msg.Listing? || u.msg.Announcing?)
      && (Outranked(ListOf(u), y) <==> Outranked(ListOf(t), y) || (y == t.to && !Flag(Rust, t, true)))
  {
    if t.msg.Listing? && t.to !in t.msg.list {
      ListGoesOn(t.msg.list, t.to, y);
    }
    hide IsLeast, Outranked;
  }

  /** Which lists outrank `y` after one of them went on. */
  lemma OneGoesOn(s: State, u: State, i: nat, y: Addr)
    requires i < |s.tokens| && |u.tokens| == |s.tokens|
    requires forall j | 0 <= j < |s.tokens| && j != i :: u.tokens[j] == s.tokens[j]
    requires Outranked(ListOf(s.tokens[i]), y) ==> Outranked(ListOf(u.tokens[i]), y)
    ensures OutrankedInSome(u, y) <==> OutrankedInSome(s, y) || Outranked(ListOf(u.tokens[i]), y)
  {
    hide Outranked;
    if OutrankedInSome(s, y) {
      var j :| 0 <= j < |s.tokens| && Outranked(ListOf(s.tokens[j]), y);
      assert Outranked(ListOf(u.tokens[j]), y);
    }
    if OutrankedInSome(u, y) {
      var j :| 0 <= j < |u.tokens| && Outranked(ListOf(u.tokens[j]), y);
      assert j != i ==> Outranked(ListOf(s.tokens[j]), y);
    }
  }

  /** What a delivery changes: one token, and the flag of its receiver. */
  lemma DeliverChanges(s: State, r: seq<Addr>, i: nat)
    requires StateOk(s, r) && OnlyLists(s) && Enabled(s, r, Deliver(i)) && TokensAtHome(s, r)
    ensures var t, u := s.tokens[i], Apply(Rust, s, r, Deliver(i));
      && t.to in s.links && t.to in s.coordinator && !Finished(t)
      && u.tokens == s.tokens[i := Passed(Rust, s.links, t)] && u.deciding == s.deciding
      && u.coordinator == s.coordinator[t.to := s.coordinator[t.to] && Flag(Rust, t, true)]
  {
    hide TokenOk, FlagOk, CacheOk, IsRing, Passed, IsLeast;
    assert s.tokens[i].to in r;
  }

  /** One list goes on past `x`, which keeps its flag or not. */
  lemma FlagGoesOn(start: State, s: State, u: State, i: nat, x: Addr, keeps: bool, y: Addr)
    requires FlagIs(start, s, y) && i < |s.tokens| && |u.tokens| == |s.tokens| && x in s.coordinator
    requires forall j | 0 <= j < |s.tokens| && j != i :: u.tokens[j] == s.tokens[j]
    requires u.coordinator == s.coordinator[x := s.coordinator[x] && keeps]
    requires Outranked(ListOf(u.tokens[i]), y) <==> Outranked(ListOf(s.tokens[i]), y) || (y == x && !keeps)
    ensures FlagIs(start, u, y)
  {
    hide Outranked, ListOf, OutrankedInSome;
    OneGoesOn(s, u, i, y);
    if Outranked(ListOf(s.tokens[i]), y) {
      OneOutranks(s, i, y);
    }
  }

  lemma DeliverKeepsFlag(start: State, s: State, r: seq<Addr>, i: nat, y: Addr)
    requires StateOk(s, r) && FlagsAre(start, s, r) && Enabled(s, r, Deliver(i)) && TokensAtHome(s, r) && y in r
    ensures FlagIs(start, Apply(Rust, s, r, Deliver(i)), y)
  {
    var t := s.tokens[i];
    assert t.msg.Listing? || t.msg.Announcing?;
    assert FlagIs(start, s, y);
    hide FlagIs, Outranked, ListOf, Passed, Flag, TokenOk, FlagOk, CacheOk, IsRing, DecidingOk;
    DeliverChanges(s, r, i);
    hide Apply, FlagsAre;
    PassedList(s, r, t, y);
    FlagGoesOn(start, s, Apply(Rust, s, r, Deliver(i)), i, t.to, Flag(Rust, t, true), y);
  }

  lemma OneOutranks(s: State, i: nat, y: Addr)
    requires i < |s.tokens| && Outranked(ListOf(s.tokens[i]), y)
    ensures OutrankedInSome(s, y)
  {
  }

  lemma DeliverKeepsFlags(start: State, s: State, r: seq<Addr>, i: nat)
    requires StateOk(s, r) && FlagsAre(start, s, r) && Enabled(s, r, Deliver(i)) && TokensAtHome(s, r)
    ensures FlagsAre(start, Apply(Rust, s, r, Deliver(i)), r)
  {
    var u := Apply(Rust, s, r, Deliver(i));
    hide TokenOk, FlagOk, CacheOk, IsRing, FlagIs, ListOf;
    PassedList(s, r, s.tokens[i], 0);
    hide Passed;
    forall y | y in r ensures FlagIs(start, u, y) {
      DeliverKeepsFlag(start, s, r, i, y);
    }
  }

  lemma StartKeepsFlags(start: State, s: State, r: seq<Addr>, x: Addr)
    requires StateOk(s, r) && FlagsAre(start, s, r) && Enabled(s, r, StartList(x)) && TokensAtHome(s, r)
    ensures FlagsAre(start, Apply(Rust, s, r, StartList(x)), r)
  {
    var u := Apply(Rust, s, r, StartList(x));
    hide TokenOk, FlagOk, CacheOk, IsRing;
    forall y | y in r ensures FlagIs(start, u, y) {
      assert FlagIs(start, s, y);
      StartedOutranksNobody(s, u, y);
    }
  }

  lemma StartedOutranksNobody(s: State, u: State, y: Addr)
    requires |u.tokens| == |s.tokens| + 1 && u.tokens[..|s.tokens|] == s.tokens
    requires |ListOf(u.tokens[|s.tokens|])| == 1
    ensures OutrankedInSome(u, y) <==> OutrankedInSome(s, y)
  {
    if OutrankedInSome(s, y) {
      var j :| 0 <= j < |s.tokens| && Outranked(ListOf(s.tokens[j]), y);
      assert u.tokens[j] == s.tokens[j];
    }
  }

  // ----- Whole runs -----

  /** List rounds start and go on; no election starts. */
  ghost predicate NoElection(steps: seq<Step>) {
    forall step | step in steps :: !step.StartElection?
  }

  lemma StepKeepsFlags(start: State, s: State, r: seq<Addr>, step: Step)
    requires StateOk(s, r) && FlagsAre(start, s, r) && Enabled(s, r, step) && TokensAtHome(s, r)
    requires !step.StartElection?
    ensures FlagsAre(start, Apply(Rust, s, r, step), r)
  {
    assert !step.Decide?;
    hide StateOk, FlagsAre;
    match step
    case StartList(x) => StartKeepsFlags(start, s, r, x);
    case Deliver(i) => DeliverKeepsFlags(start, s, r, i);
  }

  lemma {:induction false} RunKeepsFlags(start: State, s: State, r: seq<Addr>, steps: seq<Step>)
    requires StateOk(s, r) && Legal(Rust, s, r, steps) && FlagsAre(start, s, r) && NoElection(steps)
    ensures FlagsAre(start, Run(Rust, s, r, steps), r)
    decreases |steps|
  {
    hide TokenOk, FlagOk, CacheOk, IsRing, DecidingOk, FlagsAre, Apply, Enabled;
    if steps != [] {
      assert steps[0] in steps && forall x | x in steps[1..] :: x in steps;
      StepKeepsOk(Rust, s, r, steps[0]);
      StepKeepsFlags(start, s, r, steps[0]);
      RunKeepsFlags(start, Apply(Rust, s, r, steps[0]), r, steps[1..]);
    }
  }

  /** Without elections a server is coordinator at the end exactly when it was one at the start and no list
      round, under way or over, has listed it behind a lesser server. */
  lemma CoordinatorStaysIff(s: State, r: seq<Addr>, steps: seq<Step>, end: State, y: Addr)
    requires Reached(Rust, s, r, steps, end) && NoElection(steps) && y in r
    ensures y in s.coordinator && y in end.coordinator
    ensures end.coordinator[y] <==> s.coordinator[y] && forall t | t in end.tokens :: !Outranked(ListOf(t), y)
  {
    hide Legal, Run, StateOk, Outranked;
    RestIsOk(s, r);
    RunKeepsFlags(s, s, r, steps);
    assert FlagIs(s, end, y);
    if t :| t in end.tokens && Outranked(ListOf(t), y) {
      var i :| 0 <= i < |end.tokens| && end.tokens[i] == t;
      assert Outranked(ListOf(end.tokens[i]), y);
    }
    if OutrankedInSome(end, y) {
      var i :| 0 <= i < |end.tokens| && Outranked(ListOf(end.tokens[i]), y);
      assert end.tokens[i] in end.tokens;
    }
  }

  /** So once a round of `x` has come around no server with a greater address is coordinator: of two
      coordinators, the greater one has resigned by the end of a round of the other. */
  lemma GreaterCoordinatorsResign(s: State, r: seq<Addr>, steps: seq<Step>, end: State, t: Token, y: Addr)
    requires Reached(Rust, s, r, steps, end) && NoElection(steps) && t in end.tokens && t.msg.Announcing?
    requires y in r && |t.msg.members| > 0 && t.msg.members[0] < y
    ensures y in end.coordinator && !end.coordinator[y]
  {
    CoordinatorStaysIff(s, r, steps, end, y);
    ReachedTokenIsOk(Rust, s, r, steps, end, t);
    hide Reached;
    var j := RotationIndex(r, t.msg.members, y);
    assert 0 <= 0 < j < |ListOf(t)| && ListOf(t)[j] == y && ListOf(t)[0] < ListOf(t)[j];
  }

  /** And the least server of the ring never resigns. */
  lemma LeastNeverResigns(s: State, r: seq<Addr>, steps: seq<Step>, end: State, y: Addr)
    requires Reached(Rust, s, r, steps, end) && NoElection(steps) && y in r && IsLeast(r, y)
    ensures y in s.coordinator && y in end.coordinator && end.coordinator[y] == s.coordinator[y]
  {
    CoordinatorStaysIff(s, r, steps, end, y);
    LeastMeans(r, y);
    forall t | t in end.tokens ensures !Outranked(ListOf(t), y) {
      ReachedTokenIsOk(Rust, s, r, steps, end, t);
      ListedAreMembers(end, r, t);
    }
  }

  lemma ListedAreMembers(s: State, r: seq<Addr>, t: Token)
    requires TokenOk(s, r, t)
    ensures forall i | 0 <= i < |ListOf(t)| :: ListOf(t)[i] in r
  {
    if t.msg.Listing? {
      ArcMembers(r, IndexOf(r, t.msg.list[0]), |t.msg.list|);
    } else if t.msg.Announcing? {
      RotationMembers(r, t.msg.members);
    }
    forall i | 0 <= i < |ListOf(t)| ensures ListOf(t)[i] in r {
      assert ListOf(t)[i] in ListOf(t);
    }
  }

  // ----- The C version -----

  ghost predicate OnlyListsC(s: State) {
    s.deciding == {} && forall i | 0 <= i < |s.tokens| :: s.tokens[i].msg.Listing? || s.tokens[i].msg.Listed?
  }

  lemma StepKeepsCoordinators(s: State, r: seq<Addr>, step: Step)
    requires StateOk(s, r) && OnlyListsC(s) && Enabled(s, r, step) && TokensAtHome(s, r) && !step.StartElection?
    ensures OnlyListsC(Apply(C, s, r, step)) && Apply(C, s, r, step).coordinator == s.coordinator
  {
    hide TokenOk, FlagOk, CacheOk, IsRing, DecidingOk;
    if step.Deliver? {
      assert s.tokens[step.i].to in r;
    }
  }

  /** There a list only shows that its sender is alive: list rounds change nobody's mind, so two coordinators
      stay two until the next election. */
  lemma {:induction false} ListsChangeNobodyInC(s: State, r: seq<Addr>, steps: seq<Step>)
    requires StateOk(s, r) && Legal(C, s, r, steps) && OnlyListsC(s) && NoElection(steps)
    ensures OnlyListsC(Run(C, s, r, steps)) && Run(C, s, r, steps).coordinator == s.coordinator
    decreases |steps|
  {
    hide StateOk, OnlyListsC, Apply, Enabled;
    if steps != [] {
      assert steps[0] in steps && forall x | x in steps[1..] :: x in steps;
      StateIsKnown(s, r);
      StepKeepsOk(C, s, r, steps[0]);
      StepKeepsCoordinators(s, r, steps[0]);
      ListsChangeNobodyInC(Apply(C, s, r, steps[0]), r, steps[1..]);
    }
  }

  lemma StateIsKnown(s: State, r: seq<Addr>)
    requires StateOk(s, r)
    ensures Known(s, r) && forall t | t in s.tokens :: t.to in r
  {
    TokensAreHome(s, r);
  }
}
