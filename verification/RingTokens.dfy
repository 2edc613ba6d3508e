/** Messages that walk the ring along `prev`: elections, coordinate messages, list rounds and the
    announcements they end in. A walk is carried by one token: every delivery makes at most one
    further call. */
module RingTokens {
  import opened Common
  import opened RingOrder
  import opened RingLinks

  datatype Message =
    | Election(list: seq<Addr>)
    | Coordinate(members: seq<Addr>, read: seq<Addr>)
    | Elected(members: seq<Addr>)
    | Listing(list: seq<Addr>)
    | Announcing(members: seq<Addr>, told: nat)
    | Listed(members: seq<Addr>)

  /** `elections`, `coordinates` and `lists` count the deliveries of this walk so far. */
  datatype Token = Token(to: Addr, msg: Message, elections: nat, coordinates: nat, lists: nat)

  /** The Rust program, or its earlier version in C: there the server that closes an election decides
      for itself some time after it sent the coordinate message, and a list round ends without an
      announcement. */
  datatype Version = Rust | C

  /** `deciding` are the servers of the C version that closed an election and have still to decide for
      themselves, with the list they decide on; `told` are the servers that handled a coordinate
      message, `cached` those that got a list. */
  datatype State = State(
    links: Links,
    coordinator: map<Addr, bool>,
    cache: map<Addr, seq<Addr>>,
    tokens: seq<Token>,
    deciding: set<(Addr, seq<Addr>)>,
    told: set<Addr>,
    cached: set<Addr>)

  datatype Step =
    | StartElection(x: Addr)
    | StartList(x: Addr)
    | Deliver(i: nat)
    | Decide(x: Addr, list: seq<Addr>)

  /** The test of the program: nobody on the list is less than me. */
  predicate IsLeast(list: seq<Addr>, me: Addr) {
    forall i | 0 <= i < |list| :: list[i] >= me
  }

  predicate Finished(t: Token) {
    t.msg.Elected? || t.msg.Listed? || (t.msg.Announcing? && t.msg.told >= |t.msg.members|)
  }

  predicate Enabled(s: State, r: seq<Addr>, step: Step) {
    match step
    case StartElection(x) => x in r
    case StartList(x) => x in r && x in s.coordinator && s.coordinator[x]
    case Deliver(i) => i < |s.tokens| && !Finished(s.tokens[i])
    case Decide(x, list) => (x, list) in s.deciding
  }

  /** What the receiver of a token does with it: the token that goes on. */
  function Passed(version: Version, links: Links, t: Token): Token
    requires t.to in links && !Finished(t)
  {
    var me, prev := t.to, links[t.to].prev;
    match t.msg
    case Election(list) =>
      Token(prev, if me in list then Coordinate(list, [me]) else Election(list + [me]),
            t.elections + 1, t.coordinates, t.lists)
    case Coordinate(members, read) =>
      Token(prev, if me in read then Elected(members) else Coordinate(members, read + [me]),
            t.elections, t.coordinates + 1, t.lists)
    case Listing(list) =>
      if me in list then
        Token(if |list| > 0 then list[0] else me, if version.Rust? then Announcing(list, 0) else Listed(list),
              t.elections, t.coordinates, t.lists + 1)
      else Token(prev, Listing(list + [me]), t.elections, t.coordinates, t.lists + 1)
    case Announcing(members, told) =>
      Token(if told + 1 < |members| then members[told + 1] else me, Announcing(members, told + 1),
            t.elections, t.coordinates, t.lists)
  }

  /** The receiver finds itself on the list of an election. */
  predicate Closes(t: Token) {
    t.msg.Election? && t.to in t.msg.list
  }

  /** The receiver's flag afterwards. */
  function Flag(version: Version, t: Token, was: bool): bool {
    match t.msg
    case Coordinate(members, _) => IsLeast(members, t.to)
    case Listing(list) => if version.Rust? && t.to !in list && !IsLeast(list, t.to) then false else was
    case _ => was
  }

  predicate Known(s: State, r: seq<Addr>) {
    forall x | x in r :: x in s.links && x in s.coordinator
  }

  function Apply(version: Version, s: State, r: seq<Addr>, step: Step): State
    requires Known(s, r) && Enabled(s, r, step)
    requires forall t | t in s.tokens :: t.to in r
  {
    match step
    case StartElection(x) => s.(tokens := s.tokens + [Token(s.links[x].prev, Election([x]), 0, 0, 0)])
    case StartList(x) => s.(tokens := s.tokens + [Token(s.links[x].prev, Listing([x]), 0, 0, 0)])
    case Deliver(i) =>
      var t := s.tokens[i];
      s.(tokens := s.tokens[i := Passed(version, s.links, t)],
         coordinator := s.coordinator[t.to := Flag(version, t, s.coordinator[t.to])],
         deciding := if version.C? && Closes(t) then s.deciding + {(t.to, t.msg.list)} else s.deciding,
         cache := if t.msg.Announcing? then s.cache[t.to := t.msg.members] else s.cache,
         told := if t.msg.Coordinate? then s.told + {t.to} else s.told,
         cached := if t.msg.Announcing? then s.cached + {t.to} else s.cached)
    case Decide(x, list) =>
      s.(coordinator := s.coordinator[x := IsLeast(list, x)], deciding := s.deciding - {(x, list)})
  }

  // ----- Invariant on a fixed ring -----

  /** `list` is the arc of the ring that ends just before `to`. */
  ghost predicate Trail(r: seq<Addr>, list: seq<Addr>, to: Addr) {
    && 1 <= |list| <= |r| && list[0] in r
    && list == Arc(r, IndexOf(r, list[0]), |list|)
    && to == r[Pos(IndexOf(r, list[0]), |list|, |r|)]
  }

  ghost predicate TokenOk(s: State, r: seq<Addr>, t: Token) {
    && t.to in r
    && match t.msg
       case Election(list) => Trail(r, list, t.to) && t.elections == |list| - 1 && t.coordinates == 0
       case Coordinate(members, read) =>
         && Rotation(r, members) && Trail(r, read, t.to)
         && t.elections == |r| && t.coordinates == |read| - 1
         && (forall j | 1 <= j < |read| :: read[j] in s.told)
       case Elected(members) =>
         && Rotation(r, members) && t.elections == |r| && t.coordinates == |r|
         && (forall x | x in r :: x in s.told)
       case Listing(list) => Trail(r, list, t.to) && t.lists == |list| - 1
       case Listed(members) => Rotation(r, members) && t.lists == |r|
       case Announcing(members, told) =>
         && Rotation(r, members) && t.lists == |r| && told <= |members|
         && (told < |members| ==> t.to == members[told])
         && (forall j | 0 <= j < told :: members[j] in s.cached)
  }

  ghost predicate FlagOk(s: State, r: seq<Addr>, x: Addr) {
    x in s.told ==> x in s.coordinator && (s.coordinator[x] <==> IsLeast(r, x))
  }

  ghost predicate CacheOk(s: State, r: seq<Addr>, x: Addr) {
    x in s.cached ==> x in s.cache && Rotation(r, s.cache[x])
  }

  ghost predicate StateOk(s: State, r: seq<Addr>) {
    && IsRing(s.links, r) && Known(s, r)
    && (forall i | 0 <= i < |s.tokens| :: TokenOk(s, r, s.tokens[i]))
    && (forall x | x in r :: FlagOk(s, r, x) && CacheOk(s, r, x))
    && DecidingOk(s, r)
  }

  ghost predicate DecidingOk(s: State, r: seq<Addr>) {
    forall p | p in s.deciding :: p.0 in r && Rotation(r, p.1)
  }

  // ----- One delivery -----

  lemma TrailStops(r: seq<Addr>, list: seq<Addr>, to: Addr)
    requires Distinct(r) && Trail(r, list, to)
    ensures to in r
    ensures to in list <==> |list| == |r|
    ensures to in list ==> Rotation(r, list) && to == list[0]
  {
  }

  lemma TrailExtends(links: Links, r: seq<Addr>, list: seq<Addr>, to: Addr)
    requires IsRing(links, r) && Trail(r, list, to) && |list| < |r|
    ensures to in links && Trail(r, list + [to], links[to].prev)
  {
    hide IsRing, Distinct, IndexOf, Arc;
    var i, k, n := IndexOf(r, list[0]), |list|, |r|;
    RingAt(links, r, Pos(i, k, n), i);
    ArcExtends(r, i, k);
    assert (list + [to])[0] == list[0] && |list + [to]| == k + 1;
    assert Pos(Pos(i, k, n), 1, n) == Pos(i, k + 1, n);
  }

  lemma TrailGoesOn(links: Links, r: seq<Addr>, list: seq<Addr>, to: Addr)
    requires IsRing(links, r) && Trail(r, list, to)
    ensures to in r && to in links
    ensures to in list <==> |list| == |r|
    ensures to !in list ==> Trail(r, list + [to], links[to].prev)
    ensures to in list ==> Rotation(r, list) && to == list[0] && Trail(r, [to], links[to].prev)
  {
    TrailStops(r, list, to);
    StartsTrail(links, r, to);
    if |list| < |r| {
      TrailExtends(links, r, list, to);
    }
  }

  lemma StartsTrail(links: Links, r: seq<Addr>, x: Addr)
    requires IsRing(links, r) && x in r
    ensures x in links && Trail(r, [x], links[x].prev)
  {
    var i := IndexOf(r, x);
    assert Linked(links, r, i);
    assert Arc(r, i, 1) == [x];
  }

  lemma RotationMembers(r: seq<Addr>, s: seq<Addr>)
    requires Rotation(r, s)
    ensures |s| == |r|
    ensures forall x :: x in s <==> x in r
  {
  }

  lemma RotationAt(r: seq<Addr>, s: seq<Addr>, k: nat)
    requires Rotation(r, s) && k < |s|
    ensures |s| == |r| && s[k] in r
  {
  }

  lemma RotationIndex(r: seq<Addr>, s: seq<Addr>, x: Addr) returns (j: nat)
    requires Rotation(r, s) && x in r
    ensures j < |s| && s[j] == x
  {
    RotationMembers(r, s);
    hide Rotation;
    assert x in s;
    j :| 0 <= j < |s| && s[j] == x;
  }

  lemma LeastMeans(s: seq<Addr>, x: Addr)
    ensures IsLeast(s, x) <==> forall y | y in s :: x <= y
  {
    if IsLeast(s, x) {
      assert forall y | y in s :: x <= y;
    } else {
      var i :| 0 <= i < |s| && s[i] < x;
      assert s[i] in s;
    }
  }

  lemma RotationLeast(r: seq<Addr>, s: seq<Addr>, x: Addr)
    requires Rotation(r, s)
    ensures IsLeast(s, x) <==> IsLeast(r, x)
  {
    RotationMembers(r, s);
    LeastMeans(r, x);
    LeastMeans(s, x);
    hide IsLeast, Rotation;
  }

  /** What a delivery may add to the two records. */
  ghost predicate Recorded(s: State, u: State, t: Token) {
    && u.told == (if t.msg.Coordinate? then s.told + {t.to} else s.told)
    && u.cached == (if t.msg.Announcing? then s.cached + {t.to} else s.cached)
  }

  lemma PassElection(version: Version, s: State, u: State, r: seq<Addr>, t: Token)
    requires IsRing(s.links, r) && TokenOk(s, r, t) && Recorded(s, u, t) && t.msg.Election?
    ensures t.to in s.links && TokenOk(u, r, Passed(version, s.links, t))
  {
    TrailGoesOn(s.links, r, t.msg.list, t.to);
    PrevIsMember(s.links, r, t.to);
    hide IsRing, Trail, Rotation;
  }

  lemma PassCoordinate(version: Version, s: State, u: State, r: seq<Addr>, t: Token)
    requires IsRing(s.links, r) && TokenOk(s, r, t) && Recorded(s, u, t) && t.msg.Coordinate?
    ensures t.to in s.links && TokenOk(u, r, Passed(version, s.links, t))
  {
    var read := t.msg.read;
    TrailGoesOn(s.links, r, read, t.to);
    PrevIsMember(s.links, r, t.to);
    if t.to in read {
      CoordinateIsTold(s, u, r, t);
    }
    hide IsRing, Trail, Rotation;
  }

  /** When a coordinate message has come around, everybody has handled it. */
  lemma CoordinateIsTold(s: State, u: State, r: seq<Addr>, t: Token)
    requires IsRing(s.links, r) && TokenOk(s, r, t) && Recorded(s, u, t) && t.msg.Coordinate? && t.to in t.msg.read
    ensures forall x | x in r :: x in u.told
  {
    hide IsRing, Trail, Rotation, IsLeast;
    var read := t.msg.read;
    TrailGoesOn(s.links, r, read, t.to);
    forall x | x in r ensures x in u.told {
      var j := RotationIndex(r, read, x);
      assert j == 0 ==> x == t.to;
    }
  }

  lemma PassListing(version: Version, s: State, u: State, r: seq<Addr>, t: Token)
    requires IsRing(s.links, r) && TokenOk(s, r, t) && Recorded(s, u, t) && t.msg.Listing?
    ensures t.to in s.links && TokenOk(u, r, Passed(version, s.links, t))
  {
    hide IsRing, Trail, Rotation, IsLeast;
    var list := t.msg.list;
    ListIsTrail(s, r, t);
    TrailGoesOn(s.links, r, list, t.to);
    PrevIsMember(s.links, r, t.to);
    if t.to in list {
      RotationAt(r, list, 0);
    }
  }

  lemma ListIsTrail(s: State, r: seq<Addr>, t: Token)
    requires TokenOk(s, r, t) && t.msg.Listing?
    ensures 1 <= |t.msg.list| <= |r| && Trail(r, t.msg.list, t.to)
  {
  }

  lemma PassAnnouncing(version: Version, s: State, u: State, r: seq<Addr>, t: Token)
    requires IsRing(s.links, r) && TokenOk(s, r, t) && Recorded(s, u, t) && t.msg.Announcing? && !Finished(t)
    ensures t.to in s.links && TokenOk(u, r, Passed(version, s.links, t))
  {
    hide IsRing, Trail, Rotation, IsLeast;
    var members, told := t.msg.members, t.msg.told;
    RotationAt(r, members, told);
    RotationAt(r, members, if told + 1 < |members| then told + 1 else told);
    PrevIsMember(s.links, r, t.to);
    var p := Passed(version, s.links, t);
    assert p.msg == Announcing(members, told + 1);
    assert p.to in r;
    assert p.lists == |r|;
    assert t.to == members[told];
    assert forall j | 0 <= j < told + 1 :: members[j] in u.cached;
  }

  /** The token that goes on is in order. */
  lemma PassKeepsToken(version: Version, s: State, u: State, r: seq<Addr>, t: Token)
    requires IsRing(s.links, r) && TokenOk(s, r, t) && Recorded(s, u, t) && !Finished(t)
    ensures t.to in s.links && TokenOk(u, r, Passed(version, s.links, t))
  {
    hide IsRing, Recorded, TokenOk, Passed;
    match t.msg
    case Election(_) => PassElection(version, s, u, r, t);
    case Coordinate(_, _) => PassCoordinate(version, s, u, r, t);
    case Listing(_) => PassListing(version, s, u, r, t);
    case Announcing(_, _) => PassAnnouncing(version, s, u, r, t);
  }

  /** A token that is not delivered stays in order. */
  lemma OtherTokensStay(s: State, u: State, r: seq<Addr>, t: Token)
    requires TokenOk(s, r, t) && s.told <= u.told && s.cached <= u.cached
    ensures TokenOk(u, r, t)
  {
  }

  lemma FlagGetsRight(version: Version, s: State, r: seq<Addr>, t: Token, was: bool)
    requires IsRing(s.links, r) && TokenOk(s, r, t)
    requires t.to in s.told ==> (was <==> IsLeast(r, t.to))
    requires t.to in s.told || t.msg.Coordinate?
    ensures Flag(version, t, was) <==> IsLeast(r, t.to)
  {
    match t.msg
    case Coordinate(members, _) => RotationLeast(r, members, t.to);
    case Listing(list) =>
      if !IsLeast(list, t.to) {
        var j :| 0 <= j < |list| && list[j] < t.to;
        ArcMembers(r, IndexOf(r, list[0]), |list|);
        assert list[j] in list && list[j] in r;
      }
    case _ =>
  }

  // ----- Every step keeps the invariant -----

  ghost predicate TokensAtHome(s: State, r: seq<Addr>) {
    forall t | t in s.tokens :: t.to in r
  }

  lemma TokensAreHome(s: State, r: seq<Addr>)
    requires StateOk(s, r)
    ensures TokensAtHome(s, r)
  {
  }

  lemma DeliverKeepsTokens(version: Version, s: State, r: seq<Addr>, i: nat)
    requires StateOk(s, r) && Enabled(s, r, Deliver(i)) && TokensAtHome(s, r)
    ensures var u := Apply(version, s, r, Deliver(i));
      forall j | 0 <= j < |u.tokens| :: TokenOk(u, r, u.tokens[j])
  {
    hide TokenOk, Passed, Flag, IsRing, FlagOk, CacheOk, Finished;
    var t, u := s.tokens[i], Apply(version, s, r, Deliver(i));
    assert TokenOk(s, r, t);
    PassKeepsToken(version, s, u, r, t);
    forall j | 0 <= j < |u.tokens| ensures TokenOk(u, r, u.tokens[j]) {
      if j != i {
        OtherTokensStay(s, u, r, s.tokens[j]);
      }
    }
  }

  lemma DeliverKeepsFlags(version: Version, s: State, r: seq<Addr>, i: nat)
    requires StateOk(s, r) && Enabled(s, r, Deliver(i)) && TokensAtHome(s, r)
    ensures var u := Apply(version, s, r, Deliver(i));
      forall x | x in r :: FlagOk(u, r, x) && CacheOk(u, r, x)
  {
    hide TokenOk, Passed, Flag, IsRing, IsLeast, Rotation;
    var t, u := s.tokens[i], Apply(version, s, r, Deliver(i));
    assert TokenOk(s, r, t);
    assert FlagOk(s, r, t.to);
    if t.to in u.told {
      FlagGetsRight(version, s, r, t, s.coordinator[t.to]);
    }
    forall x | x in r ensures FlagOk(u, r, x) && CacheOk(u, r, x) {
      assert FlagOk(s, r, x) && CacheOk(s, r, x);
      if x == t.to && t.msg.Announcing? {
        AnnouncesRotation(s, r, t);
      }
    }
  }

  lemma DeliverKeepsDeciding(version: Version, s: State, r: seq<Addr>, i: nat)
    requires StateOk(s, r) && Enabled(s, r, Deliver(i)) && TokensAtHome(s, r)
    ensures DecidingOk(Apply(version, s, r, Deliver(i)), r)
  {
    hide Passed, Flag, FlagOk, CacheOk, Rotation;
    var t := s.tokens[i];
    assert TokenOk(s, r, t);
    if Closes(t) {
      TrailGoesOn(s.links, r, t.msg.list, t.to);
    }
    hide IsRing, TokenOk;
  }

  lemma DecideKeepsOk(version: Version, s: State, r: seq<Addr>, step: Step)
    requires StateOk(s, r) && Enabled(s, r, step) && TokensAtHome(s, r) && step.Decide?
    ensures StateOk(Apply(version, s, r, step), r)
  {
    hide IsRing, Rotation, IsLeast, TokenOk;
    var u := Apply(version, s, r, step);
    assert (step.x, step.list).0 in r && Rotation(r, (step.x, step.list).1);
    RotationLeast(r, step.list, step.x);
    forall j | 0 <= j < |u.tokens| ensures TokenOk(u, r, u.tokens[j]) {
      OtherTokensStay(s, u, r, s.tokens[j]);
    }
    forall x | x in r ensures FlagOk(u, r, x) && CacheOk(u, r, x) {
      assert FlagOk(s, r, x) && CacheOk(s, r, x);
    }
  }

  lemma DeliverKeepsOk(version: Version, s: State, r: seq<Addr>, i: nat)
    requires StateOk(s, r) && Enabled(s, r, Deliver(i)) && TokensAtHome(s, r)
    ensures StateOk(Apply(version, s, r, Deliver(i)), r)
  {
    DeliverKeepsTokens(version, s, r, i);
    DeliverKeepsFlags(version, s, r, i);
    DeliverKeepsDeciding(version, s, r, i);
    hide TokenOk, FlagOk, CacheOk, IsRing, Passed, Flag, Finished;
  }

  lemma AnnouncesRotation(s: State, r: seq<Addr>, t: Token)
    requires TokenOk(s, r, t) && t.msg.Announcing?
    ensures Rotation(r, t.msg.members)
  {
  }

  lemma StartKeepsOk(version: Version, s: State, r: seq<Addr>, step: Step)
    requires StateOk(s, r) && Enabled(s, r, step) && TokensAtHome(s, r) && !step.Deliver? && !step.Decide?
    ensures StateOk(Apply(version, s, r, step), r)
  {
    var u := Apply(version, s, r, step);
    StartsTrail(s.links, r, step.x);
    PrevIsMember(s.links, r, step.x);
    hide IsRing, Trail, IsLeast, Rotation;
    forall j | 0 <= j < |u.tokens| ensures TokenOk(u, r, u.tokens[j]) {
      if j < |s.tokens| {
        OtherTokensStay(s, u, r, s.tokens[j]);
      }
    }
    forall x | x in r ensures FlagOk(u, r, x) && CacheOk(u, r, x) {
      assert FlagOk(s, r, x) && CacheOk(s, r, x);
    }
  }

  lemma StepKeepsOk(version: Version, s: State, r: seq<Addr>, step: Step)
    requires StateOk(s, r) && Enabled(s, r, step)
    ensures TokensAtHome(s, r) && StateOk(Apply(version, s, r, step), r)
  {
    TokensAreHome(s, r);
    if step.Deliver? {
      DeliverKeepsOk(version, s, r, step.i);
    } else if step.Decide? {
      DecideKeepsOk(version, s, r, step);
    } else {
      StartKeepsOk(version, s, r, step);
    }
  }

  /** A server that closed an election decides on its list once. */
  lemma DecidesOnce(version: Version, s: State, r: seq<Addr>, step: Step)
    requires StateOk(s, r) && Enabled(s, r, step) && step.Decide?
    ensures TokensAtHome(s, r) && !Enabled(Apply(version, s, r, step), r, step)
  {
    TokensAreHome(s, r);
    hide StateOk, IsLeast;
  }

  // ----- Runs -----

  ghost predicate Legal(version: Version, s: State, r: seq<Addr>, steps: seq<Step>)
    requires StateOk(s, r)
    decreases |steps|
  {
    steps == [] ||
    (Enabled(s, r, steps[0]) &&
     (StepKeepsOk(version, s, r, steps[0]); Legal(version, Apply(version, s, r, steps[0]), r, steps[1..])))
  }

  ghost function Run(version: Version, s: State, r: seq<Addr>, steps: seq<Step>): (end: State)
    requires StateOk(s, r) && Legal(version, s, r, steps)
    ensures StateOk(end, r)
    decreases |steps|
  {
    if steps == [] then s
    else
      StepKeepsOk(version, s, r, steps[0]);
      Run(version, Apply(version, s, r, steps[0]), r, steps[1..])
  }

  /** Nothing on the way, any flags, caches and pointers. */
  ghost predicate Calm(s: State, r: seq<Addr>) {
    Known(s, r) && s.tokens == [] && s.deciding == {} && s.told == {} && s.cached == {}
  }

  /** A ring at rest. */
  ghost predicate AtRest(s: State, r: seq<Addr>) {
    IsRing(s.links, r) && Calm(s, r)
  }

  lemma RestIsOk(s: State, r: seq<Addr>)
    requires AtRest(s, r)
    ensures StateOk(s, r)
  {
  }

  /** `end` is reached from rest by elections and list rounds started anywhere and interleaved
      anyhow, without loss. */
  ghost predicate Reached(version: Version, s: State, r: seq<Addr>, steps: seq<Step>, end: State) {
    AtRest(s, r) && (RestIsOk(s, r); Legal(version, s, r, steps) && Run(version, s, r, steps) == end)
  }

  lemma ReachedTokenIsOk(version: Version, s: State, r: seq<Addr>, steps: seq<Step>, end: State, t: Token)
    requires Reached(version, s, r, steps, end) && t in end.tokens
    ensures TokenOk(end, r, t) && forall x | x in r :: FlagOk(end, r, x) && CacheOk(end, r, x)
  {
    hide TokenOk, FlagOk, CacheOk, IsRing;
    var i :| 0 <= i < |end.tokens| && end.tokens[i] == t;
    assert TokenOk(end, r, end.tokens[i]);
  }

  lemma RotationIsDistinct(r: seq<Addr>, s: seq<Addr>)
    requires Distinct(r) && Rotation(r, s)
    ensures Distinct(s)
  {
  }

  /** Every coordinate message carries exactly the ring's members, each once. */
  lemma CoordinateCarriesRing(version: Version, s: State, r: seq<Addr>, steps: seq<Step>, end: State, t: Token)
    requires Reached(version, s, r, steps, end) && t in end.tokens && t.msg.Coordinate?
    ensures Distinct(t.msg.members) && |t.msg.members| == |r| && Rotation(r, t.msg.members)
    ensures forall x :: x in t.msg.members <==> x in r
  {
    ReachedTokenIsOk(version, s, r, steps, end, t);
    RotationIsDistinct(r, t.msg.members);
    RotationMembers(r, t.msg.members);
    hide Reached, Distinct, Rotation, IsLeast;
  }

  /** Once one coordinate round has gone around, exactly the least server is coordinator. */
  lemma Agreement(version: Version, s: State, r: seq<Addr>, steps: seq<Step>, end: State, t: Token)
    requires Reached(version, s, r, steps, end) && t in end.tokens && t.msg.Elected?
    ensures forall x | x in r :: x in end.coordinator && (end.coordinator[x] <==> forall y | y in r :: x <= y)
  {
    ReachedTokenIsOk(version, s, r, steps, end, t);
    assert forall x | x in r :: x in end.told;
    hide Reached, Rotation, CacheOk, TokenOk, IsLeast;
    forall x | x in r
      ensures x in end.coordinator && (end.coordinator[x] <==> forall y | y in r :: x <= y)
    {
      assert FlagOk(end, r, x);
      LeastMeans(r, x);
    }
  }

  /** The work of a walk: at most one delivery of each kind per member, and exactly one when it is
      finished; with every version of the program. */
  lemma WalkCosts(version: Version, s: State, r: seq<Addr>, steps: seq<Step>, end: State, t: Token)
    requires Reached(version, s, r, steps, end) && t in end.tokens
    ensures !t.msg.Listing? && !t.msg.Announcing? && !t.msg.Listed? ==> t.elections <= |r| && t.coordinates <= |r|
    ensures t.msg.Elected? ==> t.elections == |r| && t.coordinates == |r|
    ensures t.msg.Announcing? || t.msg.Listed? ==> t.lists == |r|
  {
    ReachedTokenIsOk(version, s, r, steps, end, t);
    hide Reached, Rotation, CacheOk, FlagOk;
  }

  /** A finished list round of the Rust program has listed the whole ring, each member once and in
      prev order, and every member has such a list in its cache. */
  lemma ListRoundIsComplete(s: State, r: seq<Addr>, steps: seq<Step>, end: State, t: Token)
    requires Reached(Rust, s, r, steps, end) && t in end.tokens && t.msg.Announcing? && Finished(t)
    ensures Rotation(r, t.msg.members) && Distinct(t.msg.members)
    ensures forall x | x in r :: x in end.cache && Rotation(r, end.cache[x])
  {
    ReachedTokenIsOk(Rust, s, r, steps, end, t);
    RotationIsDistinct(r, t.msg.members);
    RotationMembers(r, t.msg.members);
    hide Reached, Distinct, Rotation, IsLeast;
    forall x | x in r ensures x in end.cache && Rotation(r, end.cache[x]) {
      assert x in t.msg.members;
      assert CacheOk(end, r, x);
    }
  }

  // ----- Progress -----

  /** Deliveries a walk still needs on a ring of `n`. */
  function Remaining(version: Version, n: nat, t: Token): int {
    match t.msg
    case Election(list) => 2 * n - |list| + 1
    case Coordinate(_, read) => n - |read| + 1
    case Elected(_) => 0
    case Listing(list) => (if version.Rust? then 2 * n else n) - |list| + 1
    case Announcing(members, told) => |members| - told
    case Listed(_) => 0
  }

  /** Each delivery is one step towards the end of its walk, whatever else is on the way. */
  lemma DeliveriesRunOut(version: Version, s: State, r: seq<Addr>, t: Token)
    requires IsRing(s.links, r) && TokenOk(s, r, t)
    ensures t.to in s.links && Remaining(version, |r|, t) >= 0
    ensures Finished(t) <==> Remaining(version, |r|, t) == 0
    ensures !Finished(t) ==>
      Remaining(version, |r|, Passed(version, s.links, t)) == Remaining(version, |r|, t) - 1
  {
    hide IsRing, Trail, Rotation;
    PrevIsMember(s.links, r, t.to);
    match t.msg
    case Election(list) => TrailLength(s.links, r, list, t.to);
    case Coordinate(members, read) => TrailLength(s.links, r, read, t.to);
    case Listing(list) => TrailLength(s.links, r, list, t.to);
    case Announcing(members, told) => RotationMembers(r, members);
    case _ =>
  }

  lemma TrailLength(links: Links, r: seq<Addr>, list: seq<Addr>, to: Addr)
    requires IsRing(links, r) && Trail(r, list, to)
    ensures 1 <= |list| <= |r| && (to in list <==> |list| == |r|)
  {
    TrailGoesOn(links, r, list, to);
  }
}
