/** An election on pointers that may point anywhere and change at any time. */
module RingWander {
  import opened Common
  import opened RingOrder
  import opened RingLinks
  import opened RingTokens

  /** All that can be reached: every pointer leads to one of the servers `u`. */
  ghost predicate Within(links: Links, u: set<Addr>) {
    forall x | x in u :: x in links && links[x].prev in u
  }

  ghost predicate NoRepeats(s: seq<Addr>, u: set<Addr>) {
    Distinct(s) && forall x | x in s :: x in u
  }

  ghost predicate Sound(t: Token, u: set<Addr>) {
    && t.to in u
    && match t.msg
       case Election(list) => NoRepeats(list, u) && t.elections == |list| - 1 && t.coordinates == 0
       case Coordinate(members, read) =>
         NoRepeats(members, u) && NoRepeats(read, u) && t.elections <= |u| && t.coordinates == |read| - 1
       case Elected(members) => NoRepeats(members, u) && t.elections <= |u| && t.coordinates <= |u|
       case _ => false
  }

  lemma {:induction false} NoRepeatsIsShort(s: seq<Addr>, u: set<Addr>)
    requires NoRepeats(s, u)
    ensures |s| <= |u|
    decreases |s|
  {
    if s != [] {
      var last := s[|s| - 1];
      var rest := s[..|s| - 1];
      assert NoRepeats(rest, u - {last});
      NoRepeatsIsShort(rest, u - {last});
      assert |u - {last}| == |u| - 1;
    }
  }

  lemma Extends(s: seq<Addr>, x: Addr, u: set<Addr>)
    requires NoRepeats(s, u) && x in u && x !in s
    ensures NoRepeats(s + [x], u) && |s| < |u|
  {
    NoRepeatsIsShort(s + [x], u);
  }

  lemma HopIsSound(version: Version, links: Links, t: Token, u: set<Addr>)
    requires Sound(t, u) && Within(links, u) && !Finished(t)
    ensures t.to in links && Sound(Passed(version, links, t), u)
  {
    match t.msg
    case Election(list) =>
      NoRepeatsIsShort(list, u);
      if t.to !in list { Extends(list, t.to, u); }
    case Coordinate(members, read) =>
      NoRepeatsIsShort(read, u);
      if t.to !in read { Extends(read, t.to, u); }
  }

  ghost function Hop(version: Version, t: Token, u: set<Addr>, links: Links): (hopped: Token)
    requires Sound(t, u) && Within(links, u) && !Finished(t)
    ensures Sound(hopped, u)
  {
    HopIsSound(version, links, t, u);
    Passed(version, links, t)
  }

  ghost predicate AllWithin(hops: seq<Links>, u: set<Addr>) {
    hops == [] || (Within(hops[0], u) && AllWithin(hops[1..], u))
  }

  /** The walk of one election when at its k-th delivery the pointers are `hops[k]`; a message that is
      lost, or meets a dead server, ends it early. */
  ghost function Walk(version: Version, t: Token, u: set<Addr>, hops: seq<Links>): Token
    requires Sound(t, u) && AllWithin(hops, u)
    decreases |hops|
  {
    if hops == [] || Finished(t) then t
    else Walk(version, Hop(version, t, u, hops[0]), u, hops[1..])
  }

  ghost function Left(t: Token, n: nat): int {
    match t.msg
    case Election(list) => 2 * n - |list| + 1
    case Coordinate(_, read) => n - |read| + 1
    case _ => 0
  }

  lemma HopCosts(version: Version, links: Links, t: Token, u: set<Addr>)
    requires Sound(t, u) && Within(links, u) && !Finished(t)
    ensures t.to in links
    ensures 0 <= Left(Hop(version, t, u, links), |u|) < Left(t, |u|)
  {
    match t.msg
    case Election(list) =>
      NoRepeatsIsShort(list, u);
      if t.to !in list { Extends(list, t.to, u); }
    case Coordinate(members, read) =>
      NoRepeatsIsShort(read, u);
      if t.to !in read { Extends(read, t.to, u); }
  }

  lemma {:induction false} WalkStaysSound(version: Version, t: Token, u: set<Addr>, hops: seq<Links>)
    requires Sound(t, u) && AllWithin(hops, u)
    ensures Sound(Walk(version, t, u, hops), u)
    ensures |hops| >= Left(t, |u|) ==> Finished(Walk(version, t, u, hops))
    decreases |hops|
  {
    if hops != [] && !Finished(t) {
      HopCosts(version, hops[0], t, u);
      WalkStaysSound(version, Hop(version, t, u, hops[0]), u, hops[1..]);
    } else if !Finished(t) {
      if t.msg.Election? { NoRepeatsIsShort(t.msg.list, u); } else { NoRepeatsIsShort(t.msg.read, u); }
    }
  }

  /** Relay termination on arbitrary pointers: over N servers an election causes at most N election
      and N coordinate deliveries, its lists never repeat a server, and after 2N deliveries it has
      come to its end. */
  lemma ElectionEnds(version: Version, x: Addr, to: Addr, u: set<Addr>, hops: seq<Links>)
    requires x in u && to in u && AllWithin(hops, u)
    ensures var start := Token(to, Election([x]), 0, 0, 0);
      && Sound(start, u)
      && var t := Walk(version, start, u, hops);
         && t.elections <= |u| && t.coordinates <= |u|
         && (t.msg.Election? ==> Distinct(t.msg.list))
         && (t.msg.Coordinate? ==> Distinct(t.msg.members) && Distinct(t.msg.read))
         && (|hops| >= 2 * |u| ==> t.msg.Elected?)
  {
    var start := Token(to, Election([x]), 0, 0, 0);
    WalkStaysSound(version, start, u, hops);
    var t := Walk(version, start, u, hops);
    if t.msg.Election? { NoRepeatsIsShort(t.msg.list, u); }
    if t.msg.Coordinate? { NoRepeatsIsShort(t.msg.read, u); }
  }
}
