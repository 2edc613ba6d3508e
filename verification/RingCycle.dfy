/** Rounds and repair together: a completed list round prepares every server for any crash, and after
    the repair the next completed round lists exactly the survivors. */
module RingCycle {
  import opened Common
  import opened RingOrder
  import opened RingLinks
  import opened RingTokens
  import Repair = RingRepair

  lemma {:induction false} RunKeepsLinks(version: Version, s: State, r: seq<Addr>, steps: seq<Step>)
    requires StateOk(s, r) && Legal(version, s, r, steps)
    ensures Run(version, s, r, steps).links == s.links
    decreases |steps|
  {
    if steps != [] {
      StepKeepsOk(version, s, r, steps[0]);
      RunKeepsLinks(version, Apply(version, s, r, steps[0]), r, steps[1..]);
    }
  }

  /** Every set of servers may crash after a completed round: the caches meet what repair needs. */
  lemma RoundPreparesRepair(s: State, r: seq<Addr>, steps: seq<Step>, end: State, t: Token, live: set<Addr>)
    requires Reached(Rust, s, r, steps, end) && t in end.tokens && t.msg.Announcing? && Finished(t)
    requires exists x :: x in r && x in live
    ensures Repair.Crashed(end.links, r, Repair.Setting(end.cache, live))
  {
    ListRoundIsComplete(s, r, steps, end, t);
    RunKeepsLinks(Rust, s, r, steps);
  }

  /** A repair that every survivor with a dead prev has finished leaves the survivors as a ring at rest,
      whatever the caches, flags and other pointers are. */
  lemma RepairedIsAtRest(
      links: Links, r: seq<Addr>, w: Repair.Setting, repairs: seq<Repair.Step>, mended: Repair.State, s: State)
    requires Repair.Repaired(links, r, w, repairs, mended) && Repair.AllMended(links, r, w.live, mended)
    requires s.links == mended.links && Calm(s, Filter(r, w.live))
    ensures AtRest(s, Filter(r, w.live)) && StateOk(s, Filter(r, w.live))
  {
    Repair.RepairRestoresRingIff(links, r, w, repairs, mended);
    RestIsOk(s, Filter(r, w.live));
  }

  /** A run of the survivors after the repair; that they form a ring is not assumed. */
  ghost predicate RunAfterRepair(
      links: Links, r: seq<Addr>, w: Repair.Setting, repairs: seq<Repair.Step>, mended: Repair.State,
      s: State, steps: seq<Step>, end: State)
  {
    && Repair.Repaired(links, r, w, repairs, mended) && Repair.AllMended(links, r, w.live, mended)
    && s.links == mended.links && Calm(s, Filter(r, w.live))
    && (RepairedIsAtRest(links, r, w, repairs, mended, s);
        Legal(Rust, s, Filter(r, w.live), steps) && Run(Rust, s, Filter(r, w.live), steps) == end)
  }

  /** After the repair, a completed round lists exactly the survivors, in the order they had, and
      leaves that list in every survivor's cache. */
  lemma NextRoundListsSurvivors(
      links: Links, r: seq<Addr>, w: Repair.Setting, repairs: seq<Repair.Step>, mended: Repair.State,
      s: State, steps: seq<Step>, end: State, t: Token)
    requires RunAfterRepair(links, r, w, repairs, mended, s, steps, end)
    requires t in end.tokens && t.msg.Announcing? && Finished(t)
    ensures IsRing(s.links, Filter(r, w.live))
    ensures Rotation(Filter(r, w.live), t.msg.members) && Distinct(t.msg.members)
    ensures forall x :: x in t.msg.members <==> x in r && x in w.live
    ensures forall x | x in r && x in w.live :: x in end.cache && Rotation(Filter(r, w.live), end.cache[x])
  {
    RepairedIsAtRest(links, r, w, repairs, mended, s);
    ListRoundIsComplete(s, Filter(r, w.live), steps, end, t);
    RotationMembers(Filter(r, w.live), t.msg.members);
    FilterMembers(r, w.live);
    hide Reached, Repair.Repaired, IsRing, Filter, Rotation, Distinct;
  }
}
