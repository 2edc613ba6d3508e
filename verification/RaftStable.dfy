/** A run of one leader's term: rounds do not overlap, requests and replies may be lost or late, each
    follower receives in the order of sending. Followers may vote, campaign without success, and
    restart meanwhile. */
module RaftStable {
  import opened Common
  import opened Raft
  import opened RaftBackoff

  datatype Tagged = Tagged(round: nat, req: AppendRequest)

  /** Everything that concerns one follower: the leader's data, the follower, the requests on the way
      to it, how the running round stands with it, and the length of the leader's log in the last
      message it accepted. */
  datatype View = View(
    log: seq<Entry>,
    term: nat,
    leaderCommit: nat,
    next: nat,
    node: NodeState,
    queue: seq<Tagged>,
    round: nat,
    open: bool,
    asked: bool,
    reply: Option<bool>,
    heard: bool,
    acked: bool,
    taken: Option<nat>)

  /** The request is a piece of the leader's log that ends where the log ended. */
  ghost predicate Snapshot(v: View, req: AppendRequest) {
    && End(req) <= |v.log|
    && req.term == v.term
    && req.prevTerm == v.log[req.prevIndex].term
    && req.entries == v.log[req.prevIndex + 1..End(req)]
    && req.leaderCommit < End(req)
  }

  ghost predicate QueueOk(v: View) {
    && (forall i | 0 <= i < |v.queue| ::
          && Snapshot(v, v.queue[i].req)
          && PrevIndex(v.next) < End(v.queue[i].req)
          && v.node.commitIndex < End(v.queue[i].req)
          && v.queue[i].round <= v.round
          && (v.open && v.queue[i].round == v.round ==> End(v.queue[i].req) == |v.log|))
    && (forall i, j | 0 <= i < j < |v.queue| ::
          && v.queue[i].round < v.queue[j].round
          && v.queue[j].req.prevIndex < End(v.queue[i].req) <= End(v.queue[j].req))
  }

  /** Where the running round stands with this follower. */
  ghost predicate RoundOk(v: View) {
    && (v.open && !v.asked ==> forall i | 0 <= i < |v.queue| :: v.queue[i].round < v.round)
    && (v.open && (v.reply.Some? || v.heard) ==> v.asked && v.queue == [])
    && (v.open && (v.reply == Some(true) || v.acked) ==> v.taken == Some(|v.log|))
    && (v.acked ==> v.heard)
  }

  /** Before its first acceptance a follower has nothing of the leader's term, and agrees with the
      leader below any entry of equal index and term. */
  ghost predicate Untouched(v: View) {
    && |v.node.memory.log| > 0
    && LogMatching(v.node.memory.log, v.log)
    && (forall i | 0 <= i < |v.node.memory.log| :: v.node.memory.log[i].term != v.term)
    && v.node.commitIndex < |v.log|
  }

  /** From then on it holds the leader's log as of the last accepted message. */
  ghost predicate Holds(v: View) {
    v.taken.Some? ==>
      && v.taken.value <= |v.log|
      && v.log[..v.taken.value] <= v.node.memory.log
      && v.node.commitIndex < v.taken.value
      && PrevIndex(v.next) < v.taken.value
      && forall i | 0 <= i < |v.queue| ::
           v.queue[i].req.prevIndex < v.taken.value <= End(v.queue[i].req)
  }

  ghost predicate ViewOk(v: View) {
    && 0 < |v.log| && v.leaderCommit < |v.log| && v.next <= |v.log|
    && v.node.disk.log == v.node.memory.log
    && QueueOk(v) && RoundOk(v) && Holds(v)
    && (v.taken.None? ==> Untouched(v))
  }

  // ----- What each step does to one follower's view -----

  function Begun(v: View, texts: seq<string>): View {
    v.(log := v.log + Stamp(texts, v.term), round := v.round + 1, open := true,
       asked := false, reply := None, heard := false, acked := false)
  }

  function RequestIn(v: View): AppendRequest
    requires 0 < |v.log| && v.next <= |v.log|
  {
    var prev := PrevIndex(v.next);
    AppendRequest(v.term, prev, v.log[prev].term, v.log[prev + 1..], v.leaderCommit)
  }

  function Sent(v: View): View
    requires 0 < |v.log| && v.next <= |v.log|
  {
    v.(queue := v.queue + [Tagged(v.round, RequestIn(v))], asked := true)
  }

  function Lost(v: View, i: nat): View
    requires i < |v.queue|
  {
    v.(queue := v.queue[..i] + v.queue[i + 1..])
  }

  /** A reply reaches the leader only within the round that asked for it. */
  function Delivered(v: View): View
    requires |v.queue| > 0
  {
    var m := v.queue[0];
    var (node, success) := HandleAppend(v.node, m.req);
    v.(node := node,
       queue := v.queue[1..],
       reply := if v.open && m.round == v.round then Some(success) else v.reply,
       taken := if success then Some(End(m.req)) else v.taken)
  }

  function NextAfter(v: View, success: bool): nat {
    if success then |v.log| else PrevIndex(v.next)
  }

  function Heard(v: View): View
    requires v.reply.Some?
  {
    v.(next := NextAfter(v, v.reply.value), reply := None, heard := true, acked := v.acked || v.reply.value)
  }

  function Ended(v: View, commit: nat): View {
    v.(open := false, leaderCommit := commit)
  }

  lemma BeginKeepsView(v: View, texts: seq<string>)
    requires ViewOk(v) && !v.open
    ensures ViewOk(Begun(v, texts))
  {
    var w := Begun(v, texts);
    assert forall i | 0 <= i < |v.queue| :: Snapshot(v, v.queue[i].req) && Snapshot(w, v.queue[i].req);
    if v.taken.Some? {
      assert w.log[..v.taken.value] == v.log[..v.taken.value];
    } else {
      var l := v.node.memory.log;
      forall i | 0 <= i < |l| && i < |w.log| && l[i].term == w.log[i].term
        ensures l[..i + 1] == w.log[..i + 1]
      {
        assert i < |v.log|;
        assert w.log[..i + 1] == v.log[..i + 1];
      }
    }
  }

  lemma SendKeepsView(v: View)
    requires ViewOk(v) && v.open && !v.asked
    ensures ViewOk(Sent(v))
  {
    var req := RequestIn(v);
    assert End(req) == |v.log|;
    assert v.log[req.prevIndex + 1..] == v.log[req.prevIndex + 1..End(req)];
    assert Snapshot(v, req);
  }

  lemma LoseKeepsView(v: View, i: nat)
    requires ViewOk(v) && i < |v.queue|
    ensures ViewOk(Lost(v, i))
  {
    var w := Lost(v, i);
    assert forall k | 0 <= k < |w.queue| :: w.queue[k] == v.queue[if k < i then k else k + 1];
    hide Snapshot, Untouched;
  }

  /** The first message a follower accepts brings its log into step with the leader's. */
  lemma AcceptHolds(v: View)
    requires ViewOk(v) && |v.queue| > 0 && AcceptsAppend(v.node, v.queue[0].req)
    ensures var req := v.queue[0].req;
      v.log[..End(req)] <= Splice(v.node.memory.log, req.prevIndex, req.entries)
  {
  }

  lemma CurrentIsLast(v: View)
    requires ViewOk(v) && |v.queue| > 0 && v.queue[0].round == v.round
    ensures v.queue[1..] == []
  {
    var first, last := v.queue[0], v.queue[|v.queue| - 1];
    assert |v.queue| > 1 ==> first.round < last.round <= v.round;
  }

  lemma DeliverKeepsQueue(v: View)
    requires ViewOk(v) && |v.queue| > 0
    ensures QueueOk(Delivered(v))
  {
  }

  lemma DeliverKeepsView(v: View)
    requires ViewOk(v) && |v.queue| > 0
    ensures ViewOk(Delivered(v))
  {
    var m := v.queue[0];
    DeliverKeepsQueue(v);
    if m.round == v.round {
      CurrentIsLast(v);
    }
    assert Snapshot(v, m.req);
    if AcceptsAppend(v.node, m.req) {
      AcceptHolds(v);
    }
    hide QueueOk;
  }

  /** What was taken, and what is committed, never shrinks by a delivery. */
  lemma DeliverAdvances(v: View)
    requires ViewOk(v) && |v.queue| > 0
    ensures v.taken.Some? ==> Delivered(v).taken.Some? && v.taken.value <= Delivered(v).taken.value
    ensures v.node.commitIndex <= Delivered(v).node.commitIndex
  {
  }

  lemma HearKeepsView(v: View)
    requires ViewOk(v) && v.open && v.reply.Some?
    ensures ViewOk(Heard(v))
  {
  }

  lemma EndKeepsView(v: View, commit: nat)
    requires ViewOk(v) && commit < |v.log|
    ensures ViewOk(Ended(v, commit))
  {
  }

  /** Votes, lost elections and restarts leave the log alone and never raise the commit index. */
  lemma NodeKeepsView(v: View, node: NodeState)
    requires ViewOk(v)
    requires node.memory.log == v.node.memory.log == node.disk.log && node.commitIndex <= v.node.commitIndex
    ensures ViewOk(v.(node := node))
  {
  }

  /** What a follower that has taken a message holds, and reports as committed. */
  lemma TakenIsHeld(v: View)
    requires ViewOk(v) && v.taken.Some?
    ensures v.taken.value <= |v.log|
    ensures v.log[..v.taken.value] <= v.node.memory.log
    ensures CommittedLog(v.node) <= v.log
    ensures |CommittedLog(v.node)| == v.node.commitIndex + 1
  {
  }
}
