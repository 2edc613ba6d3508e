/** One leader and one follower exchanging appends without loss while the leader's log stands still. */
module RaftBackoff {
  import opened Common
  import opened Raft

  /** Equal index and term imply an equal prefix. */
  ghost predicate LogMatching(log: seq<Entry>, other: seq<Entry>) {
    forall i | 0 <= i < |log| && i < |other| && log[i].term == other[i].term ::
      log[..i + 1] == other[..i + 1]
  }

  /** Send, handle, reply. */
  function Exchange(leader: NodeState, follower: NodeState, to: Addr): (NodeState, NodeState)
    requires leader.role.Leader? && to in leader.role.nextIndex && |leader.memory.log| > 0
  {
    var (follower', success) := HandleAppend(follower, AppendRequestFor(leader, to));
    (HandleAppendReply(leader, to, success), follower')
  }

  ghost predicate Ready(leader: NodeState, follower: NodeState, to: Addr) {
    && leader.role.Leader? && to in leader.role.nextIndex
    && |leader.memory.log| > 0 && |follower.memory.log| > 0
    && leader.role.nextIndex[to] <= |leader.memory.log|
    && leader.memory.log[0].term == follower.memory.log[0].term
    && LogMatching(follower.memory.log, leader.memory.log)
    && follower.role.Follower?
    && follower.memory.currentTerm <= leader.memory.currentTerm
  }

  /** The follower holds the leader's log, perhaps with a tail, and the leader knows. */
  ghost predicate Covered(leader: NodeState, follower: NodeState, to: Addr) {
    && leader.role.Leader? && to in leader.role.nextIndex
    && |leader.memory.log| > 0
    && leader.role.nextIndex[to] == |leader.memory.log|
    && leader.memory.log <= follower.memory.log
    && follower.role.Follower?
    && follower.memory.currentTerm <= leader.memory.currentTerm
  }

  ghost predicate Settled(leader: NodeState, follower: NodeState, to: Addr) {
    Covered(leader, follower, to) && follower.memory.log == leader.memory.log
  }

  /** Exchanges still needed, at most. */
  ghost function Work(leader: NodeState, follower: NodeState, to: Addr): nat
    requires leader.role.Leader? && to in leader.role.nextIndex
  {
    if Settled(leader, follower, to) then 0
    else if Covered(leader, follower, to) then 1
    else Max(leader.role.nextIndex[to], 1) + 1
  }

  ghost predicate InProgress(leader: NodeState, follower: NodeState, to: Addr) {
    Ready(leader, follower, to) || Covered(leader, follower, to)
  }

  lemma AcceptedExchangeCovers(leader: NodeState, follower: NodeState, to: Addr)
    requires Ready(leader, follower, to)
    requires AcceptsAppend(follower, AppendRequestFor(leader, to))
    ensures var (l, f) := Exchange(leader, follower, to); Covered(l, f, to)
    ensures Exchange(leader, follower, to).0.memory == leader.memory
  {
  }

  lemma CoveredExchangeSettles(leader: NodeState, follower: NodeState, to: Addr)
    requires Covered(leader, follower, to)
    ensures var (l, f) := Exchange(leader, follower, to); Settled(l, f, to)
    ensures Exchange(leader, follower, to).0.memory == leader.memory
  {
  }

  /** Every exchange keeps the leader's log, and shortens the work that is left. */
  lemma ExchangeMakesProgress(leader: NodeState, follower: NodeState, to: Addr)
    requires InProgress(leader, follower, to)
    ensures var (l, f) := Exchange(leader, follower, to);
      && InProgress(l, f, to)
      && l.memory == leader.memory
      && (Work(leader, follower, to) > 0 ==> Work(l, f, to) < Work(leader, follower, to))
      && (Work(leader, follower, to) == 0 ==> Work(l, f, to) == 0)
  {
    if Covered(leader, follower, to) {
      CoveredExchangeSettles(leader, follower, to);
    } else if AcceptsAppend(follower, AppendRequestFor(leader, to)) {
      AcceptedExchangeCovers(leader, follower, to);
    } else {
      assert leader.role.nextIndex[to] >= 2;
    }
  }

  ghost function Exchanges(leader: NodeState, follower: NodeState, to: Addr, rounds: nat): (NodeState, NodeState)
    requires InProgress(leader, follower, to)
    decreases rounds
  {
    if rounds == 0 then (leader, follower)
    else
      ExchangeMakesProgress(leader, follower, to);
      var (l, f) := Exchange(leader, follower, to);
      Exchanges(l, f, to, rounds - 1)
  }

  lemma {:induction false} WorkRunsOut(leader: NodeState, follower: NodeState, to: Addr, rounds: nat)
    requires InProgress(leader, follower, to)
    requires rounds >= Work(leader, follower, to)
    ensures var (l, f) := Exchanges(leader, follower, to, rounds);
      Settled(l, f, to) && l.memory == leader.memory
    decreases rounds
  {
    if rounds > 0 {
      ExchangeMakesProgress(leader, follower, to);
      var (l, f) := Exchange(leader, follower, to);
      WorkRunsOut(l, f, to, rounds - 1);
    }
  }

  /** Back-off convergence: after max(next_index, 1) + 1 exchanges, or any larger number, the
      follower's log is exactly the leader's. */
  lemma BackoffConverges(leader: NodeState, follower: NodeState, to: Addr, rounds: nat)
    requires Ready(leader, follower, to)
    requires rounds >= Max(leader.role.nextIndex[to], 1) + 1
    ensures Exchanges(leader, follower, to, rounds).1.memory.log == leader.memory.log
  {
    WorkRunsOut(leader, follower, to, rounds);
  }
}
