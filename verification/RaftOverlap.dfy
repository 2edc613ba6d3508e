/** Rounds of one leader that overlap, which the program does not prevent: what a round commits, against
    what the servers it counts have taken. */
module RaftOverlap {
  import opened Common
  import opened Raft
  import opened RaftCluster
  import opened RaftNodes
  import opened RaftElections
  import opened RaftElectionRuns
  import opened RaftRounds

  // ----- How far the requests of a round reach -----

  ghost predicate BuiltAsked(c: Cluster) {
    forall r | r in c.rounds :: c.rounds[r].built.Keys == c.rounds[r].asked
  }

  /** A request ends where the owner's log ended when it was built. */
  ghost predicate CallsReach(c: Cluster) {
    forall m | m in c.appendCalls && m.round in c.rounds ::
      m.to in c.rounds[m.round].built && End(m.req) == c.rounds[m.round].built[m.to]
  }

  /** So does what its receiver took. */
  ghost predicate AcceptsReach(c: Cluster) {
    forall k | k in c.ledger.accepts && k.round in c.rounds && k.server != c.rounds[k.round].owner ::
      k.server in c.rounds[k.round].built && c.ledger.accepts[k].length == c.rounds[k.round].built[k.server]
  }

  ghost predicate ReachesOk(c: Cluster) {
    BuiltAsked(c) && CallsReach(c) && AcceptsReach(c)
  }

  lemma BeginKeepsReaches(c: Cluster, a: Addr, texts: seq<string>)
    requires WellFormed(c) && ReachesOk(c) && Enabled(c, BeginRound(a, texts)) && AcceptsInPast(c)
    requires forall m | m in c.appendCalls :: m.round < c.nextRound
    ensures ReachesOk(DoBeginRound(c, a, texts))
  {
    hide WellFormed, LeaderAppend;
  }

  lemma SendKeepsReaches(c: Cluster, r: nat, to: Addr)
    requires WellFormed(c) && ReachesOk(c) && Enabled(c, Send(r, to)) && AcceptsAsked(c)
    requires c.rounds[r].owner in c.nodes && NodeOk(c.nodes[c.rounds[r].owner], c.servers)
    ensures ReachesOk(DoSend(c, r, to))
  {
    hide WellFormed, NodeOk, Acknowledge, AppendRequestFor;
    var n := c.nodes[c.rounds[r].owner];
    if n.role.Leader? {
      RequestReaches(n, c.servers, to);
    }
  }

  lemma RequestReaches(n: NodeState, servers: set<Addr>, to: Addr)
    requires NodeOk(n, servers) && n.role.Leader? && to in servers
    ensures to in n.role.nextIndex && End(AppendRequestFor(n, to)) == |n.memory.log|
  {
    RequestInsideLog(n, servers, to);
    hide NodeOk, AppendRequestFor;
  }

  lemma DeliverKeepsReaches(c: Cluster, call: AppendCall)
    requires WellFormed(c) && ReachesOk(c) && Enabled(c, DeliverAppend(call))
    ensures ReachesOk(DoDeliverAppend(c, call))
  {
    hide WellFormed, HandleAppend;
  }

  lemma OthersKeepReaches(c: Cluster, step: Step)
    requires WellFormed(c) && ReachesOk(c) && Enabled(c, step)
    requires !step.BeginRound? && !step.Send? && !step.DeliverAppend?
    ensures ReachesOk(Apply(c, step))
  {
    hide WellFormed, HandleVote, HandleAppendReply, FinishRound, FinishElection, Restart, OpenElection;
  }

  lemma CallsBegun(c: Cluster)
    requires WellFormed(c) && RoundsOk(c)
    ensures AcceptsInPast(c) && AcceptsAsked(c) && forall m | m in c.appendCalls :: m.round < c.nextRound
  {
    CallsUntaken(c);
  }

  lemma StepKeepsReaches(c: Cluster, step: Step)
    requires ElectionsOk(c) && RoundsOk(c) && ReachesOk(c) && Enabled(c, step)
    ensures ReachesOk(Apply(c, step))
  {
    hide ElectionsOk, RoundsOk, ReachesOk, NodeOk, TermsWithin, AcceptsAsked, AcceptsInPast;
    ElectionsGiveNodes(c);
    CallsBegun(c);
    hide WellFormed;
    match step
    case BeginRound(a, texts) => BeginKeepsReaches(c, a, texts);
    case Send(r, to) => OwnerIsOk(c, r); SendKeepsReaches(c, r, to);
    case DeliverAppend(call) => DeliverKeepsReaches(c, call);
    case _ => OthersKeepReaches(c, step);
  }

  lemma OwnerIsOk(c: Cluster, r: nat)
    requires NodesOk(c) && r in c.rounds
    ensures c.rounds[r].owner in c.nodes && NodeOk(c.nodes[c.rounds[r].owner], c.servers)
  {
    hide NodeOk;
  }

  lemma {:induction false} ReachesAlwaysOk(c: Cluster, steps: seq<Step>)
    requires ElectionsOk(c) && RoundsOk(c) && ReachesOk(c) && Legal(c, steps)
    ensures ReachesOk(Run(c, steps))
    decreases |steps|
  {
    hide ElectionsOk, RoundsOk, ReachesOk, WellFormed, Apply, Enabled;
    if steps != [] {
      ElectionsGiveNodes(c);
      StepKeepsReaches(c, steps[0]);
      StepKeepsRoundsOk(c, steps[0]);
      StepKeepsElectionsOk(c, steps[0]);
      ReachesAlwaysOk(Apply(c, steps[0]), steps[1..]);
    }
  }

  lemma ReachableReaches(c: Cluster)
    requires Reachable(c)
    ensures ElectionsOk(c) && RoundsOk(c) && ReachesOk(c)
  {
    hide ElectionsOk, RoundsOk, WellFormed;
    ReachableRoundsOk(c);
    var servers, steps :| ReachedBy(c, servers, steps);
    InitElectionsOk(servers);
    InitRoundsOk(servers);
    ReachesAlwaysOk(Init(servers), steps);
  }

  // ----- What a round commits -----

  /** The round is about to commit and was not interrupted. */
  ghost predicate Commits(c: Cluster, r: nat)
    requires WellFormed(c) && Enabled(c, EndRound(r))
  {
    var n := c.nodes[c.rounds[r].owner];
    && n.role.Leader? && n.memory.currentTerm == c.rounds[r].term
    && Majority(|c.rounds[r].acks|, |c.servers|)
  }

  /** Every server the round counts took an append that reaches as far as the log the round commits. */
  ghost predicate QuorumTookAll(c: Cluster, r: nat)
    requires WellFormed(c) && Enabled(c, EndRound(r))
  {
    forall x | x in c.rounds[r].acks && x != c.rounds[r].owner ::
      && AcceptKey(r, x) in c.ledger.accepts
      && |c.nodes[c.rounds[r].owner].memory.log| <= c.ledger.accepts[AcceptKey(r, x)].length
  }

  /** The owner's log has not grown since it built the requests to the servers the round counts. */
  ghost predicate NotGrown(c: Cluster, r: nat)
    requires WellFormed(c) && Enabled(c, EndRound(r))
  {
    forall x | x in c.rounds[r].acks && x != c.rounds[r].owner ::
      && x in c.rounds[r].built
      && |c.nodes[c.rounds[r].owner].memory.log| <= c.rounds[r].built[x]
  }

  /** What a round commits is what its majority took, exactly when the leader's log has not grown since
      the requests were built. */
  lemma CommitWithinQuorumIff(c: Cluster, r: nat)
    requires Reachable(c) && WellFormed(c) && Enabled(c, EndRound(r)) && Commits(c, r)
    ensures var round, n := c.rounds[r], c.nodes[c.rounds[r].owner];
      var k := Commit(r, round.owner, round.term, round.acks, true, |n.memory.log|);
      && k in DoEndRound(c, r).ledger.commits
      && DoEndRound(c, r).nodes[round.owner].commitIndex + 1 == k.length
    ensures QuorumTookAll(c, r) <==> NotGrown(c, r)
  {
    hide ElectionsOk, RoundsOk, WellFormed;
    ReachableReaches(c);
    CountedTook(c, r);
  }

  lemma CountedTook(c: Cluster, r: nat)
    requires WellFormed(c) && RoundsOk(c) && Enabled(c, EndRound(r)) && Commits(c, r)
    ensures forall x | x in c.rounds[r].acks :: AcceptKey(r, x) in c.ledger.accepts
  {
    assert RoundOk(c, r);
    hide RoundsOk, WellFormed;
    forall x | x in c.rounds[r].acks ensures AcceptKey(r, x) in c.ledger.accepts {
      assert Took(c, r, x, c.rounds[r].term);
    }
  }
}
