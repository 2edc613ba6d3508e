/** Rounds whose owner has lost its leadership: every server still to be asked counts as a success, and
    the end of the round commits whatever log the owner has. */
module RaftInterrupted {
  import opened Common
  import opened Raft
  import opened RaftCluster
  import opened RaftElectionRuns
  import opened RaftElections
  import opened RaftNodes
  import opened RaftOverlap
  import opened RaftRounds
  import opened RaftStage
  import opened RaftCommitGaps
  import opened RaftGuardedRuns
  import Leader = RaftLeaderRuns

  /** The end of a round makes its owner report its whole log as committed, exactly when it has counted
      a majority; it reports more than before exactly when it also had not committed its whole log. Who
      leads, and who took what, does not matter. */
  lemma EndOfRoundReportsIff(c: Cluster, r: nat)
    requires WellFormed(c) && Enabled(c, EndRound(r))
    ensures var n := c.nodes[c.rounds[r].owner];
      var m := DoEndRound(c, r).nodes[c.rounds[r].owner];
      var counted := Majority(|c.rounds[r].acks|, |c.servers|);
      && m.memory == n.memory
      && CommittedLog(m) == (if counted then n.memory.log else CommittedLog(n))
      && (m.commitIndex > n.commitIndex <==> counted && n.commitIndex + 1 < |n.memory.log|)
  {
    hide WellFormed;
  }

  /** The server leads in no state of the run. */
  ghost predicate NeverLeads(c: Cluster, steps: seq<Step>, a: Addr)
    requires WellFormed(c) && Legal(c, steps) && a in c.servers
    decreases |steps|
  {
    !c.nodes[a].role.Leader? &&
    (steps == [] ||
     (StepMovesOne(c, steps[0]);
      NeverLeads(Apply(c, steps[0]), steps[1..], a)))
  }

  /** Who answered the round in the run, whatever the answers say. */
  function HeardFrom(steps: seq<Step>, r: nat): set<Addr> {
    if steps == [] then {}
    else
      (if steps[0].CountAppend? && steps[0].appendAnswer.round == r then {steps[0].appendAnswer.from} else {})
      + HeardFrom(steps[1..], r)
  }

  /** The round has counted, besides those it had counted before, everybody it came to since and everybody
      in `heard`, and nobody else. */
  predicate CountsRest(before: Round, after: Round, heard: set<Addr>) {
    && after.owner == before.owner && before.asked <= after.asked
    && after.acks == before.acks + (after.asked - before.asked) + heard
  }

  /** Once its owner does not lead, a round counts every server it comes to, without a message. */
  lemma InterruptedRoundCounts(c: Cluster, r: nat, to: Addr)
    requires WellFormed(c) && Enabled(c, Send(r, to)) && !c.nodes[c.rounds[r].owner].role.Leader?
    ensures r in DoSend(c, r, to).rounds && DoSend(c, r, to).rounds[r].acks == c.rounds[r].acks + {to}
    ensures DoSend(c, r, to).rounds == c.rounds[r := DoSend(c, r, to).rounds[r]]
    ensures CountsRest(c.rounds[r], DoSend(c, r, to).rounds[r], {})
    ensures DoSend(c, r, to).nodes == c.nodes && DoSend(c, r, to).appendCalls == c.appendCalls
  {
    hide WellFormed;
  }

  /** And every reply it gets, whatever it says. */
  lemma InterruptedReplyCounts(c: Cluster, ans: AppendAnswer)
    requires WellFormed(c) && Enabled(c, CountAppend(ans)) && !c.nodes[c.rounds[ans.round].owner].role.Leader?
    ensures ans.round in DoCountAppend(c, ans).rounds
    ensures CountsRest(c.rounds[ans.round], DoCountAppend(c, ans).rounds[ans.round], {ans.from})
  {
    hide WellFormed, HandleAppendReply;
  }

  lemma OthersLeaveRound(c: Cluster, r: nat, step: Step)
    requires WellFormed(c) && r in c.rounds && r < c.nextRound && Enabled(c, step)
    requires step != EndRound(r) && step != Crash(c.rounds[r].owner)
    requires !(step.Send? && step.round == r) && !(step.CountAppend? && step.appendAnswer.round == r)
    ensures r in Apply(c, step).rounds && Apply(c, step).rounds[r] == c.rounds[r]
  {
    hide WellFormed, HandleVote, HandleAppend, HandleAppendReply, FinishRound, FinishElection, LeaderAppend, Restart,
      OpenElection, AppendRequestFor, Acknowledge;
  }

  lemma StepCountsRest(c: Cluster, r: nat, step: Step)
    requires WellFormed(c) && r in c.rounds && r < c.nextRound && Enabled(c, step)
    requires !c.nodes[c.rounds[r].owner].role.Leader? && step != EndRound(r) && step != Crash(c.rounds[r].owner)
    ensures r in Apply(c, step).rounds
    ensures CountsRest(c.rounds[r], Apply(c, step).rounds[r], HeardFrom([step], r))
  {
    assert [step][1..] == [];
    hide WellFormed, DoSend, DoCountAppend;
    if step.Send? && step.round == r {
      InterruptedRoundCounts(c, r, step.to);
    } else if step.CountAppend? && step.appendAnswer.round == r {
      InterruptedReplyCounts(c, step.appendAnswer);
    } else {
      hide Apply, Enabled;
      OthersLeaveRound(c, r, step);
    }
  }

  lemma {:induction false} InterruptedRoundCountsRest(c: Cluster, steps: seq<Step>, r: nat)
    requires Sound(c) && WellFormed(c) && r in c.rounds && c.rounds[r].owner in c.servers && Legal(c, steps)
    requires NeverLeads(c, steps, c.rounds[r].owner)
    requires EndRound(r) !in steps && Crash(c.rounds[r].owner) !in steps
    ensures r in Run(c, steps).rounds
    ensures CountsRest(c.rounds[r], Run(c, steps).rounds[r], HeardFrom(steps, r))
    ensures Run(c, steps).servers == c.servers
    decreases |steps|
  {
    hide Sound, WellFormed, Apply, Enabled;
    if steps != [] {
      RoundsBegan(c);
      assert steps[0] in steps && forall s | s in steps[1..] :: s in steps;
      StepMovesOne(c, steps[0]);
      StepCountsRest(c, r, steps[0]);
      StepKeepsSound(c, steps[0]);
      InterruptedRoundCountsRest(Apply(c, steps[0]), steps[1..], r);
      assert [steps[0]][1..] == [];
    }
  }

  lemma RoundsBegan(c: Cluster)
    requires Sound(c) && WellFormed(c)
    ensures forall r | r in c.rounds :: r < c.nextRound
  {
    hide ElectionsOk, ReachesOk;
    Leader.EarlierRounds(c);
  }

  /** A round whose owner leads in no later state: when it has come to everybody its end makes the owner
      report its whole log exactly when a majority was counted by now, or not asked by now, or answers
      later, whatever it answers; otherwise the owner reports what it did. */
  lemma InterruptedRoundReports(c: Cluster, steps: seq<Step>, r: nat)
    requires Reachable(c) && WellFormed(c) && r in c.rounds && c.rounds[r].owner in c.servers && Legal(c, steps)
    requires NeverLeads(c, steps, c.rounds[r].owner)
    requires EndRound(r) !in steps && Crash(c.rounds[r].owner) !in steps
    requires Enabled(Run(c, steps), EndRound(r))
    ensures var end, a := Run(c, steps), c.rounds[r].owner;
      var counted := c.rounds[r].acks + (c.servers - c.rounds[r].asked) + HeardFrom(steps, r);
      && a in end.nodes && a in DoEndRound(end, r).nodes
      && CommittedLog(DoEndRound(end, r).nodes[a])
           == if Majority(|counted|, |c.servers|) then end.nodes[a].memory.log else CommittedLog(end.nodes[a])
  {
    hide ElectionsOk, RoundsOk, ReachesOk, WellFormed, Run, Legal, NeverLeads, Enabled, Reachable, DoEndRound,
      CommittedLog;
    ReachableReaches(c);
    InterruptedRoundCountsRest(c, steps, r);
    EndingRound(Run(c, steps), r);
    EndOfRoundReportsIff(Run(c, steps), r);
  }

  lemma EndingRound(c: Cluster, r: nat)
    requires WellFormed(c) && Enabled(c, EndRound(r))
    ensures r in c.rounds && c.rounds[r].owner in c.nodes && c.rounds[r].asked == c.servers
    ensures DoEndRound(c, r).nodes.Keys == c.nodes.Keys
  {
  }

  // ----- A run in which that goes wrong -----

  /** Server 1 has a log of its own and a round with the servers in `acks` counted. */
  ghost predicate Deposing(c: Cluster, acks: set<Addr>) {
    && WellFormed(Init({1, 2, 3})) && LeadsTo(Init({1, 2, 3}), c)
    && WellFormed(c) && c.servers == {1, 2, 3}
    && c.nodes[1].memory.log == [INIT_ENTRY, Entry("x", 1)] && c.nodes[1].commitIndex == 0
    && c.nodes[2].memory.log == [INIT_ENTRY] && c.nodes[3].memory.log == [INIT_ENTRY]
    && 0 in c.rounds && c.rounds[0].owner == 1 && c.rounds[0].asked == acks == c.rounds[0].acks
  }

  lemma RoundIsOpen() returns (c: Cluster)
    ensures Deposing(c, {}) && FreshCandidate(c, 2) && c.nodes[1].memory.currentTerm == 1
  {
    hide LeadsTo, Stamp;
    var c0 := StageOpens();
    var c1 := StageBegins(c0, [INIT_ENTRY], [INIT_ENTRY], 0, ["x"]);
    c := c1;
    assert [INIT_ENTRY] + Stamp(["x"], 1) == [INIT_ENTRY, Entry("x", 1)];
  }

  lemma RivalLoses(c: Cluster) returns (c': Cluster)
    requires Deposing(c, {}) && FreshCandidate(c, 2)
    ensures Deposing(c', {}) && c'.nodes[2].role.Follower? && c'.nodes[2].memory.currentTerm == 1
    ensures 2 !in c'.campaigns && c'.nodes[1] == c.nodes[1]
  {
    hide LeadsTo;
    var c0 := BothAsked(Init({1, 2, 3}), c, 2, 1, 3);
    assert |c0.servers| == 3;
    LeadsToStep(Init({1, 2, 3}), c0, Finish(2));
    DoFinishKeepsWellFormed(c0, 2);
    c' := DoFinish(c0, 2);
  }

  lemma RivalRunsAgain(c: Cluster) returns (c': Cluster)
    requires Deposing(c, {}) && c.nodes[2].role.Follower? && c.nodes[2].memory.currentTerm == 1
    requires 2 !in c.campaigns
    ensures Deposing(c', {}) && c'.nodes[2].memory.currentTerm == 2
    ensures 2 in c'.campaigns && c'.campaigns[2].asked == {} && c'.nodes[1] == c.nodes[1]
  {
    hide LeadsTo;
    LeadsToStep(Init({1, 2, 3}), c, Open(2));
    DoOpenKeepsWellFormed(c, 2);
    c' := DoOpen(c, 2);
  }

  lemma RivalAsks(c: Cluster) returns (c': Cluster, call: VoteCall)
    requires Deposing(c, {}) && c.nodes[2].memory.currentTerm == 2
    requires 2 in c.campaigns && c.campaigns[2].asked == {}
    ensures Deposing(c', {}) && call in c'.voteCalls && call.to == 1 && call.req.term == 2
    ensures c'.nodes[1] == c.nodes[1]
  {
    hide LeadsTo;
    LeadsToStep(Init({1, 2, 3}), c, Ask(2, 1));
    DoAskKeepsWellFormed(c, 2, 1);
    c' := DoAsk(c, 2, 1);
    call := VoteCall(c.campaigns[2].term, 1, VoteRequestOf(c.nodes[2], 2));
  }

  lemma LeaderIsDeposed(c: Cluster, call: VoteCall) returns (c': Cluster)
    requires Deposing(c, {}) && call in c.voteCalls && call.to == 1 && call.req.term == 2
    requires c.nodes[1].memory.currentTerm < 2
    ensures Deposing(c', {}) && c'.nodes[1].role.Follower?
  {
    hide LeadsTo, LogCondition;
    LeadsToStep(Init({1, 2, 3}), c, DeliverVote(call));
    DoDeliverVoteKeepsWellFormed(c, call);
    c' := DoDeliverVote(c, call);
  }

  lemma DeposedCounts(c: Cluster, acks: set<Addr>, to: Addr) returns (c': Cluster)
    requires Deposing(c, acks) && c.nodes[1].role.Follower? && to in {1, 2, 3} && to !in acks
    ensures Deposing(c', acks + {to}) && c'.nodes[1].role.Follower?
  {
    hide LeadsTo;
    LeadsToStep(Init({1, 2, 3}), c, Send(0, to));
    DoSendKeepsWellFormed(c, 0, to);
    c' := DoSend(c, 0, to);
  }

  /** A deposed server's interrupted round makes it report as committed what it alone has and nobody has
      acknowledged: the round was opened with a client's entry, and asked no server before its owner
      learnt of a newer term. */
  lemma InterruptedRoundCommitsTooMuch()
    ensures exists c, r: nat ::
      && Reachable(c) && WellFormed(c) && Enabled(c, EndRound(r))
      && !c.nodes[c.rounds[r].owner].role.Leader? && Majority(|c.rounds[r].acks|, |c.servers|)
      && c.nodes[c.rounds[r].owner].commitIndex + 1 < |c.nodes[c.rounds[r].owner].memory.log|
      && !HeldByMajority(c, r)
  {
    hide Deposing, LeadsTo, WellFormed, HeldByMajority;
    var c0 := RoundIsOpen();
    var c1 := RivalLoses(c0);
    var c2 := RivalRunsAgain(c1);
    var c3, call := RivalAsks(c2);
    var c4 := LeaderIsDeposed(c3, call);
    var c5 := DeposedCounts(c4, {}, 1);
    var c6 := DeposedCounts(c5, {} + {1}, 2);
    var c := DeposedCounts(c6, {} + {1} + {2}, 3);
    DeposedMayCommit(c);
  }

  lemma DeposedMayCommit(c: Cluster)
    requires Deposing(c, {} + {1} + {2} + {3}) && c.nodes[1].role.Follower?
    ensures Reachable(c) && WellFormed(c) && Enabled(c, EndRound(0))
    ensures c.rounds[0].owner == 1 && Majority(|c.rounds[0].acks|, |c.servers|) && !HeldByMajority(c, 0)
    ensures c.nodes[1].commitIndex + 1 < |c.nodes[1].memory.log|
  {
    hide LeadsTo, Reachable, Holders;
    LedToIsReachable(Init({1, 2, 3}), c);
    OneHolds(c, c.nodes[1].memory.log);
    assert {} + {1} + {2} + {3} == {1, 2, 3} && |{1, 2, 3}| == 3;
  }
}
