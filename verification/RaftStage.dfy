/** Concrete runs of three servers in term 1: server 1 leads, server 3 follows it, server 2 stands by.
    Each lemma takes such a run one step further. */
module RaftStage {
  import opened Common
  import opened Raft
  import opened RaftCluster
  import opened RaftElectionRuns

  /** A run from the start leads to `c`, in which 1 leads with `log`, sends to 3 from `next` on, and 3
      has `copy`. */
  ghost predicate Stage(c: Cluster, log: seq<Entry>, copy: seq<Entry>, next: nat) {
    && WellFormed(Init({1, 2, 3})) && LeadsTo(Init({1, 2, 3}), c)
    && WellFormed(c) && c.servers == {1, 2, 3}
    && Leads(c.nodes[1], log, next) && Copies(c.nodes[3], copy)
    && c.nodes[2].memory.log == [INIT_ENTRY]
  }

  ghost predicate Leads(n: NodeState, log: seq<Entry>, next: nat) {
    && n.role.Leader? && n.memory == Persistent(1, None, log) && n.commitIndex == 0
    && n.role.nextIndex.Keys == {1, 2, 3} && n.role.nextIndex[3] == next
  }

  ghost predicate Copies(n: NodeState, copy: seq<Entry>) {
    n.role.Follower? && n.memory == Persistent(1, Some(1), copy) && n.commitIndex == 0
  }

  lemma StageIsReachable(c: Cluster, log: seq<Entry>, copy: seq<Entry>, next: nat)
    requires Stage(c, log, copy, next)
    ensures Reachable(c) && WellFormed(c) && 1 in c.nodes
  {
    hide WellFormed;
    LedToIsReachable(Init({1, 2, 3}), c);
    assert c.nodes.Keys == c.servers by {
      ServersHaveNodes(c);
    }
  }

  lemma StageOpens() returns (c: Cluster)
    ensures Stage(c, [INIT_ENTRY], [INIT_ENTRY], 0)
    ensures c.rounds == map[] && c.nextRound == 0 && FreshCandidate(c, 2)
  {
    hide LeadsTo, Won, HandleVote, FinishElection, GrantsVote;
    var start, c0 := TwoCandidates();
    FreshVotes();
    CandidateLeads(c0.nodes[1], c0.servers);
    c := OneVoteWins(start, c0, 1, 3, 2);
  }

  lemma FreshVotes()
    ensures GrantsVote(FreshNode(), VoteRequest(1, 1, 0, 0))
    ensures Copies(HandleVote(FreshNode(), VoteRequest(1, 1, 0, 0)).0, [INIT_ENTRY])
  {
  }

  lemma CandidateLeads(n: NodeState, servers: set<Addr>)
    requires n.role.Candidate? && n.memory == Persistent(1, None, [INIT_ENTRY]) && n.commitIndex == 0
    requires servers == {1, 2, 3}
    ensures Leads(FinishElection(n, servers, 2), [INIT_ENTRY], 0)
  {
    assert |servers| == 3;
  }

  lemma StageBegins(c: Cluster, log: seq<Entry>, copy: seq<Entry>, next: nat, texts: seq<string>)
    returns (c': Cluster)
    requires Stage(c, log, copy, next)
    ensures Enabled(c, BeginRound(1, texts)) && c' == Apply(c, BeginRound(1, texts))
    ensures Stage(c', log + Stamp(texts, 1), copy, next)
    ensures c'.rounds == c.rounds[c.nextRound := Round(1, 1, {}, {}, map[])] && c'.nextRound == c.nextRound + 1
    ensures c'.appendCalls == c.appendCalls && c'.appendAnswers == c.appendAnswers
    ensures c'.nodes[2] == c.nodes[2] && c'.campaigns == c.campaigns && c'.voteCalls == c.voteCalls
  {
    hide LeadsTo;
    LeadsToStep(Init({1, 2, 3}), c, BeginRound(1, texts));
    DoBeginRoundKeepsWellFormed(c, 1, texts);
    c' := DoBeginRound(c, 1, texts);
  }

  lemma StageCountsSelf(c: Cluster, log: seq<Entry>, copy: seq<Entry>, next: nat, r: nat) returns (c': Cluster)
    requires Stage(c, log, copy, next) && r in c.rounds && c.rounds[r].owner == 1 && 1 !in c.rounds[r].asked
    ensures Enabled(c, Send(r, 1)) && c' == Apply(c, Send(r, 1))
    ensures Stage(c', log, copy, next)
    ensures c'.rounds == c.rounds[r := c.rounds[r].(asked := c.rounds[r].asked + {1}, acks := c.rounds[r].acks + {1},
                                                    built := c.rounds[r].built[1 := |log|])]
    ensures c'.nextRound == c.nextRound && c'.appendCalls == c.appendCalls && c'.appendAnswers == c.appendAnswers
  {
    hide LeadsTo;
    LeadsToStep(Init({1, 2, 3}), c, Send(r, 1));
    DoSendKeepsWellFormed(c, r, 1);
    c' := DoSend(c, r, 1);
  }

  /** The request server 3 is sent next. */
  function NextRequest(log: seq<Entry>, next: nat): AppendRequest
    requires next <= |log| && |log| > 0
  {
    AppendRequest(1, PrevIndex(next), log[PrevIndex(next)].term, log[PrevIndex(next) + 1..], 0)
  }

  lemma StageSends(c: Cluster, log: seq<Entry>, copy: seq<Entry>, next: nat, r: nat) returns (c': Cluster)
    requires Stage(c, log, copy, next) && next <= |log| && |log| > 0
    requires r in c.rounds && c.rounds[r].owner == 1 && 3 !in c.rounds[r].asked
    ensures Enabled(c, Send(r, 3)) && c' == Apply(c, Send(r, 3))
    ensures Stage(c', log, copy, next)
    ensures c'.rounds == c.rounds[r := c.rounds[r].(asked := c.rounds[r].asked + {3},
                                                    built := c.rounds[r].built[3 := |log|])]
    ensures c'.appendCalls == c.appendCalls + {AppendCall(r, 3, NextRequest(log, next))}
    ensures c'.nextRound == c.nextRound && c'.appendAnswers == c.appendAnswers
  {
    hide LeadsTo;
    LeadsToStep(Init({1, 2, 3}), c, Send(r, 3));
    DoSendKeepsWellFormed(c, r, 3);
    c' := DoSend(c, r, 3);
  }

  /** Server 2 is asked too; the request is never handled. */
  lemma StageAsksOther(c: Cluster, log: seq<Entry>, copy: seq<Entry>, next: nat, r: nat) returns (c': Cluster)
    requires Stage(c, log, copy, next)
    requires r in c.rounds && c.rounds[r].owner == 1 && 2 !in c.rounds[r].asked
    ensures Enabled(c, Send(r, 2)) && c' == Apply(c, Send(r, 2))
    ensures Stage(c', log, copy, next)
    ensures c'.rounds == c.rounds[r := c.rounds[r].(asked := c.rounds[r].asked + {2},
                                                    built := c.rounds[r].built[2 := |log|])]
    ensures c.appendCalls <= c'.appendCalls
    ensures c'.nextRound == c.nextRound && c'.appendAnswers == c.appendAnswers
  {
    hide LeadsTo, AppendRequestFor;
    LeadsToStep(Init({1, 2, 3}), c, Send(r, 2));
    DoSendKeepsWellFormed(c, r, 2);
    c' := DoSend(c, r, 2);
  }

  lemma StageDelivers(c: Cluster, log: seq<Entry>, copy: seq<Entry>, next: nat, r: nat, req: AppendRequest)
    returns (c': Cluster)
    requires Stage(c, log, copy, next) && AppendCall(r, 3, req) in c.appendCalls
    requires req.term == 1 && req.leaderCommit == 0 && LogMatches(copy, req.prevIndex, req.prevTerm)
    ensures Enabled(c, DeliverAppend(AppendCall(r, 3, req))) && c' == Apply(c, DeliverAppend(AppendCall(r, 3, req)))
    ensures Stage(c', log, Splice(copy, req.prevIndex, req.entries), next)
    ensures c'.appendCalls == c.appendCalls - {AppendCall(r, 3, req)}
    ensures c'.appendAnswers == c.appendAnswers + {AppendAnswer(r, 3, 1, true)}
    ensures c'.rounds == c.rounds && c'.nextRound == c.nextRound
  {
    hide LeadsTo;
    LeadsToStep(Init({1, 2, 3}), c, DeliverAppend(AppendCall(r, 3, req)));
    DoDeliverAppendKeepsWellFormed(c, AppendCall(r, 3, req));
    c' := DoDeliverAppend(c, AppendCall(r, 3, req));
  }

  lemma StageHears(c: Cluster, log: seq<Entry>, copy: seq<Entry>, next: nat, r: nat) returns (c': Cluster)
    requires Stage(c, log, copy, next) && AppendAnswer(r, 3, 1, true) in c.appendAnswers
    requires r in c.rounds && c.rounds[r].owner == 1
    ensures Enabled(c, CountAppend(AppendAnswer(r, 3, 1, true)))
    ensures c' == Apply(c, CountAppend(AppendAnswer(r, 3, 1, true)))
    ensures Stage(c', log, copy, |log|)
    ensures c'.rounds == c.rounds[r := c.rounds[r].(acks := c.rounds[r].acks + {3})]
    ensures c'.nextRound == c.nextRound && c'.appendCalls == c.appendCalls
    ensures c'.appendAnswers == c.appendAnswers - {AppendAnswer(r, 3, 1, true)}
  {
    hide LeadsTo;
    LeadsToStep(Init({1, 2, 3}), c, CountAppend(AppendAnswer(r, 3, 1, true)));
    DoCountAppendKeepsWellFormed(c, AppendAnswer(r, 3, 1, true));
    c' := DoCountAppend(c, AppendAnswer(r, 3, 1, true));
  }

  /** A round ends that has counted only its owner. */
  lemma StageGivesUp(c: Cluster, log: seq<Entry>, copy: seq<Entry>, next: nat, r: nat) returns (c': Cluster)
    requires Stage(c, log, copy, next) && r in c.rounds && c.rounds[r].owner == 1
    requires c.rounds[r].asked == {1, 2, 3} && c.rounds[r].acks == {1}
    ensures Enabled(c, EndRound(r)) && c' == Apply(c, EndRound(r))
    ensures !Majority(|c.rounds[r].acks|, |c.servers|)
    ensures Stage(c', log, copy, next) && c'.rounds == c.rounds - {r}
    ensures c'.nextRound == c.nextRound && c'.appendCalls == c.appendCalls && c'.appendAnswers == c.appendAnswers
  {
    hide LeadsTo;
    LeadsToStep(Init({1, 2, 3}), c, EndRound(r));
    DoEndRoundKeepsWellFormed(c, r);
    assert |c.servers| == 3;
    c' := DoEndRound(c, r);
  }
}
