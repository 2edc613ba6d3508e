/** A server whose log is good enough for all others, and whose term is no older, can always be elected:
    from any state, in a cluster of any size. */
module RaftElectable {
  import opened Common
  import opened Raft
  import opened RaftCluster
  import opened RaftElectionRuns
  import opened RaftElections
  import opened RaftNodes
  import opened RaftTerms

  /** Any other server would vote for it in its next term. */
  ghost predicate Electable(c: Cluster, a: Addr)
    requires WellFormed(c)
  {
    && a in c.servers && c.nodes[a].role.Follower? && a !in c.campaigns
    && forall x | x in c.servers && x != a ::
         Term(c, x) <= Term(c, a) && GoodEnough(c.nodes[a].memory.log, c.nodes[x].memory.log)
  }

  /** The campaign of `a` in term `term` has the votes of `done`; the others are in older terms. */
  ghost predicate Canvassing(c: Cluster, a: Addr, term: nat, log: seq<Entry>, done: set<Addr>) {
    && WellFormed(c) && a in c.servers && done <= c.servers - {a} && |log| > 0
    && c.nodes[a].role.Candidate? && c.nodes[a].memory == Persistent(term, None, log)
    && a in c.campaigns && c.campaigns[a].term == term
    && c.campaigns[a].asked == c.campaigns[a].answered == c.campaigns[a].grants.Keys == done
    && forall x | x in c.servers - {a} - done :: Term(c, x) < term && GoodEnough(log, c.nodes[x].memory.log)
  }

  ghost predicate SameLogs(c: Cluster, c': Cluster) {
    c'.servers == c.servers && c'.nodes.Keys == c.nodes.Keys
    && forall x | x in c.nodes :: c'.nodes[x].memory.log == c.nodes[x].memory.log
  }

  lemma Opens(start: Cluster, c: Cluster, a: Addr) returns (c': Cluster)
    requires WellFormed(start) && LeadsTo(start, c) && WellFormed(c) && Electable(c, a)
    ensures WellFormed(c') && LeadsTo(start, c') && SameLogs(c, c')
    ensures Canvassing(c', a, Term(c, a) + 1, c.nodes[a].memory.log, {})
  {
    LeadsToStep(start, c, Open(a));
    DoOpenKeepsWellFormed(c, a);
    c' := OpenState(c, a);
  }

  lemma OpenState(c: Cluster, a: Addr) returns (c': Cluster)
    requires WellFormed(c) && Electable(c, a) && WellFormed(DoOpen(c, a))
    ensures c' == DoOpen(c, a) && SameLogs(c, c')
    ensures Canvassing(c', a, Term(c, a) + 1, c.nodes[a].memory.log, {})
  {
    ServersHaveNodes(c);
    c' := DoOpen(c, a);
    Candidacy(c.nodes[a]);
    assert |c.nodes[a].memory.log| > 0;
    hide OpenElection, GoodEnough;
    assert c'.nodes == c.nodes[a := OpenElection(c.nodes[a])] && c'.servers == c.servers;
    assert c'.campaigns[a] == Campaign(Term(c, a) + 1, c.nodes[a].memory.log, {}, {}, map[]);
    hide WellFormed;
  }

  lemma Candidacy(n: NodeState)
    ensures OpenElection(n).role.Candidate?
    ensures OpenElection(n).memory == Persistent(n.memory.currentTerm + 1, None, n.memory.log)
  {
  }

  lemma Asks(start: Cluster, c: Cluster, a: Addr, term: nat, log: seq<Entry>, done: set<Addr>, x: Addr)
    returns (c': Cluster, call: VoteCall)
    requires WellFormed(start) && LeadsTo(start, c) && Canvassing(c, a, term, log, done)
    requires x in c.servers && x != a && x !in done
    ensures WellFormed(c') && LeadsTo(start, c') && c'.servers == c.servers && c'.nodes == c.nodes
    ensures call in c'.voteCalls && call == VoteCall(term, x, VoteRequestOf(c.nodes[a], a))
    ensures a in c.campaigns && c'.campaigns == c.campaigns[a := c.campaigns[a].(asked := done + {x})]
  {
    LeadsToStep(start, c, Ask(a, x));
    hide LeadsTo;
    DoAskKeepsWellFormed(c, a, x);
    c' := DoAsk(c, a, x);
    call := VoteCall(term, x, VoteRequestOf(c.nodes[a], a));
  }

  lemma Votes(start: Cluster, c: Cluster, a: Addr, call: VoteCall) returns (c': Cluster, ans: VoteAnswer)
    requires WellFormed(start) && LeadsTo(start, c) && WellFormed(c) && call in c.voteCalls && a in c.nodes
    requires |c.nodes[a].memory.log| > 0 && call.to != a && call.to in c.nodes && |c.nodes[call.to].memory.log| > 0
    requires call.req == VoteRequestOf(c.nodes[a], a) && Term(c, call.to) < Term(c, a)
    requires GoodEnough(c.nodes[a].memory.log, c.nodes[call.to].memory.log)
    ensures WellFormed(c') && LeadsTo(start, c') && SameLogs(c, c') && c'.campaigns == c.campaigns
    ensures forall y | y in c.nodes && y != call.to :: c'.nodes[y] == c.nodes[y]
    ensures ans in c'.voteAnswers && ans == VoteAnswer(call.campaign, call.to, call.req, true)
  {
    CandidateGetsVoteIff(c.nodes[a], a, c.nodes[call.to]);
    VoteSetsTerm(c.nodes[call.to], call.req);
    hide LeadsTo, HandleVote, GoodEnough;
    LeadsToStep(start, c, DeliverVote(call));
    DoDeliverVoteKeepsWellFormed(c, call);
    c' := DoDeliverVote(c, call);
    ans := VoteAnswer(call.campaign, call.to, call.req, true);
  }

  lemma Counts(start: Cluster, c: Cluster, a: Addr, x: Addr, ans: VoteAnswer) returns (c': Cluster)
    requires WellFormed(start) && LeadsTo(start, c) && WellFormed(c) && ans in c.voteAnswers
    requires ans.granted && ans.req.candidate == a && ans.voter == x && a in c.campaigns
    requires c.campaigns[a].term == ans.campaign && x !in c.campaigns[a].answered
    ensures WellFormed(c') && LeadsTo(start, c') && c'.servers == c.servers && c'.nodes == c.nodes
    ensures c'.campaigns == c.campaigns[a := c.campaigns[a].(answered := c.campaigns[a].answered + {x},
                                                             grants := c.campaigns[a].grants[x := ans.req])]
  {
    LeadsToStep(start, c, CountVote(ans));
    hide LeadsTo;
    StepKeepsWellFormed(c, CountVote(ans));
    c' := DoCountVote(c, ans);
  }

  /** One more server is asked, votes, and is counted. */
  lemma OneMoreVote(start: Cluster, c: Cluster, a: Addr, term: nat, log: seq<Entry>, done: set<Addr>, x: Addr)
    returns (c': Cluster)
    requires WellFormed(start) && LeadsTo(start, c) && Canvassing(c, a, term, log, done)
    requires x in c.servers && x != a && x !in done
    ensures WellFormed(c') && LeadsTo(start, c') && SameLogs(c, c') && Canvassing(c', a, term, log, done + {x})
  {
    var n := c.nodes[a];
    ServersHaveNodes(c);
    CanvassedLogs(c, a, term, log, done);
    hide WellFormed, LeadsTo, GoodEnough, VoteRequestOf;
    var c1, call := Asks(start, c, a, term, log, done, x);
    var c2, ans := Votes(start, c1, a, call);
    c' := Counts(start, c2, a, x, ans);
    VoteIsCounted(c, c', a, term, log, done, x, ans.req);
  }

  lemma VoteIsCounted(c: Cluster, c': Cluster, a: Addr, term: nat, log: seq<Entry>, done: set<Addr>, x: Addr,
                      req: VoteRequest)
    requires Canvassing(c, a, term, log, done) && WellFormed(c') && SameLogs(c, c')
    requires x in c.servers && x != a && x !in done
    requires forall y | y in c.nodes && y != x :: c'.nodes[y] == c.nodes[y]
    requires a in c'.campaigns && a in c.campaigns
    requires c'.campaigns[a] == c.campaigns[a].(asked := done + {x}, answered := done + {x},
                                                grants := c.campaigns[a].grants[x := req])
    ensures Canvassing(c', a, term, log, done + {x})
  {
    ServersHaveNodes(c);
    ServersHaveNodes(c');
    hide WellFormed, GoodEnough;
    assert c'.campaigns[a].grants.Keys == done + {x};
  }

  lemma CanvassedLogs(c: Cluster, a: Addr, term: nat, log: seq<Entry>, done: set<Addr>)
    requires Canvassing(c, a, term, log, done)
    ensures forall x | x in c.nodes :: |c.nodes[x].memory.log| > 0
  {
    ServersHaveNodes(c);
  }

  lemma {:induction false} AllVote(start: Cluster, c: Cluster, a: Addr, term: nat, log: seq<Entry>, done: set<Addr>)
    returns (c': Cluster)
    requires WellFormed(start) && LeadsTo(start, c) && Canvassing(c, a, term, log, done)
    ensures WellFormed(c') && LeadsTo(start, c') && SameLogs(c, c')
    ensures Canvassing(c', a, term, log, c'.servers - {a})
    decreases c.servers - {a} - done
  {
    if done == c.servers - {a} {
      c' := c;
    } else {
      CanvassingIsInside(c, a, term, log, done);
      hide WellFormed, LeadsTo, Canvassing;
      var x :| x in c.servers - {a} - done;
      var c1 := OneMoreVote(start, c, a, term, log, done, x);
      c' := AllVote(start, c1, a, term, log, done + {x});
    }
  }

  lemma CanvassingIsInside(c: Cluster, a: Addr, term: nat, log: seq<Entry>, done: set<Addr>)
    requires Canvassing(c, a, term, log, done) && done != c.servers - {a}
    ensures c.servers - {a} - done != {}
  {
  }

  lemma Wins(start: Cluster, c: Cluster, a: Addr, term: nat, log: seq<Entry>) returns (c': Cluster)
    requires WellFormed(start) && LeadsTo(start, c) && Canvassing(c, a, term, log, c.servers - {a})
    ensures WellFormed(c') && LeadsTo(start, c') && SameLogs(c, c')
    ensures a in c'.nodes && c'.nodes[a].role.Leader? && Term(c', a) == term
  {
    var k := c.campaigns[a];
    assert k.grants.Keys == c.servers - {a};
    GrantsCount(k.grants, c.servers, a);
    LeadsToStep(start, c, Finish(a));
    hide LeadsTo;
    DoFinishKeepsWellFormed(c, a);
    c' := DoFinish(c, a);
  }

  lemma GrantsCount(grants: map<Addr, VoteRequest>, servers: set<Addr>, a: Addr)
    requires a in servers && grants.Keys == servers - {a}
    ensures |grants| + 1 == |servers|
  {
    assert |grants| == |grants.Keys|;
    assert servers == (servers - {a}) + {a};
  }

  /** From any state there is a run at whose end `a` leads the term after its present one, with the same
      logs everywhere, if no other server is in a newer term and the log of `a` is good enough for all. */
  lemma ElectableCanWin(c: Cluster, a: Addr)
    requires WellFormed(c) && Electable(c, a)
    ensures a in c.nodes
    ensures exists steps ::
      && Legal(c, steps) && SameLogs(c, Run(c, steps))
      && a in Run(c, steps).nodes && Run(c, steps).nodes[a].role.Leader?
      && Term(Run(c, steps), a) == Term(c, a) + 1
  {
    ServersHaveNodes(c);
    assert Legal(c, []) && Run(c, []) == c && LeadsTo(c, c);
    var c1 := Opens(c, c, a);
    hide WellFormed, Electable, Canvassing;
    var c2 := AllVote(c, c1, a, Term(c, a) + 1, c.nodes[a].memory.log, {});
    var c3 := Wins(c, c2, a, Term(c, a) + 1, c.nodes[a].memory.log);
    var steps :| Legal(c, steps) && Run(c, steps) == c3;
  }
}
