/** Elections in every run of the cluster: the ledger of ballots, the frozen campaign, and election
    safety with the condition under which the program has it. */
module RaftElections {
  import opened Common
  import opened Raft
  import opened RaftCluster
  import opened RaftNodes

  ghost function Term(c: Cluster, a: Addr): nat
    requires a in c.nodes
  {
    c.nodes[a].memory.currentTerm
  }

  /** A server opens an election by casting a ballot for itself. */
  ghost predicate Opened(c: Cluster, a: Addr, term: nat) {
    BallotKey(a, a, term) in c.ledger.ballots
  }

  // ----- Invariants -----

  ghost predicate BallotsInPast(c: Cluster)
    requires WellFormed(c)
  {
    forall k | k in c.ledger.ballots ::
      && k.voter in c.servers && k.candidate in c.servers
      && k.term <= Term(c, k.voter)
      && c.ledger.ballots[k].at < c.ledger.clock
  }

  ghost predicate RunnersOpened(c: Cluster)
    requires WellFormed(c)
  {
    forall a | a in c.servers && !c.nodes[a].role.Follower? :: Opened(c, a, Term(c, a))
  }

  /** A server that did not run in its present term still knows whom it voted for. */
  ghost predicate VotesRemembered(c: Cluster)
    requires WellFormed(c) && BallotsInPast(c)
  {
    forall k | k in c.ledger.ballots && k.term == Term(c, k.voter) && !Opened(c, k.voter, k.term) ::
      c.nodes[k.voter].memory.votedFor == Some(k.candidate)
  }

  /** A server that did not run in a term voted at most once in it. */
  ghost predicate OneBallotUnlessOpened(c: Cluster) {
    forall k, l | k in c.ledger.ballots && l in c.ledger.ballots
      && k.voter == l.voter && k.term == l.term && !Opened(c, k.voter, k.term) ::
      k.candidate == l.candidate
  }

  ghost predicate BallotsOk(c: Cluster)
    requires WellFormed(c)
  {
    BallotsInPast(c) && RunnersOpened(c) && VotesRemembered(c) && OneBallotUnlessOpened(c)
  }

  ghost function CallKey(m: VoteCall): AskKey {
    AskKey(m.req.candidate, m.to, m.req.term)
  }

  /** A request in flight was asked and not yet answered with a vote; requests in flight differ. */
  ghost predicate CallsAsked(c: Cluster) {
    && (forall m | m in c.voteCalls ::
          CallKey(m) in c.ledger.asks && BallotKey(m.to, m.req.candidate, m.req.term) !in c.ledger.ballots)
    && (forall m, l | m in c.voteCalls && l in c.voteCalls && CallKey(m) == CallKey(l) :: m == l)
  }

  ghost predicate BallotsAsked(c: Cluster) {
    forall k | k in c.ledger.ballots && k.voter != k.candidate ::
      AskKey(k.candidate, k.voter, k.term) in c.ledger.asks
  }

  /** Within its present term a server has asked only in its running campaign. */
  ghost predicate AsksOnce(c: Cluster)
    requires WellFormed(c)
  {
    forall q | q in c.ledger.asks ::
      && q.candidate in c.servers && q.to != q.candidate
      && q.term <= Term(c, q.candidate)
      && (q.term == Term(c, q.candidate) && q.candidate in c.campaigns ==> q.to in c.campaigns[q.candidate].asked)
  }

  ghost predicate AsksOk(c: Cluster)
    requires WellFormed(c)
  {
    CallsAsked(c) && BallotsAsked(c) && AsksOnce(c)
  }

  /** The frozen campaign: while its owner is still a candidate, its term and log are those the
      campaign was opened with. */
  ghost predicate CampaignsFrozen(c: Cluster)
    requires WellFormed(c)
  {
    && (forall a | a in c.campaigns :: c.campaigns[a].term <= Term(c, a))
    && (forall a | a in c.servers && c.nodes[a].role.Candidate? ::
          && a in c.campaigns
          && c.campaigns[a].term == Term(c, a)
          && c.campaigns[a].log == c.nodes[a].memory.log
          && Opened(c, a, Term(c, a))
          && BallotFor(c, a, VoteRequestOf(c.nodes[a], a)))
  }

  /** The ballot of `voter` that answered `req`. */
  ghost predicate BallotFor(c: Cluster, voter: Addr, req: VoteRequest) {
    var k := BallotKey(voter, req.candidate, req.term);
    && k in c.ledger.ballots
    && c.ledger.ballots[k].lastIndex == req.lastIndex
    && c.ledger.ballots[k].lastTerm == req.lastTerm
  }

  /** A message of a campaign whose owner is still a candidate carries the owner's present data. */
  ghost predicate Current(c: Cluster, campaign: nat, req: VoteRequest)
    requires WellFormed(c) && req.candidate in c.servers
  {
    var a := req.candidate;
    && campaign <= Term(c, a)
    && (c.nodes[a].role.Candidate? && a in c.campaigns && c.campaigns[a].term == campaign ==>
          req == VoteRequestOf(c.nodes[a], a))
  }

  ghost predicate AnswerOk(c: Cluster, m: VoteAnswer)
    requires WellFormed(c) && m in c.voteAnswers
  {
    && m.voter != m.req.candidate && Current(c, m.campaign, m.req)
    && (m.granted ==> BallotFor(c, m.voter, m.req))
  }

  ghost predicate MessagesCurrent(c: Cluster)
    requires WellFormed(c)
  {
    && (forall m | m in c.voteCalls :: m.to != m.req.candidate && Current(c, m.campaign, m.req))
    && (forall m | m in c.voteAnswers :: AnswerOk(c, m))
  }

  ghost predicate GrantOk(c: Cluster, a: Addr, x: Addr)
    requires WellFormed(c) && a in c.campaigns && x in c.campaigns[a].grants
  {
    var req := c.campaigns[a].grants[x];
    && x in c.servers && x != a && req.candidate == a
    && Current(c, c.campaigns[a].term, req)
    && BallotFor(c, x, req)
  }

  ghost predicate GrantsCurrent(c: Cluster)
    requires WellFormed(c)
  {
    forall a, x | a in c.campaigns && x in c.campaigns[a].grants :: GrantOk(c, a, x)
  }

  ghost predicate CampaignsOk(c: Cluster)
    requires WellFormed(c)
  {
    CampaignsFrozen(c) && MessagesCurrent(c) && GrantsCurrent(c)
  }

  /** A win rests on a majority of ballots, each for a request with the winner's term and log end. */
  ghost predicate WinOk(c: Cluster, w: Win) {
    && |w.log| > 0
    && w.quorum <= c.servers
    && Majority(|w.quorum|, |c.servers|)
    && forall x | x in w.quorum ::
         BallotFor(c, x, VoteRequest(w.term, w.leader, |w.log| - 1, Last(w.log).term))
  }

  ghost predicate WinsOk(c: Cluster) {
    forall w | w in c.ledger.wins :: WinOk(c, w)
  }

  ghost predicate ElectionsOk(c: Cluster) {
    NodesOk(c) && BallotsOk(c) && AsksOk(c) && CampaignsOk(c) && WinsOk(c)
  }

  // ----- What a step can do, seen from elections -----

  /** Server `a` moves. New ballots are its own, in the term it ends in; so are new questions; and it
      ends as a candidate only if it was one with the same data, or opens a campaign in a new term. */
  ghost predicate Shape(c: Cluster, c': Cluster, a: Addr)
    requires WellFormed(c) && WellFormed(c')
  {
    && a in c.servers && c'.servers == c.servers
    && c'.nodes == c.nodes[a := c'.nodes[a]]
    && Term(c, a) <= Term(c', a)
    && c'.ledger.clock == c.ledger.clock + 1
    && BallotsGrow(c, c', a)
    && CampaignsMove(c, c', a)
    && c.ledger.asks <= c'.ledger.asks
    && (forall q | q in c'.ledger.asks && q !in c.ledger.asks ::
          q.candidate == a != q.to && q.term == Term(c', a) && a in c'.campaigns && q.to in c'.campaigns[a].asked)
  }

  ghost predicate BallotsGrow(c: Cluster, c': Cluster, a: Addr)
    requires a in c'.nodes
  {
    && (forall k | k in c.ledger.ballots :: k in c'.ledger.ballots && c'.ledger.ballots[k] == c.ledger.ballots[k])
    && (forall k | k in c'.ledger.ballots && k !in c.ledger.ballots ::
          && k.voter == a && k.candidate in c.servers && k.term == Term(c', a)
          && c'.ledger.ballots[k].at == c.ledger.clock)
  }

  ghost predicate CampaignsMove(c: Cluster, c': Cluster, a: Addr)
    requires WellFormed(c) && WellFormed(c') && a in c.servers && a in c'.servers
  {
    var n, m := c.nodes[a], c'.nodes[a];
    && (forall b | b != a :: b in c'.campaigns <==> b in c.campaigns)
    && (forall b | b != a && b in c.campaigns :: c'.campaigns[b] == c.campaigns[b])
    && (a in c'.campaigns && Term(c', a) == Term(c, a) ==>
          a in c.campaigns && c.campaigns[a].asked <= c'.campaigns[a].asked)
    && (a in c'.campaigns && a in c.campaigns ==> c.campaigns[a].term == c'.campaigns[a].term)
    && (a in c'.campaigns && a !in c.campaigns ==> c'.campaigns[a].term == Term(c', a) > Term(c, a))
    && (m.role.Candidate? ==>
          && a in c'.campaigns
          && (a in c.campaigns ==>
                && n.role.Candidate? && m.memory.currentTerm == n.memory.currentTerm
                && m.memory.log == n.memory.log
                && c'.campaigns[a].log == c.campaigns[a].log)
          && (a !in c.campaigns ==>
                && c'.campaigns[a].log == m.memory.log
                && BallotFor(c', a, VoteRequestOf(m, a))))
  }

  /** The server that moved still knows its vote, or has opened an election. */
  ghost predicate VoteKept(c: Cluster, a: Addr)
    requires a in c.nodes
  {
    && (c.nodes[a].role.Follower? || Opened(c, a, Term(c, a)))
    && (Opened(c, a, Term(c, a)) ||
        forall k | k in c.ledger.ballots && k.voter == a && k.term == Term(c, a) ::
          c.nodes[a].memory.votedFor == Some(k.candidate))
  }

  lemma ShapeKeepsPast(c: Cluster, c': Cluster, a: Addr)
    requires WellFormed(c) && WellFormed(c') && BallotsInPast(c) && Shape(c, c', a)
    ensures BallotsInPast(c')
  {
  }

  lemma ShapeKeepsRemembered(c: Cluster, c': Cluster, a: Addr)
    requires WellFormed(c) && WellFormed(c') && Shape(c, c', a) && VoteKept(c', a)
    requires BallotsInPast(c) && BallotsInPast(c') && VotesRemembered(c)
    ensures VotesRemembered(c')
  {
  }

  lemma ShapeKeepsOneBallot(c: Cluster, c': Cluster, a: Addr)
    requires WellFormed(c) && WellFormed(c') && Shape(c, c', a) && VoteKept(c', a)
    requires OneBallotUnlessOpened(c)
    ensures OneBallotUnlessOpened(c')
  {
  }

  lemma ShapeKeepsBallots(c: Cluster, c': Cluster, a: Addr)
    requires WellFormed(c) && WellFormed(c') && BallotsOk(c) && Shape(c, c', a) && VoteKept(c', a)
    ensures BallotsOk(c')
  {
    ShapeKeepsPast(c, c', a);
    ShapeKeepsRemembered(c, c', a);
    ShapeKeepsOneBallot(c, c', a);
    assert RunnersOpened(c');
  }

  lemma ShapeKeepsAsksOnce(c: Cluster, c': Cluster, a: Addr)
    requires WellFormed(c) && WellFormed(c') && AsksOnce(c) && Shape(c, c', a)
    ensures AsksOnce(c')
  {
  }

  lemma ShapeKeepsFrozen(c: Cluster, c': Cluster, a: Addr)
    requires WellFormed(c) && WellFormed(c') && CampaignsFrozen(c) && Shape(c, c', a)
    ensures CampaignsFrozen(c')
  {
    forall b | b in c.servers && b != a ensures c'.nodes[b] == c.nodes[b] {}
  }

  lemma ShapeKeepsCurrent(c: Cluster, c': Cluster, a: Addr, campaign: nat, req: VoteRequest)
    requires WellFormed(c) && WellFormed(c') && Shape(c, c', a)
    requires req.candidate in c.servers && Current(c, campaign, req)
    ensures Current(c', campaign, req)
  {
  }

  lemma ShapeKeepsBallotFor(c: Cluster, c': Cluster, a: Addr)
    requires WellFormed(c) && WellFormed(c') && Shape(c, c', a)
    ensures forall x, req :: BallotFor(c, x, req) ==> BallotFor(c', x, req)
  {
  }

  lemma ShapeKeepsWins(c: Cluster, c': Cluster, a: Addr)
    requires WellFormed(c) && WellFormed(c') && WinsOk(c) && Shape(c, c', a)
    ensures forall w | w in c.ledger.wins :: WinOk(c', w)
  {
  }

  // ----- Every step has that shape -----

  lemma OpenMovesCampaign(c: Cluster, a: Addr)
    requires WellFormed(c) && Enabled(c, Open(a)) && WellFormed(DoOpen(c, a))
    ensures CampaignsMove(c, DoOpen(c, a), a)
  {
  }

  lemma OpenAddsBallot(c: Cluster, a: Addr)
    requires WellFormed(c) && BallotsInPast(c) && Enabled(c, Open(a))
    ensures BallotsGrow(c, DoOpen(c, a), a) && Opened(DoOpen(c, a), a, DoOpen(c, a).nodes[a].memory.currentTerm)
  {
  }

  lemma OpenHasShape(c: Cluster, a: Addr)
    requires WellFormed(c) && BallotsInPast(c) && Enabled(c, Open(a))
    ensures WellFormed(DoOpen(c, a)) && Shape(c, DoOpen(c, a), a) && VoteKept(DoOpen(c, a), a)
  {
    hide CampaignsMove, BallotsGrow;
    DoOpenKeepsWellFormed(c, a);
    OpenMovesCampaign(c, a);
    OpenAddsBallot(c, a);
    assert a in c.nodes;
  }

  lemma AskHasShape(c: Cluster, a: Addr, to: Addr)
    requires WellFormed(c) && BallotsOk(c) && CampaignsFrozen(c) && Enabled(c, Ask(a, to))
    ensures WellFormed(DoAsk(c, a, to)) && Shape(c, DoAsk(c, a, to), a) && VoteKept(DoAsk(c, a, to), a)
  {
    DoAskKeepsWellFormed(c, a, to);
  }

  lemma DeliverVoteKeepsVote(c: Cluster, call: VoteCall)
    requires WellFormed(c) && BallotsOk(c) && CallsAsked(c) && Enabled(c, DeliverVote(call))
    ensures WellFormed(DoDeliverVote(c, call)) && VoteKept(DoDeliverVote(c, call), call.to)
  {
    DoDeliverVoteKeepsWellFormed(c, call);
  }

  lemma DeliverVoteHasShape(c: Cluster, call: VoteCall)
    requires WellFormed(c) && CallsAsked(c) && CampaignsFrozen(c) && Enabled(c, DeliverVote(call))
    ensures WellFormed(DoDeliverVote(c, call)) && Shape(c, DoDeliverVote(c, call), call.to)
  {
    DoDeliverVoteKeepsWellFormed(c, call);
  }

  lemma CountVoteHasShape(c: Cluster, ans: VoteAnswer)
    requires WellFormed(c) && BallotsOk(c) && CampaignsFrozen(c) && Enabled(c, CountVote(ans))
    ensures WellFormed(DoCountVote(c, ans))
    ensures Shape(c, DoCountVote(c, ans), ans.req.candidate) && VoteKept(DoCountVote(c, ans), ans.req.candidate)
  {
    StepKeepsWellFormed(c, CountVote(ans));
  }

  lemma FinishMovesCampaign(c: Cluster, a: Addr)
    requires WellFormed(c) && Enabled(c, Finish(a)) && WellFormed(DoFinish(c, a))
    ensures CampaignsMove(c, DoFinish(c, a), a)
  {
  }

  lemma FinishHasShape(c: Cluster, a: Addr)
    requires WellFormed(c) && BallotsOk(c) && CampaignsFrozen(c) && Enabled(c, Finish(a))
    ensures WellFormed(DoFinish(c, a)) && Shape(c, DoFinish(c, a), a) && VoteKept(DoFinish(c, a), a)
  {
    DoFinishKeepsWellFormed(c, a);
    FinishMovesCampaign(c, a);
    hide CampaignsMove;
  }

  lemma CrashMovesCampaign(c: Cluster, a: Addr)
    requires WellFormed(c) && Enabled(c, Crash(a)) && WellFormed(DoCrash(c, a))
    ensures CampaignsMove(c, DoCrash(c, a), a)
  {
  }

  lemma CrashHasShape(c: Cluster, a: Addr)
    requires NodesOk(c) && BallotsOk(c) && CampaignsFrozen(c) && Enabled(c, Crash(a))
    ensures WellFormed(DoCrash(c, a)) && Shape(c, DoCrash(c, a), a) && VoteKept(DoCrash(c, a), a)
  {
    DoCrashKeepsWellFormed(c, a);
    CrashMovesCampaign(c, a);
    assert NodeOk(c.nodes[a], c.servers);
    hide CampaignsMove, TermsWithin, IndicesOk;
  }

  /** Appends, rounds and replies: they touch no election data, and a server at most adopts a term. */
  ghost predicate IsQuiet(step: Step) {
    step.BeginRound? || step.Send? || step.DeliverAppend? || step.CountAppend? || step.EndRound?
  }

  ghost predicate SameElectionData(c: Cluster, c': Cluster) {
    && c'.campaigns == c.campaigns && c'.voteCalls == c.voteCalls && c'.voteAnswers == c.voteAnswers
    && c'.ledger.clock == c.ledger.clock + 1
    && c'.ledger.asks == c.ledger.asks
    && c'.ledger.ballots == c.ledger.ballots
    && c'.ledger.wins == c.ledger.wins
  }

  ghost predicate Quiet(n: NodeState, m: NodeState) {
    && m.memory.currentTerm >= n.memory.currentTerm
    && (m.memory.currentTerm > n.memory.currentTerm ==> m.role.Follower?)
    && (m.memory.currentTerm == n.memory.currentTerm ==>
          && m.memory.votedFor == n.memory.votedFor
          && (m.role.Follower? <==> n.role.Follower?)
          && (m.role.Candidate? ==> n.role.Candidate? && m.memory.log == n.memory.log))
  }

  lemma MovedQuietly(c: Cluster, step: Step)
    requires NodesOk(c) && Enabled(c, step) && IsQuiet(step)
    ensures Quiet(c.nodes[Mover(c, step)], Moved(c, step))
  {
    hide Splice, LogCondition, LogMatches, WellFormed;
  }

  lemma QuietLeavesElectionData(c: Cluster, step: Step)
    requires WellFormed(c) && Enabled(c, step) && IsQuiet(step)
    ensures SameElectionData(c, Apply(c, step))
  {
    hide HandleAppend, HandleAppendReply, FinishRound, FinishElection, LeaderAppend, AppendRequestFor, Restart;
  }

  lemma QuietHasShape(c: Cluster, step: Step)
    requires NodesOk(c) && BallotsOk(c) && CampaignsFrozen(c) && Enabled(c, step) && IsQuiet(step)
    ensures WellFormed(Apply(c, step)) && SameElectionData(c, Apply(c, step))
    ensures Shape(c, Apply(c, step), Mover(c, step)) && VoteKept(Apply(c, step), Mover(c, step))
  {
    MovedQuietly(c, step);
    StepMovesOne(c, step);
    QuietLeavesElectionData(c, step);
    assert Apply(c, step).nodes[Mover(c, step)] == Moved(c, step);
  }

  // ----- Messages and grants -----

  ghost predicate OnlySelfBallots(c: Cluster, c': Cluster) {
    forall k | k in c'.ledger.ballots && k !in c.ledger.ballots :: k.voter == k.candidate
  }

  lemma CallsStay(c: Cluster, c': Cluster, a: Addr)
    requires WellFormed(c) && WellFormed(c') && AsksOk(c) && Shape(c, c', a)
    requires c'.voteCalls <= c.voteCalls && OnlySelfBallots(c, c')
    ensures CallsAsked(c') && BallotsAsked(c')
  {
  }

  lemma AskKeepsCalls(c: Cluster, a: Addr, to: Addr)
    requires WellFormed(c) && AsksOk(c) && Enabled(c, Ask(a, to))
    ensures CallsAsked(DoAsk(c, a, to)) && BallotsAsked(DoAsk(c, a, to))
  {
    var req := VoteRequestOf(c.nodes[a], a);
    assert AskKey(a, to, req.term) !in c.ledger.asks;
  }

  lemma DeliverVoteKeepsCalls(c: Cluster, call: VoteCall)
    requires WellFormed(c) && AsksOk(c) && Enabled(c, DeliverVote(call))
    ensures CallsAsked(DoDeliverVote(c, call)) && BallotsAsked(DoDeliverVote(c, call))
  {
  }

  lemma MessagesStay(c: Cluster, c': Cluster, a: Addr)
    requires WellFormed(c) && WellFormed(c') && MessagesCurrent(c) && Shape(c, c', a)
    ensures forall m | m in c.voteCalls && m in c'.voteCalls ::
      m.to != m.req.candidate && Current(c', m.campaign, m.req)
    ensures forall m | m in c.voteAnswers && m in c'.voteAnswers :: AnswerOk(c', m)
  {
    forall m | m in c.voteCalls && m in c'.voteCalls
      ensures m.to != m.req.candidate && Current(c', m.campaign, m.req)
    {
      ShapeKeepsCurrent(c, c', a, m.campaign, m.req);
    }
    ShapeKeepsBallotFor(c, c', a);
    forall m | m in c.voteAnswers && m in c'.voteAnswers ensures AnswerOk(c', m) {
      ShapeKeepsCurrent(c, c', a, m.campaign, m.req);
    }
  }

  lemma AskKeepsMessages(c: Cluster, a: Addr, to: Addr)
    requires WellFormed(c) && CampaignsOk(c) && Enabled(c, Ask(a, to)) && WellFormed(DoAsk(c, a, to))
    requires Shape(c, DoAsk(c, a, to), a)
    ensures MessagesCurrent(DoAsk(c, a, to))
  {
    var c' := DoAsk(c, a, to);
    MessagesStay(c, c', a);
    assert Current(c', c.campaigns[a].term, VoteRequestOf(c.nodes[a], a));
    assert forall m | m in c'.voteAnswers :: AnswerOk(c', m);
  }

  lemma DeliverVoteKeepsMessages(c: Cluster, call: VoteCall)
    requires WellFormed(c) && CampaignsOk(c) && Enabled(c, DeliverVote(call)) && WellFormed(DoDeliverVote(c, call))
    requires Shape(c, DoDeliverVote(c, call), call.to)
    ensures MessagesCurrent(DoDeliverVote(c, call))
  {
    var c' := DoDeliverVote(c, call);
    MessagesStay(c, c', call.to);
    ShapeKeepsCurrent(c, c', call.to, call.campaign, call.req);
    var ans := VoteAnswer(call.campaign, call.to, call.req, HandleVote(c.nodes[call.to], call.req).1.granted);
    assert AnswerOk(c', ans);
    assert forall m | m in c'.voteAnswers :: m == ans || AnswerOk(c', m);
  }

  lemma GrantsStay(c: Cluster, c': Cluster, a: Addr)
    requires WellFormed(c) && WellFormed(c') && GrantsCurrent(c) && Shape(c, c', a)
    ensures forall b, x | b in c.campaigns && b in c'.campaigns
      && x in c.campaigns[b].grants && x in c'.campaigns[b].grants
      && c'.campaigns[b].grants[x] == c.campaigns[b].grants[x] :: GrantOk(c', b, x)
  {
    ShapeKeepsBallotFor(c, c', a);
    forall b, x | b in c.campaigns && b in c'.campaigns && x in c.campaigns[b].grants && x in c'.campaigns[b].grants
      && c'.campaigns[b].grants[x] == c.campaigns[b].grants[x]
      ensures GrantOk(c', b, x)
    {
      assert GrantOk(c, b, x);
      ShapeKeepsCurrent(c, c', a, c.campaigns[b].term, c.campaigns[b].grants[x]);
    }
  }

  lemma CountVoteKeepsGrants(c: Cluster, ans: VoteAnswer)
    requires WellFormed(c) && CampaignsOk(c) && Enabled(c, CountVote(ans)) && WellFormed(DoCountVote(c, ans))
    requires Shape(c, DoCountVote(c, ans), ans.req.candidate)
    ensures GrantsCurrent(DoCountVote(c, ans))
  {
    var c', a := DoCountVote(c, ans), ans.req.candidate;
    GrantsStay(c, c', a);
    ShapeKeepsBallotFor(c, c', a);
    ShapeKeepsCurrent(c, c', a, ans.campaign, ans.req);
    assert ans.granted ==> GrantOk(c', a, ans.voter);
  }

  lemma FinishKeepsWins(c: Cluster, a: Addr)
    requires WellFormed(c) && CampaignsOk(c) && WinsOk(c) && Enabled(c, Finish(a)) && WellFormed(DoFinish(c, a))
    requires Shape(c, DoFinish(c, a), a)
    ensures WinsOk(DoFinish(c, a))
  {
    hide Shape, WinOk, CampaignsOk;
    ShapeKeepsWins(c, DoFinish(c, a), a);
    if c.nodes[a].role.Candidate? && Majority(|c.campaigns[a].grants| + 1, |c.servers|) {
      CandidateWins(c, a);
    }
  }

  lemma CandidateWins(c: Cluster, a: Addr)
    requires WellFormed(c) && CampaignsOk(c) && Enabled(c, Finish(a)) && c.nodes[a].role.Candidate?
    requires Majority(|c.campaigns[a].grants| + 1, |c.servers|)
    ensures WinOk(DoFinish(c, a), Win(a, Term(c, a), c.nodes[a].memory.log, c.campaigns[a].grants.Keys + {a}))
  {
    var k := c.campaigns[a];
    assert a !in k.grants.Keys;
    assert |k.grants.Keys + {a}| == |k.grants| + 1;
  }
}
