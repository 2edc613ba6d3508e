/** The election invariants over whole runs, and the theorems they carry. */
module RaftElectionRuns {
  import opened Common
  import opened Raft
  import opened RaftCluster
  import opened RaftNodes
  import opened RaftElections

  // ----- Every step keeps the invariants -----

  /** Steps that send no vote request, answer none, and win nothing. */
  lemma ShapeKeepsElectionsOk(c: Cluster, c': Cluster, a: Addr)
    requires ElectionsOk(c) && NodesOk(c') && Shape(c, c', a) && VoteKept(c', a)
    requires c'.voteCalls <= c.voteCalls && c'.voteAnswers <= c.voteAnswers && OnlySelfBallots(c, c')
    requires c'.ledger.wins <= c.ledger.wins
    requires GrantsCurrent(c')
    ensures ElectionsOk(c')
  {
    ShapeKeepsBallots(c, c', a);
    ShapeKeepsAsksOnce(c, c', a);
    CallsStay(c, c', a);
    ShapeKeepsFrozen(c, c', a);
    MessagesStay(c, c', a);
    ShapeKeepsWins(c, c', a);
  }

  lemma OpenKeepsElectionsOk(c: Cluster, a: Addr)
    requires ElectionsOk(c) && Enabled(c, Open(a))
    ensures ElectionsOk(DoOpen(c, a))
  {
    hide Shape, VoteKept, BallotsInPast, CallsAsked, BallotsAsked, AsksOnce, VotesRemembered, OneBallotUnlessOpened,
      RunnersOpened, CampaignsFrozen, MessagesCurrent, WinsOk, NodeOk, WellFormed;
    var c' := DoOpen(c, a);
    StepKeepsNodesOk(c, Open(a));
    OpenHasShape(c, a);
    GrantsStay(c, c', a);
    ShapeKeepsElectionsOk(c, c', a);
  }

  lemma AskKeepsElectionsOk(c: Cluster, a: Addr, to: Addr)
    requires ElectionsOk(c) && Enabled(c, Ask(a, to))
    ensures ElectionsOk(DoAsk(c, a, to))
  {
    hide Shape, VoteKept, BallotsInPast, CallsAsked, BallotsAsked, AsksOnce, VotesRemembered, OneBallotUnlessOpened,
      RunnersOpened, CampaignsFrozen, MessagesCurrent, NodeOk, WellFormed;
    var c' := DoAsk(c, a, to);
    StepKeepsNodesOk(c, Ask(a, to));
    AskHasShape(c, a, to);
    ShapeKeepsBallots(c, c', a);
    ShapeKeepsAsksOnce(c, c', a);
    AskKeepsCalls(c, a, to);
    ShapeKeepsFrozen(c, c', a);
    AskKeepsMessages(c, a, to);
    GrantsStay(c, c', a);
    ShapeKeepsWins(c, c', a);
  }

  lemma DeliverVoteKeepsElectionsOk(c: Cluster, call: VoteCall)
    requires ElectionsOk(c) && Enabled(c, DeliverVote(call))
    ensures ElectionsOk(DoDeliverVote(c, call))
  {
    hide Shape, VoteKept, BallotsInPast, CallsAsked, BallotsAsked, AsksOnce, VotesRemembered, OneBallotUnlessOpened,
      RunnersOpened, CampaignsFrozen, MessagesCurrent, NodeOk, WellFormed;
    var c', a := DoDeliverVote(c, call), call.to;
    StepKeepsNodesOk(c, DeliverVote(call));
    DeliverVoteHasShape(c, call);
    DeliverVoteKeepsVote(c, call);
    ShapeKeepsBallots(c, c', a);
    ShapeKeepsAsksOnce(c, c', a);
    DeliverVoteKeepsCalls(c, call);
    ShapeKeepsFrozen(c, c', a);
    DeliverVoteKeepsMessages(c, call);
    GrantsStay(c, c', a);
    ShapeKeepsWins(c, c', a);
  }

  lemma CountVoteKeepsElectionsOk(c: Cluster, ans: VoteAnswer)
    requires ElectionsOk(c) && Enabled(c, CountVote(ans))
    ensures ElectionsOk(DoCountVote(c, ans))
  {
    hide Shape, VoteKept, BallotsInPast, CallsAsked, BallotsAsked, AsksOnce, VotesRemembered, OneBallotUnlessOpened,
      RunnersOpened, CampaignsFrozen, MessagesCurrent, WinsOk, NodeOk, WellFormed;
    StepKeepsNodesOk(c, CountVote(ans));
    CountVoteHasShape(c, ans);
    CountVoteKeepsGrants(c, ans);
    ShapeKeepsElectionsOk(c, DoCountVote(c, ans), ans.req.candidate);
  }

  lemma FinishKeepsElectionsOk(c: Cluster, a: Addr)
    requires ElectionsOk(c) && Enabled(c, Finish(a))
    ensures ElectionsOk(DoFinish(c, a))
  {
    hide Shape, VoteKept, BallotsInPast, CallsAsked, BallotsAsked, AsksOnce, VotesRemembered, OneBallotUnlessOpened,
      RunnersOpened, CampaignsFrozen, WinsOk, NodeOk, WellFormed;
    var c' := DoFinish(c, a);
    StepKeepsNodesOk(c, Finish(a));
    FinishHasShape(c, a);
    ShapeKeepsBallots(c, c', a);
    ShapeKeepsAsksOnce(c, c', a);
    CallsStay(c, c', a);
    ShapeKeepsFrozen(c, c', a);
    MessagesStay(c, c', a);
    GrantsStay(c, c', a);
    FinishKeepsWins(c, a);
  }

  lemma CrashKeepsElectionsOk(c: Cluster, a: Addr)
    requires ElectionsOk(c) && Enabled(c, Crash(a))
    ensures ElectionsOk(DoCrash(c, a))
  {
    hide Shape, VoteKept, BallotsInPast, CallsAsked, BallotsAsked, AsksOnce, VotesRemembered, OneBallotUnlessOpened,
      RunnersOpened, CampaignsFrozen, MessagesCurrent, WinsOk, NodeOk, WellFormed;
    StepKeepsNodesOk(c, Crash(a));
    CrashHasShape(c, a);
    GrantsStay(c, DoCrash(c, a), a);
    ShapeKeepsElectionsOk(c, DoCrash(c, a), a);
  }

  lemma QuietKeepsElectionsOk(c: Cluster, step: Step)
    requires ElectionsOk(c) && Enabled(c, step) && IsQuiet(step)
    ensures ElectionsOk(Apply(c, step))
  {
    hide Shape, VoteKept, BallotsInPast, CallsAsked, BallotsAsked, AsksOnce, VotesRemembered, OneBallotUnlessOpened,
      RunnersOpened, CampaignsFrozen, MessagesCurrent, WinsOk, NodeOk, WellFormed;
    var c', a := Apply(c, step), Mover(c, step);
    StepKeepsNodesOk(c, step);
    QuietHasShape(c, step);
    GrantsStay(c, c', a);
    ShapeKeepsElectionsOk(c, c', a);
  }

  lemma StepKeepsElectionsOk(c: Cluster, step: Step)
    requires ElectionsOk(c) && Enabled(c, step)
    ensures ElectionsOk(Apply(c, step))
  {
    hide ElectionsOk, WellFormed;
    match step
    case Open(a) => OpenKeepsElectionsOk(c, a);
    case Ask(a, to) => AskKeepsElectionsOk(c, a, to);
    case DeliverVote(call) => DeliverVoteKeepsElectionsOk(c, call);
    case CountVote(ans) => CountVoteKeepsElectionsOk(c, ans);
    case Finish(a) => FinishKeepsElectionsOk(c, a);
    case Crash(a) => CrashKeepsElectionsOk(c, a);
    case _ => QuietKeepsElectionsOk(c, step);
  }

  lemma {:induction false} ElectionsAlwaysOk(c: Cluster, steps: seq<Step>)
    requires ElectionsOk(c) && Legal(c, steps)
    ensures ElectionsOk(Run(c, steps))
    decreases |steps|
  {
    if steps != [] {
      StepKeepsElectionsOk(c, steps[0]);
      ElectionsAlwaysOk(Apply(c, steps[0]), steps[1..]);
    }
  }

  lemma InitElectionsOk(servers: set<Addr>)
    ensures ElectionsOk(Init(servers))
  {
  }

  lemma ElectionsGiveNodes(c: Cluster)
    requires ElectionsOk(c)
    ensures WellFormed(c) && NodesOk(c) && BallotsInPast(c)
  {
  }

  /** A cluster some run from the start ends in. */
  ghost predicate Reachable(c: Cluster) {
    exists servers, steps :: ReachedBy(c, servers, steps)
  }

  ghost predicate ReachedBy(c: Cluster, servers: set<Addr>, steps: seq<Step>) {
    WellFormed(Init(servers)) && Legal(Init(servers), steps) && c == Run(Init(servers), steps)
  }

  lemma ReachableIsOk(c: Cluster)
    requires Reachable(c)
    ensures ElectionsOk(c)
  {
    var servers, steps :| ReachedBy(c, servers, steps);
    InitElectionsOk(servers);
    ElectionsAlwaysOk(Init(servers), steps);
  }

  // ----- One ballot per term -----

  /** No server voted for two candidates in a term; its own candidacy is a vote. */
  ghost predicate OneBallotPerTerm(c: Cluster) {
    forall k, l | k in c.ledger.ballots && l in c.ledger.ballots && k.voter == l.voter && k.term == l.term ::
      k.candidate == l.candidate
  }

  /** No server voted for another in a term in which it opened its own election. */
  ghost predicate OpenersVoteForThemselves(c: Cluster) {
    forall k | k in c.ledger.ballots && Opened(c, k.voter, k.term) :: k.candidate == k.voter
  }

  /** The vote bookkeeping keeps one ballot per server and term exactly when openers refuse. */
  lemma OneBallotIff(c: Cluster)
    requires Reachable(c)
    ensures OneBallotPerTerm(c) <==> OpenersVoteForThemselves(c)
  {
    ReachableIsOk(c);
    if OpenersVoteForThemselves(c) {
      forall k, l | k in c.ledger.ballots && l in c.ledger.ballots && k.voter == l.voter && k.term == l.term
        ensures k.candidate == l.candidate
      {
        if !Opened(c, k.voter, k.term) {
          assert OneBallotUnlessOpened(c);
        }
      }
    }
  }

  /** Delivering one vote request breaks the rule exactly when the receiver says yes although it has
      opened an election in the request's term. */
  lemma DeliveryKeepsOneBallotIff(c: Cluster, call: VoteCall)
    requires ElectionsOk(c) && OneBallotPerTerm(c) && Enabled(c, DeliverVote(call))
    ensures OneBallotPerTerm(DoDeliverVote(c, call))
       <==> !(GrantsVote(c.nodes[call.to], call.req) && Opened(c, call.to, call.req.term))
  {
    hide NodeOk, TermsWithin, GrantsCurrent, CampaignsFrozen, WinsOk, VotesRemembered, RunnersOpened, AsksOnce;
    var c' := DoDeliverVote(c, call);
    var cast := BallotKey(call.to, call.req.candidate, call.req.term);
    var own := BallotKey(call.to, call.to, call.req.term);
    assert call.req.candidate != call.to;
    if GrantsVote(c.nodes[call.to], call.req) && Opened(c, call.to, call.req.term) {
      assert cast in c'.ledger.ballots && own in c'.ledger.ballots;
    } else {
      DeliverVoteKeepsElectionsOk(c, call);
      assert OneBallotUnlessOpened(c');
      forall k, l | k in c'.ledger.ballots && l in c'.ledger.ballots && k.voter == l.voter && k.term == l.term
        ensures k.candidate == l.candidate
      {
        if k in c.ledger.ballots && l in c.ledger.ballots {
        } else {
          assert k.voter == call.to && k.term == call.req.term;
          assert own !in c'.ledger.ballots;
        }
      }
    }
  }

  // Over whole runs: the rule holds at the end exactly when every delivery kept to it.

  lemma OtherStepsKeepBallots(c: Cluster, step: Step)
    requires WellFormed(c) && Enabled(c, step) && !step.Open? && !step.DeliverVote?
    ensures Apply(c, step).ledger.ballots == c.ledger.ballots
  {
    hide WellFormed, HandleAppend, HandleAppendReply, FinishRound, FinishElection, LeaderAppend, AppendRequestFor,
      Acknowledge, Restart;
  }

  lemma BallotsGrowOnly(c: Cluster, step: Step)
    requires WellFormed(c) && Enabled(c, step)
    ensures c.ledger.ballots.Keys <= Apply(c, step).ledger.ballots.Keys
  {
    hide WellFormed, HandleVote;
    if !step.Open? && !step.DeliverVote? {
      OtherStepsKeepBallots(c, step);
      hide Apply;
    }
  }

  lemma OpenKeepsOneBallot(c: Cluster, a: Addr)
    requires ElectionsOk(c) && OneBallotPerTerm(c) && Enabled(c, Open(a))
    ensures OneBallotPerTerm(DoOpen(c, a))
  {
    hide NodeOk, TermsWithin, CampaignsFrozen, WinsOk, MessagesCurrent, AsksOk, GrantsCurrent;
    assert BallotsInPast(c);
  }

  /** The step is no vote for another by a server that has opened an election in that term. */
  ghost predicate Honest(c: Cluster, step: Step)
    requires WellFormed(c) && Enabled(c, step)
  {
    step.DeliverVote? ==>
      var call := step.voteCall;
      !(GrantsVote(c.nodes[call.to], call.req) && Opened(c, call.to, call.req.term))
  }

  ghost predicate HonestRun(c: Cluster, steps: seq<Step>)
    requires WellFormed(c) && Legal(c, steps)
    decreases |steps|
  {
    steps == [] ||
    (Honest(c, steps[0]) && (StepKeepsWellFormed(c, steps[0]); HonestRun(Apply(c, steps[0]), steps[1..])))
  }

  lemma FewerBallots(c: Cluster, c': Cluster)
    requires c.ledger.ballots.Keys <= c'.ledger.ballots.Keys && OneBallotPerTerm(c')
    ensures OneBallotPerTerm(c)
  {
  }

  lemma OtherStepsKeepOneBallot(c: Cluster, step: Step)
    requires ElectionsOk(c) && OneBallotPerTerm(c) && Enabled(c, step) && !step.DeliverVote?
    ensures OneBallotPerTerm(Apply(c, step))
  {
    hide ElectionsOk, OneBallotPerTerm, DoOpen;
    ElectionsGiveNodes(c);
    if step.Open? {
      OpenKeepsOneBallot(c, step.server);
    } else {
      OtherStepsKeepBallots(c, step);
      FewerBallots(Apply(c, step), c);
      hide Apply;
    }
  }

  lemma StepKeepsOneBallotIff(c: Cluster, step: Step)
    requires ElectionsOk(c) && Enabled(c, step)
    ensures OneBallotPerTerm(Apply(c, step)) <==> OneBallotPerTerm(c) && Honest(c, step)
  {
    hide ElectionsOk, WellFormed, Opened, GrantsVote, OneBallotPerTerm, DoDeliverVote;
    ElectionsGiveNodes(c);
    BallotsGrowOnly(c, step);
    if !OneBallotPerTerm(c) {
      if OneBallotPerTerm(Apply(c, step)) {
        FewerBallots(c, Apply(c, step));
      }
      hide Apply;
    } else if step.DeliverVote? {
      DeliveryKeepsOneBallotIff(c, step.voteCall);
    } else {
      OtherStepsKeepOneBallot(c, step);
      hide Apply;
    }
  }

  lemma {:induction false} RunKeepsOneBallotIff(c: Cluster, steps: seq<Step>)
    requires ElectionsOk(c) && Legal(c, steps)
    ensures OneBallotPerTerm(Run(c, steps)) <==> OneBallotPerTerm(c) && HonestRun(c, steps)
    decreases |steps|
  {
    hide ElectionsOk, WellFormed, OneBallotPerTerm, Honest, Apply, Enabled;
    ElectionsGiveNodes(c);
    if steps != [] {
      StepKeepsElectionsOk(c, steps[0]);
      ElectionsGiveNodes(Apply(c, steps[0]));
      StepKeepsOneBallotIff(c, steps[0]);
      RunKeepsOneBallotIff(Apply(c, steps[0]), steps[1..]);
    }
  }

  // ----- Election safety -----

  lemma QuorumsMeet(servers: set<Addr>, q: set<Addr>, r: set<Addr>)
    requires q <= servers && r <= servers
    requires Majority(|q|, |servers|) && Majority(|r|, |servers|)
    ensures exists x :: x in q && x in r
  {
    if q * r == {} {
      assert |q + r| == |q| + |r|;
      SubsetIsSmaller(q + r, servers);
      assert false;
    }
    var x :| x in q * r;
    assert x in q && x in r;
  }

  lemma {:induction false} SubsetIsSmaller(a: set<Addr>, b: set<Addr>)
    requires a <= b
    ensures |a| <= |b|
  {
    assert b == a + (b - a);
    assert |b| == |a| + |b - a|;
  }

  /** Conditional election safety: as long as no server voted twice in a term, no two servers ever won
      the same term. */
  lemma ElectionSafety(c: Cluster, v: Win, w: Win)
    requires Reachable(c) && OneBallotPerTerm(c)
    requires v in c.ledger.wins && w in c.ledger.wins && v.term == w.term
    ensures v.leader == w.leader
  {
    ReachableIsOk(c);
    assert WinOk(c, v) && WinOk(c, w);
    QuorumsMeet(c.servers, v.quorum, w.quorum);
    var x :| x in v.quorum && x in w.quorum;
    assert BallotKey(x, v.leader, v.term) in c.ledger.ballots;
    assert BallotKey(x, w.leader, w.term) in c.ledger.ballots;
  }

  /** Election safety of honest runs: in every run, crashes and restarts included, in which no server
      votes for another in a term it ran in itself, no two servers ever won the same term. */
  lemma HonestRunsElectOnce(servers: set<Addr>, steps: seq<Step>, c: Cluster, v: Win, w: Win)
    requires ReachedBy(c, servers, steps) && HonestRun(Init(servers), steps)
    requires v in c.ledger.wins && w in c.ledger.wins && v.term == w.term
    ensures v.leader == w.leader
  {
    InitElectionsOk(servers);
    RunKeepsOneBallotIff(Init(servers), steps);
    ElectionSafety(c, v, w);
  }

  // Leaders are winners.

  ghost predicate Won(c: Cluster, a: Addr, term: nat) {
    exists w :: w in c.ledger.wins && w.leader == a && w.term == term
  }

  ghost predicate LeadersWon(c: Cluster)
    requires WellFormed(c)
  {
    forall a | a in c.servers && c.nodes[a].role.Leader? :: Won(c, a, Term(c, a))
  }

  lemma MovedLeader(c: Cluster, step: Step)
    requires NodesOk(c) && Enabled(c, step) && Moved(c, step).role.Leader?
    ensures var n, m := c.nodes[Mover(c, step)], Moved(c, step);
      || (n.role.Leader? && m.memory.currentTerm == n.memory.currentTerm)
      || (step.Finish? && n.role.Candidate?)
  {
    hide HandleVote, HandleAppend;
    var n := c.nodes[Mover(c, step)];
    if n.role.Leader? {
      MovedLeaderGrows(c, step);
    } else if step.DeliverVote? {
      ReceivingElectsNobody(n, step.voteCall.req, AppendRequest(0, 0, 0, [], 0));
    } else if step.DeliverAppend? {
      ReceivingElectsNobody(n, VoteRequest(0, 0, 0, 0), step.appendCall.req);
    }
  }

  lemma ReceivingElectsNobody(n: NodeState, vote: VoteRequest, append: AppendRequest)
    requires !n.role.Leader?
    ensures !HandleVote(n, vote).0.role.Leader? && !HandleAppend(n, append).0.role.Leader?
  {
  }

  lemma WinsGrow(c: Cluster, step: Step)
    requires WellFormed(c) && Enabled(c, step)
    ensures c.ledger.wins <= Apply(c, step).ledger.wins
  {
    hide HandleAppend, HandleVote, HandleAppendReply, FinishRound, FinishElection, LeaderAppend, AppendRequestFor,
      Acknowledge, Restart, OpenElection;
  }

  lemma FinishRecordsWin(c: Cluster, a: Addr)
    requires WellFormed(c) && Enabled(c, Finish(a))
    requires c.nodes[a].role.Candidate? && Moved(c, Finish(a)).role.Leader?
    ensures Won(DoFinish(c, a), a, Term(c, a)) && Moved(c, Finish(a)).memory.currentTerm == Term(c, a)
  {
  }

  lemma StepKeepsLeadersWon(c: Cluster, step: Step)
    requires NodesOk(c) && LeadersWon(c) && Enabled(c, step)
    ensures WellFormed(Apply(c, step)) && LeadersWon(Apply(c, step))
  {
    hide NodeOk, TermsWithin, Moved;
    var c', b := Apply(c, step), Mover(c, step);
    StepMovesOne(c, step);
    WinsGrow(c, step);
    forall a | a in c'.servers && c'.nodes[a].role.Leader?
      ensures Won(c', a, Term(c', a))
    {
      if a != b {
        assert c'.nodes[a] == c.nodes[a];
        assert Won(c, a, Term(c, a));
      } else {
        MovedLeader(c, step);
        if c.nodes[a].role.Leader? {
          assert Won(c, a, Term(c, a));
        } else {
          FinishRecordsWin(c, a);
        }
      }
    }
  }

  lemma {:induction false} LeadersAlwaysWon(c: Cluster, steps: seq<Step>)
    requires NodesOk(c) && LeadersWon(c) && Legal(c, steps)
    ensures LeadersWon(Run(c, steps))
    decreases |steps|
  {
    if steps != [] {
      StepKeepsNodesOk(c, steps[0]);
      StepKeepsLeadersWon(c, steps[0]);
      LeadersAlwaysWon(Apply(c, steps[0]), steps[1..]);
    }
  }

  /** So in an honest run no two servers are leaders of one term. */
  lemma OneLeaderPerTerm(servers: set<Addr>, steps: seq<Step>, c: Cluster, a: Addr, b: Addr)
    requires ReachedBy(c, servers, steps) && HonestRun(Init(servers), steps)
    requires WellFormed(c) && a in c.servers && b in c.servers
    requires c.nodes[a].role.Leader? && c.nodes[b].role.Leader? && Term(c, a) == Term(c, b)
    ensures a == b
  {
    InitNodesOk(servers);
    LeadersAlwaysWon(Init(servers), steps);
    var v :| v in c.ledger.wins && v.leader == a && v.term == Term(c, a);
    var w :| w in c.ledger.wins && w.leader == b && w.term == Term(c, b);
    HonestRunsElectOnce(servers, steps, c, v, w);
  }

  // ----- The frozen campaign -----

  /** Between the opening of an election and its end, a server that is still a candidate has the term
      and the log it campaigned with, whatever was delivered to it and whatever it did. */
  lemma {:induction false} CampaignStandsStill(c: Cluster, steps: seq<Step>, a: Addr)
    requires ElectionsOk(c) && Legal(c, steps) && a in c.campaigns
    requires Finish(a) !in steps && Crash(a) !in steps
    ensures a in Run(c, steps).nodes && a in Run(c, steps).campaigns
    ensures Run(c, steps).nodes[a].role.Candidate? ==>
      && c.nodes[a].role.Candidate?
      && Run(c, steps).nodes[a].memory.currentTerm == c.nodes[a].memory.currentTerm
      && Run(c, steps).nodes[a].memory.log == c.nodes[a].memory.log
    decreases |steps|
  {
    if steps != [] {
      var c' := Apply(c, steps[0]);
      StepKeepsElectionsOk(c, steps[0]);
      assert steps[0] in steps;
      StepFreezes(c, steps[0], a);
      assert forall s | s in steps[1..] :: s in steps;
      CampaignStandsStill(c', steps[1..], a);
    }
  }

  lemma StepHasShape(c: Cluster, step: Step)
    requires ElectionsOk(c) && Enabled(c, step)
    ensures WellFormed(Apply(c, step)) && Shape(c, Apply(c, step), Mover(c, step))
  {
    hide WellFormed, Shape, DoOpen, DoAsk, DoDeliverVote, DoCountVote, DoFinish, DoCrash;
    match step
    case Open(a) => OpenHasShape(c, a);
    case Ask(a, to) => AskHasShape(c, a, to);
    case DeliverVote(call) => DeliverVoteHasShape(c, call);
    case CountVote(ans) => CountVoteHasShape(c, ans);
    case Finish(a) => FinishHasShape(c, a);
    case Crash(a) => CrashHasShape(c, a);
    case _ => QuietHasShape(c, step);
  }

  lemma CampaignLives(c: Cluster, step: Step, a: Addr)
    requires WellFormed(c) && Enabled(c, step) && a in c.campaigns && step != Finish(a) && step != Crash(a)
    ensures a in Apply(c, step).campaigns
  {
    hide HandleAppend, HandleVote, HandleAppendReply, FinishRound, FinishElection, LeaderAppend, AppendRequestFor,
      Acknowledge, Restart, OpenElection;
  }

  lemma StepFreezes(c: Cluster, step: Step, a: Addr)
    requires ElectionsOk(c) && Enabled(c, step) && a in c.campaigns && step != Finish(a) && step != Crash(a)
    ensures var c' := Apply(c, step);
      && a in c'.campaigns && a in c'.nodes
      && (c'.nodes[a].role.Candidate? ==>
            && c.nodes[a].role.Candidate?
            && c'.nodes[a].memory.currentTerm == c.nodes[a].memory.currentTerm
            && c'.nodes[a].memory.log == c.nodes[a].memory.log)
  {
    hide BallotsGrow, Apply, Enabled;
    StepHasShape(c, step);
    CampaignLives(c, step, a);
  }

  /** Every vote a candidate has counted answered a request with its present term and log end. */
  lemma CountedVotesAreCurrent(c: Cluster, a: Addr, x: Addr)
    requires Reachable(c) && a in c.nodes && c.nodes[a].role.Candidate?
    ensures a in c.campaigns
    ensures x in c.campaigns[a].grants ==>
      |c.nodes[a].memory.log| > 0 && c.campaigns[a].grants[x] == VoteRequestOf(c.nodes[a], a)
  {
    ReachableIsOk(c);
    assert x in c.campaigns[a].grants ==> GrantOk(c, a, x);
  }

  // ----- Two leaders in one term -----

  /** `c` leads to `c'` in some run. */
  ghost predicate LeadsTo(c: Cluster, c': Cluster)
    requires WellFormed(c)
  {
    exists steps :: Legal(c, steps) && Run(c, steps) == c'
  }

  lemma LeadsToStep(c: Cluster, c': Cluster, step: Step)
    requires WellFormed(c) && LeadsTo(c, c') && WellFormed(c') && Enabled(c', step)
    ensures LeadsTo(c, Apply(c', step))
  {
    hide WellFormed, Enabled, Apply;
    var steps :| Legal(c, steps) && Run(c, steps) == c';
    OneStep(c', step);
    RunsCompose(c, steps, [step]);
    assert Legal(c, steps + [step]);
  }

  /** A server about to open an election in term 1 with nothing asked yet. */
  ghost predicate FreshCandidate(c: Cluster, a: Addr)
    requires WellFormed(c) && a in c.servers
  {
    && c.nodes[a].role.Candidate?
    && c.nodes[a].memory == Persistent(1, None, [INIT_ENTRY])
    && a in c.campaigns && c.campaigns[a] == Campaign(1, [INIT_ENTRY], {}, {}, map[])
  }

  /** In a cluster of three, one vote is enough for such a candidate. */
  lemma OneVoteWins(start: Cluster, c: Cluster, a: Addr, x: Addr, y: Addr) returns (c': Cluster)
    requires WellFormed(start) && LeadsTo(start, c) && WellFormed(c)
    requires |c.servers| == 3 && c.servers == {a, x, y} && x != a && y != a && x != y
    requires FreshCandidate(c, a)
    requires GrantsVote(c.nodes[x], VoteRequest(1, a, 0, 0))
    ensures LeadsTo(start, c') && WellFormed(c') && c'.servers == c.servers
    ensures Won(c', a, 1) && c.ledger.wins <= c'.ledger.wins
    ensures c'.nodes.Keys == c.nodes.Keys && c'.nodes[a].memory == c.nodes[a].memory
    ensures forall b | b in c.servers && b != a && b != x :: c'.nodes[b] == c.nodes[b]
    ensures c'.campaigns == c.campaigns - {a} && c'.rounds == c.rounds && c'.nextRound == c.nextRound
    ensures c'.nodes[x] == HandleVote(c.nodes[x], VoteRequest(1, a, 0, 0)).0
    ensures c'.nodes[a] == FinishElection(c.nodes[a], c.servers, 2)
  {
    hide WellFormed, GrantsVote, LeadsTo, Apply, Enabled, Won, HandleVote, FinishElection, FreshCandidate;
    var c1 := BothAsked(start, c, a, x, y);
    var c2 := Answered(c1, a, x);
    LeadsToStep(start, c1, DeliverVote(VoteCall(1, x, VoteRequest(1, a, 0, 0))));
    var c3 := Counted(c2, a, x, {y, x});
    LeadsToStep(start, c2, CountVote(VoteAnswer(1, x, VoteRequest(1, a, 0, 0), true)));
    assert c3.servers - {a} == {y, x};
    c' := Finished(c3, a, x);
    LeadsToStep(start, c3, Finish(a));
  }

  lemma BothAsked(start: Cluster, c: Cluster, a: Addr, x: Addr, y: Addr) returns (c': Cluster)
    requires WellFormed(start) && LeadsTo(start, c) && WellFormed(c)
    requires c.servers == {a, x, y} && x != a && y != a && x != y && FreshCandidate(c, a)
    ensures LeadsTo(start, c') && WellFormed(c') && c'.servers == c.servers && c'.nodes == c.nodes
    ensures c'.nodes.Keys == c.servers && c'.nodes[a].role.Candidate? && Asking(c', a, {y, x})
    ensures c'.ledger.wins == c.ledger.wins && c'.rounds == c.rounds && c'.nextRound == c.nextRound
    ensures VoteCall(1, x, VoteRequest(1, a, 0, 0)) in c'.voteCalls && c'.campaigns - {a} == c.campaigns - {a}
  {
    assert Asking(c, a, {}) && c.nodes.Keys == c.servers && c.nodes[a].role.Candidate?;
    hide WellFormed, LeadsTo, Apply, Enabled, FreshCandidate;
    var c0 := Asked(c, a, y, {});
    LeadsToStep(start, c, Ask(a, y));
    c' := Asked(c0, a, x, {} + {y});
    LeadsToStep(start, c0, Ask(a, x));
    assert {} + {y} + {x} == {y, x};
  }

  /** A candidate of term 1 that has asked these servers and heard from none. */
  ghost predicate Asking(c: Cluster, a: Addr, asked: set<Addr>) {
    && a in c.nodes && c.nodes[a].memory == Persistent(1, None, [INIT_ENTRY])
    && a in c.campaigns && c.campaigns[a] == Campaign(1, [INIT_ENTRY], asked, {}, map[])
  }

  lemma Asked(c: Cluster, a: Addr, x: Addr, asked: set<Addr>) returns (c': Cluster)
    requires WellFormed(c) && a in c.servers && x in c.servers && x != a && Asking(c, a, asked) && x !in asked
    ensures Enabled(c, Ask(a, x)) && c' == Apply(c, Ask(a, x)) && WellFormed(c')
    ensures c'.servers == c.servers && c'.nodes == c.nodes && c'.ledger.wins == c.ledger.wins
    ensures c'.rounds == c.rounds && c'.nextRound == c.nextRound
    ensures c'.voteCalls == c.voteCalls + {VoteCall(1, x, VoteRequest(1, a, 0, 0))}
    ensures Asking(c', a, asked + {x})
    ensures c'.campaigns == c.campaigns[a := Campaign(1, [INIT_ENTRY], asked + {x}, {}, map[])]
  {
    DoAskKeepsWellFormed(c, a, x);
    c' := DoAsk(c, a, x);
  }

  lemma Answered(c: Cluster, a: Addr, x: Addr) returns (c': Cluster)
    requires WellFormed(c) && VoteCall(1, x, VoteRequest(1, a, 0, 0)) in c.voteCalls && x != a
    requires x in c.nodes && GrantsVote(c.nodes[x], VoteRequest(1, a, 0, 0))
    ensures var step := DeliverVote(VoteCall(1, x, VoteRequest(1, a, 0, 0)));
      Enabled(c, step) && c' == Apply(c, step) && WellFormed(c')
    ensures c'.servers == c.servers && c'.campaigns == c.campaigns && c'.ledger.wins == c.ledger.wins
    ensures c'.rounds == c.rounds && c'.nextRound == c.nextRound
    ensures VoteAnswer(1, x, VoteRequest(1, a, 0, 0), true) in c'.voteAnswers
    ensures c'.nodes.Keys == c.nodes.Keys && forall b | b in c.nodes && b != x :: c'.nodes[b] == c.nodes[b]
    ensures c'.nodes[x] == HandleVote(c.nodes[x], VoteRequest(1, a, 0, 0)).0
  {
    c' := DoDeliverVote(c, VoteCall(1, x, VoteRequest(1, a, 0, 0)));
    DoDeliverVoteKeepsWellFormed(c, VoteCall(1, x, VoteRequest(1, a, 0, 0)));
  }

  lemma Counted(c: Cluster, a: Addr, x: Addr, asked: set<Addr>) returns (c': Cluster)
    requires WellFormed(c) && VoteAnswer(1, x, VoteRequest(1, a, 0, 0), true) in c.voteAnswers
    requires a in c.campaigns && c.campaigns[a] == Campaign(1, [INIT_ENTRY], asked, {}, map[])
    ensures var step := CountVote(VoteAnswer(1, x, VoteRequest(1, a, 0, 0), true));
      Enabled(c, step) && c' == Apply(c, step) && WellFormed(c')
    ensures c'.servers == c.servers && c'.nodes == c.nodes && c'.ledger.wins == c.ledger.wins
    ensures c'.rounds == c.rounds && c'.nextRound == c.nextRound
    ensures a in c'.campaigns && c'.campaigns[a].grants == map[x := VoteRequest(1, a, 0, 0)]
    ensures c'.campaigns[a].asked == asked
    ensures c'.campaigns - {a} == c.campaigns - {a}
  {
    c' := DoCountVote(c, VoteAnswer(1, x, VoteRequest(1, a, 0, 0), true));
    StepKeepsWellFormed(c, CountVote(VoteAnswer(1, x, VoteRequest(1, a, 0, 0), true)));
  }

  lemma Finished(c: Cluster, a: Addr, x: Addr) returns (c': Cluster)
    requires WellFormed(c) && |c.servers| == 3
    requires a in c.campaigns && c.campaigns[a].grants == map[x := VoteRequest(1, a, 0, 0)]
    requires c.campaigns[a].asked == c.servers - {a}
    requires a in c.nodes && c.nodes[a].role.Candidate? && c.nodes[a].memory == Persistent(1, None, [INIT_ENTRY])
    ensures Enabled(c, Finish(a)) && c' == Apply(c, Finish(a)) && WellFormed(c')
    ensures c'.servers == c.servers && c'.campaigns == c.campaigns - {a}
    ensures Won(c', a, 1) && c.ledger.wins <= c'.ledger.wins
    ensures c'.nodes.Keys == c.nodes.Keys && c'.nodes[a].memory == c.nodes[a].memory
    ensures forall b | b in c.nodes && b != a :: c'.nodes[b] == c.nodes[b]
    ensures c'.nodes[a] == FinishElection(c.nodes[a], c.servers, 2)
    ensures c'.rounds == c.rounds && c'.nextRound == c.nextRound
  {
    DoFinishKeepsWellFormed(c, a);
    hide WellFormed;
    c' := DoFinish(c, a);
    assert Win(a, 1, c.nodes[a].memory.log, c.campaigns[a].grants.Keys + {a}) in c'.ledger.wins;
  }

  lemma TwoCandidates() returns (start: Cluster, c: Cluster)
    ensures start == Init({1, 2, 3}) && WellFormed(start) && WellFormed(c) && LeadsTo(start, c)
    ensures c.servers == {1, 2, 3} && FreshCandidate(c, 1) && FreshCandidate(c, 2)
    ensures c.nodes[3] == FreshNode() && c.nodes[1].commitIndex == 0 && c.rounds == map[] && c.nextRound == 0
  {
    start := Init({1, 2, 3});
    assert Legal(start, []) && Run(start, []) == start;
    LeadsToStep(start, start, Open(1));
    DoOpenKeepsWellFormed(start, 1);
    var c1 := DoOpen(start, 1);
    LeadsToStep(start, c1, Open(2));
    DoOpenKeepsWellFormed(c1, 2);
    c := DoOpen(c1, 2);
  }

  /** Without the condition the program does elect two leaders in one term: servers 1 and 2 run in
      term 1, server 3 votes for 1, and 1, once leader, votes for 2. */
  lemma TwoLeaders()
    ensures exists c, v, w ::
      Reachable(c) && v in c.ledger.wins && w in c.ledger.wins && v.term == w.term && v.leader != w.leader
  {
    hide WellFormed, LeadsTo;
    var start, c := TwoCandidates();
    var c1 := OneVoteWins(start, c, 1, 3, 2);
    var c2 := OneVoteWins(start, c1, 2, 1, 3);
    var v :| v in c2.ledger.wins && v.leader == 1 && v.term == 1;
    var w :| w in c2.ledger.wins && w.leader == 2 && w.term == 1;
    LedToIsReachable(start, c2);
  }

  lemma LedToIsReachable(start: Cluster, c: Cluster)
    requires WellFormed(start) && start == Init({1, 2, 3}) && LeadsTo(start, c)
    ensures Reachable(c)
  {
    var steps :| Legal(start, steps) && Run(start, steps) == c;
    assert ReachedBy(c, {1, 2, 3}, steps);
  }
}
