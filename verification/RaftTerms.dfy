/** What a message of a newer term does to its receiver, whether it is accepted or not: in every state,
    and for the rest of a run. */
module RaftTerms {
  import opened Common
  import opened Raft
  import opened RaftCluster
  import opened RaftElectionRuns
  import opened RaftElections
  import opened RaftNodes

  // ----- One server -----

  /** The server follows the term, has voted for nobody in it, and its file says so. */
  predicate JoinsTerm(m: NodeState, term: nat) {
    m.memory.currentTerm == term && m.role.Follower? && m.memory.votedFor == None && m.disk == m.memory
  }

  /** An append moves its receiver to the newer of the two terms. A newer term is adopted before anything
      else is looked at; an append of the receiver's own or an older term leaves role and vote alone. */
  lemma AppendSetsTerm(n: NodeState, req: AppendRequest)
    ensures var m := HandleAppend(n, req).0;
      && m.memory.currentTerm == Max(n.memory.currentTerm, req.term)
      && (req.term > n.memory.currentTerm ==> JoinsTerm(m, req.term))
      && (req.term <= n.memory.currentTerm ==> m.role == n.role && m.memory.votedFor == n.memory.votedFor)
  {
  }

  /** When an append succeeds: of a newer term exactly when the logs match, of the same term when the
      receiver also follows, of an older term never. A refused one touches neither log nor commit
      index, and nothing at all unless its term is newer. */
  lemma AppendSucceedsIff(n: NodeState, req: AppendRequest)
    ensures var (m, success) := HandleAppend(n, req);
      && (req.term > n.memory.currentTerm ==> (success <==> LogMatches(n.memory.log, req.prevIndex, req.prevTerm)))
      && (req.term == n.memory.currentTerm && n.role.Follower? ==>
            (success <==> LogMatches(n.memory.log, req.prevIndex, req.prevTerm)))
      && (req.term == n.memory.currentTerm && !n.role.Follower? ==> !success)
      && (req.term < n.memory.currentTerm ==> !success)
      && (!success ==> m.memory.log == n.memory.log && m.commitIndex == n.commitIndex)
      && (!success && req.term <= n.memory.currentTerm ==> m == n)
  {
  }

  /** A vote request moves its receiver's term in the same way; log and commit index stay. */
  lemma VoteSetsTerm(n: NodeState, req: VoteRequest)
    ensures var (m, reply) := HandleVote(n, req);
      && m.memory.currentTerm == Max(n.memory.currentTerm, req.term)
      && m.memory.log == n.memory.log && m.commitIndex == n.commitIndex
      && (req.term > n.memory.currentTerm ==> m.role.Follower? && m.disk == m.memory)
      && (req.term > n.memory.currentTerm && !reply.granted ==> JoinsTerm(m, req.term))
      && (req.term <= n.memory.currentTerm ==> m.role == n.role)
      && (reply.granted ==> m.memory.votedFor == Some(req.candidate) && m.disk == m.memory)
  {
  }

  /** When a vote is granted: a vote of an older term binds nobody, so a request of a newer term is
      granted exactly when it meets the log rule, whatever vote was recorded. */
  lemma VoteGrantedIff(n: NodeState, req: VoteRequest)
    ensures var granted, fits := HandleVote(n, req).1.granted, LogCondition(n.memory.log, req);
      && (req.term > n.memory.currentTerm ==> (granted <==> fits))
      && (req.term == n.memory.currentTerm && n.memory.votedFor == None ==> (granted <==> fits))
      && (req.term == n.memory.currentTerm && n.memory.votedFor.Some? ==>
            (granted <==> fits && n.memory.votedFor.value == req.candidate))
      && (req.term < n.memory.currentTerm ==> !granted)
  {
  }

  /** The log of the first ends in a newer term, or is at least as long. */
  predicate GoodEnough(log: seq<Entry>, other: seq<Entry>)
    requires |log| > 0 && |other| > 0
  {
    Last(log).term > Last(other).term || |log| >= |other|
  }

  /** What the request of a candidate asks for: of a server in an older term it gets the vote exactly when
      its own log is good enough. */
  lemma CandidateGetsVoteIff(candidate: NodeState, me: Addr, voter: NodeState)
    requires |candidate.memory.log| > 0 && |voter.memory.log| > 0
    requires candidate.memory.currentTerm > voter.memory.currentTerm
    ensures HandleVote(voter, VoteRequestOf(candidate, me)).1.granted
       <==> GoodEnough(candidate.memory.log, voter.memory.log)
  {
  }

  /** After the decision of an election, won or lost, a server of that term is free to vote: it grants any
      rival of the term that meets the log rule. */
  lemma DecisionFreesVote(n: NodeState, servers: set<Addr>, votes: nat, rival: VoteRequest)
    requires |n.memory.log| > 0 && n.role.Candidate? && rival.term == n.memory.currentTerm
    ensures var m := FinishElection(n, servers, votes);
      && m.memory == n.memory.(votedFor := None) && m.disk == m.memory && m.commitIndex == n.commitIndex
      && (m.role.Leader? <==> votes * 2 > |servers|) && (m.role.Follower? <==> votes * 2 <= |servers|)
      && (HandleVote(m, rival).1.granted <==> LogCondition(n.memory.log, rival))
  {
  }

  // ----- Runs -----

  /** The step hands a message of that term to the server. */
  predicate Hands(step: Step, to: Addr, term: nat) {
    match step
    case DeliverAppend(call) => call.to == to && call.req.term == term
    case DeliverVote(call) => call.to == to && call.req.term == term
    case _ => false
  }

  lemma HandingMoves(c: Cluster, step: Step, to: Addr, term: nat)
    requires WellFormed(c) && Enabled(c, step) && Hands(step, to, term)
    ensures Mover(c, step) == to && to in c.nodes
    ensures var n, m := c.nodes[to], Moved(c, step);
      && m.memory.currentTerm == Max(n.memory.currentTerm, term)
      && (term > n.memory.currentTerm ==> m.role.Follower? && m.disk == m.memory)
  {
    hide HandleAppend, HandleVote;
    match step
    case DeliverAppend(call) => AppendSetsTerm(c.nodes[to], call.req);
    case DeliverVote(call) => VoteSetsTerm(c.nodes[to], call.req);
  }

  /** Once a server was handed a message of some term, accepted or not, it is in no older term for the rest
      of the run, crashes included: it leads none, and runs in none. If the term was newer it follows
      that term right then, in its file too. */
  lemma HandedTermSticks(c: Cluster, step: Step, steps: seq<Step>, to: Addr, term: nat)
    requires NodesOk(c) && Enabled(c, step) && Hands(step, to, term)
    requires WellFormed(Apply(c, step)) && Legal(Apply(c, step), steps)
    ensures to in c.nodes && to in Apply(c, step).nodes && to in Run(Apply(c, step), steps).nodes
    ensures Term(Run(Apply(c, step), steps), to) >= term
    ensures term > Term(c, to) ==>
      && Term(Apply(c, step), to) == term && Apply(c, step).nodes[to].role.Follower?
      && Apply(c, step).nodes[to].disk == Apply(c, step).nodes[to].memory
  {
    hide Enabled, Apply, Moved, Mover, WellFormed, Hands, NodeOk, TermsWithin;
    StepMovesOne(c, step);
    HandingMoves(c, step, to, term);
    StepKeepsNodesOk(c, step);
    TermsNeverFall(Apply(c, step), steps, to);
  }

  /** In every reachable state: the request of a server that is still a candidate, handed to a server in an
      older term, is granted exactly when the candidate's present log is good enough. Nothing else
      about the receiver, its earlier votes included, can refuse it. */
  lemma NewerTermRefusedOnlyForLog(c: Cluster, call: VoteCall)
    requires Reachable(c) && WellFormed(c) && Enabled(c, DeliverVote(call))
    requires c.nodes[call.req.candidate].role.Candidate? && Term(c, call.req.candidate) == call.req.term
    requires call.req.candidate in c.campaigns && c.campaigns[call.req.candidate].term == call.campaign
    requires Term(c, call.to) < call.req.term
    ensures var log, other := c.nodes[call.req.candidate].memory.log, c.nodes[call.to].memory.log;
      && |log| > 0 && |other| > 0
      && VoteAnswer(call.campaign, call.to, call.req, GoodEnough(log, other)) in DoDeliverVote(c, call).voteAnswers
  {
    ReachableIsOk(c);
    CallIsCurrent(c, call);
    hide ElectionsOk;
    CandidateGetsVoteIff(c.nodes[call.req.candidate], call.req.candidate, c.nodes[call.to]);
    hide HandleVote;
  }

  lemma CallIsCurrent(c: Cluster, call: VoteCall)
    requires ElectionsOk(c) && call in c.voteCalls && call.req.candidate in c.nodes
    requires c.nodes[call.req.candidate].role.Candidate?
    requires call.req.candidate in c.campaigns && c.campaigns[call.req.candidate].term == call.campaign
    ensures |c.nodes[call.req.candidate].memory.log| > 0
    ensures call.req == VoteRequestOf(c.nodes[call.req.candidate], call.req.candidate)
  {
    hide BallotsOk, AsksOk, CampaignsFrozen;
  }

  /** A server that has nothing running: it follows, and neither an election nor a round of it is open. */
  ghost predicate Passive(c: Cluster, a: Addr)
    requires WellFormed(c)
  {
    && a in c.servers && c.nodes[a].role.Follower? && a !in c.campaigns
    && forall r | r in c.rounds :: c.rounds[r].owner != a
  }

  lemma StaysPassive(c: Cluster, step: Step, a: Addr)
    requires WellFormed(c) && Passive(c, a) && Enabled(c, step) && step != Open(a)
    ensures WellFormed(Apply(c, step)) && Passive(Apply(c, step), a)
  {
    hide Apply, Moved;
    StepMovesOne(c, step);
    FollowsOn(c, step, a);
    NothingStarts(c, step, a);
    ServersHaveNodes(c);
  }

  lemma FollowsOn(c: Cluster, step: Step, a: Addr)
    requires WellFormed(c) && Passive(c, a) && Enabled(c, step) && step != Open(a)
    ensures Mover(c, step) == a ==> Moved(c, step).role.Follower?
  {
    hide HandleVote, HandleAppend;
    match step
    case DeliverAppend(call) => AppendSetsTerm(c.nodes[call.to], call.req);
    case DeliverVote(call) => VoteSetsTerm(c.nodes[call.to], call.req);
    case _ =>
  }

  lemma NothingStarts(c: Cluster, step: Step, a: Addr)
    requires WellFormed(c) && Passive(c, a) && Enabled(c, step) && step != Open(a)
    ensures a !in Apply(c, step).campaigns
    ensures forall r | r in Apply(c, step).rounds :: Apply(c, step).rounds[r].owner != a
  {
    hide WellFormed, HandleVote, HandleAppend, HandleAppendReply, FinishRound, FinishElection, LeaderAppend,
      Acknowledge, AppendRequestFor, OpenElection, Restart;
  }

  /** A crash ends all that a server was running, and it follows until it opens an election anew: whatever
      replies to its old requests arrive, it wins nothing and ends no round. */
  lemma {:induction false} CrashEndsWork(c: Cluster, a: Addr, steps: seq<Step>)
    requires WellFormed(c) && Enabled(c, Crash(a)) && WellFormed(DoCrash(c, a)) && Legal(DoCrash(c, a), steps)
    requires Open(a) !in steps
    ensures Passive(Run(DoCrash(c, a), steps), a)
  {
    PassiveRun(DoCrash(c, a), a, steps);
  }

  lemma {:induction false} PassiveRun(c: Cluster, a: Addr, steps: seq<Step>)
    requires WellFormed(c) && Passive(c, a) && Legal(c, steps) && Open(a) !in steps
    ensures Passive(Run(c, steps), a)
    decreases |steps|
  {
    hide WellFormed, Passive, Enabled, Apply;
    if steps != [] {
      assert steps[0] in steps && forall x | x in steps[1..] :: x in steps;
      StaysPassive(c, steps[0], a);
      PassiveRun(Apply(c, steps[0]), a, steps[1..]);
    }
  }
}
