/** What holds of every server in every run of the cluster: its log, its file, a leader's indices;
    and how a server moves along a run: terms, restarts, and a leader's log. */
module RaftNodes {
  import opened Common
  import opened Raft
  import opened RaftCluster

  // ----- One server -----

  ghost predicate TermsWithin(entries: seq<Entry>, term: nat) {
    forall i | 0 <= i < |entries| :: entries[i].term <= term
  }

  ghost predicate LogOk(p: Persistent) {
    |p.log| > 0 && p.log[0] == INIT_ENTRY && TermsWithin(p.log, p.currentTerm)
  }

  /** The file agrees with memory, but for the vote of a candidate. */
  ghost predicate DiskAgrees(n: NodeState) {
    && n.disk.currentTerm == n.memory.currentTerm
    && n.disk.log == n.memory.log
    && (!n.role.Candidate? ==> n.disk.votedFor == n.memory.votedFor)
  }

  ghost predicate IndicesOk(n: NodeState, servers: set<Addr>) {
    n.role.Leader? ==>
      && n.role.nextIndex.Keys == servers == n.role.matchIndex.Keys
      && (forall a | a in servers :: n.role.nextIndex[a] <= |n.memory.log|)
      && (forall a | a in servers :: n.role.matchIndex[a] < |n.memory.log|)
  }

  ghost predicate NodeOk(n: NodeState, servers: set<Addr>) {
    LogOk(n.memory) && DiskAgrees(n) && IndicesOk(n, servers)
  }

  lemma HandleAppendKeepsNodeOk(n: NodeState, servers: set<Addr>, req: AppendRequest)
    requires NodeOk(n, servers) && TermsWithin(req.entries, req.term)
    ensures NodeOk(HandleAppend(n, req).0, servers)
  {
  }

  lemma HandleVoteKeepsNodeOk(n: NodeState, servers: set<Addr>, req: VoteRequest)
    requires NodeOk(n, servers)
    ensures NodeOk(HandleVote(n, req).0, servers)
  {
  }

  lemma OpenAndRestartKeepNodeOk(n: NodeState, servers: set<Addr>)
    requires NodeOk(n, servers)
    ensures NodeOk(OpenElection(n), servers) && NodeOk(Restart(n), servers)
  {
  }

  lemma FinishRoundKeepsNodeOk(n: NodeState, servers: set<Addr>, successes: nat)
    requires NodeOk(n, servers)
    ensures NodeOk(FinishRound(n, successes, |servers|), servers)
  {
  }

  lemma FinishElectionKeepsNodeOk(n: NodeState, servers: set<Addr>, votes: nat)
    requires NodeOk(n, servers)
    ensures NodeOk(FinishElection(n, servers, votes), servers)
  {
  }

  lemma LeaderAppendKeepsNodeOk(n: NodeState, servers: set<Addr>, texts: seq<string>)
    requires NodeOk(n, servers)
    ensures NodeOk(LeaderAppend(n, texts), servers)
  {
  }

  lemma HandleAppendReplyKeepsNodeOk(n: NodeState, servers: set<Addr>, from: Addr, success: bool)
    requires NodeOk(n, servers) && from in servers
    ensures NodeOk(HandleAppendReply(n, from, success), servers)
  {
  }

  /** In such a state a request never runs into the fallbacks: it starts inside the log and carries
      everything behind its start. */
  lemma RequestInsideLog(n: NodeState, servers: set<Addr>, to: Addr)
    requires NodeOk(n, servers) && n.role.Leader? && to in servers
    ensures to in n.role.nextIndex
    ensures var req := AppendRequestFor(n, to);
      && req.prevIndex < |n.memory.log|
      && LogMatches(n.memory.log, req.prevIndex, req.prevTerm)
      && n.memory.log[..req.prevIndex + 1] + req.entries == n.memory.log
      && TermsWithin(req.entries, req.term)
  {
  }

  // ----- The whole cluster -----

  ghost predicate NodesOk(c: Cluster) {
    && WellFormed(c)
    && (forall a | a in c.servers :: NodeOk(c.nodes[a], c.servers))
    && (forall m | m in c.appendCalls :: TermsWithin(m.req.entries, m.req.term))
  }

  /** The one server whose state a step may change. */
  ghost function Mover(c: Cluster, step: Step): Addr
    requires WellFormed(c) && Enabled(c, step)
  {
    match step
    case Open(a) => a
    case Ask(a, _) => a
    case DeliverVote(call) => call.to
    case CountVote(ans) => ans.req.candidate
    case Finish(a) => a
    case BeginRound(a, _) => a
    case Send(r, _) => c.rounds[r].owner
    case DeliverAppend(call) => call.to
    case CountAppend(ans) => c.rounds[ans.round].owner
    case EndRound(r) => c.rounds[r].owner
    case Crash(a) => a
  }

  /** What the step makes of that server. */
  ghost function Moved(c: Cluster, step: Step): NodeState
    requires WellFormed(c) && Enabled(c, step)
  {
    var n := c.nodes[Mover(c, step)];
    match step
    case Open(a) => OpenElection(n)
    case Ask(a, _) => n
    case DeliverVote(call) => HandleVote(n, call.req).0
    case CountVote(_) => n
    case Finish(a) => FinishElection(n, c.servers, |c.campaigns[a].grants| + 1)
    case BeginRound(_, texts) => LeaderAppend(n, texts)
    case Send(r, to) => if n.role.Leader? && to == c.rounds[r].owner then Acknowledge(n, to) else n
    case DeliverAppend(call) => HandleAppend(n, call.req).0
    case CountAppend(ans) => HandleAppendReply(n, ans.from, ans.success)
    case EndRound(r) => FinishRound(n, |c.rounds[r].acks|, |c.servers|)
    case Crash(_) => Restart(n)
  }

  lemma MoverIsServer(c: Cluster, step: Step)
    requires WellFormed(c) && Enabled(c, step)
    ensures Mover(c, step) in c.servers && Mover(c, step) in c.nodes
  {
  }

  /** A step changes the mover as its section says, and no other server. */
  lemma StepMovesOne(c: Cluster, step: Step)
    requires WellFormed(c) && Enabled(c, step)
    ensures Mover(c, step) in c.servers
    ensures WellFormed(Apply(c, step))
    ensures Apply(c, step).servers == c.servers
    ensures Apply(c, step).nodes == c.nodes[Mover(c, step) := Moved(c, step)]
  {
    hide WellFormed;
    StepKeepsWellFormed(c, step);
    MoverIsServer(c, step);
    assert c.nodes == c.nodes[Mover(c, step) := c.nodes[Mover(c, step)]];
  }

  lemma MovedIsOk(c: Cluster, step: Step)
    requires NodesOk(c) && Enabled(c, step)
    ensures NodeOk(Moved(c, step), c.servers)
  {
    hide NodeOk;
    var n := c.nodes[Mover(c, step)];
    assert NodeOk(n, c.servers);
    match step
    case Open(a) => OpenAndRestartKeepNodeOk(n, c.servers);
    case Ask(a, to) =>
    case DeliverVote(call) => HandleVoteKeepsNodeOk(n, c.servers, call.req);
    case CountVote(ans) =>
    case Finish(a) => FinishElectionKeepsNodeOk(n, c.servers, |c.campaigns[a].grants| + 1);
    case BeginRound(a, texts) => LeaderAppendKeepsNodeOk(n, c.servers, texts);
    case Send(r, to) => HandleAppendReplyKeepsNodeOk(n, c.servers, to, true);
    case DeliverAppend(call) => HandleAppendKeepsNodeOk(n, c.servers, call.req);
    case CountAppend(ans) => HandleAppendReplyKeepsNodeOk(n, c.servers, ans.from, ans.success);
    case EndRound(r) => FinishRoundKeepsNodeOk(n, c.servers, |c.rounds[r].acks|);
    case Crash(a) => OpenAndRestartKeepNodeOk(n, c.servers);
  }

  lemma AppendCallsStayOk(c: Cluster, step: Step)
    requires NodesOk(c) && Enabled(c, step)
    ensures forall m | m in Apply(c, step).appendCalls :: TermsWithin(m.req.entries, m.req.term)
  {
    hide HandleAppend, HandleVote, HandleAppendReply, FinishRound, FinishElection, LeaderAppend, Acknowledge, Restart,
      OpenElection;
    if step.Send? && c.nodes[c.rounds[step.round].owner].role.Leader? {
      RequestInsideLog(c.nodes[c.rounds[step.round].owner], c.servers, step.to);
    }
  }

  lemma StepKeepsNodesOk(c: Cluster, step: Step)
    requires NodesOk(c) && Enabled(c, step)
    ensures NodesOk(Apply(c, step))
  {
    hide NodeOk, Mover, Moved, Enabled, Apply, TermsWithin;
    StepMovesOne(c, step);
    MovedIsOk(c, step);
    AppendCallsStayOk(c, step);
  }

  /** In every run from the start: logs begin with the init entry and hold no term above the
      server's, files agree with memory, and leaders' indices stay inside their logs. */
  lemma {:induction false} NodesAlwaysOk(c: Cluster, steps: seq<Step>)
    requires NodesOk(c) && Legal(c, steps)
    ensures NodesOk(Run(c, steps))
    decreases |steps|
  {
    if steps != [] {
      StepKeepsNodesOk(c, steps[0]);
      NodesAlwaysOk(Apply(c, steps[0]), steps[1..]);
    }
  }

  lemma InitNodesOk(servers: set<Addr>)
    ensures NodesOk(Init(servers))
  {
  }

  // ----- Terms, restarts, and a leader's log -----

  /** `m` is `n` after some more of the run: its term is no lower, and if it leads both before and
      after without a break, it leads the same term and its log only grew by entries of that term. */
  ghost predicate Grown(n: NodeState, m: NodeState) {
    && m.memory.currentTerm == n.memory.currentTerm
    && n.memory.log <= m.memory.log
    && forall i | |n.memory.log| <= i < |m.memory.log| :: m.memory.log[i].term == n.memory.currentTerm
  }

  lemma GrownTransitive(n: NodeState, m: NodeState, k: NodeState)
    requires Grown(n, m) && Grown(m, k)
    ensures Grown(n, k)
  {
  }

  lemma ReceivingKeepsTerm(n: NodeState, vote: VoteRequest, append: AppendRequest)
    ensures n.memory.currentTerm <= HandleVote(n, vote).0.memory.currentTerm
    ensures n.memory.currentTerm <= HandleAppend(n, append).0.memory.currentTerm
  {
  }

  lemma MovedIsLater(c: Cluster, step: Step)
    requires NodesOk(c) && Enabled(c, step)
    ensures c.nodes[Mover(c, step)].memory.currentTerm <= Moved(c, step).memory.currentTerm
  {
    hide HandleVote, HandleAppend;
    var n := c.nodes[Mover(c, step)];
    assert NodeOk(n, c.servers);
    if step.DeliverVote? {
      ReceivingKeepsTerm(n, step.voteCall.req, AppendRequest(0, 0, 0, [], 0));
    } else if step.DeliverAppend? {
      ReceivingKeepsTerm(n, VoteRequest(0, 0, 0, 0), step.appendCall.req);
    }
  }

  /** A leader that stays leader refuses every append, and a vote leaves its term and log alone. */
  lemma LeaderReceives(n: NodeState, vote: VoteRequest, append: AppendRequest)
    requires n.role.Leader?
    ensures HandleVote(n, vote).0.role.Leader? ==> Grown(n, HandleVote(n, vote).0)
    ensures HandleAppend(n, append).0.role.Leader? ==> HandleAppend(n, append) == (n, false)
  {
  }

  lemma LeaderWrites(n: NodeState, texts: seq<string>)
    ensures Grown(n, LeaderAppend(n, texts))
  {
  }

  lemma MovedLeaderGrows(c: Cluster, step: Step)
    requires NodesOk(c) && Enabled(c, step)
    requires c.nodes[Mover(c, step)].role.Leader? && Moved(c, step).role.Leader?
    ensures Grown(c.nodes[Mover(c, step)], Moved(c, step))
  {
    var n := c.nodes[Mover(c, step)];
    match step
    case Open(a) =>
    case Ask(a, to) =>
    case DeliverVote(call) => LeaderReceives(n, call.req, AppendRequest(0, 0, 0, [], 0));
    case CountVote(ans) =>
    case Finish(a) =>
    case BeginRound(a, texts) => LeaderWrites(n, texts);
    case Send(r, to) =>
    case DeliverAppend(call) => LeaderReceives(n, VoteRequest(0, 0, 0, 0), call.req);
    case CountAppend(ans) =>
    case EndRound(r) =>
    case Crash(a) =>
  }

  ghost predicate LeadsThroughout(c: Cluster, steps: seq<Step>, a: Addr)
    requires WellFormed(c) && Legal(c, steps) && a in c.servers
    decreases |steps|
  {
    c.nodes[a].role.Leader? &&
    (steps == [] ||
     (StepMovesOne(c, steps[0]);
      LeadsThroughout(Apply(c, steps[0]), steps[1..], a)))
  }

  /** Leader Append-Only: a server that stays leader keeps the term it won, and its log only grows at
      the end with entries of that term, whatever is delivered to it. */
  lemma {:induction false} LeaderAppendOnly(c: Cluster, steps: seq<Step>, a: Addr)
    requires NodesOk(c) && Legal(c, steps) && a in c.servers
    requires LeadsThroughout(c, steps, a)
    ensures a in Run(c, steps).nodes && Grown(c.nodes[a], Run(c, steps).nodes[a])
    decreases |steps|
  {
    hide Apply, Moved, Enabled, NodeOk, TermsWithin;
    if steps != [] {
      var c' := Apply(c, steps[0]);
      StepKeepsNodesOk(c, steps[0]);
      StepMovesOne(c, steps[0]);
      assert Grown(c.nodes[a], c'.nodes[a]) by {
        if a == Mover(c, steps[0]) {
          MovedLeaderGrows(c, steps[0]);
        }
      }
      LeaderAppendOnly(c', steps[1..], a);
      GrownTransitive(c.nodes[a], c'.nodes[a], Run(c', steps[1..]).nodes[a]);
    }
  }

  /** Terms never fall, crashes included. */
  lemma {:induction false} TermsNeverFall(c: Cluster, steps: seq<Step>, a: Addr)
    requires NodesOk(c) && Legal(c, steps) && a in c.servers
    ensures a in Run(c, steps).nodes
    ensures c.nodes[a].memory.currentTerm <= Run(c, steps).nodes[a].memory.currentTerm
    decreases |steps|
  {
    if steps != [] {
      StepKeepsNodesOk(c, steps[0]);
      StepMovesOne(c, steps[0]);
      MovedIsLater(c, steps[0]);
      TermsNeverFall(Apply(c, steps[0]), steps[1..], a);
    }
  }

  /** A restart at any point of any run loses no term and no log entry, and loses the vote only of a
      candidate; the server comes back as a follower with nothing committed. */
  lemma RestartIsDurable(servers: set<Addr>, steps: seq<Step>, a: Addr)
    requires WellFormed(Init(servers)) && Legal(Init(servers), steps) && a in servers
    ensures a in Run(Init(servers), steps).nodes
    ensures var n := Run(Init(servers), steps).nodes[a];
      && Restart(n).memory.currentTerm == n.memory.currentTerm
      && Restart(n).memory.log == n.memory.log
      && (Restart(n).memory.votedFor != n.memory.votedFor ==> n.role.Candidate?)
      && Restart(n).role == Follower && Restart(n).commitIndex == 0
  {
    InitNodesOk(servers);
    NodesAlwaysOk(Init(servers), steps);
    ServersStay(Init(servers), steps);
  }

  lemma {:induction false} ServersStay(c: Cluster, steps: seq<Step>)
    requires WellFormed(c) && Legal(c, steps)
    ensures Run(c, steps).servers == c.servers
    decreases |steps|
  {
    if steps != [] {
      StepMovesOne(c, steps[0]);
      ServersStay(Apply(c, steps[0]), steps[1..]);
    }
  }
}
