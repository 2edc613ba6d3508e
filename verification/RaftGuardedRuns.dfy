/** One leader's term in the cluster when its rounds overlap and its appends arrive in any order: under
    which conditions on single deliveries and single commits a majority holds what is committed. */
module RaftGuardedRuns {
  import opened Common
  import opened Raft
  import opened RaftBackoff
  import opened RaftCluster
  import opened RaftElectionRuns
  import opened RaftElections
  import opened RaftLaws
  import opened RaftNodes
  import opened RaftOverlap
  import opened RaftRounds
  import Leader = RaftLeaderRuns

  type Tenure = Leader.Tenure

  // ----- The runs in question -----

  /** The append starts inside what its receiver took from this leader, and ends no earlier, or pushes
      back entries that repeat the leader's. */
  ghost predicate KeepsTaken(log: seq<Entry>, taken: map<Addr, nat>, to: Addr, req: AppendRequest) {
    to in taken && taken[to] <= |log| ==>
      && req.prevIndex < taken[to]
      && (End(req) >= taken[to] || Repeats(log, taken[to], req.prevIndex, End(req)))
  }

  /** The server does not accept the append, and the leader is not deposed by it. */
  ghost predicate TurnsAway(f: Tenure, c: Cluster, call: AppendCall)
    requires WellFormed(c) && Enabled(c, DeliverAppend(call)) && f.me in c.servers
  {
    !AcceptsAppend(c.nodes[call.to], call.req) && (call.to == f.me ==> call.req.term <= Term(c, f.me))
  }

  /** The leader is not deposed and nobody else wins or begins a round. An append of the leader that a
      server accepts keeps what the server took; a round of the leader commits only while the log has
      not grown since its requests were built. No server accepts an append of an earlier round. All else
      is free: rounds may overlap, messages may be late, overtaken or lost, the other servers vote,
      campaign and crash, and rounds from before the run go on and end. */
  ghost predicate Guarded(f: Tenure, c: Cluster, taken: map<Addr, nat>, step: Step)
    requires WellFormed(c) && Enabled(c, step) && f.me in c.servers
  {
    match step
    case Open(_) => true
    case Ask(_, _) => true
    case DeliverVote(call) => call.to == f.me ==> call.req.term <= Term(c, f.me)
    case CountVote(_) => true
    case Finish(a) => c.nodes[a].role.Candidate? ==> !Majority(|c.campaigns[a].grants| + 1, |c.servers|)
    case BeginRound(a, _) => a == f.me
    case Send(_, _) => true
    case DeliverAppend(call) =>
      if f.base <= call.round then
        AcceptsAppend(c.nodes[call.to], call.req) ==> KeepsTaken(c.nodes[f.me].memory.log, taken, call.to, call.req)
      else TurnsAway(f, c, call)
    case CountAppend(_) => true
    case EndRound(r) => f.base <= r && Majority(|c.rounds[r].acks|, |c.servers|) ==> NotGrown(c, r)
    case Crash(a) => a != f.me
  }

  /** How much of the leader's log each server took in the run. */
  ghost function TakenAfter(f: Tenure, c: Cluster, taken: map<Addr, nat>, step: Step): map<Addr, nat>
    requires WellFormed(c) && Enabled(c, step)
  {
    match step
    case DeliverAppend(call) =>
      if f.base <= call.round && AcceptsAppend(c.nodes[call.to], call.req) then
        taken[call.to := if call.to in taken then Max(taken[call.to], End(call.req)) else End(call.req)]
      else taken
    case _ => taken
  }

  ghost predicate GuardedRun(f: Tenure, c: Cluster, taken: map<Addr, nat>, steps: seq<Step>)
    requires WellFormed(c) && Legal(c, steps) && f.me in c.servers
    decreases |steps|
  {
    steps == [] ||
    (Guarded(f, c, taken, steps[0]) &&
     (StepMovesOne(c, steps[0]);
      GuardedRun(f, Apply(c, steps[0]), TakenAfter(f, c, taken, steps[0]), steps[1..])))
  }

  // ----- Invariant -----

  /** A piece of the leader's log, from some index to where the log ended. */
  ghost predicate Piece(log: seq<Entry>, term: nat, req: AppendRequest) {
    && End(req) <= |log| && req.term == term
    && req.prevTerm == log[req.prevIndex].term
    && req.entries == log[req.prevIndex + 1..End(req)]
  }

  ghost predicate CallsFit(f: Tenure, c: Cluster, log: seq<Entry>, term: nat) {
    forall m | m in c.appendCalls && f.base <= m.round ::
      m.to in c.servers && m.to != f.me && Piece(log, term, m.req)
  }

  /** What a server took it holds; one that took nothing yet has no entry of the leader's term and
      agrees with the leader below any entry of equal index and term. */
  ghost predicate CopyFits(copy: seq<Entry>, log: seq<Entry>, term: nat, taken: Option<nat>) {
    match taken
    case Some(n) => n <= |log| && log[..n] <= copy
    case None => LogMatching(copy, log) && forall i | 0 <= i < |copy| :: copy[i].term != term
  }

  function TakenBy(taken: map<Addr, nat>, a: Addr): Option<nat> {
    if a in taken then Some(taken[a]) else None
  }

  ghost predicate CopiesFit(f: Tenure, c: Cluster, log: seq<Entry>, term: nat, taken: map<Addr, nat>)
    requires WellFormed(c)
  {
    forall a | a in c.servers && a != f.me :: CopyFits(c.nodes[a].memory.log, log, term, TakenBy(taken, a))
  }

  ghost predicate LedgerFits(f: Tenure, c: Cluster, log: seq<Entry>, taken: map<Addr, nat>) {
    && (forall k | k in c.ledger.accepts && f.base <= k.round && k.server != f.me ::
          k.server in c.servers && k.server in taken && c.ledger.accepts[k].length <= taken[k.server])
    && (forall k | k in c.ledger.commits && f.base <= k.round :: CommitFits(f, c, log, taken, k))
  }

  ghost predicate CommitFits(f: Tenure, c: Cluster, log: seq<Entry>, taken: map<Addr, nat>, k: Commit) {
    && k.quorum <= c.servers && Majority(|k.quorum|, |c.servers|) && k.length <= |log|
    && forall x | x in k.quorum && x != f.me :: x in taken && k.length <= taken[x]
  }

  ghost predicate RoundsFit(f: Tenure, c: Cluster, term: nat) {
    && f.base <= c.nextRound
    && forall r | r in c.rounds && f.base <= r :: c.rounds[r].owner == f.me && c.rounds[r].term == term
  }

  ghost predicate Fits(f: Tenure, c: Cluster, taken: map<Addr, nat>) {
    && WellFormed(c) && f.me in c.servers && c.nodes[f.me].role.Leader?
    && var log, term := c.nodes[f.me].memory.log, Term(c, f.me);
       && CallsFit(f, c, log, term) && CopiesFit(f, c, log, term, taken)
       && LedgerFits(f, c, log, taken) && RoundsFit(f, c, term)
  }

  /** What holds of every reachable state. */
  ghost predicate Sound(c: Cluster) {
    ElectionsOk(c) && RoundsOk(c) && ReachesOk(c)
  }

  lemma StepKeepsSound(c: Cluster, step: Step)
    requires Sound(c) && WellFormed(c) && Enabled(c, step)
    ensures Sound(Apply(c, step)) && WellFormed(Apply(c, step))
  {
    hide ElectionsOk, RoundsOk, ReachesOk, WellFormed, Apply, Enabled;
    StepKeepsReaches(c, step);
    StepKeepsRoundsOk(c, step);
    StepKeepsElectionsOk(c, step);
  }

  // ----- Steps beside the leader's rounds -----

  /** Nobody's log changes, and the leader goes on in its term. */
  ghost predicate SameLogs(f: Tenure, c: Cluster, c': Cluster)
    requires WellFormed(c) && WellFormed(c')
  {
    && f.me in c.servers && c'.servers == c.servers
    && c'.nodes[f.me].role.Leader? && Term(c', f.me) == Term(c, f.me)
    && forall a | a in c.servers :: c'.nodes[a].memory.log == c.nodes[a].memory.log
  }

  lemma SideStepFits(f: Tenure, c: Cluster, c': Cluster, taken: map<Addr, nat>)
    requires Fits(f, c, taken) && WellFormed(c') && Leader.SideStep(f, c, c') && SameLogs(f, c, c')
    ensures Fits(f, c', taken)
  {
    var log := c.nodes[f.me].memory.log;
    assert c'.nodes[f.me].memory.log == log;
    hide CopyFits, Piece, CommitFits, WellFormed;
    forall k | k in c'.ledger.commits && f.base <= k.round ensures CommitFits(f, c', log, taken, k) {
      SameCommitFits(f, c, c', log, taken, k);
    }
  }

  lemma SameCommitFits(
      f: Tenure, c: Cluster, c': Cluster, log: seq<Entry>, taken: map<Addr, nat>, k: Commit)
    requires CommitFits(f, c, log, taken, k) && c'.servers == c.servers
    ensures CommitFits(f, c', log, taken, k)
  {
  }

  lemma SideLeavesLogs(f: Tenure, c: Cluster, taken: map<Addr, nat>, step: Step)
    requires Fits(f, c, taken) && NodesOk(c) && Enabled(c, step) && Guarded(f, c, taken, step)
    requires Leader.IsSide(f, step)
    ensures WellFormed(Apply(c, step)) && SameLogs(f, c, Apply(c, step))
  {
    hide Guarded, Apply, Moved, Mover, Enabled, NodeOk, TermsWithin, CallsFit, CopiesFit, LedgerFits, RoundsFit;
    StepMovesOne(c, step);
    MoverKeepsLog(f, c, taken, step);
  }

  lemma MoverKeepsLog(f: Tenure, c: Cluster, taken: map<Addr, nat>, step: Step)
    requires Fits(f, c, taken) && NodesOk(c) && Enabled(c, step) && Guarded(f, c, taken, step)
    requires Leader.IsSide(f, step)
    ensures var n, m := c.nodes[Mover(c, step)], Moved(c, step);
      && m.memory.log == n.memory.log
      && (Mover(c, step) == f.me ==> m.role.Leader? && m.memory.currentTerm == n.memory.currentTerm)
  {
    hide CallsFit, CopiesFit, LedgerFits, RoundsFit, NodeOk, TermsWithin, HandleVote, Restart, FinishElection;
    var n := c.nodes[Mover(c, step)];
    assert NodeOk(n, c.servers);
    if step.DeliverVote? {
      VoteKeepsLog(n, step.voteCall.req);
    } else if step.Crash? {
      RestartKeepsLog(n, c.servers);
    } else if step.Finish? {
      DecisionKeepsLog(n, c.servers, |c.campaigns[step.server].grants| + 1);
    }
  }

  lemma VoteKeepsLog(n: NodeState, req: VoteRequest)
    ensures var m := HandleVote(n, req).0;
      && m.memory.log == n.memory.log
      && (req.term <= n.memory.currentTerm ==> m.role == n.role && m.memory.currentTerm == n.memory.currentTerm)
  {
    hide LogCondition;
  }

  lemma RestartKeepsLog(n: NodeState, servers: set<Addr>)
    requires NodeOk(n, servers)
    ensures Restart(n).memory.log == n.memory.log
  {
    hide TermsWithin;
  }

  lemma DecisionKeepsLog(n: NodeState, servers: set<Addr>, votes: nat)
    requires |n.memory.log| > 0
    ensures FinishElection(n, servers, votes).memory.log == n.memory.log
    ensures n.role.Leader? ==> FinishElection(n, servers, votes) == n
  {
  }

  lemma GuardedSideFits(f: Tenure, c: Cluster, taken: map<Addr, nat>, step: Step)
    requires Fits(f, c, taken) && NodesOk(c) && Enabled(c, step) && Guarded(f, c, taken, step)
    requires Leader.IsSide(f, step)
    ensures Fits(f, Apply(c, step), TakenAfter(f, c, taken, step))
  {
    SideLeavesLogs(f, c, taken, step);
    Leader.QuietSideStep(f, c, step);
    hide Leader.SideStep, SameLogs, Fits, Apply, WellFormed, NodesOk;
    SideStepFits(f, c, Apply(c, step), taken);
  }

  lemma RefusalKeepsLog(n: NodeState, req: AppendRequest)
    requires !AcceptsAppend(n, req)
    ensures var (m, success) := HandleAppend(n, req);
      && !success && m.memory.log == n.memory.log && m.commitIndex == n.commitIndex
      && (req.term <= n.memory.currentTerm ==> m == n)
  {
  }

  lemma LateSideStep(f: Tenure, c: Cluster, call: AppendCall)
    requires WellFormed(c) && Enabled(c, DeliverAppend(call)) && f.me in c.servers && c.nodes[f.me].role.Leader?
    requires call.round < f.base && TurnsAway(f, c, call)
    ensures WellFormed(DoDeliverAppend(c, call))
    ensures Leader.SideStep(f, c, DoDeliverAppend(c, call)) && SameLogs(f, c, DoDeliverAppend(c, call))
    ensures DoDeliverAppend(c, call).nodes[f.me] == c.nodes[f.me]
  {
    RefusalKeepsLog(c.nodes[call.to], call.req);
    DoDeliverAppendKeepsWellFormed(c, call);
    hide HandleAppend, AcceptsAppend;
  }

  lemma LateDeliveryFits(f: Tenure, c: Cluster, taken: map<Addr, nat>, call: AppendCall)
    requires Fits(f, c, taken) && Enabled(c, DeliverAppend(call)) && call.round < f.base && TurnsAway(f, c, call)
    ensures Fits(f, DoDeliverAppend(c, call), taken)
  {
    hide CallsFit, CopiesFit, LedgerFits, RoundsFit, HandleAppend, Leader.SideStep, SameLogs, TurnsAway;
    LateSideStep(f, c, call);
    SideStepFits(f, c, DoDeliverAppend(c, call), taken);
  }

  // ----- Steps of the leader's rounds -----

  lemma LongerLogFits(copy: seq<Entry>, log: seq<Entry>, more: seq<Entry>, term: nat, taken: Option<nat>)
    requires CopyFits(copy, log, term, taken) && forall e | e in more :: e.term == term
    ensures CopyFits(copy, log + more, term, taken)
  {
    match taken
    case Some(n) => assert (log + more)[..n] == log[..n];
    case None =>
      forall j | |log| <= j < |log + more| ensures (log + more)[j].term == term {
        assert more[j - |log|] in more;
      }
      forall i | 0 <= i < |copy| && i < |log + more| && copy[i].term == (log + more)[i].term
        ensures copy[..i + 1] == (log + more)[..i + 1]
      {
        assert (log + more)[..i + 1] == log[..i + 1];
      }
  }

  lemma LongerLogHasPiece(log: seq<Entry>, more: seq<Entry>, term: nat, req: AppendRequest)
    requires Piece(log, term, req)
    ensures Piece(log + more, term, req)
  {
    assert (log + more)[req.prevIndex + 1..End(req)] == log[req.prevIndex + 1..End(req)];
  }

  lemma BeginFits(f: Tenure, c: Cluster, taken: map<Addr, nat>, texts: seq<string>)
    requires Fits(f, c, taken) && Enabled(c, BeginRound(f.me, texts))
    ensures Fits(f, DoBeginRound(c, f.me, texts), taken)
  {
    DoBeginRoundKeepsWellFormed(c, f.me, texts);
    var log, term := c.nodes[f.me].memory.log, Term(c, f.me);
    var more, c' := Stamp(texts, term), DoBeginRound(c, f.me, texts);
    assert c'.nodes[f.me].memory.log == log + more && Term(c', f.me) == term && c'.nodes[f.me].role.Leader?;
    hide WellFormed, CopyFits, Piece, CommitFits, LeaderAppend, Stamp;
    forall m | m in c'.appendCalls && f.base <= m.round
      ensures m.to in c'.servers && m.to != f.me && Piece(log + more, term, m.req)
    {
      LongerLogHasPiece(log, more, term, m.req);
    }
    BeginLeavesCopies(f, c, taken, texts);
    forall k | k in c'.ledger.commits && f.base <= k.round ensures CommitFits(f, c', log + more, taken, k) {
      LongerCommitFits(f, c, c', log, more, taken, k);
    }
  }

  lemma LongerCommitFits(
      f: Tenure, c: Cluster, c': Cluster, log: seq<Entry>, more: seq<Entry>, taken: map<Addr, nat>, k: Commit)
    requires CommitFits(f, c, log, taken, k) && c'.servers == c.servers
    ensures CommitFits(f, c', log + more, taken, k)
  {
  }

  lemma BeginLeavesCopies(f: Tenure, c: Cluster, taken: map<Addr, nat>, texts: seq<string>)
    requires Fits(f, c, taken) && Enabled(c, BeginRound(f.me, texts)) && WellFormed(DoBeginRound(c, f.me, texts))
    ensures var log, term := c.nodes[f.me].memory.log, Term(c, f.me);
      CopiesFit(f, DoBeginRound(c, f.me, texts), log + Stamp(texts, term), term, taken)
  {
    var log, term, c' := c.nodes[f.me].memory.log, Term(c, f.me), DoBeginRound(c, f.me, texts);
    var more := Stamp(texts, term);
    hide CopyFits, CallsFit, LedgerFits, RoundsFit;
    forall a | a in c'.servers && a != f.me
      ensures CopyFits(c'.nodes[a].memory.log, log + more, term, TakenBy(taken, a))
    {
      assert CopyFits(c.nodes[a].memory.log, log, term, TakenBy(taken, a));
      LongerLogFits(c.nodes[a].memory.log, log, more, term, TakenBy(taken, a));
    }
  }

  lemma RequestIsPiece(n: NodeState, servers: set<Addr>, to: Addr)
    requires NodeOk(n, servers) && n.role.Leader? && to in servers
    ensures to in n.role.nextIndex && Piece(n.memory.log, n.memory.currentTerm, AppendRequestFor(n, to))
  {
    RequestInsideLog(n, servers, to);
    var req := AppendRequestFor(n, to);
    assert (n.memory.log[..req.prevIndex + 1] + req.entries)[req.prevIndex + 1..] == req.entries;
  }

  /** The leader keeps its memory, and its rounds go on; nobody else moves and nothing is accepted. */
  ghost predicate LeaderStep(f: Tenure, c: Cluster, c': Cluster)
    requires WellFormed(c) && WellFormed(c') && f.me in c.servers
  {
    && c'.servers == c.servers && c'.nextRound == c.nextRound
    && c'.nodes[f.me].memory == c.nodes[f.me].memory && c'.nodes[f.me].role.Leader?
    && (forall a | a in c.servers && a != f.me :: c'.nodes[a] == c.nodes[a])
    && (forall r | r in c'.rounds ::
          r in c.rounds && c'.rounds[r].owner == c.rounds[r].owner && c'.rounds[r].term == c.rounds[r].term)
    && c'.ledger.accepts == c.ledger.accepts
  }

  lemma LeaderStepFits(f: Tenure, c: Cluster, c': Cluster, taken: map<Addr, nat>)
    requires Fits(f, c, taken) && WellFormed(c') && LeaderStep(f, c, c')
    requires var log, term := c.nodes[f.me].memory.log, Term(c, f.me);
      && CallsFit(f, c', log, term)
      && forall k | k in c'.ledger.commits && f.base <= k.round && k !in c.ledger.commits ::
           CommitFits(f, c', log, taken, k)
    ensures Fits(f, c', taken)
  {
    var log := c.nodes[f.me].memory.log;
    hide CopyFits, CallsFit, CommitFits;
    forall k | k in c'.ledger.commits && f.base <= k.round ensures CommitFits(f, c', log, taken, k) {
      if k in c.ledger.commits {
        SameCommitFits(f, c, c', log, taken, k);
      }
    }
  }

  lemma SendIsLeaderStep(f: Tenure, c: Cluster, r: nat, to: Addr)
    requires WellFormed(c) && f.me in c.servers && c.nodes[f.me].role.Leader? && Enabled(c, Send(r, to))
    requires c.rounds[r].owner == f.me
    ensures WellFormed(DoSend(c, r, to)) && LeaderStep(f, c, DoSend(c, r, to))
  {
    hide AppendRequestFor, Acknowledge;
    DoSendKeepsWellFormed(c, r, to);
    OwnSuccessKeepsMemory(c.nodes[f.me], f.me);
  }

  lemma OwnSuccessKeepsMemory(n: NodeState, from: Addr)
    requires n.role.Leader? && |n.memory.log| > 0
    ensures Acknowledge(n, from).memory == n.memory && Acknowledge(n, from).role.Leader?
  {
  }

  lemma SendCallsFit(f: Tenure, c: Cluster, r: nat, to: Addr)
    requires WellFormed(c) && f.me in c.servers && c.nodes[f.me].role.Leader? && Enabled(c, Send(r, to))
    requires c.rounds[r].owner == f.me && NodeOk(c.nodes[f.me], c.servers)
    requires CallsFit(f, c, c.nodes[f.me].memory.log, Term(c, f.me))
    ensures CallsFit(f, DoSend(c, r, to), c.nodes[f.me].memory.log, Term(c, f.me))
  {
    hide NodeOk, Piece, AppendRequestFor, Acknowledge;
    RequestIsPiece(c.nodes[f.me], c.servers, to);
    hide WellFormed;
  }

  lemma SendFits(f: Tenure, c: Cluster, taken: map<Addr, nat>, r: nat, to: Addr)
    requires Fits(f, c, taken) && NodeOk(c.nodes[f.me], c.servers) && Enabled(c, Send(r, to)) && f.base <= r
    ensures Fits(f, DoSend(c, r, to), taken)
  {
    hide NodeOk, CallsFit, CopiesFit, CommitFits, LeaderStep;
    assert c.rounds[r].owner == f.me;
    hide WellFormed;
    SendIsLeaderStep(f, c, r, to);
    SendCallsFit(f, c, r, to);
    LeaderStepFits(f, c, DoSend(c, r, to), taken);
  }

  lemma CountIsLeaderStep(f: Tenure, c: Cluster, ans: AppendAnswer)
    requires WellFormed(c) && f.me in c.servers && c.nodes[f.me].role.Leader? && Enabled(c, CountAppend(ans))
    requires c.rounds[ans.round].owner == f.me
    ensures WellFormed(DoCountAppend(c, ans)) && LeaderStep(f, c, DoCountAppend(c, ans))
  {
    DoCountAppendKeepsWellFormed(c, ans);
  }

  lemma CountFits(f: Tenure, c: Cluster, taken: map<Addr, nat>, ans: AppendAnswer)
    requires Fits(f, c, taken) && Enabled(c, CountAppend(ans)) && f.base <= ans.round
    ensures Fits(f, DoCountAppend(c, ans), taken)
  {
    hide CopiesFit, CommitFits, LeaderStep, Piece, HandleAppendReply;
    assert c.rounds[ans.round].owner == f.me;
    hide WellFormed;
    CountIsLeaderStep(f, c, ans);
    LeaderStepFits(f, c, DoCountAppend(c, ans), taken);
  }

  /** What a round of the leader commits, every server it counts took. */
  lemma CountedTookAll(f: Tenure, c: Cluster, taken: map<Addr, nat>, r: nat)
    requires Fits(f, c, taken) && RoundsOk(c) && AcceptsReach(c) && Enabled(c, EndRound(r)) && f.base <= r
    requires Majority(|c.rounds[r].acks|, |c.servers|) && NotGrown(c, r)
    ensures c.rounds[r].owner == f.me && c.rounds[r].acks <= c.servers && f.me in c.nodes
    ensures forall x | x in c.rounds[r].acks && x != f.me ::
      x in taken && |c.nodes[f.me].memory.log| <= taken[x]
  {
    hide CallsFit, CopiesFit, CommitFits, RoundsOk;
    assert c.rounds[r].owner == f.me && Commits(c, r);
    CountedTook(c, r);
    CountedAreServers(c, r);
    var length := |c.nodes[f.me].memory.log|;
    hide WellFormed;
    forall x | x in c.rounds[r].acks && x != f.me ensures x in taken && length <= taken[x] {
      var k := AcceptKey(r, x);
      assert k in c.ledger.accepts && c.ledger.accepts[k].length == c.rounds[r].built[x];
    }
  }

  lemma CountedAreServers(c: Cluster, r: nat)
    requires WellFormed(c) && RoundsOk(c) && r in c.rounds
    ensures c.rounds[r].acks <= c.servers
  {
    assert RoundOk(c, r);
  }

  lemma EndIsLeaderStep(f: Tenure, c: Cluster, r: nat)
    requires WellFormed(c) && f.me in c.servers && c.nodes[f.me].role.Leader? && Enabled(c, EndRound(r))
    requires c.rounds[r].owner == f.me
    ensures WellFormed(DoEndRound(c, r)) && LeaderStep(f, c, DoEndRound(c, r))
    ensures DoEndRound(c, r).appendCalls == c.appendCalls
  {
    DoEndRoundKeepsWellFormed(c, r);
  }

  lemma NewCommitFits(f: Tenure, c: Cluster, taken: map<Addr, nat>, r: nat)
    requires Fits(f, c, taken) && Enabled(c, EndRound(r)) && f.base <= r && c.rounds[r].owner == f.me
    requires Majority(|c.rounds[r].acks|, |c.servers|) ==>
      && c.rounds[r].acks <= c.servers
      && forall x | x in c.rounds[r].acks && x != f.me :: x in taken && |c.nodes[f.me].memory.log| <= taken[x]
    ensures forall k | k in DoEndRound(c, r).ledger.commits && k !in c.ledger.commits ::
      CommitFits(f, DoEndRound(c, r), c.nodes[f.me].memory.log, taken, k)
  {
    hide CallsFit, CopiesFit, LedgerFits, RoundsFit, WellFormed;
  }

  lemma EndFits(f: Tenure, c: Cluster, taken: map<Addr, nat>, r: nat)
    requires Fits(f, c, taken) && RoundsOk(c) && AcceptsReach(c) && Enabled(c, EndRound(r)) && f.base <= r
    requires Majority(|c.rounds[r].acks|, |c.servers|) ==> NotGrown(c, r)
    ensures Fits(f, DoEndRound(c, r), taken)
  {
    hide CopiesFit, CommitFits, LeaderStep, Piece, RoundsOk, NotGrown, AcceptsReach, LedgerFits;
    assert c.rounds[r].owner == f.me;
    hide WellFormed;
    if Majority(|c.rounds[r].acks|, |c.servers|) {
      CountedTookAll(f, c, taken, r);
    }
    EndIsLeaderStep(f, c, r);
    NewCommitFits(f, c, taken, r);
    LeaderStepFits(f, c, DoEndRound(c, r), taken);
  }

  // ----- Deliveries of the leader's appends -----

  function TakenNow(taken: Option<nat>, req: AppendRequest): Option<nat> {
    match taken
    case Some(n) => Some(Max(n, End(req)))
    case None => Some(End(req))
  }

  /** An accepted append leaves its receiver with what it took before and now. */
  lemma TakingFits(copy: seq<Entry>, log: seq<Entry>, term: nat, taken: map<Addr, nat>, to: Addr, req: AppendRequest)
    requires CopyFits(copy, log, term, TakenBy(taken, to)) && Piece(log, term, req)
    requires LogMatches(copy, req.prevIndex, req.prevTerm) && KeepsTaken(log, taken, to, req)
    ensures CopyFits(Splice(copy, req.prevIndex, req.entries), log, term, TakenNow(TakenBy(taken, to), req))
  {
    hide Splice, Repeats;
    match TakenBy(taken, to)
    case Some(n) =>
      SpliceHoldsIff(log, copy, n, req.prevIndex, End(req));
      assert log[..req.prevIndex + 1] == log[..n][..req.prevIndex + 1] <= copy;
    case None =>
      assert copy[..req.prevIndex + 1] == log[..req.prevIndex + 1];
      LongSpliceHoldsIff(log, copy, req.prevIndex, End(req));
  }

  /** One delivery, exactly: a server that accepts an append of the leader still holds what it took, and
      holds what it was sent, if and only if it had the leader's log up to where the append starts, and
      the append ends no earlier than what it took or repeats what comes behind. For an append that
      starts inside what the server took, that is the guard. */
  lemma DeliveryHoldsIff(f: Tenure, c: Cluster, taken: map<Addr, nat>, call: AppendCall)
    requires Fits(f, c, taken) && Enabled(c, DeliverAppend(call)) && f.base <= call.round
    requires call.to in c.nodes && AcceptsAppend(c.nodes[call.to], call.req) && call.to in taken
    ensures f.me in c.nodes && taken[call.to] <= |c.nodes[f.me].memory.log|
    ensures var log, copy, req := c.nodes[f.me].memory.log, c.nodes[call.to].memory.log, call.req;
      var after := HandleAppend(c.nodes[call.to], req).0.memory.log;
      var fits := CopyFits(after, log, Term(c, f.me), Some(Max(taken[call.to], End(req))));
      && End(req) <= |log|
      && (fits <==> (log[..req.prevIndex + 1] <= copy
                     && (End(req) >= taken[call.to] || Repeats(log, taken[call.to], req.prevIndex, End(req)))))
      && (req.prevIndex < taken[call.to] ==> (fits <==> KeepsTaken(log, taken, call.to, req)))
  {
    hide LedgerFits, RoundsFit, Splice, Repeats;
    var log, copy, req, n := c.nodes[f.me].memory.log, c.nodes[call.to].memory.log, call.req, taken[call.to];
    assert Piece(log, Term(c, f.me), req) && CopyFits(copy, log, Term(c, f.me), TakenBy(taken, call.to));
    hide CallsFit, CopiesFit, WellFormed;
    SpliceHoldsIff(log, copy, n, req.prevIndex, End(req));
    assert req.prevIndex < n ==> log[..req.prevIndex + 1] == log[..n][..req.prevIndex + 1] <= copy;
  }

  lemma DeliveryCopyFits(f: Tenure, c: Cluster, taken: map<Addr, nat>, call: AppendCall)
    requires Fits(f, c, taken) && Enabled(c, DeliverAppend(call)) && f.base <= call.round
    requires Guarded(f, c, taken, DeliverAppend(call))
    ensures call.to in c.nodes && call.to != f.me && f.me in c.nodes
    ensures CopyFits(HandleAppend(c.nodes[call.to], call.req).0.memory.log, c.nodes[f.me].memory.log, Term(c, f.me),
                     TakenBy(TakenAfter(f, c, taken, DeliverAppend(call)), call.to))
  {
    hide LedgerFits, RoundsFit, CopyFits, KeepsTaken, Splice;
    var log, term, n := c.nodes[f.me].memory.log, Term(c, f.me), c.nodes[call.to];
    assert Piece(log, term, call.req) && CopyFits(n.memory.log, log, term, TakenBy(taken, call.to));
    hide CallsFit, CopiesFit, Piece, WellFormed;
    if AcceptsAppend(n, call.req) {
      TakingFits(n.memory.log, log, term, taken, call.to, call.req);
    }
  }

  lemma DeliveryLedgerFits(f: Tenure, c: Cluster, taken: map<Addr, nat>, call: AppendCall)
    requires Fits(f, c, taken) && Enabled(c, DeliverAppend(call)) && f.base <= call.round
    ensures LedgerFits(f, DoDeliverAppend(c, call), c.nodes[f.me].memory.log,
                       TakenAfter(f, c, taken, DeliverAppend(call)))
  {
    hide CopiesFit, RoundsFit, Piece, CommitFits;
    var taken', c' := TakenAfter(f, c, taken, DeliverAppend(call)), DoDeliverAppend(c, call);
    var log := c.nodes[f.me].memory.log;
    DeliveryAccepts(c, call);
    forall k | k in c'.ledger.commits && f.base <= k.round ensures CommitFits(f, c', log, taken', k) {
      MoreTakenFits(f, c, c', log, taken, taken', k);
    }
    hide HandleAppend, CallsFit, WellFormed, AcceptsAppend;
  }

  lemma DeliveryAccepts(c: Cluster, call: AppendCall)
    requires WellFormed(c) && Enabled(c, DeliverAppend(call))
    ensures DoDeliverAppend(c, call).ledger.accepts ==
      if AcceptsAppend(c.nodes[call.to], call.req) then
        c.ledger.accepts[AcceptKey(call.round, call.to) := Accept(c.ledger.clock, call.req.term, End(call.req))]
      else c.ledger.accepts
    ensures DoDeliverAppend(c, call).ledger.commits == c.ledger.commits
  {
    hide Splice;
  }

  lemma MoreTakenFits(
      f: Tenure, c: Cluster, c': Cluster, log: seq<Entry>, taken: map<Addr, nat>, taken': map<Addr, nat>, k: Commit)
    requires CommitFits(f, c, log, taken, k) && c'.servers == c.servers
    requires forall a | a in taken :: a in taken' && taken[a] <= taken'[a]
    ensures CommitFits(f, c', log, taken', k)
  {
  }

  lemma DeliveryCopiesFit(f: Tenure, c: Cluster, taken: map<Addr, nat>, call: AppendCall)
    requires Fits(f, c, taken) && Enabled(c, DeliverAppend(call)) && f.base <= call.round
    requires Guarded(f, c, taken, DeliverAppend(call)) && WellFormed(DoDeliverAppend(c, call))
    ensures CopiesFit(f, DoDeliverAppend(c, call), c.nodes[f.me].memory.log, Term(c, f.me),
                      TakenAfter(f, c, taken, DeliverAppend(call)))
  {
    DeliveryCopyFits(f, c, taken, call);
    hide HandleAppend, CopyFits, CallsFit, LedgerFits, RoundsFit, KeepsTaken, AcceptsAppend;
  }

  lemma DeliverFits(f: Tenure, c: Cluster, taken: map<Addr, nat>, call: AppendCall)
    requires Fits(f, c, taken) && Enabled(c, DeliverAppend(call)) && f.base <= call.round
    requires Guarded(f, c, taken, DeliverAppend(call))
    ensures Fits(f, DoDeliverAppend(c, call), TakenAfter(f, c, taken, DeliverAppend(call)))
  {
    hide HandleAppend, CopyFits, Piece, LedgerFits, KeepsTaken, AcceptsAppend, CopiesFit, TakenAfter;
    DoDeliverAppendKeepsWellFormed(c, call);
    DeliveryCopiesFit(f, c, taken, call);
    DeliveryLedgerFits(f, c, taken, call);
  }

  // ----- Whole runs -----

  lemma SoundParts(c: Cluster)
    requires Sound(c)
    ensures NodesOk(c) && WellFormed(c) && RoundsOk(c) && AcceptsReach(c)
  {
    hide ElectionsOk, NodesOk, RoundsOk;
    ElectionsGiveNodes(c);
  }

  lemma RoundStepFits(f: Tenure, c: Cluster, taken: map<Addr, nat>, step: Step)
    requires Fits(f, c, taken) && NodesOk(c) && RoundsOk(c) && AcceptsReach(c)
    requires Enabled(c, step) && Guarded(f, c, taken, step) && !Leader.IsSide(f, step) && !step.DeliverAppend?
    ensures Fits(f, Apply(c, step), TakenAfter(f, c, taken, step))
  {
    hide Fits, NodesOk, RoundsOk, AcceptsReach, WellFormed, NotGrown, DoBeginRound, DoSend, DoCountAppend, DoEndRound;
    FitsIsWellFormed(f, c, taken);
    match step
    case BeginRound(_, texts) => BeginFits(f, c, taken, texts);
    case Send(r, to) => LeaderIsOk(f, c, taken); SendFits(f, c, taken, r, to);
    case CountAppend(ans) => CountFits(f, c, taken, ans);
    case EndRound(r) => EndFits(f, c, taken, r);
  }

  lemma DeliveryStepFits(f: Tenure, c: Cluster, taken: map<Addr, nat>, call: AppendCall)
    requires Fits(f, c, taken) && Enabled(c, DeliverAppend(call)) && Guarded(f, c, taken, DeliverAppend(call))
    ensures Fits(f, DoDeliverAppend(c, call), TakenAfter(f, c, taken, DeliverAppend(call)))
  {
    hide Fits, WellFormed, DoDeliverAppend, AcceptsAppend, KeepsTaken;
    FitsIsWellFormed(f, c, taken);
    if f.base <= call.round {
      DeliverFits(f, c, taken, call);
    } else {
      LateDeliveryFits(f, c, taken, call);
    }
  }

  lemma GuardedStepFits(f: Tenure, c: Cluster, taken: map<Addr, nat>, step: Step)
    requires Fits(f, c, taken) && NodesOk(c) && RoundsOk(c) && AcceptsReach(c)
    requires Enabled(c, step) && Guarded(f, c, taken, step)
    ensures Fits(f, Apply(c, step), TakenAfter(f, c, taken, step))
  {
    hide Fits, NodesOk, RoundsOk, AcceptsReach, WellFormed, Enabled, Guarded, TakenAfter, DoDeliverAppend;
    FitsIsWellFormed(f, c, taken);
    if step.DeliverAppend? {
      DeliveryStepFits(f, c, taken, step.appendCall);
    } else if Leader.IsSide(f, step) {
      GuardedSideFits(f, c, taken, step);
    } else {
      RoundStepFits(f, c, taken, step);
    }
  }

  lemma LeaderIsOk(f: Tenure, c: Cluster, taken: map<Addr, nat>)
    requires Fits(f, c, taken) && NodesOk(c)
    ensures f.me in c.nodes && NodeOk(c.nodes[f.me], c.servers)
  {
    hide NodeOk, TermsWithin;
  }

  lemma FitsIsWellFormed(f: Tenure, c: Cluster, taken: map<Addr, nat>)
    requires Fits(f, c, taken)
    ensures WellFormed(c) && f.me in c.servers && f.me in c.nodes
  {
  }

  lemma {:induction false} GuardedRunFits(f: Tenure, c: Cluster, taken: map<Addr, nat>, steps: seq<Step>)
    returns (taken': map<Addr, nat>)
    requires Fits(f, c, taken) && Sound(c) && Legal(c, steps) && f.me in c.servers && GuardedRun(f, c, taken, steps)
    ensures Fits(f, Run(c, steps), taken')
    decreases |steps|
  {
    hide Fits, Sound, Guarded, TakenAfter, Apply, Enabled, WellFormed, NodesOk, RoundsOk, AcceptsReach;
    if steps == [] {
      taken' := taken;
    } else {
      FitsIsWellFormed(f, c, taken);
      SoundParts(c);
      GuardedStepFits(f, c, taken, steps[0]);
      StepKeepsSound(c, steps[0]);
      FitsIsWellFormed(f, Apply(c, steps[0]), TakenAfter(f, c, taken, steps[0]));
      taken' := GuardedRunFits(f, Apply(c, steps[0]), TakenAfter(f, c, taken, steps[0]), steps[1..]);
    }
  }

  /** A reachable state in which `me` leads, and no other server has an entry of its term or disagrees
      with it below an entry of equal index and term. What is committed, and what is on the way, does
      not matter. */
  ghost predicate Succession(c: Cluster, me: Addr) {
    && Reachable(c) && WellFormed(c) && me in c.servers && c.nodes[me].role.Leader?
    && forall a | a in c.servers && a != me ::
         CopyFits(c.nodes[a].memory.log, c.nodes[me].memory.log, Term(c, me), None)
  }

  ghost predicate GuardedLeaderRun(c: Cluster, me: Addr, steps: seq<Step>, end: Cluster) {
    && Succession(c, me) && Legal(c, steps) && GuardedRun(Leader.TenureOf(c, me), c, map[], steps)
    && end == Run(c, steps)
  }

  lemma SuccessionFits(c: Cluster, me: Addr)
    requires Succession(c, me)
    ensures Sound(c) && Fits(Leader.TenureOf(c, me), c, map[])
  {
    hide ElectionsOk, RoundsOk, ReachesOk, Reachable, CopyFits;
    ReachableReaches(c);
    Leader.EarlierRounds(c);
  }

  /** Commits held, with overlapping rounds and appends in any order: every commit of the leader rests on
      a majority of servers whose logs begin, at the end of the run, with all that was committed; and
      the log of a server begins with the leader's as of every append of it that the server accepted. */
  lemma GuardedCommitsHeld(c: Cluster, me: Addr, steps: seq<Step>, end: Cluster)
    requires GuardedLeaderRun(c, me, steps, end)
    ensures WellFormed(end) && me in end.nodes
    ensures forall k | k in end.ledger.commits && c.nextRound <= k.round :: HeldBy(end, me, k.quorum, k.length)
    ensures forall k | k in end.ledger.commits && c.nextRound <= k.round :: Majority(|k.quorum|, |end.servers|)
    ensures forall k | k in end.ledger.accepts && c.nextRound <= k.round && k.server != me ::
      HeldBy(end, me, {k.server}, end.ledger.accepts[k].length)
  {
    hide Sound, GuardedRun, Legal, Reachable;
    SuccessionFits(c, me);
    var taken := GuardedRunFits(Leader.TenureOf(c, me), c, map[], steps);
    hide Succession;
    FitsHolds(Leader.TenureOf(c, me), end, taken);
  }

  /** The logs of all these servers begin with the first `length` entries of the leader's. */
  ghost predicate HeldBy(c: Cluster, me: Addr, who: set<Addr>, length: nat)
    requires me in c.nodes
  {
    && length <= |c.nodes[me].memory.log|
    && forall x | x in who :: x in c.nodes && c.nodes[me].memory.log[..length] <= c.nodes[x].memory.log
  }

  lemma FitsHolds(f: Tenure, c: Cluster, taken: map<Addr, nat>)
    requires Fits(f, c, taken)
    ensures WellFormed(c) && f.me in c.nodes
    ensures forall k | k in c.ledger.commits && f.base <= k.round ::
      HeldBy(c, f.me, k.quorum, k.length) && Majority(|k.quorum|, |c.servers|)
    ensures forall k | k in c.ledger.accepts && f.base <= k.round && k.server != f.me ::
      HeldBy(c, f.me, {k.server}, c.ledger.accepts[k].length)
  {
    hide CallsFit, RoundsFit, CopyFits, HeldBy;
    forall k | k in c.ledger.commits && f.base <= k.round ensures HeldBy(c, f.me, k.quorum, k.length) {
      assert CommitFits(f, c, c.nodes[f.me].memory.log, taken, k);
      TakersHold(f, c, taken, k.quorum, k.length);
    }
    forall k | k in c.ledger.accepts && f.base <= k.round && k.server != f.me
      ensures HeldBy(c, f.me, {k.server}, c.ledger.accepts[k].length)
    {
      TakersHold(f, c, taken, {k.server}, c.ledger.accepts[k].length);
    }
  }

  lemma TakersHold(f: Tenure, c: Cluster, taken: map<Addr, nat>, who: set<Addr>, length: nat)
    requires Fits(f, c, taken) && who <= c.servers
    requires forall x | x in who && x != f.me :: x in taken && length <= taken[x]
    requires f.me in who ==> length <= |c.nodes[f.me].memory.log|
    requires who != {}
    ensures f.me in c.nodes && HeldBy(c, f.me, who, length)
  {
    hide CallsFit, RoundsFit, LedgerFits;
    var log := c.nodes[f.me].memory.log;
    forall x | x in who ensures x in c.nodes && length <= |log| && log[..length] <= c.nodes[x].memory.log {
      if x != f.me {
        assert CopyFits(c.nodes[x].memory.log, log, Term(c, f.me), TakenBy(taken, x));
        assert log[..length] == log[..taken[x]][..length];
      }
    }
  }
}
