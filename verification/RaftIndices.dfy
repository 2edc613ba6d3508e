/** The indices a leader keeps for every server: where it starts, what moves them over a run, and what they
    mean when replies are heard in time. */
module RaftIndices {
  import opened Common
  import opened Raft
  import opened RaftCluster
  import opened RaftElectionRuns
  import opened RaftElections
  import opened RaftGuardedRuns
  import opened RaftInTimeRuns
  import opened RaftNodes
  import opened RaftOverlap
  import opened RaftRounds
  import opened RaftTerms
  import Leader = RaftLeaderRuns

  // ----- The start -----

  /** The first request of a new leader: its last entry, or nothing if it has the init entry alone. */
  predicate AsksForLast(log: seq<Entry>, req: AppendRequest) {
    && |log| > 0
    && (|log| >= 2 ==> req.prevIndex == |log| - 2 && req.entries == [Last(log)])
    && (|log| == 1 ==> req.prevIndex == 0 && req.entries == [])
    && req.prevTerm == log[req.prevIndex].term
  }

  /** A server that wins an election would send every server its last entry, and takes nobody to have
      anything. */
  lemma WinnerAsksForLast(c: Cluster, a: Addr)
    requires NodesOk(c) && Enabled(c, Finish(a)) && c.nodes[a].role.Candidate?
    requires DoFinish(c, a).nodes[a].role.Leader?
    ensures forall to | to in c.servers ::
      var n := DoFinish(c, a).nodes[a];
      && to in n.role.nextIndex && AsksForLast(n.memory.log, AppendRequestFor(n, to))
      && to in n.role.matchIndex && n.role.matchIndex[to] == 0
  {
    assert NodeOk(c.nodes[a], c.servers);
    hide NodeOk, TermsWithin;
    DecidedLeader(c.nodes[a], c.servers, |c.campaigns[a].grants| + 1);
  }

  lemma DecidedLeader(n: NodeState, servers: set<Addr>, votes: nat)
    requires |n.memory.log| > 0 && n.role.Candidate? && FinishElection(n, servers, votes).role.Leader?
    ensures var m := FinishElection(n, servers, votes);
      && m.memory.log == n.memory.log
      && forall to | to in servers ::
           && to in m.role.nextIndex && AsksForLast(m.memory.log, AppendRequestFor(m, to))
           && to in m.role.matchIndex && m.role.matchIndex[to] == 0
  {
    var m := FinishElection(n, servers, votes);
    forall to | to in servers
      ensures to in m.role.nextIndex && AsksForLast(m.memory.log, AppendRequestFor(m, to))
    {
      FirstRequest(m, to);
    }
  }

  lemma FirstRequest(m: NodeState, to: Addr)
    requires m.role.Leader? && to in m.role.nextIndex && |m.memory.log| > 0
    requires m.role.nextIndex[to] == |m.memory.log| - 1
    ensures AsksForLast(m.memory.log, AppendRequestFor(m, to))
  {
  }

  /** A follower that already has the leader's log takes that last entry a second time. */
  lemma FirstAppendDoublesLast(log: seq<Entry>, n: NodeState, req: AppendRequest)
    requires AsksForLast(log, req) && n.memory.log == log && |log| >= 2
    requires AcceptsAppend(n, req)
    ensures HandleAppend(n, req).0.memory.log == log + [Last(log)]
  {
  }

  // ----- Over a run -----

  /** What a leader knows of one server: where to send from, and up to where it has acknowledged. */
  datatype Indices = Indices(next: nat, acknowledged: nat)

  ghost function IndicesOf(c: Cluster, a: Addr, x: Addr): Indices
    requires a in c.nodes && c.nodes[a].role.Leader?
    requires x in c.nodes[a].role.nextIndex && x in c.nodes[a].role.matchIndex
  {
    Indices(c.nodes[a].role.nextIndex[x], c.nodes[a].role.matchIndex[x])
  }

  /** The step makes `a` count a success of `x`: a reply that says so, or its own turn in its own round. */
  ghost predicate CountsSuccess(c: Cluster, step: Step, a: Addr, x: Addr)
    requires WellFormed(c) && Enabled(c, step)
  {
    match step
    case Send(r, to) => c.rounds[r].owner == a == to == x
    case CountAppend(ans) => c.rounds[ans.round].owner == a && ans.from == x && ans.success
    case _ => false
  }

  ghost predicate CountsFailure(c: Cluster, step: Step, a: Addr, x: Addr)
    requires WellFormed(c) && Enabled(c, step)
  {
    step.CountAppend? && c.rounds[step.appendAnswer.round].owner == a && step.appendAnswer.from == x
    && !step.appendAnswer.success
  }

  /** A success brings both indices to the end of the log as it is then, a failure moves the first back by
      one, and nothing else moves them. */
  ghost function IndicesAfter(c: Cluster, step: Step, a: Addr, x: Addr, was: Indices): Indices
    requires WellFormed(c) && Enabled(c, step) && a in c.servers
  {
    var length := |c.nodes[a].memory.log|;
    if CountsSuccess(c, step, a, x) then Indices(length, if length > 0 then length - 1 else 0)
    else if CountsFailure(c, step, a, x) && was.next > 0 then was.(next := was.next - 1)
    else was
  }

  ghost function IndicesBehind(c: Cluster, steps: seq<Step>, a: Addr, x: Addr, was: Indices): Indices
    requires WellFormed(c) && Legal(c, steps) && a in c.servers
    decreases |steps|
  {
    if steps == [] then was
    else
      StepMovesOne(c, steps[0]);
      IndicesBehind(Apply(c, steps[0]), steps[1..], a, x, IndicesAfter(c, steps[0], a, x, was))
  }

  lemma LeaderHasIndices(c: Cluster, a: Addr, x: Addr)
    requires NodesOk(c) && a in c.servers && c.nodes[a].role.Leader? && x in c.servers
    ensures WellFormed(c) && a in c.nodes && x in c.nodes[a].role.nextIndex && x in c.nodes[a].role.matchIndex
  {
    assert NodeOk(c.nodes[a], c.servers);
    hide TermsWithin;
  }

  lemma ReplyMovesIndices(n: NodeState, from: Addr, success: bool, x: Addr)
    requires n.role.Leader? && |n.memory.log| > 0
    requires x in n.role.nextIndex && x in n.role.matchIndex
    ensures var m, was := HandleAppendReply(n, from, success), Indices(n.role.nextIndex[x], n.role.matchIndex[x]);
      && m.role.Leader? && x in m.role.nextIndex && x in m.role.matchIndex
      && Indices(m.role.nextIndex[x], m.role.matchIndex[x])
           == if from != x then was
              else if success then Indices(|n.memory.log|, |n.memory.log| - 1)
              else Indices(if was.next > 0 then was.next - 1 else 0, was.acknowledged)
  {
  }

  lemma OthersLeaveRole(c: Cluster, step: Step, a: Addr)
    requires WellFormed(c) && Enabled(c, step) && a in c.nodes && Mover(c, step) == a
    requires c.nodes[a].role.Leader? && Moved(c, step).role.Leader? && !step.Send? && !step.CountAppend?
    ensures Moved(c, step).role == c.nodes[a].role
  {
    hide HandleAppend, HandleVote;
    match step
    case DeliverAppend(call) => AppendSetsTerm(c.nodes[a], call.req);
    case DeliverVote(call) => VoteSetsTerm(c.nodes[a], call.req);
    case _ =>
  }

  lemma SendMovesIndices(c: Cluster, r: nat, to: Addr, x: Addr)
    requires WellFormed(c) && Enabled(c, Send(r, to)) && c.rounds[r].owner in c.nodes
    requires var n := c.nodes[c.rounds[r].owner];
      n.role.Leader? && |n.memory.log| > 0 && x in n.role.nextIndex && x in n.role.matchIndex
    ensures var a, m := c.rounds[r].owner, Moved(c, Send(r, to));
      && m.role.Leader? && x in m.role.nextIndex && x in m.role.matchIndex
      && Indices(m.role.nextIndex[x], m.role.matchIndex[x])
           == IndicesAfter(c, Send(r, to), a, x, IndicesOf(c, a, x))
  {
    hide WellFormed;
  }

  lemma CountMovesIndices(c: Cluster, ans: AppendAnswer, x: Addr)
    requires WellFormed(c) && Enabled(c, CountAppend(ans)) && c.rounds[ans.round].owner in c.nodes
    requires var n := c.nodes[c.rounds[ans.round].owner];
      n.role.Leader? && |n.memory.log| > 0 && x in n.role.nextIndex && x in n.role.matchIndex
    ensures var a, m := c.rounds[ans.round].owner, Moved(c, CountAppend(ans));
      && m.role.Leader? && x in m.role.nextIndex && x in m.role.matchIndex
      && Indices(m.role.nextIndex[x], m.role.matchIndex[x])
           == IndicesAfter(c, CountAppend(ans), a, x, IndicesOf(c, a, x))
  {
    ReplyMovesIndices(c.nodes[c.rounds[ans.round].owner], ans.from, ans.success, x);
    hide WellFormed, HandleAppendReply;
  }

  lemma OthersCountNothing(c: Cluster, step: Step, a: Addr, x: Addr, was: Indices)
    requires WellFormed(c) && Enabled(c, step) && a in c.servers && !step.Send? && !step.CountAppend?
    ensures IndicesAfter(c, step, a, x, was) == was
  {
    hide WellFormed, Enabled;
  }

  lemma SelfOnlyMoves(c: Cluster, step: Step, a: Addr, x: Addr)
    requires WellFormed(c) && Enabled(c, step) && a in c.nodes && a in c.servers && Mover(c, step) == a
    requires c.nodes[a].role.Leader? && Moved(c, step).role.Leader?
    requires x in c.nodes[a].role.nextIndex && x in c.nodes[a].role.matchIndex
    ensures var m := Moved(c, step);
      && x in m.role.nextIndex && x in m.role.matchIndex
      && Indices(m.role.nextIndex[x], m.role.matchIndex[x]) == IndicesAfter(c, step, a, x, IndicesOf(c, a, x))
  {
    assert |c.nodes[a].memory.log| > 0;
    hide Moved, IndicesAfter, WellFormed;
    if step.Send? {
      SendMovesIndices(c, step.round, step.to, x);
    } else if step.CountAppend? {
      CountMovesIndices(c, step.appendAnswer, x);
    } else {
      OthersLeaveRole(c, step, a);
      OthersCountNothing(c, step, a, x, IndicesOf(c, a, x));
    }
  }

  lemma StepMovesIndices(c: Cluster, step: Step, a: Addr, x: Addr)
    requires NodesOk(c) && Enabled(c, step) && a in c.servers && x in c.servers && WellFormed(Apply(c, step))
    requires a in c.nodes && c.nodes[a].role.Leader?
    requires a in Apply(c, step).nodes && Apply(c, step).nodes[a].role.Leader?
    requires x in c.nodes[a].role.nextIndex && x in c.nodes[a].role.matchIndex
    requires var m := Apply(c, step).nodes[a]; x in m.role.nextIndex && x in m.role.matchIndex
    ensures IndicesOf(Apply(c, step), a, x) == IndicesAfter(c, step, a, x, IndicesOf(c, a, x))
  {
    hide Apply, Moved, NodeOk, TermsWithin;
    StepMovesOne(c, step);
    if Mover(c, step) == a {
      SelfOnlyMoves(c, step, a, x);
    }
  }

  /** Over any run in which `a` leads throughout, its indices for `x` are those the counted replies of `x`
      give, from what they were. */
  lemma {:induction false} IndicesFollowReplies(c: Cluster, steps: seq<Step>, a: Addr, x: Addr)
    requires NodesOk(c) && Legal(c, steps) && a in c.servers && x in c.servers && LeadsThroughout(c, steps, a)
    ensures var end := Run(c, steps);
      && a in c.nodes && c.nodes[a].role.Leader? && a in end.nodes && end.nodes[a].role.Leader?
      && x in c.nodes[a].role.nextIndex && x in c.nodes[a].role.matchIndex
      && x in end.nodes[a].role.nextIndex && x in end.nodes[a].role.matchIndex
      && IndicesOf(end, a, x) == IndicesBehind(c, steps, a, x, IndicesOf(c, a, x))
    decreases |steps|
  {
    hide Apply, Enabled, NodesOk, WellFormed, IndicesAfter;
    LeaderHasIndices(c, a, x);
    if steps != [] {
      StepKeepsNodesOk(c, steps[0]);
      StepMovesOne(c, steps[0]);
      IndicesFollowReplies(Apply(c, steps[0]), steps[1..], a, x);
      StepMovesIndices(c, steps[0], a, x);
    }
  }

  /** The run makes `a` count a success of `x`. */
  ghost predicate EverCounts(c: Cluster, steps: seq<Step>, a: Addr, x: Addr)
    requires WellFormed(c) && Legal(c, steps)
    decreases |steps|
  {
    steps != [] &&
    (CountsSuccess(c, steps[0], a, x) ||
     (StepMovesOne(c, steps[0]);
      EverCounts(Apply(c, steps[0]), steps[1..], a, x)))
  }

  lemma {:induction false} UncountedStays(c: Cluster, steps: seq<Step>, a: Addr, x: Addr, was: Indices)
    requires WellFormed(c) && Legal(c, steps) && a in c.servers && !EverCounts(c, steps, a, x)
    ensures IndicesBehind(c, steps, a, x, was).acknowledged == was.acknowledged
    ensures IndicesBehind(c, steps, a, x, was).next <= was.next
    decreases |steps|
  {
    hide Apply, Enabled, WellFormed;
    if steps != [] {
      StepMovesOne(c, steps[0]);
      UncountedStays(Apply(c, steps[0]), steps[1..], a, x, IndicesAfter(c, steps[0], a, x, was));
    }
  }

  /** From its win on, a leader takes a server to have nothing until it has counted a success of it, and
      sends from no later than its last entry at the win. */
  lemma NothingKnownUntilSuccess(c: Cluster, a: Addr, steps: seq<Step>, x: Addr)
    requires NodesOk(c) && Enabled(c, Finish(a)) && c.nodes[a].role.Candidate? && x in c.servers
    requires WellFormed(DoFinish(c, a)) && Legal(DoFinish(c, a), steps) && a in c.servers
    requires LeadsThroughout(DoFinish(c, a), steps, a) && !EverCounts(DoFinish(c, a), steps, a, x)
    ensures var end := Run(DoFinish(c, a), steps);
      && a in end.nodes && end.nodes[a].role.Leader?
      && x in end.nodes[a].role.nextIndex && x in end.nodes[a].role.matchIndex
      && end.nodes[a].role.matchIndex[x] == 0
      && end.nodes[a].role.nextIndex[x] < |c.nodes[a].memory.log|
  {
    hide Run, Legal, LeadsThroughout, EverCounts, TermsWithin;
    var won := DoFinish(c, a);
    StepKeepsNodesOk(c, Finish(a));
    assert won == Apply(c, Finish(a)) && won.servers == c.servers;
    LeadsAtFirst(won, steps, a);
    WinnerIndices(c, a, x);
    hide NodesOk, DoFinish;
    IndicesFollowReplies(won, steps, a, x);
    UncountedStays(won, steps, a, x, IndicesOf(won, a, x));
  }

  lemma LeadsAtFirst(c: Cluster, steps: seq<Step>, a: Addr)
    requires WellFormed(c) && Legal(c, steps) && a in c.servers && LeadsThroughout(c, steps, a)
    ensures a in c.nodes && c.nodes[a].role.Leader?
  {
    hide Legal;
  }

  lemma WinnerIndices(c: Cluster, a: Addr, x: Addr)
    requires WellFormed(c) && Enabled(c, Finish(a)) && c.nodes[a].role.Candidate? && x in c.servers
    requires a in DoFinish(c, a).nodes && DoFinish(c, a).nodes[a].role.Leader?
    ensures var n := DoFinish(c, a).nodes[a];
      && x in n.role.nextIndex && x in n.role.matchIndex && n.role.matchIndex[x] == 0
      && n.role.nextIndex[x] + 1 == |c.nodes[a].memory.log|
  {
  }

  // ----- What they mean -----

  /** What a server has acknowledged, as the leader has it, it took. */
  ghost predicate AcknowledgedTaken(f: Tenure, role: Role, servers: set<Addr>, taken: map<Addr, nat>) {
    role.Leader? && forall x | x in servers && x != f.me ::
      x in role.matchIndex && (role.matchIndex[x] == 0 || (x in taken && role.matchIndex[x] < taken[x]))
  }

  ghost predicate Acknowledges(f: Tenure, c: Cluster, taken: map<Addr, nat>) {
    f.me in c.nodes && AcknowledgedTaken(f, c.nodes[f.me].role, c.servers, taken)
  }

  lemma SameRoleAcknowledges(f: Tenure, c: Cluster, c': Cluster, taken: map<Addr, nat>, taken': map<Addr, nat>)
    requires Acknowledges(f, c, taken) && c'.servers == c.servers && f.me in c'.nodes
    requires c'.nodes[f.me].role == c.nodes[f.me].role
    requires forall x | x in taken :: x in taken' && taken[x] <= taken'[x]
    ensures Acknowledges(f, c', taken')
  {
  }

  lemma TakenGrows(f: Tenure, c: Cluster, taken: map<Addr, nat>, step: Step)
    requires WellFormed(c) && Enabled(c, step)
    ensures forall x | x in taken ::
      x in TakenAfter(f, c, taken, step) && taken[x] <= TakenAfter(f, c, taken, step)[x]
  {
    hide AcceptsAppend;
  }

  lemma SelfSendAcknowledges(f: Tenure, c: Cluster, taken: map<Addr, nat>, r: nat, to: Addr)
    requires WellFormed(c) && Acknowledges(f, c, taken) && Enabled(c, Send(r, to)) && c.rounds[r].owner == f.me
    ensures Acknowledges(f, DoSend(c, r, to), taken)
  {
    hide AppendRequestFor;
  }

  lemma CountAcknowledges(f: Tenure, c: Cluster, taken: map<Addr, nat>, ans: AppendAnswer)
    requires WellFormed(c) && Acknowledges(f, c, taken) && Enabled(c, CountAppend(ans))
    requires c.rounds[ans.round].owner == f.me
    requires ans.success && ans.from != f.me ==> ans.from in taken && |c.nodes[f.me].memory.log| <= taken[ans.from]
    ensures Acknowledges(f, DoCountAppend(c, ans), taken)
  {
    assert |c.nodes[f.me].memory.log| > 0;
    hide WellFormed;
  }

  lemma RoundAcknowledges(f: Tenure, c: Cluster, taken: map<Addr, nat>, step: Step)
    requires Fits(f, c, taken) && RoundsOk(c) && AcceptsReach(c) && Acknowledges(f, c, taken)
    requires Enabled(c, step) && InTime(f, c, taken, step) && !Leader.IsSide(f, step) && !step.DeliverAppend?
    ensures Acknowledges(f, Apply(c, step), taken)
  {
    hide CallsFit, CopiesFit, LedgerFits, RoundsOk, AcceptsReach, NotGrown, NotGrownSince, Acknowledges,
      DoBeginRound, DoSend, DoCountAppend, DoEndRound;
    OwnRounds(f, c, taken);
    hide RoundsFit, WellFormed;
    match step
    case BeginRound(_, texts) => BeginAcknowledges(f, c, taken, texts);
    case Send(r, to) => SelfSendAcknowledges(f, c, taken, r, to);
    case CountAppend(ans) =>
      if ans.success && ans.from != f.me {
        HeardIsTaken(f, c, taken, ans);
      }
      CountAcknowledges(f, c, taken, ans);
    case EndRound(r) => EndAcknowledges(f, c, taken, r);
  }

  lemma BeginAcknowledges(f: Tenure, c: Cluster, taken: map<Addr, nat>, texts: seq<string>)
    requires WellFormed(c) && Acknowledges(f, c, taken) && Enabled(c, BeginRound(f.me, texts))
    ensures Acknowledges(f, DoBeginRound(c, f.me, texts), taken)
  {
  }

  lemma EndAcknowledges(f: Tenure, c: Cluster, taken: map<Addr, nat>, r: nat)
    requires WellFormed(c) && Acknowledges(f, c, taken) && Enabled(c, EndRound(r)) && c.rounds[r].owner == f.me
    ensures Acknowledges(f, DoEndRound(c, r), taken)
  {
  }

  lemma StepAcknowledges(f: Tenure, c: Cluster, taken: map<Addr, nat>, step: Step)
    requires Fits(f, c, taken) && NodesOk(c) && RoundsOk(c) && AcceptsReach(c) && Acknowledges(f, c, taken)
    requires Enabled(c, step) && InTime(f, c, taken, step) && Guarded(f, c, taken, step)
    ensures Acknowledges(f, Apply(c, step), TakenAfter(f, c, taken, step))
  {
    hide NodesOk, RoundsOk, AcceptsReach, Enabled, TakenAfter, DoDeliverAppend, Acknowledges, Guarded, InTime,
      CallsFit, CopiesFit, LedgerFits, RoundsFit;
    FitsIsWellFormed(f, c, taken);
    TakenGrows(f, c, taken, step);
    if step.DeliverAppend? {
      DeliveryLeavesLeader(f, c, taken, step.appendCall);
      SameRoleAcknowledges(f, c, Apply(c, step), taken, TakenAfter(f, c, taken, step));
    } else if Leader.IsSide(f, step) {
      OwnRoleStays(f, c, taken, step);
      StepMovesOne(c, step);
      SameRoleAcknowledges(f, c, Apply(c, step), taken, TakenAfter(f, c, taken, step));
    } else {
      RoundAcknowledges(f, c, taken, step);
      OtherStepsTakeNothing(f, c, taken, step);
    }
  }

  lemma OtherStepsTakeNothing(f: Tenure, c: Cluster, taken: map<Addr, nat>, step: Step)
    requires WellFormed(c) && Enabled(c, step) && !step.DeliverAppend?
    ensures TakenAfter(f, c, taken, step) == taken
  {
  }

  lemma DeliveryLeavesLeader(f: Tenure, c: Cluster, taken: map<Addr, nat>, call: AppendCall)
    requires Fits(f, c, taken) && Enabled(c, DeliverAppend(call)) && Guarded(f, c, taken, DeliverAppend(call))
    ensures var c' := DoDeliverAppend(c, call);
      c'.servers == c.servers && f.me in c.nodes && f.me in c'.nodes && c'.nodes[f.me].role == c.nodes[f.me].role
  {
    hide CopiesFit, LedgerFits, RoundsFit, AcceptsAppend, HandleAppend, KeepsTaken, SameLogs, Leader.SideStep;
    OwnRounds(f, c, taken);
    if call.round < f.base {
      LateSideStep(f, c, call);
    }
  }

  lemma {:induction false} InTimeRunAcknowledges(
      f: Tenure, c: Cluster, taken: map<Addr, nat>, steps: seq<Step>)
    returns (taken': map<Addr, nat>)
    requires Fits(f, c, taken) && Sound(c) && Acknowledges(f, c, taken) && Legal(c, steps) && f.me in c.servers
    requires GuardedRun(f, c, taken, steps) && InTimeRun(f, c, taken, steps)
    ensures Fits(f, Run(c, steps), taken') && Acknowledges(f, Run(c, steps), taken')
    decreases |steps|
  {
    hide Fits, Sound, Guarded, InTime, TakenAfter, Apply, Enabled, WellFormed, NodesOk, RoundsOk, AcceptsReach,
      Acknowledges;
    if steps == [] {
      taken' := taken;
    } else {
      FitsIsWellFormed(f, c, taken);
      SoundParts(c);
      GuardedStepFits(f, c, taken, steps[0]);
      StepAcknowledges(f, c, taken, steps[0]);
      StepKeepsSound(c, steps[0]);
      FitsIsWellFormed(f, Apply(c, steps[0]), TakenAfter(f, c, taken, steps[0]));
      taken' := InTimeRunAcknowledges(f, Apply(c, steps[0]), TakenAfter(f, c, taken, steps[0]), steps[1..]);
    }
  }

  /** A leader that starts with nothing acknowledged, as after a win, and hears replies in time: at any point
      of its run the log of each server begins with the leader's up to the server's match index. */
  lemma AcknowledgedMeansHeld(c: Cluster, me: Addr, steps: seq<Step>, x: Addr)
    requires Succession(c, me) && Legal(c, steps) && InTimeRun(Leader.TenureOf(c, me), c, map[], steps)
    requires me in c.nodes && AcknowledgedTaken(Leader.TenureOf(c, me), c.nodes[me].role, c.servers, map[])
    requires x in c.servers && x != me
    ensures var end := Run(c, steps);
      && me in end.nodes && end.nodes[me].role.Leader? && x in end.nodes[me].role.matchIndex
      && HeldBy(end, me, {x}, end.nodes[me].role.matchIndex[x] + 1)
  {
    hide InTimeRun, GuardedRun, Legal, Fits, Sound, Run;
    InTimeLeaderRun(c, me, steps);
    SuccessionFits(c, me);
    assert Reachable(c);
    hide Succession, Reachable;
    var taken := InTimeRunAcknowledges(Leader.TenureOf(c, me), c, map[], steps);
    RunKeepsServers(c, steps);
    RunIsReachable(c, steps);
    TakenIsAcknowledged(Leader.TenureOf(c, me), Run(c, steps), taken, x);
  }

  lemma {:induction false} RunKeepsServers(c: Cluster, steps: seq<Step>)
    requires WellFormed(c) && Legal(c, steps)
    ensures Run(c, steps).servers == c.servers
    decreases |steps|
  {
    hide WellFormed, Enabled, Apply;
    if steps != [] {
      StepMovesOne(c, steps[0]);
      RunKeepsServers(Apply(c, steps[0]), steps[1..]);
    }
  }

  lemma RunIsReachable(c: Cluster, steps: seq<Step>)
    requires Reachable(c) && WellFormed(c) && Legal(c, steps)
    ensures NodesOk(Run(c, steps))
  {
    hide NodesOk, ElectionsOk, WellFormed;
    ReachableIsOk(c);
    ElectionsGiveNodes(c);
    NodesAlwaysOk(c, steps);
  }

  lemma TakenIsAcknowledged(f: Tenure, c: Cluster, taken: map<Addr, nat>, x: Addr)
    requires Fits(f, c, taken) && NodesOk(c) && Acknowledges(f, c, taken) && x in c.servers && x != f.me
    ensures f.me in c.nodes && c.nodes[f.me].role.Leader? && x in c.nodes[f.me].role.matchIndex
    ensures HeldBy(c, f.me, {x}, c.nodes[f.me].role.matchIndex[x] + 1)
  {
    hide CallsFit, LedgerFits, RoundsFit, TermsWithin;
    var log, k := c.nodes[f.me].memory.log, c.nodes[f.me].role.matchIndex[x];
    assert NodeOk(c.nodes[x], c.servers) && NodeOk(c.nodes[f.me], c.servers);
    assert log[0] == INIT_ENTRY == c.nodes[x].memory.log[0] && k < |log| && |c.nodes[x].memory.log| > 0;
    hide NodesOk, NodeOk, WellFormed;
    if k == 0 {
      assert log[..1] == [INIT_ENTRY] <= c.nodes[x].memory.log;
    } else {
      assert CopyFits(c.nodes[x].memory.log, log, Term(c, f.me), TakenBy(taken, x));
      assert log[..k + 1] == log[..taken[x]][..k + 1];
    }
  }
}
