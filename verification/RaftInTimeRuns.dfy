/** When the conditions of module RaftGuardedRuns come for free: with replies heard in time only the order
    of appends is left of them, and with rounds that do not overlap replies are always heard in time. */
module RaftInTimeRuns {
  import opened Common
  import opened Raft
  import opened RaftCluster
  import opened RaftElectionRuns
  import opened RaftElections
  import opened RaftGuardedRuns
  import opened RaftLaws
  import opened RaftNodes
  import opened RaftOverlap
  import opened RaftRounds
  import Leader = RaftLeaderRuns

  // ----- Replies heard in time -----

  /** Of the condition on deliveries only the order is left, when the leader counts a success only while
      its log has not grown since the request was built. */
  ghost predicate InTime(f: Tenure, c: Cluster, taken: map<Addr, nat>, step: Step)
    requires WellFormed(c) && Enabled(c, step) && f.me in c.servers
  {
    match step
    case DeliverAppend(call) =>
      if f.base <= call.round then
        AcceptsAppend(c.nodes[call.to], call.req) ==> EndsLater(c.nodes[f.me].memory.log, taken, call.to, call.req)
      else TurnsAway(f, c, call)
    case CountAppend(ans) =>
      if f.base <= ans.round then
        ans.success && ans.from != f.me ==> NotGrownSince(c, ans.round, ans.from)
      else c.rounds[ans.round].owner != f.me
    case Send(r, _) => f.base <= r || c.rounds[r].owner != f.me
    case _ => Guarded(f, c, taken, step)
  }

  /** The owner's log has not grown since it built the request of the round to `x`. */
  ghost predicate NotGrownSince(c: Cluster, r: nat, x: Addr)
    requires WellFormed(c) && r in c.rounds
  {
    x in c.rounds[r].built && |c.nodes[c.rounds[r].owner].memory.log| <= c.rounds[r].built[x]
  }

  ghost predicate EndsLater(log: seq<Entry>, taken: map<Addr, nat>, to: Addr, req: AppendRequest) {
    to in taken && taken[to] <= |log| && req.prevIndex < taken[to] ==>
      End(req) >= taken[to] || Repeats(log, taken[to], req.prevIndex, End(req))
  }

  ghost predicate InTimeRun(f: Tenure, c: Cluster, taken: map<Addr, nat>, steps: seq<Step>)
    requires WellFormed(c) && Legal(c, steps) && f.me in c.servers
    decreases |steps|
  {
    steps == [] ||
    (InTime(f, c, taken, steps[0]) &&
     (StepMovesOne(c, steps[0]);
      InTimeRun(f, Apply(c, steps[0]), TakenAfter(f, c, taken, steps[0]), steps[1..])))
  }

  /** How far requests to a server may start: inside what it took, or inside the log the run began with. */
  function Reach(taken: map<Addr, nat>, floor: nat, a: Addr): nat {
    if a in taken then taken[a] else floor
  }

  ghost predicate RequestsBehind(f: Tenure, calls: set<AppendCall>, taken: map<Addr, nat>, floor: nat) {
    && (forall a | a in taken :: floor <= taken[a])
    && forall m | m in calls && f.base <= m.round ::
         floor <= End(m.req) && m.req.prevIndex < Reach(taken, floor, m.to)
  }

  ghost predicate NextBehind(f: Tenure, role: Role, servers: set<Addr>, taken: map<Addr, nat>, floor: nat) {
    role.Leader? && forall a | a in servers && a != f.me ::
      a in role.nextIndex && PrevIndex(role.nextIndex[a]) < Reach(taken, floor, a)
  }

  ghost predicate Behind(f: Tenure, c: Cluster, taken: map<Addr, nat>, floor: nat) {
    && f.me in c.nodes && floor <= |c.nodes[f.me].memory.log|
    && RequestsBehind(f, c.appendCalls, taken, floor)
    && NextBehind(f, c.nodes[f.me].role, c.servers, taken, floor)
  }

  lemma InTimeIsGuarded(f: Tenure, c: Cluster, taken: map<Addr, nat>, floor: nat, step: Step)
    requires WellFormed(c) && f.me in c.servers && Behind(f, c, taken, floor) && Enabled(c, step)
    requires InTime(f, c, taken, step)
    ensures Guarded(f, c, taken, step)
  {
    hide WellFormed, NextBehind, AcceptsAppend, Repeats;
  }

  lemma SideStaysBehind(f: Tenure, c: Cluster, c': Cluster, taken: map<Addr, nat>, floor: nat)
    requires WellFormed(c) && WellFormed(c') && Behind(f, c, taken, floor)
    requires Leader.SideStep(f, c, c') && SameLogs(f, c, c') && c'.nodes[f.me].role == c.nodes[f.me].role
    ensures Behind(f, c', taken, floor)
  {
    hide NextBehind;
  }

  lemma BeginStaysBehind(f: Tenure, c: Cluster, taken: map<Addr, nat>, floor: nat, texts: seq<string>)
    requires WellFormed(c) && Behind(f, c, taken, floor) && Enabled(c, BeginRound(f.me, texts))
    ensures Behind(f, DoBeginRound(c, f.me, texts), taken, floor)
  {
    hide WellFormed, NextBehind, RequestsBehind;
  }

  lemma SendStaysBehind(f: Tenure, c: Cluster, taken: map<Addr, nat>, floor: nat, r: nat, to: Addr)
    requires WellFormed(c) && Behind(f, c, taken, floor) && Enabled(c, Send(r, to)) && c.rounds[r].owner == f.me
    requires NodeOk(c.nodes[f.me], c.servers)
    ensures Behind(f, DoSend(c, r, to), taken, floor)
  {
    hide NodeOk, AppendRequestFor;
    RequestReaches(c.nodes[f.me], c.servers, to);
    SentPrev(c.nodes[f.me], to);
    hide WellFormed;
  }

  lemma SentPrev(n: NodeState, to: Addr)
    requires n.role.Leader? && to in n.role.nextIndex
    ensures AppendRequestFor(n, to).prevIndex == PrevIndex(n.role.nextIndex[to])
  {
  }

  lemma MoreReach(f: Tenure, calls: set<AppendCall>, role: Role, servers: set<Addr>, taken: map<Addr, nat>, floor: nat,
                  to: Addr, n: nat)
    requires RequestsBehind(f, calls, taken, floor) && NextBehind(f, role, servers, taken, floor) && floor <= n
    ensures var more := taken[to := if to in taken then Max(taken[to], n) else n];
      RequestsBehind(f, calls, more, floor) && NextBehind(f, role, servers, more, floor)
  {
  }

  lemma DeliveryStaysBehind(f: Tenure, c: Cluster, taken: map<Addr, nat>, floor: nat, call: AppendCall)
    requires WellFormed(c) && Behind(f, c, taken, floor) && Enabled(c, DeliverAppend(call)) && f.base <= call.round
    requires call.to != f.me
    ensures Behind(f, DoDeliverAppend(c, call), TakenAfter(f, c, taken, DeliverAppend(call)), floor)
  {
    MoreReach(f, c.appendCalls, c.nodes[f.me].role, c.servers, taken, floor, call.to, End(call.req));
    hide WellFormed, NextBehind, HandleAppend, AcceptsAppend, Reach;
  }

  lemma CountStaysBehind(f: Tenure, c: Cluster, taken: map<Addr, nat>, floor: nat, ans: AppendAnswer)
    requires WellFormed(c) && Behind(f, c, taken, floor) && Enabled(c, CountAppend(ans))
    requires c.rounds[ans.round].owner == f.me
    requires ans.success && ans.from != f.me ==> ans.from in taken && |c.nodes[f.me].memory.log| <= taken[ans.from]
    ensures Behind(f, DoCountAppend(c, ans), taken, floor)
  {
    hide RequestsBehind;
    assert |c.nodes[f.me].memory.log| > 0;
    hide WellFormed;
  }

  lemma EndStaysBehind(f: Tenure, c: Cluster, taken: map<Addr, nat>, floor: nat, r: nat)
    requires WellFormed(c) && Behind(f, c, taken, floor) && Enabled(c, EndRound(r)) && c.rounds[r].owner == f.me
    ensures Behind(f, DoEndRound(c, r), taken, floor)
  {
    hide WellFormed, NextBehind, RequestsBehind;
  }

  /** A success the leader hears stands for what its sender took. */
  lemma HeardIsTaken(f: Tenure, c: Cluster, taken: map<Addr, nat>, ans: AppendAnswer)
    requires Fits(f, c, taken) && RoundsOk(c) && AcceptsReach(c) && Enabled(c, CountAppend(ans)) && f.base <= ans.round
    requires ans.success && ans.from != f.me && InTime(f, c, taken, CountAppend(ans))
    ensures ans.from in taken && f.me in c.nodes && |c.nodes[f.me].memory.log| <= taken[ans.from]
  {
    hide CallsFit, CopiesFit, CommitFits, RoundOk, CallOk, CommitOk, AcceptsBeforeVotes, AcceptsInPast;
    assert AppendAnswerOk(c, ans);
    hide RoundsOk, WellFormed;
    var k := AcceptKey(ans.round, ans.from);
    assert k in c.ledger.accepts && c.rounds[ans.round].owner == f.me;
  }

  lemma RoundStepStaysBehind(f: Tenure, c: Cluster, taken: map<Addr, nat>, floor: nat, step: Step)
    requires Fits(f, c, taken) && NodesOk(c) && RoundsOk(c) && AcceptsReach(c) && Behind(f, c, taken, floor)
    requires Enabled(c, step) && InTime(f, c, taken, step) && !Leader.IsSide(f, step) && !step.DeliverAppend?
    ensures Behind(f, Apply(c, step), TakenAfter(f, c, taken, step), floor)
  {
    hide CallsFit, CopiesFit, LedgerFits, NodesOk, RoundsOk, AcceptsReach, NotGrown, NotGrownSince, Behind,
      DoBeginRound, DoSend, DoCountAppend, DoEndRound;
    OwnRounds(f, c, taken);
    hide RoundsFit, WellFormed;
    match step
    case BeginRound(_, texts) => BeginStaysBehind(f, c, taken, floor, texts);
    case Send(r, to) => LeaderIsOk(f, c, taken); hide Fits, NodeOk; SendStaysBehind(f, c, taken, floor, r, to);
    case CountAppend(ans) =>
      if ans.success && ans.from != f.me {
        HeardIsTaken(f, c, taken, ans);
      }
      CountStaysBehind(f, c, taken, floor, ans);
    case EndRound(r) => EndStaysBehind(f, c, taken, floor, r);
  }

  lemma OwnRounds(f: Tenure, c: Cluster, taken: map<Addr, nat>)
    requires Fits(f, c, taken)
    ensures forall r | r in c.rounds && f.base <= r :: c.rounds[r].owner == f.me
    ensures forall m | m in c.appendCalls && f.base <= m.round :: m.to != f.me
  {
    hide CopiesFit, LedgerFits, Piece;
  }

  lemma GuardedIsQuiet(f: Tenure, c: Cluster, taken: map<Addr, nat>, step: Step)
    requires WellFormed(c) && f.me in c.servers && Enabled(c, step) && Guarded(f, c, taken, step)
    requires Leader.IsSide(f, step)
    ensures step != Crash(f.me)
  {
  }

  /** The leader's own indices are left alone. */
  lemma OwnRoleStays(f: Tenure, c: Cluster, taken: map<Addr, nat>, step: Step)
    requires WellFormed(c) && f.me in c.servers && c.nodes[f.me].role.Leader? && Enabled(c, step)
    requires InTime(f, c, taken, step) && Leader.IsSide(f, step)
    ensures f.me in Apply(c, step).nodes && Apply(c, step).nodes[f.me].role == c.nodes[f.me].role
  {
    hide Apply, Enabled, WellFormed, Moved, Mover, InTime;
    StepMovesOne(c, step);
    OwnMoveKeepsRole(f, c, taken, step);
    ServersHaveNodes(c);
  }

  lemma OwnMoveKeepsRole(f: Tenure, c: Cluster, taken: map<Addr, nat>, step: Step)
    requires WellFormed(c) && f.me in c.servers && c.nodes[f.me].role.Leader? && Enabled(c, step)
    requires InTime(f, c, taken, step) && Leader.IsSide(f, step)
    ensures Mover(c, step) == f.me ==> Moved(c, step).role == c.nodes[f.me].role
  {
    hide HandleVote, NotGrownSince, EndsLater;
    if step.DeliverVote? {
      VoteKeepsLog(c.nodes[step.voteCall.to], step.voteCall.req);
    }
  }

  lemma SideStepStaysBehind(f: Tenure, c: Cluster, taken: map<Addr, nat>, floor: nat, step: Step)
    requires Fits(f, c, taken) && NodesOk(c) && Behind(f, c, taken, floor)
    requires Enabled(c, step) && Guarded(f, c, taken, step) && InTime(f, c, taken, step) && Leader.IsSide(f, step)
    ensures Behind(f, Apply(c, step), TakenAfter(f, c, taken, step), floor)
  {
    hide Leader.SideStep, SameLogs, Apply, NodesOk, Behind, CallsFit, CopiesFit, LedgerFits, RoundsFit, NodeOk;
    SideLeavesLogs(f, c, taken, step);
    GuardedIsQuiet(f, c, taken, step);
    Leader.QuietSideStep(f, c, step);
    OwnRoleStays(f, c, taken, step);
    SideStaysBehind(f, c, Apply(c, step), taken, floor);
  }

  lemma DeliveryStepStaysBehind(f: Tenure, c: Cluster, taken: map<Addr, nat>, floor: nat, call: AppendCall)
    requires Fits(f, c, taken) && Behind(f, c, taken, floor) && Enabled(c, DeliverAppend(call))
    requires Guarded(f, c, taken, DeliverAppend(call))
    ensures Behind(f, DoDeliverAppend(c, call), TakenAfter(f, c, taken, DeliverAppend(call)), floor)
  {
    hide CallsFit, CopiesFit, LedgerFits, RoundsFit, KeepsTaken, AcceptsAppend, HandleAppend, Behind, SameLogs,
      Leader.SideStep, DoDeliverAppend;
    OwnRounds(f, c, taken);
    if f.base <= call.round {
      DeliveryStaysBehind(f, c, taken, floor, call);
    } else {
      LateSideStep(f, c, call);
      SideStaysBehind(f, c, DoDeliverAppend(c, call), taken, floor);
    }
  }

  lemma StepStaysBehind(f: Tenure, c: Cluster, taken: map<Addr, nat>, floor: nat, step: Step)
    requires Fits(f, c, taken) && NodesOk(c) && RoundsOk(c) && AcceptsReach(c) && Behind(f, c, taken, floor)
    requires Enabled(c, step) && InTime(f, c, taken, step) && Guarded(f, c, taken, step)
    ensures WellFormed(Apply(c, step)) && Behind(f, Apply(c, step), TakenAfter(f, c, taken, step), floor)
  {
    hide Fits, NodesOk, RoundsOk, AcceptsReach, WellFormed, Enabled, Guarded, InTime, TakenAfter, DoDeliverAppend,
      Behind;
    FitsIsWellFormed(f, c, taken);
    StepKeepsWellFormed(c, step);
    if step.DeliverAppend? {
      DeliveryStepStaysBehind(f, c, taken, floor, step.appendCall);
    } else if Leader.IsSide(f, step) {
      SideStepStaysBehind(f, c, taken, floor, step);
    } else {
      RoundStepStaysBehind(f, c, taken, floor, step);
    }
  }

  lemma {:induction false} InTimeRunIsGuarded(
      f: Tenure, c: Cluster, taken: map<Addr, nat>, floor: nat, steps: seq<Step>)
    requires Fits(f, c, taken) && Sound(c) && Behind(f, c, taken, floor)
    requires Legal(c, steps) && f.me in c.servers && InTimeRun(f, c, taken, steps)
    ensures GuardedRun(f, c, taken, steps)
    decreases |steps|
  {
    hide Fits, Sound, Guarded, InTime, Behind, TakenAfter, Apply, Enabled, WellFormed, NodesOk, RoundsOk, AcceptsReach;
    if steps != [] {
      FitsIsWellFormed(f, c, taken);
      SoundParts(c);
      InTimeIsGuarded(f, c, taken, floor, steps[0]);
      GuardedStepFits(f, c, taken, steps[0]);
      StepKeepsSound(c, steps[0]);
      StepStaysBehind(f, c, taken, floor, steps[0]);
      FitsIsWellFormed(f, Apply(c, steps[0]), TakenAfter(f, c, taken, steps[0]));
      InTimeRunIsGuarded(f, Apply(c, steps[0]), TakenAfter(f, c, taken, steps[0]), floor, steps[1..]);
    }
  }

  lemma SuccessionIsBehind(c: Cluster, me: Addr)
    requires Succession(c, me)
    ensures me in c.nodes && Behind(Leader.TenureOf(c, me), c, map[], |c.nodes[me].memory.log|)
  {
    hide ElectionsOk, RoundsOk, ReachesOk, Reachable, CopyFits;
    ReachableReaches(c);
    Leader.EarlierRounds(c);
    ElectionsGiveNodes(c);
    assert NodeOk(c.nodes[me], c.servers);
  }

  /** With appends in order and replies heard in time, every run of one leader is guarded; so its
      commits are held, overlapping rounds or not. */
  lemma InTimeLeaderRun(c: Cluster, me: Addr, steps: seq<Step>)
    requires Succession(c, me) && Legal(c, steps) && InTimeRun(Leader.TenureOf(c, me), c, map[], steps)
    ensures GuardedLeaderRun(c, me, steps, Run(c, steps))
  {
    hide InTimeRun, GuardedRun, Legal, Fits, Sound, Behind;
    SuccessionFits(c, me);
    SuccessionIsBehind(c, me);
    InTimeRunIsGuarded(Leader.TenureOf(c, me), c, map[], |c.nodes[me].memory.log|, steps);
  }

  // ----- Rounds that do not overlap -----

  /** A round begins only when no other round of the leader is open; of the condition on deliveries only
      the order is left; commits and replies are free. */
  ghost predicate Sequential(f: Tenure, c: Cluster, taken: map<Addr, nat>, step: Step)
    requires WellFormed(c) && Enabled(c, step) && f.me in c.servers
  {
    match step
    case BeginRound(a, _) => a == f.me && forall r | r in c.rounds :: r < f.base
    case CountAppend(ans) => f.base <= ans.round || c.rounds[ans.round].owner != f.me
    case EndRound(_) => true
    case _ => InTime(f, c, taken, step)
  }

  ghost predicate SequentialRun(f: Tenure, c: Cluster, taken: map<Addr, nat>, steps: seq<Step>)
    requires WellFormed(c) && Legal(c, steps) && f.me in c.servers
    decreases |steps|
  {
    steps == [] ||
    (Sequential(f, c, taken, steps[0]) &&
     (StepMovesOne(c, steps[0]);
      SequentialRun(f, Apply(c, steps[0]), TakenAfter(f, c, taken, steps[0]), steps[1..])))
  }

  /** Every request of an open round was built with the log the leader still has. */
  ghost predicate BuiltNow(f: Tenure, c: Cluster) {
    && f.me in c.nodes
    && forall r, x | r in c.rounds && f.base <= r && x in c.rounds[r].built ::
         c.rounds[r].built[x] == |c.nodes[f.me].memory.log|
  }

  /** Whoever has a successful reply on the way, or is counted by a round that commits, was asked by it. */
  lemma HeardWasBuilt(f: Tenure, c: Cluster, taken: map<Addr, nat>, ans: AppendAnswer)
    requires Fits(f, c, taken) && RoundsOk(c) && AcceptsReach(c) && Enabled(c, CountAppend(ans)) && f.base <= ans.round
    requires ans.success && ans.from != f.me
    ensures ans.from in c.rounds[ans.round].built && c.rounds[ans.round].owner == f.me
  {
    hide CallsFit, CopiesFit, LedgerFits, RoundOk, CallOk, CommitOk, AcceptsBeforeVotes, AcceptsInPast;
    assert AppendAnswerOk(c, ans);
    hide RoundsOk, WellFormed;
    assert AcceptKey(ans.round, ans.from) in c.ledger.accepts && c.rounds[ans.round].owner == f.me;
  }

  lemma CountedWasBuilt(f: Tenure, c: Cluster, taken: map<Addr, nat>, r: nat)
    requires Fits(f, c, taken) && RoundsOk(c) && AcceptsReach(c) && Enabled(c, EndRound(r)) && f.base <= r
    requires Majority(|c.rounds[r].acks|, |c.servers|)
    ensures c.rounds[r].owner == f.me
    ensures forall x | x in c.rounds[r].acks && x != f.me :: x in c.rounds[r].built
  {
    hide CallsFit, CopiesFit, LedgerFits, RoundsOk;
    assert c.rounds[r].owner == f.me && Commits(c, r);
    CountedTook(c, r);
    hide WellFormed;
    forall x | x in c.rounds[r].acks && x != f.me ensures x in c.rounds[r].built {
      assert AcceptKey(r, x) in c.ledger.accepts;
    }
  }

  lemma SequentialIsInTime(f: Tenure, c: Cluster, taken: map<Addr, nat>, step: Step)
    requires Fits(f, c, taken) && RoundsOk(c) && AcceptsReach(c) && BuiltNow(f, c)
    requires Enabled(c, step) && Sequential(f, c, taken, step)
    ensures InTime(f, c, taken, step)
  {
    hide CallsFit, CopiesFit, LedgerFits, RoundsFit, RoundsOk, AcceptsReach;
    match step
    case CountAppend(ans) =>
      if f.base <= ans.round && ans.success && ans.from != f.me {
        HeardWasBuilt(f, c, taken, ans);
      }
    case EndRound(r) =>
      if f.base <= r && Majority(|c.rounds[r].acks|, |c.servers|) {
        CountedWasBuilt(f, c, taken, r);
      }
    case _ =>
  }

  lemma SideKeepsBuiltNow(f: Tenure, c: Cluster, c': Cluster)
    requires WellFormed(c) && WellFormed(c') && BuiltNow(f, c)
    requires Leader.SideStep(f, c, c') && SameLogs(f, c, c')
    ensures BuiltNow(f, c')
  {
  }

  lemma BeginKeepsBuiltNow(f: Tenure, c: Cluster, texts: seq<string>)
    requires WellFormed(c) && f.me in c.servers && BuiltNow(f, c) && Enabled(c, BeginRound(f.me, texts))
    requires forall r | r in c.rounds :: r < f.base
    ensures BuiltNow(f, DoBeginRound(c, f.me, texts))
  {
    hide WellFormed, LeaderAppend;
  }

  lemma SendKeepsBuiltNow(f: Tenure, c: Cluster, r: nat, to: Addr)
    requires WellFormed(c) && BuiltNow(f, c) && Enabled(c, Send(r, to)) && c.rounds[r].owner == f.me
    ensures BuiltNow(f, DoSend(c, r, to))
  {
    hide AppendRequestFor;
  }

  lemma CountKeepsBuiltNow(f: Tenure, c: Cluster, ans: AppendAnswer)
    requires WellFormed(c) && BuiltNow(f, c) && Enabled(c, CountAppend(ans)) && c.rounds[ans.round].owner == f.me
    ensures BuiltNow(f, DoCountAppend(c, ans))
  {
  }

  lemma EndKeepsBuiltNow(f: Tenure, c: Cluster, r: nat)
    requires WellFormed(c) && BuiltNow(f, c) && Enabled(c, EndRound(r)) && c.rounds[r].owner == f.me
    ensures BuiltNow(f, DoEndRound(c, r))
  {
  }

  lemma RoundKeepsBuiltNow(f: Tenure, c: Cluster, taken: map<Addr, nat>, step: Step)
    requires Fits(f, c, taken) && BuiltNow(f, c)
    requires Enabled(c, step) && Sequential(f, c, taken, step) && !Leader.IsSide(f, step) && !step.DeliverAppend?
    ensures BuiltNow(f, Apply(c, step))
  {
    hide CallsFit, CopiesFit, LedgerFits, DoBeginRound, DoSend, DoCountAppend, DoEndRound, BuiltNow;
    OwnRounds(f, c, taken);
    hide RoundsFit, WellFormed;
    match step
    case BeginRound(_, texts) => BeginKeepsBuiltNow(f, c, texts);
    case Send(r, to) => SendKeepsBuiltNow(f, c, r, to);
    case CountAppend(ans) => CountKeepsBuiltNow(f, c, ans);
    case EndRound(r) => EndKeepsBuiltNow(f, c, r);
  }

  lemma DeliveryKeepsBuiltNow(f: Tenure, c: Cluster, call: AppendCall)
    requires WellFormed(c) && BuiltNow(f, c) && Enabled(c, DeliverAppend(call)) && call.to != f.me
    ensures BuiltNow(f, DoDeliverAppend(c, call))
  {
    hide WellFormed, HandleAppend;
  }

  lemma StepKeepsBuiltNow(f: Tenure, c: Cluster, taken: map<Addr, nat>, step: Step)
    requires Fits(f, c, taken) && NodesOk(c) && BuiltNow(f, c)
    requires Enabled(c, step) && Sequential(f, c, taken, step) && Guarded(f, c, taken, step)
    ensures WellFormed(Apply(c, step)) && BuiltNow(f, Apply(c, step))
  {
    hide Fits, NodesOk, WellFormed, Enabled, Guarded, Sequential, DoDeliverAppend, BuiltNow, Apply;
    FitsIsWellFormed(f, c, taken);
    StepKeepsWellFormed(c, step);
    if step.DeliverAppend? {
      AnyDeliveryKeepsBuiltNow(f, c, taken, step.appendCall);
    } else if Leader.IsSide(f, step) {
      SideStepKeepsBuiltNow(f, c, taken, step);
    } else {
      RoundKeepsBuiltNow(f, c, taken, step);
    }
  }

  lemma SideStepKeepsBuiltNow(f: Tenure, c: Cluster, taken: map<Addr, nat>, step: Step)
    requires Fits(f, c, taken) && NodesOk(c) && BuiltNow(f, c)
    requires Enabled(c, step) && Guarded(f, c, taken, step) && Leader.IsSide(f, step)
    ensures BuiltNow(f, Apply(c, step))
  {
    hide Leader.SideStep, SameLogs, Apply, NodesOk, CallsFit, CopiesFit, LedgerFits, RoundsFit, NodeOk;
    SideLeavesLogs(f, c, taken, step);
    GuardedIsQuiet(f, c, taken, step);
    Leader.QuietSideStep(f, c, step);
    SideKeepsBuiltNow(f, c, Apply(c, step));
  }

  lemma AnyDeliveryKeepsBuiltNow(f: Tenure, c: Cluster, taken: map<Addr, nat>, call: AppendCall)
    requires Fits(f, c, taken) && BuiltNow(f, c) && Enabled(c, DeliverAppend(call))
    requires Guarded(f, c, taken, DeliverAppend(call))
    ensures BuiltNow(f, Apply(c, DeliverAppend(call)))
  {
    hide CallsFit, CopiesFit, LedgerFits, RoundsFit, KeepsTaken, AcceptsAppend, HandleAppend, BuiltNow, SameLogs,
      Leader.SideStep, DoDeliverAppend;
    OwnRounds(f, c, taken);
    if f.base <= call.round {
      DeliveryKeepsBuiltNow(f, c, call);
    } else {
      LateSideStep(f, c, call);
      SideKeepsBuiltNow(f, c, DoDeliverAppend(c, call));
    }
  }

  lemma {:induction false} SequentialRunIsInTime(
      f: Tenure, c: Cluster, taken: map<Addr, nat>, floor: nat, steps: seq<Step>)
    requires Fits(f, c, taken) && Sound(c) && Behind(f, c, taken, floor) && BuiltNow(f, c)
    requires Legal(c, steps) && f.me in c.servers && SequentialRun(f, c, taken, steps)
    ensures InTimeRun(f, c, taken, steps)
    decreases |steps|
  {
    hide Fits, Sound, Guarded, InTime, Sequential, Behind, BuiltNow, TakenAfter, Apply, Enabled, WellFormed, NodesOk,
      RoundsOk, AcceptsReach;
    if steps != [] {
      FitsIsWellFormed(f, c, taken);
      SoundParts(c);
      SequentialIsInTime(f, c, taken, steps[0]);
      InTimeIsGuarded(f, c, taken, floor, steps[0]);
      GuardedStepFits(f, c, taken, steps[0]);
      StepKeepsSound(c, steps[0]);
      StepStaysBehind(f, c, taken, floor, steps[0]);
      StepKeepsBuiltNow(f, c, taken, steps[0]);
      FitsIsWellFormed(f, Apply(c, steps[0]), TakenAfter(f, c, taken, steps[0]));
      SequentialRunIsInTime(f, Apply(c, steps[0]), TakenAfter(f, c, taken, steps[0]), floor, steps[1..]);
    }
  }

  /** When rounds do not overlap, the order of appends is all that commits need in order to be held. */
  lemma SequentialLeaderRun(c: Cluster, me: Addr, steps: seq<Step>)
    requires Succession(c, me) && Legal(c, steps) && SequentialRun(Leader.TenureOf(c, me), c, map[], steps)
    ensures GuardedLeaderRun(c, me, steps, Run(c, steps))
  {
    hide InTimeRun, SequentialRun, GuardedRun, Legal, Fits, Sound, Behind;
    SuccessionFits(c, me);
    SuccessionIsBehind(c, me);
    NothingBuilt(c, me);
    SequentialRunIsInTime(Leader.TenureOf(c, me), c, map[], |c.nodes[me].memory.log|, steps);
    InTimeLeaderRun(c, me, steps);
  }

  lemma NothingBuilt(c: Cluster, me: Addr)
    requires Succession(c, me)
    ensures BuiltNow(Leader.TenureOf(c, me), c)
  {
    hide ElectionsOk, RoundsOk, ReachesOk, Reachable, CopyFits;
    ReachableReaches(c);
    Leader.EarlierRounds(c);
  }
}
