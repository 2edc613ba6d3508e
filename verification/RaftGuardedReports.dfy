/** What servers report as committed in the guarded runs of one leader, and that they do not take it
    back. */
module RaftGuardedReports {
  import opened Common
  import opened Raft
  import opened RaftCluster
  import opened RaftElectionRuns
  import opened RaftElections
  import opened RaftGuardedRuns
  import opened RaftNodes
  import opened RaftOverlap
  import opened RaftRounds
  import Leader = RaftLeaderRuns

  type Tenure = Leader.Tenure

  // ----- Commit indices -----

  /** Rounds from before the run may end, but not move a commit index. */
  ghost predicate EndsQuietly(f: Tenure, c: Cluster, step: Step)
    requires WellFormed(c) && Enabled(c, step)
  {
    step.EndRound? && step.round < f.base ==> Leader.CommitStays(c, step.round)
  }

  ghost predicate QuietRun(f: Tenure, c: Cluster, steps: seq<Step>)
    requires WellFormed(c) && Legal(c, steps)
    decreases |steps|
  {
    steps == [] ||
    (EndsQuietly(f, c, steps[0]) &&
     (StepMovesOne(c, steps[0]);
      QuietRun(f, Apply(c, steps[0]), steps[1..])))
  }

  /** A server that took an append of the leader has committed within what it took; one that took none,
      within the log the run began with. */
  ghost predicate Reports(n: NodeState, taken: Option<nat>, floor: nat) {
    match taken
    case Some(length) => floor <= length && n.commitIndex < length
    case None => n.commitIndex < floor
  }

  ghost predicate RequestsReport(f: Tenure, calls: set<AppendCall>, floor: nat) {
    forall m | m in calls && f.base <= m.round :: floor <= End(m.req) && m.req.leaderCommit < End(m.req)
  }

  ghost predicate AllReport(f: Tenure, c: Cluster, taken: map<Addr, nat>, floor: nat) {
    && 0 < floor && c.nodes.Keys == c.servers && f.me in c.nodes && floor <= |c.nodes[f.me].memory.log|
    && c.nodes[f.me].commitIndex < |c.nodes[f.me].memory.log|
    && RequestsReport(f, c.appendCalls, floor)
    && forall a | a in c.servers && a != f.me :: Reports(c.nodes[a], TakenBy(taken, a), floor)
  }

  /** An accepted append moves the commit index up, to what its sender had committed, or not at all. */
  lemma AcceptReports(n: NodeState, req: AppendRequest)
    requires AcceptsAppend(n, req) && req.leaderCommit < End(req)
    ensures var m := HandleAppend(n, req).0; m.commitIndex == Max(n.commitIndex, req.leaderCommit)
  {
  }

  /** What the mover of a step reports. */
  lemma MoverReports(f: Tenure, c: Cluster, step: Step)
    requires WellFormed(c) && Enabled(c, step) && EndsQuietly(f, c, step) && !step.DeliverAppend?
    ensures Mover(c, step) in c.nodes
    ensures var n, m := c.nodes[Mover(c, step)], Moved(c, step);
      m.commitIndex ==
        if step.Crash? then 0
        else if step.EndRound? && f.base <= step.round && Majority(|c.rounds[step.round].acks|, |c.servers|) then
          |n.memory.log| - 1
        else n.commitIndex
  {
    hide LogCondition;
  }

  lemma DeliveryReports(f: Tenure, c: Cluster, taken: map<Addr, nat>, floor: nat, call: AppendCall)
    requires WellFormed(c) && f.me in c.servers && Enabled(c, DeliverAppend(call)) && AllReport(f, c, taken, floor)
    requires Guarded(f, c, taken, DeliverAppend(call))
    ensures call.to in c.nodes
    ensures var n, m := c.nodes[call.to], HandleAppend(c.nodes[call.to], call.req).0;
      if f.base <= call.round && AcceptsAppend(n, call.req) then
        m.commitIndex == Max(n.commitIndex, call.req.leaderCommit)
      else m.commitIndex == n.commitIndex
  {
    if AcceptsAppend(c.nodes[call.to], call.req) {
      if f.base <= call.round {
        AcceptReports(c.nodes[call.to], call.req);
      }
    } else {
      RefusalKeepsLog(c.nodes[call.to], call.req);
    }
    hide HandleAppend, AcceptsAppend, WellFormed, KeepsTaken;
  }

  // ----- Every step keeps the reports -----

  lemma SideStepReports(f: Tenure, c: Cluster, c': Cluster, taken: map<Addr, nat>, floor: nat, a: Addr, n: NodeState)
    requires WellFormed(c) && WellFormed(c') && AllReport(f, c, taken, floor) && a in c.servers
    requires Leader.SideStep(f, c, c') && SameLogs(f, c, c') && c'.nodes == c.nodes[a := n]
    requires n.commitIndex == c.nodes[a].commitIndex || (n.commitIndex == 0 && a != f.me)
    ensures AllReport(f, c', taken, floor)
  {
    ServersHaveNodes(c');
    hide WellFormed;
  }

  lemma SideReports(f: Tenure, c: Cluster, taken: map<Addr, nat>, floor: nat, step: Step)
    requires Fits(f, c, taken) && NodesOk(c) && AllReport(f, c, taken, floor) && Enabled(c, step)
    requires Guarded(f, c, taken, step) && EndsQuietly(f, c, step) && Leader.IsSide(f, step)
    ensures AllReport(f, Apply(c, step), TakenAfter(f, c, taken, step), floor)
  {
    hide Leader.SideStep, SameLogs, NodesOk, CallsFit, CopiesFit, LedgerFits, RoundsFit, NodeOk, AllReport, Apply,
      Moved, Mover, WellFormed;
    SideLeavesLogs(f, c, taken, step);
    Leader.QuietSideStep(f, c, step);
    StepMovesOne(c, step);
    MoverReports(f, c, step);
    MoverIs(c, step);
    SideStepReports(f, c, Apply(c, step), taken, floor, Mover(c, step), Moved(c, step));
  }

  lemma DeliveryKeepsReports(f: Tenure, c: Cluster, taken: map<Addr, nat>, floor: nat, call: AppendCall)
    requires Fits(f, c, taken) && AllReport(f, c, taken, floor) && Enabled(c, DeliverAppend(call))
    requires Guarded(f, c, taken, DeliverAppend(call))
    ensures AllReport(f, DoDeliverAppend(c, call), TakenAfter(f, c, taken, DeliverAppend(call)), floor)
  {
    hide CopiesFit, LedgerFits, RoundsFit, KeepsTaken;
    DoDeliverAppendKeepsWellFormed(c, call);
    DeliveryReports(f, c, taken, floor, call);
    assert f.base <= call.round ==> call.to != f.me;
    if call.round < f.base {
      LateSideStep(f, c, call);
    }
    hide HandleAppend, CallsFit, AcceptsAppend, WellFormed, Leader.SideStep, SameLogs, TurnsAway;
  }

  lemma BeginReports(f: Tenure, c: Cluster, taken: map<Addr, nat>, floor: nat, texts: seq<string>)
    requires WellFormed(c) && f.me in c.servers && AllReport(f, c, taken, floor) && Enabled(c, BeginRound(f.me, texts))
    ensures AllReport(f, DoBeginRound(c, f.me, texts), taken, floor)
  {
    hide Reports;
  }

  lemma SendReports(f: Tenure, c: Cluster, taken: map<Addr, nat>, floor: nat, r: nat, to: Addr)
    requires WellFormed(c) && AllReport(f, c, taken, floor) && Enabled(c, Send(r, to)) && c.rounds[r].owner == f.me
    requires NodeOk(c.nodes[f.me], c.servers) && c.nodes[f.me].role.Leader?
    ensures AllReport(f, DoSend(c, r, to), taken, floor)
  {
    RequestReaches(c.nodes[f.me], c.servers, to);
    RequestCarriesCommit(c.nodes[f.me], to);
    OwnSuccessKeepsMemory(c.nodes[f.me], f.me);
    SuccessKeepsCommit(c.nodes[f.me], f.me, true);
    hide Reports, NodeOk, AppendRequestFor, Acknowledge;
  }

  lemma RequestCarriesCommit(n: NodeState, to: Addr)
    requires n.role.Leader? && to in n.role.nextIndex
    ensures AppendRequestFor(n, to).leaderCommit == n.commitIndex
  {
  }

  lemma SuccessKeepsCommit(n: NodeState, from: Addr, success: bool)
    requires |n.memory.log| > 0
    ensures HandleAppendReply(n, from, success).commitIndex == n.commitIndex
    ensures HandleAppendReply(n, from, success).memory == n.memory
    ensures n.role.Leader? ==> Acknowledge(n, from).commitIndex == n.commitIndex
  {
  }

  lemma CountReports(f: Tenure, c: Cluster, taken: map<Addr, nat>, floor: nat, ans: AppendAnswer)
    requires WellFormed(c) && AllReport(f, c, taken, floor) && Enabled(c, CountAppend(ans))
    requires c.rounds[ans.round].owner == f.me
    ensures AllReport(f, DoCountAppend(c, ans), taken, floor)
  {
    SuccessKeepsCommit(c.nodes[f.me], ans.from, ans.success);
    hide Reports, HandleAppendReply;
  }

  lemma EndReports(f: Tenure, c: Cluster, taken: map<Addr, nat>, floor: nat, r: nat)
    requires WellFormed(c) && AllReport(f, c, taken, floor) && Enabled(c, EndRound(r)) && c.rounds[r].owner == f.me
    ensures AllReport(f, DoEndRound(c, r), taken, floor)
  {
    hide Reports;
  }

  lemma RoundReports(f: Tenure, c: Cluster, taken: map<Addr, nat>, floor: nat, step: Step)
    requires Fits(f, c, taken) && NodesOk(c) && AllReport(f, c, taken, floor) && Enabled(c, step)
    requires Guarded(f, c, taken, step) && !Leader.IsSide(f, step) && !step.DeliverAppend?
    ensures AllReport(f, Apply(c, step), TakenAfter(f, c, taken, step), floor)
  {
    LeaderIsOk(f, c, taken);
    hide CallsFit, CopiesFit, LedgerFits, NodesOk, NotGrown, AllReport, DoBeginRound, DoSend, DoCountAppend, DoEndRound,
      NodeOk;
    match step
    case BeginRound(_, texts) => BeginReports(f, c, taken, floor, texts);
    case Send(r, to) => SendReports(f, c, taken, floor, r, to);
    case CountAppend(ans) => CountReports(f, c, taken, floor, ans);
    case EndRound(r) => EndReports(f, c, taken, floor, r);
  }

  lemma StepReports(f: Tenure, c: Cluster, taken: map<Addr, nat>, floor: nat, step: Step)
    requires Fits(f, c, taken) && NodesOk(c) && AllReport(f, c, taken, floor) && Enabled(c, step)
    requires Guarded(f, c, taken, step) && EndsQuietly(f, c, step)
    ensures AllReport(f, Apply(c, step), TakenAfter(f, c, taken, step), floor)
  {
    hide Fits, NodesOk, AllReport, WellFormed, Enabled, Guarded, TakenAfter, DoDeliverAppend, EndsQuietly;
    FitsIsWellFormed(f, c, taken);
    if step.DeliverAppend? {
      DeliveryKeepsReports(f, c, taken, floor, step.appendCall);
    } else if Leader.IsSide(f, step) {
      SideReports(f, c, taken, floor, step);
    } else {
      RoundReports(f, c, taken, floor, step);
    }
  }

  lemma StepKeepsCommit(f: Tenure, c: Cluster, taken: map<Addr, nat>, floor: nat, step: Step, a: Addr)
    requires Fits(f, c, taken) && AllReport(f, c, taken, floor) && Enabled(c, step)
    requires Guarded(f, c, taken, step) && EndsQuietly(f, c, step) && a in c.nodes && step != Crash(a)
    ensures a in Apply(c, step).nodes && c.nodes[a].commitIndex <= Apply(c, step).nodes[a].commitIndex
  {
    hide CallsFit, CopiesFit, LedgerFits, Moved, Mover, Apply, Reports, RequestsReport, EndsQuietly, Guarded;
    StepMovesOne(c, step);
    MoverIs(c, step);
    if step.DeliverAppend? {
      DeliveryReports(f, c, taken, floor, step.appendCall);
    } else {
      MoverReports(f, c, step);
    }
    hide WellFormed;
  }

  lemma MoverIs(c: Cluster, step: Step)
    requires WellFormed(c) && Enabled(c, step)
    ensures step.Crash? ==> Mover(c, step) == step.server
    ensures step.EndRound? ==> Mover(c, step) == c.rounds[step.round].owner
    ensures step.DeliverAppend? ==>
      var call := step.appendCall;
      Mover(c, step) == call.to && call.to in c.nodes && Moved(c, step) == HandleAppend(c.nodes[call.to], call.req).0
  {
  }

  // ----- Whole runs -----

  lemma {:induction false} GuardedRunReports(
      f: Tenure, c: Cluster, taken: map<Addr, nat>, floor: nat, steps: seq<Step>)
    returns (taken': map<Addr, nat>)
    requires Fits(f, c, taken) && Sound(c) && AllReport(f, c, taken, floor) && Legal(c, steps) && f.me in c.servers
    requires GuardedRun(f, c, taken, steps) && QuietRun(f, c, steps)
    ensures Fits(f, Run(c, steps), taken') && AllReport(f, Run(c, steps), taken', floor)
    ensures forall a | a in c.nodes && Crash(a) !in steps ::
      a in Run(c, steps).nodes && c.nodes[a].commitIndex <= Run(c, steps).nodes[a].commitIndex
    decreases |steps|
  {
    hide Fits, Sound, Guarded, TakenAfter, Apply, Enabled, WellFormed, NodesOk, RoundsOk, AcceptsReach, AllReport,
      EndsQuietly;
    if steps == [] {
      taken' := taken;
    } else {
      FitsIsWellFormed(f, c, taken);
      SoundParts(c);
      GuardedStepFits(f, c, taken, steps[0]);
      StepReports(f, c, taken, floor, steps[0]);
      StepKeepsSound(c, steps[0]);
      FitsIsWellFormed(f, Apply(c, steps[0]), TakenAfter(f, c, taken, steps[0]));
      taken' := GuardedRunReports(f, Apply(c, steps[0]), TakenAfter(f, c, taken, steps[0]), floor, steps[1..]);
      forall a | a in c.nodes && Crash(a) !in steps
        ensures a in Run(c, steps).nodes && c.nodes[a].commitIndex <= Run(c, steps).nodes[a].commitIndex
      {
        assert steps[0] in steps && forall x | x in steps[1..] :: x in steps;
        StepKeepsCommit(f, c, taken, floor, steps[0], a);
      }
    }
  }

  /** A guarded run of one leader from a state in which all commit indices lie inside the leader's log,
      and in which the ends of older rounds move none. */
  ghost predicate ReportingRun(c: Cluster, me: Addr, steps: seq<Step>, end: Cluster) {
    && GuardedLeaderRun(c, me, steps, end) && QuietRun(Leader.TenureOf(c, me), c, steps)
    && forall a | a in c.servers :: c.nodes[a].commitIndex < |c.nodes[me].memory.log|
  }

  lemma StartReports(c: Cluster, me: Addr)
    requires Succession(c, me) && forall a | a in c.servers :: c.nodes[a].commitIndex < |c.nodes[me].memory.log|
    ensures me in c.nodes && AllReport(Leader.TenureOf(c, me), c, map[], |c.nodes[me].memory.log|)
  {
    ReachableReaches(c);
    hide ElectionsOk, RoundsOk, ReachesOk, Reachable, CopyFits;
    Leader.EarlierRounds(c);
  }

  lemma ReportingRunReports(c: Cluster, me: Addr, steps: seq<Step>, end: Cluster) returns (taken: map<Addr, nat>)
    requires ReportingRun(c, me, steps, end)
    ensures me in c.nodes
    ensures Fits(Leader.TenureOf(c, me), end, taken)
    ensures AllReport(Leader.TenureOf(c, me), end, taken, |c.nodes[me].memory.log|)
    ensures forall a | a in c.nodes && Crash(a) !in steps ::
      a in end.nodes && c.nodes[a].commitIndex <= end.nodes[a].commitIndex
  {
    hide Sound, GuardedRun, QuietRun, Legal, Reachable, Fits, AllReport;
    SuccessionFits(c, me);
    StartReports(c, me);
    taken := GuardedRunReports(Leader.TenureOf(c, me), c, map[], |c.nodes[me].memory.log|, steps);
  }

  /** With overlapping rounds and appends in any order: once a server took an append of the leader, what
      it reports as committed is a prefix of the leader's log; and so is what the leader reports. */
  lemma GuardedReportsHold(c: Cluster, me: Addr, steps: seq<Step>, end: Cluster, k: AcceptKey)
    requires ReportingRun(c, me, steps, end)
    requires k in end.ledger.accepts && c.nextRound <= k.round
    ensures me in end.nodes && k.server in end.nodes
    ensures CommittedLog(end.nodes[k.server]) <= end.nodes[me].memory.log
    ensures |CommittedLog(end.nodes[k.server])| == end.nodes[k.server].commitIndex + 1
  {
    hide ReportingRun, Fits, AllReport;
    var taken := ReportingRunReports(c, me, steps, end);
    TakenReports(Leader.TenureOf(c, me), end, taken, |c.nodes[me].memory.log|, k);
  }

  lemma TakenReports(f: Tenure, c: Cluster, taken: map<Addr, nat>, floor: nat, k: AcceptKey)
    requires Fits(f, c, taken) && AllReport(f, c, taken, floor) && k in c.ledger.accepts && f.base <= k.round
    ensures f.me in c.nodes && k.server in c.nodes
    ensures CommittedLog(c.nodes[k.server]) <= c.nodes[f.me].memory.log
    ensures |CommittedLog(c.nodes[k.server])| == c.nodes[k.server].commitIndex + 1
  {
    hide CallsFit, RoundsFit, RequestsReport, CommitFits;
    var log, n := c.nodes[f.me].memory.log, c.nodes[k.server];
    if k.server != f.me {
      assert CopyFits(n.memory.log, log, Term(c, f.me), TakenBy(taken, k.server));
      assert Reports(n, TakenBy(taken, k.server), floor);
      assert n.memory.log[..n.commitIndex + 1] == log[..taken[k.server]][..n.commitIndex + 1];
    }
  }

  /** In such a run no commit index falls, the leader's included, while its server is not restarted. */
  lemma GuardedCommitIndexNeverFalls(c: Cluster, me: Addr, steps: seq<Step>, end: Cluster, a: Addr)
    requires ReportingRun(c, me, steps, end) && a in c.nodes && Crash(a) !in steps
    ensures a in end.nodes && c.nodes[a].commitIndex <= end.nodes[a].commitIndex
  {
    hide ReportingRun, Fits, AllReport;
    var taken := ReportingRunReports(c, me, steps, end);
  }
}
