/** Why a guarded run needs each of its conditions: for each of them a run that keeps to all the others,
    and in which an uninterrupted round then commits what no majority holds. */
module RaftCommitGaps {
  import opened Common
  import opened Raft
  import opened RaftCluster
  import opened RaftElectionRuns
  import opened RaftElections
  import opened RaftGuardedRuns
  import opened RaftLaws
  import opened RaftNodes
  import opened RaftOverlap
  import opened RaftRounds
  import opened RaftStage
  import Leader = RaftLeaderRuns

  ghost function Holders(c: Cluster, log: seq<Entry>): set<Addr> {
    set x | x in c.nodes && log <= c.nodes[x].memory.log
  }

  /** A majority has all that the round commits if it ends now. */
  ghost predicate HeldByMajority(c: Cluster, r: nat)
    requires WellFormed(c) && Enabled(c, EndRound(r))
  {
    Majority(|Holders(c, c.nodes[c.rounds[r].owner].memory.log)|, |c.servers|)
  }

  // ----- Runs with one condition dropped -----

  /** What a guarded run asks for: a round commits only while the log has not grown, and an append that a
      server accepts starts inside what the server took, and ends no earlier. */
  datatype Condition = NoGrowth | StartsInside | EndsNoEarlier

  /** The step keeps to the conditions of a guarded run other than `dropped`. With `apart` the rounds of
      the leader do not overlap either. */
  ghost predicate KeepsOthers(
      dropped: Condition, apart: bool, f: Tenure, c: Cluster, taken: map<Addr, nat>, step: Step)
    requires WellFormed(c) && Enabled(c, step) && f.me in c.servers
  {
    match step
    case BeginRound(a, _) => a == f.me && (apart ==> forall r | r in c.rounds :: r < f.base)
    case DeliverAppend(call) =>
      if f.base <= call.round then
        AcceptsAppend(c.nodes[call.to], call.req) && call.to in taken ==>
          && (dropped.StartsInside? || call.req.prevIndex < taken[call.to])
          && (dropped.EndsNoEarlier? || End(call.req) >= taken[call.to])
      else TurnsAway(f, c, call)
    case EndRound(r) => dropped.NoGrowth? || Guarded(f, c, taken, step)
    case _ => Guarded(f, c, taken, step)
  }

  ghost predicate RunKeepsOthers(
      dropped: Condition, apart: bool, f: Tenure, c: Cluster, taken: map<Addr, nat>, steps: seq<Step>)
    requires WellFormed(c) && Legal(c, steps) && f.me in c.servers
    decreases |steps|
  {
    steps == [] ||
    (KeepsOthers(dropped, apart, f, c, taken, steps[0]) &&
     (StepMovesOne(c, steps[0]);
      RunKeepsOthers(dropped, apart, f, Apply(c, steps[0]), TakenAfter(f, c, taken, steps[0]), steps[1..])))
  }

  /** A step that keeps to the others whatever is dropped is guarded. */
  lemma AllConditionsGuard(f: Tenure, c: Cluster, taken: map<Addr, nat>, step: Step)
    requires WellFormed(c) && Enabled(c, step) && f.me in c.servers
    requires forall dropped :: KeepsOthers(dropped, false, f, c, taken, step)
    ensures Guarded(f, c, taken, step)
  {
    assert KeepsOthers(NoGrowth, false, f, c, taken, step) && KeepsOthers(StartsInside, false, f, c, taken, step);
  }

  /** A run of one leader without the dropped condition, at whose end a round of the leader is about to
      commit, uninterrupted, what no majority holds. */
  ghost predicate LosesCommit(dropped: Condition, apart: bool, start: Cluster, me: Addr, steps: seq<Step>, r: nat) {
    && Succession(start, me) && Legal(start, steps) && start.nextRound <= r
    && RunKeepsOthers(dropped, apart, Leader.TenureOf(start, me), start, map[], steps)
    && var c := Run(start, steps);
       && Reachable(c) && WellFormed(c) && Enabled(c, EndRound(r)) && c.rounds[r].owner == me
       && Commits(c, r) && !HeldByMajority(c, r)
  }

  lemma SuccessionIsWellFormed(c: Cluster, me: Addr)
    requires Succession(c, me)
    ensures WellFormed(c) && me in c.servers
  {
  }

  /** So it is the dropped condition that was not kept: in a guarded run a round whose log has not grown
      has a majority that holds what it is about to commit. */
  lemma LostCommitIsUnguarded(
      dropped: Condition, apart: bool, start: Cluster, me: Addr, steps: seq<Step>, r: nat)
    requires LosesCommit(dropped, apart, start, me, steps, r) && NotGrown(Run(start, steps), r)
    ensures !GuardedRun(Leader.TenureOf(start, me), start, map[], steps)
  {
    hide Sound, ElectionsOk, RoundsOk, ReachesOk, Reachable, Legal, RunKeepsOthers, GuardedRun, Fits, Succession,
      Commits, HeldByMajority, NotGrown;
    SuccessionIsWellFormed(start, me);
    var f, c := Leader.TenureOf(start, me), Run(start, steps);
    if GuardedRun(f, start, map[], steps) {
      SuccessionFits(start, me);
      var taken := GuardedRunFits(f, start, map[], steps);
      ReachableReaches(c);
      NotGrownIsHeld(f, c, taken, r);
    }
  }

  lemma NotGrownIsHeld(f: Tenure, c: Cluster, taken: map<Addr, nat>, r: nat)
    requires Fits(f, c, taken) && RoundsOk(c) && ReachesOk(c) && Enabled(c, EndRound(r)) && f.base <= r
    requires Commits(c, r) && NotGrown(c, r)
    ensures HeldByMajority(c, r)
  {
    hide RoundsOk, AcceptsReach, CallsFit, LedgerFits, RoundsFit, NotGrown;
    CountedTookAll(f, c, taken, r);
    var log, acks := c.nodes[f.me].memory.log, c.rounds[r].acks;
    forall x | x in acks ensures x in Holders(c, log) {
      if x != f.me {
        assert CopyFits(c.nodes[x].memory.log, log, Term(c, f.me), TakenBy(taken, x));
        assert log[..taken[x]] == log;
      }
    }
    MoreIsMajority(acks, Holders(c, log), |c.servers|);
  }

  lemma MoreIsMajority(s: set<Addr>, t: set<Addr>, size: nat)
    requires s <= t && Majority(|s|, size)
    ensures Majority(|t|, size)
  {
    assert s + (t - s) == t;
  }

  // ----- Building such runs -----

  /** Server 1 leads, from round 0 on. */
  const TENURE: Tenure := Leader.Tenure(1, 0)

  /** A run without the dropped condition leads from `start`, in which 1 leads, to `c`. */
  ghost predicate Track(dropped: Condition, apart: bool, start: Cluster, c: Cluster, taken: map<Addr, nat>) {
    && Succession(start, 1) && start.nextRound == 0 && WellFormed(start) && 1 in start.servers
    && exists steps :: TrackedBy(dropped, apart, start, steps, c, taken)
  }

  ghost predicate TrackedBy(
      dropped: Condition, apart: bool, start: Cluster, steps: seq<Step>, c: Cluster, taken: map<Addr, nat>)
    requires WellFormed(start) && 1 in start.servers
  {
    && Legal(start, steps) && Run(start, steps) == c
    && RunKeepsOthers(dropped, apart, Leader.TenureOf(start, 1), start, map[], steps)
    && TakenBehind(Leader.TenureOf(start, 1), start, map[], steps) == taken
  }

  ghost function TakenBehind(f: Tenure, c: Cluster, taken: map<Addr, nat>, steps: seq<Step>): map<Addr, nat>
    requires WellFormed(c) && Legal(c, steps)
    decreases |steps|
  {
    if steps == [] then taken
    else StepMovesOne(c, steps[0]); TakenBehind(f, Apply(c, steps[0]), TakenAfter(f, c, taken, steps[0]), steps[1..])
  }

  lemma {:induction false} OneMore(dropped: Condition, apart: bool, f: Tenure, c: Cluster, taken: map<Addr, nat>,
                                   steps: seq<Step>, step: Step)
    requires WellFormed(c) && Legal(c, steps) && f.me in c.servers && Enabled(Run(c, steps), step)
    requires f.me in Run(c, steps).servers
    requires RunKeepsOthers(dropped, apart, f, c, taken, steps)
    requires KeepsOthers(dropped, apart, f, Run(c, steps), TakenBehind(f, c, taken, steps), step)
    ensures var more, end := steps + [step], Run(c, steps);
      && Legal(c, more) && Run(c, more) == Apply(end, step)
      && RunKeepsOthers(dropped, apart, f, c, taken, more)
      && TakenBehind(f, c, taken, more) == TakenAfter(f, end, TakenBehind(f, c, taken, steps), step)
    decreases |steps|
  {
    hide WellFormed, Enabled, Apply, KeepsOthers, TakenAfter;
    var more := steps + [step];
    if steps == [] {
      assert more == [step] && more[1..] == [];
      StepMovesOne(c, step);
    } else {
      StepMovesOne(c, steps[0]);
      assert more[0] == steps[0] && more[1..] == steps[1..] + [step];
      OneMore(dropped, apart, f, Apply(c, steps[0]), TakenAfter(f, c, taken, steps[0]), steps[1..], step);
    }
  }

  lemma TrackStep(dropped: Condition, apart: bool, start: Cluster, c: Cluster, taken: map<Addr, nat>, step: Step)
    requires Track(dropped, apart, start, c, taken) && WellFormed(c) && 1 in c.servers && Enabled(c, step)
    requires KeepsOthers(dropped, apart, TENURE, c, taken, step)
    ensures Track(dropped, apart, start, Apply(c, step), TakenAfter(TENURE, c, taken, step))
  {
    hide WellFormed, Enabled, Apply, KeepsOthers, TakenAfter, Succession, RunKeepsOthers, Legal, Run, TakenBehind;
    var steps :| TrackedBy(dropped, apart, start, steps, c, taken);
    OneMore(dropped, apart, TENURE, start, map[], steps, step);
    assert TrackedBy(dropped, apart, start, steps + [step], Apply(c, step), TakenAfter(TENURE, c, taken, step));
  }

  /** The steps that keep to every condition whatever was taken. */
  lemma TrackFree(dropped: Condition, apart: bool, start: Cluster, c: Cluster, taken: map<Addr, nat>, step: Step)
    requires Track(dropped, apart, start, c, taken) && WellFormed(c) && 1 in c.servers && Enabled(c, step)
    requires
      || step.Send?
      || step.CountAppend?
      || (step.BeginRound? && step.server == 1 && (apart ==> c.rounds == map[]))
      || (step.EndRound? && !Majority(|c.rounds[step.round].acks|, |c.servers|))
    ensures Track(dropped, apart, start, Apply(c, step), taken)
  {
    hide WellFormed, Apply, Track, NotGrown, AcceptsAppend;
    TrackStep(dropped, apart, start, c, taken, step);
  }

  lemma TrackDelivery(dropped: Condition, apart: bool, start: Cluster, c: Cluster, taken: map<Addr, nat>,
                      call: AppendCall)
    requires Track(dropped, apart, start, c, taken) && WellFormed(c) && 1 in c.servers
    requires Enabled(c, DeliverAppend(call)) && AcceptsAppend(c.nodes[call.to], call.req)
    requires call.to in taken ==>
      && (dropped.StartsInside? || call.req.prevIndex < taken[call.to])
      && (dropped.EndsNoEarlier? || End(call.req) >= taken[call.to])
    ensures Track(dropped, apart, start, Apply(c, DeliverAppend(call)),
                  taken[call.to := if call.to in taken then Max(taken[call.to], End(call.req)) else End(call.req)])
  {
    hide WellFormed, Apply, Track, AcceptsAppend;
    TrackStep(dropped, apart, start, c, taken, DeliverAppend(call));
  }

  /** A run of the stage, without the dropped condition: what server 3 took goes up to `taken`, unless it
      took nothing yet. */
  ghost predicate Scene(dropped: Condition, apart: bool, start: Cluster, c: Cluster,
                        log: seq<Entry>, copy: seq<Entry>, next: nat, taken: map<Addr, nat>)
  {
    Stage(c, log, copy, next) && Track(dropped, apart, start, c, taken)
  }

  lemma StageSucceeds(c: Cluster)
    requires Stage(c, [INIT_ENTRY], [INIT_ENTRY], 0)
    ensures Succession(c, 1)
  {
    StageIsReachable(c, [INIT_ENTRY], [INIT_ENTRY], 0);
    hide LeadsTo, Reachable;
  }

  lemma SceneOpens(dropped: Condition, apart: bool) returns (c: Cluster)
    ensures Scene(dropped, apart, c, c, [INIT_ENTRY], [INIT_ENTRY], 0, map[])
    ensures c.rounds == map[] && c.nextRound == 0
  {
    hide Stage, Succession;
    c := StageOpens();
    StageSucceeds(c);
    SuccessionIsWellFormed(c, 1);
    assert TrackedBy(dropped, apart, c, [], c, map[]);
  }

  /** Server 1 begins a round, counts itself, and asks the others. */
  lemma SceneAsks(dropped: Condition, apart: bool, start: Cluster, c: Cluster,
                  log: seq<Entry>, copy: seq<Entry>, next: nat, taken: map<Addr, nat>, texts: seq<string>)
    returns (c': Cluster)
    requires Scene(dropped, apart, start, c, log, copy, next, taken) && (apart ==> c.rounds == map[])
    requires next <= |log + Stamp(texts, 1)| && |log| > 0
    ensures var more := log + Stamp(texts, 1);
      && Scene(dropped, apart, start, c', more, copy, next, taken)
      && c'.rounds == c.rounds[c.nextRound := AskedRound(|more|)] && c'.nextRound == c.nextRound + 1
      && c.appendCalls <= c'.appendCalls && AppendCall(c.nextRound, 3, NextRequest(more, next)) in c'.appendCalls
      && c'.appendAnswers == c.appendAnswers
  {
    hide Stage, Track, Stamp;
    var more, r := log + Stamp(texts, 1), c.nextRound;
    StageIsWellFormed(c, log, copy, next);
    var c1 := StageBegins(c, log, copy, next, texts);
    TrackFree(dropped, apart, start, c, taken, BeginRound(1, texts));
    c' := SceneSends(dropped, apart, start, c1, more, copy, next, taken, r);
  }

  /** A round of server 1 that has asked everybody and counted itself. */
  function AskedRound(length: nat): Round {
    Round(1, 1, {1, 2, 3}, {1}, map[1 := length, 2 := length, 3 := length])
  }

  lemma SceneSends(dropped: Condition, apart: bool, start: Cluster, c: Cluster,
                   log: seq<Entry>, copy: seq<Entry>, next: nat, taken: map<Addr, nat>, r: nat)
    returns (c': Cluster)
    requires Scene(dropped, apart, start, c, log, copy, next, taken) && next <= |log| && |log| > 0
    requires r in c.rounds && c.rounds[r] == Round(1, 1, {}, {}, map[])
    ensures Scene(dropped, apart, start, c', log, copy, next, taken)
    ensures c'.rounds == c.rounds[r := AskedRound(|log|)] && c'.nextRound == c.nextRound
    ensures c.appendCalls <= c'.appendCalls && AppendCall(r, 3, NextRequest(log, next)) in c'.appendCalls
    ensures c'.appendAnswers == c.appendAnswers
  {
    hide Stage, Track, NextRequest, WellFormed, Apply, Enabled;
    AskedOneByOne(|log|);
    hide AskedRound;
    StageIsWellFormed(c, log, copy, next);
    var c1 := StageCountsSelf(c, log, copy, next, r);
    TrackFree(dropped, apart, start, c, taken, Send(r, 1));
    StageIsWellFormed(c1, log, copy, next);
    var c2 := StageAsksOther(c1, log, copy, next, r);
    TrackFree(dropped, apart, start, c1, taken, Send(r, 2));
    StageIsWellFormed(c2, log, copy, next);
    c' := StageSends(c2, log, copy, next, r);
    TrackFree(dropped, apart, start, c2, taken, Send(r, 3));
  }

  lemma AskedOneByOne(n: nat)
    ensures var built: map<Addr, nat> := map[];
      AskedRound(n) == Round(1, 1, {} + {1} + {2} + {3}, {} + {1}, built[1 := n][2 := n][3 := n])
  {
    var built: map<Addr, nat> := map[];
    assert built[1 := n][2 := n][3 := n] == map[1 := n, 2 := n, 3 := n];
    assert {} + {1} + {2} + {3} == {1, 2, 3};
  }

  lemma StageIsWellFormed(c: Cluster, log: seq<Entry>, copy: seq<Entry>, next: nat)
    requires Stage(c, log, copy, next)
    ensures WellFormed(c) && c.servers == {1, 2, 3} && c.nodes.Keys == c.servers
  {
  }

  lemma SceneDelivers(dropped: Condition, apart: bool, start: Cluster, c: Cluster,
                      log: seq<Entry>, copy: seq<Entry>, next: nat, taken: map<Addr, nat>, r: nat, req: AppendRequest)
    returns (c': Cluster)
    requires Scene(dropped, apart, start, c, log, copy, next, taken) && AppendCall(r, 3, req) in c.appendCalls
    requires req.term == 1 && req.leaderCommit == 0 && LogMatches(copy, req.prevIndex, req.prevTerm)
    requires 3 in taken ==>
      && (dropped.StartsInside? || req.prevIndex < taken[3])
      && (dropped.EndsNoEarlier? || End(req) >= taken[3])
    ensures Scene(dropped, apart, start, c', log, Splice(copy, req.prevIndex, req.entries), next,
                  taken[3 := if 3 in taken then Max(taken[3], End(req)) else End(req)])
    ensures c'.appendCalls == c.appendCalls - {AppendCall(r, 3, req)}
    ensures c'.appendAnswers == c.appendAnswers + {AppendAnswer(r, 3, 1, true)}
    ensures c'.rounds == c.rounds && c'.nextRound == c.nextRound
  {
    StageAccepts(c, log, copy, next, req);
    hide Stage, Track, WellFormed, Apply, Enabled, AcceptsAppend, Splice;
    StageIsWellFormed(c, log, copy, next);
    c' := StageDelivers(c, log, copy, next, r, req);
    TrackDelivery(dropped, apart, start, c, taken, AppendCall(r, 3, req));
  }

  lemma StageAccepts(c: Cluster, log: seq<Entry>, copy: seq<Entry>, next: nat, req: AppendRequest)
    requires Stage(c, log, copy, next) && req.term == 1 && LogMatches(copy, req.prevIndex, req.prevTerm)
    ensures 3 in c.nodes && AcceptsAppend(c.nodes[3], req)
  {
  }

  lemma SceneHears(dropped: Condition, apart: bool, start: Cluster, c: Cluster,
                   log: seq<Entry>, copy: seq<Entry>, next: nat, taken: map<Addr, nat>, r: nat)
    returns (c': Cluster)
    requires Scene(dropped, apart, start, c, log, copy, next, taken)
    requires AppendAnswer(r, 3, 1, true) in c.appendAnswers && r in c.rounds && c.rounds[r].owner == 1
    ensures Scene(dropped, apart, start, c', log, copy, |log|, taken)
    ensures c'.rounds == c.rounds[r := c.rounds[r].(acks := c.rounds[r].acks + {3})]
    ensures c'.nextRound == c.nextRound && c'.appendCalls == c.appendCalls
    ensures c'.appendAnswers == c.appendAnswers - {AppendAnswer(r, 3, 1, true)}
  {
    hide Stage, Track, WellFormed, Apply, Enabled;
    StageIsWellFormed(c, log, copy, next);
    c' := StageHears(c, log, copy, next, r);
    TrackFree(dropped, apart, start, c, taken, CountAppend(AppendAnswer(r, 3, 1, true)));
  }

  lemma SceneGivesUp(dropped: Condition, apart: bool, start: Cluster, c: Cluster,
                     log: seq<Entry>, copy: seq<Entry>, next: nat, taken: map<Addr, nat>, r: nat)
    returns (c': Cluster)
    requires Scene(dropped, apart, start, c, log, copy, next, taken)
    requires r in c.rounds && c.rounds[r] == AskedRound(|log|)
    ensures Scene(dropped, apart, start, c', log, copy, next, taken)
    ensures c'.rounds == c.rounds - {r} && c'.nextRound == c.nextRound
    ensures c'.appendCalls == c.appendCalls && c'.appendAnswers == c.appendAnswers
  {
    hide Stage, Track, WellFormed, Apply;
    StageIsWellFormed(c, log, copy, next);
    c' := StageGivesUp(c, log, copy, next, r);
    TrackFree(dropped, apart, start, c, taken, EndRound(r));
  }

  /** The last state of such a run, in which a round has counted 1 and 3, who do not both hold its log. */
  lemma SceneLosesCommit(dropped: Condition, apart: bool, start: Cluster, c: Cluster,
                         log: seq<Entry>, copy: seq<Entry>, next: nat, taken: map<Addr, nat>, r: nat, n: nat)
    returns (steps: seq<Step>)
    requires Scene(dropped, apart, start, c, log, copy, next, taken) && !(log <= copy) && !(log <= [INIT_ENTRY])
    requires r in c.rounds && c.rounds[r] == AskedRound(n).(acks := {1, 3})
    ensures LosesCommit(dropped, apart, start, 1, steps, r) && Run(start, steps) == c
    ensures NotGrown(c, r) <==> |log| <= n
    ensures NotGrown(c, r) <==> QuorumTookAll(c, r)
  {
    StageMayCommit(c, log, copy, next, r);
    LogHasGrown(c, log, copy, next, r);
    hide Stage, Reachable, WellFormed, Legal, Run, RunKeepsOthers, Succession, Commits, HeldByMajority, NotGrown,
      QuorumTookAll, Enabled;
    CommitWithinQuorumIff(c, r);
    steps :| TrackedBy(dropped, apart, start, steps, c, taken);
  }

  lemma OneHolds(c: Cluster, log: seq<Entry>)
    requires WellFormed(c) && c.servers == {1, 2, 3} && c.nodes[1].memory.log == log
    requires !(log <= c.nodes[2].memory.log) && !(log <= c.nodes[3].memory.log)
    ensures |c.servers| == 3 && !Majority(|Holders(c, log)|, |c.servers|)
  {
    assert Holders(c, log) == {1};
  }

  lemma StageMayCommit(c: Cluster, log: seq<Entry>, copy: seq<Entry>, next: nat, r: nat)
    requires Stage(c, log, copy, next) && !(log <= copy) && !(log <= [INIT_ENTRY])
    requires r in c.rounds && c.rounds[r].owner == 1 && c.rounds[r].term == 1
    requires c.rounds[r].asked == {1, 2, 3} && c.rounds[r].acks == {1, 3}
    ensures Reachable(c) && WellFormed(c) && Enabled(c, EndRound(r))
    ensures Commits(c, r) && !HeldByMajority(c, r)
  {
    hide LeadsTo, Holders, Reachable;
    StageIsReachable(c, log, copy, next);
    OneHolds(c, log);
  }

  lemma LogHasGrown(c: Cluster, log: seq<Entry>, copy: seq<Entry>, next: nat, r: nat)
    requires Stage(c, log, copy, next) && r in c.rounds && c.rounds[r].owner == 1
    requires c.rounds[r].asked == {1, 2, 3} && c.rounds[r].acks == {1, 3} && 3 in c.rounds[r].built
    ensures WellFormed(c) && Enabled(c, EndRound(r)) && (NotGrown(c, r) <==> |log| <= c.rounds[r].built[3])
  {
    hide LeadsTo;
    assert 3 in c.rounds[r].acks;
  }

  // ----- The runs -----

  /** The log grew under the round: a leader's first round is acknowledged, a client's entry opens a
      second round, and the end of the first commits the entry while the leader alone holds it. */
  lemma OverlapCommitsTooMuch()
    ensures exists start, steps, r: nat ::
      LosesCommit(NoGrowth, false, start, 1, steps, r) && !NotGrown(Run(start, steps), r)
  {
    hide Stage, Stamp, LosesCommit, Scene;
    var log := [INIT_ENTRY];
    var start := SceneOpens(NoGrowth, false);
    assert log + Stamp([], 1) == log;
    var c1 := SceneAsks(NoGrowth, false, start, start, log, log, 0, map[], []);
    var c2 := SceneDelivers(NoGrowth, false, start, c1, log, log, 0, map[], 0, NextRequest(log, 0));
    assert Splice(log, 0, []) == log;
    var c3 := SceneHears(NoGrowth, false, start, c2, log, log, 0, map[3 := 1], 0);
    var c := SceneAsks(NoGrowth, false, start, c3, log, log, 1, map[3 := 1], ["x"]);
    assert {1} + {3} == {1, 3};
    var steps := SceneLosesCommit(NoGrowth, false, start, c, log + Stamp(["x"], 1), log, 1, map[3 := 1], 0, 1);
  }

  /** Appends arrived in another order, with one round after the other: round 0 sends [a] and gives up,
      round 1 sends [a, b]; server 3 takes round 1 first and round 0 second, and is left with a twice
      and without b when round 1 commits. */
  lemma ReorderingCommitsTooMuch()
    ensures exists start, steps, r: nat ::
      && LosesCommit(EndsNoEarlier, true, start, 1, steps, r)
      && NotGrown(Run(start, steps), r) && QuorumTookAll(Run(start, steps), r)
  {
    hide Stage, Stamp, LosesCommit, Scene, NotGrown, QuorumTookAll;
    var a, b := Entry("a", 1), Entry("b", 1);
    var log, once, twice := [INIT_ENTRY], [INIT_ENTRY, a], [INIT_ENTRY, a, b];
    assert log + Stamp(["a"], 1) == once && once + Stamp(["b"], 1) == twice;
    var late, early := NextRequest(once, 0), NextRequest(twice, 0);
    assert late.entries == [a] && early.entries == [a, b];
    var start, c3 := TwoRoundsApart();
    var c4 := SceneDelivers(EndsNoEarlier, true, start, c3, twice, log, 0, map[], 1, early);
    assert Splice(log, 0, [a, b]) == twice;
    var c5 := SceneDelivers(EndsNoEarlier, true, start, c4, twice, twice, 0, map[3 := 3], 0, late);
    var copy := [INIT_ENTRY, a, a];
    assert Splice(twice, 0, [a]) == copy && twice[2] != copy[2];
    assert map[3 := 3][3 := 3] == map[3 := 3];
    var c := SceneHears(EndsNoEarlier, true, start, c5, twice, copy, 0, map[3 := 3], 1);
    assert {1} + {3} == {1, 3};
    var steps := SceneLosesCommit(EndsNoEarlier, true, start, c, twice, copy, 3, map[3 := 3], 1, 3);
  }

  /** Round 0 sends [a] and gives up, round 1 sends [a, b], and nothing is handled yet. */
  lemma TwoRoundsApart() returns (start: Cluster, c: Cluster)
    ensures Scene(EndsNoEarlier, true, start, c,
                  [INIT_ENTRY, Entry("a", 1), Entry("b", 1)], [INIT_ENTRY], 0, map[])
    ensures AppendCall(0, 3, NextRequest([INIT_ENTRY, Entry("a", 1)], 0)) in c.appendCalls
    ensures AppendCall(1, 3, NextRequest([INIT_ENTRY, Entry("a", 1), Entry("b", 1)], 0)) in c.appendCalls
    ensures 1 in c.rounds && c.rounds[1] == AskedRound(3)
  {
    hide Stage, Stamp, Scene;
    var a, b := Entry("a", 1), Entry("b", 1);
    var log, once, twice := [INIT_ENTRY], [INIT_ENTRY, a], [INIT_ENTRY, a, b];
    assert log + Stamp(["a"], 1) == once && once + Stamp(["b"], 1) == twice;
    start := SceneOpens(EndsNoEarlier, true);
    var c1 := SceneAsks(EndsNoEarlier, true, start, start, log, log, 0, map[], ["a"]);
    var c2 := SceneGivesUp(EndsNoEarlier, true, start, c1, once, log, 0, map[], 0);
    assert c2.rounds == map[];
    c := SceneAsks(EndsNoEarlier, true, start, c2, once, log, 0, map[], ["b"]);
  }

  /** Rounds 0 and 1 send [a] twice, and server 3 takes both. */
  lemma TwoRoundsSendTheSame() returns (start: Cluster, c: Cluster)
    ensures Scene(StartsInside, false, start, c,
                  [INIT_ENTRY, Entry("a", 1)], [INIT_ENTRY, Entry("a", 1), Entry("a", 1)], 0, map[3 := 2])
    ensures AppendAnswer(0, 3, 1, true) in c.appendAnswers
    ensures 0 in c.rounds && c.rounds[0] == AskedRound(2) && c.nextRound == 2
  {
    hide Stage, Stamp, Scene;
    var a := Entry("a", 1);
    var log, once := [INIT_ENTRY], [INIT_ENTRY, a];
    assert log + Stamp(["a"], 1) == once && once + Stamp([], 1) == once;
    var req := NextRequest(once, 0);
    assert req.entries == [a];
    start := SceneOpens(StartsInside, false);
    var c1 := SceneAsks(StartsInside, false, start, start, log, log, 0, map[], ["a"]);
    var c2 := SceneAsks(StartsInside, false, start, c1, once, log, 0, map[], []);
    var c3 := SceneDelivers(StartsInside, false, start, c2, once, log, 0, map[], 0, req);
    assert Splice(log, 0, [a]) == once;
    c := SceneDelivers(StartsInside, false, start, c3, once, once, 0, map[3 := 2], 1, req);
    assert Splice(once, 0, [a]) == [INIT_ENTRY, a, a];
    assert map[3 := 2][3 := 2] == map[3 := 2];
  }

  /** A reply moved the next index past what the follower took, with every append in order: round 2 adds
      c, the success of round 0 is counted only then, and so round 2 asks server 3 only for what comes
      behind its second a, and commits c. */
  lemma OvertakingCommitsTooMuch()
    ensures exists start, steps, r: nat ::
      && LosesCommit(StartsInside, false, start, 1, steps, r)
      && NotGrown(Run(start, steps), r) && QuorumTookAll(Run(start, steps), r)
  {
    hide Stage, Stamp, LosesCommit, Scene, NotGrown, QuorumTookAll;
    var a, z := Entry("a", 1), Entry("c", 1);
    var once, log, copy := [INIT_ENTRY, a], [INIT_ENTRY, a, z], [INIT_ENTRY, a, a];
    assert once + Stamp(["c"], 1) == log && log[2] != copy[2];
    var start, c1 := TwoRoundsSendTheSame();
    var c2 := SceneBegins(StartsInside, start, c1, once, copy, 0, map[3 := 2], ["c"]);
    var c3 := SceneHears(StartsInside, false, start, c2, log, copy, 0, map[3 := 2], 0);
    var c4 := SceneSends(StartsInside, false, start, c3, log, copy, 3, map[3 := 2], 2);
    var last := NextRequest(log, 3);
    assert last.entries == [];
    var c5 := SceneDelivers(StartsInside, false, start, c4, log, copy, 3, map[3 := 2], 2, last);
    assert Splice(copy, 2, []) == copy;
    assert map[3 := 2][3 := 3] == map[3 := 3];
    var c := SceneHears(StartsInside, false, start, c5, log, copy, 3, map[3 := 3], 2);
    assert {1} + {3} == {1, 3};
    var steps := SceneLosesCommit(StartsInside, false, start, c, log, copy, 3, map[3 := 3], 2, 3);
  }

  lemma SceneBegins(dropped: Condition, start: Cluster, c: Cluster,
                    log: seq<Entry>, copy: seq<Entry>, next: nat, taken: map<Addr, nat>, texts: seq<string>)
    returns (c': Cluster)
    requires Scene(dropped, false, start, c, log, copy, next, taken)
    ensures Scene(dropped, false, start, c', log + Stamp(texts, 1), copy, next, taken)
    ensures c'.rounds == c.rounds[c.nextRound := Round(1, 1, {}, {}, map[])] && c'.nextRound == c.nextRound + 1
    ensures c'.appendCalls == c.appendCalls && c'.appendAnswers == c.appendAnswers
  {
    hide Stage, Track, Stamp, WellFormed, Apply, Enabled;
    StageIsWellFormed(c, log, copy, next);
    c' := StageBegins(c, log, copy, next, texts);
    TrackFree(dropped, false, start, c, taken, BeginRound(1, texts));
  }
}
