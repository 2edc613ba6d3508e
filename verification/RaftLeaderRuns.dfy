/** One leader's term as a part of the runs of the whole cluster: such a run is mirrored by a run of
    module RaftStableRuns, so what is proved there holds in the cluster. */
module RaftLeaderRuns {
  import opened Common
  import opened Raft
  import opened RaftBackoff
  import opened RaftCluster
  import opened RaftNodes
  import opened RaftElections
  import opened RaftElectionRuns
  import opened RaftRounds
  import View = RaftStable
  import Stable = RaftStableRuns

  /** The leader, and the number of its first round in the run. */
  datatype Tenure = Tenure(me: Addr, base: nat)

  // ----- The runs in question -----

  /** The leader is not deposed and nobody else wins or begins a round; its rounds do not overlap; a
      follower gets its requests in the order of sending, and an append of an earlier leader reaches
      only servers that are in a newer term. Requests and replies may be lost, and the other servers
      vote, campaign and crash. Rounds from before the run go on, but not those the leader itself had
      open from an earlier term; they may end, but not move a commit index. `last` has the last round
      each server got an append of. */
  ghost predicate Orderly(f: Tenure, c: Cluster, last: map<Addr, nat>, step: Step)
    requires WellFormed(c) && Enabled(c, step) && f.me in c.servers
  {
    match step
    case Open(_) => true
    case Ask(_, _) => true
    case DeliverVote(call) => call.to == f.me ==> call.req.term <= Term(c, f.me)
    case CountVote(_) => true
    case Finish(a) => c.nodes[a].role.Candidate? ==> !Majority(|c.campaigns[a].grants| + 1, |c.servers|)
    case BeginRound(a, _) => a == f.me && forall r | r in c.rounds :: r < f.base
    case Send(r, _) => f.base <= r || c.rounds[r].owner != f.me
    case DeliverAppend(call) =>
      if f.base <= call.round then call.to in last ==> last[call.to] < call.round
      else call.req.term < Term(c, call.to)
    case CountAppend(ans) => f.base <= ans.round || c.rounds[ans.round].owner != f.me
    case EndRound(r) => f.base <= r || CommitStays(c, r)
    case Crash(a) => a != f.me
  }

  /** The end of the round leaves the commit index of its owner where it is. */
  ghost predicate CommitStays(c: Cluster, r: nat)
    requires WellFormed(c) && Enabled(c, EndRound(r))
  {
    var n := c.nodes[c.rounds[r].owner];
    FinishRound(n, |c.rounds[r].acks|, |c.servers|) == n
  }

  function LastAfter(f: Tenure, last: map<Addr, nat>, step: Step): map<Addr, nat> {
    if step.DeliverAppend? && f.base <= step.appendCall.round then last[step.appendCall.to := step.appendCall.round]
    else last
  }

  ghost predicate OrderlyRun(f: Tenure, c: Cluster, last: map<Addr, nat>, steps: seq<Step>)
    requires WellFormed(c) && Legal(c, steps) && f.me in c.servers
    decreases |steps|
  {
    steps == [] ||
    (Orderly(f, c, last, steps[0]) &&
     (StepMovesOne(c, steps[0]);
      OrderlyRun(f, Apply(c, steps[0]), LastAfter(f, last, steps[0]), steps[1..])))
  }

  // ----- The mirror -----

  ghost predicate NodesMirror(f: Tenure, c: Cluster, s: Stable.System) {
    && s.me == f.me && f.me in c.nodes && s.servers == c.servers
    && s.leader == c.nodes[f.me]
    && s.nodes == c.nodes - {f.me}
  }

  /** The number of the leader's present or latest round. */
  function Latest(f: Tenure, s: Stable.System): int {
    f.base + s.round - 1
  }

  ghost predicate RoundsMirror(f: Tenure, c: Cluster, s: Stable.System) {
    && c.nextRound == Latest(f, s) + 1
    && (forall r | r in c.rounds && f.base <= r :: s.open && r == Latest(f, s))
    && (s.open ==>
          && s.round > 0 && Latest(f, s) in c.rounds
          && c.rounds[Latest(f, s)].owner == f.me
          && c.rounds[Latest(f, s)].asked == s.asked && c.rounds[Latest(f, s)].acks == s.acks)
  }

  ghost predicate QueuedAreCalls(
      f: Tenure, calls: set<AppendCall>, queues: map<Addr, seq<View.Tagged>>, last: map<Addr, nat>)
  {
    forall g, i | g in queues && 0 <= i < |queues[g]| :: IsCall(f, calls, last, g, queues[g][i])
  }

  ghost predicate IsCall(f: Tenure, calls: set<AppendCall>, last: map<Addr, nat>, g: Addr, tagged: View.Tagged) {
    && tagged.round > 0
    && AppendCall(f.base + tagged.round - 1, g, tagged.req) in calls
    && (g in last ==> last[g] < f.base + tagged.round - 1)
  }

  /** A call whose turn may still come waits in the queue of its receiver. */
  ghost predicate CallsAreQueued(
      f: Tenure, calls: set<AppendCall>, queues: map<Addr, seq<View.Tagged>>, last: map<Addr, nat>)
  {
    forall m | m in calls && f.base <= m.round ::
      && m.to in queues
      && (m.to !in last || last[m.to] < m.round ==> Waits(queues[m.to], m.round + 1 - f.base, m.req))
  }

  ghost predicate Waits(queue: seq<View.Tagged>, round: nat, req: AppendRequest) {
    exists i :: 0 <= i < |queue| && queue[i].round == round && queue[i].req == req
  }

  ghost predicate CallsMirror(
      f: Tenure, calls: set<AppendCall>, queues: map<Addr, seq<View.Tagged>>, last: map<Addr, nat>)
  {
    QueuedAreCalls(f, calls, queues, last) && CallsAreQueued(f, calls, queues, last)
  }

  ghost predicate LastMirror(f: Tenure, s: Stable.System, last: map<Addr, nat>) {
    forall g | g in last :: last[g] <= Latest(f, s) && (s.open && last[g] == Latest(f, s) ==> g in s.asked)
  }

  ghost predicate AnswersMirror(f: Tenure, answers: set<AppendAnswer>, s: Stable.System) {
    forall a | a in answers ::
      && a.round <= Latest(f, s)
      && (f.base <= a.round ==> a.from in s.nodes)
      && (s.open && a.round == Latest(f, s) ==>
            a.from in s.replies && s.replies[a.from] == a.success && a.term == s.leader.memory.currentTerm)
  }

  ghost predicate LedgerMirror(f: Tenure, l: Ledger, s: Stable.System) {
    && (forall k | k in l.accepts && f.base <= k.round && k.server != f.me ::
          k.server in s.nodes && k.server in s.taken && l.accepts[k].length <= s.taken[k.server])
    && (forall k | k in l.commits && f.base <= k.round :: Stable.Committed(k.length, k.quorum) in s.commits)
  }

  ghost predicate Mirrors(f: Tenure, c: Cluster, s: Stable.System, last: map<Addr, nat>) {
    && WellFormed(c) && Stable.SystemOk(s)
    && NodesMirror(f, c, s) && RoundsMirror(f, c, s)
    && CallsMirror(f, c.appendCalls, s.queues, last) && LastMirror(f, s, last)
    && AnswersMirror(f, c.appendAnswers, s) && LedgerMirror(f, c.ledger, s)
  }

  /** What is left of the mirror when its run is made. */
  ghost predicate Follows(f: Tenure, s: Stable.System, c: Cluster, t: Stable.System, last: map<Addr, nat>)
    requires Stable.SystemOk(s)
  {
    Stable.LeadsTo(s, t) && Mirrors(f, c, t, last)
  }

  // ----- One step -----

  lemma ShapedMirror(f: Tenure, c: Cluster, s: Stable.System, last: map<Addr, nat>)
    requires Mirrors(f, c, s, last)
    ensures WellFormed(c) && Stable.SystemOk(s) && Stable.Shaped(s)
    ensures f.me in c.servers && f.me in c.nodes && s.leader == c.nodes[f.me] && s.leader.role.Leader?
    ensures |s.leader.memory.log| > 0
    ensures forall a | a in c.servers && a != f.me :: a in s.nodes && s.nodes[a] == c.nodes[a]
    ensures forall a | a in s.nodes :: a in c.servers && a != f.me && a in s.queues
    ensures s.servers == c.servers && c.servers <= s.leader.role.nextIndex.Keys
  {
    Stable.SystemIsShaped(s);
  }

  /** Only servers, elections and rounds of earlier leaders are touched. */
  ghost predicate SideStep(f: Tenure, c: Cluster, c': Cluster) {
    && c'.servers == c.servers && c'.nextRound == c.nextRound
    && (forall m | m in c'.appendCalls && m !in c.appendCalls :: m.round < f.base)
    && (forall m | m in c.appendCalls && m !in c'.appendCalls :: m.round < f.base)
    && (forall a | a in c'.appendAnswers && a !in c.appendAnswers :: a.round < f.base)
    && c'.rounds.Keys <= c.rounds.Keys
    && (forall r | r in c'.rounds && f.base <= r :: c'.rounds[r] == c.rounds[r])
    && (forall r | r in c.rounds && f.base <= r && c.rounds[r].owner == f.me :: r in c'.rounds)
    && (forall k | k in c'.ledger.accepts && f.base <= k.round :: k in c.ledger.accepts
          && c'.ledger.accepts[k] == c.ledger.accepts[k])
    && (forall k | k in c'.ledger.commits && f.base <= k.round :: k in c.ledger.commits)
  }

  lemma SideStepMirrors(f: Tenure, c: Cluster, c': Cluster, s: Stable.System, t: Stable.System, last: map<Addr, nat>)
    requires Mirrors(f, c, s, last) && WellFormed(c') && Stable.SystemOk(t) && SideStep(f, c, c')
    requires NodesMirror(f, c', t) && t.leader.memory.currentTerm == s.leader.memory.currentTerm
    requires t == s.(leader := t.leader, nodes := t.nodes) && t.nodes.Keys == s.nodes.Keys
    ensures Mirrors(f, c', t, last)
  {
    hide Stable.SystemOk, WellFormed, NodesMirror;
  }

  lemma QuietSideStep(f: Tenure, c: Cluster, step: Step)
    requires WellFormed(c) && Enabled(c, step) && IsSide(f, step) && step != Crash(f.me)
    ensures SideStep(f, c, Apply(c, step))
  {
    hide HandleVote, OpenElection, FinishElection, Restart, WellFormed, HandleAppendReply, FinishRound, Acknowledge;
  }

  lemma LateSideStep(f: Tenure, c: Cluster, call: AppendCall)
    requires WellFormed(c) && Enabled(c, DeliverAppend(call))
    requires call.round < f.base && call.req.term < Term(c, call.to)
    ensures SideStep(f, c, DoDeliverAppend(c, call))
    ensures HandleAppend(c.nodes[call.to], call.req) == (c.nodes[call.to], false)
    ensures DoDeliverAppend(c, call).nodes == c.nodes
  {
    hide Splice;
  }

  lemma MovedNodesMirror(f: Tenure, c: Cluster, c': Cluster, s: Stable.System, a: Addr, n: NodeState)
    requires NodesMirror(f, c, s) && c'.nodes == c.nodes[a := n] && c'.servers == c.servers && a in c.nodes
    ensures a == f.me ==> NodesMirror(f, c', s.(leader := n))
    ensures a != f.me ==> NodesMirror(f, c', s.(nodes := s.nodes[a := n]))
    ensures n == c.nodes[a] ==> NodesMirror(f, c', s)
  {
    assert n == c.nodes[a] ==> c'.nodes == c.nodes;
  }

  /** What a step of elections, a crash, or a step of a round from before the run is for the mirror:
      nothing, a turn of a follower, or an answer of the leader. */
  ghost function SideEvent(f: Tenure, c: Cluster, step: Step): Option<Stable.Step>
    requires WellFormed(c) && Enabled(c, step)
  {
    match step
    case Open(a) => Some(Stable.Turn(a, Stable.Campaign))
    case DeliverVote(call) =>
      Some(if call.to == f.me then Stable.Answer(call.req) else Stable.Turn(call.to, Stable.Vote(call.req)))
    case Finish(a) => if c.nodes[a].role.Candidate? then Some(Stable.Turn(a, Stable.Defeat)) else None
    case Crash(a) => Some(Stable.Turn(a, Stable.Crash))
    case Send(_, _) => TendEvent(c, step)
    case CountAppend(_) => TendEvent(c, step)
    case _ => None
  }

  ghost function TendEvent(c: Cluster, step: Step): Option<Stable.Step>
    requires WellFormed(c) && Enabled(c, step)
  {
    if c.nodes[Mover(c, step)].role.Leader? then
      Some(Stable.Turn(Mover(c, step), Stable.Tend(Moved(c, step).role)))
    else None
  }

  /** A step of elections, a crash, or a step of a round from before the run. */
  ghost predicate IsSide(f: Tenure, step: Step) {
    match step
    case BeginRound(_, _) => false
    case Send(r, _) => r < f.base
    case DeliverAppend(_) => false
    case CountAppend(ans) => ans.round < f.base
    case EndRound(r) => r < f.base
    case _ => true
  }

  lemma SideEventIsEnabled(f: Tenure, c: Cluster, s: Stable.System, last: map<Addr, nat>, step: Step)
    requires WellFormed(c) && NodesMirror(f, c, s) && Stable.Shaped(s) && s.leader.role.Leader?
    requires Enabled(c, step) && f.me in c.servers && Orderly(f, c, last, step) && IsSide(f, step)
    requires SideEvent(f, c, step).Some?
    requires forall a | a in c.servers && a != f.me :: a in s.nodes && s.nodes[a] == c.nodes[a]
    ensures Stable.Enabled(s, SideEvent(f, c, step).value)
  {
    hide Stable.Shaped, HandleVote;
  }

  /** What it makes of the server it is about. */
  lemma SideEventMoves(f: Tenure, c: Cluster, s: Stable.System, step: Step)
    requires WellFormed(c) && NodesMirror(f, c, s) && Enabled(c, step) && IsSide(f, step)
    requires SideEvent(f, c, step).Some? && Stable.Shaped(s) && Stable.Enabled(s, SideEvent(f, c, step).value)
    requires step.Finish? ==>
      step.server in c.campaigns && !Majority(|c.campaigns[step.server].grants| + 1, |c.servers|)
    ensures var t, a, n := Stable.Apply(s, SideEvent(f, c, step).value), Mover(c, step), Moved(c, step);
      t == if a == f.me then s.(leader := n) else s.(nodes := s.nodes[a := n])
  {
    hide WellFormed, HandleVote, Restart, OpenElection, Stable.Shaped;
  }

  lemma OrderlyVoteKeepsTerm(f: Tenure, c: Cluster, s: Stable.System, last: map<Addr, nat>, step: Step)
    requires WellFormed(c) && NodesMirror(f, c, s) && Enabled(c, step) && IsSide(f, step) && f.me in c.servers
    requires Orderly(f, c, last, step) && SideEvent(f, c, step).Some? && Mover(c, step) == f.me
    requires Stable.Shaped(s) && Stable.Enabled(s, SideEvent(f, c, step).value)
    ensures Moved(c, step).memory.currentTerm == s.leader.memory.currentTerm
  {
    hide WellFormed, LogCondition, Stable.Shaped;
  }

  lemma NoSideEventStays(f: Tenure, c: Cluster, last: map<Addr, nat>, step: Step)
    requires WellFormed(c) && Enabled(c, step) && f.me in c.servers && Orderly(f, c, last, step)
    requires IsSide(f, step) && SideEvent(f, c, step).None?
    ensures Moved(c, step) == c.nodes[Mover(c, step)]
  {
  }

  lemma OrderlySide(f: Tenure, c: Cluster, last: map<Addr, nat>, step: Step)
    requires WellFormed(c) && Enabled(c, step) && f.me in c.servers && Orderly(f, c, last, step) && IsSide(f, step)
    ensures step != Crash(f.me)
  {
  }

  lemma SideStepFollows(f: Tenure, c: Cluster, s: Stable.System, last: map<Addr, nat>, step: Step)
    returns (t: Stable.System)
    requires Mirrors(f, c, s, last) && Enabled(c, step) && Orderly(f, c, last, step) && IsSide(f, step)
    ensures Follows(f, s, Apply(c, step), t, last)
  {
    hide Enabled, Apply, Moved, Mover, Orderly, Stable.Shaped, Stable.Enabled, Stable.Apply, Stable.SystemOk,
      WellFormed, SideStep, SideEvent, NodesMirror, RoundsMirror, CallsMirror, LastMirror, AnswersMirror, LedgerMirror,
      Stable.LeadsTo;
    ShapedMirror(f, c, s, last);
    StepMovesOne(c, step);
    OrderlySide(f, c, last, step);
    QuietSideStep(f, c, step);
    MovedNodesMirror(f, c, Apply(c, step), s, Mover(c, step), Moved(c, step));
    t := s;
    Stable.LeadsToItself(s);
    if SideEvent(f, c, step).Some? {
      var event := SideEvent(f, c, step).value;
      SideEventIsEnabled(f, c, s, last, step);
      OrderlyDefeat(f, c, last, step);
      SideEventMoves(f, c, s, step);
      if Mover(c, step) == f.me {
        OrderlyVoteKeepsTerm(f, c, s, last, step);
      }
      Stable.LeadsToNext(s, s, event);
      t := Stable.Apply(s, event);
    } else {
      NoSideEventStays(f, c, last, step);
    }
    SideStepMirrors(f, c, Apply(c, step), s, t, last);
  }

  lemma OrderlyDefeat(f: Tenure, c: Cluster, last: map<Addr, nat>, step: Step)
    requires WellFormed(c) && Enabled(c, step) && f.me in c.servers && Orderly(f, c, last, step)
    requires SideEvent(f, c, step).Some?
    ensures step.Finish? ==>
      step.server in c.campaigns && !Majority(|c.campaigns[step.server].grants| + 1, |c.servers|)
  {
  }

  lemma LateStepFollows(f: Tenure, c: Cluster, s: Stable.System, last: map<Addr, nat>, call: AppendCall)
    requires Mirrors(f, c, s, last) && Enabled(c, DeliverAppend(call))
    requires Orderly(f, c, last, DeliverAppend(call)) && call.round < f.base
    ensures Follows(f, s, DoDeliverAppend(c, call), s, last)
  {
    hide Stable.SystemOk, Stable.Shaped, Stable.LeadsTo, WellFormed, RoundsMirror, CallsMirror, LastMirror,
      AnswersMirror, LedgerMirror, SideStep, DoDeliverAppend;
    ShapedMirror(f, c, s, last);
    DoDeliverAppendKeepsWellFormed(c, call);
    LateSideStep(f, c, call);
    Stable.LeadsToItself(s);
    SameServers(c, call);
    SideStepMirrors(f, c, DoDeliverAppend(c, call), s, s, last);
  }

  lemma SameServers(c: Cluster, call: AppendCall)
    requires WellFormed(c) && Enabled(c, DeliverAppend(call))
    ensures DoDeliverAppend(c, call).servers == c.servers
  {
  }

  // The steps of the leader's rounds.

  /** The mirror's own step, when the mirror fits after it. */
  lemma StepFollows(f: Tenure, c': Cluster, s: Stable.System, u: Stable.System, event: Stable.Step,
                    last': map<Addr, nat>)
    requires Stable.SystemOk(s) && Stable.SystemOk(u) && Stable.LeadsTo(s, u)
    requires WellFormed(c') && Stable.Shaped(u) && Stable.Enabled(u, event)
    requires var t := Stable.Apply(u, event);
      && NodesMirror(f, c', t) && RoundsMirror(f, c', t) && CallsMirror(f, c'.appendCalls, t.queues, last')
      && LastMirror(f, t, last') && AnswersMirror(f, c'.appendAnswers, t) && LedgerMirror(f, c'.ledger, t)
    ensures Follows(f, s, c', Stable.Apply(u, event), last')
  {
    hide WellFormed, Stable.SystemOk, Stable.Shaped, Stable.Enabled, Stable.Apply, Stable.LeadsTo,
      NodesMirror, RoundsMirror, CallsMirror, LastMirror, AnswersMirror, LedgerMirror;
    Stable.LeadsToNext(s, u, event);
  }

  lemma BeginMirrors(f: Tenure, c: Cluster, s: Stable.System, last: map<Addr, nat>, texts: seq<string>)
    requires Mirrors(f, c, s, last) && Enabled(c, BeginRound(f.me, texts))
    requires Stable.Shaped(s) && Stable.Enabled(s, Stable.Begin(texts))
    ensures var c', t := DoBeginRound(c, f.me, texts), Stable.Apply(s, Stable.Begin(texts));
      && NodesMirror(f, c', t) && RoundsMirror(f, c', t) && CallsMirror(f, c'.appendCalls, t.queues, last)
      && LastMirror(f, t, last) && AnswersMirror(f, c'.appendAnswers, t) && LedgerMirror(f, c'.ledger, t)
  {
    hide WellFormed, Stable.SystemOk, Stable.Shaped, LeaderAppend;
    MovedNodesMirror(f, c, DoBeginRound(c, f.me, texts), s, f.me, LeaderAppend(c.nodes[f.me], texts));
    LeaderWrites(s.leader, texts);
  }

  lemma BeginFollows(f: Tenure, c: Cluster, s: Stable.System, last: map<Addr, nat>, texts: seq<string>)
    returns (t: Stable.System)
    requires Mirrors(f, c, s, last) && Enabled(c, BeginRound(f.me, texts))
    requires Orderly(f, c, last, BeginRound(f.me, texts))
    ensures Follows(f, s, DoBeginRound(c, f.me, texts), t, last)
  {
    hide WellFormed, Stable.SystemOk, Stable.Shaped, Stable.Apply, DoBeginRound, Follows,
      NodesMirror, CallsMirror, LastMirror, AnswersMirror, LedgerMirror;
    ShapedMirror(f, c, s, last);
    t := Stable.Apply(s, Stable.Begin(texts));
    BeginMirrors(f, c, s, last, texts);
    DoBeginRoundKeepsWellFormed(c, f.me, texts);
    Stable.LeadsToItself(s);
    StepFollows(f, DoBeginRound(c, f.me, texts), s, s, Stable.Begin(texts), last);
  }

  lemma CountSelfMirrors(f: Tenure, c: Cluster, s: Stable.System, last: map<Addr, nat>, r: nat)
    requires Mirrors(f, c, s, last) && Enabled(c, Send(r, f.me)) && f.base <= r
    requires Stable.Shaped(s) && Stable.Enabled(s, Stable.CountSelf)
    requires c.nodes[f.me].role.Leader? && |s.leader.memory.log| > 0
    ensures var c', t := DoSend(c, r, f.me), Stable.Apply(s, Stable.CountSelf);
      && NodesMirror(f, c', t) && RoundsMirror(f, c', t) && CallsMirror(f, c'.appendCalls, t.queues, last)
      && LastMirror(f, t, last) && AnswersMirror(f, c'.appendAnswers, t) && LedgerMirror(f, c'.ledger, t)
  {
    hide WellFormed, Stable.SystemOk, Stable.Shaped;
    MovedNodesMirror(f, c, DoSend(c, r, f.me), s, f.me, Acknowledge(c.nodes[f.me], f.me));
  }

  lemma SendMirrors(f: Tenure, c: Cluster, s: Stable.System, last: map<Addr, nat>, r: nat, to: Addr)
    requires Mirrors(f, c, s, last) && Enabled(c, Send(r, to)) && f.base <= r && to != f.me
    requires Stable.Shaped(s) && Stable.Enabled(s, Stable.Send(to))
    requires c.nodes[f.me].role.Leader? && to in c.nodes[f.me].role.nextIndex && to in s.queues
    ensures var c', t := DoSend(c, r, to), Stable.Apply(s, Stable.Send(to));
      && NodesMirror(f, c', t) && RoundsMirror(f, c', t)
      && LastMirror(f, t, last) && AnswersMirror(f, c'.appendAnswers, t) && LedgerMirror(f, c'.ledger, t)
  {
    hide WellFormed, Stable.SystemOk, Stable.Shaped, AppendRequestFor, CallsMirror;
  }

  lemma WaitsLonger(queue: seq<View.Tagged>, tagged: View.Tagged)
    ensures Waits(queue + [tagged], tagged.round, tagged.req)
    ensures forall round, req | Waits(queue, round, req) :: Waits(queue + [tagged], round, req)
  {
    var q := queue + [tagged];
    assert q[|q| - 1] == tagged;
    forall round, req | Waits(queue, round, req) ensures Waits(q, round, req) {
      var i :| 0 <= i < |queue| && queue[i].round == round && queue[i].req == req;
      assert q[i] == queue[i];
    }
  }

  lemma CallJoinsQueue(
      f: Tenure, calls: set<AppendCall>, queues: map<Addr, seq<View.Tagged>>, last: map<Addr, nat>, call: AppendCall)
    requires CallsMirror(f, calls, queues, last) && f.base <= call.round && call.to in queues
    requires call.to in last ==> last[call.to] < call.round
    ensures CallsMirror(f, calls + {call},
      queues[call.to := queues[call.to] + [View.Tagged(call.round + 1 - f.base, call.req)]], last)
  {
    CallIsQueued(f, calls, queues, last, call);
    QueuedIsCall(f, calls, queues, last, call);
    hide QueuedAreCalls, CallsAreQueued;
  }

  lemma CallIsQueued(
      f: Tenure, calls: set<AppendCall>, queues: map<Addr, seq<View.Tagged>>, last: map<Addr, nat>, call: AppendCall)
    requires CallsAreQueued(f, calls, queues, last) && f.base <= call.round && call.to in queues
    ensures CallsAreQueued(f, calls + {call},
      queues[call.to := queues[call.to] + [View.Tagged(call.round + 1 - f.base, call.req)]], last)
  {
    hide Waits;
    WaitsLonger(queues[call.to], View.Tagged(call.round + 1 - f.base, call.req));
  }

  lemma QueuedIsCall(
      f: Tenure, calls: set<AppendCall>, queues: map<Addr, seq<View.Tagged>>, last: map<Addr, nat>, call: AppendCall)
    requires QueuedAreCalls(f, calls, queues, last) && f.base <= call.round && call.to in queues
    requires call.to in last ==> last[call.to] < call.round
    ensures QueuedAreCalls(f, calls + {call},
      queues[call.to := queues[call.to] + [View.Tagged(call.round + 1 - f.base, call.req)]], last)
  {
    var tagged := View.Tagged(call.round + 1 - f.base, call.req);
    var queues' := queues[call.to := queues[call.to] + [tagged]];
    forall g, i | g in queues' && 0 <= i < |queues'[g]| ensures IsCall(f, calls + {call}, last, g, queues'[g][i]) {
      if i < |queues[g]| {
        assert IsCall(f, calls, last, g, queues[g][i]);
      }
    }
  }

  lemma SendCallsMirror(f: Tenure, c: Cluster, s: Stable.System, last: map<Addr, nat>, r: nat, to: Addr)
    requires Mirrors(f, c, s, last) && Enabled(c, Send(r, to)) && f.base <= r && to != f.me
    requires Stable.Shaped(s) && Stable.Enabled(s, Stable.Send(to))
    requires c.nodes[f.me].role.Leader? && to in c.nodes[f.me].role.nextIndex && to in s.queues
    ensures CallsMirror(f, DoSend(c, r, to).appendCalls, Stable.Apply(s, Stable.Send(to)).queues, last)
  {
    hide WellFormed, Stable.SystemOk, Stable.Shaped, AppendRequestFor, AnswersMirror, LedgerMirror, CallsMirror;
    CallJoinsQueue(f, c.appendCalls, s.queues, last, AppendCall(r, to, AppendRequestFor(s.leader, to)));
  }

  lemma SendFollows(f: Tenure, c: Cluster, s: Stable.System, last: map<Addr, nat>, r: nat, to: Addr)
    returns (t: Stable.System)
    requires Mirrors(f, c, s, last) && Enabled(c, Send(r, to)) && f.base <= r
    ensures Follows(f, s, DoSend(c, r, to), t, last)
  {
    hide WellFormed, Stable.SystemOk, Stable.Shaped, Stable.Apply, DoSend, Follows,
      NodesMirror, CallsMirror, LastMirror, AnswersMirror, LedgerMirror;
    ShapedMirror(f, c, s, last);
    DoSendKeepsWellFormed(c, r, to);
    var event := if to == f.me then Stable.CountSelf else Stable.Send(to);
    t := Stable.Apply(s, event);
    if to == f.me {
      CountSelfMirrors(f, c, s, last, r);
    } else {
      SendMirrors(f, c, s, last, r, to);
      SendCallsMirror(f, c, s, last, r, to);
    }
    Stable.LeadsToItself(s);
    StepFollows(f, DoSend(c, r, to), s, s, event, last);
  }

  lemma CountMirrors(f: Tenure, c: Cluster, s: Stable.System, last: map<Addr, nat>, ans: AppendAnswer)
    requires Mirrors(f, c, s, last) && Enabled(c, CountAppend(ans)) && f.base <= ans.round
    requires Stable.Shaped(s) && Stable.Enabled(s, Stable.Hear(ans.from))
    requires c.nodes[f.me].role.Leader? && |s.leader.memory.log| > 0
    ensures var c', t := DoCountAppend(c, ans), Stable.Apply(s, Stable.Hear(ans.from));
      && NodesMirror(f, c', t) && RoundsMirror(f, c', t) && CallsMirror(f, c'.appendCalls, t.queues, last)
      && LastMirror(f, t, last) && AnswersMirror(f, c'.appendAnswers, t) && LedgerMirror(f, c'.ledger, t)
  {
    hide WellFormed, Stable.SystemOk, Stable.Shaped, HandleAppendReply;
    MovedNodesMirror(f, c, DoCountAppend(c, ans), s, f.me, HandleAppendReply(s.leader, ans.from, ans.success));
    ReplyKeepsTerm(s.leader, ans.from, ans.success);
  }

  lemma ReplyKeepsTerm(n: NodeState, from: Addr, success: bool)
    requires |n.memory.log| > 0
    ensures HandleAppendReply(n, from, success).memory == n.memory
  {
  }

  lemma CountFollows(f: Tenure, c: Cluster, s: Stable.System, last: map<Addr, nat>, ans: AppendAnswer)
    returns (t: Stable.System)
    requires Mirrors(f, c, s, last) && Enabled(c, CountAppend(ans)) && f.base <= ans.round
    ensures Follows(f, s, DoCountAppend(c, ans), t, last)
  {
    hide WellFormed, Stable.SystemOk, Stable.Shaped, Stable.Apply, DoCountAppend, Follows,
      NodesMirror, CallsMirror, LastMirror, LedgerMirror;
    ShapedMirror(f, c, s, last);
    t := Stable.Apply(s, Stable.Hear(ans.from));
    CountMirrors(f, c, s, last, ans);
    DoCountAppendKeepsWellFormed(c, ans);
    Stable.LeadsToItself(s);
    StepFollows(f, DoCountAppend(c, ans), s, s, Stable.Hear(ans.from), last);
  }

  lemma EndMirrors(f: Tenure, c: Cluster, s: Stable.System, last: map<Addr, nat>, r: nat)
    requires Mirrors(f, c, s, last) && Enabled(c, EndRound(r)) && f.base <= r
    requires Stable.Shaped(s) && Stable.Enabled(s, Stable.End) && |s.leader.memory.log| > 0
    ensures var c', t := DoEndRound(c, r), Stable.Apply(s, Stable.End);
      && NodesMirror(f, c', t) && RoundsMirror(f, c', t) && CallsMirror(f, c'.appendCalls, t.queues, last)
      && LastMirror(f, t, last) && AnswersMirror(f, c'.appendAnswers, t) && LedgerMirror(f, c'.ledger, t)
  {
    hide WellFormed, Stable.SystemOk, Stable.Shaped;
    MovedNodesMirror(f, c, DoEndRound(c, r), s, f.me, FinishRound(s.leader, |s.acks|, |s.servers|));
  }

  lemma EndFollows(f: Tenure, c: Cluster, s: Stable.System, last: map<Addr, nat>, r: nat)
    returns (t: Stable.System)
    requires Mirrors(f, c, s, last) && Enabled(c, EndRound(r)) && f.base <= r
    ensures Follows(f, s, DoEndRound(c, r), t, last)
  {
    hide WellFormed, Stable.SystemOk, Stable.Shaped, Stable.Apply, DoEndRound, Follows,
      NodesMirror, CallsMirror, LastMirror, AnswersMirror, LedgerMirror;
    ShapedMirror(f, c, s, last);
    t := Stable.Apply(s, Stable.End);
    EndMirrors(f, c, s, last, r);
    DoEndRoundKeepsWellFormed(c, r);
    Stable.LeadsToItself(s);
    StepFollows(f, DoEndRound(c, r), s, s, Stable.End, last);
  }

  // Delivering a request: those sent before it and not delivered are lost.

  lemma {:induction false} DropFront(s: Stable.System, g: Addr, i: nat) returns (t: Stable.System)
    requires Stable.SystemOk(s) && Stable.Shaped(s) && g in s.nodes && g in s.queues && i <= |s.queues[g]|
    ensures Stable.SystemOk(t) && Stable.Shaped(t) && Stable.LeadsTo(s, t)
    ensures t == s.(queues := s.queues[g := s.queues[g][i..]])
    decreases i
  {
    hide Stable.SystemOk, Stable.Shaped, Stable.LeadsTo;
    if i == 0 {
      t := s;
      assert s.queues[g][0..] == s.queues[g];
      assert s.queues[g := s.queues[g]] == s.queues;
      Stable.LeadsToItself(s);
    } else {
      var u := DropFront(s, g, i - 1);
      t := Stable.Apply(u, Stable.Lose(g, 0));
      assert u.queues[g][..0] + u.queues[g][1..] == s.queues[g][i..];
      Stable.LeadsToNext(s, u, Stable.Lose(g, 0));
      Stable.SystemIsShaped(t);
    }
  }

  /** What holds of a request in the queue of a follower. */
  lemma QueueFacts(s: Stable.System, g: Addr, i: nat)
    requires Stable.SystemOk(s) && Stable.Shaped(s) && g in s.nodes && i < |s.queues[g]|
    ensures forall j | 0 <= j < |s.queues[g]| && j != i ::
      s.queues[g][j].round != s.queues[g][i].round && (j > i <==> s.queues[g][j].round > s.queues[g][i].round)
    ensures s.queues[g][i].round <= s.round
    ensures s.queues[g][i].req.term == s.leader.memory.currentTerm
    ensures s.open ==> g !in s.replies && (s.queues[g][i].round == s.round ==> g in s.asked)
    ensures g in s.taken ==> s.taken[g] <= End(s.queues[g][i].req)
  {
    Stable.ViewsAreOk(s, g);
    hide Stable.SystemOk;
    var v := Stable.ViewOf(s, g);
    assert View.Snapshot(v, v.queue[i].req);
    assert forall j | 0 <= j < i :: v.queue[j].round < v.queue[i].round;
  }

  lemma DeliveredCallLeaves(
      f: Tenure, calls: set<AppendCall>, queues: map<Addr, seq<View.Tagged>>, last: map<Addr, nat>,
      call: AppendCall, i: nat)
    requires QueuedAreCalls(f, calls, queues, last) && f.base <= call.round && call.to in queues
    requires i < |queues[call.to]| && queues[call.to][i] == View.Tagged(call.round + 1 - f.base, call.req)
    requires forall j | 0 <= j < |queues[call.to]| && j != i ::
      j > i <==> queues[call.to][j].round > queues[call.to][i].round
    ensures QueuedAreCalls(f, calls - {call}, queues[call.to := queues[call.to][i + 1..]], last[call.to := call.round])
  {
    var queues' := queues[call.to := queues[call.to][i + 1..]];
    var last' := last[call.to := call.round];
    forall g, j | g in queues' && 0 <= j < |queues'[g]| ensures IsCall(f, calls - {call}, last', g, queues'[g][j]) {
      assert IsCall(f, calls, last, g, queues[g][if g == call.to then i + 1 + j else j]);
    }
  }

  lemma OtherCallsWait(
      f: Tenure, calls: set<AppendCall>, queues: map<Addr, seq<View.Tagged>>, last: map<Addr, nat>,
      call: AppendCall, i: nat)
    requires CallsAreQueued(f, calls, queues, last) && f.base <= call.round && call.to in queues
    requires i < |queues[call.to]| && queues[call.to][i] == View.Tagged(call.round + 1 - f.base, call.req)
    requires call.to in last ==> last[call.to] < call.round
    requires forall j | 0 <= j < |queues[call.to]| && j != i ::
      j > i <==> queues[call.to][j].round > queues[call.to][i].round
    ensures CallsAreQueued(f, calls - {call}, queues[call.to := queues[call.to][i + 1..]], last[call.to := call.round])
  {
    var rest := queues[call.to][i + 1..];
    forall m | m in calls && f.base <= m.round && m.to == call.to && call.round < m.round
      ensures Waits(rest, m.round + 1 - f.base, m.req)
    {
      assert Waits(queues[call.to], m.round + 1 - f.base, m.req);
      var j :| 0 <= j < |queues[call.to]|
        && queues[call.to][j].round == m.round + 1 - f.base && queues[call.to][j].req == m.req;
      assert rest[j - (i + 1)] == queues[call.to][j];
    }
    hide Waits;
  }

  /** The mirror of a delivery: the requests before it are lost, then it is delivered. */
  function Delivery(s: Stable.System, g: Addr, i: nat): Stable.System
    requires Stable.Shaped(s) && g in s.nodes && i < |s.queues[g]|
  {
    var tagged := s.queues[g][i];
    var (n, success) := HandleAppend(s.nodes[g], tagged.req);
    s.(nodes := s.nodes[g := n],
       queues := s.queues[g := s.queues[g][i + 1..]],
       replies := if s.open && tagged.round == s.round then s.replies[g := success] else s.replies,
       taken := if success then s.taken[g := End(tagged.req)] else s.taken)
  }

  lemma DeliveryMirrors(f: Tenure, c: Cluster, s: Stable.System, last: map<Addr, nat>, call: AppendCall, i: nat)
    requires Mirrors(f, c, s, last) && Enabled(c, DeliverAppend(call)) && f.base <= call.round
    requires Stable.Shaped(s) && call.to in s.nodes && s.nodes[call.to] == c.nodes[call.to] && call.to != f.me
    requires i < |s.queues[call.to]| && s.queues[call.to][i] == View.Tagged(call.round + 1 - f.base, call.req)
    ensures var c', t := DoDeliverAppend(c, call), Delivery(s, call.to, i);
      && NodesMirror(f, c', t) && RoundsMirror(f, c', t)
      && LastMirror(f, t, last[call.to := call.round]) && LedgerMirror(f, c'.ledger, t)
  {
    hide WellFormed, Stable.SystemOk, Stable.Shaped, HandleAppend, CallsMirror, AnswersMirror;
    QueueFacts(s, call.to, i);
    MovedNodesMirror(f, c, DoDeliverAppend(c, call), s, call.to, HandleAppend(c.nodes[call.to], call.req).0);
  }

  lemma DeliveryAnswersMirror(f: Tenure, c: Cluster, s: Stable.System, last: map<Addr, nat>, call: AppendCall, i: nat)
    requires Mirrors(f, c, s, last) && Enabled(c, DeliverAppend(call)) && f.base <= call.round
    requires Stable.Shaped(s) && call.to in s.nodes && s.nodes[call.to] == c.nodes[call.to]
    requires i < |s.queues[call.to]| && s.queues[call.to][i] == View.Tagged(call.round + 1 - f.base, call.req)
    ensures AnswersMirror(f, DoDeliverAppend(c, call).appendAnswers, Delivery(s, call.to, i))
  {
    hide WellFormed, Stable.SystemOk, Stable.Shaped, HandleAppend, CallsMirror, LedgerMirror;
    QueueFacts(s, call.to, i);
  }

  lemma DeliveryCallsMirror(f: Tenure, c: Cluster, s: Stable.System, last: map<Addr, nat>, call: AppendCall, i: nat)
    requires Mirrors(f, c, s, last) && Enabled(c, DeliverAppend(call)) && f.base <= call.round
    requires Stable.Shaped(s) && call.to in s.nodes && call.to in s.queues
    requires call.to in last ==> last[call.to] < call.round
    requires i < |s.queues[call.to]| && s.queues[call.to][i] == View.Tagged(call.round + 1 - f.base, call.req)
    ensures CallsMirror(f, DoDeliverAppend(c, call).appendCalls, Delivery(s, call.to, i).queues,
                        last[call.to := call.round])
  {
    hide WellFormed, Stable.SystemOk, Stable.Shaped, HandleAppend, AnswersMirror, LedgerMirror, QueuedAreCalls,
      CallsAreQueued;
    QueueFacts(s, call.to, i);
    DeliveredCallLeaves(f, c.appendCalls, s.queues, last, call, i);
    OtherCallsWait(f, c.appendCalls, s.queues, last, call, i);
  }

  lemma DeliveryIsDrop(s: Stable.System, u: Stable.System, g: Addr, i: nat)
    requires Stable.Shaped(s) && Stable.Shaped(u) && g in s.nodes && i < |s.queues[g]|
    requires u == s.(queues := s.queues[g := s.queues[g][i..]])
    ensures Stable.Enabled(u, Stable.Deliver(g)) && Stable.Apply(u, Stable.Deliver(g)) == Delivery(s, g, i)
  {
    hide HandleAppend;
    assert s.queues[g][i..][1..] == s.queues[g][i + 1..];
  }

  lemma DeliverFollows(f: Tenure, c: Cluster, s: Stable.System, last: map<Addr, nat>, call: AppendCall)
    returns (t: Stable.System)
    requires Mirrors(f, c, s, last) && Enabled(c, DeliverAppend(call)) && f.base <= call.round
    requires call.to in last ==> last[call.to] < call.round
    ensures Follows(f, s, DoDeliverAppend(c, call), t, last[call.to := call.round])
  {
    hide WellFormed, Stable.SystemOk, Stable.Shaped, Stable.Apply, Stable.Enabled, Stable.LeadsTo, DoDeliverAppend,
      Delivery, Follows, QueuedAreCalls, NodesMirror, RoundsMirror, LastMirror, AnswersMirror, LedgerMirror;
    ShapedMirror(f, c, s, last);
    var g := call.to;
    assert Waits(s.queues[g], call.round + 1 - f.base, call.req);
    var i: nat :| i < |s.queues[g]|
      && s.queues[g][i].round == call.round + 1 - f.base && s.queues[g][i].req == call.req;
    hide Waits, CallsAreQueued;
    DeliveryMirrors(f, c, s, last, call, i);
    DeliveryAnswersMirror(f, c, s, last, call, i);
    DeliveryCallsMirror(f, c, s, last, call, i);
    hide Mirrors, CallsMirror;
    DoDeliverAppendKeepsWellFormed(c, call);
    var u := DropFront(s, g, i);
    DeliveryIsDrop(s, u, g, i);
    t := Delivery(s, g, i);
    StepFollows(f, DoDeliverAppend(c, call), s, u, Stable.Deliver(g), last[g := call.round]);
  }

  // ----- Whole runs -----

  lemma OrderlyStepFollows(f: Tenure, c: Cluster, s: Stable.System, last: map<Addr, nat>, step: Step)
    returns (t: Stable.System)
    requires Mirrors(f, c, s, last) && Enabled(c, step) && Orderly(f, c, last, step)
    ensures Follows(f, s, Apply(c, step), t, LastAfter(f, last, step))
  {
    hide Mirrors, Follows, WellFormed, Enabled, Stable.SystemOk;
    match step
    case BeginRound(a, texts) => t := BeginFollows(f, c, s, last, texts);
    case Send(r, to) =>
      if f.base <= r {
        t := SendFollows(f, c, s, last, r, to);
      } else {
        t := SideStepFollows(f, c, s, last, step);
      }
    case DeliverAppend(call) =>
      if f.base <= call.round {
        t := DeliverFollows(f, c, s, last, call);
      } else {
        LateStepFollows(f, c, s, last, call);
        t := s;
      }
    case CountAppend(ans) =>
      if f.base <= ans.round {
        t := CountFollows(f, c, s, last, ans);
      } else {
        t := SideStepFollows(f, c, s, last, step);
      }
    case EndRound(r) =>
      if f.base <= r {
        t := EndFollows(f, c, s, last, r);
      } else {
        t := SideStepFollows(f, c, s, last, step);
      }
    case _ => t := SideStepFollows(f, c, s, last, step);
  }

  lemma FollowsMirrors(f: Tenure, s: Stable.System, c: Cluster, t: Stable.System, last: map<Addr, nat>)
    requires Stable.SystemOk(s) && Follows(f, s, c, t, last)
    ensures Stable.LeadsTo(s, t) && Mirrors(f, c, t, last)
  {
  }

  /** Every orderly run of the cluster is mirrored by a run of the leader's term. */
  lemma {:induction false} OrderlyRunIsMirrored(
      f: Tenure, c: Cluster, s: Stable.System, last: map<Addr, nat>, steps: seq<Step>)
    returns (t: Stable.System, last': map<Addr, nat>)
    requires Mirrors(f, c, s, last) && Legal(c, steps) && f.me in c.servers && OrderlyRun(f, c, last, steps)
    ensures Stable.LeadsTo(s, t) && Mirrors(f, Run(c, steps), t, last')
    decreases |steps|
  {
    hide Follows, Enabled, Apply, Orderly, LastAfter, Stable.SystemOk, Stable.LeadsTo, WellFormed, NodesMirror,
      RoundsMirror, CallsMirror, LastMirror, AnswersMirror, LedgerMirror;
    if steps == [] {
      t, last' := s, last;
      Stable.LeadsToItself(s);
    } else {
      var u := OrderlyStepFollows(f, c, s, last, steps[0]);
      StepMovesOne(c, steps[0]);
      FollowsMirrors(f, s, Apply(c, steps[0]), u, LastAfter(f, last, steps[0]));
      t, last' := OrderlyRunIsMirrored(f, Apply(c, steps[0]), u, LastAfter(f, last, steps[0]), steps[1..]);
      Stable.LeadsToFurther(s, u, t);
    }
  }

  // ----- What it gives -----

  /** The hypotheses on the state the leader's run starts from: a reachable state in which it leads,
      committed no more than its log, and no follower has an entry of the leader's term, disagrees with
      the leader below an entry of equal index and term, or committed beyond the leader's log. Messages
      of earlier rounds may be on the way. */
  ghost predicate Takeover(c: Cluster, me: Addr) {
    && Reachable(c) && WellFormed(c) && me in c.servers
    && c.nodes[me].role.Leader? && c.nodes[me].commitIndex < |c.nodes[me].memory.log|
    && forall a | a in c.servers && a != me :: Fresh(c.nodes[a], c.nodes[me])
  }

  ghost predicate Fresh(n: NodeState, leader: NodeState) {
    && n.commitIndex < |leader.memory.log|
    && LogMatching(n.memory.log, leader.memory.log)
    && forall i | 0 <= i < |n.memory.log| :: n.memory.log[i].term != leader.memory.currentTerm
  }

  function TenureOf(c: Cluster, me: Addr): Tenure {
    Tenure(me, c.nextRound)
  }

  function MirrorOf(c: Cluster, me: Addr): Stable.System
    requires WellFormed(c) && me in c.servers
  {
    Stable.System(me, c.servers, c.nodes[me], c.nodes - {me}, map a | a in c.servers && a != me :: [],
                  0, false, {}, map[], {}, {}, map[], {}, c.nodes[me].commitIndex)
  }

  lemma MirrorIsShaped(c: Cluster, me: Addr)
    requires WellFormed(c) && me in c.servers && c.nodes[me].role.Leader? && NodeOk(c.nodes[me], c.servers)
    ensures Stable.Shaped(MirrorOf(c, me))
  {
    hide TermsWithin;
  }

  lemma FreshStartsWith(c: Cluster, me: Addr, a: Addr)
    requires WellFormed(c) && me in c.servers && Stable.Shaped(MirrorOf(c, me))
    requires NodeOk(c.nodes[me], c.servers) && a in c.servers && a != me && NodeOk(c.nodes[a], c.servers)
    requires Fresh(c.nodes[a], c.nodes[me])
    ensures a in MirrorOf(c, me).nodes && a in MirrorOf(c, me).queues && MirrorOf(c, me).queues[a] == []
    ensures Stable.StartsWith(MirrorOf(c, me), a)
  {
    hide TermsWithin, LogMatching, WellFormed;
  }

  lemma TakeoverStarts(c: Cluster, me: Addr)
    requires Takeover(c, me)
    ensures Stable.Start(MirrorOf(c, me))
  {
    hide NodeOk, Fresh, Stable.Shaped, Stable.StartsWith, ElectionsOk, NodesOk;
    ReachableIsOk(c);
    NodesAreOk(c);
    MirrorIsShaped(c, me);
    forall a | a in c.servers && a != me
      ensures a in MirrorOf(c, me).nodes && a in MirrorOf(c, me).queues && MirrorOf(c, me).queues[a] == []
      ensures Stable.StartsWith(MirrorOf(c, me), a)
    {
      FreshStartsWith(c, me, a);
    }
    FileAgrees(c.nodes[me], c.servers);
  }

  lemma NodesAreOk(c: Cluster)
    requires ElectionsOk(c)
    ensures forall a | a in c.servers :: a in c.nodes && NodeOk(c.nodes[a], c.servers)
  {
    ElectionsGiveNodes(c);
    hide ElectionsOk, NodeOk;
  }

  lemma FileAgrees(n: NodeState, servers: set<Addr>)
    requires NodeOk(n, servers)
    ensures n.disk.log == n.memory.log
  {
  }

  lemma EarlierRounds(c: Cluster)
    requires WellFormed(c) && RoundsOk(c)
    ensures forall r | r in c.rounds :: r < c.nextRound
    ensures forall m | m in c.appendCalls :: m.round < c.nextRound
    ensures forall a | a in c.appendAnswers :: a.round < c.nextRound
    ensures forall k | k in c.ledger.accepts :: k.round < c.nextRound
    ensures forall k | k in c.ledger.commits :: k.round < c.nextRound
  {
    hide RoundOk, AcceptsBeforeVotes, AcceptsAsked, CallsDiffer;
    CallsUntaken(c);
  }

  lemma TakeoverMirrors(c: Cluster, me: Addr)
    requires Takeover(c, me)
    ensures Mirrors(TenureOf(c, me), c, MirrorOf(c, me), map[])
  {
    hide Fresh, Stable.SystemOk, Stable.Start, ElectionsOk, RoundsOk, Reachable;
    TakeoverStarts(c, me);
    Stable.StartIsOk(MirrorOf(c, me));
    ReachableRoundsOk(c);
    EarlierRounds(c);
  }

  /** A run of the cluster under one leader, from its takeover. */
  ghost predicate LeaderRun(c: Cluster, me: Addr, steps: seq<Step>, end: Cluster) {
    && Takeover(c, me) && Legal(c, steps) && OrderlyRun(TenureOf(c, me), c, map[], steps)
    && end == Run(c, steps)
  }

  lemma LeaderRunIsStable(c: Cluster, me: Addr, steps: seq<Step>, end: Cluster)
    returns (moves: seq<Stable.Step>, t: Stable.System, last: map<Addr, nat>)
    requires LeaderRun(c, me, steps, end)
    ensures Stable.StableRun(MirrorOf(c, me), moves, t) && Mirrors(TenureOf(c, me), end, t, last)
  {
    hide Mirrors, Stable.SystemOk, OrderlyRun, Legal, Stable.Start;
    TakeoverStarts(c, me);
    TakeoverMirrors(c, me);
    Stable.StartIsOk(MirrorOf(c, me));
    t, last := OrderlyRunIsMirrored(TenureOf(c, me), c, MirrorOf(c, me), map[], steps);
    moves :| Stable.Legal(MirrorOf(c, me), moves) && Stable.Run(MirrorOf(c, me), moves) == t;
  }

  /** Stable-leader refinement in the cluster: whatever append of the leader a follower accepted in the
      run, its log begins with the leader's log as of that append; and once it accepted one, what it
      reports as committed is a prefix of the leader's log. */
  lemma ClusterRefinement(c: Cluster, me: Addr, steps: seq<Step>, end: Cluster, k: AcceptKey)
    requires LeaderRun(c, me, steps, end)
    requires k in end.ledger.accepts && c.nextRound <= k.round && k.server != me
    ensures WellFormed(end) && me in end.nodes && k.server in end.nodes
    ensures var length, log := end.ledger.accepts[k].length, end.nodes[me].memory.log;
      length <= |log| && log[..length] <= end.nodes[k.server].memory.log
    ensures CommittedLog(end.nodes[k.server]) <= end.nodes[me].memory.log
  {
    hide Stable.SystemOk, Stable.Shaped, Stable.Start, Stable.StableRun, RoundsMirror, CallsMirror, LastMirror,
      AnswersMirror, Fresh, Reachable, OrderlyRun, Legal, CommittedLog;
    var moves, t, last := LeaderRunIsStable(c, me, steps, end);
    ShapedMirror(TenureOf(c, me), end, t, last);
    var g := k.server;
    MirrorKeepsFollowers(MirrorOf(c, me), moves, t);
    Stable.StableRefinement(MirrorOf(c, me), moves, t, g);
    assert t.leader.memory.log[..end.ledger.accepts[k].length] <= t.leader.memory.log[..t.taken[g]];
  }

  lemma MirrorKeepsFollowers(s: Stable.System, moves: seq<Stable.Step>, t: Stable.System)
    requires Stable.StableRun(s, moves, t)
    ensures Stable.SystemOk(t) && t.nodes.Keys == s.nodes.Keys
  {
    hide View.ViewOk, Stable.Backed;
    Stable.StartIsOk(s);
    Stable.RunAdvances(s, moves);
  }

  /** Committed means held, in the cluster: every commit of the run rests on a majority of servers whose
      logs begin, at the end of the run, with all that was committed. */
  lemma ClusterCommitsHeld(c: Cluster, me: Addr, steps: seq<Step>, end: Cluster, k: Commit)
    requires LeaderRun(c, me, steps, end)
    requires k in end.ledger.commits && c.nextRound <= k.round
    ensures WellFormed(end) && me in end.nodes && k.quorum <= end.servers
    ensures Majority(|k.quorum|, |end.servers|)
    ensures k.length <= |end.nodes[me].memory.log|
    ensures forall x | x in k.quorum ::
      x in end.nodes && end.nodes[me].memory.log[..k.length] <= end.nodes[x].memory.log
  {
    hide Stable.SystemOk, Stable.Shaped, Stable.Start, Stable.StableRun, RoundsMirror, CallsMirror, LastMirror,
      AnswersMirror, Fresh, Reachable, OrderlyRun, Legal;
    var moves, t, last := LeaderRunIsStable(c, me, steps, end);
    ShapedMirror(TenureOf(c, me), end, t, last);
    var k' := Stable.Committed(k.length, k.quorum);
    assert k' in t.commits;
    Stable.BackedNow(t, k');
    forall x | x in k.quorum
      ensures x in end.nodes && end.nodes[me].memory.log[..k.length] <= end.nodes[x].memory.log
    {
      assert Stable.Keeps(t, x, t.leader.memory.log[..k.length]);
    }
  }

  // ----- Commit indices -----

  lemma DeliveryKeepsCommit(f: Tenure, c: Cluster, s: Stable.System, last: map<Addr, nat>, call: AppendCall)
    requires Mirrors(f, c, s, last) && Enabled(c, DeliverAppend(call)) && f.base <= call.round
    requires call.to in last ==> last[call.to] < call.round
    ensures call.to in c.nodes
    ensures c.nodes[call.to].commitIndex <= HandleAppend(c.nodes[call.to], call.req).0.commitIndex
  {
    hide WellFormed, Stable.SystemOk, Stable.Shaped, Stable.LeadsTo, QueuedAreCalls, NodesMirror, RoundsMirror,
      LastMirror, AnswersMirror, LedgerMirror, HandleAppend;
    ShapedMirror(f, c, s, last);
    var g := call.to;
    assert Waits(s.queues[g], call.round + 1 - f.base, call.req);
    var i: nat :| i < |s.queues[g]|
      && s.queues[g][i].round == call.round + 1 - f.base && s.queues[g][i].req == call.req;
    hide Waits, CallsAreQueued;
    var u := DropFront(s, g, i);
    Stable.ViewsAreOk(u, g);
    hide View.ViewOk;
    View.DeliverAdvances(Stable.ViewOf(u, g));
  }

  lemma OthersKeepCommit(c: Cluster, step: Step)
    requires WellFormed(c) && Enabled(c, step) && !step.DeliverAppend? && !step.EndRound? && !step.Crash?
    ensures Mover(c, step) in c.nodes
    ensures c.nodes[Mover(c, step)].commitIndex == Moved(c, step).commitIndex
  {
    hide LogCondition;
  }

  lemma LateKeepsCommit(f: Tenure, c: Cluster, last: map<Addr, nat>, call: AppendCall)
    requires WellFormed(c) && Enabled(c, DeliverAppend(call)) && f.me in c.servers
    requires Orderly(f, c, last, DeliverAppend(call)) && call.round < f.base
    ensures call.to in c.nodes && HandleAppend(c.nodes[call.to], call.req).0 == c.nodes[call.to]
  {
    LateSideStep(f, c, call);
  }

  lemma EndKeepsCommit(f: Tenure, c: Cluster, s: Stable.System, last: map<Addr, nat>, r: nat)
    requires Mirrors(f, c, s, last) && Enabled(c, EndRound(r)) && Orderly(f, c, last, EndRound(r))
    ensures c.rounds[r].owner in c.nodes
    ensures c.nodes[c.rounds[r].owner].commitIndex <= Moved(c, EndRound(r)).commitIndex
  {
    hide CallsMirror, LastMirror, AnswersMirror, LedgerMirror, View.ViewOk, Stable.Backed;
    ShapedMirror(f, c, s, last);
    assert f.base <= r ==> c.rounds[r].owner == f.me;
    assert Stable.LeaderOk(s);
  }

  lemma MoverKeepsCommit(f: Tenure, c: Cluster, s: Stable.System, last: map<Addr, nat>, step: Step)
    requires Mirrors(f, c, s, last) && Enabled(c, step) && Orderly(f, c, last, step) && !step.Crash?
    ensures Mover(c, step) in c.nodes
    ensures c.nodes[Mover(c, step)].commitIndex <= Moved(c, step).commitIndex
  {
    hide Stable.SystemOk, NodesMirror, RoundsMirror, CallsMirror, LastMirror, AnswersMirror, LedgerMirror,
      HandleAppend, HandleVote, HandleAppendReply, FinishRound, FinishElection, LeaderAppend, Acknowledge, Restart,
      OpenElection, WellFormed;
    ShapedMirror(f, c, s, last);
    match step
    case DeliverAppend(call) =>
      if f.base <= call.round {
        DeliveryKeepsCommit(f, c, s, last, call);
      } else {
        LateKeepsCommit(f, c, last, call);
      }
    case EndRound(r) => EndKeepsCommit(f, c, s, last, r);
    case _ => OthersKeepCommit(c, step);
  }

  lemma StepKeepsCommit(f: Tenure, c: Cluster, s: Stable.System, last: map<Addr, nat>, step: Step, a: Addr)
    requires Mirrors(f, c, s, last) && Enabled(c, step) && Orderly(f, c, last, step)
    requires a in c.nodes && step != Crash(a)
    ensures a in Apply(c, step).nodes && c.nodes[a].commitIndex <= Apply(c, step).nodes[a].commitIndex
  {
    hide Stable.SystemOk, NodesMirror, RoundsMirror, CallsMirror, LastMirror, AnswersMirror, LedgerMirror, Apply,
      Moved, Enabled, Orderly, WellFormed;
    StepMovesOne(c, step);
    if !step.Crash? {
      MoverKeepsCommit(f, c, s, last, step);
    }
  }

  lemma {:induction false} OrderlyRunKeepsCommit(
      f: Tenure, c: Cluster, s: Stable.System, last: map<Addr, nat>, steps: seq<Step>, a: Addr)
    requires Mirrors(f, c, s, last) && Legal(c, steps) && f.me in c.servers && OrderlyRun(f, c, last, steps)
    requires a in c.nodes && Crash(a) !in steps
    ensures a in Run(c, steps).nodes && c.nodes[a].commitIndex <= Run(c, steps).nodes[a].commitIndex
    decreases |steps|
  {
    hide Follows, Enabled, Apply, Orderly, LastAfter, Stable.SystemOk, Stable.LeadsTo, WellFormed, NodesMirror,
      RoundsMirror, CallsMirror, LastMirror, AnswersMirror, LedgerMirror;
    if steps != [] {
      assert steps[0] in steps;
      var u := OrderlyStepFollows(f, c, s, last, steps[0]);
      StepMovesOne(c, steps[0]);
      StepKeepsCommit(f, c, s, last, steps[0], a);
      FollowsMirrors(f, s, Apply(c, steps[0]), u, LastAfter(f, last, steps[0]));
      assert forall x | x in steps[1..] :: x in steps;
      OrderlyRunKeepsCommit(f, Apply(c, steps[0]), u, LastAfter(f, last, steps[0]), steps[1..], a);
    }
  }

  /** In a run of the cluster under one leader no commit index falls, the leader's included, while its
      server is not restarted. */
  lemma ClusterCommitIndexNeverFalls(c: Cluster, me: Addr, steps: seq<Step>, end: Cluster, a: Addr)
    requires LeaderRun(c, me, steps, end)
    requires a in c.nodes && Crash(a) !in steps
    ensures a in end.nodes && c.nodes[a].commitIndex <= end.nodes[a].commitIndex
  {
    hide Mirrors, OrderlyRun, Legal, Reachable, Fresh, WellFormed;
    TakeoverMirrors(c, me);
    OrderlyRunKeepsCommit(TenureOf(c, me), c, MirrorOf(c, me), map[], steps, a);
  }
}
