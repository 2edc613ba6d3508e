/** Whole runs of one leader's term: what its followers hold, and what is committed. */
module RaftStableRuns {
  import opened Common
  import opened Raft
  import opened RaftBackoff
  import opened RaftStable

  /** A commit of an uninterrupted round: the length committed and the servers counted for it. */
  datatype Committed = Committed(length: nat, quorum: set<Addr>)

  datatype System = System(
    me: Addr,
    servers: set<Addr>,
    leader: NodeState,
    nodes: map<Addr, NodeState>,
    queues: map<Addr, seq<Tagged>>,
    round: nat,
    open: bool,
    asked: set<Addr>,
    replies: map<Addr, bool>,
    heard: set<Addr>,
    acks: set<Addr>,
    taken: map<Addr, nat>,
    commits: set<Committed>,
    startCommit: nat)

  /** The leader's round, the network, the leader's answers to vote requests that do not depose it,
      and the turns of followers. */
  datatype Step =
    | Begin(texts: seq<string>)
    | CountSelf
    | Send(to: Addr)
    | Lose(to: Addr, at: nat)
    | Deliver(to: Addr)
    | Hear(from: Addr)
    | End
    | Answer(req: VoteRequest)
    | Turn(who: Addr, event: Event)

  /** What else may happen to a follower: a vote request of another server, a campaign of its own
      that it does not win, a restart; or, as long as it still leads an older term, a change of its
      indices. */
  datatype Event = Vote(req: VoteRequest) | Campaign | Defeat | Tend(role: Role) | Crash

  predicate Possible(n: NodeState, event: Event) {
    && (event.Campaign? ==> n.role.Follower?)
    && (event.Defeat? ==> n.role.Candidate?)
    && (event.Tend? ==> n.role.Leader? && event.role.Leader?)
  }

  function Turned(n: NodeState, event: Event, servers: set<Addr>): NodeState
    requires 0 < |n.memory.log|
  {
    match event
    case Vote(req) => HandleVote(n, req).0
    case Campaign => OpenElection(n)
    case Defeat => FinishElection(n, servers, 0)
    case Tend(role) => n.(role := role)
    case Crash => Restart(n)
  }

  predicate Shaped(s: System) {
    && s.me in s.servers
    && s.nodes.Keys == s.queues.Keys == s.servers - {s.me}
    && s.leader.role.Leader?
    && s.servers <= s.leader.role.nextIndex.Keys
    && 0 < |s.leader.memory.log|
    && (forall f | f in s.nodes :: 0 < |s.nodes[f].memory.log|)
  }

  predicate Enabled(s: System, step: Step)
    requires Shaped(s)
  {
    match step
    case Begin(_) => !s.open
    case CountSelf => s.open && s.me !in s.asked
    case Send(f) => s.open && f in s.nodes && f !in s.asked
    case Lose(f, i) => f in s.nodes && i < |s.queues[f]|
    case Deliver(f) => f in s.nodes && |s.queues[f]| > 0
    case Hear(f) => s.open && f in s.nodes && f in s.replies
    case End => s.open
    case Answer(req) => req.term <= s.leader.memory.currentTerm
    case Turn(f, event) => f in s.nodes && Possible(s.nodes[f], event)
  }

  function WithNode(s: System, f: Addr, n: NodeState): System {
    s.(nodes := s.nodes[f := n])
  }

  function Apply(s: System, step: Step): System
    requires Shaped(s) && Enabled(s, step)
  {
    match step
    case Begin(texts) =>
      s.(leader := LeaderAppend(s.leader, texts), round := s.round + 1, open := true,
         asked := {}, replies := map[], heard := {}, acks := {})
    case CountSelf =>
      s.(leader := Acknowledge(s.leader, s.me), asked := s.asked + {s.me}, acks := s.acks + {s.me})
    case Send(f) =>
      s.(queues := s.queues[f := s.queues[f] + [Tagged(s.round, AppendRequestFor(s.leader, f))]],
         asked := s.asked + {f})
    case Lose(f, i) =>
      s.(queues := s.queues[f := s.queues[f][..i] + s.queues[f][i + 1..]])
    case Deliver(f) =>
      var m := s.queues[f][0];
      var (n, success) := HandleAppend(s.nodes[f], m.req);
      WithNode(s, f, n).(
        queues := s.queues[f := s.queues[f][1..]],
        replies := if s.open && m.round == s.round then s.replies[f := success] else s.replies,
        taken := if success then s.taken[f := Raft.End(m.req)] else s.taken)
    case Hear(f) =>
      s.(leader := HandleAppendReply(s.leader, f, s.replies[f]),
         replies := s.replies - {f}, heard := s.heard + {f},
         acks := if s.replies[f] then s.acks + {f} else s.acks)
    case End =>
      s.(leader := FinishRound(s.leader, |s.acks|, |s.servers|), open := false,
         commits := if Majority(|s.acks|, |s.servers|)
                    then s.commits + {Committed(|s.leader.memory.log|, s.acks)} else s.commits)
    case Answer(req) => s.(leader := HandleVote(s.leader, req).0)
    case Turn(f, event) => WithNode(s, f, Turned(s.nodes[f], event, s.servers))
  }

  function ViewOf(s: System, f: Addr): View
    requires Shaped(s) && f in s.nodes
  {
    View(s.leader.memory.log, s.leader.memory.currentTerm, s.leader.commitIndex, s.leader.role.nextIndex[f],
         s.nodes[f], s.queues[f], s.round, s.open, f in s.asked,
         if f in s.replies then Some(s.replies[f]) else None, f in s.heard, f in s.acks,
         if f in s.taken then Some(s.taken[f]) else None)
  }

  // ----- Invariants -----

  /** The log of any server of the system. */
  function LogOf(s: System, x: Addr): seq<Entry>
    requires Shaped(s) && x in s.servers
  {
    if x == s.me then s.leader.memory.log else s.nodes[x].memory.log
  }

  ghost predicate Backed(s: System, k: Committed) {
    && k.quorum <= s.servers && Majority(|k.quorum|, |s.servers|)
    && k.length <= |s.leader.memory.log|
    && forall x | x in k.quorum && x != s.me :: x in s.taken && k.length <= s.taken[x]
  }

  ghost predicate LeaderOk(s: System) {
    && s.leader.commitIndex < |s.leader.memory.log|
    && s.leader.disk.log == s.leader.memory.log
    && s.acks <= s.servers
    && (s.leader.commitIndex == s.startCommit
        || exists k :: k in s.commits && k.length == s.leader.commitIndex + 1)
  }

  ghost predicate SystemOk(s: System) {
    && Shaped(s) && LeaderOk(s)
    && (forall f | f in s.nodes :: ViewOk(ViewOf(s, f)))
    && (forall k | k in s.commits :: Backed(s, k))
  }

  /** The hypotheses a run starts from: nothing on the way, no follower entry of the leader's term,
      logs that agree below equal index and term, commit indices inside the leader's log. */
  ghost predicate Start(s: System) {
    && Shaped(s)
    && s.leader.commitIndex == s.startCommit < |s.leader.memory.log|
    && s.leader.disk.log == s.leader.memory.log
    && !s.open && s.asked == {} && s.replies == map[] && s.heard == {} && s.acks == {}
    && s.taken == map[] && s.commits == {}
    && (forall f | f in s.nodes :: s.queues[f] == [] && StartsWith(s, f))
  }

  ghost predicate StartsWith(s: System, f: Addr)
    requires Shaped(s) && f in s.nodes
  {
    var log := s.nodes[f].memory.log;
    && s.leader.role.nextIndex[f] <= |s.leader.memory.log|
    && s.nodes[f].disk.log == log
    && s.nodes[f].commitIndex < |s.leader.memory.log|
    && LogMatching(log, s.leader.memory.log)
    && forall i | 0 <= i < |log| :: log[i].term != s.leader.memory.currentTerm
  }

  lemma StartIsOk(s: System)
    requires Start(s)
    ensures SystemOk(s)
  {
  }

  // ----- Every step keeps them -----

  lemma TurnedKeepsLog(n: NodeState, event: Event, servers: set<Addr>)
    requires 0 < |n.memory.log| && n.disk.log == n.memory.log
    ensures var m := Turned(n, event, servers);
      m.memory.log == n.memory.log == m.disk.log && m.commitIndex <= n.commitIndex
    ensures !event.Crash? ==> Turned(n, event, servers).commitIndex == n.commitIndex
  {
  }

  lemma AppendKeepsLog(n: NodeState, req: AppendRequest)
    requires 0 < |n.memory.log|
    ensures 0 < |HandleAppend(n, req).0.memory.log|
  {
  }

  lemma WithNodeKeepsShaped(s: System, f: Addr, n: NodeState)
    requires Shaped(s) && f in s.nodes && 0 < |n.memory.log|
    ensures Shaped(WithNode(s, f, n)) && WithNode(s, f, n).nodes.Keys == s.nodes.Keys
  {
  }

  lemma ViewsAreOk(s: System, f: Addr)
    requires SystemOk(s) && f in s.nodes
    ensures ViewOk(ViewOf(s, f))
  {
  }

  ghost predicate StillShaped(s: System, t: System) {
    Shaped(t) && t.servers == s.servers && t.me == s.me && t.nodes.Keys == s.nodes.Keys
  }

  lemma TurnKeepsShaped(s: System, f: Addr, event: Event)
    requires Shaped(s) && Enabled(s, Turn(f, event)) && s.nodes[f].disk.log == s.nodes[f].memory.log
    ensures StillShaped(s, Apply(s, Turn(f, event)))
  {
    hide Turned;
    TurnedKeepsLog(s.nodes[f], event, s.servers);
    WithNodeKeepsShaped(s, f, Turned(s.nodes[f], event, s.servers));
  }

  lemma DeliverKeepsShaped(s: System, f: Addr)
    requires Shaped(s) && Enabled(s, Deliver(f))
    ensures StillShaped(s, Apply(s, Deliver(f)))
  {
    hide HandleAppend;
    AppendKeepsLog(s.nodes[f], s.queues[f][0].req);
    WithNodeKeepsShaped(s, f, HandleAppend(s.nodes[f], s.queues[f][0].req).0);
  }

  lemma OthersKeepShaped(s: System, step: Step)
    requires Shaped(s) && Enabled(s, step) && !step.Turn? && !step.Deliver?
    ensures StillShaped(s, Apply(s, step))
  {
    hide Turned, HandleAppend;
  }

  lemma StepKeepsShaped(s: System, step: Step)
    requires SystemOk(s) && Enabled(s, step)
    ensures StillShaped(s, Apply(s, step))
  {
    if step.Turn? {
      ViewsAreOk(s, step.who);
      TurnKeepsShaped(s, step.who, step.event);
    } else if step.Deliver? {
      DeliverKeepsShaped(s, step.to);
    } else {
      OthersKeepShaped(s, step);
    }
    hide SystemOk, StillShaped, Apply;
  }

  /** What the step makes of one follower's view. */
  ghost function NextView(s: System, step: Step, f: Addr): View
    requires Shaped(s) && Enabled(s, step) && f in s.nodes
  {
    var v := ViewOf(s, f);
    match step
    case Begin(texts) => Begun(v, texts)
    case CountSelf => v
    case Send(g) => if f == g && v.next <= |v.log| then Sent(v) else v
    case Lose(g, i) => if f == g then Lost(v, i) else v
    case Deliver(g) => if f == g then Delivered(v) else v
    case Hear(g) => if f == g then Heard(v) else v
    case End => Ended(v, FinishRound(s.leader, |s.acks|, |s.servers|).commitIndex)
    case Answer(_) => v
    case Turn(g, event) => if f == g then v.(node := Turned(v.node, event, s.servers)) else v
  }

  lemma LeaderMovesViews(s: System, step: Step, f: Addr)
    requires Shaped(s) && Enabled(s, step) && f in s.nodes
    requires step.Begin? || step.CountSelf? || step.End? || step.Answer?
    requires Shaped(Apply(s, step)) && f in Apply(s, step).nodes
    ensures ViewOf(Apply(s, step), f) == NextView(s, step, f)
  {
    hide LogCondition;
  }

  lemma ReplyMovesLeader(n: NodeState, from: Addr, success: bool, f: Addr)
    requires n.role.Leader? && |n.memory.log| > 0 && f in n.role.nextIndex && f != from
    ensures var m := HandleAppendReply(n, from, success);
      && m.memory == n.memory && m.commitIndex == n.commitIndex
      && m.role.Leader? && f in m.role.nextIndex && m.role.nextIndex[f] == n.role.nextIndex[f]
  {
  }

  lemma HearLeavesOthers(s: System, from: Addr, f: Addr)
    requires Shaped(s) && Enabled(s, Hear(from)) && f in s.nodes && f != from
    requires Shaped(Apply(s, Hear(from))) && f in Apply(s, Hear(from)).nodes
    ensures ViewOf(Apply(s, Hear(from)), f) == NextView(s, Hear(from), f)
  {
    hide HandleAppendReply;
    ReplyMovesLeader(s.leader, from, s.replies[from], f);
  }

  lemma OtherViewsStay(s: System, step: Step, f: Addr)
    requires Shaped(s) && Enabled(s, step) && f in s.nodes
    requires Shaped(Apply(s, step)) && f in Apply(s, step).nodes
    requires (step.Deliver? || step.Send? || step.Lose?) && step.to != f
    ensures ViewOf(Apply(s, step), f) == NextView(s, step, f)
  {
    hide HandleAppend, AppendRequestFor;
  }

  lemma LoseMovesView(s: System, f: Addr, i: nat)
    requires Shaped(s) && Enabled(s, Lose(f, i))
    requires Shaped(Apply(s, Lose(f, i)))
    ensures ViewOf(Apply(s, Lose(f, i)), f) == NextView(s, Lose(f, i), f)
  {
  }

  lemma TurnMovesNode(s: System, step: Step)
    requires Shaped(s) && Enabled(s, step) && step.Turn?
    ensures step.who in s.nodes
    ensures Apply(s, step) == WithNode(s, step.who, Turned(s.nodes[step.who], step.event, s.servers))
  {
    hide Turned, Shaped;
  }

  lemma TurnMovesView(s: System, step: Step, f: Addr)
    requires Shaped(s) && Enabled(s, step) && step.Turn? && f in s.nodes
    requires Shaped(Apply(s, step))
    ensures ViewOf(Apply(s, step), f) == NextView(s, step, f)
  {
    hide Turned, Apply;
    TurnMovesNode(s, step);
  }

  lemma HearMovesView(s: System, f: Addr)
    requires Shaped(s) && Enabled(s, Hear(f))
    requires Shaped(Apply(s, Hear(f)))
    ensures ViewOf(Apply(s, Hear(f)), f) == NextView(s, Hear(f), f)
  {
  }

  lemma DeliverMovesView(s: System, f: Addr)
    requires Shaped(s) && Enabled(s, Deliver(f))
    requires Shaped(Apply(s, Deliver(f)))
    ensures ViewOf(Apply(s, Deliver(f)), f) == NextView(s, Deliver(f), f)
  {
    hide HandleAppend;
  }

  lemma SendMovesView(s: System, f: Addr)
    requires Shaped(s) && Enabled(s, Send(f)) && ViewOk(ViewOf(s, f))
    requires Shaped(Apply(s, Send(f)))
    ensures ViewOf(Apply(s, Send(f)), f) == NextView(s, Send(f), f)
  {
    assert AppendRequestFor(s.leader, f) == RequestIn(ViewOf(s, f));
  }

  lemma StepMovesView(s: System, step: Step, f: Addr)
    requires SystemOk(s) && Enabled(s, step) && f in s.nodes
    requires Shaped(Apply(s, step)) && f in Apply(s, step).nodes
    ensures ViewOf(Apply(s, step), f) == NextView(s, step, f)
  {
    hide Apply, NextView, ViewOk, LeaderOk, Backed, Turned;
    if step == Deliver(f) {
      DeliverMovesView(s, f);
    } else if step == Send(f) {
      ViewsAreOk(s, f);
      SendMovesView(s, f);
    } else if step == Hear(f) {
      HearMovesView(s, f);
    } else if step.Lose? && step.to == f {
      assert step == Lose(f, step.at);
      LoseMovesView(s, f, step.at);
    } else if step.Turn? {
      TurnMovesView(s, step, f);
    } else if step.Hear? {
      HearLeavesOthers(s, step.from, f);
    } else if step.Deliver? || step.Send? || step.Lose? {
      OtherViewsStay(s, step, f);
    } else {
      LeaderMovesViews(s, step, f);
    }
  }

  lemma ViewKeepsDisk(v: View)
    requires ViewOk(v)
    ensures v.node.disk.log == v.node.memory.log
  {
  }

  lemma FinishStaysInside(s: System, f: Addr)
    requires SystemOk(s) && f in s.nodes
    ensures FinishRound(s.leader, |s.acks|, |s.servers|).commitIndex < |ViewOf(s, f).log|
  {
    hide ViewOk;
  }

  lemma TurnKeepsView(s: System, f: Addr, event: Event)
    requires Shaped(s) && f in s.nodes && ViewOk(ViewOf(s, f))
    ensures ViewOk(ViewOf(s, f).(node := Turned(s.nodes[f], event, s.servers)))
  {
    ViewKeepsDisk(ViewOf(s, f));
    TurnedKeepsLog(s.nodes[f], event, s.servers);
    NodeKeepsView(ViewOf(s, f), Turned(s.nodes[f], event, s.servers));
    hide ViewOk, Turned;
  }

  lemma NextViewOk(s: System, step: Step, f: Addr)
    requires SystemOk(s) && Enabled(s, step) && f in s.nodes
    ensures ViewOk(NextView(s, step, f))
  {
    hide Backed, LeaderOk, ViewOk, Turned;
    var v := ViewOf(s, f);
    ViewsAreOk(s, f);
    match step
    case Begin(texts) => BeginKeepsView(v, texts);
    case CountSelf =>
    case Send(g) => if f == g { SendKeepsView(v); }
    case Lose(g, i) => if f == g { LoseKeepsView(v, i); }
    case Deliver(g) => if f == g { DeliverKeepsView(v); }
    case Hear(g) => if f == g { HearKeepsView(v); }
    case End => FinishStaysInside(s, f); EndKeepsView(v, FinishRound(s.leader, |s.acks|, |s.servers|).commitIndex);
    case Answer(_) =>
    case Turn(g, event) => if f == g { TurnKeepsView(s, f, event); }
  }

  /** What a follower took never shrinks, and the leader's log only grows. */
  ghost predicate Advances(s: System, t: System) {
    && s.leader.memory.log <= t.leader.memory.log
    && s.commits <= t.commits
    && forall f | f in s.taken :: f in t.taken && s.taken[f] <= t.taken[f]
  }

  lemma DeliverAdvancesSystem(s: System, f: Addr)
    requires Shaped(s) && Enabled(s, Deliver(f)) && ViewOk(ViewOf(s, f))
    ensures Advances(s, Apply(s, Deliver(f)))
  {
    DeliverAdvances(ViewOf(s, f));
    hide ViewOk;
  }

  lemma OthersAdvance(s: System, step: Step)
    requires Shaped(s) && Enabled(s, step) && !step.Deliver?
    ensures Advances(s, Apply(s, step))
  {
    hide Turned;
  }

  lemma StepAdvances(s: System, step: Step)
    requires SystemOk(s) && Enabled(s, step)
    ensures Advances(s, Apply(s, step))
  {
    if step.Deliver? {
      ViewsAreOk(s, step.to);
      DeliverAdvancesSystem(s, step.to);
    } else {
      OthersAdvance(s, step);
    }
    hide SystemOk, Apply, Advances;
  }

  lemma EndBacks(s: System)
    requires SystemOk(s) && s.open && Majority(|s.acks|, |s.servers|)
    ensures Backed(s, Committed(|s.leader.memory.log|, s.acks))
  {
    forall x | x in s.acks && x != s.me ensures x in s.taken && |s.leader.memory.log| <= s.taken[x] {
      assert ViewOk(ViewOf(s, x));
    }
  }

  lemma StepKeepsBacked(s: System, step: Step)
    requires SystemOk(s) && Enabled(s, step)
    ensures forall k | k in Apply(s, step).commits :: Backed(Apply(s, step), k)
  {
    var t := Apply(s, step);
    StepKeepsShaped(s, step);
    StepAdvances(s, step);
    if step.End? && Majority(|s.acks|, |s.servers|) {
      EndBacks(s);
    }
    hide ViewOk, Apply, Enabled, LeaderOk;
    forall k | k in t.commits ensures Backed(t, k) {
      OnlyEndCommits(s, step, k);
      assert Backed(s, k);
    }
  }

  lemma OnlyEndCommits(s: System, step: Step, k: Committed)
    requires Shaped(s) && Enabled(s, step) && k in Apply(s, step).commits
    ensures k in s.commits
      || (step.End? && Majority(|s.acks|, |s.servers|) && k == Committed(|s.leader.memory.log|, s.acks))
  {
  }

  lemma StepKeepsLeaderOk(s: System, step: Step)
    requires SystemOk(s) && Enabled(s, step)
    ensures LeaderOk(Apply(s, step))
  {
    hide ViewOk, Backed;
    var t := Apply(s, step);
    if step.End? && Majority(|s.acks|, |s.servers|) {
      assert Committed(|s.leader.memory.log|, s.acks) in t.commits;
    } else if s.leader.commitIndex != s.startCommit {
      var k :| k in s.commits && k.length == s.leader.commitIndex + 1;
      assert k in t.commits;
    }
  }

  lemma StepKeepsSystemOk(s: System, step: Step)
    requires SystemOk(s) && Enabled(s, step)
    ensures SystemOk(Apply(s, step))
  {
    hide ViewOk, Backed, LeaderOk;
    var t := Apply(s, step);
    StepKeepsShaped(s, step);
    StepKeepsLeaderOk(s, step);
    StepKeepsBacked(s, step);
    forall f | f in t.nodes ensures ViewOk(ViewOf(t, f)) {
      StepMovesView(s, step, f);
      NextViewOk(s, step, f);
    }
  }

  // ----- Runs -----

  ghost predicate Legal(s: System, steps: seq<Step>)
    requires SystemOk(s)
    decreases |steps|
  {
    steps == [] ||
    (Enabled(s, steps[0]) && (StepKeepsSystemOk(s, steps[0]); Legal(Apply(s, steps[0]), steps[1..])))
  }

  ghost function Run(s: System, steps: seq<Step>): (end: System)
    requires SystemOk(s) && Legal(s, steps)
    ensures SystemOk(end)
    decreases |steps|
  {
    if steps == [] then s
    else
      StepKeepsSystemOk(s, steps[0]);
      Run(Apply(s, steps[0]), steps[1..])
  }

  lemma {:induction false} RunAdvances(s: System, steps: seq<Step>)
    requires SystemOk(s) && Legal(s, steps)
    ensures Advances(s, Run(s, steps))
    ensures Run(s, steps).servers == s.servers && Run(s, steps).me == s.me && Run(s, steps).nodes.Keys == s.nodes.Keys
    decreases |steps|
  {
    if steps != [] {
      StepKeepsSystemOk(s, steps[0]);
      StepKeepsShaped(s, steps[0]);
      StepAdvances(s, steps[0]);
      RunAdvances(Apply(s, steps[0]), steps[1..]);
    }
  }

  lemma SystemIsShaped(s: System)
    requires SystemOk(s)
    ensures Shaped(s)
  {
  }

  /** `s` leads to `t` in some run. */
  ghost predicate LeadsTo(s: System, t: System)
    requires SystemOk(s)
  {
    exists steps :: Legal(s, steps) && Run(s, steps) == t
  }

  lemma {:induction false} RunsCompose(s: System, first: seq<Step>, second: seq<Step>)
    requires SystemOk(s) && Legal(s, first) && Legal(Run(s, first), second)
    ensures Legal(s, first + second)
    ensures Run(s, first + second) == Run(Run(s, first), second)
    decreases |first|
  {
    hide SystemOk, Enabled, Apply;
    if first == [] {
      assert first + second == second;
    } else {
      SystemIsShaped(s);
      StepKeepsSystemOk(s, first[0]);
      RunsCompose(Apply(s, first[0]), first[1..], second);
      assert (first + second)[1..] == first[1..] + second;
    }
  }

  lemma LeadsToItself(s: System)
    requires SystemOk(s)
    ensures LeadsTo(s, s)
  {
    assert Legal(s, []) && Run(s, []) == s;
  }

  lemma OneStep(s: System, step: Step)
    requires SystemOk(s) && Shaped(s) && Enabled(s, step)
    ensures SystemOk(Apply(s, step)) && Legal(s, [step]) && Run(s, [step]) == Apply(s, step)
  {
    hide SystemOk, Shaped, Enabled, Apply;
    StepKeepsSystemOk(s, step);
    assert [step][0] == step && [step][1..] == [];
    assert Legal(Apply(s, step), []) && Run(Apply(s, step), []) == Apply(s, step);
  }

  lemma LeadsToNext(s: System, t: System, step: Step)
    requires SystemOk(s) && LeadsTo(s, t) && SystemOk(t) && Enabled(t, step)
    ensures SystemOk(Apply(t, step)) && LeadsTo(s, Apply(t, step))
  {
    hide SystemOk, Enabled, Apply;
    var steps :| Legal(s, steps) && Run(s, steps) == t;
    SystemIsShaped(t);
    OneStep(t, step);
    RunsCompose(s, steps, [step]);
    assert Legal(s, steps + [step]);
  }

  lemma LeadsToFurther(s: System, t: System, u: System)
    requires SystemOk(s) && LeadsTo(s, t) && SystemOk(t) && LeadsTo(t, u)
    ensures LeadsTo(s, u)
  {
    hide SystemOk, Enabled, Apply;
    var first :| Legal(s, first) && Run(s, first) == t;
    var second :| Legal(t, second) && Run(t, second) == u;
    RunsCompose(s, first, second);
    assert Legal(s, first + second);
  }

  /** A run of the leader's term from a state that meets the hypotheses. */
  ghost predicate StableRun(s: System, steps: seq<Step>, end: System) {
    Start(s) && (StartIsOk(s); Legal(s, steps) && Run(s, steps) == end)
  }

  /** Stable-leader refinement: from its first acceptance on, a follower's log begins with the
      leader's log as of the last accepted message, and what it reports as committed is a prefix of
      the leader's log. */
  lemma StableRefinement(s: System, steps: seq<Step>, end: System, f: Addr)
    requires StableRun(s, steps, end)
    requires f in s.nodes && f in end.taken
    ensures f in end.nodes
    ensures end.taken[f] <= |end.leader.memory.log|
    ensures end.leader.memory.log[..end.taken[f]] <= end.nodes[f].memory.log
    ensures CommittedLog(end.nodes[f]) <= end.leader.memory.log
    ensures |CommittedLog(end.nodes[f])| == end.nodes[f].commitIndex + 1
  {
    hide ViewOk, LeaderOk, Backed, Legal;
    StartIsOk(s);
    RunAdvances(s, steps);
    ViewsAreOk(end, f);
    TakenIsHeld(ViewOf(end, f));
  }

  /** What a step makes of a view does not lower the commit index of its server. */
  lemma NextViewKeepsCommit(s: System, step: Step, f: Addr)
    requires Shaped(s) && Enabled(s, step) && f in s.nodes && ViewOk(ViewOf(s, f)) && step != Turn(f, Crash)
    ensures s.nodes[f].commitIndex <= NextView(s, step, f).node.commitIndex
  {
    hide Turned, HandleAppend;
    if step == Deliver(f) {
      DeliverAdvances(ViewOf(s, f));
    } else if step.Turn? && step.who == f {
      ViewKeepsDisk(ViewOf(s, f));
      TurnedKeepsLog(s.nodes[f], step.event, s.servers);
    }
    hide ViewOk;
  }

  lemma StepKeepsCommitIndex(s: System, step: Step, f: Addr)
    requires SystemOk(s) && Enabled(s, step) && f in s.nodes && step != Turn(f, Crash)
    ensures f in Apply(s, step).nodes && s.nodes[f].commitIndex <= Apply(s, step).nodes[f].commitIndex
  {
    hide ViewOk, LeaderOk, Backed, Apply, NextView;
    StepKeepsShaped(s, step);
    StepMovesView(s, step, f);
    ViewsAreOk(s, f);
    NextViewKeepsCommit(s, step, f);
    assert ViewOf(Apply(s, step), f).node == Apply(s, step).nodes[f];
  }

  /** A follower's commit index never falls while it is not restarted. */
  lemma {:induction false} CommitIndexNeverFalls(s: System, steps: seq<Step>, f: Addr)
    requires SystemOk(s) && Legal(s, steps) && f in s.nodes && Turn(f, Crash) !in steps
    ensures f in Run(s, steps).nodes && s.nodes[f].commitIndex <= Run(s, steps).nodes[f].commitIndex
    decreases |steps|
  {
    if steps != [] {
      StepKeepsSystemOk(s, steps[0]);
      assert steps[0] in steps;
      assert forall x | x in steps[1..] :: x in steps;
      StepKeepsCommitIndex(s, steps[0], f);
      CommitIndexNeverFalls(Apply(s, steps[0]), steps[1..], f);
    }
  }

  /** The log of `x` begins with `prefix`. */
  ghost predicate Keeps(s: System, x: Addr, prefix: seq<Entry>)
    requires Shaped(s)
  {
    x in s.servers && prefix <= LogOf(s, x)
  }

  /** Committed means held: what a run of the leader's term has committed rests on a majority of
      servers whose logs begin with it, at that moment and at the end of every continuation. */
  lemma CommittedMeansHeld(start: System, first: seq<Step>, s: System, rest: seq<Step>, k: Committed)
    requires StableRun(start, first, s) && Legal(s, rest) && k in s.commits
    ensures Majority(|k.quorum|, |s.servers|) && k.quorum <= s.servers
    ensures k.length <= |s.leader.memory.log|
    ensures forall x | x in k.quorum :: Keeps(s, x, s.leader.memory.log[..k.length])
    ensures forall x | x in k.quorum :: Keeps(Run(s, rest), x, s.leader.memory.log[..k.length])
  {
    BackedNow(s, k);
    BackedStays(s, rest, k);
  }

  lemma BackedStays(s: System, steps: seq<Step>, k: Committed)
    requires SystemOk(s) && Legal(s, steps) && k in s.commits
    ensures k.length <= |s.leader.memory.log|
    ensures forall x | x in k.quorum :: Keeps(Run(s, steps), x, s.leader.memory.log[..k.length])
  {
    var end := Run(s, steps);
    RunAdvances(s, steps);
    BackedNow(s, k);
    BackedNow(end, k);
    hide SystemOk, Backed, Legal;
    assert s.leader.memory.log[..k.length] == end.leader.memory.log[..k.length];
  }

  lemma BackedNow(s: System, k: Committed)
    requires SystemOk(s) && k in s.commits
    ensures Majority(|k.quorum|, |s.servers|) && k.quorum <= s.servers
    ensures k.length <= |s.leader.memory.log|
    ensures forall x | x in k.quorum :: Keeps(s, x, s.leader.memory.log[..k.length])
  {
    assert Backed(s, k);
    forall x | x in k.quorum ensures Keeps(s, x, s.leader.memory.log[..k.length]) {
      if x != s.me {
        ViewsAreOk(s, x);
        assert s.leader.memory.log[..s.taken[x]] <= s.nodes[x].memory.log;
        assert s.leader.memory.log[..k.length] <= s.leader.memory.log[..s.taken[x]];
      }
    }
  }

  /** Whatever the leader has committed in the run, one such commit covers it. */
  lemma LeaderCommitIsBacked(s: System, steps: seq<Step>, end: System)
    requires StableRun(s, steps, end)
    requires end.leader.commitIndex != end.startCommit
    ensures exists k :: k in end.commits && k.length == end.leader.commitIndex + 1
  {
  }
}
