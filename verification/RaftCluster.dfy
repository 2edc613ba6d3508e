/** A cluster of servers with requests and replies in flight. One step is one section of the program
    that runs while a server's lock is held, or a crash with restart. Steps are interleaved freely:
    a message may wait for ever, be overtaken, or be lost, and is handled at most once. An election or
    a round ends when it has come to every server, whatever it has heard by then. */
module RaftCluster {
  import opened Common
  import opened Raft

  /** A running election of one server. `log` is the log it was opened with and `grants` keeps, for
      every server that said yes, the request it answered. */
  datatype Campaign =
    Campaign(term: nat, log: seq<Entry>, asked: set<Addr>, answered: set<Addr>, grants: map<Addr, VoteRequest>)

  /** A running round of appends. `acks` are the servers counted as successes so far, and `built` has
      the length of the owner's log when the request to a server was built. */
  datatype Round = Round(owner: Addr, term: nat, asked: set<Addr>, acks: set<Addr>, built: map<Addr, nat>)

  datatype VoteCall = VoteCall(campaign: nat, to: Addr, req: VoteRequest)
  datatype VoteAnswer = VoteAnswer(campaign: nat, voter: Addr, req: VoteRequest, granted: bool)
  datatype AppendCall = AppendCall(round: nat, to: Addr, req: AppendRequest)
  datatype AppendAnswer = AppendAnswer(round: nat, from: Addr, term: nat, success: bool)

  // What happened so far; no step depends on it.

  /** A vote of `voter` for `candidate`, with the clock and the voter's log at that moment. A server
      that opens an election casts a ballot for itself. */
  datatype BallotKey = BallotKey(voter: Addr, candidate: Addr, term: nat)
  datatype Ballot = Ballot(at: nat, voterLog: seq<Entry>, lastIndex: nat, lastTerm: nat)
  datatype AskKey = AskKey(candidate: Addr, to: Addr, term: nat)
  datatype Win = Win(leader: Addr, term: nat, log: seq<Entry>, quorum: set<Addr>)

  /** A server that took the append of a round; the owner takes it when the round begins. `length` is
      how far into the owner's log what it took reaches. */
  datatype AcceptKey = AcceptKey(round: nat, server: Addr)
  datatype Accept = Accept(at: nat, term: nat, length: nat)

  /** `uninterrupted`: the owner still led in the round's term when the round ended. `length` is how
      much of its log the owner committed. */
  datatype Commit =
    Commit(round: nat, owner: Addr, term: nat, quorum: set<Addr>, uninterrupted: bool, length: nat)

  datatype Ledger = Ledger(
    clock: nat,
    asks: set<AskKey>,
    ballots: map<BallotKey, Ballot>,
    wins: set<Win>,
    accepts: map<AcceptKey, Accept>,
    commits: set<Commit>)

  datatype Cluster = Cluster(
    servers: set<Addr>,
    nodes: map<Addr, NodeState>,
    campaigns: map<Addr, Campaign>,
    voteCalls: set<VoteCall>,
    voteAnswers: set<VoteAnswer>,
    rounds: map<nat, Round>,
    nextRound: nat,
    appendCalls: set<AppendCall>,
    appendAnswers: set<AppendAnswer>,
    ledger: Ledger)

  datatype Step =
    | Open(server: Addr)
    | Ask(server: Addr, to: Addr)
    | DeliverVote(voteCall: VoteCall)
    | CountVote(voteAnswer: VoteAnswer)
    | Finish(server: Addr)
    | BeginRound(server: Addr, texts: seq<string>)
    | Send(round: nat, to: Addr)
    | DeliverAppend(appendCall: AppendCall)
    | CountAppend(appendAnswer: AppendAnswer)
    | EndRound(round: nat)
    | Crash(server: Addr)

  function Init(servers: set<Addr>): Cluster {
    Cluster(servers, map a | a in servers :: FreshNode(), map[], {}, {}, map[], 0, {}, {},
            Ledger(0, {}, map[], {}, map[], {}))
  }

  /** All servers are there and have a log; keys of running work name servers. */
  predicate WellFormed(c: Cluster) {
    && c.nodes.Keys == c.servers
    && (forall a | a in c.servers :: |c.nodes[a].memory.log| > 0 && |c.nodes[a].disk.log| > 0)
    && c.campaigns.Keys <= c.servers
    && (forall r | r in c.rounds :: c.rounds[r].owner in c.servers)
    && (forall m | m in c.voteCalls :: m.to in c.servers && m.req.candidate in c.servers)
    && (forall m | m in c.voteAnswers :: m.voter in c.servers && m.req.candidate in c.servers)
    && (forall m | m in c.appendCalls :: m.to in c.servers)
    && (forall m | m in c.appendAnswers :: m.from in c.servers)
  }

  lemma ServersHaveNodes(c: Cluster)
    requires WellFormed(c)
    ensures c.nodes.Keys == c.servers
  {
  }

  predicate Enabled(c: Cluster, step: Step)
    requires WellFormed(c)
  {
    match step
    case Open(a) => a in c.servers && c.nodes[a].role.Follower? && a !in c.campaigns
    case Ask(a, to) => a in c.campaigns && to in c.servers && to != a && to !in c.campaigns[a].asked
    case DeliverVote(call) => call in c.voteCalls
    case CountVote(ans) =>
      && ans in c.voteAnswers
      && ans.req.candidate in c.campaigns
      && c.campaigns[ans.req.candidate].term == ans.campaign
      && ans.voter !in c.campaigns[ans.req.candidate].answered
    case Finish(a) => a in c.campaigns && c.campaigns[a].asked == c.servers - {a}
    case BeginRound(a, texts) => a in c.servers && c.nodes[a].role.Leader?
    case Send(r, to) => r in c.rounds && to in c.servers && to !in c.rounds[r].asked
    case DeliverAppend(call) => call in c.appendCalls
    case CountAppend(ans) => ans in c.appendAnswers && ans.round in c.rounds
    case EndRound(r) => r in c.rounds && c.rounds[r].asked == c.servers
    case Crash(a) => a in c.servers
  }

  function Tick(l: Ledger): Ledger {
    l.(clock := l.clock + 1)
  }

  function DoOpen(c: Cluster, a: Addr): Cluster
    requires WellFormed(c) && Enabled(c, Open(a))
  {
    var m := OpenElection(c.nodes[a]);
    var term, log := m.memory.currentTerm, m.memory.log;
    c.(nodes := c.nodes[a := m],
       campaigns := c.campaigns[a := Campaign(term, log, {}, {}, map[])],
       ledger := Tick(c.ledger).(ballots := c.ledger.ballots[
         BallotKey(a, a, term) := Ballot(c.ledger.clock, log, |log| - 1, Last(log).term)]))
  }

  function DoAsk(c: Cluster, a: Addr, to: Addr): Cluster
    requires WellFormed(c) && Enabled(c, Ask(a, to))
  {
    var k := c.campaigns[a];
    var req := VoteRequestOf(c.nodes[a], a);
    c.(campaigns := c.campaigns[a := k.(asked := k.asked + {to})],
       voteCalls := c.voteCalls + {VoteCall(k.term, to, req)},
       ledger := Tick(c.ledger).(asks := c.ledger.asks + {AskKey(a, to, req.term)}))
  }

  function DoDeliverVote(c: Cluster, call: VoteCall): Cluster
    requires WellFormed(c) && Enabled(c, DeliverVote(call))
  {
    var n := c.nodes[call.to];
    var (m, reply) := HandleVote(n, call.req);
    c.(nodes := c.nodes[call.to := m],
       voteCalls := c.voteCalls - {call},
       voteAnswers := c.voteAnswers + {VoteAnswer(call.campaign, call.to, call.req, reply.granted)},
       ledger := Tick(c.ledger).(ballots :=
         if reply.granted then
           c.ledger.ballots[BallotKey(call.to, call.req.candidate, call.req.term) :=
             Ballot(c.ledger.clock, n.memory.log, call.req.lastIndex, call.req.lastTerm)]
         else c.ledger.ballots))
  }

  function DoCountVote(c: Cluster, ans: VoteAnswer): Cluster
    requires WellFormed(c) && Enabled(c, CountVote(ans))
  {
    var a := ans.req.candidate;
    var k := c.campaigns[a];
    c.(campaigns := c.campaigns[a :=
         k.(answered := k.answered + {ans.voter},
            grants := if ans.granted then k.grants[ans.voter := ans.req] else k.grants)],
       ledger := Tick(c.ledger))
  }

  /** The candidate's own iteration of the vote loop is the one extra vote. */
  function DoFinish(c: Cluster, a: Addr): Cluster
    requires WellFormed(c) && Enabled(c, Finish(a))
  {
    var n, k := c.nodes[a], c.campaigns[a];
    var m := FinishElection(n, c.servers, |k.grants| + 1);
    c.(nodes := c.nodes[a := m],
       campaigns := c.campaigns - {a},
       ledger := Tick(c.ledger).(wins :=
         if n.role.Candidate? && m.role.Leader? then
           c.ledger.wins + {Win(a, m.memory.currentTerm, m.memory.log, k.grants.Keys + {a})}
         else c.ledger.wins))
  }

  function DoBeginRound(c: Cluster, a: Addr, texts: seq<string>): Cluster
    requires WellFormed(c) && Enabled(c, BeginRound(a, texts))
  {
    var m := LeaderAppend(c.nodes[a], texts);
    var term := m.memory.currentTerm;
    c.(nodes := c.nodes[a := m],
       rounds := c.rounds[c.nextRound := Round(a, term, {}, {}, map[])],
       nextRound := c.nextRound + 1,
       ledger := Tick(c.ledger).(accepts :=
         c.ledger.accepts[AcceptKey(c.nextRound, a) := Accept(c.ledger.clock, term, |m.memory.log|)]))
  }

  /** A server that has stopped leading counts every iteration of the round as a success. */
  function DoSend(c: Cluster, r: nat, to: Addr): Cluster
    requires WellFormed(c) && Enabled(c, Send(r, to))
  {
    var round := c.rounds[r];
    var n := c.nodes[round.owner];
    var own := to == round.owner;
    c.(nodes := if n.role.Leader? && own then c.nodes[to := Acknowledge(n, to)] else c.nodes,
       rounds := c.rounds[r :=
         round.(asked := round.asked + {to},
                acks := if !n.role.Leader? || own then round.acks + {to} else round.acks,
                built := round.built[to := |n.memory.log|])],
       appendCalls :=
         if n.role.Leader? && !own && to in n.role.nextIndex then
           c.appendCalls + {AppendCall(r, to, AppendRequestFor(n, to))}
         else c.appendCalls,
       ledger := Tick(c.ledger))
  }

  function DoDeliverAppend(c: Cluster, call: AppendCall): Cluster
    requires WellFormed(c) && Enabled(c, DeliverAppend(call))
  {
    var (m, success) := HandleAppend(c.nodes[call.to], call.req);
    c.(nodes := c.nodes[call.to := m],
       appendCalls := c.appendCalls - {call},
       appendAnswers := c.appendAnswers + {AppendAnswer(call.round, call.to, call.req.term, success)},
       ledger := Tick(c.ledger).(accepts :=
         if success then
           c.ledger.accepts[AcceptKey(call.round, call.to) :=
            Accept(c.ledger.clock, call.req.term, End(call.req))]
         else c.ledger.accepts))
  }

  /** A reply that finds the owner no longer leading counts as a success whatever it says. */
  function DoCountAppend(c: Cluster, ans: AppendAnswer): Cluster
    requires WellFormed(c) && Enabled(c, CountAppend(ans))
  {
    var round := c.rounds[ans.round];
    var n := c.nodes[round.owner];
    c.(nodes := c.nodes[round.owner := HandleAppendReply(n, ans.from, ans.success)],
       rounds := c.rounds[ans.round :=
         round.(acks := if !n.role.Leader? || ans.success then round.acks + {ans.from} else round.acks)],
       appendAnswers := c.appendAnswers - {ans},
       ledger := Tick(c.ledger))
  }

  /** A majority of successes commits; the round is over either way. */
  function DoEndRound(c: Cluster, r: nat): Cluster
    requires WellFormed(c) && Enabled(c, EndRound(r))
  {
    var round := c.rounds[r];
    var n := c.nodes[round.owner];
    c.(nodes := c.nodes[round.owner := FinishRound(n, |round.acks|, |c.servers|)],
       rounds := c.rounds - {r},
       ledger := Tick(c.ledger).(commits :=
         if Majority(|round.acks|, |c.servers|) then
           c.ledger.commits + {Commit(r, round.owner, round.term, round.acks,
                                      n.role.Leader? && n.memory.currentTerm == round.term,
                                      |n.memory.log|)}
         else c.ledger.commits))
  }

  /** Whatever the server was running dies with it; replies to it have nobody left to read them. */
  function DoCrash(c: Cluster, a: Addr): Cluster
    requires WellFormed(c) && Enabled(c, Crash(a))
  {
    c.(nodes := c.nodes[a := Restart(c.nodes[a])],
       campaigns := c.campaigns - {a},
       rounds := map r | r in c.rounds && c.rounds[r].owner != a :: c.rounds[r],
       ledger := Tick(c.ledger))
  }

  function Apply(c: Cluster, step: Step): Cluster
    requires WellFormed(c) && Enabled(c, step)
  {
    match step
    case Open(a) => DoOpen(c, a)
    case Ask(a, to) => DoAsk(c, a, to)
    case DeliverVote(call) => DoDeliverVote(c, call)
    case CountVote(ans) => DoCountVote(c, ans)
    case Finish(a) => DoFinish(c, a)
    case BeginRound(a, texts) => DoBeginRound(c, a, texts)
    case Send(r, to) => DoSend(c, r, to)
    case DeliverAppend(call) => DoDeliverAppend(c, call)
    case CountAppend(ans) => DoCountAppend(c, ans)
    case EndRound(r) => DoEndRound(c, r)
    case Crash(a) => DoCrash(c, a)
  }

  // Each section keeps the cluster well formed.

  lemma SectionsKeepLogs(n: NodeState)
    requires |n.memory.log| > 0 && |n.disk.log| > 0
    ensures forall req :: |HandleAppend(n, req).0.memory.log| > 0 && |HandleAppend(n, req).0.disk.log| > 0
    ensures forall req :: |HandleVote(n, req).0.memory.log| > 0 && |HandleVote(n, req).0.disk.log| > 0
  {
  }

  lemma DoDeliverVoteKeepsWellFormed(c: Cluster, call: VoteCall)
    requires WellFormed(c) && Enabled(c, DeliverVote(call))
    ensures WellFormed(DoDeliverVote(c, call))
  {
    SectionsKeepLogs(c.nodes[call.to]);
  }

  lemma DoDeliverAppendKeepsWellFormed(c: Cluster, call: AppendCall)
    requires WellFormed(c) && Enabled(c, DeliverAppend(call))
    ensures WellFormed(DoDeliverAppend(c, call))
  {
    SectionsKeepLogs(c.nodes[call.to]);
  }

  lemma DoSendKeepsWellFormed(c: Cluster, r: nat, to: Addr)
    requires WellFormed(c) && Enabled(c, Send(r, to))
    ensures WellFormed(DoSend(c, r, to))
  {
    hide AppendRequestFor;
  }

  lemma DoCountAppendKeepsWellFormed(c: Cluster, ans: AppendAnswer)
    requires WellFormed(c) && Enabled(c, CountAppend(ans))
    ensures WellFormed(DoCountAppend(c, ans))
  {
  }

  lemma DoFinishKeepsWellFormed(c: Cluster, a: Addr)
    requires WellFormed(c) && Enabled(c, Finish(a))
    ensures WellFormed(DoFinish(c, a))
  {
  }

  lemma DoOpenKeepsWellFormed(c: Cluster, a: Addr)
    requires WellFormed(c) && Enabled(c, Open(a))
    ensures WellFormed(DoOpen(c, a))
  {
  }

  lemma DoAskKeepsWellFormed(c: Cluster, a: Addr, to: Addr)
    requires WellFormed(c) && Enabled(c, Ask(a, to))
    ensures WellFormed(DoAsk(c, a, to))
  {
  }

  lemma DoBeginRoundKeepsWellFormed(c: Cluster, a: Addr, texts: seq<string>)
    requires WellFormed(c) && Enabled(c, BeginRound(a, texts))
    ensures WellFormed(DoBeginRound(c, a, texts))
  {
  }

  lemma DoEndRoundKeepsWellFormed(c: Cluster, r: nat)
    requires WellFormed(c) && Enabled(c, EndRound(r))
    ensures WellFormed(DoEndRound(c, r))
  {
  }

  lemma DoCrashKeepsWellFormed(c: Cluster, a: Addr)
    requires WellFormed(c) && Enabled(c, Crash(a))
    ensures WellFormed(DoCrash(c, a))
  {
  }

  lemma StepKeepsWellFormed(c: Cluster, step: Step)
    requires WellFormed(c) && Enabled(c, step)
    ensures WellFormed(Apply(c, step))
  {
    match step
    case Open(a) => DoOpenKeepsWellFormed(c, a);
    case Ask(a, to) => DoAskKeepsWellFormed(c, a, to);
    case DeliverVote(call) => DoDeliverVoteKeepsWellFormed(c, call);
    case CountVote(ans) =>
    case Finish(a) => DoFinishKeepsWellFormed(c, a);
    case BeginRound(a, texts) => DoBeginRoundKeepsWellFormed(c, a, texts);
    case Send(r, to) => DoSendKeepsWellFormed(c, r, to);
    case DeliverAppend(call) => DoDeliverAppendKeepsWellFormed(c, call);
    case CountAppend(ans) => DoCountAppendKeepsWellFormed(c, ans);
    case EndRound(r) => DoEndRoundKeepsWellFormed(c, r);
    case Crash(a) => DoCrashKeepsWellFormed(c, a);
  }

  /** A run: every step is enabled where it is taken. */
  ghost predicate Legal(c: Cluster, steps: seq<Step>)
    requires WellFormed(c)
    decreases |steps|
  {
    steps == [] ||
    (Enabled(c, steps[0]) && (StepKeepsWellFormed(c, steps[0]); Legal(Apply(c, steps[0]), steps[1..])))
  }

  ghost function Run(c: Cluster, steps: seq<Step>): (end: Cluster)
    requires WellFormed(c) && Legal(c, steps)
    ensures WellFormed(end)
    decreases |steps|
  {
    if steps == [] then c
    else
      StepKeepsWellFormed(c, steps[0]);
      Run(Apply(c, steps[0]), steps[1..])
  }

  lemma {:induction false} RunsCompose(c: Cluster, first: seq<Step>, second: seq<Step>)
    requires WellFormed(c) && Legal(c, first) && Legal(Run(c, first), second)
    ensures Legal(c, first + second)
    ensures Run(c, first + second) == Run(Run(c, first), second)
    decreases |first|
  {
    hide WellFormed, Enabled, Apply;
    if first == [] {
      assert first + second == second;
    } else {
      StepKeepsWellFormed(c, first[0]);
      RunsCompose(Apply(c, first[0]), first[1..], second);
      assert (first + second)[1..] == first[1..] + second;
    }
  }

  lemma OneStep(c: Cluster, step: Step)
    requires WellFormed(c) && Enabled(c, step)
    ensures Legal(c, [step]) && Run(c, [step]) == Apply(c, step)
  {
    StepKeepsWellFormed(c, step);
    assert [step][1..] == [];
  }

  /** A message is handled at most once: the step that hands it over, or counts it, is over with it. */
  lemma HandledAtMostOnce(c: Cluster, step: Step)
    requires WellFormed(c) && Enabled(c, step)
    requires step.DeliverVote? || step.CountVote? || step.DeliverAppend? || step.CountAppend?
    ensures WellFormed(Apply(c, step)) && !Enabled(Apply(c, step), step)
  {
    StepKeepsWellFormed(c, step);
    hide HandleVote, HandleAppend, HandleAppendReply, WellFormed;
  }
}
