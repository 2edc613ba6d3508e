/** Rounds of appends in every run of the cluster, and what a committing round and a later election
    have in common. */
module RaftRounds {
  import opened Common
  import opened Raft
  import opened RaftCluster
  import opened RaftNodes
  import opened RaftElections
  import opened RaftElectionRuns

  // ----- Invariants -----

  /** The owner has not left the term the round was begun in, so nothing interrupted the round. */
  ghost predicate Live(c: Cluster, r: nat)
    requires WellFormed(c)
  {
    r in c.rounds && Term(c, c.rounds[r].owner) == c.rounds[r].term
  }

  /** Server `x` took the append of round `r` in term `term`. */
  ghost predicate Took(c: Cluster, r: nat, x: Addr, term: nat) {
    AcceptKey(r, x) in c.ledger.accepts && c.ledger.accepts[AcceptKey(r, x)].term == term
  }

  ghost predicate AcceptsInPast(c: Cluster)
    requires WellFormed(c)
  {
    forall k | k in c.ledger.accepts ::
      && k.server in c.servers && k.round < c.nextRound
      && c.ledger.accepts[k].term <= Term(c, k.server)
      && c.ledger.accepts[k].at < c.ledger.clock
  }

  /** A server that took an append and voted in a later term did so in this order. */
  ghost predicate AcceptsBeforeVotes(c: Cluster) {
    forall k, b | k in c.ledger.accepts && b in c.ledger.ballots
      && k.server == b.voter && c.ledger.accepts[k].term < b.term ::
      c.ledger.accepts[k].at < c.ledger.ballots[b].at
  }

  ghost predicate RoundsBegun(c: Cluster)
    requires WellFormed(c)
  {
    forall r | r in c.rounds :: r < c.nextRound && c.rounds[r].term <= Term(c, c.rounds[r].owner)
  }

  ghost predicate RoundOk(c: Cluster, r: nat)
    requires WellFormed(c) && r in c.rounds
  {
    var round := c.rounds[r];
    && round.acks <= c.servers
    && (Live(c, r) ==>
          && c.nodes[round.owner].role.Leader?
          && Took(c, r, round.owner, round.term)
          && forall x | x in round.acks :: Took(c, r, x, round.term))
  }

  ghost predicate CallOk(c: Cluster, m: AppendCall)
    requires WellFormed(c)
  {
    && m.round < c.nextRound
    && AcceptKey(m.round, m.to) !in c.ledger.accepts
    && (m.round in c.rounds ==> m.to in c.rounds[m.round].asked)
    && (Live(c, m.round) ==> m.req.term == c.rounds[m.round].term)
  }

  ghost predicate AppendAnswerOk(c: Cluster, m: AppendAnswer)
    requires WellFormed(c)
  {
    && m.round < c.nextRound
    && (m.success ==> Took(c, m.round, m.from, m.term))
    && (Live(c, m.round) ==> m.term == c.rounds[m.round].term)
  }

  ghost predicate AcceptsAsked(c: Cluster) {
    forall k | k in c.ledger.accepts && k.round in c.rounds ::
      k.server == c.rounds[k.round].owner || k.server in c.rounds[k.round].asked
  }

  ghost predicate CallsDiffer(c: Cluster) {
    forall m, l | m in c.appendCalls && l in c.appendCalls && m.round == l.round && m.to == l.to :: m == l
  }

  ghost predicate CommitOk(c: Cluster, k: Commit) {
    && k.round < c.nextRound
    && (k.uninterrupted ==>
          && k.quorum <= c.servers
          && Majority(|k.quorum|, |c.servers|)
          && forall x | x in k.quorum :: Took(c, k.round, x, k.term))
  }

  ghost predicate RoundsOk(c: Cluster)
    requires WellFormed(c)
  {
    && RoundsBegun(c) && AcceptsInPast(c) && AcceptsBeforeVotes(c) && AcceptsAsked(c) && CallsDiffer(c)
    && (forall r | r in c.rounds :: RoundOk(c, r))
    && (forall m | m in c.appendCalls :: CallOk(c, m))
    && (forall m | m in c.appendAnswers :: AppendAnswerOk(c, m))
    && (forall k | k in c.ledger.commits :: CommitOk(c, k))
  }

  // ----- What a step can do, seen from rounds -----

  /** Server `a` moves; what it accepts and votes is in the term it ends in; it does not stop leading
      without leaving its term, unless it takes its rounds with it. */
  ghost predicate RoundShape(c: Cluster, c': Cluster, a: Addr)
    requires WellFormed(c) && WellFormed(c')
  {
    && a in c.servers && c'.servers == c.servers
    && c'.nodes == c.nodes[a := c'.nodes[a]]
    && Term(c, a) <= Term(c', a)
    && c'.ledger.clock == c.ledger.clock + 1
    && c.nextRound <= c'.nextRound
    && BallotsGrow(c, c', a)
    && AcceptsGrow(c, c', a)
    && (forall r | r in c.rounds && r in c'.rounds :: SameRound(c.rounds[r], c'.rounds[r]))
    && (forall r | r in c'.rounds && r !in c.rounds :: r == c.nextRound < c'.nextRound)
    && (c.nodes[a].role.Leader? && Term(c', a) == Term(c, a) ==>
          c'.nodes[a].role.Leader? || forall r | r in c'.rounds :: c'.rounds[r].owner != a)
  }

  ghost predicate SameRound(before: Round, after: Round) {
    after.owner == before.owner && after.term == before.term && before.asked <= after.asked
  }

  ghost predicate AcceptsGrow(c: Cluster, c': Cluster, a: Addr)
    requires a in c'.nodes
  {
    && (forall k | k in c.ledger.accepts :: k in c'.ledger.accepts && c'.ledger.accepts[k] == c.ledger.accepts[k])
    && (forall k | k in c'.ledger.accepts && k !in c.ledger.accepts ::
          && k.server == a && k.round < c'.nextRound
          && c'.ledger.accepts[k].at == c.ledger.clock && c'.ledger.accepts[k].term == Term(c', a))
  }

  lemma ShapeKeepsAccepts(c: Cluster, c': Cluster, a: Addr)
    requires WellFormed(c) && WellFormed(c') && RoundShape(c, c', a) && AcceptsInPast(c)
    ensures AcceptsInPast(c')
  {
  }

  lemma ShapeKeepsOrder(c: Cluster, c': Cluster, a: Addr)
    requires WellFormed(c) && WellFormed(c') && RoundShape(c, c', a)
    requires AcceptsInPast(c) && BallotsInPast(c) && AcceptsBeforeVotes(c)
    ensures AcceptsBeforeVotes(c')
  {
  }

  lemma ShapeKeepsTook(c: Cluster, c': Cluster, a: Addr)
    requires WellFormed(c) && WellFormed(c') && RoundShape(c, c', a)
    ensures forall r, x, t :: Took(c, r, x, t) ==> Took(c', r, x, t)
  {
  }

  lemma LiveWasLive(c: Cluster, c': Cluster, a: Addr, r: nat)
    requires WellFormed(c) && WellFormed(c') && RoundShape(c, c', a) && RoundsBegun(c)
    ensures r in c.rounds && Live(c', r) ==> Live(c, r)
  {
  }

  lemma ShapeKeepsBegun(c: Cluster, c': Cluster, a: Addr)
    requires WellFormed(c) && WellFormed(c') && RoundShape(c, c', a) && RoundsBegun(c)
    ensures forall r | r in c.rounds && r in c'.rounds ::
      r < c'.nextRound && c'.rounds[r].term <= Term(c', c'.rounds[r].owner)
  {
  }

  /** A round with the same acknowledgements is still in order. */
  lemma ShapeKeepsRound(c: Cluster, c': Cluster, a: Addr, r: nat)
    requires WellFormed(c) && WellFormed(c') && RoundShape(c, c', a) && RoundsBegun(c)
    requires r in c.rounds && r in c'.rounds && RoundOk(c, r)
    requires c'.rounds[r].acks == c.rounds[r].acks
    ensures RoundOk(c', r)
  {
    ShapeKeepsTook(c, c', a);
    LiveWasLive(c, c', a, r);
  }

  lemma ShapeKeepsCall(c: Cluster, c': Cluster, a: Addr, m: AppendCall)
    requires WellFormed(c) && WellFormed(c') && RoundShape(c, c', a) && RoundsBegun(c)
    requires CallOk(c, m) && AcceptKey(m.round, m.to) !in c'.ledger.accepts
    ensures CallOk(c', m)
  {
    ShapeKeepsTook(c, c', a);
    LiveWasLive(c, c', a, m.round);
  }

  lemma ShapeKeepsAnswer(c: Cluster, c': Cluster, a: Addr, m: AppendAnswer)
    requires WellFormed(c) && WellFormed(c') && RoundShape(c, c', a) && RoundsBegun(c)
    requires AppendAnswerOk(c, m)
    ensures AppendAnswerOk(c', m)
  {
    ShapeKeepsTook(c, c', a);
    LiveWasLive(c, c', a, m.round);
  }

  lemma ShapeKeepsCommits(c: Cluster, c': Cluster, a: Addr)
    requires WellFormed(c) && WellFormed(c') && RoundShape(c, c', a)
    requires forall k | k in c.ledger.commits :: CommitOk(c, k)
    ensures forall k | k in c.ledger.commits :: CommitOk(c', k)
  {
  }

  /** What carries over from one state to the next without a look at the step. */
  ghost predicate RestOk(c: Cluster, c': Cluster)
    requires WellFormed(c) && WellFormed(c')
  {
    && AcceptsInPast(c') && AcceptsBeforeVotes(c')
    && (forall r | r in c.rounds && r in c'.rounds ::
          r < c'.nextRound && c'.rounds[r].term <= Term(c', c'.rounds[r].owner))
    && (forall r | r in c.rounds && r in c'.rounds && c'.rounds[r].acks == c.rounds[r].acks :: RoundOk(c', r))
    && (forall m | m in c.appendCalls && AcceptKey(m.round, m.to) !in c'.ledger.accepts :: CallOk(c', m))
    && (forall m | m in c.appendAnswers :: AppendAnswerOk(c', m))
    && (forall k | k in c.ledger.commits :: CommitOk(c', k))
  }

  lemma RestStays(c: Cluster, c': Cluster, a: Addr)
    requires WellFormed(c) && WellFormed(c') && RoundsOk(c) && BallotsInPast(c) && RoundShape(c, c', a)
    ensures RestOk(c, c')
  {
    hide RoundShape, AcceptsInPast, AcceptsBeforeVotes, RoundOk, CallOk, AppendAnswerOk, CommitOk, RoundsBegun;
    ShapeKeepsAccepts(c, c', a);
    ShapeKeepsOrder(c, c', a);
    ShapeKeepsBegun(c, c', a);
    forall r | r in c.rounds && r in c'.rounds && c'.rounds[r].acks == c.rounds[r].acks ensures RoundOk(c', r) {
      ShapeKeepsRound(c, c', a, r);
    }
    forall m | m in c.appendCalls && AcceptKey(m.round, m.to) !in c'.ledger.accepts ensures CallOk(c', m) {
      ShapeKeepsCall(c, c', a, m);
    }
    forall m | m in c.appendAnswers ensures AppendAnswerOk(c', m) {
      ShapeKeepsAnswer(c, c', a, m);
    }
    ShapeKeepsCommits(c, c', a);
  }

  // ----- Every step has that shape -----

  lemma MovedKeepsLeading(c: Cluster, step: Step)
    requires NodesOk(c) && Enabled(c, step) && !step.Crash?
    requires c.nodes[Mover(c, step)].role.Leader?
    requires Moved(c, step).memory.currentTerm == c.nodes[Mover(c, step)].memory.currentTerm
    ensures Moved(c, step).role.Leader?
  {
  }

  ghost predicate RoundsMove(c: Cluster, c': Cluster, a: Addr)
    requires WellFormed(c) && WellFormed(c') && a in c'.servers
  {
    && c.nextRound <= c'.nextRound
    && AcceptsGrow(c, c', a)
    && (forall r | r in c.rounds && r in c'.rounds :: SameRound(c.rounds[r], c'.rounds[r]))
    && (forall r | r in c'.rounds && r !in c.rounds :: r == c.nextRound < c'.nextRound)
  }

  lemma MoveHasRoundShape(c: Cluster, step: Step)
    requires ElectionsOk(c) && Enabled(c, step)
    requires WellFormed(Apply(c, step)) && Mover(c, step) in Apply(c, step).servers
    requires RoundsMove(c, Apply(c, step), Mover(c, step))
    ensures RoundShape(c, Apply(c, step), Mover(c, step))
  {
    ElectionsGiveNodes(c);
    LeadingStops(c, step);
    hide ElectionsOk, NodesOk, WellFormed, AcceptsGrow, BallotsGrow, CampaignsMove, Apply, Enabled, Mover;
    StepHasShape(c, step);
  }

  lemma LeadingStops(c: Cluster, step: Step)
    requires NodesOk(c) && Enabled(c, step)
    ensures var c', a := Apply(c, step), Mover(c, step);
      && a in c.nodes && a in c'.nodes
      && (c.nodes[a].role.Leader? && Term(c', a) == Term(c, a) ==>
            c'.nodes[a].role.Leader? || forall r | r in c'.rounds :: c'.rounds[r].owner != a)
  {
    StepMovesOne(c, step);
    CrashTakesRounds(c, step);
    hide NodeOk, TermsWithin, Apply, Enabled, Moved;
    if c.nodes[Mover(c, step)].role.Leader? && !step.Crash?
      && Moved(c, step).memory.currentTerm == c.nodes[Mover(c, step)].memory.currentTerm {
      MovedKeepsLeading(c, step);
    }
  }

  lemma CrashTakesRounds(c: Cluster, step: Step)
    requires WellFormed(c) && Enabled(c, step)
    ensures step.Crash? ==> forall r | r in Apply(c, step).rounds :: Apply(c, step).rounds[r].owner != Mover(c, step)
  {
  }

  // ----- Steps of elections, and crashes -----

  ghost predicate SameRoundData(c: Cluster, c': Cluster) {
    && c'.rounds.Keys <= c.rounds.Keys
    && (forall r | r in c'.rounds :: c'.rounds[r] == c.rounds[r])
    && c'.nextRound == c.nextRound
    && c'.appendCalls == c.appendCalls && c'.appendAnswers == c.appendAnswers
    && c'.ledger.accepts == c.ledger.accepts && c'.ledger.commits == c.ledger.commits
  }

  lemma OtherStepsLeaveRounds(c: Cluster, step: Step)
    requires WellFormed(c) && Enabled(c, step) && !IsQuiet(step)
    ensures SameRoundData(c, Apply(c, step))
  {
  }

  lemma IdleKeepsRoundsOk(c: Cluster, c': Cluster)
    requires WellFormed(c) && WellFormed(c') && RoundsOk(c) && SameRoundData(c, c') && RestOk(c, c')
    ensures RoundsOk(c')
  {
    hide RoundOk, CallOk, AppendAnswerOk, CommitOk, AcceptsInPast, AcceptsBeforeVotes;
    assert forall m | m in c.appendCalls :: CallOk(c, m);
    CallsUntaken(c);
  }

  lemma CallsUntaken(c: Cluster)
    requires WellFormed(c) && RoundsOk(c)
    ensures forall m | m in c.appendCalls ::
      m.round < c.nextRound && AcceptKey(m.round, m.to) !in c.ledger.accepts
  {
  }

  lemma IdleMoves(c: Cluster, c': Cluster, a: Addr)
    requires WellFormed(c) && WellFormed(c') && a in c'.servers && SameRoundData(c, c')
    ensures RoundsMove(c, c', a)
  {
  }

  lemma OtherStepsKeepRoundsOk(c: Cluster, step: Step)
    requires ElectionsOk(c) && RoundsOk(c) && Enabled(c, step) && !IsQuiet(step)
    ensures WellFormed(Apply(c, step)) && RoundsOk(Apply(c, step))
  {
    hide ElectionsOk, NodesOk, WellFormed, Apply, Enabled, Mover, Moved, IsQuiet, RoundsOk, RestOk, BallotsInPast,
         RoundShape, RoundsMove, SameRoundData;
    ElectionsGiveNodes(c);
    StepMovesOne(c, step);
    OtherStepsLeaveRounds(c, step);
    IdleMoves(c, Apply(c, step), Mover(c, step));
    MoveHasRoundShape(c, step);
    RestStays(c, Apply(c, step), Mover(c, step));
    IdleKeepsRoundsOk(c, Apply(c, step));
  }

  // ----- Steps of rounds: how they move, and what is new -----

  lemma BeginAcceptsGrow(c: Cluster, a: Addr, texts: seq<string>)
    requires WellFormed(c) && AcceptsInPast(c) && Enabled(c, BeginRound(a, texts))
    ensures AcceptsGrow(c, DoBeginRound(c, a, texts), a)
  {
    hide Stamp;
  }

  lemma BeginMoves(c: Cluster, a: Addr, texts: seq<string>)
    requires WellFormed(c) && AcceptsInPast(c) && RoundsBegun(c) && Enabled(c, BeginRound(a, texts))
    ensures WellFormed(DoBeginRound(c, a, texts)) && RoundsMove(c, DoBeginRound(c, a, texts), a)
  {
    hide AcceptsGrow, AcceptsInPast, LeaderAppend;
    DoBeginRoundKeepsWellFormed(c, a, texts);
    BeginAcceptsGrow(c, a, texts);
  }

  lemma BeginStarts(c: Cluster, a: Addr, texts: seq<string>)
    requires WellFormed(c) && Enabled(c, BeginRound(a, texts)) && WellFormed(DoBeginRound(c, a, texts))
    ensures RoundOk(DoBeginRound(c, a, texts), c.nextRound)
    ensures DoBeginRound(c, a, texts).rounds[c.nextRound].term <= Term(DoBeginRound(c, a, texts), a)
  {
  }

  lemma BeginKeepsAsked(c: Cluster, a: Addr, texts: seq<string>)
    requires WellFormed(c) && RoundsOk(c) && Enabled(c, BeginRound(a, texts))
    ensures AcceptsAsked(DoBeginRound(c, a, texts))
    ensures forall m | m in c.appendCalls :: AcceptKey(m.round, m.to) !in DoBeginRound(c, a, texts).ledger.accepts
  {
    hide RoundOk, AppendAnswerOk, CommitOk, AcceptsBeforeVotes, LeaderAppend;
    CallsUntaken(c);
    hide CallOk;
  }

  lemma BeginKeepsRoundsOk(c: Cluster, a: Addr, texts: seq<string>)
    requires WellFormed(c) && RoundsOk(c) && Enabled(c, BeginRound(a, texts))
    requires WellFormed(DoBeginRound(c, a, texts)) && RestOk(c, DoBeginRound(c, a, texts))
    ensures RoundsOk(DoBeginRound(c, a, texts))
  {
    hide RoundOk, CallOk, AppendAnswerOk, CommitOk, AcceptsBeforeVotes, AcceptsInPast, AcceptsAsked, LeaderAppend;
    BeginStarts(c, a, texts);
    BeginKeepsAsked(c, a, texts);
  }

  lemma SameAcceptsGrow(c: Cluster, c': Cluster, a: Addr)
    requires a in c'.nodes && c'.ledger.accepts == c.ledger.accepts
    ensures AcceptsGrow(c, c', a)
  {
  }

  lemma SendMoves(c: Cluster, r: nat, to: Addr)
    requires WellFormed(c) && Enabled(c, Send(r, to))
    ensures WellFormed(DoSend(c, r, to)) && RoundsMove(c, DoSend(c, r, to), c.rounds[r].owner)
  {
    hide AcceptsGrow, Acknowledge, AppendRequestFor;
    DoSendKeepsWellFormed(c, r, to);
    SameAcceptsGrow(c, DoSend(c, r, to), c.rounds[r].owner);
  }

  lemma SendCounts(c: Cluster, r: nat, to: Addr)
    requires WellFormed(c) && Enabled(c, Send(r, to)) && RoundOk(c, r)
    requires WellFormed(DoSend(c, r, to))
    ensures RoundOk(DoSend(c, r, to), r)
  {
  }

  lemma SendCalls(c: Cluster, r: nat, to: Addr)
    requires WellFormed(c) && RoundsOk(c) && Enabled(c, Send(r, to))
    requires WellFormed(DoSend(c, r, to)) && RestOk(c, DoSend(c, r, to))
    ensures forall m | m in DoSend(c, r, to).appendCalls :: CallOk(DoSend(c, r, to), m)
    ensures CallsDiffer(DoSend(c, r, to))
  {
    hide RoundOk, AppendAnswerOk, CommitOk, AcceptsBeforeVotes, AcceptsInPast, Acknowledge;
    assert forall m | m in c.appendCalls :: CallOk(c, m);
    assert to != c.rounds[r].owner ==> AcceptKey(r, to) !in c.ledger.accepts;
  }

  lemma SendKeepsAsked(c: Cluster, r: nat, to: Addr)
    requires WellFormed(c) && AcceptsAsked(c) && Enabled(c, Send(r, to))
    ensures AcceptsAsked(DoSend(c, r, to))
  {
  }

  /** Only round `r` moves on; nothing is accepted or committed. */
  ghost predicate OneRoundMoves(c: Cluster, c': Cluster, r: nat) {
    && r in c.rounds && c'.rounds.Keys == c.rounds.Keys
    && SameRound(c.rounds[r], c'.rounds[r])
    && (forall q | q in c.rounds && q != r :: c'.rounds[q] == c.rounds[q])
    && c'.nextRound == c.nextRound && c'.appendAnswers <= c.appendAnswers
    && c'.ledger.accepts == c.ledger.accepts && c'.ledger.commits == c.ledger.commits
  }

  lemma SendIsOneRound(c: Cluster, r: nat, to: Addr)
    requires WellFormed(c) && Enabled(c, Send(r, to))
    ensures OneRoundMoves(c, DoSend(c, r, to), r)
  {
    hide Acknowledge, AppendRequestFor;
  }

  lemma OneRoundKeepsRoundsOk(c: Cluster, c': Cluster, r: nat)
    requires WellFormed(c) && WellFormed(c') && RoundsOk(c) && RestOk(c, c')
    requires OneRoundMoves(c, c', r) && RoundOk(c', r)
    requires (forall m | m in c'.appendCalls :: CallOk(c', m)) && CallsDiffer(c') && AcceptsAsked(c')
    ensures RoundsOk(c')
  {
    hide RoundOk, CallOk, AppendAnswerOk, CommitOk, AcceptsBeforeVotes, AcceptsInPast, CallsDiffer, AcceptsAsked;
  }

  lemma SendKeepsRoundsOk(c: Cluster, r: nat, to: Addr)
    requires WellFormed(c) && RoundsOk(c) && Enabled(c, Send(r, to))
    requires WellFormed(DoSend(c, r, to)) && RestOk(c, DoSend(c, r, to))
    ensures RoundsOk(DoSend(c, r, to))
  {
    SendCounts(c, r, to);
    SendCalls(c, r, to);
    SendKeepsAsked(c, r, to);
    SendIsOneRound(c, r, to);
    OneRoundKeepsRoundsOk(c, DoSend(c, r, to), r);
    hide RestOk, OneRoundMoves, DoSend, CallOk, CallsDiffer, AcceptsAsked, RoundOk;
  }

  lemma DeliverMoves(c: Cluster, call: AppendCall)
    requires WellFormed(c) && Enabled(c, DeliverAppend(call)) && CallOk(c, call)
    ensures WellFormed(DoDeliverAppend(c, call)) && RoundsMove(c, DoDeliverAppend(c, call), call.to)
  {
    DoDeliverAppendKeepsWellFormed(c, call);
  }

  lemma DeliverAnswers(c: Cluster, call: AppendCall)
    requires WellFormed(c) && Enabled(c, DeliverAppend(call)) && CallOk(c, call)
    requires WellFormed(DoDeliverAppend(c, call)) && RoundsBegun(c)
    requires RoundShape(c, DoDeliverAppend(c, call), call.to)
    ensures AppendAnswerOk(DoDeliverAppend(c, call),
      AppendAnswer(call.round, call.to, call.req.term, HandleAppend(c.nodes[call.to], call.req).1))
  {
    LiveWasLive(c, DoDeliverAppend(c, call), call.to, call.round);
  }

  lemma DeliverKeepsAsked(c: Cluster, call: AppendCall)
    requires WellFormed(c) && RoundsOk(c) && Enabled(c, DeliverAppend(call))
    requires WellFormed(DoDeliverAppend(c, call))
    ensures AcceptsAsked(DoDeliverAppend(c, call)) && CallsDiffer(DoDeliverAppend(c, call))
    ensures forall m | m in DoDeliverAppend(c, call).appendCalls ::
      AcceptKey(m.round, m.to) !in DoDeliverAppend(c, call).ledger.accepts
  {
    hide RoundOk, AppendAnswerOk, CommitOk, AcceptsBeforeVotes, AcceptsInPast, HandleAppend;
    assert forall m | m in c.appendCalls :: CallOk(c, m);
  }

  lemma DeliverKeepsRoundsOk(c: Cluster, call: AppendCall)
    requires WellFormed(c) && RoundsOk(c) && Enabled(c, DeliverAppend(call))
    requires WellFormed(DoDeliverAppend(c, call)) && RestOk(c, DoDeliverAppend(c, call))
    requires RoundShape(c, DoDeliverAppend(c, call), call.to)
    ensures RoundsOk(DoDeliverAppend(c, call))
  {
    hide RoundOk, CallOk, AppendAnswerOk, CommitOk, AcceptsBeforeVotes, AcceptsInPast, AcceptsAsked, CallsDiffer,
      RoundShape, HandleAppend;
    DeliverAnswers(c, call);
    DeliverKeepsAsked(c, call);
  }

  lemma CountMoves(c: Cluster, ans: AppendAnswer)
    requires WellFormed(c) && Enabled(c, CountAppend(ans))
    ensures WellFormed(DoCountAppend(c, ans))
    ensures RoundsMove(c, DoCountAppend(c, ans), c.rounds[ans.round].owner)
  {
    DoCountAppendKeepsWellFormed(c, ans);
  }

  lemma CountCounts(c: Cluster, ans: AppendAnswer)
    requires WellFormed(c) && Enabled(c, CountAppend(ans))
    requires RoundOk(c, ans.round) && AppendAnswerOk(c, ans)
    requires WellFormed(DoCountAppend(c, ans))
    ensures RoundOk(DoCountAppend(c, ans), ans.round)
  {
  }

  lemma CountIsOneRound(c: Cluster, ans: AppendAnswer)
    requires WellFormed(c) && Enabled(c, CountAppend(ans))
    ensures OneRoundMoves(c, DoCountAppend(c, ans), ans.round)
    ensures DoCountAppend(c, ans).appendCalls == c.appendCalls
  {
    hide HandleAppendReply;
  }

  lemma SameCallsStayOk(c: Cluster, c': Cluster, r: nat)
    requires WellFormed(c) && WellFormed(c') && RoundsOk(c) && RestOk(c, c')
    requires OneRoundMoves(c, c', r) && c'.appendCalls == c.appendCalls
    ensures (forall m | m in c'.appendCalls :: CallOk(c', m)) && CallsDiffer(c') && AcceptsAsked(c')
  {
    hide RoundOk, CallOk, AppendAnswerOk, CommitOk, AcceptsBeforeVotes, AcceptsInPast;
    CallsUntaken(c);
  }

  lemma CountKeepsRoundsOk(c: Cluster, ans: AppendAnswer)
    requires WellFormed(c) && RoundsOk(c) && Enabled(c, CountAppend(ans))
    requires WellFormed(DoCountAppend(c, ans)) && RestOk(c, DoCountAppend(c, ans))
    ensures RoundsOk(DoCountAppend(c, ans))
  {
    CountCounts(c, ans);
    CountIsOneRound(c, ans);
    SameCallsStayOk(c, DoCountAppend(c, ans), ans.round);
    OneRoundKeepsRoundsOk(c, DoCountAppend(c, ans), ans.round);
    hide RestOk, OneRoundMoves, DoCountAppend;
  }

  lemma EndMoves(c: Cluster, r: nat)
    requires WellFormed(c) && Enabled(c, EndRound(r))
    ensures WellFormed(DoEndRound(c, r)) && RoundsMove(c, DoEndRound(c, r), c.rounds[r].owner)
  {
    hide FinishRound;
    DoEndRoundKeepsWellFormed(c, r);
    SameAcceptsGrow(c, DoEndRound(c, r), c.rounds[r].owner);
    hide AcceptsGrow;
  }

  lemma EndCommits(c: Cluster, r: nat)
    requires WellFormed(c) && Enabled(c, EndRound(r)) && RoundOk(c, r) && RoundsBegun(c)
    requires Majority(|c.rounds[r].acks|, |c.servers|)
    ensures var n := c.nodes[c.rounds[r].owner];
      CommitOk(DoEndRound(c, r), Commit(r, c.rounds[r].owner, c.rounds[r].term, c.rounds[r].acks,
                                       n.role.Leader? && n.memory.currentTerm == c.rounds[r].term,
                                       |n.memory.log|))
  {
  }

  lemma EndKeepsAsked(c: Cluster, r: nat)
    requires WellFormed(c) && AcceptsAsked(c) && Enabled(c, EndRound(r))
    ensures AcceptsAsked(DoEndRound(c, r))
  {
    hide FinishRound, Majority;
  }

  lemma EndKeepsCommits(c: Cluster, r: nat)
    requires WellFormed(c) && RoundsOk(c) && Enabled(c, EndRound(r))
    requires WellFormed(DoEndRound(c, r)) && RestOk(c, DoEndRound(c, r))
    ensures forall k | k in DoEndRound(c, r).ledger.commits :: CommitOk(DoEndRound(c, r), k)
  {
    if Majority(|c.rounds[r].acks|, |c.servers|) {
      EndCommits(c, r);
    }
    hide CommitOk, RoundOk, CallOk, AppendAnswerOk, AcceptsAsked, CallsDiffer, AcceptsBeforeVotes, AcceptsInPast,
      FinishRound;
  }

  lemma EndKeepsRoundsOk(c: Cluster, r: nat)
    requires WellFormed(c) && RoundsOk(c) && Enabled(c, EndRound(r))
    requires WellFormed(DoEndRound(c, r)) && RestOk(c, DoEndRound(c, r))
    ensures RoundsOk(DoEndRound(c, r))
  {
    hide CallOk, AppendAnswerOk, CommitOk, AcceptsBeforeVotes, AcceptsInPast, RoundOk, AcceptsAsked, FinishRound,
      Majority;
    EndKeepsAsked(c, r);
    EndKeepsCommits(c, r);
    CallsUntaken(c);
  }

  lemma QuietStepMoves(c: Cluster, step: Step)
    requires WellFormed(c) && RoundsOk(c) && Enabled(c, step) && IsQuiet(step)
    ensures WellFormed(Apply(c, step)) && Mover(c, step) in c.servers
    ensures Apply(c, step).servers == c.servers
    ensures RoundsMove(c, Apply(c, step), Mover(c, step))
  {
    hide WellFormed, RoundsMove, RoundOk, AppendAnswerOk, CommitOk, AcceptsBeforeVotes;
    MoverIsServer(c, step);
    match step
    case BeginRound(a, texts) => BeginMoves(c, a, texts);
    case Send(r, to) => SendMoves(c, r, to);
    case DeliverAppend(call) => DeliverMoves(c, call);
    case CountAppend(ans) => CountMoves(c, ans);
    case EndRound(r) => EndMoves(c, r);
  }

  lemma QuietStepKeepsRoundsOk(c: Cluster, step: Step)
    requires ElectionsOk(c) && RoundsOk(c) && Enabled(c, step) && IsQuiet(step)
    ensures WellFormed(Apply(c, step)) && RoundsOk(Apply(c, step))
  {
    hide ElectionsOk, NodesOk, WellFormed, RoundsOk, RestOk, BallotsInPast, RoundShape, RoundsMove;
    ElectionsGiveNodes(c);
    QuietStepMoves(c, step);
    MoveHasRoundShape(c, step);
    RestStays(c, Apply(c, step), Mover(c, step));
    match step
    case BeginRound(a, texts) => BeginKeepsRoundsOk(c, a, texts);
    case Send(r, to) => SendKeepsRoundsOk(c, r, to);
    case DeliverAppend(call) => DeliverKeepsRoundsOk(c, call);
    case CountAppend(ans) => CountKeepsRoundsOk(c, ans);
    case EndRound(r) => EndKeepsRoundsOk(c, r);
  }

  lemma StepKeepsRoundsOk(c: Cluster, step: Step)
    requires ElectionsOk(c) && RoundsOk(c) && Enabled(c, step)
    ensures WellFormed(Apply(c, step)) && RoundsOk(Apply(c, step))
  {
    hide ElectionsOk, RoundsOk, WellFormed, Apply, Enabled;
    if IsQuiet(step) {
      QuietStepKeepsRoundsOk(c, step);
    } else {
      OtherStepsKeepRoundsOk(c, step);
    }
  }

  lemma {:induction false} RoundsAlwaysOk(c: Cluster, steps: seq<Step>)
    requires ElectionsOk(c) && RoundsOk(c) && Legal(c, steps)
    ensures RoundsOk(Run(c, steps))
    decreases |steps|
  {
    hide ElectionsOk, RoundsOk, WellFormed, Apply, Enabled;
    if steps != [] {
      ElectionsGiveNodes(c);
      StepKeepsRoundsOk(c, steps[0]);
      StepKeepsElectionsOk(c, steps[0]);
      RoundsAlwaysOk(Apply(c, steps[0]), steps[1..]);
    }
  }

  lemma ReachableRoundsOk(c: Cluster)
    requires Reachable(c)
    ensures ElectionsOk(c) && RoundsOk(c)
  {
    ReachableIsOk(c);
    hide ElectionsOk, RoundsOk;
    var servers, steps :| ReachedBy(c, servers, steps);
    InitElectionsOk(servers);
    InitRoundsOk(servers);
    RoundsAlwaysOk(Init(servers), steps);
  }

  lemma InitRoundsOk(servers: set<Addr>)
    ensures WellFormed(Init(servers)) && RoundsOk(Init(servers))
  {
  }

  // ----- The quorum witness -----

  /** A server behind both a committing round and a later win: it took the round's append, later it
      voted for the winner, and at that vote the winner's last entry was of a newer term than its
      own, or the winner's log was at least as long as its own. */
  ghost predicate Witness(c: Cluster, k: Commit, w: Win, x: Addr) {
    var take, vote := AcceptKey(k.round, x), BallotKey(x, w.leader, w.term);
    && x in k.quorum && x in w.quorum
    && take in c.ledger.accepts && vote in c.ledger.ballots
    && c.ledger.accepts[take].term == k.term
    && c.ledger.accepts[take].at < c.ledger.ballots[vote].at
    && |w.log| > 0 && |c.ledger.ballots[vote].voterLog| > 0
    && (Last(w.log).term > Last(c.ledger.ballots[vote].voterLog).term
        || |w.log| >= |c.ledger.ballots[vote].voterLog|)
  }

  /** Every ballot in the ledger met the vote rule when it was cast. */
  ghost predicate BallotsMetRule(c: Cluster) {
    forall k | k in c.ledger.ballots ::
      var b := c.ledger.ballots[k];
      && |b.voterLog| > 0
      && (b.lastTerm > Last(b.voterLog).term || b.lastIndex + 1 >= |b.voterLog|)
  }

  lemma VotesMeetRule(c: Cluster, step: Step)
    requires WellFormed(c) && BallotsMetRule(c) && Enabled(c, step) && (step.Open? || step.DeliverVote?)
    ensures BallotsMetRule(Apply(c, step))
  {
  }

  lemma StepKeepsBallotsMetRule(c: Cluster, step: Step)
    requires WellFormed(c) && BallotsMetRule(c) && Enabled(c, step)
    ensures BallotsMetRule(Apply(c, step))
  {
    hide WellFormed, Apply, Enabled;
    if step.Open? || step.DeliverVote? {
      VotesMeetRule(c, step);
    } else {
      OtherStepsKeepBallots(c, step);
    }
  }

  lemma {:induction false} BallotsAlwaysMetRule(c: Cluster, steps: seq<Step>)
    requires WellFormed(c) && BallotsMetRule(c) && Legal(c, steps)
    ensures BallotsMetRule(Run(c, steps))
    decreases |steps|
  {
    hide BallotsMetRule, WellFormed, Apply, Enabled;
    if steps != [] {
      StepKeepsWellFormed(c, steps[0]);
      StepKeepsBallotsMetRule(c, steps[0]);
      BallotsAlwaysMetRule(Apply(c, steps[0]), steps[1..]);
    }
  }

  /** Any committing round that was not interrupted and any later win share such a server. */
  lemma QuorumWitness(c: Cluster, k: Commit, w: Win)
    requires Reachable(c)
    requires k in c.ledger.commits && k.uninterrupted && w in c.ledger.wins && k.term < w.term
    ensures exists x :: Witness(c, k, w, x)
  {
    ReachableRoundsOk(c);
    var servers, steps :| ReachedBy(c, servers, steps);
    BallotsAlwaysMetRule(Init(servers), steps);
    WitnessAmong(c, k, w);
  }

  lemma WitnessAmong(c: Cluster, k: Commit, w: Win)
    requires CommitOk(c, k) && WinOk(c, w) && AcceptsBeforeVotes(c) && BallotsMetRule(c)
    requires k.uninterrupted && k.term < w.term
    ensures exists x :: Witness(c, k, w, x)
  {
    QuorumsMeet(c.servers, k.quorum, w.quorum);
    var x :| x in k.quorum && x in w.quorum;
    assert Took(c, k.round, x, k.term);
    assert BallotFor(c, x, VoteRequest(w.term, w.leader, |w.log| - 1, Last(w.log).term));
    assert AcceptKey(k.round, x) in c.ledger.accepts && BallotKey(x, w.leader, w.term) in c.ledger.ballots;
    assert Witness(c, k, w, x);
  }
}
