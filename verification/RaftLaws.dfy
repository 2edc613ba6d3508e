/** What the single-server sections mean: the inserting append against the overwriting one of the
    Raft paper, the vote rule against section 5.4.1 of the paper, and the life of a recorded vote. */
module RaftLaws {
  import opened Common
  import opened Raft

  // ----- The inserting append -----

  /** The log the paper's AppendEntries leaves when the entries are new to the receiver. */
  function Overwrite(log: seq<Entry>, prevIndex: nat, entries: seq<Entry>): seq<Entry>
    requires prevIndex < |log|
  {
    log[..prevIndex + 1] + entries
  }

  /** An accepted append ends in the overwritten log, followed by as many of the old entries behind
      `prevIndex` as there are new ones, at most. */
  lemma SpliceIsOverwritePlusTail(log: seq<Entry>, prevIndex: nat, entries: seq<Entry>)
    requires prevIndex < |log|
    ensures Overwrite(log, prevIndex, entries) <= Splice(log, prevIndex, entries)
    ensures |Splice(log, prevIndex, entries)|
         == prevIndex + 1 + |entries| + Min(|log| - (prevIndex + 1), |entries|)
    ensures forall i | prevIndex + 1 + |entries| <= i < |Splice(log, prevIndex, entries)| ::
              Splice(log, prevIndex, entries)[i] == log[i - |entries|]
  {
  }

  /** The append overwrites, as the paper asks, exactly when nothing lies behind `prevIndex` or
      nothing is sent. */
  lemma OverwritesIff(log: seq<Entry>, prevIndex: nat, entries: seq<Entry>)
    requires prevIndex < |log|
    ensures Splice(log, prevIndex, entries) == Overwrite(log, prevIndex, entries)
       <==> |log| == prevIndex + 1 || entries == []
  {
  }

  /** A server that accepts an append of its leader and is left with entries the paper removes. */
  lemma OverwriteFails()
    ensures exists n: NodeState, req ::
      && AcceptsAppend(n, req) && n.disk == n.memory && n.commitIndex == 0
      && HandleAppend(n, req).0.memory.log != Overwrite(n.memory.log, req.prevIndex, req.entries)
  {
    var p := Persistent(1, None, [INIT_ENTRY, Entry("a", 1)]);
    var n, req := NodeState(p, Follower, 0, p), AppendRequest(2, 0, 0, [Entry("b", 2)], 0);
    OverwritesIff(p.log, 0, req.entries);
    assert AcceptsAppend(n, req);
    assert HandleAppend(n, req).0.memory.log != Overwrite(p.log, 0, req.entries);
  }

  /** The heartbeat that follows trims the tail: the pair of appends overwrites. */
  lemma HeartbeatTrims(log: seq<Entry>, prevIndex: nat, entries: seq<Entry>)
    requires prevIndex < |log|
    ensures Splice(Splice(log, prevIndex, entries), prevIndex + |entries|, [])
         == Overwrite(log, prevIndex, entries)
  {
  }

  /** Delivering an append twice leaves its entries twice. */
  lemma RedeliveryDuplicates(log: seq<Entry>, prevIndex: nat, entries: seq<Entry>)
    requires prevIndex < |log|
    ensures Splice(Splice(log, prevIndex, entries), prevIndex, entries)
         == Overwrite(log, prevIndex, entries) + entries
  {
  }

  /** So a repeated append is harmless exactly when the old tail was already a copy of it. */
  lemma RedeliveryHarmlessIff(log: seq<Entry>, prevIndex: nat, entries: seq<Entry>)
    requires prevIndex < |log|
    ensures Splice(Splice(log, prevIndex, entries), prevIndex, entries) == Splice(log, prevIndex, entries)
       <==> entries <= log[prevIndex + 1..]
  {
  }

  /** Behind its end, the leader's log goes on as it does behind the start of the append. */
  predicate Repeats(leader: seq<Entry>, taken: nat, p: nat, e: nat)
    requires taken <= |leader| && p + 1 <= e <= taken
  {
    taken - e <= e - (p + 1) && leader[e..taken] == leader[p + 1..p + 1 + (taken - e)]
  }

  lemma PrefixOfSum(s: seq<Entry>, a: seq<Entry>, b: seq<Entry>, n: nat)
    requires |a| <= n <= |s| && a <= s
    ensures s[..n] <= a + b <==> n - |a| <= |b| && s[|a|..n] == b[..n - |a|]
  {
    assert s[..n] == a + s[|a|..n];
    if n - |a| <= |b| {
      assert (a + b)[..n] == a + b[..n - |a|];
      assert (a + s[|a|..n])[|a|..] == s[|a|..n] && (a + b[..n - |a|])[|a|..] == b[..n - |a|];
    }
  }

  lemma LongSpliceHoldsIff(leader: seq<Entry>, log: seq<Entry>, p: nat, e: nat)
    requires p < |log| && p + 1 <= e <= |leader|
    ensures leader[..e] <= Splice(log, p, leader[p + 1..e]) <==> leader[..p + 1] <= log
  {
    var sent := leader[p + 1..e];
    var spliced := Splice(log, p, sent);
    assert leader[..e] == leader[..p + 1] + sent;
    assert spliced[..e] == log[..p + 1] + sent;
    assert (leader[..p + 1] + sent)[..p + 1] == leader[..p + 1] && (log[..p + 1] + sent)[..p + 1] == log[..p + 1];
  }

  lemma ShortSpliceHoldsIff(leader: seq<Entry>, log: seq<Entry>, taken: nat, p: nat, e: nat)
    requires taken <= |leader| && leader[..taken] <= log && p + 1 <= e < taken
    ensures leader[..taken] <= Splice(log, p, leader[p + 1..e]) <==> Repeats(leader, taken, p, e)
  {
    var sent := leader[p + 1..e];
    assert log[p + 1..e] == leader[..taken][p + 1..e] == sent;
    assert log[..p + 1] == leader[..taken][..p + 1] == leader[..p + 1];
    assert leader[..p + 1] + sent == leader[..e];
    assert Splice(log, p, sent) == leader[..e] + sent;
    PrefixOfSum(leader, leader[..e], sent, taken);
    if taken - e <= |sent| {
      assert sent[..taken - e] == leader[p + 1..p + 1 + (taken - e)];
    }
  }

  /** How far a receiver holds a leader's log after an append that ended before `e`, when that log has
      grown to `n` since: what it grew by has to be what was pushed back. */
  lemma SpliceReachesIff(leader: seq<Entry>, log: seq<Entry>, p: nat, e: nat, n: nat)
    requires p < |log| && p + 1 <= e <= n <= |leader|
    ensures leader[..n] <= Splice(log, p, leader[p + 1..e])
       <==> leader[..p + 1] <= log && leader[e..n] <= log[p + 1..Min(|log|, e)]
  {
    var sent, tail := leader[p + 1..e], log[p + 1..Min(|log|, e)];
    LongSpliceHoldsIff(leader, log, p, e);
    assert leader[..e] == leader[..n][..e];
    if leader[..p + 1] <= log {
      assert leader[..e] == leader[..p + 1] + sent;
      assert Splice(log, p, sent) == leader[..e] + tail;
      PrefixOfSum(leader, leader[..e], tail, n);
    }
  }

  /** A receiver that holds the first `taken` entries of a leader's log takes an append of that leader
      which starts behind entry `p` and ends before `e`. It then holds what it held and what it was
      sent, exactly when it had the leader's log up to `p`, and the append ends no earlier than what
      was taken or the entries pushed back happen to repeat the leader's. */
  lemma SpliceHoldsIff(leader: seq<Entry>, log: seq<Entry>, taken: nat, p: nat, e: nat)
    requires taken <= |leader| && leader[..taken] <= log && p < |log| && p + 1 <= e <= |leader|
    ensures leader[..Max(taken, e)] <= Splice(log, p, leader[p + 1..e])
       <==> leader[..p + 1] <= log && (e >= taken || Repeats(leader, taken, p, e))
  {
    hide Splice, Repeats;
    LongSpliceHoldsIff(leader, log, p, e);
    if e < taken {
      ShortSpliceHoldsIff(leader, log, taken, p, e);
      assert leader[..p + 1] == leader[..taken][..p + 1] <= log;
    }
  }

  // ----- The vote rule -----

  /** "At least as up-to-date" in section 5.4.1 of the paper. */
  predicate UpToDate(log: seq<Entry>, req: VoteRequest)
    requires |log| > 0
  {
    || req.lastTerm > Last(log).term
    || (req.lastTerm == Last(log).term && req.lastIndex >= |log| - 1)
  }

  /** The program's rule is the paper's rule unless the candidate's last term is older while its log
      is at least as long; then the program says yes and the paper no. */
  lemma LogConditionIff(log: seq<Entry>, req: VoteRequest)
    requires |log| > 0
    ensures UpToDate(log, req) ==> LogCondition(log, req)
    ensures (LogCondition(log, req) <==> UpToDate(log, req))
       <==> !(req.lastTerm < Last(log).term && req.lastIndex >= |log| - 1)
  {
  }

  lemma LogConditionTooWeak()
    ensures exists log, req :: |log| > 0 && LogCondition(log, req) && !UpToDate(log, req)
  {
    var log := [INIT_ENTRY, Entry("a", 2)];
    var req := VoteRequest(3, 0, 1, 1);
    assert LogCondition(log, req) && !UpToDate(log, req);
  }

  // ----- The life of a vote -----

  /** A granted vote binds: for the rest of the term only the same candidate is granted again, for
      any requests that arrive, until that candidate is refused for its log. */
  lemma {:induction false} VoteBinds(n: NodeState, req: VoteRequest, later: seq<VoteRequest>)
    requires GrantsVote(n, req)
    requires forall r | r in later :: r.term <= req.term && r.candidate != req.candidate
    ensures var m := HandleVote(n, req).0;
      && VotesAfter(m, later) == m
      && forall r | r in later :: !GrantsVote(m, r)
  {
    var m := HandleVote(n, req).0;
    Refuses(m, req, later);
  }

  function VotesAfter(n: NodeState, reqs: seq<VoteRequest>): NodeState
    decreases |reqs|
  {
    if reqs == [] then n else VotesAfter(HandleVote(n, reqs[0]).0, reqs[1..])
  }

  lemma {:induction false} Refuses(m: NodeState, req: VoteRequest, later: seq<VoteRequest>)
    requires m.memory.currentTerm == req.term && m.memory.votedFor == Some(req.candidate)
    requires forall r | r in later :: r.term <= req.term && r.candidate != req.candidate
    ensures VotesAfter(m, later) == m
    ensures forall r | r in later :: !GrantsVote(m, r)
    decreases |later|
  {
    if later != [] {
      assert later[0] in later;
      assert HandleVote(m, later[0]).0 == m;
      Refuses(m, req, later[1..]);
      assert forall r | r in later :: r == later[0] || r in later[1..];
    }
  }

  /** A vote is freed within its term by a request of the very candidate it was given to, exactly when
      that request fails the log rule: then, and only then, a rival is granted after it. */
  lemma VoteFreedIff(n: NodeState, again: VoteRequest, rival: VoteRequest)
    requires n.memory.votedFor == Some(again.candidate) && rival.candidate != again.candidate
    requires again.term == rival.term == n.memory.currentTerm && LogCondition(n.memory.log, rival)
    ensures GrantsVote(HandleVote(n, again).0, rival) <==> !LogCondition(n.memory.log, again)
    ensures HandleVote(n, again).1.granted <==> LogCondition(n.memory.log, again)
  {
  }

  /** A crash during a campaign brings back the vote of the previous term under the new term; the
      file agrees with memory exactly when there was no such vote. */
  lemma CampaignCrashRevivesVoteIff(n: NodeState)
    ensures Restart(OpenElection(n)).memory == OpenElection(n).memory <==> n.memory.votedFor == None
  {
  }

  /** The reply's term is written as a maximum in two places, and still repeats the request: it never
      reports the receiver's newer term. */
  lemma ReplyTermRepeatsRequest(n: NodeState, req: VoteRequest)
    ensures HandleVote(n, req).1.term == req.term
    ensures HandleVote(n, req).0.memory.currentTerm == Max(n.memory.currentTerm, req.term)
  {
  }

  // ----- The fallbacks of a request -----

  /** A request whose start lies outside the leader's log, which no run comes to, teaches nobody anything: only
      a server with an entry of term 0 there accepts it, and it is left with what it had up to there. */
  lemma RequestOutsideLog(n: NodeState, to: Addr, m: NodeState)
    requires n.role.Leader? && to in n.role.nextIndex && PrevIndex(n.role.nextIndex[to]) >= |n.memory.log|
    ensures var req := AppendRequestFor(n, to);
      && (AcceptsAppend(m, req) ==> m.memory.log[req.prevIndex].term == 0)
      && (AcceptsAppend(m, req) ==> HandleAppend(m, req).0.memory.log == m.memory.log[..req.prevIndex + 1])
  {
  }

  // ----- What is committed and reported -----

  /** An accepted append of a leader that has committed more moves the commit index up with it, but not out
      of the log; of a leader that has not, it leaves the commit index alone, even outside the log. */
  lemma CommitFollowsLeader(n: NodeState, req: AppendRequest)
    requires AcceptsAppend(n, req)
    ensures var m := HandleAppend(n, req).0;
      && (req.leaderCommit <= n.commitIndex ==> m.commitIndex == n.commitIndex)
      && (req.leaderCommit > n.commitIndex ==>
            && m.commitIndex <= req.leaderCommit && m.commitIndex < |m.memory.log|
            && (m.commitIndex == req.leaderCommit || m.commitIndex + 1 == |m.memory.log|))
  {
  }

  /** A server reports as committed the log up to its commit index, and nothing at all exactly when the
      index lies outside the log. */
  lemma ReportsNothingIff(n: NodeState)
    ensures CommittedLog(n) <= n.memory.log
    ensures CommittedLog(n) == [] <==> n.commitIndex >= |n.memory.log|
    ensures n.commitIndex < |n.memory.log| ==>
      |CommittedLog(n)| == n.commitIndex + 1 && Last(CommittedLog(n)) == n.memory.log[n.commitIndex]
  {
  }

  /** That happens: an empty append trims the log of a server below its commit index, and the server, which
      has reported an entry before, reports nothing then. */
  lemma TrimHidesCommit()
    ensures exists n: NodeState, req ::
      && AcceptsAppend(n, req) && |CommittedLog(n)| == 2
      && HandleAppend(n, req).0.commitIndex == n.commitIndex && CommittedLog(HandleAppend(n, req).0) == []
  {
    var p := Persistent(1, None, [INIT_ENTRY, Entry("a", 1)]);
    var n, req := NodeState(p, Follower, 1, p), AppendRequest(2, 0, 0, [], 0);
    assert AcceptsAppend(n, req) && HandleAppend(n, req).0.memory.log == [INIT_ENTRY];
    assert |CommittedLog(n)| == 2 && CommittedLog(HandleAppend(n, req).0) == [];
  }
}
