/** The server object itself: each method is one section of the program that holds the state
    lock, and is proved against the function of module Raft that specifies it. */
module RaftServer {
  import opened Common
  import opened Raft

  class Server {
    const me: Addr
    const servers: set<Addr>
    var role: Role
    var currentTerm: nat
    var votedFor: Option<Addr>
    var log: seq<Entry>
    var commitIndex: nat
    var disk: Persistent

    ghost function State(): NodeState
      reads this
    {
      NodeState(Persistent(currentTerm, votedFor, log), role, commitIndex, disk)
    }

    constructor (me: Addr, servers: set<Addr>)
      ensures State() == FreshNode()
      ensures this.me == me && this.servers == servers
    {
      this.me, this.servers := me, servers;
      role, currentTerm, votedFor, log, commitIndex := Follower, 0, None, [INIT_ENTRY], 0;
      disk := Persistent(0, None, [INIT_ENTRY]);
    }

    constructor FromFile(file: Persistent, me: Addr, servers: set<Addr>)
      ensures forall n: NodeState :: n.disk == file ==> State() == Restart(n)
      ensures this.me == me && this.servers == servers
    {
      this.me, this.servers := me, servers;
      role, commitIndex := Follower, 0;
      currentTerm, votedFor, log := file.currentTerm, file.votedFor, file.log;
      disk := file;
    }

    method SavePersistent()
      modifies this`disk
      ensures disk == State().memory
    {
      disk := Persistent(currentTerm, votedFor, log);
    }

    /** Cuts the log, then inserts the entries one at a time: always in bounds, never growing by
        the cut, and ending in the splice. */
    method InsertEntries(prevIndex: nat, entries: seq<Entry>)
      requires prevIndex < |log|
      modifies this`log
      ensures log == Splice(old(log), prevIndex, entries)
    {
      if |log| > prevIndex + 1 + |entries| {
        log := log[..prevIndex + 1 + |entries|];
      }
      ghost var kept := log[prevIndex + 1..];
      assert kept == old(log)[prevIndex + 1..Min(|old(log)|, prevIndex + 1 + |entries|)];
      var offset := 0;
      while offset < |entries|
        invariant 0 <= offset <= |entries|
        invariant log == old(log)[..prevIndex + 1] + entries[..offset] + kept
      {
        var at := offset + prevIndex + 1;
        log := log[..at] + [entries[offset]] + log[at..];
        offset := offset + 1;
      }
    }

    method AppendEntries(req: AppendRequest) returns (success: bool)
      modifies this
      ensures (State(), success) == HandleAppend(old(State()), req)
    {
      if req.term < currentTerm {
        return false;
      }
      if req.term > currentTerm {
        role := Follower;
        currentTerm := req.term;
        votedFor := None;
        SavePersistent();
      }
      if !role.Follower? {
        return false;
      }
      if req.prevIndex >= |log| || log[req.prevIndex].term != req.prevTerm {
        return false;
      }
      InsertEntries(req.prevIndex, req.entries);
      if req.leaderCommit > commitIndex {
        commitIndex := Min(req.leaderCommit, |log| - 1);
      }
      SavePersistent();
      return true;
    }

    method RequestVote(req: VoteRequest) returns (reply: VoteReply)
      modifies this
      ensures (State(), reply) == HandleVote(old(State()), req)
    {
      if req.term < currentTerm {
        return VoteReply(req.term, false);
      }
      if req.term > currentTerm {
        role := Follower;
        currentTerm := req.term;
        votedFor := None;
        SavePersistent();
      }
      var lastTerm := if |log| > 0 then log[|log| - 1].term else 0;
      var logCondition := req.lastTerm > lastTerm || req.lastIndex + 1 >= |log|;
      if !logCondition {
        if votedFor == Some(req.candidate) {
          votedFor := None;
          SavePersistent();
        }
        return VoteReply(Max(req.term, currentTerm), false);
      }
      var granted := votedFor.None? || votedFor.value == req.candidate;
      if granted {
        votedFor := Some(req.candidate);
        SavePersistent();
      }
      return VoteReply(Max(req.term, currentTerm), granted);
    }

    /** Returns false when the server is not a follower any more and nothing is started. */
    method OpenElection() returns (started: bool)
      modifies this
      ensures started == old(role.Follower?)
      ensures State() == if started then Raft.OpenElection(old(State())) else old(State())
    {
      if !role.Follower? {
        return false;
      }
      role := Candidate;
      currentTerm := currentTerm + 1;
      SavePersistent();
      votedFor := None;
      return true;
    }

    method BuildVoteRequest() returns (req: VoteRequest)
      requires |log| > 0
      ensures req == VoteRequestOf(State(), me)
    {
      req := VoteRequest(currentTerm, me, |log| - 1, log[|log| - 1].term);
    }

    method FinishElection(votes: nat)
      requires |log| > 0
      modifies this
      ensures State() == Raft.FinishElection(old(State()), servers, votes)
    {
      if !role.Candidate? {
        return;
      }
      if votes * 2 > |servers| {
        var base := |log| - 1;
        var nextIndex := map a | a in servers :: base;
        var matchIndex := map a | a in servers :: 0;
        votedFor := None;
        SavePersistent();
        role := Leader(nextIndex, matchIndex);
      } else {
        votedFor := None;
        SavePersistent();
        role := Follower;
      }
    }

    /** The head of a round. Fails when the server does not lead. */
    method BeginRound(texts: seq<string>) returns (ok: bool)
      modifies this
      ensures ok == old(role.Leader?)
      ensures State() == if ok then LeaderAppend(old(State()), texts) else old(State())
    {
      if !role.Leader? {
        return false;
      }
      log := log + Stamp(texts, currentTerm);
      SavePersistent();
      return true;
    }

    method AcknowledgeSelf()
      requires role.Leader? && |log| > 0
      modifies this`role
      ensures State() == Acknowledge(old(State()), me)
    {
      role := Leader(role.nextIndex[me := |log|], role.matchIndex[me := |log| - 1]);
    }

    method BuildAppendRequest(to: Addr) returns (req: AppendRequest)
      requires role.Leader? && to in role.nextIndex
      ensures req == AppendRequestFor(State(), to)
    {
      var next := role.nextIndex[to];
      var prevIndex := if next >= 1 then next - 1 else 0;
      var entries := if prevIndex + 1 <= |log| then log[prevIndex + 1..] else [];
      var prevTerm := if prevIndex < |log| then log[prevIndex].term else 0;
      req := AppendRequest(currentTerm, prevIndex, prevTerm, entries, commitIndex);
    }

    method ReceiveAppendReply(from: Addr, success: bool)
      requires |log| > 0
      modifies this`role
      ensures State() == HandleAppendReply(old(State()), from, success)
    {
      if !role.Leader? {
        return;
      }
      if success {
        role := Leader(role.nextIndex[from := |log|], role.matchIndex[from := |log| - 1]);
      } else if from in role.nextIndex && role.nextIndex[from] != 0 {
        role := Leader(role.nextIndex[from := role.nextIndex[from] - 1], role.matchIndex);
      } else if from in role.nextIndex {
        assert role.nextIndex[from := 0] == role.nextIndex;
      }
    }

    method FinishRound(successes: nat) returns (committed: bool)
      requires |log| > 0
      modifies this`commitIndex
      ensures committed == Majority(successes, |servers|)
      ensures State() == Raft.FinishRound(old(State()), successes, |servers|)
    {
      if successes * 2 > |servers| {
        commitIndex := |log| - 1;
        return true;
      }
      return false;
    }

    method GetLog() returns (committed: seq<Entry>, all: seq<Entry>)
      ensures committed == CommittedLog(State()) && committed <= all == log
    {
      committed := if commitIndex + 1 <= |log| then log[0..commitIndex + 1] else [];
      all := log;
    }
  }
}
