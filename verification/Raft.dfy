/** One Raft server as values: its state, its messages, and one function for each
    section of the program that runs while the state lock is held. */
module Raft {

  import opened Common

  datatype Entry = Entry(text: string, term: nat)

  /** The part of the state that is written to the server's file. */
  datatype Persistent = Persistent(currentTerm: nat, votedFor: Option<Addr>, log: seq<Entry>)

  datatype Role =
    | Follower
    | Candidate
    | Leader(nextIndex: map<Addr, nat>, matchIndex: map<Addr, nat>)

  /** `disk` is what a restart would read back. */
  datatype NodeState = NodeState(memory: Persistent, role: Role, commitIndex: nat, disk: Persistent)

  datatype AppendRequest =
    AppendRequest(term: nat, prevIndex: nat, prevTerm: nat, entries: seq<Entry>, leaderCommit: nat)

  datatype VoteRequest = VoteRequest(term: nat, candidate: Addr, lastIndex: nat, lastTerm: nat)

  datatype VoteReply = VoteReply(term: nat, granted: bool)

  const INIT_ENTRY := Entry("init", 0)

  function Min(a: nat, b: nat): nat {
    if a <= b then a else b
  }

  function Max(a: nat, b: nat): nat {
    if a <= b then b else a
  }

  predicate Majority(count: nat, size: nat) {
    count * 2 > size
  }

  function Last(log: seq<Entry>): Entry
    requires |log| > 0
  {
    log[|log| - 1]
  }

  // ----- Start and restart -----

  function FreshNode(): NodeState {
    var p := Persistent(0, None, [INIT_ENTRY]);
    NodeState(p, Follower, 0, p)
  }

  function Restart(n: NodeState): NodeState {
    NodeState(n.disk, Follower, 0, n.disk)
  }

  // ----- Receiving an append -----

  /** Length of the sender's log when the request was built. */
  function End(req: AppendRequest): nat {
    req.prevIndex + 1 + |req.entries|
  }

  /** The step both receivers take first: a newer term makes the server a follower of it. */
  function AdoptTerm(n: NodeState, term: nat): NodeState {
    if term > n.memory.currentTerm then
      var p := Persistent(term, None, n.memory.log);
      NodeState(p, Follower, n.commitIndex, p)
    else n
  }

  predicate LogMatches(log: seq<Entry>, prevIndex: nat, prevTerm: nat) {
    prevIndex < |log| && log[prevIndex].term == prevTerm
  }

  /** The log after an accepted append: the program inserts, so entries that were already
      behind `prevIndex` are pushed back instead of being overwritten. */
  function Splice(log: seq<Entry>, prevIndex: nat, entries: seq<Entry>): seq<Entry>
    requires prevIndex < |log|
  {
    log[..prevIndex + 1] + entries + log[prevIndex + 1..Min(|log|, prevIndex + 1 + |entries|)]
  }

  predicate AcceptsAppend(n: NodeState, req: AppendRequest) {
    && req.term >= n.memory.currentTerm
    && (req.term > n.memory.currentTerm || n.role.Follower?)
    && LogMatches(n.memory.log, req.prevIndex, req.prevTerm)
  }

  function HandleAppend(n: NodeState, req: AppendRequest): (NodeState, bool) {
    var m := AdoptTerm(n, req.term);
    if AcceptsAppend(n, req) then
      var log := Splice(m.memory.log, req.prevIndex, req.entries);
      var p := m.memory.(log := log);
      var commit := if req.leaderCommit > m.commitIndex then Min(req.leaderCommit, |log| - 1) else m.commitIndex;
      (NodeState(p, m.role, commit, p), true)
    else (m, false)
  }

  // ----- Receiving a vote request -----

  /** The program's rule on logs: newer last term, or at least as long. */
  predicate LogCondition(log: seq<Entry>, req: VoteRequest) {
    || req.lastTerm > (if |log| > 0 then Last(log).term else 0)
    || req.lastIndex + 1 >= |log|
  }

  predicate GrantsVote(n: NodeState, req: VoteRequest) {
    && req.term >= n.memory.currentTerm
    && LogCondition(n.memory.log, req)
    && (req.term > n.memory.currentTerm || n.memory.votedFor in {None, Some(req.candidate)})
  }

  /** A refusal because of the log forgets an earlier vote for the same candidate. */
  predicate ForgetsVote(n: NodeState, req: VoteRequest) {
    && req.term == n.memory.currentTerm
    && !LogCondition(n.memory.log, req)
    && n.memory.votedFor == Some(req.candidate)
  }

  function WithVote(n: NodeState, vote: Option<Addr>): NodeState {
    var p := n.memory.(votedFor := vote);
    n.(memory := p, disk := p)
  }

  function HandleVote(n: NodeState, req: VoteRequest): (NodeState, VoteReply) {
    var m := AdoptTerm(n, req.term);
    var term := if req.term < n.memory.currentTerm then req.term else Max(req.term, m.memory.currentTerm);
    if GrantsVote(n, req) then (WithVote(m, Some(req.candidate)), VoteReply(term, true))
    else if ForgetsVote(n, req) then (WithVote(m, None), VoteReply(term, false))
    else (m, VoteReply(term, false))
  }

  // ----- Running for leader -----

  /** The file keeps the old vote: memory is cleared after it was written. */
  function OpenElection(n: NodeState): NodeState {
    var term := n.memory.currentTerm + 1;
    NodeState(n.memory.(currentTerm := term, votedFor := None), Candidate, n.commitIndex,
              n.memory.(currentTerm := term))
  }

  function VoteRequestOf(n: NodeState, me: Addr): VoteRequest
    requires |n.memory.log| > 0
  {
    VoteRequest(n.memory.currentTerm, me, |n.memory.log| - 1, Last(n.memory.log).term)
  }

  function FinishElection(n: NodeState, servers: set<Addr>, votes: nat): NodeState
    requires |n.memory.log| > 0
  {
    if !n.role.Candidate? then n
    else
      WithVote(n, None).(role :=
        if Majority(votes, |servers|) then
          Leader(map a | a in servers :: |n.memory.log| - 1, map a | a in servers :: 0)
        else Follower)
  }

  // ----- Leading -----

  function Stamp(texts: seq<string>, term: nat): (es: seq<Entry>)
    ensures |es| == |texts|
    ensures forall i | 0 <= i < |es| :: es[i] == Entry(texts[i], term)
  {
    seq(|texts|, i requires 0 <= i < |texts| => Entry(texts[i], term))
  }

  function LeaderAppend(n: NodeState, texts: seq<string>): NodeState {
    var p := n.memory.(log := n.memory.log + Stamp(texts, n.memory.currentTerm));
    n.(memory := p, disk := p)
  }

  function PrevIndex(next: nat): nat {
    if next == 0 then 0 else next - 1
  }

  /** With the two fallbacks the program has for an index outside the log. */
  function AppendRequestFor(n: NodeState, to: Addr): AppendRequest
    requires n.role.Leader? && to in n.role.nextIndex
  {
    var log := n.memory.log;
    var prev := PrevIndex(n.role.nextIndex[to]);
    AppendRequest(n.memory.currentTerm, prev,
                  if prev < |log| then log[prev].term else 0,
                  if prev + 1 <= |log| then log[prev + 1..] else [],
                  n.commitIndex)
  }

  /** A success sets both indices of a server to the end of the leader's present log. */
  function Acknowledge(n: NodeState, from: Addr): NodeState
    requires n.role.Leader? && |n.memory.log| > 0
  {
    n.(role := Leader(n.role.nextIndex[from := |n.memory.log|],
                      n.role.matchIndex[from := |n.memory.log| - 1]))
  }

  function BackOff(n: NodeState, from: Addr): NodeState
    requires n.role.Leader?
  {
    if from in n.role.nextIndex then
      n.(role := n.role.(nextIndex := n.role.nextIndex[from := PrevIndex(n.role.nextIndex[from])]))
    else n
  }

  function HandleAppendReply(n: NodeState, from: Addr, success: bool): NodeState
    requires |n.memory.log| > 0
  {
    if !n.role.Leader? then n
    else if success then Acknowledge(n, from)
    else BackOff(n, from)
  }

  /** The end of a round moves the commit index to the end of the log, whatever the role is by then. */
  function FinishRound(n: NodeState, successes: nat, size: nat): NodeState
    requires |n.memory.log| > 0
  {
    if Majority(successes, size) then n.(commitIndex := |n.memory.log| - 1) else n
  }

  function CommittedLog(n: NodeState): seq<Entry> {
    if n.commitIndex + 1 <= |n.memory.log| then n.memory.log[..n.commitIndex + 1] else []
  }
}
