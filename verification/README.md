# Raft and ring membership

This project models two distributed programs and proves what they guarantee.

**Raft** (`raft2/src/lib.rs`), after Ongaro and Ousterhout, "In Search of an Understandable Consensus
Algorithm" (2014). `Raft.dfy` holds one server as values, with one function for each section of the
program that runs while the state lock is held; `disk` is what a restart would read back.
`RaftServer.dfy` is the server object, whose methods are proved equal to those functions.
`RaftCluster.dfy` is the whole cluster: servers, running elections and rounds, and requests and replies
in flight. One step is one locked section, or a crash with restart; steps are interleaved freely, a
message may be late, overtaken or lost, and is handled at most once. A ledger of what happened (votes,
wins, accepted appends, commits) is kept beside the state, and no step reads it. On top of it stand
invariants of every run (`RaftNodes.dfy`), elections (`RaftElections.dfy`, `RaftElectionRuns.dfy`),
terms, votes and who can be elected (`RaftTerms.dfy`, `RaftElectable.dfy`), rounds and later elections
(`RaftRounds.dfy`), what the requests of a round reach (`RaftOverlap.dfy`), one leader's term with its
rounds one after the other (`RaftStable.dfy`, `RaftStableRuns.dfy`) and its place in the runs of the
cluster (`RaftLeaderRuns.dfy`), one leader's term with overlapping rounds and late appends
(`RaftGuardedRuns.dfy`, `RaftInTimeRuns.dfy`, `RaftGuardedReports.dfy`), a leader's indices
(`RaftIndices.dfy`), one leader and one lagging follower (`RaftBackoff.dfy`), and the laws of the
single sections (`RaftLaws.dfy`). `RaftStage.dfy` builds concrete runs of three servers, for the runs
in which commits go wrong (`RaftCommitGaps.dfy`, `RaftInterrupted.dfy`). `Common.dfy` has what both
programs share.

**Ring** (`ring-rs/src/main.rs`, with the earlier C version `ring/ring.c`). Servers keep `prev` and
`next`; messages travel along `prev` and collect addresses until they come back. `RingOrder.dfy` reads
sequences as rings, `RingLinks.dfy` has joins and leaves one after the other, `RingJoins.dfy` joins
that overlap, `RingHalves.dfy` what a leave or a failed join leaves when calls are lost,
`RingRepair.dfy` the repair after crashes, `RingSearches.dfy` and `RingSearchRuns.dfy` the repair when
answers are lost, `RingTokens.dfy` elections and list rounds on a fixed ring under any interleaving,
`RingResigns.dfy` who is coordinator during list rounds, `RingWander.dfy` an election on pointers that
change under it, `RingCycle.dfy` rounds and repair together. `RingServer.dfy` and `CRing.dfy` are the
objects, their handlers and their loops.

## Main results

- Elections: `RunKeepsOneBallotIff`, `HonestRunsElectOnce`, `TwoLeaders`, `CampaignStandsStill`,
  `NewerTermRefusedOnlyForLog`, `HandedTermSticks`, `ElectableCanWin`.
- Commits and later elections: `QuorumWitness`.
- One leader's term: `OrderlyRunIsMirrored`, `ClusterRefinement`, `ClusterCommitsHeld`,
  `ClusterCommitIndexNeverFalls`, with rounds that do not overlap; `GuardedCommitsHeld`,
  `GuardedReportsHold`, `GuardedCommitIndexNeverFalls`, `InTimeLeaderRun`, `SequentialLeaderRun` and
  `SpliceHoldsIff`, with overlapping rounds and appends in any order; `OverlapCommitsTooMuch`,
  `ReorderingCommitsTooMuch` and `OvertakingCommitsTooMuch`, why none of the three conditions of such a
  run can be dropped; `InterruptedRoundReports` and `InterruptedRoundCommitsTooMuch` for a deposed
  leader.
- A lagging follower: `BackoffConverges`. What a leader knows of its followers: `IndicesFollowReplies`,
  `AcknowledgedMeansHeld`.
- The ring: `JoinsFormRingIff`, `ChangesKeepRing`, `RepairRestoresRingIff`, `RetriesRestoreRing`,
  `OwnRetryIsNotEnough`, `LeaveClosesHalvesIff`, `Agreement`, `CoordinatorStaysIff`, `ElectionEnds`,
  `NextRoundListsSurvivors`, `VersionsAgree`.

## What the code does, where one would expect otherwise

- An accepted append inserts its entries (`raft2/src/lib.rs:533-544`); it does not overwrite what lies
  behind the previous index, as the paper's AppendEntries does. The next empty append trims the tail.
  `OverwritesIff`, `HeartbeatTrims` and `RedeliveryHarmlessIff` say exactly when this shows.
- A candidate counts itself but does not record that vote, and the recorded vote is cleared after a
  win, after a loss and after a refusal because of the log (`raft2/src/lib.rs:343,419,445,592`). One
  leader per term is therefore false in general: `TwoLeaders` is a run of three servers with two
  winners of term 1. `RunKeepsOneBallotIff` gives the exact condition under which no server votes twice
  in a term, and `HonestRunsElectOnce` one winner per term under it.
- The vote rule is "newer last term, or at least as long" (`raft2/src/lib.rs:581-588`), which is weaker
  than section 5.4.1 of the paper: `LogConditionIff`.
- A round that finds its server no longer leading counts that as success (`raft2/src/lib.rs:212,272`),
  and its end moves the commit index all the same (`raft2/src/lib.rs:307-309`). A deposed leader then
  reports its whole log as committed, whoever has it: `EndOfRoundReportsIff` says exactly when,
  `InterruptedRoundReports` says it over the run that follows the loss of leadership, and
  `InterruptedRoundCommitsTooMuch` is a run. A commit is called uninterrupted when its server led the
  round's term up to the end of the round; what commits mean is stated for those.
- `let _ = ...lock().await` (`raft2/src/lib.rs:193`, `ring-rs/src/main.rs:65`) lets go of the lock at
  once, so the rounds of one leader may overlap, and requests of different rounds may overtake each
  other. An uninterrupted commit may then be one that the leader alone holds. `Guarded` has three
  conditions against it: a round commits only while the log has not grown since its requests were
  built; an append that a server accepts starts inside what the server took from this leader; and it
  ends no earlier, or repeats what comes behind. Under them commits are held (`GuardedCommitsHeld`),
  and each is needed: for each of them `RaftCommitGaps` has a run that keeps to the other two and loses
  a commit. The one for the last condition has no overlapping rounds, so in-order delivery matters even
  then; in the one for the second condition every append is in order, and a reply that was counted late
  moved next index past what the server took. `SpliceHoldsIff` and `SpliceReachesIff` are exact for one
  delivery. When each success is counted before the log has grown, the order of appends is all that is
  left (`InTimeLeaderRun`), and when rounds do not overlap that is all there is
  (`SequentialLeaderRun`). `CommitWithinQuorumIff` is about what a quorum took, which is not yet what
  it holds.
- For the same reason joins that ask one server may overlap. A join reads the prev of the server it
  asks twice (`ring-rs/src/main.rs:43-67`) and hears its reply last. `JoinsFormRingIff` says exactly
  which interleavings end in one ring, and `OverlapBreaksRing` is a run of two joins that does not: the
  reply to the first newcomer undoes the call that told it of the second.
- A new leader sends each server its last entry first (`raft2/src/lib.rs:408-418`), and a follower that
  has it already takes it a second time, until the next empty append (`FirstAppendDoublesLast`).
- A commit index may come to lie outside the log, since an empty append trims it; the server then reports
  nothing as committed (`TrimHidesCommit`, `ReportsNothingIff`).
- The reply to a vote request takes the larger of two terms (`raft2/src/lib.rs:597,620`), which is still
  the request's own term (`ReplyTermRepeatsRequest`), so a candidate never learns of a newer term from
  it. The read lock that is held while a vote request is on the way (`raft2/src/lib.rs:348-366`) is not
  held in the model, which allows more interleavings.
- The ring elects the lexicographically least address (`ring-rs/src/main.rs:240-242`); the report says
  the largest (`ring-rs/ring.saty:76`).

## Hypotheses

Every server is one of `servers`, all share the same `servers`, and an address stands for its rank in
the order of the address strings. A file, once written, is whole and is there after a crash; crashes
happen between locked sections.

One leader's term, with its rounds one after the other (`Takeover`, `Orderly`): the run starts from any
reachable state in which the leader leads, no follower has an entry of the leader's term, follower and
leader agree below any entry of equal index and term, and commit indices lie inside the leader's log. In
the run the leader is not deposed and nobody else wins or begins a round, the leader's rounds do not
overlap, each follower receives the leader's appends in the order of sending, and appends of earlier
leaders reach only servers that are in a newer term. Rounds from before the run go on, those of servers
that still lead an older term included, and may end only if that leaves the commit index of their owner
where it is: the end that moves it is the one `EndOfRoundReportsIff` is about. A round the leader itself
had open from an earlier term of its own neither sends nor hears in the run. Requests and replies may be
lost, and the other servers vote, campaign without success, crash and restart meanwhile.

One leader's term, with overlapping rounds (`Succession`, `Guarded`): the same, but nothing is asked of
commit indices, rounds may overlap, messages may overtake each other, rounds from before the run, of
whatever owner, may send, hear and end in any way, and of an append of an earlier round it is asked only
that no server accepts it. Instead an append of the leader that a server accepts has to start inside what
the server took from this leader and to end no earlier, or push back entries that repeat the leader's;
and a round of the leader commits only while the log has not grown since its requests to the servers it
counts were built.
What `RaftGuardedReports` says of commit indices needs in addition that they lie inside the leader's log
at the start, and that the ends of older rounds leave them where they are (`ReportingRun`).

Joins that overlap (`RingJoins`): every call is answered, and nobody leaves or crashes meanwhile; for the
exact condition newcomers ask servers that were in the ring at the start.

Repair (`Crashed`): the ring was whole and every survivor has it cached when the servers crash; nobody
crashes, joins or leaves during the repair. In `RingRepair` every call to a live server is answered; in
`RingSearches` answers may be lost.

## Model

| member | source | states |
|---|---|---|
| RaftServer.Server.constructor | raft2/src/lib.rs:95-121 | a server without a file starts in term 0 with the init entry alone, in memory and on disk |
| RaftServer.Server.FromFile | raft2/src/lib.rs:73-95 | a server with a file starts as a follower with what the file holds and nothing committed, the restart of whatever state left that file |
| RaftServer.Server.SavePersistent | raft2/src/lib.rs:54-62 | the file holds term, vote and log of memory, and nothing else changes |
| RaftServer.Server.InsertEntries | raft2/src/lib.rs:533-544 | the cut and the insert loop stay in bounds, the cut never grows the log, and together they put the entries behind the previous index with the old entries pushed back and cut off |
| RaftServer.Server.AppendEntries | raft2/src/lib.rs:500-551 | term, role and log test in this order, then splice, commit index and file; the whole new state and the reply |
| RaftServer.Server.RequestVote | raft2/src/lib.rs:553-623 | the whole new state and the reply: adopting a term, granting, refusing, and forgetting a vote on a refusal because of the log |
| RaftServer.Server.OpenElection | raft2/src/lib.rs:333-344 | only a follower becomes a candidate of the next term, and memory, but not the file, forgets the old vote |
| RaftServer.Server.BuildVoteRequest | raft2/src/lib.rs:354-366 | the request names the present term and the last entry of the log |
| RaftServer.Server.FinishElection | raft2/src/lib.rs:387-449 | only a candidate decides: with a majority it leads, next index at its last entry, otherwise it follows; the vote is cleared either way |
| RaftServer.Server.BeginRound | raft2/src/lib.rs:193-205 | only a leader appends, at the end, entries of its own term, and saves them |
| RaftServer.Server.AcknowledgeSelf | raft2/src/lib.rs:217-227 | the leader's own indices move to the end of its log |
| RaftServer.Server.BuildAppendRequest | raft2/src/lib.rs:228-255 | what the leader sends to a follower, with the fallbacks for an index outside the log |
| RaftServer.Server.ReceiveAppendReply | raft2/src/lib.rs:267-295 | a success moves both indices to the end of the log, a failure moves next index back by one but not below 0, and a server that no longer leads changes nothing |
| RaftServer.Server.FinishRound | raft2/src/lib.rs:302-316 | a majority of successes commits the whole log, less commits nothing |
| RaftServer.Server.GetLog | raft2/src/lib.rs:483-490 | the committed part is a prefix of the whole log |
| RaftLaws.SpliceIsOverwritePlusTail | raft2/src/lib.rs:533-544 | an accepted append leaves the paper's log followed by the old entries that were behind the previous index, as many as there are new ones at most |
| RaftLaws.OverwritesIff | raft2/src/lib.rs:533-544 | the append overwrites as the paper asks if and only if nothing lay behind the previous index or nothing was sent |
| RaftLaws.OverwriteFails | raft2/src/lib.rs:533-544 | a server and an append that it accepts, after which its log is not the paper's |
| RaftLaws.HeartbeatTrims | raft2/src/lib.rs:521-544 | an append followed by the empty append at its end leaves exactly the paper's log |
| RaftLaws.RedeliveryDuplicates | raft2/src/lib.rs:533-544 | an append handled twice leaves its entries twice in a row |
| RaftLaws.RedeliveryHarmlessIff | raft2/src/lib.rs:533-544 | handling an append twice is the same as once if and only if the log already continued with its entries |
| RaftLaws.SpliceHoldsIff | raft2/src/lib.rs:521-544 | a follower that holds a prefix of the leader's log still holds it, and all it was sent, after an accepted append if and only if it had the leader's log up to the previous index and the append ends no earlier than that prefix, or the entries pushed back repeat the leader's |
| RaftLaws.SpliceReachesIff | raft2/src/lib.rs:521-544 | after an accepted append a follower holds the leader's log, grown since, if and only if it had the log up to the previous index and what the log grew by is what was pushed back |
| RaftLaws.LogConditionIff | raft2/src/lib.rs:581-588 | the vote rule admits all that section 5.4.1 admits, and agrees with it unless the candidate's last term is older while its log is at least as long |
| RaftLaws.LogConditionTooWeak | raft2/src/lib.rs:581-588 | a log and a request that the program admits and the paper does not |
| RaftLaws.VoteBinds | raft2/src/lib.rs:560-623 | after a vote, no sequence of requests of other candidates up to that term changes the server or is granted |
| RaftLaws.VoteFreedIff | raft2/src/lib.rs:591-610 | a second request of the chosen candidate lets a rival of the same term be granted if and only if it fails the log rule |
| RaftLaws.CampaignCrashRevivesVoteIff | raft2/src/lib.rs:340-343 | a crash during a campaign restores memory as it was if and only if the server had no vote before; otherwise the old vote comes back under the new term |
| RaftLaws.ReplyTermRepeatsRequest | raft2/src/lib.rs:560-623 | the maximum the reply carries is always the request's own term, although the server may be at a newer one |
| RaftLaws.RequestOutsideLog | raft2/src/lib.rs:228-246 | a request from an index outside the leader's log is accepted only by a server with an entry of term 0 there, which it leaves with its log up to there |
| RaftLaws.CommitFollowsLeader | raft2/src/lib.rs:545-547 | an accepted append moves the commit index up to what the leader committed, or to the end of the log if that comes first, and not at all if the leader has committed no more |
| RaftLaws.ReportsNothingIff | raft2/src/lib.rs:483-490 | a server reports the prefix of its log up to its commit index, and nothing if and only if the index lies outside the log |
| RaftLaws.TrimHidesCommit | raft2/src/lib.rs:530-547 | an append after which a server that reported an entry as committed reports nothing |
| RaftTerms.AppendSetsTerm | raft2/src/lib.rs:505-519 | any append, accepted or refused, moves its receiver to the newer of the two terms; of a newer term it makes it a follower without a vote, in memory and file, and otherwise it leaves role and vote alone |
| RaftTerms.AppendSucceedsIff | raft2/src/lib.rs:505-532 | an append of a newer term succeeds if and only if the logs match, one of the same term if and only if the receiver also follows, an older one never; a refused one leaves log and commit index alone, and all of the server unless its term is newer |
| RaftTerms.VoteSetsTerm | raft2/src/lib.rs:560-623 | any vote request does the same to term and role and leaves log and commit index alone; a granted one is recorded in memory and file |
| RaftTerms.VoteGrantedIff | raft2/src/lib.rs:569-616 | a request of a newer term is granted if and only if it meets the log rule, whatever vote was recorded; one of the same term if and only if also no rival has the vote; an older one never |
| RaftTerms.CandidateGetsVoteIff | raft2/src/lib.rs:354-366 | the request a candidate builds gets the vote of a server in an older term if and only if the candidate's last term is newer or its log at least as long |
| RaftTerms.DecisionFreesVote | raft2/src/lib.rs:402-449 | a decided candidate leads if and only if it has a majority and follows otherwise, and grants any rival of its term that meets the log rule |
| RaftTerms.HandedTermSticks | raft2/src/lib.rs:510-516 | over any run, a server that was handed an append or a vote request of some term, accepted or not, is in no older term afterwards, and follows it right then, in its file too, if it was newer |
| RaftTerms.NewerTermRefusedOnlyForLog | raft2/src/lib.rs:569-616 | in every reachable state a running candidate's request, delivered to a server in an older term, is granted if and only if the candidate's present log ends in a newer term or is at least as long |
| RaftTerms.CrashEndsWork | raft2/src/lib.rs:73-95 | over any run after a crash in which the server opens no election anew, it only follows: it neither runs nor leads nor has a round open, whatever replies to its old requests arrive |
| RaftElectable.ElectableCanWin | raft2/src/lib.rs:319-450 | from any state, in a cluster of any size, a follower whose term no server exceeds and whose log is good enough for every server can be brought to lead the next term, with all logs as they were |
| RaftIndices.WinnerAsksForLast | raft2/src/lib.rs:408-418 | the first request of a new leader to any server carries exactly its last entry, or nothing if it has the init entry alone, and its match indices are 0 |
| RaftIndices.FirstAppendDoublesLast | raft2/src/lib.rs:533-544 | a follower that already has the new leader's log takes that entry a second time |
| RaftIndices.IndicesFollowReplies | raft2/src/lib.rs:217-295 | over any run in which a server leads throughout, its two indices for a server are those that the counted replies give: a success sets both to the end of the log as it is then, a failure moves next index back by one, nothing else moves them |
| RaftIndices.NothingKnownUntilSuccess | raft2/src/lib.rs:408-418 | from a win on, the match index of a server is 0, and next index below the length of the log at the win, until a success of that server is counted |
| RaftIndices.AcknowledgedMeansHeld | raft2/src/lib.rs:281-285 | when the leader hears replies in time, the log of each server begins with the leader's up to its match index at every point of the run |
| RaftBackoff.AcceptedExchangeCovers | raft2/src/lib.rs:275-287 | the first accepted append of a leader leaves the follower with the leader's log, perhaps with a tail, and next index at its end |
| RaftBackoff.CoveredExchangeSettles | raft2/src/lib.rs:533-544 | the exchange after it removes the tail |
| RaftBackoff.ExchangeMakesProgress | raft2/src/lib.rs:228-295 | every exchange keeps the leader's log and lowers a measure of the exchanges left, through refusals, the insert and the trim |
| RaftBackoff.BackoffConverges | raft2/src/lib.rs:228-295 | after max(next index, 1) + 1 exchanges, or any more, the follower's log equals the leader's |
| RaftCluster.HandledAtMostOnce | raft2/src/lib.rs:257-295 | a request that was handled, and a reply that was counted, is not handled or counted again |
| RaftNodes.NodesAlwaysOk | raft2/src/lib.rs:216-246 | in every run each log begins with the init entry, no entry has a term above its server's, requests carry no entry above their own term, next index is at most the length of the leader's log and match index below it, and the file agrees with memory but for the vote of a candidate |
| RaftNodes.InitNodesOk | raft2/src/lib.rs:96-121 | the start satisfies all this |
| RaftNodes.RequestInsideLog | raft2/src/lib.rs:228-246 | then a leader's request starts inside its log and carries all that follows, so neither fallback is taken |
| RaftNodes.StepMovesOne | raft2/src/lib.rs:176-623 | a step changes one server, as its section says, and no other |
| RaftNodes.LeaderAppendOnly | raft2/src/lib.rs:194-205 | over any run in which a server leads throughout, its term stays and its log only grows at the end by entries of that term |
| RaftNodes.TermsNeverFall | raft2/src/lib.rs:510-516 | over any run, crashes included, no server's term falls |
| RaftNodes.RestartIsDurable | raft2/src/lib.rs:73-95 | at any point of any run a restart keeps term and log, and can change the vote of a candidate only |
| RaftElectionRuns.ElectionsAlwaysOk | raft2/src/lib.rs:319-450 | in every run: votes not forgotten unless the server ran itself, requests answered once, messages of a running campaign up to date, and every win backed by a majority of votes of its term |
| RaftElectionRuns.OneBallotIff | raft2/src/lib.rs:603-616 | in every reachable state, no server voted for two in a term if and only if none voted for another in a term it ran in itself |
| RaftElectionRuns.DeliveryKeepsOneBallotIff | raft2/src/lib.rs:553-623 | delivering a vote request keeps that rule if and only if the receiver does not grant it in a term it has run in |
| RaftElectionRuns.RunKeepsOneBallotIff | raft2/src/lib.rs:553-623 | at the end of any run no server has voted for two in a term if and only if every delivery of the run kept to that guard |
| RaftElectionRuns.QuorumsMeet | raft2/src/lib.rs:405-405 | two majorities share a server |
| RaftElectionRuns.ElectionSafety | raft2/src/lib.rs:338-424 | in a reachable state in which no server voted for two in a term, all wins of a term are of one server |
| RaftElectionRuns.HonestRunsElectOnce | raft2/src/lib.rs:338-424 | in every run, with crashes and restarts, in which no server votes for another in a term it ran in, no two servers ever win the same term |
| RaftElectionRuns.LeadersAlwaysWon | raft2/src/lib.rs:402-424 | in every run a server that leads has won the election of its present term |
| RaftElectionRuns.OneLeaderPerTerm | raft2/src/lib.rs:338-424 | at the end of such a run no two servers lead the same term |
| RaftElectionRuns.TwoLeaders | raft2/src/lib.rs:343-424 | without the condition a reachable state has two winners of one term |
| RaftElectionRuns.CampaignStandsStill | raft2/src/lib.rs:333-404 | over any run between opening and decision, a server that is still a candidate was one all along, with the same term and log |
| RaftElectionRuns.CountedVotesAreCurrent | raft2/src/lib.rs:345-383 | every vote a candidate has counted answered a request with its present term, last index and last term |
| RaftRounds.RoundsAlwaysOk | raft2/src/lib.rs:176-317 | in every run: every acknowledgement of an uninterrupted round stands for a server that took the append in the round's term, each server takes a round's append once, and appends come before votes of later terms |
| RaftRounds.BallotsAlwaysMetRule | raft2/src/lib.rs:581-616 | every vote of every run was cast for a candidate whose last entry was newer or whose log was at least as long as the voter's then |
| RaftRounds.QuorumWitness | raft2/src/lib.rs:304-309 | any uninterrupted commit and any win of a later term share a server that took the append before it voted, and at that vote the winner's last entry was newer or its log at least as long |
| RaftStable.AcceptHolds | raft2/src/lib.rs:521-544 | what a follower accepts leaves its log with the leader's log, as of the sending, as prefix |
| RaftStable.DeliverKeepsView | raft2/src/lib.rs:500-551 | a delivery, accepted or refused, keeps everything the leader and that follower agree on |
| RaftStable.DeliverAdvances | raft2/src/lib.rs:500-551 | a delivery lowers neither the accepted length nor the commit index |
| RaftStable.SendKeepsView | raft2/src/lib.rs:228-255 | a request is always a piece of the leader's log up to its end |
| RaftStableRuns.StepKeepsSystemOk | raft2/src/lib.rs:207-296 | every step of leader, network and followers keeps the invariant of one leader's term |
| RaftStableRuns.StableRefinement | raft2/src/lib.rs:207-296 | from its first acceptance on a follower's log begins with the leader's log as of the last accepted message, and what it reports as committed is a prefix of the leader's log |
| RaftStableRuns.CommitIndexNeverFalls | raft2/src/lib.rs:545-547 | a follower's commit index never falls while it is not restarted |
| RaftStableRuns.RunAdvances | raft2/src/lib.rs:194-205 | over any run the leader's log only grows, commits stay, and accepted lengths never shrink |
| RaftStableRuns.CommittedMeansHeld | raft2/src/lib.rs:302-311 | at any point of a run from the start, what was committed rests on a majority whose logs begin with it, then and at the end of every continuation |
| RaftStableRuns.LeaderCommitIsBacked | raft2/src/lib.rs:302-311 | a leader's commit index, unless still the first one, is that of such a commit |
| RaftOverlap.ReachesAlwaysOk | raft2/src/lib.rs:228-255 | in every run a request of a round ends where the owner's log ended when it was built, and so does what its receiver took |
| RaftOverlap.CommitWithinQuorumIff | raft2/src/lib.rs:302-311 | each server an uninterrupted round counts once took an append of the round that reaches as far as what the round commits, if and only if the leader's log has not grown since the requests to them were built; whether they hold it is the matter of `GuardedCommitsHeld` |
| RaftCommitGaps.OverlapCommitsTooMuch | raft2/src/lib.rs:193-205 | a run of one leader in which every append that is accepted starts inside what its receiver took and ends no earlier, and after which a round whose log has grown under it may commit uninterrupted what no majority holds |
| RaftCommitGaps.ReorderingCommitsTooMuch | raft2/src/lib.rs:521-544 | a run of one leader whose rounds never overlap, and in which every append that is accepted starts inside what its receiver took, after which a round may commit uninterrupted what no majority holds, although its quorum took it all and the log has not grown |
| RaftCommitGaps.OvertakingCommitsTooMuch | raft2/src/lib.rs:275-287 | a run of one leader in which every append that is accepted ends no earlier than what its receiver took, after which a round may commit uninterrupted what no majority holds, although its quorum took it all and the log has not grown |
| RaftCommitGaps.LostCommitIsUnguarded | raft2/src/lib.rs:302-311 | whenever a run ends in that way and the log has not grown, some delivery of it broke the guard |
| RaftCommitGaps.AllConditionsGuard | raft2/src/lib.rs:521-544 | a step that keeps to the conditions of such a run whichever one is dropped is a step of a guarded run |
| RaftInterrupted.EndOfRoundReportsIff | raft2/src/lib.rs:302-311 | the end of a round makes its server report its whole log as committed if and only if a majority was counted, and report more than before if and only if it also had not committed all; leading or not makes no difference |
| RaftInterrupted.InterruptedRoundReports | raft2/src/lib.rs:207-311 | over any run in which the owner of a round never leads and does not crash, when the round has come to every server its end makes the owner report its whole log as committed if and only if those it had counted, those it had not asked, and those that answered later, whatever they answered, are a majority; otherwise it reports what it did |
| RaftInterrupted.InterruptedRoundCommitsTooMuch | raft2/src/lib.rs:207-311 | a run in which a deposed leader's round has counted everybody without sending anything, and its end makes the server report an entry that it alone holds as committed |
| RaftGuardedRuns.TakingFits | raft2/src/lib.rs:521-544 | an append that keeps to the guard leaves its receiver with all it took from the leader, before and now |
| RaftGuardedRuns.DeliveryHoldsIff | raft2/src/lib.rs:521-544 | in any state of a guarded run, a server that accepts an append of the leader still holds what it took and what it was sent if and only if it had the leader's log up to the previous index and the append ends no earlier than what it took, or repeats what comes behind; for an append that starts inside what it took that is the guard |
| RaftGuardedRuns.CountedTookAll | raft2/src/lib.rs:302-311 | every server that a committing round of the leader counts has taken all of the leader's log when the log has not grown since the requests were built |
| RaftGuardedRuns.GuardedRunFits | raft2/src/lib.rs:176-623 | every step of every guarded run keeps what leader, followers, messages and commits have to do with each other |
| RaftGuardedRuns.GuardedCommitsHeld | raft2/src/lib.rs:302-311 | in every guarded run of one leader, overlapping rounds and appends in any order included, each commit rests on a majority whose logs begin with all that was committed, and each accepted append is still held |
| RaftGuardedReports.GuardedReportsHold | raft2/src/lib.rs:545-547 | in every guarded run that starts with commit indices inside the leader's log, older rounds leaving them where they are, what a server reports as committed is a prefix of the leader's log from its first accepted append on, and as long as its commit index says |
| RaftGuardedReports.GuardedCommitIndexNeverFalls | raft2/src/lib.rs:307-309 | in such a run no commit index falls, the leader's included, while its server is not restarted |
| RaftInTimeRuns.InTimeLeaderRun | raft2/src/lib.rs:275-287 | when the leader counts each success before its log has grown, a run is guarded as soon as no server takes an append that ends earlier than what it took |
| RaftInTimeRuns.SequentialLeaderRun | raft2/src/lib.rs:182-205 | when rounds do not overlap, that order of appends alone makes a run guarded |
| RaftLeaderRuns.TakeoverStarts | raft2/src/lib.rs:408-424 | every reachable state of the cluster in which a server leads, and the followers meet the hypotheses, is a start of one leader's term |
| RaftLeaderRuns.OrderlyRunIsMirrored | raft2/src/lib.rs:176-623 | every orderly run of the cluster, rounds open from before included, is mirrored, step by step and lost messages included, by a run of the leader's term with the same servers, rounds, messages, accepted appends and commits |
| RaftLeaderRuns.ClusterRefinement | raft2/src/lib.rs:207-296 | in such a run of the cluster the log of a server begins with the leader's log as of any append of the leader it accepted, and what it reports as committed is a prefix of the leader's log |
| RaftLeaderRuns.ClusterCommitsHeld | raft2/src/lib.rs:302-311 | in such a run every commit of the leader's rounds rests on a majority of servers whose logs begin, at the end of the run, with all that was committed |
| RaftLeaderRuns.ClusterCommitIndexNeverFalls | raft2/src/lib.rs:545-547 | in such a run no commit index falls, the leader's included, while its server is not restarted |
| RingLinks.JoinKeepsRing | ring-rs/src/main.rs:43-74 | a join makes one ring of the members and the newcomer, right behind the server it asked, with next the inverse of prev |
| RingLinks.RollbackIff | ring-rs/src/main.rs:64-74 | a failed join leaves the ring as it was if and only if the call to the old prev had no effect |
| RingLinks.LostReplyBreaksRing | ring-rs/src/main.rs:411-432 | a join whose reply does not reach the newcomer leaves no ring, neither with it nor without it |
| RingLinks.LeaveKeepsRing | ring-rs/src/main.rs:389-406 | a leave makes one ring of the others in the same order |
| RingLinks.LeaveClosesIff | ring-rs/src/main.rs:389-406 | the ring closes behind a leaver if and only if both neighbours were reached |
| RingHalves.LeaveMoves | ring-rs/src/main.rs:389-406 | each of the two calls of a leave that arrives moves the one pointer it is about, whatever became of the other call, and no other pointer moves |
| RingHalves.LeaveClosesHalvesIff | ring-rs/src/main.rs:389-406 | behind a leaver the prev pointers of the others form a ring if and only if the next neighbour was told, and the next pointers if and only if the prev neighbour was told, each whatever became of the other |
| RingHalves.FailedJoinMoves | ring-rs/src/main.rs:64-74 | after a failed join every prev pointer is what it was, and of the next pointers only that of the old prev has moved, if the call took effect |
| RingHalves.FailedJoinHalves | ring-rs/src/main.rs:64-74 | so the prev pointers form the ring after any failed join, and the next pointers if and only if the call had no effect |
| RingHalves.HalfJoinMoves | ring-rs/src/main.rs:411-432 | when a newcomer does not hear that it was let in, the asked server's prev and the old prev's next point at it, and no other pointer has moved, its own included |
| RingHalves.HalfJoinHalves | ring-rs/src/main.rs:411-432 | then neither the prev nor the next pointers form a ring, with it or without it |
| RingLinks.ChangesKeepRing | ring-rs/src/main.rs:43-74 | any sequence of joins, failed joins and leaves that do not overlap ends in one ring of exactly the members |
| RingJoins.JoinsFormRingIff | ring-rs/src/main.rs:43-74 | any number of joins that ask members of the ring, interleaved in any way, end in one ring of members and newcomers if and only if every swap found the prev that was read before it and every call went to a server that was not itself waiting for its reply |
| RingJoins.GuardedJoinsFormRing | ring-rs/src/main.rs:411-432 | under these two conditions, and when also newcomers that have joined are asked, the ring has each newcomer right behind the server it asked, in the order of the swaps |
| RingJoins.ApartJoinsFormRing | ring-rs/src/main.rs:64-74 | joins that overlap end in one ring when no two of them are under way at one server and nobody asks a server that is still joining |
| RingJoins.OverlapBreaksRing | ring-rs/src/main.rs:64-74 | two newcomers ask one server of a ring of two, the first hears its reply last, and it is in no ring then |
| RingLinks.AloneIsRing | ring-rs/src/main.rs:363-366 | a server starts as a ring of its own |
| RingOrder.BehindRotation | ring-rs/src/main.rs:208-219 | whom the repair tries does not depend on where the cached ring is written down from |
| RingOrder.FirstSurvivor | ring-rs/src/main.rs:217-234 | the first survivor behind a survivor is the next one in the ring of survivors |
| RingRepair.RepairRestoresRingIff | ring-rs/src/main.rs:202-237 | after any crashes and any interleaved repairs without lost answers, in any order and number, the survivors form one ring in the order they had, next inverse to prev, if and only if every survivor whose prev died has finished a repair |
| RingRepair.CacheDoesNotMatter | ring-rs/src/main.rs:207-234 | a repair finds the same server from any rotation of the ring in the cache |
| RingRepair.LostAnswerMissesIff | ring-rs/src/main.rs:217-234 | with answers lost a repair settles on the right server if and only if that server's answer arrives |
| RingRepair.MissedRepairBreaksRing | ring-rs/src/main.rs:217-234 | a survivor that settled on another server is in no ring of the survivors |
| RingSearches.RetriesRestoreRing | ring-rs/src/main.rs:202-237 | whatever answers were lost, once every survivor has repaired again without loss the survivors form the ring; searches from before may go on meanwhile if they have passed over nobody alive, as when all of them have ended |
| RingSearches.OwnRetryIsNotEnough | ring-rs/src/main.rs:217-234 | a later repair without loss by the same server does not undo that it told a wrong one: the survivors form no ring until another server tells that one |
| RingSearches.SearchesRestoreRingIff | ring-rs/src/main.rs:202-237 | after any crashes and any interleaved searches with answers lost anywhere, the survivors form one ring in the order they had if and only if each settled last on the server it should find and was told last by the one that should find it |
| RingSearchRuns.OwnRetryFails | ring-rs/src/main.rs:217-234 | a run of four servers in which a search loses an answer and tells a wrong one, the same server then finds the right one without loss, and the survivors form no ring |
| RingSearchRuns.SearchIsRun | ring-rs/src/main.rs:202-237 | the whole search of a server in one piece, as its object makes it, is a run of the looks, tries and choices that others may come between, with the same pointers at its end |
| RingTokens.StepKeepsOk | ring-rs/src/main.rs:297-345 | every delivery and every start keeps: lists are arcs of the ring that end before the receiver, and flags and caches of servers already told are right |
| RingTokens.DecidesOnce | ring/ring.c:654-656 | a server of the C version that closed an election decides on its list once |
| RingTokens.CoordinateCarriesRing | ring-rs/src/main.rs:98-151 | under any interleaving of any number of elections every coordinate message carries exactly the members, each once |
| RingTokens.Agreement | ring-rs/src/main.rs:318-332 | once a coordinate message has gone around, a server is coordinator if and only if its address is the least, whatever the flags were before and whatever else is on the way; with the C version also when a server that closed an election decides late |
| RingTokens.WalkCosts | ring-rs/src/main.rs:318-345 | an election on a ring of n costs at most n deliveries of each kind, and exactly n of each when finished; a list round costs n |
| RingTokens.ListRoundIsComplete | ring-rs/src/main.rs:297-316 | a finished list round has listed the whole ring once, in prev order, and every cache is such a list |
| RingTokens.DeliveriesRunOut | ring-rs/src/main.rs:98-174 | every delivery brings its walk one step nearer to its end, and a walk is at its end if and only if none is left |
| RingResigns.CoordinatorStaysIff | ring-rs/src/main.rs:76-96 | over any interleaving of list rounds without elections, a server is coordinator if and only if it was at the start and no round, under way or over, has listed it behind a lesser server |
| RingResigns.GreaterCoordinatorsResign | ring-rs/src/main.rs:297-316 | once a list round of a server has come around no server with a greater address is coordinator, so of two coordinators the greater one has resigned |
| RingResigns.LeastNeverResigns | ring-rs/src/main.rs:76-96 | the least server of the ring keeps its flag through any list rounds |
| RingResigns.ListsChangeNobodyInC | ring/ring.c:689-749 | in the C version list rounds change nobody's flag, in any interleaving without elections |
| RingWander.ElectionEnds | ring-rs/src/main.rs:98-151 | on pointers that lead anywhere and change at every hop, an election over N servers causes at most N election and N coordinate deliveries, its lists never repeat a server, and after 2N deliveries it is over |
| RingCycle.RoundPreparesRepair | ring-rs/src/main.rs:153-174 | after a finished list round the caches meet what the repair needs for every set of survivors |
| RingCycle.RepairedIsAtRest | ring-rs/src/main.rs:202-237 | when every survivor with a dead prev has finished its repair the survivors are a ring in which rounds and elections may start, whatever their flags and caches hold |
| RingCycle.NextRoundListsSurvivors | ring-rs/src/main.rs:202-237 | after crashes and repair, with no ring assumed, the next finished list round lists exactly the survivors, once each, in the order they had, and caches that list everywhere |
| RingServer.Node.OnElection | ring-rs/src/main.rs:333-345 | the message and receiver are those of the walk: the server adds itself, or starts the coordinate round with the list |
| RingServer.Node.OnCoordinate | ring-rs/src/main.rs:318-332 | the flag says whether no member is less, and the message goes on until it comes back |
| RingServer.Node.OnList | ring-rs/src/main.rs:297-316 | a coordinator that sees a lesser address resigns; the list goes on, or is announced when it comes back |
| RingServer.Node.OnAnnounce | ring-rs/src/main.rs:347-355 | the cache is the announced list |
| RingServer.Node.SetNext | ring-rs/src/main.rs:246-263 | next is the address, prev stays |
| RingServer.Node.SetPrev | ring-rs/src/main.rs:265-282 | prev is the address, next stays |
| RingServer.Network.CallSetNext | ring-rs/src/main.rs:176-187 | a call takes effect if and only if the receiver is up, and succeeds only if its answer arrives |
| RingServer.Network.CallSetPrev | ring-rs/src/main.rs:189-200 | the same for prev |
| RingServer.Network.JoinImpl | ring-rs/src/main.rs:43-74 | the pointers of all servers after letting a newcomer in, or after the rollback |
| RingServer.Network.JoinRing | ring-rs/src/main.rs:411-432 | the pointers of all servers after a join from the newcomer's side: joined, refused, or admitted with the reply lost |
| RingServer.Network.LeaveRing | ring-rs/src/main.rs:389-406 | the pointers of all servers after a leave, for each set of neighbours that are up |
| RingServer.Network.RecoveryPrev | ring-rs/src/main.rs:202-237 | the loop tells the members behind the server in its cache one after the other, itself last, until one answers, and settles on that one; members that are up and whose answer is lost are told all the same; without the server in its cache nothing changes; when all answers arrive only the first reachable member is told |
| RingServer.SearchOrder | ring-rs/src/main.rs:217-219 | the index arithmetic of the search tries the members behind the server in ring order, itself last |
| CRing.PushName | ring/ring.c:439-453 | the copy loop yields a new list with the name at its end |
| CRing.IncludesName | ring/ring.c:473-487 | the loop decides membership |
| CRing.CheckAmICoordinator | ring/ring.c:489-502 | the loop decides whether no name is less |
| CRing.Node.OnElection | ring/ring.c:625-687 | the server closes the election and sends the coordinate message if and only if it is on the list, and passes the list on otherwise |
| CRing.Node.Decide | ring/ring.c:654-656 | the server that closed an election decides for itself, after the message was sent, whether no name on the list is less |
| CRing.Node.OnCoordinate | ring/ring.c:581-623 | the message and the flag are those of the walk |
| CRing.Node.OnList | ring/ring.c:689-749 | the coordinator is noted as alive, and the list goes on until it comes back |
| CRing.VersionsAgree | ring/ring.c:581-687 | on one ring an election of the C version and one of the Rust version leave the same coordinator after the same number of deliveries |

## Left out

- Election safety without the condition above, and Log Matching, Leader Completeness and State Machine
  Safety for the whole cluster: the vote bookkeeping, the vote rule and the inserting append do not give
  them.
- RaftStableRuns.StableRefinement: appends of leaders of earlier terms and deliveries out of order are
  not part of these runs. In `RaftLeaderRuns` appends of earlier leaders may be on the way, but reach
  only servers that are in a newer term, and in `RaftGuardedRuns` no server accepts one: it could lose
  the agreement with the leader the theorems start from. Order is free in `RaftGuardedRuns`, under its
  guard.
- RaftStableRuns.CommittedMeansHeld: the same; without the guard it is false (`RaftCommitGaps`).
- RaftLeaderRuns.ClusterRefinement: other leaders of older terms begin no rounds during the run, since
  the entries they add may have index and term of entries the leader has, and the leader's own rounds
  from an earlier term neither send nor hear in it. An interrupted round that moves a
  follower's commit index is excluded, since it makes the claim about commit indices false
  (`RaftInterrupted`).
- RaftGuardedRuns.GuardedCommitsHeld: other leaders of older terms begin no rounds, as before. The guard
  is sufficient for whole runs, and exact for one delivery (`DeliveryHoldsIff`) only: what an unguarded
  append broke, a later append may mend.
- RaftStableRuns.CommitIndexNeverFalls: a restart sets the commit index back to 0, as the code does, so
  the statement is for runs in which that follower does not restart.
- RaftServer.Server.SavePersistent: failing or partial writes and a lost file are not modelled.
- RaftServer.Server.FinishRound: only the commit is modelled; the result that goes to the client is the
  returned value.
- RingServer.Network.JoinRing: one call at a time; `RingJoins` has joins that overlap, but no leaves
  and no joins whose call or reply fails while others are under way.
- RingJoins.JoinsFormRingIff: for newcomers that ask members only; a newcomer that asks another one later
  may mend a call that came too early.
- RingTokens.Agreement: on a fixed ring without loss; with changing pointers only `ElectionEnds` holds.
- RingTokens.ListRoundIsComplete: the announcement calls the members one after the other, as one walk.
- Timers, random back-off, heartbeat periods and their cancellation: any enabled step may come next.
- Transport, JSON, address parsing, tracing, command line and web routes.
- Integer widths: terms and indices are unbounded.
- Memory management, locks, signals, and join and leave of the C version.
- `distfs`, `ip-sd` and `intro`.
