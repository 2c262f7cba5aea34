# Verification of the Raft manager

The manager processes of the monitoring system keep a replicated log with a hand-written
Raft (`server/raft_node.cpp`) and apply its committed commands to a table of worker nodes
(`server/state_machine.cpp`). This project models both and proves what the protocol is
for, over every run of a cluster of any size.

`dafny verify dfyconfig.toml` checks all of it.

## How it is built

- `Commands`, `RaftTypes`: commands and the worker table, node records, messages.
- `StateMachine`, `RaftNode`: the two C++ classes as Dafny classes whose methods update
  their fields step by step, loops included. Each method is proved to compute a function
  of `Handlers` (or `Commands.ApplyCommand`) of the old state, and a node's table is
  always the replay of the entries it has applied.
- `Cluster`: a whole cluster as a step system over those functions. Timers may fire at any
  moment; messages may be lost, delayed, reordered and repeated; a request handler that gives
  the mutex up goes on at any later moment, and until then its node handles no other request
  (`Busy`), because the server runs its handlers one at a time. Four history fields (the logs
  leaders had, first votes, elections, acknowledgements) serve the proofs only.
- `VoteAnswers`, `AppendAnswers`: what each handler answers and leaves behind, case by case,
  in terms of logs, indices and sets of nodes; `Commands` has the same for each command. They
  say what the functions of `Handlers` compute without naming their parts, and with the
  numbers of the source.
- `Invariants`: what holds in reachable states. `Voting` is about votes and leaders alone
  and holds in every cluster (`VoteSteps`, `VoteRuns`, `Gaps`). `Base` adds logs and
  replication, `Committing` the commit indices (`Growth`, `Persistence`, `LogSteps`,
  `CrownMerge`, `BaseSteps`, `Elections`, `Replication`, `Steps`, `CommitSteps`, `Runs`).
- `ElectionResults`, `InBounds`, `LockGap`: results for all runs of all clusters.
- `Safety`, `Acknowledged`, `Replicas`, `Convergence`: results for all timely runs, those in
  which no handler goes on late (`IsTimelyRun`, see below).
- `Scenario`, `Phases`: pieces of runs, from any state. `Availability` builds with them the run
  in which a quorum goes on alone, `DoubleVotes` one in which a node votes twice in a term,
  `LargeClusters`, `Divergence`, `LateResume` and `Stuck` those in which guarantees fail. `Guarantees` states each guarantee over all runs or over the timely ones;
  `Exactness` says for which clusters it holds, both directions.

A configuration has two flags, each a repair of the code: `leaderOnlyScan` (the commit scan
looks at the role) and `rechecksTerm` (onAppendEntries compares the terms again when it has
the mutex back). Both are false for the code as written.

The model keeps the places where the code departs from the Raft paper (Ongaro and
Ousterhout, extended version): a vote is cleared without a change of term, the follower
clamps its commit index to its last log index, `matchIndex` is overwritten by late
replies, the commit scan does not look at the role, requests carry at most five entries,
and `becomeFollower` gives the mutex up in the middle of a handler.

## What was found

A handler *goes on late* (`Late`) if it is an onAppendEntries that gave the mutex up, its
node's term has moved on in the meantime, and the code does not compare the terms again. A
run is timely if this never happens: with `rechecksTerm`, or with one or two members, every
run is (`VoteRuns.SafeRunIsTimely`).

1. **The code as written** (`Exactness.AsWritten`). Over the timely runs, clusters of up to
   four members, and so the shipped one of three, have all the guarantees. Over all runs only
   clusters of one or two members have them, and larger ones have none. In general
   (`Exactness.SafeExactlyWhen`, `Exactness.LogsSafeExactlyWhen`):
   - State Machine Safety, Leader Completeness, that no committed entry is lost, that what is
     applied is the log's beginning, and that tables agree hold if and only if no handler
     goes on late and the scan is safe (`ScanIsSafe`: it looks at the role, or there are at
     most four members).
   - Log Matching, Leader Append-Only, the soundness of nextIndex and matchIndex, and
     convergence hold if and only if no handler goes on late.
   - Election Safety and all else about votes holds always.
2. **The commit scan without a role check.** A follower that once led scans with left-over
   `matchIndex` values (lines 636 and 1026-1050). That does no harm in clusters of up to
   four members, because a follower holding an entry of its term and that term's leader
   meet every majority. From five members on there is a timely run in which two nodes apply
   different entries at one index (`Divergence.CommitsDiverge`), and one in which a committed
   entry is overwritten (`Divergence.CommitIsOverwritten`).
3. **The gap in onAppendEntries.** A leader that steps down on an AppendEntries of a later
   term lets go of the mutex (lines 270-276) and then goes on with the request, without
   comparing the terms again. While its term is still the request's this is the same as
   handling the request afresh (`LockGap.SameTermResume`). In the gap the node handles no
   other request, but its timers, its clients and the replies to its own calls go on: from
   three members on it can be elected again, commit and apply an entry, and lose it when the
   handler goes on (`LateResume.LeaderLosesEntry`). With one or two members no handler ever
   waits there (`VoteRuns.RunNoneWaits`).
4. **The gap in onRequestVote** is harmless: a vote granted after the term has moved on is
   never counted (`ElectionResults.LateGrantNotCounted`).
5. **A vote for oneself and one for the winner.** Stepping down empties the vote even when
   the term stays (line 261, reached from line 546). So a beaten candidate may vote again in
   the term it stood in. That happens exactly in clusters of three or more
   (`DoubleVotes.TwoVotesExactlyWhen`), and it is harmless: the second vote can only go to
   another node, and stays there (`ElectionResults.VoteHistory`, `ElectionResults.ElectionSafety`).
6. **No reachable state is stuck.** Any quorum of nodes without an unfinished handler can go on
   alone: one of them leads the others, at once or after an election, takes a command, and all
   of them commit and apply it (`Availability.QuorumServes`).
7. **Dead code.** The "SPLIT BRAIN" branch is unreachable
   (`ElectionResults.SplitBrainUnreachable`), and so is the branch that decrements
   `nextIndex` by one (`ElectionResults.RefusalCarriesIndex`).

In the table below, what `Safety`, `Acknowledged`, `Replicas` and `Convergence` say is about
timely runs, and where committed or applied entries are concerned about safe scans.

## Model

| member | source | states |
|---|---|---|
| Exactness.SafeExactlyWhen | server/raft_node.cpp:1021-1064 | over all runs or over the timely ones: State Machine Safety, Leader Completeness, that no committed entry is lost, that what is applied is the log's beginning, and that tables agree all hold if the scan is safe and no handler goes on late, and otherwise none of them does |
| Exactness.LogsSafeExactlyWhen | server/raft_node.cpp:574-622 | likewise, Log Matching, Leader Append-Only, the soundness of nextIndex and of matchIndex, and convergence after exactly the number of round trips needed all hold if no handler goes on late, whatever the scan, and otherwise none of them does |
| Exactness.AsWritten | server/raft_node.cpp:268-276 | the code as written has all ten guarantees over its timely runs with at most four members (from five on those about logs only), over all runs with one or two members, and none of them over all runs with more |
| Exactness.ResumeExactlyWhen | server/raft_node.cpp:574-643 | without a second look at the term, no onAppendEntries that goes on after the gap ever loses a committed entry of its node if and only if there are at most two members |
| Exactness.LateResumeLosesCommitted | server/raft_node.cpp:574-643 | from three members on, a reachable state in which a handler going on in a later term replaces an entry that its node has committed and applied |
| LateResume.LeaderLosesEntry | server/raft_node.cpp:574-622 | the same while the node leads its term, having handled no other request since its handler gave the mutex up: the leader's log loses the entry |
| LateResume.BAppliesGone | server/raft_node.cpp:624-638 | and later another node commits and applies the replacement, where the leader had applied the lost entry |
| LateResume.LogsFork | server/raft_node.cpp:583-622 | and two logs come to hold the same term at one index after different entries |
| LateResume.IndicesPastLog | server/raft_node.cpp:744-750 | and the leader's nextIndex and matchIndex for a follower point past its log |
| Stuck.NeverInLine | server/raft_node.cpp:691-750 | and after any number of round trips a follower's log still starts with another entry than its leader's, every request being accepted |
| VoteRuns.SafeRunIsTimely | server/raft_node.cpp:536-546 | with a second look at the term, or with one or two members, no run has a handler go on late |
| Gaps.ResumeFrees | common/rpc.cpp:111-123 | a handler that goes on is the only unfinished one of its node, which is then free to handle requests again |
| Divergence.CommitsDiverge | server/raft_node.cpp:1025-1050 | from five members on, without the role check, a state reached by a timely run in which a follower has committed and applied left-over entries and a later leader has applied others |
| Divergence.CommitIsOverwritten | server/raft_node.cpp:599-638 | and one whose next step replaces what a node has committed and applied |
| Safety.StateMachineSafety | server/raft_node.cpp:1021-1064 | what any two nodes have applied, at any two moments of a run, is one a prefix of the other |
| Safety.CommitsAgree | server/raft_node.cpp:624-638 | the same for what any two nodes have committed |
| Safety.LeaderCompleteness | server/raft_node.cpp:484-502 | whatever a node has committed in some term is in the log of every leader of a later term, elected before or after |
| CommitSteps.CommittedInLaterLeader | server/raft_node.cpp:484-502 | entries stored by enough nodes while their leader's term lasted are at the same indices in every later leader's log |
| CommitSteps.LeaderScanCommits | server/raft_node.cpp:1026-1045 | what a leader's scan accepts is stored on a set of nodes that meets every quorum |
| CommitSteps.FollowerScanCommits | server/raft_node.cpp:1026-1045 | with at most four members, an entry of a follower's own term is always stored on such a set |
| Safety.ClampFollowsSender | server/raft_node.cpp:624-633 | when a request raises commitIndex, the log up to it is part of the log of the request's sender |
| CommitSteps.ClampIsSafe | server/raft_node.cpp:631 | after the merge, the log up to the clamped index is part of what the sender had committed |
| Safety.CommitFollowsLeader | server/raft_node.cpp:624-638 | what a node has committed is part of the log of every leader of its term or a later one |
| Safety.CommittedNeverLost | server/raft_node.cpp:599-638 | commitIndex never falls, committed entries are never truncated or replaced, applied ones never undone |
| Safety.AppliedInOrder | server/raft_node.cpp:1053-1064 | lastApplied <= commitIndex < log size, and the entries applied are the log's beginning, each once and in order |
| InBounds.NoReadOutsideLog | server/raft_node.cpp:1053-1064 | no timer, client or message ever makes a handler of any cluster read outside its log |
| InBounds.ReachableSettled | server/raft_node.cpp:624-638 | in every reachable state of every cluster whatever is committed has been applied |
| Safety.LogMatching | server/raft_node.cpp:583-622 | logs that hold the same term at one index, at any two moments of a run, are identical up to it |
| Safety.LeaderAppendOnly | server/raft_node.cpp:430-434 | while its term lasts a leader stays leader and its log only grows |
| ElectionResults.SplitBrainUnreachable | server/raft_node.cpp:548-566 | no AppendEntries reaches a leader of the same term |
| ElectionResults.ElectionSafety | server/raft_node.cpp:291-374 | no term ever has two leaders, at one moment or at two, for every cluster |
| ElectionResults.VoteHistory | server/raft_node.cpp:254-266 | over a whole run, within one term, a node's vote passes through its own id, none and one other id in this order only, each at most once: a vote once given to another node stays |
| ElectionResults.VoteTransition | server/raft_node.cpp:484-502 | a step within a term keeps the vote, casts a free one for another node, or gives a candidate its own vote back when it recognises another leader of the term |
| Availability.QuorumServes | server/raft_node.cpp:254-1064 | from every state of a timely run, for every quorum whose request handlers are all finished, there is a continuation in which no other node changes: one of the quorum leads, its log gains the given command, and every node of the quorum holds that whole log and has committed and applied it |
| Availability.QuorumElects | server/raft_node.cpp:291-374 | if none of such a quorum leads, one of it can be elected in a term new to all of them: its log is at least as good as each of theirs, and each has voted for it and is otherwise as before |
| Availability.SomeNodeIsElectable | server/raft_node.cpp:484-502 | in every state, among any nodes there is one to which each of them that has not reached the term asked about grants its vote |
| Availability.Confirmed | server/raft_node.cpp:624-638 | one more round trip tells a follower that holds the leader's log that all of it is committed, and changes nothing at the leader |
| DoubleVotes.TwoVotesExactlyWhen | server/raft_node.cpp:254-266 | some run has a node vote for two different nodes in one term if and only if the cluster has three members or more |
| DoubleVotes.TwiceInThree | server/raft_node.cpp:540-546 | the run: a candidate votes for itself, recognises the winner of its term, and then grants the winner's own request of that term |
| DoubleVotes.OnceInTwo | server/raft_node.cpp:254-266 | with one or two members no node ever votes for two in a term |
| ElectionResults.OnlyLeadersWait | server/raft_node.cpp:254-277 | in every reachable state of every cluster, a handler that has given the mutex up belongs to a node that led a term before its request's; for onAppendEntries it led the very term that a refusal will carry |
| ElectionResults.OwnVoteLostExactlyWhen | server/raft_node.cpp:540-546 | while its term lasts a node loses the vote it has cast for itself exactly in the step in which, as a candidate, it handles an AppendEntries of that term |
| VoteRuns.NextVoting | server/raft_node.cpp:254-1064 | every step of every cluster, late resumes included, keeps the invariant on votes, ballots and leaders, and takes no reign away |
| VoteRuns.NoLaterRequest | server/raft_node.cpp:536-546 | with one or two members no AppendEntries request is of a later term than its receiver's, so that no handler waits in the gap |
| ElectionResults.LateGrantNotCounted | server/raft_node.cpp:478-502 | every grant that is counted was decided in the term of its election, although the handler may give the mutex up |
| ElectionResults.VoteCounterIsSet | server/raft_node.cpp:303-374 | the vote counter is one more than the number of peers counted; each sent a grant in the election's own term, for its call by this candidate, which has returned |
| ElectionResults.VoteDecides | server/raft_node.cpp:366-374 | a counted grant is from a peer not counted before and joins those counted; it makes a leader exactly if candidate and counted peers are a quorum |
| ElectionResults.AnyTwoQuorumsMeet | server/raft_node.cpp:304 | two sets of the size needed share a member, for every cluster size |
| Steps.NextBase | server/raft_node.cpp:254-1064 | every step but a late one keeps the invariant on logs, votes, messages and leaders' indices, and lets leaders' logs and acknowledgements only grow |
| CommitSteps.NextCommitting | server/raft_node.cpp:624-638 | with a safe scan, every such step keeps the commit indices within what was committed in the node's term or earlier |
| ElectionResults.RefusalCarriesIndex | server/raft_node.cpp:761-775 | a refusal that a leader acts on carries a conflict index, and it is before the request's first entry |
| Acknowledged.MatchIndexSound | server/raft_node.cpp:744-750 | if a leader has matchIndex[q] >= n, then at some moment q was in the leader's term with the leader's entries 0..n, although late replies may lower the value |
| Acknowledged.AckWitness | server/raft_node.cpp:599-622 | what counts as stored of a leader's log was at some moment the start of the node's log, in the leader's term |
| Acknowledged.NextIndexInLog | server/raft_node.cpp:399-408 | a leader tracks exactly its peers, and nextIndex stays within 0..log size |
| Convergence.LeaderCatchesUp | server/raft_node.cpp:691-775 | with n entries in a leader's log, nextIndex x, and f entries in a follower's log, d of them shared, a sequence of round trips of a heartbeat, its handling and its reply brings the follower's first n entries in line and nextIndex to n if and only if it has at least r + ceil((n - min(x,d))/5) of them, where r = 0 if x <= d, x-d if d < x <= f, and 1+f-d if x > f |
| Convergence.TripsExist | server/raft_node.cpp:652-776 | while no handler of the follower waits there are such sequences of any length: no round trip is blocked |
| Convergence.Converges | server/raft_node.cpp:583-597 | the same exact number for any two nodes whose logs match, and they stay in line afterwards |
| Convergence.AcceptedIff | server/raft_node.cpp:584-597 | a request is accepted exactly if nextIndex lies within the shared entries |
| Convergence.Refused | server/raft_node.cpp:592 | a refusal moves nextIndex x to min(x-1, the follower's log size), never before the end of the shared entries, and changes neither log |
| Convergence.AcceptedExchange | server/raft_node.cpp:697-705 | an accepted request moves nextIndex on by five or to the end, and the follower then shares that much |
| Replicas.ReplicasAgree | server/state_machine.cpp:7-86 | nodes that have applied equally many entries have the same keys and records up to last_seen, whatever their clocks read |
| Replicas.TablesAgree | server/raft_node.cpp:1053-1064 | a node's table is what any node further ahead had when it had applied as much |
| Commands.HeartbeatLeaves | server/state_machine.cpp:48-59 | a heartbeat leaves a record of the worker, known before or not, with status "active" and last_seen the clock; its other fields are the old or the default ones and no other record changes |
| Commands.SetStatusLeaves | server/state_machine.cpp:158-163 | likewise with the given status |
| Commands.UpdateNodeLeaves | server/state_machine.cpp:88-142 | UPDATE_NODE leaves a record, known before or not: each field as given, else the old or default one, last_seen as given, else the clock; no other record changes |
| Commands.RemoveNodeLeaves | server/state_machine.cpp:144-156 | REMOVE_NODE leaves no record of the worker and all others |
| Commands.LegacySetLeaves | server/state_machine.cpp:65-85 | "SET key value" leaves a record of defaults with that status and the clock; no other record changes |
| Commands.IncompleteIsIgnored | server/state_machine.cpp:13-64 | commands without an action, or without what their action needs, change nothing |
| Commands.LastCommandDecides | server/state_machine.cpp:7-86 | in the table that a sequence of commands builds, a worker's record, or its absence, is what the last command naming the worker left there |
| Commands.LastHeartbeatShows | server/state_machine.cpp:48-59 | so a worker whose last command was a heartbeat is active as of that command's clock reading, and one whose last command removed it is absent |
| Commands.ReplaySameUpToClock | server/state_machine.cpp:7-86 | the fold of commands does not depend on the clock except in last_seen |
| LockGap.SameTermResume | server/raft_node.cpp:270-276 | if the term is still the request's after the gap, the rest of onAppendEntries does to its node and its sender what handling the request afresh would |
| LockGap.RefusalTermIsIgnored | server/raft_node.cpp:728-774 | no leader treats two refusals differently that differ in a term no later than its own |
| LogMerge.ConflictOrCovered | server/raft_node.cpp:600-622 | either all received entries are in the log, judged by term, or there is a first one that is not |
| LogMerge.MergeCovered | server/raft_node.cpp:602-611 | in the first case the merge loop leaves the log alone, tail included |
| LogMerge.MergeConflict | server/raft_node.cpp:606-621 | in the second it cuts the log there and appends the remaining entries |
| LogMerge.MergeTwice | server/raft_node.cpp:600-622 | handling the same entries twice is handling them once |
| LogMerge.MergeShorterAfterLonger | server/raft_node.cpp:600-622 | a late request with fewer of the same entries leaves the log unchanged |
| VoteAnswers.VoteGranted | server/raft_node.cpp:456-509 | for a candidate whose log is x: the vote is granted exactly if the request is not stale, the vote is free in its term or the candidate's already, and x ends in a later term than the voter's log or in the same one without being shorter; with the reply, term, role and vote of every case |
| VoteAnswers.OneIsAsGood | server/raft_node.cpp:488-490 | of any two logs at least one is acceptable to the holder of the other |
| VoteAnswers.LongerIsAsGood | server/raft_node.cpp:488-490 | a log that extends the voter's, however far, is acceptable |
| VoteAnswers.CandidateYields | server/raft_node.cpp:540-546 | a candidate that recognises another leader of its term has no vote afterwards, and grants the next request of that very term whose log is good enough |
| VoteAnswers.StepsDown | server/raft_node.cpp:254-266 | stepping down leaves a follower of the given term without a vote, its log, indices and applied entries as they were |
| VoteAnswers.ElectionStarts | server/raft_node.cpp:291-316 | the term is one more, the vote the node's own, the counter at one, the log the same; with peers it is a candidate, alone it leads |
| VoteAnswers.CanvassIs | server/raft_node.cpp:303-340 | the requests sent are exactly one for each peer, with the last index and term of the candidate's log |
| VoteAnswers.VoteReplyAnswered | server/raft_node.cpp:344-375 | a reply of a later term makes the node step down; otherwise only a grant to a candidate for its current term counts, and it leads exactly when more than half of all members have voted for it, with nextIndex at its log's end and matchIndex -1 for every peer |
| AppendAnswers.ScanCommitsAll | server/raft_node.cpp:1025-1050 | for every role: after the scan no index above commitIndex has an entry of the node's term that more than half of the members hold by matchIndex, itself included; commitIndex is the old one or such an index, and nothing else has changed |
| AppendAnswers.CommitsAndApplies | server/raft_node.cpp:1021-1064 | the same of scan and apply loop together, and all entries up to the new commitIndex have been applied in order |
| AppendAnswers.RequestIs | server/raft_node.cpp:691-713 | the request for a peer carries the min(5, log size - nextIndex) entries from nextIndex on, none if it is past the log, with the index and term before them, the node's term and its commitIndex |
| AppendAnswers.RoundIs | server/raft_node.cpp:652-715 | a leader sends exactly one such request to each peer, and no other node sends any |
| AppendAnswers.RoundChanges | server/raft_node.cpp:655-670 | sending changes nothing at the sender unless it has no peers |
| AppendAnswers.LoneElection | server/raft_node.cpp:309-314 | a node without peers that starts an election leads, and has committed and applied what it may |
| AppendAnswers.SubmitAnswered | server/raft_node.cpp:420-454 | only a leader takes the command, at the end of its log in its term; with peers nothing else changes, without peers the whole log is committed and applied at once |
| AppendAnswers.NameOrder | server/raft_node.cpp:555 | identifiers are compared as strings: a proper beginning comes first, else the smaller character where they first differ |
| AppendAnswers.AppendTurnedDown | server/raft_node.cpp:519-567 | a request of an earlier term, or of the term the node leads from one whose identifier is not smaller, is turned down and changes nothing |
| AppendAnswers.AppendRefused | server/raft_node.cpp:583-597 | where the log misses the entry before the request's, the reply names the smaller of prevLogIndex and the log size, and the term from before the request; the node follows in the request's term with its log and indices as they were |
| AppendAnswers.AppendAccepted | server/raft_node.cpp:599-643 | otherwise the entries are merged in, and if leaderCommit is above commitIndex the new one is the smaller of leaderCommit and the last index, or a later one that the scan finds; all up to it is applied |
| AppendAnswers.AppendReplyCounted | server/raft_node.cpp:742-759 | a success with entries sets the peer's matchIndex to the last index sent and nextIndex to the one after it, leaves all others alone, and then every entry of the term that more than half hold by the new matchIndex is committed and applied |
| AppendAnswers.AppendReplyRefused | server/raft_node.cpp:761-775 | a refusal sets the peer's nextIndex to the index it names, or one less if it names none; at 0, and everywhere else, nothing changes |
| AppendAnswers.AppendReplyIgnored | server/raft_node.cpp:728-742 | a reply of a later term makes the node step down; one to a request of another term, or to a node that does not lead, or a success without entries changes nothing |
| Handlers.ScanFrom | server/raft_node.cpp:1025-1050 | the scan ends at the greatest index above commitIndex with an entry of the current term on a majority, or leaves commitIndex alone if there is none |
| RaftNodes.RaftNode.constructor | server/raft_node.hpp:88-106 | the initial field values |
| RaftNodes.RaftNode.CountReplicas | server/raft_node.cpp:1031-1038 | the inner loop counts the node itself and every matchIndex entry that is large enough |
| RaftNodes.RaftNode.Scan | server/raft_node.cpp:1025-1050 | the nested loops compute Handlers.ScanCommit, of which AppendAnswers.ScanCommitsAll says what it commits, and change nothing else |
| RaftNodes.RaftNode.ApplyNext | server/raft_node.cpp:1055-1063 | one turn of the apply loop hands exactly the next entry to the state machine |
| RaftNodes.RaftNode.ApplyEntries | server/raft_node.cpp:1053-1064 | the apply loop hands entries lastApplied+1..commitIndex over in order, and the table stays their replay |
| RaftNodes.RaftNode.ApplyStateMachine | server/raft_node.cpp:1021-1064 | the scan, then the apply loop: the function that AppendAnswers.CommitsAndApplies is about |
| RaftNodes.RaftNode.BuildAppend | server/raft_node.cpp:691-713 | the loop that collects entries builds the request that AppendAnswers.RequestIs describes |
| RaftNodes.RaftNode.SendAppends | server/raft_node.cpp:652-715 | one request for every peer, as AppendAnswers.RoundIs says, and without peers the scan at once |
| RaftNodes.RaftNode.BecomeFollower | server/raft_node.cpp:254-266 | role, term and vote change as VoteAnswers.StepsDown says; log, indices and the table do not |
| RaftNodes.RaftNode.InitLeaderState | server/raft_node.cpp:399-408 | the loop sets every peer's nextIndex to the log size and matchIndex to -1 |
| RaftNodes.RaftNode.BecomeLeaderInternal | server/raft_node.cpp:384-411 | a node that does not lead yet starts to, and sends its first heartbeats |
| RaftNodes.RaftNode.StartElection | server/raft_node.cpp:291-340 | the node's new term, vote and counter, and one RequestVote for every peer; alone, it leads at once |
| RaftNodes.RaftNode.BeginRequestVote | server/raft_node.cpp:456-482 | up to the point where the mutex may be given up: a stale request is refused, a later term steps the node down |
| RaftNodes.RaftNode.DecideVote | server/raft_node.cpp:484-508 | the decision of Handlers.OnRequestVote after the step-down, of which VoteAnswers.VoteGranted says when it is a grant |
| RaftNodes.RaftNode.OnRequestVote | server/raft_node.cpp:456-509 | both parts together compute Handlers.OnRequestVote, whose answer is VoteAnswers.VoteGranted |
| RaftNodes.RaftNode.OnVoteReply | server/raft_node.cpp:344-375 | the callback counts a grant of the running election once and makes the node leader once |
| RaftNodes.RaftNode.SubmitCommand | server/raft_node.cpp:420-454 | a leader appends the command in its term and sends it; others reject it unchanged |
| RaftNodes.RaftNode.MergeEntries | server/raft_node.cpp:599-622 | the loop that erases and pushes computes LogMerge.Merge |
| RaftNodes.RaftNode.RecogniseLeader | server/raft_node.cpp:511-572 | which requests are turned down, and how the node steps down for the others |
| RaftNodes.RaftNode.FinishAppend | server/raft_node.cpp:574-643 | consistency check, merge, clamp and apply, with the reply of each case |
| RaftNodes.RaftNode.OnAppendEntries | server/raft_node.cpp:511-644 | both parts together refine Handlers.OnAppendEntries |
| RaftNodes.RaftNode.OnAppendReply | server/raft_node.cpp:724-776 | the callback updates the indices of the replying peer and scans after a success, backs up after a refusal, steps down for a later term |
| StateMachines.StateMachine.Apply | server/state_machine.cpp:7-86 | the branches and assignments compute Commands.ApplyCommand, whose effect the lemmas named ...Leaves give field by field |
| StateMachines.StateMachine.HandleUpdateNode | server/state_machine.cpp:88-142 | the named record is created if absent and takes over the fields that are present, as Commands.UpdateNodeLeaves says |
| StateMachines.StateMachine.UpdateFields | server/state_machine.cpp:99-139 | each field separately: the given value, else the old one (last_seen: the clock) |
| StateMachines.StateMachine.HandleRemoveNode | server/state_machine.cpp:144-156 | exactly the named record goes, if there is one |
| StateMachines.StateMachine.HandleSetStatus | server/state_machine.cpp:158-163 | status and last_seen of the named record change, the rest of it and of the table do not |

## Assumptions

- Membership is fixed and the same at every node. Identifiers are distinct and not empty,
  and peer specs have the form `id:port`.
- No restarts: the fields called persistent (`server/raft_node.hpp:91-94`) are never
  written to disk, so a node that comes back has lost its term, vote and log.
- A RequestVote call returns at most once, as a call on a socket does. Everything else may
  be delivered any number of times; the failing runs deliver no request or reply twice.
- A node's request handlers run one at a time (`common/rpc.cpp:113-118`).
- The vote counter, which each election shares with its callbacks, is a field of the node:
  replies of earlier elections are discarded before they reach it.
- The clock is a parameter. Terms and indices are mathematical integers.

## Left out

- Sockets, JSON text and timeouts (`common/rpc.cpp`): a failed call is a lost message.
- Timers and random timeouts: any timer may fire at any moment, so what is claimed is that a leader can be elected, not when.
- Recovery after a crash: see the assumptions.
- The mutex release at the end of becomeLeaderInternal and in the reply callbacks: nothing follows it under the mutex.
- submitCommand: its result true means appended, not committed; no durability is claimed for it.
- becomeCandidate and becomeLeader: locking wrappers that nothing calls.
- Malformed JSON and type errors inside apply (among them an UPDATE_NODE that fails half-way): a command is a datatype with optional fields, the legacy SET form, or unrecognised.
- The queries of StateMachine (get, getAll, getActiveNodes, countByStatus and so on): they only read the table.
- Discovery service, worker client, logger, thread pool, RPC registry, status report, argument parsing.
