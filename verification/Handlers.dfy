/**
 What each handler of server/raft_node.cpp computes, as functions on a node's state.
 The class RaftNode is proved to compute them; the cluster takes steps with them.
 */
module Handlers {
  import opened Commands
  import opened RaftTypes
  import opened LogMerge

  /** The apply loop would not read outside the log. */
  predicate InRange(n: Node) {
    -1 <= n.lastApplied && -1 <= n.commitIndex && (n.lastApplied < n.commitIndex ==> n.commitIndex < |n.log|)
  }

  // ----- Roles -----

  function BecomeFollower(n: Node, term: nat): Node {
    n.(role := Follower, currentTerm := term, votedFor := NO_VOTE)
  }

  /** becomeLeaderInternal, with the first heartbeat's effect on the node itself. */
  function BecomeLeader(me: Member, n: Node): Node
    requires InRange(n)
  {
    if n.role == Leader then n
    else
      HeartbeatNode(me, n.(
        role := Leader,
        nextIndex := n.nextIndex + map q | q in me.peers :: |n.log|,
        matchIndex := n.matchIndex + map q | q in me.peers :: -1))
  }

  function StartElection(me: Member, n: Node): Node
    requires InRange(n)
  {
    var c := n.(role := Candidate, currentTerm := n.currentTerm + 1, votedFor := me.id, votes := 1, won := false);
    if 1 >= Majority(me) then BecomeLeader(me, c) else c
  }

  /** The RequestVote messages of the election that `n` has just started. */
  function Canvass(me: Member, n: Node): set<VoteReq> {
    set q | q in me.peers :: VoteReq(n.currentTerm, me.id, q, |n.log| - 1, LastTerm(n.log))
  }

  // ----- Votes -----

  /** The log comparison of section 5.4.1 of the Raft paper. */
  predicate UpToDate(lastLogIndex: int, lastLogTerm: nat, log: Log) {
    || lastLogTerm > LastTerm(log)
    || (lastLogTerm == LastTerm(log) && lastLogIndex >= |log| - 1)
  }

  datatype VoteOutcome = VoteOutcome(node: Node, reply: VoteReply)

  /** onRequestVote after any step-down: lines 484-508. */
  function DecideVote(n: Node, req: VoteReq): VoteOutcome {
    if (n.votedFor == NO_VOTE || n.votedFor == req.candidate) && UpToDate(req.lastLogIndex, req.lastLogTerm, n.log)
    then VoteOutcome(n.(votedFor := req.candidate), VoteReply(req, n.currentTerm, true))
    else VoteOutcome(n, VoteReply(req, n.currentTerm, false))
  }

  function OnRequestVote(n: Node, req: VoteReq): VoteOutcome {
    if req.term < n.currentTerm then VoteOutcome(n, VoteReply(req, n.currentTerm, false))
    else if req.term > n.currentTerm then DecideVote(BecomeFollower(n, req.term), req)
    else DecideVote(n, req)
  }

  /** The handler gives the mutex up in the middle: becomeFollower on a leader, lines 268-276. */
  predicate ReleasesLock(n: Node, req: VoteReq) {
    req.term > n.currentTerm && n.role == Leader
  }

  function OnVoteReply(me: Member, n: Node, reply: VoteReply): Node
    requires InRange(n)
  {
    if reply.term > n.currentTerm then BecomeFollower(n, reply.term)
    else if n.role != Candidate || n.currentTerm != reply.req.term then n
    else if !reply.granted then n
    else
      var counted := n.(votes := n.votes + 1);
      if counted.votes >= Majority(me) && !counted.won then BecomeLeader(me, counted.(won := true)) else counted
  }

  /** The reply adds one to the counter of the running election. */
  predicate CountsVote(n: Node, reply: VoteReply) {
    reply.granted && reply.term <= n.currentTerm && n.role == Candidate && n.currentTerm == reply.req.term
  }

  // ----- Commit and apply -----

  function Replication(matchIndex: map<Id, int>, i: int): nat {
    1 + |set q | q in matchIndex && matchIndex[q] >= i|
  }

  /** What the scan looks for: an entry of the current term on a majority, judged by matchIndex. */
  predicate Committable(me: Member, n: Node, i: int) {
    && 0 <= i < |n.log|
    && n.log[i].term == n.currentTerm
    && Replication(n.matchIndex, i) >= Majority(me)
  }

  /** The scan downward from `i`. */
  function ScanFrom(me: Member, n: Node, i: int): (c: int)
    requires -1 <= n.commitIndex && i < |n.log|
    ensures c == n.commitIndex || (n.commitIndex < c <= i && Committable(me, n, c))
    ensures forall j :: c < j <= i ==> !Committable(me, n, j)
    decreases i - n.commitIndex
  {
    if i <= n.commitIndex then n.commitIndex
    else if Committable(me, n, i) then i
    else ScanFrom(me, n, i - 1)
  }

  function ScanCommit(me: Member, n: Node): Node
    requires InRange(n)
  {
    if me.leaderOnlyScan && n.role != Leader then n
    else n.(commitIndex := ScanFrom(me, n, |n.log| - 1))
  }

  function ApplyCommitted(n: Node): Node
    requires InRange(n)
  {
    if n.lastApplied < n.commitIndex
    then n.(applied := n.applied + n.log[n.lastApplied + 1..n.commitIndex + 1], lastApplied := n.commitIndex)
    else n
  }

  function ApplyStateMachine(me: Member, n: Node): Node
    requires InRange(n)
  {
    ApplyCommitted(ScanCommit(me, n))
  }

  // ----- Replication -----

  function NextIndex(n: Node, q: Id): nat {
    if q in n.nextIndex then n.nextIndex[q] else 0
  }

  /** The AppendEntries request for peer `q`. */
  function MakeAppend(me: Member, n: Node, q: Id): AppendReq {
    var next := NextIndex(n, q);
    AppendReq(n.currentTerm, me.id, q, next - 1,
              if 0 < next <= |n.log| then n.log[next - 1].term else 0,
              if next < |n.log| then n.log[next..Min(next + BATCH, |n.log|)] else [],
              n.commitIndex)
  }

  /** The messages of one round of heartbeats or replication. */
  function Broadcast(me: Member, n: Node): set<AppendReq> {
    if n.role == Leader then set q | q in me.peers :: MakeAppend(me, n, q) else {}
  }

  /** What such a round does to the node itself: without peers it commits at once. */
  function HeartbeatNode(me: Member, n: Node): Node
    requires InRange(n)
  {
    if n.role == Leader && me.peers == {} then ApplyStateMachine(me, n) else n
  }

  datatype SubmitOutcome = SubmitOutcome(node: Node, accepted: bool)

  function SubmitCommand(me: Member, n: Node, command: Command): SubmitOutcome
    requires InRange(n)
  {
    if n.role != Leader then SubmitOutcome(n, false)
    else
      var longer := n.(log := n.log + [Entry(n.currentTerm, command)]);
      var sent := HeartbeatNode(me, longer);
      SubmitOutcome(if me.peers == {} then ApplyStateMachine(me, sent) else sent, true)
  }

  datatype AppendOutcome = AppendOutcome(node: Node, reply: AppendReply)

  /** Another leader of the same term, and the identifiers favour this node. */
  predicate SplitBrain(me: Member, n: Node, req: AppendReq) {
    req.term == n.currentTerm && n.role == Leader && !LexLess(req.leader, me.id)
  }

  /** The node as it stands when onAppendEntries reaches the log, line 574. */
  function Recognise(n: Node, req: AppendReq): Node {
    if req.term > n.currentTerm || n.role != Follower then BecomeFollower(n, req.term) else n
  }

  /** The consistency check of lines 584-597. */
  predicate PrevMatches(log: Log, req: AppendReq) {
    req.prevLogIndex >= 0 ==> req.prevLogIndex < |log| && log[req.prevLogIndex].term == req.prevLogTerm
  }

  /** The log merge and the commit of lines 599-638. */
  function Store(me: Member, n: Node, req: AppendReq): Node
    requires -1 <= n.lastApplied && -1 <= n.commitIndex && PrevMatches(n.log, req)
  {
    var merged := n.(log := Merge(n.log, req.First(), req.entries));
    if req.leaderCommit > n.commitIndex
    then ApplyStateMachine(me, merged.(commitIndex := Min(req.leaderCommit, |merged.log| - 1)))
    else merged
  }

  /** The rest of onAppendEntries, from line 574 on. A refusal carries `heard`, the term the
      node was in when the request arrived. */
  function FinishAppend(me: Member, f: Node, req: AppendReq, heard: nat): AppendOutcome
    requires -1 <= f.lastApplied && -1 <= f.commitIndex
  {
    if !PrevMatches(f.log, req) then
      AppendOutcome(f, AppendReply(req, heard, false, Some(Min(req.prevLogIndex, |f.log|))))
    else
      var stored := Store(me, f, req);
      AppendOutcome(stored, AppendReply(req, stored.currentTerm, true, None))
  }

  function OnAppendEntries(me: Member, n: Node, req: AppendReq): AppendOutcome
    requires -1 <= n.lastApplied && -1 <= n.commitIndex
  {
    if req.term < n.currentTerm || SplitBrain(me, n, req) then
      AppendOutcome(n, AppendReply(req, n.currentTerm, false, None))
    else
      FinishAppend(me, Recognise(n, req), req, n.currentTerm)
  }

  /** The rest of onAppendEntries when the handler has the mutex again. The node is whatever
      other handlers have made of it. */
  function ContinueAppend(me: Member, n: Node, paused: Paused): AppendOutcome
    requires -1 <= n.lastApplied && -1 <= n.commitIndex
  {
    if me.rechecksTerm && n.currentTerm != paused.req.term
    then AppendOutcome(n, AppendReply(paused.req, n.currentTerm, false, None))
    else FinishAppend(me, n, paused.req, paused.heard)
  }

  /** onAppendEntries, too, gives the mutex up in becomeFollower on a leader. */
  predicate ReleasesLockToAppend(n: Node, req: AppendReq) {
    req.term > n.currentTerm && n.role == Leader
  }

  function OnAppendReply(me: Member, n: Node, reply: AppendReply): Node
    requires InRange(n)
  {
    var q := reply.req.to;
    if reply.term > n.currentTerm then BecomeFollower(n, reply.term)
    else if n.role != Leader || n.currentTerm != reply.req.term then n
    else if reply.success then
      if reply.req.entries == [] then n
      else
        ApplyStateMachine(me, n.(
          matchIndex := n.matchIndex[q := reply.req.End() - 1],
          nextIndex := n.nextIndex[q := reply.req.End()]))
    else if NextIndex(n, q) > 0 then
      match reply.conflict
      case Some(c) => n.(nextIndex := n.nextIndex[q := c])
      case None => n.(nextIndex := n.nextIndex[q := NextIndex(n, q) - 1])
    else n
  }
}
