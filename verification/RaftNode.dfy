/**
 The RaftNode object (server/raft_node.cpp): the handlers as methods that update its
 fields step by step, proved to compute what the functions of Handlers say.

 Messages are returned instead of being sent, replies are parameters, and `clock(i)` is
 what the local clock reads while entry i is applied. Timers are left to the caller.
 */
module RaftNodes {
  import opened Commands
  import opened RaftTypes
  import opened LogMerge
  import opened Handlers
  import opened StateMachines

  predicate Distinct(s: seq<Id>) {
    forall i, j :: 0 <= i < j < |s| ==> s[i] != s[j]
  }

  function Elements<T>(s: seq<T>): set<T> {
    set x | x in s
  }

  lemma {:induction false} DistinctSize(s: seq<Id>)
    requires Distinct(s)
    ensures |Elements(s)| == |s|
  {
    if s != [] {
      var n := |s| - 1;
      DistinctSize(s[..n]);
      assert Elements(s) == Elements(s[..n]) + {s[n]};
    }
  }

  lemma FilledIn<V>(m: map<Id, V>, m': map<Id, V>, keys: set<Id>, v: V)
    requires m'.Keys == m.Keys + keys
    requires forall q :: q in m' ==> m'[q] == if q in keys then v else m[q]
    ensures m' == m + map q | q in keys :: v
  {
  }

  /** Requests built for each peer in turn are one for each member of the set of peers. */
  lemma AppendsForAll(me: Member, n: Node, peers: seq<Id>, sent: seq<AppendReq>)
    requires me.peers == Elements(peers) && n.role == Leader && |sent| == |peers|
    requires forall k :: 0 <= k < |peers| ==> sent[k] == MakeAppend(me, n, peers[k])
    ensures Elements(sent) == Broadcast(me, n)
  {
    hide MakeAppend;
    forall q | q in me.peers ensures MakeAppend(me, n, q) in Elements(sent) {
      var k :| 0 <= k < |peers| && peers[k] == q;
      assert sent[k] in sent;
    }
    forall m | m in sent ensures m in Broadcast(me, n) {
      var k :| 0 <= k < |sent| && sent[k] == m;
      assert peers[k] in me.peers;
    }
  }

  lemma VoteReqsForAll(me: Member, n: Node, peers: seq<Id>, sent: seq<VoteReq>)
    requires me.peers == Elements(peers) && |sent| == |peers|
    requires forall k :: 0 <= k < |peers| ==>
               sent[k] == VoteReq(n.currentTerm, me.id, peers[k], |n.log| - 1, LastTerm(n.log))
    ensures Elements(sent) == Canvass(me, n)
  {
    forall q | q in me.peers
      ensures VoteReq(n.currentTerm, me.id, q, |n.log| - 1, LastTerm(n.log)) in Elements(sent)
    {
      var k :| 0 <= k < |peers| && peers[k] == q;
      assert sent[k] in sent;
    }
    forall r | r in sent ensures r in Canvass(me, n) {
      var k :| 0 <= k < |sent| && sent[k] == r;
      assert peers[k] in me.peers;
    }
  }

  lemma NothingSent(me: Member, n: Node)
    requires n.role != Leader || me.peers == {}
    ensures Broadcast(me, n) == Elements<AppendReq>([])
  {
    hide MakeAppend;
  }

  lemma RoundInRange(me: Member, n: Node)
    requires InRange(n)
    ensures InRange(HeartbeatNode(me, n))
  {
    hide ScanFrom;
  }

  class RaftNode {
    const id: Id
    const peers: seq<Id>
    const stateMachine: StateMachine

    var currentTerm: nat
    var votedFor: Id
    var role: Role
    var log: Log
    var commitIndex: int
    var lastApplied: int
    var nextIndex: map<Id, nat>
    var matchIndex: map<Id, int>

    // The counters that the callbacks of the running election share.
    var votes: nat
    var won: bool

    // What was applied, and what the clock read at each entry.
    ghost var applied: Log
    ghost var readings: seq<int>

    /** This node's part of the configuration; the code has neither repair. */
    ghost function Me(): Member {
      Member(id, Elements(peers), false, false)
    }

    /** The value of this object that the functions of Handlers work on. */
    ghost function View(): Node
      reads this
    {
      Node(currentTerm, votedFor, role, log, commitIndex, lastApplied, nextIndex, matchIndex, votes, won, applied)
    }

    /** The table is the applied commands, replayed; a leader tracks every peer. */
    ghost predicate Valid()
      reads this, stateMachine
    {
      && Distinct(peers) && id !in peers
      && |readings| == |applied|
      && stateMachine.nodes == Replay(CommandsOf(applied), readings)
      && (role == Leader ==> Elements(peers) <= nextIndex.Keys)
    }

    constructor (id: Id, peers: seq<Id>)
      requires Distinct(peers) && id !in peers
      ensures Valid() && View() == INITIAL_NODE
      ensures this.id == id && this.peers == peers && fresh(stateMachine)
    {
      this.id := id;
      this.peers := peers;
      stateMachine := new StateMachine();
      currentTerm, votedFor, role := 0, NO_VOTE, Follower;
      log, commitIndex, lastApplied := [], -1, -1;
      nextIndex, matchIndex := map[], map[];
      votes, won := 0, false;
      applied, readings := [], [];
    }

    // ----- Commit and apply -----

    /** The inner loop of the scan. */
    method CountReplicas(n: int) returns (count: nat)
      ensures count == Replication(matchIndex, n)
    {
      count := 1;
      var todo := matchIndex.Keys;
      while todo != {}
        invariant todo <= matchIndex.Keys
        invariant count == 1 + |set q | q in matchIndex && q !in todo && matchIndex[q] >= n|
      {
        ghost var before := set q | q in matchIndex && q !in todo && matchIndex[q] >= n;
        var q :| q in todo;
        todo := todo - {q};
        ghost var after := set q | q in matchIndex && q !in todo && matchIndex[q] >= n;
        if matchIndex[q] >= n {
          count := count + 1;
          assert after == before + {q};
        } else {
          assert after == before;
        }
      }
      assert (set q | q in matchIndex && q !in todo && matchIndex[q] >= n) == set q | q in matchIndex && matchIndex[q] >= n;
    }

    lemma ScanSkips(n: int)
      requires -1 <= commitIndex < n < |log| && !Committable(Me(), View(), n)
      ensures ScanFrom(Me(), View(), n) == ScanFrom(Me(), View(), n - 1)
    {
    }

    /** The first loop of applyStateMachine. */
    method Scan()
      requires Distinct(peers) && InRange(View())
      modifies this`commitIndex
      ensures View() == ScanCommit(Me(), old(View()))
    {
      DistinctSize(peers);
      var n := |log| - 1;
      while n > commitIndex
        invariant commitIndex == old(commitIndex) && -1 <= commitIndex && n < |log|
        invariant ScanFrom(Me(), View(), |log| - 1) == ScanFrom(Me(), View(), n)
      {
        if log[n].term == currentTerm {
          var replicationCount := CountReplicas(n);
          var majority := (|peers| + 1) / 2 + 1;
          if replicationCount >= majority {
            assert Committable(Me(), View(), n);
            commitIndex := n;
            return;
          }
        }
        ScanSkips(n);
        n := n - 1;
      }
    }

    /** The body of the second loop of applyStateMachine. */
    method ApplyNext(clock: nat -> int)
      requires Valid() && -1 <= lastApplied < |log| - 1
      modifies this`lastApplied, this`applied, this`readings, stateMachine
      ensures Valid() && lastApplied == old(lastApplied) + 1
      ensures applied == old(applied) + [log[lastApplied]] && readings == old(readings) + [clock(lastApplied)]
    {
      lastApplied := lastApplied + 1;
      var entry := log[lastApplied];
      stateMachine.Apply(entry.command, clock(lastApplied));
      ReplayOneMore(CommandsOf(applied), readings, entry.command, clock(lastApplied));
      assert CommandsOf(applied + [entry]) == CommandsOf(applied) + [entry.command];
      applied := applied + [entry];
      readings := readings + [clock(lastApplied)];
    }

    /** The second loop of applyStateMachine. */
    method ApplyEntries(clock: nat -> int)
      requires Valid() && InRange(View())
      modifies this`lastApplied, this`applied, this`readings, stateMachine
      ensures Valid() && View() == ApplyCommitted(old(View())) && old(readings) <= readings
    {
      hide Valid;
      while lastApplied < commitIndex
        invariant Valid() && old(readings) <= readings && -1 <= old(lastApplied) <= lastApplied
        invariant lastApplied <= commitIndex || lastApplied == old(lastApplied)
        invariant old(lastApplied) == lastApplied ==> applied == old(applied)
        invariant old(lastApplied) < lastApplied ==> applied == old(applied) + log[old(lastApplied) + 1..lastApplied + 1]
      {
        ApplyNext(clock);
      }
    }

    method ApplyStateMachine(clock: nat -> int)
      requires Valid() && InRange(View())
      modifies this`commitIndex, this`lastApplied, this`applied, this`readings, stateMachine
      ensures Valid() && View() == Handlers.ApplyStateMachine(Me(), old(View()))
    {
      Scan();
      ApplyEntries(clock);
    }

    // ----- Sending the log -----

    /** The request for one peer: at most BATCH entries from its nextIndex on. */
    method BuildAppend(peer: Id) returns (m: AppendReq)
      requires peer in nextIndex
      ensures m == MakeAppend(Me(), View(), peer)
    {
      var nextIdx := nextIndex[peer];
      var prevLogIndex: PrevIndex := nextIdx - 1;
      var prevLogTerm := if prevLogIndex >= 0 && prevLogIndex < |log| then log[prevLogIndex].term else 0;
      var entries: Log := [];
      var i := nextIdx;
      while i < |log| && |entries| < BATCH
        invariant i == nextIdx + |entries| && |entries| <= BATCH
        invariant nextIdx > |log| ==> entries == []
        invariant nextIdx <= |log| ==> i <= |log| && entries == log[nextIdx..i]
      {
        entries := entries + [log[i]];
        i := i + 1;
      }
      m := AppendReq(currentTerm, id, peer, prevLogIndex, prevLogTerm, entries, commitIndex);
    }

    /** sendHeartbeatsInternal, which replicateLogInternal repeats. */
    method SendAppends(clock: nat -> int) returns (sent: seq<AppendReq>)
      requires Valid() && InRange(View())
      modifies this`commitIndex, this`lastApplied, this`applied, this`readings, stateMachine
      ensures Valid() && View() == HeartbeatNode(Me(), old(View()))
      ensures Elements(sent) == Broadcast(Me(), View())
    {
      hide Broadcast, MakeAppend;
      sent := [];
      if role != Leader {
        NothingSent(Me(), View());
        return;
      }
      if peers == [] {
        ApplyStateMachine(clock);
        NothingSent(Me(), View());
        return;
      }
      assert peers[0] in Me().peers;
      var i := 0;
      while i < |peers|
        modifies {}
        invariant 0 <= i <= |peers| && |sent| == i
        invariant forall k :: 0 <= k < i ==> sent[k] == MakeAppend(Me(), View(), peers[k])
      {
        var m := BuildAppend(peers[i]);
        sent := sent + [m];
        i := i + 1;
      }
      AppendsForAll(Me(), View(), peers, sent);
    }

    // ----- Roles -----

    method BecomeFollower(term: nat)
      requires Valid()
      modifies this`role, this`currentTerm, this`votedFor
      ensures Valid() && View() == Handlers.BecomeFollower(old(View()), term)
    {
      role := Follower;
      currentTerm := term;
      votedFor := NO_VOTE;
    }

    /** The loop of becomeLeaderInternal. */
    method InitLeaderState()
      modifies this`nextIndex, this`matchIndex
      ensures nextIndex == old(nextIndex) + map q | q in Elements(peers) :: |log|
      ensures matchIndex == old(matchIndex) + map q | q in Elements(peers) :: -1
    {
      var i := 0;
      while i < |peers|
        invariant 0 <= i <= |peers|
        invariant nextIndex.Keys == old(nextIndex).Keys + Elements(peers[..i])
        invariant matchIndex.Keys == old(matchIndex).Keys + Elements(peers[..i])
        invariant forall q :: q in nextIndex ==> nextIndex[q] == if q in peers[..i] then |log| else old(nextIndex)[q]
        invariant forall q :: q in matchIndex ==> matchIndex[q] == if q in peers[..i] then -1 else old(matchIndex)[q]
      {
        nextIndex := nextIndex[peers[i] := |log|];
        matchIndex := matchIndex[peers[i] := -1];
        assert peers[..i + 1] == peers[..i] + [peers[i]];
        i := i + 1;
      }
      assert peers[..|peers|] == peers;
      FilledIn(old(nextIndex), nextIndex, Elements(peers), |log|);
      FilledIn(old(matchIndex), matchIndex, Elements(peers), -1);
    }

    method BecomeLeaderInternal(clock: nat -> int) returns (sent: seq<AppendReq>)
      requires Valid() && InRange(View())
      modifies this, stateMachine
      ensures Valid() && View() == BecomeLeader(Me(), old(View()))
      ensures Elements(sent) == if old(role) == Leader then {} else Broadcast(Me(), View())
    {
      hide HeartbeatNode, Broadcast, Replay, CommandsOf;
      if role == Leader {
        return [];
      }
      role := Leader;
      InitLeaderState();
      sent := SendAppends(clock);
    }

    /** The request of the running election for one peer. */
    method StartElection(clock: nat -> int) returns (requests: seq<VoteReq>)
      requires Valid() && InRange(View())
      modifies this, stateMachine
      ensures Valid() && View() == Handlers.StartElection(Me(), old(View()))
      ensures Elements(requests) == Canvass(Me(), View())
    {
      hide BecomeLeader, Broadcast, Replay, CommandsOf;
      DistinctSize(peers);
      role := Candidate;
      currentTerm := currentTerm + 1;
      votedFor := id;
      votes, won := 1, false;
      requests := [];
      var needed := (|peers| + 1) / 2 + 1;
      if votes >= needed {
        var sent := BecomeLeaderInternal(clock);
        return;
      }
      var lastLogIndex := |log| - 1;
      var lastLogTerm := if log == [] then 0 else log[|log| - 1].term;
      var i := 0;
      while i < |peers|
        invariant 0 <= i <= |peers| && |requests| == i
        invariant forall k :: 0 <= k < i ==> requests[k] == VoteReq(currentTerm, id, peers[k], lastLogIndex, lastLogTerm)
      {
        requests := requests + [VoteReq(currentTerm, id, peers[i], lastLogIndex, lastLogTerm)];
        i := i + 1;
      }
      VoteReqsForAll(Me(), View(), peers, requests);
    }

    // ----- Votes -----

    /** The first part of onRequestVote. A leader that steps down here gives the mutex up
        before it goes on with DecideVote; None means that it goes on. */
    method BeginRequestVote(req: VoteReq) returns (rejection: Option<VoteReply>)
      requires Valid()
      modifies this`role, this`currentTerm, this`votedFor
      ensures Valid()
      ensures rejection == if req.term < old(currentTerm) then Some(VoteReply(req, old(currentTerm), false)) else None
      ensures View() == if req.term > old(currentTerm) then Handlers.BecomeFollower(old(View()), req.term) else old(View())
    {
      if req.term < currentTerm {
        return Some(VoteReply(req, currentTerm, false));
      }
      if req.term > currentTerm {
        BecomeFollower(req.term);
      }
      return None;
    }

    /** The rest of onRequestVote. */
    method DecideVote(req: VoteReq) returns (reply: VoteReply)
      requires Valid()
      modifies this`votedFor
      ensures Valid() && VoteOutcome(View(), reply) == Handlers.DecideVote(old(View()), req)
    {
      var ourLastLogTerm := if log == [] then 0 else log[|log| - 1].term;
      var ourLastLogIndex := |log| - 1;
      var logUpToDate :=
        req.lastLogTerm > ourLastLogTerm || (req.lastLogTerm == ourLastLogTerm && req.lastLogIndex >= ourLastLogIndex);
      if (votedFor == NO_VOTE || votedFor == req.candidate) && logUpToDate {
        votedFor := req.candidate;
        reply := VoteReply(req, currentTerm, true);
      } else {
        reply := VoteReply(req, currentTerm, false);
      }
    }

    /** onRequestVote when nothing comes between its two parts. */
    method OnRequestVote(req: VoteReq) returns (reply: VoteReply)
      requires Valid()
      modifies this`role, this`currentTerm, this`votedFor
      ensures Valid() && VoteOutcome(View(), reply) == Handlers.OnRequestVote(old(View()), req)
    {
      var rejection := BeginRequestVote(req);
      if rejection.Some? {
        return rejection.value;
      }
      reply := DecideVote(req);
    }

    /** The callback of startElection. */
    method OnVoteReply(reply: VoteReply, clock: nat -> int) returns (sent: seq<AppendReq>)
      requires Valid() && InRange(View())
      modifies this, stateMachine
      ensures Valid() && View() == Handlers.OnVoteReply(Me(), old(View()), reply)
      ensures Elements(sent) == if role == Leader && old(role) != Leader then Broadcast(Me(), View()) else {}
    {
      hide Replay, CommandsOf;
      sent := [];
      if reply.term > currentTerm {
        BecomeFollower(reply.term);
        return;
      }
      if role != Candidate || currentTerm != reply.req.term {
        return;
      }
      if reply.granted {
        DistinctSize(peers);
        var needed := (|peers| + 1) / 2 + 1;
        votes := votes + 1;
        if votes >= needed && !won {
          won := true;
          sent := BecomeLeaderInternal(clock);
        }
      }
    }

    // ----- Log -----

    method SubmitCommand(command: Command, clock: nat -> int) returns (accepted: bool, sent: seq<AppendReq>)
      requires Valid() && InRange(View())
      modifies this, stateMachine
      ensures Valid() && SubmitOutcome(View(), accepted) == Handlers.SubmitCommand(Me(), old(View()), command)
      ensures Elements(sent) == if accepted then Broadcast(Me(), View()) else {}
    {
      hide Replay, CommandsOf, Broadcast, HeartbeatNode, Handlers.ApplyStateMachine;
      if role != Leader {
        return false, [];
      }
      assert peers != [] ==> peers[0] in Me().peers;
      log := log + [Entry(currentTerm, command)];
      RoundInRange(Me(), View());
      sent := SendAppends(clock);
      if peers == [] {
        NothingSent(Me(), View());
        ApplyStateMachine(clock);
        NothingSent(Me(), View());
      }
      accepted := true;
    }

    /** The merge loop of onAppendEntries. */
    method MergeEntries(first: nat, entries: Log)
      requires first <= |log|
      modifies this`log
      ensures log == Merge(old(log), first, entries)
    {
      var index := first;
      var i := 0;
      while i < |entries|
        invariant 0 <= i <= |entries| && index == first + i <= |log|
        invariant Merge(log, index, entries[i..]) == Merge(old(log), first, entries)
      {
        var entry := entries[i];
        assert entries[i..][1..] == entries[i + 1..];
        if index < |log| {
          if log[index].term != entry.term {
            log := log[..index];
            log := log + [entry];
          }
        } else {
          assert log[..index] == log;
          log := log + [entry];
        }
        index := index + 1;
        i := i + 1;
      }
    }

    /** Everything in onAppendEntries before it looks at the log; true means that the request
        is turned down. A leader that steps down here gives the mutex up on the way. */
    method RecogniseLeader(req: AppendReq) returns (rejected: bool)
      requires Valid()
      modifies this`role, this`currentTerm, this`votedFor
      ensures Valid()
      ensures rejected <==> req.term < old(currentTerm) || SplitBrain(Me(), old(View()), req)
      ensures View() == if rejected then old(View()) else Recognise(old(View()), req)
    {
      if req.term < currentTerm {
        return true;
      }
      if req.term > currentTerm {
        BecomeFollower(req.term);
      } else if role == Candidate {
        BecomeFollower(req.term);
      } else if role == Leader {
        if LexLess(req.leader, id) {
          BecomeFollower(req.term);
        } else {
          return true;
        }
      }
      return false;
    }

    /** The rest of onAppendEntries; `heard` is the term in which the request arrived. */
    method FinishAppend(req: AppendReq, heard: nat, clock: nat -> int) returns (reply: AppendReply)
      requires Valid() && -1 <= lastApplied && -1 <= commitIndex
      modifies this, stateMachine
      ensures Valid() && AppendOutcome(View(), reply) == Handlers.FinishAppend(Me(), old(View()), req, heard)
    {
      hide Replay, CommandsOf, ScanFrom, ApplyCommitted;
      if req.prevLogIndex >= 0 {
        if req.prevLogIndex >= |log| || log[req.prevLogIndex].term != req.prevLogTerm {
          return AppendReply(req, heard, false, Some(Min(req.prevLogIndex, |log|)));
        }
      }
      MergeEntries(req.prevLogIndex + 1, req.entries);
      if req.leaderCommit > commitIndex {
        commitIndex := Min(req.leaderCommit, |log| - 1);
        ApplyStateMachine(clock);
      }
      return AppendReply(req, currentTerm, true, None);
    }

    /** onAppendEntries when nothing comes between its two parts. */
    method OnAppendEntries(req: AppendReq, clock: nat -> int) returns (reply: AppendReply)
      requires Valid() && -1 <= lastApplied && -1 <= commitIndex
      modifies this, stateMachine
      ensures Valid() && AppendOutcome(View(), reply) == Handlers.OnAppendEntries(Me(), old(View()), req)
    {
      hide Handlers.FinishAppend;
      var heard := currentTerm;
      var rejected := RecogniseLeader(req);
      if rejected {
        return AppendReply(req, heard, false, None);
      }
      reply := FinishAppend(req, heard, clock);
    }

    /** The callback of sendHeartbeatsInternal and replicateLogInternal. */
    method OnAppendReply(reply: AppendReply, clock: nat -> int)
      requires Valid() && InRange(View()) && reply.req.to in Elements(peers)
      modifies this, stateMachine
      ensures Valid() && View() == Handlers.OnAppendReply(Me(), old(View()), reply)
    {
      hide Replay, CommandsOf, Handlers.ApplyStateMachine;
      if reply.term > currentTerm {
        BecomeFollower(reply.term);
        return;
      }
      if role != Leader || currentTerm != reply.req.term {
        return;
      }
      var peer := reply.req.to;
      var nextIdx := reply.req.prevLogIndex + 1;
      if reply.success {
        if |reply.req.entries| > 0 {
          matchIndex := matchIndex[peer := nextIdx + |reply.req.entries| - 1];
          nextIndex := nextIndex[peer := matchIndex[peer] + 1];
          ApplyStateMachine(clock);
        }
      } else if nextIndex[peer] > 0 {
        if reply.conflict.Some? {
          nextIndex := nextIndex[peer := reply.conflict.value];
        } else {
          nextIndex := nextIndex[peer := nextIndex[peer] - 1];
        }
      }
    }
  }

}
