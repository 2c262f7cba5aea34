/**
 What a node sends, stores, commits and applies, case by case, in terms of logs, indices and
 sets of nodes, whatever the rest of the cluster does.
 */
module AppendAnswers {
  import opened Commands
  import opened RaftTypes
  import opened LogMerge
  import opened Handlers
  import opened VoteSteps
  import opened VoteAnswers

  // ----- Commit and apply -----

  /** Counted by matchIndex, more than half of the members hold entry i, the node included. */
  ghost predicate OnMajority(me: Member, matchIndex: map<Id, int>, i: int) {
    exists holders: set<Id> :: Hold(matchIndex, holders, i) && 2 * (1 + |holders|) > |me.peers| + 1
  }

  ghost predicate Hold(matchIndex: map<Id, int>, holders: set<Id>, i: int) {
    forall q :: q in holders ==> q in matchIndex && matchIndex[q] >= i
  }

  /** Entry i may be committed by the node: it is of its term, and more than half hold it. */
  ghost predicate MayCommit(me: Member, n: Node, i: int) {
    0 <= i < |n.log| && n.log[i].term == n.currentTerm && OnMajority(me, n.matchIndex, i)
  }

  lemma CommittableIs(me: Member, n: Node, i: int)
    ensures Committable(me, n, i) <==> MayCommit(me, n, i)
  {
    var all := set q | q in n.matchIndex && n.matchIndex[q] >= i;
    assert Hold(n.matchIndex, all, i);
    MajorityIsMoreThanHalf(me, 1 + |all|);
    forall holders: set<Id> | Hold(n.matchIndex, holders, i) ensures |holders| <= |all| {
      SubsetSize(holders, all);
    }
  }

  /** After the scan no entry that may be committed is left above commitIndex, and commitIndex
      has moved only to one that may; nothing else has changed. */
  lemma ScanCommitsAll(me: Member, n: Node)
    requires InRange(n) && (!me.leaderOnlyScan || n.role == Leader)
    ensures
      var c := ScanCommit(me, n);
      && c == n.(commitIndex := c.commitIndex)
      && (c.commitIndex == n.commitIndex || (c.commitIndex > n.commitIndex && MayCommit(me, n, c.commitIndex)))
      && forall i :: c.commitIndex < i < |n.log| ==> !MayCommit(me, n, i)
  {
    forall i: int ensures Committable(me, n, i) <==> MayCommit(me, n, i) {
      CommittableIs(me, n, i);
    }
    hide Committable, MayCommit;
  }

  /** With the repair, a node that does not lead commits nothing of its own accord. */
  lemma RepairedScan(me: Member, n: Node)
    requires InRange(n) && me.leaderOnlyScan && n.role != Leader
    ensures ScanCommit(me, n) == n
  {
  }

  /** n' is n with all up to its commit index applied, in order. */
  ghost predicate AllApplied(n: Node, n': Node) {
    && n'.lastApplied == (if n.lastApplied < n'.commitIndex then n'.commitIndex else n.lastApplied)
    && |n'.applied| == |n.applied| + n'.lastApplied - n.lastApplied && n.applied <= n'.applied
    && forall i :: n.lastApplied < i <= n'.lastApplied && 0 <= i < |n.log| ==>
         n'.applied[|n.applied| + i - n.lastApplied - 1] == n.log[i]
  }

  /** The scan, and everything committed is applied, whether or not the scan found something. */
  lemma CommitsAndApplies(me: Member, n: Node)
    requires InRange(n) && (!me.leaderOnlyScan || n.role == Leader)
    ensures
      var c := ApplyStateMachine(me, n);
      && c == n.(commitIndex := c.commitIndex, lastApplied := c.lastApplied, applied := c.applied)
      && (c.commitIndex == n.commitIndex || (c.commitIndex > n.commitIndex && MayCommit(me, n, c.commitIndex)))
      && (forall i :: c.commitIndex < i < |n.log| ==> !MayCommit(me, n, i))
      && AllApplied(n, c)
  {
    ScanCommitsAll(me, n);
    AppliesAll(ScanCommit(me, n));
    hide MayCommit, ScanCommit;
  }

  lemma AppliesAll(n: Node)
    requires InRange(n)
    ensures
      var c := ApplyCommitted(n);
      c == n.(lastApplied := c.lastApplied, applied := c.applied) && AllApplied(n, c)
  {
  }

  // ----- Sending -----

  /** The request for a peer: from its nextIndex on, at most five entries, the term before
      them, and the sender's commit index. */
  lemma RequestIs(me: Member, n: Node, q: Id)
    ensures
      var m := MakeAppend(me, n, q);
      var next := if q in n.nextIndex then n.nextIndex[q] else 0;
      && m.term == n.currentTerm && m.leader == me.id && m.to == q && m.leaderCommit == n.commitIndex
      && m.prevLogIndex == next - 1
      && m.prevLogTerm == (if 0 < next <= |n.log| then n.log[next - 1].term else 0)
      && |m.entries| == (if next >= |n.log| then 0 else if |n.log| - next < 5 then |n.log| - next else 5)
      && forall k :: 0 <= k < |m.entries| ==> m.entries[k] == n.log[next + k]
  {
  }

  /** A leader sends one such request to each peer, and no one else sends any. */
  lemma RoundIs(me: Member, n: Node, m: AppendReq)
    ensures m in Broadcast(me, n) <==> n.role == Leader && m.to in me.peers && m == MakeAppend(me, n, m.to)
  {
    hide MakeAppend;
    forall q | q in me.peers ensures MakeAppend(me, n, q).to == q {
      RequestIs(me, n, q);
    }
  }

  /** A round of heartbeats changes its sender only if it leads alone; then it commits. */
  lemma RoundChanges(me: Member, n: Node)
    requires InRange(n)
    ensures n.role == Leader && me.peers == {} ==> HeartbeatNode(me, n) == ApplyStateMachine(me, n)
    ensures n.role != Leader || me.peers != {} ==> HeartbeatNode(me, n) == n
  {
    hide ApplyStateMachine;
  }

  /** The record of a node without peers as it wins, before it scans. */
  function LoneWinner(me: Member, n: Node): Node {
    n.(role := Leader, currentTerm := n.currentTerm + 1, votedFor := me.id, votes := 1, won := false)
  }

  lemma LoneWins(me: Member, n: Node)
    requires InRange(n) && me.peers == {}
    ensures StartElection(me, n) == ApplyStateMachine(me, LoneWinner(me, n))
  {
    MajorityIsMoreThanHalf(me, 1);
    assert n.nextIndex + (map q | q in me.peers :: |n.log|) == n.nextIndex;
    assert n.matchIndex + (map q | q in me.peers :: -1) == n.matchIndex;
    hide ApplyStateMachine, Majority;
  }

  lemma ScannedAndApplied(me: Member, c: Node)
    requires InRange(c) && c.role == Leader
    ensures
      var e := ApplyStateMachine(me, c);
      && e == c.(commitIndex := e.commitIndex, lastApplied := e.lastApplied, applied := e.applied)
      && (e.commitIndex == c.commitIndex || (e.commitIndex > c.commitIndex && MayCommit(me, e, e.commitIndex)))
      && (forall i :: e.commitIndex < i < |e.log| ==> !MayCommit(me, e, i))
      && (c.lastApplied < e.commitIndex ==> e.commitIndex < |c.log|)
      && AllApplied(c, e)
  {
    var e := ApplyStateMachine(me, c);
    CommitsAndApplies(me, c);
    forall i: int ensures MayCommit(me, e, i) <==> MayCommit(me, c, i) {
      SameIndices(me, c, e, i);
    }
    hide ApplyStateMachine, OnMajority, AllApplied;
  }

  lemma AllAppliedSame(n: Node, c: Node, e: Node)
    requires -1 <= n.lastApplied && (n.lastApplied < e.commitIndex ==> e.commitIndex < |n.log|)
    requires c.log == n.log && c.lastApplied == n.lastApplied && c.applied == n.applied && AllApplied(c, e)
    ensures AllApplied(n, e)
  {
  }

  /** A node without peers has won as it starts an election; it scans and applies at once. */
  lemma LoneElection(me: Member, n: Node)
    requires InRange(n) && me.peers == {}
    ensures
      var e := StartElection(me, n);
      && e.role == Leader && e.currentTerm == n.currentTerm + 1 && e.votedFor == me.id && e.log == n.log
      && (e.commitIndex == n.commitIndex || (e.commitIndex > n.commitIndex && MayCommit(me, e, e.commitIndex)))
      && (forall i :: e.commitIndex < i < |e.log| ==> !MayCommit(me, e, i))
      && (n.lastApplied < e.commitIndex ==> e.commitIndex < |n.log|)
      && AllApplied(n, e)
  {
    LoneWins(me, n);
    ScannedAndApplied(me, LoneWinner(me, n));
    hide StartElection, ApplyStateMachine, MayCommit, AllApplied;
    AllAppliedSame(n, LoneWinner(me, n), StartElection(me, n));
  }

  /** Without peers, an entry of the node's term needs no one else. */
  lemma AloneIsEnough(me: Member, n: Node, i: int)
    requires me.peers == {} && 0 <= i < |n.log| && n.log[i].term == n.currentTerm
    ensures MayCommit(me, n, i)
  {
    assert Hold(n.matchIndex, {}, i);
  }

  /** Only a leader takes a command, at the end of its log and in its term. With peers that is
      all; alone it has committed and applied the whole log at once. */
  lemma SubmitAnswered(me: Member, n: Node, command: Command)
    requires InRange(n)
    ensures
      var o := SubmitCommand(me, n, command);
      && (o.accepted <==> n.role == Leader)
      && (n.role != Leader ==> o.node == n)
      && (n.role == Leader ==>
            && o.node.log == n.log + [Entry(n.currentTerm, command)]
            && o.node.role == Leader && o.node.currentTerm == n.currentTerm)
      && (n.role == Leader && me.peers != {} ==> o.node == n.(log := o.node.log))
      && (n.role == Leader && me.peers == {} && n.commitIndex < |n.log| && n.lastApplied < |n.log| ==>
            && o.node.commitIndex == o.node.lastApplied == |n.log|
            && o.node.applied == n.applied + n.log[n.lastApplied + 1..] + [Entry(n.currentTerm, command)])
  {
    if n.role == Leader && me.peers == {} {
      SubmitAlone(me, n, command);
    }
    hide ApplyStateMachine;
  }

  lemma SubmitAlone(me: Member, n: Node, command: Command)
    requires InRange(n) && n.role == Leader && me.peers == {}
    ensures
      var o := SubmitCommand(me, n, command);
      && o.node.log == n.log + [Entry(n.currentTerm, command)]
      && o.node.role == Leader && o.node.currentTerm == n.currentTerm
      && (n.commitIndex < |n.log| && n.lastApplied < |n.log| ==>
            && o.node.commitIndex == o.node.lastApplied == |n.log|
            && o.node.applied == n.applied + n.log[n.lastApplied + 1..] + [Entry(n.currentTerm, command)])
  {
    var longer := n.(log := n.log + [Entry(n.currentTerm, command)]);
    var once := ApplyStateMachine(me, longer);
    CommitsAndApplies(me, longer);
    AloneIsEnough(me, longer, |n.log|);
    AppliedInside(me, longer);
    CommitsAndApplies(me, once);
    AppliedInside(me, once);
    hide ApplyStateMachine, MayCommit;
    if n.commitIndex < |n.log| && n.lastApplied < |n.log| {
      assert once.commitIndex == |n.log|;
      var twice := ApplyStateMachine(me, once);
      assert twice.applied == once.applied;
      assert once.applied == n.applied + longer.log[n.lastApplied + 1..];
      assert longer.log[n.lastApplied + 1..] == n.log[n.lastApplied + 1..] + [Entry(n.currentTerm, command)];
    }
  }

  lemma AppliedInside(me: Member, n: Node)
    requires InRange(n)
    ensures InRange(ApplyStateMachine(me, n))
  {
    hide ScanFrom, Committable;
  }

  // ----- AppendEntries -----

  /** What a follower makes of its vote when it hears from the leader of `term`: it keeps it
      only if it was following in that term. */
  function VoteAfter(n: Node, term: nat): Id {
    if n.role == Follower && n.currentTerm == term then n.votedFor else NO_VOTE
  }

  /** a and b agree before k, and there a has the smaller character. */
  ghost predicate SmallerAt(a: string, b: string, k: nat) {
    k < |a| && k < |b| && a[..k] == b[..k] && a[k] < b[k]
  }

  /** Identifiers are compared as strings: a proper beginning of b, or smaller where the two
      first differ, comes before b. */
  lemma {:induction false} NameOrder(a: string, b: string)
    ensures LexLess(a, b) <==> a < b || exists k: nat :: SmallerAt(a, b, k)
  {
    if a != [] && b != [] && a[0] == b[0] {
      NameOrder(a[1..], b[1..]);
      if k: nat :| SmallerAt(a[1..], b[1..], k) {
        assert a[..k + 1] == [a[0]] + a[1..][..k] && b[..k + 1] == [b[0]] + b[1..][..k];
        assert SmallerAt(a, b, k + 1);
      }
      if k: nat :| SmallerAt(a, b, k) {
        assert k > 0 && a[1..][..k - 1] == a[..k][1..] && b[1..][..k - 1] == b[..k][1..];
        assert SmallerAt(a[1..], b[1..], k - 1);
      }
      assert a < b <==> a[1..] < b[1..] by { PrefixOfRest(a, b); }
    } else if a != [] && b != [] && a[0] < b[0] {
      assert SmallerAt(a, b, 0);
    }
  }

  lemma PrefixOfRest(a: string, b: string)
    requires a != [] && b != [] && a[0] == b[0]
    ensures a < b <==> a[1..] < b[1..]
  {
    if a[1..] < b[1..] {
      assert a == [a[0]] + a[1..] && b == [b[0]] + b[1..];
    }
  }

  /** The request is of an earlier term, or the node leads its term and keeps leading it. */
  ghost predicate TurnedDown(me: Member, n: Node, m: AppendReq) {
    m.term < n.currentTerm || (m.term == n.currentTerm && n.role == Leader && !LexLess(m.leader, me.id))
  }

  /** Turned down: nothing changes. */
  lemma AppendTurnedDown(me: Member, n: Node, m: AppendReq)
    requires InRange(n) && TurnedDown(me, n, m)
    ensures
      var o := OnAppendEntries(me, n, m);
      o.node == n && !o.reply.success && o.reply.term == n.currentTerm && o.reply.conflict == None && o.reply.req == m
  {
  }

  /** The log has no entry at prevLogIndex, or one of another term. */
  ghost predicate Misses(log: Log, m: AppendReq) {
    m.prevLogIndex >= 0 && (m.prevLogIndex >= |log| || log[m.prevLogIndex].term != m.prevLogTerm)
  }

  /** Refused: the node follows in the request's term with its log as it was. The reply has the
      term from before the request, and the smaller of prevLogIndex and the log's length. */
  lemma AppendRefused(me: Member, n: Node, m: AppendReq)
    requires InRange(n) && !TurnedDown(me, n, m) && Misses(n.log, m)
    ensures
      var o := OnAppendEntries(me, n, m);
      && o.node.role == Follower && o.node.currentTerm == m.term && o.node.votedFor == VoteAfter(n, m.term)
      && SameData(n, o.node)
      && !o.reply.success && o.reply.term == n.currentTerm && o.reply.req == m
      && o.reply.conflict == Some(if |n.log| < m.prevLogIndex then |n.log| else m.prevLogIndex)
  {
    hide LexLess;
  }

  /** The node with the entries merged into its log, before it looks at leaderCommit. */
  function Merged(n: Node, m: AppendReq): Node
    requires m.First() <= |n.log|
  {
    n.(role := Follower, currentTerm := m.term, votedFor := VoteAfter(n, m.term), log := Merge(n.log, m.First(), m.entries))
  }

  lemma AcceptedIs(me: Member, n: Node, m: AppendReq)
    requires InRange(n) && !TurnedDown(me, n, m) && !Misses(n.log, m)
    ensures m.First() <= |n.log|
    ensures
      var o := OnAppendEntries(me, n, m);
      var stored := Merged(n, m);
      var raised := stored.(commitIndex := Min(m.leaderCommit, |stored.log| - 1));
      && o.reply == AppendReply(m, o.node.currentTerm, true, None)
      && (m.leaderCommit <= n.commitIndex ==> o.node == stored)
      && (m.leaderCommit > n.commitIndex ==> InRange(raised) && o.node == ApplyStateMachine(me, raised))
  {
    hide LexLess, ApplyStateMachine, Merge;
  }

  /** A node that does not lead commits up to `reach`, or further by the scan. */
  ghost predicate CommitsTo(me: Member, n: Node, f: Node, reach: int)
    requires -1 <= n.lastApplied && (n.lastApplied < f.commitIndex ==> f.commitIndex < |n.log|)
  {
    && (f.commitIndex == reach || (f.commitIndex > reach && MayCommit(me, f, f.commitIndex)))
    && (me.leaderOnlyScan ==> f.commitIndex == reach)
    && (!me.leaderOnlyScan ==> forall i :: f.commitIndex < i < |f.log| ==> !MayCommit(me, f, i))
    && AllApplied(n, f)
  }

  lemma RaisedCommits(me: Member, n: Node)
    requires InRange(n) && n.role != Leader
    ensures
      var f := ApplyStateMachine(me, n);
      && f == n.(commitIndex := f.commitIndex, lastApplied := f.lastApplied, applied := f.applied)
      && (n.lastApplied < f.commitIndex ==> f.commitIndex < |n.log|)
      && CommitsTo(me, n, f, n.commitIndex)
  {
    var f := ApplyStateMachine(me, n);
    if me.leaderOnlyScan {
      RepairedScan(me, n);
      AppliesAll(n);
      hide MayCommit, AllApplied, InRange;
    } else {
      CommitsAndApplies(me, n);
      forall i: int ensures MayCommit(me, f, i) <==> MayCommit(me, n, i) {
        SameIndices(me, n, f, i);
      }
      hide MayCommit, AllApplied, ApplyStateMachine;
    }
  }

  lemma SameIndices(me: Member, n: Node, f: Node, i: int)
    requires f.log == n.log && f.currentTerm == n.currentTerm && f.matchIndex == n.matchIndex
    ensures MayCommit(me, f, i) <==> MayCommit(me, n, i)
  {
    hide OnMajority;
  }

  /** Accepted: the entries are merged in at prevLogIndex + 1. A leaderCommit beyond the node's
      own brings commitIndex to it or to the end of the log, whichever is first, or further by
      the scan; and all of it is applied. */
  lemma AppendAccepted(me: Member, n: Node, m: AppendReq)
    requires InRange(n) && !TurnedDown(me, n, m) && !Misses(n.log, m)
    ensures m.prevLogIndex + 1 <= |n.log|
    ensures
      var o := OnAppendEntries(me, n, m);
      var f := o.node;
      var reach := if m.leaderCommit < |f.log| then m.leaderCommit else |f.log| - 1;
      && f.role == Follower && f.currentTerm == m.term && f.votedFor == VoteAfter(n, m.term)
      && f.log == Merge(n.log, m.prevLogIndex + 1, m.entries)
      && f.nextIndex == n.nextIndex && f.matchIndex == n.matchIndex
      && o.reply == AppendReply(m, m.term, true, None)
      && (m.leaderCommit <= n.commitIndex ==>
            f.commitIndex == n.commitIndex && f.lastApplied == n.lastApplied && f.applied == n.applied)
      && (m.leaderCommit > n.commitIndex ==>
            && (n.lastApplied < f.commitIndex ==> f.commitIndex < |f.log|)
            && CommitsTo(me, n.(log := f.log), f, reach))
  {
    AcceptedIs(me, n, m);
    hide OnAppendEntries, Merge, ApplyStateMachine, LexLess, CommitsTo;
    if m.leaderCommit > n.commitIndex {
      var stored := Merged(n, m);
      var raised := stored.(commitIndex := Min(m.leaderCommit, |stored.log| - 1));
      RaisedCommits(me, raised);
      CommitsOf(me, raised, n.(log := stored.log), ApplyStateMachine(me, raised), raised.commitIndex);
    }
  }

  lemma CommitsOf(me: Member, n: Node, n': Node, f: Node, reach: int)
    requires n'.log == n.log && n'.lastApplied == n.lastApplied && n'.applied == n.applied
    requires -1 <= n.lastApplied && (n.lastApplied < f.commitIndex ==> f.commitIndex < |n.log|)
    requires CommitsTo(me, n, f, reach)
    ensures CommitsTo(me, n', f, reach)
  {
    hide MayCommit;
  }

  // ----- Replies to AppendEntries -----

  /** The index records of n' are those of n, but for those of qs. */
  ghost predicate OthersSame(n: Node, n': Node, qs: set<Id>) {
    && (forall p :: p !in qs ==> (p in n'.matchIndex <==> p in n.matchIndex))
    && (forall p :: p !in qs && p in n.matchIndex && p in n'.matchIndex ==> n'.matchIndex[p] == n.matchIndex[p])
    && (forall p :: p !in qs ==> (p in n'.nextIndex <==> p in n.nextIndex))
    && (forall p :: p !in qs && p in n.nextIndex && p in n'.nextIndex ==> n'.nextIndex[p] == n.nextIndex[p])
  }

  /** A later term makes the leader step down; a reply to another term's request, or a success
      without entries, changes nothing. */
  lemma AppendReplyIgnored(me: Member, n: Node, r: AppendReply)
    requires InRange(n)
    ensures
      var v := OnAppendReply(me, n, r);
      && (r.term > n.currentTerm ==>
            v.role == Follower && v.currentTerm == r.term && v.votedFor == NO_VOTE && SameData(n, v))
      && (r.term <= n.currentTerm && (n.role != Leader || n.currentTerm != r.req.term) ==> v == n)
      && (r.term <= n.currentTerm && r.success && r.req.entries == [] ==> v == n)
  {
  }

  /** The leader takes the reply to be about its own term. */
  ghost predicate Heeded(n: Node, r: AppendReply) {
    n.role == Leader && n.currentTerm == r.req.term && r.term <= n.currentTerm
  }

  /** A success that carried entries sets both indices of the peer to the end of what was
      sent. Then every entry of the term that more than half hold, by the new indices, is
      committed and applied. */
  lemma AppendReplyCounted(me: Member, n: Node, r: AppendReply)
    requires InRange(n) && Heeded(n, r) && r.success && r.req.entries != []
    ensures
      var v := OnAppendReply(me, n, r);
      var q := r.req.to;
      && v.role == Leader && v.currentTerm == n.currentTerm && v.votedFor == n.votedFor && v.log == n.log
      && q in v.matchIndex && v.matchIndex[q] == r.req.prevLogIndex + |r.req.entries|
      && q in v.nextIndex && v.nextIndex[q] == r.req.prevLogIndex + |r.req.entries| + 1
      && OthersSame(n, v, {q})
      && (v.commitIndex == n.commitIndex || (v.commitIndex > n.commitIndex && MayCommit(me, v, v.commitIndex)))
      && (forall i :: MayCommit(me, v, i) ==> i <= v.commitIndex && i <= v.lastApplied)
      && (n.lastApplied < v.commitIndex ==> v.commitIndex < |n.log|)
      && AllApplied(n, v)
  {
    var indexed := Indexed(n, r);
    var v := OnAppendReply(me, n, r);
    CountedIs(me, n, r);
    CommitsAndApplies(me, indexed);
    forall i: int ensures MayCommit(me, v, i) <==> MayCommit(me, indexed, i) && (MayCommit(me, v, i) ==> 0 <= i < |n.log|) {
      SameIndices(me, indexed, v, i);
    }
    hide MayCommit, ApplyStateMachine, OnAppendReply;
  }

  /** The leader's record when the reply r has been noted. */
  function Indexed(n: Node, r: AppendReply): Node {
    n.(matchIndex := n.matchIndex[r.req.to := r.req.End() - 1], nextIndex := n.nextIndex[r.req.to := r.req.End()])
  }

  lemma CountedIs(me: Member, n: Node, r: AppendReply)
    requires InRange(n) && Heeded(n, r) && r.success && r.req.entries != []
    ensures InRange(Indexed(n, r)) && OnAppendReply(me, n, r) == ApplyStateMachine(me, Indexed(n, r))
  {
    hide ApplyStateMachine;
  }

  /** A refusal moves the peer's nextIndex to the index it names, or back by one if it names
      none; at 0 it stays. Nothing else changes. */
  lemma AppendReplyRefused(me: Member, n: Node, r: AppendReply)
    requires InRange(n) && Heeded(n, r) && !r.success
    ensures
      var v := OnAppendReply(me, n, r);
      var q := r.req.to;
      && (q !in n.nextIndex || n.nextIndex[q] == 0 ==> v == n)
      && (q in n.nextIndex && n.nextIndex[q] > 0 ==>
            && v == n.(nextIndex := v.nextIndex) && OthersSame(n, v, {q}) && q in v.nextIndex
            && v.nextIndex[q] == (if r.conflict.Some? then r.conflict.value else n.nextIndex[q] - 1))
  {
  }
}
