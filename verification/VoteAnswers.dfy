/**
 What a node answers to vote requests and makes of the replies to its own, case by case, in
 terms of logs and counts of nodes, whatever the rest of the cluster does.
 */
module VoteAnswers {
  import opened RaftTypes
  import opened LogMerge
  import opened Handlers

  // ----- Comparing logs -----

  /** x is at least as good as y: its last term is later, or the same and x is no shorter. */
  ghost predicate AsGood(x: Log, y: Log) {
    || y == []
    || (x != [] && x[|x| - 1].term > y[|y| - 1].term)
    || (x != [] && x[|x| - 1].term == y[|y| - 1].term && |x| >= |y|)
  }

  /** The comparison of onRequestVote, for a candidate whose log is x. */
  lemma ComparisonIs(x: Log, y: Log)
    ensures UpToDate(|x| - 1, LastTerm(x), y) <==> AsGood(x, y)
  {
  }

  /** Of two logs one is always acceptable to the holder of the other. */
  lemma OneIsAsGood(x: Log, y: Log)
    ensures AsGood(x, y) || AsGood(y, x)
  {
  }

  lemma AsGoodTransitive(x: Log, y: Log, z: Log)
    requires AsGood(x, y) && AsGood(y, z)
    ensures AsGood(x, z)
  {
  }

  /** A candidate that holds all that the voter holds is acceptable, however much longer. */
  lemma LongerIsAsGood(x: Log, y: Log)
    requires y <= x && forall i, j :: 0 <= i <= j < |x| ==> x[i].term <= x[j].term
    ensures AsGood(x, y)
  {
  }

  /** The request comes from a candidate whose log is x. */
  ghost predicate Carries(req: VoteReq, x: Log) {
    && req.lastLogIndex == |x| - 1
    && (x == [] ==> req.lastLogTerm == 0)
    && (x != [] ==> req.lastLogTerm == x[|x| - 1].term)
  }

  // ----- Votes -----

  /** A vote is granted exactly if the request is not stale, the vote is free in the request's
      term or the candidate's already, and the candidate's log is as good as the voter's. */
  lemma VoteGranted(n: Node, req: VoteReq, x: Log)
    requires Carries(req, x)
    ensures
      var o := OnRequestVote(n, req);
      && (o.reply.granted <==>
            && req.term >= n.currentTerm
            && (req.term > n.currentTerm || n.votedFor == NO_VOTE || n.votedFor == req.candidate)
            && AsGood(x, n.log))
      && (o.reply.granted ==> o.node.votedFor == req.candidate && o.node.currentTerm == req.term)
      && (!o.reply.granted && req.term > n.currentTerm ==> o.node.votedFor == NO_VOTE)
      && (!o.reply.granted && req.term <= n.currentTerm ==> o.node == n)
      && o.reply.req == req && o.reply.term == o.node.currentTerm
      && o.node.currentTerm == (if req.term > n.currentTerm then req.term else n.currentTerm)
      && o.node.role == (if req.term > n.currentTerm then Follower else n.role)
      && SameData(n, o.node)
  {
    ComparisonIs(x, n.log);
  }

  /** Log, indices and what was applied. */
  ghost predicate SameData(n: Node, n': Node) {
    && n'.log == n.log && n'.commitIndex == n.commitIndex && n'.lastApplied == n.lastApplied
    && n'.nextIndex == n.nextIndex && n'.matchIndex == n.matchIndex && n'.applied == n.applied
  }

  /** Stepping down empties the vote, also when the term stays. */
  lemma StepsDown(n: Node, term: nat)
    ensures
      var f := BecomeFollower(n, term);
      f.role == Follower && f.currentTerm == term && f.votedFor == NO_VOTE && SameData(n, f)
  {
  }

  /** A candidate that recognises another leader of its term has a free vote again, and gives
      it to the next candidate of that very term whose log is good enough. */
  lemma CandidateYields(me: Member, n: Node, m: AppendReq, req: VoteReq, x: Log)
    requires InRange(n) && n.role == Candidate && m.term == n.currentTerm == req.term && Carries(req, x)
    ensures
      var f := OnAppendEntries(me, n, m).node;
      && f.role == Follower && f.currentTerm == n.currentTerm && f.votedFor == NO_VOTE
      && (AsGood(x, f.log) ==>
            && OnRequestVote(f, req).reply.granted
            && OnRequestVote(f, req).node.votedFor == req.candidate
            && OnRequestVote(f, req).node.currentTerm == n.currentTerm)
  {
    AppendVote(me, n, m);
    VoteGranted(OnAppendEntries(me, n, m).node, req, x);
    hide OnAppendEntries, OnRequestVote;
  }

  lemma AppendVote(me: Member, n: Node, m: AppendReq)
    requires InRange(n) && n.role == Candidate && m.term == n.currentTerm
    ensures
      var f := OnAppendEntries(me, n, m).node;
      f.role == Follower && f.currentTerm == n.currentTerm && f.votedFor == NO_VOTE
  {
    hide ScanFrom, Merge;
  }

  // ----- Elections -----

  /** More than half of the members. */
  lemma MajorityIsMoreThanHalf(me: Member, k: nat)
    ensures k >= Majority(me) <==> 2 * k > |me.peers| + 1
  {
  }

  /** An election: a new term, the node's own vote, its log as it was. Without peers it is won. */
  lemma ElectionStarts(me: Member, n: Node)
    requires InRange(n)
    ensures
      var e := StartElection(me, n);
      && e.currentTerm == n.currentTerm + 1 && e.votedFor == me.id && e.votes == 1 && !e.won && e.log == n.log
      && (me.peers != {} ==> e.role == Candidate && SameData(n, e))
      && (me.peers == {} ==> e.role == Leader)
  {
    MajorityIsMoreThanHalf(me, 1);
    hide ScanFrom, Majority;
  }

  /** And one request for every peer, with the candidate's last index and term. */
  lemma CanvassIs(me: Member, n: Node, req: VoteReq)
    ensures req in Canvass(me, n) <==>
              req.to in me.peers && req.candidate == me.id && req.term == n.currentTerm && Carries(req, n.log)
  {
    assert Carries(req, n.log) <==> req.lastLogIndex == |n.log| - 1 && req.lastLogTerm == LastTerm(n.log);
  }

  /** A new leader's indices; everything else it keeps. */
  ghost predicate TakesOver(me: Member, n: Node, l: Node) {
    && l.role == Leader && l.currentTerm == n.currentTerm && l.votedFor == n.votedFor && l.log == n.log
    && l.commitIndex == n.commitIndex && l.lastApplied == n.lastApplied && l.applied == n.applied
    && (forall q :: q in me.peers ==> q in l.nextIndex && l.nextIndex[q] == |n.log|)
    && (forall q :: q in me.peers ==> q in l.matchIndex && l.matchIndex[q] == -1)
  }

  /** A reply of a later term makes the node step down; of the others only a grant of the
      running election counts, and the node leads as soon as more than half have voted for it. */
  lemma VoteReplyAnswered(me: Member, n: Node, reply: VoteReply)
    requires InRange(n) && me.peers != {} && (n.role == Candidate ==> !n.won)
    ensures
      var v := OnVoteReply(me, n, reply);
      var counts := n.role == Candidate && reply.req.term == n.currentTerm && reply.granted;
      && (reply.term > n.currentTerm ==>
            v.role == Follower && v.currentTerm == reply.term && v.votedFor == NO_VOTE && SameData(n, v))
      && (reply.term <= n.currentTerm && !counts ==> v == n)
      && (reply.term <= n.currentTerm && counts && 2 * (n.votes + 1) <= |me.peers| + 1 ==> v == n.(votes := n.votes + 1))
      && (reply.term <= n.currentTerm && counts && 2 * (n.votes + 1) > |me.peers| + 1 ==> TakesOver(me, n, v))
  {
    MajorityIsMoreThanHalf(me, n.votes + 1);
    hide Majority;
  }
}
