/**
 The point at which becomeFollower gives the mutex up inside onAppendEntries
 (server/raft_node.cpp:268-276, reached from :538), while the term does not move on.

 A leader that hears of a later term by an AppendEntries steps down, lets go of the mutex,
 and goes on with the request when it has the mutex again. The code does not look at the
 term again. While the term is still the request's, that makes no difference.
 */
module LockGap {
  import opened RaftTypes
  import opened Handlers
  import opened Clusters
  import opened Invariants
  import opened Steps
  import opened Actors
  import opened Gaps
  import opened InBounds

  /** Only a refusal differs, in the term it carries, and no leader can tell. */
  lemma RefusalTermIsIgnored(me: Member, l: Node, r: AppendReply, heard: nat)
    requires InRange(l) && r.term <= l.currentTerm && heard <= l.currentTerm
    ensures OnAppendReply(me, l, r.(term := heard)) == OnAppendReply(me, l, r)
  {
    hide ApplyStateMachine;
  }

  /** What the sender makes of the two replies is the same. */
  ghost predicate SameToSender(me: Member, m: AppendReq, r: AppendReply, r': AppendReply) {
    forall l: Node :: InRange(l) && l.currentTerm >= m.term ==> OnAppendReply(me, l, r) == OnAppendReply(me, l, r')
  }

  lemma RefusalSameToSender(me: Member, m: AppendReq, r: AppendReply, r': AppendReply, heard: nat)
    requires heard <= m.term && r'.term <= m.term && (r == r' || r == r'.(term := heard))
    ensures SameToSender(me, m, r, r')
  {
    hide OnAppendReply;
    forall l: Node | InRange(l) && l.currentTerm >= m.term ensures OnAppendReply(me, l, r) == OnAppendReply(me, l, r') {
      RefusalTermIsIgnored(me, l, r', heard);
    }
  }

  lemma WaitsAsFollower(s: Cluster, p: Paused)
    requires Waiting(s) && p in s.parkedAppends
    ensures p.req in s.appends && p.req.to in s.nodes && p.heard < p.req.term
    ensures s.nodes[p.req.to].currentTerm == p.req.term ==> s.nodes[p.req.to].role == Follower
  {
    assert WaitOk(s, p);
  }

  lemma ResumeOffered(s: Cluster, p: Paused)
    requires p in s.parkedAppends && p.req.to in s.nodes
    ensures Offered(s, ResumeAppend(p)) && Actor(ResumeAppend(p)) == p.req.to
    ensures Enabled(s, ResumeAppend(p)) ==> InRange(s.nodes[p.req.to])
  {
  }

  lemma InRangeMeans(n: Node)
    requires InRange(n)
    ensures -1 <= n.lastApplied && -1 <= n.commitIndex
  {
  }

  lemma AfterBoth(cfg: Config, s: Cluster, p: Paused)
    requires Enabled(s, ResumeAppend(p))
    ensures p.req.to in s.nodes && InRange(s.nodes[p.req.to])
    ensures DeliverAppendStep(cfg, s, p.req).nodes ==
            s.nodes[p.req.to := OnAppendEntries(Self(cfg, p.req.to), s.nodes[p.req.to], p.req).node]
    ensures ActorAfter(cfg, s, ResumeAppend(p)) == ContinueAppend(Self(cfg, p.req.to), s.nodes[p.req.to], p).node
  {
    hide OnAppendEntries, ContinueAppend;
  }

  lemma ContinueIsHandling(me: Member, n: Node, p: Paused)
    requires InRange(n) && n.currentTerm == p.req.term && n.role == Follower && p.heard <= p.req.term
    ensures
      var o := ContinueAppend(me, n, p);
      var again := OnAppendEntries(me, n, p.req);
      && o.node == again.node && again.reply.term <= p.req.term
      && (o.reply == again.reply || o.reply == again.reply.(term := p.heard))
  {
    if PrevMatches(n.log, p.req) { StoreTouches(me, n, p.req); }
    hide Store;
  }

  /** While the term is the request's, the rest of the handler does what handling the
      request afresh would do, to its node and, once it replies, to its sender. */
  lemma SameTermResume(cfg: Config, s: Cluster, p: Paused)
    requires Reachable(cfg, s) && p in s.parkedAppends
    requires p.req.to in s.nodes && s.nodes[p.req.to].currentTerm == p.req.term
    ensures Enabled(s, ResumeAppend(p)) && InRange(s.nodes[p.req.to])
    ensures
      && Next(cfg, s, ResumeAppend(p)).nodes == DeliverAppendStep(cfg, s, p.req).nodes
      && SameToSender(Self(cfg, p.req.leader), p.req, ContinueAppend(Self(cfg, p.req.to), s.nodes[p.req.to], p).reply,
                      OnAppendEntries(Self(cfg, p.req.to), s.nodes[p.req.to], p.req).reply)
  {
    hide *;
    ReachableWaiting(cfg, s);
    WaitsAsFollower(s, p);
    ResumeOffered(s, p);
    NoReadOutsideLog(cfg, s, ResumeAppend(p));
    InRangeMeans(s.nodes[p.req.to]);
    NextNodes(cfg, s, ResumeAppend(p));
    AfterBoth(cfg, s, p);
    ContinueIsHandling(Self(cfg, p.req.to), s.nodes[p.req.to], p);
    RefusalSameToSender(Self(cfg, p.req.leader), p.req, ContinueAppend(Self(cfg, p.req.to), s.nodes[p.req.to], p).reply,
                        OnAppendEntries(Self(cfg, p.req.to), s.nodes[p.req.to], p.req).reply, p.heard);
  }
}
