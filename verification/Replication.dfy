/**
 Appending, sending, storing and acknowledging entries keep Base.
 */
module Replications {
  import opened RaftTypes
  import opened Handlers
  import opened Clusters
  import opened Invariants
  import opened Growth
  import opened Persistence
  import opened LogSteps
  import opened CrownMerge
  import opened VoteSteps
  import opened BaseSteps

  // ----- Commit and apply leave Base alone -----

  ghost predicate TouchesCommit(n: Node, n': Node) {
    n' == n.(commitIndex := n'.commitIndex, lastApplied := n'.lastApplied, applied := n'.applied)
  }

  lemma TouchVote(s: Cluster, v: Id, n: Node)
    requires v in s.nodes && NodeVote(s, v) && TouchesCommit(s.nodes[v], n)
    ensures NodeVote(SetNode(s, v, n), v)
  {
  }

  lemma TouchLeads(cfg: Config, s: Cluster, v: Id, n: Node)
    requires v in s.nodes && Leads(cfg, s, v) && TouchesCommit(s.nodes[v], n)
    ensures Leads(cfg, SetNode(s, v, n), v)
  {
    if n.role == Leader && n.currentTerm in s.reigns {
      forall q | q in n.nextIndex ensures NextOk(SetNode(s, v, n), n.currentTerm, q, n.nextIndex[q]) {
        assert NextOk(s, n.currentTerm, q, n.nextIndex[q]);
      }
    }
  }

  lemma TouchFacts(cfg: Config, s: Cluster, v: Id, n: Node)
    requires Leaders(cfg, s) && NodeVotes(s) && v in s.nodes && TouchesCommit(s.nodes[v], n)
    ensures NodeFacts(cfg, SetNode(s, v, n), v)
  {
    TouchVote(s, v, n);
    TouchLeads(cfg, s, v, n);
  }

  lemma TouchBase(cfg: Config, s: Cluster, v: Id, n: Node)
    requires Base(cfg, s) && v in s.nodes && TouchesCommit(s.nodes[v], n)
    ensures Base(cfg, SetNode(s, v, n)) && Grows(s, SetNode(s, v, n))
  {
    TouchFacts(cfg, s, v, n);
    SetNodeBase(cfg, s, v, n);
  }

  lemma ApplyTouches(me: Member, n: Node)
    requires InRange(n)
    ensures InRange(ApplyStateMachine(me, n)) && TouchesCommit(n, ApplyStateMachine(me, n))
    ensures ApplyStateMachine(me, n).commitIndex >= n.commitIndex
  {
  }

  // ----- Submitting a command -----

  function Lengthen(s: Cluster, v: Id, e: Entry): Cluster
    requires v in s.nodes && s.nodes[v].currentTerm in s.reigns
  {
    var n := s.nodes[v];
    var t := n.currentTerm;
    s.(nodes := s.nodes[v := n.(log := n.log + [e])],
       reigns := s.reigns[t := s.reigns[t].(log := n.log + [e])],
       acked := s.acked[TermId(t, v) := |n.log| + 1])
  }

  lemma LengthenNode(cfg: Config, s: Cluster, v: Id, e: Entry)
    requires Leaders(cfg, s) && v in s.nodes && NodeVote(s, v)
    requires s.nodes[v].role == Leader && e.term == s.nodes[v].currentTerm
    requires Grows(s, Lengthen(s, v, e)) && Respects(s, Lengthen(s, v, e))
    ensures NodeFacts(cfg, Lengthen(s, v, e), v)
  {
    LeadsPersists(cfg, s, Lengthen(s, v, e), v);
  }

  lemma LengthenOnlyAt(cfg: Config, s: Cluster, v: Id, e: Entry)
    requires v in s.nodes && NodeVote(s, v) && s.nodes[v].role == Leader && e.term == s.nodes[v].currentTerm
    requires Grows(s, Lengthen(s, v, e)) && Respects(s, Lengthen(s, v, e))
    ensures OnlyAt(s, Lengthen(s, v, e), v) && HistoryFacts(cfg, s, Lengthen(s, v, e))
    ensures VoteMessageFacts(cfg, s, Lengthen(s, v, e)) && AppendMessageFacts(s, Lengthen(s, v, e))
  {
    hide Grows, Respects, BallotOk, ReignVote, VoteReqOk, VoteReplyOk, ParkedOk, AppendOk, AppendReplyOk;
  }

  lemma LengthenAppends(s: Cluster, v: Id, e: Entry)
    requires v in s.nodes && NodeVote(s, v) && s.nodes[v].role == Leader && e.term == s.nodes[v].currentTerm
    ensures Appends(s, Lengthen(s, v, e), v, e)
  {
  }

  lemma LengthenLogs(cfg: Config, s: Cluster, v: Id, e: Entry)
    requires LogPart(cfg, s) && NodeVotes(s) && ReignVotes(cfg, s)
    requires v in s.nodes && s.nodes[v].role == Leader && e.term == s.nodes[v].currentTerm
    ensures s.nodes[v].currentTerm in s.reigns
    ensures LogPart(cfg, Lengthen(s, v, e))
    ensures Grows(s, Lengthen(s, v, e)) && Respects(s, Lengthen(s, v, e))
  {
    LengthenAppends(s, v, e);
    AppendLogs(cfg, s, Lengthen(s, v, e), v, e);
  }

  lemma LengthenBase(cfg: Config, s: Cluster, v: Id, e: Entry)
    requires Base(cfg, s) && v in s.nodes && s.nodes[v].role == Leader && e.term == s.nodes[v].currentTerm
    ensures s.nodes[v].currentTerm in s.reigns
    ensures Base(cfg, Lengthen(s, v, e)) && Grows(s, Lengthen(s, v, e))
  {
    LengthenLogs(cfg, s, v, e);
    assert NodeVote(s, v);
    LengthenNode(cfg, s, v, e);
    LengthenOnlyAt(cfg, s, v, e);
    Assemble(cfg, s, Lengthen(s, v, e), v);
  }

  // ----- Sending -----

  lemma MakeAppendOk(cfg: Config, s: Cluster, v: Id, q: Id)
    requires v in s.nodes && NodeVote(s, v) && Leads(cfg, s, v) && s.nodes[v].role == Leader
    requires q in cfg.members - {v}
    ensures AppendOk(s, MakeAppend(Self(cfg, v), s.nodes[v], q))
  {
    var n := s.nodes[v];
    assert q in n.nextIndex;
  }

  function Send(cfg: Config, s: Cluster, v: Id): Cluster
    requires v in s.nodes
  {
    s.(appends := s.appends + Broadcast(Self(cfg, v), s.nodes[v]))
  }

  lemma SendMessages(cfg: Config, s: Cluster, v: Id)
    requires v in s.nodes && NodeVote(s, v) && Leads(cfg, s, v)
    ensures OnlyMessages(s, Send(cfg, s, v))
    ensures VoteMessageFacts(cfg, s, Send(cfg, s, v)) && AppendMessageFacts(s, Send(cfg, s, v))
  {
    forall m | m in Broadcast(Self(cfg, v), s.nodes[v]) ensures AppendOk(Send(cfg, s, v), m) {
      MakeAppendOk(cfg, s, v, m.to);
      assert AppendOk(s, m);
    }
  }

  lemma SendBase(cfg: Config, s: Cluster, v: Id)
    requires Base(cfg, s) && v in s.nodes
    ensures Base(cfg, Send(cfg, s, v)) && Grows(s, Send(cfg, s, v))
  {
    assert NodeVote(s, v) && Leads(cfg, s, v);
    SendMessages(cfg, s, v);
    MessagesBase(cfg, s, Send(cfg, s, v), v);
  }

  // ----- A reply reaches the leader -----

  function Reindexed(n: Node, q: Id, next: nat, matched: int): Node {
    n.(nextIndex := n.nextIndex[q := next], matchIndex := n.matchIndex[q := matched])
  }

  lemma ReindexVote(s: Cluster, v: Id, q: Id, next: nat, matched: int)
    requires v in s.nodes && NodeVote(s, v)
    ensures NodeVote(SetNode(s, v, Reindexed(s.nodes[v], q, next, matched)), v)
  {
  }

  lemma ReindexLeads(cfg: Config, s: Cluster, v: Id, q: Id, next: nat, matched: int)
    requires v in s.nodes && Leads(cfg, s, v) && s.nodes[v].role == Leader && q in cfg.members - {v}
    requires s.nodes[v].currentTerm in s.reigns && q in s.nodes
    requires next <= |s.nodes[v].log| && NextOk(s, s.nodes[v].currentTerm, q, next)
    requires matched < Acked(s.acked, s.nodes[v].currentTerm, q)
    ensures Leads(cfg, SetNode(s, v, Reindexed(s.nodes[v], q, next, matched)), v)
  {
    var n := Reindexed(s.nodes[v], q, next, matched);
    var s' := SetNode(s, v, n);
    forall p | p in n.nextIndex ensures p in s.nodes && NextOk(s', n.currentTerm, p, n.nextIndex[p]) {
      assert p != q ==> p in s.nodes[v].nextIndex && NextOk(s, n.currentTerm, p, s.nodes[v].nextIndex[p]);
    }
  }

  lemma ReindexBase(cfg: Config, s: Cluster, v: Id, q: Id, next: nat, matched: int)
    requires Base(cfg, s) && v in s.nodes && s.nodes[v].role == Leader && q in cfg.members - {v}
    requires s.nodes[v].currentTerm in s.reigns && q in s.nodes
    requires next <= |s.nodes[v].log| && NextOk(s, s.nodes[v].currentTerm, q, next)
    requires matched < Acked(s.acked, s.nodes[v].currentTerm, q)
    ensures Base(cfg, SetNode(s, v, Reindexed(s.nodes[v], q, next, matched)))
    ensures Grows(s, SetNode(s, v, Reindexed(s.nodes[v], q, next, matched)))
  {
    ReindexVote(s, v, q, next, matched);
    ReindexLeads(cfg, s, v, q, next, matched);
    assert s.nodes[v].nextIndex.Keys <= cfg.members - {v};
    SetNodeBase(cfg, s, v, Reindexed(s.nodes[v], q, next, matched));
  }

  // ----- A follower stores entries -----

  /** The merge alone, with its acknowledgement. */
  function Keep(s: Cluster, v: Id, end: nat, y: Log): Cluster
    requires v in s.nodes
  {
    var n := s.nodes[v];
    var had := Acked(s.acked, n.currentTerm, v);
    s.(nodes := s.nodes[v := n.(log := y)],
       acked := s.acked[TermId(n.currentTerm, v) := if had <= end then end else had])
  }

  ghost predicate Keepable(s: Cluster, v: Id, end: nat, y: Log) {
    && v in s.nodes && s.nodes[v].role == Follower
    && s.nodes[v].currentTerm in s.reigns && s.reigns[s.nodes[v].currentTerm].leader != v
    && MergedUpTo(s.nodes[v].log, s.reigns[s.nodes[v].currentTerm].log, end, y)
  }

  lemma KeepMerges(s: Cluster, v: Id, end: nat, y: Log)
    requires Keepable(s, v, end, y)
    ensures Merges(s, Keep(s, v, end, y), v, end)
  {
  }

  lemma KeepIsAt(s: Cluster, v: Id, end: nat, y: Log)
    requires Keepable(s, v, end, y) && Grows(s, Keep(s, v, end, y)) && Respects(s, Keep(s, v, end, y))
    ensures OnlyAt(s, Keep(s, v, end, y), v)
  {
  }

  lemma KeepOnlyAt(cfg: Config, s: Cluster, v: Id, end: nat, y: Log)
    requires Keepable(s, v, end, y) && LogPart(cfg, s)
    ensures LogPart(cfg, Keep(s, v, end, y)) && OnlyAt(s, Keep(s, v, end, y), v)
  {
    KeepMerges(s, v, end, y);
    MergeLogs(cfg, s, Keep(s, v, end, y), v, end);
    KeepIsAt(s, v, end, y);
  }

  lemma KeepFacts(cfg: Config, s: Cluster, v: Id, end: nat, y: Log)
    requires Keepable(s, v, end, y) && Leaders(cfg, s) && NodeVote(s, v)
    ensures NodeFacts(cfg, Keep(s, v, end, y), v) && HistoryFacts(cfg, s, Keep(s, v, end, y))
    ensures VoteMessageFacts(cfg, s, Keep(s, v, end, y)) && AppendMessageFacts(s, Keep(s, v, end, y))
  {
  }

  lemma KeepBase(cfg: Config, s: Cluster, v: Id, end: nat, y: Log)
    requires Base(cfg, s) && Keepable(s, v, end, y)
    ensures Base(cfg, Keep(s, v, end, y)) && Grows(s, Keep(s, v, end, y))
  {
    KeepOnlyAt(cfg, s, v, end, y);
    assert NodeVote(s, v);
    KeepFacts(cfg, s, v, end, y);
    Assemble(cfg, s, Keep(s, v, end, y), v);
  }

  lemma ReplyBase(cfg: Config, s: Cluster, r: AppendReply, v: Id)
    requires Base(cfg, s) && AppendReplyOk(s, r) && v in s.nodes
    ensures Base(cfg, s.(appendReplies := s.appendReplies + {r})) && Grows(s, s.(appendReplies := s.appendReplies + {r}))
  {
    ReplyMessages(cfg, s, r);
    MessagesBase(cfg, s, s.(appendReplies := s.appendReplies + {r}), v);
  }

  lemma ReplyMessages(cfg: Config, s: Cluster, r: AppendReply)
    requires AppendReplyOk(s, r)
    ensures var s' := s.(appendReplies := s.appendReplies + {r});
            OnlyMessages(s, s') && VoteMessageFacts(cfg, s, s') && AppendMessageFacts(s, s')
  {
  }

  /** Once it has stored an entry, a follower holds nothing its leader does not. */
  lemma StoredFollows(x: Log, ll: Log, first: nat, end: nat, y: Log)
    requires MergedUpTo(x, ll, end, y) && first < end
    requires x <= ll || PartsBy(x, ll, first)
    ensures y <= ll
  {
    if y == x && ll[..end] <= x {
      assert x[..first + 1] == x[..end][..first + 1] == ll[..first + 1];
    }
  }

  /** Where the consistency check fails, the logs part by the index it reports. */
  lemma ConflictParts(x: Log, ll: Log, prev: nat)
    requires prev < |ll| && (prev >= |x| || x[prev].term != ll[prev].term)
    ensures x <= ll || PartsBy(x, ll, Min(prev, |x|))
  {
    if prev >= |x| {
      assert x[..Min(|x| + 1, |x|)] == x;
    } else {
      assert x[..prev + 1][prev] == x[prev] && ll[..prev + 1][prev] == ll[prev];
    }
  }
}
