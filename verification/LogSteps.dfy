/**
 The four ways a step can touch logs, terms, reigns and acknowledgements, each shown
 to keep the log invariants and to respect what senders rely on.
 */
module LogSteps {
  import opened RaftTypes
  import opened Clusters
  import opened Invariants
  import opened Growth
  import opened Persistence

  ghost predicate SameLog(s: Cluster, s': Cluster, v: Id)
    requires v in s.nodes && v in s'.nodes
  {
    s'.nodes[v].log == s.nodes[v].log && s'.nodes[v].currentTerm == s.nodes[v].currentTerm
  }

  ghost predicate FirstVotesGrow(s: Cluster, s': Cluster) {
    forall key :: key in s.firstVote ==> key in s'.firstVote && s'.firstVote[key] == s.firstVote[key]
  }

  // ----- Terms move up; logs stay -----

  ghost predicate Climbs(s: Cluster, s': Cluster) {
    && s'.nodes.Keys == s.nodes.Keys
    && s'.reigns == s.reigns && s'.acked == s.acked
    && FirstVotesGrow(s, s')
    && forall v :: v in s.nodes ==>
         s'.nodes[v].log == s.nodes[v].log && s.nodes[v].currentTerm <= s'.nodes[v].currentTerm
  }

  /** A node whose log has no entry of term t parts from that leader's log, if at all,
      no later than where the leader's own entries begin. */
  lemma PartsBeforeOwn(s: Cluster, t: nat, x: Log, p: nat)
    requires t in s.reigns && ReignLog(s.reigns, t) && s.reigns[t].start <= p
    requires forall i :: 0 <= i < |x| ==> x[i].term < t
    ensures x <= s.reigns[t].log || PartsBy(x, s.reigns[t].log, p)
  {
    var ll := s.reigns[t].log;
    if p < |x| {
      assert x[..p + 1][p] == x[p];
      assert p < |ll| ==> ll[..p + 1][p] == ll[p] && ll[p].term == t;
    } else {
      assert x[..Min(p + 1, |x|)] == x;
    }
  }

  lemma ClimbNode(s: Cluster, s': Cluster, v: Id)
    requires Climbs(s, s') && Acks(s) && v in s.nodes && NodeLog(s, v)
    ensures NodeLog(s', v)
  {
    var t := s'.nodes[v].currentTerm;
    if t > s.nodes[v].currentTerm {
      assert TermId(t, v) !in s.acked;
    }
  }

  lemma ClimbGrows(s: Cluster, s': Cluster)
    requires Climbs(s, s')
    ensures Grows(s, s')
  {
  }

  lemma ClimbNext(s: Cluster, s': Cluster, t: nat, q: Id, p: nat)
    requires Climbs(s, s') && t in s.reigns && q in s.nodes
    requires ReignLog(s.reigns, t) && NodeLog(s, q) && NextOk(s, t, q, p)
    ensures ReignGrows(s, s', t) && NextOk(s', t, q, p)
  {
    if s.nodes[q].currentTerm < t == s'.nodes[q].currentTerm {
      PartsBeforeOwn(s, t, s.nodes[q].log, p);
    }
  }

  lemma ClimbFollows(s: Cluster, s': Cluster, t: nat, q: Id)
    requires Climbs(s, s') && t in s.reigns && q in s.nodes && Follows(s, t, q)
    ensures ReignGrows(s, s', t) && Follows(s', t, q)
  {
  }

  lemma ClimbRespects(s: Cluster, s': Cluster)
    requires Climbs(s, s') && ReignLogs(s) && NodeLogs(s)
    ensures Grows(s, s') && Respects(s, s')
  {
    ClimbGrows(s, s');
    hide Climbs, Grows, NextOk, Follows, ReignGrows, ReignLog, NodeLog;
    forall t: nat, q, p: nat | t in s.reigns && q in s.nodes && NextOk(s, t, q, p)
      ensures ReignGrows(s, s', t) && NextOk(s', t, q, p)
    {
      ClimbNext(s, s', t, q, p);
    }
    forall t: nat, q | t in s.reigns && q in s.nodes && Follows(s, t, q)
      ensures ReignGrows(s, s', t) && Follows(s', t, q)
    {
      ClimbFollows(s, s', t, q);
    }
  }

  lemma ClimbLogs(cfg: Config, s: Cluster, s': Cluster)
    requires Climbs(s, s') && LogPart(cfg, s)
    ensures Grows(s, s') && Respects(s, s') && LogPart(cfg, s')
  {
    ClimbRespects(s, s');
    forall v | v in s'.nodes ensures NodeLog(s', v) { ClimbNode(s, s', v); }
    forall v, t: nat, k: nat | v in s'.nodes && Own(s'.reigns, t, k) && k <= Acked(s'.acked, t, v)
      ensures Holds(cfg, s', t, k, s'.nodes[v].log)
    {
      HoldsGrows(cfg, s, s', t, k, s.nodes[v].log, s'.nodes[v].log);
    }
    forall t: nat, t1: nat, k: nat | Own(s'.reigns, t, k) && t1 in s'.reigns && t < t1
      ensures Holds(cfg, s', t, k, s'.reigns[t1].log)
    {
      HoldsGrows(cfg, s, s', t, k, s.reigns[t1].log, s.reigns[t1].log);
    }
  }

  // ----- A leader appends to its log -----

  ghost predicate Appends(s: Cluster, s': Cluster, v: Id, e: Entry) {
    && v in s.nodes && s'.nodes.Keys == s.nodes.Keys
    && e.term == s.nodes[v].currentTerm == s'.nodes[v].currentTerm
    && e.term in s.reigns && s.reigns[e.term].leader == v && s.reigns[e.term].log == s.nodes[v].log
    && s'.nodes[v].log == s.nodes[v].log + [e]
    && s'.reigns == s.reigns[e.term := s.reigns[e.term].(log := s.nodes[v].log + [e])]
    && s'.acked == s.acked[TermId(e.term, v) := |s.nodes[v].log| + 1]
    && s'.firstVote == s.firstVote
    && forall q :: q in s.nodes && q != v ==> SameLog(s, s', q)
  }

  lemma AppendGrows(s: Cluster, s': Cluster, v: Id, e: Entry)
    requires Appends(s, s', v, e) && Acks(s)
    ensures Grows(s, s')
  {
    var t := s.nodes[v].currentTerm;
    assert s.reigns[t].log <= s'.reigns[t].log;
    assert Acked(s.acked, t, s.reigns[t].leader) == |s.reigns[t].log|;
    forall t0: nat, q: Id ensures AckGrows(s, s', t0, q) {}
  }

  lemma LongerCoherent(reigns: map<nat, Reign>, x: Log, e: Entry)
    requires Coherent(reigns, x) && e.term in reigns && x + [e] <= reigns[e.term].log
    ensures Coherent(reigns, x + [e])
  {
    forall i | 0 <= i < |x| + 1
      ensures (x + [e])[i].term in reigns && (x + [e])[..i + 1] <= reigns[(x + [e])[i].term].log
    {
      if i < |x| {
        assert (x + [e])[i] == x[i] && (x + [e])[..i + 1] == x[..i + 1];
      } else {
        assert (x + [e])[..i + 1] == x + [e];
      }
    }
  }

  lemma AppendReignLog(s: Cluster, s': Cluster, v: Id, e: Entry, t: nat)
    requires Appends(s, s', v, e) && t in s.reigns && ReignLog(s.reigns, t)
    requires Coherent(s'.reigns, s.reigns[t].log)
    ensures ReignLog(s'.reigns, t)
  {
    hide Coherent;
    if t == e.term {
      LongerCoherent(s'.reigns, s.reigns[t].log, e);
    }
  }

  lemma AppendReignLogs(s: Cluster, s': Cluster, v: Id, e: Entry)
    requires Appends(s, s', v, e) && Grows(s, s') && ReignLogs(s)
    ensures ReignLogs(s')
  {
    hide Grows, Coherent;
    forall t | t in s'.reigns ensures ReignLog(s'.reigns, t) {
      assert ReignLog(s.reigns, t);
      CoherentGrows(s, s', s.reigns[t].log);
      AppendReignLog(s, s', v, e, t);
    }
  }

  lemma AppendNodeLogs(s: Cluster, s': Cluster, v: Id, e: Entry)
    requires Appends(s, s', v, e) && Grows(s, s') && ReignLogs(s') && NodeLogs(s) && Acks(s)
    ensures NodeLogs(s')
  {
    var t := s.nodes[v].currentTerm;
    forall q | q in s'.nodes ensures NodeLog(s', q) {
      assert NodeLog(s, q);
      if q == v {
        AppendOwnLog(s, s', v, e);
      } else {
        AppendOtherLog(s, s', v, e, q);
      }
    }
  }

  lemma AppendOwnLog(s: Cluster, s': Cluster, v: Id, e: Entry)
    requires Appends(s, s', v, e) && ReignLogs(s')
    ensures NodeLog(s', v)
  {
    var t := s.nodes[v].currentTerm;
    assert ReignLog(s'.reigns, t);
    assert s'.reigns[t].log == s'.nodes[v].log;
    assert s'.reigns[t].log[..|s'.nodes[v].log|] == s'.nodes[v].log;
  }

  lemma AppendOtherLog(s: Cluster, s': Cluster, v: Id, e: Entry, q: Id)
    requires Appends(s, s', v, e) && Grows(s, s')
    requires q in s.nodes && q != v && NodeLog(s, q)
    ensures NodeLog(s', q)
  {
    var t := s.nodes[q].currentTerm;
    CoherentGrows(s, s', s.nodes[q].log);
    var a := Acked(s.acked, t, q);
    assert Acked(s'.acked, t, q) == a;
    if a > 0 {
      assert ReignGrows(s, s', t);
      assert s'.reigns[t].log[..a] == s.reigns[t].log[..a];
    }
  }

  lemma AppendAck(s: Cluster, s': Cluster, v: Id, e: Entry, key: TermId)
    requires Appends(s, s', v, e) && Acks(s) && key in s'.acked
    ensures key.term in s'.reigns && key.id in s'.nodes
    ensures key.term <= s'.nodes[key.id].currentTerm && s'.acked[key] <= |s'.reigns[key.term].log|
  {
    assert key.id in s.nodes && key.id != v ==> SameLog(s, s', key.id);
  }

  lemma AppendAcks(s: Cluster, s': Cluster, v: Id, e: Entry)
    requires Appends(s, s', v, e) && Acks(s)
    ensures Acks(s')
  {
    forall key | key in s'.acked
      ensures key.term in s'.reigns && key.id in s'.nodes
      ensures key.term <= s'.nodes[key.id].currentTerm && s'.acked[key] <= |s'.reigns[key.term].log|
    {
      AppendAck(s, s', v, e, key);
    }
    forall t | t in s'.reigns ensures Acked(s'.acked, t, s'.reigns[t].leader) == |s'.reigns[t].log| {
      assert Acked(s.acked, t, s.reigns[t].leader) == |s.reigns[t].log|;
    }
  }

  /** The new entry is blocked for later leaders: their voters had left the term. */
  lemma AppendBlocked(cfg: Config, s: Cluster, s': Cluster, v: Id, e: Entry, t1: nat)
    requires Appends(s, s', v, e) && Grows(s, s') && Acks(s) && NodeVotes(s) && ReignVotes(cfg, s)
    requires t1 in s.reigns && s.nodes[v].currentTerm < t1
    ensures Blocked(cfg, s', s.nodes[v].currentTerm, |s.nodes[v].log| + 1)
  {
    var t := s.nodes[v].currentTerm;
    var b := s.reigns[t1].electors;
    assert ReignVote(cfg, s, t1);
    forall q | q in b
      ensures q in s'.nodes && s'.nodes[q].currentTerm > t && Acked(s'.acked, t, q) < |s.nodes[v].log| + 1
    {
      assert TermId(t1, q) in s.firstVote;
      assert AckGrows(s, s', t, q);
    }
    assert Missed(s', t, |s.nodes[v].log| + 1, b);
  }

  lemma AppendKeeps(cfg: Config, s: Cluster, s': Cluster, v: Id, e: Entry)
    requires Appends(s, s', v, e) && Grows(s, s') && LogPart(cfg, s)
    ensures Keeps(cfg, s')
  {
    var t := s.nodes[v].currentTerm;
    forall q, t0: nat, k: nat | q in s'.nodes && Own(s'.reigns, t0, k) && k <= Acked(s'.acked, t0, q)
      ensures Holds(cfg, s', t0, k, s'.nodes[q].log)
    {
      if q == v && t0 == t {
        assert s'.reigns[t].log[..k] <= s'.nodes[v].log;
      } else {
        assert Acked(s'.acked, t0, q) == Acked(s.acked, t0, q);
        assert TermId(t0, q) in s.acked;
        assert ReignGrows(s, s', t0);
        assert Own(s.reigns, t0, k);
        HoldsGrows(cfg, s, s', t0, k, s.nodes[q].log, s'.nodes[q].log);
      }
    }
  }

  lemma AppendWasOwn(s: Cluster, s': Cluster, v: Id, e: Entry, t: nat, k: nat)
    requires Appends(s, s', v, e) && Own(s'.reigns, t, k)
    requires t != s.nodes[v].currentTerm || k != |s.nodes[v].log| + 1
    ensures Own(s.reigns, t, k)
  {
  }

  lemma AppendHolds(cfg: Config, s: Cluster, s': Cluster, v: Id, e: Entry, t0: nat, t1: nat, k: nat)
    requires Grows(s, s') && Completeness(cfg, s) && Own(s.reigns, t0, k) && t1 in s.reigns && t0 < t1
    ensures Own(s'.reigns, t0, k) && t1 in s'.reigns && Holds(cfg, s', t0, k, s'.reigns[t1].log)
  {
    assert ReignGrows(s, s', t1);
    HoldsGrows(cfg, s, s', t0, k, s.reigns[t1].log, s'.reigns[t1].log);
  }

  lemma AppendCompleteness(cfg: Config, s: Cluster, s': Cluster, v: Id, e: Entry)
    requires Appends(s, s', v, e) && Grows(s, s') && LogPart(cfg, s) && NodeVotes(s) && ReignVotes(cfg, s)
    ensures Completeness(cfg, s')
  {
    var t := s.nodes[v].currentTerm;
    hide Grows, NodeVotes, ReignVotes, Blocked, Own, NodeLogs, ReignLogs, Acks, Keeps;
    forall t0: nat, t1: nat, k: nat | Own(s'.reigns, t0, k) && t1 in s'.reigns && t0 < t1
      ensures Holds(cfg, s', t0, k, s'.reigns[t1].log)
    {
      if t0 == t && k == |s.nodes[v].log| + 1 {
        AppendBlocked(cfg, s, s', v, e, t1);
      } else {
        AppendWasOwn(s, s', v, e, t0, k);
        AppendHolds(cfg, s, s', v, e, t0, t1, k);
      }
    }
  }

  /** A log without e's term at the place of e still parts from the longer log. */
  lemma LongerStillParts(x: Log, ll: Log, e: Entry, p: nat)
    requires PartsBy(x, ll, p)
    requires |ll| < |x| ==> x[|ll|] != e
    ensures PartsBy(x, ll + [e], p)
  {
    var y := x[..Min(p + 1, |x|)];
    if |y| <= |ll| {
      assert (ll + [e])[..|y|] == ll[..|y|];
    } else {
      assert y[|ll|] == x[|ll|] && (ll + [e])[..|ll| + 1][|ll|] == e;
    }
  }

  lemma AppendNext(s: Cluster, s': Cluster, v: Id, e: Entry, t: nat, q: Id, p: nat)
    requires Appends(s, s', v, e) && Grows(s, s') && NodeLogs(s) && Acks(s)
    requires t in s.reigns && q in s.nodes && NextOk(s, t, q, p)
    ensures ReignGrows(s, s', t) && NextOk(s', t, q, p)
  {
    assert ReignGrows(s, s', t);
    var x := s.nodes[q].log;
    var ll := s.reigns[t].log;
    if t == s.nodes[v].currentTerm == s.nodes[q].currentTerm {
      if q == v {
        assert s'.nodes[v].log == s'.reigns[t].log;
      } else if x <= ll {
        PrefixTransitive(x, ll, s'.reigns[t].log);
      } else {
        assert NodeLog(s, q);
        LongerStillParts(x, ll, e, p);
      }
    }
  }

  lemma AppendFollows(s: Cluster, s': Cluster, v: Id, e: Entry, t: nat, q: Id)
    requires Appends(s, s', v, e) && Grows(s, s') && t in s.reigns && q in s.nodes && Follows(s, t, q)
    ensures ReignGrows(s, s', t) && Follows(s', t, q)
  {
    assert ReignGrows(s, s', t);
    if q == v && s.nodes[q].currentTerm == t {
      assert s'.nodes[v].log == s'.reigns[t].log;
    } else if s.nodes[q].currentTerm == t {
      PrefixTransitive(s.nodes[q].log, s.reigns[t].log, s'.reigns[t].log);
    }
  }

  lemma AppendRespects(s: Cluster, s': Cluster, v: Id, e: Entry)
    requires Appends(s, s', v, e) && Grows(s, s') && NodeLogs(s) && Acks(s)
    ensures Respects(s, s')
  {
    hide NodeLogs, Acks, NextOk, Follows, PartsBy;
    forall t: nat, q, p: nat | t in s.reigns && q in s.nodes && NextOk(s, t, q, p)
      ensures ReignGrows(s, s', t) && NextOk(s', t, q, p)
    {
      AppendNext(s, s', v, e, t, q, p);
    }
    forall t: nat, q | t in s.reigns && q in s.nodes && Follows(s, t, q)
      ensures ReignGrows(s, s', t) && Follows(s', t, q)
    {
      AppendFollows(s, s', v, e, t, q);
    }
  }

  lemma AppendLogs(cfg: Config, s: Cluster, s': Cluster, v: Id, e: Entry)
    requires Appends(s, s', v, e) && LogPart(cfg, s) && NodeVotes(s) && ReignVotes(cfg, s)
    ensures Grows(s, s') && Respects(s, s') && LogPart(cfg, s')
  {
    hide Appends, Grows, Respects, NodeVotes, ReignVotes, ReignLogs, NodeLogs, Acks, Keeps, Completeness;
    AppendGrows(s, s', v, e);
    AppendReignLogs(s, s', v, e);
    AppendNodeLogs(s, s', v, e);
    AppendAcks(s, s', v, e);
    AppendKeeps(cfg, s, s', v, e);
    AppendCompleteness(cfg, s, s', v, e);
    AppendRespects(s, s', v, e);
  }
}
