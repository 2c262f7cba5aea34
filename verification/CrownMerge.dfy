/**
 The two remaining ways to touch the log invariants: a candidate becomes the leader
 of its term, and a follower merges entries of its term's leader.
 */
module CrownMerge {
  import opened RaftTypes
  import opened LogMerge
  import opened Clusters
  import opened Invariants
  import opened Growth
  import opened Persistence
  import opened LogSteps

  // ----- A candidate is elected -----

  ghost predicate Crowns(s: Cluster, s': Cluster, c: Id, electors: set<Id>) {
    && c in s.nodes && s'.nodes.Keys == s.nodes.Keys
    && s.nodes[c].currentTerm !in s.reigns
    && (forall v :: v in s.nodes ==> SameLog(s, s', v))
    && s'.firstVote == s.firstVote
    && s'.reigns == s.reigns[s.nodes[c].currentTerm := Reign(c, |s.nodes[c].log|, s.nodes[c].log, electors)]
    && s'.acked == s.acked[TermId(s.nodes[c].currentTerm, c) := |s.nodes[c].log|]
  }

  lemma CrownGrows(s: Cluster, s': Cluster, c: Id, electors: set<Id>)
    requires Crowns(s, s', c, electors) && Acks(s)
    ensures Grows(s, s')
  {
    var t := s.nodes[c].currentTerm;
    forall t0: nat, v: Id ensures AckGrows(s, s', t0, v) {
      if t0 == t && v == c {
        assert TermId(t, c) !in s.acked;
      }
    }
    forall t0 | t0 in s.reigns ensures ReignGrows(s, s', t0) {
      assert t0 != t;
    }
  }

  /** Before its first leader a term has no entries. */
  lemma NoEntriesOfNewTerm(s: Cluster, t: nat, v: Id)
    requires v in s.nodes && NodeLog(s, v) && t !in s.reigns && s.nodes[v].currentTerm >= t
    ensures forall i :: 0 <= i < |s.nodes[v].log| ==> s.nodes[v].log[i].term != t
  {
  }

  lemma CrownReignLogs(s: Cluster, s': Cluster, c: Id, electors: set<Id>)
    requires Crowns(s, s', c, electors) && Grows(s, s') && ReignLogs(s) && NodeLog(s, c)
    ensures ReignLogs(s')
  {
    var t := s.nodes[c].currentTerm;
    forall t0 | t0 in s'.reigns ensures ReignLog(s'.reigns, t0) {
      if t0 == t {
        CoherentGrows(s, s', s.nodes[c].log);
        NoEntriesOfNewTerm(s, t, c);
      } else {
        assert ReignLog(s.reigns, t0);
        CoherentGrows(s, s', s.reigns[t0].log);
      }
    }
  }

  lemma CrownOwnLog(s: Cluster, s': Cluster, c: Id, electors: set<Id>)
    requires Crowns(s, s', c, electors) && NodeLog(s, c) && Coherent(s'.reigns, s.nodes[c].log)
    ensures NodeLog(s', c)
  {
    hide Coherent;
    assert SameLog(s, s', c);
    assert s.nodes[c].log[..|s.nodes[c].log|] == s.nodes[c].log;
  }

  lemma CrownOtherLog(s: Cluster, s': Cluster, c: Id, electors: set<Id>, v: Id)
    requires Crowns(s, s', c, electors) && v in s.nodes && v != c && NodeLog(s, v)
    requires Coherent(s'.reigns, s.nodes[v].log)
    ensures NodeLog(s', v)
  {
    hide Coherent;
    assert SameLog(s, s', v);
    assert Acked(s'.acked, s.nodes[v].currentTerm, v) == Acked(s.acked, s.nodes[v].currentTerm, v);
  }

  lemma CrownNodeLog(s: Cluster, s': Cluster, c: Id, electors: set<Id>, v: Id)
    requires Crowns(s, s', c, electors) && Grows(s, s') && v in s.nodes && NodeLog(s, v)
    ensures NodeLog(s', v)
  {
    CoherentGrows(s, s', s.nodes[v].log);
    hide Coherent, Grows;
    if v == c {
      CrownOwnLog(s, s', c, electors);
    } else {
      CrownOtherLog(s, s', c, electors, v);
    }
  }

  lemma CrownAck(s: Cluster, s': Cluster, c: Id, electors: set<Id>, key: TermId)
    requires Crowns(s, s', c, electors) && Acks(s) && key in s'.acked
    ensures key.term in s'.reigns && key.id in s'.nodes
    ensures key.term <= s'.nodes[key.id].currentTerm && s'.acked[key] <= |s'.reigns[key.term].log|
  {
    assert key.id in s.nodes ==> SameLog(s, s', key.id);
  }

  lemma CrownAcks(s: Cluster, s': Cluster, c: Id, electors: set<Id>)
    requires Crowns(s, s', c, electors) && Acks(s)
    ensures Acks(s')
  {
    forall key | key in s'.acked
      ensures key.term in s'.reigns && key.id in s'.nodes
      ensures key.term <= s'.nodes[key.id].currentTerm && s'.acked[key] <= |s'.reigns[key.term].log|
    {
      CrownAck(s, s', c, electors, key);
    }
    forall t | t in s'.reigns ensures Acked(s'.acked, t, s'.reigns[t].leader) == |s'.reigns[t].log| {
      if t != s.nodes[c].currentTerm {
        assert Acked(s.acked, t, s.reigns[t].leader) == |s.reigns[t].log|;
      }
    }
  }

  /** The new reign owns no entry yet. */
  lemma CrownOwn(s: Cluster, s': Cluster, c: Id, electors: set<Id>, t: nat, k: nat)
    requires Crowns(s, s', c, electors) && NodeLog(s, c) && Own(s'.reigns, t, k)
    ensures t in s.reigns && t != s.nodes[c].currentTerm && Own(s.reigns, t, k)
  {
    NoEntriesOfNewTerm(s, s.nodes[c].currentTerm, c);
  }

  lemma CrownKeeps(cfg: Config, s: Cluster, s': Cluster, c: Id, electors: set<Id>)
    requires Crowns(s, s', c, electors) && Grows(s, s') && NodeLog(s, c) && Keeps(cfg, s)
    ensures Keeps(cfg, s')
  {
    forall v, t: nat, k: nat | v in s'.nodes && Own(s'.reigns, t, k) && k <= Acked(s'.acked, t, v)
      ensures Holds(cfg, s', t, k, s'.nodes[v].log)
    {
      CrownOwn(s, s', c, electors, t, k);
      assert SameLog(s, s', v);
      HoldsGrows(cfg, s, s', t, k, s.nodes[v].log, s.nodes[v].log);
    }
  }

  /** A quorum of voters passes on what they stored, or never stored it. */
  lemma CrownHolds(cfg: Config, s: Cluster, c: Id, electors: set<Id>, t: nat, k: nat)
    requires c in s.nodes && IsQuorum(cfg, electors) && cfg.members == s.nodes.Keys
    requires Own(s.reigns, t, k) && t < s.nodes[c].currentTerm
    requires forall v :: v in electors ==>
               s.nodes[v].currentTerm >= s.nodes[c].currentTerm
               && VoteSound(cfg, s, s.nodes[c].currentTerm, v, s.nodes[c].log)
    ensures Holds(cfg, s, t, k, s.nodes[c].log)
  {
    if v :| v in electors && k <= Acked(s.acked, t, v) {
      assert VoteSound(cfg, s, s.nodes[c].currentTerm, v, s.nodes[c].log);
    } else {
      assert Missed(s, t, k, electors);
    }
  }

  lemma CrownCompleteness(cfg: Config, s: Cluster, s': Cluster, c: Id, electors: set<Id>)
    requires Crowns(s, s', c, electors) && Grows(s, s') && NodeLog(s, c) && Completeness(cfg, s)
    requires IsQuorum(cfg, electors) && cfg.members == s.nodes.Keys
    requires forall v :: v in electors ==>
               s.nodes[v].currentTerm >= s.nodes[c].currentTerm
               && VoteSound(cfg, s, s.nodes[c].currentTerm, v, s.nodes[c].log)
    ensures Completeness(cfg, s')
  {
    forall t: nat, t1: nat, k: nat | Own(s'.reigns, t, k) && t1 in s'.reigns && t < t1
      ensures Holds(cfg, s', t, k, s'.reigns[t1].log)
    {
      CrownOwn(s, s', c, electors, t, k);
      if t1 == s.nodes[c].currentTerm {
        CrownHolds(cfg, s, c, electors, t, k);
        HoldsGrows(cfg, s, s', t, k, s.nodes[c].log, s.nodes[c].log);
      } else {
        HoldsGrows(cfg, s, s', t, k, s.reigns[t1].log, s.reigns[t1].log);
      }
    }
  }

  lemma CrownRespects(s: Cluster, s': Cluster, c: Id, electors: set<Id>)
    requires Crowns(s, s', c, electors) && Grows(s, s')
    ensures Respects(s, s')
  {
    forall t: nat, q, p: nat | t in s.reigns && q in s.nodes && NextOk(s, t, q, p)
      ensures ReignGrows(s, s', t) && NextOk(s', t, q, p)
    {
      assert ReignGrows(s, s', t) && SameLog(s, s', q);
      assert s'.reigns[t] == s.reigns[t];
    }
    forall t: nat, q | t in s.reigns && q in s.nodes && Follows(s, t, q)
      ensures ReignGrows(s, s', t) && Follows(s', t, q)
    {
      assert ReignGrows(s, s', t) && SameLog(s, s', q);
    }
  }

  lemma CrownLogs(cfg: Config, s: Cluster, s': Cluster, c: Id, electors: set<Id>)
    requires Crowns(s, s', c, electors) && LogPart(cfg, s)
    requires IsQuorum(cfg, electors) && cfg.members == s.nodes.Keys
    requires forall v :: v in electors ==>
               s.nodes[v].currentTerm >= s.nodes[c].currentTerm
               && VoteSound(cfg, s, s.nodes[c].currentTerm, v, s.nodes[c].log)
    ensures Grows(s, s') && Respects(s, s') && LogPart(cfg, s')
  {
    CrownGrows(s, s', c, electors);
    assert NodeLog(s, c);
    CrownReignLogs(s, s', c, electors);
    forall v | v in s'.nodes ensures NodeLog(s', v) {
      assert NodeLog(s, v);
      CrownNodeLog(s, s', c, electors, v);
    }
    CrownAcks(s, s', c, electors);
    CrownKeeps(cfg, s, s', c, electors);
    CrownCompleteness(cfg, s, s', c, electors);
    CrownRespects(s, s', c, electors);
  }

  // ----- A follower merges -----

  /** What merging entries of the leader's log ll up to index `end` does to log x. */
  ghost predicate MergedUpTo(x: Log, ll: Log, end: nat, y: Log) {
    && end <= |ll|
    && ((y == x && ll[..end] <= x) || (y == ll[..end] && forall k :: end < k <= |x| && k <= |ll| ==> x[..k] != ll[..k]))
  }

  lemma MergeOfCovered(reigns: map<nat, Reign>, x: Log, ll: Log, first: nat, end: nat)
    requires Coherent(reigns, x) && Coherent(reigns, ll)
    requires first <= end <= |ll| && first <= |x| && x[..first] == ll[..first]
    requires Covered(x, first, ll[first..end])
    ensures ll[..end] <= x
  {
    if end > first {
      assert x[first + (end - first - 1)].term == ll[first..end][end - first - 1].term;
      SameTermSamePrefix(reigns, x, ll, end - 1);
    } else {
      assert ll[..end] == x[..first];
    }
  }

  lemma MergeOfConflict(reigns: map<nat, Reign>, x: Log, ll: Log, first: nat, end: nat, j: nat)
    requires Coherent(reigns, x) && Coherent(reigns, ll)
    requires first <= end <= |ll| && first <= |x| && x[..first] == ll[..first]
    requires FirstConflict(x, first, ll[first..end], j)
    ensures first + j < end && x[..first + j] + ll[first..end][j..] == ll[..end]
    ensures forall k :: end < k <= |x| && k <= |ll| ==> x[..k] != ll[..k]
  {
    var entries := ll[first..end];
    if j > 0 {
      assert x[first + (j - 1)].term == entries[j - 1].term;
      SameTermSamePrefix(reigns, x, ll, first + j - 1);
    }
    hide Coherent;
    assert x[..first + j] == ll[..first + j];
    assert entries[j..] == ll[first + j..end];
    forall k | end < k <= |x| && k <= |ll| ensures x[..k] != ll[..k] {
      assert x[..k][first + j] == x[first + j] && ll[..k][first + j] == ll[first + j] == entries[j];
    }
  }

  /** The merge loop, given the consistency check and coherent logs. */
  lemma MergeOfLeader(reigns: map<nat, Reign>, x: Log, ll: Log, first: nat, end: nat)
    requires Coherent(reigns, x) && Coherent(reigns, ll)
    requires first <= end <= |ll| && first <= |x|
    requires first > 0 ==> x[first - 1].term == ll[first - 1].term
    ensures MergedUpTo(x, ll, end, Merge(x, first, ll[first..end]))
    ensures x[..first] == ll[..first]
  {
    var entries := ll[first..end];
    if first > 0 { SameTermSamePrefix(reigns, x, ll, first - 1); }
    ConflictOrCovered(x, first, entries);
    if Covered(x, first, entries) {
      MergeCovered(x, first, entries);
      MergeOfCovered(reigns, x, ll, first, end);
    } else {
      var j: nat :| FirstConflict(x, first, entries, j);
      MergeConflict(x, first, entries, j);
      MergeOfConflict(reigns, x, ll, first, end, j);
    }
  }

  /** Log Matching for two coherent logs. */
  lemma SameTermSamePrefix(reigns: map<nat, Reign>, x: Log, y: Log, i: nat)
    requires Coherent(reigns, x) && Coherent(reigns, y)
    requires i < |x| && i < |y| && x[i].term == y[i].term
    ensures x[..i + 1] == y[..i + 1]
  {
    assert x[..i + 1] <= reigns[x[i].term].log && y[..i + 1] <= reigns[x[i].term].log;
  }

  /** What the log had in common with the leader's it keeps. */
  lemma MergeKeepsCommon(x: Log, ll: Log, end: nat, y: Log, z: Log)
    requires MergedUpTo(x, ll, end, y) && z <= x && z <= ll
    ensures z <= y
  {
    if y != x {
      assert x[..|z|] == ll[..|z|];
      assert |z| <= end;
      assert z == ll[..end][..|z|];
    }
  }

  ghost predicate Merges(s: Cluster, s': Cluster, v: Id, end: nat) {
    && v in s.nodes && s'.nodes.Keys == s.nodes.Keys
    && s.nodes[v].currentTerm in s.reigns && s.reigns[s.nodes[v].currentTerm].leader != v
    && s'.nodes[v].currentTerm == s.nodes[v].currentTerm
    && MergedUpTo(s.nodes[v].log, s.reigns[s.nodes[v].currentTerm].log, end, s'.nodes[v].log)
    && s'.reigns == s.reigns && s'.firstVote == s.firstVote
    && (forall q :: q in s.nodes && q != v ==> SameLog(s, s', q))
    && s'.acked == s.acked[TermId(s.nodes[v].currentTerm, v) :=
                     if Acked(s.acked, s.nodes[v].currentTerm, v) <= end
                     then end else Acked(s.acked, s.nodes[v].currentTerm, v)]
  }

  lemma MergeGrows(s: Cluster, s': Cluster, v: Id, end: nat)
    requires Merges(s, s', v, end)
    ensures Grows(s, s')
  {
    forall t0: nat, q: Id ensures AckGrows(s, s', t0, q) {}
    forall q | q in s.nodes ensures s.nodes[q].currentTerm <= s'.nodes[q].currentTerm {
      assert q != v ==> SameLog(s, s', q);
    }
  }

  lemma MergeOwnLog(s: Cluster, s': Cluster, v: Id, end: nat)
    requires Merges(s, s', v, end) && ReignLogs(s) && NodeLog(s, v)
    ensures NodeLog(s', v)
  {
    var t := s.nodes[v].currentTerm;
    var ll := s.reigns[t].log;
    var x := s.nodes[v].log;
    var y := s'.nodes[v].log;
    assert ReignLog(s.reigns, t);
    var a := Acked(s.acked, t, v);
    assert ll[..a] <= x;
    MergeKeepsCommon(x, ll, end, y, ll[..a]);
    assert ll[..end] <= y;
    if y != x {
      forall i | 0 <= i < |y| ensures y[..i + 1] == ll[..i + 1] && y[i] == ll[i] {}
      assert Coherent(s'.reigns, y);
    }
  }

  lemma MergeNodeLogs(s: Cluster, s': Cluster, v: Id, end: nat)
    requires Merges(s, s', v, end) && ReignLogs(s) && NodeLogs(s)
    ensures NodeLogs(s')
  {
    forall q | q in s'.nodes ensures NodeLog(s', q) {
      assert NodeLog(s, q);
      if q == v {
        MergeOwnLog(s, s', v, end);
      } else {
        assert SameLog(s, s', q);
        assert Acked(s'.acked, s.nodes[q].currentTerm, q) == Acked(s.acked, s.nodes[q].currentTerm, q);
      }
    }
  }

  lemma MergeAcks(s: Cluster, s': Cluster, v: Id, end: nat)
    requires Merges(s, s', v, end) && Acks(s)
    ensures Acks(s')
  {
    forall key | key in s'.acked
      ensures key.term in s'.reigns && key.id in s'.nodes
      ensures key.term <= s'.nodes[key.id].currentTerm && s'.acked[key] <= |s'.reigns[key.term].log|
    {
      assert key.id != v ==> key in s.acked && SameLog(s, s', key.id);
    }
    forall t | t in s'.reigns ensures Acked(s'.acked, t, s'.reigns[t].leader) == |s'.reigns[t].log| {
      assert Acked(s.acked, t, s.reigns[t].leader) == |s.reigns[t].log|;
    }
  }

  lemma MergeHoldsOwnTerm(s: Cluster, s': Cluster, v: Id, end: nat, k: nat)
    requires Merges(s, s', v, end) && NodeLog(s, v)
    requires k <= Acked(s'.acked, s.nodes[v].currentTerm, v)
    ensures k <= |s.reigns[s.nodes[v].currentTerm].log|
    ensures s.reigns[s.nodes[v].currentTerm].log[..k] <= s'.nodes[v].log
  {
    var t := s.nodes[v].currentTerm;
    var ll := s.reigns[t].log;
    var a := Acked(s.acked, t, v);
    assert ll[..a] <= s.nodes[v].log;
    MergeKeepsCommon(s.nodes[v].log, ll, end, s'.nodes[v].log, ll[..a]);
    var b := if a <= end then end else a;
    assert ll[..b] <= s'.nodes[v].log;
    assert ll[..k] == ll[..b][..k];
    PrefixTransitive(ll[..k], ll[..b], s'.nodes[v].log);
  }

  lemma MergeHoldsEarlier(cfg: Config, s: Cluster, s': Cluster, v: Id, end: nat, t0: nat, k: nat)
    requires Merges(s, s', v, end) && Acks(s) && Keeps(cfg, s) && Completeness(cfg, s) && Own(s.reigns, t0, k)
    requires t0 != s.nodes[v].currentTerm && k <= Acked(s.acked, t0, v)
    ensures Holds(cfg, s, t0, k, s'.nodes[v].log)
  {
    var ll := s.reigns[s.nodes[v].currentTerm].log;
    assert TermId(t0, v) in s.acked;
    assert Holds(cfg, s, t0, k, s.nodes[v].log) && Holds(cfg, s, t0, k, ll);
    if !Blocked(cfg, s, t0, k) {
      MergeKeepsCommon(s.nodes[v].log, ll, end, s'.nodes[v].log, s.reigns[t0].log[..k]);
    }
  }

  lemma MergeHolds(cfg: Config, s: Cluster, s': Cluster, v: Id, end: nat, q: Id, t0: nat, k: nat)
    requires Merges(s, s', v, end) && LogPart(cfg, s)
    requires q in s'.nodes && Own(s.reigns, t0, k) && k <= Acked(s'.acked, t0, q)
    ensures Holds(cfg, s, t0, k, s'.nodes[q].log)
  {
    hide Blocked, Coherent, MergedUpTo;
    if q == v && t0 == s.nodes[v].currentTerm {
      MergeHoldsOwnTerm(s, s', v, end, k);
    } else if q == v {
      assert Acked(s'.acked, t0, v) == Acked(s.acked, t0, v);
      MergeHoldsEarlier(cfg, s, s', v, end, t0, k);
    } else {
      assert SameLog(s, s', q);
      assert Acked(s'.acked, t0, q) == Acked(s.acked, t0, q);
    }
  }

  lemma MergeKeeps(cfg: Config, s: Cluster, s': Cluster, v: Id, end: nat)
    requires Merges(s, s', v, end) && Grows(s, s') && LogPart(cfg, s)
    ensures Keeps(cfg, s')
  {
    assert s'.reigns == s.reigns;
    hide Merges, Grows, LogPart, Own, Holds, Acked;
    forall q, t0: nat, k: nat | q in s'.nodes && Own(s'.reigns, t0, k) && k <= Acked(s'.acked, t0, q)
      ensures Holds(cfg, s', t0, k, s'.nodes[q].log)
    {
      MergeHolds(cfg, s, s', v, end, q, t0, k);
      HoldsGrows(cfg, s, s', t0, k, s'.nodes[q].log, s'.nodes[q].log);
    }
  }

  lemma CompletenessSameReigns(cfg: Config, s: Cluster, s': Cluster)
    requires Grows(s, s') && s'.reigns == s.reigns && Completeness(cfg, s)
    ensures Completeness(cfg, s')
  {
    forall t: nat, t1: nat, k: nat | Own(s'.reigns, t, k) && t1 in s'.reigns && t < t1
      ensures Holds(cfg, s', t, k, s'.reigns[t1].log)
    {
      HoldsGrows(cfg, s, s', t, k, s.reigns[t1].log, s.reigns[t1].log);
    }
  }

  lemma MergeRespects(s: Cluster, s': Cluster, v: Id, end: nat)
    requires Merges(s, s', v, end) && Grows(s, s')
    ensures Respects(s, s')
  {
    forall t: nat, q, p: nat | t in s.reigns && q in s.nodes && NextOk(s, t, q, p)
      ensures ReignGrows(s, s', t) && NextOk(s', t, q, p)
    {
      assert ReignGrows(s, s', t);
      assert q != v ==> SameLog(s, s', q);
    }
    forall t: nat, q | t in s.reigns && q in s.nodes && Follows(s, t, q)
      ensures ReignGrows(s, s', t) && Follows(s', t, q)
    {
      assert ReignGrows(s, s', t);
      assert q != v ==> SameLog(s, s', q);
    }
  }

  lemma MergeLogs(cfg: Config, s: Cluster, s': Cluster, v: Id, end: nat)
    requires Merges(s, s', v, end) && LogPart(cfg, s)
    ensures Grows(s, s') && Respects(s, s') && LogPart(cfg, s')
  {
    MergeGrows(s, s', v, end);
    MergeNodeLogs(s, s', v, end);
    MergeAcks(s, s', v, end);
    MergeKeeps(cfg, s, s', v, end);
    CompletenessSameReigns(cfg, s, s');
    MergeRespects(s, s', v, end);
  }
}
