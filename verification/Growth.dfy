/**
 What every step leaves in place: terms and leader logs only grow, votes and
 acknowledgements are never withdrawn. And what survives such growth.
 */
module Growth {
  import opened RaftTypes
  import opened Clusters
  import opened Invariants

  ghost predicate ReignGrows(s: Cluster, s': Cluster, t: nat)
    requires t in s.reigns
  {
    && t in s'.reigns
    && s'.reigns[t].leader == s.reigns[t].leader
    && s'.reigns[t].start == s.reigns[t].start
    && s'.reigns[t].electors == s.reigns[t].electors
    && s.reigns[t].log <= s'.reigns[t].log
  }

  ghost predicate AckGrows(s: Cluster, s': Cluster, t: nat, v: Id) {
    && Acked(s.acked, t, v) <= Acked(s'.acked, t, v)
    && (v in s.nodes && s.nodes[v].currentTerm > t ==> Acked(s'.acked, t, v) == Acked(s.acked, t, v))
  }

  ghost predicate Grows(s: Cluster, s': Cluster) {
    && s'.nodes.Keys == s.nodes.Keys
    && (forall v :: v in s.nodes ==> s.nodes[v].currentTerm <= s'.nodes[v].currentTerm)
    && (forall t :: t in s.reigns ==> ReignGrows(s, s', t))
    && (forall t: nat, v: Id :: AckGrows(s, s', t, v))
    && (forall key :: key in s.firstVote ==> key in s'.firstVote && s'.firstVote[key] == s.firstVote[key])
  }

  lemma OwnGrows(s: Cluster, s': Cluster, t: nat, k: nat)
    requires Grows(s, s') && Own(s.reigns, t, k)
    ensures Own(s'.reigns, t, k) && s'.reigns[t].log[..k] == s.reigns[t].log[..k]
  {
    assert ReignGrows(s, s', t);
    assert s'.reigns[t].log[..|s.reigns[t].log|] == s.reigns[t].log;
    assert s'.reigns[t].log[k - 1] == s.reigns[t].log[k - 1];
  }

  lemma BlockedGrows(cfg: Config, s: Cluster, s': Cluster, t: nat, k: nat)
    requires Grows(s, s') && Blocked(cfg, s, t, k)
    ensures Blocked(cfg, s', t, k)
  {
    var b :| IsQuorum(cfg, b) && Missed(s, t, k, b);
    forall v | v in b
      ensures v in s'.nodes && s'.nodes[v].currentTerm > t && Acked(s'.acked, t, v) < k
    {
      assert AckGrows(s, s', t, v);
    }
    assert Missed(s', t, k, b);
  }

  lemma HoldsGrows(cfg: Config, s: Cluster, s': Cluster, t: nat, k: nat, x: Log, x': Log)
    requires Grows(s, s') && Own(s.reigns, t, k) && Holds(cfg, s, t, k, x) && x <= x'
    ensures Own(s'.reigns, t, k) && Holds(cfg, s', t, k, x')
  {
    OwnGrows(s, s', t, k);
    if Blocked(cfg, s, t, k) {
      BlockedGrows(cfg, s, s', t, k);
    } else {
      PrefixTransitive(s.reigns[t].log[..k], x, x');
    }
  }

  lemma PrefixTransitive(a: Log, b: Log, c: Log)
    requires a <= b && b <= c
    ensures a <= c
  {
    assert a == b[..|a|] == c[..|b|][..|a|] == c[..|a|];
  }

  lemma PrefixOfSame(a: Log, b: Log, c: Log)
    requires a <= c && b <= c && |a| <= |b|
    ensures a <= b
  {
    assert a == c[..|a|] == c[..|b|][..|a|];
  }

  lemma CoherentGrows(s: Cluster, s': Cluster, x: Log)
    requires Grows(s, s') && Coherent(s.reigns, x)
    ensures Coherent(s'.reigns, x)
  {
    forall i | 0 <= i < |x| ensures x[i].term in s'.reigns && x[..i + 1] <= s'.reigns[x[i].term].log {
      assert ReignGrows(s, s', x[i].term);
      PrefixTransitive(x[..i + 1], s.reigns[x[i].term].log, s'.reigns[x[i].term].log);
    }
  }

  lemma VotedForGrows(s: Cluster, s': Cluster, t: nat, v: Id, c: Id)
    requires Grows(s, s') && VotedFor(s, t, v, c)
    ensures VotedFor(s', t, v, c)
  {
    if Revoted(s, t, v) {
      assert ReignGrows(s, s', t);
    }
  }

  /** No acknowledgement of a term by a node that has left it can be new. */
  lemma OwnWasOwn(s: Cluster, s': Cluster, t: nat, k: nat, v: Id)
    requires Grows(s, s') && Acks(s)
    requires v in s.nodes && s.nodes[v].currentTerm > t
    requires Own(s'.reigns, t, k) && k <= Acked(s'.acked, t, v)
    ensures Own(s.reigns, t, k) && k <= Acked(s.acked, t, v)
  {
    assert AckGrows(s, s', t, v);
    assert TermId(t, v) in s.acked;
    assert ReignGrows(s, s', t);
  }

  lemma VoteSoundGrows(cfg: Config, s: Cluster, s': Cluster, t: nat, v: Id, x: Log)
    requires Grows(s, s') && Acks(s)
    requires v in s.nodes && s.nodes[v].currentTerm >= t
    requires VoteSound(cfg, s, t, v, x)
    ensures VoteSound(cfg, s', t, v, x)
  {
    forall t0: nat, k: nat | t0 < t && Own(s'.reigns, t0, k) && k <= Acked(s'.acked, t0, v)
      ensures Holds(cfg, s', t0, k, x)
    {
      OwnWasOwn(s, s', t0, k, v);
      HoldsGrows(cfg, s, s', t0, k, x, x);
    }
  }

  lemma GrantedGrows(cfg: Config, s: Cluster, s': Cluster, t: nat, v: Id, c: Id, x: Log)
    requires Grows(s, s') && Acks(s) && NodeVotes(s)
    requires Granted(cfg, s, t, v, c, x)
    ensures Granted(cfg, s', t, v, c, x)
  {
    VotedForGrows(s, s', t, v, c);
    VoteSoundGrows(cfg, s, s', t, v, x);
  }

  lemma CommittedGrows(cfg: Config, s: Cluster, s': Cluster, t: nat, k: nat)
    requires Grows(s, s') && Committed(cfg, s, t, k)
    ensures Committed(cfg, s', t, k) && s'.reigns[t].log[..k] == s.reigns[t].log[..k]
  {
    OwnGrows(s, s', t, k);
    var b :| MeetsQuorums(cfg, b) && AckedBy(s, t, k, b);
    forall v | v in b ensures Acked(s'.acked, t, v) >= k {
      assert AckGrows(s, s', t, v);
    }
    assert AckedBy(s', t, k, b);
  }

  lemma SafePrefixGrows(cfg: Config, s: Cluster, s': Cluster, t: nat, t': nat, x: Log)
    requires Grows(s, s') && t <= t' && SafePrefix(cfg, s, t, x)
    ensures SafePrefix(cfg, s', t', x)
  {
    if x != [] {
      var t0: nat, k: nat :| t0 <= t && Committed(cfg, s, t0, k) && x <= s.reigns[t0].log[..k];
      CommittedGrows(cfg, s, s', t0, k);
    }
  }

  lemma SafePrefixShorter(cfg: Config, s: Cluster, t: nat, x: Log, y: Log)
    requires SafePrefix(cfg, s, t, x) && y <= x
    ensures SafePrefix(cfg, s, t, y)
  {
    if y != [] {
      var t0: nat, k: nat :| t0 <= t && Committed(cfg, s, t0, k) && x <= s.reigns[t0].log[..k];
      PrefixTransitive(y, x, s.reigns[t0].log[..k]);
    }
  }
}
