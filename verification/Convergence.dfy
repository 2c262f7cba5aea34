/**
 Backtracking: how many requests a leader needs until a follower holds its log.

 The leader sends one request at a time and waits for the reply, and nothing else happens
 to the two nodes.
 */
module Convergence {
  import opened Commands
  import opened RaftTypes
  import opened LogMerge
  import opened Handlers
  import opened Clusters
  import opened Invariants
  import opened CrownMerge
  import opened Steps
  import opened Runs
  import opened InBounds
  import opened Safety

  /** How many entries two logs share at the start. */
  function CommonPrefix(x: Log, y: Log): (c: nat)
    ensures c <= |x| && c <= |y| && x[..c] == y[..c]
    ensures c < |x| && c < |y| ==> x[c] != y[c]
  {
    if x == [] || y == [] || x[0] != y[0] then 0
    else
      var c := CommonPrefix(x[1..], y[1..]);
      assert x[..c + 1] == [x[0]] + x[1..][..c] && y[..c + 1] == [y[0]] + y[1..][..c];
      c + 1
  }

  /** Entries of one term at one index come with the same log before them. */
  ghost predicate Matching(x: Log, y: Log) {
    forall k :: 0 <= k < |x| && k < |y| && x[k].term == y[k].term ==> x[..k + 1] == y[..k + 1]
  }

  lemma SharedElements(x: Log, y: Log, n: nat)
    requires n <= |x| && n <= |y| && x[..n] == y[..n]
    ensures forall i :: 0 <= i < n ==> x[i] == y[i]
  {
    forall i | 0 <= i < n ensures x[i] == y[i] {
      assert x[..n][i] == y[..n][i];
    }
  }

  lemma SameTermIffShared(x: Log, y: Log, k: nat)
    requires Matching(x, y) && k < |x|
    ensures (k < |y| && x[k].term == y[k].term) <==> k < CommonPrefix(x, y)
  {
    SharedElements(x, y, CommonPrefix(x, y));
    if k < |y| && x[k].term == y[k].term {
      SharedElements(x, y, k + 1);
    }
  }

  // ----- One exchange -----

  datatype Pair = Pair(leader: Node, follower: Node)

  /** The leader sends, the follower answers, the leader hears the answer. */
  function Exchange(me: Member, them: Member, p: Pair): Pair
    requires Able(me, them, p)
  {
    var outcome := OnAppendEntries(them, p.follower, MakeAppend(me, p.leader, them.id));
    Pair(OnAppendReply(me, p.leader, outcome.reply), outcome.node)
  }

  predicate Accepted(me: Member, them: Member, p: Pair)
    requires Able(me, them, p)
  {
    OnAppendEntries(them, p.follower, MakeAppend(me, p.leader, them.id)).reply.success
  }

  /** A leader and a node that has not seen a later term, nor leads the same one. */
  ghost predicate Able(me: Member, them: Member, p: Pair) {
    && p.leader.role == Leader && InRange(p.leader)
    && p.follower.currentTerm <= p.leader.currentTerm
    && (p.follower.currentTerm == p.leader.currentTerm ==> p.follower.role != Leader)
    && -1 <= p.follower.lastApplied && -1 <= p.follower.commitIndex
    && Matching(p.leader.log, p.follower.log)
    && NextIndex(p.leader, them.id) <= |p.leader.log|
  }

  function Shared(p: Pair): nat {
    CommonPrefix(p.leader.log, p.follower.log)
  }

  lemma AcceptedIff(me: Member, them: Member, p: Pair)
    requires Able(me, them, p)
    ensures var m := MakeAppend(me, p.leader, them.id);
            PrevMatches(Recognise(p.follower, m).log, m) <==> NextIndex(p.leader, them.id) <= Shared(p)
    ensures Accepted(me, them, p) <==> NextIndex(p.leader, them.id) <= Shared(p)
  {
    var x := NextIndex(p.leader, them.id);
    if x > 0 {
      SameTermIffShared(p.leader.log, p.follower.log, x - 1);
    }
  }

  /** A refusal moves nextIndex back by one, or at once to the end of a shorter follower log;
      never before the end of the shared entries. */
  lemma Refused(me: Member, them: Member, p: Pair)
    requires Able(me, them, p) && NextIndex(p.leader, them.id) > Shared(p)
    ensures Able(me, them, Exchange(me, them, p)) && !Accepted(me, them, p)
    ensures Exchange(me, them, p).leader.log == p.leader.log && Exchange(me, them, p).follower.log == p.follower.log
    ensures NextIndex(Exchange(me, them, p).leader, them.id) == Min(NextIndex(p.leader, them.id) - 1, |p.follower.log|)
    ensures Shared(p) <= NextIndex(Exchange(me, them, p).leader, them.id)
  {
    AcceptedIff(me, them, p);
  }

  lemma MergeKeepsLeader(l: Log, f: Log, x: nat, hi: nat)
    requires Matching(l, f) && x <= |f| && l[..Min(x, |l|)] == f[..x] && x <= hi <= |l| && Covered(f, x, l[x..hi])
    ensures l[..hi] <= f
  {
    if x < hi {
      assert f[x + (hi - x - 1)].term == l[x..hi][hi - x - 1].term;
      assert l[..hi - 1 + 1] == f[..hi - 1 + 1];
    }
  }

  lemma MergeCutsToLeader(l: Log, f: Log, x: nat, hi: nat, j: nat)
    requires Matching(l, f) && x <= |f| && l[..Min(x, |l|)] == f[..x] && x <= hi <= |l| && FirstConflict(f, x, l[x..hi], j)
    ensures f[..x + j] + l[x..hi][j..] == l[..hi]
  {
    if j > 0 {
      assert f[x + (j - 1)].term == l[x..hi][j - 1].term;
      assert l[..x + j - 1 + 1] == f[..x + j - 1 + 1];
    }
    assert f[..x + j] == l[..x + j];
    assert l[x..hi][j..] == l[x + j..hi];
  }

  lemma PrefixMatches(l: Log, hi: nat)
    requires hi <= |l|
    ensures Matching(l, l[..hi])
  {
  }

  lemma MergeFromLeader(l: Log, f: Log, x: nat, hi: nat)
    requires Matching(l, f) && x <= CommonPrefix(l, f) && x <= hi <= |l|
    ensures l[..hi] <= Merge(f, x, l[x..hi]) && Matching(l, Merge(f, x, l[x..hi]))
  {
    assert l[..Min(x, |l|)] == f[..x] by { SharedElements(l, f, CommonPrefix(l, f)); }
    hide *;
    var entries := l[x..hi];
    ConflictOrCovered(f, x, entries);
    if Covered(f, x, entries) {
      MergeCovered(f, x, entries);
      MergeKeepsLeader(l, f, x, hi);
    } else {
      var j: nat :| FirstConflict(f, x, entries, j);
      ConflictInside(f, x, entries, j);
      MergeConflict(f, x, entries, j);
      MergeCutsToLeader(l, f, x, hi, j);
      PrefixMatches(l, hi);
    }
  }

  lemma ConflictInside(f: Log, x: nat, entries: Log, j: nat)
    requires FirstConflict(f, x, entries, j)
    ensures j < |entries| && x + j <= |f|
  {
  }

  lemma PrefixIsShared(x: Log, y: Log, n: nat)
    requires n <= |x| && x[..n] <= y
    ensures CommonPrefix(x, y) >= n
  {
    assert x[..n] == y[..n];
    SharedElements(x, y, n);
  }

  /** Where nextIndex is after an accepted request. */
  function Progress(p: Pair, q: Id): nat
    requires NextIndex(p.leader, q) <= |p.leader.log|
  {
    Min(NextIndex(p.leader, q) + 5, |p.leader.log|)
  }

  lemma AcceptedLeader(me: Member, n: Node, r: AppendReply)
    requires n.role == Leader && InRange(n) && r.success && r.term == r.req.term == n.currentTerm
    ensures var n' := OnAppendReply(me, n, r);
            && n'.role == Leader && InRange(n') && n'.currentTerm == n.currentTerm && n'.log == n.log
            && NextIndex(n', r.req.to) == if r.req.entries == [] then NextIndex(n, r.req.to) else r.req.End()
  {
  }

  lemma AcceptedFollower(them: Member, f: Node, m: AppendReq)
    requires -1 <= f.lastApplied && -1 <= f.commitIndex && f.currentTerm <= m.term
    requires f.currentTerm == m.term ==> f.role != Leader
    requires PrevMatches(Recognise(f, m).log, m)
    ensures var o := OnAppendEntries(them, f, m);
            && m.First() <= |f.log| && o.reply == AppendReply(m, m.term, true, None)
            && o.node.currentTerm == m.term && o.node.role == Follower
            && o.node.log == Merge(f.log, m.First(), m.entries)
            && -1 <= o.node.lastApplied && -1 <= o.node.commitIndex
  {
    StoreTouches(them, Recognise(f, m), m);
  }

  /** The request carries the next entries of the leader's log. */
  lemma SentIs(me: Member, them: Member, p: Pair)
    requires Able(me, them, p)
    ensures var x := NextIndex(p.leader, them.id);
            var m := MakeAppend(me, p.leader, them.id);
            && m.First() == x && m.End() == Progress(p, them.id) && m.entries == p.leader.log[x..Progress(p, them.id)]
            && m.term == p.leader.currentTerm && m.to == them.id
            && (m.entries == [] ==> x == Progress(p, them.id))
  {
  }

  lemma AbleParts(me: Member, them: Member, p: Pair)
    requires Able(me, them, p)
    ensures p.leader.role == Leader && InRange(p.leader) && p.follower.currentTerm <= p.leader.currentTerm
    ensures p.follower.currentTerm == p.leader.currentTerm ==> p.follower.role != Leader
    ensures -1 <= p.follower.lastApplied && -1 <= p.follower.commitIndex
    ensures Matching(p.leader.log, p.follower.log) && NextIndex(p.leader, them.id) <= |p.leader.log|
  {
  }

  lemma SharedWithin(p: Pair)
    ensures Shared(p) == CommonPrefix(p.leader.log, p.follower.log)
  {
  }

  lemma ProgressIs(p: Pair, q: Id)
    requires NextIndex(p.leader, q) <= |p.leader.log|
    ensures Progress(p, q) == Min(NextIndex(p.leader, q) + 5, |p.leader.log|)
    ensures NextIndex(p.leader, q) <= Progress(p, q) <= |p.leader.log|
  {
  }

  lemma AbleAgain(me: Member, them: Member, p: Pair)
    requires p.leader.role == Leader && InRange(p.leader) && p.follower.currentTerm <= p.leader.currentTerm
    requires p.follower.role == Follower && -1 <= p.follower.lastApplied && -1 <= p.follower.commitIndex
    requires Matching(p.leader.log, p.follower.log) && NextIndex(p.leader, them.id) <= |p.leader.log|
    ensures Able(me, them, p)
  {
  }

  lemma ExchangeIs(me: Member, them: Member, p: Pair)
    requires Able(me, them, p)
    ensures -1 <= p.follower.lastApplied && -1 <= p.follower.commitIndex && InRange(p.leader)
    ensures var o := OnAppendEntries(them, p.follower, MakeAppend(me, p.leader, them.id));
            && Exchange(me, them, p) == Pair(OnAppendReply(me, p.leader, o.reply), o.node)
            && Accepted(me, them, p) == o.reply.success
  {
  }

  /** An accepted request brings over up to five entries. */
  lemma AcceptedExchange(me: Member, them: Member, p: Pair)
    requires Able(me, them, p) && NextIndex(p.leader, them.id) <= Shared(p)
    ensures Able(me, them, Exchange(me, them, p)) && Accepted(me, them, p)
    ensures Exchange(me, them, p).leader.log == p.leader.log
    ensures NextIndex(p.leader, them.id) <= |p.leader.log|
    ensures NextIndex(Exchange(me, them, p).leader, them.id) == Progress(p, them.id) <= Shared(Exchange(me, them, p))
  {
    hide *;
    var m := MakeAppend(me, p.leader, them.id);
    AcceptedIff(me, them, p);
    SentIs(me, them, p);
    AbleParts(me, them, p);
    AcceptedFollower(them, p.follower, m);
    AcceptedLeader(me, p.leader, AppendReply(m, m.term, true, None));
    ExchangeIs(me, them, p);
    AcceptedLogs(me, them, p, Exchange(me, them, p));
    AbleAgain(me, them, Exchange(me, them, p));
  }

  lemma AcceptedLogs(me: Member, them: Member, p: Pair, p': Pair)
    requires Able(me, them, p) && NextIndex(p.leader, them.id) <= Shared(p)
    requires NextIndex(p.leader, them.id) <= |p.follower.log|
    requires p'.leader.log == p.leader.log
    requires p'.follower.log == Merge(p.follower.log, NextIndex(p.leader, them.id),
                                      p.leader.log[NextIndex(p.leader, them.id)..Progress(p, them.id)])
    ensures Matching(p'.leader.log, p'.follower.log) && Progress(p, them.id) <= Shared(p')
    ensures Progress(p, them.id) <= |p.leader.log|
  {
    hide *;
    AbleParts(me, them, p);
    SharedWithin(p);
    SharedWithin(p');
    ProgressIs(p, them.id);
    MergeFromLeader(p.leader.log, p.follower.log, NextIndex(p.leader, them.id), Progress(p, them.id));
    PrefixIsShared(p.leader.log, p'.follower.log, Progress(p, them.id));
  }

  // ----- Many exchanges -----

  /** `k` exchanges, one after the other. */
  function Exchanges(me: Member, them: Member, p: Pair, k: nat): (r: Pair)
    requires Able(me, them, p)
    ensures Able(me, them, r) && r.leader.log == p.leader.log
    decreases k
  {
    if k == 0 then p
    else
      assert Able(me, them, Exchange(me, them, p)) && Exchange(me, them, p).leader.log == p.leader.log by {
        if NextIndex(p.leader, them.id) <= Shared(p) {
          AcceptedExchange(me, them, p);
        } else {
          Refused(me, them, p);
        }
      }
      Exchanges(me, them, Exchange(me, them, p), k - 1)
  }

  /** How many requests are refused: one for each entry of the follower's that is not shared
      and comes before nextIndex, and one more if nextIndex is past its log. */
  function Failures(next: nat, shared: nat, held: nat): nat
    requires shared <= held
  {
    if next <= shared then 0 else if next <= held then next - shared else 1 + held - shared
  }

  /** The full or partial batches of five that carry what the follower lacks. */
  function Batches(length: nat, from: nat): nat {
    if from >= length then 0 else (length - from + 4) / 5
  }

  /** All exchanges together, with `length` entries in the leader's log, nextIndex at `next`,
      `held` entries in the follower's log and `shared` of them shared. */
  function Needed(length: nat, next: nat, shared: nat, held: nat): nat
    requires shared <= held
  {
    Failures(next, shared, held) + Batches(length, Min(next, shared))
  }

  ghost predicate Converged(them: Member, p: Pair) {
    p.leader.log <= p.follower.log && NextIndex(p.leader, them.id) == |p.leader.log|
  }

  lemma ExchangesStep(me: Member, them: Member, p: Pair, k: nat)
    requires Able(me, them, p) && k > 0
    ensures Able(me, them, Exchange(me, them, p))
    ensures Exchanges(me, them, p, k) == Exchanges(me, them, Exchange(me, them, p), k - 1)
  {
    hide Able, Exchange;
    if NextIndex(p.leader, them.id) <= Shared(p) {
      AcceptedExchange(me, them, p);
    } else {
      Refused(me, them, p);
    }
  }

  lemma NextInLog(me: Member, them: Member, p: Pair)
    requires Able(me, them, p)
    ensures NextIndex(p.leader, them.id) <= |p.leader.log|
  {
  }

  lemma CaughtUp(me: Member, them: Member, p: Pair)
    requires Able(me, them, p) && NextIndex(p.leader, them.id) <= Shared(p)
    ensures Exchanges(me, them, p, 0) == p
    ensures Converged(them, p) <==> Batches(|p.leader.log|, NextIndex(p.leader, them.id)) == 0
  {
    assert p.leader.log[..|p.leader.log|] == p.leader.log;
    if NextIndex(p.leader, them.id) == |p.leader.log| {
      assert p.follower.log[..|p.leader.log|] <= p.follower.log;
    }
  }

  lemma BatchCounts(n: nat, x: nat)
    requires x <= n
    ensures Batches(n, Min(x + 5, n)) == if x < n then Batches(n, x) - 1 else 0
  {
  }

  lemma {:induction false} CatchesUp(me: Member, them: Member, p: Pair, k: nat)
    requires Able(me, them, p) && NextIndex(p.leader, them.id) <= Shared(p)
    ensures Converged(them, Exchanges(me, them, p, k)) <==> k >= Batches(|p.leader.log|, NextIndex(p.leader, them.id))
    decreases k
  {
    hide *;
    if k == 0 {
      CaughtUp(me, them, p);
    } else {
      NextInLog(me, them, p);
      AcceptedExchange(me, them, p);
      BatchCounts(|p.leader.log|, NextIndex(p.leader, them.id));
      ProgressIs(p, them.id);
      ExchangesStep(me, them, p, k);
      CatchesUp(me, them, Exchange(me, them, p), k - 1);
    }
  }

  lemma FailureCounts(n: nat, x: nat, d: nat, f: nat)
    requires d <= f && d < x
    ensures Needed(n, x, d, f) == 1 + Needed(n, Min(x - 1, f), d, f)
  {
  }

  lemma WholeIsShared(x: Log, y: Log)
    ensures x <= y ==> CommonPrefix(x, y) == |x|
  {
    SharedElements(x, y, CommonPrefix(x, y));
  }

  /** nextIndex is past the shared entries: the logs differ before it. */
  lemma NotYet(me: Member, them: Member, p: Pair)
    requires Able(me, them, p) && NextIndex(p.leader, them.id) > Shared(p)
    ensures Exchanges(me, them, p, 0) == p && !Converged(them, p)
  {
    WholeIsShared(p.leader.log, p.follower.log);
  }

  lemma SharedHeld(p: Pair)
    ensures Shared(p) <= |p.follower.log|
  {
  }

  lemma SharedAgain(p: Pair, r: Pair)
    requires r.leader.log == p.leader.log && r.follower.log == p.follower.log
    ensures Shared(r) == Shared(p)
  {
  }

  lemma NoFailures(n: nat, x: nat, d: nat, f: nat)
    requires x <= d <= f
    ensures Needed(n, x, d, f) == Batches(n, x)
  {
  }

  /** With n entries in the leader's log, nextIndex at x, and f entries in the follower's, d of
      them shared: x-d refusals, or 1+f-d if x > f, and ceil((n - min(x,d)) / 5) batches are
      what it takes to bring the follower's first n entries in line with the leader's log and
      nextIndex to its end. With fewer it is not done; afterwards it stays so. */
  lemma {:induction false} Converges(me: Member, them: Member, p: Pair, k: nat)
    requires Able(me, them, p)
    ensures Shared(p) <= |p.follower.log|
    ensures Converged(them, Exchanges(me, them, p, k)) <==>
            k >= Needed(|p.leader.log|, NextIndex(p.leader, them.id), Shared(p), |p.follower.log|)
    decreases k
  {
    hide *;
    var x := NextIndex(p.leader, them.id);
    SharedHeld(p);
    if x <= Shared(p) {
      NoFailures(|p.leader.log|, x, Shared(p), |p.follower.log|);
      CatchesUp(me, them, p, k);
    } else {
      FailureCounts(|p.leader.log|, x, Shared(p), |p.follower.log|);
      if k == 0 {
        NotYet(me, them, p);
      } else {
        Refused(me, them, p);
        SharedAgain(p, Exchange(me, them, p));
        ExchangesStep(me, them, p, k);
        Converges(me, them, Exchange(me, them, p), k - 1);
      }
    }
  }

  // ----- In a cluster -----

  /** The leader sends its heartbeats; `q` handles the request for it; its reply comes back. */
  ghost predicate Trip(cfg: Config, s: Cluster, l: Id, q: Id, sent: Cluster, handled: Cluster, s': Cluster) {
    && Enabled(s, Heartbeats(l)) && sent == Next(cfg, s, Heartbeats(l))
    && var m := MakeAppend(Self(cfg, l), s.nodes[l], q);
       && Enabled(sent, DeliverAppend(m)) && handled == Next(cfg, sent, DeliverAppend(m))
       && var r := OnAppendEntries(Self(cfg, q), sent.nodes[q], m).reply;
          Enabled(handled, ReturnAppend(r)) && s' == Next(cfg, handled, ReturnAppend(r))
  }

  ghost predicate RoundTrip(cfg: Config, s: Cluster, l: Id, q: Id, s': Cluster) {
    exists sent, handled :: Trip(cfg, s, l, q, sent, handled, s')
  }

  function PairOf(s: Cluster, l: Id, q: Id): Pair
    requires l in s.nodes && q in s.nodes
  {
    Pair(s.nodes[l], s.nodes[q])
  }

  lemma ReachedAble(cfg: Config, s: Cluster, l: Id, q: Id)
    requires ValidConfig(cfg) && TimelyReachable(cfg, s) && l != q
    requires l in s.nodes && q in s.nodes && s.nodes[l].role == Leader
    requires s.nodes[q].currentTerm <= s.nodes[l].currentTerm
    ensures Able(Self(cfg, l), Self(cfg, q), PairOf(s, l, q)) && InRange(s.nodes[q])
  {
    hide Base;
    TimelyBase(cfg, s);
    TimelyIsReachable(cfg, s);
    ReachableSettled(cfg, s, l);
    ReachableSettled(cfg, s, q);
    NoOtherLeader(cfg, s, l, q);
    NextInRange(cfg, s, l, q);
    MatchingLogs(cfg, s, l, q);
  }

  lemma NoOtherLeader(cfg: Config, s: Cluster, l: Id, q: Id)
    requires Base(cfg, s) && l in s.nodes && q in s.nodes && l != q && s.nodes[l].role == Leader
    ensures s.nodes[q].currentTerm == s.nodes[l].currentTerm ==> s.nodes[q].role != Leader
  {
    assert NodeVote(s, l) && NodeVote(s, q);
  }

  lemma NextInRange(cfg: Config, s: Cluster, l: Id, q: Id)
    requires Base(cfg, s) && l in s.nodes && s.nodes[l].role == Leader
    ensures NextIndex(s.nodes[l], q) <= |s.nodes[l].log|
  {
    assert NodeVote(s, l) && Invariants.Leads(cfg, s, l);
  }

  lemma MatchingLogs(cfg: Config, s: Cluster, l: Id, q: Id)
    requires Base(cfg, s) && l in s.nodes && q in s.nodes
    ensures Matching(s.nodes[l].log, s.nodes[q].log)
  {
    hide Base;
    NodeLogCoherent(cfg, s, l);
    NodeLogCoherent(cfg, s, q);
    var x := s.nodes[l].log;
    var y := s.nodes[q].log;
    forall k | 0 <= k < |x| && k < |y| && x[k].term == y[k].term ensures x[..k + 1] == y[..k + 1] {
      SameTermSamePrefix(s.reigns, x, y, k);
    }
  }

  lemma MakeAppendTo(me: Member, n: Node, q: Id)
    ensures MakeAppend(me, n, q).to == q && MakeAppend(me, n, q).leader == me.id
  {
  }

  lemma ReplyToRequest(them: Member, f: Node, m: AppendReq)
    requires -1 <= f.lastApplied && -1 <= f.commitIndex
    ensures OnAppendEntries(them, f, m).reply.req == m
  {
  }

  /** The same handlers wait for the mutex. */
  ghost predicate SameWaiting(s: Cluster, s': Cluster) {
    s'.parked == s.parked && s'.parkedAppends == s.parkedAppends
  }

  lemma SameBusy(s: Cluster, s': Cluster, v: Id)
    requires SameWaiting(s, s')
    ensures Busy(s', v) <==> Busy(s, v)
  {
  }

  lemma Beats(cfg: Config, s: Cluster, l: Id, q: Id)
    requires TimelyReachable(cfg, s) && l in s.nodes && InRange(s.nodes[l]) && s.nodes[l].role == Leader
    requires q in cfg.members - {l}
    ensures Enabled(s, Heartbeats(l))
    ensures var sent := Next(cfg, s, Heartbeats(l));
            && TimelyReachable(cfg, sent) && SameWaiting(s, sent) && sent.nodes == s.nodes
            && MakeAppend(Self(cfg, l), s.nodes[l], q) in sent.appends
  {
    TimelyNext(cfg, s, Heartbeats(l));
    assert q in Self(cfg, l).peers;
  }

  lemma Handles(cfg: Config, s: Cluster, m: AppendReq)
    requires TimelyReachable(cfg, s) && m in s.appends && m.to in s.nodes && InRange(s.nodes[m.to])
    requires !Busy(s, m.to)
    ensures Enabled(s, DeliverAppend(m))
    ensures var handled := Next(cfg, s, DeliverAppend(m));
            var o := OnAppendEntries(Self(cfg, m.to), s.nodes[m.to], m);
            && TimelyReachable(cfg, handled) && SameWaiting(s, handled)
            && o.reply in handled.appendReplies && handled.nodes == s.nodes[m.to := o.node]
  {
    TimelyNext(cfg, s, DeliverAppend(m));
    hide OnAppendEntries;
  }

  lemma Hears(cfg: Config, s: Cluster, r: AppendReply)
    requires TimelyReachable(cfg, s) && r in s.appendReplies && r.req.leader in s.nodes && InRange(s.nodes[r.req.leader])
    ensures Enabled(s, ReturnAppend(r))
    ensures var heard := Next(cfg, s, ReturnAppend(r));
            && TimelyReachable(cfg, heard) && SameWaiting(s, heard)
            && heard.nodes == s.nodes[r.req.leader := OnAppendReply(Self(cfg, r.req.leader), s.nodes[r.req.leader], r)]
  {
    TimelyNext(cfg, s, ReturnAppend(r));
    hide OnAppendReply;
  }

  /** A round trip is possible, and every round trip is one exchange between the two nodes. */
  lemma TripIsExchange(cfg: Config, s: Cluster, l: Id, q: Id) returns (sent: Cluster, handled: Cluster, s': Cluster)
    requires TimelyReachable(cfg, s) && l in s.nodes && q in s.nodes && q in cfg.members - {l} && InRange(s.nodes[q])
    requires Able(Self(cfg, l), Self(cfg, q), PairOf(s, l, q)) && !Busy(s, q)
    ensures Trip(cfg, s, l, q, sent, handled, s')
    ensures TimelyReachable(cfg, s') && l in s'.nodes && q in s'.nodes && !Busy(s', q)
    ensures PairOf(s', l, q) == Exchange(Self(cfg, l), Self(cfg, q), PairOf(s, l, q))
    ensures s'.nodes == s.nodes[q := s'.nodes[q]][l := s'.nodes[l]] && SameWaiting(s, s')
  {
    hide TimelyReachable, Next, OnAppendEntries, OnAppendReply, MakeAppend, Busy, Able;
    assert Able(Self(cfg, l), Self(cfg, q), PairOf(s, l, q));
    AbleParts(Self(cfg, l), Self(cfg, q), PairOf(s, l, q));
    var m := MakeAppend(Self(cfg, l), s.nodes[l], q);
    MakeAppendTo(Self(cfg, l), s.nodes[l], q);
    Beats(cfg, s, l, q);
    sent := Next(cfg, s, Heartbeats(l));
    SameBusy(s, sent, q);
    Handles(cfg, sent, m);
    handled := Next(cfg, sent, DeliverAppend(m));
    SameBusy(sent, handled, q);
    var r := OnAppendEntries(Self(cfg, q), s.nodes[q], m).reply;
    ReplyToRequest(Self(cfg, q), s.nodes[q], m);
    Hears(cfg, handled, r);
    s' := Next(cfg, handled, ReturnAppend(r));
    SameBusy(handled, s', q);
  }

  /** A trip's states follow from where it starts. */
  lemma TripIsUnique(cfg: Config, s: Cluster, l: Id, q: Id,
                     s1: Cluster, s2: Cluster, s3: Cluster, t1: Cluster, t2: Cluster, t3: Cluster)
    requires Trip(cfg, s, l, q, s1, s2, s3) && Trip(cfg, s, l, q, t1, t2, t3)
    ensures s3 == t3
  {
    hide Next, Enabled, MakeAppend, OnAppendEntries;
  }

  /** The follower can take the request only if none of its handlers waits. */
  lemma TripFindsFree(cfg: Config, s: Cluster, l: Id, q: Id, sent: Cluster, handled: Cluster, s': Cluster)
    requires Trip(cfg, s, l, q, sent, handled, s')
    ensures !Busy(s, q)
  {
    MakeAppendTo(Self(cfg, l), s.nodes[l], q);
    hide MakeAppend, OnAppendEntries, HeartbeatNode, Broadcast;
    SameBusy(s, sent, q);
  }

  lemma EveryTrip(cfg: Config, s: Cluster, l: Id, q: Id, s': Cluster)
    requires TimelyReachable(cfg, s) && l in s.nodes && q in s.nodes && q in cfg.members - {l} && InRange(s.nodes[q])
    requires Able(Self(cfg, l), Self(cfg, q), PairOf(s, l, q)) && RoundTrip(cfg, s, l, q, s')
    ensures TimelyReachable(cfg, s') && l in s'.nodes && q in s'.nodes
    ensures PairOf(s', l, q) == Exchange(Self(cfg, l), Self(cfg, q), PairOf(s, l, q))
  {
    hide Trip, Able, Exchange, TimelyReachable, Busy;
    var sent, handled :| Trip(cfg, s, l, q, sent, handled, s');
    TripFindsFree(cfg, s, l, q, sent, handled, s');
    var t1, t2, t3 := TripIsExchange(cfg, s, l, q);
    TripIsUnique(cfg, s, l, q, sent, handled, s', t1, t2, t3);
  }

  lemma StillAble(me: Member, them: Member, p: Pair)
    requires Able(me, them, p)
    ensures p.leader.role == Leader && p.follower.currentTerm <= p.leader.currentTerm
  {
  }

  lemma NoExchanges(me: Member, them: Member, p: Pair)
    requires Able(me, them, p)
    ensures Exchanges(me, them, p, 0) == p
  {
  }

  lemma MembersAre(cfg: Config, s: Cluster)
    requires Base(cfg, s)
    ensures s.nodes.Keys == cfg.members
  {
  }

  /** A leader, and another node that has not seen a later term. */
  ghost predicate Paired(s: Cluster, l: Id, q: Id) {
    && l != q && l in s.nodes && q in s.nodes && s.nodes[l].role == Leader
    && s.nodes[q].currentTerm <= s.nodes[l].currentTerm
  }

  /** Two such nodes of a reachable state. */
  ghost predicate Pairable(cfg: Config, s: Cluster, l: Id, q: Id) {
    ValidConfig(cfg) && TimelyReachable(cfg, s) && Paired(s, l, q)
  }

  lemma PairableAble(cfg: Config, s: Cluster, l: Id, q: Id)
    requires Pairable(cfg, s, l, q)
    ensures TimelyReachable(cfg, s) && l in s.nodes && q in s.nodes && q in cfg.members - {l} && InRange(s.nodes[q])
    ensures Able(Self(cfg, l), Self(cfg, q), PairOf(s, l, q))
  {
    hide Base, TimelyReachable, Able;
    TimelyBase(cfg, s);
    MembersAre(cfg, s);
    ReachedAble(cfg, s, l, q);
  }

  lemma StillPairable(cfg: Config, s: Cluster, l: Id, q: Id, s': Cluster)
    requires Pairable(cfg, s, l, q) && RoundTrip(cfg, s, l, q, s')
    ensures Pairable(cfg, s', l, q) && l in s.nodes && q in s.nodes
    ensures Able(Self(cfg, l), Self(cfg, q), PairOf(s, l, q))
    ensures PairOf(s', l, q) == Exchange(Self(cfg, l), Self(cfg, q), PairOf(s, l, q))
  {
    hide Able, RoundTrip, Exchange, TimelyReachable;
    PairableAble(cfg, s, l, q);
    EveryTrip(cfg, s, l, q, s');
    AbleStep(Self(cfg, l), Self(cfg, q), PairOf(s, l, q));
    StillAble(Self(cfg, l), Self(cfg, q), PairOf(s', l, q));
  }

  lemma AbleStep(me: Member, them: Member, p: Pair)
    requires Able(me, them, p)
    ensures Able(me, them, Exchange(me, them, p))
  {
    hide Able, Exchange;
    ExchangesStep(me, them, p, 1);
  }

  /** Consecutive round trips, and nothing else. */
  ghost predicate RoundTrips(cfg: Config, trips: seq<Cluster>, l: Id, q: Id) {
    trips != [] && forall i {:trigger trips[i]} :: 0 <= i < |trips| - 1 ==> RoundTrip(cfg, trips[i], l, q, trips[i + 1])
  }

  lemma {:induction false} TripsAreExchanges(cfg: Config, trips: seq<Cluster>, l: Id, q: Id)
    requires RoundTrips(cfg, trips, l, q) && Pairable(cfg, trips[0], l, q)
    ensures l in trips[0].nodes && q in trips[0].nodes && l in trips[|trips| - 1].nodes && q in trips[|trips| - 1].nodes
    ensures Able(Self(cfg, l), Self(cfg, q), PairOf(trips[0], l, q))
    ensures PairOf(trips[|trips| - 1], l, q) ==
            Exchanges(Self(cfg, l), Self(cfg, q), PairOf(trips[0], l, q), |trips| - 1)
    decreases |trips|
  {
    hide Pairable, RoundTrip, Able, Exchange, Exchanges;
    PairableAble(cfg, trips[0], l, q);
    if |trips| == 1 {
      NoExchanges(Self(cfg, l), Self(cfg, q), PairOf(trips[0], l, q));
    } else {
      var rest := trips[1..];
      assert RoundTrip(cfg, trips[0], l, q, trips[1]);
      assert forall i {:trigger rest[i]} :: 0 <= i < |rest| - 1 ==> rest[i] == trips[i + 1] && rest[i + 1] == trips[i + 2];
      StillPairable(cfg, trips[0], l, q, trips[1]);
      ExchangesStep(Self(cfg, l), Self(cfg, q), PairOf(trips[0], l, q), |trips| - 1);
      TripsAreExchanges(cfg, rest, l, q);
    }
  }

  /** From every reachable state, a sequence of round trips brings any other node that has not
      seen a later term in line with the leader's log exactly if it has as many as needed. */
  lemma LeaderCatchesUp(cfg: Config, trips: seq<Cluster>, l: Id, q: Id)
    requires RoundTrips(cfg, trips, l, q) && Pairable(cfg, trips[0], l, q)
    ensures l in trips[0].nodes && q in trips[0].nodes
    ensures var s := trips[0];
            var s' := trips[|trips| - 1];
            var x := s.nodes[l].log;
            var y := s.nodes[q].log;
            && l in s'.nodes && q in s'.nodes && s'.nodes[l].log == x
            && (x <= s'.nodes[q].log && NextIndex(s'.nodes[l], q) == |x| <==>
                  |trips| - 1 >= Needed(|x|, NextIndex(s.nodes[l], q), CommonPrefix(x, y), |y|))
  {
    hide TimelyReachable, RoundTrip, Able, Exchange, Exchanges;
    TripsAreExchanges(cfg, trips, l, q);
    hide CommonPrefix;
    Converges(Self(cfg, l), Self(cfg, q), PairOf(trips[0], l, q), |trips| - 1);
  }

  lemma TripsGrow(cfg: Config, s: Cluster, rest: seq<Cluster>, l: Id, q: Id)
    requires RoundTrips(cfg, rest, l, q) && RoundTrip(cfg, s, l, q, rest[0])
    ensures RoundTrips(cfg, [s] + rest, l, q)
  {
    hide RoundTrip;
    var trips := [s] + rest;
    forall i | 0 <= i < |trips| - 1 ensures RoundTrip(cfg, trips[i], l, q, trips[i + 1]) {
      assert i > 0 ==> trips[i] == rest[i - 1] && trips[i + 1] == rest[i];
    }
  }

  /** And there always is such a sequence, of any length, if no handler of the follower waits:
      a round trip is never blocked. */
  lemma {:induction false} TripsExist(cfg: Config, s: Cluster, l: Id, q: Id, k: nat) returns (trips: seq<Cluster>)
    requires Pairable(cfg, s, l, q) && !Busy(s, q)
    ensures |trips| == k + 1 && trips[0] == s && RoundTrips(cfg, trips, l, q)
    decreases k
  {
    hide Pairable, Trip, Able, Busy;
    if k == 0 {
      trips := [s];
    } else {
      PairableAble(cfg, s, l, q);
      var sent, handled, s' := TripIsExchange(cfg, s, l, q);
      StillPairable(cfg, s, l, q, s');
      var rest := TripsExist(cfg, s', l, q, k - 1);
      TripsGrow(cfg, s, rest, l, q);
      trips := [s] + rest;
    }
  }
}
