/**
 A leader that an onAppendEntries has cut back after it had moved a follower's nextIndex: once
 its log has grown to that index again, its requests carry nothing and the follower accepts
 them, so however many round trips there are, the follower never gets in line.
 */
module Stuck {
  import opened Commands
  import opened RaftTypes
  import opened LogMerge
  import opened Handlers
  import opened Clusters
  import opened Replications
  import opened InBounds
  import opened Convergence
  import opened Scenario
  import opened LateResume

  /** The records of leader and follower that no round trip changes for the better. */
  ghost predicate StuckPair(l: Node, q: Node, c: Id) {
    && l.role == Leader && l.currentTerm == 5 && l.log == Forked() && NextIndex(l, c) == 2
    && q.role == Follower && q.currentTerm == 5 && q.log == Longer()
  }

  ghost predicate StuckAt(cfg: Config, s: Cluster, a: Id, c: Id) {
    && Reachable(cfg, s) && c in cfg.members - {a} && a in s.nodes && c in s.nodes && !Busy(s, c)
    && StuckPair(s.nodes[a], s.nodes[c], c)
  }

  /** The request is empty, and the follower holds an entry of the term just before it. */
  lemma AcceptsNothing(cfg: Config, l: Node, q: Node, a: Id, c: Id)
    requires StuckPair(l, q, c) && InRange(l) && InRange(q) && c != a
    ensures var m := MakeAppend(Self(cfg, a), l, c);
            var o := OnAppendEntries(Self(cfg, c), q, m);
            && m.to == c && m.leader == a && m.term == 5 && m.entries == []
            && StuckPair(l, o.node, c) && o.reply == AppendReply(m, 5, true, None)
            && OnAppendReply(Self(cfg, a), l, o.reply) == l
  {
    var m := MakeAppend(Self(cfg, a), l, c);
    assert m == AppendReq(5, a, c, 1, 5, [], l.commitIndex);
    assert PrevMatches(q.log, m);
    MergeNothing(q.log, 2);
    var merged := q.(log := Merge(q.log, 2, []));
    assert merged == q;
    if m.leaderCommit > q.commitIndex {
      var raised := merged.(commitIndex := Min(m.leaderCommit, |merged.log| - 1));
      ApplyTouches(Self(cfg, c), raised);
    }
    hide ApplyStateMachine, Merge, LexLess, Longer, Forked;
  }

  lemma ReturnIs(cfg: Config, s: Cluster, r: AppendReply)
    requires r in s.appendReplies && r.req.leader in s.nodes && InRange(s.nodes[r.req.leader])
    ensures Enabled(s, ReturnAppend(r))
    ensures var s' := Next(cfg, s, ReturnAppend(r));
            && SameExcept(s, s', {r.req.leader}) && r.req.leader in s'.nodes
            && s'.nodes[r.req.leader] == OnAppendReply(Self(cfg, r.req.leader), s.nodes[r.req.leader], r)
  {
    hide OnAppendReply;
  }

  lemma StuckParts(cfg: Config, s: Cluster, a: Id, c: Id)
    requires StuckAt(cfg, s, a, c)
    ensures Reachable(cfg, s) && c in cfg.members - {a} && a in s.nodes && c in s.nodes && !Busy(s, c)
    ensures StuckPair(s.nodes[a], s.nodes[c], c) && s.nodes[a].role == Leader
    ensures InRange(s.nodes[a]) && InRange(s.nodes[c]) && cfg.members - {a} != {} && a != c
  {
    hide Reachable, StuckPair, Busy;
    ReachableSettled(cfg, s, a);
    ReachableSettled(cfg, s, c);
    assert StuckPair(s.nodes[a], s.nodes[c], c) ==> s.nodes[a].role == Leader by { LeadsStuck(s.nodes[a], s.nodes[c], c); }
  }

  lemma LeadsStuck(l: Node, q: Node, c: Id)
    ensures StuckPair(l, q, c) ==> l.role == Leader
  {
  }

  /** One round trip changes nothing that matters. */
  lemma StuckTrip(cfg: Config, s: Cluster, a: Id, c: Id) returns (s': Cluster)
    requires StuckAt(cfg, s, a, c)
    ensures RoundTrip(cfg, s, a, c, s') && StuckAt(cfg, s', a, c)
  {
    StuckParts(cfg, s, a, c);
    hide Reachable, Next, OnAppendEntries, OnAppendReply, MakeAppend, StuckPair, Busy, Enabled, KeepsMessages, InRange;
    AcceptsNothing(cfg, s.nodes[a], s.nodes[c], a, c);
    var m := MakeAppend(Self(cfg, a), s.nodes[a], c);
    BeatIs(cfg, s, a);
    var sent := Next(cfg, s, Heartbeats(a));
    ReachableNext(cfg, s, Heartbeats(a));
    StillFree(s, sent, {}, {c});
    DeliverIs(cfg, sent, m);
    var handled := Next(cfg, sent, DeliverAppend(m));
    ReachableNext(cfg, sent, DeliverAppend(m));
    StillFree(sent, handled, {c}, {c});
    var r := OnAppendEntries(Self(cfg, c), s.nodes[c], m).reply;
    ReturnIs(cfg, handled, r);
    s' := Next(cfg, handled, ReturnAppend(r));
    ReachableNext(cfg, handled, ReturnAppend(r));
    StillFree(handled, s', {a}, {c});
    assert Trip(cfg, s, a, c, sent, handled, s');
  }

  /** Any number of round trips leaves the follower out of line. */
  lemma {:induction false} StuckTrips(cfg: Config, s: Cluster, a: Id, c: Id, k: nat) returns (trips: seq<Cluster>)
    requires StuckAt(cfg, s, a, c)
    ensures |trips| == k + 1 && trips[0] == s && RoundTrips(cfg, trips, a, c) && StuckAt(cfg, trips[k], a, c)
    decreases k
  {
    hide StuckAt, RoundTrip;
    if k == 0 {
      trips := [s];
    } else {
      var s' := StuckTrip(cfg, s, a, c);
      var rest := StuckTrips(cfg, s', a, c, k - 1);
      TripsGrow(cfg, s, rest, a, c);
      trips := [s] + rest;
    }
  }

  /** In every cluster of three or more a reachable state from which, after any number of round
      trips, the follower's log still starts with another entry than the leader's. */
  lemma NeverInLine(cfg: Config, k: nat) returns (trips: seq<Cluster>, a: Id, c: Id)
    requires |cfg.members| >= 3 && !cfg.rechecksTerm
    ensures |trips| == k + 1 && Reachable(cfg, trips[0]) && RoundTrips(cfg, trips, a, c)
    ensures forall s :: s == trips[0] || s == trips[k] ==> Paired(s, a, c) && OutOfLine(s, a, c)
  {
    var s;
    s, a, c := LogsFork(cfg);
    hide Reachable, RoundTrips, Busy;
    trips := StuckTrips(cfg, s, a, c, k);
    StuckParts(cfg, trips[k], a, c);
    Differ(trips[0], a, c);
    Differ(trips[k], a, c);
  }

  /** The logs share nothing, and nextIndex is past the leader's whole log. */
  ghost predicate OutOfLine(s: Cluster, a: Id, c: Id) {
    && a in s.nodes && c in s.nodes && |s.nodes[a].log| == |s.nodes[c].log| == 2 && NextIndex(s.nodes[a], c) == 2
    && CommonPrefix(s.nodes[a].log, s.nodes[c].log) == 0 && !(s.nodes[a].log <= s.nodes[c].log)
  }

  lemma Differ(s: Cluster, a: Id, c: Id)
    requires a != c && a in s.nodes && c in s.nodes && StuckPair(s.nodes[a], s.nodes[c], c)
    ensures Paired(s, a, c) && OutOfLine(s, a, c)
  {
    assert Forked()[0] != Longer()[0];
  }
}
