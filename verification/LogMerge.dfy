/**
 The loop of onAppendEntries that merges received entries into the log
 (server/raft_node.cpp:599-622), and what it computes.
 */
module LogMerge {
  import opened RaftTypes

  /** The loop, entry by entry: `index` is where the first of `entries` belongs. */
  function Merge(log: Log, index: nat, entries: Log): Log
    requires index <= |log|
    decreases |entries|
  {
    if entries == [] then log
    else if index < |log| && log[index].term == entries[0].term then
      Merge(log, index + 1, entries[1..])
    else
      Merge(log[..index] + [entries[0]], index + 1, entries[1..])
  }

  /** Every entry is already in the log, judged by its term. */
  ghost predicate Covered(log: Log, index: nat, entries: Log) {
    && index + |entries| <= |log|
    && forall j :: 0 <= j < |entries| ==> log[index + j].term == entries[j].term
  }

  /** `j` is the first entry that the log lacks or holds with another term. */
  ghost predicate FirstConflict(log: Log, index: nat, entries: Log, j: nat) {
    && j < |entries|
    && index + j <= |log|
    && (index + j < |log| ==> log[index + j].term != entries[j].term)
    && forall i :: 0 <= i < j ==> log[index + i].term == entries[i].term
  }

  lemma {:induction false} ConflictOrCovered(log: Log, index: nat, entries: Log)
    requires index <= |log|
    ensures Covered(log, index, entries) || exists j: nat :: FirstConflict(log, index, entries, j)
    decreases |entries|
  {
    if entries != [] {
      if index == |log| || log[index].term != entries[0].term {
        assert FirstConflict(log, index, entries, 0);
      } else {
        var rest := entries[1..];
        ConflictOrCovered(log, index + 1, rest);
        if Covered(log, index + 1, rest) {
          forall j | 0 <= j < |entries| ensures log[index + j].term == entries[j].term {
            assert j > 0 ==> log[index + 1 + (j - 1)].term == rest[j - 1].term;
          }
        } else {
          var j: nat :| FirstConflict(log, index + 1, rest, j);
          forall i | 0 <= i < j + 1 ensures log[index + i].term == entries[i].term {
            assert i > 0 ==> log[index + 1 + (i - 1)].term == rest[i - 1].term;
          }
          assert FirstConflict(log, index, entries, j + 1);
        }
      }
    }
  }

  /** Entries already present leave the log alone, tail included. */
  lemma {:induction false} MergeCovered(log: Log, index: nat, entries: Log)
    requires index <= |log| && Covered(log, index, entries)
    ensures Merge(log, index, entries) == log
    decreases |entries|
  {
    if entries != [] {
      assert log[index + 0].term == entries[0].term;
      var rest := entries[1..];
      forall j | 0 <= j < |rest| ensures log[index + 1 + j].term == rest[j].term {
        assert log[index + (j + 1)].term == entries[j + 1].term;
      }
      MergeCovered(log, index + 1, rest);
    }
  }

  /** Past the end of the log the loop only appends. */
  lemma {:induction false} MergeAtEnd(log: Log, entries: Log)
    ensures Merge(log, |log|, entries) == log + entries
    decreases |entries|
  {
    if entries == [] {
      assert log + entries == log;
    } else {
      assert log[..|log|] == log;
      MergeAtEnd(log + [entries[0]], entries[1..]);
      assert log + [entries[0]] + entries[1..] == log + entries;
    }
  }

  /** Otherwise the log is cut at the first conflict and the remaining entries follow. */
  lemma {:induction false} MergeConflict(log: Log, index: nat, entries: Log, j: nat)
    requires index <= |log| && FirstConflict(log, index, entries, j)
    ensures Merge(log, index, entries) == log[..index + j] + entries[j..]
    decreases |entries|
  {
    var rest := entries[1..];
    if j == 0 {
      var cut := log[..index] + [entries[0]];
      MergeAtEnd(cut, rest);
      assert cut + rest == log[..index] + entries[0..];
    } else {
      assert log[index + 0].term == entries[0].term;
      forall i | 0 <= i < j - 1 ensures log[index + 1 + i].term == rest[i].term {
        assert log[index + (i + 1)].term == entries[i + 1].term;
      }
      MergeConflict(log, index + 1, rest, j - 1);
      assert rest[j - 1..] == entries[j..];
    }
  }

  /** After the loop the log holds every received entry's term at its index. */
  lemma MergeCovers(log: Log, index: nat, entries: Log)
    requires index <= |log|
    ensures Covered(Merge(log, index, entries), index, entries)
    ensures index <= |Merge(log, index, entries)| && Merge(log, index, entries)[..index] == log[..index]
  {
    ConflictOrCovered(log, index, entries);
    if Covered(log, index, entries) {
      MergeCovered(log, index, entries);
    } else {
      var j: nat :| FirstConflict(log, index, entries, j);
      MergeConflict(log, index, entries, j);
    }
  }

  /** Handling the same entries twice is handling them once. */
  lemma MergeTwice(log: Log, index: nat, entries: Log)
    requires index <= |log|
    ensures index <= |Merge(log, index, entries)|
    ensures Merge(Merge(log, index, entries), index, entries) == Merge(log, index, entries)
  {
    MergeCovers(log, index, entries);
    MergeCovered(Merge(log, index, entries), index, entries);
  }

  /** A request that carries less of the same entries, arriving late, changes nothing. */
  lemma MergeShorterAfterLonger(log: Log, index: nat, entries: Log, lo: nat, hi: nat)
    requires index <= |log| && lo <= hi <= |entries|
    ensures index + lo <= |Merge(log, index, entries)|
    ensures Merge(Merge(log, index, entries), index + lo, entries[lo..hi]) == Merge(log, index, entries)
  {
    MergeCovers(log, index, entries);
    var merged := Merge(log, index, entries);
    forall j | 0 <= j < hi - lo ensures merged[index + lo + j].term == entries[lo..hi][j].term {
      assert merged[index + (lo + j)].term == entries[lo + j].term;
    }
    MergeCovered(merged, index + lo, entries[lo..hi]);
  }

  lemma MergeNothing(log: Log, index: nat)
    requires index <= |log|
    ensures Merge(log, index, []) == log
  {
  }
}
