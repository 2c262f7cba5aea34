/**
 The state of one Raft node and the messages nodes exchange
 (server/raft_node.hpp, and the JSON objects built in server/raft_node.cpp).
 */
module RaftTypes {
  import opened Commands

  type Id = string

  /** The value of votedFor that means "no vote in this term". */
  const NO_VOTE: Id := ""

  /** MAX_ENTRIES_PER_RPC */
  const BATCH: nat := 5

  datatype Role = Follower | Candidate | Leader

  datatype Entry = Entry(term: nat, command: Command)

  type Log = seq<Entry>

  /** The fields of a RaftNode, with the vote counter of its running election
      (`votes`, `won`) and the commands it has passed to its state machine so far. */
  datatype Node = Node(
    currentTerm: nat,
    votedFor: Id,
    role: Role,
    log: Log,
    commitIndex: int,
    lastApplied: int,
    nextIndex: map<Id, nat>,
    matchIndex: map<Id, int>,
    votes: nat,
    won: bool,
    applied: Log)

  const INITIAL_NODE := Node(0, NO_VOTE, Follower, [], -1, -1, map[], map[], 0, false, [])

  /** What a node knows of the cluster, and two repairs of the code. Both are false for the
      code as written. With `leaderOnlyScan` the commit scan checks the role; with
      `rechecksTerm` onAppendEntries compares the terms again after it has given the mutex
      up, and turns the request down as stale if the term has moved on. */
  datatype Member = Member(id: Id, peers: set<Id>, leaderOnlyScan: bool, rechecksTerm: bool)

  function Majority(me: Member): nat {
    (|me.peers| + 1) / 2 + 1
  }

  /** The commands that the entries carry. */
  function CommandsOf(log: Log): (cmds: seq<Command>)
    ensures |cmds| == |log| && forall i :: 0 <= i < |log| ==> cmds[i] == log[i].command
  {
    seq(|log|, i requires 0 <= i < |log| => log[i].command)
  }

  type PrevIndex = i: int | -1 <= i witness -1

  datatype VoteReq = VoteReq(term: nat, candidate: Id, to: Id, lastLogIndex: int, lastLogTerm: nat)

  datatype VoteReply = VoteReply(req: VoteReq, term: nat, granted: bool)

  datatype AppendReq = AppendReq(
    term: nat,
    leader: Id,
    to: Id,
    prevLogIndex: PrevIndex,
    prevLogTerm: nat,
    entries: Log,
    leaderCommit: int)
  {
    /** The index of the first entry carried: the sender's nextIdx. */
    function First(): nat { prevLogIndex + 1 }

    /** The index after the last entry carried. */
    function End(): nat { prevLogIndex + 1 + |entries| }
  }

  /** A handler of onAppendEntries that has given the mutex up, and the term in which its
      request arrived. */
  datatype Paused = Paused(req: AppendReq, heard: nat)

  datatype AppendReply = AppendReply(req: AppendReq, term: nat, success: bool, conflict: Option<nat>)

  function Min(a: int, b: int): int {
    if a <= b then a else b
  }

  function LastTerm(log: Log): nat {
    if log == [] then 0 else log[|log| - 1].term
  }

  /** The order of std::string. */
  predicate LexLess(a: string, b: string) {
    b != [] && (a == [] || a[0] < b[0] || (a[0] == b[0] && LexLess(a[1..], b[1..])))
  }
}
