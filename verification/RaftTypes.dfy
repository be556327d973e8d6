/** The records that the consensus engine passes around: operations, log entries,
    the four RPC records, and the state that one replica keeps under its lock.

    A command carries the argument variant that its kind calls for, so an operation
    whose kind and argument disagree cannot be written down. */
module RaftTypes {

  datatype Option<+T> = None | Some(value: T)

  /** Address record of one server; the text fields are fixed-width byte buffers. */
  datatype ServerInfo = ServerInfo(id: int, ip: seq<int>, raftPort: int, dbPort: int, name: seq<int>)

  datatype Command =
    | Get(key: int)
    | Put(key: int, val: int)
    | AddServer(info: ServerInfo)
    | RemoveServer(serverId: int)
    | Unknown(kind: int, arg: int)

  /** An operation; only the leader that took it from a client holds a promise handle for it. */
  datatype RaftOp = RaftOp(command: Command, promiseHandle: Option<nat>) {
    function WithoutPromise(): RaftOp {
      this.(promiseHandle := None)
    }

    /** Operations that leave the cluster configuration alone. */
    predicate IsData() {
      !command.AddServer? && !command.RemoveServer?
    }
  }

  datatype LogEntry = LogEntry(term: int, op: RaftOp) {
    function WithoutPromise(): LogEntry {
      this.(op := op.WithoutPromise())
    }
  }

  /** A log as it is shipped and stored: the same entries with the promise handles removed. */
  function Plain(log: seq<LogEntry>): (r: seq<LogEntry>)
    ensures |r| == |log|
    ensures forall i :: 0 <= i < |log| ==> r[i] == log[i].WithoutPromise()
  {
    seq(|log|, i requires 0 <= i < |log| => log[i].WithoutPromise())
  }

  /** The operations of `log` at the indices `lo <= i < hi`. */
  function OpsBetween(log: seq<LogEntry>, lo: int, hi: int): seq<RaftOp> {
    if 0 <= lo <= hi <= |log| then
      seq(hi - lo, i requires 0 <= i < hi - lo => log[lo + i].op)
    else
      []
  }

  function PlainOps(ops: seq<RaftOp>): seq<RaftOp> {
    seq(|ops|, i requires 0 <= i < |ops| => ops[i].WithoutPromise())
  }

  function LastTerm(log: seq<LogEntry>): int {
    if |log| == 0 then -1 else log[|log| - 1].term
  }

  // RPC records

  datatype AppendLogEntry = AppendLogEntry(term: int, index: int, op: RaftOp)

  datatype AppendEntriesParams = AppendEntriesParams(
    term: int, leaderId: int, prevLogIndex: int, prevLogTerm: int,
    entries: seq<AppendLogEntry>, leaderCommit: int)

  datatype AppendEntriesRet = AppendEntriesRet(term: int, success: bool)

  datatype RequestVoteParams = RequestVoteParams(
    candidateId: int, term: int, lastLogIndex: int, lastLogTerm: int)

  datatype RequestVoteRet = RequestVoteRet(term: int, voteGranted: bool)

  // Replica state

  datatype Role = Follower | Candidate | Leader

  /** Everything a replica keeps under its state lock. `config` holds the keys of the
      membership map, `peers` the keys of the RPC client map, and `released` every operation
      pushed to the executor queue since the process started. */
  datatype Node = Node(
    id: int,
    currentTerm: int,
    votedFor: int,
    log: seq<LogEntry>,
    role: Role,
    commitIndex: int,
    lastApplied: int,
    lastKnownLeader: int,
    config: set<int>,
    lastConfigChange: int,
    peers: set<int>,
    nextIndex: map<int, int>,
    matchIndex: map<int, int>,
    votesReceived: int,
    released: seq<RaftOp>)

  /** `std::map::operator[]`: a missing key reads as zero. */
  function Lookup(m: map<int, int>, k: int): int {
    if k in m then m[k] else 0
  }

  predicate IsFill(m: map<int, int>, s: set<int>, v: int) {
    m.Keys == s && forall k :: k in s ==> m[k] == v
  }

  /** The map that gives every key of `s` the value `v`. */
  ghost function Fill(s: set<int>, v: int): (m: map<int, int>)
    ensures IsFill(m, s, v)
  {
    FillExists(s, v);
    var m :| IsFill(m, s, v);
    m
  }

  lemma FillUnique(m: map<int, int>, s: set<int>, v: int)
    requires IsFill(m, s, v)
    ensures m == Fill(s, v)
  {
    var f := Fill(s, v);
    assert forall k :: k in m <==> k in f;
    assert forall k :: k in m ==> m[k] == f[k];
    assert m == f;
  }

  lemma {:induction false} FillExists(s: set<int>, v: int)
    ensures exists m :: IsFill(m, s, v)
    decreases |s|
  {
    if s == {} {
      assert IsFill(map[], s, v);
    } else {
      Inhabited(s);
      var k :| k in s;
      FillExists(s - {k}, v);
      var m :| IsFill(m, s - {k}, v);
      assert IsFill(m[k := v], s, v);
    }
  }

  lemma Inhabited(s: set<int>)
    requires s != {}
    ensures exists x: int :: x in s
  {
    if forall x: int :: x !in s {
      assert false;
    }
  }
}
