/** What each section run under the state lock computes, as functions on `Node`.
    The imperative replica (module RaftReplica) is proved against these functions and the
    cluster model (module RaftCluster) takes its steps from them. */
module RaftHandlers {
  import opened RaftTypes

  // Role changes

  function BecomeFollower(n: Node, term: int): Node {
    n.(currentTerm := term, role := Follower, votedFor := -1)
  }

  function BecomeCandidate(n: Node, term: int): Node {
    n.(currentTerm := term, role := Candidate, votedFor := n.id)
  }

  /** Leader entry: the vote is cleared and both index maps are rebuilt from the peer set. */
  ghost function BecomeLeader(n: Node): Node {
    n.(role := Leader, votedFor := -1, lastKnownLeader := n.id,
       nextIndex := Fill(n.peers, |n.log|),
       matchIndex := Fill(n.peers, -1))
  }

  // Elections

  function StartElection(n: Node): Node {
    BecomeCandidate(n, n.currentTerm + 1).(votesReceived := 1)
  }

  function VoteRequest(n: Node, savedTerm: int): RequestVoteParams {
    RequestVoteParams(n.id, savedTerm, |n.log| - 1, LastTerm(n.log))
  }

  /** The up-to-date test on the candidate's last entry. */
  predicate CandidateUpToDate(args: RequestVoteParams, log: seq<LogEntry>) {
    args.lastLogTerm > LastTerm(log) ||
    (args.lastLogTerm == LastTerm(log) && args.lastLogIndex >= |log| - 1)
  }

  /** A follower in a higher term, or unchanged. */
  function InTermOf(n: Node, term: int): Node {
    if term > n.currentTerm then BecomeFollower(n, term) else n
  }

  function HandleRequestVote(n: Node, args: RequestVoteParams): (Node, RequestVoteRet) {
    if args.candidateId !in n.peers then
      (n, RequestVoteRet(n.currentTerm, false))
    else
      var n1 := InTermOf(n, args.term);
      if args.term == n1.currentTerm
         && (n1.votedFor == -1 || n1.votedFor == args.candidateId)
         && CandidateUpToDate(args, n.log)
      then
        (n1.(votedFor := args.candidateId), RequestVoteRet(n1.currentTerm, true))
      else
        (n1, RequestVoteRet(n1.currentTerm, false))
  }

  ghost function HandleVoteReply(n: Node, savedTerm: int, reply: RequestVoteRet): Node {
    if n.role != Candidate then
      n
    else if reply.term > savedTerm then
      BecomeFollower(n, reply.term)
    else if reply.term == savedTerm && reply.voteGranted then
      var n1 := n.(votesReceived := n.votesReceived + 1);
      if n1.votesReceived * 2 > |n.config| then BecomeLeader(n1) else n1
    else
      n
  }

  // Log growth and membership

  // A membership change has two halves: the configuration under the lock that the caller holds, and
  // the peer under the lock taken again after that one has been released.

  function EnterConfig(n: Node, serverId: int): Node {
    n.(lastConfigChange := |n.log| - 1, config := n.config + {serverId})
  }

  function LeaveConfig(n: Node, serverId: int): Node {
    n.(lastConfigChange := |n.log| - 1, config := n.config - {serverId})
  }

  function Connect(n: Node, peerId: int): Node {
    n.(nextIndex := n.nextIndex[peerId := 0], matchIndex := n.matchIndex[peerId := -1], peers := n.peers + {peerId})
  }

  function Disconnect(n: Node, peerId: int): Node {
    n.(nextIndex := n.nextIndex - {peerId}, matchIndex := n.matchIndex - {peerId}, peers := n.peers - {peerId})
  }

  /** Both halves, with nothing in between. A replica has no peer for itself. */
  function ApplyAddServer(n: Node, serverId: int): Node {
    var n1 := EnterConfig(n, serverId);
    if n.id != serverId then Connect(n1, serverId) else n1
  }

  function ApplyRemoveServer(n: Node, serverId: int): Node {
    var n1 := LeaveConfig(n, serverId);
    if n.id != serverId then Disconnect(n1, serverId) else n1
  }

  /** The entry goes into the log and the configuration. */
  function ConfigHalf(n: Node, e: LogEntry): Node {
    var n1 := n.(log := n.log + [e]);
    match e.op.command
    case AddServer(info) => EnterConfig(n1, info.id)
    case RemoveServer(id) => LeaveConfig(n1, id)
    case _ => n1
  }

  /** The second half for a command that changes the membership. A replica has no peer for itself. */
  function PeersAfter(n: Node, c: Command): Node {
    match c
    case AddServer(info) => if info.id != n.id then Connect(n, info.id) else n
    case RemoveServer(id) => if id != n.id then Disconnect(n, id) else n
    case _ => n
  }

  /** Appends one entry and applies it at once if it changes the membership. */
  function AppendOne(n: Node, e: LogEntry): Node {
    var n1 := n.(log := n.log + [e]);
    match e.op.command
    case AddServer(info) => ApplyAddServer(n1, info.id)
    case RemoveServer(id) => ApplyRemoveServer(n1, id)
    case _ => n1
  }

  function AppendAll(n: Node, es: seq<LogEntry>): Node
    decreases |es|
  {
    if es == [] then n else AppendAll(AppendOne(n, es[0]), es[1..])
  }

  /** The entries a leader makes of the operations it took in. */
  function Stamp(term: int, ops: seq<RaftOp>): seq<LogEntry> {
    seq(|ops|, i requires 0 <= i < |ops| => LogEntry(term, ops[i]))
  }

  function LeaderAppend(n: Node, ops: seq<RaftOp>): Node {
    AppendAll(n, Stamp(n.currentTerm, ops))
  }

  // Replication, follower side

  function Payload(es: seq<AppendLogEntry>): (r: seq<LogEntry>)
    ensures |r| == |es|
    ensures forall i :: 0 <= i < |es| ==> r[i] == LogEntry(es[i].term, es[i].op)
  {
    seq(|es|, i requires 0 <= i < |es| => LogEntry(es[i].term, es[i].op))
  }

  /** How many leading entries of `es` carry the terms found in `log` from index `at` on. */
  function MatchLen(log: seq<LogEntry>, at: nat, es: seq<LogEntry>): nat
    decreases |es|
  {
    if at >= |log| || es == [] || log[at].term != es[0].term then
      0
    else
      1 + MatchLen(log, at + 1, es[1..])
  }

  predicate PrevMatches(log: seq<LogEntry>, args: AppendEntriesParams)
    requires args.prevLogIndex >= -1
  {
    args.prevLogIndex == -1 ||
    (args.prevLogIndex < |log| && args.prevLogTerm == log[args.prevLogIndex].term)
  }

  /** The request is not of an earlier term, and the entry before its window is in the log. */
  predicate Accepts(n: Node, args: AppendEntriesParams) {
    args.prevLogIndex >= -1 && args.term >= n.currentTerm && PrevMatches(n.log, args)
  }

  function Cut(n: Node, length: nat): Node
    requires length <= |n.log|
  {
    n.(log := n.log[..length])
  }

  /** Keeps the matching entries, and replaces everything after them if some entry is new. */
  function Reconcile(n: Node, at: nat, es: seq<LogEntry>): Node
    requires at <= |n.log|
  {
    var k := MatchLen(n.log, at, es);
    MatchLenBounds(n.log, at, es);
    if k < |es| then AppendAll(Cut(n, at + k), es[k..]) else n
  }

  /** The loop counters of the reconcile loop stay inside both sequences. */
  lemma MatchLenBounds(log: seq<LogEntry>, at: nat, es: seq<LogEntry>)
    requires at <= |log|
    ensures MatchLen(log, at, es) <= |es|
    ensures at + MatchLen(log, at, es) <= |log|
    decreases |es|
  {
  }

  /** Where the reconcile step cuts the log to put `es` at `at`; the log's end if it cuts nothing. */
  function CutIndex(log: seq<LogEntry>, at: nat, es: seq<LogEntry>): (c: nat)
    requires at <= |log|
    ensures c <= |log|
  {
    MatchLenBounds(log, at, es);
    if MatchLen(log, at, es) < |es| then at + MatchLen(log, at, es) else |log|
  }

  /** Where an incoming request cuts the log. */
  function CutPoint(x: Node, a: AppendEntriesParams): (c: nat)
    ensures c <= |x.log|
  {
    if Accepts(x, a) then CutIndex(x.log, a.prevLogIndex + 1, Payload(a.entries)) else |x.log|
  }

  /** The operations of `log` from index `lo` on. */
  function OpsFrom(log: seq<LogEntry>, lo: int): seq<RaftOp> {
    OpsBetween(log, lo, |log|)
  }

  /** The operations that putting `es` at `at` cuts off. */
  function CutBy(log: seq<LogEntry>, at: nat, es: seq<LogEntry>): seq<RaftOp>
    requires at <= |log|
  {
    OpsFrom(log, CutIndex(log, at, es))
  }

  /** The operations that an incoming request cuts off, and so aborts. */
  function CutOff(x: Node, a: AppendEntriesParams): seq<RaftOp> {
    OpsFrom(x.log, CutPoint(x, a))
  }

  function Min(a: int, b: int): int {
    if a <= b then a else b
  }

  /** Moves the commit index to `c` and releases what lies between the last applied index and it. */
  function ReleaseUpTo(n: Node, c: int): Node {
    n.(commitIndex := c, lastApplied := c,
       released := n.released + OpsBetween(n.log, n.lastApplied + 1, c + 1))
  }

  function FollowerCommit(n: Node, leaderCommit: int): Node {
    if leaderCommit > n.commitIndex then
      ReleaseUpTo(n, Min(leaderCommit, |n.log| - 1))
    else
      n
  }

  /** The replica as a follower in the request's term, before the log is looked at. */
  function Joined(n: Node, args: AppendEntriesParams): Node {
    var n1 := n.(lastKnownLeader := args.leaderId);
    if args.term > n.currentTerm || n.role != Follower then BecomeFollower(n1, args.term) else n1
  }

  /** A request is well formed when its previous index is -1 or names a slot. */
  function HandleAppendEntries(n: Node, args: AppendEntriesParams): (Node, AppendEntriesRet)
    requires args.prevLogIndex >= -1
  {
    if args.term < n.currentTerm then
      (n.(lastKnownLeader := args.leaderId), AppendEntriesRet(n.currentTerm, false))
    else
      var n1 := Joined(n, args);
      if !PrevMatches(n1.log, args) then
        (n1, AppendEntriesRet(args.term, false))
      else
        var n2 := Reconcile(n1, args.prevLogIndex + 1, Payload(args.entries));
        (FollowerCommit(n2, args.leaderCommit), AppendEntriesRet(args.term, true))
  }

  // Replication, leader side

  /** The entries from `from` on, as they go on the wire. */
  function Shipped(log: seq<LogEntry>, from: nat): (r: seq<AppendLogEntry>)
    requires from <= |log|
    ensures |r| == |log| - from
    ensures forall i :: 0 <= i < |r| ==>
      r[i] == AppendLogEntry(log[from + i].term, from + i, log[from + i].op.WithoutPromise())
  {
    seq(|log| - from, i requires 0 <= i < |log| - from =>
      AppendLogEntry(log[from + i].term, from + i, log[from + i].op.WithoutPromise()))
  }

  /** The request for one peer. Outside `0 <= next <= |log|` the code indexes out of range;
      that a leader never gets there is proved in module ClusterSafety. */
  function BuildAppend(n: Node, peer: int, savedTerm: int): AppendEntriesParams {
    var next := Lookup(n.nextIndex, peer);
    var prevTerm := if 0 <= next - 1 < |n.log| then n.log[next - 1].term else -1;
    var entries := if 0 <= next <= |n.log| then Shipped(n.log, next) else [];
    AppendEntriesParams(savedTerm, n.id, next - 1, prevTerm, entries, n.commitIndex)
  }

  /** The peers whose match index reaches `i`. */
  function MatchedPeers(n: Node, i: int): set<int> {
    set p | p in n.peers && Lookup(n.matchIndex, p) >= i
  }

  function MatchCount(n: Node, i: int): nat {
    (if n.id in n.config then 1 else 0) + |MatchedPeers(n, i)|
  }

  /** Index `i` passes the commit test: entry of the current term, counted on a majority. */
  predicate Committable(n: Node, i: int) {
    0 <= i < |n.log| && n.log[i].term == n.currentTerm && MatchCount(n, i) * 2 > |n.config|
  }

  /** The greatest committable index in `commitIndex + 1 .. hi`, else `commitIndex`. */
  function CommitTarget(n: Node, hi: int): int
    decreases hi
  {
    if hi <= 0 || hi - 1 <= n.commitIndex then n.commitIndex
    else if Committable(n, hi - 1) then hi - 1
    else CommitTarget(n, hi - 1)
  }

  function LeaderCommit(n: Node): Node {
    var c := CommitTarget(n, |n.log|);
    if c != n.commitIndex then ReleaseUpTo(n, c) else n
  }

  /** The peer has acknowledged everything below `next`. */
  function Matched(n: Node, peer: int, next: int): Node {
    n.(nextIndex := n.nextIndex[peer := next], matchIndex := n.matchIndex[peer := next - 1])
  }

  function HandleAppendReply(n: Node, peer: int, savedTerm: int, next: int, count: nat, reply: AppendEntriesRet): Node {
    if reply.term > savedTerm then
      BecomeFollower(n, reply.term)
    else if n.role == Leader && savedTerm == reply.term then
      if reply.success then
        LeaderCommit(Matched(n, peer, next + count))
      else
        n.(nextIndex := n.nextIndex[peer := next - 1])
    else
      n
  }

  // Restart

  /** A fresh process over the same disk: the constructor's values, then bootstrap, then the
      configured membership and one peer per other member. */
  ghost function Restart(n: Node): Node {
    Node(n.id, n.currentTerm, n.votedFor, Plain(n.log), Follower, -1, -1, 0,
         n.config, -1, n.config - {n.id},
         Fill(n.config - {n.id}, 0), Fill(n.config - {n.id}, -1), 0, [])
  }

  /** A log that the file can hold when the replica crashes while it rewrites the log for an accepted
      request: the old one, or the kept entries and some of the new ones. */
  predicate TornLog(n: Node, args: AppendEntriesParams, log: seq<LogEntry>) {
    Accepts(n, args) &&
    var at, es := args.prevLogIndex + 1, Payload(args.entries);
    MatchLenBounds(n.log, at, es);
    TornAt(n.log, at, es, MatchLen(n.log, at, es), log)
  }

  /** The same, with the cut at `at + k`. */
  predicate TornAt(was: seq<LogEntry>, at: nat, es: seq<LogEntry>, k: nat, log: seq<LogEntry>)
    requires at + k <= |was|
  {
    log == Plain(was) || (k < |es| && PartOf(Plain(was)[..at + k], Plain(es[k..]), log))
  }

  /** All of `kept`, and some of `news` after it. */
  predicate PartOf(kept: seq<LogEntry>, news: seq<LogEntry>, log: seq<LogEntry>) {
    kept <= log <= kept + news
  }

  /** Restart after such a crash: term and vote were stored before the log was touched. */
  ghost function TornRestart(n: Node, args: AppendEntriesParams, log: seq<LogEntry>): Node {
    Restart(Joined(n, args).(log := log))
  }

  /** Restart after a crash between the two stores that make a replica follower in a higher term: the
      vote is cleared, the term is the old one. */
  ghost function HalfStoredRestart(n: Node): Node {
    Restart(n.(votedFor := -1))
  }
}
