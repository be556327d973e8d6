/** The inductive invariant of the cluster.

    Everything is stated against `termLog`, the growing log of each term's leader: a log is
    valid when each of its prefixes is a prefix of the log of the leader that wrote the
    prefix's last entry. An acknowledged prefix may only be missing from a replica's log if a
    leader of a later term lacked it; Leader Completeness follows from that by induction on
    terms (module LeaderCompleteness), whatever the order in which votes and acknowledgements came. */
module ClusterInvariant {
  import opened RaftTypes
  import opened RaftHandlers
  import opened RaftCluster
  import opened ElectionBasics

  type TermLogs = map<int, seq<LogEntry>>

  function LogOf(s: Cluster, n: int): seq<LogEntry>
    requires n in s.nodes
  {
    Plain(s.nodes[n].log)
  }

  function TermOf(s: Cluster, n: int): int
    requires n in s.nodes
  {
    s.nodes[n].currentTerm
  }

  /** The entry at `i` and everything before it come from the leader of that entry's term. */
  predicate FromLeader(tl: TermLogs, log: seq<LogEntry>, i: int)
    requires 0 <= i < |log|
  {
    var t := log[i].term;
    t in tl && log[..i + 1] <= tl[t]
  }

  predicate ValidLog(tl: TermLogs, log: seq<LogEntry>) {
    forall i {:trigger FromLeader(tl, log, i)} :: 0 <= i < |log| ==> FromLeader(tl, log, i)
  }

  predicate TermsUpTo(log: seq<LogEntry>, t: int) {
    forall i :: 0 <= i < |log| ==> log[i].term <= t
  }

  predicate AllData(log: seq<LogEntry>) {
    forall i :: 0 <= i < |log| ==> log[i].op.IsData()
  }

  /** The paper's order on logs: later last term, or same last term and at least as long. */
  predicate UpToDate(a: seq<LogEntry>, b: seq<LogEntry>) {
    LastTerm(a) > LastTerm(b) || (LastTerm(a) == LastTerm(b) && |a| >= |b|)
  }

  // Per-term facts

  ghost predicate TermOk(s: Cluster, t: int)
    requires t in s.elections
  {
    var e := s.elections[t];
    && t >= 1 && t in s.termLog
    && e.leader in s.nodes
    && Majority(s.members, e.quorum)
    && ValidLog(s.termLog, e.log)
    && TermsUpTo(e.log, t - 1)
    && e.log <= s.termLog[t]
    && ValidLog(s.termLog, s.termLog[t])
    && AllData(s.termLog[t])
    && (forall i :: |e.log| <= i < |s.termLog[t]| ==> s.termLog[t][i].term == t)
    && t <= TermOf(s, e.leader)
    && (TermOf(s, e.leader) == t ==> s.nodes[e.leader].role != Candidate)
    && (forall v {:trigger QuorumVoteOk(s, t, v)} :: v in e.quorum ==> QuorumVoteOk(s, t, v))
  }

  /** A voter of the winning quorum voted for the winner only, and still remembers it. */
  ghost predicate QuorumVoteOk(s: Cluster, t: int, v: int)
    requires t in s.elections
  {
    var e := s.elections[t];
    && v in s.nodes
    && (t, v) in s.ballots
    && s.ballots[(t, v)].candidate == e.leader
    && UpToDate(e.log, s.ballots[(t, v)].log)
    && (v != e.leader && TermOf(s, v) == t ==>
          s.nodes[v].votedFor == e.leader && s.nodes[v].role == Follower)
  }

  // Acknowledgements

  /** A leader of a term in `t + 1 .. bound` lacks the prefix `p` of the log of term `t`. */
  ghost predicate LaterLeaderLacks(s: Cluster, t: int, p: seq<LogEntry>, bound: int) {
    exists u :: t < u <= bound && u in s.termLog && !(p <= s.termLog[u])
  }

  /** The first `j` entries of the log of term `t`. */
  function TermPrefix(s: Cluster, t: int, j: nat): seq<LogEntry> {
    if t in s.termLog && j <= |s.termLog[t]| then s.termLog[t][..j] else []
  }

  /** The first `j` entries of the log of term `t` are in `log`, unless a later leader lacked them. */
  ghost predicate Kept(s: Cluster, t: int, j: nat, log: seq<LogEntry>, bound: int) {
    TermPrefix(s, t, j) <= log || LaterLeaderLacks(s, t, TermPrefix(s, t, j), bound)
  }

  ghost predicate AckOk(s: Cluster, t: int, v: int)
    requires (t, v) in s.acked
  {
    && t in s.elections && t in s.termLog && v in s.nodes
    && t <= TermOf(s, v)
    && s.acked[(t, v)] <= |s.termLog[t]|
    && (forall j: nat :: j <= s.acked[(t, v)] ==> Kept(s, t, j, LogOf(s, v), TermOf(s, v)))
  }

  // Ballots

  /** The ballot can still count, or has counted, in an election of its term. */
  ghost predicate Counts(s: Cluster, t: int, v: int) {
    t !in s.elections || v in s.elections[t].quorum
  }

  ghost predicate BallotOk(s: Cluster, t: int, v: int)
    requires (t, v) in s.ballots
  {
    var b := s.ballots[(t, v)];
    && v in s.nodes && b.candidate in s.nodes
    && 1 <= t <= TermOf(s, v) && t <= TermOf(s, b.candidate)
    && ValidLog(s.termLog, b.log)
    && (t !in s.elections && TermOf(s, v) == t ==>
          s.nodes[v].votedFor == b.candidate && (b.candidate != v ==> s.nodes[v].role == Follower))
    && (t !in s.elections && TermOf(s, b.candidate) == t && s.nodes[b.candidate].role == Candidate ==>
          UpToDate(LogOf(s, b.candidate), b.log))
    && (Counts(s, t, v) ==> BallotKeepsAcks(s, t, v))
  }

  /** What the voter had acknowledged in earlier terms was in its log when it voted,
      unless a leader in between lacked it. */
  ghost predicate BallotKeepsAcks(s: Cluster, t: int, v: int)
    requires (t, v) in s.ballots
  {
    forall u, j: nat :: (u, v) in s.acked && u < t && j <= s.acked[(u, v)] ==> KeptAtVote(s, t, v, u, j)
  }

  ghost predicate KeptAtVote(s: Cluster, t: int, v: int, u: int, j: nat)
    requires (t, v) in s.ballots
  {
    Kept(s, u, j, s.ballots[(t, v)].log, t - 1)
  }

  /** Voter `v` granted candidate `c` its vote in term `t`, as far as that can matter. */
  ghost predicate Granted(s: Cluster, t: int, v: int, c: int) {
    && (t, v) in s.ballots
    && (s.ballots[(t, v)].candidate == c || (t in s.elections && v !in s.elections[t].quorum))
  }

  // Commitment

  /** The first `j` entries of term `t`'s log end in an entry of term `t` that a majority acknowledged. */
  ghost predicate Committed(s: Cluster, t: int, j: nat) {
    && t in s.termLog && 0 < j <= |s.termLog[t]|
    && s.termLog[t][j - 1].term == t
    && exists q :: Majority(s.members, q) && AckedBy(s, t, j, q)
  }

  ghost predicate AckedBy(s: Cluster, t: int, j: nat, q: set<int>) {
    forall v {:trigger Acked(s, t, v)} :: v in q ==> Acked(s, t, v) >= j
  }

  /** `p` is covered by a commitment made in a term up to `bound`. */
  ghost predicate CommittedPrefix(s: Cluster, p: seq<LogEntry>, bound: int) {
    p == [] || exists t, j: nat :: t <= bound && Committed(s, t, j) && p <= s.termLog[t][..j]
  }

  // Per-replica facts

  ghost predicate NodeOk(s: Cluster, n: int)
    requires n in s.nodes
  {
    && NodeBasics(s, n)
    && NodeCommit(s, n)
    && (s.nodes[n].role == Candidate ==> CandidateOk(s, n))
    && (s.nodes[n].role == Leader ==> LeaderOk(s, n))
  }

  ghost predicate NodeBasics(s: Cluster, n: int)
    requires n in s.nodes
  {
    var x := s.nodes[n];
    && x.id == n && x.config == s.members && x.peers == s.members - {n}
    && x.currentTerm >= 0
    && AllData(x.log)
    && ValidLog(s.termLog, Plain(x.log))
    && TermsUpTo(x.log, x.currentTerm)
  }

  ghost predicate NodeCommit(s: Cluster, n: int)
    requires n in s.nodes
  {
    var x := s.nodes[n];
    && -1 <= x.commitIndex < |x.log|
    && x.lastApplied == x.commitIndex
    && PlainOps(x.released) == OpsBetween(Plain(x.log), 0, x.commitIndex + 1)
    && CommittedPrefix(s, Plain(x.log)[..x.commitIndex + 1], x.currentTerm)
  }

  ghost predicate CandidateOk(s: Cluster, n: int)
    requires n in s.nodes
  {
    var x := s.nodes[n];
    var voters := Tally(s, x.currentTerm, n);
    && x.votedFor == n
    && (x.currentTerm, n) in s.ballots
    && s.ballots[(x.currentTerm, n)] == Ballot(n, Plain(x.log))
    && voters <= s.members - {n}
    && x.votesReceived == 1 + |voters|
    && (forall v {:trigger Granted(s, x.currentTerm, v, n)} :: v in voters ==> Granted(s, x.currentTerm, v, n))
  }

  ghost predicate LeaderOk(s: Cluster, n: int)
    requires n in s.nodes
  {
    var x := s.nodes[n];
    var t := x.currentTerm;
    && t in s.elections && t in s.termLog
    && s.elections[t].leader == n
    && Plain(x.log) == s.termLog[t]
    && Acked(s, t, n) == |x.log|
    && (forall p {:trigger IndicesOk(s, x, p)} :: p in x.peers ==> IndicesOk(s, x, p))
  }

  /** The leader's indices for one peer: a request can be built, and matches are acknowledged. */
  predicate IndicesOk(s: Cluster, x: Node, p: int) {
    && p in x.nextIndex && 0 <= x.nextIndex[p] <= |x.log|
    && p in x.matchIndex && -1 <= x.matchIndex[p] < Acked(s, x.currentTerm, p)
  }

  // Per-message facts

  ghost predicate MsgOk(s: Cluster, m: Msg) {
    match m
    case VoteReq(to, v) => VoteReqOk(s, to, v)
    case VoteRsp(saved, from, to, r) =>
      from in s.nodes && to in s.nodes && from != to &&
      (r.voteGranted ==> r.term == saved && Granted(s, saved, from, to))
    case AppReq(to, a) => AppReqOk(s, to, a)
    case AppRsp(saved, from, to, next, count, r) =>
      && from in s.nodes && to in s.nodes && from != to
      && saved in s.elections && saved in s.termLog && s.elections[saved].leader == to
      && 0 <= next && next + count <= |s.termLog[saved]|
      && (r.success ==> r.term == saved && next + count <= Acked(s, saved, from))
      && (!r.success && r.term == saved ==> next >= 1)
  }

  /** While the candidate still stands, its requests describe its log. */
  ghost predicate VoteReqOk(s: Cluster, to: int, v: RequestVoteParams) {
    && to in s.nodes && v.candidateId in s.nodes && to != v.candidateId
    && 1 <= v.term <= TermOf(s, v.candidateId)
    && (TermOf(s, v.candidateId) == v.term && s.nodes[v.candidateId].role == Candidate ==>
          v.lastLogIndex == |s.nodes[v.candidateId].log| - 1 &&
          v.lastLogTerm == LastTerm(s.nodes[v.candidateId].log))
  }

  /** The log window `from .. to` of `log`, as a request carries it. */
  predicate IsWindow(log: seq<LogEntry>, a: AppendEntriesParams) {
    && a.prevLogIndex >= -1
    && a.prevLogIndex + 1 + |a.entries| <= |log|
    && Payload(a.entries) == log[a.prevLogIndex + 1..a.prevLogIndex + 1 + |a.entries|]
    && a.prevLogTerm == (if a.prevLogIndex == -1 then -1 else log[a.prevLogIndex].term)
  }

  /** A request is a window of its leader's log that reaches past the leader's commit index. */
  ghost predicate AppReqOk(s: Cluster, to: int, a: AppendEntriesParams) {
    && to in s.nodes && a.term in s.elections && a.term in s.termLog
    && a.leaderId == s.elections[a.term].leader && to != a.leaderId
    && a.term >= 1
    && IsWindow(s.termLog[a.term], a)
    && Plain(Payload(a.entries)) == Payload(a.entries)
    && -1 <= a.leaderCommit <= a.prevLogIndex + |a.entries|
    && CommittedPrefix(s, s.termLog[a.term][..a.leaderCommit + 1], a.term)
  }

  // The invariant

  /** The covered prefix of a commit-loop advance was committed by it. */
  ghost predicate AdvanceOk(s: Cluster, x: Advance) {
    exists j: nat :: Committed(s, x.term, j) && x.covered == s.termLog[x.term][..j]
  }

  ghost predicate LeadersRecorded(s: Cluster) {
    && (forall t, n :: (t, n) in s.leaders ==> t in s.elections && s.elections[t].leader == n)
    && (forall t :: t in s.elections ==> (t, s.elections[t].leader) in s.leaders)
  }

  predicate TallyOk(s: Cluster, k: (int, int)) {
    k.1 in s.nodes && k.0 <= TermOf(s, k.1)
  }

  ghost predicate History(s: Cluster) {
    && GoodMembers(s.members)
    && s.nodes.Keys == s.members
    && s.termLog.Keys == s.elections.Keys
    && LeadersRecorded(s)
    && (forall k {:trigger TallyOk(s, k)} :: k in s.tally ==> TallyOk(s, k))
    && (forall x {:trigger AdvanceOk(s, x)} :: x in s.advances ==> AdvanceOk(s, x))
  }

  ghost predicate Inv(s: Cluster) {
    && History(s)
    && (forall t {:trigger TermOk(s, t)} :: t in s.elections ==> TermOk(s, t))
    && (forall n {:trigger NodeOk(s, n)} :: n in s.nodes ==> NodeOk(s, n))
    && (forall t, v {:trigger BallotOk(s, t, v)} :: (t, v) in s.ballots ==> BallotOk(s, t, v))
    && (forall t, v {:trigger AckOk(s, t, v)} :: (t, v) in s.acked ==> AckOk(s, t, v))
    && (forall m {:trigger MsgOk(s, m)} :: m in s.net ==> MsgOk(s, m))
  }

  lemma InitInv(members: set<int>)
    requires GoodMembers(members)
    ensures Inv(Init(members))
  {
  }
}
