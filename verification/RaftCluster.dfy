/** A cluster of replicas over a network that may lose, delay, reorder and repeat messages.

    A run is a sequence of actions; each action is one section run under some replica's state
    lock, or a crash and restart, between two sections or inside one. `net` only grows: a message
    that is never picked up is lost, one picked up late is delayed. The remaining fields record the
    past of the run and influence no replica, except that one vote RPC yields at most one counted
    grant. */
module RaftCluster {
  import opened RaftTypes
  import opened RaftHandlers
  import opened ElectionBasics

  datatype Msg =
    | VoteReq(to: int, vote: RequestVoteParams)
    | VoteRsp(saved: int, from: int, to: int, voteRet: RequestVoteRet)
    | AppReq(to: int, app: AppendEntriesParams)
    | AppRsp(saved: int, from: int, to: int, next: int, count: nat, appRet: AppendEntriesRet)

  /** The first vote a replica gave in a term, and its log at that moment. */
  datatype Ballot = Ballot(candidate: int, log: seq<LogEntry>)

  /** A won election: who won, whose votes were counted, the winner's log at that moment. */
  datatype Election = Election(leader: int, quorum: set<int>, log: seq<LogEntry>)

  /** A commit-loop advance: the term it happened in and the log prefix it covers. */
  datatype Advance = Advance(term: int, covered: seq<LogEntry>)

  datatype Cluster = Cluster(
    members: set<int>,
    nodes: map<int, Node>,
    net: set<Msg>,
    // history
    tally: map<(int, int), set<int>>,       // (term, candidate) -> voters whose grant was counted
    ballots: map<(int, int), Ballot>,       // (term, voter) -> first vote
    leaders: set<(int, int)>,               // every (term, replica) that ever became leader
    elections: map<int, Election>,          // term -> latest won election
    termLog: map<int, seq<LogEntry>>,       // term -> latest log of that term's leader
    acked: map<(int, int), nat>,            // (term, replica) -> longest length acknowledged
    advances: set<Advance>)

  datatype Action =
    | Timeout(n: int)
    | SendVote(n: int, peer: int, saved: int)
    | RecvVote(m: Msg)
    | RecvVoteRsp(m: Msg)
    | Append(n: int, ops: seq<RaftOp>)
    | SendAppend(n: int, peer: int, saved: int)
    | RecvAppend(m: Msg)
    | RecvAppendRsp(m: Msg)
    | Crash(n: int)
    | CrashInRewrite(m: Msg, log: seq<LogEntry>)
    | CrashInPersist(m: Msg)

  ghost function InitNode(id: int, members: set<int>): Node {
    Node(id, 0, -1, [], Follower, -1, -1, 0, members, -1, members - {id},
         Fill(members - {id}, 0), Fill(members - {id}, -1), 0, [])
  }

  ghost function Init(members: set<int>): Cluster {
    Cluster(members, map n | n in members :: InitNode(n, members), {},
            map[], map[], {}, map[], map[], map[], {})
  }

  function Tally(s: Cluster, term: int, candidate: int): set<int> {
    if (term, candidate) in s.tally then s.tally[(term, candidate)] else {}
  }

  function Acked(s: Cluster, term: int, n: int): nat {
    if (term, n) in s.acked then s.acked[(term, n)] else 0
  }

  /** When an action can happen at all, with no assumption about timing. */
  predicate Enabled(s: Cluster, a: Action) {
    match a
    case Timeout(n) => n in s.nodes && s.nodes[n].role == Follower
    case SendVote(n, p, saved) =>
      // a thread of the election that n started in term `saved`
      n in s.nodes && p in s.nodes[n].peers && (saved, n) in s.ballots && s.ballots[(saved, n)].candidate == n
    case RecvVote(m) => m in s.net && m.VoteReq? && m.to in s.nodes
    case RecvVoteRsp(m) =>
      m in s.net && m.VoteRsp? && m.to in s.nodes && m.from !in Tally(s, m.saved, m.to)
    case Append(n, ops) => n in s.nodes
    case SendAppend(n, p, saved) => n in s.nodes && p in s.nodes[n].peers
    case RecvAppend(m) => m in s.net && m.AppReq? && m.to in s.nodes && m.app.prevLogIndex >= -1
    case RecvAppendRsp(m) => m in s.net && m.AppRsp? && m.to in s.nodes
    case Crash(n) => n in s.nodes
    case CrashInRewrite(m, log) => m in s.net && m.AppReq? && m.to in s.nodes && TornLog(s.nodes[m.to], m.app, log)
    case CrashInPersist(m) =>
      m in s.net && m.to in s.nodes &&
      (|| (m.VoteReq? && m.vote.candidateId in s.nodes[m.to].peers && m.vote.term > s.nodes[m.to].currentTerm)
       || (m.AppReq? && m.app.term > s.nodes[m.to].currentTerm))
  }

  /** The action stops and restarts the replica. A crash while a leader stores what it appends needs no
      action of its own: it is an append of what was stored, and a crash. */
  predicate Restarts(a: Action, n: int) {
    a == Crash(n) || ((a.CrashInRewrite? || a.CrashInPersist?) && a.m.to == n)
  }

  function SetNode(s: Cluster, n: int, node: Node): Cluster {
    s.(nodes := s.nodes[n := node])
  }

  function NextTimeout(s: Cluster, n: int): Cluster
    requires Enabled(s, Timeout(n))
  {
    Stood(s, n, StartElection(s.nodes[n]))
  }

  /** Replica `n` has become the candidate `node` and has voted for itself. */
  function Stood(s: Cluster, n: int, node: Node): Cluster {
    SetNode(s, n, node).(ballots := s.ballots[(node.currentTerm, n) := Ballot(n, Plain(node.log))])
  }

  function NextSendVote(s: Cluster, n: int, p: int, saved: int): Cluster
    requires Enabled(s, SendVote(n, p, saved))
  {
    s.(net := s.net + {VoteReq(p, VoteRequest(s.nodes[n], saved))})
  }

  /** Replica `m.to` has become `node` on the vote request `m` and sends the reply `ret`. */
  function Voted(s: Cluster, m: Msg, node: Node, ret: RequestVoteRet): Cluster
    requires m.VoteReq?
  {
    var key := (m.vote.term, m.to);
    SetNode(s, m.to, node).(
      net := s.net + {VoteRsp(m.vote.term, m.to, m.vote.candidateId, ret)},
      ballots := if ret.voteGranted && key !in s.ballots
                 then s.ballots[key := Ballot(m.vote.candidateId, Plain(node.log))]
                 else s.ballots)
  }

  function NextRecvVote(s: Cluster, m: Msg): Cluster
    requires Enabled(s, RecvVote(m))
  {
    var (node, ret) := HandleRequestVote(s.nodes[m.to], m.vote);
    Voted(s, m, node, ret)
  }

  /** Counting a grant; when it completes a majority the election is recorded. */
  ghost function NextRecvVoteRsp(s: Cluster, m: Msg): Cluster
    requires Enabled(s, RecvVoteRsp(m))
  {
    var before := s.nodes[m.to];
    var node := HandleVoteReply(before, m.saved, m.voteRet);
    var counted := before.role == Candidate && m.voteRet.term == m.saved && m.voteRet.voteGranted;
    var won := counted && node.role == Leader;
    var voters := Tally(s, m.saved, m.to) + {m.from};
    var t := node.currentTerm;
    SetNode(s, m.to, node).(
      tally := if counted then s.tally[(m.saved, m.to) := voters] else s.tally,
      leaders := if won then s.leaders + {(t, m.to)} else s.leaders,
      elections := if won then s.elections[t := Election(m.to, voters + {m.to}, Plain(node.log))] else s.elections,
      termLog := if won then s.termLog[t := Plain(node.log)] else s.termLog,
      acked := if won then s.acked[(t, m.to) := |node.log|] else s.acked)
  }

  function NextAppend(s: Cluster, n: int, ops: seq<RaftOp>): Cluster
    requires Enabled(s, Append(n, ops))
  {
    var node := LeaderAppend(s.nodes[n], ops);
    var t := s.nodes[n].currentTerm;
    SetNode(s, n, node).(termLog := s.termLog[t := Plain(node.log)],
                         acked := s.acked[(t, n) := |node.log|])
  }

  function NextSendAppend(s: Cluster, n: int, p: int, saved: int): Cluster
    requires Enabled(s, SendAppend(n, p, saved))
  {
    s.(net := s.net + {AppReq(p, BuildAppend(s.nodes[n], p, saved))})
  }

  /** Replica `m.to` has become `node` on the request `m` and sends the reply `ret`. */
  function Answered(s: Cluster, m: Msg, node: Node, ret: AppendEntriesRet): Cluster
    requires m.AppReq? && m.app.prevLogIndex >= -1
  {
    var next := m.app.prevLogIndex + 1;
    var reach := next + |m.app.entries|;
    SetNode(s, m.to, node).(
      net := s.net + {AppRsp(m.app.term, m.to, m.app.leaderId, next, |m.app.entries|, ret)},
      acked := if ret.success && Acked(s, m.app.term, m.to) <= reach
               then s.acked[(m.app.term, m.to) := reach] else s.acked)
  }

  function NextRecvAppend(s: Cluster, m: Msg): Cluster
    requires Enabled(s, RecvAppend(m))
  {
    var (node, ret) := HandleAppendEntries(s.nodes[m.to], m.app);
    Answered(s, m, node, ret)
  }

  function NextRecvAppendRsp(s: Cluster, m: Msg): Cluster
    requires Enabled(s, RecvAppendRsp(m))
  {
    var before := s.nodes[m.to];
    var node := HandleAppendReply(before, m.from, m.saved, m.next, m.count, m.appRet);
    SetNode(s, m.to, node).(
      advances := if node.commitIndex != before.commitIndex && 0 <= node.commitIndex < |node.log|
                  then s.advances + {Advance(node.currentTerm, Plain(node.log)[..node.commitIndex + 1])}
                  else s.advances)
  }

  ghost function NextCrash(s: Cluster, n: int): Cluster
    requires Enabled(s, Crash(n))
  {
    SetNode(s, n, Restart(s.nodes[n]))
  }

  ghost function Next(s: Cluster, a: Action): Cluster
    requires Enabled(s, a)
  {
    match a
    case Timeout(n) => NextTimeout(s, n)
    case SendVote(n, p, saved) => NextSendVote(s, n, p, saved)
    case RecvVote(m) => NextRecvVote(s, m)
    case RecvVoteRsp(m) => NextRecvVoteRsp(s, m)
    case Append(n, ops) => NextAppend(s, n, ops)
    case SendAppend(n, p, saved) => NextSendAppend(s, n, p, saved)
    case RecvAppend(m) => NextRecvAppend(s, m)
    case RecvAppendRsp(m) => NextRecvAppendRsp(s, m)
    case Crash(n) => NextCrash(s, n)
    case CrashInRewrite(m, log) => SetNode(s, m.to, TornRestart(s.nodes[m.to], m.app, log))
    case CrashInPersist(m) => SetNode(s, m.to, HalfStoredRestart(s.nodes[m.to]))
  }

  // The run hypotheses. The code does not enforce them; module WitnessRuns shows that
  // dropping any of them breaks safety.

  /** R1: the leader's sections run only while it is still leader in the term it captured. */
  predicate R1(s: Cluster, a: Action)
    requires Enabled(s, a)
  {
    match a
    case Append(n, ops) => s.nodes[n].role == Leader
    case SendAppend(n, p, saved) => s.nodes[n].role == Leader && s.nodes[n].currentTerm == saved
    case _ => true
  }

  /** R2: a reply that is not timely is lost. */
  predicate R2(s: Cluster, a: Action)
    requires Enabled(s, a)
  {
    match a
    case RecvVoteRsp(m) => Timely(s.nodes[m.to].currentTerm, m.saved, m.voteRet.term)
    case RecvAppendRsp(m) => Timely(s.nodes[m.to].currentTerm, m.saved, m.appRet.term)
    case _ => true
  }

  /** R3: no vote request of term T reaches a replica that has been leader in T. */
  predicate R3(s: Cluster, a: Action)
    requires Enabled(s, a)
  {
    a.RecvVote? ==> (a.m.vote.term, a.m.to) !in s.leaders
  }

  /** R4: the membership is fixed, so no operation changes it; and a crash never falls between the two
      stores of one persist, though it may fall inside a log rewrite. */
  predicate R4(s: Cluster, a: Action) {
    !a.CrashInPersist? && (a.Append? ==> forall i :: 0 <= i < |a.ops| ==> a.ops[i].IsData())
  }

  predicate Step(s: Cluster, a: Action) {
    Enabled(s, a) && R1(s, a) && R2(s, a) && R3(s, a) && R4(s, a)
  }

  // Runs

  /** Whether every action of `run` can be taken from `s` under R1 to R4. */
  ghost predicate Legal(s: Cluster, run: seq<Action>)
    decreases |run|
  {
    run == [] || (Step(s, run[0]) && Legal(Next(s, run[0]), run[1..]))
  }

  ghost function After(s: Cluster, run: seq<Action>): Cluster
    requires Legal(s, run)
    decreases |run|
  {
    if run == [] then s else After(Next(s, run[0]), run[1..])
  }
}
