/** The election protocol of the Go prototype: its handlers, and a cluster of them over a network
    that may lose, delay, reorder and repeat messages.

    Replication is not part of this model: a replica's log may become anything at any time. */
module GoElection {
  import opened ElectionBasics

  datatype State = Follower | Candidate | Leader | Stopped

  datatype Entry = Entry(term: int, command: string)

  datatype Module = Module(id: int, peers: set<int>, state: State, currentTerm: int, votedFor: int, log: seq<Entry>)

  datatype VoteArgs = VoteArgs(term: int, candidateId: int, lastLogIndex: int, lastLogTerm: int)

  /** A reply; a stopped replica leaves it as it was made. */
  datatype VoteReply = VoteReply(term: int, voteGranted: bool)

  function LastTerm(log: seq<Entry>): int {
    if |log| > 0 then log[|log| - 1].term else -1
  }

  function BecomeFollower(m: Module, term: int): Module {
    m.(state := Follower, currentTerm := term, votedFor := -1)
  }

  function StartElection(m: Module): Module {
    m.(state := Candidate, currentTerm := m.currentTerm + 1, votedFor := m.id)
  }

  /** Unlike in the C++ engine, the winner keeps its vote. */
  function StartLeader(m: Module): Module {
    m.(state := Leader)
  }

  function VoteRequest(m: Module, savedTerm: int): VoteArgs {
    VoteArgs(savedTerm, m.id, |m.log| - 1, LastTerm(m.log))
  }

  function HandleRequestVote(m: Module, args: VoteArgs): (Module, VoteReply) {
    if m.state == Stopped then
      (m, VoteReply(0, false))
    else
      var m1 := if args.term > m.currentTerm then BecomeFollower(m, args.term) else m;
      if m1.currentTerm == args.term && (m1.votedFor == -1 || m1.votedFor == args.candidateId)
         && (args.lastLogTerm > LastTerm(m.log) ||
             (args.lastLogTerm == LastTerm(m.log) && args.lastLogIndex >= |m.log| - 1))
      then
        (m1.(votedFor := args.candidateId), VoteReply(m1.currentTerm, true))
      else
        (m1, VoteReply(m1.currentTerm, false))
  }

  /** `votes` counts the grants of the election of term `savedTerm`, the candidate's own included. */
  function HandleVoteReply(m: Module, savedTerm: int, votes: int, reply: VoteReply): (Module, int) {
    if m.state != Candidate then (m, votes)
    else if reply.term > savedTerm then (BecomeFollower(m, reply.term), votes)
    else if reply.term == savedTerm && reply.voteGranted then
      (if (votes + 1) * 2 > |m.peers| + 1 then StartLeader(m) else m, votes + 1)
    else (m, votes)
  }

  /** The election part of AppendEntries. */
  function HandleAppend(m: Module, term: int): (Module, int) {
    if m.state == Stopped then (m, 0)
    else
      var m1 := if term > m.currentTerm then BecomeFollower(m, term) else m;
      var m2 := if term == m1.currentTerm && m1.state != Follower then BecomeFollower(m1, term) else m1;
      (m2, m2.currentTerm)
  }

  function HandleAppendReply(m: Module, savedTerm: int, replyTerm: int): Module {
    if replyTerm > savedTerm then BecomeFollower(m, replyTerm) else m
  }

  /** The module itself, with its fields updated in place. */
  class ConsensusModule {
    const id: int
    const peerIds: set<int>
    var state: State
    var currentTerm: int
    var votedFor: int
    var log: seq<Entry>

    ghost function View(): Module
      reads this
    {
      Module(id, peerIds, state, currentTerm, votedFor, log)
    }

    constructor (id: int, peerIds: set<int>)
      ensures View() == Module(id, peerIds, Follower, 0, -1, [])
    {
      this.id, this.peerIds := id, peerIds;
      state, currentTerm, votedFor, log := Follower, 0, -1, [];
    }

    method DoBecomeFollower(term: int)
      modifies this
      ensures View() == BecomeFollower(old(View()), term)
    {
      state := Follower;
      currentTerm := term;
      votedFor := -1;
    }

    method RequestVote(args: VoteArgs) returns (reply: VoteReply)
      modifies this
      ensures (View(), reply) == HandleRequestVote(old(View()), args)
    {
      reply := VoteReply(0, false);
      if state == Stopped {
        return;
      }
      var lastLogIndex, lastLogTerm := -1, -1;
      if |log| > 0 {
        lastLogIndex := |log| - 1;
        lastLogTerm := log[lastLogIndex].term;
      }
      if args.term > currentTerm {
        DoBecomeFollower(args.term);
      }
      if currentTerm == args.term && (votedFor == -1 || votedFor == args.candidateId) &&
         (args.lastLogTerm > lastLogTerm || (args.lastLogTerm == lastLogTerm && args.lastLogIndex >= lastLogIndex))
      {
        reply := reply.(voteGranted := true);
        votedFor := args.candidateId;
      } else {
        reply := reply.(voteGranted := false);
      }
      reply := reply.(term := currentTerm);
    }

    method AppendEntries(term: int) returns (replyTerm: int)
      modifies this
      ensures (View(), replyTerm) == HandleAppend(old(View()), term)
    {
      if state == Stopped {
        return 0;
      }
      if term > currentTerm {
        DoBecomeFollower(term);
      }
      if term == currentTerm {
        if state != Follower {
          DoBecomeFollower(term);
        }
      }
      replyTerm := currentTerm;
    }

    method DoStartElection() returns (savedTerm: int, votes: int)
      modifies this
      ensures View() == StartElection(old(View())) && savedTerm == currentTerm && votes == 1
    {
      state := Candidate;
      currentTerm := currentTerm + 1;
      savedTerm := currentTerm;
      votedFor := id;
      votes := 1;
    }

    method CountVote(savedTerm: int, votes: int, reply: VoteReply) returns (votes': int)
      modifies this
      ensures (View(), votes') == HandleVoteReply(old(View()), savedTerm, votes, reply)
    {
      votes' := votes;
      if state != Candidate {
        return;
      }
      if reply.term > savedTerm {
        DoBecomeFollower(reply.term);
        return;
      } else if reply.term == savedTerm {
        if reply.voteGranted {
          votes' := votes' + 1;
          if votes' * 2 > |peerIds| + 1 {
            state := Leader;
          }
        }
      }
    }
  }

  // The cluster

  datatype Msg =
    | VoteReq(to: int, args: VoteArgs)
    | VoteRsp(saved: int, from: int, to: int, reply: VoteReply)
    | AppReq(to: int, from: int, term: int)
    | AppRsp(saved: int, to: int, term: int)

  datatype Win = Win(leader: int, quorum: set<int>)

  datatype Cluster = Cluster(
    members: set<int>,
    nodes: map<int, Module>,
    net: set<Msg>,
    // history
    tally: map<(int, int), set<int>>,   // (term, candidate) -> peers whose grant was counted
    ballots: map<(int, int), int>,      // (term, voter) -> first candidate voted for
    wins: map<int, Win>,                // term -> won election
    leaders: set<(int, int)>)           // every (term, replica) that ever became leader

  datatype Action =
    | Timeout(n: int)
    | SendVote(n: int, peer: int, saved: int)
    | RecvVote(m: Msg)
    | RecvVoteRsp(m: Msg)
    | SendHeartbeat(n: int, peer: int, saved: int)
    | RecvAppend(m: Msg)
    | RecvAppendRsp(m: Msg)
    | LogChanges(n: int, log: seq<Entry>)
    | Stop(n: int)

  function Tally(s: Cluster, t: int, c: int): set<int> {
    if (t, c) in s.tally then s.tally[(t, c)] else {}
  }

  ghost function Init(members: set<int>): Cluster {
    Cluster(members, map n | n in members :: Module(n, members - {n}, Follower, 0, -1, []), {}, map[], map[], map[], {})
  }

  predicate Enabled(s: Cluster, a: Action) {
    match a
    case Timeout(n) => n in s.nodes && (s.nodes[n].state == Follower || s.nodes[n].state == Candidate)
    case SendVote(n, p, saved) => n in s.nodes && p in s.nodes[n].peers && (saved, n) in s.ballots &&
      s.ballots[(saved, n)] == n
    case RecvVote(m) => m in s.net && m.VoteReq? && m.to in s.nodes
    case RecvVoteRsp(m) => m in s.net && m.VoteRsp? && m.to in s.nodes && m.from !in Tally(s, m.saved, m.to)
    case SendHeartbeat(n, p, saved) => n in s.nodes && p in s.nodes[n].peers && (saved, n) in s.leaders
    case RecvAppend(m) => m in s.net && m.AppReq? && m.to in s.nodes
    case RecvAppendRsp(m) => m in s.net && m.AppRsp? && m.to in s.nodes
    case LogChanges(n, log) => n in s.nodes
    case Stop(n) => n in s.nodes
  }

  function SetNode(s: Cluster, n: int, node: Module): Cluster {
    s.(nodes := s.nodes[n := node])
  }

  function NextTimeout(s: Cluster, n: int): Cluster
    requires Enabled(s, Timeout(n))
  {
    var y := StartElection(s.nodes[n]);
    SetNode(s, n, y).(ballots := s.ballots[(y.currentTerm, n) := n])
  }

  function NextRecvVote(s: Cluster, m: Msg): Cluster
    requires Enabled(s, RecvVote(m))
  {
    var (y, r) := HandleRequestVote(s.nodes[m.to], m.args);
    var key := (m.args.term, m.to);
    SetNode(s, m.to, y).(
      net := s.net + {VoteRsp(m.args.term, m.to, m.args.candidateId, r)},
      ballots := if r.voteGranted && key !in s.ballots then s.ballots[key := m.args.candidateId] else s.ballots)
  }

  /** The vote count of an election is one more than its counted peers. */
  function NextRecvVoteRsp(s: Cluster, m: Msg): Cluster
    requires Enabled(s, RecvVoteRsp(m))
  {
    var x, votes := s.nodes[m.to], 1 + |Tally(s, m.saved, m.to)|;
    var (y, votes') := HandleVoteReply(x, m.saved, votes, m.reply);
    var won := y.state == Leader && x.state != Leader;
    var voters := Tally(s, m.saved, m.to) + {m.from};
    SetNode(s, m.to, y).(
      tally := if votes' != votes then s.tally[(m.saved, m.to) := voters] else s.tally,
      wins := if won then s.wins[y.currentTerm := Win(m.to, voters + {m.to})] else s.wins,
      leaders := if won then s.leaders + {(y.currentTerm, m.to)} else s.leaders)
  }

  function NextRecvAppend(s: Cluster, m: Msg): Cluster
    requires Enabled(s, RecvAppend(m))
  {
    var (y, r) := HandleAppend(s.nodes[m.to], m.term);
    SetNode(s, m.to, y).(net := s.net + {AppRsp(m.term, m.from, r)})
  }

  function Next(s: Cluster, a: Action): Cluster
    requires Enabled(s, a)
  {
    match a
    case Timeout(n) => NextTimeout(s, n)
    case SendVote(n, p, saved) => s.(net := s.net + {VoteReq(p, VoteRequest(s.nodes[n], saved))})
    case RecvVote(m) => NextRecvVote(s, m)
    case RecvVoteRsp(m) => NextRecvVoteRsp(s, m)
    case SendHeartbeat(n, p, saved) => s.(net := s.net + {AppReq(p, n, saved)})
    case RecvAppend(m) => NextRecvAppend(s, m)
    case RecvAppendRsp(m) => SetNode(s, m.to, HandleAppendReply(s.nodes[m.to], m.saved, m.term))
    case LogChanges(n, log) => SetNode(s, n, s.nodes[n].(log := log))
    case Stop(n) => SetNode(s, n, s.nodes[n].(state := Stopped))
  }

  /** R2, the only hypothesis: a reply is lost unless its request's term is still current or it
      carries a term above both. */
  predicate R2(s: Cluster, a: Action)
    requires Enabled(s, a)
  {
    match a
    case RecvVoteRsp(m) => Timely(s.nodes[m.to].currentTerm, m.saved, m.reply.term)
    case RecvAppendRsp(m) => Timely(s.nodes[m.to].currentTerm, m.saved, m.term)
    case _ => true
  }

  predicate Step(s: Cluster, a: Action) {
    Enabled(s, a) && R2(s, a)
  }

  predicate Legal(s: Cluster, run: seq<Action>)
    decreases |run|
  {
    run == [] || (Step(s, run[0]) && Legal(Next(s, run[0]), run[1..]))
  }

  function After(s: Cluster, run: seq<Action>): Cluster
    requires Legal(s, run)
    decreases |run|
  {
    if run == [] then s else After(Next(s, run[0]), run[1..])
  }

  /** A candidate that hears from its term's leader steps down within the term and forgets that it
      voted for itself: it grants a rival of that term whom it refused before. */
  lemma DemotedCandidateForgets(m: Module, term: int, rival: int)
    requires m.state == Candidate && m.currentTerm == term && m.votedFor == m.id && rival != m.id && m.id >= 0
    ensures var args := VoteArgs(term, rival, |m.log| - 1, LastTerm(m.log));
      && HandleRequestVote(m, args).1 == VoteReply(term, false)
      && HandleRequestVote(HandleAppend(m, term).0, args).1 == VoteReply(term, true)
  {
  }
}
