/** How elections get on: when a vote is given, when votes make a leader, and how terms spread. */
module ElectionProgress {
  import opened RaftTypes
  import opened RaftHandlers
  import opened RaftCluster
  import opened ClusterInvariant
  import opened ClusterGrowth
  import opened ElectionBasics
  import opened ClusterSafety
  import opened HandlerFacts
  import StepVoteReply

  // Giving a vote

  /** The request describes the end of the log `c`. */
  predicate Describes(v: RequestVoteParams, c: seq<LogEntry>) {
    v.lastLogIndex == |c| - 1 && v.lastLogTerm == LastTerm(c)
  }

  /** The term is new to the replica, or its vote in it is free or that candidate's already. */
  predicate CanVote(x: Node, term: int, c: int) {
    term > x.currentTerm || (term == x.currentTerm && (x.votedFor == -1 || x.votedFor == c))
  }

  /** A vote is given exactly to a peer whose log is at least as up to date, as long as it is free. Given
      or not, a peer's request leaves the replica in the later of the two terms. */
  lemma GrantedExactly(x: Node, v: RequestVoteParams, c: seq<LogEntry>)
    requires Describes(v, c)
    ensures var (y, r) := HandleRequestVote(x, v);
      && (r.voteGranted <==> v.candidateId in x.peers && CanVote(x, v.term, v.candidateId) && UpToDate(c, x.log))
      && (r.voteGranted ==> y.currentTerm == v.term && y.votedFor == v.candidateId)
      && y.currentTerm == (if v.candidateId in x.peers && v.term > x.currentTerm then v.term else x.currentTerm)
      && r.term == y.currentTerm
  {
  }

  /** In every run: a request of a replica that still stands in its term is granted exactly if the voter
      can vote for it and the candidate's log is at least as up to date as the voter's. */
  lemma GrantedInRuns(members: set<int>, run: seq<Action>, i: nat, m: Msg)
    requires Run(members, run) && i <= |run| && m in StateAt(members, run, i).net && m.VoteReq?
    requires var c := m.vote.candidateId;
      c in members && NodeAt(members, run, i, c).role == Candidate
      && NodeAt(members, run, i, c).currentTerm == m.vote.term
    ensures m.to in members
    ensures var x, c := NodeAt(members, run, i, m.to), NodeAt(members, run, i, m.vote.candidateId);
      HandleRequestVote(x, m.vote).1.voteGranted <==>
        CanVote(x, m.vote.term, m.vote.candidateId) && UpToDate(c.log, x.log)
  {
    StateAtLater(members, run, i);
    var s := StateAt(members, run, i);
    assert MsgOk(s, m) && NodeOk(s, m.to);
    GrantedExactly(s.nodes[m.to], m.vote, s.nodes[m.vote.candidateId].log);
  }

  /** What is asked for is a vote in the term that the election was started in, on the log of the moment. */
  lemma AskedInRuns(members: set<int>, run: seq<Action>, i: nat, n: int, p: int, saved: int, m: Msg)
    requires Run(members, run) && i < |run| && run[i] == SendVote(n, p, saved)
    requires m !in StateAt(members, run, i).net && m in StateAt(members, run, i + 1).net
    ensures n in members && m.VoteReq? && m.to == p && m.vote.candidateId == n && m.vote.term == saved
    ensures Describes(m.vote, NodeAt(members, run, i, n).log)
  {
    var s, s' := RunStep(members, run, i);
    assert NodeOk(s, n);
  }

  /** Of two replicas that know each other at least one would vote for the other in a new term. */
  lemma OneGrantsTheOther(a: Node, b: Node, t: int)
    requires a.id in b.peers && b.id in a.peers && t > a.currentTerm && t > b.currentTerm
    ensures HandleRequestVote(a, VoteRequest(b, t)).1.voteGranted ||
      HandleRequestVote(b, VoteRequest(a, t)).1.voteGranted
  {
    GrantedExactly(a, VoteRequest(b, t), b.log);
    GrantedExactly(b, VoteRequest(a, t), a.log);
  }

  /** In every state of every run some replica would get the vote of all others in a new term. */
  lemma SomeoneElectable(members: set<int>, run: seq<Action>, i: nat, t: int) returns (n: int)
    requires Run(members, run) && i <= |run| && members != {}
    requires forall v :: v in members ==> NodeAt(members, run, i, v).currentTerm < t
    ensures n in members
    ensures forall v :: v in members - {n} ==>
      HandleRequestVote(NodeAt(members, run, i, v), VoteRequest(NodeAt(members, run, i, n), t)).1.voteGranted
  {
    StateAtLater(members, run, i);
    var s := StateAt(members, run, i);
    n := MostUpToDate(s, members);
    forall v | v in members - {n}
      ensures HandleRequestVote(s.nodes[v], VoteRequest(s.nodes[n], t)).1.voteGranted
    {
      assert NodeOk(s, v) && NodeOk(s, n);
      assert NodeAt(members, run, i, v) == s.nodes[v];
      GrantedExactly(s.nodes[v], VoteRequest(s.nodes[n], t), s.nodes[n].log);
    }
  }

  lemma {:induction false} MostUpToDate(s: Cluster, some: set<int>) returns (n: int)
    requires some <= s.nodes.Keys && some != {}
    ensures n in some && forall v :: v in some ==> UpToDate(s.nodes[n].log, s.nodes[v].log)
    decreases |some|
  {
    Inhabited(some);
    n :| n in some;
    if some != {n} {
      var m := MostUpToDate(s, some - {n});
      if !UpToDate(s.nodes[n].log, s.nodes[m].log) { n := m; }
    }
  }

  // Winning

  /** The replica counts the grant. */
  predicate Counts(x: Node, m: Msg) {
    m.VoteRsp? && x.role == Candidate && m.voteRet.voteGranted && m.voteRet.term == m.saved
  }

  /** The next request to each of `peers` begins where the log ends. */
  predicate StartsAtEnd(y: Node, peers: set<int>) {
    forall p :: p in peers ==> Lookup(y.nextIndex, p) == |y.log|
  }

  /** In every run: a candidate that counts a grant is leader afterwards exactly if it and the voters
      counted so far are a majority of the members. Its first request to each peer then starts at the end
      of its log, and it names itself as the leader. */
  lemma WonExactly(members: set<int>, run: seq<Action>, i: nat)
    requires Run(members, run) && i < |run| && run[i].RecvVoteRsp? && run[i].m.to in members
    requires Counts(NodeAt(members, run, i, run[i].m.to), run[i].m)
    ensures var m, y := run[i].m, NodeAt(members, run, i + 1, run[i].m.to);
      && y.currentTerm == m.saved == NodeAt(members, run, i, m.to).currentTerm
      && Tally(StateAt(members, run, i + 1), m.saved, m.to) == Tally(StateAt(members, run, i), m.saved, m.to) + {m.from}
      && (y.role == Leader <==> Majority(members, Tally(StateAt(members, run, i + 1), m.saved, m.to) + {m.to}))
      && (y.role == Leader ==> y.lastKnownLeader == m.to && StartsAtEnd(y, members - {m.to}))
      && (y.role != Leader ==> y.role == Candidate)
  {
    var s, s' := RunStep(members, run, i);
    WonStep(s, run[i].m);
  }

  /** What counting a grant does. */
  lemma WonStep(s: Cluster, m: Msg)
    requires Inv(s) && StepVoteReply.Counted(s, m)
    ensures var s' := NextRecvVoteRsp(s, m);
      var y, voters := s'.nodes[m.to], Tally(s, m.saved, m.to) + {m.from};
      && y.currentTerm == m.saved == TermOf(s, m.to) && Tally(s', m.saved, m.to) == voters
      && (y.role == Leader <==> Majority(s.members, voters + {m.to}))
      && (y.role == Leader ==> y.lastKnownLeader == m.to && StartsAtEnd(y, s.members - {m.to}))
      && (y.role != Leader ==> y.role == Candidate)
  {
    assert NodeOk(s, m.to);
    StepVoteReply.VotersGranted(s, m);
    var voters := Tally(s, m.saved, m.to) + {m.from};
    assert |voters + {m.to}| == |voters| + 1;
    CountedReply(s.nodes[m.to], m);
    if HandleVoteReply(s.nodes[m.to], m.saved, m.voteRet).role == Leader {
      StepVoteReply.ElectedIs(s, m);
    } else {
      StepVoteReply.CountedIs(s, m);
    }
  }

  lemma CountedReply(x: Node, m: Msg)
    requires Counts(x, m)
    ensures var y := HandleVoteReply(x, m.saved, m.voteRet);
      && (y.role == Leader <==> (x.votesReceived + 1) * 2 > |x.config|)
      && (y.role != Leader ==> y.role == Candidate)
      && (y.role == Leader ==> y.lastKnownLeader == x.id && IsFill(y.nextIndex, x.peers, |x.log|) && y.log == x.log)
  {
  }

  /** The candidate has counted no vote, or not enough of them. */
  predicate Undecided(s: Cluster, n: int)
    requires n in s.nodes
  {
    s.nodes[n].role == Candidate && Tally(s, TermOf(s, n), n) != {} ==>
      !Majority(s.members, Tally(s, TermOf(s, n), n) + {n})
  }

  /** No replica stays a candidate in a term in which it has counted a majority. */
  lemma NoneLingers(members: set<int>, run: seq<Action>, i: nat, n: int)
    requires Run(members, run) && i <= |run| && n in members
    ensures StateAt(members, run, i).nodes.Keys == members && Undecided(StateAt(members, run, i), n)
  {
    InitInv(members);
    SplitRun(Init(members), run, i);
    StartUndecided(members, n);
    RunUndecided(Init(members), run[..i], n);
    StateAtLater(members, run, i);
  }

  lemma {:induction false} RunUndecided(s: Cluster, run: seq<Action>, n: int)
    requires Inv(s) && Legal(s, run) && n in s.nodes && Undecided(s, n)
    ensures n in After(s, run).nodes && Undecided(After(s, run), n)
    decreases |run|
  {
    if run != [] {
      StepKeeps(s, run[0]);
      StepUndecided(s, run[0], n);
      RunUndecided(Next(s, run[0]), run[1..], n);
    }
  }

  lemma StartUndecided(members: set<int>, n: int)
    requires n in members
    ensures Undecided(Init(members), n)
  {
  }

  lemma StepUndecided(s: Cluster, a: Action, n: int)
    requires Inv(s) && Step(s, a) && n in s.nodes && Undecided(s, n)
    ensures n in Next(s, a).nodes && Undecided(Next(s, a), n)
  {
    StepKeeps(s, a);
    var s' := Next(s, a);
    assert NodeGrows(s, s', n);
    var t' := TermOf(s', n);
    if t' > TermOf(s, n) { assert (t', n) in s.tally ==> TallyOk(s, (t', n)); }
    if a.RecvVoteRsp? && Counts(s.nodes[a.m.to], a.m) {
      WonStep(s, a.m);
      CountedTally(s, a.m);
    } else {
      TallyKept(s, a);
    }
  }

  lemma CountedTally(s: Cluster, m: Msg)
    requires Enabled(s, RecvVoteRsp(m)) && Counts(s.nodes[m.to], m)
    ensures NextRecvVoteRsp(s, m).tally == s.tally[(m.saved, m.to) := Tally(s, m.saved, m.to) + {m.from}]
    ensures NextRecvVoteRsp(s, m).members == s.members
    ensures NextRecvVoteRsp(s, m).nodes == s.nodes[m.to := HandleVoteReply(s.nodes[m.to], m.saved, m.voteRet)]
  {
  }

  lemma TallyKept(s: Cluster, a: Action)
    requires Enabled(s, a) && (a.RecvVoteRsp? ==> !Counts(s.nodes[a.m.to], a.m))
    ensures Next(s, a).tally == s.tally && Next(s, a).members == s.members
  {
  }

  /** A timeout makes a follower a candidate of the next term, with its own vote and no other. */
  lemma StoodInRuns(members: set<int>, run: seq<Action>, i: nat, n: int)
    requires Run(members, run) && i < |run| && run[i] == Timeout(n)
    ensures n in members
    ensures var x, y := NodeAt(members, run, i, n), NodeAt(members, run, i + 1, n);
      && y.role == Candidate && y.currentTerm == x.currentTerm + 1 && y.votedFor == n && y.votesReceived == 1
      && y.log == x.log && Tally(StateAt(members, run, i + 1), y.currentTerm, n) == {}
  {
    var s, s' := RunStep(members, run, i);
    assert NodeOk(s, n) && NodeOk(s', n) && CandidateOk(s', n);
    var t := TermOf(s', n);
    assert (t, n) in s.tally ==> TallyOk(s, (t, n));
  }

  // Terms

  /** The term that a message brings. */
  function TermIn(m: Msg): int {
    match m
    case VoteReq(_, v) => v.term
    case VoteRsp(_, _, _, r) => r.term
    case AppReq(_, a) => a.term
    case AppRsp(_, _, _, _, _, r) => r.term
  }

  predicate Handles(a: Action) {
    a.RecvVote? || a.RecvVoteRsp? || a.RecvAppend? || a.RecvAppendRsp?
  }

  /** The vote replies that the handler drops unread: those that no candidate waits for. */
  predicate Unread(x: Node, a: Action) {
    a.RecvVoteRsp? && x.role != Candidate
  }

  /** In every run: whoever handles a message is in the later of the two terms afterwards. A term above
      its own makes it, leader or not, a follower whose vote is free, unless the message is a vote request
      and gets it. A request of a term not below its own makes it a follower too. */
  lemma TermsSpread(members: set<int>, run: seq<Action>, i: nat)
    requires Run(members, run) && i < |run| && Handles(run[i])
    ensures run[i].m.to in members
    ensures var m, x, y := run[i].m, NodeAt(members, run, i, run[i].m.to), NodeAt(members, run, i + 1, run[i].m.to);
      Spread(x, y, run[i])
  {
    var s, s' := RunStep(members, run, i);
    SpreadStep(s, run[i]);
  }

  predicate Spread(x: Node, y: Node, a: Action)
    requires Handles(a)
  {
    var t := TermIn(a.m);
    if Unread(x, a) then y == x else
      && y.currentTerm == (if t > x.currentTerm then t else x.currentTerm)
      && (t > x.currentTerm ==> y.role == Follower && (y.votedFor == -1 || Granted(y, a)))
      && (a.RecvAppend? && t >= x.currentTerm ==> y.role == Follower)
  }

  predicate Granted(y: Node, a: Action) {
    a.RecvVote? && a.m.VoteReq? && y.votedFor == a.m.vote.candidateId
  }

  lemma SpreadStep(s: Cluster, a: Action)
    requires Inv(s) && Step(s, a) && Handles(a)
    ensures a.m.to in s.nodes && a.m.to in Next(s, a).nodes && Spread(s.nodes[a.m.to], Next(s, a).nodes[a.m.to], a)
  {
    var s', n := Next(s, a), a.m.to;
    assert MsgOk(s, a.m) && NodeOk(s, n);
    match a
    case RecvVote(m) => SpreadByVote(s.nodes[n], m.vote);
    case RecvVoteRsp(m) =>
      CountedNodes(s, m);
      SpreadByVoteReply(s.nodes[n], m.saved, m.voteRet);
    case RecvAppend(m) => SpreadByAppend(s.nodes[n], m.app);
    case RecvAppendRsp(m) =>
      assert TermOk(s, m.saved);
      SpreadByAppendReply(s.nodes[n], m);
  }

  lemma SpreadByVote(x: Node, v: RequestVoteParams)
    requires v.candidateId in x.peers
    ensures Spread(x, HandleRequestVote(x, v).0, RecvVote(VoteReq(x.id, v)))
  {
  }

  lemma SpreadByVoteReply(x: Node, saved: int, r: RequestVoteRet)
    requires Timely(x.currentTerm, saved, r.term)
    ensures Spread(x, HandleVoteReply(x, saved, r), RecvVoteRsp(VoteRsp(saved, 0, x.id, r)))
  {
  }

  lemma SpreadByAppend(x: Node, a: AppendEntriesParams)
    requires a.prevLogIndex >= -1
    ensures Spread(x, HandleAppendEntries(x, a).0, RecvAppend(AppReq(x.id, a)))
  {
    if a.term >= x.currentTerm { HandledRole(x, a); }
  }

  lemma SpreadByAppendReply(x: Node, m: Msg)
    requires m.AppRsp? && Timely(x.currentTerm, m.saved, m.appRet.term) && m.saved <= x.currentTerm
    ensures Spread(x, HandleAppendReply(x, m.from, m.saved, m.next, m.count, m.appRet), RecvAppendRsp(m))
  {
  }
}
