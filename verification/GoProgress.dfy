/** How the Go prototype's elections get on: when a vote is given, when votes make a leader, and how terms
    spread, over whole runs under R2. */
module GoProgress {
  import opened GoElection
  import opened ElectionBasics
  import opened GoElectionSafety

  /** A state that a cluster of these members can reach. */
  ghost predicate Reachable(members: set<int>, run: seq<Action>, s: Cluster) {
    GoodMembers(members) && Legal(Init(members), run) && s == After(Init(members), run)
  }

  lemma ReachableInv(members: set<int>, run: seq<Action>, s: Cluster)
    requires Reachable(members, run, s)
    ensures Inv(s)
  {
    InitInv(members);
    RunKeeps(Init(members), run);
  }

  // Giving a vote

  predicate UpToDate(a: seq<Entry>, b: seq<Entry>) {
    LastTerm(a) > LastTerm(b) || (LastTerm(a) == LastTerm(b) && |a| >= |b|)
  }

  function Max(a: int, b: int): int {
    if a >= b then a else b
  }

  predicate CanVote(x: Module, term: int, c: int) {
    term > x.currentTerm || (term == x.currentTerm && (x.votedFor == -1 || x.votedFor == c))
  }

  /** A vote is given exactly to a candidate whose log is at least as up to date, as long as it is free and
      the voter is not stopped. Given or not, the voter is then in the later of the two terms. */
  lemma GrantedExactly(x: Module, args: VoteArgs, c: seq<Entry>)
    requires args.lastLogIndex == |c| - 1 && args.lastLogTerm == LastTerm(c)
    ensures var (y, r) := HandleRequestVote(x, args);
      && (r.voteGranted <==> x.state != Stopped && CanVote(x, args.term, args.candidateId) && UpToDate(c, x.log))
      && (r.voteGranted ==> y.votedFor == args.candidateId && y.currentTerm == args.term)
      && (x.state == Stopped ==> y == x)
      && (x.state != Stopped ==> r.term == y.currentTerm == Max(x.currentTerm, args.term))
  {
  }

  /** Of two replicas that run at least one would vote for the other in a new term. */
  lemma OneGrantsTheOther(a: Module, b: Module, t: int)
    requires a.state != Stopped && b.state != Stopped && t > a.currentTerm && t > b.currentTerm
    ensures HandleRequestVote(a, VoteRequest(b, t)).1.voteGranted ||
      HandleRequestVote(b, VoteRequest(a, t)).1.voteGranted
  {
    GrantedExactly(a, VoteRequest(b, t), b.log);
    GrantedExactly(b, VoteRequest(a, t), a.log);
  }

  /** What is asked for is a vote in the term that the election was started in, on the log of the moment. */
  lemma Asked(members: set<int>, run: seq<Action>, s: Cluster, n: int, p: int, saved: int, m: Msg)
    requires Reachable(members, run, s) && Step(s, SendVote(n, p, saved))
    requires m !in s.net && m in Next(s, SendVote(n, p, saved)).net
    ensures m.VoteReq? && m.to == p && m.args.candidateId == n && m.args.term == saved && n in s.nodes
    ensures m.args.lastLogIndex == |s.nodes[n].log| - 1 && m.args.lastLogTerm == LastTerm(s.nodes[n].log)
  {
    ReachableInv(members, run, s);
    assert NodeOk(s, n);
  }

  // Winning

  /** A candidate that counts a grant of its election is leader afterwards exactly if it and the voters
      counted so far are a majority of the members. */
  lemma WonExactly(members: set<int>, run: seq<Action>, s: Cluster, m: Msg)
    requires Reachable(members, run, s) && Counted(s, m)
    ensures m.to in s.nodes && m.to in NextRecvVoteRsp(s, m).nodes
    ensures var s' := NextRecvVoteRsp(s, m);
      var y, voters := s'.nodes[m.to], Tally(s, m.saved, m.to) + {m.from};
      && y.currentTerm == m.saved == TermOf(s, m.to) && Tally(s', m.saved, m.to) == voters
      && (y.state == Leader <==> Majority(s.members, voters + {m.to}))
      && (y.state != Leader ==> y.state == Candidate)
  {
    ReachableInv(members, run, s);
    WonStep(s, m);
  }

  lemma WonStep(s: Cluster, m: Msg)
    requires Inv(s) && Counted(s, m)
    ensures m.to in NextRecvVoteRsp(s, m).nodes
    ensures var s' := NextRecvVoteRsp(s, m);
      var y, voters := s'.nodes[m.to], Tally(s, m.saved, m.to) + {m.from};
      && y.currentTerm == m.saved == TermOf(s, m.to) && Tally(s', m.saved, m.to) == voters
      && (y.state == Leader <==> Majority(s.members, voters + {m.to}))
      && (y.state != Leader ==> y.state == Candidate)
  {
    assert NodeOk(s, m.to);
    VotersGranted(s, m);
    var voters := Tally(s, m.saved, m.to) + {m.from};
    assert |voters + {m.to}| == |voters| + 1;
    assert |s.members - {m.to}| == |s.members| - 1;
  }

  /** The candidate has counted no vote, or not enough of them. */
  predicate Undecided(s: Cluster, n: int)
    requires n in s.nodes
  {
    s.nodes[n].state == Candidate && Tally(s, TermOf(s, n), n) != {} ==>
      !Majority(s.members, Tally(s, TermOf(s, n), n) + {n})
  }

  /** So no replica stays a candidate in a term in which it has counted a majority. */
  lemma NoneLingers(members: set<int>, run: seq<Action>, s: Cluster, n: int)
    requires Reachable(members, run, s) && n in members
    ensures n in s.nodes && Undecided(s, n)
  {
    InitInv(members);
    RunUndecided(Init(members), run, n);
  }

  lemma {:induction false} RunUndecided(s: Cluster, run: seq<Action>, n: int)
    requires Inv(s) && Legal(s, run) && n in s.nodes && Undecided(s, n)
    ensures n in After(s, run).nodes && Undecided(After(s, run), n)
    decreases |run|
  {
    if run != [] {
      StepKeeps(s, run[0]);
      StepUndecided(s, run[0], n);
      RunUndecided(Next(s, run[0]), run[1..], n);
    }
  }

  lemma StepUndecided(s: Cluster, a: Action, n: int)
    requires Inv(s) && Step(s, a) && n in s.nodes && Undecided(s, n)
    ensures n in Next(s, a).nodes && Undecided(Next(s, a), n)
  {
    StepKeeps(s, a);
    var s' := Next(s, a);
    assert GoElectionSafety.NodeGrows(s, s', n);
    assert (TermOf(s', n), n) in s.tally ==> TallyOk(s, (TermOf(s', n), n));
    if a.RecvVoteRsp? && Counted(s, a.m) {
      WonStep(s, a.m);
    } else {
      TallyKept(s, a);
      StillStanding(s, a, n);
    }
  }

  lemma TallyKept(s: Cluster, a: Action)
    requires Step(s, a) && (a.RecvVoteRsp? ==> !Counted(s, a.m))
    ensures Next(s, a).tally == s.tally && Next(s, a).members == s.members
  {
  }

  /** Who is a candidate after anything but a counted vote has just begun to stand, or stood before. */
  lemma StillStanding(s: Cluster, a: Action, n: int)
    requires Enabled(s, a) && n in s.nodes && n in Next(s, a).nodes
    ensures Next(s, a).nodes[n].state == Candidate ==>
      || TermOf(Next(s, a), n) > TermOf(s, n)
      || (s.nodes[n].state == Candidate && TermOf(Next(s, a), n) == TermOf(s, n))
  {
  }

  // Terms

  function TermIn(m: Msg): int {
    match m
    case VoteReq(_, args) => args.term
    case VoteRsp(_, _, _, r) => r.term
    case AppReq(_, _, term) => term
    case AppRsp(_, _, term) => term
  }

  predicate Handles(a: Action) {
    a.RecvVote? || a.RecvVoteRsp? || a.RecvAppend? || a.RecvAppendRsp?
  }

  /** Messages that change nothing whatever their term: requests to a stopped replica, and vote replies to
      one that is no candidate. */
  predicate Unread(x: Module, a: Action) {
    (x.state == Stopped && (a.RecvVote? || a.RecvAppend?)) || (a.RecvVoteRsp? && x.state != Candidate)
  }

  /** Under R2, whoever reads a message is in the later of the two terms afterwards. A term above its own
      makes it, leader or not, a follower whose vote is free, unless the message is a vote request and gets
      it. A heartbeat of a term not below its own makes it a follower too. */
  lemma TermsSpread(s: Cluster, a: Action)
    requires Step(s, a) && Handles(a)
    ensures a.m.to in s.nodes && a.m.to in Next(s, a).nodes
    ensures var x, y, t := s.nodes[a.m.to], Next(s, a).nodes[a.m.to], TermIn(a.m);
      if Unread(x, a) then y == x else
        && y.currentTerm == Max(x.currentTerm, t)
        && (t > x.currentTerm ==> y.state == Follower && (y.votedFor == -1 || VotedAsAsked(y, a)))
        && (a.RecvAppend? && t >= x.currentTerm ==> y.state == Follower)
  {
  }

  predicate VotedAsAsked(y: Module, a: Action) {
    a.RecvVote? && a.m.VoteReq? && y.votedFor == a.m.args.candidateId
  }

  /** A timeout makes a follower or a candidate a candidate of the next term, with its own vote and no other. */
  lemma Stands(members: set<int>, run: seq<Action>, s: Cluster, n: int)
    requires Reachable(members, run, s) && Step(s, Timeout(n))
    ensures n in s.nodes && n in Next(s, Timeout(n)).nodes
    ensures var s' := Next(s, Timeout(n));
      && s'.nodes[n].state == Candidate && TermOf(s', n) == TermOf(s, n) + 1 && s'.nodes[n].votedFor == n
      && Tally(s', TermOf(s', n), n) == {}
  {
    ReachableInv(members, run, s);
    assert NodeOk(s, n);
    assert (TermOf(s, n) + 1, n) in s.tally ==> TallyOk(s, (TermOf(s, n) + 1, n));
  }
}
