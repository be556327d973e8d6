/** The election actions keep the invariant: timeouts, vote requests, votes and vote replies. */
module StepElection {
  import opened RaftTypes
  import opened RaftHandlers
  import opened RaftCluster
  import opened ClusterInvariant
  import opened ClusterGrowth

  // Starting an election

  lemma TimeoutKeeps(s: Cluster, n: int)
    requires Inv(s) && Step(s, Timeout(n))
    ensures Inv(Next(s, Timeout(n))) && Grows(s, Next(s, Timeout(n)))
  {
    var s' := NextTimeout(s, n);
    NothingOfNewTerm(s, n);
    assert NodeOk(s, n);
    TimeoutGrows(s, s', n);
    NodeFrame(s, s', n);
    SelfBallot(s, s', n);
    NewCandidate(s, s', n);
    AcksUnchanged(s, s', n);
    TimeoutParts(s, s', n, s'.nodes[n]);
    Assemble(s, s', n);
  }

  /** Nobody has voted or counted votes in a term that the replica has not reached. */
  lemma NothingOfNewTerm(s: Cluster, n: int)
    requires Inv(s) && n in s.nodes
    ensures (TermOf(s, n) + 1, n) !in s.ballots && Tally(s, TermOf(s, n) + 1, n) == {}
  {
    var t := TermOf(s, n) + 1;
    assert (t, n) in s.ballots ==> BallotOk(s, t, n);
    assert (t, n) in s.tally ==> TallyOk(s, (t, n));
  }

  lemma TimeoutGrows(s: Cluster, s': Cluster, n: int)
    requires Enabled(s, Timeout(n)) && s' == NextTimeout(s, n) && (TermOf(s', n), n) !in s.ballots
    ensures Grows(s, s')
  {
  }

  lemma NewCandidate(s: Cluster, s': Cluster, n: int)
    requires Enabled(s, Timeout(n)) && s' == NextTimeout(s, n) && s.nodes[n].id == n
    requires Tally(s, TermOf(s', n), n) == {} && NodeBasics(s', n) && NodeCommit(s', n)
    ensures NodeOk(s', n)
  {
    assert CandidateOk(s', n);
  }

  lemma TimeoutParts(s: Cluster, s': Cluster, n: int, y: Node)
    requires n in s.nodes && s' == Stood(s, n, y)
    requires s.termLog.Keys == s.elections.Keys && LeadersRecorded(s)
    requires NodeOk(s', n) && BallotOk(s', TermOf(s', n), n)
    requires forall t, v {:trigger AckCase(s, s', t, v)} :: (t, v) in s'.acked ==> AckCase(s, s', t, v)
    ensures NewPartsOk(s, s', n)
  {
    SamePast(s, s');
  }

  lemma SelfBallot(s: Cluster, s': Cluster, n: int)
    requires Inv(s) && Enabled(s, Timeout(n)) && s' == NextTimeout(s, n)
    ensures BallotOk(s', TermOf(s', n), n)
  {
    var t := TermOf(s', n);
    assert NodeOk(s, n);
    forall u, j: nat | (u, n) in s'.acked && u < t && j <= s'.acked[(u, n)]
      ensures KeptAtVote(s', t, n, u, j)
    {
      assert AckOk(s, u, n);
      assert Kept(s, u, j, LogOf(s, n), TermOf(s, n));
    }
  }

  // Sending

  /** Adding a well-formed message changes nothing else. */
  lemma SendKeeps(s: Cluster, m: Msg, n: int)
    requires Inv(s) && n in s.nodes && MsgOk(s, m)
    ensures Inv(s.(net := s.net + {m})) && Grows(s, s.(net := s.net + {m}))
  {
    var s' := s.(net := s.net + {m});
    assert NodeOk(s, n);
    SentGrows(s, s', m);
    MsgStable(s, s', m);
    NodeStable(s, s', n);
    AcksUnchanged(s, s', n);
    SentParts(s, s', m, n);
    Assemble(s, s', n);
  }

  lemma SentGrows(s: Cluster, s': Cluster, m: Msg)
    requires s' == s.(net := s.net + {m})
    ensures Grows(s, s')
  {
  }

  lemma SentParts(s: Cluster, s': Cluster, m: Msg, n: int)
    requires s' == s.(net := s.net + {m}) && n in s.nodes && NodeOk(s', n) && MsgOk(s', m)
    requires s.termLog.Keys == s.elections.Keys && LeadersRecorded(s)
    requires forall t, v {:trigger AckCase(s, s', t, v)} :: (t, v) in s'.acked ==> AckCase(s, s', t, v)
    ensures NewPartsOk(s, s', n)
  {
    SamePast(s, s');
  }

  lemma SendVoteKeeps(s: Cluster, n: int, p: int, saved: int)
    requires Inv(s) && Step(s, SendVote(n, p, saved))
    ensures Inv(Next(s, SendVote(n, p, saved))) && Grows(s, Next(s, SendVote(n, p, saved)))
  {
    assert NodeOk(s, n) && BallotOk(s, saved, n);
    SendKeeps(s, VoteReq(p, VoteRequest(s.nodes[n], saved)), n);
  }

  // Voting

  /** What a vote request does to the replica, apart from how it decides. */
  predicate VoteOutcome(x: Node, y: Node, r: RequestVoteRet, args: RequestVoteParams) {
    && y == x.(currentTerm := y.currentTerm, role := y.role, votedFor := y.votedFor)
    && x.currentTerm <= y.currentTerm && y.role == (if x.currentTerm < y.currentTerm then Follower else x.role)
    && (x.currentTerm == y.currentTerm ==>
          y.votedFor == x.votedFor || (x.votedFor == -1 && r.voteGranted && y.votedFor == args.candidateId))
    && (r.voteGranted ==>
          && args.term == y.currentTerm == r.term && y.votedFor == args.candidateId
          && CandidateUpToDate(args, x.log))
  }

  lemma VoteDecides(x: Node, args: RequestVoteParams)
    ensures var (y, r) := HandleRequestVote(x, args); VoteOutcome(x, y, r, args)
  {
  }

  lemma RecvVoteKeeps(s: Cluster, m: Msg)
    requires Inv(s) && Step(s, RecvVote(m))
    ensures Inv(NextRecvVote(s, m)) && Grows(s, NextRecvVote(s, m))
  {
    VoteDecides(s.nodes[m.to], m.vote);
    var (y, r) := HandleRequestVote(s.nodes[m.to], m.vote);
    VotedKeeps(s, m, y, r);
  }

  lemma VotedKeeps(s: Cluster, m: Msg, y: Node, r: RequestVoteRet)
    requires Inv(s) && m.VoteReq? && MsgOk(s, m) && VoteOutcome(s.nodes[m.to], y, r, m.vote)
    requires (m.vote.term, m.to) !in s.leaders
    ensures Inv(Voted(s, m, y, r)) && Grows(s, Voted(s, m, y, r))
  {
    var s' := Voted(s, m, y, r);
    EarlierVote(s, m.to);
    VotedGrows(s, s', m, y, r);
    assert NodeOk(s, m.to);
    VotedNode(s, s', m, y, r);
    VotedBallot(s, s', m, y, r);
    VotedReply(s, s', m, y, r);
    AcksUnchanged(s, s', m.to);
    VotedParts(s, s', m, y, r);
    Assemble(s, s', m.to);
  }

  /** What is known of a vote that the replica has given in its current term. */
  ghost predicate VoteKnown(s: Cluster, v: int)
    requires v in s.nodes
  {
    var t := TermOf(s, v);
    (t, v) in s.ballots ==>
      && s.ballots[(t, v)].candidate >= 0
      && (t !in s.elections ==> s.nodes[v].votedFor == s.ballots[(t, v)].candidate)
      && (t in s.elections && v in s.elections[t].quorum && v != s.elections[t].leader ==>
            s.nodes[v].votedFor == s.ballots[(t, v)].candidate)
      && (t in s.elections && v == s.elections[t].leader ==> (t, v) in s.leaders)
  }

  lemma EarlierVote(s: Cluster, v: int)
    requires Inv(s) && v in s.nodes
    ensures VoteKnown(s, v)
    ensures forall t {:trigger (t, v) in s.ballots} :: (t, v) in s.ballots ==> t <= TermOf(s, v)
  {
    var t := TermOf(s, v);
    forall u | (u, v) in s.ballots ensures u <= TermOf(s, v) { assert BallotOk(s, u, v); }
    if (t, v) in s.ballots {
      assert BallotOk(s, t, v);
      if t in s.elections && v in s.elections[t].quorum {
        assert TermOk(s, t) && QuorumVoteOk(s, t, v);
      }
    }
  }

  lemma VotedGrows(s: Cluster, s': Cluster, m: Msg, y: Node, r: RequestVoteRet)
    requires m.VoteReq? && m.to in s.nodes && s' == Voted(s, m, y, r)
    requires VoteOutcome(s.nodes[m.to], y, r, m.vote) && VoteKnown(s, m.to) && (m.vote.term, m.to) !in s.leaders
    ensures Grows(s, s')
  {
    VoteIsKept(s, s', m, y, r);
  }

  lemma VoteIsKept(s: Cluster, s': Cluster, m: Msg, y: Node, r: RequestVoteRet)
    requires m.VoteReq? && m.to in s.nodes && s' == Voted(s, m, y, r)
    requires VoteOutcome(s.nodes[m.to], y, r, m.vote) && VoteKnown(s, m.to) && (m.vote.term, m.to) !in s.leaders
    ensures NodeGrows(s, s', m.to)
  {
  }

  lemma VotedNode(s: Cluster, s': Cluster, m: Msg, y: Node, r: RequestVoteRet)
    requires m.VoteReq? && m.to in s.nodes && s' == Voted(s, m, y, r) && Grows(s, s') && NodeOk(s, m.to)
    requires VoteOutcome(s.nodes[m.to], y, r, m.vote) && m.vote.candidateId != m.to && m.to >= 0
    requires LeadersRecorded(s) && (m.vote.term, m.to) !in s.leaders
    ensures NodeOk(s', m.to)
  {
    NodeFrame(s, s', m.to);
    if y.role != Follower {
      assert y.role == Leader ==> (TermOf(s, m.to), m.to) in s.leaders;
      assert y == s.nodes[m.to];
      NodeStable(s, s', m.to);
    }
  }

  lemma NoBallotNoQuorum(s: Cluster, t: int, v: int)
    requires Inv(s) && t in s.elections && (t, v) !in s.ballots
    ensures v !in s.elections[t].quorum
  {
    assert TermOk(s, t);
    assert v in s.elections[t].quorum ==> QuorumVoteOk(s, t, v);
  }

  /** A first ballot says what it should. */
  lemma VotedBallot(s: Cluster, s': Cluster, m: Msg, y: Node, r: RequestVoteRet)
    requires Inv(s) && m.VoteReq? && MsgOk(s, m) && s' == Voted(s, m, y, r)
    requires VoteOutcome(s.nodes[m.to], y, r, m.vote)
    ensures r.voteGranted && (m.vote.term, m.to) !in s.ballots ==> BallotOk(s', m.vote.term, m.to)
  {
    if r.voteGranted && (m.vote.term, m.to) !in s.ballots {
      var v, t, c := m.to, m.vote.term, m.vote.candidateId;
      assert NodeOk(s, v) && NodeOk(s, c);
      if Counts(s', t, v) {
        if t in s.elections {
          NoBallotNoQuorum(s, t, v);
          assert false;
        }
        VotedAcks(s, s', m, y, r);
      }
      FirstBallot(s, s', m, y, r);
    }
  }

  lemma FirstBallot(s: Cluster, s': Cluster, m: Msg, y: Node, r: RequestVoteRet)
    requires m.VoteReq? && MsgOk(s, m) && s' == Voted(s, m, y, r) && VoteOutcome(s.nodes[m.to], y, r, m.vote)
    requires r.voteGranted && (m.vote.term, m.to) !in s.ballots && NodeBasics(s, m.to)
    requires Counts(s', m.vote.term, m.to) ==> BallotKeepsAcks(s', m.vote.term, m.to)
    requires m.vote.term !in s.elections ==> s.nodes[m.to].role != Candidate || TermOf(s, m.to) < m.vote.term
    requires s.nodes[m.to].role == Leader ==> TermOf(s, m.to) in s.elections
    ensures BallotOk(s', m.vote.term, m.to)
  {
    var v, c := m.to, m.vote.candidateId;
    assert LastTerm(LogOf(s, v)) == LastTerm(s.nodes[v].log) && LastTerm(LogOf(s, c)) == LastTerm(s.nodes[c].log);
  }

  lemma VotedAcks(s: Cluster, s': Cluster, m: Msg, y: Node, r: RequestVoteRet)
    requires Inv(s) && m.VoteReq? && m.to in s.nodes && s' == Voted(s, m, y, r)
    requires VoteOutcome(s.nodes[m.to], y, r, m.vote) && m.vote.term !in s.elections
    requires r.voteGranted && (m.vote.term, m.to) !in s.ballots
    ensures BallotKeepsAcks(s', m.vote.term, m.to)
  {
    var v, t := m.to, m.vote.term;
    forall u, j: nat | (u, v) in s'.acked && u < t && j <= s'.acked[(u, v)]
      ensures KeptAtVote(s', t, v, u, j)
    {
      assert AckOk(s, u, v);
      assert Kept(s, u, j, LogOf(s, v), TermOf(s, v));
      EarlierLeader(s, u, TermPrefix(s, u, j), TermOf(s, v), t);
    }
  }

  /** No leader of term `t` exists yet, so a lacking leader is of an earlier term. */
  lemma EarlierLeader(s: Cluster, u: int, p: seq<LogEntry>, bound: int, t: int)
    requires bound <= t && t !in s.termLog
    ensures LaterLeaderLacks(s, u, p, bound) ==> LaterLeaderLacks(s, u, p, t - 1)
  {
  }

  lemma VotedReply(s: Cluster, s': Cluster, m: Msg, y: Node, r: RequestVoteRet)
    requires m.VoteReq? && MsgOk(s, m) && s' == Voted(s, m, y, r) && VoteOutcome(s.nodes[m.to], y, r, m.vote)
    requires VoteKnown(s, m.to) && (m.vote.term, m.to) !in s.leaders
    requires (m.vote.term, m.to) in s.ballots ==> m.vote.term <= TermOf(s, m.to)
    ensures MsgOk(s', VoteRsp(m.vote.term, m.to, m.vote.candidateId, r))
  {
  }

  lemma VotedParts(s: Cluster, s': Cluster, m: Msg, y: Node, r: RequestVoteRet)
    requires m.VoteReq? && m.to in s.nodes && s' == Voted(s, m, y, r)
    requires s.termLog.Keys == s.elections.Keys && LeadersRecorded(s) && NodeOk(s', m.to)
    requires r.voteGranted && (m.vote.term, m.to) !in s.ballots ==> BallotOk(s', m.vote.term, m.to)
    requires forall t, v {:trigger AckCase(s, s', t, v)} :: (t, v) in s'.acked ==> AckCase(s, s', t, v)
    requires MsgOk(s', VoteRsp(m.vote.term, m.to, m.vote.candidateId, r))
    ensures NewPartsOk(s, s', m.to)
  {
    SamePast(s, s');
  }
}
