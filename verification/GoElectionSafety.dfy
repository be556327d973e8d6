/** Election Safety of the Go prototype's elections: at most one leader per term over whole runs. */
module GoElectionSafety {
  import opened GoElection
  import opened ElectionBasics

  // The invariant

  function TermOf(s: Cluster, n: int): int
    requires n in s.nodes
  {
    s.nodes[n].currentTerm
  }

  predicate Passive(st: State) {
    st == Follower || st == Stopped
  }

  /** A counted voter of a won election voted for the winner first, and does not forget it while
      it stays in the term. */
  predicate VoterOk(s: Cluster, t: int, v: int)
    requires t in s.wins
  {
    var c := s.wins[t].leader;
    && v in s.nodes && (t, v) in s.ballots && s.ballots[(t, v)] == c
    && (TermOf(s, v) == t ==>
          && s.nodes[v].votedFor == c && s.nodes[v].state != Candidate
          && (v != c ==> Passive(s.nodes[v].state)))
  }

  ghost predicate WinOk(s: Cluster, t: int)
    requires t in s.wins
  {
    var w := s.wins[t];
    && w.leader in w.quorum && Majority(s.members, w.quorum)
    && (forall v {:trigger VoterOk(s, t, v)} :: v in w.quorum ==> VoterOk(s, t, v))
  }

  /** A first vote, which holds as long as the term has no winner and the voter stays in it. */
  predicate BallotOk(s: Cluster, t: int, v: int)
    requires (t, v) in s.ballots
  {
    var c := s.ballots[(t, v)];
    && v in s.nodes && c in s.nodes && 1 <= t <= TermOf(s, v)
    && (t !in s.wins && TermOf(s, v) == t ==> s.nodes[v].votedFor == c && (c != v ==> Passive(s.nodes[v].state)))
  }

  /** `v` voted for `c` in term `t`, or its vote no longer matters. */
  predicate Granted(s: Cluster, t: int, v: int, c: int) {
    && (t, v) in s.ballots
    && (s.ballots[(t, v)] == c || (t in s.wins && v !in s.wins[t].quorum))
  }

  ghost predicate CandidateOk(s: Cluster, n: int)
    requires n in s.nodes
  {
    var t := TermOf(s, n);
    && s.nodes[n].votedFor == n && (t, n) in s.ballots && s.ballots[(t, n)] == n
    && Tally(s, t, n) <= s.members - {n}
    && (forall v {:trigger Granted(s, t, v, n)} :: v in Tally(s, t, n) ==> Granted(s, t, v, n))
  }

  ghost predicate NodeOk(s: Cluster, n: int)
    requires n in s.nodes
  {
    var x := s.nodes[n];
    && n >= 0 && x.id == n && x.peers == s.members - {n} && x.currentTerm >= 0
    && (x.state == Candidate ==> CandidateOk(s, n))
    && (x.state == Leader ==> (x.currentTerm, n) in s.leaders)
  }

  predicate MsgOk(s: Cluster, m: Msg) {
    match m
    case VoteReq(to, args) => to in s.nodes && args.candidateId in s.nodes && to != args.candidateId && args.term >= 1
    case VoteRsp(saved, from, to, r) =>
      && from in s.nodes && to in s.nodes && from != to
      && (r.voteGranted ==> r.term == saved && Granted(s, saved, from, to))
    case AppReq(to, from, term) => to in s.nodes && to != from && (term, from) in s.leaders
    case AppRsp(saved, to, term) => true
  }

  predicate TallyOk(s: Cluster, k: (int, int)) {
    k.1 in s.nodes && k.0 <= TermOf(s, k.1)
  }

  predicate LeaderOk(s: Cluster, k: (int, int)) {
    k.0 in s.wins && s.wins[k.0].leader == k.1
  }

  ghost predicate Inv(s: Cluster) {
    && s.nodes.Keys == s.members
    && (forall n {:trigger NodeOk(s, n)} :: n in s.nodes ==> NodeOk(s, n))
    && (forall t {:trigger WinOk(s, t)} :: t in s.wins ==> WinOk(s, t))
    && (forall t, v {:trigger BallotOk(s, t, v)} :: (t, v) in s.ballots ==> BallotOk(s, t, v))
    && (forall m {:trigger MsgOk(s, m)} :: m in s.net ==> MsgOk(s, m))
    && (forall k {:trigger TallyOk(s, k)} :: k in s.tally ==> TallyOk(s, k))
    && (forall k {:trigger LeaderOk(s, k)} :: k in s.leaders ==> LeaderOk(s, k))
  }

  // Growth

  /** Terms never fall, and a vote that can still matter is kept within its term. */
  predicate NodeGrows(s: Cluster, s': Cluster, v: int)
    requires v in s.nodes && v in s'.nodes
  {
    var x, y, t := s.nodes[v], s'.nodes[v], TermOf(s, v);
    && t <= TermOf(s', v)
    && (TermOf(s', v) == t && (t, v) in s.ballots && (t !in s'.wins || (t in s.wins && v in s.wins[t].quorum)) ==>
          && y.votedFor == x.votedFor && (Passive(x.state) ==> Passive(y.state))
          && (y.state == Candidate ==> x.state == Candidate))
  }

  predicate BallotGrows(s: Cluster, s': Cluster, k: (int, int)) {
    k in s.ballots ==> k in s'.ballots && s'.ballots[k] == s.ballots[k]
  }

  predicate WinGrows(s: Cluster, s': Cluster, t: int) {
    t in s.wins ==> t in s'.wins && s'.wins[t] == s.wins[t]
  }

  ghost predicate Grows(s: Cluster, s': Cluster) {
    && s'.members == s.members && s'.nodes.Keys == s.nodes.Keys && s.leaders <= s'.leaders
    && (forall v {:trigger NodeGrows(s, s', v)} :: v in s.nodes && v in s'.nodes ==> NodeGrows(s, s', v))
    && (forall k {:trigger BallotGrows(s, s', k)} :: BallotGrows(s, s', k))
    && (forall t {:trigger WinGrows(s, s', t)} :: WinGrows(s, s', t))
  }

  lemma GrantedStable(s: Cluster, s': Cluster, t: int, v: int, c: int)
    requires Grows(s, s') && Granted(s, t, v, c)
    ensures Granted(s', t, v, c)
  {
    assert BallotGrows(s, s', (t, v)) && WinGrows(s, s', t);
  }

  lemma WinStable(s: Cluster, s': Cluster, t: int)
    requires Inv(s) && Grows(s, s') && t in s.wins
    ensures t in s'.wins && WinOk(s', t)
  {
    assert WinOk(s, t) && WinGrows(s, s', t);
    forall v | v in s.wins[t].quorum ensures VoterOk(s', t, v) {
      assert VoterOk(s, t, v) && BallotOk(s, t, v) && BallotGrows(s, s', (t, v)) && NodeGrows(s, s', v);
    }
  }

  lemma BallotStable(s: Cluster, s': Cluster, t: int, v: int)
    requires Grows(s, s') && (t, v) in s.ballots && BallotOk(s, t, v)
    ensures (t, v) in s'.ballots && BallotOk(s', t, v)
  {
    assert BallotGrows(s, s', (t, v)) && NodeGrows(s, s', v) && WinGrows(s, s', t);
  }

  lemma MsgStable(s: Cluster, s': Cluster, m: Msg)
    requires Grows(s, s') && MsgOk(s, m)
    ensures MsgOk(s', m)
  {
    if m.VoteRsp? && m.reply.voteGranted { GrantedStable(s, s', m.saved, m.from, m.to); }
  }

  /** A replica whose candidacy, if it stands, is untouched. */
  predicate Untouched(s: Cluster, s': Cluster, n: int)
    requires n in s.nodes && n in s'.nodes
  {
    s'.nodes[n] == s.nodes[n] && Tally(s', TermOf(s, n), n) == Tally(s, TermOf(s, n), n)
  }

  lemma NodeStable(s: Cluster, s': Cluster, n: int)
    requires Grows(s, s') && n in s.nodes && NodeOk(s, n) && Untouched(s, s', n)
    ensures NodeOk(s', n)
  {
    var t := TermOf(s, n);
    if s.nodes[n].state == Candidate {
      assert BallotGrows(s, s', (t, n));
      forall v | v in Tally(s, t, n) ensures Granted(s', t, v, n) {
        assert Granted(s, t, v, n);
        GrantedStable(s, s', t, v, n);
      }
    }
  }

  /** What a step that touches replica `n` must show. */
  ghost predicate NewOk(s: Cluster, s': Cluster, n: int) {
    && n in s.nodes && n in s'.nodes && NodeOk(s', n)
    && (forall i {:trigger Untouched(s, s', i)} :: i in s.nodes && i in s'.nodes && i != n ==> Untouched(s, s', i))
    && (forall t {:trigger WinOk(s', t)} :: t in s'.wins && t !in s.wins ==> WinOk(s', t))
    && (forall t, v {:trigger BallotOk(s', t, v)} :: (t, v) in s'.ballots && (t, v) !in s.ballots ==>
      BallotOk(s', t, v))
    && (forall m {:trigger MsgOk(s', m)} :: m in s'.net && m !in s.net ==> MsgOk(s', m))
    && (forall k {:trigger TallyOk(s', k)} :: k in s'.tally && k !in s.tally ==> TallyOk(s', k))
    && (forall k {:trigger LeaderOk(s', k)} :: k in s'.leaders && k !in s.leaders ==> LeaderOk(s', k))
  }

  lemma Assemble(s: Cluster, s': Cluster, n: int)
    requires Inv(s) && Grows(s, s') && NewOk(s, s', n)
    ensures Inv(s')
  {
    forall i | i in s'.nodes ensures NodeOk(s', i) {
      if i != n {
        assert NodeOk(s, i) && Untouched(s, s', i);
        NodeStable(s, s', i);
      }
    }
    forall t | t in s'.wins ensures WinOk(s', t) {
      if t in s.wins { WinStable(s, s', t); }
    }
    forall t, v | (t, v) in s'.ballots ensures BallotOk(s', t, v) {
      if (t, v) in s.ballots {
        assert BallotOk(s, t, v);
        BallotStable(s, s', t, v);
      }
    }
    forall m | m in s'.net ensures MsgOk(s', m) {
      if m in s.net {
        assert MsgOk(s, m);
        MsgStable(s, s', m);
      }
    }
    forall k | k in s'.tally ensures TallyOk(s', k) {
      if k in s.tally { assert TallyOk(s, k) && NodeGrows(s, s', k.1); }
    }
    forall k | k in s'.leaders ensures LeaderOk(s', k) {
      if k in s.leaders { assert LeaderOk(s, k) && WinGrows(s, s', k.0); }
    }
  }

  // Steps that change one replica and send at most one message

  predicate LocalStep(s: Cluster, s': Cluster, n: int, sent: set<Msg>) {
    n in s.nodes && n in s'.nodes && s' == SetNode(s, n, s'.nodes[n]).(net := s.net + sent)
  }

  lemma LocalGrows(s: Cluster, s': Cluster, n: int, sent: set<Msg>)
    requires LocalStep(s, s', n, sent) && NodeGrows(s, s', n)
    ensures Grows(s, s')
  {
  }

  lemma LocalNew(s: Cluster, s': Cluster, n: int, sent: set<Msg>)
    requires LocalStep(s, s', n, sent) && NodeOk(s', n) && forall m :: m in sent ==> MsgOk(s', m)
    ensures NewOk(s, s', n)
  {
  }

  lemma LocalKeeps(s: Cluster, s': Cluster, n: int, sent: set<Msg>)
    requires Inv(s) && LocalStep(s, s', n, sent) && Grows(s, s') && NodeOk(s', n)
    requires forall m :: m in sent ==> MsgOk(s', m)
    ensures Inv(s')
  {
    LocalNew(s, s', n, sent);
    Assemble(s, s', n);
  }

  /** Moving to a higher term, or stopping, or another log. */
  lemma StepDownKeeps(s: Cluster, n: int, y: Module)
    requires Inv(s) && n in s.nodes
    requires var x := s.nodes[n];
      || (exists term {:trigger BecomeFollower(x, term)} :: term > x.currentTerm && y == BecomeFollower(x, term))
      || y == x.(state := Stopped)
    ensures Inv(SetNode(s, n, y)) && Grows(s, SetNode(s, n, y))
  {
    var s' := SetNode(s, n, y);
    assert NodeOk(s, n);
    assert s.net + {} == s.net;
    LocalGrows(s, s', n, {});
    LocalKeeps(s, s', n, {});
  }

  lemma LogChangesKeeps(s: Cluster, n: int, log: seq<Entry>)
    requires Inv(s) && n in s.nodes
    ensures Inv(Next(s, LogChanges(n, log))) && Grows(s, Next(s, LogChanges(n, log)))
  {
    var s' := Next(s, LogChanges(n, log));
    assert NodeOk(s, n);
    assert s.net + {} == s.net;
    LocalGrows(s, s', n, {});
    if s.nodes[n].state == Candidate {
      forall v | v in Tally(s, TermOf(s, n), n) ensures Granted(s', TermOf(s, n), v, n) {
        assert Granted(s, TermOf(s, n), v, n);
      }
    }
    LocalKeeps(s, s', n, {});
  }

  lemma SendKeeps(s: Cluster, n: int, m: Msg)
    requires Inv(s) && n in s.nodes && MsgOk(s, m)
    ensures Inv(s.(net := s.net + {m})) && Grows(s, s.(net := s.net + {m}))
  {
    var s' := s.(net := s.net + {m});
    assert NodeOk(s, n);
    assert s.nodes[n := s.nodes[n]] == s.nodes;
    LocalGrows(s, s', n, {m});
    NodeStable(s, s', n);
    MsgStable(s, s', m);
    LocalKeeps(s, s', n, {m});
  }

  // A heartbeat

  /** Hearing from the leader of its own term demotes only a replica whose vote did not elect it. */
  lemma RecvAppendKeeps(s: Cluster, m: Msg)
    requires Inv(s) && Enabled(s, RecvAppend(m))
    ensures Inv(NextRecvAppend(s, m)) && Grows(s, NextRecvAppend(s, m))
  {
    var s' := NextRecvAppend(s, m);
    var v, t := m.to, m.term;
    var rsp := AppRsp(m.term, m.from, HandleAppend(s.nodes[v], t).1);
    assert MsgOk(s, m) && NodeOk(s, v) && LeaderOk(s, (t, m.from)) && WinOk(s, t);
    if TermOf(s, v) == t && v in s.wins[t].quorum { assert VoterOk(s, t, v); }
    assert NodeGrows(s, s', v);
    LocalGrows(s, s', v, {rsp});
    if s'.nodes[v] == s.nodes[v] { NodeStable(s, s', v); }
    LocalKeeps(s, s', v, {rsp});
  }

  // Starting an election

  lemma TimeoutKeeps(s: Cluster, n: int)
    requires Inv(s) && Enabled(s, Timeout(n))
    ensures Inv(NextTimeout(s, n)) && Grows(s, NextTimeout(s, n))
  {
    var s' := NextTimeout(s, n);
    var t := TermOf(s', n);
    assert (t, n) !in s.ballots by { assert (t, n) in s.ballots ==> BallotOk(s, t, n); }
    assert Tally(s, t, n) == {} by { assert (t, n) in s.tally ==> TallyOk(s, (t, n)); }
    assert NodeOk(s, n);
    TimeoutNew(s, s', n);
    Assemble(s, s', n);
  }

  lemma TimeoutNew(s: Cluster, s': Cluster, n: int)
    requires Enabled(s, Timeout(n)) && s' == NextTimeout(s, n) && NodeOk(s, n)
    requires (TermOf(s', n), n) !in s.ballots && Tally(s, TermOf(s', n), n) == {}
    ensures Grows(s, s') && NewOk(s, s', n)
  {
    assert BallotOk(s', TermOf(s', n), n);
  }

  // Voting

  /** What is known of a voter's earlier vote in its current term. */
  lemma EarlierVote(s: Cluster, v: int)
    requires Inv(s) && v in s.nodes && (TermOf(s, v), v) in s.ballots
    ensures var t := TermOf(s, v);
      && BallotOk(s, t, v) && s.ballots[(t, v)] >= 0
      && (t in s.wins && v in s.wins[t].quorum ==> VoterOk(s, t, v) && s.wins[t].leader >= 0)
  {
    var t := TermOf(s, v);
    assert BallotOk(s, t, v);
    assert NodeOk(s, s.ballots[(t, v)]);
    if t in s.wins && v in s.wins[t].quorum {
      assert WinOk(s, t) && VoterOk(s, t, v);
    }
  }

  lemma RecvVoteKeeps(s: Cluster, m: Msg)
    requires Inv(s) && Enabled(s, RecvVote(m))
    ensures Inv(NextRecvVote(s, m)) && Grows(s, NextRecvVote(s, m))
  {
    var s' := NextRecvVote(s, m);
    var v := m.to;
    assert MsgOk(s, m) && NodeOk(s, v) && NodeOk(s, m.args.candidateId);
    if (TermOf(s, v), v) in s.ballots { EarlierVote(s, v); }
    if s.nodes[v].state == Leader { LeaderVoted(s, v); }
    assert (m.args.term, v) in s.ballots ==> BallotOk(s, m.args.term, v);
    RecvVoteGrows(s, s', m);
    if s'.nodes[v] == s.nodes[v] { NodeStable(s, s', v); }
    RecvVoteReply(s, s', m);
    if (m.args.term, v) in s'.ballots && (m.args.term, v) !in s.ballots {
      if m.args.term in s.wins { UnballotedOutside(s, m.args.term, v); }
      RecvVoteBallot(s, s', m);
    }
    RecvVoteNew(s, s', m);
    Assemble(s, s', v);
  }

  /** A leader still has the vote that it gave itself. */
  lemma LeaderVoted(s: Cluster, n: int)
    requires Inv(s) && n in s.nodes && s.nodes[n].state == Leader
    ensures s.nodes[n].votedFor == n && (TermOf(s, n), n) in s.ballots
  {
    var t := TermOf(s, n);
    assert NodeOk(s, n) && LeaderOk(s, (t, n)) && WinOk(s, t) && VoterOk(s, t, n);
  }

  lemma UnballotedOutside(s: Cluster, t: int, v: int)
    requires Inv(s) && t in s.wins && (t, v) !in s.ballots
    ensures v !in s.wins[t].quorum
  {
    assert WinOk(s, t);
    assert v in s.wins[t].quorum ==> VoterOk(s, t, v);
  }

  /** The facts about a voter that the lemmas below share. */
  ghost predicate Asked(s: Cluster, s': Cluster, m: Msg) {
    && Enabled(s, RecvVote(m)) && s' == NextRecvVote(s, m) && MsgOk(s, m) && NodeOk(s, m.to) && m.args.candidateId >= 0
    && var v, t := m.to, TermOf(s, m.to);
       && ((t, v) in s.ballots ==>
             && BallotOk(s, t, v) && s.ballots[(t, v)] >= 0
             && (t in s.wins && v in s.wins[t].quorum ==> VoterOk(s, t, v) && s.wins[t].leader >= 0))
       && (s.nodes[v].state == Leader ==> s.nodes[v].votedFor == v)
       && ((m.args.term, v) in s.ballots ==> m.args.term <= t)
  }

  lemma RecvVoteGrows(s: Cluster, s': Cluster, m: Msg)
    requires Asked(s, s', m)
    ensures Grows(s, s')
    ensures s'.nodes[m.to] != s.nodes[m.to] ==> s'.nodes[m.to].state == Follower && NodeOk(s', m.to)
  {
  }

  lemma RecvVoteReply(s: Cluster, s': Cluster, m: Msg)
    requires Asked(s, s', m)
    ensures MsgOk(s', VoteRsp(m.args.term, m.to, m.args.candidateId, HandleRequestVote(s.nodes[m.to], m.args).1))
  {
  }

  lemma RecvVoteBallot(s: Cluster, s': Cluster, m: Msg)
    requires Asked(s, s', m)
    requires (m.args.term, m.to) in s'.ballots && (m.args.term, m.to) !in s.ballots
    ensures BallotOk(s', m.args.term, m.to)
  {
  }

  lemma RecvVoteNew(s: Cluster, s': Cluster, m: Msg)
    requires Enabled(s, RecvVote(m)) && s' == NextRecvVote(s, m) && NodeOk(s', m.to)
    requires MsgOk(s', VoteRsp(m.args.term, m.to, m.args.candidateId, HandleRequestVote(s.nodes[m.to], m.args).1))
    requires (m.args.term, m.to) in s'.ballots && (m.args.term, m.to) !in s.ballots ==> BallotOk(s', m.args.term, m.to)
    ensures NewOk(s, s', m.to)
  {
  }

  // Counting votes

  predicate Counted(s: Cluster, m: Msg) {
    && Enabled(s, RecvVoteRsp(m)) && R2(s, RecvVoteRsp(m))
    && s.nodes[m.to].state == Candidate && m.reply.term == m.saved && m.reply.voteGranted
  }

  lemma RecvVoteRspKeeps(s: Cluster, m: Msg)
    requires Inv(s) && Step(s, RecvVoteRsp(m))
    ensures Inv(NextRecvVoteRsp(s, m)) && Grows(s, NextRecvVoteRsp(s, m))
  {
    var x := s.nodes[m.to];
    if x.state == Candidate && m.reply.term > m.saved {
      StepDownKeeps(s, m.to, BecomeFollower(x, m.reply.term));
    } else if Counted(s, m) {
      CountedKeeps(s, m);
    } else {
      assert NextRecvVoteRsp(s, m).nodes == s.nodes;
    }
  }

  /** Everyone counted, the new voter included, granted this candidate its vote. */
  lemma VotersGranted(s: Cluster, m: Msg)
    requires Inv(s) && Counted(s, m)
    ensures var voters := Tally(s, m.saved, m.to) + {m.from};
      && m.saved == TermOf(s, m.to) && voters <= s.members - {m.to} && |voters| == |Tally(s, m.saved, m.to)| + 1
      && (forall v {:trigger Granted(s, m.saved, v, m.to)} :: v in voters + {m.to} ==> Granted(s, m.saved, v, m.to))
  {
    assert MsgOk(s, m) && NodeOk(s, m.to);
  }

  lemma CountedKeeps(s: Cluster, m: Msg)
    requires Inv(s) && Counted(s, m)
    ensures Inv(NextRecvVoteRsp(s, m)) && Grows(s, NextRecvVoteRsp(s, m))
  {
    var s', n, t := NextRecvVoteRsp(s, m), m.to, m.saved;
    assert NodeOk(s, n);
    VotersGranted(s, m);
    if s'.nodes[n].state == Leader {
      WinnersQuorum(s, m);
      FirstWinner(s, t, n, Tally(s, t, n) + {m.from} + {n});
      WonGrows(s, s', m);
      WonTerm(s, s', m);
      WonNew(s, s', m);
    } else {
      CountedNew(s, s', m);
    }
    Assemble(s, s', n);
  }

  lemma WinnersQuorum(s: Cluster, m: Msg)
    requires Counted(s, m) && NodeOk(s, m.to) && m.to in s.members && m.saved == TermOf(s, m.to)
    requires var voters := Tally(s, m.saved, m.to) + {m.from};
      voters <= s.members - {m.to} && |voters| == |Tally(s, m.saved, m.to)| + 1
    requires NextRecvVoteRsp(s, m).nodes[m.to].state == Leader
    ensures Majority(s.members, Tally(s, m.saved, m.to) + {m.from} + {m.to})
  {
    var voters := Tally(s, m.saved, m.to) + {m.from};
    assert |voters + {m.to}| == |voters| + 1;
    assert |s.members - {m.to}| == |s.members| - 1;
  }

  /** A candidate with a majority stands in a term without a winner: a voter of both majorities
      voted first for both, so they are the same, but a winner is no candidate. */
  lemma FirstWinner(s: Cluster, t: int, c: int, q: set<int>)
    requires Inv(s) && c in s.nodes && s.nodes[c].state == Candidate && TermOf(s, c) == t && Majority(s.members, q)
    requires forall v {:trigger Granted(s, t, v, c)} :: v in q ==> Granted(s, t, v, c)
    ensures t !in s.wins
  {
    if t in s.wins {
      assert WinOk(s, t);
      SameWinner(s, t, c, q);
      assert false;
    }
  }

  lemma SameWinner(s: Cluster, t: int, c: int, q: set<int>)
    requires t in s.wins && WinOk(s, t) && Majority(s.members, q)
    requires forall v {:trigger Granted(s, t, v, c)} :: v in q ==> Granted(s, t, v, c)
    ensures s.wins[t].leader == c && VoterOk(s, t, c)
  {
    var v := QuorumsMeet(s.members, s.wins[t].quorum, q);
    assert VoterOk(s, t, v) && Granted(s, t, v, c);
    assert VoterOk(s, t, s.wins[t].leader);
  }

  lemma WonGrows(s: Cluster, s': Cluster, m: Msg)
    requires Counted(s, m) && s' == NextRecvVoteRsp(s, m) && s'.nodes[m.to].state == Leader
    requires NodeOk(s, m.to) && m.saved == TermOf(s, m.to) && m.saved !in s.wins
    ensures Grows(s, s') && NodeOk(s', m.to)
  {
  }

  lemma WonNew(s: Cluster, s': Cluster, m: Msg)
    requires Counted(s, m) && s' == NextRecvVoteRsp(s, m) && s'.nodes[m.to].state == Leader
    requires m.saved == TermOf(s, m.to) && m.saved !in s.wins && NodeOk(s', m.to) && WinOk(s', m.saved)
    ensures NewOk(s, s', m.to)
  {
    assert LeaderOk(s', (m.saved, m.to)) && TallyOk(s', (m.saved, m.to));
  }

  lemma WonTerm(s: Cluster, s': Cluster, m: Msg)
    requires Inv(s) && Counted(s, m) && s' == NextRecvVoteRsp(s, m) && s'.nodes[m.to].state == Leader
    requires m.saved == TermOf(s, m.to) && m.saved !in s.wins
    requires Majority(s.members, Tally(s, m.saved, m.to) + {m.from} + {m.to})
    requires forall v {:trigger Granted(s, m.saved, v, m.to)} ::
      v in Tally(s, m.saved, m.to) + {m.from} + {m.to} ==> Granted(s, m.saved, v, m.to)
    ensures WinOk(s', m.saved)
  {
    var n, t := m.to, m.saved;
    assert NodeOk(s, n);
    forall v | v in s'.wins[t].quorum ensures VoterOk(s', t, v) {
      assert Granted(s, t, v, n) && BallotOk(s, t, v);
    }
  }

  lemma CountedNew(s: Cluster, s': Cluster, m: Msg)
    requires Counted(s, m) && s' == NextRecvVoteRsp(s, m) && s'.nodes[m.to].state != Leader
    requires NodeOk(s, m.to) && m.saved == TermOf(s, m.to)
    requires var voters := Tally(s, m.saved, m.to) + {m.from};
      && voters <= s.members - {m.to}
      && (forall v {:trigger Granted(s, m.saved, v, m.to)} :: v in voters + {m.to} ==> Granted(s, m.saved, v, m.to))
    ensures Grows(s, s') && NewOk(s, s', m.to)
  {
    assert TallyOk(s', (m.saved, m.to));
    forall v | v in Tally(s', m.saved, m.to) ensures Granted(s', m.saved, v, m.to) {
      assert Granted(s, m.saved, v, m.to);
    }
  }

  // Runs

  lemma StepKeeps(s: Cluster, a: Action)
    requires Inv(s) && Step(s, a)
    ensures Inv(Next(s, a)) && Grows(s, Next(s, a))
  {
    match a
    case Timeout(n) => TimeoutKeeps(s, n);
    case SendVote(n, p, saved) =>
      assert NodeOk(s, n) && BallotOk(s, saved, n);
      SendKeeps(s, n, VoteReq(p, VoteRequest(s.nodes[n], saved)));
    case RecvVote(m) => RecvVoteKeeps(s, m);
    case RecvVoteRsp(m) => RecvVoteRspKeeps(s, m);
    case SendHeartbeat(n, p, saved) =>
      assert NodeOk(s, n);
      SendKeeps(s, n, AppReq(p, n, saved));
    case RecvAppend(m) => RecvAppendKeeps(s, m);
    case RecvAppendRsp(m) =>
      if m.term > m.saved {
        StepDownKeeps(s, m.to, BecomeFollower(s.nodes[m.to], m.term));
      } else {
        assert Next(s, a).nodes == s.nodes;
      }
    case LogChanges(n, log) => LogChangesKeeps(s, n, log);
    case Stop(n) => StepDownKeeps(s, n, s.nodes[n].(state := Stopped));
  }

  lemma InitInv(members: set<int>)
    requires GoodMembers(members)
    ensures Inv(Init(members))
  {
  }

  lemma {:induction false} RunKeeps(s: Cluster, run: seq<Action>)
    requires Inv(s) && Legal(s, run)
    ensures Inv(After(s, run))
    ensures s.leaders <= After(s, run).leaders
    decreases |run|
  {
    if run != [] {
      StepKeeps(s, run[0]);
      RunKeeps(Next(s, run[0]), run[1..]);
    }
  }

  /** At most one replica is ever leader in a term: none after `run`, and none after any number of
      further actions. */
  lemma GoElectionSafety(members: set<int>, run: seq<Action>, more: seq<Action>, a: int, b: int)
    requires GoodMembers(members) && Legal(Init(members), run) && Legal(After(Init(members), run), more)
    requires var s := After(Init(members), run);
      var u := After(s, more);
      && a in s.nodes && b in u.nodes && s.nodes[a].state == Leader && u.nodes[b].state == Leader
      && s.nodes[a].currentTerm == u.nodes[b].currentTerm
    ensures a == b
  {
    var s := After(Init(members), run);
    var u := After(s, more);
    InitInv(members);
    RunKeeps(Init(members), run);
    RunKeeps(s, more);
    assert NodeOk(s, a) && NodeOk(u, b);
    assert LeaderOk(u, (TermOf(s, a), a)) && LeaderOk(u, (TermOf(u, b), b));
  }
}
