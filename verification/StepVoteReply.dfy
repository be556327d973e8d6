/** Counting votes keeps the invariant, and a majority makes the first and only leader of its term. */
module StepVoteReply {
  import opened RaftTypes
  import opened RaftHandlers
  import opened RaftCluster
  import opened ClusterInvariant
  import opened ElectionBasics
  import opened ClusterGrowth

  /** Stepping down to a higher term, which every reply and request handler can do. */
  lemma StepDownKeeps(s: Cluster, n: int, term: int)
    requires Inv(s) && n in s.nodes && term > TermOf(s, n)
    ensures Inv(SetNode(s, n, BecomeFollower(s.nodes[n], term))) &&
      Grows(s, SetNode(s, n, BecomeFollower(s.nodes[n], term)))
  {
    var s' := SetNode(s, n, BecomeFollower(s.nodes[n], term));
    assert NodeOk(s, n);
    LocalGrows(s, n, s'.nodes[n]);
    NodeFrame(s, s', n);
    LocalKeeps(s, n, s'.nodes[n]);
  }

  lemma RecvVoteRspKeeps(s: Cluster, m: Msg)
    requires Inv(s) && Step(s, RecvVoteRsp(m))
    ensures Inv(Next(s, RecvVoteRsp(m))) && Grows(s, Next(s, RecvVoteRsp(m)))
  {
    var x := s.nodes[m.to];
    var node := HandleVoteReply(x, m.saved, m.voteRet);
    var s' := NextRecvVoteRsp(s, m);
    if x.role == Candidate && m.voteRet.term > m.saved {
      StepDownKeeps(s, m.to, m.voteRet.term);
    } else if x.role == Candidate && m.voteRet.term == m.saved && m.voteRet.voteGranted {
      if node.role == Leader {
        ElectedIs(s, m);
        ElectedKeeps(s, m);
      } else {
        CountedIs(s, m);
        CountedKeeps(s, m);
      }
    } else {
      assert s'.nodes == s.nodes;
    }
  }

  /** A counted grant: the replica stands in the term of the reply. */
  predicate Counted(s: Cluster, m: Msg) {
    && Enabled(s, RecvVoteRsp(m)) && R2(s, RecvVoteRsp(m))
    && s.nodes[m.to].role == Candidate && m.voteRet.term == m.saved && m.voteRet.voteGranted
  }

  /** The voters counted so far and the new one all granted this candidate their vote. */
  lemma VotersGranted(s: Cluster, m: Msg)
    requires Inv(s) && Counted(s, m)
    ensures m.saved == TermOf(s, m.to)
    ensures var voters := Tally(s, m.saved, m.to) + {m.from};
      && voters <= s.members - {m.to}
      && s.nodes[m.to].votesReceived + 1 == 1 + |voters|
      && (forall v {:trigger Granted(s, m.saved, v, m.to)} :: v in voters ==> Granted(s, m.saved, v, m.to))
  {
    assert MsgOk(s, m) && NodeOk(s, m.to);
  }

  // A vote short of a majority

  /** The state after a counted vote that does not decide. */
  function CountedState(s: Cluster, m: Msg): Cluster
    requires m.VoteRsp? && m.to in s.nodes
  {
    var x := s.nodes[m.to];
    SetNode(s, m.to, x.(votesReceived := x.votesReceived + 1)).(
      tally := s.tally[(m.saved, m.to) := Tally(s, m.saved, m.to) + {m.from}])
  }

  lemma CountedIs(s: Cluster, m: Msg)
    requires Counted(s, m) && HandleVoteReply(s.nodes[m.to], m.saved, m.voteRet).role != Leader
    ensures NextRecvVoteRsp(s, m) == CountedState(s, m)
  {
  }

  lemma CountedKeeps(s: Cluster, m: Msg)
    requires Inv(s) && Counted(s, m)
    ensures Inv(CountedState(s, m)) && Grows(s, CountedState(s, m))
  {
    var s', n := CountedState(s, m), m.to;
    assert NodeOk(s, n);
    VotersGranted(s, m);
    CountedGrows(s, s', m);
    NodeFrame(s, s', n);
    CountedNode(s, s', m);
    AcksUnchanged(s, s', n);
    CountedParts(s, s', m);
    Assemble(s, s', n);
  }

  lemma CountedGrows(s: Cluster, s': Cluster, m: Msg)
    requires m.VoteRsp? && m.to in s.nodes && s' == CountedState(s, m)
    ensures Grows(s, s')
  {
  }

  lemma CountedNode(s: Cluster, s': Cluster, m: Msg)
    requires m.VoteRsp? && m.to in s.nodes && s' == CountedState(s, m) && m.saved == TermOf(s, m.to)
    requires s.nodes[m.to].role == Candidate && CandidateOk(s, m.to) && NodeBasics(s', m.to) && NodeCommit(s', m.to)
    requires var voters := Tally(s, m.saved, m.to) + {m.from};
      && voters <= s.members - {m.to} && s.nodes[m.to].votesReceived + 1 == 1 + |voters|
      && (forall v {:trigger Granted(s, m.saved, v, m.to)} :: v in voters ==> Granted(s, m.saved, v, m.to))
    ensures NodeOk(s', m.to)
  {
    forall v | v in Tally(s', m.saved, m.to) ensures Granted(s', m.saved, v, m.to) {
      assert Granted(s, m.saved, v, m.to);
    }
    assert CandidateOk(s', m.to);
  }

  lemma CountedParts(s: Cluster, s': Cluster, m: Msg)
    requires m.VoteRsp? && m.to in s.nodes && s' == CountedState(s, m) && m.saved == TermOf(s, m.to)
    requires s.termLog.Keys == s.elections.Keys && LeadersRecorded(s) && NodeOk(s', m.to)
    requires forall t, v {:trigger AckCase(s, s', t, v)} :: (t, v) in s'.acked ==> AckCase(s, s', t, v)
    ensures NewPartsOk(s, s', m.to)
  {
    CountedPast(s, s', m);
  }

  lemma CountedPast(s: Cluster, s': Cluster, m: Msg)
    requires m.VoteRsp? && m.to in s.nodes && s' == CountedState(s, m) && m.saved == TermOf(s, m.to)
    requires s.termLog.Keys == s.elections.Keys && LeadersRecorded(s)
    ensures PastOk(s, s')
  {
    assert TallyOk(s', (m.saved, m.to));
  }

  // The deciding vote

  /** Two winners of one term are the same: a shared voter of both majorities voted once. */
  lemma SameLeader(s: Cluster, t: int, c: int, q: set<int>)
    requires t in s.elections && TermOk(s, t) && Majority(s.members, q)
    requires forall v {:trigger Granted(s, t, v, c)} :: v in q ==> Granted(s, t, v, c)
    ensures s.elections[t].leader == c
  {
    var v := QuorumsMeet(s.members, s.elections[t].quorum, q);
    assert QuorumVoteOk(s, t, v) && Granted(s, t, v, c);
  }

  /** A candidate with a majority stands in a term that has had no leader. */
  lemma FirstLeader(s: Cluster, t: int, c: int, q: set<int>)
    requires Inv(s) && c in s.nodes && s.nodes[c].role == Candidate && TermOf(s, c) == t
    requires Majority(s.members, q)
    requires forall v {:trigger Granted(s, t, v, c)} :: v in q ==> Granted(s, t, v, c)
    ensures t !in s.elections
  {
    if t in s.elections {
      assert TermOk(s, t);
      SameLeader(s, t, c, q);
      assert false;
    }
  }

  lemma ElectedKeeps(s: Cluster, m: Msg)
    requires Inv(s) && Counted(s, m) && (s.nodes[m.to].votesReceived + 1) * 2 > |s.nodes[m.to].config|
    ensures Inv(ElectedState(s, m)) && Grows(s, ElectedState(s, m))
  {
    var s' := ElectedState(s, m);
    var n, t := m.to, m.saved;
    assert NodeOk(s, n);
    VotersGranted(s, m);
    var q := s'.elections[t].quorum;
    QuorumSize(s, s', m);
    FirstLeader(s, t, n, q);
    assert (t, n) in s.acked ==> AckOk(s, t, n);
    ElectedGrows(s, s', m);
    NodeFrame(s, s', n);
    ElectedTerm(s, s', m);
    ElectedAcks(s, s', m);
    ElectedOthers(s, s', m);
    ElectedParts(s, s', m);
    Assemble(s, s', n);
  }

  /** The state after the deciding vote. */
  ghost function ElectedState(s: Cluster, m: Msg): Cluster
    requires m.VoteRsp? && m.to in s.nodes
  {
    var x := s.nodes[m.to];
    var t, log, voters := x.currentTerm, Plain(x.log), Tally(s, m.saved, m.to) + {m.from};
    SetNode(s, m.to, BecomeLeader(x.(votesReceived := x.votesReceived + 1))).(
      tally := s.tally[(m.saved, m.to) := voters],
      leaders := s.leaders + {(t, m.to)},
      elections := s.elections[t := Election(m.to, voters + {m.to}, log)],
      termLog := s.termLog[t := log],
      acked := s.acked[(t, m.to) := |x.log|])
  }

  lemma ElectedIs(s: Cluster, m: Msg)
    requires Counted(s, m) && HandleVoteReply(s.nodes[m.to], m.saved, m.voteRet).role == Leader
    ensures NextRecvVoteRsp(s, m) == ElectedState(s, m)
    ensures (s.nodes[m.to].votesReceived + 1) * 2 > |s.nodes[m.to].config|
  {
  }

  /** The facts about the deciding vote that the lemmas below share. */
  ghost predicate Decided(s: Cluster, s': Cluster, m: Msg) {
    && m.VoteRsp? && m.to in s.nodes && s' == ElectedState(s, m) && s.nodes[m.to].role == Candidate
    && m.saved == TermOf(s, m.to)
    && m.saved !in s.elections && s.termLog.Keys == s.elections.Keys
    && (m.saved, m.to) !in s.acked
  }

  lemma QuorumSize(s: Cluster, s': Cluster, m: Msg)
    requires Counted(s, m) && s' == ElectedState(s, m)
    requires (s.nodes[m.to].votesReceived + 1) * 2 > |s.nodes[m.to].config|
    requires m.saved == TermOf(s, m.to) && NodeOk(s, m.to) && m.to in s.members
    requires var voters := Tally(s, m.saved, m.to) + {m.from};
      && voters <= s.members - {m.to}
      && s.nodes[m.to].votesReceived + 1 == 1 + |voters|
      && (forall v {:trigger Granted(s, m.saved, v, m.to)} :: v in voters ==> Granted(s, m.saved, v, m.to))
    ensures var q := s'.elections[m.saved].quorum;
      && Majority(s.members, q)
      && (forall v {:trigger Granted(s, m.saved, v, m.to)} :: v in q ==> Granted(s, m.saved, v, m.to))
  {
    var voters := Tally(s, m.saved, m.to) + {m.from};
    assert m.to !in voters;
    assert |voters + {m.to}| == |voters| + 1;
    assert Granted(s, m.saved, m.to, m.to);
  }

  lemma ElectedGrows(s: Cluster, s': Cluster, m: Msg)
    requires Decided(s, s', m)
    ensures Grows(s, s')
  {
  }

  lemma ElectedTerm(s: Cluster, s': Cluster, m: Msg)
    requires Inv(s) && Decided(s, s', m) && Grows(s, s')
    requires Majority(s.members, s'.elections[m.saved].quorum)
    requires forall v {:trigger Granted(s, m.saved, v, m.to)} :: v in s'.elections[m.saved].quorum ==>
      Granted(s, m.saved, v, m.to)
    ensures TermOk(s', m.saved)
  {
    var n, t := m.to, m.saved;
    var log := LogOf(s, n);
    assert NodeOk(s, n) && BallotOk(s, t, n);
    ValidLogStable(s, s', log);
    OlderTerms(s, log, t);
    ElectedVoters(s, s', m);
  }

  lemma ElectedVoters(s: Cluster, s': Cluster, m: Msg)
    requires Inv(s) && Decided(s, s', m)
    requires forall v {:trigger Granted(s, m.saved, v, m.to)} :: v in s'.elections[m.saved].quorum ==>
      Granted(s, m.saved, v, m.to)
    ensures forall v {:trigger QuorumVoteOk(s', m.saved, v)} :: v in s'.elections[m.saved].quorum ==>
      QuorumVoteOk(s', m.saved, v)
  {
    forall v | v in s'.elections[m.saved].quorum ensures QuorumVoteOk(s', m.saved, v) {
      assert Granted(s, m.saved, v, m.to) && BallotOk(s, m.saved, v);
    }
  }

  /** A valid log with no entry above term `t` has none of term `t` while `t` has no leader. */
  lemma OlderTerms(s: Cluster, log: seq<LogEntry>, t: int)
    requires ValidLog(s.termLog, log) && TermsUpTo(log, t) && t !in s.termLog
    ensures TermsUpTo(log, t - 1)
  {
    forall i | 0 <= i < |log| ensures log[i].term <= t - 1 {
      assert FromLeader(s.termLog, log, i);
    }
  }

  lemma ElectedAcks(s: Cluster, s': Cluster, m: Msg)
    requires Inv(s) && Decided(s, s', m)
    ensures forall t, v {:trigger AckCase(s, s', t, v)} :: (t, v) in s'.acked ==> AckCase(s, s', t, v)
  {
    forall t, v | (t, v) in s'.acked ensures AckCase(s, s', t, v) {
      if (t, v) == (m.saved, m.to) {
        assert AckOk(s', t, v);
      } else {
        assert AckOk(s, t, v);
      }
    }
  }

  lemma ElectedOthers(s: Cluster, s': Cluster, m: Msg)
    requires Inv(s) && Decided(s, s', m)
    ensures forall i {:trigger Untouched(s, s', i)} :: i in s.nodes && i in s'.nodes && i != m.to ==>
      Untouched(s, s', i)
  {
    forall i | i in s.nodes && i in s'.nodes && i != m.to ensures Untouched(s, s', i) {
      assert NodeOk(s, i);
    }
  }

  lemma ElectedParts(s: Cluster, s': Cluster, m: Msg)
    requires Decided(s, s', m) && LeadersRecorded(s)
    requires NodeBasics(s', m.to) && NodeCommit(s', m.to) && TermOk(s', m.saved)
    requires forall t, v {:trigger AckCase(s, s', t, v)} :: (t, v) in s'.acked ==> AckCase(s, s', t, v)
    requires forall i {:trigger Untouched(s, s', i)} :: i in s.nodes && i in s'.nodes && i != m.to ==>
      Untouched(s, s', i)
    ensures NewPartsOk(s, s', m.to)
  {
    NewLeader(s, s', m);
    ElectedPast(s, s', m);
  }

  lemma ElectedPast(s: Cluster, s': Cluster, m: Msg)
    requires Decided(s, s', m) && LeadersRecorded(s) && TermOk(s', m.saved)
    ensures PastOk(s, s')
  {
    assert TallyOk(s', (m.saved, m.to));
  }

  lemma NewLeader(s: Cluster, s': Cluster, m: Msg)
    requires Decided(s, s', m) && NodeBasics(s', m.to) && NodeCommit(s', m.to)
    ensures NodeOk(s', m.to)
  {
    assert LeaderOk(s', m.to);
  }
}
