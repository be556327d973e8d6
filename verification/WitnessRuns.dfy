/** The run hypotheses are needed: short runs of three replicas that break a safety theorem as
    soon as one of R1 to R4 is dropped and all the others are kept. */
module WitnessRuns {
  import opened RaftTypes
  import opened RaftHandlers
  import opened RaftCluster

  const THREE: set<int> := {0, 1, 2}

  /** The replica's log is empty and its membership is that of the three. */
  predicate Plainly(s: Cluster, n: int) {
    n in s.nodes && s.nodes[n].id == n && s.nodes[n].log == [] && s.nodes[n].peers == THREE - {n} &&
      s.nodes[n].config == THREE
  }

  /** An action allowed when hypothesis number `dropped` is not assumed. */
  predicate StepWithout(dropped: int, s: Cluster, a: Action) {
    && Enabled(s, a)
    && (dropped != 1 ==> R1(s, a)) && (dropped != 2 ==> R2(s, a)) && (dropped != 3 ==> R3(s, a))
    && (dropped != 4 ==> R4(s, a))
  }

  /** `run` leads from `s` to `end`, through the states of some trace. */
  ghost predicate Reaches(dropped: int, s: Cluster, run: seq<Action>, end: Cluster) {
    exists trace :: IsTrace(dropped, s, run, trace) && trace[|run|] == end
  }

  ghost predicate IsTrace(dropped: int, s: Cluster, run: seq<Action>, trace: seq<Cluster>) {
    && |trace| == |run| + 1 && trace[0] == s
    && (forall i {:trigger StepAt(dropped, run, trace, i)} :: 0 <= i < |run| ==> StepAt(dropped, run, trace, i))
  }

  ghost predicate StepAt(dropped: int, run: seq<Action>, trace: seq<Cluster>, i: nat)
    requires i < |run| && |trace| == |run| + 1
  {
    StepWithout(dropped, trace[i], run[i]) && trace[i + 1] == Next(trace[i], run[i])
  }

  lemma Begin(dropped: int, s: Cluster)
    ensures Reaches(dropped, s, [], s)
  {
    assert IsTrace(dropped, s, [], [s]);
  }

  lemma Extend(dropped: int, s: Cluster, run: seq<Action>, mid: Cluster, a: Action)
    requires Reaches(dropped, s, run, mid) && StepWithout(dropped, mid, a)
    ensures Reaches(dropped, s, run + [a], Next(mid, a))
  {
    var trace :| IsTrace(dropped, s, run, trace) && trace[|run|] == mid;
    var run', trace' := run + [a], trace + [Next(mid, a)];
    forall i | 0 <= i < |run'| ensures StepAt(dropped, run', trace', i) {
      if i < |run| { assert StepAt(dropped, run, trace, i); }
    }
    assert IsTrace(dropped, s, run', trace');
  }

  /** One vote round between two replicas with empty logs: request, grant, and the state after it. */
  lemma VoteRound(dropped: int, run: seq<Action>, s: Cluster, c: int, v: int) returns (run': seq<Action>, s': Cluster)
    requires Reaches(dropped, Init(THREE), run, s)
    requires s.nodes.Keys == THREE && c in THREE && v in THREE && c != v
    requires s.nodes[c].id == c && s.nodes[c].log == [] && s.nodes[v].log == []
    requires s.nodes[c].peers == THREE - {c} && s.nodes[v].peers == THREE - {v}
    requires (s.nodes[c].currentTerm, c) in s.ballots && s.ballots[(s.nodes[c].currentTerm, c)].candidate == c
    requires s.nodes[c].currentTerm > s.nodes[v].currentTerm ||
             (s.nodes[c].currentTerm == s.nodes[v].currentTerm && s.nodes[v].votedFor == -1)
    requires dropped != 3 ==> (s.nodes[c].currentTerm, v) !in s.leaders
    ensures Reaches(dropped, Init(THREE), run', s')
    ensures var t := s.nodes[c].currentTerm;
      var y := if t > s.nodes[v].currentTerm then BecomeFollower(s.nodes[v], t) else s.nodes[v];
      && s'.nodes == s.nodes[v := y.(votedFor := c)]
      && s.net <= s'.net && VoteRsp(t, v, c, RequestVoteRet(t, true)) in s'.net
      && s'.tally == s.tally && s'.leaders == s.leaders
      && (forall k :: k in s.ballots ==> k in s'.ballots && s'.ballots[k] == s.ballots[k])
  {
    var t := s.nodes[c].currentTerm;
    var m := VoteReq(v, RequestVoteParams(c, t, -1, -1));
    var mid := s.(net := s.net + {m});
    Extend(dropped, Init(THREE), run, s, SendVote(c, v, t));
    run', s' := GrantRound(dropped, run + [SendVote(c, v, t)], mid, m);
  }

  lemma GrantRound(dropped: int, run: seq<Action>, s: Cluster, m: Msg) returns (run': seq<Action>, s': Cluster)
    requires Reaches(dropped, Init(THREE), run, s)
    requires Enabled(s, RecvVote(m)) && m.vote.candidateId in s.nodes[m.to].peers && s.nodes[m.to].log == []
    requires m.vote.lastLogIndex == -1 && m.vote.lastLogTerm == -1
    requires m.vote.term > s.nodes[m.to].currentTerm ||
             (m.vote.term == s.nodes[m.to].currentTerm && s.nodes[m.to].votedFor == -1)
    requires dropped != 3 ==> (m.vote.term, m.to) !in s.leaders
    ensures Reaches(dropped, Init(THREE), run', s')
    ensures var t, x := m.vote.term, s.nodes[m.to];
      var y := if t > x.currentTerm then BecomeFollower(x, t) else x;
      && s'.nodes == s.nodes[m.to := y.(votedFor := m.vote.candidateId)]
      && s'.net == s.net + {VoteRsp(t, m.to, m.vote.candidateId, RequestVoteRet(t, true))}
      && s'.tally == s.tally && s'.leaders == s.leaders
      && (forall k :: k in s.ballots ==> k in s'.ballots && s'.ballots[k] == s.ballots[k])
  {
    Extend(dropped, Init(THREE), run, s, RecvVote(m));
    GrantStep(s, m);
    run', s' := run + [RecvVote(m)], NextRecvVote(s, m);
  }

  lemma GrantStep(s: Cluster, m: Msg)
    requires Enabled(s, RecvVote(m)) && m.vote.candidateId in s.nodes[m.to].peers && s.nodes[m.to].log == []
    requires m.vote.lastLogIndex == -1 && m.vote.lastLogTerm == -1
    requires m.vote.term > s.nodes[m.to].currentTerm ||
             (m.vote.term == s.nodes[m.to].currentTerm && s.nodes[m.to].votedFor == -1)
    ensures var s' := NextRecvVote(s, m);
      var t, x := m.vote.term, s.nodes[m.to];
      var y := if t > x.currentTerm then BecomeFollower(x, t) else x;
      && s'.nodes == s.nodes[m.to := y.(votedFor := m.vote.candidateId)]
      && s'.net == s.net + {VoteRsp(t, m.to, m.vote.candidateId, RequestVoteRet(t, true))}
      && (forall k :: k in s.ballots ==> k in s'.ballots && s'.ballots[k] == s.ballots[k])
  {
  }

  /** A follower with an empty log times out. */
  lemma TimeoutRound(dropped: int, run: seq<Action>, s: Cluster, n: int) returns (run': seq<Action>, s': Cluster)
    requires Reaches(dropped, Init(THREE), run, s) && n in s.nodes && s.nodes[n].role == Follower && s.nodes[n].id == n
    ensures Reaches(dropped, Init(THREE), run', s')
    ensures s'.nodes == s.nodes[n := StartElection(s.nodes[n])] && s'.net == s.net && s'.tally == s.tally &&
      s'.leaders == s.leaders
    ensures var k := (s.nodes[n].currentTerm + 1, n); k in s'.ballots && s'.ballots[k].candidate == n
    ensures forall k :: k in s.ballots && k != (s.nodes[n].currentTerm + 1, n) ==>
      k in s'.ballots && s'.ballots[k] == s.ballots[k]
  {
    Extend(dropped, Init(THREE), run, s, Timeout(n));
    TimeoutStep(s, n);
    run', s' := run + [Timeout(n)], NextTimeout(s, n);
  }

  lemma TimeoutStep(s: Cluster, n: int)
    requires Enabled(s, Timeout(n)) && s.nodes[n].id == n
    ensures var s', k := NextTimeout(s, n), (s.nodes[n].currentTerm + 1, n);
      && s'.nodes == s.nodes[n := StartElection(s.nodes[n])] && s'.net == s.net && s'.tally == s.tally &&
        s'.leaders == s.leaders
      && k in s'.ballots && s'.ballots[k].candidate == n
      && (forall j :: j in s.ballots && j != k ==> j in s'.ballots && s'.ballots[j] == s.ballots[j])
  {
  }

  /** The second vote of three makes a candidate leader. */
  lemma WinRound(dropped: int, run: seq<Action>, s: Cluster, saved: int, c: int, v: int)
      returns (run': seq<Action>, s': Cluster)
    requires Reaches(dropped, Init(THREE), run, s) && c in s.nodes
    requires VoteRsp(saved, v, c, RequestVoteRet(saved, true)) in s.net && (saved, c) !in s.tally
    requires s.nodes[c].role == Candidate && s.nodes[c].votesReceived == 1 && s.nodes[c].config == THREE
    requires dropped != 2 ==> saved == s.nodes[c].currentTerm
    ensures Reaches(dropped, Init(THREE), run', s')
    ensures s'.nodes == s.nodes[c := BecomeLeader(s.nodes[c].(votesReceived := 2))]
    ensures s'.net == s.net && s'.ballots == s.ballots
    ensures s'.leaders == s.leaders + {(s.nodes[c].currentTerm, c)}
    ensures forall k :: k in s'.tally ==> k in s.tally || k == (saved, c)
  {
    var m := VoteRsp(saved, v, c, RequestVoteRet(saved, true));
    Extend(dropped, Init(THREE), run, s, RecvVoteRsp(m));
    WinStep(s, m);
    run', s' := run + [RecvVoteRsp(m)], NextRecvVoteRsp(s, m);
  }

  lemma WinStep(s: Cluster, m: Msg)
    requires Enabled(s, RecvVoteRsp(m)) && m.voteRet == RequestVoteRet(m.saved, true)
    requires s.nodes[m.to].role == Candidate && s.nodes[m.to].votesReceived == 1 && s.nodes[m.to].config == THREE
    ensures var s', x := NextRecvVoteRsp(s, m), s.nodes[m.to];
      && s'.nodes == s.nodes[m.to := BecomeLeader(x.(votesReceived := 2))]
      && s'.net == s.net && s'.ballots == s.ballots && s'.leaders == s.leaders + {(x.currentTerm, m.to)}
      && (forall k :: k in s'.tally ==> k in s.tally || k == (m.saved, m.to))
  {
    assert |THREE| == 3;
  }

  /** Replica 0 is elected in term 1 with the vote of replica `v`. */
  lemma FirstElection(dropped: int, v: int) returns (run: seq<Action>, s: Cluster)
    requires v in {1, 2}
    ensures Reaches(dropped, Init(THREE), run, s)
    ensures s.nodes.Keys == THREE && s.leaders == {(1, 0)}
    ensures s.nodes[0].role == Leader && s.nodes[0].currentTerm == 1 && s.nodes[0].votedFor == -1
    ensures s.nodes[v].role == Follower && s.nodes[v].currentTerm == 1 && s.nodes[v].votedFor == 0
    ensures s.nodes[3 - v] == InitNode(3 - v, THREE)
    ensures Plainly(s, 0) && Plainly(s, 1) && Plainly(s, 2)
    ensures forall k :: k in s.tally ==> k == (1, 0)
  {
    run, s := [], Init(THREE);
    Begin(dropped, s);
    run, s := TimeoutRound(dropped, run, s, 0);
    run, s := VoteRound(dropped, run, s, 0, v);
    run, s := WinRound(dropped, run, s, 1, 0, v);
  }

  /** Without R3: a leader has cleared its vote, so it grants a rival of its own term, and the
      term has two leaders. */
  lemma TwoLeadersWithoutR3() returns (run: seq<Action>, s: Cluster)
    ensures Reaches(3, Init(THREE), run, s)
    ensures 0 in s.nodes && 2 in s.nodes && s.nodes[0].role == Leader && s.nodes[2].role == Leader
    ensures s.nodes[0].currentTerm == s.nodes[2].currentTerm
  {
    run, s := FirstElection(3, 1);
    run, s := TimeoutRound(3, run, s, 2);
    run, s := VoteRound(3, run, s, 2, 0);
    run, s := WinRound(3, run, s, 1, 2, 0);
  }

  /** Without R1: a leader deposed between reading its role and appending writes an entry of the
      new term, and two logs differ at an index where their terms agree. */
  lemma LogsDifferWithoutR1() returns (run: seq<Action>, s: Cluster)
    ensures Reaches(1, Init(THREE), run, s)
    ensures 0 in s.nodes && 2 in s.nodes && |s.nodes[0].log| == 1 && |s.nodes[2].log| == 1
    ensures s.nodes[0].log[0].term == s.nodes[2].log[0].term
    ensures Plain(s.nodes[0].log) != Plain(s.nodes[2].log)
  {
    run, s := FirstElection(1, 2);
    run, s := TimeoutRound(1, run, s, 2);
    run, s := VoteRound(1, run, s, 2, 0);
    run, s := WinRound(1, run, s, 2, 2, 0);
    run, s := AppendRound(1, run, s, 0, RaftOp(Put(1, 1), None));
    run, s := AppendRound(1, run, s, 2, RaftOp(Put(2, 2), None));
    assert Plain(s.nodes[0].log)[0] != Plain(s.nodes[2].log)[0];
  }

  lemma AppendRound(dropped: int, run: seq<Action>, s: Cluster, n: int, op: RaftOp)
      returns (run': seq<Action>, s': Cluster)
    requires Reaches(dropped, Init(THREE), run, s) && n in s.nodes && op.IsData()
    requires dropped != 1 ==> s.nodes[n].role == Leader
    ensures Reaches(dropped, Init(THREE), run', s')
    ensures s'.nodes == s.nodes[n := s.nodes[n].(log := s.nodes[n].log + [LogEntry(s.nodes[n].currentTerm, op)])]
  {
    var x := s.nodes[n];
    var es := Stamp(x.currentTerm, [op]);
    assert es == [LogEntry(x.currentTerm, op)] && es[1..] == [];
    assert AppendAll(x, es) == AppendAll(AppendOne(x, es[0]), es[1..]) == AppendOne(x, es[0]);
    Extend(dropped, Init(THREE), run, s, Append(n, [op]));
    run', s' := run + [Append(n, [op])], Next(s, Append(n, [op]));
  }

  /** Without R2: a vote granted in term 1 reaches the same replica while it stands in term 3, is
      counted there, and term 3 has two leaders. */
  lemma TwoLeadersWithoutR2() returns (run: seq<Action>, s: Cluster)
    ensures Reaches(2, Init(THREE), run, s)
    ensures 0 in s.nodes && 1 in s.nodes && s.nodes[0].role == Leader && s.nodes[1].role == Leader
    ensures s.nodes[0].currentTerm == s.nodes[1].currentTerm
  {
    run, s := StaleWinner();
    run, s := TimeoutRound(2, run, s, 1);
    run, s := VoteRound(2, run, s, 1, 2);
    run, s := WinRound(2, run, s, 3, 1, 2);
  }

  /** Replica 0 leads term 3 by its old grant, and replica 1 has just joined term 2. */
  lemma StaleWinner() returns (run: seq<Action>, s: Cluster)
    ensures Reaches(2, Init(THREE), run, s)
    ensures s.nodes.Keys == THREE && s.nodes[0].role == Leader && s.nodes[0].currentTerm == 3
    ensures s.nodes[1].role == Follower && s.nodes[1].currentTerm == 2 && s.nodes[2].currentTerm == 2
    ensures Plainly(s, 1) && Plainly(s, 2) && s.leaders == {(3, 0)}
    ensures forall k :: k in s.tally ==> k == (1, 0)
  {
    run, s := StaleCandidate();
    run, s := WinRound(2, run, s, 1, 0, 2);
    run, s := VoteRound(2, run, s, 2, 1);
  }

  /** Replica 0 stands in term 3 while a grant it got in term 1 is still on its way. */
  lemma StaleCandidate() returns (run: seq<Action>, s: Cluster)
    ensures Reaches(2, Init(THREE), run, s)
    ensures s.nodes.Keys == THREE && s.leaders == {} && s.tally == map[]
    ensures VoteRsp(1, 2, 0, RequestVoteRet(1, true)) in s.net
    ensures s.nodes[0].role == Candidate && s.nodes[0].currentTerm == 3 && s.nodes[0].votesReceived == 1
    ensures s.nodes[1] == InitNode(1, THREE) && s.nodes[2].role == Candidate && s.nodes[2].currentTerm == 2
    ensures (2, 2) in s.ballots && s.ballots[(2, 2)].candidate == 2
    ensures Plainly(s, 0) && Plainly(s, 1) && Plainly(s, 2)
  {
    var r, u := GrantThenRival();
    assert Plainly(u, 0) && Plainly(u, 1) && Plainly(u, 2);
    run, s := DeposedAndBack(r, u);
  }

  /** Replica 2 grants replica 0 its vote in term 1 and then stands itself in term 2. */
  lemma GrantThenRival() returns (run: seq<Action>, s: Cluster)
    ensures Reaches(2, Init(THREE), run, s)
    ensures s.nodes.Keys == THREE && s.leaders == {} && s.tally == map[]
    ensures VoteRsp(1, 2, 0, RequestVoteRet(1, true)) in s.net
    ensures s.nodes[0] == StartElection(InitNode(0, THREE)) && s.nodes[1] == InitNode(1, THREE)
    ensures s.nodes[2] == StartElection(BecomeFollower(InitNode(2, THREE), 1))
    ensures (2, 2) in s.ballots && s.ballots[(2, 2)].candidate == 2
  {
    run, s := [], Init(THREE);
    Begin(2, s);
    run, s := TimeoutRound(2, run, s, 0);
    run, s := VoteRound(2, run, s, 0, 2);
    run, s := TimeoutRound(2, run, s, 2);
  }

  lemma DeposedAndBack(run: seq<Action>, s: Cluster) returns (run': seq<Action>, s': Cluster)
    requires Reaches(2, Init(THREE), run, s) && s.nodes.Keys == THREE
    requires Plainly(s, 0) && Plainly(s, 1) && Plainly(s, 2)
    requires s.nodes[0].currentTerm == 1 && s.nodes[2].currentTerm == 2 && (2, 0) !in s.leaders
    requires (2, 2) in s.ballots && s.ballots[(2, 2)].candidate == 2
    ensures Reaches(2, Init(THREE), run', s')
    ensures s'.nodes == s.nodes[0 := StartElection(BecomeFollower(s.nodes[0], 2))]
    ensures s'.leaders == s.leaders && s'.tally == s.tally && s.net <= s'.net
    ensures (2, 2) in s'.ballots && s'.ballots[(2, 2)].candidate == 2
  {
    run', s' := VoteRound(2, run, s, 2, 0);
    run', s' := TimeoutRound(2, run', s', 0);
  }

  // A crash between the two stores of a persist

  lemma CrashRound(dropped: int, run: seq<Action>, s: Cluster, n: int) returns (run': seq<Action>, s': Cluster)
    requires Reaches(dropped, Init(THREE), run, s) && n in s.nodes
    ensures Reaches(dropped, Init(THREE), run', s')
    ensures s' == s.(nodes := s.nodes[n := Restart(s.nodes[n])])
  {
    Extend(dropped, Init(THREE), run, s, Crash(n));
    run', s' := run + [Crash(n)], NextCrash(s, n);
  }

  /** A vote request of a higher term reaches a replica, which crashes between the two stores. */
  lemma HalfStoredRound(run: seq<Action>, s: Cluster, c: int, v: int) returns (run': seq<Action>, s': Cluster)
    requires Reaches(4, Init(THREE), run, s) && c in s.nodes && v in s.nodes && s.nodes[c].id == c
    requires v in s.nodes[c].peers && c in s.nodes[v].peers
    requires var t := s.nodes[c].currentTerm;
      (t, c) in s.ballots && s.ballots[(t, c)].candidate == c && t > s.nodes[v].currentTerm
    ensures Reaches(4, Init(THREE), run', s')
    ensures s'.nodes == s.nodes[v := HalfStoredRestart(s.nodes[v])]
    ensures s'.ballots == s.ballots && s'.tally == s.tally && s'.leaders == s.leaders
  {
    var t := s.nodes[c].currentTerm;
    var m := VoteReq(v, VoteRequest(s.nodes[c], t));
    var mid := NextSendVote(s, c, v, t);
    Extend(4, Init(THREE), run, s, SendVote(c, v, t));
    var r := run + [SendVote(c, v, t)];
    Extend(4, Init(THREE), r, mid, CrashInPersist(m));
    run', s' := r + [CrashInPersist(m)], SetNode(mid, v, HalfStoredRestart(mid.nodes[v]));
  }

  /** Without R4's crash clause: replica 1 elects replica 0 in term 1, crashes between the two stores on
      its way to term 2, is back in term 1 without its vote, and elects replica 2 in term 1 too. */
  lemma TwoLeadersWithoutR4() returns (run: seq<Action>, s: Cluster)
    ensures Reaches(4, Init(THREE), run, s)
    ensures (1, 0) in s.leaders && (1, 2) in s.leaders
    ensures 2 in s.nodes && s.nodes[2].role == Leader && s.nodes[2].currentTerm == 1
  {
    run, s := ForgottenVote();
    run, s := VoteRound(4, run, s, 2, 1);
    run, s := WinRound(4, run, s, 1, 2, 1);
  }

  /** Replica 0 has led term 1 with the vote of replica 1, which has forgotten it, while replica 2 still
      stands in that term. */
  lemma ForgottenVote() returns (run: seq<Action>, s: Cluster)
    ensures Reaches(4, Init(THREE), run, s) && s.nodes.Keys == THREE
    ensures s.leaders == {(1, 0)} && (forall k :: k in s.tally ==> k == (1, 0))
    ensures Plainly(s, 1) && Plainly(s, 2)
    ensures s.nodes[1].currentTerm == 1 && s.nodes[1].votedFor == -1
    ensures s.nodes[2].role == Candidate && s.nodes[2].currentTerm == 1 && s.nodes[2].votesReceived == 1
    ensures (1, 2) in s.ballots && s.ballots[(1, 2)].candidate == 2
  {
    run, s := FirstElection(4, 1);
    run, s := TimeoutRound(4, run, s, 2);
    run, s := CrashRound(4, run, s, 0);
    assert s.nodes[0].log == [];
    run, s := TimeoutRound(4, run, s, 0);
    run, s := HalfStoredRound(run, s, 0, 1);
    assert s.nodes[1].log == [];
  }
}
