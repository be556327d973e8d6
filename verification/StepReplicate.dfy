/** The replication actions of a leader keep the invariant, and so does a crash. */
module StepReplicate {
  import opened RaftTypes
  import opened RaftHandlers
  import opened RaftCluster
  import opened ClusterInvariant
  import opened ElectionBasics
  import opened ClusterGrowth
  import opened HandlerFacts
  import StepElection
  import StepVoteReply

  // Appending

  lemma AppendKeeps(s: Cluster, n: int, ops: seq<RaftOp>)
    requires Inv(s) && Step(s, Append(n, ops))
    ensures Inv(Next(s, Append(n, ops))) && Grows(s, Next(s, Append(n, ops)))
  {
    var s' := NextAppend(s, n, ops);
    var x := s.nodes[n];
    var es := Stamp(x.currentTerm, ops);
    AppendAllData(x, es);
    PlainConcat(x.log, es);
    assert NodeOk(s, n);
    AppendGrows(s, s', n, ops);
    AppendNode(s, s', n, ops);
    AppendLeader(s, s', n, ops);
    AppendBasics(s, s', n, ops);
    AppendAcks(s, s', n, ops);
    AppendOthers(s, s', n, ops);
    AppendParts(s, s', n, ops);
    Assemble(s, s', n);
  }

  predicate Appended(s: Cluster, s': Cluster, n: int, ops: seq<RaftOp>) {
    && Enabled(s, Append(n, ops)) && s' == NextAppend(s, n, ops)
    && (forall i :: 0 <= i < |ops| ==> ops[i].IsData())
    && var x := s.nodes[n];
       var es := Stamp(x.currentTerm, ops);
       LeaderAppend(x, ops) == x.(log := x.log + es) && Plain(x.log + es) == Plain(x.log) + Plain(es)
  }

  lemma AppendGrows(s: Cluster, s': Cluster, n: int, ops: seq<RaftOp>)
    requires Appended(s, s', n, ops) && LeaderOk(s, n) && s.nodes[n].role == Leader
    ensures Grows(s, s')
  {
    var t := TermOf(s, n);
    assert Extends(t, s.termLog[t], s'.termLog[t]);
  }

  lemma AppendNode(s: Cluster, s': Cluster, n: int, ops: seq<RaftOp>)
    requires Appended(s, s', n, ops) && NodeCommit(s, n) && Grows(s, s')
    ensures NodeCommit(s', n) && s'.nodes[n].role == s.nodes[n].role
  {
    var x, y := s.nodes[n], s'.nodes[n];
    assert y == x.(log := x.log + Stamp(x.currentTerm, ops));
    AppendCommit(s, s', n);
  }

  lemma AppendBasics(s: Cluster, s': Cluster, n: int, ops: seq<RaftOp>)
    requires Appended(s, s', n, ops) && NodeBasics(s, n) && LeaderOk(s, n) && Grows(s, s')
    ensures NodeBasics(s', n)
  {
    TermLogStable(s, s', TermOf(s, n));
  }

  lemma AppendLeader(s: Cluster, s': Cluster, n: int, ops: seq<RaftOp>)
    requires Appended(s, s', n, ops) && LeaderOk(s, n) && Grows(s, s')
    ensures LeaderOk(s', n)
  {
    var x, y := s.nodes[n], s'.nodes[n];
    forall p | p in y.peers ensures IndicesOk(s', y, p) {
      assert IndicesOk(s, x, p);
      AckedStable(s, s', x.currentTerm, p);
    }
  }

  /** A longer log with the same commit point. */
  lemma AppendCommit(s: Cluster, s': Cluster, n: int)
    requires Grows(s, s') && n in s.nodes && n in s'.nodes && NodeCommit(s, n)
    requires var x, y := s.nodes[n], s'.nodes[n];
      && x.log <= y.log && y.currentTerm == x.currentTerm
      && y.commitIndex == x.commitIndex && y.lastApplied == x.lastApplied && y.released == x.released
    ensures NodeCommit(s', n)
  {
    var x, y := s.nodes[n], s'.nodes[n];
    assert Plain(y.log)[..x.commitIndex + 1] == Plain(x.log)[..x.commitIndex + 1];
    CommittedPrefixStable(s, s', Plain(x.log)[..x.commitIndex + 1], x.currentTerm, x.currentTerm);
    assert OpsBetween(Plain(y.log), 0, x.commitIndex + 1) == OpsBetween(Plain(x.log), 0, x.commitIndex + 1);
  }

  lemma AppendAcks(s: Cluster, s': Cluster, n: int, ops: seq<RaftOp>)
    requires Inv(s) && Appended(s, s', n, ops) && LeaderOk(s, n)
    ensures forall t, v {:trigger AckCase(s, s', t, v)} :: (t, v) in s'.acked ==> AckCase(s, s', t, v)
  {
    forall t, v | (t, v) in s'.acked ensures AckCase(s, s', t, v) {
      if (t, v) == (TermOf(s, n), n) {
        assert AckOk(s', t, v);
      } else {
        assert AckOk(s, t, v);
      }
    }
  }

  lemma AppendOthers(s: Cluster, s': Cluster, n: int, ops: seq<RaftOp>)
    requires Inv(s) && Appended(s, s', n, ops) && LeaderOk(s, n)
    ensures forall i {:trigger Untouched(s, s', i)} :: i in s.nodes && i in s'.nodes && i != n ==> Untouched(s, s', i)
  {
    forall i | i in s.nodes && i in s'.nodes && i != n ensures Untouched(s, s', i) {
      assert NodeOk(s, i);
    }
  }

  lemma AppendParts(s: Cluster, s': Cluster, n: int, ops: seq<RaftOp>)
    requires Appended(s, s', n, ops) && LeaderOk(s, n) && LeadersRecorded(s) && s.termLog.Keys == s.elections.Keys
    requires NodeOk(s', n)
    requires forall t, v {:trigger AckCase(s, s', t, v)} :: (t, v) in s'.acked ==> AckCase(s, s', t, v)
    requires forall i {:trigger Untouched(s, s', i)} :: i in s.nodes && i in s'.nodes && i != n ==> Untouched(s, s', i)
    ensures NewPartsOk(s, s', n)
  {
    SamePast(s, s');
  }

  // Sending a request

  /** What a leader sends is a window of its log that reaches past its commit index. */
  lemma SendAppendKeeps(s: Cluster, n: int, p: int, saved: int)
    requires Inv(s) && Step(s, SendAppend(n, p, saved))
    ensures Inv(Next(s, SendAppend(n, p, saved))) && Grows(s, Next(s, SendAppend(n, p, saved)))
  {
    var x := s.nodes[n];
    assert NodeOk(s, n) && IndicesOk(s, x, p) && TermOk(s, x.currentTerm);
    BuiltWindow(x, p, saved);
    StepElection.SendKeeps(s, AppReq(p, BuildAppend(x, p, saved)), n);
  }

  lemma BuiltWindow(x: Node, p: int, saved: int)
    requires p in x.nextIndex && 0 <= x.nextIndex[p] <= |x.log|
    ensures var a := BuildAppend(x, p, saved);
      IsWindow(Plain(x.log), a) && Plain(Payload(a.entries)) == Payload(a.entries) &&
      a.prevLogIndex + 1 + |a.entries| == |x.log|
  {
    var a := BuildAppend(x, p, saved);
    assert Payload(a.entries) == Plain(x.log)[a.prevLogIndex + 1..];
  }

  // A reply

  lemma RecvAppendRspKeeps(s: Cluster, m: Msg)
    requires Inv(s) && Step(s, RecvAppendRsp(m))
    ensures Inv(Next(s, RecvAppendRsp(m))) && Grows(s, Next(s, RecvAppendRsp(m)))
  {
    var x := s.nodes[m.to];
    var s' := NextRecvAppendRsp(s, m);
    assert MsgOk(s, m) && NodeOk(s, m.to);
    if m.appRet.term > m.saved {
      StepVoteReply.StepDownKeeps(s, m.to, m.appRet.term);
    } else if x.role == Leader && m.saved == m.appRet.term {
      if m.appRet.success { MatchedKeeps(s, m); } else { RefusedKeeps(s, m); }
    } else {
      assert s'.nodes == s.nodes;
    }
  }

  /** A refusal moves the next index down by one, and never below zero. */
  lemma RefusedKeeps(s: Cluster, m: Msg)
    requires Inv(s) && Step(s, RecvAppendRsp(m)) && s.nodes[m.to].role == Leader
    requires m.saved == m.appRet.term && !m.appRet.success
    ensures Inv(NextRecvAppendRsp(s, m)) && Grows(s, NextRecvAppendRsp(s, m))
  {
    var s' := NextRecvAppendRsp(s, m);
    var n := m.to;
    var x, y := s.nodes[n], s'.nodes[n];
    assert MsgOk(s, m) && NodeOk(s, n);
    assert s' == SetNode(s, n, y);
    LocalGrows(s, n, y);
    NodeFrame(s, s', n);
    forall p | p in y.peers ensures IndicesOk(s', y, p) {
      assert IndicesOk(s, x, p);
    }
    LocalKeeps(s, n, y);
  }

  lemma MatchedKeeps(s: Cluster, m: Msg)
    requires Inv(s) && Step(s, RecvAppendRsp(m)) && s.nodes[m.to].role == Leader
    requires m.saved == m.appRet.term && m.appRet.success
    ensures Inv(NextRecvAppendRsp(s, m)) && Grows(s, NextRecvAppendRsp(s, m))
  {
    var s' := NextRecvAppendRsp(s, m);
    var n := m.to;
    assert MsgOk(s, m) && NodeOk(s, n);
    MatchedGrows(s, s', m);
    MatchedLeader(s, s', m);
    MatchedCommit(s, s', m);
    AcksUnchanged(s, s', n);
    MatchedParts(s, s', m);
    Assemble(s, s', n);
  }

  lemma MatchedGrows(s: Cluster, s': Cluster, m: Msg)
    requires Enabled(s, RecvAppendRsp(m)) && s' == NextRecvAppendRsp(s, m) && s.nodes[m.to].role == Leader
    requires m.saved == m.appRet.term && m.appRet.success
    ensures Grows(s, s') && s'.acked == s.acked && s'.nodes[m.to].log == s.nodes[m.to].log
  {
  }

  lemma MatchedParts(s: Cluster, s': Cluster, m: Msg)
    requires Enabled(s, RecvAppendRsp(m)) && s' == NextRecvAppendRsp(s, m)
    requires s.termLog.Keys == s.elections.Keys && LeadersRecorded(s) && NodeOk(s', m.to)
    requires forall a {:trigger AdvanceOk(s', a)} :: a in s'.advances && a !in s.advances ==> AdvanceOk(s', a)
    requires forall t, v {:trigger AckCase(s, s', t, v)} :: (t, v) in s'.acked ==> AckCase(s, s', t, v)
    ensures NewPartsOk(s, s', m.to)
  {
    assert PastOk(s, s');
  }

  lemma MatchedLeader(s: Cluster, s': Cluster, m: Msg)
    requires Enabled(s, RecvAppendRsp(m)) && s' == NextRecvAppendRsp(s, m)
    requires m.saved == TermOf(s, m.to) && m.saved == m.appRet.term && m.appRet.success
    requires MsgOk(s, m) && s.nodes[m.to].role == Leader && LeaderOk(s, m.to)
    ensures LeaderOk(s', m.to)
  {
    var x, y := s.nodes[m.to], s'.nodes[m.to];
    forall p | p in y.peers ensures IndicesOk(s', y, p) {
      assert IndicesOk(s, x, p);
    }
  }

  /** What a success does to the replica and the record of advances. */
  lemma MatchedIs(s: Cluster, s': Cluster, m: Msg)
    requires Enabled(s, RecvAppendRsp(m)) && s' == NextRecvAppendRsp(s, m) && s.nodes[m.to].role == Leader
    requires m.saved == m.appRet.term && m.appRet.success && s.nodes[m.to].commitIndex >= -1
    ensures var z := Matched(s.nodes[m.to], m.from, m.next + m.count);
      var c := CommitTarget(z, |z.log|);
      && (c == z.commitIndex ==> s'.nodes[m.to] == z && s'.advances == s.advances)
      && (c != z.commitIndex ==>
            && c > z.commitIndex && Committable(z, c) && s'.nodes[m.to] == ReleaseUpTo(z, c)
            && s'.advances == s.advances + {Advance(z.currentTerm, Plain(z.log)[..c + 1])})
  {
    var z := Matched(s.nodes[m.to], m.from, m.next + m.count);
    CommitTargetGreatest(z, |z.log|);
  }

  lemma MatchedCommit(s: Cluster, s': Cluster, m: Msg)
    requires Enabled(s, RecvAppendRsp(m)) && s' == NextRecvAppendRsp(s, m)
    requires m.saved == TermOf(s, m.to) && m.saved == m.appRet.term && m.appRet.success
    requires s.nodes[m.to].role == Leader && NodeOk(s, m.to) && Grows(s, s') && LeaderOk(s', m.to)
    requires m.to in s.members
    ensures NodeOk(s', m.to)
    ensures forall a {:trigger AdvanceOk(s', a)} :: a in s'.advances && a !in s.advances ==> AdvanceOk(s', a)
  {
    MatchedIs(s, s', m);
    var z := Matched(s.nodes[m.to], m.from, m.next + m.count);
    var c := CommitTarget(z, |z.log|);
    if c == z.commitIndex {
      MatchedStays(s, s', m.to, z);
    } else {
      MatchedAdvance(s, s', m.to, z, c);
    }
  }

  /** The commit index has stayed. */
  lemma MatchedStays(s: Cluster, s': Cluster, n: int, z: Node)
    requires Grows(s, s') && n in s.nodes && n in s'.nodes && s.nodes[n].role == Leader && NodeOk(s, n) &&
      LeaderOk(s', n)
    requires z == s.nodes[n].(nextIndex := z.nextIndex, matchIndex := z.matchIndex) && s'.nodes[n] == z
    ensures NodeOk(s', n)
  {
    NodeFrame(s, s', n);
  }

  /** The commit index has moved to `c`. */
  lemma MatchedAdvance(s: Cluster, s': Cluster, n: int, z: Node, c: int)
    requires Grows(s, s') && n in s.nodes && n in s'.nodes && n in s.members && s.nodes[n].role == Leader
    requires NodeOk(s, n) && LeaderOk(s', n)
    requires z == s.nodes[n].(nextIndex := z.nextIndex, matchIndex := z.matchIndex)
    requires s'.nodes[n] == ReleaseUpTo(z, c) && c > z.commitIndex && Committable(z, c)
    ensures NodeOk(s', n)
    ensures AdvanceOk(s', Advance(z.currentTerm, Plain(z.log)[..c + 1]))
  {
    var y, t, p := s'.nodes[n], z.currentTerm, Plain(z.log)[..c + 1];
    ValidLogStable(s, s', LogOf(s, n));
    CountedIsCommitted(s', y, z, c);
    assert p == s'.termLog[t][..c + 1];
    ReleasedOps(z, c);
    assert CommittedPrefix(s', p, t);
  }

  /** Releasing up to `c` makes the released operations those of the log up to `c`. */
  lemma ReleasedOps(x: Node, c: int)
    requires -1 <= x.lastApplied <= c < |x.log|
    requires PlainOps(x.released) == OpsBetween(Plain(x.log), 0, x.lastApplied + 1)
    ensures PlainOps(ReleaseUpTo(x, c).released) == OpsBetween(Plain(x.log), 0, c + 1)
  {
    var r := x.released + OpsBetween(x.log, x.lastApplied + 1, c + 1);
    assert |x.released| == |PlainOps(x.released)| == x.lastApplied + 1;
    forall i | 0 <= i < |r| ensures PlainOps(r)[i] == Plain(x.log)[i].op {
      if i <= x.lastApplied {
        assert PlainOps(x.released)[i] == Plain(x.log)[i].op;
      }
    }
  }

  /** An index that passes the commit test is acknowledged by a majority. */
  lemma CountedIsCommitted(s: Cluster, y: Node, z: Node, c: int)
    requires y.id in s.nodes && s.nodes[y.id] == y && y.role == Leader && LeaderOk(s, y.id)
    requires z.id == y.id && z.log == y.log && z.currentTerm == y.currentTerm
    requires z.matchIndex == y.matchIndex && z.peers == y.peers && z.config == y.config
    requires y.config == s.members && y.peers == s.members - {y.id} && y.id in s.members
    requires Committable(z, c)
    ensures Committed(s, y.currentTerm, c + 1)
  {
    var t, n := y.currentTerm, y.id;
    var q := MatchedPeers(z, c) + {n};
    assert n !in MatchedPeers(z, c);
    assert |q| == MatchCount(z, c);
    forall v | v in q ensures Acked(s, t, v) >= c + 1 {
      if v != n { assert IndicesOk(s, y, v); }
    }
    assert Majority(s.members, q) && AckedBy(s, t, c + 1, q);
  }

  /** The commit loop's result: the greatest index above the old one that passes the test, else the old one. */
  lemma CommitTargetGreatest(n: Node, hi: int)
    requires hi <= |n.log| && n.commitIndex >= -1
    ensures var c := CommitTarget(n, hi);
      && (c == n.commitIndex || (n.commitIndex < c < hi && Committable(n, c)))
      && (forall i :: c < i < hi ==> !Committable(n, i))
    decreases hi
  {
  }

  // Crash

  lemma CrashKeeps(s: Cluster, n: int)
    requires Inv(s) && Step(s, Crash(n))
    ensures Inv(Next(s, Crash(n))) && Grows(s, Next(s, Crash(n)))
  {
    var s' := NextCrash(s, n);
    var x := s.nodes[n];
    assert NodeOk(s, n);
    PlainTwice(x.log);
    LocalGrows(s, n, Restart(x));
    CrashNode(s, s', n);
    LocalKeeps(s, n, Restart(x));
  }

  lemma CrashNode(s: Cluster, s': Cluster, n: int)
    requires n in s.nodes && s' == NextCrash(s, n) && NodeOk(s, n) && Grows(s, s')
    ensures NodeOk(s', n)
  {
    PlainTwice(s.nodes[n].log);
    ValidLogStable(s, s', LogOf(s, n));
    NothingCommitted(s', n);
  }
}
