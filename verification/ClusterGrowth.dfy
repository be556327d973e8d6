/** How the recorded past grows in one step, and why growth alone keeps the invariant for
    every term, ballot, acknowledgement, replica and message that the step does not touch. */
module ClusterGrowth {
  import opened RaftTypes
  import opened RaftCluster
  import opened ClusterInvariant
  import opened ElectionBasics

  /** A term's log grows only by data entries of that term. */
  predicate Extends(t: int, a: seq<LogEntry>, b: seq<LogEntry>) {
    a <= b && forall i :: |a| <= i < |b| ==> b[i].term == t && b[i].op.IsData()
  }

  /** A candidate either just started its election or stood in it already with the same log. */
  predicate CandidacyKept(s: Cluster, s': Cluster, n: int)
    requires n in s.nodes && n in s'.nodes
  {
    s'.nodes[n].role == Candidate && TermOf(s', n) <= TermOf(s, n) ==>
      s.nodes[n].role == Candidate && TermOf(s', n) == TermOf(s, n) && s'.nodes[n].log == s.nodes[n].log
  }

  /** A vote that can still matter is not forgotten within its term. */
  predicate VoteKept(s: Cluster, s': Cluster, v: int)
    requires v in s.nodes && v in s'.nodes
  {
    var t := TermOf(s, v);
    TermOf(s', v) == t && (t, v) in s.ballots &&
    (t !in s'.elections || (t in s.elections && v in s.elections[t].quorum && v != s.elections[t].leader)) ==>
      s'.nodes[v].votedFor == s.nodes[v].votedFor &&
      (s.nodes[v].role == Follower ==> s'.nodes[v].role == Follower)
  }

  /** Acknowledgements only grow, and only in the replica's latest term. */
  predicate AckGrows(s: Cluster, s': Cluster, t: int, v: int) {
    && ((t, v) in s.acked ==> (t, v) in s'.acked && s.acked[(t, v)] <= s'.acked[(t, v)])
    && ((t, v) in s'.acked && v in s'.nodes && t < TermOf(s', v) ==>
          (t, v) in s.acked && s'.acked[(t, v)] == s.acked[(t, v)])
  }

  predicate BallotGrows(s: Cluster, s': Cluster, t: int, v: int) {
    (t, v) in s.ballots ==> (t, v) in s'.ballots && s'.ballots[(t, v)] == s.ballots[(t, v)]
  }

  predicate TermLogGrows(s: Cluster, s': Cluster, t: int) {
    && (t in s.termLog ==> t in s'.termLog && Extends(t, s.termLog[t], s'.termLog[t]))
    && (t in s.elections ==> t in s'.elections && s'.elections[t] == s.elections[t])
  }

  predicate NodeGrows(s: Cluster, s': Cluster, n: int) {
    n in s.nodes && n in s'.nodes ==>
      TermOf(s, n) <= TermOf(s', n) && CandidacyKept(s, s', n) && VoteKept(s, s', n)
  }

  ghost predicate Grows(s: Cluster, s': Cluster) {
    && s'.members == s.members && s'.nodes.Keys == s.nodes.Keys
    && (forall n {:trigger NodeGrows(s, s', n)} :: NodeGrows(s, s', n))
    && (forall t {:trigger TermLogGrows(s, s', t)} :: TermLogGrows(s, s', t))
    && (forall t, v {:trigger BallotGrows(s, s', t, v)} :: BallotGrows(s, s', t, v))
    && (forall t, v {:trigger AckGrows(s, s', t, v)} :: AckGrows(s, s', t, v))
  }

  // Stability of the building blocks

  lemma ValidLogStable(s: Cluster, s': Cluster, log: seq<LogEntry>)
    requires Grows(s, s') && ValidLog(s.termLog, log)
    ensures ValidLog(s'.termLog, log)
  {
    forall i | 0 <= i < |log| ensures FromLeader(s'.termLog, log, i) {
      assert FromLeader(s.termLog, log, i);
      assert TermLogGrows(s, s', log[i].term);
    }
  }

  lemma TermPrefixStable(s: Cluster, s': Cluster, t: int, j: nat)
    requires Grows(s, s') && t in s.termLog && j <= |s.termLog[t]|
    ensures TermPrefix(s', t, j) == TermPrefix(s, t, j)
  {
    assert TermLogGrows(s, s', t);
  }

  lemma LogTerms(s: Cluster, t: int)
    requires t in s.elections && TermOk(s, t)
    ensures TermsUpTo(s.termLog[t], t)
  {
    forall i | 0 <= i < |s.termLog[t]| ensures s.termLog[t][i].term <= t {
      if i < |s.elections[t].log| {
        assert s.termLog[t][i] == s.elections[t].log[i];
      }
    }
  }

  lemma Diverges(t: int, u: int, p: seq<LogEntry>, a: seq<LogEntry>, b: seq<LogEntry>)
    requires t < u && TermsUpTo(p, t) && Extends(u, a, b) && !(p <= a)
    ensures !(p <= b)
  {
    if |a| < |p| && |a| < |b| {
      assert p[|a|].term <= t && b[|a|].term == u;
    }
  }

  /** A leader that lacks an earlier term's prefix lacks it for good: what it still appends
      carries its own, later, term. */
  lemma LackStable(s: Cluster, s': Cluster, t: int, p: seq<LogEntry>, bound: int, bound': int)
    requires Grows(s, s') && TermsUpTo(p, t) && bound <= bound'
    requires LaterLeaderLacks(s, t, p, bound)
    ensures LaterLeaderLacks(s', t, p, bound')
  {
    var u :| t < u <= bound && u in s.termLog && !(p <= s.termLog[u]);
    assert TermLogGrows(s, s', u);
    Diverges(t, u, p, s.termLog[u], s'.termLog[u]);
  }

  lemma KeptStable(s: Cluster, s': Cluster, t: int, j: nat, log: seq<LogEntry>, log': seq<LogEntry>, bound: int,
      bound': int)
    requires Grows(s, s') && t in s.elections && TermOk(s, t) && j <= |s.termLog[t]|
    requires log <= log' && bound <= bound'
    requires Kept(s, t, j, log, bound)
    ensures Kept(s', t, j, log', bound')
  {
    TermPrefixStable(s, s', t, j);
    if !(TermPrefix(s, t, j) <= log) {
      LogTerms(s, t);
      LackStable(s, s', t, TermPrefix(s, t, j), bound, bound');
    }
  }

  lemma AckedStable(s: Cluster, s': Cluster, t: int, v: int)
    requires Grows(s, s')
    ensures Acked(s, t, v) <= Acked(s', t, v)
  {
    assert AckGrows(s, s', t, v);
  }

  lemma CommittedStable(s: Cluster, s': Cluster, t: int, j: nat)
    requires Grows(s, s') && Committed(s, t, j)
    ensures Committed(s', t, j) && s'.termLog[t][..j] == s.termLog[t][..j]
  {
    assert TermLogGrows(s, s', t);
    var q :| Majority(s.members, q) && AckedBy(s, t, j, q);
    forall v | v in q ensures Acked(s', t, v) >= j {
      AckedStable(s, s', t, v);
    }
    assert AckedBy(s', t, j, q);
  }

  lemma CommittedPrefixStable(s: Cluster, s': Cluster, p: seq<LogEntry>, bound: int, bound': int)
    requires Grows(s, s') && CommittedPrefix(s, p, bound) && bound <= bound'
    ensures CommittedPrefix(s', p, bound')
  {
    if p != [] {
      var t, j: nat :| t <= bound && Committed(s, t, j) && p <= s.termLog[t][..j];
      CommittedStable(s, s', t, j);
    }
  }

  // Stability of the invariant's parts

  lemma TermStable(s: Cluster, s': Cluster, t: int)
    requires Inv(s) && Grows(s, s') && t in s.elections
    ensures t in s'.elections && TermOk(s', t)
  {
    var e := s.elections[t];
    assert TermOk(s, t);
    assert TermLogGrows(s, s', t);
    ValidLogStable(s, s', e.log);
    TermLogStable(s, s', t);
    assert NodeGrows(s, s', e.leader);
    forall v | v in e.quorum ensures QuorumVoteOk(s', t, v) {
      assert QuorumVoteOk(s, t, v) && BallotOk(s, t, v);
      QuorumVoteStable(s, s', t, v);
    }
  }

  lemma TermLogStable(s: Cluster, s': Cluster, t: int)
    requires Grows(s, s') && t in s.termLog && ValidLog(s.termLog, s.termLog[t])
    ensures t in s'.termLog && ValidLog(s'.termLog, s'.termLog[t])
  {
    assert TermLogGrows(s, s', t);
    var log := s'.termLog[t];
    ValidLogStable(s, s', s.termLog[t]);
    forall i | 0 <= i < |log| ensures FromLeader(s'.termLog, log, i) {
      if i < |s.termLog[t]| {
        assert FromLeader(s'.termLog, s.termLog[t], i);
        assert s.termLog[t][..i + 1] == log[..i + 1];
      }
    }
  }

  lemma QuorumVoteStable(s: Cluster, s': Cluster, t: int, v: int)
    requires Grows(s, s') && t in s.elections && v in s.elections[t].quorum
    requires QuorumVoteOk(s, t, v) && BallotOk(s, t, v)
    ensures t in s'.elections && QuorumVoteOk(s', t, v)
  {
    assert TermLogGrows(s, s', t) && NodeGrows(s, s', v) && BallotGrows(s, s', t, v);
  }

  lemma BallotStable(s: Cluster, s': Cluster, t: int, v: int)
    requires Inv(s) && Grows(s, s') && (t, v) in s.ballots
    ensures (t, v) in s'.ballots && BallotOk(s', t, v)
  {
    assert BallotOk(s, t, v) && BallotGrows(s, s', t, v);
    var b := s.ballots[(t, v)];
    ValidLogStable(s, s', b.log);
    assert NodeGrows(s, s', v) && NodeGrows(s, s', b.candidate) && TermLogGrows(s, s', t);
    if Counts(s', t, v) {
      BallotAcksStable(s, s', t, v);
    }
  }

  lemma BallotAcksStable(s: Cluster, s': Cluster, t: int, v: int)
    requires Inv(s) && Grows(s, s') && (t, v) in s.ballots && Counts(s', t, v)
    ensures (t, v) in s'.ballots && BallotKeepsAcks(s', t, v)
  {
    assert BallotOk(s, t, v) && BallotGrows(s, s', t, v);
    assert TermLogGrows(s, s', t) && NodeGrows(s, s', v);
    var log := s.ballots[(t, v)].log;
    forall u, j: nat | (u, v) in s'.acked && u < t && j <= s'.acked[(u, v)]
      ensures KeptAtVote(s', t, v, u, j)
    {
      assert AckGrows(s, s', u, v);
      assert AckOk(s, u, v) && TermOk(s, u);
      assert KeptAtVote(s, t, v, u, j);
      KeptStable(s, s', u, j, log, log, t - 1, t - 1);
    }
  }

  /** An acknowledgement survives as long as the replica's log only grows. */
  lemma AckStable(s: Cluster, s': Cluster, t: int, v: int)
    requires Inv(s) && Grows(s, s') && (t, v) in s.acked && (t, v) in s'.acked
    requires s'.acked[(t, v)] == s.acked[(t, v)]
    requires v in s.nodes && LogOf(s, v) <= LogOf(s', v)
    ensures AckOk(s', t, v)
  {
    assert AckOk(s, t, v) && TermOk(s, t);
    assert TermLogGrows(s, s', t) && NodeGrows(s, s', v);
    forall j: nat | j <= s'.acked[(t, v)]
      ensures Kept(s', t, j, LogOf(s', v), TermOf(s', v))
    {
      assert Kept(s, t, j, LogOf(s, v), TermOf(s, v));
      KeptStable(s, s', t, j, LogOf(s, v), LogOf(s', v), TermOf(s, v), TermOf(s', v));
    }
  }

  lemma GrantedStable(s: Cluster, s': Cluster, t: int, v: int, c: int)
    requires Grows(s, s') && Granted(s, t, v, c)
    ensures Granted(s', t, v, c)
  {
    assert BallotGrows(s, s', t, v) && TermLogGrows(s, s', t);
  }

  lemma MsgStable(s: Cluster, s': Cluster, m: Msg)
    requires Grows(s, s') && MsgOk(s, m)
    ensures MsgOk(s', m)
  {
    match m
    case VoteReq(to, v) => assert NodeGrows(s, s', v.candidateId);
    case VoteRsp(saved, from, to, r) =>
      if r.voteGranted { GrantedStable(s, s', saved, from, to); }
    case AppReq(to, a) => AppReqStable(s, s', to, a);
    case AppRsp(saved, from, to, next, count, r) =>
      assert TermLogGrows(s, s', saved);
      AckedStable(s, s', saved, from);
  }

  lemma AppReqStable(s: Cluster, s': Cluster, to: int, a: AppendEntriesParams)
    requires Grows(s, s') && AppReqOk(s, to, a)
    ensures AppReqOk(s', to, a)
  {
    assert TermLogGrows(s, s', a.term);
    var log, log' := s.termLog[a.term], s'.termLog[a.term];
    assert log'[..a.leaderCommit + 1] == log[..a.leaderCommit + 1];
    var from, to' := a.prevLogIndex + 1, a.prevLogIndex + 1 + |a.entries|;
    assert log'[from..to'] == log[from..to'];
    CommittedPrefixStable(s, s', log[..a.leaderCommit + 1], a.term, a.term);
  }

  /** The leader's own log and acknowledgement did not move. */
  predicate TermUntouched(s: Cluster, s': Cluster, n: int, t: int) {
    && (t in s.termLog && t in s'.termLog ==> s'.termLog[t] == s.termLog[t])
    && Acked(s', t, n) == Acked(s, t, n)
  }

  /** Replicas that the step does not touch. */
  predicate Untouched(s: Cluster, s': Cluster, n: int)
    requires n in s.nodes && n in s'.nodes
  {
    && s'.nodes[n] == s.nodes[n]
    && Tally(s', TermOf(s, n), n) == Tally(s, TermOf(s, n), n)
    && (s.nodes[n].role == Leader ==> TermUntouched(s, s', n, TermOf(s, n)))
  }

  lemma NodeStable(s: Cluster, s': Cluster, n: int)
    requires Grows(s, s') && n in s.nodes && NodeOk(s, n) && Untouched(s, s', n)
    ensures NodeOk(s', n)
  {
    var x := s.nodes[n];
    NodeFrame(s, s', n);
    if x.role == Candidate {
      assert BallotGrows(s, s', x.currentTerm, n);
      forall v | v in Tally(s, x.currentTerm, n) ensures Granted(s', x.currentTerm, v, n) {
        assert Granted(s, x.currentTerm, v, n);
        GrantedStable(s, s', x.currentTerm, v, n);
      }
    }
    if x.role == Leader {
      assert TermLogGrows(s, s', x.currentTerm);
      IndicesStable(s, s', x);
    }
  }

  lemma IndicesStable(s: Cluster, s': Cluster, x: Node)
    requires Grows(s, s')
    requires forall p {:trigger IndicesOk(s, x, p)} :: p in x.peers ==> IndicesOk(s, x, p)
    ensures forall p {:trigger IndicesOk(s', x, p)} :: p in x.peers ==> IndicesOk(s', x, p)
  {
    forall p | p in x.peers ensures IndicesOk(s', x, p) {
      assert IndicesOk(s, x, p);
      AckedStable(s, s', x.currentTerm, p);
    }
  }

  /** A replica whose log, commit point and membership stay as they are, whatever its role and term. */
  lemma NodeFrame(s: Cluster, s': Cluster, n: int)
    requires Grows(s, s') && n in s.nodes && n in s'.nodes && NodeBasics(s, n) && NodeCommit(s, n)
    requires var x, y := s.nodes[n], s'.nodes[n];
      && y.id == x.id && y.config == x.config && y.peers == x.peers && y.log == x.log
      && y.commitIndex == x.commitIndex && y.lastApplied == x.lastApplied && y.released == x.released
    ensures NodeBasics(s', n) && NodeCommit(s', n)
  {
    var x := s.nodes[n];
    assert NodeGrows(s, s', n);
    ValidLogStable(s, s', LogOf(s, n));
    CommittedPrefixStable(s, s', LogOf(s, n)[..x.commitIndex + 1], x.currentTerm, TermOf(s', n));
  }

  /** A replica that has just started has committed nothing yet. */
  lemma NothingCommitted(s: Cluster, n: int)
    requires n in s.nodes
    requires var x := s.nodes[n]; x.commitIndex == -1 && x.lastApplied == -1 && x.released == []
    ensures NodeCommit(s, n)
  {
    assert LogOf(s, n)[..0] == [];
  }

  lemma AdvanceStable(s: Cluster, s': Cluster, x: Advance)
    requires Grows(s, s') && AdvanceOk(s, x)
    ensures AdvanceOk(s', x)
  {
    var j: nat :| Committed(s, x.term, j) && x.covered == s.termLog[x.term][..j];
    CommittedStable(s, s', x.term, j);
  }

  // Assembling the invariant after a step

  /** Either the acknowledgement is as it was over a log that only grew, or it is shown anew. */
  ghost predicate AckCase(s: Cluster, s': Cluster, t: int, v: int)
    requires (t, v) in s'.acked
  {
    || ((t, v) in s.acked && s'.acked[(t, v)] == s.acked[(t, v)] && v in s.nodes && v in s'.nodes &&
      LogOf(s, v) <= LogOf(s', v))
    || AckOk(s', t, v)
  }

  /** No acknowledgement changed and no log lost anything. */
  lemma AcksUnchanged(s: Cluster, s': Cluster, n: int)
    requires Inv(s) && n in s.nodes && n in s'.nodes && s'.acked == s.acked
    requires s'.nodes == s.nodes[n := s'.nodes[n]] && LogOf(s', n) == LogOf(s, n)
    ensures forall t, v {:trigger AckCase(s, s', t, v)} :: (t, v) in s'.acked ==> AckCase(s, s', t, v)
  {
    forall t, v | (t, v) in s'.acked ensures AckCase(s, s', t, v) {
      assert AckOk(s, t, v);
    }
  }

  /** What a step must show of the recorded past. */
  ghost predicate PastOk(s: Cluster, s': Cluster) {
    && s'.termLog.Keys == s'.elections.Keys
    && LeadersRecorded(s')
    && (forall t {:trigger TermOk(s', t)} :: t in s'.elections && t !in s.elections ==> TermOk(s', t))
    && (forall k {:trigger TallyOk(s', k)} :: k in s'.tally && k !in s.tally ==> TallyOk(s', k))
    && (forall x {:trigger AdvanceOk(s', x)} :: x in s'.advances && x !in s.advances ==> AdvanceOk(s', x))
  }

  /** No election, and nothing else of note. */
  lemma SamePast(s: Cluster, s': Cluster)
    requires s.termLog.Keys == s.elections.Keys && LeadersRecorded(s)
    requires s'.termLog.Keys == s.termLog.Keys && s'.elections == s.elections && s'.leaders == s.leaders
    requires s'.tally == s.tally && s'.advances == s.advances
    ensures PastOk(s, s')
  {
  }

  /** What a step that touches replica `n` must show of its own. */
  ghost predicate NewPartsOk(s: Cluster, s': Cluster, n: int) {
    && PastOk(s, s')
    && n in s.nodes && n in s'.nodes && NodeOk(s', n)
    && (forall i {:trigger Untouched(s, s', i)} :: i in s.nodes && i in s'.nodes && i != n ==> Untouched(s, s', i))
    && (forall t, v {:trigger BallotOk(s', t, v)} :: (t, v) in s'.ballots && (t, v) !in s.ballots ==>
      BallotOk(s', t, v))
    && (forall t, v {:trigger AckCase(s, s', t, v)} :: (t, v) in s'.acked ==> AckCase(s, s', t, v))
    && (forall m {:trigger MsgOk(s', m)} :: m in s'.net && m !in s.net ==> MsgOk(s', m))
  }

  lemma Assemble(s: Cluster, s': Cluster, n: int)
    requires Inv(s) && Grows(s, s') && NewPartsOk(s, s', n)
    ensures Inv(s')
  {
    forall t | t in s'.elections ensures TermOk(s', t) {
      if t in s.elections { TermStable(s, s', t); }
    }
    forall i | i in s'.nodes ensures NodeOk(s', i) {
      if i != n {
        assert NodeOk(s, i) && Untouched(s, s', i);
        NodeStable(s, s', i);
      }
    }
    forall t, v | (t, v) in s'.ballots ensures BallotOk(s', t, v) {
      if (t, v) in s.ballots { BallotStable(s, s', t, v); }
    }
    forall t, v | (t, v) in s'.acked ensures AckOk(s', t, v) {
      assert AckCase(s, s', t, v);
      if !AckOk(s', t, v) { AckStable(s, s', t, v); }
    }
    forall m | m in s'.net ensures MsgOk(s', m) {
      if m in s.net {
        assert MsgOk(s, m);
        MsgStable(s, s', m);
      }
    }
    AssembleHistory(s, s', n);
  }

  lemma AssembleHistory(s: Cluster, s': Cluster, n: int)
    requires Inv(s) && Grows(s, s') && NewPartsOk(s, s', n)
    ensures History(s')
  {
    forall k | k in s'.tally ensures TallyOk(s', k) {
      if k in s.tally {
        assert TallyOk(s, k) && NodeGrows(s, s', k.1);
      }
    }
    forall x | x in s'.advances ensures AdvanceOk(s', x) {
      if x in s.advances {
        assert AdvanceOk(s, x);
        AdvanceStable(s, s', x);
      }
    }
  }

  // Steps that change one replica and nothing else

  lemma LocalGrows(s: Cluster, n: int, y: Node)
    requires n in s.nodes && NodeGrows(s, SetNode(s, n, y), n)
    ensures Grows(s, SetNode(s, n, y))
  {
  }

  lemma LocalParts(s: Cluster, s': Cluster, n: int)
    requires n in s.nodes && n in s'.nodes && s' == SetNode(s, n, s'.nodes[n]) && NodeOk(s', n)
    requires s.termLog.Keys == s.elections.Keys && LeadersRecorded(s)
    requires forall t, v {:trigger AckCase(s, s', t, v)} :: (t, v) in s'.acked ==> AckCase(s, s', t, v)
    ensures NewPartsOk(s, s', n)
  {
    SamePast(s, s');
  }

  lemma LocalKeeps(s: Cluster, n: int, y: Node)
    requires Inv(s) && n in s.nodes && Grows(s, SetNode(s, n, y)) && NodeOk(SetNode(s, n, y), n)
    requires Plain(y.log) == LogOf(s, n)
    ensures Inv(SetNode(s, n, y))
  {
    var s' := SetNode(s, n, y);
    AcksUnchanged(s, s', n);
    LocalParts(s, s', n);
    Assemble(s, s', n);
  }
}
