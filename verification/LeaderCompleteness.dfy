/** Leader Completeness, from the invariant: what a majority acknowledged in a term is in the
    log of every leader of every later term, from the moment it is elected. */
module LeaderCompleteness {
  import opened RaftTypes
  import opened RaftCluster
  import opened ClusterInvariant
  import opened ElectionBasics
  import opened ClusterGrowth

  /** The last entry of a valid log names the leader that wrote all of it. */
  lemma LastWriter(s: Cluster, log: seq<LogEntry>)
    requires Inv(s) && ValidLog(s.termLog, log) && log != []
    ensures LastTerm(log) in s.elections && TermOk(s, LastTerm(log))
    ensures log <= s.termLog[LastTerm(log)] && TermsUpTo(log, LastTerm(log))
  {
    assert FromLeader(s.termLog, log, |log| - 1);
    assert log[..|log| - 1 + 1] == log;
    var t := LastTerm(log);
    assert TermOk(s, t);
    LogTerms(s, t);
  }

  /** A log at least as up to date as one that holds `p` holds `p` too, if every leader of the
      terms in between does. */
  lemma UpToDateHolds(s: Cluster, t: int, u: int, p: seq<LogEntry>, a: seq<LogEntry>, b: seq<LogEntry>)
    requires Inv(s) && ValidLog(s.termLog, a) && ValidLog(s.termLog, b)
    requires t >= 0 && p != [] && TermsUpTo(p, t) && LastTerm(p) == t
    requires p <= b && UpToDate(a, b) && TermsUpTo(a, u - 1)
    requires forall w :: t < w < u && w in s.elections && w in s.termLog ==> p <= s.termLog[w]
    ensures p <= a
  {
    LastWriter(s, b);
    assert b[|p| - 1] == p[|p| - 1];
    LastWriter(s, a);
    var l := LastTerm(a);
    if l > LastTerm(b) {
      assert p <= s.termLog[l];
      assert a[|a| - 1] == s.termLog[l][|a| - 1];
      assert |a| > |p| - 1;
    }
  }

  lemma Completeness(s: Cluster, t: int, j: nat, u: int)
    requires Inv(s) && Committed(s, t, j) && t < u && u in s.elections
    ensures TermOk(s, u) && s.termLog[t][..j] <= s.elections[u].log
    decreases u - t
  {
    var p := s.termLog[t][..j];
    assert TermOk(s, t) && TermOk(s, u);
    LogTerms(s, t);
    forall w | t < w < u && w in s.elections && w in s.termLog ensures p <= s.termLog[w] {
      Completeness(s, t, j, w);
    }
    var b := VoterHeld(s, t, j, u);
    UpToDateHolds(s, t, u, p, s.elections[u].log, b);
  }

  /** Some voter of the later election had acknowledged the prefix and still held it when it voted. */
  lemma VoterHeld(s: Cluster, t: int, j: nat, u: int) returns (b: seq<LogEntry>)
    requires Inv(s) && Committed(s, t, j) && t < u && u in s.elections
    requires forall w :: t < w < u && w in s.elections && w in s.termLog ==> s.termLog[t][..j] <= s.termLog[w]
    ensures ValidLog(s.termLog, b) && s.termLog[t][..j] <= b && UpToDate(s.elections[u].log, b)
  {
    var p := s.termLog[t][..j];
    assert TermOk(s, u);
    var q :| Majority(s.members, q) && AckedBy(s, t, j, q);
    var v := QuorumsMeet(s.members, q, s.elections[u].quorum);
    assert Acked(s, t, v) >= j;
    assert QuorumVoteOk(s, u, v) && BallotOk(s, u, v) && AckOk(s, t, v);
    assert KeptAtVote(s, u, v, t, j);
    assert TermPrefix(s, t, j) == p;
    b := s.ballots[(u, v)].log;
  }

  /** A committed prefix is in the log of every leader from the term it was committed in on. */
  lemma PrefixInLeader(s: Cluster, p: seq<LogEntry>, bound: int, u: int)
    requires Inv(s) && CommittedPrefix(s, p, bound) && bound <= u && u in s.elections
    ensures TermOk(s, u) && p <= s.termLog[u]
  {
    assert TermOk(s, u);
    if p != [] {
      var t, j: nat :| t <= bound && Committed(s, t, j) && p <= s.termLog[t][..j];
      if t < u { Completeness(s, t, j, u); }
    }
  }

  /** Of any two committed prefixes one extends the other. */
  lemma PrefixesCompare(s: Cluster, p: seq<LogEntry>, a: int, q: seq<LogEntry>, b: int)
    requires Inv(s) && CommittedPrefix(s, p, a) && CommittedPrefix(s, q, b)
    ensures p <= q || q <= p
  {
    if p != [] && q != [] {
      var t, j: nat :| t <= a && Committed(s, t, j) && p <= s.termLog[t][..j];
      var u, k: nat :| u <= b && Committed(s, u, k) && q <= s.termLog[u][..k];
      assert CommittedPrefix(s, p, t) && CommittedPrefix(s, q, u);
      var w := if t < u then u else t;
      PrefixInLeader(s, p, t, w);
      PrefixInLeader(s, q, u, w);
    }
  }
}
