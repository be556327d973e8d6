/** How a leader brings one follower up to date: rounds of request and reply within one term, with
    more operations appended between them.

    A refused request moves the next index down by one, an accepted one moves it to the end of the
    log, and a request from index zero is never refused; so the next index itself bounds the number
    of rounds. */
module CatchUp {
  import opened RaftTypes
  import opened RaftHandlers
  import opened RaftCluster
  import opened ClusterInvariant
  import opened HandlerFacts
  import opened ClusterSafety
  import StepReplicate

  function Next(l: Node, p: int): int {
    Lookup(l.nextIndex, p)
  }

  /** One round: append a batch, send what the peer lacks, handle the reply. */
  function Round(l: Node, f: Node, p: int, batch: seq<RaftOp>): (Node, Node) {
    Exchange(LeaderAppend(l, batch), f, p)
  }

  function Rounds(l: Node, f: Node, p: int, batches: seq<seq<RaftOp>>): (Node, Node)
    decreases |batches|
  {
    if batches == [] then (l, f) else
      var (l1, f1) := Round(l, f, p, batches[0]);
      Rounds(l1, f1, p, batches[1..])
  }

  // What Log Matching says about terms

  predicate SameTerms(a: seq<LogEntry>, b: seq<LogEntry>, n: nat) {
    n <= |a| && n <= |b| && forall i :: 0 <= i < n ==> a[i].term == b[i].term
  }

  /** Equal terms at an index mean equal terms before it, and the leader's own term occurs in the
      follower's log only where the leader has written. */
  predicate Related(f: seq<LogEntry>, w: seq<LogEntry>, t: int) {
    forall i {:trigger RelatedAt(f, w, t, i)} :: 0 <= i < |f| ==> RelatedAt(f, w, t, i)
  }

  predicate RelatedAt(f: seq<LogEntry>, w: seq<LogEntry>, t: int, i: nat)
    requires i < |f|
  {
    && (i < |w| && f[i].term == w[i].term ==> SameTerms(f, w, i + 1))
    && (f[i].term == t ==> i < |w|)
  }

  /** A leader and a follower that has not passed its term. */
  predicate Ready(l: Node, f: Node, p: int) {
    && l.role == Leader && f.currentTerm <= l.currentTerm
    && 0 <= Next(l, p) <= |l.log| && -1 <= l.commitIndex < |l.log|
    && Related(f.log, l.log, l.currentTerm)
  }

  /** The terms of the leader's log are a prefix of those of the follower's, and the leader knows. */
  predicate Synced(l: Node, f: Node, p: int) {
    Next(l, p) == |l.log| && Lookup(l.matchIndex, p) == |l.log| - 1 && SameTerms(l.log, f.log, |l.log|)
  }

  function Max(a: int, b: int): int {
    if a >= b then a else b
  }

  // One round

  /** Appending moves no next index except to zero, when the peer is added or removed. */
  lemma {:induction false} AppendNext(n: Node, es: seq<LogEntry>, p: int)
    ensures Next(AppendAll(n, es), p) == Next(n, p) || Next(AppendAll(n, es), p) == 0
    decreases |es|
  {
    if es != [] { AppendNext(AppendOne(n, es[0]), es[1..], p); }
  }

  lemma AppendReady(l: Node, f: Node, p: int, batch: seq<RaftOp>)
    requires Ready(l, f, p)
    ensures var l1 := LeaderAppend(l, batch);
      && Ready(l1, f, p) && l1.currentTerm == l.currentTerm && (Next(l1, p) == Next(l, p) || Next(l1, p) == 0)
      && l1.commitIndex == l.commitIndex
      && l.log <= l1.log
  {
    var es := Stamp(l.currentTerm, batch);
    AppendAllFrame(l, es);
    AppendNext(l, es, p);
    RelatedGrows(f.log, l.log, es, l.currentTerm);
  }

  lemma RelatedGrows(f: seq<LogEntry>, w: seq<LogEntry>, es: seq<LogEntry>, t: int)
    requires Related(f, w, t) && forall i :: 0 <= i < |es| ==> es[i].term == t
    ensures Related(f, w + es, t)
  {
    forall i | 0 <= i < |f| ensures RelatedAt(f, w + es, t, i) {
      assert RelatedAt(f, w, t, i);
      assert |w| <= i < |w + es| ==> (w + es)[i].term == t;
    }
  }

  /** After acceptance the follower has the leader's terms, and nothing of the leader's term beyond. */
  lemma AcceptedTerms(f: seq<LogEntry>, w: seq<LogEntry>, t: int, at: nat, es: seq<LogEntry>)
    requires Related(f, w, t) && at <= |f| && at <= |w| && at + |es| == |w|
    requires forall i :: 0 <= i < |es| ==> es[i].term == w[at + i].term
    requires at > 0 ==> f[at - 1].term == w[at - 1].term
    ensures SameTerms(w, ReconciledLog(f, at, es), |w|) && Related(ReconciledLog(f, at, es), w, t)
  {
    MatchLenStops(f, at, es);
    var k := MatchLen(f, at, es);
    var f' := ReconciledLog(f, at, es);
    assert at > 0 ==> RelatedAt(f, w, t, at - 1);
    forall i | 0 <= i < |w| ensures i < |f'| && w[i].term == f'[i].term {
      if at <= i < at + k {
        assert f[at + (i - at)].term == es[i - at].term;
      } else if at + k <= i {
        assert es[i - at].term == w[at + (i - at)].term;
      }
    }
    forall i | 0 <= i < |f'| ensures RelatedAt(f', w, t, i) {
      if k == |es| { assert RelatedAt(f, w, t, i); }
    }
  }

  /** The request carries the terms of `w` from its start to the end. */
  predicate Carries(a: AppendEntriesParams, w: seq<LogEntry>) {
    && -1 <= a.prevLogIndex < |w| && a.prevLogIndex + 1 + |a.entries| == |w|
    && (a.prevLogIndex >= 0 ==> a.prevLogTerm == w[a.prevLogIndex].term)
    && (forall i :: 0 <= i < |a.entries| ==> a.entries[i].term == w[a.prevLogIndex + 1 + i].term)
  }

  lemma BuiltCarries(l: Node, p: int)
    requires 0 <= Next(l, p) <= |l.log|
    ensures var a := BuildAppend(l, p, l.currentTerm);
      && a.term == l.currentTerm && a.leaderCommit == l.commitIndex
      && a.prevLogIndex + 1 == Next(l, p) && Carries(a, l.log)
  {
  }

  /** How a follower that has not passed the term answers such a request. */
  lemma Answer(f: Node, a: AppendEntriesParams, w: seq<LogEntry>)
    requires Carries(a, w) && f.currentTerm <= a.term && Related(f.log, w, a.term) && a.leaderCommit < |w|
    ensures var (f1, r) := HandleAppendEntries(f, a);
      && r.term == a.term && f1.currentTerm == a.term && Related(f1.log, w, a.term)
      && (r.success ==> SameTerms(w, f1.log, |w|))
      && (!r.success ==> a.prevLogIndex >= 0)
      && (SameTerms(w, f.log, a.prevLogIndex + 1) ==> r.success)
      && f1.commitIndex == (if r.success then Max(f.commitIndex, a.leaderCommit) else f.commitIndex)
  {
    var at, es := a.prevLogIndex + 1, Payload(a.entries);
    if Accepts(f, a) {
      AcceptedTerms(f.log, w, a.term, at, es);
      AcceptedAnswer(f, a);
    }
  }

  lemma AcceptedAnswer(f: Node, a: AppendEntriesParams)
    requires Accepts(f, a)
    ensures var (f1, r) := HandleAppendEntries(f, a);
      && r == AppendEntriesRet(a.term, true) && f1.currentTerm == a.term && a.prevLogIndex + 1 <= |f.log|
      && f1.log == ReconciledLog(f.log, a.prevLogIndex + 1, Payload(a.entries))
      && f1.commitIndex ==
           (if a.leaderCommit > f.commitIndex then Min(a.leaderCommit, |f1.log| - 1) else f.commitIndex)
  {
    HandledAs(f, a);
    var j, at, es := Joined(f, a), a.prevLogIndex + 1, Payload(a.entries);
    ReconcileLog(j, at, es);
    ReconcileFrame(j, at, es);
  }

  /** A round ends with the follower in step, or with the next index one lower; and once in step,
      the follower stays in step. In step, its commit index is the greater of its own and the leader's. */
  lemma RoundStep(l: Node, f: Node, p: int, batch: seq<RaftOp>)
    requires Ready(l, f, p)
    ensures var (l', f') := Round(l, f, p, batch);
      && Ready(l', f', p) && l'.currentTerm == l.currentTerm
      && (Synced(l', f', p) || Next(l', p) < Next(l, p))
      && (Synced(l, f, p) ==> Synced(l', f', p))
      && CommitPassed(l, f, l', f', p)
  {
    AppendReady(l, f, p, batch);
    var l1 := LeaderAppend(l, batch);
    assert Synced(l, f, p) ==> SameTerms(l1.log, f.log, Next(l1, p));
    ExchangeStep(l1, f, p);
  }

  /** The leader's commit index has not fallen, and the follower has it if it has taken the request. */
  predicate CommitPassed(l: Node, f: Node, l': Node, f': Node, p: int) {
    && l.commitIndex <= l'.commitIndex
    && f'.commitIndex == if Synced(l', f', p) then Max(f.commitIndex, l.commitIndex) else f.commitIndex
  }

  /** The request and the reply of a round. */
  function Exchange(l: Node, f: Node, p: int): (Node, Node) {
    var a := BuildAppend(l, p, l.currentTerm);
    if a.prevLogIndex < -1 then
      (l, f)
    else
      var (f1, reply) := HandleAppendEntries(f, a);
      (HandleAppendReply(l, p, l.currentTerm, a.prevLogIndex + 1, |a.entries|, reply), f1)
  }

  lemma ExchangeStep(l: Node, f: Node, p: int)
    requires Ready(l, f, p)
    ensures var (l', f') := Exchange(l, f, p);
      && Ready(l', f', p) && l'.currentTerm == l.currentTerm
      && (Synced(l', f', p) || Next(l', p) < Next(l, p))
      && (SameTerms(l.log, f.log, Next(l, p)) ==> Synced(l', f', p))
      && CommitPassed(l, f, l', f', p)
  {
    var a := BuildAppend(l, p, l.currentTerm);
    BuiltCarries(l, p);
    Answer(f, a, l.log);
    var (f1, r) := HandleAppendEntries(f, a);
    ReplyStep(l, f1, p, a, r);
  }

  /** What the reply does to the leader: its next index moves to the end of the log or one down. */
  lemma ReplyStep(l: Node, f1: Node, p: int, a: AppendEntriesParams, r: AppendEntriesRet)
    requires l.role == Leader && r.term == l.currentTerm && -1 <= l.commitIndex < |l.log|
    requires a.prevLogIndex + 1 + |a.entries| == |l.log|
    ensures var l' := HandleAppendReply(l, p, l.currentTerm, a.prevLogIndex + 1, |a.entries|, r);
      && l'.role == Leader && l'.currentTerm == l.currentTerm && l'.log == l.log
      && l.commitIndex <= l'.commitIndex < |l.log|
      && Next(l', p) == (if r.success then |l.log| else a.prevLogIndex)
      && (r.success ==> Lookup(l'.matchIndex, p) == |l.log| - 1)
  {
    StepReplicate.CommitTargetGreatest(Matched(l, p, |l.log|), |l.log|);
  }

  // Whole catch-ups

  /** However much is appended on the way, after more rounds than the next index the follower has
      the leader's whole log and all that the leader had committed at the start, and the next index has
      stayed inside the log. */
  lemma {:induction false} CatchUpTerminates(l: Node, f: Node, p: int, batches: seq<seq<RaftOp>>)
    requires Ready(l, f, p)
    ensures var (l', f') := Rounds(l, f, p, batches);
      && 0 <= Next(l', p) <= |l'.log| && Ready(l', f', p)
      && (|batches| > Next(l, p) || Synced(l, f, p) ==> Synced(l', f', p))
      && (|batches| > Next(l, p) ==> l.commitIndex <= f'.commitIndex)
      && l.commitIndex <= l'.commitIndex && f.commitIndex <= f'.commitIndex <= Max(f.commitIndex, l'.commitIndex)
    decreases |batches|
  {
    if batches != [] {
      RoundStep(l, f, p, batches[0]);
      var (l1, f1) := Round(l, f, p, batches[0]);
      CatchUpTerminates(l1, f1, p, batches[1..]);
    }
  }

  /** A leader and a follower in a run are ready for each other. */
  lemma RunReady(s: Cluster, n: int, v: int)
    requires Inv(s) && n in s.nodes && v in s.nodes - {n}
    requires s.nodes[n].role == Leader && TermOf(s, v) <= TermOf(s, n)
    ensures Ready(s.nodes[n], s.nodes[v], v)
  {
    var l, f := s.nodes[n], s.nodes[v];
    assert NodeOk(s, n) && NodeOk(s, v) && IndicesOk(s, l, v) && TermOk(s, l.currentTerm);
    var w := LogOf(s, n);
    forall i | 0 <= i < |f.log| ensures RelatedAt(f.log, l.log, l.currentTerm, i) {
      assert FromLeader(s.termLog, LogOf(s, v), i);
      if i < |l.log| && f.log[i].term == l.log[i].term {
        SameTermSamePrefix(s.termLog, LogOf(s, v), w, i);
        PrefixTerms(f.log, l.log, i + 1);
      }
    }
  }

  lemma PrefixTerms(f: seq<LogEntry>, l: seq<LogEntry>, k: nat)
    requires k <= |f| && k <= |l| && Plain(f)[..k] == Plain(l)[..k]
    ensures SameTerms(f, l, k)
  {
    forall i | 0 <= i < k ensures f[i].term == l[i].term {
      assert Plain(f)[..k][i] == Plain(l)[..k][i];
    }
  }

  /** In every state of every run, a leader that exchanges more rounds with a follower of no later
      term than its next index for it brings that follower's log up to its own, and its commit index up
      to what the leader's was; the leader knows that the follower has the whole log. */
  lemma CatchUpInRuns(members: set<int>, run: seq<Action>, i: nat, n: int, v: int, batches: seq<seq<RaftOp>>)
    requires Run(members, run) && i <= |run| && n in members && v in members && n != v
    requires var l, f := NodeAt(members, run, i, n), NodeAt(members, run, i, v);
      l.role == Leader && f.currentTerm <= l.currentTerm && |batches| > Next(l, v)
    ensures var (l', f') := Rounds(NodeAt(members, run, i, n), NodeAt(members, run, i, v), v, batches);
      Synced(l', f', v) && NodeAt(members, run, i, n).commitIndex <= f'.commitIndex
  {
    StateAtLater(members, run, i);
    RunReady(StateAt(members, run, i), n, v);
    CatchUpTerminates(NodeAt(members, run, i, n), NodeAt(members, run, i, v), v, batches);
  }
}
