/** The follower clamps the leader's commit index to its own log's end; Figure 2 of the extended
    Raft paper clamps it to the last entry of the request. When the two agree. */
module FollowerClamp {
  import opened RaftTypes
  import opened RaftHandlers
  import opened RaftCluster
  import opened ClusterInvariant
  import opened HandlerFacts
  import opened ClusterSafety

  /** The index of the last entry of a request, the one before the window if it is empty. */
  function LastNew(a: AppendEntriesParams): int {
    a.prevLogIndex + |a.entries|
  }

  /** The commit rule of Figure 2. */
  function Figure2Commit(commit: int, a: AppendEntriesParams): int {
    if a.leaderCommit > commit then Min(a.leaderCommit, LastNew(a)) else commit
  }

  /** Every entry of the window is in the log already, and the log goes on after it. */
  predicate GoesPast(log: seq<LogEntry>, a: AppendEntriesParams)
    requires a.prevLogIndex >= -1
  {
    && LastNew(a) + 1 < |log|
    && forall i :: 0 <= i < |a.entries| ==> log[a.prevLogIndex + 1 + i].term == a.entries[i].term
  }

  /** The length of the log after an accepted request. */
  lemma AcceptedLength(n: Node, a: AppendEntriesParams)
    requires Accepts(n, a)
    ensures a.prevLogIndex + 1 <= |n.log|
    ensures |ReconciledLog(n.log, a.prevLogIndex + 1, Payload(a.entries))| ==
      if GoesPast(n.log, a) then |n.log| else LastNew(a) + 1
  {
    var at, es := a.prevLogIndex + 1, Payload(a.entries);
    MatchLenStops(n.log, at, es);
    var k := MatchLen(n.log, at, es);
    assert GoesPast(n.log, a) ==> k == |es|;
    if k == |es| && |n.log| > LastNew(a) + 1 {
      assert forall i :: 0 <= i < |a.entries| ==> n.log[at + i].term == es[i].term;
    }
  }

  lemma AcceptedCommitIndex(n: Node, a: AppendEntriesParams)
    requires Accepts(n, a)
    ensures a.prevLogIndex + 1 <= |n.log|
    ensures var end := |ReconciledLog(n.log, a.prevLogIndex + 1, Payload(a.entries))| - 1;
      HandleAppendEntries(n, a).0.commitIndex ==
        if a.leaderCommit > n.commitIndex then Min(a.leaderCommit, end) else n.commitIndex
  {
    var at, es := a.prevLogIndex + 1, Payload(a.entries);
    var y := Joined(n, a);
    ReconcileLog(y, at, es);
    ReconcileFrame(y, at, es);
  }

  /** The two rules give the same commit index exactly when the leader's commit index is not new,
      or lies within the request, or the follower's log ends with the request. */
  lemma ClampIsFigure2(n: Node, a: AppendEntriesParams)
    requires Accepts(n, a)
    ensures HandleAppendEntries(n, a).0.commitIndex == Figure2Commit(n.commitIndex, a) <==>
      a.leaderCommit <= n.commitIndex || a.leaderCommit <= LastNew(a) || !GoesPast(n.log, a)
  {
    AcceptedLength(n, a);
    AcceptedCommitIndex(n, a);
  }

  /** Where they differ: a heartbeat for the first entry that claims the second one committed, at a
      follower that has a second entry of its own. */
  lemma ClampCanDiffer() returns (n: Node, a: AppendEntriesParams)
    ensures Accepts(n, a)
    ensures HandleAppendEntries(n, a).0.commitIndex == 1 && Figure2Commit(n.commitIndex, a) == 0
  {
    var e := LogEntry(1, RaftOp(Get(0), None));
    n := Node(1, 2, -1, [e, e], Follower, -1, -1, 0, {0, 1}, -1, {0}, map[], map[], 0, []);
    a := AppendEntriesParams(2, 0, 0, 1, [], 1);
    AcceptedCommitIndex(n, a);
    AcceptedLength(n, a);
  }

  /** A request that a leader builds reaches the end of its log, so past its commit index. */
  lemma BuiltReachesCommit(n: Node, peer: int, saved: int)
    requires 0 <= Lookup(n.nextIndex, peer) <= |n.log| && n.commitIndex < |n.log|
    ensures var a := BuildAppend(n, peer, saved);
      LastNew(a) == |n.log| - 1 && a.leaderCommit <= LastNew(a)
  {
  }

  /** In every run the clamp never binds: whatever request is on its way and whatever replica
      accepts it, the commit index is that of Figure 2, and that is the greater of the follower's
      and the leader's. */
  lemma ClampNeverBinds(members: set<int>, run: seq<Action>, i: nat, m: Msg, n: Node)
    requires Run(members, run) && i <= |run| && m in StateAt(members, run, i).net && m.AppReq?
    requires Accepts(n, m.app)
    ensures var c := HandleAppendEntries(n, m.app).0.commitIndex;
      && c == Figure2Commit(n.commitIndex, m.app)
      && c == if m.app.leaderCommit > n.commitIndex then m.app.leaderCommit else n.commitIndex
  {
    StateAtLater(members, run, i);
    assert MsgOk(StateAt(members, run, i), m);
    ClampIsFigure2(n, m.app);
  }
}
