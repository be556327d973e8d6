/** How commits get on: what an accepted request brings a follower, and when a leader commits. */
module CommitProgress {
  import opened RaftTypes
  import opened RaftHandlers
  import opened RaftCluster
  import opened ClusterInvariant
  import opened ElectionBasics
  import opened HandlerFacts
  import opened ClusterSafety
  import FollowerClamp
  import StepFollow
  import StepReplicate

  // To the follower

  /** The request that a leader builds ends where its log ends, with an entry of that term. */
  lemma EndOfRequest(x: Node, p: int, t: int, w: seq<LogEntry>)
    requires 0 <= Lookup(x.nextIndex, p) <= |x.log| && x.log != [] && IsWindow(w, BuildAppend(x, p, t))
    ensures End(BuildAppend(x, p, t)) == |x.log| <= |w| && w[|x.log| - 1].term == x.log[|x.log| - 1].term
  {
    var a := BuildAppend(x, p, t);
    if a.entries != [] {
      var last := |a.entries| - 1;
      assert Payload(a.entries)[last] == w[a.prevLogIndex + 1..a.prevLogIndex + 1 + |a.entries|][last];
    }
  }

  /** In every run: a follower that accepts a request has all of the log that the leader had when it sent
      the request, its commit index is the greater of its own and the leader's at that time, and it has
      released what the leader had committed then, in the same order. */
  lemma RequestDelivers(members: set<int>, run: seq<Action>, i: nat, j: nat, n: int, v: int, t: int, m: Msg)
    requires Run(members, run) && i < j < |run| && n in members && v in members
    requires run[i] == SendAppend(n, v, t) && run[j] == RecvAppend(m)
    requires m !in StateAt(members, run, i).net && m in StateAt(members, run, i + 1).net
    ensures m.AppReq? && m.to == v
    ensures Accepts(NodeAt(members, run, j, v), m.app) ==>
      var l, f, y := NodeAt(members, run, i, n), NodeAt(members, run, j, v), NodeAt(members, run, j + 1, v);
      && Plain(l.log) <= Plain(y.log)
      && y.commitIndex == (if l.commitIndex > f.commitIndex then l.commitIndex else f.commitIndex)
      && OpsBetween(Plain(l.log), 0, l.commitIndex + 1) <= PlainOps(y.released)
  {
    var s, s' := RunStep(members, run, i);
    WhatIsSent(s, n, v, t, m);
    if Accepts(NodeAt(members, run, j, v), m.app) {
      DeliversCommit(members, run, j, v, m);
      DeliversLog(members, run, i, j, n, v, m);
      DeliversOps(members, run, i, j + 1, n, v);
    }
  }

  lemma WhatIsSent(s: Cluster, n: int, v: int, t: int, m: Msg)
    requires Inv(s) && Step(s, SendAppend(n, v, t)) && v in s.members
    requires m !in s.net && m in Next(s, SendAppend(n, v, t)).net
    ensures m == AppReq(v, BuildAppend(s.nodes[n], v, t)) && m.app.leaderCommit == s.nodes[n].commitIndex
    ensures 0 <= Lookup(s.nodes[n].nextIndex, v) <= |s.nodes[n].log|
    ensures s.nodes[n].log != [] ==> EndsLike(s.nodes[n].log, m.app)
  {
    assert NodeOk(s, n) && IndicesOk(s, s.nodes[n], v);
    if s.nodes[n].log != [] { EndsAtEnd(s.nodes[n], v, t); }
  }

  /** Whatever log the request is a window of, it ends where `log` ends, with an entry of that term. */
  ghost predicate EndsLike(log: seq<LogEntry>, a: AppendEntriesParams)
    requires log != []
  {
    End(a) == |log| && forall w: seq<LogEntry> {:trigger IsWindow(w, a)} :: IsWindow(w, a) ==>
      |log| <= |w| && w[|log| - 1].term == log[|log| - 1].term
  }

  lemma EndsAtEnd(x: Node, p: int, t: int)
    requires 0 <= Lookup(x.nextIndex, p) <= |x.log| && x.log != []
    ensures EndsLike(x.log, BuildAppend(x, p, t))
  {
    forall w: seq<LogEntry> | IsWindow(w, BuildAppend(x, p, t))
      ensures |x.log| <= |w| && w[|x.log| - 1].term == x.log[|x.log| - 1].term
    {
      EndOfRequest(x, p, t, w);
    }
  }

  lemma DeliversCommit(members: set<int>, run: seq<Action>, j: nat, v: int, m: Msg)
    requires Run(members, run) && j < |run| && v in members && run[j] == RecvAppend(m) && m.AppReq? && m.to == v
    requires Accepts(NodeAt(members, run, j, v), m.app)
    ensures var f := NodeAt(members, run, j, v);
      NodeAt(members, run, j + 1, v).commitIndex ==
        if m.app.leaderCommit > f.commitIndex then m.app.leaderCommit else f.commitIndex
  {
    var u, u' := RunStep(members, run, j);
    FollowerClamp.ClampNeverBinds(members, run, j, m, u.nodes[v]);
  }

  lemma DeliversLog(members: set<int>, run: seq<Action>, i: nat, j: nat, n: int, v: int, m: Msg)
    requires Run(members, run) && i <= |run| && j < |run| && n in members && v in members
    requires run[j] == RecvAppend(m) && m.AppReq? && m.to == v && Accepts(NodeAt(members, run, j, v), m.app)
    requires var log := NodeAt(members, run, i, n).log; log != [] ==> EndsLike(log, m.app)
    ensures Plain(NodeAt(members, run, i, n).log) <= Plain(NodeAt(members, run, j + 1, v).log)
  {
    var log := NodeAt(members, run, i, n).log;
    if log != [] {
      EndReachedInRun(members, run, j, v, m, log);
      LogMatching(members, run, i, j + 1, n, v, |log| - 1);
      assert Plain(log)[..|log|] == Plain(log);
    }
  }

  lemma EndReachedInRun(members: set<int>, run: seq<Action>, j: nat, v: int, m: Msg, log: seq<LogEntry>)
    requires Run(members, run) && j < |run| && v in members && run[j] == RecvAppend(m) && m.AppReq? && m.to == v
    requires Accepts(NodeAt(members, run, j, v), m.app) && log != [] && EndsLike(log, m.app)
    ensures var y := NodeAt(members, run, j + 1, v);
      |log| <= |y.log| && y.log[|log| - 1].term == log[|log| - 1].term
  {
    var u, u' := RunStep(members, run, j);
    EndReached(u, m, log);
  }

  lemma EndReached(u: Cluster, m: Msg, log: seq<LogEntry>)
    requires Inv(u) && Enabled(u, RecvAppend(m)) && Accepts(u.nodes[m.to], m.app) && log != [] && EndsLike(log, m.app)
    ensures var y := NextRecvAppend(u, m).nodes[m.to];
      |log| <= |y.log| && y.log[|log| - 1].term == log[|log| - 1].term
  {
    var log' := StepFollow.AcceptedIs(u, m);
    var w, k := u.termLog[m.app.term], |log|;
    assert w[..k][k - 1] == Plain(log')[k - 1];
  }

  /** A replica whose commit index is not below another's has released all that the other has. */
  lemma DeliversOps(members: set<int>, run: seq<Action>, i: nat, j: nat, n: int, v: int)
    requires Run(members, run) && i <= |run| && j <= |run| && n in members && v in members
    requires NodeAt(members, run, i, n).commitIndex <= NodeAt(members, run, j, v).commitIndex
    ensures var l := NodeAt(members, run, i, n);
      OpsBetween(Plain(l.log), 0, l.commitIndex + 1) <= PlainOps(NodeAt(members, run, j, v).released)
  {
    AppliedIsCommitted(members, run, i, n);
    AppliedIsCommitted(members, run, j, v);
    StateMachineSafety(members, run, i, j, n, v);
  }

  // At the leader

  /** The last index that replica `v` has confirmed to leader `n` since it won, after one more action: the end
      of the last request whose success `n` has heard of, which need not be the farthest. */
  ghost function Confirm(s: Cluster, a: Action, before: int, n: int, v: int): int
    requires Enabled(s, a) && n in s.nodes
  {
    if a.RecvVoteRsp? && a.m.to == n && s.nodes[n].role == Candidate then -1
    else if Confirms(s, a, n) && a.m.from == v then a.m.next + a.m.count - 1
    else before
  }

  /** The leader hears that a request of its term has succeeded. */
  predicate Confirms(s: Cluster, a: Action, n: int) {
    && a.RecvAppendRsp? && a.m.AppRsp? && a.m.to == n && n in s.nodes && s.nodes[n].role == Leader
    && a.m.appRet.success && a.m.appRet.term == a.m.saved
  }

  ghost function ConfirmedAfter(s: Cluster, before: int, run: seq<Action>, n: int, v: int): int
    requires Legal(s, run) && n in s.nodes
    decreases |run|
  {
    if run == [] || n !in Next(s, run[0]).nodes then before
    else ConfirmedAfter(Next(s, run[0]), Confirm(s, run[0], before, n, v), run[1..], n, v)
  }

  ghost function Confirmed(members: set<int>, run: seq<Action>, i: nat, n: int, v: int): int
    requires Run(members, run) && i <= |run| && n in members
  {
    SplitRun(Init(members), run, i);
    ConfirmedAfter(Init(members), -1, run[..i], n, v)
  }

  /** A leader's match index is what was confirmed. */
  predicate Matches(x: Node, v: int, confirmed: int) {
    x.role == Leader ==> v in x.matchIndex && x.matchIndex[v] == confirmed
  }

  lemma StepMatches(s: Cluster, a: Action, n: int, v: int, confirmed: int)
    requires Inv(s) && Step(s, a) && n in s.nodes && v in s.nodes && v != n && Matches(s.nodes[n], v, confirmed)
    ensures n in Next(s, a).nodes && Matches(Next(s, a).nodes[n], v, Confirm(s, a, confirmed, n, v))
  {
    assert NodeOk(s, n);
    if a.RecvVoteRsp? {
      VoteRspMatches(s, a.m, n, v, confirmed);
    } else if a.RecvAppendRsp? {
      AppendRspMatches(s, a.m, n, v, confirmed);
    } else {
      OtherMatches(s, a, n, v, confirmed);
    }
  }

  lemma VoteRspMatches(s: Cluster, m: Msg, n: int, v: int, confirmed: int)
    requires Enabled(s, RecvVoteRsp(m)) && n in s.nodes && v in s.nodes[n].peers && Matches(s.nodes[n], v, confirmed)
    ensures n in NextRecvVoteRsp(s, m).nodes
    ensures Matches(NextRecvVoteRsp(s, m).nodes[n], v, Confirm(s, RecvVoteRsp(m), confirmed, n, v))
  {
    CountedNodes(s, m);
    if m.to == n { VoteMatches(s.nodes[n], m, v, confirmed); }
  }

  lemma AppendRspMatches(s: Cluster, m: Msg, n: int, v: int, confirmed: int)
    requires Enabled(s, RecvAppendRsp(m)) && n in s.nodes && Matches(s.nodes[n], v, confirmed)
    ensures n in NextRecvAppendRsp(s, m).nodes
    ensures Matches(NextRecvAppendRsp(s, m).nodes[n], v, Confirm(s, RecvAppendRsp(m), confirmed, n, v))
  {
    if m.to == n { ReplyMatches(s.nodes[n], m, v, confirmed); }
  }

  lemma OtherMatches(s: Cluster, a: Action, n: int, v: int, confirmed: int)
    requires Step(s, a) && n in s.nodes && !a.RecvVoteRsp? && !a.RecvAppendRsp? && Matches(s.nodes[n], v, confirmed)
    ensures n in Next(s, a).nodes && Matches(Next(s, a).nodes[n], v, confirmed)
  {
    if a.RecvAppend? {
      if a.m.to == n { AppendMatches(s.nodes[n], a.m.app, v, confirmed); }
    } else if Restarts(a, n) {
      RestartMatches(s, a, n);
    } else if a.Append? {
      AppendSame(s, a, n);
    } else {
      SameMatches(s, a, n);
    }
  }

  lemma RestartMatches(s: Cluster, a: Action, n: int)
    requires Enabled(s, a) && Restarts(a, n)
    ensures n in Next(s, a).nodes && Next(s, a).nodes[n].role == Follower
  {
  }

  lemma AppendSame(s: Cluster, a: Action, n: int)
    requires Enabled(s, a) && R4(s, a) && n in s.nodes && a.Append?
    ensures n in Next(s, a).nodes
    ensures Next(s, a).nodes[n].role == s.nodes[n].role && Next(s, a).nodes[n].matchIndex == s.nodes[n].matchIndex
  {
    AppendAllData(s.nodes[a.n], Stamp(s.nodes[a.n].currentTerm, a.ops));
  }

  lemma VoteMatches(x: Node, m: Msg, v: int, confirmed: int)
    requires m.VoteRsp? && v in x.peers && Matches(x, v, confirmed)
    ensures Matches(HandleVoteReply(x, m.saved, m.voteRet), v, if x.role == Candidate then -1 else confirmed)
  {
  }

  lemma ReplyMatches(x: Node, m: Msg, v: int, confirmed: int)
    requires m.AppRsp? && Matches(x, v, confirmed)
    ensures var hears := x.role == Leader && m.appRet.success && m.appRet.term == m.saved && m.from == v;
      Matches(HandleAppendReply(x, m.from, m.saved, m.next, m.count, m.appRet), v,
        if hears then m.next + m.count - 1 else confirmed)
  {
  }

  /** Only a stale request leaves a leader in its role. */
  lemma AppendMatches(x: Node, a: AppendEntriesParams, v: int, confirmed: int)
    requires a.prevLogIndex >= -1 && Matches(x, v, confirmed)
    ensures Matches(HandleAppendEntries(x, a).0, v, confirmed)
  {
    if a.term >= x.currentTerm { HandledRole(x, a); }
  }

  lemma SameMatches(s: Cluster, a: Action, n: int)
    requires Enabled(s, a) && n in s.nodes && !Restarts(a, n)
    requires !a.RecvVoteRsp? && !a.RecvAppendRsp? && !a.Append? && !a.RecvAppend?
    ensures n in Next(s, a).nodes
    ensures Next(s, a).nodes[n].role == Leader ==>
      s.nodes[n].role == Leader && Next(s, a).nodes[n].matchIndex == s.nodes[n].matchIndex
  {
  }

  lemma {:induction false} RunMatches(s: Cluster, run: seq<Action>, n: int, v: int, confirmed: int)
    requires Inv(s) && Legal(s, run) && n in s.nodes && v in s.nodes && v != n && Matches(s.nodes[n], v, confirmed)
    ensures n in After(s, run).nodes && Matches(After(s, run).nodes[n], v, ConfirmedAfter(s, confirmed, run, n, v))
    decreases |run|
  {
    if run != [] {
      StepKeeps(s, run[0]);
      StepMatches(s, run[0], n, v, confirmed);
      RunMatches(Next(s, run[0]), run[1..], n, v, Confirm(s, run[0], confirmed, n, v));
    }
  }

  /** In every state of every run a leader's match index for a peer is what the peer confirmed last. */
  lemma MatchIsConfirmed(members: set<int>, run: seq<Action>, i: nat, n: int, v: int)
    requires Run(members, run) && i <= |run| && n in members && v in members && v != n
    ensures Matches(NodeAt(members, run, i, n), v, Confirmed(members, run, i, n, v))
  {
    InitInv(members);
    SplitRun(Init(members), run, i);
    RunMatches(Init(members), run[..i], n, v, -1);
  }

  /** The leader and the members that have confirmed index `k` to it. */
  ghost function Backers(members: set<int>, run: seq<Action>, i: nat, n: int, k: int): set<int>
    requires Run(members, run) && i <= |run| && n in members
  {
    {n} + set v | v in members - {n} && Confirmed(members, run, i, n, v) >= k
  }

  /** An entry of the leader's term that it and those who confirmed it hold as a majority. */
  ghost predicate Backed(members: set<int>, run: seq<Action>, i: nat, n: int, k: int)
    requires Run(members, run) && i <= |run| && n in members
  {
    var x := NodeAt(members, run, i, n);
    0 <= k < |x.log| && x.log[k].term == x.currentTerm && Majority(members, Backers(members, run, i, n, k))
  }

  /** The greatest backed index above `before`, or `before` if there is none. */
  ghost predicate GreatestBacked(members: set<int>, run: seq<Action>, i: nat, n: int, before: int, c: int)
    requires Run(members, run) && i <= |run| && n in members
  {
    && (c == before || (c > before && Backed(members, run, i, n, c)))
    && (forall k :: k > c ==> !Backed(members, run, i, n, k))
  }

  /** In every run: when a leader hears of a success, its commit index moves to the greatest index above it
      that a majority has confirmed in its term, or stays where it is if there is none. */
  lemma LeaderCommitsExactly(members: set<int>, run: seq<Action>, i: nat, n: int)
    requires Run(members, run) && i < |run| && n in members && Confirms(StateAt(members, run, i), run[i], n)
    ensures GreatestBacked(members, run, i + 1, n,
      NodeAt(members, run, i, n).commitIndex, NodeAt(members, run, i + 1, n).commitIndex)
  {
    var s, s' := RunStep(members, run, i);
    assert NodeOk(s, n);
    ReplyCommits(s.nodes[n], run[i].m);
    AllBacked(members, run, i + 1, n);
  }

  lemma AllBacked(members: set<int>, run: seq<Action>, i: nat, n: int)
    requires Run(members, run) && i <= |run| && n in members && NodeAt(members, run, i, n).role == Leader
    ensures forall k :: Committable(NodeAt(members, run, i, n), k) <==> Backed(members, run, i, n, k)
  {
    forall k ensures Committable(NodeAt(members, run, i, n), k) <==> Backed(members, run, i, n, k) {
      CommittableIsBacked(members, run, i, n, k);
    }
  }

  /** What hearing of a success does to the commit index, in terms of the leader's own count. */
  lemma ReplyCommits(x: Node, m: Msg)
    requires m.AppRsp? && x.role == Leader && m.appRet.success && m.appRet.term == m.saved && x.commitIndex >= -1
    ensures var y := HandleAppendReply(x, m.from, m.saved, m.next, m.count, m.appRet);
      && y.role == Leader
      && (y.commitIndex == x.commitIndex || (y.commitIndex > x.commitIndex && Committable(y, y.commitIndex)))
      && (forall k :: k > y.commitIndex ==> !Committable(y, k))
  {
    var z := Matched(x, m.from, m.next + m.count);
    StepReplicate.CommitTargetGreatest(z, |z.log|);
    var y := LeaderCommit(z);
    forall k ensures Committable(y, k) <==> Committable(z, k) { SameCommittable(z, y, k); }
  }

  lemma SameCommittable(z: Node, y: Node, k: int)
    requires y.log == z.log && y.matchIndex == z.matchIndex && y.currentTerm == z.currentTerm
    requires y.peers == z.peers && y.config == z.config && y.id == z.id
    ensures Committable(y, k) <==> Committable(z, k)
  {
    assert MatchedPeers(y, k) == MatchedPeers(z, k);
  }

  lemma CommittableIsBacked(members: set<int>, run: seq<Action>, i: nat, n: int, k: int)
    requires Run(members, run) && i <= |run| && n in members && NodeAt(members, run, i, n).role == Leader
    ensures Committable(NodeAt(members, run, i, n), k) <==> Backed(members, run, i, n, k)
  {
    StateAtLater(members, run, i);
    assert NodeOk(StateAt(members, run, i), n);
    BackersAre(members, run, i, n, k);
    BackersCount(members, run, i, n, k);
  }

  /** The backers are the leader and the peers that the commit loop counts. */
  lemma BackersAre(members: set<int>, run: seq<Action>, i: nat, n: int, k: int)
    requires Run(members, run) && i <= |run| && n in members && NodeAt(members, run, i, n).role == Leader
    ensures Backers(members, run, i, n, k) == {n} + MatchedPeers(NodeAt(members, run, i, n), k)
    ensures n !in MatchedPeers(NodeAt(members, run, i, n), k)
  {
    StateAtLater(members, run, i);
    assert NodeOk(StateAt(members, run, i), n);
    forall v | v in members - {n} { MatchIsConfirmed(members, run, i, n, v); }
  }

  lemma BackersCount(members: set<int>, run: seq<Action>, i: nat, n: int, k: int)
    requires Run(members, run) && i <= |run| && n in members && NodeAt(members, run, i, n).role == Leader
    requires Backers(members, run, i, n, k) == {n} + MatchedPeers(NodeAt(members, run, i, n), k)
    requires n !in MatchedPeers(NodeAt(members, run, i, n), k)
    ensures MatchCount(NodeAt(members, run, i, n), k) == |Backers(members, run, i, n, k)|
    ensures Backers(members, run, i, n, k) <= members
  {
    StateAtLater(members, run, i);
    assert NodeOk(StateAt(members, run, i), n);
  }
}
