/** A follower's handling of a replication request keeps the invariant.

    The handler is taken apart once: a refused request changes term, role and vote at most, an accepted
    one also replaces the log by one that the request determines. The lemmas below speak of these
    forms and not of the handler. */
module StepFollow {
  import opened RaftTypes
  import opened RaftHandlers
  import opened RaftCluster
  import opened ClusterInvariant
  import opened ClusterGrowth
  import opened HandlerFacts
  import opened LeaderCompleteness
  import StepReplicate

  // The two forms

  function RefusedNode(x: Node, a: AppendEntriesParams): Node {
    if a.term < x.currentTerm then x.(lastKnownLeader := a.leaderId) else Joined(x, a)
  }

  function RefusedRet(x: Node, a: AppendEntriesParams): AppendEntriesRet {
    AppendEntriesRet(if a.term < x.currentTerm then x.currentTerm else a.term, false)
  }

  function AcceptedNode(x: Node, a: AppendEntriesParams, log: seq<LogEntry>): Node {
    FollowerCommit(Joined(x, a).(log := log), a.leaderCommit)
  }

  /** `p` is in both logs. */
  predicate Shared(p: seq<LogEntry>, log: seq<LogEntry>, w: seq<LogEntry>) {
    p <= Plain(log) && p <= w
  }

  /** The follower's log `log` has become `log'`, which holds the leader's log `w` up to `e`, is unchanged
      or exactly that, and still has whatever the two had in common. */
  ghost predicate Rewritten(log: seq<LogEntry>, log': seq<LogEntry>, w: seq<LogEntry>, e: int) {
    && 0 <= e <= |w| && w[..e] <= Plain(log') && (log' == log || Plain(log') == w[..e])
    && (forall p {:trigger Shared(p, log, w)} :: Shared(p, log, w) ==> p <= Plain(log'))
  }

  /** A request that reaches a replica fits its log and its leader's log. */
  lemma RequestFits(s: Cluster, m: Msg)
    requires Inv(s) && Enabled(s, RecvAppend(m)) && Accepts(s.nodes[m.to], m.app)
    ensures MsgOk(s, m) && TermOk(s, m.app.term)
    ensures Fits(s.nodes[m.to].log, s.termLog[m.app.term], m.app.prevLogIndex + 1, Payload(m.app.entries))
    ensures AllData(Payload(m.app.entries))
  {
    assert MsgOk(s, m) && NodeOk(s, m.to) && TermOk(s, m.app.term);
    ValidAgrees(s.termLog, s.nodes[m.to].log, s.termLog[m.app.term]);
    WindowFits(s.nodes[m.to].log, s.termLog[m.app.term], m.app);
  }

  lemma WindowFits(log: seq<LogEntry>, w: seq<LogEntry>, a: AppendEntriesParams)
    requires Agrees(log, w) && AllData(w) && IsWindow(w, a) && PrevMatches(log, a)
    requires Plain(Payload(a.entries)) == Payload(a.entries)
    ensures Fits(log, w, a.prevLogIndex + 1, Payload(a.entries)) && AllData(Payload(a.entries))
  {
    forall i | 0 <= i < |a.entries| ensures Payload(a.entries)[i].op.IsData() {
      assert Payload(a.entries)[i] == w[a.prevLogIndex + 1 + i];
    }
  }

  lemma FitsRewritten(log: seq<LogEntry>, w: seq<LogEntry>, at: nat, es: seq<LogEntry>, e: int)
    requires Fits(log, w, at, es) && e == at + |es|
    ensures Rewritten(log, ReconciledLog(log, at, es), w, e)
  {
    AcceptedLog(log, w, at, es);
    forall p | Shared(p, log, w) ensures p <= Plain(ReconciledLog(log, at, es)) {
      AcceptKeeps(log, w, at, es, p);
    }
  }

  /** What an accepted request makes of the replica. */
  lemma AcceptedForm(x: Node, a: AppendEntriesParams) returns (log: seq<LogEntry>)
    requires Accepts(x, a) && AllData(Payload(a.entries))
    ensures a.prevLogIndex + 1 <= |x.log| && log == ReconciledLog(x.log, a.prevLogIndex + 1, Payload(a.entries))
    ensures HandleAppendEntries(x, a) == (AcceptedNode(x, a, log), AppendEntriesRet(a.term, true))
  {
    ReconcileLog(Joined(x, a), a.prevLogIndex + 1, Payload(a.entries));
    log := ReconciledLog(x.log, a.prevLogIndex + 1, Payload(a.entries));
  }

  lemma RefusedForm(x: Node, a: AppendEntriesParams)
    requires a.prevLogIndex >= -1 && !Accepts(x, a)
    ensures HandleAppendEntries(x, a) == (RefusedNode(x, a), RefusedRet(x, a))
  {
  }

  /** The accepted form, and the log that it ends in. */
  lemma AcceptedIs(s: Cluster, m: Msg) returns (log: seq<LogEntry>)
    requires Inv(s) && Enabled(s, RecvAppend(m)) && Accepts(s.nodes[m.to], m.app)
    ensures MsgOk(s, m) && TermOk(s, m.app.term)
    ensures Rewritten(s.nodes[m.to].log, log, s.termLog[m.app.term], End(m.app))
    ensures HandleAppendEntries(s.nodes[m.to], m.app) ==
      (AcceptedNode(s.nodes[m.to], m.app, log), AppendEntriesRet(m.app.term, true))
  {
    RequestFits(s, m);
    log := AcceptedWith(s.nodes[m.to], m.app, s.termLog[m.app.term]);
  }

  lemma AcceptedWith(x: Node, a: AppendEntriesParams, w: seq<LogEntry>) returns (log: seq<LogEntry>)
    requires Accepts(x, a) && AllData(Payload(a.entries))
    requires Fits(x.log, w, a.prevLogIndex + 1, Payload(a.entries))
    ensures Rewritten(x.log, log, w, End(a))
    ensures HandleAppendEntries(x, a) == (AcceptedNode(x, a, log), AppendEntriesRet(a.term, true))
  {
    log := AcceptedForm(x, a);
    FitsRewritten(x.log, w, a.prevLogIndex + 1, Payload(a.entries), End(a));
  }

  lemma RecvAppendKeeps(s: Cluster, m: Msg)
    requires Inv(s) && Step(s, RecvAppend(m))
    ensures Inv(NextRecvAppend(s, m)) && Grows(s, NextRecvAppend(s, m))
  {
    var x, a := s.nodes[m.to], m.app;
    if Accepts(x, a) {
      var log := AcceptedIs(s, m);
      AcceptedKeeps(s, m, log);
    } else {
      RefusedForm(x, a);
      RefusedKeeps(s, m);
    }
  }

  // Growth

  /** Term, role and vote after a request, whatever happens to the log. */
  predicate Entered(x: Node, y: Node, a: AppendEntriesParams) {
    && y.currentTerm == (if a.term > x.currentTerm then a.term else x.currentTerm)
    && (a.term < x.currentTerm ==> y.role == x.role && y.votedFor == x.votedFor && y.log == x.log)
    && (a.term >= x.currentTerm ==> y.role == Follower)
    && (a.term == x.currentTerm && x.role == Follower ==> y.votedFor == x.votedFor)
  }

  /** In its current term a replica of the winning quorum has nothing to forget. */
  lemma EnteredGrows(s: Cluster, s': Cluster, v: int, a: AppendEntriesParams)
    requires v in s.nodes && v in s'.nodes && s'.elections == s.elections && Entered(s.nodes[v], s'.nodes[v], a)
    requires a.term in s.elections && TermOk(s, a.term) && v != s.elections[a.term].leader
    ensures NodeGrows(s, s', v)
  {
    if TermOf(s, v) == a.term && v in s.elections[a.term].quorum {
      assert QuorumVoteOk(s, a.term, v);
    }
  }

  lemma AnsweredGrows(s: Cluster, s': Cluster, m: Msg, y: Node, r: AppendEntriesRet)
    requires m.AppReq? && MsgOk(s, m) && TermOk(s, m.app.term)
    requires s' == Answered(s, m, y, r) && Entered(s.nodes[m.to], y, m.app)
    requires r.success ==> m.app.term >= TermOf(s, m.to)
    ensures Grows(s, s')
  {
    EnteredGrows(s, s', m.to, m.app);
  }

  // What every answer shows of its own

  lemma AnsweredParts(s: Cluster, s': Cluster, m: Msg, y: Node, r: AppendEntriesRet)
    requires m.AppReq? && m.app.prevLogIndex >= -1 && m.to in s.nodes && s' == Answered(s, m, y, r)
    requires s.termLog.Keys == s.elections.Keys && LeadersRecorded(s) && NodeOk(s', m.to)
    requires LeaderElsewhere(s, m.to, m.app.term)
    requires forall t, v {:trigger AckCase(s, s', t, v)} :: (t, v) in s'.acked ==> AckCase(s, s', t, v)
    requires MsgOk(s', AppRsp(m.app.term, m.to, m.app.leaderId, m.app.prevLogIndex + 1, |m.app.entries|, r))
    ensures NewPartsOk(s, s', m.to)
  {
    SamePast(s, s');
    forall i | i in s.nodes && i in s'.nodes && i != m.to ensures Untouched(s, s', i) {
    }
  }

  /** An acknowledgement of another replica is not a leader's own. */
  predicate LeaderElsewhere(s: Cluster, v: int, t: int) {
    t in s.elections && s.elections[t].leader != v
  }

  lemma ReplyOk(s: Cluster, s': Cluster, m: Msg, r: AppendEntriesRet)
    requires m.AppReq? && MsgOk(s, m) && Grows(s, s') && TermOk(s, m.app.term)
    requires r.success ==>
      r.term == m.app.term && m.app.prevLogIndex + 1 + |m.app.entries| <= Acked(s', m.app.term, m.to)
    requires !r.success && r.term == m.app.term ==> m.app.prevLogIndex >= 0
    ensures MsgOk(s', AppRsp(m.app.term, m.to, m.app.leaderId, m.app.prevLogIndex + 1, |m.app.entries|, r))
  {
    assert TermLogGrows(s, s', m.app.term);
  }

  /** An answer keeps the invariant once the replica and the acknowledgements are shown. */
  lemma AnsweredKeeps(s: Cluster, s': Cluster, m: Msg, y: Node, r: AppendEntriesRet)
    requires Inv(s) && m.AppReq? && MsgOk(s, m) && TermOk(s, m.app.term) && s' == Answered(s, m, y, r)
    requires Grows(s, s') && NodeOk(s', m.to)
    requires forall t, v {:trigger AckCase(s, s', t, v)} :: (t, v) in s'.acked ==> AckCase(s, s', t, v)
    requires r.success ==> r.term == m.app.term
    requires !r.success && r.term == m.app.term ==> m.app.prevLogIndex >= 0
    ensures Inv(s')
  {
    ReplyOk(s, s', m, r);
    AnsweredParts(s, s', m, y, r);
    Assemble(s, s', m.to);
  }

  // A refused request

  lemma RefusedKeeps(s: Cluster, m: Msg)
    requires Inv(s) && Enabled(s, RecvAppend(m)) && !Accepts(s.nodes[m.to], m.app)
    ensures var s' := Answered(s, m, RefusedNode(s.nodes[m.to], m.app), RefusedRet(s.nodes[m.to], m.app));
      Inv(s') && Grows(s, s')
  {
    var x, a := s.nodes[m.to], m.app;
    var y, r := RefusedNode(x, a), RefusedRet(x, a);
    var s' := Answered(s, m, y, r);
    assert MsgOk(s, m) && NodeOk(s, m.to) && TermOk(s, a.term);
    AnsweredGrows(s, s', m, y, r);
    RefusedNodeOk(s, s', m.to, a);
    AcksUnchanged(s, s', m.to);
    AnsweredKeeps(s, s', m, y, r);
  }

  lemma RefusedNodeOk(s: Cluster, s': Cluster, v: int, a: AppendEntriesParams)
    requires v in s.nodes && v in s'.nodes && NodeOk(s, v) && Grows(s, s')
    requires s'.nodes[v] == RefusedNode(s.nodes[v], a)
    requires s'.tally == s.tally && s'.termLog == s.termLog && s'.acked == s.acked
    ensures NodeOk(s', v)
  {
    NodeFrame(s, s', v);
    if a.term < TermOf(s, v) { StaleNodeOk(s, s', v); }
  }

  /** A replica of which only the known leader changes. */
  lemma StaleNodeOk(s: Cluster, s': Cluster, n: int)
    requires n in s.nodes && n in s'.nodes && NodeOk(s, n) && Grows(s, s') && NodeBasics(s', n) && NodeCommit(s', n)
    requires s'.nodes[n] == s.nodes[n].(lastKnownLeader := s'.nodes[n].lastKnownLeader)
    requires s'.tally == s.tally && s'.termLog == s.termLog && s'.acked == s.acked
    ensures NodeOk(s', n)
  {
    var x, y := s.nodes[n], s'.nodes[n];
    if y.role == Candidate {
      assert BallotGrows(s, s', x.currentTerm, n);
      forall v | v in Tally(s, x.currentTerm, n) ensures Granted(s', x.currentTerm, v, n) {
        assert Granted(s, x.currentTerm, v, n);
        GrantedStable(s, s', x.currentTerm, v, n);
      }
    }
    if y.role == Leader {
      assert TermLogGrows(s, s', x.currentTerm);
      forall p | p in y.peers ensures IndicesOk(s', y, p) { assert IndicesOk(s, x, p); }
    }
  }

  // An accepted request

  /** The state after an accepted request, and what is known of the log. */
  ghost predicate AcceptedStep(s: Cluster, s': Cluster, m: Msg, log: seq<LogEntry>) {
    && m.AppReq? && m.app.prevLogIndex >= -1 && m.to in s.nodes && m.app.term >= TermOf(s, m.to)
    && m.app.term in s.elections && m.app.term in s.termLog
    && s' == Answered(s, m, AcceptedNode(s.nodes[m.to], m.app, log), AppendEntriesRet(m.app.term, true))
    && Rewritten(s.nodes[m.to].log, log, s.termLog[m.app.term], End(m.app))
  }

  lemma AcceptedKeeps(s: Cluster, m: Msg, log: seq<LogEntry>)
    requires Inv(s) && Enabled(s, RecvAppend(m)) && Accepts(s.nodes[m.to], m.app) && MsgOk(s, m)
    requires Rewritten(s.nodes[m.to].log, log, s.termLog[m.app.term], End(m.app))
    ensures var s' := Answered(s, m, AcceptedNode(s.nodes[m.to], m.app, log), AppendEntriesRet(m.app.term, true));
      Inv(s') && Grows(s, s')
  {
    var y, r := AcceptedNode(s.nodes[m.to], m.app, log), AppendEntriesRet(m.app.term, true);
    var s' := Answered(s, m, y, r);
    assert NodeOk(s, m.to) && TermOk(s, m.app.term);
    AcceptedFrame(s.nodes[m.to], m.app, log);
    AnsweredGrows(s, s', m, y, r);
    AcceptedNodeOk(s, s', m, log);
    AcceptedAcks(s, s', m, log);
    AnsweredKeeps(s, s', m, y, r);
  }

  /** What acceptance leaves alone. */
  lemma AcceptedFrame(x: Node, a: AppendEntriesParams, log: seq<LogEntry>)
    requires a.term >= x.currentTerm
    ensures var y := AcceptedNode(x, a, log);
      && y.id == x.id && y.config == x.config && y.peers == x.peers && y.log == log
      && y.currentTerm == a.term && y.role == Follower && Entered(x, y, a)
  {
  }

  lemma AcceptedNodeOk(s: Cluster, s': Cluster, m: Msg, log: seq<LogEntry>)
    requires Inv(s) && AcceptedStep(s, s', m, log) && Grows(s, s') && MsgOk(s, m) && TermOk(s, m.app.term)
    ensures NodeOk(s', m.to)
  {
    assert NodeOk(s, m.to);
    CommitSurvives(s, m.to, m.app.term, log);
    AcceptedNodeParts(s, s', m, log);
  }

  lemma AcceptedNodeParts(s: Cluster, s': Cluster, m: Msg, log: seq<LogEntry>)
    requires AcceptedStep(s, s', m, log) && Grows(s, s') && MsgOk(s, m) && TermOk(s, m.app.term) && NodeOk(s, m.to)
    requires LogOf(s, m.to)[..s.nodes[m.to].commitIndex + 1] <= Plain(log)
    ensures NodeOk(s', m.to)
  {
    AcceptedFrame(s.nodes[m.to], m.app, log);
    AcceptedBasics(s, s', m, log);
    AcceptedCommit(s, s', m.to, m.app, log);
    FollowerOk(s', m.to);
  }

  lemma FollowerOk(s: Cluster, n: int)
    requires n in s.nodes && NodeBasics(s, n) && NodeCommit(s, n) && s.nodes[n].role == Follower
    ensures NodeOk(s, n)
  {
  }

  lemma AcceptedBasics(s: Cluster, s': Cluster, m: Msg, log: seq<LogEntry>)
    requires AcceptedStep(s, s', m, log) && Grows(s, s') && TermOk(s, m.app.term) && NodeBasics(s, m.to)
    ensures NodeBasics(s', m.to)
  {
    AcceptedFrame(s.nodes[m.to], m.app, log);
    RewrittenBasics(s, s', m.to, m.app.term, End(m.app));
  }

  /** Truncation never reaches the commit index. */
  lemma CommitSurvives(s: Cluster, v: int, t: int, log: seq<LogEntry>)
    requires Inv(s) && v in s.nodes && t in s.elections && t in s.termLog && TermOf(s, v) <= t
    requires forall p {:trigger Shared(p, s.nodes[v].log, s.termLog[t])} ::
      Shared(p, s.nodes[v].log, s.termLog[t]) ==> p <= Plain(log)
    ensures -1 <= s.nodes[v].commitIndex < |s.nodes[v].log|
    ensures LogOf(s, v)[..s.nodes[v].commitIndex + 1] <= Plain(log)
  {
    var x := s.nodes[v];
    assert NodeOk(s, v);
    var p := LogOf(s, v)[..x.commitIndex + 1];
    PrefixInLeader(s, p, x.currentTerm, t);
    assert Shared(p, x.log, s.termLog[t]);
  }

  lemma RewrittenBasics(s: Cluster, s': Cluster, v: int, t: int, e: nat)
    requires Grows(s, s') && v in s.nodes && v in s'.nodes && NodeBasics(s, v)
    requires t in s.elections && TermOk(s, t) && e <= |s.termLog[t]|
    requires TermOf(s', v) == t
    requires var x, y := s.nodes[v], s'.nodes[v];
      && y.id == x.id && y.config == x.config && y.peers == x.peers
      && (y.log == x.log || Plain(y.log) == s.termLog[t][..e])
    ensures NodeBasics(s', v)
  {
    var x, y := s.nodes[v], s'.nodes[v];
    var w := s.termLog[t];
    LogTerms(s, t);
    assert NodeGrows(s, s', v) && s'.members == s.members;
    if y.log == x.log {
      ValidLogStable(s, s', Plain(x.log));
    } else {
      TakeValid(s.termLog, w, e);
      ValidLogStable(s, s', Plain(y.log));
      forall i | 0 <= i < |y.log| ensures y.log[i].op.IsData() && y.log[i].term <= t {
        assert Plain(y.log)[i] == w[i];
      }
    }
  }

  lemma TakeValid(tl: TermLogs, w: seq<LogEntry>, e: nat)
    requires ValidLog(tl, w) && e <= |w|
    ensures ValidLog(tl, w[..e])
  {
    forall i | 0 <= i < e ensures FromLeader(tl, w[..e], i) {
      assert FromLeader(tl, w, i);
      assert w[..e][..i + 1] == w[..i + 1];
    }
  }

  lemma AcceptedCommit(s: Cluster, s': Cluster, v: int, a: AppendEntriesParams, log: seq<LogEntry>)
    requires Grows(s, s') && AppReqOk(s, v, a) && v in s'.nodes && NodeCommit(s, v) && a.term >= TermOf(s, v)
    requires s'.nodes[v] == AcceptedNode(s.nodes[v], a, log)
    requires LogOf(s, v)[..s.nodes[v].commitIndex + 1] <= Plain(log)
    requires s.termLog[a.term][..End(a)] <= Plain(log)
    ensures NodeCommit(s', v)
  {
    var w := s.termLog[a.term];
    assert w[..a.leaderCommit + 1] == w[..End(a)][..a.leaderCommit + 1];
    CommitMoves(s, s', v, Joined(s.nodes[v], a).(log := log), a.leaderCommit, w[..a.leaderCommit + 1]);
  }

  /** The commit index moves to the leader's, whose committed prefix `c` the log holds, or stays. */
  lemma CommitMoves(s: Cluster, s': Cluster, v: int, z: Node, leaderCommit: int, c: seq<LogEntry>)
    requires Grows(s, s') && v in s.nodes && v in s'.nodes && NodeCommit(s, v)
    requires s'.nodes[v] == FollowerCommit(z, leaderCommit) && TermOf(s, v) <= z.currentTerm
    requires var x := s.nodes[v];
      && z.commitIndex == x.commitIndex && z.lastApplied == x.lastApplied && z.released == x.released
      && Plain(x.log)[..x.commitIndex + 1] <= Plain(z.log)
    requires leaderCommit + 1 == |c| && c <= Plain(z.log) && CommittedPrefix(s, c, z.currentTerm)
    ensures NodeCommit(s', v)
  {
    var x, y := s.nodes[v], s'.nodes[v];
    var p := Plain(x.log)[..x.commitIndex + 1];
    assert OpsBetween(p, 0, |p|) == OpsBetween(Plain(x.log), 0, x.commitIndex + 1);
    FollowerCommitFacts(z, leaderCommit, p);
    var q := if leaderCommit > x.commitIndex then c else p;
    assert Plain(y.log)[..y.commitIndex + 1] == q;
    var bound := if leaderCommit > x.commitIndex then z.currentTerm else x.currentTerm;
    CommittedPrefixStable(s, s', q, bound, y.currentTerm);
  }

  /** The follower's commit over a log that still holds what was released before. */
  lemma FollowerCommitFacts(z: Node, leaderCommit: int, p: seq<LogEntry>)
    requires -1 <= z.commitIndex < |z.log| && z.lastApplied == z.commitIndex && |p| == z.commitIndex + 1
    requires p <= Plain(z.log) && leaderCommit < |z.log|
    requires PlainOps(z.released) == OpsBetween(p, 0, |p|)
    ensures var y := FollowerCommit(z, leaderCommit);
      && y.commitIndex == (if leaderCommit > z.commitIndex then leaderCommit else z.commitIndex)
      && y.lastApplied == y.commitIndex && y.log == z.log && y.currentTerm == z.currentTerm
      && PlainOps(y.released) == OpsBetween(Plain(z.log), 0, y.commitIndex + 1)
  {
    assert OpsBetween(Plain(z.log), 0, z.commitIndex + 1) == OpsBetween(p, 0, |p|);
    if leaderCommit > z.commitIndex { StepReplicate.ReleasedOps(z, leaderCommit); }
  }

  // Acknowledgements after acceptance

  lemma AcceptedAcks(s: Cluster, s': Cluster, m: Msg, log: seq<LogEntry>)
    requires Inv(s) && AcceptedStep(s, s', m, log) && Grows(s, s')
    ensures forall t, v {:trigger AckCase(s, s', t, v)} :: (t, v) in s'.acked ==> AckCase(s, s', t, v)
  {
    AcceptedFrame(s.nodes[m.to], m.app, log);
    forall t, v | (t, v) in s'.acked ensures AckCase(s, s', t, v) {
      if (t, v) in s.acked { assert AckOk(s, t, v); }
      if v == m.to { AcceptedAck(s, s', m, log, t); }
    }
  }

  lemma AcceptedAck(s: Cluster, s': Cluster, m: Msg, log: seq<LogEntry>, t: int)
    requires Inv(s) && AcceptedStep(s, s', m, log) && Grows(s, s') && (t, m.to) in s'.acked
    requires TermOf(s', m.to) == m.app.term && LogOf(s', m.to) == Plain(log)
    ensures AckOk(s', t, m.to)
  {
    var v, u := m.to, m.app.term;
    if (t, v) in s.acked { assert AckOk(s, t, v); }
    assert TermLogGrows(s, s', u);
    forall j: nat | j <= s'.acked[(t, v)] ensures Kept(s', t, j, LogOf(s', v), u) {
      if t == u && j <= End(m.app) {
        AcknowledgedNow(s, s', u, log, End(m.app), j);
      } else {
        AcknowledgedBefore(s, s', m, log, t, j);
      }
    }
  }

  lemma AcknowledgedNow(s: Cluster, s': Cluster, u: int, log: seq<LogEntry>, e: nat, j: nat)
    requires u in s.termLog && s'.termLog == s.termLog && j <= e <= |s.termLog[u]| && s.termLog[u][..e] <= Plain(log)
    ensures Kept(s', u, j, Plain(log), u)
  {
    assert s.termLog[u][..j] == s.termLog[u][..e][..j];
  }

  lemma AcknowledgedBefore(s: Cluster, s': Cluster, m: Msg, log: seq<LogEntry>, t: int, j: nat)
    requires Inv(s) && AcceptedStep(s, s', m, log) && Grows(s, s')
    requires TermOf(s', m.to) == m.app.term && LogOf(s', m.to) == Plain(log)
    requires (t, m.to) in s.acked && j <= s.acked[(t, m.to)]
    ensures Kept(s', t, j, LogOf(s', m.to), m.app.term)
  {
    var v, u := m.to, m.app.term;
    assert AckOk(s, t, v);
    assert Kept(s, t, j, LogOf(s, v), TermOf(s, v));
    var p := TermPrefix(s, t, j);
    assert p <= LogOf(s, v) && p <= s.termLog[u] ==> Shared(p, s.nodes[v].log, s.termLog[u]);
    KeptUnder(s, s', v, u, t, j);
  }

  /** A prefix acknowledged earlier is still there, or the leader of the term that the replica is now in
      lacks it. */
  lemma KeptUnder(s: Cluster, s': Cluster, v: int, u: int, t: int, j: nat)
    requires Inv(s) && Grows(s, s') && s'.termLog == s.termLog && v in s.nodes && v in s'.nodes
    requires TermOf(s, v) <= u && TermOf(s', v) == u && u in s.termLog
    requires (t, v) in s.acked && AckOk(s, t, v) && j <= s.acked[(t, v)]
    requires Kept(s, t, j, LogOf(s, v), TermOf(s, v))
    requires var p := TermPrefix(s, t, j); p <= LogOf(s, v) && p <= s.termLog[u] ==> p <= LogOf(s', v)
    ensures Kept(s', t, j, LogOf(s', v), TermOf(s', v))
  {
    var p := TermPrefix(s, t, j);
    TermPrefixStable(s, s', t, j);
    if p <= LogOf(s, v) {
      if !(p <= s.termLog[u]) {
        assert t < u;
        assert LaterLeaderLacks(s', t, p, u);
      }
    } else {
      assert TermOk(s, t);
      LogTerms(s, t);
      LackStable(s, s', t, p, TermOf(s, v), u);
    }
  }
}
