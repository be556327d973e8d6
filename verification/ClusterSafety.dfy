/** The safety theorems, over every run of the cluster under R1 to R4. */
module ClusterSafety {
  import opened RaftTypes
  import opened RaftHandlers
  import opened RaftCluster
  import opened ClusterInvariant
  import opened ClusterGrowth
  import opened ElectionBasics
  import opened HandlerFacts
  import opened LeaderCompleteness
  import StepElection
  import StepVoteReply
  import StepReplicate
  import StepFollow
  import StepTorn

  /** Every action keeps the invariant. */
  lemma StepKeeps(s: Cluster, a: Action)
    requires Inv(s) && Step(s, a)
    ensures Inv(Next(s, a)) && Grows(s, Next(s, a))
  {
    if a.Timeout? || a.SendVote? || a.RecvVote? || a.RecvVoteRsp? {
      ElectionStepKeeps(s, a);
    } else {
      LogStepKeeps(s, a);
    }
  }

  lemma ElectionStepKeeps(s: Cluster, a: Action)
    requires Inv(s) && Step(s, a) && (a.Timeout? || a.SendVote? || a.RecvVote? || a.RecvVoteRsp?)
    ensures Inv(Next(s, a)) && Grows(s, Next(s, a))
  {
    match a
    case Timeout(n) => StepElection.TimeoutKeeps(s, n);
    case SendVote(n, p, saved) => StepElection.SendVoteKeeps(s, n, p, saved);
    case RecvVote(m) => StepElection.RecvVoteKeeps(s, m);
    case RecvVoteRsp(m) => StepVoteReply.RecvVoteRspKeeps(s, m);
  }

  lemma LogStepKeeps(s: Cluster, a: Action)
    requires Inv(s) && Step(s, a) && !a.Timeout? && !a.SendVote? && !a.RecvVote? && !a.RecvVoteRsp?
    ensures Inv(Next(s, a)) && Grows(s, Next(s, a))
  {
    match a
    case Append(n, ops) => StepReplicate.AppendKeeps(s, n, ops);
    case SendAppend(n, p, saved) => StepReplicate.SendAppendKeeps(s, n, p, saved);
    case RecvAppend(m) => StepFollow.RecvAppendKeeps(s, m);
    case RecvAppendRsp(m) => StepReplicate.RecvAppendRspKeeps(s, m);
    case Crash(n) => StepReplicate.CrashKeeps(s, n);
    case CrashInRewrite(m, log) => StepTorn.TornKeeps(s, m, log);
  }

  /** What one replica had, had released or had won stays true of the run's later states. */
  ghost predicate Later(s: Cluster, s': Cluster) {
    && Inv(s) && Inv(s')
    && s'.nodes.Keys == s.nodes.Keys
    && (forall t :: t in s.elections ==> t in s'.elections && s'.elections[t] == s.elections[t])
    && (forall log {:trigger ValidLog(s'.termLog, log)} :: ValidLog(s.termLog, log) ==> ValidLog(s'.termLog, log))
    && (forall p, b {:trigger CommittedPrefix(s', p, b)} :: CommittedPrefix(s, p, b) ==> CommittedPrefix(s', p, b))
  }

  lemma StepLater(s: Cluster, a: Action)
    requires Inv(s) && Step(s, a)
    ensures Later(s, Next(s, a))
  {
    StepKeeps(s, a);
    var s' := Next(s, a);
    forall t | t in s.elections ensures t in s'.elections && s'.elections[t] == s.elections[t] {
      assert TermLogGrows(s, s', t);
    }
    forall log | ValidLog(s.termLog, log) ensures ValidLog(s'.termLog, log) {
      ValidLogStable(s, s', log);
    }
    forall p, b | CommittedPrefix(s, p, b) ensures CommittedPrefix(s', p, b) {
      CommittedPrefixStable(s, s', p, b, b);
    }
  }

  lemma {:induction false} RunLater(s: Cluster, run: seq<Action>)
    requires Inv(s) && Legal(s, run)
    ensures Later(s, After(s, run))
    decreases |run|
  {
    if run != [] {
      StepLater(s, run[0]);
      RunLater(Next(s, run[0]), run[1..]);
    }
  }

  /** The state after the first `i` actions. */
  lemma {:induction false} SplitRun(s: Cluster, run: seq<Action>, i: nat)
    requires Legal(s, run) && i <= |run|
    ensures Legal(s, run[..i]) && Legal(After(s, run[..i]), run[i..])
    ensures After(After(s, run[..i]), run[i..]) == After(s, run)
    decreases |run|
  {
    if i > 0 {
      SplitRun(Next(s, run[0]), run[1..], i - 1);
      assert run[..i][1..] == run[1..][..i - 1] && run[1..][i - 1..] == run[i..];
    } else {
      assert run[..0] == [] && run[0..] == run;
    }
  }

  /** A run of a cluster of the given members, from its first start. */
  ghost predicate Run(members: set<int>, run: seq<Action>) {
    GoodMembers(members) && Legal(Init(members), run)
  }

  /** State `i` of a run. */
  ghost function StateAt(members: set<int>, run: seq<Action>, i: nat): Cluster
    requires Run(members, run) && i <= |run|
  {
    SplitRun(Init(members), run, i);
    After(Init(members), run[..i])
  }

  lemma StateAtLater(members: set<int>, run: seq<Action>, i: nat)
    requires Run(members, run) && i <= |run|
    ensures Later(StateAt(members, run, i), StateAt(members, run, |run|))
    ensures StateAt(members, run, i).nodes.Keys == members
  {
    InitInv(members);
    SplitRun(Init(members), run, i);
    RunLater(Init(members), run[..i]);
    RunLater(StateAt(members, run, i), run[i..]);
    assert run[..|run|] == run;
  }

  /** Replica `n` in state `i` of a run. */
  ghost function NodeAt(members: set<int>, run: seq<Action>, i: nat, n: int): Node
    requires Run(members, run) && i <= |run| && n in members
  {
    StateAtLater(members, run, i);
    StateAt(members, run, i).nodes[n]
  }

  // Election Safety

  /** At most one replica is ever leader in a term, over the whole run. */
  lemma ElectionSafety(members: set<int>, run: seq<Action>, i: nat, j: nat, a: int, b: int)
    requires Run(members, run) && i <= |run| && j <= |run| && a in members && b in members
    requires NodeAt(members, run, i, a).role == Leader && NodeAt(members, run, j, b).role == Leader
    requires NodeAt(members, run, i, a).currentTerm == NodeAt(members, run, j, b).currentTerm
    ensures a == b
  {
    StateAtLater(members, run, i);
    StateAtLater(members, run, j);
    assert NodeOk(StateAt(members, run, i), a) && NodeOk(StateAt(members, run, j), b);
  }

  // Log Matching

  /** Two logs, of any two replicas at any two times of the run, that have an entry of the same
      term at the same index are equal up to it, promises aside. */
  lemma LogMatching(members: set<int>, run: seq<Action>, i: nat, j: nat, a: int, b: int, k: nat)
    requires Run(members, run) && i <= |run| && j <= |run| && a in members && b in members
    requires k < |NodeAt(members, run, i, a).log| && k < |NodeAt(members, run, j, b).log|
    requires NodeAt(members, run, i, a).log[k].term == NodeAt(members, run, j, b).log[k].term
    ensures Plain(NodeAt(members, run, i, a).log)[..k + 1] == Plain(NodeAt(members, run, j, b).log)[..k + 1]
  {
    var s, u := StateAt(members, run, i), StateAt(members, run, j);
    var last := StateAt(members, run, |run|);
    StateAtLater(members, run, i);
    StateAtLater(members, run, j);
    assert NodeOk(s, a) && NodeOk(u, b);
    assert ValidLog(last.termLog, LogOf(s, a)) && ValidLog(last.termLog, LogOf(u, b));
    SameTermSamePrefix(last.termLog, LogOf(s, a), LogOf(u, b), k);
  }

  // Leader Completeness

  /** What a commit-loop advance covers was in the log of every replica elected in a later term
      at the moment of its election, whether that came before or after the advance. */
  lemma ElectedHoldCommitted(members: set<int>, run: seq<Action>, x: Advance, u: int)
    requires Run(members, run)
    requires x in StateAt(members, run, |run|).advances
    requires u in StateAt(members, run, |run|).elections && x.term < u
    ensures x.covered <= StateAt(members, run, |run|).elections[u].log
  {
    var s := StateAt(members, run, |run|);
    StateAtLater(members, run, |run|);
    assert AdvanceOk(s, x);
    var j: nat :| Committed(s, x.term, j) && x.covered == s.termLog[x.term][..j];
    Completeness(s, x.term, j, u);
  }

  /** What a commit-loop advance in term T covers is in the log of every leader of a later term. */
  lemma LeadersHoldCommitted(members: set<int>, run: seq<Action>, x: Advance, n: int)
    requires Run(members, run) && n in members
    requires x in StateAt(members, run, |run|).advances
    requires NodeAt(members, run, |run|, n).role == Leader && x.term < NodeAt(members, run, |run|, n).currentTerm
    ensures x.covered <= Plain(NodeAt(members, run, |run|, n).log)
  {
    var s := StateAt(members, run, |run|);
    StateAtLater(members, run, |run|);
    assert NodeOk(s, n) && TermOk(s, TermOf(s, n));
    ElectedHoldCommitted(members, run, x, TermOf(s, n));
  }

  // State Machine Safety

  /** The operations that two replicas, at any two times of the run and across restarts, have
      released to their executors: one sequence extends the other. */
  lemma StateMachineSafety(members: set<int>, run: seq<Action>, i: nat, j: nat, a: int, b: int)
    requires Run(members, run) && i <= |run| && j <= |run| && a in members && b in members
    ensures var p := PlainOps(NodeAt(members, run, i, a).released);
      var q := PlainOps(NodeAt(members, run, j, b).released);
      p <= q || q <= p
  {
    var s, u := StateAt(members, run, i), StateAt(members, run, j);
    var last := StateAt(members, run, |run|);
    StateAtLater(members, run, i);
    StateAtLater(members, run, j);
    ReleasedCompare(s, u, last, a, b);
  }

  lemma ReleasedCompare(s: Cluster, u: Cluster, last: Cluster, a: int, b: int)
    requires Later(s, last) && Later(u, last) && a in s.nodes && b in u.nodes
    ensures var p, q := PlainOps(s.nodes[a].released), PlainOps(u.nodes[b].released); p <= q || q <= p
  {
    var p := ReleasedPrefix(s, last, a);
    var q := ReleasedPrefix(u, last, b);
    PrefixesCompare(last, p, TermOf(s, a), q, TermOf(u, b));
    OpsCompare(p, q);
  }

  /** What a replica has released are the operations of a prefix that is committed for good. */
  lemma ReleasedPrefix(s: Cluster, last: Cluster, n: int) returns (p: seq<LogEntry>)
    requires Later(s, last) && n in s.nodes
    ensures CommittedPrefix(last, p, TermOf(s, n)) && PlainOps(s.nodes[n].released) == OpsBetween(p, 0, |p|)
  {
    assert NodeOk(s, n);
    var x := s.nodes[n];
    p := Plain(x.log)[..x.commitIndex + 1];
    OpsOfPrefix(x.log, x.commitIndex, p);
  }

  lemma OpsCompare(p: seq<LogEntry>, q: seq<LogEntry>)
    requires p <= q || q <= p
    ensures OpsBetween(p, 0, |p|) <= OpsBetween(q, 0, |q|) || OpsBetween(q, 0, |q|) <= OpsBetween(p, 0, |p|)
  {
  }

  lemma OpsOfPrefix(log: seq<LogEntry>, c: int, p: seq<LogEntry>)
    requires -1 <= c < |log| && p == Plain(log)[..c + 1]
    ensures OpsBetween(Plain(log), 0, c + 1) == OpsBetween(p, 0, |p|)
  {
  }

  // What holds at every lock boundary

  /** At every lock boundary the last applied index is the commit index, lies inside the log, and
      the operations released since the last restart are those of the log up to it. */
  lemma AppliedIsCommitted(members: set<int>, run: seq<Action>, i: nat, n: int)
    requires Run(members, run) && i <= |run| && n in members
    ensures var x := NodeAt(members, run, i, n);
      && x.lastApplied == x.commitIndex && -1 <= x.commitIndex < |x.log|
      && PlainOps(x.released) == OpsBetween(Plain(x.log), 0, x.lastApplied + 1)
  {
    StateAtLater(members, run, i);
    assert NodeOk(StateAt(members, run, i), n);
  }

  /** A leader's next indices stay inside its log, so building a request never indexes out of range. */
  lemma NextIndexInRange(members: set<int>, run: seq<Action>, i: nat, n: int, p: int)
    requires Run(members, run) && i <= |run| && n in members && p in members - {n}
    requires NodeAt(members, run, i, n).role == Leader
    ensures 0 <= Lookup(NodeAt(members, run, i, n).nextIndex, p) <= |NodeAt(members, run, i, n).log|
  {
    StateAtLater(members, run, i);
    var s := StateAt(members, run, i);
    assert NodeOk(s, n) && IndicesOk(s, s.nodes[n], p);
  }

  /** `y` has everything that `x` has committed, and its commit index is not below that of `x`. */
  predicate KeepsCommitted(x: Node, y: Node) {
    -1 <= x.commitIndex < |x.log| && x.commitIndex <= y.commitIndex && Plain(x.log)[..x.commitIndex + 1] <= Plain(y.log)
  }

  /** Log, commit point and released operations are the same. */
  predicate SameProgress(x: Node, y: Node) {
    y.log == x.log && y.commitIndex == x.commitIndex && y.lastApplied == x.lastApplied && y.released == x.released
  }

  /** Elections, sending and other replicas' restarts touch neither a log nor a commit index. */
  lemma QuietAction(s: Cluster, a: Action, n: int)
    requires Enabled(s, a) && n in s.nodes && !Restarts(a, n)
    requires !a.RecvAppend? && !a.RecvAppendRsp? && !a.Append?
    ensures n in Next(s, a).nodes && SameProgress(s.nodes[n], Next(s, a).nodes[n])
  {
    match a
    case Timeout(_) =>
    case SendVote(_, _, _) =>
    case RecvVote(m) => QuietVote(s, m, n);
    case RecvVoteRsp(m) => QuietVoteRsp(s, m, n);
    case SendAppend(_, _, _) =>
    case Crash(_) =>
    case CrashInRewrite(_, _) =>
    case CrashInPersist(_) =>
  }

  lemma QuietVote(s: Cluster, m: Msg, n: int)
    requires Enabled(s, RecvVote(m)) && n in s.nodes
    ensures n in NextRecvVote(s, m).nodes && SameProgress(s.nodes[n], NextRecvVote(s, m).nodes[n])
  {
  }

  lemma QuietVoteRsp(s: Cluster, m: Msg, n: int)
    requires Enabled(s, RecvVoteRsp(m)) && n in s.nodes
    ensures n in NextRecvVoteRsp(s, m).nodes && SameProgress(s.nodes[n], NextRecvVoteRsp(s, m).nodes[n])
  {
    QuietReply(s.nodes[m.to], m.saved, m.voteRet);
    CountedNodes(s, m);
  }

  lemma CountedNodes(s: Cluster, m: Msg)
    requires Enabled(s, RecvVoteRsp(m))
    ensures NextRecvVoteRsp(s, m).nodes == s.nodes[m.to := HandleVoteReply(s.nodes[m.to], m.saved, m.voteRet)]
  {
  }

  lemma QuietReply(x: Node, saved: int, reply: RequestVoteRet)
    ensures SameProgress(x, HandleVoteReply(x, saved, reply))
  {
  }

  lemma AppendRspKeepsCommitted(s: Cluster, m: Msg)
    requires Enabled(s, RecvAppendRsp(m)) && -1 <= s.nodes[m.to].commitIndex < |s.nodes[m.to].log|
    ensures KeepsCommitted(s.nodes[m.to], NextRecvAppendRsp(s, m).nodes[m.to])
  {
    StepReplicate.CommitTargetGreatest(Matched(s.nodes[m.to], m.from, m.next + m.count), |s.nodes[m.to].log|);
  }

  lemma AppendKeepsCommitted(s: Cluster, n: int, ops: seq<RaftOp>)
    requires Enabled(s, Append(n, ops)) && -1 <= s.nodes[n].commitIndex < |s.nodes[n].log|
    ensures KeepsCommitted(s.nodes[n], NextAppend(s, n, ops).nodes[n])
  {
    AppendAllFrame(s.nodes[n], Stamp(s.nodes[n].currentTerm, ops));
  }

  lemma RecvAppendKeepsCommitted(s: Cluster, m: Msg)
    requires Inv(s) && Enabled(s, RecvAppend(m))
    ensures KeepsCommitted(s.nodes[m.to], HandleAppendEntries(s.nodes[m.to], m.app).0)
  {
    var x, a := s.nodes[m.to], m.app;
    if Accepts(x, a) {
      var log := StepFollow.AcceptedIs(s, m);
      AcceptedSurvives(s, m, log);
    } else {
      assert NodeOk(s, m.to);
      StepFollow.RefusedForm(x, a);
    }
  }

  lemma AcceptedSurvives(s: Cluster, m: Msg, log: seq<LogEntry>)
    requires Inv(s) && m.AppReq? && MsgOk(s, m) && m.app.term >= TermOf(s, m.to)
    requires StepFollow.Rewritten(s.nodes[m.to].log, log, s.termLog[m.app.term], End(m.app))
    ensures KeepsCommitted(s.nodes[m.to], StepFollow.AcceptedNode(s.nodes[m.to], m.app, log))
  {
    StepFollow.CommitSurvives(s, m.to, m.app.term, log);
    CommitInside(s, m, log);
    AcceptedKeepsCommitted(s.nodes[m.to], m.app, log);
  }

  /** The leader's commit index lies inside the log that the request leaves. */
  lemma CommitInside(s: Cluster, m: Msg, log: seq<LogEntry>)
    requires m.AppReq? && MsgOk(s, m) && m.app.term in s.termLog
    requires StepFollow.Rewritten(s.nodes[m.to].log, log, s.termLog[m.app.term], End(m.app))
    ensures m.app.leaderCommit < |log|
  {
  }

  lemma AcceptedKeepsCommitted(x: Node, a: AppendEntriesParams, log: seq<LogEntry>)
    requires -1 <= x.commitIndex < |x.log| && Plain(x.log)[..x.commitIndex + 1] <= Plain(log) && a.leaderCommit < |log|
    ensures KeepsCommitted(x, StepFollow.AcceptedNode(x, a, log))
  {
  }

  /** One action, unless it restarts the replica, removes nothing at or below the commit index
      and never moves the commit index back. */
  lemma StepKeepsCommitted(s: Cluster, a: Action, n: int)
    requires Inv(s) && Step(s, a) && n in s.nodes && !Restarts(a, n)
    ensures n in Next(s, a).nodes && KeepsCommitted(s.nodes[n], Next(s, a).nodes[n])
  {
    if Untroubled(a, n) {
      QuietKeepsCommitted(s, a, n);
    } else if a.RecvAppend? {
      RecvAppendKeepsCommitted(s, a.m);
    } else {
      assert NodeOk(s, n);
      if a.RecvAppendRsp? { AppendRspKeepsCommitted(s, a.m); } else { AppendKeepsCommitted(s, n, a.ops); }
    }
  }

  /** The action does not work on the replica's log or commit index. */
  predicate Untroubled(a: Action, n: int) {
    match a
    case RecvAppend(m) => m.to != n
    case RecvAppendRsp(m) => m.to != n
    case Append(i, _) => i != n
    case _ => true
  }

  lemma QuietKeepsCommitted(s: Cluster, a: Action, n: int)
    requires Inv(s) && Enabled(s, a) && n in s.nodes && !Restarts(a, n) && Untroubled(a, n)
    ensures n in Next(s, a).nodes && KeepsCommitted(s.nodes[n], Next(s, a).nodes[n])
  {
    assert NodeOk(s, n);
    if !a.RecvAppend? && !a.RecvAppendRsp? && !a.Append? { QuietAction(s, a, n); }
  }

  predicate NoRestart(run: seq<Action>, i: nat, j: nat, n: int)
    requires i <= j <= |run|
  {
    forall k :: i <= k < j ==> !Restarts(run[k], n)
  }

  /** Between restarts a replica loses nothing it has committed, and its commit index never falls. */
  lemma {:induction false} CommittedStays(members: set<int>, run: seq<Action>, i: nat, j: nat, n: int)
    requires Run(members, run) && i <= j <= |run| && n in members && NoRestart(run, i, j, n)
    ensures KeepsCommitted(NodeAt(members, run, i, n), NodeAt(members, run, j, n))
    decreases j
  {
    if i == j {
      AppliedIsCommitted(members, run, i, n);
    } else {
      CommittedStays(members, run, i, j - 1, n);
      CommittedStep(members, run, j - 1, n);
      KeepsTransitive(NodeAt(members, run, i, n), NodeAt(members, run, j - 1, n), NodeAt(members, run, j, n));
    }
  }

  lemma KeepsTransitive(x: Node, y: Node, z: Node)
    requires KeepsCommitted(x, y) && KeepsCommitted(y, z)
    ensures KeepsCommitted(x, z)
  {
    assert Plain(x.log)[..x.commitIndex + 1] <= Plain(y.log)[..y.commitIndex + 1];
  }

  lemma CommittedStep(members: set<int>, run: seq<Action>, i: nat, n: int)
    requires Run(members, run) && i < |run| && n in members && !Restarts(run[i], n)
    ensures KeepsCommitted(NodeAt(members, run, i, n), NodeAt(members, run, i + 1, n))
  {
    StateAtLater(members, run, i);
    NextState(members, run, i);
    StepKeepsCommitted(StateAt(members, run, i), run[i], n);
  }

  lemma NextState(members: set<int>, run: seq<Action>, i: nat)
    requires Run(members, run) && i < |run|
    ensures Step(StateAt(members, run, i), run[i])
    ensures StateAt(members, run, i + 1) == Next(StateAt(members, run, i), run[i])
  {
    var s := Init(members);
    SplitRun(s, run, i + 1);
    SplitRun(s, run[..i + 1], i);
    assert run[..i + 1][..i] == run[..i] && run[..i + 1][i..] == [run[i]];
    var last := [run[i]];
    assert last[1..] == [];
    assert Legal(StateAt(members, run, i), last);
    assert After(StateAt(members, run, i), last) == After(Next(StateAt(members, run, i), run[i]), last[1..]);
  }

  /** An action of a run: the states around it. */
  lemma RunStep(members: set<int>, run: seq<Action>, i: nat) returns (s: Cluster, s': Cluster)
    requires Run(members, run) && i < |run|
    ensures s == StateAt(members, run, i) && s' == StateAt(members, run, i + 1)
    ensures s.nodes.Keys == s'.nodes.Keys == s.members == members && Inv(s) && Inv(s')
    ensures Step(s, run[i]) && s' == Next(s, run[i])
  {
    s, s' := StateAt(members, run, i), StateAt(members, run, i + 1);
    StateAtLater(members, run, i);
    StateAtLater(members, run, i + 1);
    NextState(members, run, i);
  }
}
