/** Delivering replication requests of one leader in any order and any number of times.

    All requests are windows of one growing leader log `w`. What a follower ends up with depends
    only on which requests it accepted: the log up to the farthest window end, the greatest commit
    index, and the operations up to it. */
module Confluence {
  import opened RaftTypes
  import opened RaftHandlers
  import opened RaftCluster
  import opened ClusterInvariant
  import opened HandlerFacts
  import opened ClusterSafety
  import LeaderCompleteness
  import StepFollow

  /** How far a log and the leader's log carry the same terms. */
  function Common(log: seq<LogEntry>, w: seq<LogEntry>): nat {
    MatchLen(log, 0, w)
  }

  lemma CommonStops(log: seq<LogEntry>, w: seq<LogEntry>)
    ensures var p := Common(log, w);
      && p <= |log| && p <= |w|
      && (forall i :: 0 <= i < p ==> log[i].term == w[i].term)
      && (p < |log| && p < |w| ==> log[p].term != w[p].term)
  {
    MatchLenStops(log, 0, w);
    assert forall i :: 0 <= i < Common(log, w) ==> log[0 + i].term == w[i].term;
  }

  /** The one log that windows of `w` up to end `e` can lead to. */
  function Canon(log: seq<LogEntry>, w: seq<LogEntry>, e: nat): seq<LogEntry>
    requires e <= |w|
  {
    CommonStops(log, w);
    var p := Common(log, w);
    if e <= p then log else log[..p] + w[p..e]
  }

  /** The common prefix is the whole of the shared terms. */
  lemma CommonIs(log: seq<LogEntry>, w: seq<LogEntry>, p: nat)
    requires p <= |log| && p <= |w| && (forall i :: 0 <= i < p ==> log[i].term == w[i].term)
    requires p == |log| || p == |w| || log[p].term != w[p].term
    ensures Common(log, w) == p
  {
    CommonStops(log, w);
  }

  /** Accepting a window moves the log to its canonical form. */
  lemma WindowIsCanon(log: seq<LogEntry>, w: seq<LogEntry>, at: nat, es: seq<LogEntry>)
    requires Fits(log, w, at, es)
    ensures ReconciledLog(log, at, es) == Canon(log, w, at + |es|)
  {
    var k := MatchLen(log, at, es);
    MatchLenStops(log, at, es);
    MatchedIsEqual(log, w, at, es);
    CommonStops(log, w);
    var p := Common(log, w);
    forall i | 0 <= i < at + k ensures log[i].term == w[i].term {
      assert Plain(log)[..at + k][i] == w[..at + k][i];
    }
    if k < |es| {
      assert at + k < |log| ==> log[at + k].term != w[at + k].term;
      assert p == at + k;
      assert es[k..] == w[p..at + |es|];
    }
  }

  /** A canonical log still agrees with the leader's, has the old common prefix, and more of it. */
  lemma CanonAgrees(log: seq<LogEntry>, w: seq<LogEntry>, e: nat)
    requires e <= |w| && Agrees(log, w) && Plain(w) == w
    ensures var log' := Canon(log, w, e);
      && Agrees(log', w)
      && Common(log', w) == (if e <= Common(log, w) then Common(log, w) else e)
      && Common(log, w) <= |log| && log[..Common(log, w)] <= log'
  {
    CommonStops(log, w);
    var p, log' := Common(log, w), Canon(log, w, e);
    if e > p {
      assert p > 0 ==> AgreesAt(log, w, p - 1);
      forall i | 0 <= i < e ensures Plain(log')[i] == w[i] {
        if i < p { assert Plain(log)[..p][i] == w[..p][i]; } else { assert log'[i] == w[i] && Plain(w)[i] == w[i]; }
      }
      forall i | 0 <= i < e ensures log'[i].term == w[i].term { assert Plain(log')[i] == w[i]; }
      CommonIs(log', w, e);
    }
  }

  lemma CanonTwice(log: seq<LogEntry>, w: seq<LogEntry>, e: nat, f: nat)
    requires e <= |w| && f <= |w| && Agrees(log, w) && Plain(w) == w
    ensures Canon(Canon(log, w, e), w, f) == Canon(log, w, Max(e, f))
  {
    CommonStops(log, w);
    CanonAgrees(log, w, e);
    var p := Common(log, w);
    if e > p && f > e {
      var log' := Canon(log, w, e);
      assert log'[..e] == log' && log' + w[e..f] == log[..p] + w[p..f];
    }
  }

  function Max(a: int, b: int): (r: int) {
    if a >= b then a else b
  }

  // Deliveries

  /** A request of term `t` that the leader with log `w` can have sent at some time. */
  predicate WindowOf(w: seq<LogEntry>, t: int, a: AppendEntriesParams) {
    a.term == t && IsWindow(w, a) && a.leaderCommit < End(a)
  }

  predicate WindowsOf(w: seq<LogEntry>, t: int, ms: seq<AppendEntriesParams>) {
    forall i {:trigger ms[i]} :: 0 <= i < |ms| ==> WindowOf(w, t, ms[i])
  }

  /** A follower that may hear from that leader: Log Matching holds between them, and the leader
      has what the follower has committed. */
  predicate Hears(x: Node, w: seq<LogEntry>, t: int) {
    && x.currentTerm <= t && Agrees(x.log, w) && AllData(w) && Plain(w) == w
    && -1 <= x.lastApplied == x.commitIndex < Common(x.log, w)
  }

  /** The follower after one request, accepted or not. */
  function Deliver(x: Node, a: AppendEntriesParams): Node {
    if a.prevLogIndex >= -1 then HandleAppendEntries(x, a).0 else x
  }

  function DeliverAll(x: Node, ms: seq<AppendEntriesParams>): Node
    decreases |ms|
  {
    if ms == [] then x else DeliverAll(Deliver(x, ms[0]), ms[1..])
  }

  /** The requests accepted on arrival. */
  function AcceptedOf(x: Node, ms: seq<AppendEntriesParams>): set<AppendEntriesParams>
    decreases |ms|
  {
    if ms == [] then {} else
      AcceptedOne(x, ms[0]) + AcceptedOf(Deliver(x, ms[0]), ms[1..])
  }

  function AcceptedOne(x: Node, a: AppendEntriesParams): set<AppendEntriesParams> {
    if Accepts(x, a) then {a} else {}
  }

  /** The node `y` is what `x` becomes on windows up to end `e` with commit indices up to `c`. */
  predicate Became(x: Node, y: Node, w: seq<LogEntry>, e: nat, c: int)
    requires e <= |w|
  {
    y.log == Canon(x.log, w, e) && Progressed(x, y, c)
  }

  /** The commit index has moved up to `c` if that is higher, and what lies between is released. */
  predicate Progressed(x: Node, y: Node, c: int) {
    && y.commitIndex == y.lastApplied == Max(x.commitIndex, c)
    && y.released == x.released + OpsBetween(y.log, x.lastApplied + 1, y.lastApplied + 1)
  }

  /** One accepted request. */
  lemma AcceptedBecomes(x: Node, w: seq<LogEntry>, t: int, a: AppendEntriesParams)
    requires Hears(x, w, t) && WindowOf(w, t, a) && Accepts(x, a)
    ensures Became(x, Deliver(x, a), w, End(a), a.leaderCommit) && Hears(Deliver(x, a), w, t)
  {
    PlainWindow(w, a);
    StepFollow.WindowFits(x.log, w, a);
    var log := StepFollow.AcceptedForm(x, a);
    CanonWindow(x.log, w, a, log);
    CommitBecomes(x, w, t, a, log);
  }

  lemma CanonWindow(was: seq<LogEntry>, w: seq<LogEntry>, a: AppendEntriesParams, log: seq<LogEntry>)
    requires 0 <= a.prevLogIndex + 1 <= |was| && Fits(was, w, a.prevLogIndex + 1, Payload(a.entries))
    requires log == ReconciledLog(was, a.prevLogIndex + 1, Payload(a.entries))
    ensures 0 <= End(a) <= |w| && log == Canon(was, w, End(a))
  {
    WindowIsCanon(was, w, a.prevLogIndex + 1, Payload(a.entries));
  }

  lemma PlainWindow(w: seq<LogEntry>, a: AppendEntriesParams)
    requires Plain(w) == w && IsWindow(w, a)
    ensures Plain(Payload(a.entries)) == Payload(a.entries)
  {
    var at, es := a.prevLogIndex + 1, Payload(a.entries);
    forall i | 0 <= i < |es| ensures Plain(es)[i] == es[i] {
      assert es[i] == w[at + i] && Plain(w)[at + i] == w[at + i];
    }
  }

  lemma CommitBecomes(x: Node, w: seq<LogEntry>, t: int, a: AppendEntriesParams, log: seq<LogEntry>)
    requires Hears(x, w, t) && a.term == t && 0 <= End(a) <= |w| && a.leaderCommit < End(a)
    requires log == Canon(x.log, w, End(a))
    ensures var y := StepFollow.AcceptedNode(x, a, log);
      Became(x, y, w, End(a), a.leaderCommit) && Hears(y, w, t)
  {
    CanonAgrees(x.log, w, End(a));
    CommonStops(log, w);
    CommitMoves(x, a, log);
    StillHears(x, StepFollow.AcceptedNode(x, a, log), w, t, a.leaderCommit);
  }

  /** The follower's commit when the leader's commit index lies inside the log. */
  lemma CommitMoves(x: Node, a: AppendEntriesParams, log: seq<LogEntry>)
    requires -1 <= x.commitIndex == x.lastApplied && a.leaderCommit < |log| && a.term >= x.currentTerm
    ensures var y := StepFollow.AcceptedNode(x, a, log);
      y.log == log && y.currentTerm == a.term && Progressed(x, y, a.leaderCommit)
  {
    assert OpsBetween(log, x.lastApplied + 1, x.lastApplied + 1) == [];
  }

  lemma StillHears(x: Node, y: Node, w: seq<LogEntry>, t: int, c: int)
    requires Hears(x, w, t) && Agrees(y.log, w) && y.currentTerm <= t
    requires Common(x.log, w) <= Common(y.log, w) && c < Common(y.log, w)
    requires y.commitIndex == y.lastApplied == Max(x.commitIndex, c)
    ensures Hears(y, w, t)
  {
  }

  /** A refused request leaves log, commit point and queue alone. */
  lemma RefusedBecomes(x: Node, w: seq<LogEntry>, t: int, a: AppendEntriesParams)
    requires Hears(x, w, t) && WindowOf(w, t, a) && !Accepts(x, a)
    ensures Became(x, Deliver(x, a), w, 0, -1) && Hears(Deliver(x, a), w, t)
  {
    StepFollow.RefusedForm(x, a);
    assert OpsBetween(x.log, x.lastApplied + 1, x.lastApplied + 1) == [];
  }

  lemma BecameTwice(x: Node, y: Node, z: Node, w: seq<LogEntry>, e: nat, c: int, f: nat, d: int)
    requires Agrees(x.log, w) && Plain(w) == w && e <= |w| && f <= |w|
    requires -1 <= x.lastApplied == x.commitIndex && y.commitIndex < Common(y.log, w)
    requires Became(x, y, w, e, c) && Became(y, z, w, f, d)
    requires z.lastApplied < |z.log|
    ensures Became(x, z, w, Max(e, f), Max(c, d))
  {
    CanonTwice(x.log, w, e, f);
    KeepsCommon(x.log, y.log, z.log, w, e, f);
    ProgressedTwice(x, y, z, Common(y.log, w), c, d);
  }

  lemma KeepsCommon(a: seq<LogEntry>, b: seq<LogEntry>, c: seq<LogEntry>, w: seq<LogEntry>, e: nat, f: nat)
    requires Agrees(a, w) && Plain(w) == w && e <= |w| && f <= |w| && b == Canon(a, w, e) && c == Canon(b, w, f)
    ensures Common(b, w) <= |b| && b[..Common(b, w)] <= c
  {
    CanonAgrees(a, w, e);
    CanonAgrees(b, w, f);
  }

  lemma ProgressedTwice(x: Node, y: Node, z: Node, p: nat, c: int, d: int)
    requires -1 <= x.lastApplied == x.commitIndex && Progressed(x, y, c) && Progressed(y, z, d)
    requires y.commitIndex < p <= |y.log| && y.log[..p] <= z.log && z.lastApplied < |z.log|
    ensures Progressed(x, z, Max(c, d))
  {
    var lo, mid, hi := x.lastApplied + 1, y.lastApplied + 1, z.lastApplied + 1;
    var first, second := OpsBetween(y.log, lo, mid), OpsBetween(z.log, mid, hi);
    OpsOverlap(y.log, z.log, p, lo, mid, hi);
    ReleasedTwice(x.released, y.released, z.released, first, second, OpsBetween(z.log, lo, hi));
  }

  lemma ReleasedTwice(r: seq<RaftOp>, r': seq<RaftOp>, r'': seq<RaftOp>, a: seq<RaftOp>, b: seq<RaftOp>, c: seq<RaftOp>)
    requires r' == r + a && r'' == r' + b && a + b == c
    ensures r'' == r + c
  {
  }

  /** Operations read from a log and then from one that keeps its first `p` entries. */
  lemma OpsOverlap(log: seq<LogEntry>, log': seq<LogEntry>, p: nat, lo: nat, mid: nat, hi: nat)
    requires lo <= mid <= p <= |log| && log[..p] <= log' && mid <= hi <= |log'|
    ensures OpsBetween(log, lo, mid) + OpsBetween(log', mid, hi) == OpsBetween(log', lo, hi)
  {
    forall i | 0 <= i < mid ensures log[i] == log'[i] { assert log[..p][i] == log'[i]; }
  }

  /** Ends and commit indices of the accepted requests are bounded by `e` and `c`, and reached. */
  predicate Bounds(acc: set<AppendEntriesParams>, e: nat, c: int) {
    && (forall a :: a in acc ==> End(a) <= e && a.leaderCommit <= c)
    && (e == 0 || exists a :: a in acc && End(a) == e)
    && (c == -1 || exists a :: a in acc && a.leaderCommit == c)
    && c >= -1
  }

  lemma BoundsUnique(acc: set<AppendEntriesParams>, e: nat, c: int, f: nat, d: int)
    requires Bounds(acc, e, c) && Bounds(acc, f, d)
    ensures e == f && c == d
  {
  }

  lemma BoundsUnion(a: set<AppendEntriesParams>, b: set<AppendEntriesParams>, e: nat, c: int, f: nat, d: int)
    requires Bounds(a, e, c) && Bounds(b, f, d)
    ensures Bounds(a + b, Max(e, f), Max(c, d))
  {
    var all := a + b;
    if Max(e, f) != 0 {
      var m :| m in (if e >= f then a else b) && End(m) == Max(e, f);
      assert m in all;
    }
    if Max(c, d) != -1 {
      var m :| m in (if c >= d then a else b) && m.leaderCommit == Max(c, d);
      assert m in all;
    }
  }

  /** A whole sequence of deliveries, whatever was accepted on the way. */
  lemma {:induction false} AllBecome(x: Node, w: seq<LogEntry>, t: int, ms: seq<AppendEntriesParams>)
    returns (e: nat, c: int)
    requires Hears(x, w, t) && WindowsOf(w, t, ms)
    ensures e <= |w| && Bounds(AcceptedOf(x, ms), e, c) && Became(x, DeliverAll(x, ms), w, e, c)
    ensures Hears(DeliverAll(x, ms), w, t)
    decreases |ms|
  {
    if ms == [] {
      e, c := 0, -1;
      assert OpsBetween(x.log, x.lastApplied + 1, x.lastApplied + 1) == [];
    } else {
      var y := Deliver(x, ms[0]);
      var f, d := OneBecomes(x, w, t, ms[0]);
      TailWindows(w, t, ms);
      e, c := AllBecome(y, w, t, ms[1..]);
      var z := DeliverAll(y, ms[1..]);
      CommonStops(z.log, w);
      BecameTwice(x, y, z, w, f, d, e, c);
      BoundsUnion(AcceptedOne(x, ms[0]), AcceptedOf(y, ms[1..]), f, d, e, c);
      e, c := Max(f, e), Max(d, c);
    }
  }

  /** One delivery, accepted or not. */
  lemma OneBecomes(x: Node, w: seq<LogEntry>, t: int, a: AppendEntriesParams) returns (e: nat, c: int)
    requires Hears(x, w, t) && WindowOf(w, t, a)
    ensures e <= |w| && Bounds(AcceptedOne(x, a), e, c) && Became(x, Deliver(x, a), w, e, c) &&
      Hears(Deliver(x, a), w, t)
  {
    if Accepts(x, a) {
      AcceptedBecomes(x, w, t, a);
      assert a in AcceptedOne(x, a);
      e, c := End(a), Max(a.leaderCommit, -1);
    } else {
      RefusedBecomes(x, w, t, a);
      e, c := 0, -1;
    }
  }

  lemma TailWindows(w: seq<LogEntry>, t: int, ms: seq<AppendEntriesParams>)
    requires WindowsOf(w, t, ms) && ms != []
    ensures WindowOf(w, t, ms[0]) && WindowsOf(w, t, ms[1..])
  {
    forall i | 0 <= i < |ms| - 1 ensures WindowOf(w, t, ms[1..][i]) { assert ms[1..][i] == ms[i + 1]; }
  }

  /** Two sequences of requests of one leader, of which the same ones were accepted, leave the same
      log, commit index, last applied index and released operations: neither the order nor the
      number of deliveries matters. */
  lemma Confluent(x: Node, w: seq<LogEntry>, t: int, ms: seq<AppendEntriesParams>, ms': seq<AppendEntriesParams>)
    requires Hears(x, w, t) && WindowsOf(w, t, ms) && WindowsOf(w, t, ms')
    requires AcceptedOf(x, ms) == AcceptedOf(x, ms')
    ensures var y, z := DeliverAll(x, ms), DeliverAll(x, ms');
      y.log == z.log && y.commitIndex == z.commitIndex && y.lastApplied == z.lastApplied && y.released == z.released
  {
    var e, c := AllBecome(x, w, t, ms);
    var f, d := AllBecome(x, w, t, ms');
    BoundsUnique(AcceptedOf(x, ms), e, c, f, d);
  }

  /** Requests on their way to `n` in term `t`, in some state of a run. */
  ghost predicate OnTheirWay(s: Cluster, n: int, t: int, ms: seq<AppendEntriesParams>) {
    forall i {:trigger ms[i]} :: 0 <= i < |ms| ==> AppReq(n, ms[i]) in s.net && ms[i].term == t
  }

  lemma RequestsAreWindows(s: Cluster, n: int, t: int, ms: seq<AppendEntriesParams>)
    requires Inv(s) && OnTheirWay(s, n, t, ms) && t in s.termLog
    ensures WindowsOf(s.termLog[t], t, ms)
  {
    forall i | 0 <= i < |ms| ensures WindowOf(s.termLog[t], t, ms[i]) {
      assert MsgOk(s, AppReq(n, ms[i]));
    }
  }

  // In runs

  /** The logs of the terms' leaders are recorded without promises. */
  predicate PlainLogs(s: Cluster) {
    forall t {:trigger s.termLog[t]} :: t in s.termLog ==> Plain(s.termLog[t]) == s.termLog[t]
  }

  lemma StepPlainLogs(s: Cluster, a: Action)
    requires PlainLogs(s) && Enabled(s, a)
    ensures PlainLogs(Next(s, a))
  {
    match a
    case Append(n, ops) => PlainTwice(LeaderAppend(s.nodes[n], ops).log);
    case RecvVoteRsp(m) => PlainTwice(HandleVoteReply(s.nodes[m.to], m.saved, m.voteRet).log);
    case RecvAppend(m) => assert NextRecvAppend(s, m).termLog == s.termLog;
    case _ => assert Next(s, a).termLog == s.termLog;
  }

  lemma {:induction false} RunPlainLogs(s: Cluster, run: seq<Action>)
    requires PlainLogs(s) && Legal(s, run)
    ensures PlainLogs(After(s, run))
    decreases |run|
  {
    if run != [] {
      StepPlainLogs(s, run[0]);
      RunPlainLogs(Next(s, run[0]), run[1..]);
    }
  }

  /** A replica that has not passed term `t` hears the leader of `t`. */
  lemma ReplicaHears(s: Cluster, n: int, t: int)
    requires Inv(s) && PlainLogs(s) && n in s.nodes && TermOf(s, n) <= t && t in s.elections
    ensures t in s.termLog && Hears(s.nodes[n], s.termLog[t], t)
  {
    var x := s.nodes[n];
    assert NodeOk(s, n) && TermOk(s, t);
    var w, p := s.termLog[t], LogOf(s, n)[..x.commitIndex + 1];
    LeaderCompleteness.PrefixInLeader(s, p, x.currentTerm, t);
    ValidAgrees(s.termLog, x.log, w);
    CommonReaches(x.log, w, x.commitIndex + 1);
  }

  lemma CommonReaches(log: seq<LogEntry>, w: seq<LogEntry>, k: nat)
    requires k <= |log| && Plain(log)[..k] <= w
    ensures k <= Common(log, w)
  {
    CommonStops(log, w);
    forall i | 0 <= i < k ensures log[i].term == w[i].term {
      assert Plain(log)[..k][i] == w[i];
    }
  }

  /** In every state of every run: any two sequences of the requests on their way to a replica in a
      term it has not passed, of which it accepts the same ones, leave it with the same log, commit
      index and released operations. */
  lemma ConfluentInRuns(members: set<int>, run: seq<Action>, i: nat, n: int, t: int,
                        ms: seq<AppendEntriesParams>, ms': seq<AppendEntriesParams>)
    requires Run(members, run) && i <= |run| && n in members && NodeAt(members, run, i, n).currentTerm <= t
    requires OnTheirWay(StateAt(members, run, i), n, t, ms) && OnTheirWay(StateAt(members, run, i), n, t, ms')
    requires AcceptedOf(NodeAt(members, run, i, n), ms) == AcceptedOf(NodeAt(members, run, i, n), ms')
    ensures var x := NodeAt(members, run, i, n);
      var y, z := DeliverAll(x, ms), DeliverAll(x, ms');
      y.log == z.log && y.commitIndex == z.commitIndex && y.lastApplied == z.lastApplied && y.released == z.released
  {
    var s := StateAt(members, run, i);
    StateAtLater(members, run, i);
    SplitRun(Init(members), run, i);
    RunPlainLogs(Init(members), run[..i]);
    RunsConfluent(s, n, t, ms, ms');
  }

  lemma RunsConfluent(s: Cluster, n: int, t: int, ms: seq<AppendEntriesParams>, ms': seq<AppendEntriesParams>)
    requires Inv(s) && PlainLogs(s) && n in s.nodes && TermOf(s, n) <= t
    requires OnTheirWay(s, n, t, ms) && OnTheirWay(s, n, t, ms')
    requires AcceptedOf(s.nodes[n], ms) == AcceptedOf(s.nodes[n], ms')
    ensures var y, z := DeliverAll(s.nodes[n], ms), DeliverAll(s.nodes[n], ms');
      y.log == z.log && y.commitIndex == z.commitIndex && y.lastApplied == z.lastApplied && y.released == z.released
  {
    RequestsElected(s, n, t, ms);
    RequestsElected(s, n, t, ms');
    if t in s.elections {
      ReplicaHears(s, n, t);
      RequestsAreWindows(s, n, t, ms);
      RequestsAreWindows(s, n, t, ms');
      Confluent(s.nodes[n], s.termLog[t], t, ms, ms');
    }
  }

  /** A term with requests has a leader. */
  lemma RequestsElected(s: Cluster, n: int, t: int, ms: seq<AppendEntriesParams>)
    requires Inv(s) && OnTheirWay(s, n, t, ms)
    ensures ms != [] ==> t in s.elections
  {
    if ms != [] {
      assert MsgOk(s, AppReq(n, ms[0]));
    }
  }
}
