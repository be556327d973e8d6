/** What the replication handlers do to a log, stated without their loops. */
module HandlerFacts {
  import opened RaftTypes
  import opened RaftHandlers
  import opened ClusterInvariant

  /** The two halves of appending an entry, with nothing in between. */
  lemma HalvesMakeOne(n: Node, e: LogEntry)
    ensures AppendOne(n, e) == PeersAfter(ConfigHalf(n, e), e.op.command)
  {
  }

  /** `r` differs from `n` in log and membership only. */
  predicate SameButLog(n: Node, r: Node) {
    r == n.(log := r.log, config := r.config, lastConfigChange := r.lastConfigChange, peers := r.peers,
            nextIndex := r.nextIndex, matchIndex := r.matchIndex)
  }

  lemma AppendOneFrame(n: Node, e: LogEntry)
    ensures AppendOne(n, e).log == n.log + [e] && SameButLog(n, AppendOne(n, e))
  {
  }

  lemma SameButLogTwice(a: Node, b: Node, c: Node)
    requires SameButLog(a, b) && SameButLog(b, c)
    ensures SameButLog(a, c)
  {
  }

  /** Appending entries appends exactly those entries and touches nothing outside the log and the membership. */
  lemma {:induction false} AppendAllFrame(n: Node, es: seq<LogEntry>)
    ensures AppendAll(n, es).log == n.log + es && SameButLog(n, AppendAll(n, es))
    decreases |es|
  {
    if es == [] {
      assert n.log + es == n.log;
    } else {
      var m := AppendOne(n, es[0]);
      AppendOneFrame(n, es[0]);
      AppendAllFrame(m, es[1..]);
      SameButLogTwice(n, m, AppendAll(m, es[1..]));
      assert n.log + es == n.log + [es[0]] + es[1..];
    }
  }

  lemma {:induction false} AppendAllSnoc(n: Node, es: seq<LogEntry>, e: LogEntry)
    ensures AppendAll(n, es + [e]) == AppendOne(AppendAll(n, es), e)
    decreases |es|
  {
    if es == [] {
      assert (es + [e])[1..] == [];
    } else {
      AppendAllSnoc(AppendOne(n, es[0]), es[1..], e);
      assert (es + [e])[1..] == es[1..] + [e];
    }
  }

  /** Entries that leave the membership alone change the log only. */
  lemma {:induction false} AppendAllData(n: Node, es: seq<LogEntry>)
    requires AllData(es)
    ensures AppendAll(n, es) == n.(log := n.log + es)
    decreases |es|
  {
    if es == [] {
      assert n.log + es == n.log;
    } else {
      AppendAllData(AppendOne(n, es[0]), es[1..]);
      assert n.log + es == n.log + [es[0]] + es[1..];
    }
  }

  /** The reconcile loop stops at the first position where the terms differ or one side ends. */
  lemma {:induction false} MatchLenStops(log: seq<LogEntry>, at: nat, es: seq<LogEntry>)
    requires at <= |log|
    ensures var k := MatchLen(log, at, es);
      && k <= |es| && at + k <= |log|
      && (forall i :: 0 <= i < k ==> log[at + i].term == es[i].term)
      && (k == |es| || at + k == |log| || log[at + k].term != es[k].term)
    decreases |es|
  {
    if at < |log| && es != [] && log[at].term == es[0].term {
      MatchLenStops(log, at + 1, es[1..]);
      var k := MatchLen(log, at + 1, es[1..]);
      forall i | 0 <= i < k + 1 ensures log[at + i].term == es[i].term {
        if i > 0 {
          assert log[at + 1 + (i - 1)].term == es[1..][i - 1].term;
        }
      }
    }
  }

  lemma OpsSnoc(log: seq<LogEntry>, lo: nat, hi: nat)
    requires lo <= hi < |log|
    ensures OpsBetween(log, lo, hi + 1) == OpsBetween(log, lo, hi) + [log[hi].op]
  {
  }

  lemma PlainConcat(a: seq<LogEntry>, b: seq<LogEntry>)
    ensures Plain(a + b) == Plain(a) + Plain(b)
  {
  }

  lemma PlainTwice(a: seq<LogEntry>)
    ensures Plain(Plain(a)) == Plain(a)
  {
  }

  lemma PlainTake(a: seq<LogEntry>, k: nat)
    requires k <= |a|
    ensures Plain(a[..k]) == Plain(a)[..k]
  {
  }

  lemma PlainDrop(a: seq<LogEntry>, k: nat)
    requires k <= |a|
    ensures Plain(a[k..]) == Plain(a)[k..]
  {
  }

  /** Two valid logs with the same term at index `i` are equal up to and including `i`. */
  lemma SameTermSamePrefix(tl: TermLogs, a: seq<LogEntry>, b: seq<LogEntry>, i: nat)
    requires ValidLog(tl, a) && ValidLog(tl, b) && i < |a| && i < |b| && a[i].term == b[i].term
    ensures a[..i + 1] == b[..i + 1]
  {
    assert FromLeader(tl, a, i) && FromLeader(tl, b, i);
  }

  /** The log after the reconcile loop and the truncate-and-append that may follow it. */
  function ReconciledLog(log: seq<LogEntry>, at: nat, es: seq<LogEntry>): seq<LogEntry>
    requires at <= |log|
  {
    var k := MatchLen(log, at, es);
    MatchLenBounds(log, at, es);
    if k < |es| then log[..at + k] + es[k..] else log
  }

  lemma ReconcileLog(n: Node, at: nat, es: seq<LogEntry>)
    requires at <= |n.log|
    ensures Reconcile(n, at, es).log == ReconciledLog(n.log, at, es)
    ensures AllData(es) ==> Reconcile(n, at, es) == n.(log := ReconciledLog(n.log, at, es))
  {
    var k := MatchLen(n.log, at, es);
    MatchLenBounds(n.log, at, es);
    if k < |es| {
      AppendAllFrame(Cut(n, at + k), es[k..]);
      if AllData(es) { AppendAllData(Cut(n, at + k), es[k..]); }
    }
  }

  /** What Log Matching says of a log and the leader's log `w`: the same term at an index means
      the same entries up to it, promises aside. */
  predicate Agrees(log: seq<LogEntry>, w: seq<LogEntry>) {
    forall i {:trigger AgreesAt(log, w, i)} :: 0 <= i < |log| && i < |w| ==> AgreesAt(log, w, i)
  }

  predicate AgreesAt(log: seq<LogEntry>, w: seq<LogEntry>, i: nat)
    requires i < |log| && i < |w|
  {
    log[i].term == w[i].term ==> Plain(log)[..i + 1] == w[..i + 1]
  }

  lemma ValidAgrees(tl: TermLogs, log: seq<LogEntry>, w: seq<LogEntry>)
    requires ValidLog(tl, Plain(log)) && ValidLog(tl, w)
    ensures Agrees(log, w)
  {
    forall i | 0 <= i < |log| && i < |w| ensures AgreesAt(log, w, i) {
      if log[i].term == w[i].term { SameTermSamePrefix(tl, Plain(log), w, i); }
    }
  }

  lemma ReconcileIs(n: Node, at: nat, es: seq<LogEntry>, k: nat)
    requires at <= |n.log| && k == MatchLen(n.log, at, es)
    ensures k <= |es| && at + k <= |n.log|
    ensures Reconcile(n, at, es) == if k < |es| then AppendAll(Cut(n, at + k), es[k..]) else n
  {
    MatchLenBounds(n.log, at, es);
  }

  /** The handler for a request that is not of an earlier term. */
  lemma HandledAs(n: Node, args: AppendEntriesParams)
    requires args.prevLogIndex >= -1 && args.term >= n.currentTerm
    ensures var j := Joined(n, args);
      && j.log == n.log
      && HandleAppendEntries(n, args) ==
         if PrevMatches(n.log, args) then
           (FollowerCommit(Reconcile(j, args.prevLogIndex + 1, Payload(args.entries)), args.leaderCommit),
            AppendEntriesRet(args.term, true))
         else
           (j, AppendEntriesRet(args.term, false))
  {
  }

  /** Reconciling touches only the log and the membership. */
  lemma ReconcileFrame(n: Node, at: nat, es: seq<LogEntry>)
    requires at <= |n.log|
    ensures SameButLog(n, Reconcile(n, at, es))
  {
    var k := MatchLen(n.log, at, es);
    MatchLenBounds(n.log, at, es);
    if k < |es| { AppendAllFrame(Cut(n, at + k), es[k..]); }
  }

  /** Past the term check, a request leaves term, role, vote and known leader as joining its sender does. */
  lemma HandledRole(n: Node, args: AppendEntriesParams)
    requires args.prevLogIndex >= -1 && args.term >= n.currentTerm
    ensures var y, j := HandleAppendEntries(n, args).0, Joined(n, args);
      && y.currentTerm == j.currentTerm && y.role == j.role && y.votedFor == j.votedFor
      && y.lastKnownLeader == j.lastKnownLeader
  {
    HandledAs(n, args);
    if PrevMatches(n.log, args) { ReconcileFrame(Joined(n, args), args.prevLogIndex + 1, Payload(args.entries)); }
  }

  /** The window of `w` that a request carries: it starts at `at`, and `log` has the entry before it. */
  predicate Fits(log: seq<LogEntry>, w: seq<LogEntry>, at: nat, es: seq<LogEntry>) {
    && Agrees(log, w)
    && at <= |log| && at + |es| <= |w| && es == w[at..at + |es|] && Plain(es) == es
    && (at > 0 ==> log[at - 1].term == w[at - 1].term)
  }

  /** Where the reconcile loop stops, the two logs are equal, promises aside: the loop
      compares terms only, but equal terms mean equal prefixes. */
  lemma MatchedIsEqual(log: seq<LogEntry>, w: seq<LogEntry>, at: nat, es: seq<LogEntry>)
    requires Fits(log, w, at, es)
    ensures var k := MatchLen(log, at, es);
      k <= |es| && at + k <= |log| && Plain(log)[..at + k] == w[..at + k]
  {
    MatchLenStops(log, at, es);
    var k := MatchLen(log, at, es);
    if at + k > 0 {
      assert k > 0 ==> log[at + (k - 1)].term == es[k - 1].term;
      assert log[at + k - 1].term == w[at + k - 1].term && AgreesAt(log, w, at + k - 1);
    }
  }

  /** After accepting a window of `w` the follower holds `w` up to the window's end; its log is
      either unchanged or exactly that. */
  lemma AcceptedLog(log: seq<LogEntry>, w: seq<LogEntry>, at: nat, es: seq<LogEntry>)
    requires Fits(log, w, at, es)
    ensures var log' := ReconciledLog(log, at, es);
      && w[..at + |es|] <= Plain(log')
      && (log' == log || Plain(log') == w[..at + |es|])
  {
    MatchedIsEqual(log, w, at, es);
    var k := MatchLen(log, at, es);
    var log' := ReconciledLog(log, at, es);
    if k < |es| {
      forall i | 0 <= i < at + |es| ensures Plain(log')[i] == w[i] {
        if i < at + k {
          assert Plain(log)[..at + k][i] == w[i];
        } else {
          assert log'[i] == es[i - at] && Plain(es)[i - at] == es[i - at];
        }
      }
      assert Plain(log') == w[..at + |es|];
    }
  }

  /** Accepting a window of `w` loses nothing that the follower's log and `w` have in common. */
  lemma AcceptKeeps(log: seq<LogEntry>, w: seq<LogEntry>, at: nat, es: seq<LogEntry>, p: seq<LogEntry>)
    requires Fits(log, w, at, es)
    requires p <= Plain(log) && p <= w
    ensures p <= Plain(ReconciledLog(log, at, es))
  {
    MatchLenStops(log, at, es);
    AcceptedLog(log, w, at, es);
    var k := MatchLen(log, at, es);
    if k < |es| && |p| > at + |es| {
      assert false;
    }
  }

  /** Where a request's entries end. */
  function End(a: AppendEntriesParams): int {
    a.prevLogIndex + 1 + |a.entries|
  }
}
