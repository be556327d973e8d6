/** A crash inside a follower's log rewrite keeps the invariant: whatever part of the rewrite reached
    the file, the log is valid and nothing that the replica has acknowledged is lost for good. */
module StepTorn {
  import opened RaftTypes
  import opened RaftHandlers
  import opened RaftCluster
  import opened ClusterInvariant
  import opened ClusterGrowth
  import opened HandlerFacts
  import opened StepFollow

  /** What is left of the follower's log: all of it or a prefix of the leader's log `w`, and in either case
      everything that the two have in common. */
  ghost predicate LeftOf(was: seq<LogEntry>, log: seq<LogEntry>, w: seq<LogEntry>) {
    && Plain(log) == log && (log == Plain(was) || log <= w)
    && (forall p {:trigger Shared(p, was, w)} :: Shared(p, was, w) ==> p <= log)
  }

  /** The replica after the restart: a follower in the request's term that has committed nothing yet. */
  predicate RestartedIn(x: Node, y: Node, a: AppendEntriesParams, log: seq<LogEntry>) {
    && y.id == x.id && y.config == x.config && y.peers == x.config - {x.id} && y.log == log
    && y.currentTerm == a.term && y.role == Follower && Entered(x, y, a)
    && y.commitIndex == -1 && y.lastApplied == -1 && y.released == []
  }

  lemma TornKeeps(s: Cluster, m: Msg, log: seq<LogEntry>)
    requires Inv(s) && Step(s, CrashInRewrite(m, log))
    ensures var s' := SetNode(s, m.to, TornRestart(s.nodes[m.to], m.app, log)); Inv(s') && Grows(s, s')
  {
    var x, a := s.nodes[m.to], m.app;
    TornFits(s, m, log);
    TornIs(x, a, log, s.termLog[a.term]);
    TornRestarts(x, a, log);
    RestartedKeeps(s, m, log, TornRestart(x, a, log));
  }

  /** The request fits the replica's log and its leader's log. */
  lemma TornFits(s: Cluster, m: Msg, log: seq<LogEntry>)
    requires Inv(s) && Enabled(s, CrashInRewrite(m, log))
    ensures MsgOk(s, m) && TermOk(s, m.app.term)
    ensures Fits(s.nodes[m.to].log, s.termLog[m.app.term], m.app.prevLogIndex + 1, Payload(m.app.entries))
  {
    assert MsgOk(s, m) && NodeOk(s, m.to) && TermOk(s, m.app.term);
    ValidAgrees(s.termLog, s.nodes[m.to].log, s.termLog[m.app.term]);
    WindowFits(s.nodes[m.to].log, s.termLog[m.app.term], m.app);
  }

  lemma TornRestarts(x: Node, a: AppendEntriesParams, log: seq<LogEntry>)
    requires a.term >= x.currentTerm && Plain(log) == log
    ensures RestartedIn(x, TornRestart(x, a, log), a, log)
  {
  }

  lemma TornIs(x: Node, a: AppendEntriesParams, log: seq<LogEntry>, w: seq<LogEntry>)
    requires TornLog(x, a, log) && Fits(x.log, w, a.prevLogIndex + 1, Payload(a.entries))
    ensures LeftOf(x.log, log, w)
  {
    var at, es := a.prevLogIndex + 1, Payload(a.entries);
    MatchLenBounds(x.log, at, es);
    TornAtIs(x.log, at, es, MatchLen(x.log, at, es), log, w);
  }

  lemma TornAtIs(was: seq<LogEntry>, at: nat, es: seq<LogEntry>, k: nat, log: seq<LogEntry>, w: seq<LogEntry>)
    requires Fits(was, w, at, es) && k == MatchLen(was, at, es) && at + k <= |was| && TornAt(was, at, es, k, log)
    ensures LeftOf(was, log, w)
  {
    if log == Plain(was) {
      PlainTwice(was);
    } else {
      TornShort(was, at, es, k, log, w);
    }
  }

  lemma TornShort(was: seq<LogEntry>, at: nat, es: seq<LogEntry>, k: nat, log: seq<LogEntry>, w: seq<LogEntry>)
    requires Fits(was, w, at, es) && k == MatchLen(was, at, es) && k < |es| && at + k <= |was|
    requires PartOf(Plain(was)[..at + k], Plain(es[k..]), log)
    ensures LeftOf(was, log, w)
  {
    MatchLenStops(was, at, es);
    MatchedIsEqual(was, w, at, es);
    TornPrefix(was, log, w, at, es, k);
  }

  lemma TornPrefix(was: seq<LogEntry>, log: seq<LogEntry>, w: seq<LogEntry>, at: nat, es: seq<LogEntry>, k: nat)
    requires k < |es| && at + k <= |was| && at + |es| <= |w| && es == w[at..at + |es|] && Plain(es) == es
    requires Plain(was)[..at + k] == w[..at + k] && (at + k == |was| || was[at + k].term != es[k].term)
    requires PartOf(Plain(was)[..at + k], Plain(es[k..]), log)
    ensures LeftOf(was, log, w)
  {
    PlainDrop(es, k);
    assert Plain(was)[..at + k] + Plain(es)[k..] == w[..at + |es|];
    PlainPrefix(log, w, was, es, at, k);
    forall p | Shared(p, was, w) ensures p <= log {
      SharedBelowCut(was, w, at, es, k, p);
      assert p <= w[..at + k] <= log;
    }
  }

  lemma PlainPrefix(log: seq<LogEntry>, w: seq<LogEntry>, was: seq<LogEntry>, es: seq<LogEntry>, at: nat, k: nat)
    requires k <= |es| && at + k <= |was| && at + |es| <= |w| && es == w[at..at + |es|] && Plain(es) == es
    requires Plain(was)[..at + k] == w[..at + k] && log <= w[..at + |es|]
    ensures Plain(log) == log
  {
    forall i | 0 <= i < |log| ensures log[i].WithoutPromise() == log[i] {
      if i < at + k {
        assert w[..at + k][i] == Plain(was)[i];
      } else {
        assert w[i] == es[i - at] && Plain(es)[i - at] == es[i - at];
      }
    }
  }

  /** Nothing that the two logs share lies above the cut. */
  lemma SharedBelowCut(was: seq<LogEntry>, w: seq<LogEntry>, at: nat, es: seq<LogEntry>, k: nat, p: seq<LogEntry>)
    requires k < |es| && at + k <= |was| && at + |es| <= |w| && es == w[at..at + |es|]
    requires at + k == |was| || was[at + k].term != es[k].term
    requires p <= Plain(was) && p <= w
    ensures |p| <= at + k
  {
    forall i | 0 <= i < |p| ensures was[i].term == w[i].term { assert Plain(was)[i] == w[i]; }
    assert es[k] == w[at + k];
  }

  // The invariant

  lemma RestartedKeeps(s: Cluster, m: Msg, log: seq<LogEntry>, y: Node)
    requires Inv(s) && m.AppReq? && MsgOk(s, m) && m.app.term >= TermOf(s, m.to)
    requires LeftOf(s.nodes[m.to].log, log, s.termLog[m.app.term]) && RestartedIn(s.nodes[m.to], y, m.app, log)
    ensures Inv(SetNode(s, m.to, y)) && Grows(s, SetNode(s, m.to, y))
  {
    var v, t, s' := m.to, m.app.term, SetNode(s, m.to, y);
    assert NodeOk(s, v) && TermOk(s, t);
    EnteredGrows(s, s', v, m.app);
    LocalGrows(s, v, y);
    LeftBasics(s, s', v, t, log);
    NothingCommitted(s', v);
    LeftAcks(s, s', v, t, log);
    LocalParts(s, s', v);
    Assemble(s, s', v);
  }

  lemma LeftBasics(s: Cluster, s': Cluster, v: int, t: int, log: seq<LogEntry>)
    requires Grows(s, s') && v in s.nodes && v in s'.nodes && NodeBasics(s, v)
    requires t in s.elections && TermOk(s, t) && TermOf(s, v) <= t && TermOf(s', v) == t
    requires LeftOf(s.nodes[v].log, log, s.termLog[t])
    requires var x, y := s.nodes[v], s'.nodes[v];
      y.id == x.id && y.config == x.config && y.peers == x.config - {x.id} && y.log == log
    ensures NodeBasics(s', v)
  {
    var w := s.termLog[t];
    LogTerms(s, t);
    if log != LogOf(s, v) {
      TakeValid(s.termLog, w, |log|);
      assert w[..|log|] == log;
    }
    ValidLogStable(s, s', log);
  }

  lemma LeftAcks(s: Cluster, s': Cluster, v: int, u: int, log: seq<LogEntry>)
    requires Inv(s) && Grows(s, s') && v in s.nodes && u in s.termLog && TermOf(s, v) <= u
    requires v in s'.nodes && s' == SetNode(s, v, s'.nodes[v]) && s'.nodes[v].log == log && TermOf(s', v) == u
    requires LeftOf(s.nodes[v].log, log, s.termLog[u])
    ensures forall t, i {:trigger AckCase(s, s', t, i)} :: (t, i) in s'.acked ==> AckCase(s, s', t, i)
  {
    forall t, i | (t, i) in s'.acked ensures AckCase(s, s', t, i) {
      assert AckOk(s, t, i);
      if i == v { LeftAck(s, s', v, u, log, t); }
    }
  }

  lemma LeftAck(s: Cluster, s': Cluster, v: int, u: int, log: seq<LogEntry>, t: int)
    requires Inv(s) && Grows(s, s') && v in s.nodes && u in s.termLog && TermOf(s, v) <= u
    requires v in s'.nodes && s' == SetNode(s, v, s'.nodes[v]) && s'.nodes[v].log == log && TermOf(s', v) == u
    requires LeftOf(s.nodes[v].log, log, s.termLog[u]) && (t, v) in s.acked && AckOk(s, t, v)
    ensures AckOk(s', t, v)
  {
    forall j: nat | j <= s'.acked[(t, v)] ensures Kept(s', t, j, LogOf(s', v), TermOf(s', v)) {
      assert Kept(s, t, j, LogOf(s, v), TermOf(s, v));
      var p := TermPrefix(s, t, j);
      assert p <= LogOf(s, v) && p <= s.termLog[u] ==> Shared(p, s.nodes[v].log, s.termLog[u]);
      KeptUnder(s, s', v, u, t, j);
    }
  }
}
