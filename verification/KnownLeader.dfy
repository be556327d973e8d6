/** Whom a replica takes for the leader, and so where it sends its clients.

    Every replication request names its sender as the leader, a stale one too. So the last request that a
    replica has handled decides, not the latest term. */
module KnownLeader {
  import opened RaftTypes
  import opened RaftHandlers
  import opened RaftCluster
  import opened ClusterInvariant
  import opened ClusterGrowth
  import opened ClusterSafety
  import opened HandlerFacts

  /** The term in which replica `n` last heard of a leader since it started, after one more action: that of
      the last request it handled, or of its own last election. */
  ghost function Hear(s: Cluster, a: Action, before: Option<int>, n: int): Option<int>
    requires Enabled(s, a) && n in s.nodes
  {
    if Restarts(a, n) then None
    else if a.RecvAppend? && a.m.to == n then Some(a.m.app.term)
    else if Wins(s, a, n) then Some(s.nodes[n].currentTerm)
    else before
  }

  ghost predicate Wins(s: Cluster, a: Action, n: int)
    requires Enabled(s, a) && n in s.nodes
  {
    && a.RecvVoteRsp? && a.m.to == n && s.nodes[n].role == Candidate
    && n in Next(s, a).nodes && Next(s, a).nodes[n].role == Leader
  }

  ghost function HeardAfter(s: Cluster, before: Option<int>, run: seq<Action>, n: int): Option<int>
    requires Legal(s, run) && n in s.nodes
    decreases |run|
  {
    if run == [] || n !in Next(s, run[0]).nodes then before
    else HeardAfter(Next(s, run[0]), Hear(s, run[0], before, n), run[1..], n)
  }

  ghost function Heard(members: set<int>, run: seq<Action>, i: nat, n: int): Option<int>
    requires Run(members, run) && i <= |run| && n in members
  {
    SplitRun(Init(members), run, i);
    HeardAfter(Init(members), None, run[..i], n)
  }

  /** The replica names the leader it heard of last, or replica 0 if it has heard of none. */
  ghost predicate Names(s: Cluster, heard: Option<int>, n: int)
    requires n in s.nodes
  {
    match heard
    case None => s.nodes[n].lastKnownLeader == 0
    case Some(u) => u in s.elections && s.nodes[n].lastKnownLeader == s.elections[u].leader
  }

  lemma StepNames(s: Cluster, a: Action, heard: Option<int>, n: int)
    requires Inv(s) && Step(s, a) && n in s.nodes && Names(s, heard, n)
    ensures n in Next(s, a).nodes && Names(Next(s, a), Hear(s, a, heard, n), n)
  {
    StepKeeps(s, a);
    assert NodeOk(s, n);
    NameAfter(s, a, n);
    var s' := Next(s, a);
    if Restarts(a, n) {
    } else if a.RecvAppend? && a.m.to == n {
      assert MsgOk(s, a.m) && TermLogGrows(s, s', a.m.app.term);
    } else if Wins(s, a, n) {
      WinnerLeads(s, a, n);
    } else if heard.Some? {
      assert TermLogGrows(s, s', heard.value);
    }
  }

  lemma WinnerLeads(s: Cluster, a: Action, n: int)
    requires Enabled(s, a) && n in s.nodes && Wins(s, a, n) && Inv(Next(s, a))
    ensures TermOf(s, n) in Next(s, a).elections && Next(s, a).elections[TermOf(s, n)].leader == n
  {
    CountedNodes(s, a.m);
    ReplyNames(s.nodes[n], a.m);
    assert NodeOk(Next(s, a), n);
  }

  /** What one action does to the name. */
  lemma NameAfter(s: Cluster, a: Action, n: int)
    requires Enabled(s, a) && n in s.nodes && s.nodes[n].id == n
    ensures n in Next(s, a).nodes
    ensures Next(s, a).nodes[n].lastKnownLeader ==
      if Restarts(a, n) then 0
      else if a.RecvAppend? && a.m.AppReq? && a.m.to == n then a.m.app.leaderId
      else if Wins(s, a, n) then n
      else s.nodes[n].lastKnownLeader
  {
    if a.RecvAppend? {
      if a.m.to == n { NamesSender(s.nodes[n], a.m.app); }
    } else if a.RecvVoteRsp? {
      CountedNodes(s, a.m);
      if a.m.to == n { ReplyNames(s.nodes[n], a.m); }
    } else if !Restarts(a, n) {
      SameName(s, a, n);
    }
  }

  lemma NamesSender(x: Node, a: AppendEntriesParams)
    requires a.prevLogIndex >= -1
    ensures HandleAppendEntries(x, a).0.lastKnownLeader == a.leaderId
  {
    if a.term >= x.currentTerm { HandledRole(x, a); }
  }

  lemma ReplyNames(x: Node, m: Msg)
    requires m.VoteRsp?
    ensures var y := HandleVoteReply(x, m.saved, m.voteRet);
      if x.role == Candidate && y.role == Leader
      then y.lastKnownLeader == x.id && y.currentTerm == x.currentTerm
      else y.lastKnownLeader == x.lastKnownLeader
  {
  }

  lemma SameName(s: Cluster, a: Action, n: int)
    requires Enabled(s, a) && n in s.nodes && !Restarts(a, n) && !a.RecvAppend? && !a.RecvVoteRsp?
    ensures n in Next(s, a).nodes && Next(s, a).nodes[n].lastKnownLeader == s.nodes[n].lastKnownLeader
  {
    match a
    case Append(i, ops) => AppendAllFrame(s.nodes[i], Stamp(s.nodes[i].currentTerm, ops));
    case RecvVote(m) => VoteName(s, m, n);
    case RecvAppendRsp(m) => ReplyName(s, m, n);
    case _ =>
  }

  lemma VoteName(s: Cluster, m: Msg, n: int)
    requires Enabled(s, RecvVote(m)) && n in s.nodes
    ensures n in NextRecvVote(s, m).nodes && NextRecvVote(s, m).nodes[n].lastKnownLeader == s.nodes[n].lastKnownLeader
  {
  }

  lemma ReplyName(s: Cluster, m: Msg, n: int)
    requires Enabled(s, RecvAppendRsp(m)) && n in s.nodes
    ensures n in NextRecvAppendRsp(s, m).nodes
    ensures NextRecvAppendRsp(s, m).nodes[n].lastKnownLeader == s.nodes[n].lastKnownLeader
  {
  }

  lemma {:induction false} RunNames(s: Cluster, heard: Option<int>, run: seq<Action>, n: int)
    requires Inv(s) && Legal(s, run) && n in s.nodes && Names(s, heard, n)
    ensures n in After(s, run).nodes && Names(After(s, run), HeardAfter(s, heard, run, n), n)
    decreases |run|
  {
    if run != [] {
      StepKeeps(s, run[0]);
      StepNames(s, run[0], heard, n);
      RunNames(Next(s, run[0]), Hear(s, run[0], heard, n), run[1..], n);
    }
  }

  /** After any request, current or stale, accepted or refused, the receiver names its sender. */
  lemma RequestNamesSender(members: set<int>, run: seq<Action>, i: nat)
    requires Run(members, run) && i < |run| && run[i].RecvAppend?
    ensures run[i].m.AppReq? && run[i].m.to in members
    ensures NodeAt(members, run, i + 1, run[i].m.to).lastKnownLeader == run[i].m.app.leaderId
  {
    var s, s' := RunStep(members, run, i);
    NamesSender(s.nodes[run[i].m.to], run[i].m.app);
  }

  /** In every state of every run a replica names the winner of the term it heard of last. So in a term that
      has a leader it names that one exactly if the term it heard of last was won by the same replica. */
  lemma NamesLeaderExactly(members: set<int>, run: seq<Action>, i: nat, n: int)
    requires Run(members, run) && i <= |run| && n in members
    ensures var s, x, heard := StateAt(members, run, i), NodeAt(members, run, i, n), Heard(members, run, i, n);
      && (heard.None? ==> x.lastKnownLeader == 0)
      && (heard.Some? ==> heard.value in s.elections && x.lastKnownLeader == s.elections[heard.value].leader)
      && (x.currentTerm in s.elections ==>
            (x.lastKnownLeader == s.elections[x.currentTerm].leader <==>
              s.elections[x.currentTerm].leader == WinnerOf(s, heard)))
  {
    InitInv(members);
    SplitRun(Init(members), run, i);
    StateAtLater(members, run, i);
    RunNames(Init(members), None, run[..i], n);
  }

  /** The winner of the term, or the replica that is named before any leader is known. */
  function WinnerOf(s: Cluster, heard: Option<int>): int
    requires heard.Some? ==> heard.value in s.elections
  {
    if heard.Some? then s.elections[heard.value].leader else 0
  }

  /** A stale request changes nothing but that name: a follower of one leader is left naming another. */
  lemma StaleMisleads(x: Node, a: AppendEntriesParams)
    requires a.prevLogIndex >= -1 && a.term < x.currentTerm
    ensures HandleAppendEntries(x, a).0 == x.(lastKnownLeader := a.leaderId)
  {
  }
}
