/** Executor refinement and promise linearity, over every system run. */
module PipelineRuns {
  import opened RaftTypes
  import opened RaftHandlers
  import opened RaftCluster
  import opened ClusterInvariant
  import opened ElectionBasics
  import opened Promises
  import opened ReplicaPipeline
  import opened PipelineSafety
  import opened ClientReplies
  import HandlerFacts
  import ClusterSafety
  import Replay

  type Database = Replay.Database

  // Sections of the replica

  /** An action of another replica leaves this one alone. */
  lemma OthersLeaveAlone(s: Cluster, a: Action, n: int)
    requires Enabled(s, a) && n in s.nodes && Actor(a) != n
    ensures n in Next(s, a).nodes && Next(s, a).nodes[n] == s.nodes[n]
  {
    if a.RecvVoteRsp? { ClusterSafety.CountedNodes(s, a.m); }
  }

  lemma RestartFit(before: Node, x: Node, side: Side)
    requires Sound(side.ledger) && Truthful(before, side)
    ensures Fit(Restart(x), Started(side.ledger, side.world))
  {
    RestartProgress(x);
    RestartPromised(x, side);
    HandlerFacts.PlainTwice(x.log);
    StartTruthful(before, Restart(x), side);
    RestartOrder(x, side);
  }

  lemma RestartProgress(x: Node)
    ensures Progress(Restart(x)) && Restart(x).released == []
  {
    assert OpsBetween(Restart(x).log, 0, 0) == [];
  }

  lemma RestartOrder(x: Node, side: Side)
    ensures InOrder(Restart(x), Started(side.ledger, side.world)) && Announced(Started(side.ledger, side.world))
  {
  }

  lemma RestartPromised(x: Node, side: Side)
    requires Sound(side.ledger)
    ensures Promised(Restart(x), Started(side.ledger, side.world))
  {
    var y, side' := Restart(x), Started(side.ledger, side.world);
    forall i | 0 <= i < |Pending(y)| ensures Pending(y)[i].promiseHandle.None? {
      assert Pending(y)[i] == y.log[i].op;
    }
    NoHandles(Pending(y));
    NothingStarted(side');
  }

  lemma NothingStarted(side: Side)
    requires side == Started(side.ledger, side.world)
    ensures Submitted(side) == multiset{} && Queued(side) == multiset{}
  {
    assert side.execIn[side.done..] == [];
  }

  lemma QuietSection(s: Cluster, a: Action, n: int, side: Side)
    requires Enabled(s, a) && Actor(a) == n && n in s.nodes && Fit(s.nodes[n], side) && !side.releasing
    requires !a.RecvAppend? && !a.RecvAppendRsp? && !a.Append? && !Restarts(a, n)
    ensures n in Next(s, a).nodes
    ensures Fit(Next(s, a).nodes[n], AfterSection(side, s.nodes[n], Next(s, a).nodes[n], a))
  {
    ClusterSafety.QuietAction(s, a, n);
    var x, y := s.nodes[n], Next(s, a).nodes[n];
    StillMoves(x, y);
    QuietSide(x, y, side, a);
    SectionFit(x, y, |x.log|, [], side, AfterSection(side, x, y, a));
  }

  lemma QuietSide(x: Node, y: Node, side: Side, a: Action)
    requires !a.RecvAppend? && !a.RecvAppendRsp? && !a.Append? && !a.Crash? && !a.CrashInRewrite? && !a.CrashInPersist?
    requires Beyond(x.released, y.released) == [] && !side.releasing
    ensures SideMoves(x, y, |x.log|, [], side, AfterSection(side, x, y, a))
  {
    NothingCut(x);
  }

  lemma NothingCut(x: Node)
    ensures OpsFrom(x.log, |x.log|) == [] && OpsFrom([], 0) == []
  {
  }

  lemma AppendSection(x: Node, side: Side, a: Action)
    requires a.Append? && Fit(x, side) && !side.releasing && side.stage == Swapped && a.ops == side.raftIn
    ensures Fit(LeaderAppend(x, a.ops), AfterSection(side, x, LeaderAppend(x, a.ops), a))
  {
    var y := LeaderAppend(x, a.ops);
    AppendMoves(x, a.ops);
    NothingCut(x);
    SectionFit(x, y, |x.log|, Stamp(x.currentTerm, a.ops), side, AfterSection(side, x, y, a));
  }

  lemma ReplySection(x: Node, side: Side, a: Action)
    requires a.RecvAppendRsp? && a.m.AppRsp? && Fit(x, side) && !side.releasing && x.commitIndex == x.lastApplied
    ensures var y := HandleAppendReply(x, a.m.from, a.m.saved, a.m.next, a.m.count, a.m.appRet);
      Fit(y, AfterSection(side, x, y, a))
  {
    var y := HandleAppendReply(x, a.m.from, a.m.saved, a.m.next, a.m.count, a.m.appRet);
    ReplyMoves(x, a.m.from, a.m.saved, a.m.next, a.m.count, a.m.appRet);
    ReplySide(x, y, side, a);
    SectionFit(x, y, |x.log|, [], side, AfterSection(side, x, y, a));
  }

  lemma ReplySide(x: Node, y: Node, side: Side, a: Action)
    requires a.RecvAppendRsp? && !side.releasing
    requires Beyond(x.released, y.released) != [] ==> y.commitIndex != x.commitIndex
    ensures SideMoves(x, y, |x.log|, [], side, AfterSection(side, x, y, a))
  {
    NothingCut(x);
  }

  lemma FollowSection(x: Node, side: Side, a: Action)
    requires a.RecvAppend? && a.m.AppReq? && a.m.app.prevLogIndex >= -1
    requires Fit(x, side) && !side.releasing && x.commitIndex == x.lastApplied
    requires Plain(Payload(a.m.app.entries)) == Payload(a.m.app.entries)
    requires ClusterSafety.KeepsCommitted(x, HandleAppendEntries(x, a.m.app).0)
    ensures var y := HandleAppendEntries(x, a.m.app).0; Fit(y, AfterSection(side, x, y, a))
  {
    var y := HandleAppendEntries(x, a.m.app).0;
    FollowMoves(x, a.m.app);
    AddedHasNoHandles(x, a.m.app);
    FollowSide(x, y, side, a);
    SectionFit(x, y, CutPoint(x, a.m.app), Added(x, a.m.app), side, AfterSection(side, x, y, a));
  }

  lemma FollowSide(x: Node, y: Node, side: Side, a: Action)
    requires a.RecvAppend? && a.m.AppReq? && a.m.app.prevLogIndex >= -1
    requires Handles(OpsFrom(Added(x, a.m.app), 0)) == multiset{}
    requires Beyond(x.released, y.released) != [] ==>
      Accepts(x, a.m.app) && a.m.app.leaderCommit > x.commitIndex
    ensures SideMoves(x, y, CutPoint(x, a.m.app), Added(x, a.m.app), side, AfterSection(side, x, y, a))
  {
  }

  /** The section's replica and threads, before and after. */
  ghost predicate SectionKeeps(s: Cluster, a: Action, n: int, side: Side)
    requires Enabled(s, a) && n in s.nodes
  {
    n in Next(s, a).nodes && Fit(Next(s, a).nodes[n], AfterSection(side, s.nodes[n], Next(s, a).nodes[n], a))
  }

  lemma RestartKeeps(s: Cluster, a: Action, n: int, side: Side)
    requires Enabled(s, a) && n in s.nodes && Restarts(a, n) && Fit(s.nodes[n], side)
    ensures SectionKeeps(s, a, n, side)
  {
    match a
    case Crash(_) => RestartFit(s.nodes[n], s.nodes[n], side);
    case CrashInRewrite(m, log) => RestartFit(s.nodes[n], Joined(s.nodes[n], m.app).(log := log), side);
    case CrashInPersist(m) => RestartFit(s.nodes[n], s.nodes[n].(votedFor := -1), side);
  }

  lemma AppendKeeps(s: Cluster, a: Action, n: int, side: Side)
    requires Enabled(s, a) && n in s.nodes && a.Append? && a.n == n && Fit(s.nodes[n], side)
    requires !side.releasing && side.stage == Swapped && a.ops == side.raftIn
    ensures SectionKeeps(s, a, n, side)
  {
    AppendSection(s.nodes[n], side, a);
  }

  lemma ReplyKeeps(s: Cluster, a: Action, n: int, side: Side)
    requires Enabled(s, a) && n in s.nodes && a.RecvAppendRsp? && a.m.to == n && Fit(s.nodes[n], side)
    requires !side.releasing && s.nodes[n].commitIndex == s.nodes[n].lastApplied
    ensures SectionKeeps(s, a, n, side)
  {
    ReplySection(s.nodes[n], side, a);
  }

  lemma FollowKeeps(s: Cluster, a: Action, n: int, side: Side)
    requires Inv(s) && Step(s, a) && n in s.nodes && a.RecvAppend? && a.m.to == n && Fit(s.nodes[n], side)
    requires !side.releasing
    ensures SectionKeeps(s, a, n, side)
  {
    assert NodeOk(s, n) && MsgOk(s, a.m);
    ClusterSafety.RecvAppendKeepsCommitted(s, a.m);
    FollowSection(s.nodes[n], side, a);
  }

  lemma OwnSectionKeeps(s: Cluster, a: Action, n: int, side: Side)
    requires Inv(s) && Step(s, a) && n in s.nodes && Actor(a) == n && Fit(s.nodes[n], side) && !side.releasing
    requires a.Append? ==> side.stage == Swapped && a.ops == side.raftIn
    ensures SectionKeeps(s, a, n, side)
  {
    if Restarts(a, n) {
      RestartKeeps(s, a, n, side);
    } else if a.Append? {
      AppendKeeps(s, a, n, side);
    } else if a.RecvAppendRsp? {
      assert NodeOk(s, n);
      ReplyKeeps(s, a, n, side);
    } else if a.RecvAppend? {
      FollowKeeps(s, a, n, side);
    } else {
      QuietSection(s, a, n, side);
    }
  }

  lemma ProtocolFit(n: int, z: System, a: Action)
    requires Inv(z.s) && CanHappen(n, z, Protocol(a)) && Fit(z.s.nodes[n], z.side)
    ensures var z' := Happen(n, z, Protocol(a)); n in z'.s.nodes && Fit(z'.s.nodes[n], z'.side)
  {
    if Actor(a) == n {
      OwnSectionKeeps(z.s, a, n, z.side);
    } else {
      OthersLeaveAlone(z.s, a, n);
    }
  }

  // Steps of the threads

  lemma InsertFit(x: Node, side: Side)
    requires Fit(x, side)
    ensures Fit(x, AfterInsert(side))
  {
    InsertedSound(side.ledger);
    InsertLive(x, side);
    InsertTruthful(x, side);
  }

  lemma InsertLive(x: Node, side: Side)
    requires Live(x, side) + side.world.lost == multiset(side.ledger.store)
    requires side.ledger.nextHandle !in side.ledger.store
    ensures var side' := AfterInsert(side); Live(x, side') + side'.world.lost == multiset(side'.ledger.store)
  {
    var side' := AfterInsert(side);
    var rest := Handles(side.dispatchOut) + (if side.stage == Swapped then Handles(side.raftIn) else multiset{})
                + Handles(Pending(x)) + Queued(side) + side.world.lost;
    assert Live(x, side) + side.world.lost == multiset(side.clients) + rest;
    assert Live(x, side') + side'.world.lost == multiset(side'.clients) + rest;
    OneMoreClient(side.clients, side.ledger.store, rest, side.ledger.nextHandle);
  }

  lemma OneMoreClient(clients: set<nat>, store: set<nat>, rest: multiset<nat>, h: nat)
    requires multiset(clients) + rest == multiset(store) && h !in store
    ensures multiset(clients + {h}) + rest == multiset(store + {h})
  {
    assert h !in clients by { assert (multiset(clients) + rest)[h] == 0; }
    forall g ensures (multiset(clients + {h}) + rest)[g] == multiset(store + {h})[g] {
      assert (multiset(clients) + rest)[g] == multiset(store)[g];
    }
  }

  lemma WithoutClient(clients: set<nat>, h: nat)
    requires h in clients
    ensures multiset(clients) == multiset{h} + multiset(clients - {h})
  {
  }

  lemma RefuseFit(x: Node, side: Side, h: nat)
    requires Fit(x, side) && h in side.clients
    ensures Fit(x, AfterRefuse(side, h))
  {
    var side' := AfterRefuse(side, h);
    WithoutClient(side.clients, h);
    assert multiset{h} + (Live(x, side') + side.world.lost) == Live(x, side) + side.world.lost;
    TakeSound(side.ledger, h, Withdrawn, None, Live(x, side') + side.world.lost);
    RefuseTruthful(x, side, h);
  }

  lemma AcceptFit(x: Node, side: Side, h: nat, c: Command)
    requires Fit(x, side) && h in side.clients && (c.Get? || c.Put?)
    ensures Fit(x, AfterAccept(side, h, c))
  {
    var side' := AfterAccept(side, h, c);
    WithoutClient(side.clients, h);
    HandlesSnoc(side.dispatchOut, RaftOp(c, Some(h)));
    assert Submitted(side') == Submitted(side);
    AcceptTruthful(x, side, h, c);
  }

  lemma ExecuteFit(x: Node, side: Side)
    requires Fit(x, side) && side.worker == Running && side.done < |side.execIn|
    ensures Fit(x, AfterExecute(side))
  {
    ExecuteAnnounced(side);
    ExecuteInOrder(x, side);
    ExecutePromised(x, side);
    ExecuteTruthful(x, side);
  }

  lemma ExecuteAnnounced(side: Side)
    requires Announced(side) && side.done < |side.execIn|
    ensures Announced(AfterExecute(side))
  {
  }

  lemma ExecuteInOrder(x: Node, side: Side)
    requires InOrder(x, side) && side.worker == Running && side.done < |side.execIn|
    ensures InOrder(x, AfterExecute(side))
  {
    var op, rest := side.execIn[side.done], side.execIn[side.done + 1..];
    assert side.execIn[side.done..] == [op] + rest;
    assert side.executed + ([op] + rest) + side.raftOut == side.executed + [op] + rest + side.raftOut;
  }

  lemma ExecutePromised(x: Node, side: Side)
    requires Promised(x, side) && side.done < |side.execIn|
    ensures Promised(x, AfterExecute(side))
  {
    var op, side' := side.execIn[side.done], AfterExecute(side);
    OneLessQueued(x, side);
    var rest, reply := Live(x, side') + side.world.lost, Answer(op.command, side.world.db);
    assert HandleOf(op) + rest == Live(x, side) + side.world.lost;
    if op.promiseHandle.Some? { TakeSound(side.ledger, op.promiseHandle.value, Executed, Some(reply), rest); }
  }

  lemma OneLessQueued(x: Node, side: Side)
    requires side.done < |side.execIn|
    ensures HandleOf(side.execIn[side.done]) + Live(x, AfterExecute(side)) == Live(x, side)
  {
    QueuedHead(side);
    MoveFirst(HandleOf(side.execIn[side.done]), Submitted(side), Handles(Pending(x)), Queued(AfterExecute(side)));
  }

  lemma QueuedHead(side: Side)
    requires side.done < |side.execIn|
    ensures Queued(side) == HandleOf(side.execIn[side.done]) + Queued(AfterExecute(side))
  {
    HandlesHead(side.execIn, side.done);
  }

  lemma HandlesHead(ops: seq<RaftOp>, i: nat)
    requires i < |ops|
    ensures Handles(ops[i..]) == HandleOf(ops[i]) + Handles(ops[i + 1..])
  {
    assert ops[i..] == [ops[i]] + ops[i + 1..];
    HandlesConcat([ops[i]], ops[i + 1..]);
    assert HandlesUpTo([ops[i]], 1) == HandlesUpTo([ops[i]], 0) + HandleOf(ops[i]);
  }

  lemma MoveFirst(h: multiset<nat>, a: multiset<nat>, b: multiset<nat>, c: multiset<nat>)
    ensures h + (a + b + c) == a + b + (h + c)
  {
  }

  lemma SwapFit(x: Node, side: Side)
    requires Fit(x, side) && side.worker == AtSwap && !side.releasing
    ensures Fit(x, AfterSwap(side))
  {
    var side' := AfterSwap(side);
    assert side'.execIn[side'.done..] == side.raftOut && side.execIn[side.done..] == [];
    assert side.executed + [] + side.raftOut == side.executed + side.raftOut + [];
    assert Queued(side') == Queued(side);
    SameTruthful(x, side, side');
  }

  lemma ClearFit(x: Node, side: Side)
    requires Fit(x, side) && side.worker == Running && side.done >= |side.execIn|
    ensures Fit(x, side.(execIn := [], done := 0, worker := AtWait))
  {
    var side' := side.(execIn := [], done := 0, worker := AtWait);
    assert side'.execIn[side'.done..] == [] == side.execIn[side.done..];
    SameTruthful(x, side, side');
  }

  lemma SameQueues(x: Node, side: Side, side': Side)
    requires Fit(x, side) && Announced(side')
    requires side' == side.(flags := side'.flags, worker := side'.worker, releasing := side'.releasing)
    requires side'.worker == Running <==> side.worker == Running
    ensures Fit(x, side')
  {
    assert Live(x, side') == Live(x, side);
    SameTruthful(x, side, side');
  }

  lemma ThreadFit(n: int, z: System, e: Event)
    requires CanHappen(n, z, e) && !e.Protocol? && Fit(z.s.nodes[n], z.side)
    ensures Happen(n, z, e).s == z.s && Fit(z.s.nodes[n], Happen(n, z, e).side)
  {
    if e.Insert? || e.Refuse? || e.Accept? || e.SwapIn? || e.ClearIn? {
      ClientFit(n, z, e);
    } else {
      WorkerFit(n, z, e);
    }
  }

  lemma ClientFit(n: int, z: System, e: Event)
    requires CanHappen(n, z, e) && Fit(z.s.nodes[n], z.side)
    requires e.Insert? || e.Refuse? || e.Accept? || e.SwapIn? || e.ClearIn?
    ensures Happen(n, z, e).s == z.s && Fit(z.s.nodes[n], Happen(n, z, e).side)
  {
    var x, side := z.s.nodes[n], z.side;
    match e
    case Insert => InsertFit(x, side);
    case Refuse(h) => RefuseFit(x, side, h);
    case Accept(h, c) => AcceptFit(x, side, h, c);
    case SwapIn => SwapInFit(x, side);
    case ClearIn => ClearInFit(x, side);
  }

  lemma WorkerFit(n: int, z: System, e: Event)
    requires CanHappen(n, z, e) && Fit(z.s.nodes[n], z.side)
    requires e.SignalWorker? || e.WorkerWait? || e.WorkerSwap? || e.WorkerExecute? || e.WorkerClear?
    ensures Happen(n, z, e).s == z.s && Fit(z.s.nodes[n], Happen(n, z, e).side)
  {
    var x, side := z.s.nodes[n], z.side;
    match e
    case SignalWorker => SignalFit(x, side);
    case WorkerWait => WaitFit(x, side);
    case WorkerSwap => SwapFit(x, side);
    case WorkerExecute => ExecuteFit(x, side);
    case WorkerClear => ClearFit(x, side);
  }

  lemma SignalFit(x: Node, side: Side)
    requires Fit(x, side) && side.releasing
    ensures Fit(x, AfterSignal(side))
  {
    SameQueues(x, side, AfterSignal(side));
  }

  lemma WaitFit(x: Node, side: Side)
    requires Fit(x, side) && side.worker == AtWait
    ensures Fit(x, AfterWait(side))
  {
    SameQueues(x, side, AfterWait(side));
  }

  lemma SwapInFit(x: Node, side: Side)
    requires Fit(x, side) && side.stage == Idle
    ensures Fit(x, side.(raftIn := side.dispatchOut, dispatchOut := side.raftIn, stage := Swapped))
  {
    var side' := side.(raftIn := side.dispatchOut, dispatchOut := side.raftIn, stage := Swapped);
    assert Submitted(side') == Submitted(side);
    SameTruthful(x, side, side');
  }

  lemma ClearInFit(x: Node, side: Side)
    requires Fit(x, side) && side.stage != Idle
    ensures Fit(x, AfterClear(side))
  {
    var side' := AfterClear(side);
    assert Live(x, side') + side'.world.lost == Live(x, side) + side.world.lost;
    SameTruthful(x, side, side');
  }

  // Runs

  lemma {:induction false} RunFit(n: int, z: System, es: seq<Event>)
    requires Inv(z.s) && n in z.s.nodes && Fit(z.s.nodes[n], z.side) && Possible(n, z, es)
    ensures var end := Finally(n, z, es); Inv(end.s) && n in end.s.nodes && Fit(end.s.nodes[n], end.side)
    decreases |es|
  {
    if es != [] {
      var z' := Happen(n, z, es[0]);
      if es[0].Protocol? {
        ClusterSafety.StepKeeps(z.s, es[0].a);
        ProtocolFit(n, z, es[0].a);
      } else {
        ThreadFit(n, z, es[0]);
      }
      RunFit(n, z', es[1..]);
    }
  }

  /** A system run around replica `n`, from the cluster's first start, over the store of values `db`. */
  ghost predicate SystemRun(members: set<int>, n: int, db: Database, es: seq<Event>) {
    GoodMembers(members) && n in members && Possible(n, Begin(members, db), es)
  }

  ghost function End(members: set<int>, n: int, db: Database, es: seq<Event>): System
    requires SystemRun(members, n, db, es)
  {
    Finally(n, Begin(members, db), es)
  }

  lemma EndFit(members: set<int>, n: int, db: Database, es: seq<Event>)
    requires SystemRun(members, n, db, es)
    ensures var z := End(members, n, db, es); Inv(z.s) && n in z.s.nodes && Fit(z.s.nodes[n], z.side)
  {
    InitInv(members);
    BeginFit(members, n, db);
    RunFit(n, Begin(members, db), es);
  }

  lemma BeginFit(members: set<int>, n: int, db: Database)
    requires n in members
    ensures Fit(Init(members).nodes[n], First(db))
  {
    var x, side := InitNode(n, members), First(db);
    FirstTruthful(x, db);
    assert OpsBetween(x.log, 0, 0) == [] && Pending(x) == [];
    NothingStarted(side);
  }

  /** At every moment, what the executor has executed, what it has taken and what is queued for it
      are together the operations of the log up to the last applied index, in order. */
  lemma ExecutorRefinesLog(members: set<int>, n: int, db: Database, es: seq<Event>)
    requires SystemRun(members, n, db, es)
    ensures var z := End(members, n, db, es);
      && n in z.s.nodes && z.side.done <= |z.side.execIn|
      && z.side.executed + z.side.execIn[z.side.done..] + z.side.raftOut
         == OpsBetween(z.s.nodes[n].log, 0, z.s.nodes[n].lastApplied + 1)
  {
    EndFit(members, n, db, es);
  }

  /** A blocked executor has executed everything that was released, unless a release section is
      about to signal it; and the signal finds it. */
  lemma NoLostWakeup(members: set<int>, n: int, db: Database, es: seq<Event>)
    requires SystemRun(members, n, db, es)
    ensures var z := End(members, n, db, es);
      z.side.worker == IsBlocked ==>
        && (!z.side.releasing ==>
              n in z.s.nodes && z.side.raftOut == []
              && z.side.executed == OpsBetween(z.s.nodes[n].log, 0, z.s.nodes[n].lastApplied + 1))
        && AfterSignal(z.side).worker == AtSwap
  {
    EndFit(members, n, db, es);
  }

  /** Whatever is submitted, appended, cut off, released and executed in whatever order, across
      restarts too: no removal misses its promise, and no handle is removed twice, so none is both
      executed and aborted. */
  lemma PromisesAreLinear(members: set<int>, n: int, db: Database, es: seq<Event>)
    requires SystemRun(members, n, db, es)
    ensures Linear(End(members, n, db, es).side.ledger.taken)
  {
    EndFit(members, n, db, es);
  }

  /** No promise is lost unseen: at every moment, the promises that are still in the store are, each once, those
      that a client has yet to submit, those that are queued for the leader thread, pending in the log, queued
      for the executor or with it, and those that the leader thread took in and cleared without appending. */
  lemma PromisesAreConserved(members: set<int>, n: int, db: Database, es: seq<Event>)
    requires SystemRun(members, n, db, es)
    ensures var z := End(members, n, db, es); n in z.s.nodes && z.side.done <= |z.side.execIn|
    ensures var z := End(members, n, db, es); Conserved(z.s.nodes[n], z.side)
  {
    EndFit(members, n, db, es);
    FitConserves(End(members, n, db, es).s.nodes[n], End(members, n, db, es).side);
  }

  predicate Conserved(x: Node, side: Side)
    requires side.done <= |side.execIn|
  {
    multiset(side.ledger.store) ==
      multiset(side.clients)
      + Handles(side.dispatchOut) + (if side.stage == Swapped then Handles(side.raftIn) else multiset{})
      + Handles(OpsBetween(x.log, x.lastApplied + 1, |x.log|))
      + (Handles(side.execIn[side.done..]) + Handles(side.raftOut))
      + side.world.lost
  }

  lemma FitConserves(x: Node, side: Side)
    requires Fit(x, side)
    ensures side.done <= |side.execIn| && Conserved(x, side)
  {
  }

  /** The replies, over whole system runs and across restarts. A client that withdrew its promise is told
      nothing. A write's client is told success exactly if the write was executed, and failure exactly if it
      was aborted. A read's client is told the value that the operations executed before the read had last
      written to the key, or else the value of the first store; if the read was aborted, that there is none.
      The operations counted as executed end with those of the running process. */
  lemma ClientsAreToldTheTruth(members: set<int>, n: int, db: Database, es: seq<Event>, i: nat)
    requires SystemRun(members, n, db, es) && i < |End(members, n, db, es).side.ledger.taken|
    ensures var side := End(members, n, db, es).side;
      ToldTruth(side.world, db, side.ledger.taken[i]) && EndsWith(side.world.past, side.executed)
  {
    EndFit(members, n, db, es);
    RunFirst(n, Begin(members, db), es);
    var side := End(members, n, db, es).side;
    var w, t := side.world, side.ledger.taken[i];
    assert Truth(w, t);
    if t.outcome == Executed {
      var k :| AnsweredAt(w, t, k);
      assert AskedFor(w.asked, w.past[k]);
      assert ToldAt(w, db, t, k);
    } else if t.outcome == Aborted {
      assert w.asked[t.handle].Get? || w.asked[t.handle].Put?;
    }
  }

  ghost predicate ToldTruth(w: World, db: Database, t: Taken) {
    match t.outcome
    case Withdrawn => t.reply == None
    case Executed => exists k :: ToldAt(w, db, t, k)
    case Aborted =>
      && t.handle in w.asked && (w.asked[t.handle].Get? || w.asked[t.handle].Put?)
      && t.reply == Some(if w.asked[t.handle].Put? then Done(false) else Value(None))
  }

  /** The client's operation was the `k`-th executed, and the client was told its result. */
  predicate ToldAt(w: World, db: Database, t: Taken, k: int) {
    && 0 <= k < |w.past| && w.past[k].promiseHandle == Some(t.handle)
    && t.handle in w.asked && w.past[k].command == w.asked[t.handle]
    && match w.asked[t.handle]
       case Put(_, _) => t.reply == Some(Done(true))
       case Get(key) =>
         var last := Replay.LastPut(w.past[..k], key);
         t.reply == Some(Value(if last.Some? then last else if key in db then Some(db[key]) else None))
       case _ => false
  }

  lemma {:induction false} RunFirst(n: int, z: System, es: seq<Event>)
    requires Possible(n, z, es)
    ensures Finally(n, z, es).side.world.first == z.side.world.first
    decreases |es|
  {
    if es != [] { RunFirst(n, Happen(n, z, es[0]), es[1..]); }
  }
}
