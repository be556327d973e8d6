/** What clients are told: the value of a key at the moment their read was executed, and success exactly if
    their write was executed. */
module ClientReplies {
  import opened RaftTypes
  import opened RaftHandlers
  import opened Promises
  import opened ReplicaPipeline
  import Replay

  /** What a client can ask for. */
  predicate Served(c: Command) {
    c.Get? || c.Put?
  }

  /** An operation that carries a handle is the one that the handle's client asked for. */
  predicate AskedFor(asked: map<nat, Command>, op: RaftOp) {
    op.promiseHandle.Some? ==>
      && op.promiseHandle.value in asked && asked[op.promiseHandle.value] == op.command
      && Served(op.command)
  }

  predicate AllAsked(asked: map<nat, Command>, ops: seq<RaftOp>) {
    forall i :: 0 <= i < |ops| ==> AskedFor(asked, ops[i])
  }

  /** The value of a key after the first `k` operations ever executed: the last one written, or the first of all. */
  function ValueAt(w: World, k: nat, key: int): Option<int>
    requires k <= |w.past|
  {
    if Replay.LastPut(w.past[..k], key).Some? then Replay.LastPut(w.past[..k], key) else Replay.Get(w.first, key)
  }

  /** The client of the `k`-th executed operation was told its result. */
  predicate AnsweredAt(w: World, t: Taken, k: int) {
    && 0 <= k < |w.past| && w.past[k].promiseHandle == Some(t.handle)
    && match w.past[k].command
       case Get(key) => t.reply == Some(Value(ValueAt(w, k, key)))
       case Put(_, _) => t.reply == Some(Done(true))
       case _ => false
  }

  /** Whoever was told that an operation has failed was told what its kind calls for. */
  predicate ToldFailure(w: World, t: Taken) {
    && t.handle in w.asked
    && (w.asked[t.handle].Get? ==> t.reply == Some(Value(None)))
    && (!w.asked[t.handle].Get? ==> t.reply == Some(Done(false)))
  }

  ghost predicate Truth(w: World, t: Taken) {
    match t.outcome
    case Withdrawn => t.reply == None
    case Executed => exists k :: AnsweredAt(w, t, k)
    case Aborted => ToldFailure(w, t)
  }

  ghost predicate AllTruth(w: World, taken: seq<Taken>) {
    forall i :: 0 <= i < |taken| ==> Truth(w, taken[i])
  }

  /** The operations that the threads and the log hold are those asked for. */
  predicate Held(x: Node, side: Side) {
    var asked := side.world.asked;
    && AllAsked(asked, side.dispatchOut) && AllAsked(asked, side.raftIn) && AllAsked(asked, OpsFrom(x.log, 0))
    && AllAsked(asked, side.raftOut) && AllAsked(asked, side.execIn) && AllAsked(asked, side.world.past)
  }

  /** A client asks once, with a handle that was given out before. */
  predicate Fresh(side: Side) {
    && (forall h :: h in side.world.asked ==>
          h < side.ledger.nextHandle && h !in side.clients && Served(side.world.asked[h]))
    && (forall h :: h in side.clients ==> h < side.ledger.nextHandle)
  }

  ghost predicate Truthful(x: Node, side: Side) {
    && side.world.db == Replay.ApplyAll(side.world.first, side.world.past)
    && Fresh(side) && Held(x, side) && AllTruth(side.world, side.ledger.taken)
    && EndsWith(side.world.past, side.executed)
  }

  predicate EndsWith(past: seq<RaftOp>, executed: seq<RaftOp>) {
    |executed| <= |past| && past[|past| - |executed|..] == executed
  }

  // Growth

  /** More has been asked for and executed. */
  predicate Later(w: World, w': World) {
    && w'.first == w.first && w.past <= w'.past
    && (forall h :: h in w.asked ==> h in w'.asked && w'.asked[h] == w.asked[h])
  }

  lemma TruthStays(w: World, w': World, taken: seq<Taken>)
    requires Later(w, w') && AllTruth(w, taken)
    ensures AllTruth(w', taken)
  {
    forall i | 0 <= i < |taken| ensures Truth(w', taken[i]) {
      assert Truth(w, taken[i]);
      if taken[i].outcome == Executed {
        var k :| AnsweredAt(w, taken[i], k);
        assert w'.past[..k] == w.past[..k];
        assert AnsweredAt(w', taken[i], k);
      }
    }
  }

  lemma AskedStays(asked: map<nat, Command>, asked': map<nat, Command>, ops: seq<RaftOp>)
    requires AllAsked(asked, ops) && forall h :: h in asked ==> h in asked' && asked'[h] == asked[h]
    ensures AllAsked(asked', ops)
  {
    forall i | 0 <= i < |ops| ensures AskedFor(asked', ops[i]) { assert AskedFor(asked, ops[i]); }
  }

  lemma AskedParts(asked: map<nat, Command>, a: seq<RaftOp>, b: seq<RaftOp>)
    requires AllAsked(asked, a) && AllAsked(asked, b)
    ensures AllAsked(asked, a + b)
  {
    forall i | 0 <= i < |a + b| ensures AskedFor(asked, (a + b)[i]) {
      assert if i < |a| then AskedFor(asked, a[i]) else AskedFor(asked, b[i - |a|]);
    }
  }

  /** Operations without handles were asked for by nobody. */
  lemma {:induction false} NoHandlesAsked(asked: map<nat, Command>, ops: seq<RaftOp>, k: nat)
    requires k <= |ops| && HandlesUpTo(ops, k) == multiset{}
    ensures forall i :: 0 <= i < k ==> AskedFor(asked, ops[i])
  {
    if k > 0 {
      assert HandlesUpTo(ops, k) == HandlesUpTo(ops, k - 1) + HandleOf(ops[k - 1]);
      assert HandleOf(ops[k - 1]) == multiset{};
      NoHandlesAsked(asked, ops, k - 1);
    }
  }

  // What happens to the threads

  lemma {:induction false} AbortTruth(w: World, l: Ledger, ops: seq<RaftOp>)
    requires AllTruth(w, l.taken) && AllAsked(w.asked, ops)
    ensures AllTruth(w, AbortEach(l, ops).taken)
    decreases |ops|
  {
    if ops != [] {
      var init, last := ops[..|ops| - 1], ops[|ops| - 1];
      forall i | 0 <= i < |init| ensures AskedFor(w.asked, init[i]) { assert AskedFor(w.asked, ops[i]); }
      AbortTruth(w, l, init);
      assert AskedFor(w.asked, last);
      OneMoreAborted(w, AbortEach(l, init), last);
    }
  }

  lemma OneMoreAborted(w: World, l: Ledger, op: RaftOp)
    requires AllTruth(w, l.taken) && AskedFor(w.asked, op)
    ensures AllTruth(w, TakeOp(l, op, Aborted, Failure(op.command)).taken)
  {
    if op.promiseHandle.Some? {
      var t := Taken(op.promiseHandle.value, Aborted, op.promiseHandle.value in l.store, Some(Failure(op.command)));
      assert Truth(w, t);
    }
  }

  /** Executing one more operation: its client is told the value of the moment. */
  lemma ExecuteTruth(w: World, l: Ledger, op: RaftOp)
    requires AllTruth(w, l.taken) && AskedFor(w.asked, op) && w.db == Replay.ApplyAll(w.first, w.past)
    ensures var w' := w.(db := Replay.Apply(w.db, op), past := w.past + [op]);
      && w'.db == Replay.ApplyAll(w'.first, w'.past) && AllTruth(w', ExecuteOp(l, op, w.db).taken)
  {
    var w' := w.(db := Replay.Apply(w.db, op), past := w.past + [op]);
    assert w'.past[..|w'.past| - 1] == w.past;
    TruthStays(w, w', l.taken);
    if op.promiseHandle.Some? {
      var h := op.promiseHandle.value;
      var t := Taken(h, Executed, h in l.store, Some(Answer(op.command, w.db)));
      if op.command.Get? {
        Replay.ApplyAllGet(w.first, w.past, op.command.key);
      }
      assert w'.past[..|w.past|] == w.past;
      assert AnsweredAt(w', t, |w.past|);
      assert Truth(w', t);
    }
  }

  lemma ExecuteTruthful(x: Node, side: Side)
    requires Truthful(x, side) && side.done < |side.execIn|
    ensures Truthful(x, AfterExecute(side))
  {
    var op := side.execIn[side.done];
    assert AskedFor(side.world.asked, op);
    ExecuteTruth(side.world, side.ledger, op);
    AskedParts(side.world.asked, side.world.past, [op]);
    StillEnds(side.world.past, side.executed, op);
  }

  lemma StillEnds(past: seq<RaftOp>, executed: seq<RaftOp>, op: RaftOp)
    requires EndsWith(past, executed)
    ensures EndsWith(past + [op], executed + [op])
  {
    assert (past + [op])[|past| - |executed|..] == past[|past| - |executed|..] + [op];
  }

  lemma InsertTruthful(x: Node, side: Side)
    requires Truthful(x, side)
    ensures Truthful(x, AfterInsert(side))
  {
  }

  lemma RefuseTruthful(x: Node, side: Side, h: nat)
    requires Truthful(x, side) && h in side.clients
    ensures Truthful(x, AfterRefuse(side, h))
  {
    var t := Taken(h, Withdrawn, h in side.ledger.store, None);
    assert Truth(side.world, t);
  }

  lemma AcceptTruthful(x: Node, side: Side, h: nat, c: Command)
    requires Truthful(x, side) && h in side.clients && Served(c)
    ensures Truthful(x, AfterAccept(side, h, c))
  {
    var side' := AfterAccept(side, h, c);
    var asked, asked' := side.world.asked, side'.world.asked;
    TruthStays(side.world, side'.world, side.ledger.taken);
    AskedStays(asked, asked', side.dispatchOut);
    AskedStays(asked, asked', side.raftIn);
    AskedStays(asked, asked', OpsFrom(x.log, 0));
    AskedStays(asked, asked', side.raftOut);
    AskedStays(asked, asked', side.execIn);
    AskedStays(asked, asked', side.world.past);
    AskedParts(asked', side.dispatchOut, [RaftOp(c, Some(h))]);
  }

  /** Moving queues about. */
  lemma SameTruthful(x: Node, side: Side, side': Side)
    requires Truthful(x, side) && side'.ledger == side.ledger && side'.clients == side.clients
    requires side'.executed == side.executed
    requires side'.world == side.world.(lost := side'.world.lost)
    requires AllAsked(side.world.asked, side'.dispatchOut) && AllAsked(side.world.asked, side'.raftIn)
    requires AllAsked(side.world.asked, side'.raftOut) && AllAsked(side.world.asked, side'.execIn)
    ensures Truthful(x, side')
  {
    TruthStays(side.world, side'.world, side.ledger.taken);
  }

  /** A process that has just started, over a log without handles. */
  lemma StartTruthful(x: Node, y: Node, side: Side)
    requires Truthful(x, side) && Plain(y.log) == y.log
    ensures Truthful(y, Started(side.ledger, side.world))
  {
    var side' := Started(side.ledger, side.world);
    TruthStays(side.world, side'.world, side.ledger.taken);
    forall i | 0 <= i < |y.log| ensures AskedFor(side.world.asked, OpsFrom(y.log, 0)[i]) {
      assert Plain(y.log)[i] == y.log[i];
    }
  }

  lemma FirstTruthful(x: Node, db: Replay.Database)
    requires x.log == []
    ensures Truthful(x, First(db))
  {
  }

  /** A section of the replica: the log is cut at `cut` and extended by `added`, whose operations were asked
      for, and `more` of the new log is queued. */
  lemma SectionTruthful(x: Node, y: Node, cut: nat, added: seq<LogEntry>, more: seq<RaftOp>, lo: int, hi: int,
                        side: Side, side': Side)
    requires Truthful(x, side) && cut <= |x.log| && y.log == x.log[..cut] + added && more == OpsBetween(y.log, lo, hi)
    requires AllAsked(side.world.asked, OpsFrom(added, 0))
    requires side' == side.(ledger := AbortEach(side.ledger, OpsFrom(x.log, cut)), raftOut := side.raftOut + more,
                            stage := side'.stage, releasing := side'.releasing)
    ensures Truthful(y, side')
  {
    var asked := side.world.asked;
    LogAsked(asked, x.log, y.log, added, cut);
    AskedSlice(asked, x.log, cut, |x.log|);
    AbortTruth(side.world, side.ledger, OpsFrom(x.log, cut));
    AbortNext(side.ledger, OpsFrom(x.log, cut));
    AskedSlice(asked, y.log, lo, hi);
    AskedParts(asked, side.raftOut, more);
  }

  lemma AskedSlice(asked: map<nat, Command>, log: seq<LogEntry>, lo: int, hi: int)
    requires AllAsked(asked, OpsFrom(log, 0))
    ensures AllAsked(asked, OpsBetween(log, lo, hi))
  {
    var ops := OpsBetween(log, lo, hi);
    forall i | 0 <= i < |ops| ensures AskedFor(asked, ops[i]) { assert ops[i] == OpsFrom(log, 0)[lo + i]; }
  }

  lemma LogAsked(asked: map<nat, Command>, log: seq<LogEntry>, log': seq<LogEntry>, added: seq<LogEntry>, cut: nat)
    requires cut <= |log| && log' == log[..cut] + added
    requires AllAsked(asked, OpsFrom(log, 0)) && AllAsked(asked, OpsFrom(added, 0))
    ensures AllAsked(asked, OpsFrom(log', 0))
  {
    var ops := OpsFrom(log', 0);
    forall i | 0 <= i < |ops| ensures AskedFor(asked, ops[i]) {
      if i < cut { assert ops[i] == OpsFrom(log, 0)[i]; } else { assert ops[i] == OpsFrom(added, 0)[i - cut]; }
    }
  }

  lemma {:induction false} AbortNext(l: Ledger, ops: seq<RaftOp>)
    ensures AbortEach(l, ops).nextHandle == l.nextHandle
    decreases |ops|
  {
    if ops != [] { AbortNext(l, ops[..|ops| - 1]); }
  }
}
