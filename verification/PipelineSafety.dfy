/** What holds in every system run: the executor executes exactly the committed log in order and is
    never left asleep with work in its queue, and every promise is taken at most once. */
module PipelineSafety {
  import opened RaftTypes
  import opened RaftHandlers
  import opened HandlerFacts
  import opened Promises
  import opened ReplicaPipeline
  import opened ClientReplies
  import ClusterSafety
  import StepReplicate

  // The invariant

  /** Executed, taken and queued operations are together those released, in order. */
  predicate InOrder(x: Node, side: Side) {
    && side.done <= |side.execIn|
    && side.executed + side.execIn[side.done..] + side.raftOut == x.released
    && (side.worker != Running ==> side.execIn == [] && side.done == 0)
  }

  /** The flags match the executor's position, and queued work is announced or about to be. */
  predicate Announced(side: Side) {
    && (side.flags.waiting <==> side.worker == IsBlocked)
    && !(side.flags.noBlock && side.flags.waiting)
    && (side.raftOut != [] ==> side.releasing || side.flags.noBlock || side.worker == AtSwap)
  }

  /** The operations in the log that are not released yet. */
  function Pending(x: Node): seq<RaftOp> {
    OpsFrom(x.log, x.lastApplied + 1)
  }

  function Submitted(side: Side): multiset<nat> {
    multiset(side.clients) + Handles(side.dispatchOut)
    + (if side.stage == Swapped then Handles(side.raftIn) else multiset{})
  }

  function Queued(side: Side): multiset<nat> {
    Handles(if side.done <= |side.execIn| then side.execIn[side.done..] else []) + Handles(side.raftOut)
  }

  /** The handles that some thread will still use. The log's copies of released operations are not
      among them, nor are the copies of appended ones that wait to be cleared. */
  function Live(x: Node, side: Side): multiset<nat> {
    Submitted(side) + Handles(Pending(x)) + Queued(side)
  }

  predicate Promised(x: Node, side: Side) {
    && Sound(side.ledger) && Live(x, side) + side.world.lost == multiset(side.ledger.store)
    && (side.stage == Idle ==> side.raftIn == [])
  }

  predicate Progress(x: Node) {
    -1 <= x.lastApplied < |x.log| && x.released == OpsBetween(x.log, 0, x.lastApplied + 1)
  }

  ghost predicate Fit(x: Node, side: Side) {
    InOrder(x, side) && Announced(side) && Promised(x, side) && Progress(x) && Truthful(x, side)
  }

  // How a section moves the replica

  /** `log` is cut at `cut`, not below `lo`, and extended to `log'`, which reaches `hi`. */
  predicate CutAt(log: seq<LogEntry>, log': seq<LogEntry>, added: seq<LogEntry>, lo: int, cut: int, hi: int) {
    0 <= lo <= cut <= |log| && log' == log[..cut] + added && lo <= hi <= |log'|
  }

  /** The log is cut above the last applied index and extended, then more of it is released. */
  predicate Moves(x: Node, y: Node, cut: nat, added: seq<LogEntry>) {
    && CutAt(x.log, y.log, added, x.lastApplied + 1, cut, y.lastApplied + 1)
    && y.released == x.released + OpsBetween(y.log, x.lastApplied + 1, y.lastApplied + 1)
  }

  lemma OpsSplit(log: seq<LogEntry>, lo: nat, mid: nat, hi: nat)
    requires lo <= mid <= hi <= |log|
    ensures OpsBetween(log, lo, hi) == OpsBetween(log, lo, mid) + OpsBetween(log, mid, hi)
  {
  }

  lemma OpsSame(a: seq<LogEntry>, b: seq<LogEntry>, lo: nat, hi: nat)
    requires lo <= hi <= |a| && hi <= |b| && a[..hi] == b[..hi]
    ensures OpsBetween(a, lo, hi) == OpsBetween(b, lo, hi)
  {
    forall i | lo <= i < hi ensures a[i] == b[i] { assert a[..hi][i] == b[..hi][i]; }
  }

  lemma MovesProgress(x: Node, y: Node, cut: nat, added: seq<LogEntry>)
    requires Moves(x, y, cut, added) && Progress(x)
    ensures Progress(y)
  {
    var lo, hi := x.lastApplied + 1, y.lastApplied + 1;
    assert x.log[..lo] == y.log[..lo];
    OpsSame(x.log, y.log, 0, lo);
    OpsSplit(y.log, 0, lo, hi);
  }

  lemma HandlesSplit(log: seq<LogEntry>, lo: nat, mid: nat, hi: nat)
    requires lo <= mid <= hi <= |log|
    ensures Handles(OpsBetween(log, lo, hi)) == Handles(OpsBetween(log, lo, mid)) + Handles(OpsBetween(log, mid, hi))
  {
    OpsSplit(log, lo, mid, hi);
    HandlesConcat(OpsBetween(log, lo, mid), OpsBetween(log, mid, hi));
  }

  /** No handle appears or vanishes: what was pending is pending, released or cut off. */
  lemma MovesHandles(x: Node, y: Node, cut: nat, added: seq<LogEntry>)
    requires Moves(x, y, cut, added)
    ensures Handles(Pending(y)) + Handles(Beyond(x.released, y.released)) + Handles(OpsFrom(x.log, cut))
         == Handles(Pending(x)) + Handles(OpsFrom(added, 0))
  {
    MovesBeyond(x, y, cut, added);
    assert Pending(y) == OpsFrom(y.log, y.lastApplied + 1) && Pending(x) == OpsFrom(x.log, x.lastApplied + 1);
    MovesLogHandles(x, y, cut, added);
  }

  lemma MovesBeyond(x: Node, y: Node, cut: nat, added: seq<LogEntry>)
    requires Moves(x, y, cut, added)
    ensures Beyond(x.released, y.released) == OpsBetween(y.log, x.lastApplied + 1, y.lastApplied + 1)
  {
  }

  lemma MovesLogHandles(x: Node, y: Node, cut: nat, added: seq<LogEntry>)
    requires Moves(x, y, cut, added)
    ensures Handles(OpsFrom(y.log, y.lastApplied + 1))
            + Handles(OpsBetween(y.log, x.lastApplied + 1, y.lastApplied + 1))
            + Handles(OpsFrom(x.log, cut))
         == Handles(OpsFrom(x.log, x.lastApplied + 1)) + Handles(OpsFrom(added, 0))
  {
    LogHandles(x.log, y.log, added, x.lastApplied + 1, cut, y.lastApplied + 1);
  }

  lemma LogHandles(log: seq<LogEntry>, log': seq<LogEntry>, added: seq<LogEntry>, lo: int, cut: int, hi: int)
    requires CutAt(log, log', added, lo, cut, hi)
    ensures Handles(OpsFrom(log', hi)) + Handles(OpsBetween(log', lo, hi)) + Handles(OpsFrom(log, cut))
         == Handles(OpsFrom(log, lo)) + Handles(OpsFrom(added, 0))
  {
    HandlesSplit(log, lo, cut, |log|);
    HandlesSplit(log', lo, cut, |log'|);
    HandlesSplit(log', lo, hi, |log'|);
    CutOps(log, log', added, lo, cut);
    Regroup(Handles(OpsBetween(log, lo, cut)), Handles(OpsFrom(log, cut)), Handles(OpsFrom(added, 0)),
            Handles(OpsBetween(log', lo, hi)), Handles(OpsFrom(log', hi)));
  }

  lemma CutOps(log: seq<LogEntry>, log': seq<LogEntry>, added: seq<LogEntry>, lo: nat, cut: nat)
    requires lo <= cut <= |log| && log' == log[..cut] + added
    ensures OpsBetween(log, lo, cut) == OpsBetween(log', lo, cut)
    ensures OpsBetween(log', cut, |log'|) == OpsFrom(added, 0)
  {
    assert log[..cut] == log'[..cut];
    OpsSame(log, log', lo, cut);
  }

  lemma Regroup(kept: multiset<nat>, gone: multiset<nat>, added: multiset<nat>, released: multiset<nat>,
      rest: multiset<nat>)
    requires kept + added == released + rest
    ensures rest + released + gone == (kept + gone) + added
  {
    forall h ensures (rest + released + gone)[h] == (kept + gone + added)[h] {
      assert (kept + added)[h] == (released + rest)[h];
    }
  }

  /** The threads' state after a section that moves the replica. Either nothing with a promise was
      appended, or exactly what the leader thread had taken in. */
  predicate SideMoves(x: Node, y: Node, cut: nat, added: seq<LogEntry>, side: Side, side': Side)
    requires cut <= |x.log|
  {
    && side'.ledger == AbortEach(side.ledger, OpsFrom(x.log, cut))
    && side'.raftOut == side.raftOut + Beyond(x.released, y.released)
    && (Beyond(x.released, y.released) != [] ==> side'.releasing)
    && side' == side.(ledger := side'.ledger, raftOut := side'.raftOut, stage := side'.stage,
      releasing := side'.releasing)
    && (if side'.stage == side.stage then Handles(OpsFrom(added, 0)) == multiset{}
        else side.stage == Swapped && side'.stage == Appended && OpsFrom(added, 0) == side.raftIn)
  }

  lemma SectionPromised(x: Node, y: Node, cut: nat, added: seq<LogEntry>, side: Side, side': Side)
    requires Moves(x, y, cut, added) && SideMoves(x, y, cut, added, side, side') && Promised(x, side)
    ensures Promised(y, side')
  {
    LiveMoves(x, y, cut, added, side, side');
    var gone, lost := Handles(OpsFrom(x.log, cut)), side.world.lost;
    assert gone + (Live(y, side') + lost) == Live(x, side) + lost;
    AbortEachSound(side.ledger, OpsFrom(x.log, cut), Live(y, side') + lost);
  }

  /** The live handles are those of before, less those cut off. */
  lemma LiveMoves(x: Node, y: Node, cut: nat, added: seq<LogEntry>, side: Side, side': Side)
    requires Moves(x, y, cut, added) && SideMoves(x, y, cut, added, side, side')
    ensures Handles(OpsFrom(x.log, cut)) + Live(y, side') == Live(x, side)
  {
    MovesHandles(x, y, cut, added);
    HandlesConcat(side.raftOut, Beyond(x.released, y.released));
    Balance(Submitted(side), Submitted(side'), Handles(Pending(x)), Handles(Pending(y)), Queued(side), Queued(side'),
            Handles(Beyond(x.released, y.released)), Handles(OpsFrom(x.log, cut)), Handles(OpsFrom(added, 0)));
  }

  lemma Balance(c: multiset<nat>, c': multiset<nat>, p: multiset<nat>, p': multiset<nat>,
                q: multiset<nat>, q': multiset<nat>,
                released: multiset<nat>, gone: multiset<nat>, added: multiset<nat>)
    requires p' + released + gone == p + added && q' == q + released && c == c' + added
    ensures gone + (c' + p' + q') == c + p + q
  {
    forall h ensures (gone + (c' + p' + q'))[h] == (c + p + q)[h] {
      assert (p' + released + gone)[h] == (p + added)[h];
    }
  }

  lemma SectionFit(x: Node, y: Node, cut: nat, added: seq<LogEntry>, side: Side, side': Side)
    requires Moves(x, y, cut, added) && SideMoves(x, y, cut, added, side, side') && Fit(x, side) && !side.releasing
    ensures Fit(y, side')
  {
    SectionPromised(x, y, cut, added, side, side');
    MovesProgress(x, y, cut, added);
    SectionQueue(x, y, cut, added, side, side');
    SectionTold(x, y, cut, added, side, side');
  }

  lemma SectionTold(x: Node, y: Node, cut: nat, added: seq<LogEntry>, side: Side, side': Side)
    requires Moves(x, y, cut, added) && SideMoves(x, y, cut, added, side, side') && Truthful(x, side)
    ensures Truthful(y, side')
  {
    MovesBeyond(x, y, cut, added);
    var ops := OpsFrom(added, 0);
    if Handles(ops) == multiset{} { NoHandlesAsked(side.world.asked, ops, |ops|); }
    var more := Beyond(x.released, y.released);
    SectionTruthful(x, y, cut, added, more, x.lastApplied + 1, y.lastApplied + 1, side, side');
  }

  lemma SectionQueue(x: Node, y: Node, cut: nat, added: seq<LogEntry>, side: Side, side': Side)
    requires Moves(x, y, cut, added) && SideMoves(x, y, cut, added, side, side') && !side.releasing
    requires InOrder(x, side) && Announced(side)
    ensures InOrder(y, side') && Announced(side')
  {
    MovesBeyond(x, y, cut, added);
    SectionInOrder(x, y, side, side');
  }

  lemma SectionInOrder(x: Node, y: Node, side: Side, side': Side)
    requires InOrder(x, side) && y.released == x.released + Beyond(x.released, y.released)
    requires side' == side.(ledger := side'.ledger, raftOut := side.raftOut + Beyond(x.released, y.released),
                            stage := side'.stage, releasing := side'.releasing)
    ensures InOrder(y, side')
  {
    Reassociate(side.executed + side.execIn[side.done..], side.raftOut, Beyond(x.released, y.released));
  }

  lemma Reassociate(a: seq<RaftOp>, b: seq<RaftOp>, c: seq<RaftOp>)
    ensures a + b + c == a + (b + c)
  {
  }

  // The sections

  lemma StillMoves(x: Node, y: Node)
    requires ClusterSafety.SameProgress(x, y) && Progress(x)
    ensures Moves(x, y, |x.log|, []) && Beyond(x.released, y.released) == []
  {
    assert OpsBetween(y.log, x.lastApplied + 1, x.lastApplied + 1) == [];
  }

  lemma AppendMoves(x: Node, ops: seq<RaftOp>)
    requires Progress(x)
    ensures Moves(x, LeaderAppend(x, ops), |x.log|, Stamp(x.currentTerm, ops))
    ensures Beyond(x.released, LeaderAppend(x, ops).released) == []
    ensures OpsFrom(Stamp(x.currentTerm, ops), 0) == ops
  {
    AppendAllFrame(x, Stamp(x.currentTerm, ops));
    assert OpsBetween(LeaderAppend(x, ops).log, x.lastApplied + 1, x.lastApplied + 1) == [];
  }

  /** The leader's reply handling moves nothing but the commit point. */
  lemma ReplyMoves(x: Node, p: int, saved: int, next: int, count: nat, r: AppendEntriesRet)
    requires Progress(x) && x.commitIndex == x.lastApplied
    ensures var y := HandleAppendReply(x, p, saved, next, count, r);
      Moves(x, y, |x.log|, []) && (y.commitIndex == x.commitIndex ==> Beyond(x.released, y.released) == [])
  {
    var z := Matched(x, p, next + count);
    StepReplicate.CommitTargetGreatest(z, |z.log|);
    assert OpsBetween(x.log, x.lastApplied + 1, x.lastApplied + 1) == [];
    assert x.log[..|x.log|] + [] == x.log;
  }

  // A follower's section

  /** What an accepted request appends. */
  function Added(x: Node, a: AppendEntriesParams): (r: seq<LogEntry>)
    ensures |r| <= |a.entries| && r == Payload(a.entries)[|a.entries| - |r|..]
  {
    if Accepts(x, a) then
      MatchLenBounds(x.log, a.prevLogIndex + 1, Payload(a.entries));
      Payload(a.entries)[MatchLen(x.log, a.prevLogIndex + 1, Payload(a.entries))..]
    else
      []
  }

  /** Nothing at or below the commit index is cut off: the entry at the cut differs from the one
      that replaces it, but committed entries are kept. */
  lemma CutAboveCommit(log: seq<LogEntry>, at: nat, es: seq<LogEntry>, c: int)
    requires at <= |log| && -1 <= c < |log|
    requires Plain(log)[..c + 1] <= Plain(ReconciledLog(log, at, es))
    ensures var k := MatchLen(log, at, es); k < |es| ==> c < at + k
  {
    MatchLenStops(log, at, es);
    var k, log' := MatchLen(log, at, es), ReconciledLog(log, at, es);
    if k < |es| && at + k < |log| {
      assert log'[at + k] == es[k] && log[at + k].term != es[k].term;
      forall i | 0 <= i <= c ensures log[i].term == log'[i].term {
        assert Plain(log)[..c + 1][i] == Plain(log')[i];
      }
    }
  }

  /** The follower after the log part of a request that it accepts. */
  lemma AcceptedIs(x: Node, a: AppendEntriesParams) returns (z: Node)
    requires Accepts(x, a)
    ensures HandleAppendEntries(x, a).0 == FollowerCommit(z, a.leaderCommit)
    ensures a.prevLogIndex + 1 <= |x.log| && z.log == ReconciledLog(x.log, a.prevLogIndex + 1, Payload(a.entries))
    ensures z.commitIndex == x.commitIndex && z.lastApplied == x.lastApplied && z.released == x.released
  {
    HandledAs(x, a);
    var j, at, es := Joined(x, a), a.prevLogIndex + 1, Payload(a.entries);
    ReconcileLog(j, at, es);
    ReconcileFrame(j, at, es);
    z := Reconcile(j, at, es);
  }

  lemma CommitShape(x: Node, z: Node, leaderCommit: int)
    requires z.commitIndex == x.commitIndex && z.lastApplied == x.lastApplied && z.released == x.released
    ensures var y := FollowerCommit(z, leaderCommit);
      && y.log == z.log
      && (leaderCommit <= x.commitIndex ==>
            y.commitIndex == x.commitIndex && y.lastApplied == x.lastApplied && y.released == x.released)
      && (leaderCommit > x.commitIndex ==>
            && y.lastApplied == y.commitIndex == Min(leaderCommit, |y.log| - 1)
            && y.released == x.released + OpsBetween(y.log, x.lastApplied + 1, y.lastApplied + 1))
  {
  }

  lemma CutAndAdded(x: Node, a: AppendEntriesParams)
    requires Accepts(x, a)
    ensures a.prevLogIndex + 1 <= |x.log|
    ensures ReconciledLog(x.log, a.prevLogIndex + 1, Payload(a.entries)) == x.log[..CutPoint(x, a)] + Added(x, a)
  {
    var at, es := a.prevLogIndex + 1, Payload(a.entries);
    MatchLenBounds(x.log, at, es);
    if MatchLen(x.log, at, es) == |es| {
      assert es[|es|..] == [] && x.log[..|x.log|] + [] == x.log;
    }
  }

  lemma FollowMoves(x: Node, a: AppendEntriesParams)
    requires a.prevLogIndex >= -1 && Progress(x) && x.commitIndex == x.lastApplied
    requires ClusterSafety.KeepsCommitted(x, HandleAppendEntries(x, a).0)
    ensures var y := HandleAppendEntries(x, a).0;
      && Moves(x, y, CutPoint(x, a), Added(x, a))
      && (Beyond(x.released, y.released) != [] ==> Accepts(x, a) && a.leaderCommit > x.commitIndex)
  {
    if Accepts(x, a) {
      var z := AcceptedIs(x, a);
      FollowedMoves(x, z, FollowerCommit(z, a.leaderCommit), a);
    } else {
      StillMoves(x, HandleAppendEntries(x, a).0);
    }
  }

  lemma FollowedMoves(x: Node, z: Node, y: Node, a: AppendEntriesParams)
    requires Accepts(x, a)
    requires Progress(x) && x.commitIndex == x.lastApplied && ClusterSafety.KeepsCommitted(x, y)
    requires y == FollowerCommit(z, a.leaderCommit)
    requires a.prevLogIndex + 1 <= |x.log| && z.log == ReconciledLog(x.log, a.prevLogIndex + 1, Payload(a.entries))
    requires z.commitIndex == x.commitIndex && z.lastApplied == x.lastApplied && z.released == x.released
    ensures Moves(x, y, CutPoint(x, a), Added(x, a))
    ensures Beyond(x.released, y.released) != [] ==> a.leaderCommit > x.commitIndex
  {
    CommitShape(x, z, a.leaderCommit);
    CutAndAdded(x, a);
    CutPointAbove(x, y, a);
    ReleasedMoves(x, y, CutPoint(x, a), Added(x, a));
  }

  lemma CutPointAbove(x: Node, y: Node, a: AppendEntriesParams)
    requires Accepts(x, a)
    requires ClusterSafety.KeepsCommitted(x, y) && a.prevLogIndex + 1 <= |x.log|
    requires y.log == ReconciledLog(x.log, a.prevLogIndex + 1, Payload(a.entries))
    ensures x.commitIndex < CutPoint(x, a)
  {
    CutAboveCommit(x.log, a.prevLogIndex + 1, Payload(a.entries), x.commitIndex);
  }

  lemma ReleasedMoves(x: Node, y: Node, cut: nat, added: seq<LogEntry>)
    requires -1 <= x.lastApplied < cut <= |x.log| && y.log == x.log[..cut] + added
    requires x.lastApplied <= y.lastApplied < |y.log|
    requires y.released == x.released + OpsBetween(y.log, x.lastApplied + 1, y.lastApplied + 1)
          || (y.released == x.released && y.lastApplied == x.lastApplied)
    ensures Moves(x, y, cut, added)
  {
    assert OpsBetween(y.log, x.lastApplied + 1, x.lastApplied + 1) == [];
  }

  lemma AddedHasNoHandles(x: Node, a: AppendEntriesParams)
    requires Plain(Payload(a.entries)) == Payload(a.entries)
    ensures Handles(OpsFrom(Added(x, a), 0)) == multiset{}
  {
    var es, ops := Payload(a.entries), OpsFrom(Added(x, a), 0);
    var k := |es| - |Added(x, a)|;
    forall i | 0 <= i < |ops| ensures ops[i].promiseHandle.None? {
      assert ops[i] == Added(x, a)[i].op && Added(x, a)[i] == es[k + i] && Plain(es)[k + i] == es[k + i];
    }
    NoHandles(ops);
  }
}
