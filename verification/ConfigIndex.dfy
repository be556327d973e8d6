/** The index of the last membership change, which the calls that add and remove servers wait on.

    It is set when a membership entry is pushed, and set back by a reboot only: cutting the log leaves it.
    Events are those of module Membership, in any order, with any number of changes half done. */
module ConfigIndex {
  import opened RaftTypes
  import opened Membership

  /** Where the last membership entry since the reboot was pushed, -1 if there was none, and whether the log
      has been cut at or below it since. */
  datatype Mark = Mark(at: int, cut: bool)

  ghost function Marked(z: Midway, m: Mark, e: Event): Mark {
    match e
    case Rebooted(_) => Mark(-1, false)
    case Pushes(entry) => if entry.op.IsData() then m else Mark(|z.node.log|, false)
    case Cuts(length) => if length <= |z.node.log| && length <= m.at then m.(cut := true) else m
    case _ => m
  }

  ghost function LastMark(z: Midway, m: Mark, es: seq<Event>): Mark
    decreases |es|
  {
    if es == [] then m else LastMark(Handle(z, es[0]), Marked(z, m, es[0]), es[1..])
  }

  /** Index `i` holds the log's last membership entry. */
  predicate IsLastChange(log: seq<LogEntry>, i: int) {
    && 0 <= i < |log| && !log[i].op.IsData()
    && forall j :: i < j < |log| ==> log[j].op.IsData()
  }

  /** The index is the mark's. Above an uncut mark, and from a cut one on, there are only data entries. */
  predicate Holds(z: Midway, m: Mark) {
    && z.node.lastConfigChange == m.at >= -1
    && (m.at >= 0 && !m.cut ==> IsLastChange(z.node.log, m.at))
    && (m.at >= 0 && m.cut ==> forall j :: m.at <= j < |z.node.log| ==> z.node.log[j].op.IsData())
  }

  lemma EventHolds(z: Midway, m: Mark, e: Event)
    requires Holds(z, m)
    ensures Holds(Handle(z, e), Marked(z, m, e))
  {
    if !e.Pushes? && !e.Cuts? && !e.Rebooted? { QuietLog(z, e); }
  }

  /** Sections that touch neither the log nor the index. */
  lemma QuietLog(z: Midway, e: Event)
    requires !e.Pushes? && !e.Cuts? && !e.Rebooted?
    ensures Handle(z, e).node.log == z.node.log && Handle(z, e).node.lastConfigChange == z.node.lastConfigChange
  {
  }

  lemma {:induction false} RunHolds(z: Midway, m: Mark, es: seq<Event>)
    requires Holds(z, m)
    ensures Holds(HandleAll(z, es), LastMark(z, m, es))
    decreases |es|
  {
    if es != [] {
      EventHolds(z, m, es[0]);
      RunHolds(Handle(z, es[0]), Marked(z, m, es[0]), es[1..]);
    }
  }

  /** After every run: the index is where the last membership entry since the reboot was pushed, -1 if there
      was none. If there was one, it is the log's last membership entry exactly if no cut since then has
      removed it. */
  lemma IndexExactly(id: int, config: set<int>, es: seq<Event>)
    ensures var n, m := HandleAll(Started(id, config), es).node, LastMark(Started(id, config), Mark(-1, false), es);
      && n.lastConfigChange == m.at >= -1
      && (m.at >= 0 ==> (IsLastChange(n.log, n.lastConfigChange) <==> !m.cut))
  {
    RunHolds(Started(id, config), Mark(-1, false), es);
  }

  /** The test of the wait loops. */
  predicate WaitIsOver(n: Node) {
    n.lastConfigChange == -1 || n.lastConfigChange <= n.commitIndex
  }

  /** Every membership entry of the log is committed. */
  predicate ChangesCommitted(n: Node) {
    forall i :: 0 <= i < |n.log| && !n.log[i].op.IsData() ==> i <= n.commitIndex
  }

  /** If any membership entry was pushed since the reboot, waiting ends exactly when all of the log's are
      committed, except that it goes on while a cut has removed the last one and its place is not committed.
      After a reboot nothing is waited for, whatever the log that was read holds. */
  lemma WaitExactly(id: int, config: set<int>, es: seq<Event>)
    ensures var n, m := HandleAll(Started(id, config), es).node, LastMark(Started(id, config), Mark(-1, false), es);
      if m.at == -1 then WaitIsOver(n)
      else WaitIsOver(n) <==> ChangesCommitted(n) && !(m.cut && n.commitIndex < m.at)
  {
    RunHolds(Started(id, config), Mark(-1, false), es);
  }
}
