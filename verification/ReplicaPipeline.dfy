/** One replica of the cluster together with the threads around its protocol state: clients that
    submit operations, the thread that feeds them to the leader, and the executor behind its queue.

    A system run interleaves the cluster's actions with the steps of those threads in any order.
    The release of committed operations is two steps, the push and the signal; the state lock and
    the queue lock are held from one to the other. */
module ReplicaPipeline {
  import opened RaftTypes
  import opened RaftHandlers
  import opened RaftCluster
  import opened TimeTravelSignal
  import opened Promises
  import Replay

  /** Where the executor thread is. */
  datatype Worker = AtWait | IsBlocked | AtSwap | Running

  /** What the leader thread has done with the operations it took in. */
  datatype Stage = Idle | Swapped | Appended

  /** The store of values, which survives restarts, and the past of the system: the first store of values,
      everything executed so far, what the client of each submitted operation asked for, and the handles of
      this process's operations that the leader thread took in and cleared without appending them. */
  datatype World = World(
    db: Replay.Database,
    first: Replay.Database,
    past: seq<RaftOp>,
    asked: map<nat, Command>,
    lost: multiset<nat>)

  datatype Side = Side(
    ledger: Ledger,
    clients: set<nat>,           // handles whose client has yet to submit
    dispatchOut: seq<RaftOp>,
    raftIn: seq<RaftOp>,
    stage: Stage,
    raftOut: seq<RaftOp>,
    execIn: seq<RaftOp>,
    done: nat,                   // how many of execIn are executed
    executed: seq<RaftOp>,       // everything executed since the start
    flags: Flags,
    worker: Worker,
    releasing: bool,             // pushed, not yet signalled
    world: World)

  datatype System = System(s: Cluster, side: Side)

  /** The steps of all threads. A client inserts its promise, then submits: it is refused, or its
      operation is queued because the replica was leader at some earlier moment. The leader thread
      takes the queue in, appends it if it finds itself leader (the action `Append`), and clears it. */
  datatype Event =
    | Protocol(a: Action)
    | Insert
    | Refuse(h: nat)
    | Accept(h: nat, command: Command)
    | SwapIn
    | ClearIn
    | SignalWorker
    | WorkerWait
    | WorkerSwap
    | WorkerExecute
    | WorkerClear

  /** A process that has just started; earlier processes had the handles below `l.nextHandle`. */
  function Started(l: Ledger, w: World): Side {
    Side(l.(store := {}), {}, [], [], Idle, [], [], 0, [], Flags(false, false), AtWait, false, w.(lost := multiset{}))
  }

  /** The first process, over the store of values `db`. */
  function First(db: Replay.Database): Side {
    Started(Ledger({}, 0, []), World(db, db, [], map[], multiset{}))
  }

  ghost function Begin(members: set<int>, db: Replay.Database): System {
    System(Init(members), First(db))
  }

  /** The replica in whose locked section the action runs. */
  function Actor(a: Action): int {
    match a
    case Timeout(n) => n
    case SendVote(n, _, _) => n
    case RecvVote(m) => m.to
    case RecvVoteRsp(m) => m.to
    case Append(n, _) => n
    case SendAppend(n, _, _) => n
    case RecvAppend(m) => m.to
    case RecvAppendRsp(m) => m.to
    case Crash(n) => n
    case CrashInRewrite(m, _) => m.to
    case CrashInPersist(m) => m.to
  }

  predicate CanHappen(n: int, z: System, e: Event) {
    var side := z.side;
    && n in z.s.nodes
    && match e
       case Protocol(a) =>
         && Step(z.s, a)
         && (Actor(a) == n ==> !side.releasing)
         && (Actor(a) == n && a.Append? ==> side.stage == Swapped && a.ops == side.raftIn)
       case Insert => true
       case Refuse(h) => h in side.clients
       case Accept(h, command) => h in side.clients && (command.Get? || command.Put?)
       case SwapIn => side.stage == Idle
       case ClearIn => side.stage != Idle
       case SignalWorker => side.releasing
       case WorkerWait => side.worker == AtWait
       case WorkerSwap => side.worker == AtSwap && !side.releasing
       case WorkerExecute => side.worker == Running && side.done < |side.execIn|
       case WorkerClear => side.worker == Running && side.done >= |side.execIn|
  }

  /** Whether the section ends in a push to the executor's queue and a signal. */
  predicate Releases(x: Node, y: Node, a: Action) {
    if a.RecvAppend? && a.m.AppReq? then
      && Accepts(x, a.m.app)
      && a.m.app.leaderCommit > x.commitIndex
    else
      a.RecvAppendRsp? && y.commitIndex != x.commitIndex
  }

  /** The part of `after` beyond the length of `before`. */
  function Beyond(before: seq<RaftOp>, after: seq<RaftOp>): seq<RaftOp> {
    if |before| <= |after| then after[|before|..] else []
  }

  /** The threads' state after a section of the replica itself, which took it from `x` to `y`. */
  function AfterSection(side: Side, x: Node, y: Node, a: Action): Side {
    if a.Crash? || a.CrashInRewrite? || a.CrashInPersist? then
      Started(side.ledger, side.world)
    else
      var cut := if a.RecvAppend? && a.m.AppReq? then CutOff(x, a.m.app) else [];
      side.(ledger := AbortEach(side.ledger, cut),
            stage := if a.Append? then Appended else side.stage,
            raftOut := side.raftOut + Beyond(x.released, y.released),
            releasing := Releases(x, y, a))
  }

  function AfterWait(side: Side): Side {
    var (flags, r) := Waited(side.flags);
    side.(flags := flags, worker := if r == Blocked then IsBlocked else AtSwap)
  }

  function AfterSignal(side: Side): Side {
    var (flags, wakes) := Signalled(side.flags);
    var worker := if wakes && side.worker == IsBlocked then AtSwap else side.worker;
    side.(flags := flags, worker := worker, releasing := false)
  }

  function AfterInsert(side: Side): Side {
    side.(ledger := Inserted(side.ledger), clients := side.clients + {side.ledger.nextHandle})
  }

  function AfterRefuse(side: Side, h: nat): Side {
    side.(ledger := Take(side.ledger, h, Withdrawn, None), clients := side.clients - {h})
  }

  function AfterAccept(side: Side, h: nat, command: Command): Side {
    side.(clients := side.clients - {h}, dispatchOut := side.dispatchOut + [RaftOp(command, Some(h))],
          world := side.world.(asked := side.world.asked[h := command]))
  }

  function AfterClear(side: Side): Side {
    var dropped := if side.stage == Swapped then Handles(side.raftIn) else multiset{};
    side.(raftIn := [], stage := Idle, world := side.world.(lost := side.world.lost + dropped))
  }

  function AfterSwap(side: Side): Side {
    side.(execIn := side.raftOut, raftOut := side.execIn, done := 0, worker := Running)
  }

  function AfterExecute(side: Side): Side
    requires side.done < |side.execIn|
  {
    var op, w := side.execIn[side.done], side.world;
    side.(ledger := ExecuteOp(side.ledger, op, w.db), executed := side.executed + [op], done := side.done + 1,
          world := w.(db := Replay.Apply(w.db, op), past := w.past + [op]))
  }

  ghost function Happen(n: int, z: System, e: Event): System
    requires CanHappen(n, z, e)
  {
    var side := z.side;
    match e
    case Protocol(a) =>
      var s' := Next(z.s, a);
      System(s', if Actor(a) == n && n in s'.nodes then AfterSection(side, z.s.nodes[n], s'.nodes[n], a) else side)
    case Insert => z.(side := AfterInsert(side))
    case Refuse(h) => z.(side := AfterRefuse(side, h))
    case Accept(h, command) => z.(side := AfterAccept(side, h, command))
    case SwapIn => z.(side := side.(raftIn := side.dispatchOut, dispatchOut := side.raftIn, stage := Swapped))
    case ClearIn => z.(side := AfterClear(side))
    case SignalWorker => z.(side := AfterSignal(side))
    case WorkerWait => z.(side := AfterWait(side))
    case WorkerSwap => z.(side := AfterSwap(side))
    case WorkerExecute => z.(side := AfterExecute(side))
    case WorkerClear => z.(side := side.(execIn := [], done := 0, worker := AtWait))
  }

  ghost predicate Possible(n: int, z: System, es: seq<Event>)
    decreases |es|
  {
    es == [] || (CanHappen(n, z, es[0]) && Possible(n, Happen(n, z, es[0]), es[1..]))
  }

  ghost function Finally(n: int, z: System, es: seq<Event>): System
    requires Possible(n, z, es)
    decreases |es|
  {
    if es == [] then z else Finally(n, Happen(n, z, es[0]), es[1..])
  }
}
