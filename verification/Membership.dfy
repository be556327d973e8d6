/** Membership changes: what they keep in every replica, what the commit loop counts while they are
    under way, and why two adjacent configurations cannot decide apart.

    Applying a change releases the state lock between its two halves, the configuration and the
    peer. Other sections run in that gap, and several changes can be half done at once. The steps
    here are the parts between lock operations, or smaller ones, with any arguments whatever and in
    any order; what holds after every step holds for every behaviour of the threads, of the other
    replicas and of the network. */
module Membership {
  import opened RaftTypes
  import opened RaftHandlers
  import opened RaftCluster
  import opened ElectionBasics
  import opened HandlerFacts
  import opened Folds
  import StepReplicate

  /** The second half of a change. */
  datatype PeerChange = Join(id: int) | Leave(id: int)

  /** A replica and the peer changes whose configuration half is done. */
  datatype Midway = Midway(node: Node, pending: multiset<PeerChange>)

  datatype Event =
    | TimedOut
    | VoteAsked(vote: RequestVoteParams)
    | VoteAnswered(saved: int, voteRet: RequestVoteRet)
    | AppendAnswered(peer: int, saved: int, next: int, count: nat, appRet: AppendEntriesRet)
    | Rebooted(config: set<int>)
    // the parts of the two appending sections
    | Joins(app: AppendEntriesParams)
    | Cuts(length: nat)
    | Pushes(entry: LogEntry)
    | Commits(leaderCommit: int)
    | Finishes(change: PeerChange)

  /** What is left to do for an entry; a replica has no peer for itself. */
  function PeerHalf(n: Node, e: LogEntry): Option<PeerChange> {
    match e.op.command
    case AddServer(info) => if info.id != n.id then Some(Join(info.id)) else None
    case RemoveServer(id) => if id != n.id then Some(Leave(id)) else None
    case _ => None
  }

  function ApplyChange(n: Node, c: PeerChange): Node {
    match c
    case Join(id) => Connect(n, id)
    case Leave(id) => Disconnect(n, id)
  }

  ghost function Handle(z: Midway, e: Event): Midway {
    var n := z.node;
    match e
    case TimedOut => z.(node := StartElection(n))
    case VoteAsked(v) => z.(node := HandleRequestVote(n, v).0)
    case VoteAnswered(saved, r) => z.(node := HandleVoteReply(n, saved, r))
    case AppendAnswered(p, saved, next, count, r) => z.(node := HandleAppendReply(n, p, saved, next, count, r))
    case Rebooted(config) => Midway(Restart(n.(config := config)), multiset{})
    case Joins(a) => z.(node := Joined(n, a))
    case Cuts(length) => if length <= |n.log| then z.(node := Cut(n, length)) else z
    case Pushes(entry) =>
      var rest := PeerHalf(n, entry);
      Midway(ConfigHalf(n, entry), if rest.Some? then z.pending + multiset{rest.value} else z.pending)
    case Commits(leaderCommit) => z.(node := FollowerCommit(n, leaderCommit))
    case Finishes(c) => if c in z.pending then Midway(ApplyChange(n, c), z.pending - multiset{c}) else z
  }

  ghost function HandleAll(z: Midway, es: seq<Event>): Midway {
    Fold(Handle, z, es)
  }

  ghost function Started(id: int, config: set<int>): Midway {
    Midway(InitNode(id, config), multiset{})
  }

  // The parts make up the sections

  /** The events of appending one entry when nothing runs in the gap. */
  function InOneGo(n: Node, e: LogEntry): seq<Event> {
    var rest := PeerHalf(n, e);
    if rest.Some? then [Pushes(e), Finishes(rest.value)] else [Pushes(e)]
  }

  function AllInOneGo(n: Node, es: seq<LogEntry>): seq<Event>
    decreases |es|
  {
    if es == [] then [] else InOneGo(n, es[0]) + AllInOneGo(AppendOne(n, es[0]), es[1..])
  }

  lemma PushStep(z: Midway, e: LogEntry)
    ensures PeerHalf(z.node, e).None? ==> Handle(z, Pushes(e)) == z.(node := AppendOne(z.node, e))
    ensures PeerHalf(z.node, e).Some? ==>
      Handle(Handle(z, Pushes(e)), Finishes(PeerHalf(z.node, e).value)) == z.(node := AppendOne(z.node, e))
  {
    HalvesMakeOne(z.node, e);
    var rest := PeerHalf(z.node, e);
    if rest.Some? {
      assert z.pending + multiset{rest.value} - multiset{rest.value} == z.pending;
    }
  }

  lemma OneGo(z: Midway, e: LogEntry)
    ensures HandleAll(z, InOneGo(z.node, e)) == z.(node := AppendOne(z.node, e))
  {
    PushStep(z, e);
    var rest := PeerHalf(z.node, e);
    if rest.Some? {
      TwoSteps(z, Pushes(e), Finishes(rest.value));
    } else {
      FoldOne(Handle, z, Pushes(e));
    }
  }

  lemma TwoSteps(z: Midway, e: Event, f: Event)
    ensures HandleAll(z, [e, f]) == Handle(Handle(z, e), f)
  {
    FoldFirst(Handle, z, e, [f]);
    FoldOne(Handle, Handle(z, e), f);
    assert [e] + [f] == [e, f];
  }

  lemma {:induction false} AllOneGo(z: Midway, es: seq<LogEntry>)
    ensures HandleAll(z, AllInOneGo(z.node, es)) == z.(node := AppendAll(z.node, es))
    decreases |es|
  {
    if es != [] {
      OneGo(z, es[0]);
      var y := z.(node := AppendOne(z.node, es[0]));
      AllOneGo(y, es[1..]);
      FoldConcat(Handle, z, InOneGo(z.node, es[0]), AllInOneGo(y.node, es[1..]));
    }
  }

  /** The parts of an accepted replication request. */
  function PartsOf(n: Node, a: AppendEntriesParams): seq<Event>
    requires Accepts(n, a)
  {
    var j, at, es := Joined(n, a), a.prevLogIndex + 1, Payload(a.entries);
    [Joins(a)] + RewriteParts(j, at, es, MatchLen(j.log, at, es)) + [Commits(a.leaderCommit)]
  }

  /** With nothing running in the gaps, the parts of a request are its handler. */
  lemma PartsMakeHandler(z: Midway, a: AppendEntriesParams)
    requires Accepts(z.node, a)
    ensures HandleAll(z, PartsOf(z.node, a)) == z.(node := HandleAppendEntries(z.node, a).0)
  {
    var at, es, j := a.prevLogIndex + 1, Payload(a.entries), Joined(z.node, a);
    var k := MatchLen(j.log, at, es);
    var y := z.(node := j);
    assert Handle(z, Joins(a)) == y;
    ThreeParts(z, Joins(a), RewriteParts(j, at, es, k), Commits(a.leaderCommit));
    RewriteMakesReconcile(y, at, es, k);
    LastPart(y, a);
  }

  lemma LastPart(y: Midway, a: AppendEntriesParams)
    requires 0 <= a.prevLogIndex + 1 <= |y.node.log|
    ensures var r := Reconcile(y.node, a.prevLogIndex + 1, Payload(a.entries));
      Handle(y.(node := r), Commits(a.leaderCommit)) == y.(node := FollowerCommit(r, a.leaderCommit))
  {
  }

  lemma ThreeParts(z: Midway, first: Event, middle: seq<Event>, last: Event)
    ensures HandleAll(z, [first] + middle + [last]) == Handle(HandleAll(Handle(z, first), middle), last)
  {
    FoldLast(Handle, z, [first] + middle, last);
    FoldFirst(Handle, z, first, middle);
  }

  /** Cut at the first difference and append the rest, if anything is new. */
  function RewriteParts(n: Node, at: nat, es: seq<LogEntry>, k: nat): seq<Event> {
    if k < |es| && at + k <= |n.log| then [Cuts(at + k)] + AllInOneGo(Cut(n, at + k), es[k..]) else []
  }

  lemma RewriteMakesReconcile(y: Midway, at: nat, es: seq<LogEntry>, k: nat)
    requires at <= |y.node.log| && k == MatchLen(y.node.log, at, es)
    ensures HandleAll(y, RewriteParts(y.node, at, es, k)) == y.(node := Reconcile(y.node, at, es))
  {
    ReconcileIs(y.node, at, es, k);
    if k < |es| { CutAndAppend(y, at + k, es[k..]); }
  }

  lemma CutAndAppend(y: Midway, from: nat, es: seq<LogEntry>)
    requires from <= |y.node.log|
    ensures HandleAll(y, [Cuts(from)] + AllInOneGo(Cut(y.node, from), es)) ==
      y.(node := AppendAll(Cut(y.node, from), es))
  {
    var c := y.(node := Cut(y.node, from));
    FoldFirst(Handle, y, Cuts(from), AllInOneGo(c.node, es));
    AllOneGo(c, es);
  }

  // The peer set

  predicate Concerns(pending: multiset<PeerChange>, m: int) {
    Join(m) in pending || Leave(m) in pending
  }

  /** There is a client for `m` exactly if it is another member of the configuration. */
  predicate InStep(n: Node, m: int) {
    m in n.peers <==> m in n.config && m != n.id
  }

  /** A replica whose peers are in step with its configuration, except where a change is half done;
      no two half-done changes concern the same server, and each agrees with the configuration. */
  ghost predicate Tracks(z: Midway) {
    && (forall m {:trigger InStep(z.node, m)} :: InStep(z.node, m) || Concerns(z.pending, m))
    && (forall c {:trigger ChangeOk(z, c)} :: ChangeOk(z, c))
  }

  predicate ChangeOk(z: Midway, c: PeerChange) {
    c in z.pending ==> z.pending[c] == 1 && c.id != z.node.id && (c.Join? <==> c.id in z.node.config)
  }

  /** An entry whose peer half would overlap with a half-done change of the same server. */
  predicate Overlaps(z: Midway, e: Event) {
    e.Pushes? && PeerHalf(z.node, e.entry).Some? && Concerns(z.pending, PeerHalf(z.node, e.entry).value.id)
  }

  /** No change of a server begins while one of the same server is half done. */
  ghost predicate Apart(z: Midway, es: seq<Event>)
    decreases |es|
  {
    es == [] || (!Overlaps(z, es[0]) && Apart(Handle(z, es[0]), es[1..]))
  }

  /** Sections that change neither configuration nor peers. */
  lemma QuietKeeps(z: Midway, e: Event)
    requires !e.Pushes? && !e.Finishes? && !e.Rebooted?
    ensures var y := Handle(z, e);
      && y.pending == z.pending && y.node.id == z.node.id
      && y.node.config == z.node.config && y.node.peers == z.node.peers
  {
  }

  lemma PushTracks(z: Midway, entry: LogEntry)
    requires Tracks(z) && !Overlaps(z, Pushes(entry))
    ensures Tracks(Handle(z, Pushes(entry)))
  {
    var y := Handle(z, Pushes(entry));
    forall m ensures InStep(y.node, m) || Concerns(y.pending, m) {
      assert InStep(z.node, m) || Concerns(z.pending, m);
    }
    forall c ensures ChangeOk(y, c) { assert ChangeOk(z, c); }
  }

  lemma FinishTracks(z: Midway, c: PeerChange)
    requires Tracks(z)
    ensures Tracks(Handle(z, Finishes(c)))
  {
    var y := Handle(z, Finishes(c));
    if c in z.pending {
      assert ChangeOk(z, c) && ChangeOk(z, Join(c.id)) && ChangeOk(z, Leave(c.id));
      forall m ensures InStep(y.node, m) || Concerns(y.pending, m) {
        assert InStep(z.node, m) || Concerns(z.pending, m);
      }
      forall d ensures ChangeOk(y, d) { assert ChangeOk(z, d); }
    }
  }

  lemma EventTracks(z: Midway, e: Event)
    requires Tracks(z) && !Overlaps(z, e)
    ensures Tracks(Handle(z, e))
  {
    if e.Pushes? {
      PushTracks(z, e.entry);
    } else if e.Finishes? {
      FinishTracks(z, e.change);
    } else if !e.Rebooted? {
      QuietKeeps(z, e);
      QuietTracks(z, Handle(z, e));
    }
  }

  lemma QuietTracks(z: Midway, y: Midway)
    requires Tracks(z) && y.pending == z.pending && y.node.id == z.node.id
    requires y.node.config == z.node.config && y.node.peers == z.node.peers
    ensures Tracks(y)
  {
    forall m ensures InStep(y.node, m) || Concerns(y.pending, m) {
      assert InStep(z.node, m) || Concerns(z.pending, m);
    }
    forall c ensures ChangeOk(y, c) { assert ChangeOk(z, c); }
  }

  /** As long as changes of the same server do not overlap, whatever else runs in the gaps: the peers
      are the other members of the configuration, except for servers whose change is half done. */
  lemma {:induction false} PeersTrackConfig(z: Midway, es: seq<Event>)
    requires Tracks(z) && Apart(z, es)
    ensures Tracks(HandleAll(z, es))
    decreases |es|
  {
    if es != [] {
      EventTracks(z, es[0]);
      PeersTrackConfig(Handle(z, es[0]), es[1..]);
    }
  }

  // Exactly when the peers follow the configuration

  /** The last change of each server that has finished since the last reboot, after one more event. */
  ghost function Note(z: Midway, done: map<int, PeerChange>, e: Event): map<int, PeerChange> {
    match e
    case Rebooted(_) => map[]
    case Finishes(c) => if c in z.pending then done[c.id := c] else done
    case _ => done
  }

  ghost function LastDone(z: Midway, done: map<int, PeerChange>, es: seq<Event>): map<int, PeerChange>
    decreases |es|
  {
    if es == [] then done else LastDone(Handle(z, es[0]), Note(z, done, es[0]), es[1..])
  }

  /** The change of `m` that finished last, if any did, agrees with the configuration. */
  predicate AgreesOn(n: Node, done: map<int, PeerChange>, m: int) {
    m in done ==> (done[m].Join? <==> m in n.config)
  }

  /** The peers are what the finished changes made them; without one they are in step, unless a change
      is half done. */
  predicate RecordedAt(z: Midway, done: map<int, PeerChange>, m: int) {
    if m in done then m != z.node.id && (m in z.node.peers <==> done[m].Join?)
    else InStep(z.node, m) || Concerns(z.pending, m)
  }

  ghost predicate Recorded(z: Midway, done: map<int, PeerChange>) {
    Grounded(z) && forall m {:trigger RecordedAt(z, done, m)} :: RecordedAt(z, done, m)
  }

  lemma EventRecorded(z: Midway, done: map<int, PeerChange>, e: Event)
    requires Recorded(z, done)
    ensures Recorded(Handle(z, e), Note(z, done, e))
  {
    EventGrounded(z, e);
    forall m ensures RecordedAt(Handle(z, e), Note(z, done, e), m) {
      assert RecordedAt(z, done, m);
      if e.Pushes? {
        PushRecorded(z, done, e.entry, m);
      } else if e.Finishes? {
        FinishRecorded(z, done, e.change, m);
      } else if !e.Rebooted? {
        QuietKeeps(z, e);
      }
    }
  }

  lemma PushRecorded(z: Midway, done: map<int, PeerChange>, entry: LogEntry, m: int)
    requires RecordedAt(z, done, m) && z.node.id !in z.node.peers
    ensures RecordedAt(Handle(z, Pushes(entry)), done, m)
  {
  }

  lemma FinishRecorded(z: Midway, done: map<int, PeerChange>, c: PeerChange, m: int)
    requires RecordedAt(z, done, m) && Grounded(z)
    ensures RecordedAt(Handle(z, Finishes(c)), Note(z, done, Finishes(c)), m)
  {
    assert NotItself(z, c);
  }

  lemma {:induction false} RunRecorded(z: Midway, done: map<int, PeerChange>, es: seq<Event>)
    requires Recorded(z, done)
    ensures Recorded(HandleAll(z, es), LastDone(z, done, es))
    decreases |es|
  {
    if es != [] {
      EventRecorded(z, done, es[0]);
      RunRecorded(Handle(z, es[0]), Note(z, done, es[0]), es[1..]);
    }
  }

  lemma StartedRecorded(id: int, config: set<int>)
    ensures Recorded(Started(id, config), map[])
  {
    var z := Started(id, config);
    forall m ensures RecordedAt(z, map[], m) {
    }
  }

  /** After every run, overlapping or not, with every server that has nothing half done: its peer is in
      step exactly if the last change of it that finished agrees with the configuration. So with nothing
      half done at all, the peers are the configuration's other members exactly if every last finished
      change agrees. */
  lemma PeersFollowExactly(id: int, config: set<int>, es: seq<Event>)
    ensures var z, done := HandleAll(Started(id, config), es), LastDone(Started(id, config), map[], es);
      && (forall m :: !Concerns(z.pending, m) ==> (InStep(z.node, m) <==> AgreesOn(z.node, done, m)))
      && (z.pending == multiset{} ==>
            (z.node.peers == z.node.config - {z.node.id} <==> forall m :: AgreesOn(z.node, done, m)))
  {
    var s := Started(id, config);
    StartedRecorded(id, config);
    RunRecorded(s, map[], es);
    var z, done := HandleAll(s, es), LastDone(s, map[], es);
    forall m | !Concerns(z.pending, m) ensures InStep(z.node, m) <==> AgreesOn(z.node, done, m) {
      assert RecordedAt(z, done, m);
    }
    if z.pending == multiset{} {
      assert forall m :: !Concerns(z.pending, m);
      AllInStep(z.node);
    }
  }

  lemma AllInStep(n: Node)
    ensures n.peers == n.config - {n.id} <==> forall m :: InStep(n, m)
  {
    if forall m :: InStep(n, m) {
      forall m ensures m in n.peers <==> m in n.config - {n.id} { assert InStep(n, m); }
    }
  }

  /** The simple case: as long as changes of the same server do not overlap, every finished change agrees,
      unless another of its server is half done; with nothing half done the peers are the configuration's
      other members. */
  lemma PeersAlwaysFollow(id: int, config: set<int>, es: seq<Event>)
    requires Apart(Started(id, config), es)
    ensures var z, done := HandleAll(Started(id, config), es), LastDone(Started(id, config), map[], es);
      && (forall m :: !Concerns(z.pending, m) ==> AgreesOn(z.node, done, m))
      && (z.pending == multiset{} ==> z.node.peers == z.node.config - {z.node.id})
  {
    PeersTrackConfig(Started(id, config), es);
    PeersFollowExactly(id, config, es);
    var z := HandleAll(Started(id, config), es);
    assert forall m :: InStep(z.node, m) || Concerns(z.pending, m);
  }

  // Two requests that overlap

  /** A leader of three adds server 3, sends the entry, and later removes the server again: what it sends
      to replica 1 both times, and the entries. */
  function AddEntry(): LogEntry {
    LogEntry(1, RaftOp(AddServer(ServerInfo(3, [], 0, 0, [])), None))
  }

  function RemoveEntry(): LogEntry {
    LogEntry(1, RaftOp(RemoveServer(3), None))
  }

  function LeaderWith(log: seq<LogEntry>, commitIndex: int, config: set<int>): Node {
    Node(0, 1, -1, log, Leader, commitIndex, commitIndex, 0, config, |log| - 1, config - {0},
         map[1 := 0, 2 := 1], map[1 := -1, 2 := 0], 2, [])
  }

  function FirstRequest(): AppendEntriesParams {
    BuildAppend(LeaderWith([AddEntry()], -1, {0, 1, 2, 3}), 1, 1)
  }

  function SecondRequest(): AppendEntriesParams {
    BuildAppend(LeaderWith([AddEntry(), RemoveEntry()], 0, {0, 1, 2}), 1, 1)
  }

  /** The payloads are the entries. */
  lemma RequestPayloads()
    ensures FirstRequest() == AppendEntriesParams(1, 0, -1, -1, FirstRequest().entries, -1)
    ensures SecondRequest() == AppendEntriesParams(1, 0, -1, -1, SecondRequest().entries, 0)
    ensures Payload(FirstRequest().entries) == [AddEntry()]
    ensures Payload(SecondRequest().entries) == [AddEntry(), RemoveEntry()]
  {
  }

  /** The second request arrives in the gap of the first and finishes before it. Its handler removes the
      peer that the first has not connected yet; then the first connects it. Nothing is half done any
      more, and a server that has left the configuration is a peer. */
  lemma OverlapDivides() returns (before: seq<Event>, after: seq<Event>, es: seq<Event>, z: Midway)
    ensures Accepts(Started(1, {0, 1, 2}).node, FirstRequest())
    ensures before + after == PartsOf(Started(1, {0, 1, 2}).node, FirstRequest())
    ensures var y := HandleAll(Started(1, {0, 1, 2}), before);
      Accepts(y.node, SecondRequest()) && es == before + PartsOf(y.node, SecondRequest()) + after
    ensures z == HandleAll(Started(1, {0, 1, 2}), es) && z.pending == multiset{}
    ensures 3 in z.node.peers && 3 !in z.node.config
  {
    var s := Started(1, {0, 1, 2});
    var y: Midway;
    before, after, y := FirstHalf(s);
    PartsMakeHandler(y, SecondRequest());
    var x := y.(node := HandleAppendEntries(y.node, SecondRequest()).0);
    SecondHandled(y.node);
    var second := PartsOf(y.node, SecondRequest());
    es := before + second + after;
    FoldConcat(Handle, s, before + second, after);
    FoldConcat(Handle, s, before, second);
    z := HandleAll(x, after);
    TwoSteps(x, Finishes(Join(3)), Commits(-1));
    FinishThenCommit(x);
  }

  /** The first request up to its gap, and what is left of it. */
  lemma FirstHalf(s: Midway) returns (before: seq<Event>, after: seq<Event>, y: Midway)
    requires s == Started(1, {0, 1, 2})
    ensures Accepts(s.node, FirstRequest()) && before + after == PartsOf(s.node, FirstRequest())
    ensures y == HandleAll(s, before) && y.pending == multiset{Join(3)} && after == [Finishes(Join(3)), Commits(-1)]
    ensures InAddGap(y.node)
  {
    var a, add := FirstRequest(), AddEntry();
    before, after := [Joins(a), Cuts(0), Pushes(add)], [Finishes(Join(3)), Commits(-1)];
    FirstParts(s.node);
    ThreeSteps(s, Joins(a), Cuts(0), Pushes(add));
    y := Handle(Handle(Handle(s, Joins(a)), Cuts(0)), Pushes(add));
    GapReached(s);
  }

  lemma GapReached(s: Midway)
    requires s == Started(1, {0, 1, 2})
    ensures var y := Handle(Handle(Handle(s, Joins(FirstRequest())), Cuts(0)), Pushes(AddEntry()));
      y.pending == multiset{Join(3)} && InAddGap(y.node)
  {
    RequestPayloads();
    var j := Joined(s.node, FirstRequest());
    var x := s.(node := j);
    assert Handle(s, Joins(FirstRequest())) == x;
    assert Cut(j, 0) == j;
    assert Handle(x, Cuts(0)) == x;
    AddPushed(x);
  }

  lemma AddPushed(x: Midway)
    requires x.pending == multiset{} && x.node.id == 1 && x.node.currentTerm == 1 && x.node.role == Follower
    requires x.node.log == [] && x.node.commitIndex == -1 && x.node.config == {0, 1, 2} && x.node.peers == {0, 2}
    ensures var y := Handle(x, Pushes(AddEntry())); y.pending == multiset{Join(3)} && InAddGap(y.node)
  {
  }

  /** Replica 1 with the new configuration and the old peers. */
  predicate InAddGap(n: Node) {
    && n.id == 1 && n.currentTerm == 1 && n.role == Follower && n.log == [AddEntry()] && n.commitIndex == -1
    && n.config == {0, 1, 2, 3} && n.peers == {0, 2}
  }

  lemma FirstParts(n: Node)
    requires n == InitNode(1, {0, 1, 2})
    ensures Accepts(n, FirstRequest())
    ensures PartsOf(n, FirstRequest()) ==
      [Joins(FirstRequest()), Cuts(0), Pushes(AddEntry()), Finishes(Join(3)), Commits(-1)]
  {
    RequestPayloads();
    var j, es := Joined(n, FirstRequest()), [AddEntry()];
    assert MatchLen(j.log, 0, es) == 0;
    assert Cut(j, 0) == j && es[0..] == es;
    OneEntryParts(j, AddEntry());
  }

  lemma OneEntryParts(n: Node, e: LogEntry)
    ensures AllInOneGo(n, [e]) == InOneGo(n, e)
  {
    assert [e][1..] == [];
    assert AllInOneGo(AppendOne(n, e), []) == [];
  }

  lemma ThreeSteps(z: Midway, e: Event, f: Event, g: Event)
    ensures HandleAll(z, [e, f, g]) == Handle(Handle(Handle(z, e), f), g)
  {
    FoldLast(Handle, z, [e, f], g);
    TwoSteps(z, e, f);
    assert [e, f] + [g] == [e, f, g];
  }

  /** The second request in the gap: the server leaves the configuration; it was no peer anyway. */
  lemma SecondHandled(n: Node)
    requires InAddGap(n)
    ensures Accepts(n, SecondRequest())
    ensures var y := HandleAppendEntries(n, SecondRequest()).0;
      y.id == 1 && y.config == {0, 1, 2} && y.peers == {0, 2}
  {
    RequestPayloads();
    var a := SecondRequest();
    var j, es := Joined(n, a), [AddEntry(), RemoveEntry()];
    HandledAs(n, a);
    SecondMatches(j.log, es);
    ReconcileIs(j, 0, es, 1);
    OnlyRemove(j, es);
  }

  lemma SecondMatches(log: seq<LogEntry>, es: seq<LogEntry>)
    requires log == [AddEntry()] && es == [AddEntry(), RemoveEntry()]
    ensures MatchLen(log, 0, es) == 1
  {
    assert MatchLen(log, 1, es[1..]) == 0;
  }

  lemma OnlyRemove(j: Node, es: seq<LogEntry>)
    requires InAddGap(j) && es == [AddEntry(), RemoveEntry()]
    ensures var y := AppendAll(Cut(j, 1), es[1..]); y.id == 1 && y.config == {0, 1, 2} && y.peers == {0, 2}
  {
    assert es[1..] == [RemoveEntry()] && es[1..][1..] == [];
    assert AppendAll(Cut(j, 1), es[1..]) == AppendOne(Cut(j, 1), RemoveEntry());
  }

  lemma FinishThenCommit(x: Midway)
    requires x.pending == multiset{Join(3)} && x.node.config == {0, 1, 2}
    ensures var z := Handle(Handle(x, Finishes(Join(3))), Commits(-1));
      z.pending == multiset{} && 3 in z.node.peers && z.node.config == {0, 1, 2}
  {
  }

  lemma AndThen(s: Midway, es: seq<Event>, z: Midway, e: Event) returns (es': seq<Event>, z': Midway)
    requires z == HandleAll(s, es)
    ensures es' == es + [e] && z' == Handle(z, e) && z' == HandleAll(s, es')
  {
    FoldLast(Handle, s, es, e);
    es', z' := es + [e], Handle(z, e);
  }

  /** The configuration after an entry. */
  function ConfigAfter(config: set<int>, c: Command): set<int> {
    match c
    case AddServer(info) => config + {info.id}
    case RemoveServer(id) => config - {id}
    case _ => config
  }

  // The commit loop

  /** The leader knows that `m` holds index `i`. */
  predicate Known(n: Node, m: int, i: int) {
    m in n.matchIndex && n.matchIndex[m] >= i
  }

  /** The members that hold index `i`, as far as the leader knows; itself if it is a member. */
  function Holders(n: Node, i: int): set<int> {
    set m | m in n.config && (m == n.id || Known(n, m, i))
  }

  /** Holders that the loop does not see: members that are not connected yet. */
  function Overlooked(n: Node, i: int): set<int> {
    set m | m in n.config - n.peers - {n.id} && Known(n, m, i)
  }

  /** What the loop counts beyond the holders: peers that have left the configuration. */
  function Miscounted(n: Node, i: int): set<int> {
    set m | m in n.peers - n.config && Known(n, m, i)
  }

  /** The servers whose peer is out of step with the configuration. */
  function Disputed(n: Node): set<int> {
    (n.config - n.peers - {n.id}) + (n.peers - n.config)
  }

  lemma NoneDisputed(n: Node, i: int)
    requires forall m :: m in Disputed(n) ==> !Known(n, m, i)
    ensures Overlooked(n, i) == {} && Miscounted(n, i) == {}
  {
    forall m ensures m !in Overlooked(n, i) && m !in Miscounted(n, i) {
      assert m in Disputed(n) || m !in (n.config - n.peers - {n.id}) + (n.peers - n.config);
    }
  }

  /** There is a match index for every peer, and no peer for the replica itself. */
  predicate Indexed(n: Node) {
    n.id !in n.peers && n.peers <= n.matchIndex.Keys
  }

  /** The count, the holders, and by how much they differ. */
  lemma CountBalance(n: Node, i: int)
    requires Indexed(n)
    ensures MatchCount(n, i) + |Overlooked(n, i)| == |Holders(n, i)| + |Miscounted(n, i)|
  {
    var both := set m | m in n.peers * n.config && Known(n, m, i);
    PeersSplit(n, i, both);
    HoldersSplit(n, i, both);
  }

  lemma PeersSplit(n: Node, i: int, both: set<int>)
    requires Indexed(n) && both == set m | m in n.peers * n.config && Known(n, m, i)
    ensures |MatchedPeers(n, i)| == |both| + |Miscounted(n, i)|
  {
    assert MatchedPeers(n, i) == both + Miscounted(n, i);
  }

  lemma HoldersSplit(n: Node, i: int, both: set<int>)
    requires Indexed(n) && both == set m | m in n.peers * n.config && Known(n, m, i)
    ensures |Holders(n, i)| == (if n.id in n.config then 1 else 0) + |both| + |Overlooked(n, i)|
  {
    var me := if n.id in n.config then {n.id} else {};
    assert Holders(n, i) == me + both + Overlooked(n, i);
    assert |me + both| == |me| + |both|;
  }

  /** The loop counts the holders of an index exactly when as many of them are overlooked as others
      are counted in their place. */
  lemma CountIsHolders(n: Node, i: int)
    requires Indexed(n)
    ensures MatchCount(n, i) == |Holders(n, i)| <==> |Overlooked(n, i)| == |Miscounted(n, i)|
  {
    CountBalance(n, i);
  }

  /** With a single change half done: exactly when its server is in step already, or is not known to
      hold the index. For a removal that means a match index below it. */
  lemma CountInGap(z: Midway, c: PeerChange, i: int)
    requires Tracks(z) && Indexed(z.node) && z.pending == multiset{c}
    ensures MatchCount(z.node, i) == |Holders(z.node, i)| <==> InStep(z.node, c.id) || !Known(z.node, c.id, i)
  {
    var n := z.node;
    CountIsHolders(n, i);
    forall m | m != c.id ensures InStep(n, m) { assert InStep(n, m) || Concerns(z.pending, m); }
    forall m | m in Disputed(n) ensures m == c.id { assert InStep(n, m) || Concerns(z.pending, m); }
    if InStep(n, c.id) || !Known(n, c.id, i) {
      NoneDisputed(n, i);
    } else {
      OneDisputed(n, c.id, i);
    }
  }

  lemma OneDisputed(n: Node, m: int, i: int)
    requires Disputed(n) == {m} && Known(n, m, i)
    ensures |Overlooked(n, i)| + |Miscounted(n, i)| == 1
  {
    if m in n.peers {
      assert Miscounted(n, i) == {m};
      assert forall x :: x in Overlooked(n, i) ==> x in Disputed(n);
      assert Overlooked(n, i) == {};
    } else {
      assert Overlooked(n, i) == {m};
      assert forall x :: x in Miscounted(n, i) ==> x in Disputed(n);
      assert Miscounted(n, i) == {};
    }
  }

  /** A server that has just been connected counts for nothing, whatever was known of it before, and the next
      request to it carries the whole log. */
  lemma NewcomerHoldsNothing(z: Midway, m: int, saved: int)
    requires Join(m) in z.pending
    ensures var n, y := z.node, Handle(z, Finishes(Join(m))).node;
      && (forall i :: 0 <= i ==> !Known(y, m, i) && MatchedPeers(y, i) == MatchedPeers(n, i) - {m})
      && BuildAppend(y, m, saved).prevLogIndex == -1 && Payload(BuildAppend(y, m, saved).entries) == Plain(n.log)
  {
  }

  /** An entry of the leader's own term that more than half of the configuration holds. */
  predicate HeldByMajority(n: Node, i: int) {
    && 0 <= i < |n.log| && n.log[i].term == n.currentTerm
    && Majority(n.config, Holders(n, i))
  }

  /** No server whose change is half done is known to hold an index above the commit index. */
  predicate Undisturbed(n: Node) {
    forall m :: m in Disputed(n) ==> !Known(n, m, n.commitIndex + 1)
  }

  /** The commit index has moved to the greatest index above `before` that a majority of the
      configuration holds in the current term, or has stayed because there is none. */
  ghost predicate Exact(before: int, y: Node) {
    && (y.commitIndex == before || (y.commitIndex > before && HeldByMajority(y, y.commitIndex)))
    && (forall i :: y.commitIndex < i ==> !HeldByMajority(y, i))
  }

  /** The servers whose peer is out of step decide whether the loop sees a majority at `i`. */
  predicate Tipped(n: Node, i: int) {
    && 0 <= i < |n.log| && n.log[i].term == n.currentTerm
    && var held, seen := |Holders(n, i)|, |Holders(n, i)| + |Miscounted(n, i)| - |Overlooked(n, i)|;
       (held * 2 > |n.config|) != (seen * 2 > |n.config|)
  }

  /** A later index has a majority in any case. */
  ghost predicate Overruled(n: Node, i: int) {
    exists j :: i < j && HeldByMajority(n, j) && !Tipped(n, j)
  }

  /** Wherever those servers decide, it does not matter. */
  ghost predicate Unswayed(n: Node) {
    forall i :: n.commitIndex < i && Tipped(n, i) ==> Overruled(n, i)
  }

  lemma HoldersAreMembers(n: Node, i: int)
    ensures Holders(n, i) <= n.config
  {
  }

  lemma TippedIs(n: Node, i: int)
    requires Indexed(n)
    ensures Tipped(n, i) <==> Committable(n, i) != HeldByMajority(n, i)
  {
    CountBalance(n, i);
    HoldersAreMembers(n, i);
  }

  /** Exactly then the loop's result is right. */
  lemma CommitIsGreatest(n: Node)
    requires Indexed(n) && n.commitIndex >= -1
    ensures Exact(n.commitIndex, LeaderCommit(n)) <==> Unswayed(n)
  {
    var c, y := CommitTarget(n, |n.log|), LeaderCommit(n);
    StepReplicate.CommitTargetGreatest(n, |n.log|);
    SameHolders(n, y);
    forall i ensures Tipped(n, i) <==> Committable(n, i) != HeldByMajority(n, i) { TippedIs(n, i); }
    if Exact(n.commitIndex, y) {
      forall i | n.commitIndex < i && Tipped(n, i) ensures Overruled(n, i) {
        assert i < c && HeldByMajority(n, c) && !Tipped(n, c);
      }
    }
    if Unswayed(n) { UnswayedIsExact(n, c); }
  }

  lemma UnswayedIsExact(n: Node, c: int)
    requires Unswayed(n) && (c == n.commitIndex || (c > n.commitIndex && Committable(n, c)))
    requires forall i :: c < i ==> !Committable(n, i)
    requires forall i :: Tipped(n, i) <==> Committable(n, i) != HeldByMajority(n, i)
    ensures c == n.commitIndex || HeldByMajority(n, c)
    ensures forall i :: c < i ==> !HeldByMajority(n, i)
  {
    forall i | n.commitIndex < i && c <= i ensures !Tipped(n, i) {
      assert Tipped(n, i) ==> Overruled(n, i);
    }
  }

  /** What every step keeps, overlapping or not. */
  ghost predicate Grounded(z: Midway) {
    && Indexed(z.node) && z.node.commitIndex >= -1
    && (forall c {:trigger NotItself(z, c)} :: NotItself(z, c))
  }

  predicate NotItself(z: Midway, c: PeerChange) {
    c in z.pending ==> c.id != z.node.id
  }

  lemma EventGrounded(z: Midway, e: Event)
    requires Grounded(z)
    ensures Grounded(Handle(z, e))
  {
    NodeGrounded(z, e);
    PendingGrounded(z, e);
  }

  lemma PendingGrounded(z: Midway, e: Event)
    requires Grounded(z) && Handle(z, e).node.id == z.node.id
    ensures forall c {:trigger NotItself(Handle(z, e), c)} :: NotItself(Handle(z, e), c)
  {
    forall c ensures NotItself(Handle(z, e), c) { assert NotItself(z, c); }
  }

  lemma NodeGrounded(z: Midway, e: Event)
    requires Grounded(z)
    ensures var y := Handle(z, e).node; Indexed(y) && y.commitIndex >= -1 && y.id == z.node.id
  {
    match e
    case AppendAnswered(p, saved, next, count, r) => ReplyGrounded(z.node, p, saved, next, count, r);
    case VoteAnswered(saved, r) => VoteGrounded(z.node, saved, r);
    case Finishes(c) => FinishGrounded(z, c);
    case Pushes(entry) => PushGrounded(z.node, entry);
    case VoteAsked(v) => AskedGrounded(z.node, v);
    case _ =>
  }

  lemma FinishGrounded(z: Midway, c: PeerChange)
    requires Grounded(z)
    ensures var y := Handle(z, Finishes(c)).node; Indexed(y) && y.commitIndex >= -1 && y.id == z.node.id
  {
    assert NotItself(z, c);
  }

  lemma PushGrounded(n: Node, entry: LogEntry)
    requires Indexed(n) && n.commitIndex >= -1
    ensures var y := ConfigHalf(n, entry); Indexed(y) && y.commitIndex >= -1 && y.id == n.id
  {
  }

  lemma AskedGrounded(n: Node, v: RequestVoteParams)
    requires Indexed(n) && n.commitIndex >= -1
    ensures var y := HandleRequestVote(n, v).0; Indexed(y) && y.commitIndex >= -1 && y.id == n.id
  {
  }

  lemma ReplyGrounded(n: Node, p: int, saved: int, next: int, count: nat, r: AppendEntriesRet)
    requires Indexed(n) && n.commitIndex >= -1
    ensures var y := HandleAppendReply(n, p, saved, next, count, r);
      Indexed(y) && y.commitIndex >= -1 && y.id == n.id
  {
    var y := Matched(n, p, next + count);
    StepReplicate.CommitTargetGreatest(y, |y.log|);
  }

  lemma VoteGrounded(n: Node, saved: int, r: RequestVoteRet)
    requires Indexed(n) && n.commitIndex >= -1
    ensures var y := HandleVoteReply(n, saved, r); Indexed(y) && y.commitIndex >= -1 && y.id == n.id
  {
  }

  lemma {:induction false} AlwaysGrounded(z: Midway, es: seq<Event>)
    requires Grounded(z)
    ensures Grounded(HandleAll(z, es))
    decreases |es|
  {
    if es != [] {
      EventGrounded(z, es[0]);
      AlwaysGrounded(Handle(z, es[0]), es[1..]);
    }
  }

  /** In every state a leader can be in, whatever changes are half done and whether it is a member
      itself or not: a successful reply moves the commit index to the greatest index above it that a
      majority of the configuration then holds in the current term, or leaves it, exactly if the
      servers whose change is half done do not sway the loop. */
  lemma CommitLoopExact(id: int, config: set<int>, es: seq<Event>, p: int, saved: int, next: int, count: nat)
    requires HandleAll(Started(id, config), es).node.role == Leader
    ensures var n := HandleAll(Started(id, config), es).node;
      var y := HandleAppendReply(n, p, saved, next, count, AppendEntriesRet(saved, true));
      && y.matchIndex == n.matchIndex[p := next + count - 1]
      && (Exact(n.commitIndex, y) <==> Unswayed(Matched(n, p, next + count)))
  {
    AlwaysGrounded(Started(id, config), es);
    CommitIsGreatest(Matched(HandleAll(Started(id, config), es).node, p, next + count));
  }

  /** They do not if none of them is known to hold an index above the commit index. */
  lemma UndisturbedIsUnswayed(n: Node)
    requires Undisturbed(n)
    ensures Unswayed(n)
  {
    forall i | n.commitIndex < i ensures !Tipped(n, i) { NoneDisputed(n, i); }
  }

  lemma SameHolders(z: Node, y: Node)
    requires y == z.(commitIndex := y.commitIndex, lastApplied := y.lastApplied, released := y.released)
    ensures forall i :: HeldByMajority(y, i) <==> HeldByMajority(z, i)
  {
    forall i ensures HeldByMajority(y, i) <==> HeldByMajority(z, i) {
      assert Holders(y, i) == Holders(z, i);
    }
  }

  /** So the result is right whenever no change is half done and every last finished one agrees with the
      configuration. */
  lemma ExactAtRest(id: int, config: set<int>, es: seq<Event>, p: int, saved: int, next: int, count: nat)
    requires var z, done := HandleAll(Started(id, config), es), LastDone(Started(id, config), map[], es);
      z.node.role == Leader && z.pending == multiset{} && forall m :: AgreesOn(z.node, done, m)
    ensures var n := HandleAll(Started(id, config), es).node;
      Exact(n.commitIndex, HandleAppendReply(n, p, saved, next, count, AppendEntriesRet(saved, true)))
  {
    CommitLoopExact(id, config, es, p, saved, next, count);
    PeersFollowExactly(id, config, es);
    UndisturbedIsUnswayed(Matched(HandleAll(Started(id, config), es).node, p, next + count));
  }

  /** Where they do: a leader of four servers removes the only one that holds its entry.
      A reply that comes in the gap still counts the removed server, and commits the entry although
      one of the three remaining servers holds it. */
  lemma GapCountsRemoved() returns (es: seq<Event>, y: Node)
    ensures var n := HandleAll(Started(0, {0, 1, 2, 3}), es).node;
      && n.role == Leader && n.commitIndex == -1
      && y == HandleAppendReply(n, 1, 1, 0, 0, AppendEntriesRet(1, true))
      && y.commitIndex == 0 && !HeldByMajority(y, 0)
  {
    var s := Started(0, {0, 1, 2, 3});
    var z: Midway;
    es, z := OneHolder(s);
    RemovedInGap(z);
    es, z := AndThen(s, es, z, Pushes(LogEntry(1, RaftOp(RemoveServer(3), None))));
    y := HandleAppendReply(z.node, 1, 1, 0, 0, AppendEntriesRet(1, true));
    CommitsInGap(z.node);
  }

  /** The configuration is that of the remaining three, the peers still include the removed one. */
  predicate InTheGap(n: Node) {
    && n.id == 0 && n.role == Leader && n.currentTerm == 1 && n.config == {0, 1, 2} && n.peers == {1, 2, 3}
    && |n.log| == 2 && n.log[0].term == 1 && n.commitIndex == -1
    && n.matchIndex == map[1 := -1, 2 := -1, 3 := 0]
  }

  lemma RemovedInGap(z: Midway)
    requires AfterFirstEntry(z.node)
    ensures InTheGap(Handle(z, Pushes(LogEntry(1, RaftOp(RemoveServer(3), None)))).node)
  {
  }

  lemma CommitsInGap(n: Node)
    requires InTheGap(n)
    ensures var y := HandleAppendReply(n, 1, 1, 0, 0, AppendEntriesRet(1, true));
      y.commitIndex == 0 && !HeldByMajority(y, 0)
  {
    var z := Matched(n, 1, 0);
    CountedTwo(z);
    HeldByOne(z, LeaderCommit(z));
  }

  /** Replica 0 leads the four, and replica 3 has acknowledged its first entry. */
  lemma OneHolder(s: Midway) returns (es: seq<Event>, z: Midway)
    requires s == Started(0, {0, 1, 2, 3})
    ensures z == HandleAll(s, es) && AfterFirstEntry(z.node)
  {
    es, z := ElectedOfFour(s);
    es, z := AndThen(s, es, z, Pushes(LogEntry(1, RaftOp(Put(5, 5), None))));
    var before := z.node;
    es, z := AndThen(s, es, z, AppendAnswered(3, 1, 0, 1, AppendEntriesRet(1, true)));
    TooFew(before);
  }

  predicate AfterFirstEntry(n: Node) {
    && n.id == 0 && n.role == Leader && n.currentTerm == 1 && n.config == {0, 1, 2, 3} && n.peers == {1, 2, 3}
    && |n.log| == 1 && n.log[0].term == 1 && n.commitIndex == -1
    && n.matchIndex == map[1 := -1, 2 := -1, 3 := 0]
  }

  lemma ElectedOfFour(s: Midway) returns (es: seq<Event>, z: Midway)
    requires s == Started(0, {0, 1, 2, 3})
    ensures z == HandleAll(s, es)
    ensures var n := z.node;
      && n.id == 0 && n.role == Leader && n.currentTerm == 1 && n.config == {0, 1, 2, 3} && n.peers == {1, 2, 3}
      && n.log == [] && n.commitIndex == -1 && n.matchIndex == map[1 := -1, 2 := -1, 3 := -1]
  {
    var granted := VoteAnswered(1, RequestVoteRet(1, true));
    assert |{0, 1, 2, 3}| == 4;
    es, z := AndThen(s, [], s, TimedOut);
    es, z := AndThen(s, es, z, granted);
    es, z := AndThen(s, es, z, granted);
    FillUnique(map[1 := -1, 2 := -1, 3 := -1], z.node.peers, -1);
  }

  /** Two of four are no majority. */
  lemma TooFew(n: Node)
    requires n.id == 0 && n.role == Leader && n.currentTerm == 1 && n.config == {0, 1, 2, 3} && n.peers == {1, 2, 3}
    requires |n.log| == 1 && n.log[0].term == 1 && n.commitIndex == -1
    requires n.matchIndex == map[1 := -1, 2 := -1, 3 := -1]
    ensures AfterFirstEntry(HandleAppendReply(n, 3, 1, 0, 1, AppendEntriesRet(1, true)))
  {
    var z := Matched(n, 3, 1);
    assert MatchedPeers(z, 0) == {3};
    assert |z.config| == 4;
    assert CommitTarget(z, 1) == CommitTarget(z, 0) == -1;
  }

  /** In the gap two of three are counted for the first entry, and one for the second. */
  lemma CountedTwo(z: Node)
    requires z.id == 0 && z.currentTerm == 1 && z.config == {0, 1, 2} && z.peers == {1, 2, 3} && z.commitIndex == -1
    requires |z.log| == 2 && z.log[0].term == 1 && z.matchIndex == map[1 := -1, 2 := -1, 3 := 0]
    ensures LeaderCommit(z).commitIndex == 0
  {
    assert MatchedPeers(z, 0) == {3} && MatchedPeers(z, 1) == {};
    assert |z.config| == 3;
    assert CommitTarget(z, 2) == CommitTarget(z, 1) == 0;
  }

  lemma HeldByOne(z: Node, y: Node)
    requires z.id == 0 && z.config == {0, 1, 2} && z.matchIndex == map[1 := -1, 2 := -1, 3 := 0]
    requires y.id == z.id && y.config == z.config && y.matchIndex == z.matchIndex
    ensures !HeldByMajority(y, 0)
  {
    assert Holders(y, 0) == {0};
    assert |y.config| == 3;
  }

  // Adjacent configurations

  /** The configuration after a single change. */
  function Changed(config: set<int>, add: bool, id: int): set<int> {
    if add then config + {id} else config - {id}
  }

  /** The two membership operations make exactly such a change, in their first half. */
  lemma ChangeIsSingle(n: Node, e: LogEntry)
    ensures var config := ConfigHalf(n, e).config;
      && config == ConfigAfter(n.config, e.op.command)
      && (e.op.command.AddServer? ==> config == Changed(n.config, true, e.op.command.info.id))
      && (e.op.command.RemoveServer? ==> config == Changed(n.config, false, e.op.command.serverId))
      && (e.op.IsData() ==> config == n.config)
  {
  }

  lemma ChangedSize(config: set<int>, add: bool, id: int)
    ensures var c, u := Changed(config, add, id), config + Changed(config, add, id);
      && (|u| == |config| || |u| == |c|)
      && |u| <= |config| + 1 && |u| <= |c| + 1
  {
    var c := Changed(config, add, id);
    if add {
      assert config + c == c;
    } else {
      assert config + c == config;
      assert id in config ==> c + {id} == config;
    }
  }

  /** Any majority before and any majority after a single change share a member. */
  lemma AdjacentMajoritiesMeet(config: set<int>, add: bool, id: int, a: set<int>, b: set<int>) returns (v: int)
    requires Majority(config, a) && Majority(Changed(config, add, id), b)
    ensures v in a && v in b
  {
    ChangedSize(config, add, id);
    SubsetSize(a + b, config + Changed(config, add, id));
    assert |a + b| == |a| + |b| - |a * b|;
    if forall x :: x in a ==> x !in b {
      assert false;
    }
    v :| v in a && v in b;
  }

  /** Two changes at once are too many: a majority of three and a majority of five can be apart. */
  lemma TwoChangesCanDivide() returns (config: set<int>, a: set<int>, b: set<int>)
    ensures Majority(config, a)
    ensures Majority(Changed(Changed(config, true, 4), true, 5), b)
    ensures a !! b
  {
    config, a, b := {1, 2, 3}, {1, 2}, {3, 4, 5};
    assert Changed(Changed(config, true, 4), true, 5) == {1, 2, 3, 4, 5};
    assert |config| == 3 && |a| == 2 && |b| == 3 && |{1, 2, 3, 4, 5}| == 5;
  }
}
