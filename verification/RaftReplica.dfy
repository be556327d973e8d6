/** The replica itself: the sections run under the state lock, updating the state in place and
    storing what must survive a crash. Each is proved against its function in RaftHandlers, and
    each leaves the disk in step with memory. */
module RaftReplica {
  import opened RaftTypes
  import opened RaftHandlers
  import opened HandlerFacts
  import opened Int32Bytes
  import opened OperationBytes
  import opened PersistentLog
  import opened LogRecord
  import opened RaftCluster
  import PersistentStore
  import StepReplicate

  /** The files decode to the state's term, vote and log, promises removed. */
  ghost predicate DiskHolds(logFile: seq<int>, base: string, files: PersistentStore.Files, n: Node) {
    && Fitting(n.log) && logFile == EncodeAll(LogCodec(), Plain(n.log))
    && PersistentStore.LoadInt(files, PersistentStore.Filename(base, "CurrentTerm")) == Some(n.currentTerm)
    && PersistentStore.LoadInt(files, PersistentStore.Filename(base, "VotedFor")) == Some(n.votedFor)
    && IsInt32(n.currentTerm) && IsInt32(n.votedFor)
  }

  class Replica {
    const id: int
    const logs: PersistentVector<LogEntry>
    const store: PersistentStore.Store

    var currentTerm: int
    var votedFor: int
    var role: Role
    var commitIndex: int
    var lastApplied: int
    var lastKnownLeader: int
    var config: set<int>
    var lastConfigChange: int
    var peers: set<int>
    var nextIndex: map<int, int>
    var matchIndex: map<int, int>
    var votesReceived: int
    var raftOut: seq<RaftOp>
    ghost var released: seq<RaftOp>  // everything ever pushed to raftOut

    ghost function View(): Node
      reads this, logs
    {
      Node(id, currentTerm, votedFor, logs.items, role, commitIndex, lastApplied, lastKnownLeader,
           config, lastConfigChange, peers, nextIndex, matchIndex, votesReceived, released)
    }

    /** Every number is one that the code's types can hold. */
    ghost predicate Valid()
      reads this
    {
      commitIndex >= -1 && lastApplied >= -1 && IsInt32(id) && IsInt32(currentTerm) && IsInt32(votedFor)
    }

    /** The log vector is consistent with its file, and promises are removed on the way there. */
    ghost predicate LogValid()
      reads logs
    {
      logs.Valid() && logs.codec == LogCodec() && forall e :: logs.preproc(e) == e.WithoutPromise()
    }

    /** The term and the vote on disk are those in memory. */
    ghost predicate VoteOnDisk()
      reads this`currentTerm, this`votedFor, store
    {
      store.Value("CurrentTerm") == Some(currentTerm) && store.Value("VotedFor") == Some(votedFor)
    }

    /** Every entry is on disk. */
    ghost predicate LogOnDisk()
      reads logs
    {
      logs.persistedItems == |logs.items|
    }

    /** The state in which entries can be appended: term and vote are on disk, the log may not be. */
    ghost predicate Writable()
      reads this, logs, store
    {
      Valid() && LogValid() && VoteOnDisk()
    }

    /** The state at a lock release with no membership change under way: everything that must survive a
        crash is on disk. */
    ghost predicate Settled()
      reads this, logs, store
    {
      Writable() && LogOnDisk()
    }

    /** What the executor queue got since `before`, in order. */
    twostate predicate Queued()
      reads this
    {
      old(released) <= released && raftOut == old(raftOut) + released[|old(released)|..]
    }

    // Start and restart

    /** A process before it has loaded anything. */
    constructor (id: int, logs: PersistentVector<LogEntry>, store: PersistentStore.Store, config: set<int>)
      ensures this.id == id && this.logs == logs && this.store == store && raftOut == []
      ensures View() == Node(id, 0, -1, logs.items, Follower, -1, -1, 0, config, -1, {}, map[], map[], 0, [])
    {
      this.id, this.logs, this.store := id, logs, store;
      currentTerm, votedFor := 0, -1;
      role, commitIndex, lastApplied, lastKnownLeader, votesReceived := Follower, -1, -1, 0, 0;
      this.config, lastConfigChange := config, -1;
      peers, nextIndex, matchIndex := {}, map[], map[];
      raftOut, released := [], [];
    }

    /** First start, with an empty store. */
    static method FirstStart(id: int, base: string, config: set<int>) returns (r: Replica)
      requires IsInt32(id)
      ensures fresh(r) && fresh(r.logs) && fresh(r.store)
      ensures r.Settled() && r.View() == InitNode(id, config) && r.raftOut == []
    {
      LogCodecIsGood();
      var logs := new PersistentVector<LogEntry>(
        LogCodec(), (e: LogEntry) => e.WithoutPromise(), BlankEntry(), [], false);
      LoadedLog(logs, []);
      var store := new PersistentStore.Store(base, map[]);
      r := new Replica(id, logs, store, config);
      r.Persist();
      r.ConnectPeers();
    }

    /** Restart over the files of a stopped process whose state was `was`: no vote, term or
        entry is lost. */
    static method Restarted(id: int, config: set<int>, logFile: seq<int>,
                            base: string, files: PersistentStore.Files, ghost was: Node) returns (r: Replica)
      requires DiskHolds(logFile, base, files, was)
      requires id == was.id && config == was.config && IsInt32(id)
      ensures fresh(r) && fresh(r.logs) && fresh(r.store)
      ensures r.Settled() && r.View() == Restart(was) && r.raftOut == []
    {
      var logs := OpenLog(logFile, was.log);
      var store := new PersistentStore.Store(base, files);
      r := new Replica(id, logs, store, config);
      r.Boot(was);
    }

    /** The vector over the file that holds the log `was`. */
    static method OpenLog(logFile: seq<int>, ghost was: seq<LogEntry>) returns (logs: PersistentVector<LogEntry>)
      requires Fitting(was) && logFile == EncodeAll(LogCodec(), Plain(was))
      ensures fresh(logs) && logs.Valid() && logs.codec == LogCodec() &&
        (forall e :: logs.preproc(e) == e.WithoutPromise())
      ensures logs.items == Plain(was) && logs.persistedItems == |logs.items|
    {
      LogCodecIsGood();
      FittingIsStorable(was);
      ReadBackAll(LogCodec(), Plain(was));
      logs := new PersistentVector<LogEntry>(
        LogCodec(), (e: LogEntry) => e.WithoutPromise(), BlankEntry(), logFile, true);
      LoadedLog(logs, was);
    }

    /** Loads term and vote, stores them again with the configuration, and connects to the peers. */
    method Boot(ghost was: Node)
      requires View() == Node(was.id, 0, -1, Plain(was.log), Follower, -1, -1, 0, was.config, -1, {}, map[],
        map[], 0, [])
      requires Valid() && IsInt32(was.currentTerm) && IsInt32(was.votedFor)
      requires store.Value("CurrentTerm") == Some(was.currentTerm) && store.Value("VotedFor") == Some(was.votedFor)
      modifies this`votedFor, this`currentTerm, this`nextIndex, this`matchIndex, this`peers, store
      ensures Valid() && VoteOnDisk() && View() == Restart(was)
    {
      LoadVote(was.currentTerm, was.votedFor);
      Persist();
      ConnectPeers();
    }

    method LoadVote(ghost term: int, ghost vote: int)
      requires store.Value("CurrentTerm") == Some(term) && store.Value("VotedFor") == Some(vote)
      modifies this`votedFor, this`currentTerm
      ensures currentTerm == term && votedFor == vote
    {
      votedFor := store.Load("VotedFor", -1);
      currentTerm := store.Load("CurrentTerm", 0);
    }

    /** At every lock release with no membership change under way the files hold the term, the vote and the
        log, promises removed. */
    lemma DiskInStep()
      requires Settled()
      ensures DiskHolds(logs.file, store.base, store.files, View())
      ensures IsBytes(logs.file) && Records(LogCodec(), logs.file) == Plain(logs.items)
    {
      StoredIsPlain();
      FileIsLog();
      ReadBackAll(LogCodec(), Plain(logs.items));
      EncodedBytes(LogCodec(), Plain(logs.items));
    }

    /** What is stored of the log is the log without promises, and every field of it fits. */
    lemma StoredIsPlain()
      requires LogValid()
      ensures logs.Stored() == Plain(logs.items) && AllStorable(LogCodec(), Plain(logs.items)) && Fitting(logs.items)
    {
      assert logs.Stored() == Plain(logs.items);
      forall i | 0 <= i < |logs.items| ensures IsInt32(logs.items[i].term) && Fits32(logs.items[i].op.command) {
        assert LogCodec().storable(Plain(logs.items)[i]);
      }
    }

    /** One RPC client per other member of the configuration. */
    method ConnectPeers()
      requires Valid() && VoteOnDisk() && peers == {} && nextIndex == map[] && matchIndex == map[]
      modifies this`nextIndex, this`matchIndex, this`peers, store
      ensures Valid() && VoteOnDisk() && peers == config - {id}
      ensures nextIndex == Fill(config - {id}, 0) && matchIndex == Fill(config - {id}, -1)
    {
      var rest := config - {id};
      while rest != {}
        invariant rest <= config - {id} && Valid() && VoteOnDisk()
        invariant peers == config - {id} - rest
        invariant IsFill(nextIndex, peers, 0) && IsFill(matchIndex, peers, -1)
        decreases rest
      {
        Inhabited(rest);
        var p :| p in rest;
        AddPeer(p);
        rest := rest - {p};
      }
      FillUnique(nextIndex, peers, 0);
      FillUnique(matchIndex, peers, -1);
    }

    // Persistence of term and vote

    method Persist()
      requires Valid()
      modifies store
      ensures VoteOnDisk()
    {
      store.Put("VotedFor", votedFor);
      store.Put("CurrentTerm", currentTerm);
    }

    // Role changes

    method DoBecomeFollower(term: int)
      requires Valid() && IsInt32(term)
      modifies this`currentTerm, this`role, this`votedFor, store
      ensures Valid() && VoteOnDisk() && View() == BecomeFollower(old(View()), term)
    {
      currentTerm := term;
      role := Follower;
      votedFor := -1;
      Persist();
    }

    method DoBecomeCandidate(term: int)
      requires Valid() && IsInt32(term)
      modifies this`currentTerm, this`role, this`votedFor, store
      ensures Valid() && VoteOnDisk() && View() == BecomeCandidate(old(View()), term)
    {
      currentTerm := term;
      role := Candidate;
      votedFor := id;
      Persist();
    }

    method DoBecomeLeader()
      requires Valid()
      modifies this`role, this`votedFor, this`lastKnownLeader, this`nextIndex, this`matchIndex, store
      ensures Valid() && VoteOnDisk() && View() == BecomeLeader(old(View()))
    {
      TakeLead();
      Persist();
    }

    method TakeLead()
      modifies this`role, this`votedFor, this`lastKnownLeader, this`nextIndex, this`matchIndex
      ensures View() == BecomeLeader(old(View()))
    {
      role := Leader;
      votedFor := -1;
      lastKnownLeader := id;
      ResetIndices();
    }

    /** Rebuilds the leader's index maps from the peer set. */
    method ResetIndices()
      modifies this`nextIndex, this`matchIndex
      ensures nextIndex == Fill(peers, |logs.items|) && matchIndex == Fill(peers, -1)
    {
      nextIndex := map[];
      matchIndex := map[];
      var rest := peers;
      while rest != {}
        invariant rest <= peers
        invariant IsFill(nextIndex, peers - rest, |logs.items|) && IsFill(matchIndex, peers - rest, -1)
        decreases rest
      {
        Inhabited(rest);
        var p :| p in rest;
        nextIndex := nextIndex[p := |logs.items|];
        matchIndex := matchIndex[p := -1];
        assert peers - (rest - {p}) == peers - rest + {p};
        rest := rest - {p};
      }
      assert peers - {} == peers;
      FillUnique(nextIndex, peers, |logs.items|);
      FillUnique(matchIndex, peers, -1);
    }

    // Elections

    method StartElection() returns (savedTerm: int)
      requires Valid() && IsInt32(currentTerm + 1)
      modifies this`currentTerm, this`role, this`votedFor, this`votesReceived, store
      ensures Valid() && VoteOnDisk() && View() == RaftHandlers.StartElection(old(View()))
      ensures savedTerm == old(currentTerm) + 1
    {
      DoBecomeCandidate(currentTerm + 1);
      savedTerm := currentTerm;
      votesReceived := 1;
    }

    method RequestVote(args: RequestVoteParams) returns (ret: RequestVoteRet)
      requires Valid() && VoteOnDisk() && IsInt32(args.term) && IsInt32(args.candidateId)
      modifies this`currentTerm, this`role, this`votedFor, store
      ensures Valid() && VoteOnDisk() && (View(), ret) == HandleRequestVote(old(View()), args)
    {
      if args.candidateId !in peers {
        return RequestVoteRet(currentTerm, false);
      }
      var lastLogIndex := |logs.items| - 1;
      var lastLogTerm := -1;
      if lastLogIndex >= 0 {
        lastLogTerm := logs.items[lastLogIndex].term;
      }
      EnterTerm(args.term);
      var granted := false;
      if args.term == currentTerm && (votedFor == -1 || votedFor == args.candidateId) &&
         (args.lastLogTerm > lastLogTerm || (args.lastLogTerm == lastLogTerm && args.lastLogIndex >= lastLogIndex))
      {
        granted := true;
        votedFor := args.candidateId;
      }
      Persist();
      ret := RequestVoteRet(currentTerm, granted);
    }

    method EnterTerm(term: int)
      requires Valid() && VoteOnDisk() && IsInt32(term)
      modifies this`currentTerm, this`role, this`votedFor, store
      ensures Valid() && VoteOnDisk() && View() == InTermOf(old(View()), term)
    {
      if term > currentTerm {
        DoBecomeFollower(term);
      }
    }

    method VoteReply(savedTerm: int, reply: RequestVoteRet)
      requires Valid() && VoteOnDisk() && IsInt32(reply.term)
      modifies this`currentTerm, this`role, this`votedFor, this`votesReceived, this`lastKnownLeader,
        this`nextIndex, this`matchIndex, store
      ensures Valid() && VoteOnDisk() && View() == HandleVoteReply(old(View()), savedTerm, reply)
    {
      if role != Candidate {
        return;
      }
      if reply.term > savedTerm {
        DoBecomeFollower(reply.term);
      } else if reply.term == savedTerm && reply.voteGranted {
        votesReceived := votesReceived + 1;
        if votesReceived * 2 > |config| {
          DoBecomeLeader();
        }
      }
    }

    // Membership

    method AddPeer(peerId: int)
      requires Valid()
      modifies this`nextIndex, this`matchIndex, this`peers, store
      ensures VoteOnDisk() && View() == Connect(old(View()), peerId)
    {
      nextIndex := nextIndex[peerId := 0];
      matchIndex := matchIndex[peerId := -1];
      peers := peers + {peerId};
      Persist();
    }

    method RemovePeer(peerId: int)
      modifies this`nextIndex, this`matchIndex, this`peers
      ensures View() == Disconnect(old(View()), peerId)
    {
      nextIndex := nextIndex - {peerId};
      matchIndex := matchIndex - {peerId};
      peers := peers - {peerId};
    }

    /** The first half of adding a server; the second is AddPeer. */
    method AddToConfig(serverId: int)
      requires Valid()
      modifies this`lastConfigChange, this`config, store
      ensures VoteOnDisk() && View() == EnterConfig(old(View()), serverId)
    {
      lastConfigChange := |logs.items| - 1;
      config := config + {serverId};
      Persist();
    }

    /** The first half of removing a server; the second is RemovePeer. */
    method RemoveFromConfig(serverId: int)
      requires Valid()
      modifies this`lastConfigChange, this`config, store
      ensures VoteOnDisk() && View() == LeaveConfig(old(View()), serverId)
    {
      lastConfigChange := |logs.items| - 1;
      config := config - {serverId};
      Persist();
    }

    /** Both halves, when no other section runs in between. */
    method DoApplyAddServer(serverId: int)
      requires Valid()
      modifies this`lastConfigChange, this`config, this`nextIndex, this`matchIndex, this`peers, store
      ensures VoteOnDisk() && View() == ApplyAddServer(old(View()), serverId)
    {
      AddToConfig(serverId);
      if id != serverId {
        AddPeer(serverId);
      }
    }

    method DoApplyRemoveServer(serverId: int)
      requires Valid()
      modifies this`lastConfigChange, this`config, this`nextIndex, this`matchIndex, this`peers, store
      ensures VoteOnDisk() && View() == ApplyRemoveServer(old(View()), serverId)
    {
      RemoveFromConfig(serverId);
      if id != serverId {
        RemovePeer(serverId);
      }
    }

    /** The part of an appending section up to the lock release inside a membership change: the entry is in
        memory and in the configuration, but not on disk yet. */
    method PushConfig(e: LogEntry)
      requires Writable() && IsInt32(e.term) && Fits32(e.op.command)
      modifies this`lastConfigChange, this`config, logs`items, store
      ensures Writable() && View() == ConfigHalf(old(View()), e) && !LogOnDisk()
    {
      logs.PushBack(e);
      match e.op.command
      case AddServer(info) => AddToConfig(info.id);
      case RemoveServer(serverId) => RemoveFromConfig(serverId);
      case _ =>
    }

    /** The part after it. */
    method PushPeer(c: Command)
      requires Writable()
      modifies this`nextIndex, this`matchIndex, this`peers, store
      ensures Writable() && View() == PeersAfter(old(View()), c)
    {
      match c
      case AddServer(info) => if info.id != id { AddPeer(info.id); }
      case RemoveServer(serverId) => if serverId != id { RemovePeer(serverId); }
      case _ =>
    }

    /** Appends one entry and applies a membership change, with nothing between the parts. */
    method PushEntry(e: LogEntry)
      requires Writable() && IsInt32(e.term) && Fits32(e.op.command)
      modifies this`lastConfigChange, this`config, this`nextIndex, this`matchIndex, this`peers, logs`items, store
      ensures Writable() && View() == AppendOne(old(View()), e)
    {
      HalvesMakeOne(View(), e);
      PushConfig(e);
      PushPeer(e.op.command);
    }

    /** At any lock release, inside a membership change too, a restart would read the term, the vote and the
        entries stored so far; that is the whole log exactly if nothing pushed waits to be stored. */
    lemma DiskAtRelease()
      requires Writable()
      ensures store.Value("CurrentTerm") == Some(currentTerm) && store.Value("VotedFor") == Some(votedFor)
      ensures logs.persistedItems <= |logs.items|
      ensures Records(LogCodec(), logs.file) == Plain(logs.items)[..logs.persistedItems]
      ensures Records(LogCodec(), logs.file) == Plain(logs.items) <==> LogOnDisk()
    {
      StoredIsPlain();
      assert AllStorable(LogCodec(), Plain(logs.items)[..logs.persistedItems]);
      ReadBackAll(LogCodec(), Plain(logs.items)[..logs.persistedItems]);
    }

    method PushEntries(es: seq<LogEntry>)
      requires Writable() && Fitting(es)
      modifies this`lastConfigChange, this`config, this`nextIndex, this`matchIndex, this`peers, logs`items, store
      ensures Writable() && View() == AppendAll(old(View()), es)
    {
      for i := 0 to |es|
        invariant Writable() && View() == AppendAll(old(View()), es[..i])
      {
        AppendAllSnoc(old(View()), es[..i], es[i]);
        assert es[..i + 1] == es[..i] + [es[i]];
        PushEntry(es[i]);
      }
      assert es[..|es|] == es;
    }

    /** Appends entries to a fully stored log and stores them. */
    method StoreEntries(es: seq<LogEntry>)
      requires Settled() && Fitting(es)
      modifies this`lastConfigChange, this`config, this`nextIndex, this`matchIndex, this`peers, logs, store
      ensures Settled() && View() == AppendAll(old(View()), es) && logs.items == old(logs.items) + es
      ensures GrewBy(old(logs.file), logs.file, old(logs.contents), logs.contents)
    {
      PushEntries(es);
      AppendAllFrame(old(View()), es);
      logs.Persist();
    }

    // Replication, leader side

    /** The leader's append section: the operations taken in become entries of its term. */
    method AppendInputs(raftIn: seq<RaftOp>) returns (savedTerm: int)
      requires Settled() && FittingOps(raftIn)
      modifies this`lastConfigChange, this`config, this`nextIndex, this`matchIndex, this`peers, logs, store
      ensures Settled() && View() == LeaderAppend(old(View()), raftIn) && savedTerm == old(currentTerm)
    {
      savedTerm := currentTerm;
      StoreEntries(Stamp(currentTerm, raftIn));
    }

    method BuildRequest(peer: int, savedTerm: int) returns (args: AppendEntriesParams)
      requires 0 <= Lookup(nextIndex, peer) <= |logs.items|
      ensures args == BuildAppend(View(), peer, savedTerm)
    {
      var next := if peer in nextIndex then nextIndex[peer] else 0;
      var prevLogTerm := -1;
      if next - 1 >= 0 {
        prevLogTerm := logs.items[next - 1].term;
      }
      var entries: seq<AppendLogEntry> := [];
      for i := next to |logs.items|
        invariant entries == Shipped(logs.items, next)[..i - next]
      {
        entries := entries + [AppendLogEntry(logs.items[i].term, i, logs.items[i].op.WithoutPromise())];
      }
      args := AppendEntriesParams(savedTerm, id, next - 1, prevLogTerm, entries, commitIndex);
    }

    /** How many members hold index `i`, the leader included if it is one. */
    method CountMatches(i: int) returns (count: nat)
      ensures count == MatchCount(View(), i)
    {
      count := if id in config then 1 else 0;
      var rest := peers;
      ghost var seen: set<int>, own := {}, count;
      while rest != {}
        invariant seen + rest == peers && seen !! rest
        invariant count == own + |Reaching(matchIndex, seen, i)|
        decreases rest
      {
        Inhabited(rest);
        var p :| p in rest;
        ReachingOneMore(matchIndex, seen, p, i);
        if (if p in matchIndex then matchIndex[p] else 0) >= i {
          count := count + 1;
        }
        rest, seen := rest - {p}, seen + {p};
      }
      assert seen == peers;
      assert Reaching(matchIndex, peers, i) == MatchedPeers(View(), i);
    }

    /** The commit loop. */
    method AdvanceCommit()
      requires Valid()
      modifies this`commitIndex
      ensures Valid() && View() == old(View()).(commitIndex := CommitTarget(old(View()), |logs.items|))
    {
      ghost var v := View();
      var i := commitIndex + 1;
      while i < |logs.items|
        invariant v.commitIndex + 1 <= i
        invariant i <= |logs.items| || i == v.commitIndex + 1
        invariant commitIndex == CommitTarget(v, i) && -1 <= commitIndex
        invariant View() == v.(commitIndex := commitIndex)
      {
        if logs.items[i].term == currentTerm {
          var matchCount := CountMatches(i);
          assert matchCount == MatchCount(v, i);
          if matchCount * 2 > |config| {
            commitIndex := i;
          }
        }
        i := i + 1;
      }
    }

    /** Queues the operations after the last applied index up to `c` for the executor. */
    method Release(c: int)
      requires Valid() && -1 <= c < |logs.items| && commitIndex == c
      modifies this`raftOut, this`released, this`lastApplied
      ensures Valid() && View() == ReleaseUpTo(old(View()), c) && Queued()
    {
      PushReleased(lastApplied + 1, c);
      lastApplied := c;
    }

    method PushReleased(first: nat, c: int)
      requires -1 <= c < |logs.items|
      modifies this`raftOut, this`released
      ensures released == old(released) + OpsBetween(logs.items, first, c + 1)
      ensures raftOut == old(raftOut) + OpsBetween(logs.items, first, c + 1)
    {
      var i := first;
      while i <= c
        invariant first <= i && (i <= c + 1 || i == first)
        invariant released == old(released) + OpsBetween(logs.items, first, i)
        invariant raftOut == old(raftOut) + OpsBetween(logs.items, first, i)
      {
        OpsSnoc(logs.items, first, i);
        raftOut := raftOut + [logs.items[i].op];
        released := released + [logs.items[i].op];
        i := i + 1;
      }
      assert OpsBetween(logs.items, first, i) == OpsBetween(logs.items, first, c + 1);
    }

    method CommitAndRelease()
      requires Valid()
      modifies this`commitIndex, this`raftOut, this`released, this`lastApplied
      ensures Valid() && Queued() && View() == LeaderCommit(old(View()))
    {
      var savedCommitIndex := commitIndex;
      StepReplicate.CommitTargetGreatest(View(), |logs.items|);
      AdvanceCommit();
      if commitIndex != savedCommitIndex {
        Release(commitIndex);
      }
    }

    method NoteMatch(peer: int, next: int)
      modifies this`nextIndex, this`matchIndex
      ensures View() == Matched(old(View()), peer, next)
    {
      nextIndex := nextIndex[peer := next];
      matchIndex := matchIndex[peer := next - 1];
    }

    method AppendReply(peer: int, savedTerm: int, next: int, count: nat, reply: AppendEntriesRet)
      requires Valid() && VoteOnDisk() && IsInt32(reply.term)
      modifies this`currentTerm, this`role, this`votedFor, this`nextIndex, this`matchIndex, this`commitIndex,
        this`raftOut, this`released, this`lastApplied, store
      ensures Valid() && VoteOnDisk() && Queued()
      ensures View() == HandleAppendReply(old(View()), peer, savedTerm, next, count, reply)
    {
      if reply.term > savedTerm {
        DoBecomeFollower(reply.term);
        return;
      }
      if role == Leader && savedTerm == reply.term {
        if reply.success {
          NoteMatch(peer, next + count);
          CommitAndRelease();
        } else {
          nextIndex := nextIndex[peer := next - 1];
        }
      }
    }

    // Replication, follower side

    /** The reconcile loop: how many entries are already in the log. */
    method FindNew(at: nat, es: seq<LogEntry>) returns (k: nat)
      requires at <= |logs.items|
      ensures k == MatchLen(logs.items, at, es)
    {
      var logInsertIndex := at;
      k := 0;
      while logInsertIndex < |logs.items| && k < |es| && logs.items[logInsertIndex].term == es[k].term
        invariant logInsertIndex == at + k && k <= |es| && at + k <= |logs.items|
        invariant MatchLen(logs.items, at, es) == k + MatchLen(logs.items, at + k, es[k..])
        decreases |es| - k
      {
        assert es[k..][1..] == es[k + 1..];
        logInsertIndex := logInsertIndex + 1;
        k := k + 1;
      }
    }

    /** The loop that aborts what the entries from the `k`-th on will replace, if there are any. */
    method AbortFrom(at: nat, es: seq<LogEntry>, k: nat) returns (aborted: seq<RaftOp>)
      requires at <= |logs.items| && k == MatchLen(logs.items, at, es)
      ensures aborted == CutBy(logs.items, at, es)
    {
      aborted := [];
      MatchLenBounds(logs.items, at, es);
      if k < |es| {
        for i := at + k to |logs.items|
          invariant aborted == OpsBetween(logs.items, at + k, i)
        {
          aborted := aborted + [logs.items[i].op];
        }
      }
    }

    /** Truncates at the first difference and appends the rest, if anything is new. The operations
        cut off are aborted. */
    method DoReconcile(at: nat, es: seq<LogEntry>) returns (aborted: seq<RaftOp>)
      requires Settled() && at <= |logs.items| && Fitting(es)
      modifies this`lastConfigChange, this`config, this`nextIndex, this`matchIndex, this`peers, logs, store
      ensures Settled() && View() == Reconcile(old(View()), at, es)
      ensures aborted == CutBy(old(logs.items), at, es)
    {
      var k := FindNew(at, es);
      aborted := AbortFrom(at, es, k);
      ReconcileIs(View(), at, es, k);
      if k < |es| {
        FittingDrop(es, k);
        Overwrite(at + k, es[k..]);
      }
    }

    /** Cuts the log at `from` and appends `es` there. Whatever the log file holds on the way is
        covered by `CrashPrefixSafety`. */
    method Overwrite(from: nat, es: seq<LogEntry>)
      requires Settled() && from <= |logs.items| && Fitting(es)
      modifies this`lastConfigChange, this`config, this`nextIndex, this`matchIndex, this`peers, logs, store
      ensures Settled()
      ensures View() == AppendAll(Cut(old(View()), from), es)
      ensures CoveredRewrite(old(logs.items), from, es, old(logs.contents), logs.contents)
    {
      CutLog(from);
      ghost var cut, steps := logs.file, logs.contents;
      StoreEntries(es);
      FileIsLog();
      RewriteCovered(old(logs.items), from, es, cut, logs.file, old(logs.contents), steps, logs.contents);
    }

    method CutLog(from: nat)
      requires Settled() && from <= |logs.items|
      modifies logs
      ensures Settled() && View() == Cut(old(View()), from)
      ensures logs.file == EncodeAll(LogCodec(), Plain(old(logs.items)[..from])) &&
        logs.contents == old(logs.contents) + [logs.file]
    {
      logs.Resize(from);
      FileIsLog();
    }

    lemma FileIsLog()
      requires Settled()
      ensures logs.file == EncodeAll(LogCodec(), Plain(logs.items))
    {
      StoredIsPlain();
      assert Plain(logs.items)[..|logs.items|] == Plain(logs.items);
    }

    method CommitFromLeader(leaderCommit: int)
      requires Valid()
      modifies this`commitIndex, this`raftOut, this`released, this`lastApplied
      ensures Valid() && Queued() && View() == FollowerCommit(old(View()), leaderCommit)
    {
      if leaderCommit > commitIndex {
        commitIndex := Min(leaderCommit, |logs.items| - 1);
        Release(commitIndex);
      }
    }

    /** What an accepted request does: reconcile the log, then commit. */
    method Accept(args: AppendEntriesParams) returns (aborted: seq<RaftOp>)
      requires Settled() && -1 <= args.prevLogIndex < |logs.items|
      requires Fitting(Payload(args.entries))
      modifies this`lastConfigChange, this`config, this`nextIndex, this`matchIndex, this`peers,
               this`commitIndex, this`raftOut, this`released, this`lastApplied, logs, store
      ensures Settled() && Queued()
      ensures View() == FollowerCommit(Reconcile(old(View()), args.prevLogIndex + 1, Payload(args.entries)),
        args.leaderCommit)
      ensures aborted == CutBy(old(logs.items), args.prevLogIndex + 1, Payload(args.entries))
    {
      aborted := DoReconcile(args.prevLogIndex + 1, Payload(args.entries));
      label reconciled:
      CommitFromLeader(args.leaderCommit);
      StillSettled@reconciled();
    }

    /** What is on disk stays in step while log, term and vote do not change. */
    twostate lemma StillSettled()
      requires old(Settled()) && Valid() && unchanged(logs) && unchanged(store)
      requires currentTerm == old(currentTerm) && votedFor == old(votedFor)
      ensures Settled()
    {
    }

    /** Becomes a follower in the request's term. */
    method Join(args: AppendEntriesParams)
      requires Valid() && VoteOnDisk() && IsInt32(args.term) && args.term >= currentTerm
      modifies this`lastKnownLeader, this`currentTerm, this`role, this`votedFor, store
      ensures Valid() && VoteOnDisk() && View() == Joined(old(View()), args) && currentTerm == args.term
    {
      lastKnownLeader := args.leaderId;
      if args.term > currentTerm {
        DoBecomeFollower(args.term);
      }
      if role != Follower {
        DoBecomeFollower(args.term);
      }
    }

    /** The replication handler; `aborted` are the operations whose clients it tells of the failure. */
    method AppendEntries(args: AppendEntriesParams) returns (reply: AppendEntriesRet, aborted: seq<RaftOp>)
      requires Settled() && args.prevLogIndex >= -1
      requires IsInt32(args.term) && Fitting(Payload(args.entries))
      modifies this, logs, store
      ensures Settled() && Queued()
      ensures (View(), reply) == HandleAppendEntries(old(View()), args)
      ensures aborted == CutOff(old(View()), args)
    {
      if args.term < currentTerm {
        lastKnownLeader := args.leaderId;
        return AppendEntriesRet(currentTerm, false), [];
      }
      reply, aborted := FollowLeader(args);
    }

    /** The rest of the handler, for a request that is not stale. */
    method FollowLeader(args: AppendEntriesParams) returns (reply: AppendEntriesRet, aborted: seq<RaftOp>)
      requires Settled() && args.prevLogIndex >= -1 && args.term >= currentTerm
      requires IsInt32(args.term) && Fitting(Payload(args.entries))
      modifies this, logs, store
      ensures Settled() && Queued()
      ensures (View(), reply) == HandleAppendEntries(old(View()), args) && aborted == CutOff(old(View()), args)
    {
      HandledAs(View(), args);
      CutsWhenMatching(View(), args);
      Join(args);
      var success;
      success, aborted := TryAccept(args);
      reply := AppendEntriesRet(currentTerm, success);
    }

    /** The consistency check, and acceptance if it holds. */
    method TryAccept(args: AppendEntriesParams) returns (success: bool, aborted: seq<RaftOp>)
      requires Settled() && args.prevLogIndex >= -1 && Fitting(Payload(args.entries))
      modifies this`lastConfigChange, this`config, this`nextIndex, this`matchIndex, this`peers,
               this`commitIndex, this`raftOut, this`released, this`lastApplied, logs, store
      ensures Settled() && Queued()
      ensures success == PrevMatches(old(logs.items), args)
      ensures View() == if success
        then FollowerCommit(Reconcile(old(View()), args.prevLogIndex + 1, Payload(args.entries)), args.leaderCommit)
        else old(View())
      ensures aborted == if success
        then CutBy(old(logs.items), args.prevLogIndex + 1, Payload(args.entries)) else []
    {
      success, aborted := false, [];
      if args.prevLogIndex == -1 ||
         (args.prevLogIndex < |logs.items| && args.prevLogTerm == logs.items[args.prevLogIndex].term)
      {
        success := true;
        aborted := Accept(args);
      }
    }
  }

  lemma CutsWhenMatching(x: Node, a: AppendEntriesParams)
    requires a.term >= x.currentTerm && a.prevLogIndex >= -1
    ensures CutOff(x, a) ==
      if PrevMatches(x.log, a) then CutBy(x.log, a.prevLogIndex + 1, Payload(a.entries)) else []
  {
  }

  /** A vector that read back a stored log is consistent with its file. */
  lemma LoadedLog(logs: PersistentVector<LogEntry>, was: seq<LogEntry>)
    requires logs.codec == LogCodec() && (forall e :: logs.preproc(e) == e.WithoutPromise()) && Fitting(was)
    requires logs.items == Plain(was) && logs.persistedItems == |logs.items|
    requires logs.file == EncodeAll(LogCodec(), Plain(was))
    ensures logs.Valid()
  {
    LogCodecIsGood();
    FittingIsStorable(was);
    PlainTwice(was);
    assert logs.Stored() == Plain(was) && logs.Stored()[..|logs.items|] == Plain(was);
  }

  /** Every content of the log file since `before` is covered by `CrashPrefixSafety`. */
  ghost predicate CoveredRewrite(was: seq<LogEntry>, from: nat, es: seq<LogEntry>, before: seq<seq<int>>,
      contents: seq<seq<int>>)
    requires from <= |was|
  {
    && before <= contents
    && (forall i {:trigger contents[i]} :: |before| <= i < |contents| ==>
          DuringRewrite(LogCodec(), Plain(was), from, Plain(es), contents[i]))
  }

  lemma RewriteCovered(was: seq<LogEntry>, from: nat, es: seq<LogEntry>, cut: seq<int>, end: seq<int>,
                       before: seq<seq<int>>, steps: seq<seq<int>>, contents: seq<seq<int>>)
    requires from <= |was| && steps == before + [cut] && GrewBy(cut, end, steps, contents)
    requires cut == EncodeAll(LogCodec(), Plain(was[..from])) && end == EncodeAll(LogCodec(), Plain(was[..from] + es))
    ensures CoveredRewrite(was, from, es, before, contents)
  {
    PlainTake(was, from);
    PlainConcat(was[..from], es);
    RewriteContents(LogCodec(), Plain(was), from, Plain(es), cut, end);
    forall i | |before| <= i < |contents| ensures DuringRewrite(LogCodec(), Plain(was), from, Plain(es), contents[i]) {
      assert i == |before| ==> contents[i] == steps[i] == cut;
    }
  }

  /** The peers among `s` whose match index reaches `i`. */
  function Reaching(matchIndex: map<int, int>, s: set<int>, i: int): set<int> {
    set p | p in s && Lookup(matchIndex, p) >= i
  }

  lemma ReachingOneMore(matchIndex: map<int, int>, s: set<int>, p: int, i: int)
    requires p !in s
    ensures |Reaching(matchIndex, s + {p}, i)| ==
      |Reaching(matchIndex, s, i)| + if Lookup(matchIndex, p) >= i then 1 else 0
  {
    var before, after := Reaching(matchIndex, s, i), Reaching(matchIndex, s + {p}, i);
    if Lookup(matchIndex, p) >= i {
      assert after == before + {p};
    } else {
      assert after == before;
    }
  }
}
