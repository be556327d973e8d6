# A verified model of the oh-my-db consensus engine

This project models the Raft engine behind a small replicated key-value database and proves what
its replicas may rely on. The engine is the C++ class `RaftManager`; the parts its guarantees rest on
are a persistent log vector, a two-key store for term and vote, a hand-off signal to the executor, a
store of client promises and a packed wire format for log entries. A Go prototype of the same
protocol is modelled for its elections.

## How the model is built

* **Replica.** `RaftHandlers` gives each section that runs under the state lock as a function on a
  `Node` record. `RaftReplica.Replica` is the replica itself, a class whose methods update its fields,
  the log vector and the files in place; each method is proved against its function and leaves the
  files decoding to what is in memory.
* **Cluster.** `RaftCluster` takes steps from those functions, over any set of replicas and a network
  that loses, delays, reorders and repeats messages, with crashes and restarts, also inside a log
  rewrite. `ClusterInvariant` states the inductive invariant, `ClusterGrowth` why untouched parts keep
  it, `StepElection`, `StepVoteReply`, `StepReplicate`, `StepFollow` and `StepTorn` that every action keeps
  it, `LeaderCompleteness` what follows from it, and `ClusterSafety` the theorems over whole runs.
* **Around the replica.** `ReplicaPipeline` interleaves a cluster run with the client, leader and executor
  threads of one replica; `PipelineSafety`, `ClientReplies` and `PipelineRuns` prove executor refinement,
  what becomes of every promise and what every client is told, over all such runs. `TimeTravelSignal` and
  `Promises` hold the two shared objects.
* **Membership.** `Membership` takes the two appending sections apart at the points where they release
  the lock, lets everything else run in between, and says what holds then and what fails. `ConfigIndex`
  does so for the index that later changes wait on.
* **Disk and wire.** `PersistentLog`, `PersistentStore`, `LogRecord`, `CrashRecovery`, `EntryWire`, and the byte
  layouts they share, `OperationBytes` and `Int32Bytes`.
* **Progress.** `ElectionProgress`, `CommitProgress` and `KnownLeader` say what the messages of a run bring about:
  exactly when a vote is given, an election won, a term taken over, an index committed, a commit passed on
  and a leader known by its name.
* **Single properties.** `FollowerClamp`, `Confluence`, `CatchUp`, `Replay`, `VoteHazards`.
* **Go prototype.** `GoElection`, `GoElectionSafety` and `GoProgress`.

The cluster theorems assume four things of a run that the code does not enforce:

* **R1.** The leader's append and send sections run only while the replica is still leader in the term
  it captured; the role is read earlier, without a second look.
* **R2.** A reply that outlives its term is lost, unless it carries a term above both. The reply handlers
  compare the reply's term with the request's, not with the current one.
* **R3.** No vote request of a term reaches a replica that has been leader in that term: entering
  leadership clears the vote.
* **R4.** The membership is fixed. A crash falls between locked sections, or between two records of a
  follower's log rewrite; in particular not between the two stores of one persist, and not inside a
  record: the bytes of a torn record stay in the file until a follower's rewrite cuts them off, and what
  a leader appends before that is read back misaligned.

`WitnessRuns` has a run of three replicas for each of the four that breaks a safety theorem when that
hypothesis alone is dropped. `VoteHazards` gives exact conditions for a reply and for a crash to keep
term and vote. The Go elections need R2 only.

Integers are unbounded in the protocol; terms, votes, ids and the fields of operations are confined to 32
bits where they are stored or sent. `std::map::operator[]` on a missing key reads as zero. A request
whose previous index is below -1, or a next index outside the log, would make the code index out of
range: the first is a precondition of the request handler, the second is proved never to arise in a
leader.

## Model

| member | source | states |
|---|---|---|
| ClusterSafety.StateMachineSafety | ohmyraft/OhMyRaft.H:323-349 | in every run, the operation sequences that any two replicas have released at any two times, across restarts, extend one another |
| ClusterSafety.LeadersHoldCommitted | ohmyraft/OhMyRaft.H:328-340 | what a commit-loop advance in term T covers is in the log of every leader of a later term |
| ClusterSafety.ElectedHoldCommitted | ohmyraft/OhMyRaft.H:592-607 | the same at the moment of each later election, also when the election came before the advance |
| ClusterSafety.LogMatching | ohmyraft/OhMyRaft.H:509-536 | two logs of any replicas at any times with the same term at an index have the same terms and operations up to it |
| ClusterSafety.ElectionSafety | ohmyraft/OhMyRaft.H:984-996 | at most one replica is ever leader in a term, over whole runs |
| ClusterSafety.CommittedStays | ohmyraft/OhMyRaft.H:527-531 | between restarts truncation never removes an index at or below the commit index, and the commit index never falls |
| ClusterSafety.StepKeepsCommitted | ohmyraft/OhMyRaft.H:505-563 | the same for every single action, in every state the invariant allows |
| ClusterSafety.AppliedIsCommitted | ohmyraft/OhMyRaft.H:553-561 | at every lock boundary the last applied index is the commit index, inside the log, and the released operations are those of the log up to it |
| ClusterSafety.NextIndexInRange | ohmyraft/OhMyRaft.H:281-288 | a leader's next index for every peer stays within 0 and the log length, so building a request never indexes out of range |
| ClusterSafety.StepKeeps | ohmyraft/OhMyRaft.H:251-360 | every action of every replica keeps the cluster invariant |
| ClusterInvariant.InitInv | ohmyraft/OhMyRaft.H:77-88 | freshly started replicas satisfy the invariant |
| ElectionProgress.GrantedExactly | ohmyraft/OhMyRaft.H:592-615 | a request that describes a log is granted exactly if its sender is a peer, its term is new or the vote in it is free or the sender's already, and that log is at least as up to date as the voter's; granted or not, a peer's request leaves the later of the two terms |
| ElectionProgress.GrantedInRuns | ohmyraft/OhMyRaft.H:598-600 | in every run: a standing candidate's request is granted exactly if the voter can vote for it and the candidate's log is at least as up to date as the voter's |
| ElectionProgress.AskedInRuns | ohmyraft/OhMyRaft.H:958-972 | a vote is asked for in the term that the election was started in, on the log of the moment of asking |
| ElectionProgress.OneGrantsTheOther | ohmyraft/OhMyRaft.H:598-604 | of two replicas that know each other at least one would vote for the other in a new term |
| ElectionProgress.SomeoneElectable | ohmyraft/OhMyRaft.H:598-604 | in every state of every run some replica would get the vote of all others in a new term |
| ElectionProgress.StoodInRuns | ohmyraft/OhMyRaft.H:940-951 | a timeout makes a candidate of the next term with its own vote and no other |
| ElectionProgress.WonExactly | ohmyraft/OhMyRaft.H:984-997 | in every run: a candidate that counts a grant is leader afterwards exactly if it and those counted are a majority; it then names itself and starts each peer at the end of its log |
| ElectionProgress.NoneLingers | ohmyraft/OhMyRaft.H:991-997 | no replica stays a candidate in a term in which it has counted a majority |
| ElectionProgress.TermsSpread | ohmyraft/OhMyRaft.H:317-321 | in every run: whoever handles a message is in the later of the two terms; a later term makes it, leader or not, a follower in exactly that term with a free vote, unless a vote request gets it; only vote replies to one that is no candidate go unread |
| KnownLeader.RequestNamesSender | ohmyraft/OhMyRaft.H:495 | after any replication request, current or stale, the receiver names its sender as the leader |
| KnownLeader.NamesLeaderExactly | ohmyraft/OhMyRaft.H:495 | in every state of every run a replica names the winner of the term it heard of last, so it names its own term's leader exactly if the same replica won both |
| KnownLeader.StaleMisleads | ohmyraft/OhMyRaft.H:495-504 | a stale request changes that name and nothing else |
| CommitProgress.RequestDelivers | ohmyraft/OhMyRaft.H:280-299 | in every run: a follower that accepts a request has the whole log that the leader had when it sent it, the greater of both commit indices, and has released all that the leader had committed then |
| CommitProgress.MatchIsConfirmed | ohmyraft/OhMyRaft.H:325-326 | in every state of every run a leader's match index for a peer is the end of the last request whose success it has heard of since it won |
| CommitProgress.LeaderCommitsExactly | ohmyraft/OhMyRaft.H:327-340 | in every run: on hearing of a success a leader commits the greatest index that a majority has confirmed in its term, or nothing if there is none above its commit index |
| LeaderCompleteness.Completeness | ohmyraft/OhMyRaft.H:598-607 | a prefix acknowledged by a majority and ending in its own term is in the log of every later term's leader, by induction on terms |
| LeaderCompleteness.PrefixesCompare | ohmyraft/OhMyRaft.H:328-340 | of any two committed prefixes one extends the other |
| StepVoteReply.SameLeader | ohmyraft/OhMyRaft.H:990-996 | two winners of one term are the same replica, because a shared voter's first vote counts |
| ElectionBasics.QuorumsMeet | ohmyraft/OhMyRaft.H:994 | any two majorities under the code's test share a member |
| StepVoteReply.RecvVoteRspKeeps | ohmyraft/OhMyRaft.H:978-997 | counting a vote, losing an election and winning one keep the invariant |
| StepElection.RecvVoteKeeps | ohmyraft/OhMyRaft.H:578-618 | answering a vote request keeps the invariant |
| StepElection.TimeoutKeeps | ohmyraft/OhMyRaft.H:940-951 | starting an election keeps the invariant |
| StepFollow.RecvAppendKeeps | ohmyraft/OhMyRaft.H:480-575 | accepting or refusing a replication request keeps the invariant |
| StepFollow.CommitSurvives | ohmyraft/OhMyRaft.H:527-531 | what a follower has committed is in the log that any accepted request of a run, or a crash while it is carried out, leaves |
| StepFollow.AcceptedIs | ohmyraft/OhMyRaft.H:512-551 | what an accepted request of a run makes of the replica: the log holds the leader's up to the window's end, is unchanged or exactly that, and keeps whatever the two shared |
| StepReplicate.RecvAppendRspKeeps | ohmyraft/OhMyRaft.H:316-355 | handling a replication reply keeps the invariant |
| StepReplicate.CountedIsCommitted | ohmyraft/OhMyRaft.H:329-338 | an index that passes the commit test is acknowledged by a majority of the members |
| StepReplicate.CommitTargetGreatest | ohmyraft/OhMyRaft.H:328-340 | the commit loop ends at the greatest index that passes its test, or where it began |
| StepReplicate.CrashKeeps | ohmyraft/OhMyRaft.H:411-442 | a crash and restart keep the invariant |
| StepTorn.TornKeeps | ohmyraft/PersistentVector.H:80-109 | a crash inside a follower's log rewrite, whatever part of it reached the file, keeps the invariant |
| HandlerFacts.MatchLenStops | ohmyraft/OhMyRaft.H:515-524 | the reconcile loop stops at the first position where the terms differ or one side ends |
| HandlerFacts.AcceptedLog | ohmyraft/OhMyRaft.H:512-551 | after accepting a window of the leader's log a follower holds that log up to the window's end, and its own log is unchanged or exactly that |
| HandlerFacts.AcceptKeeps | ohmyraft/OhMyRaft.H:526-536 | accepting a window loses nothing that the follower's and the leader's logs share |
| WitnessRuns.TwoLeadersWithoutR3 | ohmyraft/OhMyRaft.H:906 | a run under R1, R2 and R4 in which a leader that cleared its vote elects a second leader of its term |
| WitnessRuns.TwoLeadersWithoutR2 | ohmyraft/OhMyRaft.H:984-996 | a run under R1, R3 and R4 in which a stale vote is counted and a term has two leaders |
| WitnessRuns.LogsDifferWithoutR1 | ohmyraft/OhMyRaft.H:372-377 | a run under R2, R3 and R4 in which a deposed leader appends and two logs differ where their terms agree |
| WitnessRuns.TwoLeadersWithoutR4 | ohmyraft/OhMyRaft.H:67-71 | a run under R1, R2 and R3 in which a replica crashes between the two stores of a persist, forgets its vote and elects a second leader of the term |
| VoteHazards.AppendReplyKeepsVote | ohmyraft/OhMyRaft.H:318-321 | a replication reply keeps term and vote exactly when its term is no news, or above the current term, or equal with no vote cast |
| VoteHazards.VoteReplyKeepsVote | ohmyraft/OhMyRaft.H:984-996 | the same for a vote reply, unless it is a grant of the captured term that completes a majority: that one keeps them exactly if no vote was cast |
| VoteHazards.TimelyIsHarmless | ohmyraft/OhMyRaft.H:318-323 | every reply that R2 lets through keeps term and vote |
| VoteHazards.CrashBetweenStores | ohmyraft/OhMyRaft.H:67-71 | after a crash between the two stores the files hold the old term with the new vote, which is the old or the new state exactly when only one value changed |
| VoteHazards.CrashForgetsVote | ohmyraft/OhMyRaft.H:879-887 | such a crash on the way to a higher term lets a replica vote twice in its old term |
| VoteHazards.DemotedForgets | ohmyraft/OhMyRaft.H:505-508 | a candidate demoted within its term grants a rival of that term whom it refused before |
| PipelineRuns.ExecutorRefinesLog | ohmyraft/OhMyRaft.H:390-408 | for every interleaving of producers and executor, executed, taken and queued operations are together those of the log up to the last applied index, in order |
| PipelineRuns.NoLostWakeup | ohmyraft/TimeTravelSignal.H:47-79 | a blocked executor has executed everything released, unless a release section is about to signal it, and that signal wakes it |
| PipelineRuns.PromisesAreLinear | ohmyraft/ConsensusUtils.H:85-100 | over whole runs every removal finds its promise and no handle is removed twice, so none is both executed and aborted |
| PipelineRuns.PromisesAreConserved | ohmyraft/OhMyRaft.H:363-408 | at every moment the promises in the store are, each once, those not submitted yet, queued, pending in the log, with the executor, or taken in and cleared without being appended |
| PipelineRuns.ClientsAreToldTheTruth | ohmyraft/ConsensusUtils.H:54-127 | over whole runs and restarts: a write's client is told success exactly if the write was executed and failure exactly if it was aborted; a read's client is told what the operations executed before it had last written to the key, or the first store's value, and that there is none if the read was aborted |
| PipelineSafety.CutAboveCommit | ohmyraft/OhMyRaft.H:515-531 | the cut lies above the commit index whenever the committed prefix survives the rewrite |
| PipelineSafety.MovesHandles | ohmyraft/OhMyRaft.H:526-561 | the handles of the unreleased entries are conserved: still unreleased, released, or cut off |
| Promises.AbortEachSound | ohmyraft/OhMyRaft.H:527-529 | aborting operations with live handles, each once, finds every promise and leaves exactly the other live ones in the store |
| Promises.PromiseStore.Insert | ohmyraft/PromiseStore.H:32-41 | the promise is in the store under a handle that was never given out before |
| Promises.PromiseStore.GetAndRemove | ohmyraft/PromiseStore.H:43-50 | the promise under the handle is returned, and it alone leaves the store |
| Promises.PromiseStore.Execute | ohmyraft/ConsensusUtils.H:54-92 | the store of values changes as the operation says, its promise is taken and given the operation's answer, and the handle is dropped |
| Promises.PromiseStore.Abort | ohmyraft/ConsensusUtils.H:94-127 | the promise, if any, is taken and told that the operation failed |
| Promises.PromiseStore.AbortAll | ohmyraft/OhMyRaft.H:527-530 | aborting the entries to be cut off takes each of their promises once |
| TimeTravelSignal.TimeTravelSignal.Signal | ohmyraft/TimeTravelSignal.H:47-59 | a signal wakes the blocked consumer, or is remembered, and is dropped if one is remembered already |
| TimeTravelSignal.TimeTravelSignal.Wait | ohmyraft/TimeTravelSignal.H:62-79 | a wait consumes a remembered signal, or blocks |
| TimeTravelSignal.SignalsCount | ohmyraft/TimeTravelSignal.H:47-79 | after a wait that passed the next one passes exactly if a signal came; after one that blocked the first signal, and no other, wakes the consumer, and the next wait passes exactly if another came |
| Confluence.ConfluentInRuns | ohmyraft/OhMyRaft.H:509-564 | in every state of every run, two sequences of the requests on their way to a replica, of which it accepts the same ones, leave the same log, commit index and released operations, whatever their order and number |
| Confluence.Confluent | ohmyraft/OhMyRaft.H:509-564 | the same for any follower that Log Matching relates to the leader's log |
| Confluence.WindowIsCanon | ohmyraft/OhMyRaft.H:512-551 | an accepted window leads to the one log that depends only on how far the window reaches |
| FollowerClamp.ClampNeverBinds | ohmyraft/OhMyRaft.H:553-555 | in every run the follower's commit index is that of Figure 2 of the extended Raft paper, for every request on its way and every replica that accepts it |
| FollowerClamp.ClampIsFigure2 | ohmyraft/OhMyRaft.H:553-555 | the two rules agree exactly when the leader's commit index is not new, or lies within the request, or the follower's log ends with the request |
| FollowerClamp.ClampCanDiffer | ohmyraft/OhMyRaft.H:553-555 | a request, which no leader builds, on which the two rules differ |
| FollowerClamp.BuiltReachesCommit | ohmyraft/OhMyRaft.H:280-300 | a built request reaches the end of the leader's log, past its commit index |
| CatchUp.CatchUpInRuns | ohmyraft/OhMyRaft.H:280-352 | in every state of every run, more rounds than the next index give a follower of no later term the terms of the leader's whole log and at least the leader's commit index of the start, and the leader knows that it has the log |
| CatchUp.CatchUpTerminates | ohmyraft/OhMyRaft.H:324-352 | the same for any related pair, with any operations appended between rounds; the next index stays inside the log, and no commit index falls or passes both |
| CatchUp.RoundStep | ohmyraft/OhMyRaft.H:324-352 | a round ends with the follower in step or with a lower next index, and a follower in step stays in step; in step its commit index is the greater of its own and the leader's, else it is unchanged |
| Replay.ReplayInRuns | ohmyraft/OhMyRaft.H:553-561 | in every run, executing a replica's released operations over the store that a shorter or equal release left gives the store of executing them once |
| Replay.ReplayOverPrefix | ohmyraft/ConsensusUtils.H:54-69 | re-executing a sequence over the effect of any prefix of it changes nothing |
| Replay.ReplayOverIncarnations | ohmyraft/OhMyRaft.H:83-84 | the same after any number of earlier processes, each of which executed some prefix |
| Replay.ShorterReplay | ohmyraft/OhMyRaft.H:553-561 | replaying only part of what was executed gives that part's store exactly when the rest wrote nothing new to other keys |
| Replay.ShorterReplayDiffers | ohmyraft/ConsensusUtils.H:65-69 | two writes of which the first is replayed alone show the second |
| Replay.ApplyAllGet | ohmydb/LevelDBProxy.H:97-108 | after executing operations a key has its last written value, else its old one |
| Membership.PeersFollowExactly | ohmyraft/OhMyRaft.H:843-875 | after every run, overlapping changes included: a server with nothing half done is in step exactly if the last change of it that finished agrees with the configuration; with nothing half done at all the peers are the configuration's other members exactly if this holds for every server |
| Membership.PeersAlwaysFollow | ohmyraft/OhMyRaft.H:843-875 | the simple sufficient case: if no change of a server begins while another of it is half done, finished changes agree, and with nothing half done the peers are the configuration's other members |
| Membership.PeersTrackConfig | ohmyraft/OhMyRaft.H:851-857 | at every moment of such a run the peers differ from the configuration only in servers whose change is half done, and each half-done change agrees with the configuration |
| Membership.OverlapDivides | ohmyraft/OhMyRaft.H:843-875 | a follower takes in two requests that one leader built, an add and the remove of the same server, the second arriving in the gap of the first: the halves finish in the wrong order and leave a peer that is no member, with nothing half done |
| Membership.PartsMakeHandler | ohmyraft/OhMyRaft.H:505-564 | with nothing running in the gaps, the parts between lock operations make up the replication handler |
| Membership.CommitLoopExact | ohmyraft/OhMyRaft.H:323-340 | in every reachable leader, whatever changes are half done and also outside its own configuration: a successful reply moves the commit index to the greatest current-term index that a majority of the configuration holds, or leaves it, exactly if at every index where servers out of step decide what the loop sees, a later index has a majority in any case |
| Membership.GapCountsRemoved | ohmyraft/OhMyRaft.H:868-873 | a run of a leader of four in which a reply between the two halves of a removal counts the removed server and commits an entry that one of the three remaining servers holds |
| Membership.CountInGap | ohmyraft/OhMyRaft.H:330-335 | with a single change half done the count is right exactly when its server is in step already or is not known to hold the index; for a removal, when its match index is lower |
| Membership.UndisturbedIsUnswayed | ohmyraft/OhMyRaft.H:329-338 | that condition holds if no server out of step is known to hold an index above the commit index |
| Membership.ExactAtRest | ohmyraft/OhMyRaft.H:323-340 | so the result is right whenever no change is half done and every last finished change agrees with the configuration |
| Membership.NewcomerHoldsNothing | ohmyraft/OhMyRaft.H:181-189 | a server that was just connected counts for no index, and the next request to it carries the whole log |
| ConfigIndex.IndexExactly | ohmyraft/OhMyRaft.H:848-866 | after every run the index of the last membership change is where the last membership entry since the reboot was pushed, -1 if none; it is the log's last membership entry exactly if no cut since has removed it |
| ConfigIndex.WaitExactly | ohmyraft/OhMyRaft.H:662-679 | waiting for earlier changes ends exactly when all membership entries of the log are committed, except that it goes on while a cut has removed the last one and its place is not committed; after a reboot nothing is waited for |
| Membership.CountIsHolders | ohmyraft/OhMyRaft.H:330-335 | the match count is the number of configuration members known to hold the index, exactly when as many holders are not connected yet as counted peers have left the configuration |
| Membership.AdjacentMajoritiesMeet | ohmyraft/OhMyRaft.H:336 | any majority before and any majority after a single add or remove share a member |
| Membership.ChangeIsSingle | ohmyraft/OhMyRaft.H:849-867 | an appended entry changes the configuration by one member at most, in the first half of its change |
| Membership.TwoChangesCanDivide | ohmyraft/OhMyRaft.H:336 | after two adds disjoint majorities exist |
| RaftReplica.Replica.constructor | ohmyraft/OhMyRaft.H:77-88 | the values of a process that has loaded nothing |
| RaftReplica.Replica.FirstStart | ohmydb/OhMyReplica.H:67-127 | a first start leaves the initial state in memory and on disk |
| RaftReplica.Replica.Restarted | ohmyraft/OhMyRaft.H:411-442 | a restart over the files of a stopped replica has its term, vote and every entry, promises removed |
| RaftReplica.Replica.DiskInStep | ohmyraft/OhMyRaft.H:67-71 | at every lock release with no membership change under way the files are bytes that decode to the term, the vote and the log in memory |
| RaftReplica.Replica.DiskAtRelease | ohmyraft/OhMyRaft.H:844-873 | at every release, also inside a membership change, a restart reads the stored prefix of the log in memory, and the whole log exactly if all of it has been stored |
| RaftReplica.Replica.PushConfig | ohmyraft/OhMyRaft.H:844-868 | at the release inside a membership change the new entry and configuration are in memory and the entry is not on disk |
| RaftReplica.Replica.PushPeer | ohmyraft/OhMyRaft.H:851-875 | the second half connects or drops the one peer, and both halves make the whole change |
| RaftReplica.Replica.ConnectPeers | ohmydb/OhMyReplica.H:100-127 | one client per other member, with fresh indices |
| RaftReplica.Replica.Persist | ohmyraft/OhMyRaft.H:67-71 | term and vote on disk are those in memory |
| RaftReplica.Replica.DoBecomeFollower | ohmyraft/OhMyRaft.H:879-887 | the new role, term and cleared vote, also on disk |
| RaftReplica.Replica.DoBecomeCandidate | ohmyraft/OhMyRaft.H:890-898 | the new role and term and the vote for itself, also on disk |
| RaftReplica.Replica.DoBecomeLeader | ohmyraft/OhMyRaft.H:901-916 | the new role with both index maps rebuilt from the peers and the vote cleared, also on disk |
| RaftReplica.Replica.StartElection | ohmyraft/OhMyRaft.H:940-951 | the state of a new candidate with one vote, and the term it captured |
| RaftReplica.Replica.RequestVote | ohmyraft/OhMyRaft.H:578-618 | state and answer of the vote handler, also on disk |
| RaftReplica.Replica.VoteReply | ohmyraft/OhMyRaft.H:978-997 | state after a vote reply, also on disk |
| RaftReplica.Replica.AddPeer | ohmyraft/OhMyRaft.H:180-189 | the second half of an add: the peer with fresh indices |
| RaftReplica.Replica.RemovePeer | ohmyraft/OhMyRaft.H:191-199 | the second half of a removal: the peer and its indices gone |
| RaftReplica.Replica.AddToConfig | ohmyraft/OhMyRaft.H:844-850 | the first half of an add: the configuration, and term and vote on disk |
| RaftReplica.Replica.RemoveFromConfig | ohmyraft/OhMyRaft.H:862-868 | the first half of a removal |
| RaftReplica.Replica.DoApplyAddServer | ohmyraft/OhMyRaft.H:843-859 | both halves of an add, with nothing in between |
| RaftReplica.Replica.DoApplyRemoveServer | ohmyraft/OhMyRaft.H:861-875 | both halves of a removal, with nothing in between |
| RaftReplica.Replica.AppendInputs | ohmyraft/OhMyRaft.H:253-271 | the leader's log with the operations taken in, stored before the lock is released |
| RaftReplica.Replica.BuildRequest | ohmyraft/OhMyRaft.H:280-300 | the request for one peer, with the whole suffix and no promises |
| RaftReplica.Replica.CountMatches | ohmyraft/OhMyRaft.H:330-335 | the match count of the commit loop |
| RaftReplica.Replica.AdvanceCommit | ohmyraft/OhMyRaft.H:328-340 | the commit loop refines its specification |
| RaftReplica.Replica.Release | ohmyraft/OhMyRaft.H:341-349 | the operations up to the commit index are queued once and in order |
| RaftReplica.Replica.AppendReply | ohmyraft/OhMyRaft.H:316-355 | state and queue after a replication reply |
| RaftReplica.Replica.FindNew | ohmyraft/OhMyRaft.H:512-524 | the reconcile loop counts the entries already in the log |
| RaftReplica.Replica.DoReconcile | ohmyraft/OhMyRaft.H:509-551 | the log after truncation and append, also on disk; the operations cut off are aborted in order |
| RaftReplica.Replica.CommitFromLeader | ohmyraft/OhMyRaft.H:553-564 | the follower's commit and queue |
| RaftReplica.Replica.AppendEntries | ohmyraft/OhMyRaft.H:480-575 | state, answer, queue and aborted operations of the replication handler, with term, vote and log on disk |
| PersistentLog.CrashPrefixSafety | ohmyraft/PersistentVector.H:80-109 | for a crash at any byte of a log rewrite, the next start reads the old log or a prefix of the new one that has every kept record |
| CrashRecovery.TornFileReads | ohmyraft/OhMyRaft.H:526-551 | what a restart reads from the bytes of a crashed rewrite is a log that the cluster runs let it have |
| LogRecord.LogCodecIsGood | ohmyraft/ConsensusUtils.H:167-171 | every log entry whose fields have the code's widths becomes a record of 65 bytes and is read back from it |
| LogRecord.EntryRoundTrip | ohmyraft/ConsensusUtils.H:167-171 | the same for one entry, field by field, whatever its kind |
| LogRecord.DiskLayout | ohmyraft/ConsensusUtils.H:167-171 | where term, kind and arguments of a stored entry lie, in the code's order and widths |
| PersistentLog.ReadBack | ohmyraft/PersistentVector.H:143-145 | reading a file of whole records returns the records, whatever follows them |
| PersistentLog.TornWrite | ohmyraft/PersistentVector.H:135-145 | a write torn at any byte is read as a prefix of its records |
| PersistentLog.TornTailStays | ohmyraft/PersistentVector.H:147-149 | a start trims a torn tail only if there is none: the resize runs while no item counts as persisted |
| PersistentLog.TornTailMisreads | ohmyraft/PersistentVector.H:102-105 | a record that a leader appends after a torn tail is read back misaligned |
| PersistentLog.TornTailCut | ohmyraft/PersistentVector.H:82-86 | a follower's rewrite cuts a torn tail off with the records it replaces: the file is then exactly the kept records |
| PersistentLog.ReadRecords | ohmyraft/PersistentVector.H:143-145 | the read loop returns the whole records of the file |
| PersistentLog.PersistentVector.constructor | ohmyraft/PersistentVector.H:55-71 | the items read from the file, or an emptied file |
| PersistentLog.PersistentVector.Bootstrap | ohmyraft/PersistentVector.H:112-151 | the vector holds the whole records of the file |
| PersistentLog.PersistentVector.Resize | ohmyraft/PersistentVector.H:80-90 | cuts vector and file together, a torn tail included, or fills the vector up, and leaves them consistent |
| PersistentLog.PersistentVector.Persist | ohmyraft/PersistentVector.H:93-109 | every item is stored, and every file content on the way lies between the file before and after |
| RaftReplica.Replica.Overwrite | ohmyraft/OhMyRaft.H:526-551 | the log after a follower's rewrite, and every content of the log file on the way is one that crash safety covers |
| PersistentStore.StoreIsAtomic | ohmyraft/PersistentStore.H:52-61 | a crash at any byte of a store leaves all old values, and the rename changes the stored key only |
| PersistentStore.NamesDiffer | ohmyraft/PersistentStore.H:47-50 | no temporary file is a value file and keys do not share files |
| PersistentStore.Store.Put | ohmyraft/PersistentStore.H:52-61 | the key has the new value, the others theirs, and every state of the files on the way has old or new values |
| PersistentStore.Store.Load | ohmyraft/PersistentStore.H:63-84 | the stored value, or the default if the file is missing or short |
| Int32Bytes.Int32RoundTrip | ohmyraft/PersistentStore.H:52-77 | every 32-bit value is read back as written |
| Int32Bytes.LowestFirst | ohmyraft/PersistentStore.H:57 | the lowest byte comes first |
| EntryWire.WireRoundTrip | ohmyserver/RaftServiceImpl.C:143-178 | decoding the encoded entries gives the list back without promises, exactly when no entry of an unknown kind has an argument to lose |
| EntryWire.EntryRoundTrip | ohmyserver/RaftServiceImpl.C:149-167 | the same for one entry, whatever the unset address field holds |
| EntryWire.RecordRoundTrip | ohmyraft/ConsensusUtils.H:182-189 | a packed record is read back field by field as written |
| EntryWire.WireLayout | ohmyserver/RaftServiceImpl.C:149-167 | where term, index, kind, arguments and address record of a sent entry lie |
| OperationBytes.InfoRoundTrip | wowUtils/OhMyConfig.H:10-18 | a packed address record anywhere in a buffer is read back as written |
| EntryWire.Encode | ohmyserver/RaftServiceImpl.C:143-178 | the sender's loop yields the records of all entries in order |
| EntryWire.Decode | ohmyserver/RaftServiceImpl.C:25-47 | the receiver's loop reads the record at every multiple of the width |
| GoElectionSafety.GoElectionSafety | prototype/raftv/raft.go:313-395 | at most one leader per term: a leader after any run and a leader of the same term after any further actions are the same, under R2 only |
| GoElectionSafety.StepKeeps | prototype/raftv/raft.go:178-273 | every action keeps the election invariant |
| GoElectionSafety.FirstWinner | prototype/raftv/raft.go:365-374 | a candidate with a majority stands in a term that has had no winner |
| GoElectionSafety.RecvAppendKeeps | prototype/raftv/raft.go:236-245 | a heartbeat demotes only replicas whose vote did not elect its sender |
| GoElectionSafety.LeaderVoted | prototype/raftv/raft.go:393-394 | a leader still has the vote it gave itself, so R3 is not needed |
| GoProgress.GrantedExactly | prototype/raftv/raft.go:178-211 | a request that describes a log is granted exactly if the voter runs, can vote in that term, and its log is no more up to date; granted or not, the voter is then in the later of the two terms |
| GoProgress.OneGrantsTheOther | prototype/raftv/raft.go:198-201 | of two running replicas at least one would vote for the other in a new term |
| GoProgress.Asked | prototype/raftv/raft.go:330-346 | a vote is asked for in the term that the election was started in, on the log of the moment |
| GoProgress.Stands | prototype/raftv/raft.go:319-328 | a timeout makes a candidate of the next term with its own vote and no other |
| GoProgress.WonExactly | prototype/raftv/raft.go:365-374 | over every run: a candidate that counts a grant of its election is leader afterwards exactly if it and those counted are a majority |
| GoProgress.NoneLingers | prototype/raftv/raft.go:365-374 | no replica stays a candidate in a term in which it has counted a majority |
| GoProgress.TermsSpread | prototype/raftv/raft.go:232-245 | whoever reads a message is in the later of the two terms; a later term makes it a follower with a free vote unless a vote request gets it, and a heartbeat of its own term makes it a follower too |
| GoElection.DemotedCandidateForgets | prototype/raftv/raft.go:242-245 | a candidate demoted within its term grants a rival whom it refused before |
| GoElection.ConsensusModule.RequestVote | prototype/raftv/raft.go:178-211 | state and reply of the vote handler |
| GoElection.ConsensusModule.AppendEntries | prototype/raftv/raft.go:232-245 | term, role and vote after a heartbeat, and the reply's term |
| GoElection.ConsensusModule.DoStartElection | prototype/raftv/raft.go:319-326 | the state of a new candidate with one vote |
| GoElection.ConsensusModule.CountVote | prototype/raftv/raft.go:354-375 | state and vote count after a vote reply |
| GoElection.ConsensusModule.DoBecomeFollower | prototype/raftv/raft.go:384-391 | term and role, and the vote forgotten |

## Left out

- Cluster safety under membership change: the configuration is not rolled back on truncation nor rebuilt on restart, and applying a change drops the lock midway; only the peer set, the commit count and the overlap of adjacent majorities are treated for changing configurations, in one replica.
- The wait loops of AddServer and RemoveServer beyond the test they wait for, their error codes, and the step to term -1 after a leader removes itself.
- Liveness, timers and random timeouts: a timeout may happen at any moment, and a C++ candidate never retries.
- At-least-once fulfilment of promises: operations taken in by a replica that is not leader are dropped with their promises, which PipelineRuns.PromisesAreConserved counts as lost, and a restart drops all promises of the process.
- gRPC services and channels, protobuf framing, network masks and delays: only loss, delay, reordering and repetition of messages.
- LevelDB: the store of values is a map, as in LevelDBProxy; results of disk errors are not modelled, and neither is a failing open, write or rename.
- The role Dead, which nothing enters; logging, printers, CSV parsing, command-line tools and scripts.
- The Go prototype's replication and commit code: its followers never commit.
- Overflow of 32-bit log indices and terms in memory: a term must fit where it is stored or sent.
- RaftReplica.Replica.AppendEntries: runs with nothing in the gaps of a membership change; what runs there is in Membership. It returns the operations it aborts; what aborting them does to the promises is in Promises.PromiseStore.AbortAll and the system runs of ReplicaPipeline.
- RaftReplica.Replica.DoApplyAddServer: does not let other sections run between its halves, which AddToConfig and AddPeer are; what runs there is in Membership. The address of the server is not kept, only its id.
- RaftReplica.Replica.DoApplyRemoveServer: does not let other sections run between its halves, as above.
- RaftReplica.Replica.AppendInputs: does not let other sections run while an entry changes the membership, as above.
- LogRecord.LogCodecIsGood: the record has the entry's fields in the code's order and widths, but not the compiler's padding, the variant's index byte or the storage of the promise, which is always empty there.
- PersistentLog.PersistentVector.Resize: permissions of the reopened file are not modelled.
- PersistentLog.PersistentVector.constructor: takes the file's content as a value; a file that cannot be opened for reading is an empty one.
- Promises.PromiseStore.Execute: an operation of an unknown kind with a promise is excluded, because aborting it removes its handle twice; no client can submit one.
- Promises.PromiseStore.GetAndRemove: handles are numbers that are never reused, where the code has list iterators.
- TimeTravelSignal.TimeTravelSignal.Wait: no spurious wakeups.
- EntryWire.Decode: a byte count that is no multiple of the record width is excluded, because the code then reads past the end.
