/** Where the engine can lose a term or a vote: a reply that outlives its term, and a crash between
    the two stores of one persist. These are what hypotheses R2 and R4 rule out. */
module VoteHazards {
  import opened RaftTypes
  import opened RaftHandlers
  import opened ElectionBasics
  import opened Int32Bytes
  import opened PersistentStore

  /** The term does not fall, and within the term the vote stays. */
  predicate KeepsTermAndVote(x: Node, y: Node) {
    x.currentTerm <= y.currentTerm && (y.currentTerm == x.currentTerm ==> y.votedFor == x.votedFor)
  }

  /** A reply's term is harmless: no news, or above the current term, or the same with no vote cast. */
  predicate Harmless(x: Node, saved: int, replyTerm: int) {
    replyTerm <= saved || replyTerm > x.currentTerm || (replyTerm == x.currentTerm && x.votedFor == -1)
  }

  /** A replication reply keeps term and vote exactly when its term is harmless; the handler compares
      it with the request's term only. */
  lemma AppendReplyKeepsVote(x: Node, peer: int, saved: int, next: int, count: nat, r: AppendEntriesRet)
    ensures KeepsTermAndVote(x, HandleAppendReply(x, peer, saved, next, count, r)) <==> Harmless(x, saved, r.term)
  {
  }

  /** A grant of the captured term that completes a majority of the configuration. */
  predicate Completes(x: Node, saved: int, r: RequestVoteRet) {
    r.term == saved && r.voteGranted && (x.votesReceived + 1) * 2 > |x.config|
  }

  /** So does a vote reply that does not complete a majority; one that does makes a leader, whose
      vote is cleared. */
  lemma VoteReplyKeepsVote(x: Node, saved: int, r: RequestVoteRet)
    requires x.role == Candidate
    ensures KeepsTermAndVote(x, HandleVoteReply(x, saved, r)) <==>
      if Completes(x, saved, r) then x.votedFor == -1 else Harmless(x, saved, r.term)
  {
  }

  /** R2 lets only harmless replies through. */
  lemma TimelyIsHarmless(x: Node, saved: int, replyTerm: int)
    requires Timely(x.currentTerm, saved, replyTerm)
    ensures Harmless(x, saved, replyTerm)
  {
  }

  // A crash inside a persist

  predicate Holds(files: Files, base: string, term: int, vote: int) {
    && LoadInt(files, Filename(base, "CurrentTerm")) == Some(term)
    && LoadInt(files, Filename(base, "VotedFor")) == Some(vote)
  }

  /** The files after the first of the two stores: the vote is written first. */
  function HalfPersisted(files: Files, base: string, vote: int): Files {
    Renamed(files, base, "VotedFor", vote)
  }

  /** After a crash between the two stores the files hold the old term with the new vote. That is the
      state before or the state after exactly when only one of the two values changed. */
  lemma CrashBetweenStores(files: Files, base: string, term: int, vote: int, term': int, vote': int)
    requires Holds(files, base, term, vote) && IsInt32(vote')
    ensures Holds(HalfPersisted(files, base, vote'), base, term, vote')
    ensures Holds(HalfPersisted(files, base, vote'), base, term, vote) ||
      Holds(HalfPersisted(files, base, vote'), base, term', vote')
      <==> vote' == vote || term' == term
  {
    RenamedValues(files, base, "VotedFor", vote');
    assert "CurrentTerm" != "VotedFor" by { assert "CurrentTerm"[0] != "VotedFor"[0]; }
  }

  /** What that costs: a replica that has voted in its term, crashes so on its way to a higher term and
      restarts from the files, is back in the old term without its vote. It now grants any rival that
      is up to date, whom it refused before. */
  lemma CrashForgetsVote(x: Node, files: Files, base: string, rival: int)
    requires Holds(files, base, x.currentTerm, x.votedFor) && x.votedFor >= 0
    requires rival != x.votedFor && rival in x.config - {x.id} && x.peers == x.config - {x.id}
    ensures Holds(HalfPersisted(files, base, -1), base, x.currentTerm, -1)
    ensures var args := RequestVoteParams(rival, x.currentTerm, |x.log| - 1, LastTerm(x.log));
      && !HandleRequestVote(x, args).1.voteGranted
      && HandleRequestVote(Restart(x.(votedFor := -1)), args).1.voteGranted
  {
    CrashBetweenStores(files, base, x.currentTerm, x.votedFor, x.currentTerm + 1, -1);
    assert LastTerm(Plain(x.log)) == LastTerm(x.log);
  }

  // Stepping down within the term

  /** A candidate that hears from a leader of its own term steps down and forgets that it voted for itself:
      it grants a rival of that term whom it refused before. */
  lemma DemotedForgets(x: Node, a: AppendEntriesParams, rival: int)
    requires x.role == Candidate && x.currentTerm == a.term && x.votedFor == x.id >= 0 && a.prevLogIndex >= -1
    requires rival != x.id && rival in x.peers && !PrevMatches(x.log, a)
    ensures var y, args := HandleAppendEntries(x, a).0, RequestVoteParams(rival, a.term, |x.log| - 1, LastTerm(x.log));
      && y.role == Follower && y.currentTerm == x.currentTerm
      && !HandleRequestVote(x, args).1.voteGranted && HandleRequestVote(y, args).1.voteGranted
  {
  }
}
