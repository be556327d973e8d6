/** From the bytes of a crashed log rewrite to the state the cluster model restarts from. */
module CrashRecovery {
  import opened RaftTypes
  import opened RaftHandlers
  import opened PersistentLog
  import opened LogRecord

  /** The file is one that a follower's rewrite for this request passes through. */
  ghost predicate TornFile(n: Node, args: AppendEntriesParams, k: nat, file: seq<int>) {
    var at, es := args.prevLogIndex + 1, Payload(args.entries);
    && 0 <= at <= |n.log| && k == MatchLen(n.log, at, es) && k < |es| && at + k <= |n.log|
    && DuringRewrite(LogCodec(), Plain(n.log), at + k, Plain(es[k..]), file)
  }

  /** What a restart reads from the log file after a crash at any byte of a follower's rewrite is a log
      that the cluster model lets it have. */
  lemma TornFileReads(n: Node, args: AppendEntriesParams, k: nat, file: seq<int>)
    requires Accepts(n, args) && Fitting(n.log) && Fitting(Payload(args.entries)) && TornFile(n, args, k, file)
    ensures TornLog(n, args, Records(LogCodec(), file))
  {
    var at, es := args.prevLogIndex + 1, Payload(args.entries);
    FittingDrop(es, k);
    RewriteReads(n.log, at + k, es[k..], file);
    ReadIsTorn(n, args, k, Records(LogCodec(), file));
  }

  lemma RewriteReads(log: seq<LogEntry>, cut: nat, news: seq<LogEntry>, file: seq<int>)
    requires Fitting(log) && Fitting(news) && cut <= |log|
    requires DuringRewrite(LogCodec(), Plain(log), cut, Plain(news), file)
    ensures var read := Records(LogCodec(), file);
      read == Plain(log) || PartOf(Plain(log)[..cut], Plain(news), read)
  {
    LogCodecIsGood();
    FittingIsStorable(log);
    FittingIsStorable(news);
    CrashPrefixSafety(LogCodec(), Plain(log), cut, Plain(news), file);
  }

  lemma ReadIsTorn(n: Node, args: AppendEntriesParams, k: nat, read: seq<LogEntry>)
    requires Accepts(n, args)
    requires var at, es := args.prevLogIndex + 1, Payload(args.entries);
      && k == MatchLen(n.log, at, es) && k < |es| && at + k <= |n.log|
      && (read == Plain(n.log) || PartOf(Plain(n.log)[..at + k], Plain(es[k..]), read))
    ensures TornLog(n, args, read)
  {
  }
}
