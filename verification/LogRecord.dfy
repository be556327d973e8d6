/** The on-disk record of a log entry: term, kind and arguments, each in its place, the arguments in
    a field wide enough for the largest of them. A stored entry has no promise, so none is kept. */
module LogRecord {
  import opened RaftTypes
  import opened Int32Bytes
  import opened OperationBytes
  import opened PersistentLog

  const RECORD_WIDTH: nat := 65

  predicate Storable(e: LogEntry) {
    IsInt32(e.term) && e.op.promiseHandle.None? && Fits32(e.op.command)
  }

  /** An entry that nothing has been put into. */
  function BlankEntry(): LogEntry {
    LogEntry(0, RaftOp(Get(0), None))
  }

  function Zeros(n: nat): (r: seq<int>)
    ensures |r| == n && IsBytes(r)
  {
    seq(n, _ => 0)
  }

  /** The argument field: the arguments, then bytes that mean nothing. */
  function ArgBytes(c: Command): (r: seq<int>)
    ensures Fits32(c) ==> |r| == INFO_WIDTH && IsBytes(r)
  {
    match c
    case Get(k) => EncodeInt32(k) + Zeros(53)
    case Put(k, v) => EncodeInt32(k) + EncodeInt32(v) + Zeros(49)
    case AddServer(info) => InfoBytes(info)
    case RemoveServer(id) => EncodeInt32(id) + Zeros(53)
    case Unknown(_, arg) => EncodeInt32(arg) + Zeros(53)
  }

  function EntryBytes(e: LogEntry): seq<int> {
    EncodeInt32(e.term) + EncodeInt32(KindOf(e.op.command)) + ArgBytes(e.op.command)
  }

  /** The command of kind `kind` whose argument field starts at byte 8. */
  function CommandAt(kind: int, bs: seq<int>): Command
    requires |bs| == RECORD_WIDTH
  {
    if kind == 0 then Get(Int32At(bs, 8))
    else if kind == 1 then Put(Int32At(bs, 8), Int32At(bs, 12))
    else if kind == 2 then AddServer(InfoAt(bs, 8))
    else if kind == 3 then RemoveServer(Int32At(bs, 8))
    else Unknown(kind, Int32At(bs, 8))
  }

  function EntryOf(bs: seq<int>): LogEntry {
    if |bs| == RECORD_WIDTH then
      LogEntry(Int32At(bs, 0), RaftOp(CommandAt(Int32At(bs, 4), bs), None))
    else
      LogEntry(0, RaftOp(Unknown(-1, 0), None))
  }

  function LogCodec(): Codec<LogEntry> {
    Codec(RECORD_WIDTH, Storable, EntryBytes, EntryOf)
  }

  lemma HeadSlices(term: seq<int>, kind: seq<int>, args: seq<int>)
    requires |term| == |kind| == 4 && |args| == INFO_WIDTH
    ensures var bs := term + kind + args;
      && |bs| == RECORD_WIDTH && bs[0..4] == term && bs[4..8] == kind
      && bs[8..12] == args[0..4] && bs[12..16] == args[4..8]
      && bs == (term + kind) + args + []
  {
  }

  /** A four-byte integer behind `head`. */
  lemma FieldAt(head: seq<int>, v: int, rest: seq<int>)
    requires IsInt32(v)
    ensures |head| + 4 <= |head + (EncodeInt32(v) + rest)| && Int32At(head + (EncodeInt32(v) + rest), |head|) == v
  {
    SliceAt(head, EncodeInt32(v), rest);
    IntAt(head + (EncodeInt32(v) + rest), |head|, v);
  }

  lemma SliceAt(head: seq<int>, field: seq<int>, rest: seq<int>)
    ensures var bs := head + (field + rest);
      |head| + |field| <= |bs| && bs[|head|..|head| + |field|] == field
  {
  }

  lemma OneArg(head: seq<int>, c: Command, v: int)
    requires |head| == 8 && Fits32(c) && IsInt32(v) && !c.Put? && !c.AddServer?
    requires ArgBytes(c) == EncodeInt32(v) + Zeros(53)
    ensures |head + ArgBytes(c)| == RECORD_WIDTH && Int32At(head + ArgBytes(c), 8) == v
  {
    FieldAt(head, v, Zeros(53));
  }

  lemma TwoArgs(head: seq<int>, k: int, v: int)
    requires |head| == 8 && IsInt32(k) && IsInt32(v)
    ensures var bs := head + ArgBytes(Put(k, v));
      |bs| == RECORD_WIDTH && Int32At(bs, 8) == k && Int32At(bs, 12) == v
  {
    var first, second, rest := EncodeInt32(k), EncodeInt32(v), Zeros(49);
    TwoFields(head, first, second, rest);
    IntAt(head + (first + second + rest), 8, k);
    IntAt(head + (first + second + rest), 12, v);
  }

  lemma TwoFields(head: seq<int>, first: seq<int>, second: seq<int>, rest: seq<int>)
    requires |head| == 8 && |first| == |second| == 4 && |rest| == 49
    ensures var bs := head + (first + second + rest);
      |bs| == RECORD_WIDTH && bs[8..12] == first && bs[12..16] == second
  {
  }

  lemma InfoArg(head: seq<int>, info: ServerInfo)
    requires |head| == 8 && GoodInfo(info)
    ensures var bs := head + ArgBytes(AddServer(info)); |bs| == RECORD_WIDTH && InfoAt(bs, 8) == info
  {
    InfoRoundTrip(head, info, []);
    assert head + InfoBytes(info) + [] == head + InfoBytes(info);
  }

  lemma ArgsRoundTrip(head: seq<int>, c: Command)
    requires |head| == 8 && Fits32(c)
    ensures |head + ArgBytes(c)| == RECORD_WIDTH && CommandAt(KindOf(c), head + ArgBytes(c)) == c
  {
    match c
    case Get(k) => OneArg(head, c, k);
    case Put(k, v) => TwoArgs(head, k, v);
    case AddServer(info) => InfoArg(head, info);
    case RemoveServer(id) => OneArg(head, c, id);
    case Unknown(_, arg) => OneArg(head, c, arg);
  }

  lemma EntryRoundTrip(e: LogEntry)
    requires Storable(e)
    ensures |EntryBytes(e)| == RECORD_WIDTH && IsBytes(EntryBytes(e)) && EntryOf(EntryBytes(e)) == e
  {
    var c := e.op.command;
    var term, kind, args := EncodeInt32(e.term), EncodeInt32(KindOf(c)), ArgBytes(c);
    HeadSlices(term, kind, args);
    var bs := term + kind + args;
    IntAt(bs, 0, e.term);
    IntAt(bs, 4, KindOf(c));
    ArgsRoundTrip(term + kind, c);
  }

  /** Where things lie on disk: term and kind, then the arguments. */
  lemma DiskLayout(e: LogEntry)
    requires Storable(e)
    ensures |EntryBytes(e)| == 65
    ensures var bs, c := EntryBytes(e), e.op.command;
      && Int32At(bs, 0) == e.term
      && (c.Get? ==> Int32At(bs, 4) == 0 && Int32At(bs, 8) == c.key)
      && (c.Put? ==> Int32At(bs, 4) == 1 && Int32At(bs, 8) == c.key && Int32At(bs, 12) == c.val)
      && (c.AddServer? ==> Int32At(bs, 4) == 2 && InfoLies(bs, 8, c.info))
      && (c.RemoveServer? ==> Int32At(bs, 4) == 3 && Int32At(bs, 8) == c.serverId)
  {
    EntryRoundTrip(e);
    var c := e.op.command;
    HeadSlices(EncodeInt32(e.term), EncodeInt32(KindOf(c)), ArgBytes(c));
    IntAt(EntryBytes(e), 4, KindOf(c));
  }

  /** The layout is a good codec: what a replica can store, it reads back. */
  lemma LogCodecIsGood()
    ensures GoodCodec(LogCodec())
  {
    forall e | Storable(e)
      ensures |EntryBytes(e)| == RECORD_WIDTH && IsBytes(EntryBytes(e)) && EntryOf(EntryBytes(e)) == e
    {
      EntryRoundTrip(e);
    }
  }

  /** Terms and commands have the widths that the code gives them. */
  predicate Fitting(es: seq<LogEntry>) {
    forall i {:trigger es[i]} :: 0 <= i < |es| ==> IsInt32(es[i].term) && Fits32(es[i].op.command)
  }

  predicate FittingOps(ops: seq<RaftOp>) {
    forall i {:trigger ops[i]} :: 0 <= i < |ops| ==> Fits32(ops[i].command)
  }

  lemma FittingIsStorable(es: seq<LogEntry>)
    requires Fitting(es)
    ensures AllStorable(LogCodec(), Plain(es))
  {
    forall i | 0 <= i < |es| ensures Storable(Plain(es)[i]) { assert Fits32(es[i].op.command); }
  }

  lemma FittingDrop(es: seq<LogEntry>, k: nat)
    requires Fitting(es) && k <= |es|
    ensures Fitting(es[k..])
  {
    forall i | 0 <= i < |es| - k ensures IsInt32(es[k..][i].term) && Fits32(es[k..][i].op.command) {
      assert es[k..][i] == es[k + i];
    }
  }
}
