/** The wire format of log entries: an array of packed fixed-width records, copied out of and into
    memory as they are, like the records of a persistent vector. */
module EntryWire {
  import opened RaftTypes
  import opened Int32Bytes
  import opened OperationBytes
  import opened PersistentLog

  const WIDTH: nat := 77

  /** The packed record; `kind` is 0 to 3 for the four known operations. */
  datatype TransportEntry = TransportEntry(
    term: int, index: int, kind: int, arg1: int, arg2: int, serverInfo: ServerInfo)

  // Records and bytes

  predicate GoodRecord(t: TransportEntry) {
    && IsInt32(t.term) && IsInt32(t.index) && IsInt32(t.kind) && IsInt32(t.arg1) && IsInt32(t.arg2)
    && GoodInfo(t.serverInfo)
  }

  function RecordBytes(t: TransportEntry): (r: seq<int>)
    ensures GoodRecord(t) ==> |r| == WIDTH && IsBytes(r)
  {
    EncodeInt32(t.term) + EncodeInt32(t.index) + EncodeInt32(t.kind) + EncodeInt32(t.arg1) + EncodeInt32(t.arg2)
    + InfoBytes(t.serverInfo)
  }

  /** The record that a buffer of its width holds. */
  function RecordOf(bs: seq<int>): TransportEntry {
    if |bs| == WIDTH then
      TransportEntry(Int32At(bs, 0), Int32At(bs, 4), Int32At(bs, 8), Int32At(bs, 12), Int32At(bs, 16), InfoAt(bs, 20))
    else
      TransportEntry(0, 0, 0, 0, 0, ServerInfo(0, [], 0, 0, []))
  }

  function WireCodec(): Codec<TransportEntry> {
    Codec(WIDTH, GoodRecord, RecordBytes, RecordOf)
  }

  /** Where the fields of a record lie. */
  lemma RecordSlices(a: seq<int>, b: seq<int>, c: seq<int>, d: seq<int>, e: seq<int>, info: seq<int>)
    requires |a| == |b| == |c| == |d| == |e| == 4
    ensures var bs := a + b + c + d + e + info;
      && bs[0..4] == a && bs[4..8] == b && bs[8..12] == c && bs[12..16] == d && bs[16..20] == e
      && bs == (a + b + c + d + e) + info + [] && |a + b + c + d + e| == 20
  {
  }

  /** A record is read back as written, field by field. */
  lemma RecordRoundTrip(t: TransportEntry)
    requires GoodRecord(t)
    ensures RecordOf(RecordBytes(t)) == t
  {
    var a, b, c := EncodeInt32(t.term), EncodeInt32(t.index), EncodeInt32(t.kind);
    var d, e, info := EncodeInt32(t.arg1), EncodeInt32(t.arg2), InfoBytes(t.serverInfo);
    RecordSlices(a, b, c, d, e, info);
    InfoRoundTrip(a + b + c + d + e, t.serverInfo, []);
    FieldsRoundTrip(RecordBytes(t), t);
  }

  lemma FieldsRoundTrip(bs: seq<int>, t: TransportEntry)
    requires GoodRecord(t) && |bs| == WIDTH && InfoAt(bs, 20) == t.serverInfo
    requires bs[0..4] == EncodeInt32(t.term) && bs[4..8] == EncodeInt32(t.index) && bs[8..12] == EncodeInt32(t.kind)
    requires bs[12..16] == EncodeInt32(t.arg1) && bs[16..20] == EncodeInt32(t.arg2)
    ensures RecordOf(bs) == t
  {
    IntAt(bs, 0, t.term);
    IntAt(bs, 4, t.index);
    IntAt(bs, 8, t.kind);
    IntAt(bs, 12, t.arg1);
    IntAt(bs, 16, t.arg2);
  }

  /** Where things lie on the wire: term, index and kind, then the arguments, then the address record. */
  lemma WireLayout(e: AppendLogEntry, unset: ServerInfo)
    requires Representable(e) && GoodInfo(unset)
    ensures var bs, c := RecordBytes(ToRecord(e, unset)), e.op.command;
      && |bs| == 77 && Int32At(bs, 0) == e.term && Int32At(bs, 4) == e.index
      && (c.Get? ==> Int32At(bs, 8) == 0 && Int32At(bs, 12) == c.key)
      && (c.Put? ==> Int32At(bs, 8) == 1 && Int32At(bs, 12) == c.key && Int32At(bs, 16) == c.val)
      && (c.AddServer? ==> Int32At(bs, 8) == 2 && InfoLies(bs, 20, c.info))
      && (c.RemoveServer? ==> Int32At(bs, 8) == 3 && Int32At(bs, 12) == c.serverId)
  {
    var t := ToRecord(e, unset);
    RecordRoundTrip(t);
    assert RecordOf(RecordBytes(t)).serverInfo == InfoAt(RecordBytes(t), 20);
  }

  lemma WireCodecIsGood()
    ensures GoodCodec(WireCodec())
  {
    forall t | GoodRecord(t)
      ensures |RecordBytes(t)| == WIDTH && IsBytes(RecordBytes(t)) && RecordOf(RecordBytes(t)) == t
    {
      RecordRoundTrip(t);
    }
  }

  // Entries and records

  /** The record of one entry. `unset` is what the record's address field happens to hold when the
      operation does not set it. An unknown kind sets no argument. */
  function ToRecord(e: AppendLogEntry, unset: ServerInfo): TransportEntry {
    var c := e.op.command;
    var arg1 := match c { case Get(k) => k case Put(k, _) => k case RemoveServer(id) => id case _ => 0 };
    var arg2 := if c.Put? then c.val else 0;
    TransportEntry(e.term, e.index, KindOf(c), arg1, arg2, if c.AddServer? then c.info else unset)
  }

  function FromRecord(t: TransportEntry): AppendLogEntry {
    var c :=
      if t.kind == 0 then Get(t.arg1)
      else if t.kind == 1 then Put(t.arg1, t.arg2)
      else if t.kind == 2 then AddServer(t.serverInfo)
      else if t.kind == 3 then RemoveServer(t.arg1)
      else Unknown(t.kind, t.arg1);
    AppendLogEntry(t.term, t.index, RaftOp(c, None))
  }

  /** Every field fits its place in the record, and an unknown kind is none of the known ones. */
  predicate Representable(e: AppendLogEntry) {
    IsInt32(e.term) && IsInt32(e.index) && Fits32(e.op.command)
  }

  function WithoutPromise(e: AppendLogEntry): AppendLogEntry {
    e.(op := e.op.WithoutPromise())
  }

  /** An entry comes back without its promise; one of an unknown kind exactly when its argument is
      the zero that every unknown kind is sent with. */
  lemma EntryRoundTrip(e: AppendLogEntry, unset: ServerInfo)
    requires Representable(e)
    ensures FromRecord(ToRecord(e, unset)) == WithoutPromise(e) <==> (e.op.command.Unknown? ==> e.op.command.arg == 0)
  {
  }

  // Whole requests

  predicate AllRepresentable(es: seq<AppendLogEntry>) {
    forall i :: 0 <= i < |es| ==> Representable(es[i])
  }

  predicate AllGood(unset: seq<ServerInfo>) {
    forall i :: 0 <= i < |unset| ==> GoodInfo(unset[i])
  }

  /** The records of a request, one per entry. */
  function ToRecords(es: seq<AppendLogEntry>, unset: seq<ServerInfo>): seq<TransportEntry>
    requires |unset| == |es|
  {
    seq(|es|, i requires 0 <= i < |es| => ToRecord(es[i], unset[i]))
  }

  function FromRecords(ts: seq<TransportEntry>): (r: seq<AppendLogEntry>) {
    seq(|ts|, i requires 0 <= i < |ts| => FromRecord(ts[i]))
  }

  function Encoded(es: seq<AppendLogEntry>, unset: seq<ServerInfo>): seq<int>
    requires |unset| == |es|
  {
    EncodeAll(WireCodec(), ToRecords(es, unset))
  }

  /** The sender's loop: one record per entry, all of them as one byte string. */
  method Encode(es: seq<AppendLogEntry>, unset: seq<ServerInfo>) returns (bs: seq<int>)
    requires |unset| == |es|
    ensures bs == Encoded(es, unset)
  {
    bs := [];
    ghost var c, ts := WireCodec(), ToRecords(es, unset);
    for i := 0 to |es|
      invariant bs == EncodeAll(c, ts[..i])
    {
      bs := bs + RecordBytes(ToRecord(es[i], unset[i]));
      EncodeSnoc(c, ts, i);
    }
    assert ts[..|es|] == ts;
  }

  function Decoded(bs: seq<int>): seq<AppendLogEntry> {
    FromRecords(Records(WireCodec(), bs))
  }

  /** The receiver's loop. It steps by the record width until it has passed the end, so the length
      has to be a multiple of it. */
  method Decode(bs: seq<int>) returns (es: seq<AppendLogEntry>)
    requires |bs| % WIDTH == 0
    ensures es == Decoded(bs)
  {
    es := [];
    var i := 0;
    ghost var c, read: seq<TransportEntry> := WireCodec(), [];
    ReadNothing(c, bs);
    while i < |bs|
      invariant ReadUpTo(c, bs, i, read) && (|bs| - i) % WIDTH == 0
      invariant es == FromRecords(read)
      decreases |bs| - i
    {
      WholeRecordLeft(|bs| - i);
      ReadOne(c, bs, i, read);
      FromSnoc(read, RecordOf(bs[i..i + WIDTH]));
      read := read + [RecordOf(bs[i..i + WIDTH])];
      es := es + [FromRecord(RecordOf(bs[i..i + WIDTH]))];
      i := i + WIDTH;
    }
    ReadEverything(c, bs, i, read);
  }

  lemma FromSnoc(ts: seq<TransportEntry>, t: TransportEntry)
    ensures FromRecords(ts + [t]) == FromRecords(ts) + [FromRecord(t)]
  {
  }

  lemma WholeRecordLeft(left: nat)
    requires left > 0 && left % WIDTH == 0
    ensures left >= WIDTH && (left - WIDTH) % WIDTH == 0
  {
  }

  function Stripped(es: seq<AppendLogEntry>): seq<AppendLogEntry> {
    seq(|es|, i requires 0 <= i < |es| => WithoutPromise(es[i]))
  }

  /** What the receiver decodes is the sender's list with the promises removed, the same length and
      every entry in its place, whatever the unset address fields held; exactly when no entry of an
      unknown kind has an argument to lose. */
  lemma WireRoundTrip(es: seq<AppendLogEntry>, unset: seq<ServerInfo>)
    requires |unset| == |es| && AllRepresentable(es) && AllGood(unset)
    ensures |Encoded(es, unset)| == |es| * WIDTH && IsBytes(Encoded(es, unset))
    ensures Decoded(Encoded(es, unset)) == Stripped(es) <==>
      forall i :: 0 <= i < |es| && es[i].op.command.Unknown? ==> es[i].op.command.arg == 0
  {
    var c, ts := WireCodec(), ToRecords(es, unset);
    WireCodecIsGood();
    EncodeLength(c, ts);
    EncodedBytes(c, ts);
    ReadBackAll(c, ts);
    StrippedIff(es, unset);
  }

  lemma StrippedIff(es: seq<AppendLogEntry>, unset: seq<ServerInfo>)
    requires |unset| == |es| && AllRepresentable(es)
    ensures FromRecords(ToRecords(es, unset)) == Stripped(es) <==>
      forall i :: 0 <= i < |es| && es[i].op.command.Unknown? ==> es[i].op.command.arg == 0
  {
    var d := FromRecords(ToRecords(es, unset));
    forall i | 0 <= i < |es|
      ensures d[i] == Stripped(es)[i] <==> (es[i].op.command.Unknown? ==> es[i].op.command.arg == 0)
    {
      EntryRoundTrip(es[i], unset[i]);
    }
  }
}
