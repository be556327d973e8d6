/** Operations as both the disk and the wire hold them: integers and address records inside byte
    buffers. */
module OperationBytes {
  import opened RaftTypes
  import opened Int32Bytes

  const INFO_WIDTH: nat := 57
  const IP_WIDTH: nat := 20
  const NAME_WIDTH: nat := 25

  /** An address record whose fields fit their places. */
  predicate GoodInfo(s: ServerInfo) {
    && IsInt32(s.id) && IsInt32(s.raftPort) && IsInt32(s.dbPort)
    && |s.ip| == IP_WIDTH && IsBytes(s.ip) && |s.name| == NAME_WIDTH && IsBytes(s.name)
  }

  /** The packed record. */
  function InfoBytes(s: ServerInfo): (r: seq<int>)
    ensures GoodInfo(s) ==> |r| == INFO_WIDTH && IsBytes(r)
  {
    EncodeInt32(s.id) + s.ip + EncodeInt32(s.raftPort) + EncodeInt32(s.dbPort) + s.name
  }

  function Int32At(bs: seq<int>, i: nat): int
    requires i + 4 <= |bs|
  {
    DecodeInt32(bs[i..i + 4])
  }

  function InfoAt(bs: seq<int>, i: nat): ServerInfo
    requires i + INFO_WIDTH <= |bs|
  {
    ServerInfo(Int32At(bs, i), bs[i + 4..i + 24], Int32At(bs, i + 24), Int32At(bs, i + 28), bs[i + 32..i + 57])
  }

  /** The address record starts at byte `i`: id, 20 bytes of address, the two ports, 25 bytes of name. */
  predicate InfoLies(bs: seq<int>, i: nat, s: ServerInfo)
    requires i + INFO_WIDTH <= |bs|
  {
    && Int32At(bs, i) == s.id && bs[i + 4..i + 24] == s.ip && Int32At(bs, i + 24) == s.raftPort
    && Int32At(bs, i + 28) == s.dbPort && bs[i + 32..i + 57] == s.name
  }

  lemma IntAt(bs: seq<int>, i: nat, v: int)
    requires i + 4 <= |bs| && bs[i..i + 4] == EncodeInt32(v) && IsInt32(v)
    ensures Int32At(bs, i) == v
  {
    Int32RoundTrip(v);
  }

  /** Where the five fields of a packed address record lie. */
  lemma InfoSlices(before: seq<int>, id: seq<int>, ip: seq<int>, raft: seq<int>, db: seq<int>, name: seq<int>,
      after: seq<int>)
    requires |id| == |raft| == |db| == 4 && |ip| == IP_WIDTH && |name| == NAME_WIDTH
    ensures var bs, i := before + (id + ip + raft + db + name) + after, |before|;
      && i + INFO_WIDTH <= |bs|
      && bs[i..i + 4] == id && bs[i + 4..i + 24] == ip && bs[i + 24..i + 28] == raft
      && bs[i + 28..i + 32] == db && bs[i + 32..i + 57] == name
  {
  }

  /** An address record anywhere in a buffer is read back as written. */
  lemma InfoRoundTrip(before: seq<int>, s: ServerInfo, after: seq<int>)
    requires GoodInfo(s)
    ensures |before| + INFO_WIDTH <= |before + InfoBytes(s) + after|
    ensures InfoAt(before + InfoBytes(s) + after, |before|) == s
  {
    var bs, i := before + InfoBytes(s) + after, |before|;
    InfoSlices(before, EncodeInt32(s.id), s.ip, EncodeInt32(s.raftPort), EncodeInt32(s.dbPort), s.name, after);
    IntAt(bs, i, s.id);
    IntAt(bs, i + 24, s.raftPort);
    IntAt(bs, i + 28, s.dbPort);
  }

  /** The command's fields are 32-bit values and fixed-width buffers, as in the code; an unknown kind
      is none of the known ones. */
  predicate Fits32(c: Command) {
    match c
    case Get(k) => IsInt32(k)
    case Put(k, v) => IsInt32(k) && IsInt32(v)
    case AddServer(info) => GoodInfo(info)
    case RemoveServer(id) => IsInt32(id)
    case Unknown(kind, arg) => IsInt32(kind) && IsInt32(arg) && !(0 <= kind <= 3)
  }

  /** The kind of a command, as it is stored and sent. */
  function KindOf(c: Command): int {
    match c
    case Get(_) => 0
    case Put(_, _) => 1
    case AddServer(_) => 2
    case RemoveServer(_) => 3
    case Unknown(kind, _) => kind
  }
}
