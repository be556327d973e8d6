/** The persistent vector: an in-memory sequence and the byte file behind it.

    Records have a fixed width and are copied out of and into memory as they are. */
module PersistentLog {
  import opened Int32Bytes

  /** How items become records; `storable` says which items fit into one. */
  datatype Codec<!T> = Codec(width: nat, storable: T -> bool, enc: T -> seq<int>, dec: seq<int> -> T)

  /** A storable item becomes a record of real bytes and is read back from it. */
  ghost predicate GoodCodec<T(!new)>(c: Codec<T>) {
    && c.width > 0
    && (forall x :: c.storable(x) ==> |c.enc(x)| == c.width && IsBytes(c.enc(x)) && c.dec(c.enc(x)) == x)
  }

  ghost predicate AllStorable<T>(c: Codec<T>, xs: seq<T>) {
    forall i :: 0 <= i < |xs| ==> c.storable(xs[i])
  }

  function EncodeAll<T>(c: Codec<T>, xs: seq<T>): seq<int> {
    if xs == [] then [] else c.enc(xs[0]) + EncodeAll(c, xs[1..])
  }

  /** The whole records at the front of a file; an incomplete last one is not read. */
  function Records<T>(c: Codec<T>, file: seq<int>): seq<T>
    requires c.width > 0
    decreases |file|
  {
    if |file| < c.width then [] else [c.dec(file[..c.width])] + Records(c, file[c.width..])
  }

  /** `xs` are the records before byte `i`. */
  ghost predicate ReadUpTo<T(!new)>(c: Codec<T>, file: seq<int>, i: nat, xs: seq<T>)
    requires c.width > 0
  {
    i <= |file| && xs + Records(c, file[i..]) == Records(c, file)
  }

  /** The read loop: one record after the other until fewer bytes than a record are left. */
  method ReadRecords<T(!new)>(c: Codec<T>, file: seq<int>) returns (xs: seq<T>)
    requires c.width > 0
    ensures xs == Records(c, file)
  {
    xs := [];
    var i := 0;
    ReadNothing(c, file);
    while i + c.width <= |file|
      invariant ReadUpTo(c, file, i, xs)
      decreases |file| - i
    {
      ReadOne(c, file, i, xs);
      xs := xs + [c.dec(file[i..i + c.width])];
      i := i + c.width;
    }
    ReadEverything(c, file, i, xs);
  }

  lemma ReadNothing<T(!new)>(c: Codec<T>, file: seq<int>)
    requires c.width > 0
    ensures ReadUpTo(c, file, 0, [])
  {
    assert file[0..] == file;
  }

  lemma ReadOne<T(!new)>(c: Codec<T>, file: seq<int>, i: nat, xs: seq<T>)
    requires c.width > 0 && ReadUpTo(c, file, i, xs) && i + c.width <= |file|
    ensures ReadUpTo(c, file, i + c.width, xs + [c.dec(file[i..i + c.width])])
  {
    var x, rest := c.dec(file[i..i + c.width]), Records(c, file[i + c.width..]);
    assert file[i..][..c.width] == file[i..i + c.width];
    assert file[i..][c.width..] == file[i + c.width..];
    assert xs + ([x] + rest) == (xs + [x]) + rest;
  }

  lemma ReadEverything<T(!new)>(c: Codec<T>, file: seq<int>, i: nat, xs: seq<T>)
    requires c.width > 0 && ReadUpTo(c, file, i, xs) && |file| < i + c.width
    ensures xs == Records(c, file)
  {
    assert xs + [] == xs;
  }

  lemma {:induction false} EncodeConcat<T>(c: Codec<T>, a: seq<T>, b: seq<T>)
    ensures EncodeAll(c, a + b) == EncodeAll(c, a) + EncodeAll(c, b)
    decreases |a|
  {
    if a == [] {
      assert a + b == b;
    } else {
      EncodeConcat(c, a[1..], b);
      assert (a + b)[1..] == a[1..] + b;
    }
  }

  lemma EncodeSnoc<T>(c: Codec<T>, xs: seq<T>, i: nat)
    requires i < |xs|
    ensures EncodeAll(c, xs[..i + 1]) == EncodeAll(c, xs[..i]) + c.enc(xs[i])
  {
    EncodeConcat(c, xs[..i], [xs[i]]);
    assert xs[..i + 1] == xs[..i] + [xs[i]];
    assert EncodeAll(c, [xs[i]]) == c.enc(xs[i]) + EncodeAll(c, [xs[i]][1..]);
  }

  lemma {:induction false} EncodeLength<T(!new)>(c: Codec<T>, xs: seq<T>)
    requires GoodCodec(c) && AllStorable(c, xs)
    ensures |EncodeAll(c, xs)| == |xs| * c.width
    decreases |xs|
  {
    if xs != [] { EncodeLength(c, xs[1..]); }
  }

  /** The file of a stored vector consists of bytes. */
  lemma {:induction false} EncodedBytes<T(!new)>(c: Codec<T>, xs: seq<T>)
    requires GoodCodec(c) && AllStorable(c, xs)
    ensures IsBytes(EncodeAll(c, xs))
    decreases |xs|
  {
    if xs != [] { EncodedBytes(c, xs[1..]); }
  }

  /** Cutting the file at a record boundary cuts the sequence of records. */
  lemma EncodeTake<T(!new)>(c: Codec<T>, xs: seq<T>, k: nat)
    requires GoodCodec(c) && AllStorable(c, xs) && k <= |xs|
    ensures k * c.width <= |EncodeAll(c, xs)|
    ensures EncodeAll(c, xs)[..k * c.width] == EncodeAll(c, xs[..k])
  {
    EncodeConcat(c, xs[..k], xs[k..]);
    assert xs[..k] + xs[k..] == xs;
    EncodeLength(c, xs[..k]);
  }

  /** Reading back: the records written, then whatever whole records follow. */
  lemma {:induction false} ReadBack<T(!new)>(c: Codec<T>, xs: seq<T>, rest: seq<int>)
    requires GoodCodec(c) && AllStorable(c, xs)
    ensures Records(c, EncodeAll(c, xs) + rest) == xs + Records(c, rest)
    decreases |xs|
  {
    if xs == [] {
      assert EncodeAll(c, xs) + rest == rest;
    } else {
      var f := EncodeAll(c, xs) + rest;
      assert f == c.enc(xs[0]) + (EncodeAll(c, xs[1..]) + rest);
      assert f[..c.width] == c.enc(xs[0]) && f[c.width..] == EncodeAll(c, xs[1..]) + rest;
      ReadBack(c, xs[1..], rest);
      assert xs == [xs[0]] + xs[1..];
    }
  }

  lemma ReadBackAll<T(!new)>(c: Codec<T>, xs: seq<T>)
    requires GoodCodec(c) && AllStorable(c, xs)
    ensures Records(c, EncodeAll(c, xs)) == xs
  {
    ReadBack(c, xs, []);
    assert EncodeAll(c, xs) + [] == EncodeAll(c, xs) && xs + [] == xs;
  }

  /** A write of `news` torn after `b` bytes leaves a prefix of the records. */
  lemma {:induction false} TornWrite<T(!new)>(c: Codec<T>, news: seq<T>, b: nat)
    requires GoodCodec(c) && AllStorable(c, news) && b <= |EncodeAll(c, news)|
    ensures Records(c, EncodeAll(c, news)[..b]) <= news
    decreases |news|
  {
    if news != [] && b >= c.width {
      var f := EncodeAll(c, news)[..b];
      assert f[..c.width] == c.enc(news[0]);
      assert f[c.width..] == EncodeAll(c, news[1..])[..b - c.width];
      TornWrite(c, news[1..], b - c.width);
    }
  }

  // Crash safety of a log rewrite

  /** A content that the file passes through while the stored log `was` is cut to `k` records and
      then extended by `news`: the old file, or the kept records followed by some bytes of the
      new ones. */
  ghost predicate DuringRewrite<T>(c: Codec<T>, was: seq<T>, k: nat, news: seq<T>, file: seq<int>)
    requires k <= |was|
  {
    || file == EncodeAll(c, was)
    || (exists b :: 0 <= b <= |EncodeAll(c, news)| && file == EncodeAll(c, was[..k]) + EncodeAll(c, news)[..b])
  }

  /** A crash at any byte of a log rewrite: what the next start reads is the old log, or a prefix of the
      new one that holds every record that the rewrite keeps. */
  lemma CrashPrefixSafety<T(!new)>(c: Codec<T>, was: seq<T>, k: nat, news: seq<T>, file: seq<int>)
    requires GoodCodec(c) && AllStorable(c, was) && AllStorable(c, news)
    requires k <= |was| && DuringRewrite(c, was, k, news, file)
    ensures var read := Records(c, file);
      read == was || was[..k] <= read <= was[..k] + news
  {
    if file == EncodeAll(c, was) {
      ReadBackAll(c, was);
    } else {
      var b :| 0 <= b <= |EncodeAll(c, news)| && file == EncodeAll(c, was[..k]) + EncodeAll(c, news)[..b];
      ReadBack(c, was[..k], EncodeAll(c, news)[..b]);
      TornWrite(c, news, b);
    }
  }

  /** Cutting a file at a record boundary drops whatever follows the records, a torn tail included. */
  lemma CutFile<T(!new)>(c: Codec<T>, xs: seq<T>, file: seq<int>, k: nat)
    requires GoodCodec(c) && AllStorable(c, xs) && EncodeAll(c, xs) <= file && k <= |xs|
    ensures k * c.width <= |file| && file[..k * c.width] == EncodeAll(c, xs[..k])
  {
    EncodeTake(c, xs, k);
  }

  /** A vector of `size` items: the first ones of `xs`, then as many of `blank` as are missing. */
  function Resized<T>(xs: seq<T>, size: nat, blank: T): (r: seq<T>)
    ensures |r| == size
  {
    if size <= |xs| then xs[..size] else xs + seq(size - |xs|, _ => blank)
  }

  lemma ResizedStorable<T>(c: Codec<T>, xs: seq<T>, size: nat, blank: T)
    requires AllStorable(c, xs) && (size > |xs| ==> c.storable(blank))
    ensures AllStorable(c, Resized(xs, size, blank))
  {
  }

  // The vector

  class PersistentVector<T(!new)> {
    const codec: Codec<T>
    const preproc: T -> T
    const blank: T  // what the vector fills up with when it grows
    var items: seq<T>
    var file: seq<int>
    var persistedItems: nat
    ghost var contents: seq<seq<int>>  // everything the file has held, byte by byte

    /** The items as they are stored. */
    ghost function Stored(): seq<T>
      reads this
    {
      seq(|items|, i requires 0 <= i < |items| reads this => preproc(items[i]))
    }

    /** The file holds exactly the persisted items, in whole records. */
    ghost predicate Valid()
      reads this
    {
      && GoodCodec(codec) && AllStorable(codec, Stored())
      && persistedItems <= |items| && file == EncodeAll(codec, Stored()[..persistedItems])
    }

    /** The same, except that bytes of a torn record may follow, as after a restart. */
    ghost predicate ValidButTail()
      reads this
    {
      && GoodCodec(codec) && AllStorable(codec, Stored())
      && persistedItems <= |items| && EncodeAll(codec, Stored()[..persistedItems]) <= file
    }

    /** A new vector over an existing file, or over an emptied one. */
    constructor (codec: Codec<T>, preproc: T -> T, blank: T, existing: seq<int>, withBootstrap: bool)
      requires GoodCodec(codec)
      ensures this.codec == codec && this.preproc == preproc && this.blank == blank
      ensures items == if withBootstrap then Records(codec, existing) else []
      ensures file == if withBootstrap then existing else []
      ensures persistedItems == |items|
    {
      this.codec := codec;
      this.preproc := preproc;
      this.blank := blank;
      items := [];
      file := existing;
      persistedItems := 0;
      contents := [];
      new;
      if withBootstrap {
        Bootstrap();
        persistedItems := |items|;
      } else {
        file := [];
      }
    }

    /** Reads the whole records of the file. The resize at the end of the code's version runs
        while no item counts as persisted, so it leaves the file as it is. */
    method Bootstrap()
      requires codec.width > 0 && items == []
      modifies this`items
      ensures items == Records(codec, file)
    {
      items := ReadRecords(codec, file);
    }

    method PushBack(x: T)
      requires Valid() && codec.storable(preproc(x))
      modifies this`items
      ensures Valid() && items == old(items) + [x]
    {
      items := items + [x];
      assert Stored() == old(Stored()) + [preproc(x)];
      assert Stored()[..persistedItems] == old(Stored())[..persistedItems];
    }

    /** Cuts the vector, and the file with it when no more than the persisted items are left, or fills it
        up. Cutting the file drops a torn tail too, even if every item is kept; filling up does not. */
    method Resize(newSize: nat)
      requires ValidButTail() && (newSize > persistedItems ==> Valid())
      requires newSize > |items| ==> codec.storable(preproc(blank))
      modifies this
      ensures Valid() && items == Resized(old(items), newSize, blank)
      ensures persistedItems == if newSize <= old(persistedItems) then newSize else old(persistedItems)
      ensures contents == if newSize <= old(persistedItems) then old(contents) + [file] else old(contents)
    {
      ghost var stored, kept := Stored(), persistedItems;
      if newSize <= persistedItems {
        CutFile(codec, stored[..kept], file, newSize);
        assert stored[..kept][..newSize] == stored[..newSize];
        file := file[..newSize * codec.width];
        persistedItems := newSize;
        contents := contents + [file];
      }
      items := Resized(items, newSize, blank);
      assert Stored() == Resized(stored, newSize, preproc(blank));
      ResizedStorable(codec, stored, newSize, preproc(blank));
      assert Stored()[..persistedItems] == stored[..persistedItems];
    }

    /** Appends the items not yet stored, one record at a time. Every content of the file on the
        way lies between the file before and the file after. */
    method Persist()
      requires Valid()
      modifies this`file, this`persistedItems, this`contents
      ensures Valid() && persistedItems == |items|
      ensures GrewBy(old(file), file, old(contents), contents)
    {
      ghost var all := Stored();
      var i := persistedItems;
      while i < |items|
        invariant persistedItems <= i <= |items|
        invariant file == EncodeAll(codec, all[..i])
        invariant GrewBy(old(file), file, old(contents), contents)
      {
        var record := codec.enc(preproc(items[i]));
        EncodeSnoc(codec, all, i);
        GrewMore(old(file), file, old(contents), contents, record);
        contents := contents + ByteSteps(file, record);
        file := file + record;
        i := i + 1;
      }
      persistedItems := |items|;
      assert Stored() == all && all[..|items|] == all;
    }
  }

  /** Contents between the cut file and the rewritten file are kept records and some new bytes. */
  lemma RewriteContents<T>(c: Codec<T>, was: seq<T>, k: nat, news: seq<T>, cut: seq<int>, end: seq<int>)
    requires k <= |was| && cut == EncodeAll(c, was[..k])
    requires end == EncodeAll(c, was[..k] + news)
    ensures forall f {:trigger DuringRewrite(c, was, k, news, f)} :: cut <= f <= end ==>
      DuringRewrite(c, was, k, news, f)
  {
    EncodeConcat(c, was[..k], news);
    forall f | cut <= f <= end ensures DuringRewrite(c, was, k, news, f) {
      var b := |f| - |cut|;
      assert f == cut + EncodeAll(c, news)[..b];
    }
  }

  /** The file only grew from `was` to `file`, and the contents recorded meanwhile lie between. */
  ghost predicate GrewBy(was: seq<int>, file: seq<int>, before: seq<seq<int>>, contents: seq<seq<int>>) {
    && was <= file && before <= contents
    && (forall j :: |before| <= j < |contents| ==> was <= contents[j] <= file)
  }

  lemma GrewMore(was: seq<int>, file: seq<int>, before: seq<seq<int>>, contents: seq<seq<int>>, record: seq<int>)
    requires GrewBy(was, file, before, contents)
    ensures GrewBy(was, file + record, before, contents + ByteSteps(file, record))
  {
    var steps, all := ByteSteps(file, record), contents + ByteSteps(file, record);
    forall j | |before| <= j < |all| ensures was <= all[j] <= file + record {
      if j >= |contents| { assert all[j] == steps[j - |contents|] == file + record[..j - |contents| + 1]; }
    }
  }

  /** The contents of a file while `record` is appended to it, one byte after the other. */
  ghost function ByteSteps(file: seq<int>, record: seq<int>): seq<seq<int>> {
    seq(|record|, j requires 0 <= j < |record| => file + record[..j + 1])
  }

  // What a torn tail does

  /** After a start over a file of whole records and a tail shorter than one, the vector is
      consistent with its file exactly when there is no tail: the start does not trim it. */
  lemma TornTailStays<T(!new)>(c: Codec<T>, xs: seq<T>, tail: seq<int>)
    requires GoodCodec(c) && AllStorable(c, xs) && |tail| < c.width
    ensures var file := EncodeAll(c, xs) + tail;
      Records(c, file) == xs && (file == EncodeAll(c, Records(c, file)) <==> tail == [])
  {
    ReadBack(c, xs, tail);
    assert xs + [] == xs;
  }

  lemma OneRecord<T(!new)>(c: Codec<T>, rest: seq<int>)
    requires c.width > 0 && c.width <= |rest| < c.width + c.width
    ensures Records(c, rest) == [c.dec(rest[..c.width])]
  {
    assert Records(c, rest[c.width..]) == [];
  }

  /** A store that does not cut the file first, which is a leader's, puts its record after the tail, and the
      record is read back misaligned, starting with the tail. */
  lemma TornTailMisreads<T(!new)>(c: Codec<T>, xs: seq<T>, tail: seq<int>, x: T)
    requires GoodCodec(c) && AllStorable(c, xs) && c.storable(x)
    requires 0 < |tail| < c.width
    ensures Records(c, EncodeAll(c, xs) + tail + c.enc(x)) == xs + [c.dec(tail + c.enc(x)[..c.width - |tail|])]
  {
    var record := c.enc(x);
    AfterTail(tail, record, c.width);
    OneRecord(c, tail + record);
    ReadBack(c, xs, tail + record);
    Reassociate(EncodeAll(c, xs), tail, record);
  }

  /** A rewrite, which is a follower's, cuts the file to the kept records first: the tail is gone. */
  lemma TornTailCut<T(!new)>(c: Codec<T>, xs: seq<T>, tail: seq<int>, k: nat)
    requires GoodCodec(c) && AllStorable(c, xs) && k <= |xs|
    ensures k * c.width <= |EncodeAll(c, xs) + tail|
    ensures (EncodeAll(c, xs) + tail)[..k * c.width] == EncodeAll(c, xs[..k])
  {
    CutFile(c, xs, EncodeAll(c, xs) + tail, k);
  }

  lemma AfterTail(tail: seq<int>, record: seq<int>, width: nat)
    requires |record| == width && 0 < |tail| < width
    ensures width <= |tail + record| < width + width
    ensures (tail + record)[..width] == tail + record[..width - |tail|]
  {
  }

  lemma Reassociate(a: seq<int>, b: seq<int>, c: seq<int>)
    ensures a + b + c == a + (b + c)
  {
  }
}
