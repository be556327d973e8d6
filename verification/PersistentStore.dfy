/** The key-value store for the term and the vote: one four-byte file per key, replaced through a
    temporary file and a rename. */
module PersistentStore {
  import opened RaftTypes
  import opened Int32Bytes

  type Files = map<string, seq<int>>

  function Filename(base: string, key: string): string {
    base + key + ".persist"
  }

  function TempName(base: string, key: string): string {
    Filename(base, key) + ".tmp"
  }

  /** No temporary file has the name of a value file, and different keys have different files. */
  lemma NamesDiffer(base: string, a: string, b: string)
    ensures TempName(base, a) != Filename(base, b)
    ensures Filename(base, a) == Filename(base, b) ==> a == b
  {
    var x, y := TempName(base, a), Filename(base, b);
    assert x[|x| - 1] == 'p' && y[|y| - 1] == 't';
    var f, g := Filename(base, a), Filename(base, b);
    assert f[|base|..|f| - 8] == a && g[|base|..|g| - 8] == b;
  }

  /** The first four bytes of the file as an integer; nothing if it is missing or shorter. */
  function LoadInt(files: Files, name: string): Option<int> {
    if name in files && |files[name]| >= 4 then Some(DecodeInt32(files[name][..4])) else None
  }

  /** `b` bytes of the value written over the start of what the temporary file held. */
  function Overwrite(before: seq<int>, val: int, b: nat): seq<int>
    requires b <= 4
  {
    EncodeInt32(val)[..b] + (if |before| > b then before[b..] else [])
  }

  function Held(files: Files, name: string): seq<int> {
    if name in files then files[name] else []
  }

  /** The files after `b` bytes of the temporary file have been written, before the rename. */
  function MidStore(files: Files, base: string, key: string, val: int, b: nat): Files
    requires b <= 4
  {
    files[TempName(base, key) := Overwrite(Held(files, TempName(base, key)), val, b)]
  }

  function Renamed(files: Files, base: string, key: string, val: int): Files {
    var content := Overwrite(Held(files, TempName(base, key)), val, 4);
    (files - {TempName(base, key)})[Filename(base, key) := content]
  }

  /** A crash at any point of a store leaves every key with its old value, and the rename gives
      the stored key its new value and no other key another one; whatever an earlier crash left
      in the temporary file. */
  lemma StoreIsAtomic(files: Files, base: string, key: string, val: int, other: string, b: nat)
    requires IsInt32(val) && b <= 4
    ensures LoadInt(MidStore(files, base, key, val, b), Filename(base, other)) == LoadInt(files, Filename(base, other))
    ensures LoadInt(Renamed(files, base, key, val), Filename(base, other)) ==
      if other == key then Some(val) else LoadInt(files, Filename(base, other))
  {
    NamesDiffer(base, key, other);
    Int32RoundTrip(val);
    var content := Overwrite(Held(files, TempName(base, key)), val, 4);
    assert content[..4] == EncodeInt32(val);
  }

  /** Every key has its value of before, or the stored key its new one. */
  ghost predicate OldOrNew(was: Files, now: Files, base: string, key: string, val: int) {
    forall k :: LoadInt(now, Filename(base, k)) == LoadInt(was, Filename(base, k))
                || (k == key && LoadInt(now, Filename(base, k)) == Some(val))
  }

  lemma MidOldOrNew(files: Files, base: string, key: string, val: int, b: nat)
    requires IsInt32(val) && b <= 4
    ensures OldOrNew(files, MidStore(files, base, key, val, b), base, key, val)
  {
    forall k ensures
      LoadInt(MidStore(files, base, key, val, b), Filename(base, k)) == LoadInt(files, Filename(base, k))
    {
      StoreIsAtomic(files, base, key, val, k, b);
    }
  }

  lemma RenamedValues(files: Files, base: string, key: string, val: int)
    requires IsInt32(val)
    ensures LoadInt(Renamed(files, base, key, val), Filename(base, key)) == Some(val)
    ensures forall k :: k != key ==>
      LoadInt(Renamed(files, base, key, val), Filename(base, k)) == LoadInt(files, Filename(base, k))
    ensures OldOrNew(files, Renamed(files, base, key, val), base, key, val)
  {
    forall k ensures LoadInt(Renamed(files, base, key, val), Filename(base, k)) ==
      if k == key then Some(val) else LoadInt(files, Filename(base, k))
    {
      StoreIsAtomic(files, base, key, val, k, 0);
    }
  }

  class Store {
    const base: string
    var files: Files
    ghost var history: seq<Files>  // every state of the files, write by write

    constructor (base: string, files: Files)
      ensures this.base == base && this.files == files && history == []
    {
      this.base := base;
      this.files := files;
      history := [];
    }

    /** The value a restart would load for `key`. */
    function Value(key: string): Option<int>
      reads this
    {
      LoadInt(files, Filename(base, key))
    }

    method Load(key: string, defaultVal: int) returns (r: int)
      ensures r == if Value(key).Some? then Value(key).value else defaultVal
    {
      var v := LoadInt(files, Filename(base, key));
      r := if v.Some? then v.value else defaultVal;
    }

    /** Replaces one value. Every state of the files on the way still has all the old values. */
    method Put(key: string, val: int)
      requires IsInt32(val)
      modifies this
      ensures Value(key) == Some(val)
      ensures forall k :: k != key ==> Value(k) == old(Value(k))
      ensures old(history) <= history
      ensures forall i :: |old(history)| <= i < |history| ==> OldOrNew(old(files), history[i], base, key, val)
    {
      ghost var was := files;
      ghost var mids := seq(5, b requires 0 <= b < 5 => MidStore(was, base, key, val, b));
      forall b | 0 <= b < 5 ensures OldOrNew(was, mids[b], base, key, val) {
        MidOldOrNew(was, base, key, val, b);
      }
      var tmp := TempName(base, key);
      files := files[tmp := Overwrite(Held(files, tmp), val, 4)];
      var content := files[tmp];
      files := (files - {tmp})[Filename(base, key) := content];
      assert files == Renamed(was, base, key, val);
      RenamedValues(was, base, key, val);
      history := history + mids + [files];
    }
  }
}
