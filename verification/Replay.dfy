/** Restart replay: a restarted replica releases its committed operations again from the first one,
    over a store that already holds their effects. */
module Replay {
  import opened RaftTypes
  import opened RaftCluster
  import opened ClusterSafety

  type Database = map<int, int>

  /** What executing one operation does to the store. */
  function Apply(db: Database, op: RaftOp): Database {
    match op.command
    case Put(key, val) => db[key := val]
    case _ => db
  }

  function ApplyAll(db: Database, ops: seq<RaftOp>): Database
    decreases |ops|
  {
    if ops == [] then db else Apply(ApplyAll(db, ops[..|ops| - 1]), ops[|ops| - 1])
  }

  /** The value that `ops` leave for `key`, if they write it at all. */
  function LastPut(ops: seq<RaftOp>, key: int): Option<int>
    decreases |ops|
  {
    if ops == [] then None
    else
      var c := ops[|ops| - 1].command;
      if c.Put? && c.key == key then Some(c.val) else LastPut(ops[..|ops| - 1], key)
  }

  function Get(db: Database, key: int): Option<int> {
    if key in db then Some(db[key]) else None
  }

  /** Executing operations gives each key its last written value, and its old one if none. */
  lemma {:induction false} ApplyAllGet(db: Database, ops: seq<RaftOp>, key: int)
    ensures Get(ApplyAll(db, ops), key) == if LastPut(ops, key).Some? then LastPut(ops, key) else Get(db, key)
    decreases |ops|
  {
    if ops != [] { ApplyAllGet(db, ops[..|ops| - 1], key); }
  }

  /** What a prefix writes, the whole writes too. */
  lemma {:induction false} PrefixPuts(ops: seq<RaftOp>, m: nat, key: int)
    requires m <= |ops| && LastPut(ops[..m], key).Some?
    ensures LastPut(ops, key).Some?
    decreases |ops|
  {
    if m < |ops| {
      assert ops[..|ops| - 1][..m] == ops[..m];
      PrefixPuts(ops[..|ops| - 1], m, key);
    } else {
      assert ops[..m] == ops;
    }
  }

  lemma SameGetsSameMap(a: Database, b: Database)
    requires forall key :: Get(a, key) == Get(b, key)
    ensures a == b
  {
    forall key ensures key in a <==> key in b { assert Get(a, key) == Get(b, key); }
    forall key | key in a ensures a[key] == b[key] { assert Get(a, key) == Get(b, key); }
  }

  /** Re-executing a committed sequence over a store that holds the effect of any prefix of it gives
      the store that executing it once gives. */
  lemma ReplayOverPrefix(db: Database, ops: seq<RaftOp>, m: nat)
    requires m <= |ops|
    ensures ApplyAll(ApplyAll(db, ops[..m]), ops) == ApplyAll(db, ops)
  {
    var a, b := ApplyAll(ApplyAll(db, ops[..m]), ops), ApplyAll(db, ops);
    forall key ensures Get(a, key) == Get(b, key) {
      ApplyAllGet(ApplyAll(db, ops[..m]), ops, key);
      ApplyAllGet(db, ops[..m], key);
      ApplyAllGet(db, ops, key);
      if LastPut(ops[..m], key).Some? { PrefixPuts(ops, m, key); }
    }
    SameGetsSameMap(a, b);
  }

  /** The store after several incarnations, each of which executed some prefix of `ops`. */
  function Incarnations(db: Database, ops: seq<RaftOp>, lengths: seq<nat>): Database
    decreases |lengths|
  {
    if lengths == [] then db else
      var m := lengths[|lengths| - 1];
      ApplyAll(Incarnations(db, ops, lengths[..|lengths| - 1]), if m <= |ops| then ops[..m] else ops)
  }

  lemma {:induction false} IncarnationsGet(db: Database, ops: seq<RaftOp>, lengths: seq<nat>, key: int)
    requires LastPut(ops, key).None?
    ensures Get(Incarnations(db, ops, lengths), key) == Get(db, key)
    decreases |lengths|
  {
    if lengths != [] {
      var m := lengths[|lengths| - 1];
      var before := Incarnations(db, ops, lengths[..|lengths| - 1]);
      IncarnationsGet(db, ops, lengths[..|lengths| - 1], key);
      ApplyAllGet(before, if m <= |ops| then ops[..m] else ops, key);
      if m <= |ops| && LastPut(ops[..m], key).Some? { PrefixPuts(ops, m, key); }
    }
  }

  /** Any number of crashes, each after any part of the sequence: once the sequence has been
      executed to its end, the store is as if nothing had ever been executed twice. */
  lemma ReplayOverIncarnations(db: Database, ops: seq<RaftOp>, lengths: seq<nat>)
    ensures ApplyAll(Incarnations(db, ops, lengths), ops) == ApplyAll(db, ops)
  {
    var past := Incarnations(db, ops, lengths);
    forall key ensures Get(ApplyAll(past, ops), key) == Get(ApplyAll(db, ops), key) {
      ApplyAllGet(past, ops, key);
      ApplyAllGet(db, ops, key);
      if LastPut(ops, key).None? { IncarnationsGet(db, ops, lengths, key); }
    }
    SameGetsSameMap(ApplyAll(past, ops), ApplyAll(db, ops));
  }

  /** Re-executing only the first `n` of `m > n` executed operations gives the store of the first `n`
      exactly when the rest wrote, to keys that the first `n` do not write, nothing new. */
  lemma ShorterReplay(db: Database, ops: seq<RaftOp>, n: nat)
    requires n <= |ops|
    ensures ApplyAll(ApplyAll(db, ops), ops[..n]) == ApplyAll(db, ops[..n]) <==>
      forall key :: LastPut(ops[..n], key).None? && LastPut(ops, key).Some? ==> LastPut(ops, key) == Get(db, key)
  {
    var a, b := ApplyAll(ApplyAll(db, ops), ops[..n]), ApplyAll(db, ops[..n]);
    forall key ensures Get(a, key) == Get(b, key) <==>
      (LastPut(ops[..n], key).None? && LastPut(ops, key).Some? ==> LastPut(ops, key) == Get(db, key))
    {
      ApplyAllGet(ApplyAll(db, ops), ops[..n], key);
      ApplyAllGet(db, ops, key);
      ApplyAllGet(db, ops[..n], key);
    }
    if forall key :: Get(a, key) == Get(b, key) {
      SameGetsSameMap(a, b);
    }
  }

  /** So while a restarted replica has not yet caught up, its store may show later writes. */
  lemma ShorterReplayDiffers()
    ensures var ops := [RaftOp(Put(1, 1), None), RaftOp(Put(2, 2), None)];
      ApplyAll(ApplyAll(map[], ops), ops[..1]) != ApplyAll(map[], ops[..1])
  {
    var ops := [RaftOp(Put(1, 1), None), RaftOp(Put(2, 2), None)];
    ShorterReplay(map[], ops, 1);
    assert ops[..1] == [ops[0]] && ops[..1][..0] == [];
    assert LastPut(ops[..1], 2).None? && LastPut(ops, 2) == Some(2);
  }

  // Promises do not matter

  lemma {:induction false} ApplyPlain(db: Database, ops: seq<RaftOp>)
    ensures ApplyAll(db, PlainOps(ops)) == ApplyAll(db, ops)
    decreases |ops|
  {
    if ops != [] {
      ApplyPlain(db, ops[..|ops| - 1]);
      assert PlainOps(ops)[..|ops| - 1] == PlainOps(ops[..|ops| - 1]);
    }
  }

  /** In every run: once a replica has released at least as many operations as any replica `b`, or it
      itself before a restart, had executed of its own, executing them over the store that those left
      gives the store of executing them once. */
  lemma ReplayInRuns(members: set<int>, run: seq<Action>, i: nat, j: nat, a: int, b: int, db: Database)
    requires Run(members, run) && i <= |run| && j <= |run| && a in members && b in members
    requires |NodeAt(members, run, i, b).released| <= |NodeAt(members, run, j, a).released|
    ensures var p, q := NodeAt(members, run, i, b).released, NodeAt(members, run, j, a).released;
      ApplyAll(ApplyAll(db, p), q) == ApplyAll(db, q)
  {
    var p, q := NodeAt(members, run, i, b).released, NodeAt(members, run, j, a).released;
    StateMachineSafety(members, run, i, j, b, a);
    assert PlainOps(p) == PlainOps(q)[..|p|];
    ReplayOverPrefix(db, PlainOps(q), |p|);
    ApplyPlain(db, p);
    ApplyPlain(db, q);
    ApplyPlain(ApplyAll(db, p), q);
  }
}
