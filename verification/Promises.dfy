/** Client promises: handles into a shared store, each good for one removal. */
module Promises {
  import opened RaftTypes
  import Replay

  datatype Outcome = Executed | Aborted | Withdrawn

  /** What a client is told. */
  datatype Reply = Value(value: Option<int>) | Done(ok: bool)

  /** A removal: which handle, why, whether its promise was still there, and what it was then given. */
  datatype Taken = Taken(handle: nat, outcome: Outcome, found: bool, reply: Option<Reply>)

  /** The store and its past. Handles are numbered in the order of insertion. */
  datatype Ledger = Ledger(store: set<nat>, nextHandle: nat, taken: seq<Taken>)

  function Inserted(l: Ledger): Ledger {
    l.(store := l.store + {l.nextHandle}, nextHandle := l.nextHandle + 1)
  }

  function Take(l: Ledger, h: nat, why: Outcome, reply: Option<Reply>): Ledger {
    l.(store := l.store - {h}, taken := l.taken + [Taken(h, why, h in l.store, reply)])
  }

  /** Executing or aborting an operation removes its promise if it has one, and gives it the reply. */
  function TakeOp(l: Ledger, op: RaftOp, why: Outcome, reply: Reply): Ledger {
    if op.promiseHandle.Some? then Take(l, op.promiseHandle.value, why, Some(reply)) else l
  }

  /** Executing an operation over the store of values `db`. */
  function ExecuteOp(l: Ledger, op: RaftOp, db: Replay.Database): Ledger {
    TakeOp(l, op, Executed, Answer(op.command, db))
  }

  /** Aborting operations, one after the other. */
  function AbortEach(l: Ledger, ops: seq<RaftOp>): Ledger
    decreases |ops|
  {
    if ops == [] then l else
      var last := ops[|ops| - 1];
      TakeOp(AbortEach(l, ops[..|ops| - 1]), last, Aborted, Failure(last.command))
  }

  function Answer(c: Command, db: Replay.Database): Reply {
    if c.Get? then Value(Replay.Get(db, c.key)) else Done(true)
  }

  function Failure(c: Command): Reply {
    if c.Get? then Value(None) else Done(false)
  }

  /** The handle of one operation, if it has one. */
  function HandleOf(op: RaftOp): multiset<nat> {
    if op.promiseHandle.Some? then multiset{op.promiseHandle.value} else multiset{}
  }

  /** The handles that the first `k` operations carry. */
  function HandlesUpTo(ops: seq<RaftOp>, k: nat): multiset<nat>
    requires k <= |ops|
  {
    if k == 0 then multiset{} else HandlesUpTo(ops, k - 1) + HandleOf(ops[k - 1])
  }

  /** The handles that a sequence of operations carries. */
  function Handles(ops: seq<RaftOp>): multiset<nat> {
    HandlesUpTo(ops, |ops|)
  }

  lemma {:induction false} HandlesPrefix(a: seq<RaftOp>, b: seq<RaftOp>, k: nat)
    requires k <= |a|
    ensures HandlesUpTo(a + b, k) == HandlesUpTo(a, k)
  {
    if k > 0 { HandlesPrefix(a, b, k - 1); }
  }

  lemma {:induction false} HandlesRest(a: seq<RaftOp>, b: seq<RaftOp>, k: nat)
    requires k <= |b|
    ensures HandlesUpTo(a + b, |a| + k) == Handles(a) + HandlesUpTo(b, k)
  {
    if k == 0 { HandlesPrefix(a, b, |a|); } else { HandlesRest(a, b, k - 1); }
  }

  lemma HandlesConcat(a: seq<RaftOp>, b: seq<RaftOp>)
    ensures Handles(a + b) == Handles(a) + Handles(b)
  {
    HandlesRest(a, b, |b|);
  }

  lemma HandlesSnoc(ops: seq<RaftOp>, op: RaftOp)
    ensures Handles(ops + [op]) == Handles(ops) + HandleOf(op)
  {
    HandlesConcat(ops, [op]);
    assert HandlesUpTo([op], 1) == HandlesUpTo([op], 0) + HandleOf(op);
  }

  lemma {:induction false} NoHandlesUpTo(ops: seq<RaftOp>, k: nat)
    requires k <= |ops| && forall i :: 0 <= i < |ops| ==> ops[i].promiseHandle.None?
    ensures HandlesUpTo(ops, k) == multiset{}
  {
    if k > 0 { NoHandlesUpTo(ops, k - 1); }
  }

  lemma NoHandles(ops: seq<RaftOp>)
    requires forall i :: 0 <= i < |ops| ==> ops[i].promiseHandle.None?
    ensures Handles(ops) == multiset{}
  {
    NoHandlesUpTo(ops, |ops|);
  }

  /** Every removal so far found its promise, and no handle was removed twice. */
  predicate Linear(taken: seq<Taken>) {
    && (forall i :: 0 <= i < |taken| ==> taken[i].found)
    && (forall i, j :: 0 <= i < j < |taken| ==> taken[i].handle != taken[j].handle)
  }

  /** A ledger in which nothing can go wrong yet: stored handles have never been removed. */
  predicate Sound(l: Ledger) {
    && Linear(l.taken)
    && (forall h :: h in l.store ==> h < l.nextHandle)
    && (forall i :: 0 <= i < |l.taken| ==> l.taken[i].handle < l.nextHandle && l.taken[i].handle !in l.store)
  }

  lemma InsertedSound(l: Ledger)
    requires Sound(l)
    ensures Sound(Inserted(l)) && l.nextHandle !in l.store
  {
  }

  /** Aborting operations whose handles are in the store, each once, keeps the ledger sound and leaves
      exactly the other handles in the store. */
  lemma {:induction false} AbortEachSound(l: Ledger, ops: seq<RaftOp>, rest: multiset<nat>)
    requires Sound(l) && Handles(ops) + rest == multiset(l.store)
    ensures Sound(AbortEach(l, ops)) && rest == multiset(AbortEach(l, ops).store)
    ensures AbortEach(l, ops).nextHandle == l.nextHandle
    decreases |ops|
  {
    if ops != [] {
      var init, last := ops[..|ops| - 1], ops[|ops| - 1];
      var mine := HandleOf(last);
      HandlesSnoc(init, last);
      assert init + [last] == ops;
      assert Handles(init) + (mine + rest) == Handles(ops) + rest;
      AbortEachSound(l, init, mine + rest);
      if last.promiseHandle.Some? {
        TakeSound(AbortEach(l, init), last.promiseHandle.value, Aborted, Some(Failure(last.command)), rest);
      }
    }
  }

  lemma TakeSound(l: Ledger, h: nat, why: Outcome, reply: Option<Reply>, rest: multiset<nat>)
    requires Sound(l) && multiset{h} + rest == multiset(l.store)
    ensures Sound(Take(l, h, why, reply)) && rest == multiset(Take(l, h, why, reply).store)
  {
    assert (multiset{h} + rest)[h] >= 1;
    assert h in l.store;
    forall g ensures rest[g] == multiset(l.store - {h})[g] {
      assert (multiset{h} + rest)[g] == multiset(l.store)[g];
    }
  }

  /** The next operation's promise is still there when its turn comes. */
  lemma AbortOneMore(l: Ledger, ops: seq<RaftOp>, i: nat)
    requires Sound(l) && Handles(ops) <= multiset(l.store) && i < |ops|
    ensures var next := AbortEach(l, ops[..i]);
      && AbortEach(l, ops[..i + 1]) == TakeOp(next, ops[i], Aborted, Failure(ops[i].command))
      && (ops[i].promiseHandle.Some? ==> ops[i].promiseHandle.value in next.store)
  {
    assert ops[..i + 1][..i] == ops[..i];
    var mine := HandleOf(ops[i]);
    var rest := multiset(l.store) - Handles(ops);
    TwoParts(ops, i);
    assert Handles(ops[..i]) + (mine + Handles(ops[i + 1..]) + rest) == multiset(l.store);
    AbortEachSound(l, ops[..i], mine + Handles(ops[i + 1..]) + rest);
    if ops[i].promiseHandle.Some? {
      assert (mine + Handles(ops[i + 1..]) + rest)[ops[i].promiseHandle.value] >= 1;
    }
  }

  lemma TwoParts(ops: seq<RaftOp>, i: nat)
    requires i < |ops|
    ensures Handles(ops) == Handles(ops[..i]) + (HandleOf(ops[i]) + Handles(ops[i + 1..]))
  {
    HandlesSnoc(ops[..i], ops[i]);
    assert ops[..i] + [ops[i]] == ops[..i + 1];
    HandlesConcat(ops[..i + 1], ops[i + 1..]);
    assert ops[..i + 1] + ops[i + 1..] == ops;
  }

  // The store itself

  /** One client's end of a call, named by a number. */
  type Promise = nat

  class PromiseStore {
    var store: map<nat, Promise>
    var nextHandle: nat
    var replies: map<Promise, Reply>   // what each fulfilled promise was given
    ghost var taken: seq<Taken>

    ghost function View(): Ledger
      reads this
    {
      Ledger(store.Keys, nextHandle, taken)
    }

    constructor ()
      ensures View() == Ledger({}, 0, []) && replies == map[]
    {
      store, nextHandle, replies, taken := map[], 0, map[], [];
    }

    method Insert(p: Promise) returns (h: nat)
      modifies this
      ensures View() == Inserted(old(View())) && h == old(nextHandle) && replies == old(replies)
      ensures store == old(store)[h := p]
    {
      h := nextHandle;
      store := store[h := p];
      nextHandle := nextHandle + 1;
    }

    /** Removing a handle that is not there is undefined. */
    method GetAndRemove(h: nat, ghost why: Outcome, ghost reply: Option<Reply>) returns (p: Promise)
      requires h in store
      modifies this`store, this`taken
      ensures View() == Take(old(View()), h, why, reply)
      ensures p == old(store)[h] && store == old(store) - {h}
    {
      taken := taken + [Taken(h, why, true, reply)];
      p := store[h];
      store := store - {h};
    }

    /** Executes one operation and answers its client. An operation of an unknown kind is aborted,
        which its handle would not survive, but no client can submit one. */
    method Execute(op: RaftOp, db: map<int, int>) returns (after: RaftOp, db': map<int, int>)
      requires op.promiseHandle.Some? ==> op.promiseHandle.value in store && !op.command.Unknown?
      modifies this
      ensures View() == ExecuteOp(old(View()), op, db)
      ensures db' == Replay.Apply(db, op) && after == op.WithoutPromise()
      ensures store == Kept(old(store), op)
      ensures replies == Told(old(replies), old(store), op, Answer(op.command, db))
    {
      db' := db;
      var res := Done(true);
      match op.command {
        case Get(key) => res := Value(if key in db then Some(db[key]) else None);
        case Put(key, val) => db' := db[key := val];
        case _ =>
      }
      after := op;
      if op.promiseHandle.Some? {
        var p := GetAndRemove(op.promiseHandle.value, Executed, Some(res));
        replies := replies[p := res];
        after := after.(promiseHandle := None);
      }
    }

    /** Aborts one operation: its client is told that it failed. */
    method Abort(op: RaftOp) returns (after: RaftOp)
      requires op.promiseHandle.Some? ==> op.promiseHandle.value in store && !op.command.Unknown?
      modifies this
      ensures View() == TakeOp(old(View()), op, Aborted, Failure(op.command)) && after == op.WithoutPromise()
      ensures store == Kept(old(store), op)
      ensures replies == Told(old(replies), old(store), op, Failure(op.command))
    {
      after := op;
      if op.promiseHandle.None? {
        return;
      }
      var p := GetAndRemove(op.promiseHandle.value, Aborted, Some(Failure(op.command)));
      var res := if op.command.Get? then Value(None) else Done(false);
      replies := replies[p := res];
      after := after.(promiseHandle := None);
    }

    /** The follower's loop over the entries it is about to cut off. */
    method AbortAll(ops: seq<RaftOp>)
      requires Sound(View()) && Handles(ops) <= multiset(store.Keys)
      requires forall i :: 0 <= i < |ops| && ops[i].promiseHandle.Some? ==> !ops[i].command.Unknown?
      modifies this
      ensures View() == AbortEach(old(View()), ops)
    {
      for i := 0 to |ops|
        invariant View() == AbortEach(old(View()), ops[..i])
      {
        AbortOneMore(old(View()), ops, i);
        var _ := Abort(ops[i]);
      }
      assert ops[..|ops|] == ops;
    }
  }

  /** The store without the operation's promise. */
  function Kept(store: map<nat, Promise>, op: RaftOp): map<nat, Promise> {
    if op.promiseHandle.Some? then store - {op.promiseHandle.value} else store
  }

  /** The operation's client, if there is one, has been given `reply`. */
  function Told(replies: map<Promise, Reply>, store: map<nat, Promise>, op: RaftOp, reply: Reply)
    : map<Promise, Reply>
    requires op.promiseHandle.Some? ==> op.promiseHandle.value in store
  {
    if op.promiseHandle.Some? then replies[store[op.promiseHandle.value] := reply] else replies
  }
}
