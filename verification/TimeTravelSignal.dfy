/** The hand-off signal: a producer never blocks, the one consumer blocks only if no signal came
    since it last passed, and signals sent meanwhile count as one. */
module TimeTravelSignal {

  /** `noBlock`: a signal is waiting to be consumed. `waiting`: the consumer is blocked. */
  datatype Flags = Flags(noBlock: bool, waiting: bool)

  datatype WaitResult = Passed | Blocked | AlreadyWaiting

  /** The flags after a signal, and whether it wakes the blocked consumer. */
  function Signalled(f: Flags): (Flags, bool) {
    if f.noBlock then (f, false)
    else if f.waiting then (f.(waiting := false), true)
    else (f.(noBlock := true), false)
  }

  function Waited(f: Flags): (Flags, WaitResult) {
    if f.waiting then (f, AlreadyWaiting)
    else if f.noBlock then (f.(noBlock := false), Passed)
    else (f.(waiting := true), Blocked)
  }

  class TimeTravelSignal {
    var noBlock: bool
    var waiting: bool

    function View(): Flags
      reads this
    {
      Flags(noBlock, waiting)
    }

    constructor ()
      ensures View() == Flags(false, false)
    {
      noBlock, waiting := false, false;
    }

    method Signal() returns (wakes: bool)
      modifies this
      ensures (View(), wakes) == Signalled(old(View()))
    {
      wakes := false;
      if noBlock {
        return;
      }
      if waiting {
        waiting := false;
        wakes := true;
      } else {
        noBlock := true;
      }
    }

    /** The part of a wait before the consumer blocks, if it does. */
    method Wait() returns (r: WaitResult)
      modifies this
      ensures (View(), r) == Waited(old(View()))
    {
      if waiting {
        return AlreadyWaiting;
      }
      if noBlock {
        noBlock := false;
        r := Passed;
      } else {
        waiting := true;
        r := Blocked;
      }
    }
  }

  /** The flags after `k` signals in a row. */
  function Signals(f: Flags, k: nat): Flags {
    if k == 0 then f else Signalled(Signals(f, k - 1)).0
  }

  /** What signals are worth, however many there are between two waits. After a wait that passed, the next
      one passes exactly if there was a signal. After one that blocked, the first signal, and no other, wakes
      the consumer, and the next wait passes exactly if there was another. */
  lemma {:induction false} SignalsCount(f: Flags, k: nat)
    requires !f.waiting
    ensures var (g, r) := Waited(f);
      var h := Signals(g, k);
      && (r == Passed <==> f.noBlock) && (r == Blocked <==> !f.noBlock)
      && (h.waiting <==> r == Blocked && k == 0)
      && (k > 0 ==> (Signalled(Signals(g, k - 1)).1 <==> r == Blocked && k == 1))
      && (!h.waiting ==> (Waited(h).1 == Passed <==> k >= (if r == Blocked then 2 else 1)))
  {
    if k > 0 { SignalsCount(f, k - 1); }
  }
}
