/** The bus allocator of server/RustImpl/src/factory.rs: which slots of the shared bus inventory are
    given out, who waits for one, and which slots are to be emptied by the background task.

    The functions are the specification; the class below does the same with fields and loops. */
module Bus {
  import opened Common

  /** A ticket stands for one one-shot channel made by bus_allocate. */
  type Ticket = nat

  datatype Reply = Granted(slot: nat) | Refused

  datatype Send = Send(ticket: Ticket, reply: Reply)

  /** `running` says whether the factory remembers a background task. */
  datatype State = State(allocations: set<nat>, waiters: seq<Ticket>, freeQueue: seq<nat>, running: bool)

  const EMPTY := State({}, [], [], false)

  function Allocate(b: State, ticket: Ticket): State {
    b.(waiters := b.waiters + [ticket], running := true)
  }

  /** The caller promises that the slot is empty, so a waiter may have it at once. */
  function Free(b: State, slot: nat): State {
    if b.waiters != [] then b.(waiters := b.waiters[1..]) else b.(allocations := b.allocations - {slot})
  }

  /** The slots may hold items: they stay out of use until the background task has looked at them. */
  function Deposit(b: State, slots: seq<nat>): State {
    if b.running then b.(freeQueue := b.freeQueue + slots)
    else b.(allocations := b.allocations - SetOf(slots), running := slots != [])
  }

  function Give(b: State, slot: nat): State
    requires b.waiters != []
  {
    b.(allocations := b.allocations + {slot}, waiters := b.waiters[1..])
  }

  /** Hands listed free slots, last first, to waiters, oldest first. */
  function GiveAll(b: State, slots: seq<nat>): State
    decreases |slots|
  {
    if slots == [] || b.waiters == [] then b
    else GiveAll(Give(b, slots[|slots| - 1]), slots[..|slots| - 1])
  }

  /** These messages grant the slots, last first, to the waiters, oldest first, until slots or waiters run out. */
  predicate Granting(waiters: seq<Ticket>, slots: seq<nat>, news: seq<Send>) {
    && |news| == Min(|slots|, |waiters|)
    && forall i :: 0 <= i < |news| ==> news[i] == Send(waiters[i], Granted(slots[|slots| - 1 - i]))
  }

  /** These messages refuse each waiter a slot. */
  predicate Refusing(waiters: seq<Ticket>, news: seq<Send>) {
    |news| == |waiters| && forall i :: 0 <= i < |news| ==> news[i] == Send(waiters[i], Refused)
  }

  /** What handing out free slots changes: waiters are served until slots or waiters run out. */
  lemma {:induction false} GiveAllServes(b: State, slots: seq<nat>)
    ensures var b' := GiveAll(b, slots);
      && b.allocations <= b'.allocations <= b.allocations + SetOf(slots)
      && b'.freeQueue == b.freeQueue && b'.running == b.running
      && (b'.waiters != [] ==> SetOf(slots) <= b'.allocations)
      && |b'.waiters| == Max(0, |b.waiters| - |slots|) && b'.waiters == b.waiters[|b.waiters| - |b'.waiters|..]
    decreases |slots|
  {
    if slots != [] && b.waiters != [] {
      var n := |slots| - 1;
      assert slots == slots[..n] + [slots[n]];
      GiveAllServes(Give(b, slots[n]), slots[..n]);
    }
  }

  /** The slots of a listing, in order, that nobody has and that are listed as empty. */
  function FreeSlots(listing: seq<nat>, allocations: set<nat>): (slots: seq<nat>)
    ensures forall x :: x in slots <==> 0 <= x < |listing| && x !in allocations && listing[x] == 0
    ensures Distinct(slots)
  {
    if listing == [] then []
    else
      var i := |listing| - 1;
      var rest := FreeSlots(listing[..i], allocations);
      if i !in allocations && listing[i] == 0 then rest + [i] else rest
  }

  /** The end of a successful update: slots queued for emptying become free. */
  function Drain(b: State): State {
    b.(allocations := b.allocations - SetOf(b.freeQueue), freeQueue := [])
  }

  /** Whether a successful update is followed by another one. */
  predicate Rerun(b: State, everDeposited: bool) {
    b.freeQueue != [] || (everDeposited && b.waiters != [])
  }

  /** The allocator as the program has it: fields updated step by step. `sent` records the messages
      that went out through the one-shot channels. */
  class Allocator {
    var busTask: bool
    var busAllocations: set<nat>
    var busWaitQueue: seq<Ticket>
    var busFreeQueue: seq<nat>
    var sent: seq<Send>

    ghost function Abs(): State
      reads this
    {
      State(busAllocations, busWaitQueue, busFreeQueue, busTask)
    }

    constructor ()
      ensures Abs() == EMPTY && sent == []
    {
      busTask, busAllocations, busWaitQueue, busFreeQueue, sent := false, {}, [], [], [];
    }

    method BusAllocate(ticket: Ticket) returns (spawned: bool)
      modifies this
      ensures Abs() == Allocate(old(Abs()), ticket) && sent == old(sent)
      ensures spawned == !old(busTask)
    {
      busWaitQueue := busWaitQueue + [ticket];
      spawned := !busTask;
      if spawned {
        busTask := true;
      }
    }

    method BusFree(slot: nat)
      modifies this
      ensures Abs() == Free(old(Abs()), slot)
      ensures old(sent) <= sent && Granting(old(busWaitQueue), [slot], sent[|old(sent)|..])
    {
      if busWaitQueue != [] {
        var ticket := busWaitQueue[0];
        busWaitQueue := busWaitQueue[1..];
        sent := sent + [Send(ticket, Granted(slot))];
      } else {
        busAllocations := busAllocations - {slot};
      }
    }

    method BusDeposit(slots: seq<nat>) returns (spawned: bool)
      modifies this
      ensures Abs() == Deposit(old(Abs()), slots) && sent == old(sent)
      ensures spawned == (!old(busTask) && slots != [])
    {
      spawned := false;
      if !busTask {
        var everFreed := false;
        for i := 0 to |slots|
          invariant busAllocations == old(busAllocations) - SetOf(slots[..i])
          invariant everFreed == (i > 0)
          invariant !busTask && busWaitQueue == old(busWaitQueue)
          invariant busFreeQueue == old(busFreeQueue) && sent == old(sent)
        {
          busAllocations := busAllocations - {slots[i]};
          everFreed := true;
        }
        assert slots[..|slots|] == slots;
        if everFreed {
          busTask := true;
          spawned := true;
        }
      } else {
        busFreeQueue := busFreeQueue + slots;
      }
    }

    /** The synchronous middle of bus_update: sorts a listing into slots to store away and free slots,
        then hands the free ones out. */
    method TakeListing(listing: seq<nat>) returns (toStore: seq<nat>)
      modifies this
      ensures Abs() == GiveAll(old(Abs()), FreeSlots(listing, old(busAllocations)))
      ensures old(sent) <= sent
      ensures Granting(old(busWaitQueue), FreeSlots(listing, old(busAllocations)), sent[|old(sent)|..])
      ensures forall x :: x in toStore <==> 0 <= x < |listing| && x !in old(busAllocations) && listing[x] > 0
      ensures Distinct(toStore)
    {
      toStore := [];
      var freeSlots: seq<nat> := [];
      for slot := 0 to |listing|
        invariant freeSlots == FreeSlots(listing[..slot], busAllocations)
        invariant forall x :: x in toStore <==> 0 <= x < slot && x !in busAllocations && listing[x] > 0
        invariant Distinct(toStore)
        invariant Abs() == old(Abs()) && sent == old(sent)
      {
        assert listing[..slot + 1][..slot] == listing[..slot];
        if slot !in busAllocations {
          if listing[slot] > 0 {
            toStore := toStore + [slot];
          } else {
            freeSlots := freeSlots + [slot];
          }
        }
      }
      assert listing[..|listing|] == listing;
      GrantFree(freeSlots);
    }

    /** The last free slot goes to the oldest waiter, and so on, until slots or waiters run out. */
    method GrantFree(slots: seq<nat>)
      modifies this
      ensures Abs() == GiveAll(old(Abs()), slots)
      ensures old(sent) <= sent && Granting(old(busWaitQueue), slots, sent[|old(sent)|..])
    {
      var freeSlots := slots;
      ghost var waiters, k: nat := busWaitQueue, 0;
      while freeSlots != [] && busWaitQueue != []
        invariant GiveAll(Abs(), freeSlots) == GiveAll(old(Abs()), slots)
        invariant k <= |slots| && k <= |waiters| && freeSlots == slots[..|slots| - k] && busWaitQueue == waiters[k..]
        invariant old(sent) <= sent && |sent| == |old(sent)| + k
        invariant forall i :: 0 <= i < k ==> sent[|old(sent)| + i] == Send(waiters[i], Granted(slots[|slots| - 1 - i]))
        decreases |freeSlots|
      {
        var slot := freeSlots[|freeSlots| - 1];
        freeSlots := freeSlots[..|freeSlots| - 1];
        busAllocations := busAllocations + {slot};
        var ticket := busWaitQueue[0];
        busWaitQueue := busWaitQueue[1..];
        sent := sent + [Send(ticket, Granted(slot))];
        k := k + 1;
      }
    }

    /** The end of an update whose transfers all worked, and bus_main's decision to go on or stop. */
    method FinishUpdate(everDeposited: bool) returns (again: bool)
      modifies this
      ensures again == Rerun(old(Abs()), everDeposited)
      ensures again <==> old(busFreeQueue) != [] || (everDeposited && old(busWaitQueue) != [])
      ensures Abs() == if again then Drain(old(Abs())) else Drain(old(Abs())).(running := false)
      ensures sent == old(sent)
    {
      var everFreed := false;
      var queue := busFreeQueue;
      busFreeQueue := [];
      for i := 0 to |queue|
        invariant busAllocations == old(busAllocations) - SetOf(queue[..i])
        invariant everFreed == (i > 0)
        invariant busFreeQueue == [] && busWaitQueue == old(busWaitQueue)
        invariant busTask == old(busTask) && sent == old(sent)
      {
        busAllocations := busAllocations - {queue[i]};
        everFreed := true;
      }
      assert queue[..|queue|] == queue;
      again := everFreed || (everDeposited && busWaitQueue != []);
      if !again {
        busTask := false;
      }
    }

    /** bus_main after a failed update: every waiter is told, the task ends, the free queue stays. */
    method FailUpdate()
      modifies this
      ensures Abs() == old(Abs()).(waiters := [], running := false)
      ensures old(sent) <= sent && Refusing(old(busWaitQueue), sent[|old(sent)|..])
    {
      var queue := busWaitQueue;
      busWaitQueue := [];
      for i := 0 to |queue|
        invariant old(sent) <= sent && |sent| == |old(sent)| + i
        invariant forall k :: 0 <= k < i ==> sent[|old(sent)| + k] == Send(queue[k], Refused)
        invariant busWaitQueue == [] && busTask == old(busTask)
        invariant busAllocations == old(busAllocations) && busFreeQueue == old(busFreeQueue)
      {
        sent := sent + [Send(queue[i], Refused)];
      }
      busTask := false;
    }
  }
}
