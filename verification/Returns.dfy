/** How a job gives back what it has had of either bus, when it goes well and when it does not: at once, to whoever waits for
    it, or for the background task to empty it (the ends of execute_recipe, scattering_insert, extract_output,
    run_crafting_grid_process and extract_fluids). */
module Returns {
  import opened Common
  import opened Bus
  import opened BusSystem
  import opened BusRuns
  import opened BusJobs
  import opened JobRuns
  import opened FactoryRuns
  import F = FluidBus

  // ----- the two ways, for either bus

  /** Other slots are allocated and held as before. */
  ghost predicate SameElsewhere(b: State, held: map<nat, Ticket>, b': State, held': map<nat, Ticket>, slots: seq<nat>) {
    forall x :: x !in slots ==>
      && (x in b'.allocations <==> x in b.allocations) && (x in held' <==> x in held) && (x in held ==> held'[x] == held[x])
  }

  /** The first slots go to the oldest waiters, one each and in this order, the others are free; nothing is queued, and no task
      is started. */
  ghost predicate FreedAtOnce(b: State, held: map<nat, Ticket>, b': State, held': map<nat, Ticket>, slots: seq<nat>) {
    var n := Min(|slots|, |b.waiters|);
    && b'.freeQueue == b.freeQueue && b'.running == b.running && b'.waiters == b.waiters[n..]
    && (forall i :: 0 <= i < n ==> slots[i] in b'.allocations && slots[i] in held' && held'[slots[i]] == b.waiters[i])
    && (forall i :: n <= i < |slots| ==> slots[i] !in b'.allocations && slots[i] !in held')
    && SameElsewhere(b, held, b', held', slots)
  }

  /** Nobody gets the slots yet: a running task finds them in its queue, and stay allocated until then; else they are free, but
      for a task that is started to look at them. */
  ghost predicate LeftForTask(b: State, held: map<nat, Ticket>, b': State, held': map<nat, Ticket>, slots: seq<nat>) {
    && b'.waiters == b.waiters && (forall x :: x in slots ==> x !in held')
    && (if b.running then b'.running && b'.freeQueue == b.freeQueue + slots && forall x :: x in slots ==> x in b'.allocations
        else b'.freeQueue == b.freeQueue && (forall x :: x in slots ==> x !in b'.allocations) && b'.running == (slots != []))
    && SameElsewhere(b, held, b', held', slots)
  }

  lemma NothingFreed(b: State, held: map<nat, Ticket>)
    ensures FreedAtOnce(b, held, b, held, [])
  {}

  lemma OneFreedMeans(b: State, held: map<nat, Ticket>, b1: State, held1: map<nat, Ticket>, x: nat)
    requires FreedAtOnce(b, held, b1, held1, [x])
    ensures b.waiters != [] ==> x in b1.allocations && x in held1 && held1[x] == b.waiters[0] && b1.waiters == b.waiters[1..]
    ensures b.waiters == [] ==> x !in b1.allocations && x !in held1 && b1.waiters == []
    ensures b1.freeQueue == b.freeQueue && b1.running == b.running && SameElsewhere(b, held, b1, held1, [x])
  {
    assert [x][0] == x;
  }

  lemma ServedMore(b: State, held: map<nat, Ticket>, b1: State, held1: map<nat, Ticket>, b2: State, held2: map<nat, Ticket>,
                   x: nat, rest: seq<nat>, i: nat)
    requires b.waiters != [] ==> x in b1.allocations && x in held1 && held1[x] == b.waiters[0] && b1.waiters == b.waiters[1..]
    requires b.waiters == [] ==> x !in b1.allocations && x !in held1 && b1.waiters == []
    requires FreedAtOnce(b1, held1, b2, held2, rest) && x !in rest && i <= |rest|
    ensures var slot := if i == 0 then x else rest[i - 1];
      if i < |b.waiters| then slot in b2.allocations && slot in held2 && held2[slot] == b.waiters[i]
      else slot !in b2.allocations && slot !in held2
  {
    if 0 < i < |b.waiters| {
      assert b1.waiters[i - 1] == b.waiters[i];
    }
  }

  lemma ElsewhereMore(b: State, held: map<nat, Ticket>, b1: State, held1: map<nat, Ticket>, b2: State, held2: map<nat, Ticket>,
                      x: nat, rest: seq<nat>, slots: seq<nat>)
    requires SameElsewhere(b, held, b1, held1, [x]) && SameElsewhere(b1, held1, b2, held2, rest) && slots == [x] + rest
    ensures SameElsewhere(b, held, b2, held2, slots)
  {
    forall y | y !in slots ensures y !in rest && y !in [x] {
      assert forall i :: 0 <= i < |rest| ==> rest[i] == slots[i + 1];
    }
  }

  lemma FreedBy(b: State, held: map<nat, Ticket>, b': State, held': map<nat, Ticket>, slots: seq<nat>)
    requires b'.freeQueue == b.freeQueue && b'.running == b.running && SameElsewhere(b, held, b', held', slots)
    requires b'.waiters == b.waiters[Min(|slots|, |b.waiters|)..]
    requires forall i: nat :: i < |slots| ==>
      if i < |b.waiters| then slots[i] in b'.allocations && slots[i] in held' && held'[slots[i]] == b.waiters[i]
      else slots[i] !in b'.allocations && slots[i] !in held'
    ensures FreedAtOnce(b, held, b', held', slots)
  {}

  lemma RestIsFreed(b: State, held: map<nat, Ticket>, b': State, held': map<nat, Ticket>, slots: seq<nat>)
    requires FreedAtOnce(b, held, b', held', slots)
    ensures b'.freeQueue == b.freeQueue && b'.running == b.running && SameElsewhere(b, held, b', held', slots)
    ensures b'.waiters == b.waiters[Min(|slots|, |b.waiters|)..]
  {}

  lemma FreedMore(b: State, held: map<nat, Ticket>, b1: State, held1: map<nat, Ticket>, b2: State, held2: map<nat, Ticket>,
                  x: nat, rest: seq<nat>, slots: seq<nat>)
    requires FreedAtOnce(b, held, b1, held1, [x]) && FreedAtOnce(b1, held1, b2, held2, rest)
    requires slots == [x] + rest && x !in rest
    ensures FreedAtOnce(b, held, b2, held2, slots)
  {
    OneFreedMeans(b, held, b1, held1, x);
    RestIsFreed(b1, held1, b2, held2, rest);
    forall i: nat | i < |slots|
      ensures if i < |b.waiters| then slots[i] in b2.allocations && slots[i] in held2 && held2[slots[i]] == b.waiters[i]
              else slots[i] !in b2.allocations && slots[i] !in held2
    {
      ServedMore(b, held, b1, held1, b2, held2, x, rest, i);
      assert slots[i] == if i == 0 then x else rest[i - 1];
    }
    ElsewhereMore(b, held, b1, held1, b2, held2, x, rest, slots);
    WaitersLeft(b.waiters, b1.waiters, |rest|);
    FreedBy(b, held, b2, held2, slots);
  }

  lemma WaitersLeft(waiters: seq<Ticket>, waiters1: seq<Ticket>, n: nat)
    requires waiters1 == if waiters == [] then [] else waiters[1..]
    ensures waiters1[Min(n, |waiters1|)..] == waiters[Min(n + 1, |waiters|)..]
  {}

  // ----- the slots of a job on the item bus

  /** The slots that the tasks of a job have been told, in that order. */
  function SlotsTold(ts: seq<Ticket>, parts: map<Ticket, Part>): (slots: seq<nat>)
    ensures |slots| == |ts|
  {
    seq(|ts|, i requires 0 <= i < |ts| =>
      if ts[i] in parts && parts[ts[i]].state.Holding() then parts[ts[i]].state.slot else 0)
  }

  /** They are just the slots that the bus has in these tickets' names. */
  ghost predicate HeldBy(held: map<nat, Ticket>, slots: seq<nat>, ts: seq<Ticket>) {
    |slots| == |ts| && Distinct(slots) && forall i :: 0 <= i < |slots| ==> slots[i] in held && held[slots[i]] == ts[i]
  }

  lemma ToldIsHeld(s: System, ts: seq<Ticket>)
    requires Inv(s) && AllHold(s, ts)
    ensures HeldBy(s.held, SlotsTold(ts, s.parts), ts) && SlotsTold(ts, s.parts) == SlotsOf(s, ts)
  {
    forall i | 0 <= i < |ts| ensures var x := SlotsTold(ts, s.parts)[i]; x in s.held && s.held[x] == ts[i] {
      assert Holds(s, ts[i]) && Owns(s.held, ts[i], s.parts[ts[i]]);
    }
  }

  /** The rest of the bus: nothing is moved, and the background task goes on as it did, if it is not started. */
  predicate SamePlace(s: System, s': System) { s'.phys == s.phys && s'.draining == s.draining }

  ghost predicate ItemsFreed(s: System, s': System, slots: seq<nat>) {
    FreedAtOnce(s.bus, s.held, s'.bus, s'.held, slots) && SamePlace(s, s') && s'.phase == s.phase
  }

  ghost predicate ItemsLeft(s: System, s': System, slots: seq<nat>) {
    && LeftForTask(s.bus, s.held, s'.bus, s'.held, slots) && SamePlace(s, s')
    && s'.phase == if s.bus.running || slots == [] then s.phase else Requested
  }

  lemma OneIsFreed(s: System, t: Ticket)
    requires Holds(s, t) && s.parts[t].state.slot in s.bus.allocations && s.parts[t].state.slot in s.held
    ensures ItemsFreed(s, FreeOne(s, t), [s.parts[t].state.slot])
  {}

  lemma OthersHold(s: System, t: Ticket, us: seq<Ticket>)
    requires Queue(s.bus.waiters, s.parts) && Holds(s, t)
    requires forall i :: 0 <= i < |us| ==> us[i] in s.parts && s.parts[us[i]].state.Holding() && us[i] != t
    ensures SlotsTold(us, FreeOne(s, t).parts) == SlotsTold(us, s.parts)
  {
    HeadIsMember(s.bus.waiters);
    ToldAsBefore(us, s.parts, FreeOne(s, t).parts);
  }

  lemma HeldSlot(s: System, t: Ticket)
    requires Inv(s) && Holds(s, t)
    ensures s.parts[t].state.slot in s.bus.allocations && s.parts[t].state.slot in s.held
  {
    assert Owns(s.held, t, s.parts[t]);
  }

  lemma ToldAsBefore(ts: seq<Ticket>, parts: map<Ticket, Part>, parts': map<Ticket, Part>)
    requires forall i :: 0 <= i < |ts| ==> ts[i] in parts && ts[i] in parts' && parts'[ts[i]] == parts[ts[i]]
    ensures SlotsTold(ts, parts') == SlotsTold(ts, parts)
  {}

  lemma ToldCons(ts: seq<Ticket>, parts: map<Ticket, Part>)
    requires ts != [] && ts[0] in parts && parts[ts[0]].state.Holding()
    ensures SlotsTold(ts, parts) == [parts[ts[0]].state.slot] + SlotsTold(ts[1..], parts)
  {}

  lemma FreedInTurn(s: System, s1: System, s2: System, x: nat, rest: seq<nat>)
    requires ItemsFreed(s, s1, [x]) && ItemsFreed(s1, s2, rest) && x !in rest
    ensures ItemsFreed(s, s2, [x] + rest)
  {
    FreedMore(s.bus, s.held, s1.bus, s1.held, s2.bus, s2.held, x, rest, [x] + rest);
  }

  lemma FirstSlotDiffers(s: System, ts: seq<Ticket>)
    requires Inv(s) && AllReady(s, ts) && ts != []
    ensures s.parts[ts[0]].state.slot !in SlotsTold(ts[1..], s.parts)
    ensures forall i :: 0 <= i < |ts[1..]| ==> ts[1..][i] in s.parts && s.parts[ts[1..][i]].state.Holding() && ts[1..][i] != ts[0]
  {
    assert Ready(s, ts[0]) && Owns(s.held, ts[0], s.parts[ts[0]]);
    forall i | 0 <= i < |ts[1..]|
      ensures ts[1..][i] in s.parts && s.parts[ts[1..][i]].state.Holding() && ts[1..][i] != ts[0]
      ensures SlotsTold(ts[1..], s.parts)[i] != s.parts[ts[0]].state.slot
    {
      assert Ready(s, ts[i + 1]) && Owns(s.held, ts[i + 1], s.parts[ts[i + 1]]);
    }
  }

  lemma {:induction false} AllAreFreed(s: System, ts: seq<Ticket>)
    requires Inv(s) && AllReady(s, ts)
    ensures CanRun(s, FreeEvents(ts)) && ItemsFreed(s, Run(s, FreeEvents(ts)), SlotsTold(ts, s.parts))
    decreases |ts|
  {
    if ts == [] {
      NoneIsFreed(s);
    } else {
      var s1 := FreeOne(s, ts[0]);
      FreeFirst(s, ts);
      AllAreFreed(s1, ts[1..]);
      RunCons(s, GiveBack(ts[0]), FreeEvents(ts[1..]));
      FirstAndRest(s, ts, Run(s1, FreeEvents(ts[1..])));
      assert FreeEvents(ts) == [GiveBack(ts[0])] + FreeEvents(ts[1..]);
    }
  }

  lemma NoneIsFreed(s: System)
    ensures CanRun(s, FreeEvents([])) && ItemsFreed(s, Run(s, FreeEvents([])), SlotsTold([], s.parts))
  {
    NothingFreed(s.bus, s.held);
    assert SlotsTold([], s.parts) == [];
  }

  lemma FirstAndRest(s: System, ts: seq<Ticket>, s2: System)
    requires Inv(s) && AllReady(s, ts) && ts != [] && Holds(s, ts[0])
    requires ItemsFreed(FreeOne(s, ts[0]), s2, SlotsTold(ts[1..], FreeOne(s, ts[0]).parts))
    ensures ItemsFreed(s, s2, SlotsTold(ts, s.parts))
  {
    HeldSlot(s, ts[0]);
    OneIsFreed(s, ts[0]);
    FirstSlotDiffers(s, ts);
    OthersHold(s, ts[0], ts[1..]);
    ToldCons(ts, s.parts);
    FreedInTurn(s, FreeOne(s, ts[0]), s2, s.parts[ts[0]].state.slot, SlotsTold(ts[1..], s.parts));
  }

  lemma AllAreLeft(s: System, ts: seq<Ticket>)
    requires Inv(s) && AllHold(s, ts)
    ensures ItemsLeft(s, PutAway(s, ts), SlotsTold(ts, s.parts))
  {
    ToldIsHeld(s, ts);
  }

  /** The slots of a job, and that it has them. */
  ghost predicate Has(w: World, j: nat, slots: seq<nat>) {
    && j in w.jobs && slots == SlotsTold(w.jobs[j].slotsToFree, w.sys.parts)
    && HeldBy(w.sys.held, slots, w.jobs[j].slotsToFree)
  }

  function Backwards(slots: seq<nat>): (r: seq<nat>)
    ensures |r| == |slots| && forall i :: 0 <= i < |r| ==> r[i] == slots[|slots| - 1 - i]
  {
    seq(|slots|, i requires 0 <= i < |slots| => slots[|slots| - 1 - i])
  }

  lemma JobHas(w: World, j: nat)
    requires WorldInv(w) && j in w.jobs
    requires || (w.jobs[j].stage.Loading? && AllChildrenDone(w.jobs[j], w.sys.parts))
             || (w.jobs[j].stage.Unloading? && AllOutDone(w.jobs[j], w.sys.parts))
    ensures Has(w, j, SlotsTold(w.jobs[j].slotsToFree, w.sys.parts))
  {
    SlotsSettled(w, j);
    ToldIsHeld(w.sys, w.jobs[j].slotsToFree);
  }

  lemma AfterAction(w: World, a: Action)
    requires WorldInv(w) && Allowed(w, a)
    ensures CanRun(w.sys, Trace(w, a)) && Do(w, a).sys == Run(w.sys, Trace(w, a))
  {
    Refines(w, a);
    ApplyRuns(w.sys, Trace(w, a));
  }

  /** A plain or mixed job that went well frees its slots at once: the oldest waiters have them in the same step, as far as
      there are any, and the background task sees nothing of it. */
  lemma DoneJobFrees(w: World, j: nat) returns (slots: seq<nat>)
    requires WorldInv(w) && Allowed(w, Complete(j)) && (w.jobs[j].kind.Plain? || w.jobs[j].kind.Mixed?)
    ensures Has(w, j, slots) && ItemsFreed(w.sys, Do(w, Complete(j)).sys, slots)
  {
    var job := w.jobs[j];
    slots := SlotsTold(job.slotsToFree, w.sys.parts);
    OutOkIsDone(job, w.sys.parts);
    JobHas(w, j);
    SlotsReady(w, j);
    SlotsSettled(w, j);
    forall i | 0 <= i < |job.slotsToFree| ensures Ready(w.sys, job.slotsToFree[i]) {
      assert job.slotsToFree[i] in job.slotsToFree;
    }
    AfterAction(w, Complete(j));
    AllAreFreed(w.sys, job.slotsToFree);
  }

  /** A job that does not go well frees nothing at once, and neither does one that brings items from a machine. */
  lemma OtherJobLeaves(w: World, j: nat, a: Action) returns (slots: seq<nat>)
    requires WorldInv(w) && Allowed(w, a)
    requires a == Abandon(j) || a == GiveUp(j) || (a == Complete(j) && w.jobs[j].kind.Output?)
    ensures Has(w, j, slots) && ItemsLeft(w.sys, Do(w, a).sys, slots)
  {
    var ts := w.jobs[j].slotsToFree;
    slots := SlotsTold(ts, w.sys.parts);
    if a.Complete? {
      OutOkIsDone(w.jobs[j], w.sys.parts);
    }
    JobHas(w, j);
    SlotsSettled(w, j);
    AfterAction(w, a);
    JobHandsOver(w.sys, ts);
    AllAreLeft(w.sys, ts);
  }

  lemma ToldBackwards(ts: seq<Ticket>, parts: map<Ticket, Part>)
    requires ts != []
    ensures SlotsTold(Reverse(ts[1..]), parts) == Backwards(SlotsTold(ts, parts)[1..])
    ensures SlotsTold([ts[0]], parts) == [SlotsTold(ts, parts)[0]]
  {}

  lemma FirstIsLeft(s: System, s1: System, ts: seq<Ticket>)
    requires Inv(s1) && ts != [] && Settled(s, ts[0]) && ts[0] in s1.parts && ts[0] !in Reverse(ts[1..])
    requires Released(s.parts, s1.parts, SetOf(Reverse(ts[1..])))
    ensures CanRun(s1, [HandOver([ts[0]])]) && ItemsLeft(s1, Run(s1, [HandOver([ts[0]])]), [SlotsTold(ts, s.parts)[0]])
  {
    FirstStays(s, s1, ts);
    JobHandsOver(s1, [ts[0]]);
    AllAreLeft(s1, [ts[0]]);
    ToldAsBefore([ts[0]], s.parts, s1.parts);
    ToldBackwards(ts, s.parts);
  }

  lemma CraftingFrees(s: System, ts: seq<Ticket>) returns (s1: System)
    requires Inv(s) && ts != [] && Distinct(ts) && Settled(s, ts[0])
    requires forall i :: 1 <= i < |ts| ==> Ready(s, ts[i])
    ensures var es := FreeEvents(Reverse(ts[1..])) + [HandOver([ts[0]])];
      && CanRun(s, es)
      && ItemsFreed(s, s1, Backwards(SlotsTold(ts, s.parts)[1..])) && ItemsLeft(s1, Run(s, es), [SlotsTold(ts, s.parts)[0]])
  {
    var rest := Reverse(ts[1..]);
    ReverseReady(s, ts);
    assert ts[0] in SetOf([ts[0]]);
    JobFreesAll(s, rest);
    AllAreFreed(s, rest);
    s1 := Run(s, FreeEvents(rest));
    RunInv(s, FreeEvents(rest));
    ToldBackwards(ts, s.parts);
    FirstIsLeft(s, s1, ts);
    RunAppend(s, FreeEvents(rest), [HandOver([ts[0]])]);
  }

  lemma CraftingTrace(w: World, j: nat)
    requires j in w.jobs && w.jobs[j].kind.Crafting? && w.jobs[j].slotsToFree != []
    ensures Trace(w, Complete(j)) == FreeEvents(Reverse(w.jobs[j].slotsToFree[1..])) + [HandOver([w.jobs[j].slotsToFree[0]])]
  {}

  lemma CraftingSlots(w: World, j: nat)
    requires WorldInv(w) && Allowed(w, Complete(j)) && w.jobs[j].kind.Crafting?
    ensures var ts := w.jobs[j].slotsToFree;
      ts != [] && Distinct(ts) && Settled(w.sys, ts[0]) && forall i :: 1 <= i < |ts| ==> Ready(w.sys, ts[i])
    ensures Has(w, j, SlotsTold(w.jobs[j].slotsToFree, w.sys.parts))
  {
    var job := w.jobs[j];
    OutOkIsDone(job, w.sys.parts);
    JobHas(w, j);
    SlotsReady(w, j);
    SlotsSettled(w, j);
    FirstRemembered(job, w.sys.parts);
    forall i | 1 <= i < |job.slotsToFree| ensures Ready(w.sys, job.slotsToFree[i]) {
      assert job.slotsToFree[i] in job.slotsToFree && job.slotsToFree[i] != job.slotsToFree[0];
    }
    assert Settled(w.sys, job.slotsToFree[0]);
  }

  /** A crafting job that went well frees all its slots but the first one at once, the last one first; the first one, where
      its product is, is left for the task. */
  lemma CraftingJobReturns(w: World, j: nat) returns (slots: seq<nat>, s1: System)
    requires WorldInv(w) && Allowed(w, Complete(j)) && w.jobs[j].kind.Crafting?
    ensures Has(w, j, slots) && slots != []
    ensures ItemsFreed(w.sys, s1, Backwards(slots[1..])) && ItemsLeft(s1, Do(w, Complete(j)).sys, [slots[0]])
  {
    slots := SlotsTold(w.jobs[j].slotsToFree, w.sys.parts);
    CraftingSlots(w, j);
    s1 := CraftingFrees(w.sys, w.jobs[j].slotsToFree);
    CraftingTrace(w, j);
    AfterAction(w, Complete(j));
  }

  // ----- the buses of a job on the fluid bus

  ghost predicate BusesFreed(s: F.System, s': F.System, buses: seq<nat>) {
    FreedAtOnce(s.bus, s.held, s'.bus, s'.held, buses) && s'.phase == s.phase && s'.draining == s.draining && s'.n == s.n
  }

  ghost predicate BusesLeft(s: F.System, s': F.System, buses: seq<nat>) {
    && LeftForTask(s.bus, s.held, s'.bus, s'.held, buses) && s'.draining == s.draining && s'.n == s.n
    && s'.phase == if s.bus.running || buses == [] then s.phase else F.Reading
  }

  /** The fluid buses that a job's tasks have been told, in that order, and that they are just those that the bus has in these
      tickets' names. */
  ghost predicate HasBuses(f: Factory, j: nat, buses: seq<nat>) {
    && buses == BusesOf(SideOf(f, j).toFree, f.parts) && HeldBy(f.fluid.held, buses, SideOf(f, j).toFree)
  }

  lemma OneBusFreed(s: F.System, x: nat)
    requires F.Inv(s) && x in s.held
    ensures F.Enabled(s, F.GiveBack(x)) && BusesFreed(s, F.Step(s, F.GiveBack(x)), [x])
  {
    assert x in s.bus.allocations;
  }

  lemma NoBusFreed(s: F.System)
    ensures F.CanRun(s, GiveBacks([])) && BusesFreed(s, F.Run(s, GiveBacks([])), [])
  {
    NothingFreed(s.bus, s.held);
  }

  lemma BusesFreedInTurn(s: F.System, s1: F.System, s2: F.System, x: nat, rest: seq<nat>)
    requires BusesFreed(s, s1, [x]) && BusesFreed(s1, s2, rest) && x !in rest
    ensures BusesFreed(s, s2, [x] + rest)
  {
    FreedMore(s.bus, s.held, s1.bus, s1.held, s2.bus, s2.held, x, rest, [x] + rest);
  }

  lemma {:induction false} AllBusesFreed(s: F.System, xs: seq<nat>)
    requires F.Inv(s) && Distinct(xs) && forall x :: x in xs ==> x in s.held
    ensures F.CanRun(s, GiveBacks(xs)) && BusesFreed(s, F.Run(s, GiveBacks(xs)), xs)
    decreases |xs|
  {
    if xs == [] {
      NoBusFreed(s);
    } else {
      assert xs[0] in xs && xs == [xs[0]] + xs[1..];
      var s1 := F.Step(s, F.GiveBack(xs[0]));
      OneBusFreed(s, xs[0]);
      F.FreeInv(s, xs[0]);
      AllBusesFreed(s1, xs[1..]);
      F.RunOne(s, F.GiveBack(xs[0]), GiveBacks(xs[1..]));
      BusesFreedInTurn(s, s1, F.Run(s1, GiveBacks(xs[1..])), xs[0], xs[1..]);
      assert GiveBacks(xs) == [F.GiveBack(xs[0])] + GiveBacks(xs[1..]);
    }
  }

  lemma AllBusesLeft(s: F.System, xs: seq<nat>)
    requires F.Inv(s) && Distinct(xs) && forall x :: x in xs ==> x in s.held
    ensures F.CanRun(s, [F.PutBack(xs)]) && BusesLeft(s, F.Run(s, [F.PutBack(xs)]), xs)
  {
    OneFluidEvent(s, F.PutBack(xs));
  }

  lemma JobHasBuses(f: Factory, j: nat, a: Action, ok: bool)
    requires FluidInv(f) && EndOf(a) == Some((j, ok)) && Permitted(f, OfItems(a))
    ensures HasBuses(f, j, BusesOf(SideOf(f, j).toFree, f.parts))
    ensures forall x :: x in BusesOf(SideOf(f, j).toFree, f.parts) ==> x in f.fluid.held
  {
    EndsSettled(f, a, j, ok);
    var ts := f.sides[j].toFree;
    assert SideOk(f.world.jobs[j].stage, f.sides[j], f.parts);
    var buses := BusesOf(ts, f.parts);
    forall i | 0 <= i < |ts| ensures buses[i] in f.fluid.held && f.fluid.held[buses[i]] == ts[i] {
      assert ts[i] in ts;
    }
  }

  /** What goes for the slots of a job, goes for its fluid buses: freed at once if it went well, and left for the task if not,
      or if a machine was drained. */
  lemma DoneJobFreesBuses(f: Factory, j: nat) returns (buses: seq<nat>)
    requires FactoryInv(f) && Permitted(f, OfItems(Complete(j))) && !SideOf(f, j).drains
    ensures HasBuses(f, j, buses) && BusesFreed(f.fluid, After(f, OfItems(Complete(j))).fluid, buses)
  {
    buses := BusesOf(SideOf(f, j).toFree, f.parts);
    JobHasBuses(f, j, Complete(j), true);
    AllBusesFreed(f.fluid, buses);
    FluidAfter(f, OfItems(Complete(j)));
  }

  lemma FluidAfter(f: Factory, m: Move)
    requires FactoryInv(f) && Permitted(f, m)
    ensures F.CanRun(f.fluid, FluidEvents(f, m)) && After(f, m).fluid == F.Run(f.fluid, FluidEvents(f, m))
  {
    MoveRefines(f, m);
  }

  lemma OtherJobLeavesBuses(f: Factory, j: nat, a: Action, ok: bool) returns (buses: seq<nat>)
    requires FactoryInv(f) && EndOf(a) == Some((j, ok)) && Permitted(f, OfItems(a)) && (ok ==> SideOf(f, j).drains)
    ensures HasBuses(f, j, buses) && BusesLeft(f.fluid, After(f, OfItems(a)).fluid, buses)
  {
    buses := BusesOf(SideOf(f, j).toFree, f.parts);
    JobHasBuses(f, j, a, ok);
    AllBusesLeft(f.fluid, buses);
    FluidAfter(f, OfItems(a));
  }
}
