/** What every run of the bus (BusSystem) guarantees: ownership, progress, empty grants, exact transfers. */
module BusRuns {
  import opened Common
  import opened Bus
  import opened BusSystem

  /** Whatever lies in the bus at the start and however the tasks interleave: allocated slots are the
      disjoint union of held and queued ones, and a part that holds a slot is alone in holding it. */
  lemma SlotsArePartitioned(phys: seq<nat>, es: seq<Event>)
    requires CanRun(Start(phys), es)
    ensures var s := Run(Start(phys), es);
      && s.bus.allocations == s.held.Keys + SetOf(s.bus.freeQueue) && s.held.Keys !! SetOf(s.bus.freeQueue)
      && Distinct(s.bus.freeQueue)
      && (forall x :: x in s.held ==> Holds(s, s.held[x]) && s.parts[s.held[x]].state.slot == x)
      && forall t, u :: Holds(s, t) && Holds(s, u) && s.parts[t].state.slot == s.parts[u].state.slot ==> t == u
  {
    StartInv(phys);
    RunInv(Start(phys), es);
    var s := Run(Start(phys), es);
    forall t | Holds(s, t) ensures s.held[s.parts[t].state.slot] == t {
      assert Owns(s.held, t, s.parts[t]);
    }
    forall x | x in s.held ensures Holds(s, s.held[x]) {
      assert Content(s.parts[s.held[x]], s.phys);
    }
  }

  /** No lost wakeup, and a task runs exactly when the factory remembers one. */
  lemma NoLostWakeup(phys: seq<nat>, es: seq<Event>)
    requires CanRun(Start(phys), es)
    ensures var s := Run(Start(phys), es);
      && (!s.draining ==> (s.bus.running <==> !s.phase.Idle?))
      && (s.phase.Idle? && s.bus.waiters != [] ==>
            forall x :: 0 <= x < |phys| ==> x in s.held && Holds(s, s.held[x]))
      && forall t :: t in s.parts && s.parts[t].state.Waiting? ==> t in s.bus.waiters
  {
    StartInv(phys);
    RunInv(Start(phys), es);
    RunKeepsSize(Start(phys), es);
    SlotsArePartitioned(phys, es);
  }

  lemma {:induction false} RunKeepsSize(s: System, es: seq<Event>)
    requires CanRun(s, es)
    ensures |Run(s, es).phys| == |s.phys|
    decreases |es|
  {
    if es != [] {
      RunKeepsSize(Step(s, es[0]), es[1..]);
    }
  }

  // ----- what single steps of a run can rely on

  /** A part that has just been given a slot: nothing has been pulled into it yet. */
  ghost predicate Fresh(p: Part) {
    p.state.Filling? && p.state.rest == p.fills && p.state.ok
  }

  lemma {:induction false} GrantAllFresh(s: System, slots: seq<nat>)
    ensures GrantAll(s, slots).parts.Keys == s.parts.Keys
    ensures forall t :: t in s.parts ==>
              || GrantAll(s, slots).parts[t] == s.parts[t]
              || (t in s.bus.waiters && Fresh(GrantAll(s, slots).parts[t]))
    decreases |slots|
  {
    if slots != [] && s.bus.waiters != [] {
      HeadIsMember(s.bus.waiters);
      GrantAllFresh(GrantOne(s, slots[|slots| - 1]), slots[..|slots| - 1]);
    }
  }

  lemma AnswerGrantsFresh(s: System, plan: seq<Transfer>, room: bool, t: Ticket)
    requires Inv(s) && s.phase.Answered?
    requires Holds(TakeAnswer(s, plan, room), t) && !Holds(s, t)
    ensures Fresh(TakeAnswer(s, plan, room).parts[t])
  {
    var free := FreeSlots(s.phase.listing, s.bus.allocations);
    GrantAllFresh(s, free);
    assert TakeAnswer(s, plan, room).parts == GrantAll(s, free).parts;
    assert Content(s.parts[t], s.phys);
  }

  lemma FreeGrantsFresh(s: System, u: Ticket, t: Ticket)
    requires Inv(s) && Emptied(s, u) && Holds(FreeOne(s, u), t) && !Holds(s, t)
    ensures Fresh(FreeOne(s, u).parts[t])
  {}

  lemma BusGrantsFresh(s: System, e: Event, t: Ticket)
    requires Enabled(s, e) && Inv(s) && (e.Process? || e.GiveBack?)
    requires Holds(Step(s, e), t) && !Holds(s, t)
    ensures Fresh(Step(s, e).parts[t])
  {
    if e.Process? {
      AnswerGrantsFresh(s, e.plan, e.room, t);
    } else {
      FreeGrantsFresh(s, e.t, t);
    }
  }

  lemma PutAwayGrantsNothing(s: System, ts: seq<Ticket>, t: Ticket)
    requires AllHold(s, ts)
    ensures Holds(PutAway(s, ts), t) ==> Holds(s, t)
  {}

  lemma FailGrantsNothing(s: System, t: Ticket)
    requires Holds(Fail(s), t)
    ensures Holds(s, t)
  {}

  lemma TransferGrantsNothing(s: System, e: Event, t: Ticket)
    requires Enabled(s, e) && (e.Fill? || e.FillFails? || e.Empty? || e.EmptyFails? || e.Turn? || e.Receive?)
    ensures Holds(Step(s, e), t) ==> Holds(s, t)
  {}

  lemma OtherGrantsNothing(s: System, e: Event, t: Ticket)
    requires Enabled(s, e) && (e.Ask? || e.Answer? || e.Store? || e.StoreFails? || e.EndCycle? || e.NextCycle? || e.Late?)
    ensures Holds(Step(s, e), t) ==> Holds(s, t)
  {}

  /** Only an answered listing and a freed slot bring new holders. */
  lemma NoOtherGrants(s: System, e: Event, t: Ticket)
    requires Enabled(s, e) && !e.Process? && !e.GiveBack?
    ensures Holds(Step(s, e), t) ==> Holds(s, t)
  {
    if e.HandOver? {
      PutAwayGrantsNothing(s, e.ts, t);
    } else if e.UpdateFails? || (e.Finish? && s.phase.failed) {
      assert Step(s, e) == Fail(s);
      if Holds(Fail(s), t) {
        FailGrantsNothing(s, t);
      }
    } else if e.Finish? {
      assert Step(s, e) == Succeed(s, true);
    } else if e.Fill? || e.FillFails? || e.Empty? || e.EmptyFails? || e.Turn? || e.Receive? {
      TransferGrantsNothing(s, e, t);
    } else {
      OtherGrantsNothing(s, e, t);
    }
  }

  /** Grant safety: a slot is physically empty at the moment some part gets it, though the listing that
      showed it empty is older and slots have been filled, emptied, freed and queued since. */
  lemma GrantedSlotsAreEmpty(phys: seq<nat>, es: seq<Event>, e: Event, t: Ticket)
    requires CanRun(Start(phys), es) && Enabled(Run(Start(phys), es), e)
    requires Holds(Step(Run(Start(phys), es), e), t) && !Holds(Run(Start(phys), es), t)
    ensures var s' := Step(Run(Start(phys), es), e); s'.phys[s'.parts[t].state.slot] == 0
  {
    var s := Run(Start(phys), es);
    StartInv(phys);
    RunInv(Start(phys), es);
    StepInv(s, e);
    if e.Process? || e.GiveBack? {
      BusGrantsFresh(s, e, t);
    } else {
      NoOtherGrants(s, e, t);
    }
    assert Content(Step(s, e).parts[t], Step(s, e).phys);
  }

  // ----- a transfer that comes too late

  /** A part asks, fails, hands its slot over, and the slot is listed as empty. */
  function LateEvents(): seq<Event> {
    [Ask(1, [5], [5], 64)] + ([Answer] + ([Process([], true)] + ([FillFails(1, 0, 0)] + ([HandOver([1])] + [Answer]))))
  }

  lemma FirstAsks() returns (s: System)
    ensures Enabled(Start([0]), Ask(1, [5], [5], 64)) && Enabled(Step(Start([0]), Ask(1, [5], [5], 64)), Answer)
    ensures s == Step(Step(Start([0]), Ask(1, [5], [5], 64)), Answer)
    ensures s.phase == Answered([0]) && s.bus == State({}, [1], [], true) && s.phys == [0] && !s.draining
    ensures s.parts.Keys == {1} && s.parts[1] == Part([5], [5], 64, Waiting) && s.held.Keys == {}
  {
    assert [5][1..] == [];
    s := Step(Step(Start([0]), Ask(1, [5], [5], 64)), Answer);
  }

  lemma FirstFails(s: System) returns (s': System)
    requires s.phase.Idle? && s.bus == State({0}, [], [], false) && s.phys == [0] && !s.draining
    requires s.parts.Keys == {1} && s.parts[1] == Part([5], [5], 64, Filling(0, [5], true)) && s.held.Keys == {0}
    ensures Enabled(s, FillFails(1, 0, 0)) && s' == Step(s, FillFails(1, 0, 0))
    ensures s'.phase.Idle? && s'.bus == State({0}, [], [], false) && s'.phys == [0] && !s'.draining
    ensures s'.parts.Keys == {1} && s'.parts[1].state == Filling(0, [], false) && s'.held.Keys == {0}
  {
    assert Pulling(s, 1, 0) && RemoveAt([5], 0) == [];
    s' := Step(s, FillFails(1, 0, 0));
  }

  lemma FirstSlotGiven(s: System) returns (s': System)
    requires s.phase == Answered([0]) && s.bus == State({}, [1], [], true) && s.phys == [0] && !s.draining
    requires s.parts.Keys == {1} && s.parts[1] == Part([5], [5], 64, Waiting) && s.held.Keys == {}
    ensures Enabled(s, Process([], true)) && s' == Step(s, Process([], true))
    ensures s'.phase.Idle? && s'.bus == State({0}, [], [], false) && s'.phys == [0] && !s'.draining
    ensures s'.parts.Keys == {1} && s'.parts[1] == Part([5], [5], 64, Filling(0, [5], true)) && s'.held.Keys == {0}
  {
    assert FreeSlots([0], {}) == [0];
    OneSlotGranted(s);
    TaskEnds(GrantAll(s, [0]));
    assert PlanFor([], true, [0], {});
    s' := Step(s, Process([], true));
  }

  lemma TaskEnds(s: System)
    requires s.bus == State({0}, [], [], true)
    ensures Succeed(s, false) == s.(bus := State({0}, [], [], false), phase := Idle)
  {
    assert {0} - SetOf<nat>([]) == {0};
  }

  lemma OneSlotGranted(s: System)
    requires s.bus == State({}, [1], [], true) && s.parts.Keys == {1} && s.held.Keys == {}
    ensures GrantAll(s, [0]) == GrantOne(s, 0) && GrantAll(s, [0]).bus == State({0}, [], [], true)
    ensures GrantAll(s, [0]).held.Keys == {0} && GrantAll(s, [0]).parts.Keys == {1}
    ensures GrantAll(s, [0]).parts[1] == s.parts[1].(state := Filling(0, s.parts[1].fills, true))
  {
    assert [1][1..] == [] && [0][..0] == [] && {} + {0} == {0};
  }

  lemma FailedHandsOver(s: System) returns (s': System)
    requires s.phase.Idle? && s.bus == State({0}, [], [], false) && s.phys == [0] && !s.draining
    requires s.parts.Keys == {1} && s.parts[1].state == Filling(0, [], false) && s.held.Keys == {0}
    ensures Enabled(s, HandOver([1])) && CanRun(Step(s, HandOver([1])), [Answer])
    ensures s' == Run(Step(s, HandOver([1])), [Answer])
    ensures s'.phase == Answered([0]) && s'.bus == State({}, [], [], true) && s'.phys == [0] && s'.parts.Keys == {1}
    ensures !s'.draining && s'.held.Keys == {}
  {
    assert Holds(s, 1) && Settled(s, 1);
    assert SlotsOf(s, [1]) == [0] && SetOf([0]) == {0} && {0} - {0} == {};
    OneRuns(Step(s, HandOver([1])), Answer);
    s' := Run(Step(s, HandOver([1])), [Answer]);
  }

  lemma FailedPartIsListed() returns (s: System)
    ensures CanRun(Start([0]), LateEvents()) && s == Run(Start([0]), LateEvents())
    ensures s.phase == Answered([0]) && s.bus == State({}, [], [], true) && s.phys == [0] && s.parts.Keys == {1}
    ensures !s.draining && s.held.Keys == {}
  {
    var s2 := FirstAsks();
    var s3 := FirstSlotGiven(s2);
    var s4 := FirstFails(s3);
    s := FailedHandsOver(s4);
    RunCons(s4, HandOver([1]), [Answer]);
    RunCons(s3, FillFails(1, 0, 0), [HandOver([1])] + [Answer]);
    RunCons(s2, Process([], true), [FillFails(1, 0, 0)] + ([HandOver([1])] + [Answer]));
    var s1 := Step(Start([0]), Ask(1, [5], [5], 64));
    RunCons(s1, Answer, [Process([], true)] + ([FillFails(1, 0, 0)] + ([HandOver([1])] + [Answer])));
    RunCons(Start([0]), Ask(1, [5], [5], 64),
            [Answer] + ([Process([], true)] + ([FillFails(1, 0, 0)] + ([HandOver([1])] + [Answer]))));
  }

  lemma NextIsGiven(s: System)
    requires s.phase == Answered([0]) && s.bus == State({}, [2], [], true) && s.phys == [5]
    requires 2 in s.parts && s.parts[2] == Part([], [], 0, Waiting)
    ensures Enabled(s, Process([], true))
    ensures var s' := Step(s, Process([], true)); Holds(s', 2) && s'.parts[2].state.slot == 0 && s'.phys[0] == 5
  {
    assert FreeSlots([0], {}) == [0] && [0][..0] == [] && [2][1..] == [];
    assert GrantAll(s, [0]) == GrantOne(s, 0);
  }

  /** If its extraction is carried out only now, which is not in time, the next part gets a slot with five items in it. */
  lemma TooLateHitsTheNext() returns (s: System)
    ensures CanRun(Start([0]), LateEvents()) && s == Run(Start([0]), LateEvents()) && s.phys == [0] && !InTime(s, 0, 5)
    ensures var s1 := s.(phys := [5]);
      && Enabled(s1, Ask(2, [], [], 0)) && Enabled(Step(s1, Ask(2, [], [], 0)), Process([], true))
      && var s2 := Step(Step(s1, Ask(2, [], [], 0)), Process([], true));
         Holds(s2, 2) && s2.parts[2].state.slot == 0 && s2.phys[0] == 5
  {
    s := FailedPartIsListed();
    NextIsGiven(Step(s.(phys := [5]), Ask(2, [], [], 0)));
  }

  /** The contract bus_free does not state: a slot given back is empty. */
  lemma FreedSlotsAreEmpty(phys: seq<nat>, es: seq<Event>, t: Ticket)
    requires CanRun(Start(phys), es) && Enabled(Run(Start(phys), es), GiveBack(t))
    ensures var s := Run(Start(phys), es); s.phys[s.parts[t].state.slot] == 0
  {
    StartInv(phys);
    RunInv(Start(phys), es);
    var s := Run(Start(phys), es);
    assert Content(s.parts[t], s.phys);
  }

  /** An extraction moves the full amount asked for, if the place it comes from has it; so does a transfer out of the slot, if
      the place it goes to has room and no transfer of the part has failed. Plant shows that places always do. */
  lemma TransfersAreExact(phys: seq<nat>, es: seq<Event>, t: Ticket, k: nat, n: nat)
    requires CanRun(Start(phys), es)
    ensures var s := Run(Start(phys), es);
      && (Enabled(s, Fill(t, k, n)) ==> Min(PullRoom(s, t, k), n) == s.parts[t].state.rest[k])
      && (Enabled(s, Empty(t, k, n)) && s.parts[t].state.ok && !s.parts[t].state.kept ==>
            Min(PushRoom(s, t, k), n) == s.parts[t].state.rest[k])
  {
    StartInv(phys);
    RunInv(Start(phys), es);
    var s := Run(Start(phys), es);
    if t in s.parts {
      assert Content(s.parts[t], s.phys);
    }
    if Enabled(s, Fill(t, k, n)) {
      FillIsExact(s, t, k, n);
    }
    if Enabled(s, Empty(t, k, n)) {
      EmptyIsExact(s, t, k, n);
    }
  }

  /** The background task never moves items out of a slot that a part holds or that waits in the free queue. */
  lemma StoringLeavesAllocatedSlotsAlone(phys: seq<nat>, es: seq<Event>, k: nat)
    requires CanRun(Start(phys), es) && StoringOne(Run(Start(phys), es), k)
    ensures var s := Run(Start(phys), es); s.phase.pending[k].slot !in s.bus.allocations
  {
    StartInv(phys);
    RunInv(Start(phys), es);
  }

  lemma CleanAnswer(s: System)
    requires Inv(s) && s.phase.Answered? && PlanFor([], true, s.phase.listing, s.bus.allocations)
    ensures var s' := TakeAnswer(s, [], true);
      s'.phase.Idle? ==> forall x :: 0 <= x < |s'.phys| && x !in s'.bus.allocations ==> s'.phys[x] == 0
  {
    BusSystem.Granted(s);
    EmptyPlan(s.phase.listing, s.bus.allocations);
  }

  /** When an update succeeds and the background task stops, every unallocated slot is empty. */
  lemma TaskStopsOnCleanBus(phys: seq<nat>, es: seq<Event>, e: Event)
    requires CanRun(Start(phys), es) && Enabled(Run(Start(phys), es), e)
    requires e.Process? || (e.Finish? && !Run(Start(phys), es).phase.failed)
    ensures var s' := Step(Run(Start(phys), es), e);
      s'.phase.Idle? ==> forall x :: 0 <= x < |s'.phys| && x !in s'.bus.allocations ==> s'.phys[x] == 0
  {
    var s := Run(Start(phys), es);
    StartInv(phys);
    RunInv(Start(phys), es);
    if e.Process? && e.plan == [] && e.room {
      CleanAnswer(s);
    }
  }

  /** After an update that succeeds the task starts over exactly if slots were queued for emptying, or parts wait and the
      update has stored something; otherwise it ends. An update that stores nothing does not start over for a waiter. */
  lemma TaskGoesOnExactlyWhen(s: System, e: Event)
    requires Enabled(s, e)
    requires (e.Finish? && !s.phase.failed) || (e.Process? && e.plan == [] && e.room)
    ensures Step(s, e).phase.Requested? || Step(s, e).phase.Idle?
    ensures Step(s, e).phase.Requested? <==> s.bus.freeQueue != [] || (e.Finish? && s.bus.waiters != [])
    ensures Step(s, e).bus.freeQueue == []
    ensures Step(s, e).phase.Idle? ==> !Step(s, e).bus.running
  {
    if e.Process? {
      GiveAllServes(s.bus, FreeSlots(s.phase.listing, s.bus.allocations));
    }
  }

  /** Jobs and clients start the task exactly if there is none and somebody asks, or slots are handed over; a task that runs is
      left where it is. */
  lemma TaskStartsExactlyWhen(s: System, e: Event)
    requires Enabled(s, e)
    requires e.Ask? || e.Fill? || e.FillFails? || e.Turn? || e.Empty? || e.EmptyFails? || e.Receive? || e.GiveBack? || e.HandOver? || e.Late?
    ensures s.bus.running ==> Step(s, e).bus.running && Step(s, e).phase == s.phase
    ensures !s.bus.running ==> (Step(s, e).bus.running <==> e.Ask? || (e.HandOver? && e.ts != []))
    ensures !s.bus.running ==> Step(s, e).phase == if Step(s, e).bus.running then Requested else s.phase
  {
    if e.HandOver? {
      assert |SlotsOf(s, e.ts)| == |e.ts|;
    }
  }

  /** A slot that was handed over is held by nobody until an update has ended well. */
  lemma HandedOverWaits(s: System, e: Event, x: nat)
    requires Inv(s) && Enabled(s, e) && x in s.bus.freeQueue
    requires !(e.Finish? && !s.phase.failed) && !(e.Process? && e.plan == [] && e.room)
    ensures x in Step(s, e).bus.freeQueue && x in Step(s, e).bus.allocations && x !in Step(s, e).held
  {
    StepInv(s, e);
    QueueStays(s, e);
    assert x in Step(s, e).bus.freeQueue;
    assert x in SetOf(Step(s, e).bus.freeQueue);
  }

  lemma QueueStays(s: System, e: Event)
    requires Enabled(s, e) && !(e.Finish? && !s.phase.failed) && !(e.Process? && e.plan == [] && e.room)
    ensures s.bus.freeQueue <= Step(s, e).bus.freeQueue
  {
    if e.Process? {
      GiveAllServes(s.bus, FreeSlots(s.phase.listing, s.bus.allocations));
    }
  }
}
