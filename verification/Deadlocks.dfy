/** Inputs on which jobs wait for ever: more fluids than buses, a recipe of two fluids that starts while one of two buses is
    being drained, and more items than slots. */
module Deadlocks {
  import opened Common
  import opened Bus
  import opened BusSystem
  import opened JobRuns
  import opened JobProgress
  import opened FactoryRuns
  import opened FactoryProgress
  import opened FluidWaits
  import F = FluidBus

  lemma GoStep(f: Factory, m: Move, ms: seq<Move>)
    requires Permitted(f, m) && CanGo(After(f, m), ms)
    ensures CanGo(f, [m] + ms) && Go(f, [m] + ms) == Go(After(f, m), ms)
  {
    assert ([m] + ms)[1..] == ms;
  }

  /** The run that makes these moves one after the other leads to g. */
  ghost predicate Arrives(f: Factory, ms: seq<Move>, g: Factory) { CanGo(f, ms) && Go(f, ms) == g }

  lemma ArrivesOn(f: Factory, m: Move, ms: seq<Move>, g: Factory)
    requires Permitted(f, m) && Arrives(After(f, m), ms, g)
    ensures Arrives(f, [m] + ms, g)
  {
    GoStep(f, m, ms);
  }

  lemma ArrivesAt(f: Factory)
    ensures Arrives(f, [], f)
  {}

  const ONE_DRAW := FluidUse(1, 0)

  /** One extraction, one transfer into a tank. */
  const ONE_PORTION := FluidUse(1, 1)

  // ----- a job with two fluids and no items

  function NeedTwo(t: Ticket, u: Ticket): map<Ticket, FluidUse> { map[t := ONE_PORTION, u := ONE_PORTION] }

  function AskTwo(j: nat, t: Ticket, u: Ticket): Move { Enter(j, Mixed, [], [], [t, u], NeedTwo(t, u), false) }

  /** The job has asked for a bus for each of its fluids. */
  ghost predicate AskedTwo(f: Factory, j: nat, t: Ticket, u: Ticket) {
    && j in f.sides && f.sides[j] == Side([t, u], [], false)
    && t in f.owner && f.owner[t] == j && u in f.owner && f.owner[u] == j
  }

  lemma AsksTwo(f: Factory, j: nat, t: Ticket, u: Ticket)
    ensures AskedTwo(After(f, AskTwo(j, t, u)), j, t, u)
    ensures After(f, AskTwo(j, t, u)).fluid == FluidApply(f.fluid, FluidAsks([t, u]))
    ensures After(f, AskTwo(j, t, u)).sides == f.sides[j := Side([t, u], [], false)]
    ensures After(f, AskTwo(j, t, u)).world == Act(f.world, [Begin(j, Mixed, [], [])])
  {
    OwnersHave([t, u], j);
  }

  lemma OwnersHave(ts: seq<Ticket>, j: nat)
    ensures forall i :: 0 <= i < |ts| ==> ts[i] in OwnersOf(ts, j) && OwnersOf(ts, j)[ts[i]] == j
  {}

  lemma TwoAsks(s: F.System, t: Ticket, u: Ticket)
    requires !s.draining
    ensures FluidApply(s, FluidAsks([t, u])) == F.Step(F.Step(s, F.Ask(t)), F.Ask(u))
  {
    var s1 := F.Step(s, F.Ask(t));
    assert [t, u][1..] == [u] && [u][1..] == [];
    assert FluidAsks([t, u])[1..] == FluidAsks([u]);
    assert FluidAsks([u])[1..] == [];
    assert FluidApply(s, FluidAsks([t, u])) == FluidApply(s1, FluidAsks([u]));
    assert FluidApply(s1, FluidAsks([u])) == F.Step(s1, F.Ask(u));
  }

  lemma MayAskTwo(f: Factory, j: nat, t: Ticket, u: Ticket)
    requires j !in f.world.jobs && !f.world.sys.draining && !f.fluid.draining
    requires t !in f.parts && u !in f.parts && t != u
    ensures Permitted(f, AskTwo(j, t, u))
  {}

  lemma OneFluidStep(f: Factory, e: F.Event)
    requires (e.Answer? || e.Stored?) && F.Enabled(f.fluid, e)
    ensures Permitted(f, OfFluids(e)) && After(f, OfFluids(e)).fluid == F.Step(f.fluid, e)
    ensures After(f, OfFluids(e)).sides == f.sides && After(f, OfFluids(e)).owner == f.owner
    ensures After(f, OfFluids(e)).world == f.world && After(f, OfFluids(e)).parts == f.parts
  {
    OneFluidEvent(f.fluid, e);
    FluidApplyRuns(f.fluid, [e]);
  }

  /** One ticket of the job has a bus, nobody else has one, and its other ticket waits. */
  lemma OneOfTwoIsStuck(f: Factory, j: nat, t: Ticket, u: Ticket, x: nat)
    requires AskedTwo(f, j, t, u) && f.fluid.phase.Idle? && f.fluid.bus.waiters == [u]
    requires forall y :: y in f.fluid.held ==> y == x && f.fluid.held[y] == t
    ensures Stuck(f)
  {
    assert [t, u][1] == u && u in f.sides[j].parts && u in f.fluid.bus.waiters;
    assert WaitsForFluid(f, j);
  }

  lemma OneBusGiven(s: F.System)
    requires s == F.System(State({}, [1, 2], [], true), map[], F.Reading, 1, false)
    ensures F.Enabled(s, F.Answer([0], []))
    ensures F.Step(s, F.Answer([0], [])) == F.System(State({0}, [2], [], false), map[0 := 1], F.Idle, 1, false)
  {
    assert [0][..0] == [] && [1, 2][1..] == [2] && {} + {0} == {0};
  }

  lemma FirstMove() returns (f: Factory)
    ensures Permitted(FactoryStart([], 1), AskTwo(0, 1, 2)) && f == After(FactoryStart([], 1), AskTwo(0, 1, 2))
    ensures AskedTwo(f, 0, 1, 2) && f.fluid == F.System(State({}, [1, 2], [], true), map[], F.Reading, 1, false)
  {
    MayAskTwo(FactoryStart([], 1), 0, 1, 2);
    AsksTwo(FactoryStart([], 1), 0, 1, 2);
    TwoAsks(F.Start(1), 1, 2);
    f := After(FactoryStart([], 1), AskTwo(0, 1, 2));
  }

  lemma SecondMove(f1: Factory) returns (f: Factory)
    requires AskedTwo(f1, 0, 1, 2) && f1.fluid == F.System(State({}, [1, 2], [], true), map[], F.Reading, 1, false)
    ensures Permitted(f1, OfFluids(F.Answer([0], []))) && f == After(f1, OfFluids(F.Answer([0], [])))
    ensures Stuck(f) && F.Awake(f.fluid) && AskedTwo(f, 0, 1, 2) && f.fluid.n == 1
  {
    OneBusGiven(f1.fluid);
    OneFluidStep(f1, F.Answer([0], []));
    f := After(f1, OfFluids(F.Answer([0], [])));
    OneOfTwoIsStuck(f, 0, 1, 2, 0);
  }

  /** With one bus, a job with two fluids gets it for the first, and waits for ever for the second. No ticket has been passed
      over. */
  lemma TooFewBuses() returns (ms: seq<Move>, f: Factory)
    ensures Arrives(FactoryStart([], 1), ms, f) && Stuck(f) && F.Awake(f.fluid)
    ensures AskedTwo(f, 0, 1, 2) && f.fluid.n == 1
  {
    var e := F.Answer([0], []);
    var f1 := FirstMove();
    f := SecondMove(f1);
    ArrivesAt(f);
    ArrivesOn(f1, OfFluids(e), [], f);
    ms := [AskTwo(0, 1, 2)] + ([OfFluids(e)] + []);
    ArrivesOn(FactoryStart([], 1), AskTwo(0, 1, 2), [OfFluids(e)] + [], f);
  }

  // ----- two buses, one of which is being drained when the job asks

  /** Jobs without items, on an item bus without slots. */
  ghost predicate NoItems(w: World) {
    w.sys == Start([]) && forall j :: j in w.jobs ==> w.jobs[j].kind == Mixed && w.jobs[j].parts == [] == w.jobs[j].slotsToFree
  }

  lemma NoItemsAct(w: World, a: Action)
    requires NoItems(w)
    requires (a.Begin? && a.kind == Mixed && a.tickets == [] && a.uses == []) || ((a.Unload? || a.Complete?) && a.j in w.jobs)
    ensures NoItems(Act(w, [a])) && Act(w, [a]).jobs == JobsAfter(w, a)
  {
    OneAct(w, a);
    assert Trace(w, a) == [];
  }

  /** The job that drains has one ticket, and nothing to do but to get its bus, draw and hand it over. */
  ghost predicate Draining(f: Factory, stage: Stage, side: Side, state: FluidState) {
    && NoItems(f.world) && 0 in f.world.jobs && f.world.jobs[0].stage == stage && 1 !in f.world.jobs
    && 0 in f.sides && f.sides[0] == side && f.sides.Keys == {0}
    && 10 in f.owner && f.owner[10] == 0
    && f.parts.Keys == {10} && f.parts[10] == FluidPart(ONE_DRAW, state)
  }

  function Drain(): Move { Enter(0, Mixed, [], [], [10], map[10 := ONE_DRAW], true) }

  lemma OneAsks(s: F.System, t: Ticket)
    requires !s.draining
    ensures FluidApply(s, FluidAsks([t])) == F.Step(s, F.Ask(t))
  {
    assert [t][1..] == [] && FluidAsks([t])[1..] == [];
  }

  lemma DrainEnters() returns (f: Factory)
    ensures Permitted(FactoryStart([], 2), Drain()) && f == After(FactoryStart([], 2), Drain())
    ensures Draining(f, Loading, Side([10], [], true), Asked)
    ensures f.fluid == F.System(State({}, [10], [], true), map[], F.Reading, 2, false)
  {
    var f0 := FactoryStart([], 2);
    NoItemsAct(f0.world, Begin(0, Mixed, [], []));
    OneAsks(f0.fluid, 10);
    f := After(f0, Drain());
    assert [10][0] == 10;
  }

  lemma DrainIsServed(f0: Factory) returns (f: Factory)
    requires Draining(f0, Loading, Side([10], [], true), Asked)
    requires f0.fluid == F.System(State({}, [10], [], true), map[], F.Reading, 2, false)
    ensures var m := OfFluids(F.Answer([0, 1], [])); Permitted(f0, m) && f == After(f0, m)
    ensures Draining(f, Loading, Side([10], [], true), Asked)
    ensures f.fluid == F.System(State({1}, [], [], false), map[1 := 10], F.Idle, 2, false)
  {
    assert [0, 1][..1] == [0] && [10][1..] == [] && {} + {1} == {1};
    OneFluidStep(f0, F.Answer([0, 1], []));
    f := After(f0, OfFluids(F.Answer([0, 1], [])));
  }

  lemma DrainLearns(f0: Factory) returns (f: Factory)
    requires Draining(f0, Loading, Side([10], [], true), Asked)
    requires f0.fluid == F.System(State({1}, [], [], false), map[1 := 10], F.Idle, 2, false)
    ensures Permitted(f0, Learn(10)) && f == After(f0, Learn(10)) && f.fluid == f0.fluid
    ensures Draining(f, Loading, Side([10], [10], true), Drawing(1, 1, true))
  {
    assert 1 in f0.fluid.held && SeatOf(f0.fluid.held, 10) == Some(1);
    f := After(f0, Learn(10));
  }

  lemma DrainDraws(f0: Factory) returns (f: Factory)
    requires Draining(f0, Loading, Side([10], [10], true), Drawing(1, 1, true))
    ensures Permitted(f0, Draws(10, true)) && f == After(f0, Draws(10, true)) && f.fluid == f0.fluid
    ensures Draining(f, Loading, Side([10], [10], true), Drawing(1, 0, true))
  {
    f := After(f0, Draws(10, true));
  }

  lemma DrainUnloads(f0: Factory) returns (f: Factory)
    requires Draining(f0, Loading, Side([10], [10], true), Drawing(1, 0, true))
    ensures Permitted(f0, OfItems(Unload(0))) && f == After(f0, OfItems(Unload(0))) && f.fluid == f0.fluid
    ensures Draining(f, Unloading, Side([10], [10], true), Sending(1, 0, true))
  {
    NoItemsAct(f0.world, Unload(0));
    assert 10 in f0.sides[0].parts;
    f := After(f0, OfItems(Unload(0)));
  }

  lemma DrainHandsOver(f0: Factory) returns (f: Factory)
    requires Draining(f0, Unloading, Side([10], [10], true), Sending(1, 0, true))
    requires f0.fluid == F.System(State({1}, [], [], false), map[1 := 10], F.Idle, 2, false)
    ensures Permitted(f0, OfItems(Complete(0))) && f == After(f0, OfItems(Complete(0)))
    ensures Draining(f, Ended(true), Side([10], [10], true), Returned)
    ensures f.fluid == F.System(State({}, [], [], true), map[1 := 10] - {1}, F.Reading, 2, false)
  {
    NoItemsAct(f0.world, Complete(0));
    assert BusesOf([10], f0.parts) == [1];
    OneFluidEvent(f0.fluid, F.PutBack([1]));
    FluidApplyRuns(f0.fluid, [F.PutBack([1])]);
    f := After(f0, OfItems(Complete(0)));
    assert {1} - SetOf([1]) == {} && SetOf([1]) == {1};
  }

  lemma BusIsDrained(f0: Factory) returns (f: Factory)
    requires Draining(f0, Ended(true), Side([10], [10], true), Returned)
    requires f0.fluid == F.System(State({}, [], [], true), map[1 := 10] - {1}, F.Reading, 2, false)
    ensures var m := OfFluids(F.Answer([0], [1])); Permitted(f0, m) && f == After(f0, m)
    ensures Draining(f, Ended(true), Side([10], [10], true), Returned)
    ensures f.fluid == F.System(State({}, [], [], true), map[1 := 10] - {1}, F.Storing([1]), 2, false)
  {
    OneFluidStep(f0, F.Answer([0], [1]));
    f := After(f0, OfFluids(F.Answer([0], [1])));
  }

  lemma TwoFit(f: Factory)
    requires NoItems(f.world) && f.fluid.n == 2 && f.sides.Keys == {0, 1}
    requires |f.sides[0].parts| == 1 && |f.sides[1].parts| == 2
    ensures AllFit(f)
  {}

  lemma TwoAskInStoring(s: F.System)
    requires s == F.System(State({}, [], [], true), map[1 := 10] - {1}, F.Storing([1]), 2, false)
    ensures FluidApply(s, FluidAsks([20, 21]))
      == F.System(State({}, [20, 21], [], true), map[1 := 10] - {1}, F.Storing([1]), 2, false)
  {
    TwoAsks(s, 20, 21);
  }

  lemma SecondJobFits(f0: Factory, f: Factory)
    requires NoItems(f0.world) && f0.sides.Keys == {0} && |f0.sides[0].parts| == 1 && f.fluid.n == 2
    requires f.sides == f0.sides[1 := Side([20, 21], [], false)]
    requires f.world == Act(f0.world, [Begin(1, Mixed, [], [])])
    ensures AllFit(f)
  {
    NoItemsAct(f0.world, Begin(1, Mixed, [], []));
    TwoFit(f);
  }

  lemma TwoEnter(f0: Factory) returns (f: Factory)
    requires Draining(f0, Ended(true), Side([10], [10], true), Returned)
    requires f0.fluid == F.System(State({}, [], [], true), map[1 := 10] - {1}, F.Storing([1]), 2, false)
    ensures Permitted(f0, AskTwo(1, 20, 21)) && f == After(f0, AskTwo(1, 20, 21))
    ensures AskedTwo(f, 1, 20, 21) && AllFit(f)
    ensures f.fluid == F.System(State({}, [20, 21], [], true), map[1 := 10] - {1}, F.Storing([1]), 2, false)
  {
    MayAskTwo(f0, 1, 20, 21);
    AsksTwo(f0, 1, 20, 21);
    TwoAskInStoring(f0.fluid);
    f := After(f0, AskTwo(1, 20, 21));
    SecondJobFits(f0, f);
  }

  lemma OnlyTheDrainedIsGiven(f0: Factory) returns (f: Factory)
    requires AskedTwo(f0, 1, 20, 21) && AllFit(f0)
    requires f0.fluid == F.System(State({}, [20, 21], [], true), map[1 := 10] - {1}, F.Storing([1]), 2, false)
    ensures Permitted(f0, OfFluids(F.Stored)) && f == After(f0, OfFluids(F.Stored)) && AllFit(f)
    ensures Stuck(f) && AskedTwo(f, 1, 20, 21) && 0 !in f.fluid.bus.allocations
  {
    assert [20, 21][1..] == [21] && [1][..0] == [] && {} + {1} == {1};
    OneFluidStep(f0, F.Stored);
    f := After(f0, OfFluids(F.Stored));
    OneOfTwoIsStuck(f, 1, 20, 21, 1);
  }

  /** The moves from the end of the drain to the deadlock, and those before. */
  function LateMoves(): seq<Move> {
    [OfFluids(F.Answer([0], [1]))] + ([AskTwo(1, 20, 21)] + ([OfFluids(F.Stored)] + []))
  }

  function MiddleMoves(): seq<Move> {
    [Draws(10, true)] + ([OfItems(Unload(0))] + ([OfItems(Complete(0))] + LateMoves()))
  }

  function DrainMoves(): seq<Move> {
    [Drain()] + ([OfFluids(F.Answer([0, 1], []))] + ([Learn(10)] + MiddleMoves()))
  }

  lemma LateRun(f0: Factory) returns (f: Factory)
    requires Draining(f0, Ended(true), Side([10], [10], true), Returned)
    requires f0.fluid == F.System(State({}, [], [], true), map[1 := 10] - {1}, F.Reading, 2, false)
    ensures Arrives(f0, LateMoves(), f) && AllFit(f) && Stuck(f) && 0 !in f.fluid.bus.allocations
  {
    var f1 := BusIsDrained(f0);
    var f2 := TwoEnter(f1);
    f := OnlyTheDrainedIsGiven(f2);
    ArrivesAt(f);
    ArrivesOn(f2, OfFluids(F.Stored), [], f);
    ArrivesOn(f1, AskTwo(1, 20, 21), [OfFluids(F.Stored)] + [], f);
    ArrivesOn(f0, OfFluids(F.Answer([0], [1])), [AskTwo(1, 20, 21)] + ([OfFluids(F.Stored)] + []), f);
  }

  lemma MiddleRun(f0: Factory) returns (f: Factory)
    requires Draining(f0, Loading, Side([10], [10], true), Drawing(1, 1, true))
    requires f0.fluid == F.System(State({1}, [], [], false), map[1 := 10], F.Idle, 2, false)
    ensures Arrives(f0, MiddleMoves(), f) && AllFit(f) && Stuck(f) && 0 !in f.fluid.bus.allocations
  {
    var f1 := DrainDraws(f0);
    var f2 := DrainUnloads(f1);
    var f3 := DrainHandsOver(f2);
    f := LateRun(f3);
    ArrivesOn(f2, OfItems(Complete(0)), LateMoves(), f);
    ArrivesOn(f1, OfItems(Unload(0)), [OfItems(Complete(0))] + LateMoves(), f);
    ArrivesOn(f0, Draws(10, true), [OfItems(Unload(0))] + ([OfItems(Complete(0))] + LateMoves()), f);
  }

  /** Every job fits: a recipe of two fluids, on two buses. It asks while the fluid of another job is stored away out of bus 1,
      gets that bus for the first fluid, and waits for ever for the second, although bus 0 is free. */
  lemma RecipeMeetsDrain() returns (f: Factory)
    ensures Arrives(FactoryStart([], 2), DrainMoves(), f) && AllFit(f) && Stuck(f) && 0 !in f.fluid.bus.allocations
  {
    var f1 := DrainEnters();
    var f2 := DrainIsServed(f1);
    var f3 := DrainLearns(f2);
    f := MiddleRun(f3);
    ArrivesOn(f2, Learn(10), MiddleMoves(), f);
    ArrivesOn(f1, OfFluids(F.Answer([0, 1], [])), [Learn(10)] + MiddleMoves(), f);
    ArrivesOn(FactoryStart([], 2), Drain(), [OfFluids(F.Answer([0, 1], []))] + ([Learn(10)] + MiddleMoves()), f);
  }

  // ----- two items, one slot

  /** One piece in, one piece out. */
  const ONE_PIECE := Use([1], [1], 1)

  function TwoItems(): Move { Enter(0, Plain, [1, 2], [ONE_PIECE, ONE_PIECE], [], map[], false) }

  /** A job with two tickets, and how far it has got. */
  ghost predicate TwoTickets(f: Factory, told: seq<Ticket>) {
    && f.world.jobs.Keys == {0} && f.world.jobs[0] == Job(Plain, [1, 2], told, Loading)
    && 1 in f.world.owner && f.world.owner[1] == 0 && 2 in f.world.owner && f.world.owner[2] == 0
    && f.world.sys.parts.Keys == {1, 2}
    && f.fluid == F.Start(0) && f.sides.Keys == {0} && f.sides[0].parts == []
  }

  ghost predicate Waiting2(s: System) {
    s.bus == State({}, [1, 2], [], true) && s.phys == [0] && 1 in s.parts && s.parts[1] == Part([1], [1], 1, Waiting)
  }

  lemma TwoAskForSlots(s: System)
    requires s == Start([0])
    ensures var es, s2 := AskEvents([1, 2], [ONE_PIECE, ONE_PIECE]), AskFor(AskFor(s, 1, [1], [1], 1), 2, [1], [1], 1);
      Apply(s, es) == s2 && s2.bus == State({}, [1, 2], [], true)
  {
    var us := [ONE_PIECE, ONE_PIECE];
    assert [1, 2][1..] == [2] && us[1..] == [ONE_PIECE] && [2][1..] == [] && [ONE_PIECE][1..] == [];
    var s1 := AskFor(s, 1, [1], [1], 1);
    assert AskEvents([1, 2], us)[1..] == AskEvents([2], [ONE_PIECE]);
    assert Enabled(s, Ask(1, [1], [1], 1)) && Enabled(s1, Ask(2, [1], [1], 1));
    assert AskEvents([2], [ONE_PIECE])[1..] == [];
    assert Apply(s, AskEvents([1, 2], us)) == Apply(s1, AskEvents([2], [ONE_PIECE]));
    assert AskEvents([2], [ONE_PIECE])[0] == Ask(2, [1], [1], 1);
    assert Apply(s1, AskEvents([2], [ONE_PIECE])) == Step(s1, Ask(2, [1], [1], 1));
  }

  function TwoUses(): seq<Use> { [ONE_PIECE, ONE_PIECE] }

  lemma ItemsMayEnter()
    ensures Permitted(FactoryStart([0], 0), TwoItems())
  {}

  lemma ItemsAsk() returns (w: World)
    ensures w == Act(WorldStart([0]), [Begin(0, Plain, [1, 2], TwoUses())])
    ensures w.jobs.Keys == {0} && w.jobs[0] == Job(Plain, [1, 2], [], Loading)
    ensures 1 in w.owner && w.owner[1] == 0 && 2 in w.owner && w.owner[2] == 0
    ensures w.sys == AskFor(AskFor(Start([0]), 1, [1], [1], 1), 2, [1], [1], 1)
  {
    OneAct(WorldStart([0]), Begin(0, Plain, [1, 2], TwoUses()));
    TwoAskForSlots(Start([0]));
    OwnersHave([1, 2], 0);
    w := Act(WorldStart([0]), [Begin(0, Plain, [1, 2], TwoUses())]);
  }

  lemma ItemsEnter() returns (f: Factory)
    ensures f == After(FactoryStart([0], 0), TwoItems()) && TwoTickets(f, [])
    ensures Waiting2(f.world.sys) && f.world.sys.phase.Requested? && f.world.sys.parts[2].state.Waiting?
  {
    var w := ItemsAsk();
    f := After(FactoryStart([0], 0), TwoItems());
    assert f.world == w;
  }

  lemma OneItemStep(f: Factory, e: Event)
    requires (e.Answer? || e.Process? || (e.Fill? && Woken(f.world, e.t))) && Enabled(f.world.sys, e)
    ensures Permitted(f, OfItems(OnBus(e)))
    ensures After(f, OfItems(OnBus(e))) == f.(world := f.world.(sys := Step(f.world.sys, e)))
  {
    OneAct(f.world, OnBus(e));
    OneRuns(f.world.sys, e);
    ApplyRuns(f.world.sys, [e]);
  }

  lemma SlotGoesToFirst(s: System)
    requires Waiting2(s)
    ensures var s' := GrantAll(s, [0]);
      s'.bus.waiters == [2] && s'.parts == s.parts[1 := Part([1], [1], 1, Filling(0, [1], true))]
  {
    assert [1, 2][1..] == [2] && [0][..0] == [];
    assert GrantAll(s, [0]) == GrantOne(s, 0);
  }

  lemma NothingToStore(s: System)
    requires s.phase == Answered([0]) && s.bus.allocations == {}
    ensures Enabled(s, Process([], true))
    ensures Step(s, Process([], true)) == Succeed(GrantAll(s, [0]), false)
  {
    assert FreeSlots([0], {}) == [0];
  }

  lemma OneSlotGiven(s: System)
    requires Waiting2(s) && s.phase == Answered([0])
    ensures Enabled(s, Process([], true))
    ensures var s' := Step(s, Process([], true));
      && s'.phase.Idle? && s'.bus.waiters == [2] && s'.parts == s.parts[1 := Part([1], [1], 1, Filling(0, [1], true))]
  {
    NothingToStore(s);
    SlotGoesToFirst(s);
  }

  lemma ItemsAreGranted(f0: Factory) returns (f: Factory)
    requires TwoTickets(f0, []) && Waiting2(f0.world.sys) && f0.world.sys.phase == Answered([0])
    requires f0.world.sys.parts[2].state.Waiting?
    ensures Permitted(f0, OfItems(OnBus(Process([], true)))) && f == After(f0, OfItems(OnBus(Process([], true))))
    ensures TwoTickets(f, []) && f.world.sys.phase.Idle? && f.world.sys.bus.waiters == [2]
    ensures f.world.sys.parts[1].state == Filling(0, [1], true) && f.world.sys.parts[2].state.Waiting?
    ensures f.world.sys.phys == [0]
  {
    OneSlotGiven(f0.world.sys);
    OneItemStep(f0, Process([], true));
    f := After(f0, OfItems(OnBus(Process([], true))));
  }

  lemma FirstIsTold(f0: Factory) returns (f: Factory)
    requires TwoTickets(f0, []) && f0.world.sys.phase.Idle? && f0.world.sys.bus.waiters == [2]
    requires f0.world.sys.parts[1].state == Filling(0, [1], true) && f0.world.sys.parts[2].state.Waiting?
    requires f0.world.sys.phys == [0]
    ensures Permitted(f0, OfItems(Wake(1))) && f == After(f0, OfItems(Wake(1)))
    ensures TwoTickets(f, [1]) && f.world.sys == f0.world.sys
  {
    OneAct(f0.world, Wake(1));
    f := After(f0, OfItems(Wake(1)));
  }

  lemma FirstIsLoaded(f0: Factory) returns (f: Factory)
    requires TwoTickets(f0, [1]) && f0.world.sys.phase.Idle? && f0.world.sys.bus.waiters == [2]
    requires f0.world.sys.parts[1].state == Filling(0, [1], true) && f0.world.sys.parts[2].state.Waiting?
    requires f0.world.sys.phys == [0]
    ensures Permitted(f0, OfItems(OnBus(Fill(1, 0, 1)))) && f == After(f0, OfItems(OnBus(Fill(1, 0, 1))))
    ensures OneSlotForTwo(f)
  {
    assert [1] == [] + [1] && RemoveAt([1], 0) == [];
    assert Woken(f0.world, 1) by {
      assert f0.world.jobs[0].slotsToFree[0] == 1;
    }
    OneItemStep(f0, Fill(1, 0, 1));
    f := After(f0, OfItems(OnBus(Fill(1, 0, 1))));
  }

  /** One of the two tickets has the slot, the other waits, and both tasks are at rest. */
  ghost predicate OneSlotForTwo(f: Factory) {
    && TwoTickets(f, [1]) && f.world.sys.phase.Idle? && f.fluid.phase.Idle? && f.world.sys.bus.waiters == [2]
    && f.world.sys.parts[1].state == Filling(0, [], true) && f.world.sys.parts[2].state.Waiting?
  }

  lemma SecondNotDone(f: Factory)
    requires OneSlotForTwo(f)
    ensures !AllChildrenDone(f.world.jobs[0], f.world.sys.parts) && !AllChildrenOk(f.world.jobs[0], f.world.sys.parts)
  {
    assert f.world.jobs[0].parts[1] == 2;
    assert !ChildDone(f.world.jobs[0], f.world.jobs[0].parts[1], f.world.sys.parts);
    assert !ChildOk(f.world.jobs[0], f.world.jobs[0].parts[1], f.world.sys.parts);
  }

  lemma NoOwnMove(f: Factory, m: Move)
    requires OneSlotForTwo(f)
    ensures !OwnMove(f, 0, m)
  {
    SecondNotDone(f);
  }

  lemma NoTaskMove(f: Factory, m: Move)
    requires OneSlotForTwo(f)
    ensures !TaskMove(f, m)
  {}

  /** Nothing moves: no step of the only job and none of the tasks. */
  ghost predicate Dead(f: Factory) { forall m :: !OwnMove(f, 0, m) && !TaskMove(f, m) }

  /** With one slot, a job of two items gets it for the first, and then neither it nor the background task can do anything. */
  lemma TooFewSlots() returns (ms: seq<Move>, f: Factory)
    ensures Arrives(FactoryStart([0], 0), ms, f) && f.world.jobs.Keys == {0} && Live(f, 0) && Dead(f)
  {
    ItemsMayEnter();
    var f1 := ItemsEnter();
    f := SlotIsGiven(f1);
    forall m ensures !OwnMove(f, 0, m) && !TaskMove(f, m) {
      NoOwnMove(f, m);
      NoTaskMove(f, m);
    }
    ms := [TwoItems()] + SlotMoves();
    ArrivesOn(FactoryStart([0], 0), TwoItems(), SlotMoves(), f);
  }

  lemma SlotIsGiven(f1: Factory) returns (f: Factory)
    requires TwoTickets(f1, []) && Waiting2(f1.world.sys) && f1.world.sys.phase.Requested? && f1.world.sys.parts[2].state.Waiting?
    ensures Arrives(f1, SlotMoves(), f) && OneSlotForTwo(f)
  {
    OneItemStep(f1, Answer);
    var f2 := After(f1, OfItems(OnBus(Answer)));
    var f3 := ItemsAreGranted(f2);
    f := SlotIsUsed(f3);
    ArrivesOn(f2, OfItems(OnBus(Process([], true))), UseMoves(), f);
    ArrivesOn(f1, OfItems(OnBus(Answer)), [OfItems(OnBus(Process([], true)))] + UseMoves(), f);
  }

  lemma SlotIsUsed(f3: Factory) returns (f: Factory)
    requires TwoTickets(f3, []) && f3.world.sys.phase.Idle? && f3.world.sys.bus.waiters == [2] && f3.world.sys.phys == [0]
    requires f3.world.sys.parts[1].state == Filling(0, [1], true) && f3.world.sys.parts[2].state.Waiting?
    ensures Arrives(f3, UseMoves(), f) && OneSlotForTwo(f)
  {
    var f4 := FirstIsTold(f3);
    f := FirstIsLoaded(f4);
    ArrivesAt(f);
    ArrivesOn(f4, OfItems(OnBus(Fill(1, 0, 1))), [], f);
    ArrivesOn(f3, OfItems(Wake(1)), [OfItems(OnBus(Fill(1, 0, 1)))] + [], f);
  }

  function UseMoves(): seq<Move> {
    [OfItems(Wake(1))] + ([OfItems(OnBus(Fill(1, 0, 1)))] + [])
  }

  function SlotMoves(): seq<Move> {
    [OfItems(OnBus(Answer))] + ([OfItems(OnBus(Process([], true)))] + UseMoves())
  }
}
