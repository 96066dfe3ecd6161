/** The jobs on both buses at once. A job may also need fluids: it asks for one fluid bus per fluid in the same step in which
    it asks for its item slots (execute_recipe of fluid_slotted.rs), it joins both, and it returns both. A job that drains a
    machine's tank has one fluid bus and nothing else, and hands that over in any case (extract_fluids there, and
    blocking_fluid_output.rs).

    As in JobRuns, a job sends its events to the fluid bus (FluidBus) without looking; that the bus always allows them is
    proved here. */
module FactoryRuns {
  import opened Common
  import opened Bus
  import opened BusSystem
  import opened BusJobs
  import opened Lines
  import opened JobRuns
  import F = FluidBus

  /** How many extractions fill the bus, and how many transfers empty it. */
  datatype FluidUse = FluidUse(fills: nat, outs: nat)

  /** A task has been told its bus once it is drawing. */
  datatype FluidState =
    | Asked
    | Refused
    | Drawing(bus: nat, rest: nat, ok: bool)
    | Sending(bus: nat, rest: nat, ok: bool)
    | Returned
  {
    predicate Seated() { Drawing? || Sending? }
  }

  datatype FluidPart = FluidPart(use: FluidUse, state: FluidState)

  /** The fluid side of a job: its tickets, those that have been told their bus, in that order, and whether it only drains. */
  datatype Side = Side(parts: seq<Ticket>, toFree: seq<Ticket>, drains: bool)

  datatype Factory = Factory(
    world: World,
    fluid: F.System,
    sides: map<nat, Side>,
    owner: map<Ticket, nat>,
    parts: map<Ticket, FluidPart>)

  datatype Move =
    | Enter(j: nat, kind: Kind, tickets: seq<Ticket>, uses: seq<Use>,
            fluids: seq<Ticket>, needs: map<Ticket, FluidUse>, drains: bool)
    | Learn(t: Ticket)
    | Draws(t: Ticket, ok: bool)
    | Sends(t: Ticket, ok: bool)
    | OfItems(a: Action)
    | OfFluids(e: F.Event)
    | Close(spawn: bool, spawnFluid: bool)
    | Reopen

  function FactoryStart(phys: seq<nat>, buses: nat): Factory {
    Factory(WorldStart(phys), F.Start(buses), map[], map[], map[])
  }

  // ----- what the joins wait for

  /** The task of a ticket has ended: it was refused a bus, or all its extractions have been answered. */
  predicate Drawn(t: Ticket, parts: map<Ticket, FluidPart>) {
    t in parts && (parts[t].state.Refused? || (parts[t].state.Drawing? && parts[t].state.rest == 0))
  }

  predicate DrawnWell(t: Ticket, parts: map<Ticket, FluidPart>) {
    Drawn(t, parts) && parts[t].state.Drawing? && parts[t].state.ok
  }

  predicate Sent(t: Ticket, parts: map<Ticket, FluidPart>) {
    t in parts && parts[t].state.Sending? && parts[t].state.rest == 0
  }

  predicate SentWell(t: Ticket, parts: map<Ticket, FluidPart>) {
    Sent(t, parts) && parts[t].state.ok
  }

  predicate AllDrawn(side: Side, parts: map<Ticket, FluidPart>) { forall t :: t in side.parts ==> Drawn(t, parts) }

  predicate AllDrawnWell(side: Side, parts: map<Ticket, FluidPart>) { forall t :: t in side.parts ==> DrawnWell(t, parts) }

  predicate AllSent(side: Side, parts: map<Ticket, FluidPart>) { forall t :: t in side.parts ==> Sent(t, parts) }

  predicate AllSentWell(side: Side, parts: map<Ticket, FluidPart>) { forall t :: t in side.parts ==> SentWell(t, parts) }

  function SideOf(f: Factory, j: nat): Side { if j in f.sides then f.sides[j] else Side([], [], false) }

  /** The moments at which a job goes on after its joins. */
  predicate Joined(f: Factory, a: Action) {
    match a
    case Unload(j) => AllDrawnWell(SideOf(f, j), f.parts)
    case Abandon(j) =>
      && AllDrawn(SideOf(f, j), f.parts)
      && !(j in f.world.jobs && AllChildrenOk(f.world.jobs[j], f.world.sys.parts) && AllDrawnWell(SideOf(f, j), f.parts))
    case Complete(j) => AllSentWell(SideOf(f, j), f.parts)
    case GiveUp(j) =>
      && AllSent(SideOf(f, j), f.parts)
      && !(j in f.world.jobs && AllOutOk(f.world.jobs[j], f.world.sys.parts) && AllSentWell(SideOf(f, j), f.parts))
    case OnBus(e) => !e.EndCycle? && !e.NextCycle?
    case Wake(_) => true
    case Begin(_, _, _, _) => false
  }

  predicate MayEnter(f: Factory, m: Move)
    requires m.Enter?
  {
    && MayBegin(f.world, m.j, m.kind, m.tickets, m.uses)
    && !f.fluid.draining && Distinct(m.fluids)
    && (forall t :: t in m.fluids ==> t !in f.parts && t in m.needs)
    && (m.fluids != [] ==> m.kind.Mixed?)
    && (m.drains ==> m.tickets == [] && |m.fluids| == 1 && m.needs[m.fluids[0]].outs == 0)
  }

  ghost predicate Permitted(f: Factory, m: Move) {
    match m
    case Enter(_, _, _, _, _, _, _) => MayEnter(f, m)
    case Learn(t) => t in f.parts && f.parts[t].state.Asked? && t !in f.fluid.bus.waiters
    case Draws(t, ok) => t in f.parts && f.parts[t].state.Drawing? && f.parts[t].state.rest > 0
    case Sends(t, ok) => t in f.parts && f.parts[t].state.Sending? && f.parts[t].state.rest > 0
    case OfItems(a) => Allowed(f.world, a) && Joined(f, a)
    case OfFluids(e) => (e.Answer? || e.Stored? || e.Fails?) && F.Enabled(f.fluid, e)
    case Close(spawn, spawnFluid) =>
      && Allowed(f.world, OnBus(EndCycle(spawn))) && !f.fluid.draining && (spawnFluid ==> f.fluid.phase.Idle?)
    case Reopen => Allowed(f.world, OnBus(NextCycle)) && F.Enabled(f.fluid, F.NextCycle)
  }

  // ----- steps

  function ItemActions(m: Move): seq<Action> {
    match m
    case Enter(j, kind, tickets, uses, _, _, _) => [Begin(j, kind, tickets, uses)]
    case OfItems(a) => [a]
    case Close(spawn, _) => [OnBus(EndCycle(spawn))]
    case Reopen => [OnBus(NextCycle)]
    case _ => []
  }

  function FluidAsks(ts: seq<Ticket>): seq<F.Event> {
    if ts == [] then [] else [F.Ask(ts[0])] + FluidAsks(ts[1..])
  }

  function BusOf(t: Ticket, parts: map<Ticket, FluidPart>): nat {
    if t in parts && parts[t].state.Seated() then parts[t].state.bus else 0
  }

  function BusesOf(ts: seq<Ticket>, parts: map<Ticket, FluidPart>): (xs: seq<nat>)
    ensures |xs| == |ts| && forall i :: 0 <= i < |ts| ==> xs[i] == BusOf(ts[i], parts)
  {
    seq(|ts|, i requires 0 <= i < |ts| => BusOf(ts[i], parts))
  }

  function GiveBacks(xs: seq<nat>): seq<F.Event> {
    if xs == [] then [] else [F.GiveBack(xs[0])] + GiveBacks(xs[1..])
  }

  /** Buses are freed on success and handed over for emptying on failure; a drained machine's fluid is in the bus, so that is
      handed over in any case. */
  function ReturnBuses(f: Factory, j: nat, ok: bool): seq<F.Event> {
    var side := SideOf(f, j);
    if ok && !side.drains then GiveBacks(BusesOf(side.toFree, f.parts)) else [F.PutBack(BusesOf(side.toFree, f.parts))]
  }

  function JobEvents(f: Factory, a: Action): seq<F.Event> {
    match a
    case Abandon(j) => ReturnBuses(f, j, false)
    case Complete(j) => ReturnBuses(f, j, true)
    case GiveUp(j) => ReturnBuses(f, j, false)
    case _ => []
  }

  /** What a move sends to the fluid bus. */
  function FluidEvents(f: Factory, m: Move): seq<F.Event> {
    match m
    case Enter(_, _, _, _, fluids, _, _) => FluidAsks(fluids)
    case OfItems(a) => JobEvents(f, a)
    case OfFluids(e) => [e]
    case Close(_, spawnFluid) => [F.EndCycle(spawnFluid)]
    case Reopen => [F.NextCycle]
    case _ => []
  }

  /** The bus after these events, whether or not its rules allow them. */
  ghost function FluidApply(s: F.System, es: seq<F.Event>): F.System
    decreases |es|
  {
    if es == [] then s else FluidApply(if F.Enabled(s, es[0]) then F.Step(s, es[0]) else s, es[1..])
  }

  /** The bus that a ticket has got. */
  ghost function SeatOf(held: map<nat, Ticket>, t: Ticket): (r: Option<nat>)
    ensures r.Some? ==> r.value in held && held[r.value] == t
    ensures r.None? ==> forall x :: x in held ==> held[x] != t
  {
    if x :| x in held && held[x] == t then Some(x) else None
  }

  function NewParts(ts: seq<Ticket>, needs: map<Ticket, FluidUse>): (r: map<Ticket, FluidPart>)
    ensures forall t :: t in r <==> t in ts && t in needs
    ensures forall t :: t in r ==> r[t] == FluidPart(needs[t], Asked)
  {
    if ts == [] then map[]
    else
      assert ts == [ts[0]] + ts[1..];
      var rest := NewParts(ts[1..], needs);
      if ts[0] in needs then rest[ts[0] := FluidPart(needs[ts[0]], Asked)] else rest
  }

  function SendingAll(parts: map<Ticket, FluidPart>, ts: seq<Ticket>): map<Ticket, FluidPart> {
    map t | t in parts ::
      if t in ts then parts[t].(state := Sending(BusOf(t, parts), parts[t].use.outs, true)) else parts[t]
  }

  function ReturnedAll(parts: map<Ticket, FluidPart>, ts: set<Ticket>): map<Ticket, FluidPart> {
    map t | t in parts :: if t in ts then parts[t].(state := Returned) else parts[t]
  }

  ghost function ToldState(seat: Option<nat>, use: FluidUse): FluidState {
    match seat
    case Some(x) => Drawing(x, use.fills, true)
    case None => FluidState.Refused
  }

  function Count(state: FluidState, ok: bool): FluidState {
    match state
    case Drawing(x, rest, fine) => if rest > 0 then Drawing(x, rest - 1, fine && ok) else state
    case Sending(x, rest, fine) => if rest > 0 then Sending(x, rest - 1, fine && ok) else state
    case _ => state
  }

  function SetState(parts: map<Ticket, FluidPart>, t: Ticket, state: FluidState): map<Ticket, FluidPart> {
    if t in parts then parts[t := parts[t].(state := state)] else parts
  }

  function StateOf(parts: map<Ticket, FluidPart>, t: Ticket): FluidState {
    if t in parts then parts[t].state else Asked
  }

  function JobParts(f: Factory, a: Action): map<Ticket, FluidPart> {
    match a
    case Unload(j) => SendingAll(f.parts, SideOf(f, j).parts)
    case Abandon(j) => ReturnedAll(f.parts, SetOf(SideOf(f, j).toFree))
    case Complete(j) => ReturnedAll(f.parts, SetOf(SideOf(f, j).toFree))
    case GiveUp(j) => ReturnedAll(f.parts, SetOf(SideOf(f, j).toFree))
    case _ => f.parts
  }

  ghost function PartsAfter(f: Factory, m: Move): map<Ticket, FluidPart> {
    match m
    case Enter(_, _, _, _, fluids, needs, _) => f.parts + NewParts(fluids, needs)
    case Learn(t) =>
      if t in f.parts then SetState(f.parts, t, ToldState(SeatOf(f.fluid.held, t), f.parts[t].use)) else f.parts
    case Draws(t, ok) => SetState(f.parts, t, Count(StateOf(f.parts, t), ok))
    case Sends(t, ok) => SetState(f.parts, t, Count(StateOf(f.parts, t), ok))
    case OfItems(a) => JobParts(f, a)
    case _ => f.parts
  }

  ghost function SidesAfter(f: Factory, m: Move): map<nat, Side> {
    match m
    case Enter(j, _, _, _, fluids, _, drains) => f.sides[j := Side(fluids, [], drains)]
    case Learn(t) =>
      if t in f.owner && f.owner[t] in f.sides && SeatOf(f.fluid.held, t).Some? then
        var side := f.sides[f.owner[t]];
        f.sides[f.owner[t] := side.(toFree := side.toFree + [t])]
      else f.sides
    case _ => f.sides
  }

  ghost function OwnerOfFluids(f: Factory, m: Move): map<Ticket, nat> {
    if m.Enter? then f.owner + OwnersOf(m.fluids, m.j) else f.owner
  }

  ghost function After(f: Factory, m: Move): Factory {
    Factory(Act(f.world, ItemActions(m)), FluidApply(f.fluid, FluidEvents(f, m)),
            SidesAfter(f, m), OwnerOfFluids(f, m), PartsAfter(f, m))
  }

  // ----- the invariant

  /** Who waits for a bus or has one is what its task believes, or is about to be told. */
  ghost predicate Seats(waiters: seq<Ticket>, held: map<nat, Ticket>, parts: map<Ticket, FluidPart>) {
    && Distinct(waiters)
    && (forall t :: t in waiters ==> t in parts && parts[t].state.Asked?)
    && (forall x :: x in held ==>
          && held[x] in parts && held[x] !in waiters
          && (parts[held[x]].state.Asked? || (parts[held[x]].state.Seated() && parts[held[x]].state.bus == x)))
    && (forall x, y :: x in held && y in held && held[x] == held[y] ==> x == y)
    && (forall t :: t in parts && parts[t].state.Seated() ==> parts[t].state.bus in held && held[parts[t].state.bus] == t)
  }

  predicate SidePartOk(stage: Stage, side: Side, t: Ticket, p: FluidPart) {
    match stage
    case Loading => (p.state.Asked? || p.state.Refused? || p.state.Drawing?) && (t in side.toFree <==> p.state.Drawing?)
    case Unloading => p.state.Sending? && t in side.toFree
    case Ended(_) => p.state.Refused? || p.state.Returned?
  }

  ghost predicate SideOk(stage: Stage, side: Side, parts: map<Ticket, FluidPart>) {
    && Distinct(side.toFree) && (forall t :: t in side.toFree ==> t in side.parts)
    && forall t :: t in side.parts ==> t in parts && SidePartOk(stage, side, t, parts[t])
  }

  ghost predicate SidesOk(jobs: map<nat, Job>, sides: map<nat, Side>, parts: map<Ticket, FluidPart>) {
    && sides.Keys == jobs.Keys
    && (forall j :: j in jobs ==> SideOk(jobs[j].stage, sides[j], parts))
    && forall j :: j in jobs && sides[j].parts != [] ==> jobs[j].kind.Mixed?
  }

  ghost predicate FluidsOwned(sides: map<nat, Side>, owner: map<Ticket, nat>, tickets: set<Ticket>) {
    && owner.Keys == tickets
    && (forall t :: t in owner ==> owner[t] in sides && t in sides[owner[t]].parts)
    && forall j :: j in sides ==> OwnsAll(owner, j, sides[j].parts)
  }

  function FluidTickets(sides: map<nat, Side>): map<nat, seq<Ticket>> { map j | j in sides :: sides[j].parts }

  /** Jobs, tickets and fluid bus agree. */
  ghost predicate Agreed(jobs: map<nat, Job>, log: seq<nat>, s: F.System, sides: map<nat, Side>, owner: map<Ticket, nat>,
                         parts: map<Ticket, FluidPart>)
  {
    && F.Inv(s)
    && Seats(s.bus.waiters, s.held, parts)
    && SidesOk(jobs, sides, parts)
    && FluidsOwned(sides, owner, parts.Keys)
    && Suffix(s.bus.waiters, Lined(log, FluidTickets(sides)))
  }

  ghost predicate FluidInv(f: Factory) { Agreed(f.world.jobs, f.world.log, f.fluid, f.sides, f.owner, f.parts) }

  ghost predicate FactoryInv(f: Factory) { WorldInv(f.world) && FluidInv(f) }

  lemma FactoryStartInv(phys: seq<nat>, buses: nat)
    ensures FactoryInv(FactoryStart(phys, buses))
  {
    StartWorldInv(phys);
    NobodyYet(buses);
    assert WorldStart(phys).jobs == map[] && WorldStart(phys).log == [];
  }

  lemma NobodyYet(buses: nat)
    ensures Agreed(map[], [], F.Start(buses), map[], map[], map[])
  {}

  // ----- what the events of a move do to the fluid bus

  lemma SuffixMore(a: seq<Ticket>, b: seq<Ticket>, c: seq<Ticket>)
    requires Suffix(a, b) && Suffix(b, c)
    ensures Suffix(a, c)
  {}

  lemma {:induction false} FluidApplyRuns(s: F.System, es: seq<F.Event>)
    requires F.CanRun(s, es)
    ensures FluidApply(s, es) == F.Run(s, es)
    decreases |es|
  {
    if es != [] {
      FluidApplyRuns(F.Step(s, es[0]), es[1..]);
    }
  }

  lemma OneFluidEvent(s: F.System, e: F.Event)
    requires F.Enabled(s, e)
    ensures F.CanRun(s, [e]) && F.Run(s, [e]) == F.Step(s, e)
  {
    F.RunOne(s, e, []);
    assert [e] + [] == [e];
  }

  lemma {:induction false} FluidAsksRun(s: F.System, ts: seq<Ticket>)
    requires F.Inv(s) && !s.draining
    ensures var es := FluidAsks(ts);
      && F.CanRun(s, es) && F.Inv(F.Run(s, es))
      && F.Run(s, es).bus.waiters == s.bus.waiters + ts && F.Run(s, es).held == s.held
    decreases |ts|
  {
    if ts == [] {
      assert F.Run(s, []) == s;
    } else {
      F.OwnershipIsSafe(s, F.Ask(ts[0]));
      var s1 := F.Step(s, F.Ask(ts[0]));
      FluidAsksRun(s1, ts[1..]);
      F.RunOne(s, F.Ask(ts[0]), FluidAsks(ts[1..]));
      assert s.bus.waiters + ts == s1.bus.waiters + ts[1..];
    }
  }

  /** The bus of a ticket that has one. */
  lemma SeatedHolds(waiters: seq<Ticket>, held: map<nat, Ticket>, parts: map<Ticket, FluidPart>, t: Ticket)
    requires Seats(waiters, held, parts) && t in parts && parts[t].state.Seated()
    ensures BusOf(t, parts) in held && held[BusOf(t, parts)] == t && t !in waiters
  {}

  lemma FreeSeats(waiters: seq<Ticket>, held: map<nat, Ticket>, parts: map<Ticket, FluidPart>, t: Ticket)
    requires Seats(waiters, held, parts) && t in parts && parts[t].state.Seated()
    ensures var x, parts' := BusOf(t, parts), parts[t := parts[t].(state := Returned)];
      && (waiters != [] ==> Seats(waiters[1..], held[x := waiters[0]], parts'))
      && Seats(waiters, held - {x}, parts')
  {
    if waiters != [] {
      assert waiters[0] in waiters;
    }
  }

  predicate AllSeated(ts: seq<Ticket>, parts: map<Ticket, FluidPart>) {
    Distinct(ts) && forall t :: t in ts ==> t in parts && parts[t].state.Seated()
  }

  lemma FirstReturned(ts: seq<Ticket>, parts: map<Ticket, FluidPart>)
    requires ts != [] && AllSeated(ts, parts)
    ensures var parts1 := parts[ts[0] := parts[ts[0]].(state := Returned)];
      && AllSeated(ts[1..], parts1) && BusesOf(ts, parts)[1..] == BusesOf(ts[1..], parts1)
      && BusesOf(ts, parts)[0] == BusOf(ts[0], parts)
      && ReturnedAll(parts1, SetOf(ts[1..])) == ReturnedAll(parts, SetOf(ts))
  {
    assert ts == [ts[0]] + ts[1..];
    forall t | t in ts[1..] ensures t != ts[0] {
      var i :| 0 <= i < |ts[1..]| && ts[1..][i] == t;
    }
  }

  /** Where the fluid bus is after a job has returned its buses. */
  ghost predicate BusesReturned(s: F.System, s': F.System, parts: map<Ticket, FluidPart>, ts: seq<Ticket>) {
    && F.Inv(s') && Suffix(s'.bus.waiters, s.bus.waiters)
    && Seats(s'.bus.waiters, s'.held, ReturnedAll(parts, SetOf(ts)))
  }

  lemma NoneReturned(parts: map<Ticket, FluidPart>)
    ensures ReturnedAll(parts, SetOf([])) == parts
  {}

  lemma {:induction false} GiveBacksRun(s: F.System, ts: seq<Ticket>, parts: map<Ticket, FluidPart>)
    requires F.Inv(s) && Seats(s.bus.waiters, s.held, parts) && AllSeated(ts, parts)
    ensures var es := GiveBacks(BusesOf(ts, parts));
      F.CanRun(s, es) && BusesReturned(s, F.Run(s, es), parts, ts)
    decreases |ts|
  {
    if ts == [] {
      assert F.Run(s, []) == s;
      NoneReturned(parts);
    } else {
      var x, parts1 := BusOf(ts[0], parts), parts[ts[0] := parts[ts[0]].(state := Returned)];
      SeatedHolds(s.bus.waiters, s.held, parts, ts[0]);
      F.OwnershipIsSafe(s, F.GiveBack(x));
      var s1 := F.Step(s, F.GiveBack(x));
      FreeSeats(s.bus.waiters, s.held, parts, ts[0]);
      FirstReturned(ts, parts);
      GiveBacksRun(s1, ts[1..], parts1);
      F.RunOne(s, F.GiveBack(x), GiveBacks(BusesOf(ts[1..], parts1)));
      SuffixMore(F.Run(s1, GiveBacks(BusesOf(ts[1..], parts1))).bus.waiters, s1.bus.waiters, s.bus.waiters);
    }
  }

  lemma BusesDiffer(waiters: seq<Ticket>, held: map<nat, Ticket>, parts: map<Ticket, FluidPart>, ts: seq<Ticket>)
    requires Seats(waiters, held, parts) && AllSeated(ts, parts)
    ensures Distinct(BusesOf(ts, parts)) && forall x :: x in BusesOf(ts, parts) ==> x in held
    ensures Seats(waiters, held - SetOf(BusesOf(ts, parts)), ReturnedAll(parts, SetOf(ts)))
  {
    var xs := BusesOf(ts, parts);
    forall i | 0 <= i < |xs| ensures xs[i] in held && held[xs[i]] == ts[i] {
      assert ts[i] in ts;
      SeatedHolds(waiters, held, parts, ts[i]);
    }
    forall x | x in held && held[x] in ts ensures x in xs {
      var i :| 0 <= i < |ts| && ts[i] == held[x];
      assert xs[i] == x;
    }
    forall t | t in parts && parts[t].state.Seated() && t !in ts ensures parts[t].state.bus !in xs {}
  }

  lemma PutBackRuns(s: F.System, ts: seq<Ticket>, parts: map<Ticket, FluidPart>)
    requires F.Inv(s) && Seats(s.bus.waiters, s.held, parts) && AllSeated(ts, parts)
    ensures var es := [F.PutBack(BusesOf(ts, parts))];
      F.CanRun(s, es) && BusesReturned(s, F.Run(s, es), parts, ts)
  {
    var e := F.PutBack(BusesOf(ts, parts));
    BusesDiffer(s.bus.waiters, s.held, parts, ts);
    OneFluidEvent(s, e);
    F.OwnershipIsSafe(s, e);
  }

  lemma GrantSeats(waiters: seq<Ticket>, held: map<nat, Ticket>, parts: map<Ticket, FluidPart>, x: nat)
    requires Seats(waiters, held, parts) && waiters != [] && x !in held
    ensures Seats(waiters[1..], held[x := waiters[0]], parts)
  {
    assert waiters[0] in waiters;
  }

  lemma {:induction false} GrantsSeat(b: State, held: map<nat, Ticket>, slots: seq<nat>, parts: map<Ticket, FluidPart>)
    requires Distinct(slots) && (forall x :: x in slots ==> x !in b.allocations) && held.Keys <= b.allocations
    requires Seats(b.waiters, held, parts)
    ensures Seats(GiveAll(b, slots).waiters, F.HeldAll(b, held, slots), parts)
    ensures Suffix(GiveAll(b, slots).waiters, b.waiters)
    decreases |slots|
  {
    if slots != [] && b.waiters != [] {
      var k := |slots| - 1;
      F.InitDiffers(slots, k, b.allocations);
      GrantSeats(b.waiters, held, parts, slots[k]);
      GrantsSeat(Give(b, slots[k]), held[slots[k] := b.waiters[0]], slots[..k], parts);
      SuffixMore(GiveAll(b, slots).waiters, b.waiters[1..], b.waiters);
    }
  }

  /** What the fluid bus's own task does to waiters and holders. */
  ghost predicate OnlyServed(s: F.System, s': F.System, parts: map<Ticket, FluidPart>) {
    F.Inv(s') && Suffix(s'.bus.waiters, s.bus.waiters) && Seats(s'.bus.waiters, s'.held, parts)
  }

  lemma FinishSeats(s: F.System, drained: seq<nat>, parts: map<Ticket, FluidPart>)
    requires F.Inv(s) && Distinct(drained) && (forall x :: x in drained ==> x !in s.bus.allocations)
    requires Seats(s.bus.waiters, s.held, parts)
    ensures var s' := F.Finish(s, drained);
      Suffix(s'.bus.waiters, s.bus.waiters) && Seats(s'.bus.waiters, s'.held, parts)
  {
    GrantsSeat(s.bus, s.held, drained, parts);
  }

  lemma AnswerSeats(s: F.System, empty: seq<nat>, drained: seq<nat>, parts: map<Ticket, FluidPart>)
    requires F.Inv(s) && F.Enabled(s, F.Answer(empty, drained)) && Seats(s.bus.waiters, s.held, parts)
    ensures var s' := F.Step(s, F.Answer(empty, drained));
      Suffix(s'.bus.waiters, s.bus.waiters) && Seats(s'.bus.waiters, s'.held, parts)
  {
    GrantsSeat(s.bus, s.held, empty, parts);
    if drained == [] {
      F.GrantInv(s, empty);
      var s1 := s.(bus := GiveAll(s.bus, empty), held := F.HeldAll(s.bus, s.held, empty));
      GiveAllServes(s.bus, empty);
      FinishSeats(s1, [], parts);
      SuffixMore(F.Finish(s1, []).bus.waiters, s1.bus.waiters, s.bus.waiters);
    }
  }

  lemma OwnTaskServes(s: F.System, e: F.Event, parts: map<Ticket, FluidPart>)
    requires F.Inv(s) && F.Enabled(s, e) && !e.Ask? && !e.GiveBack? && !e.PutBack?
    requires Seats(s.bus.waiters, s.held, parts)
    ensures F.CanRun(s, [e]) && F.Run(s, [e]) == F.Step(s, e) && OnlyServed(s, F.Step(s, e), parts)
  {
    OneFluidEvent(s, e);
    F.OwnershipIsSafe(s, e);
    match e
    case Answer(empty, drained) => AnswerSeats(s, empty, drained, parts);
    case Stored => FinishSeats(s, s.phase.drained, parts);
    case _ => {}
  }

  // ----- every move keeps jobs, tickets and buses in agreement

  /** What is to be shown of a move besides the items: the bus allows its events, and afterwards all agree. */
  ghost predicate Fine(s: F.System, es: seq<F.Event>, jobs: map<nat, Job>, log: seq<nat>, sides: map<nat, Side>,
                       owner: map<Ticket, nat>, parts: map<Ticket, FluidPart>)
  {
    F.CanRun(s, es) && Agreed(jobs, log, F.Run(s, es), sides, owner, parts)
  }

  ghost predicate FluidFine(f: Factory, m: Move, jobs: map<nat, Job>, log: seq<nat>) {
    Fine(f.fluid, FluidEvents(f, m), jobs, log, SidesAfter(f, m), OwnerOfFluids(f, m), PartsAfter(f, m))
  }

  lemma NoEvents(s: F.System)
    ensures F.CanRun(s, []) && F.Run(s, []) == s
  {}

  // a job comes in

  lemma DistinctAppend(xs: seq<Ticket>, ys: seq<Ticket>)
    requires Distinct(xs) && Distinct(ys) && forall y :: y in ys ==> y !in xs
    ensures Distinct(xs + ys)
  {
    forall i, j | 0 <= i < j < |xs + ys| ensures (xs + ys)[i] != (xs + ys)[j] {
      if i < |xs| <= j {
        assert ys[j - |xs|] in ys && xs[i] in xs;
      }
    }
  }

  lemma EnterWaiters(waiters: seq<Ticket>, parts: map<Ticket, FluidPart>, ts: seq<Ticket>, needs: map<Ticket, FluidUse>)
    requires Distinct(waiters) && forall t :: t in waiters ==> t in parts && parts[t].state.Asked?
    requires Distinct(ts) && forall t :: t in ts ==> t !in parts && t in needs
    ensures var parts' := parts + NewParts(ts, needs);
      Distinct(waiters + ts) && forall t :: t in waiters + ts ==> t in parts' && parts'[t].state.Asked?
  {
    DistinctAppend(waiters, ts);
  }

  lemma EnterHolders(waiters: seq<Ticket>, held: map<nat, Ticket>, parts: map<Ticket, FluidPart>, ts: seq<Ticket>,
                     parts': map<Ticket, FluidPart>)
    requires Seats(waiters, held, parts) && forall t :: t in ts ==> t !in parts
    requires forall t :: t in parts' ==> if t in parts then parts'[t] == parts[t] else parts'[t].state.Asked?
    requires parts.Keys <= parts'.Keys
    requires Distinct(waiters + ts) && forall t :: t in waiters + ts ==> t in parts' && parts'[t].state.Asked?
    ensures Seats(waiters + ts, held, parts')
  {}

  lemma EnterSeats(waiters: seq<Ticket>, held: map<nat, Ticket>, parts: map<Ticket, FluidPart>, ts: seq<Ticket>,
                   needs: map<Ticket, FluidUse>)
    requires Seats(waiters, held, parts) && Distinct(ts) && forall t :: t in ts ==> t !in parts && t in needs
    ensures Seats(waiters + ts, held, parts + NewParts(ts, needs))
  {
    EnterWaiters(waiters, parts, ts, needs);
    EnterHolders(waiters, held, parts, ts, parts + NewParts(ts, needs));
  }

  lemma NewSide(side: Side, needs: map<Ticket, FluidUse>, parts: map<Ticket, FluidPart>)
    requires side.toFree == [] && forall t :: t in side.parts ==> t in needs
    ensures SideOk(Loading, side, parts + NewParts(side.parts, needs))
  {}

  lemma OtherSide(stage: Stage, side: Side, parts: map<Ticket, FluidPart>, parts': map<Ticket, FluidPart>)
    requires SideOk(stage, side, parts) && forall t :: t in side.parts ==> t in parts' && parts'[t] == parts[t]
    ensures SideOk(stage, side, parts')
  {}

  lemma EnterSides(jobs: map<nat, Job>, sides: map<nat, Side>, parts: map<Ticket, FluidPart>, j: nat, job: Job, side: Side,
                   needs: map<Ticket, FluidUse>)
    requires SidesOk(jobs, sides, parts) && j !in jobs && job.stage.Loading? && side.toFree == []
    requires side.parts != [] ==> job.kind.Mixed?
    requires forall t :: t in side.parts ==> t !in parts && t in needs
    ensures SidesOk(jobs[j := job], sides[j := side], parts + NewParts(side.parts, needs))
  {
    var parts' := parts + NewParts(side.parts, needs);
    NewSide(side, needs, parts);
    forall k | k in jobs ensures SideOk(jobs[k].stage, sides[k], parts') {
      assert SideOk(jobs[k].stage, sides[k], parts);
      OtherSide(jobs[k].stage, sides[k], parts, parts');
    }
  }

  lemma FluidsOwnedWith(sides: map<nat, Side>, owner: map<Ticket, nat>, owner': map<Ticket, nat>, tickets: set<Ticket>,
                        j: nat, side: Side)
    requires FluidsOwned(sides, owner, tickets) && j !in sides && Distinct(side.parts)
    requires Extended(owner, owner', side.parts, j)
    ensures FluidsOwned(sides[j := side], owner', tickets + SetOf(side.parts))
  {
    forall k | k in sides ensures OwnsAll(owner', k, sides[k].parts) {
      OwnsMore(owner, owner', k, sides[k].parts);
    }
    assert OwnsAll(owner', j, side.parts);
  }

  lemma NewKeys(parts: map<Ticket, FluidPart>, ts: seq<Ticket>, needs: map<Ticket, FluidUse>)
    requires forall t :: t in ts ==> t in needs
    ensures (parts + NewParts(ts, needs)).Keys == parts.Keys + SetOf(ts)
  {}

  lemma EnterOwned(sides: map<nat, Side>, owner: map<Ticket, nat>, parts: map<Ticket, FluidPart>, j: nat, side: Side,
                   needs: map<Ticket, FluidUse>)
    requires FluidsOwned(sides, owner, parts.Keys) && j !in sides
    requires Distinct(side.parts) && forall t :: t in side.parts ==> t !in parts && t in needs
    ensures FluidsOwned(sides[j := side], owner + OwnersOf(side.parts, j), (parts + NewParts(side.parts, needs)).Keys)
  {
    OwnersAdded(owner, side.parts, j);
    FluidsOwnedWith(sides, owner, owner + OwnersOf(side.parts, j), parts.Keys, j, side);
    NewKeys(parts, side.parts, needs);
  }

  lemma MoreTickets(sides: map<nat, Side>, j: nat, side: Side)
    ensures FluidTickets(sides[j := side]) == FluidTickets(sides)[j := side.parts]
  {}

  lemma EnterFine(f: Factory, m: Move, job: Job)
    requires FluidInv(f) && m.Enter? && m.j !in f.world.jobs && m.j !in f.world.log && job.stage.Loading?
    requires !f.fluid.draining && Distinct(m.fluids) && forall t :: t in m.fluids ==> t !in f.parts && t in m.needs
    requires m.fluids != [] ==> job.kind.Mixed?
    ensures Fine(f.fluid, FluidAsks(m.fluids), f.world.jobs[m.j := job], f.world.log + [m.j],
                 f.sides[m.j := Side(m.fluids, [], m.drains)], f.owner + OwnersOf(m.fluids, m.j),
                 f.parts + NewParts(m.fluids, m.needs))
  {
    var side := Side(m.fluids, [], m.drains);
    FluidAsksRun(f.fluid, m.fluids);
    EnterSeats(f.fluid.bus.waiters, f.fluid.held, f.parts, m.fluids, m.needs);
    EnterSides(f.world.jobs, f.sides, f.parts, m.j, job, side, m.needs);
    EnterOwned(f.sides, f.owner, f.parts, m.j, side, m.needs);
    NewInLine(f.world.log, FluidTickets(f.sides), f.fluid.bus.waiters, m.j, m.fluids);
    MoreTickets(f.sides, m.j, side);
  }

  // a task goes on

  lemma NotOfOthers(sides: map<nat, Side>, owner: map<Ticket, nat>, tickets: set<Ticket>, t: Ticket, k: nat)
    requires FluidsOwned(sides, owner, tickets) && t in owner && k in sides && k != owner[t]
    ensures t !in sides[k].parts
  {
    assert OwnsAll(owner, k, sides[k].parts);
  }

  lemma OwnPartSides(jobs: map<nat, Job>, sides: map<nat, Side>, owner: map<Ticket, nat>, parts: map<Ticket, FluidPart>,
                     t: Ticket, side: Side, state: FluidState)
    requires SidesOk(jobs, sides, parts) && FluidsOwned(sides, owner, parts.Keys) && t in parts
    requires SideOk(jobs[owner[t]].stage, side, SetState(parts, t, state)) && side.parts == sides[owner[t]].parts
    ensures SidesOk(jobs, sides[owner[t] := side], SetState(parts, t, state))
  {
    forall k | k in jobs && k != owner[t] ensures SideOk(jobs[k].stage, sides[k], SetState(parts, t, state)) {
      NotOfOthers(sides, owner, parts.Keys, t, k);
      OtherSide(jobs[k].stage, sides[k], parts, SetState(parts, t, state));
    }
  }

  lemma SameOwned(sides: map<nat, Side>, owner: map<Ticket, nat>, tickets: set<Ticket>, j: nat, side: Side)
    requires FluidsOwned(sides, owner, tickets) && j in sides && side.parts == sides[j].parts
    ensures FluidsOwned(sides[j := side], owner, tickets)
  {
    forall k | k in sides ensures OwnsAll(owner, k, sides[j := side][k].parts) {
      assert OwnsAll(owner, k, sides[k].parts);
    }
  }

  lemma SameTickets(sides: map<nat, Side>, j: nat, side: Side)
    requires j in sides && side.parts == sides[j].parts
    ensures FluidTickets(sides[j := side]) == FluidTickets(sides)
  {}

  lemma LearnSeats(waiters: seq<Ticket>, held: map<nat, Ticket>, parts: map<Ticket, FluidPart>, t: Ticket, state: FluidState)
    requires Seats(waiters, held, parts) && t in parts && parts[t].state.Asked? && t !in waiters
    requires IsTold(held, t, state)
    ensures Seats(waiters, held, SetState(parts, t, state))
  {}

  function Told(side: Side, t: Ticket, state: FluidState): Side {
    if state.Refused? then side else side.(toFree := side.toFree + [t])
  }

  lemma LearnSide(stage: Stage, side: Side, parts: map<Ticket, FluidPart>, t: Ticket, state: FluidState)
    requires SideOk(stage, side, parts) && t in side.parts && parts[t].state.Asked?
    requires state.Refused? || state.Drawing?
    ensures SideOk(stage, Told(side, t, state), SetState(parts, t, state))
  {}

  lemma OwnerSide(f: Factory, t: Ticket)
    requires FluidInv(f) && t in f.parts
    ensures t in f.owner && f.owner[t] in f.sides && f.owner[t] in f.world.jobs && t in f.sides[f.owner[t]].parts
    ensures SideOk(f.world.jobs[f.owner[t]].stage, f.sides[f.owner[t]], f.parts)
  {}

  /** The state in which a task is once it has been told. */
  ghost predicate IsTold(held: map<nat, Ticket>, t: Ticket, state: FluidState) {
    if state.Refused? then forall x :: x in held ==> held[x] != t
    else state.Drawing? && state.bus in held && held[state.bus] == t
  }

  /** A task of the job has moved on; nobody has asked, and no bus has changed hands. */
  lemma OnePartFine(f: Factory, t: Ticket, side: Side, state: FluidState)
    requires FluidInv(f) && t in f.parts && t in f.owner && f.owner[t] in f.sides && f.owner[t] in f.world.jobs
    requires side.parts == f.sides[f.owner[t]].parts
    requires SideOk(f.world.jobs[f.owner[t]].stage, side, SetState(f.parts, t, state))
    requires Seats(f.fluid.bus.waiters, f.fluid.held, SetState(f.parts, t, state))
    ensures Fine(f.fluid, [], f.world.jobs, f.world.log, f.sides[f.owner[t] := side], f.owner, SetState(f.parts, t, state))
  {
    OwnPartSides(f.world.jobs, f.sides, f.owner, f.parts, t, side, state);
    SameOwned(f.sides, f.owner, f.parts.Keys, f.owner[t], side);
    SameTickets(f.sides, f.owner[t], side);
    NoEvents(f.fluid);
  }

  lemma LearnFine(f: Factory, t: Ticket, state: FluidState)
    requires FluidInv(f) && t in f.parts && f.parts[t].state.Asked? && t !in f.fluid.bus.waiters
    requires IsTold(f.fluid.held, t, state)
    ensures t in f.owner && f.owner[t] in f.sides
    ensures Fine(f.fluid, [], f.world.jobs, f.world.log, f.sides[f.owner[t] := Told(f.sides[f.owner[t]], t, state)], f.owner,
                 SetState(f.parts, t, state))
  {
    OwnerSide(f, t);
    LearnSeats(f.fluid.bus.waiters, f.fluid.held, f.parts, t, state);
    LearnSide(f.world.jobs[f.owner[t]].stage, f.sides[f.owner[t]], f.parts, t, state);
    OnePartFine(f, t, Told(f.sides[f.owner[t]], t, state), state);
  }

  lemma CountSeats(waiters: seq<Ticket>, held: map<nat, Ticket>, parts: map<Ticket, FluidPart>, t: Ticket, ok: bool)
    requires Seats(waiters, held, parts) && t in parts
    ensures Seats(waiters, held, SetState(parts, t, Count(parts[t].state, ok)))
  {}

  lemma CountSide(stage: Stage, side: Side, parts: map<Ticket, FluidPart>, t: Ticket, ok: bool)
    requires SideOk(stage, side, parts) && t in side.parts
    ensures SideOk(stage, side, SetState(parts, t, Count(parts[t].state, ok)))
  {}

  lemma CountFine(f: Factory, t: Ticket, ok: bool)
    requires FluidInv(f) && t in f.parts
    ensures Fine(f.fluid, [], f.world.jobs, f.world.log, f.sides, f.owner, SetState(f.parts, t, Count(f.parts[t].state, ok)))
  {
    OwnerSide(f, t);
    var side := f.sides[f.owner[t]];
    CountSeats(f.fluid.bus.waiters, f.fluid.held, f.parts, t, ok);
    CountSide(f.world.jobs[f.owner[t]].stage, side, f.parts, t, ok);
    OnePartFine(f, t, side, Count(f.parts[t].state, ok));
    assert f.sides[f.owner[t] := side] == f.sides;
  }

  // a job goes on after a join

  /** Only job j changes its stage, and only its own parts change. */
  lemma OneRestaged(jobs: map<nat, Job>, sides: map<nat, Side>, owner: map<Ticket, nat>, parts: map<Ticket, FluidPart>,
                    j: nat, stage: Stage, parts': map<Ticket, FluidPart>)
    requires SidesOk(jobs, sides, parts) && FluidsOwned(sides, owner, parts.Keys) && j in jobs
    requires parts'.Keys == parts.Keys && SideOk(stage, sides[j], parts')
    requires forall t :: t in parts && t !in sides[j].parts ==> parts'[t] == parts[t]
    ensures SidesOk(SetStage(jobs, j, stage), sides, parts')
  {
    forall k | k in jobs && k != j ensures SideOk(jobs[k].stage, sides[k], parts') {
      assert OwnsAll(owner, k, sides[k].parts) && OwnsAll(owner, j, sides[j].parts);
      OtherSide(jobs[k].stage, sides[k], parts, parts');
    }
  }

  lemma UnloadSeats(waiters: seq<Ticket>, held: map<nat, Ticket>, parts: map<Ticket, FluidPart>, ts: seq<Ticket>)
    requires Seats(waiters, held, parts) && forall t :: t in ts ==> t in parts && parts[t].state.Drawing?
    ensures Seats(waiters, held, SendingAll(parts, ts))
  {}

  lemma UnloadSide(side: Side, parts: map<Ticket, FluidPart>)
    requires SideOk(Loading, side, parts) && AllDrawnWell(side, parts)
    ensures SideOk(Unloading, side, SendingAll(parts, side.parts))
    ensures forall t :: t in side.parts ==> t in parts && parts[t].state.Drawing?
  {
    forall t | t in side.parts ensures t in side.toFree && t in parts && parts[t].state.Drawing? {
      assert DrawnWell(t, parts);
    }
  }

  lemma UnloadAgreed(jobs: map<nat, Job>, log: seq<nat>, s: F.System, sides: map<nat, Side>, owner: map<Ticket, nat>,
                     parts: map<Ticket, FluidPart>, j: nat)
    requires Agreed(jobs, log, s, sides, owner, parts) && j in jobs && jobs[j].stage.Loading? && AllDrawnWell(sides[j], parts)
    ensures Agreed(SetStage(jobs, j, Unloading), log, s, sides, owner, SendingAll(parts, sides[j].parts))
  {
    UnloadSide(sides[j], parts);
    UnloadSeats(s.bus.waiters, s.held, parts, sides[j].parts);
    OneRestaged(jobs, sides, owner, parts, j, Unloading, SendingAll(parts, sides[j].parts));
  }

  lemma UnloadsFluids(f: Factory, j: nat)
    requires FluidInv(f) && j in f.world.jobs && f.world.jobs[j].stage.Loading? && AllDrawnWell(f.sides[j], f.parts)
    ensures Fine(f.fluid, [], SetStage(f.world.jobs, j, Unloading), f.world.log, f.sides, f.owner,
                 SendingAll(f.parts, f.sides[j].parts))
  {
    UnloadAgreed(f.world.jobs, f.world.log, f.fluid, f.sides, f.owner, f.parts, j);
    NoEvents(f.fluid);
  }

  /** The job's tasks have ended: those without a bus were refused one. */
  ghost predicate Settles(side: Side, parts: map<Ticket, FluidPart>) {
    AllSeated(side.toFree, parts) && forall t :: t in side.parts && t !in side.toFree ==> t in parts && parts[t].state.Refused?
  }

  lemma JoinSettles(stage: Stage, side: Side, parts: map<Ticket, FluidPart>)
    requires SideOk(stage, side, parts)
    requires (stage.Loading? && AllDrawn(side, parts)) || (stage.Unloading? && AllSent(side, parts))
    ensures Settles(side, parts)
  {
    forall t | t in side.parts
      ensures t in parts && if t in side.toFree then parts[t].state.Seated() else parts[t].state.Refused?
    {
      if stage.Loading? {
        assert Drawn(t, parts);
      } else {
        assert Sent(t, parts);
      }
    }
  }

  lemma SettledSide(side: Side, parts: map<Ticket, FluidPart>, stage: Stage, ok: bool)
    requires Settles(side, parts) && SideOk(stage, side, parts)
    ensures SideOk(Ended(ok), side, ReturnedAll(parts, SetOf(side.toFree)))
  {}

  /** However a job ends, its buses can be returned in the way it returns them. */
  lemma ReturnRuns(s: F.System, side: Side, parts: map<Ticket, FluidPart>, es: seq<F.Event>)
    requires F.Inv(s) && Seats(s.bus.waiters, s.held, parts) && AllSeated(side.toFree, parts)
    requires es == GiveBacks(BusesOf(side.toFree, parts)) || es == [F.PutBack(BusesOf(side.toFree, parts))]
    ensures F.CanRun(s, es) && BusesReturned(s, F.Run(s, es), parts, side.toFree)
  {
    if es == GiveBacks(BusesOf(side.toFree, parts)) {
      GiveBacksRun(s, side.toFree, parts);
    } else {
      PutBackRuns(s, side.toFree, parts);
    }
  }

  function EndOf(a: Action): (r: Option<(nat, bool)>) {
    match a
    case Abandon(j) => Some((j, false))
    case Complete(j) => Some((j, true))
    case GiveUp(j) => Some((j, false))
    case _ => None
  }

  lemma EndSides(jobs: map<nat, Job>, sides: map<nat, Side>, owner: map<Ticket, nat>, parts: map<Ticket, FluidPart>,
                 j: nat, ok: bool)
    requires SidesOk(jobs, sides, parts) && FluidsOwned(sides, owner, parts.Keys) && j in jobs && Settles(sides[j], parts)
    ensures SidesOk(SetStage(jobs, j, Ended(ok)), sides, ReturnedAll(parts, SetOf(sides[j].toFree)))
    ensures ReturnedAll(parts, SetOf(sides[j].toFree)).Keys == parts.Keys
  {
    SettledSide(sides[j], parts, jobs[j].stage, ok);
    OneRestaged(jobs, sides, owner, parts, j, Ended(ok), ReturnedAll(parts, SetOf(sides[j].toFree)));
  }

  lemma EndFine(f: Factory, j: nat, ok: bool, es: seq<F.Event>)
    requires FluidInv(f) && j in f.world.jobs && Settles(f.sides[j], f.parts)
    requires es == GiveBacks(BusesOf(f.sides[j].toFree, f.parts)) || es == [F.PutBack(BusesOf(f.sides[j].toFree, f.parts))]
    ensures Fine(f.fluid, es, SetStage(f.world.jobs, j, Ended(ok)), f.world.log, f.sides, f.owner,
                 ReturnedAll(f.parts, SetOf(f.sides[j].toFree)))
  {
    ReturnRuns(f.fluid, f.sides[j], f.parts, es);
    EndSides(f.world.jobs, f.sides, f.owner, f.parts, j, ok);
    var s := F.Run(f.fluid, es);
    SuffixMore(s.bus.waiters, f.fluid.bus.waiters, Lined(f.world.log, FluidTickets(f.sides)));
  }

  lemma SentWellIsSent(side: Side, parts: map<Ticket, FluidPart>)
    requires AllSentWell(side, parts)
    ensures AllSent(side, parts)
  {
    forall t | t in side.parts ensures Sent(t, parts) {
      assert SentWell(t, parts);
    }
  }

  lemma EndsSettled(f: Factory, a: Action, j: nat, ok: bool)
    requires FluidInv(f) && EndOf(a) == Some((j, ok)) && j in f.world.jobs && Joined(f, a)
    requires f.world.jobs[j].stage == if a.Abandon? then Loading else Unloading
    ensures Settles(f.sides[j], f.parts)
  {
    if a.Complete? {
      SentWellIsSent(f.sides[j], f.parts);
    }
    JoinSettles(f.world.jobs[j].stage, f.sides[j], f.parts);
  }

  // nothing happens to the fluids, or their own task goes on

  lemma SameStages(jobs: map<nat, Job>, sides: map<nat, Side>, parts: map<Ticket, FluidPart>, jobs': map<nat, Job>)
    requires SidesOk(jobs, sides, parts) && jobs'.Keys == jobs.Keys
    requires forall j :: j in jobs' ==> jobs'[j].stage == jobs[j].stage && jobs'[j].kind == jobs[j].kind
    ensures SidesOk(jobs', sides, parts)
  {
    forall j | j in jobs' ensures SideOk(jobs'[j].stage, sides[j], parts) {
      assert SideOk(jobs[j].stage, sides[j], parts);
    }
  }

  lemma ItemFine(f: Factory, jobs': map<nat, Job>)
    requires FluidInv(f) && jobs'.Keys == f.world.jobs.Keys
    requires forall j :: j in jobs' ==> jobs'[j].stage == f.world.jobs[j].stage && jobs'[j].kind == f.world.jobs[j].kind
    ensures Fine(f.fluid, [], jobs', f.world.log, f.sides, f.owner, f.parts)
  {
    SameStages(f.world.jobs, f.sides, f.parts, jobs');
    NoEvents(f.fluid);
  }

  lemma TaskFine(f: Factory, e: F.Event)
    requires FluidInv(f) && F.Enabled(f.fluid, e) && !e.Ask? && !e.GiveBack? && !e.PutBack?
    ensures Fine(f.fluid, [e], f.world.jobs, f.world.log, f.sides, f.owner, f.parts)
  {
    OwnTaskServes(f.fluid, e, f.parts);
    SuffixMore(F.Step(f.fluid, e).bus.waiters, f.fluid.bus.waiters, Lined(f.world.log, FluidTickets(f.sides)));
  }

  lemma EndedPart(f: Factory, t: Ticket)
    requires FluidInv(f) && AllEnded(f.world.jobs) && t in f.parts
    ensures f.parts[t].state.Refused? || f.parts[t].state.Returned?
  {
    assert SideOk(f.world.jobs[f.owner[t]].stage, f.sides[f.owner[t]], f.parts);
  }

  lemma NobodySeated(waiters: seq<Ticket>, held: map<nat, Ticket>, parts: map<Ticket, FluidPart>)
    requires Seats(waiters, held, parts)
    requires forall t :: t in parts ==> parts[t].state.Refused? || parts[t].state.Returned?
    ensures held == map[] && waiters == []
  {
    HeadIsMember(waiters);
  }

  /** When the tasks of all jobs have ended, no bus is held and nobody waits for one. */
  lemma NoBusHeld(f: Factory)
    requires FluidInv(f) && AllEnded(f.world.jobs)
    ensures f.fluid.held == map[] && f.fluid.bus.waiters == []
  {
    forall t | t in f.parts ensures f.parts[t].state.Refused? || f.parts[t].state.Returned? {
      EndedPart(f, t);
    }
    NobodySeated(f.fluid.bus.waiters, f.fluid.held, f.parts);
  }

  // all moves

  lemma NewJob(w: World, j: nat)
    requires WorldInv(w) && j !in w.jobs
    ensures j !in w.log
  {}

  lemma EndMoveFine(f: Factory, a: Action, j: nat, ok: bool)
    requires FluidInv(f) && Permitted(f, OfItems(a)) && EndOf(a) == Some((j, ok))
    ensures FluidFine(f, OfItems(a), SetStage(f.world.jobs, j, Ended(ok)), f.world.log)
  {
    EndsSettled(f, a, j, ok);
    EndFine(f, j, ok, ReturnBuses(f, j, ok));
  }

  lemma WakeMoveFine(f: Factory, t: Ticket)
    requires FluidInv(f) && Permitted(f, OfItems(Wake(t)))
    ensures FluidFine(f, OfItems(Wake(t)), JobsAfter(f.world, Wake(t)), f.world.log)
  {
    ItemFine(f, JobsAfter(f.world, Wake(t)));
  }

  lemma JobFine(f: Factory, a: Action)
    requires FluidInv(f) && Permitted(f, OfItems(a))
    ensures FluidFine(f, OfItems(a), JobsAfter(f.world, a), f.world.log)
  {
    match a
    case Wake(t) => WakeMoveFine(f, t);
    case OnBus(e) => ItemFine(f, f.world.jobs);
    case Unload(j) => UnloadsFluids(f, j);
    case Abandon(j) => EndMoveFine(f, a, j, false);
    case Complete(j) => EndMoveFine(f, a, j, true);
    case GiveUp(j) => EndMoveFine(f, a, j, false);
    case Begin(_, _, _, _) =>
  }

  lemma LearnMoveFine(f: Factory, t: Ticket)
    requires FluidInv(f) && t in f.parts && f.parts[t].state.Asked? && t !in f.fluid.bus.waiters
    ensures FluidFine(f, Learn(t), f.world.jobs, f.world.log)
  {
    var state := ToldState(SeatOf(f.fluid.held, t), f.parts[t].use);
    LearnFine(f, t, state);
    ToldAfter(f, t, state);
  }

  lemma ToldAfter(f: Factory, t: Ticket, state: FluidState)
    requires t in f.owner && f.owner[t] in f.sides && t in f.parts
    requires state == ToldState(SeatOf(f.fluid.held, t), f.parts[t].use)
    ensures FluidEvents(f, Learn(t)) == [] && OwnerOfFluids(f, Learn(t)) == f.owner
    ensures SidesAfter(f, Learn(t)) == f.sides[f.owner[t] := Told(f.sides[f.owner[t]], t, state)]
    ensures PartsAfter(f, Learn(t)) == SetState(f.parts, t, state)
  {
    var j := f.owner[t];
    assert f.sides[j := f.sides[j]] == f.sides;
  }

  lemma OfItemsFine(f: Factory, a: Action)
    requires FluidInv(f) && Permitted(f, OfItems(a))
    ensures FluidFine(f, OfItems(a), Act(f.world, [a]).jobs, Act(f.world, [a]).log)
  {
    OneAct(f.world, a);
    JobFine(f, a);
  }

  lemma CloseFine(f: Factory, spawn: bool, spawnFluid: bool)
    requires FluidInv(f) && Permitted(f, Close(spawn, spawnFluid))
    ensures Fine(f.fluid, [F.EndCycle(spawnFluid)], f.world.jobs, f.world.log, f.sides, f.owner, f.parts)
  {
    MayEndWhenEnded(f.world, spawn);
    NoBusHeld(f);
    TaskFine(f, F.EndCycle(spawnFluid));
  }

  lemma CycleFine(f: Factory, m: Move)
    requires FluidInv(f) && Permitted(f, m) && (m.Close? || m.Reopen?)
    ensures FluidFine(f, m, Act(f.world, ItemActions(m)).jobs, Act(f.world, ItemActions(m)).log)
  {
    if m.Close? {
      OneAct(f.world, OnBus(EndCycle(m.spawn)));
      CloseFine(f, m.spawn, m.spawnFluid);
    } else {
      OneAct(f.world, OnBus(NextCycle));
      TaskFine(f, F.NextCycle);
    }
  }

  lemma FluidMoveFine(f: Factory, m: Move)
    requires FluidInv(f) && Permitted(f, m) && (m.Learn? || m.Draws? || m.Sends? || m.OfFluids?)
    ensures FluidFine(f, m, f.world.jobs, f.world.log)
  {
    match m
    case Learn(t) => LearnMoveFine(f, t);
    case Draws(t, ok) => CountFine(f, t, ok);
    case Sends(t, ok) => CountFine(f, t, ok);
    case OfFluids(e) => TaskFine(f, e);
  }

  lemma EnterMoveFine(f: Factory, m: Move)
    requires FluidInv(f) && Permitted(f, m) && m.Enter? && m.j !in f.world.log
    ensures FluidFine(f, m, Act(f.world, ItemActions(m)).jobs, Act(f.world, ItemActions(m)).log)
  {
    OneAct(f.world, Begin(m.j, m.kind, m.tickets, m.uses));
    EnterFine(f, m, Job(m.kind, m.tickets, [], Loading));
  }

  lemma MoveFine(f: Factory, m: Move)
    requires FluidInv(f) && Permitted(f, m) && (m.Enter? ==> m.j !in f.world.log)
    ensures FluidFine(f, m, Act(f.world, ItemActions(m)).jobs, Act(f.world, ItemActions(m)).log)
  {
    if m.Enter? {
      EnterMoveFine(f, m);
    } else if m.OfItems? {
      OfItemsFine(f, m.a);
    } else if m.Close? || m.Reopen? {
      CycleFine(f, m);
    } else {
      FluidMoveFine(f, m);
    }
  }

  lemma ItemsRefine(f: Factory, m: Move)
    requires WorldInv(f.world) && Permitted(f, m)
    ensures CanAct(f.world, ItemActions(m)) && WorldInv(Act(f.world, ItemActions(m)))
  {
    var acts := ItemActions(m);
    if acts != [] {
      OneAct(f.world, acts[0]);
      assert acts[1..] == [] && Allowed(f.world, acts[0]);
      Refines(f.world, acts[0]);
    }
  }

  /** Whatever happens next, both buses allow it, and jobs, tickets and buses stay in agreement. */
  lemma MoveRefines(f: Factory, m: Move)
    requires FactoryInv(f) && Permitted(f, m)
    ensures CanAct(f.world, ItemActions(m)) && F.CanRun(f.fluid, FluidEvents(f, m))
    ensures After(f, m).fluid == F.Run(f.fluid, FluidEvents(f, m))
    ensures FactoryInv(After(f, m))
  {
    ItemsRefine(f, m);
    if m.Enter? {
      NewJob(f.world, m.j);
    }
    MoveFine(f, m);
    FluidApplyRuns(f.fluid, FluidEvents(f, m));
  }

  // ----- whole runs

  ghost predicate CanGo(f: Factory, ms: seq<Move>)
    decreases |ms|
  {
    ms == [] || (Permitted(f, ms[0]) && CanGo(After(f, ms[0]), ms[1..]))
  }

  ghost function Go(f: Factory, ms: seq<Move>): Factory
    decreases |ms|
  {
    if ms == [] then f else Go(After(f, ms[0]), ms[1..])
  }

  function ItemRun(ms: seq<Move>): seq<Action> {
    if ms == [] then [] else ItemActions(ms[0]) + ItemRun(ms[1..])
  }

  ghost function FluidRun(f: Factory, ms: seq<Move>): seq<F.Event>
    decreases |ms|
  {
    if ms == [] then [] else FluidEvents(f, ms[0]) + FluidRun(After(f, ms[0]), ms[1..])
  }

  /** Every run of the factory is a run of the jobs on the item bus, and a run of the fluid bus; so all that is proved of those
      holds of it. */
  lemma {:induction false} FactoryRefines(f: Factory, ms: seq<Move>)
    requires FactoryInv(f) && CanGo(f, ms)
    ensures CanAct(f.world, ItemRun(ms)) && Act(f.world, ItemRun(ms)) == Go(f, ms).world
    ensures F.CanRun(f.fluid, FluidRun(f, ms)) && F.Run(f.fluid, FluidRun(f, ms)) == Go(f, ms).fluid
    ensures FactoryInv(Go(f, ms))
    decreases |ms|
  {
    if ms == [] {
      NoEvents(f.fluid);
    } else {
      MoveRefines(f, ms[0]);
      var g := After(f, ms[0]);
      FactoryRefines(g, ms[1..]);
      ActAppend(f.world, ItemActions(ms[0]), ItemRun(ms[1..]));
      F.RunAppend(f.fluid, FluidEvents(f, ms[0]), FluidRun(g, ms[1..]));
    }
  }

  lemma EndedSide(f: Factory, j: nat, t: Ticket)
    requires FluidInv(f) && j in f.world.jobs && f.world.jobs[j].stage.Ended? && t in SideOf(f, j).parts
    ensures t !in f.fluid.bus.waiters && forall x :: x in f.fluid.held ==> f.fluid.held[x] != t
  {
    assert SideOk(f.world.jobs[j].stage, f.sides[j], f.parts);
  }

  lemma NoBusAtTheEnd(f: Factory, m: Move)
    requires FluidInv(f) && m.Close? && Permitted(f, m)
    ensures f.fluid.held == map[] && f.fluid.bus.waiters == []
  {
    MayEndWhenEnded(f.world, m.spawn);
    NoBusHeld(f);
  }

  lemma ReachedInv(phys: seq<nat>, buses: nat, ms: seq<Move>)
    requires CanGo(FactoryStart(phys, buses), ms)
    ensures FluidInv(Go(FactoryStart(phys, buses), ms)) && FactoryInv(Go(FactoryStart(phys, buses), ms))
  {
    FactoryStartInv(phys, buses);
    FactoryRefines(FactoryStart(phys, buses), ms);
  }

  /** When a job has ended, well or not, it has no fluid bus and waits for none; and when the cycle ends, nobody does. */
  lemma EndedJobsHaveNoBus(phys: seq<nat>, buses: nat, ms: seq<Move>, j: nat, t: Ticket, m: Move)
    requires CanGo(FactoryStart(phys, buses), ms)
    ensures var f := Go(FactoryStart(phys, buses), ms);
      && (j in f.world.jobs && f.world.jobs[j].stage.Ended? && t in SideOf(f, j).parts ==>
            t !in f.fluid.bus.waiters && forall x :: x in f.fluid.held ==> f.fluid.held[x] != t)
      && (m.Close? && Permitted(f, m) ==> f.fluid.held == map[] && f.fluid.bus.waiters == [])
  {
    ReachedInv(phys, buses, ms);
    var f := Go(FactoryStart(phys, buses), ms);
    if j in f.world.jobs && f.world.jobs[j].stage.Ended? && t in SideOf(f, j).parts {
      EndedSide(f, j, t);
    }
    if m.Close? && Permitted(f, m) {
      NoBusAtTheEnd(f, m);
    }
  }
}
