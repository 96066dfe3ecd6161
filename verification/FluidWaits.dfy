/** When a wait for a fluid bus never ends. Every job that has a bus may itself wait for another one, and then nobody returns
    any: until some new job asks, nothing changes any more. */
module FluidWaits {
  import opened Common
  import opened Bus
  import opened BusSystem
  import opened BusJobs
  import opened Lines
  import opened JobRuns
  import opened JobProgress
  import opened FactoryRuns
  import opened FactoryProgress
  import opened Futures
  import opened CycleEnds
  import F = FluidBus

  ghost predicate HolderWaits(f: Factory, x: nat) {
    x in f.fluid.held && f.fluid.held[x] in f.owner && WaitsForFluid(f, f.owner[f.fluid.held[x]])
  }

  /** No task is at work for the waiters, and whoever has a bus waits for another one. */
  ghost predicate Stuck(f: Factory) {
    f.fluid.phase.Idle? && f.fluid.bus.waiters != [] && forall x :: x in f.fluid.held ==> HolderWaits(f, x)
  }

  /** The move asks for no fluid bus. */
  predicate AsksNothing(m: Move) { m.Enter? ==> m.fluids == [] }

  predicate NoneAsks(ms: seq<Move>) { forall i :: 0 <= i < |ms| ==> AsksNothing(ms[i]) }

  ghost predicate Untouched(f: Factory, g: Factory) {
    && g.fluid == f.fluid
    && (forall j :: j in f.sides ==> SideOf(g, j).parts == SideOf(f, j).parts)
    && forall t :: t in f.owner ==> t in g.owner && g.owner[t] == f.owner[t]
  }

  lemma UntouchedStuck(f: Factory, g: Factory)
    requires FluidInv(f) && Stuck(f) && Untouched(f, g)
    ensures Stuck(g)
  {
    forall x | x in g.fluid.held ensures HolderWaits(g, x) {
      assert HolderWaits(f, x);
      BusHolderIsLive(f, x);
    }
  }

  lemma EndSettles(f: Factory, a: Action)
    requires FluidInv(f) && Permitted(f, OfItems(a)) && EndOf(a).Some?
    ensures EndOf(a).value.0 in f.sides && Settles(f.sides[EndOf(a).value.0], f.parts)
  {
    EndsSettled(f, a, EndOf(a).value.0, EndOf(a).value.1);
  }

  /** A job whose tasks have ended waits for no bus; so it has none when all holders wait. */
  lemma SettledHasNone(f: Factory, j: nat)
    requires FluidInv(f) && Stuck(f) && j in f.sides && Settles(f.sides[j], f.parts)
    ensures f.sides[j].toFree == []
  {
    var side := f.sides[j];
    if side.toFree != [] {
      var t := side.toFree[0];
      SeatedHolds(f.fluid.bus.waiters, f.fluid.held, f.parts, t);
      assert HolderWaits(f, BusOf(t, f.parts));
      SettledInSide(f, j, t);
      assert false;
    }
  }

  lemma SettledInSide(f: Factory, j: nat, t: Ticket)
    requires FluidInv(f) && j in f.sides && t in f.sides[j].toFree
    ensures t in f.sides[j].parts && t in f.owner && f.owner[t] == j
  {
    assert SideOk(f.world.jobs[j].stage, f.sides[j], f.parts);
    assert OwnsAll(f.owner, j, f.sides[j].parts);
  }

  lemma NothingReturned(s: F.System)
    requires F.Inv(s) && s.phase.Idle?
    ensures FluidApply(s, [F.PutBack([])]) == s && FluidApply(s, []) == s
  {
    assert F.Step(s, F.PutBack([])) == s;
  }

  lemma EndLeavesFluids(f: Factory, a: Action)
    requires FluidInv(f) && Stuck(f) && Permitted(f, OfItems(a)) && EndOf(a).Some?
    ensures After(f, OfItems(a)).fluid == f.fluid
  {
    EndSettles(f, a);
    SettledHasNone(f, EndOf(a).value.0);
    NothingReturned(f.fluid);
  }

  lemma CycleGoesOn(f: Factory, m: Move)
    requires FluidInv(f) && Stuck(f) && Permitted(f, m)
    ensures !m.Close? && !m.Reopen? && !m.OfFluids?
  {
    if m.Close? {
      MayEndWhenEnded(f.world, m.spawn);
      NoBusHeld(f);
    }
  }

  lemma StuckKeepsFluids(f: Factory, m: Move)
    requires FluidInv(f) && Stuck(f) && Permitted(f, m) && AsksNothing(m)
    ensures After(f, m).fluid == f.fluid
  {
    CycleGoesOn(f, m);
    if m.OfItems? && EndOf(m.a).Some? {
      EndLeavesFluids(f, m.a);
    } else {
      assert FluidEvents(f, m) == [];
    }
  }

  lemma KnownSides(f: Factory, m: Move)
    requires m.Enter? ==> m.j !in f.sides
    ensures forall j :: j in f.sides ==> j in SidesAfter(f, m) && SidesAfter(f, m)[j].parts == f.sides[j].parts
  {}

  lemma KnownOwners(f: Factory, m: Move)
    requires m.Enter? ==> m.fluids == []
    ensures forall t :: t in f.owner ==> t in OwnerOfFluids(f, m) && OwnerOfFluids(f, m)[t] == f.owner[t]
  {}

  lemma NewSideOnly(f: Factory, m: Move)
    requires FluidInv(f) && Permitted(f, m) && m.Enter?
    ensures m.j !in f.sides
  {}

  lemma StuckUntouched(f: Factory, m: Move)
    requires FluidInv(f) && Stuck(f) && Permitted(f, m) && AsksNothing(m)
    ensures Untouched(f, After(f, m))
  {
    StuckKeepsFluids(f, m);
    if m.Enter? {
      NewSideOnly(f, m);
    }
    KnownSides(f, m);
    KnownOwners(f, m);
  }

  lemma StuckStays(f: Factory, m: Move)
    requires FactoryInv(f) && Stuck(f) && Permitted(f, m) && AsksNothing(m)
    ensures FactoryInv(After(f, m)) && Stuck(After(f, m)) && After(f, m).fluid == f.fluid
  {
    MoveRefines(f, m);
    StuckUntouched(f, m);
    UntouchedStuck(f, After(f, m));
  }

  lemma StuckIsLive(f: Factory)
    requires FluidInv(f) && Stuck(f)
    ensures !AllEnded(f.world.jobs)
  {
    if AllEnded(f.world.jobs) {
      NoBusHeld(f);
    }
  }

  lemma NoneAsksLater(ms: seq<Move>)
    requires NoneAsks(ms) && ms != []
    ensures AsksNothing(ms[0]) && NoneAsks(ms[1..])
  {
    assert forall i :: 0 <= i < |ms[1..]| ==> ms[1..][i] == ms[i + 1];
  }

  /** From then on nobody is served, and the cycle does not end, unless somebody asks anew. */
  lemma {:induction false} StuckForEver(f: Factory, ms: seq<Move>)
    requires FactoryInv(f) && Stuck(f) && CanGo(f, ms) && NoneAsks(ms)
    ensures FactoryInv(Go(f, ms)) && Stuck(Go(f, ms)) && Go(f, ms).fluid == f.fluid && !AllEnded(Go(f, ms).world.jobs)
    decreases |ms|
  {
    if ms == [] {
      StuckIsLive(f);
    } else {
      NoneAsksLater(ms);
      StuckStays(f, ms[0]);
      StuckForEver(After(f, ms[0]), ms[1..]);
    }
  }

  // ----- otherwise the oldest ticket can still be served

  ghost predicate Served(s: F.System, t: Ticket) { exists x :: x in s.held && s.held[x] == t }

  lemma {:induction false} FirstIsServed(b: State, held: map<nat, Ticket>, slots: seq<nat>, t: Ticket)
    requires Distinct(slots) && (forall x :: x in slots ==> x !in b.allocations) && held.Keys <= b.allocations
    requires slots != [] && b.waiters != [] && t == b.waiters[0]
    ensures exists x :: x in F.HeldAll(b, held, slots) && F.HeldAll(b, held, slots)[x] == t
  {
    var k := |slots| - 1;
    F.InitDiffers(slots, k, b.allocations);
    F.HeldAllGrants(Give(b, slots[k]), held[slots[k] := t], slots[..k]);
    assert slots[k] in F.HeldAll(b, held, slots);
  }

  lemma AnswerServes(s: F.System, empty: seq<nat>, drained: seq<nat>)
    requires F.Inv(s) && F.Enabled(s, F.Answer(empty, drained)) && s.bus.waiters != [] && empty != []
    ensures Served(F.Step(s, F.Answer(empty, drained)), s.bus.waiters[0])
  {
    FirstIsServed(s.bus, s.held, empty, s.bus.waiters[0]);
  }

  lemma StoredFirst(s: F.System)
    requires F.Inv(s) && s.phase.Storing? && s.phase.drained != [] && s.bus.waiters != []
    ensures Served(F.Step(s, F.Stored), s.bus.waiters[0])
  {
    FirstIsServed(s.bus, s.held, s.phase.drained, s.bus.waiters[0]);
  }

  lemma FreeBusIsGiven(s: F.System, x: nat)
    requires F.Inv(s) && x in s.held && s.bus.waiters != []
    ensures F.Enabled(s, F.GiveBack(x)) && F.Inv(F.Step(s, F.GiveBack(x)))
    ensures x in F.Step(s, F.GiveBack(x)).held && F.Step(s, F.GiveBack(x)).held[x] == s.bus.waiters[0]
  {
    F.OwnershipIsSafe(s, F.GiveBack(x));
  }

  lemma {:induction false} OthersGiveBack(s: F.System, xs: seq<nat>, y: nat)
    requires F.Inv(s) && F.CanRun(s, GiveBacks(xs)) && y in s.held && y !in xs
    ensures y in F.Run(s, GiveBacks(xs)).held && F.Run(s, GiveBacks(xs)).held[y] == s.held[y]
    decreases |xs|
  {
    if xs != [] {
      assert GiveBacks(xs)[1..] == GiveBacks(xs[1..]);
      F.OwnershipIsSafe(s, F.GiveBack(xs[0]));
      OthersGiveBack(F.Step(s, F.GiveBack(xs[0])), xs[1..], y);
    }
  }

  lemma GiveBacksServe(s: F.System, xs: seq<nat>)
    requires F.Inv(s) && F.CanRun(s, GiveBacks(xs)) && Distinct(xs) && xs != [] && s.bus.waiters != []
    ensures Served(F.Run(s, GiveBacks(xs)), s.bus.waiters[0])
  {
    assert GiveBacks(xs)[1..] == GiveBacks(xs[1..]);
    FreeBusIsGiven(s, xs[0]);
    OthersGiveBack(F.Step(s, F.GiveBack(xs[0])), xs[1..], xs[0]);
  }

  lemma PutBackStarts(s: F.System, xs: seq<nat>)
    requires F.Inv(s) && s.phase.Idle? && !s.draining && F.CanRun(s, [F.PutBack(xs)]) && xs != []
    ensures var s' := F.Run(s, [F.PutBack(xs)]);
      F.Inv(s') && s'.phase.Reading? && s'.bus.waiters == s.bus.waiters && xs[0] in FreeBuses(s')
  {
    OneFluidEvent(s, F.PutBack(xs));
    F.OwnershipIsSafe(s, F.PutBack(xs));
    assert xs[0] in s.held && xs[0] in SetOf(xs);
  }

  /** When a job returns a bus, the oldest ticket gets one: at once, or when the task has looked. */
  lemma ReturnServes(f: Factory, j: nat, a: Action) returns (h: Factory)
    requires FactoryInv(f) && f.fluid.phase.Idle? && f.fluid.bus.waiters != [] && AboutToEnd(f, j, a)
    requires SideOf(f, j).toFree != []
    ensures Reaches(f, h) && Served(h.fluid, f.fluid.bus.waiters[0])
  {
    h := After(f, OfItems(a));
    LastStepReaches(f, j, a);
    MoveRefines(f, OfItems(a));
    EndSettles(f, a);
    var xs := BusesOf(f.sides[j].toFree, f.parts);
    BusesDiffer(f.fluid.bus.waiters, f.fluid.held, f.parts, f.sides[j].toFree);
    if JobEvents(f, a) == GiveBacks(xs) {
      GiveBacksServe(f.fluid, xs);
    } else {
      PutBackStarts(f.fluid, xs);
      h := LookServes(h, f.fluid.bus.waiters[0], f);
    }
  }

  lemma LookServes(g: Factory, t: Ticket, f: Factory) returns (h: Factory)
    requires FactoryInv(g) && Reaches(f, g) && g.fluid.phase.Reading?
    requires g.fluid.bus.waiters != [] && g.fluid.bus.waiters[0] == t && FreeBuses(g.fluid) != []
    ensures Reaches(f, h) && Served(h.fluid, t)
  {
    AllListed(g.fluid);
    FluidStepReaches(g, F.Answer(FreeBuses(g.fluid), []));
    h := g.(fluid := F.Step(g.fluid, F.Answer(FreeBuses(g.fluid), [])));
    AnswerServes(g.fluid, FreeBuses(g.fluid), []);
    ReachOn(f, g, h);
  }

  /** The job whose bus this is waits for no other. */
  ghost predicate Free(f: Factory, x: nat) {
    x in f.fluid.held && f.fluid.held[x] in f.owner && !WaitsForFluid(f, f.owner[f.fluid.held[x]])
  }

  lemma NotStuck(f: Factory)
    requires FluidInv(f) && f.fluid.phase.Idle? && f.fluid.bus.waiters != []
    ensures Stuck(f) <==> forall x :: x in f.fluid.held ==> !Free(f, x)
  {
    forall x | x in f.fluid.held ensures HolderWaits(f, x) <==> !Free(f, x) {
      BusHolderIsLive(f, x);
    }
  }

  /** The first job waits for no fluid bus if somebody has one and does not wait, for that one has not begun before it. */
  lemma FirstNeedsNone(f: Factory, i: nat, x: nat)
    requires FactoryInv(f) && First(f, i) && Free(f, x)
    ensures !WaitsForFluid(f, f.world.log[i])
  {
    if t :| t in SideOf(f, f.world.log[i]).parts && t in f.fluid.bus.waiters {
      BusHolderIsFirst(f, i, t, x);
    }
  }

  lemma AlikeFree(f: Factory, g: Factory, x: nat)
    requires Alike(f, g) && Free(f, x)
    ensures Free(g, x)
  {}

  /** A job that had no bus has ended. */
  ghost predicate FluidsSame(g: Factory, h: Factory) { h.fluid == g.fluid && h.owner == g.owner && h.sides == g.sides }

  lemma NoBusInList(g: Factory, j: nat, a: Action)
    requires EndOf(a).Some? && EndOf(a).value.0 == j && SideOf(g, j).toFree == []
    ensures JobEvents(g, a) == [F.PutBack([])] || JobEvents(g, a) == []
  {
    assert BusesOf([], g.parts) == [];
  }

  lemma FluidsAfter(g: Factory, a: Action, es: seq<F.Event>)
    requires F.Inv(g.fluid) && g.fluid.phase.Idle? && es == JobEvents(g, a) && (es == [F.PutBack([])] || es == [])
    ensures FluidsSame(g, After(g, OfItems(a)))
  {
    NothingReturned(g.fluid);
  }

  lemma EndsWithoutBus(g: Factory, j: nat, a: Action)
    requires FactoryInv(g) && g.fluid.phase.Idle? && AboutToEnd(g, j, a) && SideOf(g, j).toFree == []
    ensures FluidsSame(g, After(g, OfItems(a)))
  {
    NoBusInList(g, j, a);
    FluidsAfter(g, a, JobEvents(g, a));
  }

  lemma EndedLive(g: Factory, j: nat, a: Action)
    requires AboutToEnd(g, j, a)
    ensures LiveJobs(After(g, OfItems(a))) == LiveJobs(g) - {j}
    ensures PartsOf(After(g, OfItems(a)).world.jobs) == PartsOf(g.world.jobs)
  {
    AfterEnd(g, j, a);
  }

  lemma EndedJobsFit(g: Factory, j: nat, a: Action)
    requires WorldInv(g.world) && AboutToEnd(g, j, a) && JobsFit(g.world)
    ensures JobsFit(After(g, OfItems(a)).world)
  {
    AfterEnd(g, j, a);
    EndKeepsSize(g.world, a);
  }

  lemma AlikeJobsFit(f: Factory, g: Factory)
    requires Alike(f, g) && JobsFit(f.world)
    ensures JobsFit(g.world) && LiveJobs(g) == LiveJobs(f)
  {}

  /** One job more comes to its end; the oldest ticket is served then, or all is as before for the fluids. */
  lemma OneMoreEnds(f: Factory, x: nat) returns (h: Factory)
    requires FactoryInv(f) && JobsFit(f.world) && f.world.sys.phase.Idle? && f.fluid.phase.Idle?
    requires f.fluid.bus.waiters != [] && Free(f, x)
    ensures Reaches(f, h)
    ensures Served(h.fluid, f.fluid.bus.waiters[0])
      || (FactoryInv(h) && JobsFit(h.world) && h.fluid == f.fluid && Free(h, x) && LiveJobs(h) < LiveJobs(f))
  {
    BusHolderIsLive(f, x);
    var i := LiveHasFirst(f, f.owner[f.fluid.held[x]]);
    var j := f.world.log[i];
    FirstHasSlots(f, i);
    FirstNeedsNone(f, i, x);
    var g, a := WorkIsDone(f, j);
    AlikeJobsFit(f, g);
    AlikeFree(f, g, x);
    if SideOf(g, j).toFree != [] {
      h := ReturnServes(g, j, a);
      ReachOn(f, g, h);
    } else {
      h := EndsQuietly(g, j, a, x);
      ReachOn(f, g, h);
      assert j in LiveJobs(f);
    }
  }

  lemma EndsQuietly(g: Factory, j: nat, a: Action, x: nat) returns (h: Factory)
    requires FactoryInv(g) && JobsFit(g.world) && g.fluid.phase.Idle? && Free(g, x)
    requires AboutToEnd(g, j, a) && SideOf(g, j).toFree == []
    ensures Reaches(g, h) && FactoryInv(h) && JobsFit(h.world) && h.fluid == g.fluid && Free(h, x)
    ensures LiveJobs(h) == LiveJobs(g) - {j}
  {
    h := After(g, OfItems(a));
    LastStepReaches(g, j, a);
    EndsWithoutBus(g, j, a);
    EndedLive(g, j, a);
    EndedJobsFit(g, j, a);
  }

  lemma RestedFree(f: Factory, g: Factory, x: nat)
    requires g == WithSys(f, g.world.sys) && |g.world.sys.phys| == |f.world.sys.phys| && JobsFit(f.world) && Free(f, x)
    ensures JobsFit(g.world) && Free(g, x) && LiveJobs(g) == LiveJobs(f)
  {}

  lemma {:induction false} OldestIsServed(f: Factory, x: nat) returns (h: Factory)
    requires FactoryInv(f) && JobsFit(f.world) && f.fluid.phase.Idle? && f.fluid.bus.waiters != [] && Free(f, x)
    ensures Reaches(f, h) && Served(h.fluid, f.fluid.bus.waiters[0])
    decreases LiveJobs(f)
  {
    var g := ItemTaskRests(f);
    RestedFree(f, g, x);
    h := OneMoreEnds(g, x);
    ReachOn(f, g, h);
    if !Served(h.fluid, f.fluid.bus.waiters[0]) {
      var h1 := OldestIsServed(h, x);
      ReachOn(f, h, h1);
      h := h1;
    }
  }

  lemma CalmAsksNothing(ms: seq<Move>)
    requires AllCalm(ms)
    ensures NoneAsks(ms)
  {
    forall i | 0 <= i < |ms| ensures AsksNothing(ms[i]) {
      assert Calm(ms[i]);
    }
  }

  lemma StuckServesNobody(f: Factory, ms: seq<Move>)
    requires FactoryInv(f) && Stuck(f) && CanGo(f, ms) && NoneAsks(ms)
    ensures !Served(Go(f, ms).fluid, f.fluid.bus.waiters[0])
  {
    StuckForEver(f, ms);
    HeadIsMember(f.fluid.bus.waiters);
  }

  ghost predicate ServedBy(f: Factory, ms: seq<Move>, t: Ticket) { CanGo(f, ms) && Served(Go(f, ms).fluid, t) }

  /** With nobody asking anew and nothing failing, the ticket can still get a bus. */
  ghost predicate CanBeServed(f: Factory, t: Ticket) { exists ms :: AllCalm(ms) && ServedBy(f, ms, t) }

  /** Whatever happens, failures included: unless somebody asks anew, the ticket gets none, and the cycle does not end. */
  ghost predicate NeverServed(f: Factory, t: Ticket) {
    forall ms :: NoneAsks(ms) && CanGo(f, ms) ==> !ServedBy(f, ms, t) && !AllEnded(Go(f, ms).world.jobs)
  }

  lemma FreeServes(f: Factory, x: nat)
    requires FactoryInv(f) && JobsFit(f.world) && f.fluid.phase.Idle? && f.fluid.bus.waiters != [] && Free(f, x)
    ensures CanBeServed(f, f.fluid.bus.waiters[0])
  {
    var h := OldestIsServed(f, x);
    var ms :| Leads(f, ms, h);
    assert ServedBy(f, ms, f.fluid.bus.waiters[0]);
  }

  lemma StuckNeverServes(f: Factory)
    requires FactoryInv(f) && Stuck(f)
    ensures NeverServed(f, f.fluid.bus.waiters[0]) && !CanBeServed(f, f.fluid.bus.waiters[0])
  {
    forall ms | NoneAsks(ms) && CanGo(f, ms)
      ensures !ServedBy(f, ms, f.fluid.bus.waiters[0]) && !AllEnded(Go(f, ms).world.jobs)
    {
      StuckForEver(f, ms);
      StuckServesNobody(f, ms);
    }
    forall ms | AllCalm(ms) ensures !ServedBy(f, ms, f.fluid.bus.waiters[0]) {
      CalmAsksNothing(ms);
    }
  }

  lemma ServedWhen(f: Factory)
    requires FactoryInv(f) && JobsFit(f.world) && f.fluid.phase.Idle? && f.fluid.bus.waiters != []
    ensures CanBeServed(f, f.fluid.bus.waiters[0]) <==> exists x :: Free(f, x)
    ensures NeverServed(f, f.fluid.bus.waiters[0]) <==> !exists x :: Free(f, x)
  {
    NotStuck(f);
    if x :| Free(f, x) {
      FreeServes(f, x);
      var ms :| AllCalm(ms) && ServedBy(f, ms, f.fluid.bus.waiters[0]);
      CalmAsksNothing(ms);
    } else {
      StuckNeverServes(f);
    }
  }

  /** With the task at rest, the oldest ticket that waits for a fluid bus can still be served, nobody asking anew and nothing
      failing, exactly if some job that has a bus waits for no other; and if there is none, it is never served, and the cycle
      never ends, until somebody asks anew. */
  lemma OldestServedExactlyWhen(phys: seq<nat>, buses: nat, ms: seq<Move>)
    requires CanGo(FactoryStart(phys, buses), ms)
    requires var f := Go(FactoryStart(phys, buses), ms); f.fluid.phase.Idle? && f.fluid.bus.waiters != [] && JobsFit(f.world)
    ensures var f := Go(FactoryStart(phys, buses), ms);
      && (CanBeServed(f, f.fluid.bus.waiters[0]) <==> exists x :: Free(f, x))
      && (NeverServed(f, f.fluid.bus.waiters[0]) <==> !exists x :: Free(f, x))
  {
    FactoryStartInv(phys, buses);
    FactoryRefines(FactoryStart(phys, buses), ms);
    ServedWhen(Go(FactoryStart(phys, buses), ms));
  }

  // ----- a new request helps, if a bus is free

  lemma AskStarts(s: F.System, t: Ticket)
    requires F.Inv(s) && s.phase.Idle? && !s.draining
    ensures F.Step(s, F.Ask(t)).phase.Reading? && F.Step(s, F.Ask(t)).bus.running
  {}

  lemma {:induction false} AsksKeepReading(s: F.System, ts: seq<Ticket>)
    requires s.phase.Reading? && !s.draining && s.bus.running && F.CanRun(s, FluidAsks(ts))
    ensures F.Run(s, FluidAsks(ts)).phase.Reading? && F.Run(s, FluidAsks(ts)).n == s.n
    ensures F.Run(s, FluidAsks(ts)).bus.allocations == s.bus.allocations
    decreases |ts|
  {
    if ts != [] {
      assert FluidAsks(ts)[1..] == FluidAsks(ts[1..]);
      AsksKeepReading(F.Step(s, F.Ask(ts[0])), ts[1..]);
    }
  }

  lemma AsksStart(s: F.System, ts: seq<Ticket>)
    requires F.Inv(s) && s.phase.Idle? && !s.draining && ts != [] && F.CanRun(s, FluidAsks(ts))
    ensures F.Run(s, FluidAsks(ts)).phase.Reading? && F.Run(s, FluidAsks(ts)).n == s.n
    ensures F.Run(s, FluidAsks(ts)).bus.allocations == s.bus.allocations
  {
    assert FluidAsks(ts)[1..] == FluidAsks(ts[1..]);
    AskStarts(s, ts[0]);
    AsksKeepReading(F.Step(s, F.Ask(ts[0])), ts[1..]);
  }

  /** The oldest ticket gets a bus from the next reading, or else as soon as what lies in the free buses is stored away. */
  ghost predicate NextReadingServes(s: F.System, t: Ticket, empty: seq<nat>, drained: seq<nat>) {
    F.Enabled(s, F.Answer(empty, drained)) &&
    var s1 := F.Step(s, F.Answer(empty, drained));
    Served(s1, t) || (s1.phase == F.Storing(drained) && Served(F.Step(s1, F.Stored), t))
  }

  lemma ReadingServes(s: F.System, x: nat, empty: seq<nat>, drained: seq<nat>)
    requires F.Inv(s) && s.phase.Reading? && s.bus.waiters != [] && x < s.n && x !in s.bus.allocations
    requires F.Listed(s, empty, drained)
    ensures NextReadingServes(s, s.bus.waiters[0], empty, drained)
  {
    if empty != [] {
      AnswerServes(s, empty, drained);
    } else {
      F.OwnershipIsSafe(s, F.Answer(empty, drained));
      assert x in drained;
      StoredFirst(F.Step(s, F.Answer(empty, drained)));
    }
  }

  /** If a new job asks for a fluid bus while one is free, the oldest ticket is served by the next reading, whatever it is. */
  lemma NewRequestServes(f: Factory, m: Move, x: nat, empty: seq<nat>, drained: seq<nat>)
    requires FactoryInv(f) && f.fluid.phase.Idle? && f.fluid.bus.waiters != [] && x < f.fluid.n && x !in f.fluid.bus.allocations
    requires Permitted(f, m) && m.Enter? && m.fluids != [] && F.Listed(After(f, m).fluid, empty, drained)
    ensures NextReadingServes(After(f, m).fluid, f.fluid.bus.waiters[0], empty, drained)
  {
    MoveRefines(f, m);
    FluidAsksRun(f.fluid, m.fluids);
    AsksStart(f.fluid, m.fluids);
    ReadingServes(After(f, m).fluid, x, empty, drained);
  }
}
