/** What a job has done with its fluids when it has ended well: exactly the extractions and transfers that it set out with, none
    of which has failed (the joins of execute_recipe in fluid_slotted.rs). The moves of a run are counted; nothing is taken from
    what the tasks remember. */
module FluidTransfers {
  import opened Common
  import opened Bus
  import opened BusSystem
  import opened JobRuns
  import opened FactoryRuns
  import F = FluidBus

  /** How often the extractions and the transfers of a ticket have been answered, and with which result. */
  datatype Tally = Tally(drawn: nat, undrawn: nat, sent: nat, unsent: nat)

  ghost function TallyOf(done: seq<Move>, t: Ticket): Tally {
    Tally(multiset(done)[Draws(t, true)], multiset(done)[Draws(t, false)],
          multiset(done)[Sends(t, true)], multiset(done)[Sends(t, false)])
  }

  const NOTHING := Tally(0, 0, 0, 0)

  /** Everything that was to be done has been done, and nothing has failed. */
  predicate CarriedOut(tally: Tally, use: FluidUse) { tally == Tally(use.fills, 0, use.outs, 0) }

  /** What a task remembers agrees with what has been answered. */
  predicate Agrees(p: FluidPart, tally: Tally) {
    match p.state
    case Asked => tally == NOTHING
    case Refused => tally == NOTHING
    case Drawing(_, rest, ok) =>
      && tally.drawn + tally.undrawn + rest == p.use.fills && (ok <==> tally.undrawn == 0) && tally.sent == tally.unsent == 0
    case Sending(_, rest, ok) =>
      && tally.drawn == p.use.fills && tally.undrawn == 0
      && tally.sent + tally.unsent + rest == p.use.outs && (ok <==> tally.unsent == 0)
    case Returned => true
  }

  /** The records of one ticket: it belongs to the job that entered with it, needs what it entered with, and if that job has
      ended well, all of it has been done. */
  ghost predicate Recorded(f: Factory, done: seq<Move>, t: Ticket) {
    && (t in f.parts ==> Agrees(f.parts[t], TallyOf(done, t)))
    && (t !in f.parts ==> TallyOf(done, t) == NOTHING)
    && (forall m :: m in done && m.Enter? && t in m.fluids ==> Entered(f, m, t))
    && (forall j :: EndedWell(f, j) && t in SideOf(f, j).parts && t in f.parts ==> CarriedOut(TallyOf(done, t), f.parts[t].use))
  }

  ghost predicate Entered(f: Factory, m: Move, t: Ticket)
    requires m.Enter?
  {
    && m.j in f.sides && m.j in f.world.jobs && t in f.sides[m.j].parts && t in f.parts && t in m.needs
    && f.parts[t].use == m.needs[t]
  }

  ghost predicate EndedWell(f: Factory, j: nat) { j in f.world.jobs && f.world.jobs[j].stage == Ended(true) }

  lemma TallyMore(done: seq<Move>, m: Move, t: Ticket)
    ensures TallyOf(done + [m], t)
         == if m == Draws(t, true) then TallyOf(done, t).(drawn := TallyOf(done, t).drawn + 1)
            else if m == Draws(t, false) then TallyOf(done, t).(undrawn := TallyOf(done, t).undrawn + 1)
            else if m == Sends(t, true) then TallyOf(done, t).(sent := TallyOf(done, t).sent + 1)
            else if m == Sends(t, false) then TallyOf(done, t).(unsent := TallyOf(done, t).unsent + 1)
            else TallyOf(done, t)
  {
    assert multiset(done + [m]) == multiset(done) + multiset{m};
  }

  /** What a move does to the jobs. */
  lemma JobsAreKept(f: Factory, m: Move)
    requires Permitted(f, m)
    ensures forall j :: j in f.world.jobs ==> j in After(f, m).world.jobs
    ensures forall j :: EndedWell(After(f, m), j) ==> EndedWell(f, j) || m == OfItems(Complete(j))
    ensures m.Enter? ==> m.j in After(f, m).world.jobs && m.j !in f.world.jobs
  {
    var acts := ItemActions(m);
    if acts != [] {
      OneAct(f.world, acts[0]);
      assert acts == [acts[0]];
    }
  }

  lemma OneSideEach(f: Factory)
    requires FluidInv(f)
    ensures f.sides.Keys == f.world.jobs.Keys
  {}

  /** What a move does to the sides. */
  lemma SidesAreKept(f: Factory, m: Move, j: nat)
    requires f.sides.Keys == f.world.jobs.Keys && Permitted(f, m)
    ensures var sides := SidesAfter(f, m);
      && (j in f.world.jobs ==> j in f.sides && j in sides && sides[j].parts == f.sides[j].parts)
      && (m.Enter? ==> m.j in sides && sides[m.j].parts == m.fluids)
      && (j in sides && j !in f.sides ==> m.Enter? && m.j == j)
  {}

  lemma CountAgrees(p: FluidPart, ok: bool, tally: Tally, tally': Tally)
    requires Agrees(p, tally) && p.state.Seated() && p.state.rest > 0
    requires p.state.Drawing? && ok ==> tally' == tally.(drawn := tally.drawn + 1)
    requires p.state.Drawing? && !ok ==> tally' == tally.(undrawn := tally.undrawn + 1)
    requires p.state.Sending? && ok ==> tally' == tally.(sent := tally.sent + 1)
    requires p.state.Sending? && !ok ==> tally' == tally.(unsent := tally.unsent + 1)
    ensures Agrees(p.(state := Count(p.state, ok)), tally')
  {}

  lemma EnteredBefore(parts: map<Ticket, FluidPart>, fluids: seq<Ticket>, needs: map<Ticket, FluidUse>, t: Ticket)
    requires t in parts && t !in fluids
    ensures t in parts + NewParts(fluids, needs) && (parts + NewParts(fluids, needs))[t] == parts[t]
  {}

  /** What a move does to the record of one task that there is already. */
  lemma PartIsKept(f: Factory, m: Move, done: seq<Move>, t: Ticket)
    requires Permitted(f, m) && t in f.parts && Agrees(f.parts[t], TallyOf(done, t))
    ensures t in PartsAfter(f, m) && PartsAfter(f, m)[t].use == f.parts[t].use
    ensures Agrees(PartsAfter(f, m)[t], TallyOf(done + [m], t))
  {
    TallyMore(done, m, t);
    match m
    case Enter(_, _, _, _, fluids, needs, _) => EnteredBefore(f.parts, fluids, needs, t);
    case OfItems(a) => JobPartIsKept(f, a, TallyOf(done, t), t);
    case OfFluids(_) =>
    case Close(_, _) =>
    case Reopen =>
    case _ => OwnPartIsKept(f, m, TallyOf(done, t), TallyOf(done + [m], t), t);
  }

  /** What a task does, or learns. */
  lemma OwnPartIsKept(f: Factory, m: Move, tally: Tally, tally': Tally, t: Ticket)
    requires (m.Learn? || m.Draws? || m.Sends?) && Permitted(f, m) && t in f.parts && Agrees(f.parts[t], tally)
    requires m.t != t || m.Learn? ==> tally' == tally
    requires m == Draws(t, true) ==> tally' == tally.(drawn := tally.drawn + 1)
    requires m == Draws(t, false) ==> tally' == tally.(undrawn := tally.undrawn + 1)
    requires m == Sends(t, true) ==> tally' == tally.(sent := tally.sent + 1)
    requires m == Sends(t, false) ==> tally' == tally.(unsent := tally.unsent + 1)
    ensures t in PartsAfter(f, m) && PartsAfter(f, m)[t].use == f.parts[t].use && Agrees(PartsAfter(f, m)[t], tally')
  {
    if m.t == t && !m.Learn? {
      CountAgrees(f.parts[t], m.ok, tally, tally');
    }
  }

  lemma SendsAll(parts: map<Ticket, FluidPart>, side: Side, t: Ticket, tally: Tally)
    requires AllDrawnWell(side, parts) && t in parts && Agrees(parts[t], tally)
    ensures t in SendingAll(parts, side.parts) && SendingAll(parts, side.parts)[t].use == parts[t].use
    ensures Agrees(SendingAll(parts, side.parts)[t], tally)
  {
    if t in side.parts {
      assert DrawnWell(t, parts);
    }
  }

  lemma JobPartIsKept(f: Factory, a: Action, tally: Tally, t: Ticket)
    requires Permitted(f, OfItems(a)) && t in f.parts && Agrees(f.parts[t], tally)
    ensures t in JobParts(f, a) && JobParts(f, a)[t].use == f.parts[t].use && Agrees(JobParts(f, a)[t], tally)
  {
    if a.Unload? {
      SendsAll(f.parts, SideOf(f, a.j), t, tally);
    }
  }

  lemma NotNewYet(parts: map<Ticket, FluidPart>, fluids: seq<Ticket>, needs: map<Ticket, FluidUse>, t: Ticket)
    requires t !in parts && forall u :: u in fluids ==> u in needs
    ensures t in parts + NewParts(fluids, needs) ==> (parts + NewParts(fluids, needs))[t].state == Asked
    ensures t in fluids ==> t in parts + NewParts(fluids, needs) && (parts + NewParts(fluids, needs))[t].use == needs[t]
  {}

  /** A ticket that is new has done nothing. */
  lemma PartIsNew(f: Factory, m: Move, done: seq<Move>, t: Ticket)
    requires Permitted(f, m) && t !in f.parts && TallyOf(done, t) == NOTHING
    ensures TallyOf(done + [m], t) == NOTHING
    ensures t in PartsAfter(f, m) ==> Agrees(PartsAfter(f, m)[t], NOTHING)
    ensures m.Enter? && t in m.fluids ==> t in PartsAfter(f, m) && t in m.needs && PartsAfter(f, m)[t].use == m.needs[t]
  {
    TallyMore(done, m, t);
    if m.Enter? {
      NotNewYet(f.parts, m.fluids, m.needs, t);
    } else {
      assert t !in PartsAfter(f, m);
    }
  }

  /** When a job completes, every task of it has done what it was to do. */
  lemma CompletedIsCarriedOut(f: Factory, j: nat, done: seq<Move>, t: Ticket)
    requires FluidInv(f) && Permitted(f, OfItems(Complete(j))) && t in SideOf(f, j).parts && t in f.parts
    requires Agrees(f.parts[t], TallyOf(done, t))
    ensures CarriedOut(TallyOf(done, t), f.parts[t].use)
  {
    assert SentWell(t, f.parts);
  }

  lemma EndedIsQuiet(f: Factory, j: nat, t: Ticket)
    requires FluidInv(f) && EndedWell(f, j) && t in SideOf(f, j).parts
    ensures t in f.parts && !f.parts[t].state.Seated()
  {
    assert SideOk(f.world.jobs[j].stage, f.sides[j], f.parts);
  }

  /** A task of an ended job does nothing more. */
  lemma EndedDoesNothing(f: Factory, m: Move, j: nat, done: seq<Move>, t: Ticket)
    requires FluidInv(f) && Permitted(f, m) && EndedWell(f, j) && t in SideOf(f, j).parts
    ensures TallyOf(done + [m], t) == TallyOf(done, t)
  {
    EndedIsQuiet(f, j, t);
    TallyMore(done, m, t);
  }

  /** Every ticket of a side has a task. */
  lemma SideHasParts(f: Factory, j: nat, t: Ticket)
    requires FluidInv(f) && t in SideOf(f, j).parts
    ensures j in f.world.jobs && t in f.parts
  {
    assert SideOk(f.world.jobs[j].stage, f.sides[j], f.parts);
  }

  lemma StillCarriedOut(f: Factory, m: Move, done: seq<Move>, t: Ticket, j: nat)
    requires FluidInv(f) && Permitted(f, m) && Recorded(f, done, t) && t in PartsAfter(f, m)
    requires EndedWell(After(f, m), j) && j in SidesAfter(f, m) && t in SidesAfter(f, m)[j].parts
    ensures CarriedOut(TallyOf(done + [m], t), PartsAfter(f, m)[t].use)
  {
    JobsAreKept(f, m);
    OneSideEach(f);
    SidesAreKept(f, m, j);
    assert j in f.world.jobs;
    SideHasParts(f, j, t);
    PartIsKept(f, m, done, t);
    if EndedWell(f, j) {
      EndedDoesNothing(f, m, j, done, t);
    } else {
      TallyMore(done, m, t);
      CompletedIsCarriedOut(f, j, done, t);
    }
  }

  lemma StillEntered(f: Factory, m: Move, done: seq<Move>, t: Ticket, e: Move)
    requires f.sides.Keys == f.world.jobs.Keys && Permitted(f, m) && Recorded(f, done, t)
    requires e in done + [m] && e.Enter? && t in e.fluids
    ensures e.j in SidesAfter(f, m) && e.j in After(f, m).world.jobs && t in SidesAfter(f, m)[e.j].parts
    ensures t in PartsAfter(f, m) && t in e.needs && PartsAfter(f, m)[t].use == e.needs[t]
  {
    JobsAreKept(f, m);
    SidesAreKept(f, m, e.j);
    if e in done {
      assert Entered(f, e, t);
      PartIsKept(f, m, done, t);
    } else {
      assert t !in f.parts;
      PartIsNew(f, m, done, t);
    }
  }

  lemma RecordedNext(f: Factory, m: Move, done: seq<Move>, t: Ticket)
    requires FluidInv(f) && Permitted(f, m) && Recorded(f, done, t)
    ensures Recorded(After(f, m), done + [m], t)
  {
    OneSideEach(f);
    if t in f.parts {
      PartIsKept(f, m, done, t);
    } else {
      PartIsNew(f, m, done, t);
    }
    forall e | e in done + [m] && e.Enter? && t in e.fluids ensures Entered(After(f, m), e, t) {
      StillEntered(f, m, done, t, e);
    }
    forall j | EndedWell(After(f, m), j) && t in SideOf(After(f, m), j).parts && t in After(f, m).parts
      ensures CarriedOut(TallyOf(done + [m], t), After(f, m).parts[t].use)
    {
      StillCarriedOut(f, m, done, t, j);
    }
  }

  lemma FirstMove(f: Factory, ms: seq<Move>)
    requires ms != [] && CanGo(f, ms)
    ensures Permitted(f, ms[0]) && CanGo(After(f, ms[0]), ms[1..]) && Go(f, ms) == Go(After(f, ms[0]), ms[1..])
  {}

  lemma InvKept(f: Factory, m: Move)
    requires FactoryInv(f) && Permitted(f, m)
    ensures FluidInv(f) && FactoryInv(After(f, m))
  {
    MoveRefines(f, m);
  }

  lemma OneMove(f: Factory, ms: seq<Move>, done: seq<Move>, t: Ticket) returns (g: Factory)
    requires ms != [] && FactoryInv(f) && CanGo(f, ms) && Recorded(f, done, t)
    ensures FactoryInv(g) && CanGo(g, ms[1..]) && Recorded(g, done + [ms[0]], t) && Go(f, ms) == Go(g, ms[1..])
  {
    FirstMove(f, ms);
    InvKept(f, ms[0]);
    RecordedNext(f, ms[0], done, t);
    g := After(f, ms[0]);
  }

  lemma Regrouped(done: seq<Move>, ms: seq<Move>)
    ensures ms == [] ==> done == done + ms
    ensures ms != [] ==> done + [ms[0]] + ms[1..] == done + ms
  {}

  lemma {:induction false} RecordedRun(f: Factory, ms: seq<Move>, done: seq<Move>, t: Ticket) returns (g: Factory, all: seq<Move>)
    requires FactoryInv(f) && CanGo(f, ms) && Recorded(f, done, t)
    ensures g == Go(f, ms) && all == done + ms && Recorded(g, all, t)
    decreases |ms|
  {
    if ms == [] {
      Regrouped(done, ms);
      g, all := f, done;
    } else {
      var f1 := OneMove(f, ms, done, t);
      Regrouped(done, ms);
      g, all := RecordedRun(f1, ms[1..], done + [ms[0]], t);
    }
  }

  lemma StartRecorded(phys: seq<nat>, buses: nat, t: Ticket)
    ensures Recorded(FactoryStart(phys, buses), [], t)
  {}

  lemma RecordedTells(f: Factory, ms: seq<Move>, e: Move, t: Ticket)
    requires Recorded(f, ms, t) && e in ms && e.Enter? && t in e.fluids && EndedWell(f, e.j)
    ensures t in e.needs && CarriedOut(TallyOf(ms, t), e.needs[t])
  {
    assert Entered(f, e, t);
  }

  /** In every run, when a job has ended well, each fluid that it entered with has been drawn with all the extractions and sent
      on with all the transfers that it entered with, and none of them has failed. */
  lemma FluidsAreCarriedOut(phys: seq<nat>, buses: nat, ms: seq<Move>, e: Move, t: Ticket)
    requires CanGo(FactoryStart(phys, buses), ms) && e in ms && e.Enter? && t in e.fluids
    requires var f := Go(FactoryStart(phys, buses), ms); e.j in f.world.jobs && f.world.jobs[e.j].stage == Ended(true)
    ensures t in e.needs
    ensures multiset(ms)[Draws(t, true)] == e.needs[t].fills && multiset(ms)[Draws(t, false)] == 0
    ensures multiset(ms)[Sends(t, true)] == e.needs[t].outs && multiset(ms)[Sends(t, false)] == 0
  {
    FactoryStartInv(phys, buses);
    StartRecorded(phys, buses, t);
    var f, all := RecordedRun(FactoryStart(phys, buses), ms, [], t);
    assert all == ms;
    RecordedTells(f, ms, e, t);
  }
}
