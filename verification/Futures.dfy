/** What can still come from where the factory is. Each step of a job leaves it less to do, so a job that waits for nothing
    can come to its end by its own steps, whatever the others do not do. */
module Futures {
  import opened Common
  import opened Bus
  import opened BusSystem
  import BusRuns
  import opened BusJobs
  import opened Lines
  import opened JobRuns
  import opened JobProgress
  import opened FactoryRuns
  import opened FactoryProgress
  import F = FluidBus

  // ----- how much a job still has to do

  function ItemLeft(p: Part, told: bool): nat {
    match p.state
    case Waiting => |p.fills| + |p.outs| + 1
    case Filling(_, rest, _) => |rest| + |p.outs| + if told then 0 else 1
    case Emptying(_, rest, _, _) => |rest|
    case _ => 0
  }

  function FluidLeft(p: FluidPart): nat {
    match p.state
    case Asked => p.use.fills + p.use.outs + 1
    case Drawing(_, rest, _) => rest + p.use.outs
    case Sending(_, rest, _) => rest
    case _ => 0
  }

  function At(weights: map<Ticket, nat>, t: Ticket): nat { if t in weights then weights[t] else 0 }

  function Weight(ts: seq<Ticket>, weights: map<Ticket, nat>): nat {
    if ts == [] then 0 else At(weights, ts[0]) + Weight(ts[1..], weights)
  }

  lemma {:induction false} WeightNoMore(ts: seq<Ticket>, a: map<Ticket, nat>, b: map<Ticket, nat>)
    requires forall t :: t in ts ==> At(b, t) <= At(a, t)
    ensures Weight(ts, b) <= Weight(ts, a)
  {
    if ts != [] {
      assert ts[0] in ts;
      WeightNoMore(ts[1..], a, b);
    }
  }

  lemma {:induction false} WeightLess(ts: seq<Ticket>, a: map<Ticket, nat>, b: map<Ticket, nat>, t: Ticket)
    requires (forall u :: u in ts ==> At(b, u) <= At(a, u)) && t in ts && At(b, t) < At(a, t)
    ensures Weight(ts, b) < Weight(ts, a)
  {
    assert ts[0] in ts;
    if ts[0] == t {
      WeightNoMore(ts[1..], a, b);
    } else {
      WeightLess(ts[1..], a, b, t);
    }
  }

  function ItemWeights(job: Job, parts: map<Ticket, Part>): map<Ticket, nat> {
    map t | t in parts :: ItemLeft(parts[t], t in job.slotsToFree)
  }

  function FluidWeights(parts: map<Ticket, FluidPart>): map<Ticket, nat> { map t | t in parts :: FluidLeft(parts[t]) }

  function ItemsLeft(job: Job, parts: map<Ticket, Part>): nat { Weight(job.parts, ItemWeights(job, parts)) }

  function FluidsLeft(side: Side, parts: map<Ticket, FluidPart>): nat { Weight(side.parts, FluidWeights(parts)) }

  function Left(f: Factory, j: nat): nat
    requires j in f.world.jobs
  {
    ItemsLeft(f.world.jobs[j], f.world.sys.parts) + FluidsLeft(SideOf(f, j), f.parts)
  }

  lemma WakeLeaves(job: Job, parts: map<Ticket, Part>, t: Ticket)
    requires t in job.parts && t in parts && parts[t].state.Filling? && t !in job.slotsToFree
    ensures ItemsLeft(job.(slotsToFree := job.slotsToFree + [t]), parts) < ItemsLeft(job, parts)
  {
    WeightLess(job.parts, ItemWeights(job, parts), ItemWeights(job.(slotsToFree := job.slotsToFree + [t]), parts), t);
  }

  lemma TransferLeaves(job: Job, parts: map<Ticket, Part>, t: Ticket, state: PartState)
    requires t in job.parts && t in parts
    requires ItemLeft(parts[t].(state := state), t in job.slotsToFree) < ItemLeft(parts[t], t in job.slotsToFree)
    ensures ItemsLeft(job, parts[t := parts[t].(state := state)]) < ItemsLeft(job, parts)
  {
    WeightLess(job.parts, ItemWeights(job, parts), ItemWeights(job, parts[t := parts[t].(state := state)]), t);
  }

  lemma FluidLeaves(side: Side, side': Side, parts: map<Ticket, FluidPart>, t: Ticket, state: FluidState)
    requires t in side.parts && t in parts && side'.parts == side.parts
    requires FluidLeft(parts[t].(state := state)) < FluidLeft(parts[t])
    ensures FluidsLeft(side', SetState(parts, t, state)) < FluidsLeft(side, parts)
  {
    WeightLess(side.parts, FluidWeights(parts), FluidWeights(SetState(parts, t, state)), t);
  }

  // ----- steps of a job's own tasks

  /** Only tasks of jobs have moved on; nobody has asked, ended, got or returned anything. */
  ghost predicate Alike(f: Factory, g: Factory) {
    && g.fluid == f.fluid && g.owner == f.owner && g.world.log == f.world.log && g.world.sys.bus == f.world.sys.bus
    && g.world.jobs.Keys == f.world.jobs.Keys && g.sides.Keys == f.sides.Keys
    && (forall j :: j in f.world.jobs ==> g.world.jobs[j].parts == f.world.jobs[j].parts && (Live(g, j) <==> Live(f, j)))
    && (forall j :: j in f.sides ==> g.sides[j].parts == f.sides[j].parts)
    && |g.world.sys.phys| == |f.world.sys.phys|
  }

  lemma AlikeMore(f: Factory, g: Factory, h: Factory)
    requires Alike(f, g) && Alike(g, h)
    ensures Alike(f, h)
  {}

  lemma AlikeAtEase(f: Factory, g: Factory, j: nat)
    requires Alike(f, g) && AtEase(f, j) && j in f.world.jobs && j in f.sides
    ensures AtEase(g, j)
  {}

  /** Loading comes before unloading, and within a stage there is less to do. */
  predicate Less(f: Factory, g: Factory, j: nat) {
    && j in f.world.jobs && j in g.world.jobs
    && LessIn(f, g, j)
  }

  predicate LessIn(f: Factory, g: Factory, j: nat)
    requires j in f.world.jobs && j in g.world.jobs
  {
    || (g.world.jobs[j].stage == f.world.jobs[j].stage && Left(g, j) < Left(f, j))
    || (f.world.jobs[j].stage.Loading? && g.world.jobs[j].stage.Unloading?)
  }

  /** What a step of a job's own task does to the items. */
  ghost predicate ItemsAlike(w: World, w': World) {
    && w'.sys.bus == w.sys.bus && |w'.sys.phys| == |w.sys.phys| && w'.log == w.log && w'.jobs.Keys == w.jobs.Keys
    && forall j :: j in w.jobs ==>
         w'.jobs[j].parts == w.jobs[j].parts && (w'.jobs[j].stage.Ended? <==> w.jobs[j].stage.Ended?)
  }

  lemma WakesOwn(w: World, j: nat, t: Ticket)
    requires WorldInv(w) && j in w.jobs && t in w.jobs[j].parts && Allowed(w, Wake(t))
    ensures w.owner[t] == j && t !in w.jobs[j].slotsToFree
    ensures JobsAfter(w, Wake(t)) == w.jobs[j := w.jobs[j].(slotsToFree := w.jobs[j].slotsToFree + [t])]
  {
    assert OwnsAll(w.owner, j, w.jobs[j].parts);
  }

  lemma OneTold(w: World, w': World, j: nat, t: Ticket)
    requires j in w.jobs && t in w.jobs[j].parts && t !in w.jobs[j].slotsToFree
    requires t in w.sys.parts && w.sys.parts[t].state.Filling?
    requires w' == w.(jobs := w.jobs[j := w.jobs[j].(slotsToFree := w.jobs[j].slotsToFree + [t])])
    ensures ItemsAlike(w, w') && w'.jobs[j].stage == w.jobs[j].stage
    ensures ItemsLeft(w'.jobs[j], w'.sys.parts) < ItemsLeft(w.jobs[j], w.sys.parts)
  {
    WakeLeaves(w.jobs[j], w.sys.parts, t);
  }

  lemma AfterWake(w: World, j: nat, t: Ticket)
    requires WorldInv(w) && j in w.jobs && t in w.jobs[j].parts && Allowed(w, Wake(t))
    ensures Do(w, Wake(t)) == w.(jobs := w.jobs[j := w.jobs[j].(slotsToFree := w.jobs[j].slotsToFree + [t])])
  {
    WakesOwn(w, j, t);
  }

  lemma WakeStep(w: World, j: nat, t: Ticket)
    requires WorldInv(w) && ChildStep(w, j, Wake(t))
    ensures ItemsAlike(w, Do(w, Wake(t))) && Do(w, Wake(t)).jobs[j].stage == w.jobs[j].stage
    ensures ItemsLeft(Do(w, Wake(t)).jobs[j], Do(w, Wake(t)).sys.parts) < ItemsLeft(w.jobs[j], w.sys.parts)
  {
    WakesOwn(w, j, t);
    AfterWake(w, j, t);
    OneTold(w, Do(w, Wake(t)), j, t);
  }

  lemma FillStep(w: World, j: nat, e: Event)
    requires WorldInv(w) && ChildStep(w, j, OnBus(e)) && e.Fill?
    ensures ItemsAlike(w, Do(w, OnBus(e))) && Do(w, OnBus(e)).jobs == w.jobs
    ensures ItemsLeft(w.jobs[j], Do(w, OnBus(e)).sys.parts) < ItemsLeft(w.jobs[j], w.sys.parts)
  {
    MayHappenRuns(w, e);
    PullParts(w.sys, e);
    TransferLeaves(w.jobs[j], w.sys.parts, e.t, Pulled(w.sys.parts[e.t].state, e.k, true));
  }

  lemma EmptyStep(w: World, j: nat, e: Event)
    requires WorldInv(w) && ChildStep(w, j, OnBus(e)) && e.Empty?
    ensures ItemsAlike(w, Do(w, OnBus(e))) && Do(w, OnBus(e)).jobs == w.jobs
    ensures ItemsLeft(w.jobs[j], Do(w, OnBus(e)).sys.parts) < ItemsLeft(w.jobs[j], w.sys.parts)
  {
    MayHappenRuns(w, e);
    PushParts(w.sys, e);
    TransferLeaves(w.jobs[j], w.sys.parts, e.t, Pushed(w.sys.parts[e.t].state, e.k, true));
  }

  lemma UnloadKeeps(w: World, j: nat)
    requires WorldInv(w) && Allowed(w, Unload(j))
    ensures CanRun(w.sys, TurnEvents(w.jobs[j].parts))
    ensures Run(w.sys, TurnEvents(w.jobs[j].parts)).bus == w.sys.bus
    ensures |Run(w.sys, TurnEvents(w.jobs[j].parts)).phys| == |w.sys.phys|
  {
    assert OwnsAll(w.owner, j, w.jobs[j].parts);
    ChildrenLoaded(w.sys, w.jobs[j]);
    TurnsRun(w.sys, w.jobs[j].parts);
    BusRuns.RunKeepsSize(w.sys, TurnEvents(w.jobs[j].parts));
  }

  lemma UnloadStep(w: World, j: nat)
    requires WorldInv(w) && Allowed(w, Unload(j))
    ensures ItemsAlike(w, Do(w, Unload(j))) && Do(w, Unload(j)).jobs[j].stage == Unloading
  {
    UnloadKeeps(w, j);
    ApplyRuns(w.sys, TurnEvents(w.jobs[j].parts));
  }

  lemma ChildStepLess(w: World, j: nat, a: Action)
    requires WorldInv(w) && ChildStep(w, j, a)
    ensures ItemsAlike(w, Do(w, a)) && Do(w, a).jobs[j].stage == w.jobs[j].stage
    ensures ItemsLeft(Do(w, a).jobs[j], Do(w, a).sys.parts) < ItemsLeft(w.jobs[j], w.sys.parts)
  {
    match a
    case Wake(t) => WakeStep(w, j, t);
    case OnBus(e) => if e.Fill? { FillStep(w, j, e); } else { EmptyStep(w, j, e); }
  }

  lemma ItemMoveLess(f: Factory, j: nat, a: Action)
    requires FactoryInv(f) && Permitted(f, OfItems(a)) && ChildStep(f.world, j, a)
    ensures Alike(f, After(f, OfItems(a))) && Less(f, After(f, OfItems(a)), j)
  {
    OneAct(f.world, a);
    ChildStepLess(f.world, j, a);
  }

  lemma UnloadMoveLess(f: Factory, j: nat)
    requires FactoryInv(f) && Permitted(f, OfItems(Unload(j)))
    ensures Alike(f, After(f, OfItems(Unload(j)))) && Less(f, After(f, OfItems(Unload(j))), j)
  {
    OneAct(f.world, Unload(j));
    UnloadStep(f.world, j);
  }

  lemma OwnsTicket(f: Factory, j: nat, t: Ticket)
    requires FluidInv(f) && j in f.sides && t in f.sides[j].parts
    ensures t in f.owner && f.owner[t] == j && t in f.parts && j in f.world.jobs
  {
    assert OwnsAll(f.owner, j, f.sides[j].parts);
  }

  lemma OneSideLess(f: Factory, g: Factory, j: nat, t: Ticket, side: Side, state: FluidState)
    requires j in f.sides && j in f.world.jobs && side.parts == f.sides[j].parts && t in side.parts && t in f.parts
    requires FluidLeft(f.parts[t].(state := state)) < FluidLeft(f.parts[t])
    requires g == f.(sides := f.sides[j := side], parts := SetState(f.parts, t, state))
    ensures Alike(f, g) && Less(f, g, j)
  {
    FluidLeaves(f.sides[j], side, f.parts, t, state);
  }

  lemma AfterCount(f: Factory, m: Move, j: nat)
    requires (m.Draws? || m.Sends?) && m.t in f.parts && j in f.sides
    ensures After(f, m) == f.(sides := f.sides[j := f.sides[j]], parts := SetState(f.parts, m.t, Count(f.parts[m.t].state, m.ok)))
  {
    assert f.sides[j := f.sides[j]] == f.sides;
  }

  lemma CountLeavesLess(p: FluidPart, ok: bool)
    requires p.state.Seated() && p.state.rest > 0
    ensures FluidLeft(p.(state := Count(p.state, ok))) < FluidLeft(p)
  {}

  lemma CountMoveLess(f: Factory, j: nat, m: Move)
    requires FluidInv(f) && j in f.sides && (m.Draws? || m.Sends?) && m.t in f.sides[j].parts
    requires m.t in f.parts && f.parts[m.t].state.Seated() && f.parts[m.t].state.rest > 0
    ensures Alike(f, After(f, m)) && Less(f, After(f, m), j)
  {
    OwnsTicket(f, j, m.t);
    AfterCount(f, m, j);
    CountLeavesLess(f.parts[m.t], m.ok);
    OneSideLess(f, After(f, m), j, m.t, f.sides[j], Count(f.parts[m.t].state, m.ok));
  }

  lemma LearnMoveLess(f: Factory, j: nat, t: Ticket)
    requires FluidInv(f) && j in f.sides && t in f.sides[j].parts && t in f.parts && f.parts[t].state.Asked?
    ensures Alike(f, After(f, Learn(t))) && Less(f, After(f, Learn(t)), j)
  {
    OwnsTicket(f, j, t);
    var state := ToldState(SeatOf(f.fluid.held, t), f.parts[t].use);
    ToldAfter(f, t, state);
    OneSideLess(f, After(f, Learn(t)), j, t, Told(f.sides[j], t, state), state);
  }

  lemma FluidMoveLess(f: Factory, j: nat, m: Move)
    requires FactoryInv(f) && Permitted(f, m) && j in f.world.jobs && (m.Learn? || m.Draws? || m.Sends?)
    requires m.t in SideOf(f, j).parts
    ensures Alike(f, After(f, m)) && Less(f, After(f, m), j)
  {
    if m.Learn? {
      LearnMoveLess(f, j, m.t);
    } else {
      CountMoveLess(f, j, m);
    }
  }

  /** A step of a job, other than its last one, changes nothing for the others and leaves it less to do. */
  lemma OwnMoveLess(f: Factory, j: nat, m: Move)
    requires FactoryInv(f) && OwnMove(f, j, m) && !(m.OfItems? && EndOf(m.a).Some?)
    ensures Alike(f, After(f, m)) && Less(f, After(f, m), j)
  {
    if m.OfItems? {
      if m.a == Unload(j) {
        UnloadMoveLess(f, j);
      } else {
        ItemMoveLess(f, j, m.a);
      }
    } else {
      FluidMoveLess(f, j, m);
    }
  }

  // ----- what can still be reached

  /** Nobody asks anew, and nothing fails. */
  predicate Calm(m: Move) {
    match m
    case Learn(_) => true
    case Draws(_, ok) => ok
    case Sends(_, ok) => ok
    case OfItems(OnBus(e)) => e.Fill? || e.Empty? || e.Answer? || (e.Process? && e.room) || e.Store? || e.Finish?
    case OfItems(a) => !a.Begin?
    case OfFluids(e) => e.Answer? || e.Stored?
    case _ => false
  }

  predicate AllCalm(ms: seq<Move>) { forall i :: 0 <= i < |ms| ==> Calm(ms[i]) }

  ghost predicate Leads(f: Factory, ms: seq<Move>, g: Factory) { AllCalm(ms) && CanGo(f, ms) && Go(f, ms) == g }

  ghost predicate Reaches(f: Factory, g: Factory) { exists ms :: Leads(f, ms, g) }

  lemma ReachSelf(f: Factory)
    ensures Reaches(f, f)
  {
    assert Leads(f, [], f);
  }

  lemma LeadsCons(f: Factory, m: Move, ms: seq<Move>, g: Factory)
    requires Permitted(f, m) && Calm(m) && Leads(After(f, m), ms, g)
    ensures Leads(f, [m] + ms, g)
  {
    assert ([m] + ms)[1..] == ms;
  }

  lemma ReachStep(f: Factory, m: Move, g: Factory)
    requires Permitted(f, m) && Calm(m) && Reaches(After(f, m), g)
    ensures Reaches(f, g)
  {
    var ms :| Leads(After(f, m), ms, g);
    LeadsCons(f, m, ms, g);
  }

  lemma {:induction false} LeadsOn(f: Factory, ms: seq<Move>, g: Factory, h: Factory)
    requires Leads(f, ms, g) && Reaches(g, h)
    ensures Reaches(f, h)
    decreases |ms|
  {
    if ms != [] {
      assert forall i :: 0 <= i < |ms[1..]| ==> ms[1..][i] == ms[i + 1];
      assert Leads(After(f, ms[0]), ms[1..], g);
      LeadsOn(After(f, ms[0]), ms[1..], g, h);
      ReachStep(f, ms[0], h);
    }
  }

  lemma ReachOn(f: Factory, g: Factory, h: Factory)
    requires Reaches(f, g) && Reaches(g, h)
    ensures Reaches(f, h)
  {
    var ms :| Leads(f, ms, g);
    LeadsOn(f, ms, g, h);
  }

  lemma ReachOne(f: Factory, m: Move)
    requires Permitted(f, m) && Calm(m)
    ensures Reaches(f, After(f, m))
  {
    ReachSelf(After(f, m));
    ReachStep(f, m, After(f, m));
  }

  lemma OwnMoveIsCalm(f: Factory, j: nat, m: Move)
    requires OwnMove(f, j, m)
    ensures Permitted(f, m) && Calm(m)
  {}

  lemma NextMove(f: Factory, j: nat) returns (m: Move)
    requires FactoryInv(f) && Live(f, j) && AtEase(f, j)
    ensures OwnMove(f, j, m)
  {
    if f.world.jobs[j].stage.Loading? {
      m := LoadingMove(f, j);
    } else {
      m := UnloadingMove(f, j);
    }
  }

  function Rank(f: Factory, j: nat): nat { if j in f.world.jobs && f.world.jobs[j].stage.Loading? then 1 else 0 }

  function ToDo(f: Factory, j: nat): nat { if j in f.world.jobs then Left(f, j) else 0 }

  lemma LessToDo(f: Factory, g: Factory, j: nat)
    requires Less(f, g, j)
    ensures Rank(g, j) < Rank(f, j) || (Rank(g, j) == Rank(f, j) && ToDo(g, j) < ToDo(f, j))
  {}

  lemma AlikeLive(f: Factory, g: Factory, j: nat)
    requires FluidInv(f) && Alike(f, g) && Live(f, j) && AtEase(f, j)
    ensures Live(g, j) && AtEase(g, j)
  {
    AlikeAtEase(f, g, j);
  }

  /** The job has done everything but to return what it has. */
  ghost predicate AboutToEnd(g: Factory, j: nat, a: Action) {
    EndOf(a).Some? && EndOf(a).value.0 == j && Permitted(g, OfItems(a))
  }

  lemma AlikeSelf(f: Factory)
    ensures Alike(f, f)
  {}

  /** A job at ease comes to its last step, whatever the others do not do. */
  lemma {:induction false} WorkIsDone(f: Factory, j: nat) returns (g: Factory, a: Action)
    requires FactoryInv(f) && Live(f, j) && AtEase(f, j)
    ensures Reaches(f, g) && FactoryInv(g) && Alike(f, g) && AboutToEnd(g, j, a)
    decreases Rank(f, j), ToDo(f, j)
  {
    var m := NextMove(f, j);
    OwnMoveIsCalm(f, j, m);
    if m.OfItems? && EndOf(m.a).Some? {
      ReachSelf(f);
      AlikeSelf(f);
      g, a := f, m.a;
    } else {
      var f1 := After(f, m);
      MoveRefines(f, m);
      OwnMoveLess(f, j, m);
      LessToDo(f, f1, j);
      AlikeLive(f, f1, j);
      g, a := WorkIsDone(f1, j);
      ReachStep(f, m, g);
      AlikeMore(f, f1, g);
    }
  }
}
