/** Nobody waits for ever, if no job needs more slots or fluid buses than there are and the fluid bus forgets nobody: the job
    that has begun first among those that have not ended waits for nothing, on either bus. */
module FactoryProgress {
  import opened Common
  import opened Bus
  import opened BusSystem
  import opened BusJobs
  import opened Lines
  import opened JobRuns
  import opened JobProgress
  import opened FactoryRuns
  import F = FluidBus

  predicate WaitsForFluid(f: Factory, j: nat) {
    exists t :: t in SideOf(f, j).parts && t in f.fluid.bus.waiters
  }

  /** The job waits for no slot and no fluid bus. */
  predicate AtEase(f: Factory, j: nat) { !Waits(f.world, j) && !WaitsForFluid(f, j) }

  predicate Live(f: Factory, j: nat) { j in f.world.jobs && !f.world.jobs[j].stage.Ended? }

  /** The job begun as number i is the first of those that have not ended. */
  predicate First(f: Factory, i: nat) {
    i < |f.world.log| && Live(f, f.world.log[i]) && forall k :: 0 <= k < i ==> !Live(f, f.world.log[k])
  }

  predicate FluidsFit(f: Factory) { forall j :: j in f.sides ==> |f.sides[j].parts| <= f.fluid.n }

  predicate AllFit(f: Factory) { JobsFit(f.world) && FluidsFit(f) }

  lemma {:induction false} FirstExists(f: Factory, n: nat) returns (i: nat)
    requires n < |f.world.log| && Live(f, f.world.log[n])
    ensures First(f, i)
    decreases n
  {
    if k :| 0 <= k < n && Live(f, f.world.log[k]) {
      i := FirstExists(f, k);
    } else {
      i := n;
    }
  }

  lemma InLog(f: Factory, j: nat) returns (n: nat)
    requires WorldInv(f.world) && j in f.world.jobs
    ensures n < |f.world.log| && f.world.log[n] == j && Distinct(f.world.log)
  {
    n :| 0 <= n < |f.world.log| && f.world.log[n] == j;
  }

  lemma LiveHasFirst(f: Factory, j: nat) returns (i: nat)
    requires WorldInv(f.world) && Live(f, j)
    ensures First(f, i)
  {
    var n := InLog(f, j);
    i := FirstExists(f, n);
  }

  lemma NotBeforeFirst(f: Factory, i: nat, k: nat)
    requires First(f, i) && k < |f.world.log| && Live(f, f.world.log[k])
    ensures i <= k
  {}

  // ----- the first one waits for no slot

  lemma HoldersJobIsLive(w: World, x: nat)
    requires WorldInv(w) && x in w.sys.held
    ensures var t := w.sys.held[x];
      && t in w.owner && w.owner[t] in w.jobs && !w.jobs[w.owner[t]].stage.Ended? && t in w.jobs[w.owner[t]].parts
      && t !in w.sys.bus.waiters
  {
    HolderIn(w, x);
    var t := w.sys.held[x];
    assert Staged(w.jobs[w.owner[t]], w.sys.parts);
  }

  lemma LaterHasNoSlot(w: World, i: nat, k: nat, t: Ticket, u: Ticket)
    requires WorldInv(w) && i < k < |w.log| && w.log[i] in w.jobs && w.log[k] in w.jobs
    requires t in w.jobs[w.log[i]].parts && t in w.sys.bus.waiters && u in w.jobs[w.log[k]].parts
    ensures u in w.sys.bus.waiters
  {
    PartsApart(w);
    LaterWaits(w.log, PartsOf(w.jobs), w.sys.bus.waiters, i, k, t, u);
  }

  /** Who holds a slot has not begun after a job that waits for one. */
  lemma HolderIsBefore(w: World, i: nat, k: nat, t: Ticket, x: nat)
    requires WorldInv(w) && i < |w.log| && k < |w.log| && w.log[i] in w.jobs && w.log[k] in w.jobs && x in w.sys.held
    requires w.sys.held[x] in w.jobs[w.log[k]].parts && w.sys.held[x] !in w.sys.bus.waiters
    requires t in w.jobs[w.log[i]].parts && t in w.sys.bus.waiters
    ensures k <= i
  {
    if k > i {
      LaterHasNoSlot(w, i, k, t, w.sys.held[x]);
    }
  }

  lemma HolderAt(f: Factory, x: nat) returns (k: nat)
    requires WorldInv(f.world) && x in f.world.sys.held
    ensures k < |f.world.log| && Live(f, f.world.log[k])
    ensures f.world.sys.held[x] in f.world.owner && f.world.owner[f.world.sys.held[x]] == f.world.log[k]
    ensures f.world.sys.held[x] in f.world.jobs[f.world.log[k]].parts && f.world.sys.held[x] !in f.world.sys.bus.waiters
  {
    HoldersJobIsLive(f.world, x);
    k := InLog(f, f.world.owner[f.world.sys.held[x]]);
  }

  lemma HolderNotLater(f: Factory, i: nat, t: Ticket, x: nat, k: nat)
    requires WorldInv(f.world) && First(f, i) && x in f.world.sys.held
    requires t in f.world.jobs[f.world.log[i]].parts && t in f.world.sys.bus.waiters
    requires k < |f.world.log| && Live(f, f.world.log[k])
    requires f.world.sys.held[x] in f.world.jobs[f.world.log[k]].parts && f.world.sys.held[x] !in f.world.sys.bus.waiters
    ensures k == i
  {
    HolderIsBefore(f.world, i, k, t, x);
    NotBeforeFirst(f, i, k);
  }

  lemma HolderIsFirst(f: Factory, i: nat, t: Ticket, x: nat)
    requires WorldInv(f.world) && First(f, i) && x in f.world.sys.held
    requires t in f.world.jobs[f.world.log[i]].parts && t in f.world.sys.bus.waiters
    ensures f.world.sys.held[x] in f.world.owner && f.world.owner[f.world.sys.held[x]] == f.world.log[i]
  {
    var k := HolderAt(f, x);
    HolderNotLater(f, i, t, x, k);
  }

  lemma FirstHasSlots(f: Factory, i: nat)
    requires WorldInv(f.world) && First(f, i) && f.world.sys.phase.Idle? && JobsFit(f.world)
    ensures !Waits(f.world, f.world.log[i])
  {
    var j := f.world.log[i];
    if t :| t in f.world.jobs[j].parts && t in f.world.sys.bus.waiters {
      forall x | 0 <= x < |f.world.sys.phys| ensures x in f.world.sys.held && f.world.owner[f.world.sys.held[x]] == j {
        HolderIsFirst(f, i, t, x);
      }
      StraddlerFull(f.world, j, t);
      assert false;
    }
  }

  // ----- the first one waits for no fluid bus

  lemma SidesApart(f: Factory)
    requires FluidInv(f)
    ensures Apart(FluidTickets(f.sides))
  {
    forall j, k, t | j in f.sides && k in f.sides && t in f.sides[j].parts && t in f.sides[k].parts ensures j == k {
      assert OwnsAll(f.owner, j, f.sides[j].parts) && OwnsAll(f.owner, k, f.sides[k].parts);
    }
  }

  lemma BusHolderIsLive(f: Factory, x: nat)
    requires FluidInv(f) && x in f.fluid.held
    ensures var t := f.fluid.held[x];
      && t in f.owner && Live(f, f.owner[t]) && t in SideOf(f, f.owner[t]).parts && t !in f.fluid.bus.waiters
      && f.owner[t] in f.sides
  {
    var t := f.fluid.held[x];
    OwnerSide(f, t);
  }

  lemma BusHolderIsBefore(f: Factory, i: nat, k: nat, t: Ticket, x: nat)
    requires FluidInv(f) && Distinct(f.world.log) && i < |f.world.log| && k < |f.world.log| && x in f.fluid.held
    requires f.fluid.held[x] in f.owner && f.owner[f.fluid.held[x]] == f.world.log[k] && f.world.log[k] in f.sides
    requires f.world.log[i] in f.sides && t in f.sides[f.world.log[i]].parts && t in f.fluid.bus.waiters
    ensures k <= i
  {
    BusHolderIsLive(f, x);
    if k > i {
      SidesApart(f);
      LaterWaits(f.world.log, FluidTickets(f.sides), f.fluid.bus.waiters, i, k, t, f.fluid.held[x]);
    }
  }

  lemma SidesOfJobs(f: Factory)
    requires FluidInv(f)
    ensures f.sides.Keys == f.world.jobs.Keys
  {}

  lemma HolderPlace(f: Factory, x: nat) returns (k: nat)
    requires WorldInv(f.world) && FluidInv(f) && x in f.fluid.held
    ensures k < |f.world.log| && Live(f, f.world.log[k]) && f.world.log[k] in f.sides && Distinct(f.world.log)
    ensures f.fluid.held[x] in f.owner && f.owner[f.fluid.held[x]] == f.world.log[k]
  {
    BusHolderIsLive(f, x);
    SidesOfJobs(f);
    k := InLog(f, f.owner[f.fluid.held[x]]);
  }

  lemma BusHolderIsFirst(f: Factory, i: nat, t: Ticket, x: nat)
    requires FactoryInv(f) && First(f, i) && x in f.fluid.held
    requires t in SideOf(f, f.world.log[i]).parts && t in f.fluid.bus.waiters
    ensures f.fluid.held[x] in f.owner && f.owner[f.fluid.held[x]] == f.world.log[i]
  {
    var k := HolderPlace(f, x);
    NotBeforeFirst(f, i, k);
    BusHolderIsBefore(f, i, k, t, x);
  }

  lemma HeldInSide(f: Factory, x: nat, j: nat, t: Ticket)
    requires FluidInv(f) && x in f.fluid.held && f.fluid.held[x] in f.owner && f.owner[f.fluid.held[x]] == j
    requires t in f.fluid.bus.waiters
    ensures j in f.sides && f.fluid.held[x] in f.sides[j].parts && f.fluid.held[x] != t
  {
    BusHolderIsLive(f, x);
  }

  /** With all buses held by one job that also waits, it would need more than there are. */
  lemma BusesFull(f: Factory, j: nat, t: Ticket)
    requires FluidInv(f) && j in f.sides && t in f.sides[j].parts && t in f.fluid.bus.waiters
    requires forall x :: 0 <= x < f.fluid.n ==>
      x in f.fluid.held && f.fluid.held[x] in f.owner && f.owner[f.fluid.held[x]] == j
    ensures f.fluid.n < |f.sides[j].parts|
  {
    forall x | 0 <= x < f.fluid.n ensures f.fluid.held[x] in f.sides[j].parts && f.fluid.held[x] != t {
      HeldInSide(f, x, j, t);
    }
    HoldersAndOneMore(f.fluid.held, f.fluid.n, f.sides[j].parts, t);
  }

  lemma FirstHasBuses(f: Factory, i: nat)
    requires FactoryInv(f) && First(f, i) && f.fluid.phase.Idle? && F.Awake(f.fluid) && FluidsFit(f)
    ensures !WaitsForFluid(f, f.world.log[i])
  {
    var j := f.world.log[i];
    if t :| t in SideOf(f, j).parts && t in f.fluid.bus.waiters {
      forall x | 0 <= x < f.fluid.n
        ensures x in f.fluid.held && f.fluid.held[x] in f.owner && f.owner[f.fluid.held[x]] == j
      {
        BusHolderIsFirst(f, i, t, x);
      }
      BusesFull(f, j, t);
      assert false;
    }
  }

  // ----- a job at ease goes on

  /** A step that a job takes itself, or the answer to one of its requests. */
  ghost predicate OwnMove(f: Factory, j: nat, m: Move) {
    Permitted(f, m) && j in f.world.jobs &&
    match m
    case Learn(t) => t in SideOf(f, j).parts
    case Draws(t, ok) => t in SideOf(f, j).parts && ok
    case Sends(t, ok) => t in SideOf(f, j).parts && ok
    case OfItems(a) => ChildStep(f.world, j, a) || a == Unload(j) || (EndOf(a).Some? && EndOf(a).value.0 == j)
    case _ => false
  }

  lemma ItemMove(f: Factory, j: nat, a: Action)
    requires ChildStep(f.world, j, a)
    ensures OwnMove(f, j, OfItems(a))
  {}

  lemma MixedSide(f: Factory, j: nat)
    requires FluidInv(f) && j in f.world.jobs && f.sides[j].parts != []
    ensures f.world.jobs[j].kind.Mixed?
  {}

  lemma AllWellOrMixed(f: Factory, j: nat)
    requires FluidInv(f) && j in f.world.jobs
    ensures f.world.jobs[j].kind.Mixed? || (AllDrawnWell(SideOf(f, j), f.parts) && AllSentWell(SideOf(f, j), f.parts))
  {
    if f.sides[j].parts != [] {
      MixedSide(f, j);
    }
  }

  lemma LoadedMove(f: Factory, j: nat)
    requires FluidInv(f) && InStage(f.world, j, Loading)
    requires AllChildrenDone(f.world.jobs[j], f.world.sys.parts) && AllDrawn(SideOf(f, j), f.parts)
    ensures OwnMove(f, j, OfItems(Unload(j))) || OwnMove(f, j, OfItems(Abandon(j)))
  {
    AllWellOrMixed(f, j);
  }

  lemma UnloadedMove(f: Factory, j: nat)
    requires FluidInv(f) && InStage(f.world, j, Unloading)
    requires AllOutDone(f.world.jobs[j], f.world.sys.parts) && AllSent(SideOf(f, j), f.parts)
    ensures OwnMove(f, j, OfItems(Complete(j))) || OwnMove(f, j, OfItems(GiveUp(j)))
  {
    AllWellOrMixed(f, j);
  }

  function NextDraw(f: Factory, t: Ticket): Move {
    if t in f.parts && f.parts[t].state.Asked? then Learn(t) else Draws(t, true)
  }

  lemma FluidChildCanMove(f: Factory, j: nat, t: Ticket)
    requires FluidInv(f) && j in f.world.jobs && f.world.jobs[j].stage.Loading? && t in SideOf(f, j).parts
    requires t !in f.fluid.bus.waiters && !Drawn(t, f.parts)
    ensures OwnMove(f, j, NextDraw(f, t))
  {
    assert SideOk(f.world.jobs[j].stage, f.sides[j], f.parts);
  }

  lemma FluidOutCanMove(f: Factory, j: nat, t: Ticket)
    requires FluidInv(f) && j in f.world.jobs && f.world.jobs[j].stage.Unloading? && t in SideOf(f, j).parts
    requires !Sent(t, f.parts)
    ensures OwnMove(f, j, Sends(t, true))
  {
    assert SideOk(f.world.jobs[j].stage, f.sides[j], f.parts);
  }

  /** What a task does next while the job loads, and while it unloads. */
  function NextPull(w: World, j: nat, t: Ticket): Action {
    if j in w.jobs && t !in w.jobs[j].slotsToFree then Wake(t) else OnBus(Fill(t, 0, FirstLeft(w, t)))
  }

  function NextPush(w: World, t: Ticket): Action { OnBus(Empty(t, 0, FirstLeft(w, t))) }

  lemma PullNext(f: Factory, j: nat, t: Ticket)
    requires WorldInv(f.world) && InStage(f.world, j, Loading) && !Waits(f.world, j)
    requires t in f.world.jobs[j].parts && !ChildDone(f.world.jobs[j], t, f.world.sys.parts)
    ensures OwnMove(f, j, OfItems(NextPull(f.world, j, t)))
  {
    ChildCanMove(f.world, j, t);
    ItemMove(f, j, NextPull(f.world, j, t));
  }

  lemma PushNext(f: Factory, j: nat, t: Ticket)
    requires WorldInv(f.world) && InStage(f.world, j, Unloading)
    requires t in f.world.jobs[j].parts && !OutDone(t, f.world.sys.parts)
    ensures OwnMove(f, j, OfItems(NextPush(f.world, t)))
  {
    OutCanMove(f.world, j, t);
    ItemMove(f, j, NextPush(f.world, t));
  }

  lemma LoadingMove(f: Factory, j: nat) returns (m: Move)
    requires FactoryInv(f) && InStage(f.world, j, Loading) && AtEase(f, j)
    ensures OwnMove(f, j, m)
  {
    var job := f.world.jobs[j];
    if i :| 0 <= i < |job.parts| && !ChildDone(job, job.parts[i], f.world.sys.parts) {
      PullNext(f, j, job.parts[i]);
      m := OfItems(NextPull(f.world, j, job.parts[i]));
    } else if t :| t in SideOf(f, j).parts && !Drawn(t, f.parts) {
      FluidChildCanMove(f, j, t);
      m := NextDraw(f, t);
    } else {
      LoadedMove(f, j);
      m := if OwnMove(f, j, OfItems(Unload(j))) then OfItems(Unload(j)) else OfItems(Abandon(j));
    }
  }

  lemma UnloadingMove(f: Factory, j: nat) returns (m: Move)
    requires FactoryInv(f) && InStage(f.world, j, Unloading)
    ensures OwnMove(f, j, m)
  {
    var job := f.world.jobs[j];
    if i :| 0 <= i < |job.parts| && !OutDone(job.parts[i], f.world.sys.parts) {
      PushNext(f, j, job.parts[i]);
      m := OfItems(NextPush(f.world, job.parts[i]));
    } else if t :| t in SideOf(f, j).parts && !Sent(t, f.parts) {
      FluidOutCanMove(f, j, t);
      m := Sends(t, true);
    } else {
      UnloadedMove(f, j);
      m := if OwnMove(f, j, OfItems(Complete(j))) then OfItems(Complete(j)) else OfItems(GiveUp(j));
    }
  }

  /** A job that waits for nothing and has not ended can go on by itself, or as soon as a request of its own is answered. */
  lemma JobCanMove(f: Factory, j: nat)
    requires FactoryInv(f) && Live(f, j) && AtEase(f, j)
    ensures exists m :: OwnMove(f, j, m)
  {
    var m: Move;
    if f.world.jobs[j].stage.Loading? {
      m := LoadingMove(f, j);
    } else {
      m := UnloadingMove(f, j);
    }
  }

  /** A step of a background task in which nothing fails. */
  ghost predicate TaskMove(f: Factory, m: Move) {
    || (m.OfItems? && TaskStep(f.world, m.a) && Joined(f, m.a))
    || (m.OfFluids? && (m.e.Answer? || m.e.Stored?) && Permitted(f, m))
  }

  /** All buses that nobody has. */
  function FreeBuses(s: F.System): (xs: seq<nat>)
    ensures Distinct(xs) && forall x: nat :: x in xs <==> x < s.n && x !in s.bus.allocations
  {
    FreeSlots(seq(s.n, i => 0), s.bus.allocations)
  }

  lemma AllListed(s: F.System)
    requires s.phase.Reading?
    ensures F.Enabled(s, F.Answer(FreeBuses(s), []))
  {}

  lemma FluidTaskCanMove(f: Factory)
    requires !f.fluid.phase.Idle?
    ensures exists m :: TaskMove(f, m)
  {
    if f.fluid.phase.Reading? {
      AllListed(f.fluid);
      assert TaskMove(f, OfFluids(F.Answer(FreeBuses(f.fluid), [])));
    } else {
      assert TaskMove(f, OfFluids(F.Stored));
    }
  }

  lemma ItemTaskCanMove(f: Factory)
    requires WorldInv(f.world) && !f.world.sys.phase.Idle?
    ensures exists m :: TaskMove(f, m)
  {
    TaskCanMove(f.world);
    var a :| TaskStep(f.world, a);
    assert TaskMove(f, OfItems(a));
  }

  /** In the run no step of the fluid bus's task has passed anybody over. */
  ghost predicate NobodyForgotten(f: Factory, ms: seq<Move>) {
    F.CanRun(f.fluid, FluidRun(f, ms)) && F.NeverForgets(f.fluid, FluidRun(f, ms))
  }

  lemma FluidsAwake(phys: seq<nat>, buses: nat, ms: seq<Move>)
    requires CanGo(FactoryStart(phys, buses), ms)
    ensures FactoryInv(Go(FactoryStart(phys, buses), ms))
    ensures NobodyForgotten(FactoryStart(phys, buses), ms) ==> F.Awake(Go(FactoryStart(phys, buses), ms).fluid)
  {
    FactoryStartInv(phys, buses);
    FactoryRefines(FactoryStart(phys, buses), ms);
    F.WaitersAreServedUnlessForgotten(buses, FluidRun(FactoryStart(phys, buses), ms));
  }

  ghost predicate TasksGoOn(f: Factory) { exists m :: TaskMove(f, m) }

  /** The job that has begun first waits for nothing, and can go on. */
  ghost predicate FirstGoesOn(f: Factory) {
    exists i: nat, m :: First(f, i) && AtEase(f, f.world.log[i]) && OwnMove(f, f.world.log[i], m)
  }

  lemma FirstCanGoOn(f: Factory, j: nat)
    requires FactoryInv(f) && Live(f, j) && AllFit(f)
    requires f.world.sys.phase.Idle? && f.fluid.phase.Idle? && F.Awake(f.fluid)
    ensures FirstGoesOn(f)
  {
    var i := LiveHasFirst(f, j);
    FirstHasSlots(f, i);
    FirstHasBuses(f, i);
    JobCanMove(f, f.world.log[i]);
  }

  /** As long as a job has not ended, none needs more slots or buses than there are, and nobody has been forgotten: one of the
      two background tasks can go on, or the job that has begun first can, which waits for nothing. Nothing has to fail. */
  lemma NeverStuck(phys: seq<nat>, buses: nat, ms: seq<Move>, j: nat)
    requires CanGo(FactoryStart(phys, buses), ms) && NobodyForgotten(FactoryStart(phys, buses), ms)
    requires Live(Go(FactoryStart(phys, buses), ms), j) && AllFit(Go(FactoryStart(phys, buses), ms))
    ensures TasksGoOn(Go(FactoryStart(phys, buses), ms)) || FirstGoesOn(Go(FactoryStart(phys, buses), ms))
  {
    FluidsAwake(phys, buses, ms);
    var f := Go(FactoryStart(phys, buses), ms);
    if !f.world.sys.phase.Idle? {
      ItemTaskCanMove(f);
    } else if !f.fluid.phase.Idle? {
      FluidTaskCanMove(f);
    } else {
      FirstCanGoOn(f, j);
    }
  }
}
