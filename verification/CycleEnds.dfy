/** As long as nobody has been forgotten and every job fits, the cycle can come to its end, whatever has happened, and nothing
    has to fail for that: the background tasks come to rest, the job that has begun first is then at ease, and when it has
    ended, the next one is. */
module CycleEnds {
  import opened Common
  import opened Bus
  import opened BusSystem
  import BusRuns
  import opened BusJobs
  import opened JobRuns
  import opened JobProgress
  import opened FactoryRuns
  import opened FactoryProgress
  import opened Futures
  import F = FluidBus

  // ----- the task of the item bus comes to rest

  /** What the background task does when nothing fails. */
  predicate Quietly(e: Event) { e.Answer? || (e.Process? && e.room) || e.Store? || e.Finish? }

  ghost predicate QuietRun(s: System, es: seq<Event>, s': System) {
    (forall i :: 0 <= i < |es| ==> Quietly(es[i])) && CanRun(s, es) && Run(s, es) == s'
  }

  lemma QuietCons(s: System, e: Event, es: seq<Event>, s': System)
    requires Quietly(e) && Enabled(s, e) && QuietRun(Step(s, e), es, s')
    ensures QuietRun(s, [e] + es, s')
  {
    RunCons(s, e, es);
  }

  lemma QuietAppend(s: System, es: seq<Event>, s1: System, fs: seq<Event>, s2: System)
    requires QuietRun(s, es, s1) && QuietRun(s1, fs, s2)
    ensures QuietRun(s, es + fs, s2)
  {
    RunAppend(s, es, fs);
  }

  lemma SumSet(xs: seq<nat>, i: nat, x: nat)
    requires i < |xs|
    ensures Sum(xs[i := x]) == Sum(xs) - xs[i] + x
  {
    assert xs == xs[..i] + ([xs[i]] + xs[i + 1..]);
    assert xs[i := x] == xs[..i] + ([x] + xs[i + 1..]);
    SumAppend(xs[..i], [xs[i]] + xs[i + 1..]);
    SumAppend(xs[..i], [x] + xs[i + 1..]);
  }

  predicate SlotsKnown(pending: seq<Transfer>, n: nat) {
    forall i :: 0 <= i < |pending| ==> pending[i].slot < n
  }

  /** The first transfer moves something. */
  predicate MovesSome(pending: seq<Transfer>, phys: seq<nat>) {
    pending != [] && pending[0].slot < |phys| && pending[0].amount > 0 && phys[pending[0].slot] > 0
  }

  lemma StoreFirst(s: System)
    requires s.phase.Storing? && s.phase.pending != [] && SlotsKnown(s.phase.pending, |s.phys|)
    ensures Enabled(s, Store(0))
    ensures var s1 := Step(s, Store(0));
      && s1.phase == Storing(s.phase.pending[1..], s.phase.failed) && s1.bus == s.bus && |s1.phys| == |s.phys|
      && SlotsKnown(s1.phase.pending, |s1.phys|) && Sum(s1.phys) <= Sum(s.phys)
      && (MovesSome(s.phase.pending, s.phys) ==> Sum(s1.phys) < Sum(s.phys))
  {
    assert StoringOne(s, 0);
    assert RemoveAt(s.phase.pending, 0) == s.phase.pending[1..];
    var slot := s.phase.pending[0].slot;
    SumSet(s.phys, slot, s.phys[slot] - StoreRoom(s, 0));
  }

  /** All stacks are stored away. */
  lemma {:induction false} StoreAll(s: System) returns (es: seq<Event>, s': System)
    requires s.phase.Storing? && SlotsKnown(s.phase.pending, |s.phys|)
    ensures QuietRun(s, es, s') && s'.phase == Storing([], s.phase.failed) && s'.bus == s.bus && |s'.phys| == |s.phys|
    ensures Sum(s'.phys) <= Sum(s.phys) && (MovesSome(s.phase.pending, s.phys) ==> Sum(s'.phys) < Sum(s.phys))
    decreases |s.phase.pending|
  {
    if s.phase.pending == [] {
      es, s' := [], s;
    } else {
      StoreFirst(s);
      es, s' := StoreAll(Step(s, Store(0)));
      QuietCons(s, Store(0), es, s');
      es := [Store(0)] + es;
    }
  }

  /** The task has ended, or goes round once more with nothing queued. */
  predicate Round(s: System, s': System) {
    && (s'.phase.Idle? || (s'.phase.Requested? && s'.bus.freeQueue == []))
    && |s'.phys| == |s.phys| && Sum(s'.phys) <= Sum(s.phys)
  }

  lemma FinishRound(s: System) returns (es: seq<Event>, s': System)
    requires s.phase.Storing? && SlotsKnown(s.phase.pending, |s.phys|)
    ensures QuietRun(s, es, s') && Round(s, s')
    ensures s'.phase.Requested? && MovesSome(s.phase.pending, s.phys) ==> Sum(s'.phys) < Sum(s.phys)
  {
    var s1: System;
    es, s1 := StoreAll(s);
    s' := Step(s1, Finish);
    OneRuns(s1, Finish);
    QuietAppend(s, es, s1, [Finish], s');
    es := es + [Finish];
  }

  lemma PlanMovesSome(listing: seq<nat>, allocations: set<nat>)
    ensures PlanAll(listing, allocations) != [] ==> MovesSome(PlanAll(listing, allocations), listing)
  {}

  /** The step with which the task takes a listing: it plans to store everything away, or has nothing to store. */
  lemma ListingTaken(s: System, plan: seq<Transfer>)
    requires s.phase.Answered? && |s.phase.listing| == |s.phys| && plan == PlanAll(s.phase.listing, s.bus.allocations)
    ensures Enabled(s, Process(plan, true)) && Step(s, Process(plan, true)).phys == s.phys
    ensures plan != [] ==> Step(s, Process(plan, true)).phase == Storing(plan, false) && SlotsKnown(plan, |s.phys|)
    ensures plan == [] ==>
      var s1 := Step(s, Process(plan, true)); Round(s, s1) && (s1.phase.Requested? ==> s.bus.freeQueue != [])
  {
    PlanAllFits(s.phase.listing, s.bus.allocations);
    GiveAllServes(s.bus, FreeSlots(s.phase.listing, s.bus.allocations));
  }

  /** From a listing to the end of the round. If the listing is new and nothing was queued, another round means that something
      was stored away. */
  lemma AnswerRound(s: System) returns (es: seq<Event>, s': System)
    requires s.phase.Answered? && |s.phase.listing| == |s.phys|
    ensures QuietRun(s, es, s') && Round(s, s')
    ensures s'.phase.Requested? && s.phase.listing == s.phys && s.bus.freeQueue == [] ==> Sum(s'.phys) < Sum(s.phys)
  {
    var plan := PlanAll(s.phase.listing, s.bus.allocations);
    var e := Process(plan, true);
    ListingTaken(s, plan);
    OneRuns(s, e);
    var s1 := Step(s, e);
    if plan == [] {
      es, s' := [e], s1;
    } else {
      PlanMovesSome(s.phase.listing, s.bus.allocations);
      es, s' := FinishRound(s1);
      QuietCons(s, e, es, s');
      es := [e] + es;
    }
  }

  function Queued(s: System): nat { if s.bus.freeQueue == [] then 0 else 1 }

  lemma {:induction false} RequestRests(s: System) returns (es: seq<Event>, s': System)
    requires s.phase.Requested?
    ensures QuietRun(s, es, s') && s'.phase.Idle?
    decreases Queued(s), Sum(s.phys)
  {
    var s1 := Step(s, Answer);
    var s2: System;
    es, s2 := AnswerRound(s1);
    QuietCons(s, Answer, es, s2);
    es := [Answer] + es;
    s' := s2;
    if s2.phase.Requested? {
      var fs: seq<Event>;
      fs, s' := RequestRests(s2);
      QuietAppend(s, es, s2, fs, s');
      es := es + fs;
    }
  }

  ghost predicate TaskOk(s: System) {
    match s.phase
    case Answered(listing) => |listing| == |s.phys|
    case Storing(pending, _) => SlotsKnown(pending, |s.phys|)
    case _ => true
  }

  /** However far the task has got, it can come to rest without a failure. */
  lemma TaskRests(s: System) returns (es: seq<Event>, s': System)
    requires TaskOk(s)
    ensures QuietRun(s, es, s') && s'.phase.Idle?
  {
    if s.phase.Idle? {
      es, s' := [], s;
    } else if s.phase.Requested? {
      es, s' := RequestRests(s);
    } else {
      var s1: System;
      if s.phase.Answered? {
        es, s1 := AnswerRound(s);
      } else {
        es, s1 := FinishRound(s);
      }
      s' := s1;
      if s1.phase.Requested? {
        var fs: seq<Event>;
        fs, s' := RequestRests(s1);
        QuietAppend(s, es, s1, fs, s');
        es := es + fs;
      }
    }
  }

  // ----- and so in the factory

  function WithSys(f: Factory, s: System): Factory { f.(world := f.world.(sys := s)) }

  lemma AfterTaskStep(f: Factory, e: Event)
    requires Enabled(f.world.sys, e) && Apply(f.world.sys, [e]) == Step(f.world.sys, e)
    ensures After(f, OfItems(OnBus(e))) == WithSys(f, Step(f.world.sys, e))
  {
    OneAct(f.world, OnBus(e));
  }

  lemma OneApplied(s: System, e: Event)
    requires Enabled(s, e)
    ensures Apply(s, [e]) == Step(s, e)
  {
    OneRuns(s, e);
    ApplyRuns(s, [e]);
  }

  lemma TaskStepMay(f: Factory, e: Event)
    requires Enabled(f.world.sys, e) && Quietly(e)
    ensures Permitted(f, OfItems(OnBus(e))) && Calm(OfItems(OnBus(e)))
  {}

  lemma TaskStepReaches(f: Factory, e: Event)
    requires FactoryInv(f) && Enabled(f.world.sys, e) && Quietly(e)
    ensures FactoryInv(WithSys(f, Step(f.world.sys, e))) && Reaches(f, WithSys(f, Step(f.world.sys, e)))
  {
    var m := OfItems(OnBus(e));
    TaskStepMay(f, e);
    OneApplied(f.world.sys, e);
    AfterTaskStep(f, e);
    MoveRefines(f, m);
    ReachOne(f, m);
  }

  lemma QuietFirst(s: System, es: seq<Event>, s': System)
    requires QuietRun(s, es, s') && es != []
    ensures Enabled(s, es[0]) && Quietly(es[0]) && QuietRun(Step(s, es[0]), es[1..], s')
  {
    assert forall i :: 0 <= i < |es[1..]| ==> es[1..][i] == es[i + 1];
  }

  lemma {:induction false} TaskReaches(f: Factory, es: seq<Event>, s: System)
    requires FactoryInv(f) && QuietRun(f.world.sys, es, s)
    ensures FactoryInv(WithSys(f, s)) && Reaches(f, WithSys(f, s))
    decreases |es|
  {
    if es == [] {
      ReachSelf(f);
      assert WithSys(f, s) == f;
    } else {
      QuietFirst(f.world.sys, es, s);
      var s1 := Step(f.world.sys, es[0]);
      TaskStepReaches(f, es[0]);
      TaskReaches(WithSys(f, s1), es[1..], s);
      assert WithSys(WithSys(f, s1), s) == WithSys(f, s);
      ReachOn(f, WithSys(f, s1), WithSys(f, s));
    }
  }

  lemma SysTaskOk(s: System)
    requires Inv(s)
    ensures TaskOk(s)
  {}

  /** The item bus's task comes to rest; nothing else changes but who has got slots. */
  lemma ItemTaskRests(f: Factory) returns (g: Factory)
    requires FactoryInv(f)
    ensures FactoryInv(g) && Reaches(f, g) && g.world.sys.phase.Idle?
    ensures g == WithSys(f, g.world.sys) && |g.world.sys.phys| == |f.world.sys.phys|
  {
    SysTaskOk(f.world.sys);
    var es, s := TaskRests(f.world.sys);
    TaskReaches(f, es, s);
    BusRuns.RunKeepsSize(f.world.sys, es);
    g := WithSys(f, s);
  }

  // ----- the task of the fluid bus comes to rest

  lemma AfterFluidStep(f: Factory, e: F.Event)
    requires F.Enabled(f.fluid, e) && (e.Answer? || e.Stored?)
    ensures Permitted(f, OfFluids(e)) && After(f, OfFluids(e)) == f.(fluid := F.Step(f.fluid, e))
  {
    OneFluidEvent(f.fluid, e);
    FluidApplyRuns(f.fluid, [e]);
  }

  lemma FluidStepReaches(f: Factory, e: F.Event)
    requires FactoryInv(f) && F.Enabled(f.fluid, e) && (e.Answer? || e.Stored?)
    ensures FactoryInv(f.(fluid := F.Step(f.fluid, e))) && Reaches(f, f.(fluid := F.Step(f.fluid, e)))
  {
    AfterFluidStep(f, e);
    MoveRefines(f, OfFluids(e));
    ReachOne(f, OfFluids(e));
  }

  function BusesQueued(s: F.System): nat { if s.bus.freeQueue == [] then 0 else 1 }

  lemma ReadingStep(s: F.System)
    requires F.Inv(s) && s.phase.Reading?
    ensures F.Enabled(s, F.Answer(FreeBuses(s), []))
    ensures var s1 := F.Step(s, F.Answer(FreeBuses(s), []));
      && F.Awake(s1) && s1.n == s.n
      && (s1.phase.Idle? || (s1.phase.Reading? && BusesQueued(s1) < BusesQueued(s)))
  {
    AllListed(s);
    F.QuietUpdateServes(s, FreeBuses(s));
    GiveAllServes(s.bus, FreeBuses(s));
  }

  lemma {:induction false} ReadingRests(f: Factory) returns (g: Factory)
    requires FactoryInv(f) && f.fluid.phase.Reading?
    ensures FactoryInv(g) && Reaches(f, g) && g == f.(fluid := g.fluid)
    ensures g.fluid.phase.Idle? && F.Awake(g.fluid) && g.fluid.n == f.fluid.n
    decreases BusesQueued(f.fluid)
  {
    ReadingStep(f.fluid);
    FluidStepReaches(f, F.Answer(FreeBuses(f.fluid), []));
    g := f.(fluid := F.Step(f.fluid, F.Answer(FreeBuses(f.fluid), [])));
    if g.fluid.phase.Reading? {
      var h := ReadingRests(g);
      ReachOn(f, g, h);
      g := h;
    }
  }

  lemma StoredStep(s: F.System)
    requires F.Inv(s) && s.phase.Storing? && !F.Forgets(s, F.Stored)
    ensures var s1 := F.Step(s, F.Stored); F.Awake(s1) && s1.n == s.n && (s1.phase.Idle? || s1.phase.Reading?)
  {
    F.StoredServes(s);
  }

  /** The fluid bus's task comes to rest, and then nobody waits beside a free bus. */
  lemma FluidTaskRests(f: Factory) returns (g: Factory)
    requires FactoryInv(f) && F.Awake(f.fluid) && !F.Forgets(f.fluid, F.Stored)
    ensures FactoryInv(g) && Reaches(f, g) && g == f.(fluid := g.fluid)
    ensures g.fluid.phase.Idle? && F.Awake(g.fluid) && g.fluid.n == f.fluid.n
  {
    g := f;
    ReachSelf(f);
    if f.fluid.phase.Storing? {
      StoredStep(f.fluid);
      FluidStepReaches(f, F.Stored);
      g := f.(fluid := F.Step(f.fluid, F.Stored));
    }
    if g.fluid.phase.Reading? {
      var h := ReadingRests(g);
      ReachOn(f, g, h);
      g := h;
    }
  }

  // ----- one job after the other ends

  predicate Releasing(e: F.Event) { e.GiveBack? || e.PutBack? }

  /** Nobody waits beside a free bus with no task at work, and the task is not about to pass anybody over. */
  ghost predicate Fair(s: F.System) { F.Awake(s) && !F.Forgets(s, F.Stored) }

  lemma ReleaseIsFair(s: F.System, e: F.Event)
    requires F.Inv(s) && Fair(s) && !s.phase.Storing? && F.Enabled(s, e) && Releasing(e)
    ensures F.Inv(F.Step(s, e)) && Fair(F.Step(s, e)) && !F.Step(s, e).phase.Storing? && F.Step(s, e).n == s.n
  {
    F.OwnershipIsSafe(s, e);
    F.AwakeStep(s, e);
  }

  lemma {:induction false} ReleasesAreFair(s: F.System, es: seq<F.Event>)
    requires F.Inv(s) && Fair(s) && !s.phase.Storing? && F.CanRun(s, es) && forall i :: 0 <= i < |es| ==> Releasing(es[i])
    ensures Fair(F.Run(s, es)) && !F.Run(s, es).phase.Storing? && F.Run(s, es).n == s.n
    decreases |es|
  {
    if es != [] {
      ReleaseIsFair(s, es[0]);
      assert forall i :: 0 <= i < |es[1..]| ==> es[1..][i] == es[i + 1];
      ReleasesAreFair(F.Step(s, es[0]), es[1..]);
    }
  }

  lemma {:induction false} GiveBacksRelease(xs: seq<nat>)
    ensures forall i :: 0 <= i < |GiveBacks(xs)| ==> Releasing(GiveBacks(xs)[i])
  {
    if xs != [] {
      GiveBacksRelease(xs[1..]);
    }
  }

  lemma EndReleases(f: Factory, a: Action)
    requires EndOf(a).Some?
    ensures forall i :: 0 <= i < |JobEvents(f, a)| ==> Releasing(JobEvents(f, a)[i])
  {
    GiveBacksRelease(BusesOf(SideOf(f, EndOf(a).value.0).toFree, f.parts));
  }

  function LiveJobs(f: Factory): set<nat> { set j | j in f.world.jobs && Live(f, j) }

  /** What the last step of a job leaves behind. */
  ghost predicate OneEnded(g: Factory, h: Factory, j: nat) {
    && Fair(h.fluid) && h.fluid.n == g.fluid.n && |h.world.sys.phys| == |g.world.sys.phys| && h.sides == g.sides
    && j in g.world.jobs && exists ok :: h.world.jobs == SetStage(g.world.jobs, j, Ended(ok))
  }

  lemma EndKeepsSize(w: World, a: Action)
    requires WorldInv(w) && Allowed(w, a)
    ensures |Do(w, a).sys.phys| == |w.sys.phys|
  {
    Refines(w, a);
    BusRuns.RunKeepsSize(w.sys, Trace(w, a));
  }

  lemma EndIsFair(g: Factory, j: nat, a: Action)
    requires FactoryInv(g) && Fair(g.fluid) && !g.fluid.phase.Storing? && AboutToEnd(g, j, a)
    ensures Fair(After(g, OfItems(a)).fluid) && After(g, OfItems(a)).fluid.n == g.fluid.n
  {
    MoveRefines(g, OfItems(a));
    EndReleases(g, a);
    ReleasesAreFair(g.fluid, JobEvents(g, a));
  }

  lemma AfterEnd(g: Factory, j: nat, a: Action)
    requires AboutToEnd(g, j, a)
    ensures After(g, OfItems(a)).world == Do(g.world, a) && After(g, OfItems(a)).sides == g.sides
    ensures Do(g.world, a).jobs == SetStage(g.world.jobs, j, Ended(EndOf(a).value.1)) && j in g.world.jobs
  {
    OneAct(g.world, a);
  }

  lemma LastStep(g: Factory, j: nat, a: Action)
    requires FactoryInv(g) && Fair(g.fluid) && !g.fluid.phase.Storing? && AboutToEnd(g, j, a)
    ensures OneEnded(g, After(g, OfItems(a)), j)
  {
    EndIsFair(g, j, a);
    EndKeepsSize(g.world, a);
    AfterEnd(g, j, a);
  }

  lemma LastStepReaches(g: Factory, j: nat, a: Action)
    requires FactoryInv(g) && AboutToEnd(g, j, a)
    ensures FactoryInv(After(g, OfItems(a))) && Reaches(g, After(g, OfItems(a)))
  {
    MoveRefines(g, OfItems(a));
    ReachOne(g, OfItems(a));
  }

  lemma EndedFits(g: Factory, h: Factory, j: nat)
    requires AllFit(g) && OneEnded(g, h, j)
    ensures AllFit(h) && LiveJobs(h) == LiveJobs(g) - {j}
  {
    var ok :| h.world.jobs == SetStage(g.world.jobs, j, Ended(ok));
    assert h.world.jobs.Keys == g.world.jobs.Keys;
  }

  lemma AlikeFits(f: Factory, g: Factory)
    requires AllFit(f) && Alike(f, g)
    ensures AllFit(g) && LiveJobs(g) == LiveJobs(f)
  {}

  lemma RestFits(f: Factory, g: Factory)
    requires AllFit(f) && g.world.jobs == f.world.jobs && g.sides == f.sides
    requires g.fluid.n == f.fluid.n && |g.world.sys.phys| == |f.world.sys.phys|
    ensures AllFit(g) && LiveJobs(g) == LiveJobs(f)
  {}

  /** The tasks come to rest. */
  lemma BothRest(f: Factory) returns (g: Factory)
    requires FactoryInv(f) && Fair(f.fluid)
    ensures FactoryInv(g) && Reaches(f, g) && g.world.sys.phase.Idle? && g.fluid.phase.Idle? && Fair(g.fluid)
    ensures g.world.jobs == f.world.jobs && g.sides == f.sides
    ensures g.fluid.n == f.fluid.n && |g.world.sys.phys| == |f.world.sys.phys|
  {
    var f1 := ItemTaskRests(f);
    g := FluidTaskRests(f1);
    ReachOn(f, f1, g);
  }

  lemma FirstAtEase(f: Factory, j: nat) returns (i: nat)
    requires FactoryInv(f) && AllFit(f) && F.Awake(f.fluid) && f.world.sys.phase.Idle? && f.fluid.phase.Idle? && Live(f, j)
    ensures First(f, i) && AtEase(f, f.world.log[i])
  {
    i := LiveHasFirst(f, j);
    FirstHasSlots(f, i);
    FirstHasBuses(f, i);
  }

  /** A job at ease ends, and that leaves nobody waiting beside a free bus. */
  lemma JobEnds(f: Factory, j: nat) returns (h: Factory, g: Factory)
    requires FactoryInv(f) && Fair(f.fluid) && f.fluid.phase.Idle? && Live(f, j) && AtEase(f, j)
    ensures FactoryInv(h) && Reaches(f, h) && Alike(f, g) && OneEnded(g, h, j)
  {
    var a: Action;
    g, a := WorkIsDone(f, j);
    LastStep(g, j, a);
    LastStepReaches(g, j, a);
    h := After(g, OfItems(a));
    ReachOn(f, g, h);
  }

  /** With the tasks at rest, the first job comes to its end. */
  lemma FirstEnds(f: Factory, j: nat) returns (h: Factory)
    requires FactoryInv(f) && AllFit(f) && Fair(f.fluid) && f.world.sys.phase.Idle? && f.fluid.phase.Idle? && Live(f, j)
    ensures FactoryInv(h) && Reaches(f, h) && AllFit(h) && Fair(h.fluid) && LiveJobs(h) < LiveJobs(f)
  {
    var i := FirstAtEase(f, j);
    var k := f.world.log[i];
    var g: Factory;
    h, g := JobEnds(f, k);
    AlikeFits(f, g);
    EndedFits(g, h, k);
    assert k in LiveJobs(f);
  }

  lemma {:induction false} AllCanEnd(f: Factory) returns (g: Factory)
    requires FactoryInv(f) && AllFit(f) && Fair(f.fluid)
    ensures Reaches(f, g) && AllEnded(g.world.jobs)
    decreases LiveJobs(f)
  {
    if AllEnded(f.world.jobs) {
      g := f;
      ReachSelf(f);
    } else {
      var j :| j in f.world.jobs && !f.world.jobs[j].stage.Ended?;
      var f1 := BothRest(f);
      RestFits(f, f1);
      var h := FirstEnds(f1, j);
      g := AllCanEnd(h);
      ReachOn(f, f1, h);
      ReachOn(f, h, g);
    }
  }

  /** If no job needs more slots or buses than there are, and nobody has been passed over on the fluid bus or is about to be,
      then all jobs can still come to their end, and so the cycle can, with nobody asking anew and nothing failing. */
  lemma CycleCanEnd(phys: seq<nat>, buses: nat, ms: seq<Move>)
    requires CanGo(FactoryStart(phys, buses), ms) && NobodyForgotten(FactoryStart(phys, buses), ms)
    requires AllFit(Go(FactoryStart(phys, buses), ms)) && !F.Forgets(Go(FactoryStart(phys, buses), ms).fluid, F.Stored)
    ensures exists ms' :: AllCalm(ms') && CanGo(Go(FactoryStart(phys, buses), ms), ms')
                          && AllEnded(Go(Go(FactoryStart(phys, buses), ms), ms').world.jobs)
  {
    FluidsAwake(phys, buses, ms);
    var f := Go(FactoryStart(phys, buses), ms);
    var g := AllCanEnd(f);
    var ms' :| Leads(f, ms', g);
  }
}
