/** Jobs that wait for bus slots do not wait for each other for ever. A job asks for all its slots at once, so its requests
    are neighbours in the queue, and the queue is served in order: at most one job has got some slots and not all. If no
    job needs more slots than the bus has, that one cannot keep the whole bus from the others. */
module JobProgress {
  import opened Common
  import opened Bus
  import opened BusSystem
  import opened BusJobs
  import opened Lines
  import opened JobRuns

  // ----- at most one job is between its first slot and its last

  /** The first of these two tickets is in the queue and the second is not. */
  predicate Between(ts: seq<Ticket>, waiters: seq<Ticket>, p: (Ticket, Ticket)) {
    p.0 in ts && p.0 in waiters && p.1 in ts && p.1 !in waiters
  }

  lemma PartsApart(w: World)
    requires WorldInv(w)
    ensures Apart(PartsOf(w.jobs))
  {
    forall j, k, t | j in w.jobs && k in w.jobs && t in w.jobs[j].parts && t in w.jobs[k].parts ensures j == k {
      assert OwnsAll(w.owner, j, w.jobs[j].parts) && OwnsAll(w.owner, k, w.jobs[k].parts);
    }
  }

  /** Two jobs that both have got some of their slots and not all are the same one. */
  lemma OneStraddles(w: World, a: nat, b: nat, pa: (Ticket, Ticket), pb: (Ticket, Ticket))
    requires WorldInv(w) && a in w.jobs && b in w.jobs
    requires Between(w.jobs[a].parts, w.sys.bus.waiters, pa) && Between(w.jobs[b].parts, w.sys.bus.waiters, pb)
    ensures a == b
  {
    PartsApart(w);
    var i :| 0 <= i < |w.log| && w.log[i] == a;
    var k :| 0 <= k < |w.log| && w.log[k] == b;
    OneBetween(w.log, PartsOf(w.jobs), w.sys.bus.waiters, i, k, pa.0, pa.1, pb.0, pb.1);
  }

  // ----- counting slots

  lemma {:induction false} SetOfIsNoLarger(ts: seq<Ticket>)
    ensures |SetOf(ts)| <= |ts|
  {
    if ts != [] {
      SetOfIsNoLarger(ts[1..]);
      assert SetOf(ts) == {ts[0]} + SetOf(ts[1..]);
    }
  }

  lemma {:induction false} HoldersCount(held: map<nat, Ticket>, n: nat, ts: set<Ticket>)
    requires forall x :: 0 <= x < n ==> x in held && held[x] in ts
    requires forall x, y :: 0 <= x < y < n ==> held[x] != held[y]
    ensures n <= |ts|
  {
    if n > 0 {
      HoldersCount(held, n - 1, ts - {held[n - 1]});
    }
  }

  // ----- progress

  predicate Waits(w: World, j: nat) {
    j in w.jobs && exists t :: t in w.jobs[j].parts && t in w.sys.bus.waiters
  }

  predicate HasSlot(w: World, j: nat) {
    j in w.jobs && exists t :: t in w.jobs[j].parts && Holds(w.sys, t)
  }

  predicate JobsFit(w: World) {
    forall j :: j in w.jobs ==> |w.jobs[j].parts| <= |w.sys.phys|
  }

  lemma HolderIn(w: World, x: nat)
    requires WorldInv(w) && x in w.sys.held
    ensures var t := w.sys.held[x];
      && t in w.owner && w.owner[t] in w.jobs && t in w.jobs[w.owner[t]].parts
      && Holds(w.sys, t) && w.sys.parts[t].state.slot == x && t !in w.sys.bus.waiters
  {
    assert Content(w.sys.parts[w.sys.held[x]], w.sys.phys);
  }

  /** A waiting ticket of the job that holds slot x, and the ticket that holds it. */
  ghost function PairOf(w: World, x: nat): (p: (Ticket, Ticket))
    requires x in w.sys.held && w.sys.held[x] in w.owner && Waits(w, w.owner[w.sys.held[x]])
    ensures p.0 in w.jobs[w.owner[w.sys.held[x]]].parts && p.0 in w.sys.bus.waiters && p.1 == w.sys.held[x]
  {
    var t :| t in w.jobs[w.owner[w.sys.held[x]]].parts && t in w.sys.bus.waiters;
    (t, w.sys.held[x])
  }

  lemma HolderStraddles(w: World, x: nat)
    requires WorldInv(w) && x in w.sys.held && w.sys.held[x] in w.owner && Waits(w, w.owner[w.sys.held[x]])
    ensures Between(w.jobs[w.owner[w.sys.held[x]]].parts, w.sys.bus.waiters, PairOf(w, x))
  {
    HolderIn(w, x);
  }

  lemma HolderInJob(w: World, x: nat, a: nat, t: Ticket)
    requires WorldInv(w) && x in w.sys.held && w.owner[w.sys.held[x]] == a && t in w.sys.bus.waiters
    ensures a in w.jobs && w.sys.held[x] in w.jobs[a].parts && w.sys.held[x] != t
  {
    HolderIn(w, x);
  }

  lemma HoldersDiffer(w: World, x: nat, y: nat)
    requires WorldInv(w) && x in w.sys.held && y in w.sys.held && x != y
    ensures w.sys.held[x] != w.sys.held[y]
  {
    HolderIn(w, x);
    HolderIn(w, y);
  }

  lemma HoldersAreOthers(w: World, a: nat, t: Ticket)
    requires WorldInv(w) && a in w.jobs && t in w.sys.bus.waiters
    requires forall x :: 0 <= x < |w.sys.phys| ==> x in w.sys.held && w.owner[w.sys.held[x]] == a
    ensures forall x :: 0 <= x < |w.sys.phys| ==> w.sys.held[x] in w.jobs[a].parts && w.sys.held[x] != t
  {
    forall x | 0 <= x < |w.sys.phys| ensures w.sys.held[x] in w.jobs[a].parts && w.sys.held[x] != t {
      HolderInJob(w, x, a, t);
    }
  }

  lemma HoldersDistinct(w: World)
    requires WorldInv(w) && forall x :: 0 <= x < |w.sys.phys| ==> x in w.sys.held
    ensures forall x, y :: 0 <= x < y < |w.sys.phys| ==> w.sys.held[x] != w.sys.held[y]
  {
    forall x, y | 0 <= x < y < |w.sys.phys| ensures w.sys.held[x] != w.sys.held[y] {
      HoldersDiffer(w, x, y);
    }
  }

  lemma HoldersAndOneMore(held: map<nat, Ticket>, n: nat, ts: seq<Ticket>, t: Ticket)
    requires t in ts && (forall x :: 0 <= x < n ==> x in held && held[x] in ts && held[x] != t)
    requires forall x, y :: 0 <= x < y < n ==> held[x] != held[y]
    ensures n < |ts|
  {
    HoldersCount(held, n, SetOf(ts) - {t});
    SetOfIsNoLarger(ts);
  }

  /** With all slots held by one job that also waits, it would need more slots than there are. */
  lemma StraddlerFull(w: World, a: nat, t: Ticket)
    requires WorldInv(w) && a in w.jobs && t in w.jobs[a].parts && t in w.sys.bus.waiters
    requires forall x :: 0 <= x < |w.sys.phys| ==> x in w.sys.held && w.owner[w.sys.held[x]] == a
    ensures |w.sys.phys| < |w.jobs[a].parts|
  {
    HoldersAreOthers(w, a, t);
    HoldersDistinct(w);
    HoldersAndOneMore(w.sys.held, |w.sys.phys|, w.jobs[a].parts, t);
  }

  lemma HolderHasOwner(w: World, x: nat)
    requires WorldInv(w) && x in w.sys.held
    ensures w.sys.held[x] in w.owner && w.owner[w.sys.held[x]] in w.jobs
  {
    HolderIn(w, x);
  }

  lemma WaitingHolderIsOne(w: World, x: nat, y: nat)
    requires WorldInv(w) && x in w.sys.held && y in w.sys.held
    requires w.sys.held[x] in w.owner && w.sys.held[y] in w.owner
    requires Waits(w, w.owner[w.sys.held[x]]) && Waits(w, w.owner[w.sys.held[y]])
    ensures w.owner[w.sys.held[x]] == w.owner[w.sys.held[y]]
  {
    HolderStraddles(w, x);
    HolderStraddles(w, y);
    OneStraddles(w, w.owner[w.sys.held[x]], w.owner[w.sys.held[y]], PairOf(w, x), PairOf(w, y));
  }

  lemma WaiterHasJob(w: World)
    requires WorldInv(w) && w.sys.bus.waiters != []
    ensures var t := w.sys.bus.waiters[0]; t in w.owner && w.owner[t] in w.jobs && t in w.jobs[w.owner[t]].parts
  {
    HeadIsMember(w.sys.bus.waiters);
  }

  lemma AllOwnersKnown(w: World)
    requires WorldInv(w)
    ensures forall x :: x in w.sys.held ==> w.sys.held[x] in w.owner
  {
    forall x | x in w.sys.held ensures w.sys.held[x] in w.owner {
      HolderHasOwner(w, x);
    }
  }

  lemma SomeHolderDoesNotWait(w: World)
    requires WorldInv(w) && w.sys.phase.Idle? && w.sys.bus.waiters != [] && JobsFit(w)
    ensures exists x :: x in w.sys.held && w.sys.held[x] in w.owner && !Waits(w, w.owner[w.sys.held[x]])
  {
    AllOwnersKnown(w);
    WaiterHasJob(w);
    if |w.sys.phys| > 0 && forall x :: x in w.sys.held ==> Waits(w, w.owner[w.sys.held[x]]) {
      var a := w.owner[w.sys.held[0]];
      forall x | 0 <= x < |w.sys.phys| ensures x in w.sys.held && w.owner[w.sys.held[x]] == a {
        WaitingHolderIsOne(w, x, 0);
      }
      StraddlerFull(w, a, PairOf(w, 0).0);
    }
  }

  /** No deadlock: if no job needs more slots than the bus has, then, whenever tasks wait and nobody is at work for them, some
      job holds a slot and waits for none. */
  lemma NoCircularWait(phys: seq<nat>, actions: seq<Action>)
    requires CanAct(WorldStart(phys), actions)
    requires var w := Act(WorldStart(phys), actions); w.sys.phase.Idle? && w.sys.bus.waiters != [] && JobsFit(w)
    ensures var w := Act(WorldStart(phys), actions); exists j :: HasSlot(w, j) && !Waits(w, j)
  {
    StartWorldInv(phys);
    RunsRefine(WorldStart(phys), actions);
    var w := Act(WorldStart(phys), actions);
    SomeHolderDoesNotWait(w);
    var x :| x in w.sys.held && w.sys.held[x] in w.owner && !Waits(w, w.owner[w.sys.held[x]]);
    HolderIn(w, x);
    assert HasSlot(w, w.owner[w.sys.held[x]]);
  }

  /** A step that a task of the job takes itself, or the answer to one of its requests. */
  ghost predicate ChildStep(w: World, j: nat, a: Action) {
    Allowed(w, a) && j in w.jobs &&
    match a
    case Wake(t) => t in w.jobs[j].parts
    case OnBus(e) => (e.Fill? || e.Empty?) && e.t in w.jobs[j].parts
    case _ => false
  }

  lemma ChildMayWake(w: World, j: nat, t: Ticket)
    requires InStage(w, j, Loading) && t in w.jobs[j].parts && t !in w.jobs[j].slotsToFree
    requires t in w.owner && w.owner[t] == j && t in w.sys.parts && w.sys.parts[t].state.Filling?
    ensures ChildStep(w, j, Wake(t))
  {}

  lemma ChildMayPull(w: World, j: nat, t: Ticket)
    requires j in w.jobs && t in w.jobs[j].parts && t in w.jobs[j].slotsToFree && t in w.owner && w.owner[t] == j
    requires t in w.sys.parts && w.sys.parts[t].state.Filling? && w.sys.parts[t].state.rest != []
    requires w.sys.parts[t].state.slot < |w.sys.phys|
    ensures ChildStep(w, j, OnBus(Fill(t, 0, w.sys.parts[t].state.rest[0])))
  {
    assert Pulling(w.sys, t, 0) && SourceHolds(w.sys, t, 0, w.sys.parts[t].state.rest[0]);
  }

  /** The next transfer of a task. */
  function FirstLeft(w: World, t: Ticket): nat {
    if t in w.sys.parts && w.sys.parts[t].state.Holding() && w.sys.parts[t].state.rest != [] then w.sys.parts[t].state.rest[0]
    else 0
  }

  lemma ChildFacts(w: World, j: nat, t: Ticket)
    requires WorldInv(w) && j in w.jobs && w.jobs[j].stage.Loading? && t in w.jobs[j].parts && t !in w.sys.bus.waiters
    ensures t in w.owner && w.owner[t] == j && t in w.sys.parts
    ensures w.sys.parts[t].state.Denied? || (w.sys.parts[t].state.Filling? && w.sys.parts[t].state.slot < |w.sys.phys|)
  {
    assert Staged(w.jobs[j], w.sys.parts) && OwnsAll(w.owner, j, w.jobs[j].parts);
    assert Content(w.sys.parts[t], w.sys.phys);
  }

  lemma ChildCanMove(w: World, j: nat, t: Ticket)
    requires WorldInv(w) && j in w.jobs && w.jobs[j].stage.Loading? && t in w.jobs[j].parts && t !in w.sys.bus.waiters
    requires !ChildDone(w.jobs[j], t, w.sys.parts)
    ensures ChildStep(w, j, if t !in w.jobs[j].slotsToFree then Wake(t) else OnBus(Fill(t, 0, FirstLeft(w, t))))
  {
    ChildFacts(w, j, t);
    if t !in w.jobs[j].slotsToFree {
      ChildMayWake(w, j, t);
    } else {
      ChildMayPull(w, j, t);
    }
  }

  lemma EmptyMayHappen(w: World, t: Ticket)
    requires t in w.sys.parts && w.sys.parts[t].state.Emptying? && w.sys.parts[t].state.rest != []
    requires w.sys.parts[t].state.slot < |w.sys.phys|
    ensures Allowed(w, OnBus(Empty(t, 0, w.sys.parts[t].state.rest[0])))
  {
    assert Pushing(w.sys, t, 0) && TargetTakes(w.sys, t, 0, w.sys.parts[t].state.rest[0]);
  }

  lemma OutCanMove(w: World, j: nat, t: Ticket)
    requires WorldInv(w) && j in w.jobs && w.jobs[j].stage.Unloading? && t in w.jobs[j].parts && !OutDone(t, w.sys.parts)
    ensures ChildStep(w, j, OnBus(Empty(t, 0, FirstLeft(w, t))))
  {
    assert Staged(w.jobs[j], w.sys.parts);
    assert Content(w.sys.parts[t], w.sys.phys);
    EmptyMayHappen(w, t);
  }

  // ----- the background task goes on, too

  /** A plan that stores all that is listed. */
  function PlanAll(listing: seq<nat>, allocations: set<nat>): (plan: seq<Transfer>)
    ensures forall i :: 0 <= i < |plan| ==>
      && plan[i].slot < |listing| && plan[i].slot !in allocations
      && plan[i].amount == listing[plan[i].slot] > 0
    decreases |listing|
  {
    if listing == [] then []
    else
      var n := |listing| - 1;
      var rest := PlanAll(listing[..n], allocations);
      if n !in allocations && listing[n] > 0 then [Transfer(n, listing[n])] + rest else rest
  }

  lemma {:induction false} PlanAllPlans(listing: seq<nat>, allocations: set<nat>, x: nat)
    ensures PlannedFor(PlanAll(listing, allocations), x)
         == if x < |listing| && x !in allocations then listing[x] else 0
    decreases |listing|
  {
    if listing != [] {
      var n := |listing| - 1;
      var rest := PlanAll(listing[..n], allocations);
      PlanAllPlans(listing[..n], allocations, x);
      assert ([Transfer(n, listing[n])] + rest)[1..] == rest;
    }
  }

  lemma PlanAllFits(listing: seq<nat>, allocations: set<nat>)
    ensures PlanFor(PlanAll(listing, allocations), true, listing, allocations)
  {
    forall x | 0 <= x < |listing| && x !in allocations ensures PlannedFor(PlanAll(listing, allocations), x) == listing[x] {
      PlanAllPlans(listing, allocations, x);
    }
  }

  /** A step of the background task in which nothing fails. */
  ghost predicate TaskStep(w: World, a: Action) {
    && Allowed(w, a) && a.OnBus?
    && (a.e.Answer? || (a.e.Process? && a.e.room) || a.e.Store? || a.e.Finish?)
  }

  lemma AnswerCanMove(w: World)
    requires w.sys.phase.Answered?
    ensures exists a :: TaskStep(w, a)
  {
    var plan := PlanAll(w.sys.phase.listing, w.sys.bus.allocations);
    PlanAllFits(w.sys.phase.listing, w.sys.bus.allocations);
    assert Enabled(w.sys, Process(plan, true));
    assert TaskStep(w, OnBus(Process(plan, true)));
  }

  lemma StoringCanMove(w: World)
    requires w.sys.phase.Storing?
    requires forall i :: 0 <= i < |w.sys.phase.pending| ==> w.sys.phase.pending[i].slot < |w.sys.phys|
    ensures exists a :: TaskStep(w, a)
  {
    if w.sys.phase.pending == [] {
      assert TaskStep(w, OnBus(Finish));
    } else {
      assert Enabled(w.sys, Store(0));
      assert TaskStep(w, OnBus(Store(0)));
    }
  }

  lemma TaskCanMove(w: World)
    requires WorldInv(w) && !w.sys.phase.Idle?
    ensures exists a :: TaskStep(w, a)
  {
    if w.sys.phase.Requested? {
      assert TaskStep(w, OnBus(Answer));
    } else if w.sys.phase.Answered? {
      AnswerCanMove(w);
    } else {
      StoringCanMove(w);
    }
  }

  lemma {:induction false} BoundedCount(slots: set<nat>, n: nat)
    requires forall x :: x in slots ==> x < n
    ensures |slots| <= n
  {
    if n > 0 {
      BoundedCount(slots - {n - 1}, n - 1);
    }
  }

  lemma {:induction false} TicketsCount(held: map<nat, Ticket>, parts: map<Ticket, Part>, ts: seq<Ticket>, slots: set<nat>)
    requires Owners(held, parts) && Distinct(ts)
    requires forall i :: 0 <= i < |ts| ==>
      ts[i] in parts && parts[ts[i]].state.Holding() && parts[ts[i]].state.slot in slots
    ensures |ts| <= |slots|
    decreases |ts|
  {
    if ts != [] {
      var n := |ts| - 1;
      var slot := parts[ts[n]].state.slot;
      assert Owns(held, ts[n], parts[ts[n]]);
      forall i | 0 <= i < n ensures parts[ts[i]].state.slot != slot {
        assert Owns(held, ts[i], parts[ts[i]]);
      }
      TicketsCount(held, parts, ts[..n], slots - {slot});
    }
  }

  lemma AllOkAllHold(s: System, job: Job)
    requires Core(s) && AllChildrenOk(job, s.parts)
    ensures forall i :: 0 <= i < |job.parts| ==>
      job.parts[i] in s.parts && s.parts[job.parts[i]].state.Holding() && s.parts[job.parts[i]].state.slot in s.held.Keys
  {
    forall i | 0 <= i < |job.parts|
      ensures job.parts[i] in s.parts && s.parts[job.parts[i]].state.Holding()
      ensures s.parts[job.parts[i]].state.slot in s.held.Keys
    {
      assert ChildOk(job, job.parts[i], s.parts);
      assert Owns(s.held, job.parts[i], s.parts[job.parts[i]]);
    }
  }

  /** The condition is needed: a job with more inputs than the bus has slots never gets all of them. */
  lemma OversizedJobNeverLoads(w: World, j: nat)
    requires WorldInv(w) && j in w.jobs && |w.jobs[j].parts| > |w.sys.phys|
    ensures !Allowed(w, Unload(j))
  {
    if Allowed(w, Unload(j)) {
      assert OwnsAll(w.owner, j, w.jobs[j].parts);
      AllOkAllHold(w.sys, w.jobs[j]);
      TicketsCount(w.sys.held, w.sys.parts, w.jobs[j].parts, w.sys.held.Keys);
      BoundedCount(w.sys.held.Keys, |w.sys.phys|);
    }
  }
}
