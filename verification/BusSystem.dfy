/** The bus allocator inside the running factory: process tasks, the background task, the clients that
    carry out transfers, and the physical contents of the bus, interleaved at every await.

    A `Part` is one use of the bus by a process: ask for a slot, pull items into it, push them out to a
    machine, give the slot back. Parts go on independently here; how the parts of a job wait for each other, and
    when a job frees its slots or hands them over, is in JobRuns, every run of which is a run of this system. */
module BusSystem {
  import opened Common
  import opened Bus

  datatype PartState =
    | Waiting
    | Denied
    | Filling(slot: nat, rest: seq<nat>, ok: bool)
    | Emptying(slot: nat, rest: seq<nat>, ok: bool, kept: bool)
    | Done
  {
    predicate Holding() { Filling? || Emptying? }
  }

  /** `fills` are the extractions of one reservation, `outs` the transfers out of the bus slot, `cap` the
      stack size of the item. */
  datatype Part = Part(fills: seq<nat>, outs: seq<nat>, cap: nat, state: PartState)

  /** One transfer from a bus slot into a storage. */
  datatype Transfer = Transfer(slot: nat, amount: nat)

  /** Where the background task is: it has asked for a listing, the listing is on its way back, or the
      transfers into storages are under way (`failed`: one of them reported an error). */
  datatype Phase =
    | Idle
    | Requested
    | Answered(listing: seq<nat>)
    | Storing(pending: seq<Transfer>, failed: bool)

  /** `held` maps a slot to the ticket of the part that has it; `phys` is what lies in each slot. While
      `draining`, the cycle is over: factory_main has taken the task handle and waits for the task. */
  datatype System = System(
    bus: State,
    held: map<nat, Ticket>,
    phys: seq<nat>,
    phase: Phase,
    parts: map<Ticket, Part>,
    draining: bool)

  datatype Event =
    | Ask(t: Ticket, fills: seq<nat>, outs: seq<nat>, cap: nat)
    | Fill(t: Ticket, k: nat, there: nat)
    | FillFails(t: Ticket, k: nat, moved: nat)
    | Turn(t: Ticket)
    | Empty(t: Ticket, k: nat, space: nat)
    | EmptyFails(t: Ticket, k: nat, moved: nat)
    | Receive(t: Ticket, amount: nat)
    | GiveBack(t: Ticket)
    | HandOver(ts: seq<Ticket>)
    | Answer
    | Process(plan: seq<Transfer>, room: bool)
    | Store(k: nat)
    | StoreFails(k: nat, moved: nat)
    | Finish
    | UpdateFails
    | Late(x: nat, content: nat)
    | EndCycle(spawn: bool)
    | NextCycle

  function Start(phys: seq<nat>): System {
    System(EMPTY, map[], phys, Idle, map[], false)
  }

  /** One use of a bus slot: what is extracted into it, what is transferred out of it, and the stack size. */
  datatype Use = Use(fills: seq<nat>, outs: seq<nat>, cap: nat)

  predicate Balanced(use: Use) {
    Sum(use.fills) == Sum(use.outs) <= use.cap
  }

  // ----- what the clients do with items

  /** A transfer into a slot stops at a full stack. */
  function Fits(amount: nat, content: nat, cap: nat): nat {
    if content >= cap then 0 else Min(amount, cap - content)
  }

  function PlannedFor(plan: seq<Transfer>, slot: nat): nat {
    if plan == [] then 0
    else (if plan[0].slot == slot then plan[0].amount else 0) + PlannedFor(plan[1..], slot)
  }

  /** deposit_item plans to move all of each listed stack, unless the storages are full. */
  ghost predicate PlanFor(plan: seq<Transfer>, room: bool, listing: seq<nat>, allocations: set<nat>) {
    && (forall i :: 0 <= i < |plan| ==>
          plan[i].slot < |listing| && plan[i].slot !in allocations && listing[plan[i].slot] > 0)
    && (room ==> forall s :: 0 <= s < |listing| && s !in allocations ==> PlannedFor(plan, s) == listing[s])
  }

  // ----- steps

  predicate Holds(s: System, t: Ticket) {
    t in s.parts && s.parts[t].state.Holding() && s.parts[t].state.slot < |s.phys|
  }

  predicate Pulling(s: System, t: Ticket, k: nat) {
    t in s.parts && s.parts[t].state.Filling? && s.parts[t].state.slot < |s.phys| && k < |s.parts[t].state.rest|
  }

  predicate Pushing(s: System, t: Ticket, k: nat) {
    t in s.parts && s.parts[t].state.Emptying? && s.parts[t].state.slot < |s.phys| && k < |s.parts[t].state.rest|
  }

  /** All transfers out of the slot have been answered. */
  predicate Emptied(s: System, t: Ticket) {
    t in s.parts && s.parts[t].state.Emptying? && s.parts[t].state.slot < |s.phys| && s.parts[t].state.rest == []
  }

  /** Gives part t a new state and its slot a new content. */
  function Update(s: System, t: Ticket, state: PartState, content: nat): System
    requires t in s.parts && (state.Filling? || state.Emptying?) && state.slot < |s.phys|
  {
    s.(phys := s.phys[state.slot := content], parts := s.parts[t := s.parts[t].(state := state)])
  }

  function PullRoom(s: System, t: Ticket, k: nat): nat
    requires Pulling(s, t, k)
  {
    Fits(s.parts[t].state.rest[k], s.phys[s.parts[t].state.slot], s.parts[t].cap)
  }

  /** The storage still has what the extraction is to bring. Plant shows that it always does. */
  predicate SourceHolds(s: System, t: Ticket, k: nat, there: nat)
    requires Pulling(s, t, k)
  {
    s.parts[t].state.rest[k] <= there
  }

  function Pulled(st: PartState, k: nat, ok: bool): PartState
    requires st.Filling? && k < |st.rest|
  {
    Filling(st.slot, RemoveAt(st.rest, k), st.ok && ok)
  }

  function PushRoom(s: System, t: Ticket, k: nat): nat
    requires Pushing(s, t, k)
  {
    Min(s.parts[t].state.rest[k], s.phys[s.parts[t].state.slot])
  }

  /** The machine has room for what the transfer is to bring. Plant shows that it always has. */
  predicate TargetTakes(s: System, t: Ticket, k: nat, room: nat)
    requires Pushing(s, t, k)
  {
    s.parts[t].state.rest[k] <= room
  }

  function Pushed(st: PartState, k: nat, ok: bool): PartState
    requires st.Emptying? && k < |st.rest|
  {
    Emptying(st.slot, RemoveAt(st.rest, k), st.ok && ok, st.kept)
  }

  /** An extraction into the slot, from a place that holds so much. */
  function FillFrom(s: System, t: Ticket, k: nat, there: nat): System
    requires Pulling(s, t, k)
  {
    var st := s.parts[t].state;
    Update(s, t, Pulled(st, k, true), s.phys[st.slot] + Min(PullRoom(s, t, k), there))
  }

  /** A transfer out of the slot, to a place with so much room. */
  function EmptyInto(s: System, t: Ticket, k: nat, room: nat): System
    requires Pushing(s, t, k)
  {
    var st := s.parts[t].state;
    Update(s, t, Pushed(st, k, true), s.phys[st.slot] - Min(PushRoom(s, t, k), room))
  }

  function AskFor(s: System, t: Ticket, fills: seq<nat>, outs: seq<nat>, cap: nat): System {
    s.(bus := Allocate(s.bus, t),
       parts := s.parts[t := Part(fills, outs, cap, Waiting)],
       phase := if s.bus.running then s.phase else Requested)
  }

  /** Sends Ok(slot) to the oldest waiter. */
  function GrantOne(s: System, slot: nat): System
    requires s.bus.waiters != []
  {
    var t := s.bus.waiters[0];
    s.(bus := Give(s.bus, slot), held := s.held[slot := t],
       parts := if t !in s.parts then s.parts
                else s.parts[t := s.parts[t].(state := Filling(slot, s.parts[t].fills, true))])
  }

  function GrantAll(s: System, slots: seq<nat>): (s': System)
    ensures s'.bus == GiveAll(s.bus, slots) && s'.phys == s.phys && s'.phase == s.phase
    decreases |slots|
  {
    if slots == [] || s.bus.waiters == [] then s
    else GrantAll(GrantOne(s, slots[|slots| - 1]), slots[..|slots| - 1])
  }

  /** The part lets go of its slot, which for the moment nobody has. */
  function LetGo(s: System, t: Ticket): System
    requires Holds(s, t)
  {
    var slot := s.parts[t].state.slot;
    s.(held := s.held - {slot}, parts := s.parts[t := s.parts[t].(state := Done)],
       bus := s.bus.(allocations := s.bus.allocations - {slot}))
  }

  /** bus_free: the slot goes to the oldest waiter, or becomes unallocated. */
  function FreeOne(s: System, t: Ticket): System
    requires Holds(s, t)
  {
    if s.bus.waiters != [] then GrantOne(LetGo(s, t), s.parts[t].state.slot) else LetGo(s, t)
  }

  predicate AllHold(s: System, ts: seq<Ticket>) {
    Distinct(ts) && forall i :: 0 <= i < |ts| ==> Holds(s, ts[i])
  }

  /** No transfer of these parts is still to be answered. */
  predicate AllSettled(s: System, ts: seq<Ticket>)
    requires AllHold(s, ts)
  {
    forall i :: 0 <= i < |ts| ==> Settled(s, ts[i])
  }

  predicate Settled(s: System, t: Ticket) {
    Holds(s, t) && s.parts[t].state.rest == []
  }

  function SlotsOf(s: System, ts: seq<Ticket>): (slots: seq<nat>)
    requires forall i :: 0 <= i < |ts| ==> Holds(s, ts[i])
    ensures |slots| == |ts|
    ensures forall i :: 0 <= i < |ts| ==> Holds(s, ts[i]) && slots[i] == s.parts[ts[i]].state.slot
  {
    if ts == [] then [] else assert Holds(s, ts[0]); [s.parts[ts[0]].state.slot] + SlotsOf(s, ts[1..])
  }

  function Settle(parts: map<Ticket, Part>, ts: set<Ticket>, state: PartState): map<Ticket, Part> {
    map t | t in parts :: if t in ts then parts[t].(state := state) else parts[t]
  }

  /** bus_deposit of the slots of several parts. */
  function PutAway(s: System, ts: seq<Ticket>): System
    requires AllHold(s, ts)
  {
    var slots := SlotsOf(s, ts);
    s.(bus := Deposit(s.bus, slots),
       held := s.held - SetOf(slots),
       parts := Settle(s.parts, SetOf(ts), Done),
       phase := if s.bus.running || slots == [] then s.phase else Requested)
  }

  function Fail(s: System): System {
    s.(bus := s.bus.(waiters := [], running := false),
       parts := Settle(s.parts, SetOf(s.bus.waiters), Denied), phase := Idle)
  }

  /** The end of bus_update and the loop of bus_main, with no await between them. */
  function Succeed(s: System, everDeposited: bool): System {
    if Rerun(s.bus, everDeposited) then s.(bus := Drain(s.bus), phase := Requested)
    else s.(bus := Drain(s.bus).(running := false), phase := Idle)
  }

  /** bus_update from the arrival of the listing to the next await. With no transfer to wait for there is
      no await: the update ends within the same step. */
  function TakeAnswer(s: System, plan: seq<Transfer>, room: bool): System
    requires s.phase.Answered?
  {
    var s1 := GrantAll(s, FreeSlots(s.phase.listing, s.bus.allocations));
    if plan == [] && room then Succeed(s1, false) else s1.(phase := Storing(plan, !room))
  }

  predicate StoringOne(s: System, k: nat) {
    s.phase.Storing? && k < |s.phase.pending| && s.phase.pending[k].slot < |s.phys|
  }

  function StoreRoom(s: System, k: nat): nat
    requires StoringOne(s, k)
  {
    Min(s.phase.pending[k].amount, s.phys[s.phase.pending[k].slot])
  }

  function StoreOne(s: System, k: nat, content: nat, ok: bool): System
    requires StoringOne(s, k)
  {
    s.(phys := s.phys[s.phase.pending[k].slot := content],
       phase := Storing(RemoveAt(s.phase.pending, k), s.phase.failed || !ok))
  }

  function CloseCycle(s: System, spawn: bool): System {
    s.(draining := true, bus := s.bus.(running := false), phase := if spawn then Requested else s.phase)
  }

  /** The part whose transfers have failed still has the slot, and does not get more than it was to get. */
  predicate StillIts(p: Part, content: nat) {
    match p.state
    case Filling(_, rest, ok) => !ok && content + Sum(rest) <= Sum(p.fills)
    case Emptying(_, _, ok, _) => !ok
    case _ => false
  }

  /** A client may carry a transfer out although it was reported as failed, because the connection was lost in between; then
      the content of a slot changes when nobody expects it. It comes in time if the slot still belongs to the part, or is
      queued for emptying, or has been emptied further, or will be listed anew before anybody gets it. */
  predicate InTime(s: System, x: nat, content: nat) {
    && x < |s.phys|
    && (|| x in s.bus.freeQueue
        || (x !in s.bus.allocations && (content <= s.phys[x] || s.phase.Idle? || s.phase.Requested?))
        || (x in s.held && s.held[x] in s.parts && StillIts(s.parts[s.held[x]], content)))
  }

  ghost predicate Enabled(s: System, e: Event) {
    match e
    case Ask(t, fills, outs, cap) => !s.draining && t !in s.parts && Sum(fills) == Sum(outs) <= cap
    case Fill(t, k, there) => Pulling(s, t, k) && SourceHolds(s, t, k, there)
    case FillFails(t, k, moved) => Pulling(s, t, k) && moved <= PullRoom(s, t, k)
    case Turn(t) => Holds(s, t) && s.parts[t].state.Filling? && s.parts[t].state.rest == [] && s.parts[t].state.ok
    case Empty(t, k, room) => Pushing(s, t, k) && TargetTakes(s, t, k, room)
    case EmptyFails(t, k, moved) => Pushing(s, t, k) && moved <= PushRoom(s, t, k)
    case Receive(t, amount) => Emptied(s, t)
    case GiveBack(t) => Emptied(s, t) && s.parts[t].state.ok && !s.parts[t].state.kept
    case HandOver(ts) => AllHold(s, ts) && AllSettled(s, ts)
    case Answer => s.phase.Requested?
    case Process(plan, room) => s.phase.Answered? && PlanFor(plan, room, s.phase.listing, s.bus.allocations)
    case Store(k) => StoringOne(s, k)
    case StoreFails(k, moved) => StoringOne(s, k) && moved <= StoreRoom(s, k)
    case Finish => s.phase.Storing? && s.phase.pending == []
    case UpdateFails => s.phase.Requested? || s.phase.Answered?
    case Late(x, content) => InTime(s, x, content)
    case EndCycle(spawn) =>
      && !s.draining && (spawn ==> s.phase.Idle?)
      && forall t :: t in s.parts ==> s.parts[t].state.Done? || s.parts[t].state.Denied?
    case NextCycle => s.draining && s.phase.Idle?
  }

  function Step(s: System, e: Event): System
    requires Enabled(s, e)
  {
    match e
    case Ask(t, fills, outs, cap) => AskFor(s, t, fills, outs, cap)
    case Fill(t, k, there) => FillFrom(s, t, k, there)
    case FillFails(t, k, moved) =>
      var st := s.parts[t].state;
      Update(s, t, Pulled(st, k, false), s.phys[st.slot] + moved)
    case Turn(t) =>
      var slot := s.parts[t].state.slot;
      Update(s, t, Emptying(slot, s.parts[t].outs, true, false), s.phys[slot])
    case Empty(t, k, room) => EmptyInto(s, t, k, room)
    case EmptyFails(t, k, moved) =>
      var st := s.parts[t].state;
      Update(s, t, Pushed(st, k, false), s.phys[st.slot] - moved)
    case Receive(t, amount) =>
      var st := s.parts[t].state;
      Update(s, t, Emptying(st.slot, [], st.ok, true), s.phys[st.slot] + amount)
    case GiveBack(t) => FreeOne(s, t)
    case HandOver(ts) => PutAway(s, ts)
    case Answer => s.(phase := Answered(s.phys))
    case Process(plan, room) => TakeAnswer(s, plan, room)
    case Store(k) => StoreOne(s, k, s.phys[s.phase.pending[k].slot] - StoreRoom(s, k), true)
    case StoreFails(k, moved) => StoreOne(s, k, s.phys[s.phase.pending[k].slot] - moved, false)
    case Finish => if s.phase.failed then Fail(s) else Succeed(s, true)
    case UpdateFails => Fail(s)
    case Late(x, content) => s.(phys := s.phys[x := content])
    case EndCycle(spawn) => CloseCycle(s, spawn)
    case NextCycle => s.(draining := false)
  }

  // ----- the invariant

  ghost predicate Shape(bus: State, n: nat) {
    && (forall x :: x in bus.allocations ==> x < n)
    && Distinct(bus.freeQueue)
    && Distinct(bus.waiters)
  }

  /** Every allocated slot is either held by a part or queued for emptying, never both. */
  ghost predicate Partition(bus: State, held: set<nat>) {
    bus.allocations == held + SetOf(bus.freeQueue) && held !! SetOf(bus.freeQueue)
  }

  ghost predicate Owns(held: map<nat, Ticket>, t: Ticket, p: Part) {
    p.state.Holding() ==> p.state.slot in held && held[p.state.slot] == t
  }

  /** Each held slot belongs to exactly one part. */
  ghost predicate Owners(held: map<nat, Ticket>, parts: map<Ticket, Part>) {
    && (forall x :: x in held ==>
          held[x] in parts && parts[held[x]].state.Holding() && parts[held[x]].state.slot == x)
    && (forall t :: t in parts ==> Owns(held, t, parts[t]))
  }

  /** Exactly the waiting parts are in the queue. */
  ghost predicate Queue(waiters: seq<Ticket>, parts: map<Ticket, Part>) {
    && (forall t :: t in waiters ==> t in parts && parts[t].state.Waiting?)
    && (forall t :: t in parts && parts[t].state.Waiting? ==> t in waiters)
  }

  /** A part's slot never gets more than its extractions are to bring; as long as nothing failed, it holds exactly what has
      come in and not yet gone out. */
  ghost predicate Content(p: Part, phys: seq<nat>) {
    && Sum(p.fills) == Sum(p.outs) <= p.cap
    && match p.state
       case Filling(slot, rest, ok) =>
         slot < |phys| && phys[slot] + Sum(rest) <= Sum(p.fills) && (ok ==> phys[slot] + Sum(rest) == Sum(p.fills))
       case Emptying(slot, rest, ok, kept) => slot < |phys| && (ok && !kept ==> phys[slot] == Sum(rest))
       case _ => true
  }

  ghost predicate Contents(parts: map<Ticket, Part>, phys: seq<nat>) {
    forall t :: t in parts ==> Content(parts[t], phys)
  }

  /** A listing may be stale, but a slot nobody has never holds more than the listing says. */
  ghost predicate Listing(phase: Phase, phys: seq<nat>, allocations: set<nat>) {
    match phase
    case Idle => true
    case Requested => true
    case Answered(listing) =>
      |listing| == |phys| && forall x :: 0 <= x < |phys| && x !in allocations ==> phys[x] <= listing[x]
    case Storing(pending, failed) =>
      && (forall i :: 0 <= i < |pending| ==> pending[i].slot < |phys| && pending[i].slot !in allocations)
      && (!failed ==> forall x :: 0 <= x < |phys| && x !in allocations ==> phys[x] <= PlannedFor(pending, x))
  }

  /** The handle tells whether a task exists, so there is never a second one. */
  ghost predicate OneTask(s: System) {
    && (!s.draining ==> (s.bus.running <==> !s.phase.Idle?))
    && (s.draining ==> !s.bus.running && s.held == map[] && s.bus.waiters == [])
  }

  /** No lost wakeup: with nobody left to serve a waiter, some part holds each slot of the bus. */
  ghost predicate Awake(s: System) {
    s.phase.Idle? && s.bus.waiters != [] ==>
      s.bus.freeQueue == [] && forall x :: 0 <= x < |s.phys| ==> x in s.held
  }

  ghost predicate Core(s: System) {
    && Shape(s.bus, |s.phys|)
    && Partition(s.bus, s.held.Keys)
    && Owners(s.held, s.parts)
    && Queue(s.bus.waiters, s.parts)
    && Contents(s.parts, s.phys)
    && Listing(s.phase, s.phys, s.bus.allocations)
    && OneTask(s)
  }

  ghost predicate Inv(s: System) { Core(s) && Awake(s) }

  // ----- the invariant is kept by every step

  lemma StartInv(phys: seq<nat>)
    ensures Inv(Start(phys))
  {}

  lemma AskInv(s: System, t: Ticket, fills: seq<nat>, outs: seq<nat>, cap: nat)
    requires Inv(s) && !s.draining && t !in s.parts && Sum(fills) == Sum(outs) <= cap
    ensures Inv(AskFor(s, t, fills, outs, cap))
  {}

  lemma OwnersOther(held: map<nat, Ticket>, parts: map<Ticket, Part>, t: Ticket, state: PartState)
    requires Owners(held, parts) && t in parts && parts[t].state.Holding()
    requires state.Holding() && state.slot == parts[t].state.slot
    ensures Owners(held, parts[t := parts[t].(state := state)])
  {}

  /** A step that changes one part and what lies in the slot it holds. */
  lemma UpdateInv(s: System, t: Ticket, state: PartState, content: nat)
    requires Inv(s) && Holds(s, t) && state.Holding() && state.slot == s.parts[t].state.slot
    requires Content(s.parts[t].(state := state), s.phys[state.slot := content])
    ensures Inv(Update(s, t, state, content))
  {
    var s' := Update(s, t, state, content);
    assert Owns(s.held, t, s.parts[t]);
    OwnersOther(s.held, s.parts, t, state);
    forall u | u in s'.parts ensures Content(s'.parts[u], s'.phys) {
      assert Content(s.parts[u], s.phys) && Owns(s.held, u, s.parts[u]);
    }
    assert Listing(s'.phase, s'.phys, s'.bus.allocations);
  }

  /** A slot that was empty when it was granted has room for all the extractions of its part. */
  lemma PullFits(p: Part, phys: seq<nat>, k: nat)
    requires Content(p, phys) && p.state.Filling? && k < |p.state.rest|
    ensures Fits(p.state.rest[k], phys[p.state.slot], p.cap) == p.state.rest[k]
  {
    SumRemoveAt(p.state.rest, k);
  }

  lemma PullContent(p: Part, phys: seq<nat>, k: nat, content: nat, ok: bool)
    requires Content(p, phys) && p.state.Filling? && k < |p.state.rest|
    requires content <= phys[p.state.slot] + p.state.rest[k]
    requires p.state.ok && ok ==> content == phys[p.state.slot] + p.state.rest[k]
    ensures Content(p.(state := Pulled(p.state, k, ok)), phys[p.state.slot := content])
  {
    SumRemoveAt(p.state.rest, k);
  }

  lemma PullInv(s: System, t: Ticket, k: nat, content: nat, ok: bool)
    requires Inv(s) && Pulling(s, t, k)
    requires content <= s.phys[s.parts[t].state.slot] + s.parts[t].state.rest[k]
    requires s.parts[t].state.ok && ok ==> content == s.phys[s.parts[t].state.slot] + s.parts[t].state.rest[k]
    ensures Inv(Update(s, t, Pulled(s.parts[t].state, k, ok), content))
  {
    PullContent(s.parts[t], s.phys, k, content, ok);
    UpdateInv(s, t, Pulled(s.parts[t].state, k, ok), content);
  }

  /** A slot holds all that is still to be transferred out of it. */
  lemma PushFits(p: Part, phys: seq<nat>, k: nat)
    requires Content(p, phys) && p.state.Emptying? && p.state.ok && !p.state.kept && k < |p.state.rest|
    ensures Min(p.state.rest[k], phys[p.state.slot]) == p.state.rest[k]
  {
    SumRemoveAt(p.state.rest, k);
  }

  lemma PushContent(p: Part, phys: seq<nat>, k: nat, content: nat, ok: bool)
    requires Content(p, phys) && p.state.Emptying? && k < |p.state.rest|
    requires p.state.ok && !p.state.kept && ok ==> content + p.state.rest[k] == phys[p.state.slot]
    ensures Content(p.(state := Pushed(p.state, k, ok)), phys[p.state.slot := content])
  {
    SumRemoveAt(p.state.rest, k);
  }

  lemma PushInv(s: System, t: Ticket, k: nat, content: nat, ok: bool)
    requires Inv(s) && Pushing(s, t, k)
    requires s.parts[t].state.ok && !s.parts[t].state.kept && ok ==> content + s.parts[t].state.rest[k] == s.phys[s.parts[t].state.slot]
    ensures Inv(Update(s, t, Pushed(s.parts[t].state, k, ok), content))
  {
    PushContent(s.parts[t], s.phys, k, content, ok);
    UpdateInv(s, t, Pushed(s.parts[t].state, k, ok), content);
  }

  lemma TurnInv(s: System, t: Ticket)
    requires Inv(s) && Holds(s, t) && s.parts[t].state == Filling(s.parts[t].state.slot, [], true)
    ensures Inv(Update(s, t, Emptying(s.parts[t].state.slot, s.parts[t].outs, true, false),
                       s.phys[s.parts[t].state.slot]))
  {
    assert Content(s.parts[t], s.phys);
    UpdateInv(s, t, Emptying(s.parts[t].state.slot, s.parts[t].outs, true, false), s.phys[s.parts[t].state.slot]);
  }

  lemma OwnersGrant(held: map<nat, Ticket>, parts: map<Ticket, Part>, slot: nat, t: Ticket, state: PartState)
    requires Owners(held, parts) && slot !in held && t in parts && !parts[t].state.Holding()
    requires state.Holding() && state.slot == slot
    ensures Owners(held[slot := t], parts[t := parts[t].(state := state)])
  {
    var parts' := parts[t := parts[t].(state := state)];
    forall u | u in parts' ensures Owns(held[slot := t], u, parts'[u]) {
      assert Owns(held, u, parts[u]);
    }
  }

  /** Granting a slot that nobody has and that is empty. */
  lemma GrantOneCore(s: System, slot: nat)
    requires Core(s) && s.bus.waiters != [] && slot < |s.phys| && slot !in s.bus.allocations && s.phys[slot] == 0
    requires s.phase.Storing? ==> forall i :: 0 <= i < |s.phase.pending| ==> s.phase.pending[i].slot != slot
    ensures s.bus.waiters[0] in s.parts && s.parts[s.bus.waiters[0]].state.Waiting?
    ensures Core(GrantOne(s, slot))
  {
    var t := s.bus.waiters[0];
    assert t in s.bus.waiters;
    assert Content(s.parts[t], s.phys);
    var s' := GrantOne(s, slot);
    assert s.bus.waiters == [t] + s'.bus.waiters;
    assert s'.held.Keys == s.held.Keys + {slot};
    OwnersGrant(s.held, s.parts, slot, t, Filling(slot, s.parts[t].fills, true));
  }

  lemma InitIsDistinct(slots: seq<nat>, n: nat)
    requires Distinct(slots) && n + 1 == |slots|
    ensures Distinct(slots[..n]) && slots[n] in slots
    ensures forall x :: x in slots[..n] ==> x in slots && x != slots[n]
  {}

  /** Granting slots that nobody has and that are empty; only the allocator and the parts change. */
  lemma {:induction false} GrantAllCore(s: System, slots: seq<nat>)
    requires Core(s) && Distinct(slots) && !s.phase.Storing?
    requires forall x :: x in slots ==> x < |s.phys| && x !in s.bus.allocations && s.phys[x] == 0
    ensures Core(GrantAll(s, slots))
    decreases |slots|
  {
    if slots != [] && s.bus.waiters != [] {
      var n := |slots| - 1;
      var s1, rest := GrantOne(s, slots[n]), slots[..n];
      InitIsDistinct(slots, n);
      GrantOneCore(s, slots[n]);
      GrantAllCore(s1, rest);
    }
  }

  lemma OwnersLetGo(held: map<nat, Ticket>, parts: map<Ticket, Part>, t: Ticket)
    requires Owners(held, parts) && t in parts && parts[t].state.Holding()
    ensures Owners(held - {parts[t].state.slot}, parts[t := parts[t].(state := Done)])
  {
    var slot := parts[t].state.slot;
    var held', parts' := held - {slot}, parts[t := parts[t].(state := Done)];
    assert Owns(held, t, parts[t]);
    forall u | u in parts' ensures Owns(held', u, parts'[u]) {
      assert Owns(held, u, parts[u]);
    }
  }

  lemma LetGoCore(s: System, t: Ticket)
    requires Core(s) && Emptied(s, t) && s.parts[t].state.ok && !s.parts[t].state.kept
    ensures Core(LetGo(s, t))
  {
    var slot := s.parts[t].state.slot;
    assert Content(s.parts[t], s.phys) && Owns(s.held, t, s.parts[t]);
    var s' := LetGo(s, t);
    assert s'.held.Keys == s.held.Keys - {slot};
    OwnersLetGo(s.held, s.parts, t);
    forall u | u in s'.parts ensures Content(s'.parts[u], s'.phys) {
      assert Content(s.parts[u], s.phys);
    }
  }

  lemma FreeInv(s: System, t: Ticket)
    requires Inv(s) && Emptied(s, t) && s.parts[t].state.ok && !s.parts[t].state.kept
    ensures Inv(FreeOne(s, t)) && FreeOne(s, t).bus == Free(s.bus, s.parts[t].state.slot)
  {
    var slot := s.parts[t].state.slot;
    LetGoCore(s, t);
    assert slot in s.held;
    assert Content(s.parts[t], s.phys);
    if s.bus.waiters != [] {
      GrantOneCore(LetGo(s, t), slot);
      assert (s.bus.allocations - {slot}) + {slot} == s.bus.allocations;
    }
  }

  lemma SettleFrames(parts: map<Ticket, Part>, phys: seq<nat>, ts: set<Ticket>, state: PartState)
    requires Contents(parts, phys) && (state.Done? || state.Denied?)
    ensures Contents(Settle(parts, ts, state), phys)
  {
    forall u | u in parts ensures Content(Settle(parts, ts, state)[u], phys) {
      assert Content(parts[u], phys);
    }
  }

  lemma OwnersSettle(s: System, ts: seq<Ticket>)
    requires Owners(s.held, s.parts) && AllHold(s, ts)
    ensures Owners(s.held - SetOf(SlotsOf(s, ts)), Settle(s.parts, SetOf(ts), Done))
    ensures SetOf(SlotsOf(s, ts)) <= s.held.Keys && Distinct(SlotsOf(s, ts))
  {
    var slots := SlotsOf(s, ts);
    var parts' := Settle(s.parts, SetOf(ts), Done);
    var held' := s.held - SetOf(slots);
    forall i | 0 <= i < |ts| ensures slots[i] in s.held && s.held[slots[i]] == ts[i] {
      assert Holds(s, ts[i]) && Owns(s.held, ts[i], s.parts[ts[i]]);
    }
    forall x | x in held' ensures s.held[x] !in ts {
      forall i | 0 <= i < |ts| ensures ts[i] != s.held[x] {
        assert slots[i] in slots;
      }
    }
    forall u | u in parts' ensures Owns(held', u, parts'[u]) {
      assert Owns(s.held, u, s.parts[u]);
      if parts'[u].state.Holding() {
        forall i | 0 <= i < |ts| ensures slots[i] != s.parts[u].state.slot {
          assert ts[i] in ts;
        }
      }
    }
  }

  lemma PutAwayInv(s: System, ts: seq<Ticket>)
    requires Inv(s) && AllHold(s, ts)
    ensures Inv(PutAway(s, ts))
  {
    var slots, s' := SlotsOf(s, ts), PutAway(s, ts);
    OwnersSettle(s, ts);
    SettleFrames(s.parts, s.phys, SetOf(ts), Done);
    forall t | t in s.bus.waiters ensures t !in ts {
      forall i | 0 <= i < |ts| ensures ts[i] != t {
        assert Holds(s, ts[i]);
      }
    }
    if slots != [] {
      assert slots[0] in slots && slots[0] in s.held;
      assert !s.draining;
    }
    assert s'.held.Keys == s.held.Keys - SetOf(slots);
    if s.bus.running {
      assert SetOf(s.bus.freeQueue + slots) == SetOf(s.bus.freeQueue) + SetOf(slots);
    } else {
      assert s'.bus.allocations == s'.held.Keys + SetOf(s'.bus.freeQueue);
    }
  }

  lemma FailInv(s: System)
    requires Inv(s)
    ensures Inv(Fail(s))
  {
    SettleFrames(s.parts, s.phys, SetOf(s.bus.waiters), Denied);
    var s' := Fail(s);
    forall u | u in s'.parts ensures Owns(s'.held, u, s'.parts[u]) {
      assert Owns(s.held, u, s.parts[u]);
    }
    assert Queue(s'.bus.waiters, s'.parts);
  }

  lemma {:induction false} PlannedForRemoveAt(plan: seq<Transfer>, k: nat, slot: nat)
    requires k < |plan|
    ensures PlannedFor(RemoveAt(plan, k), slot)
         == PlannedFor(plan, slot) - (if plan[k].slot == slot then plan[k].amount else 0)
  {
    if k == 0 {
      assert RemoveAt(plan, k) == plan[1..];
    } else {
      assert RemoveAt(plan, k)[1..] == RemoveAt(plan[1..], k - 1);
      PlannedForRemoveAt(plan[1..], k - 1, slot);
    }
  }

  lemma StoreInv(s: System, k: nat, content: nat, ok: bool)
    requires Inv(s) && StoringOne(s, k) && content <= s.phys[s.phase.pending[k].slot]
    requires ok ==> content + StoreRoom(s, k) == s.phys[s.phase.pending[k].slot]
    ensures Inv(StoreOne(s, k, content, ok))
  {
    var s' := StoreOne(s, k, content, ok);
    var slot := s.phase.pending[k].slot;
    forall x | 0 <= x < |s.phys| && x !in s.bus.allocations && !s'.phase.failed
      ensures s'.phys[x] <= PlannedFor(s'.phase.pending, x)
    {
      PlannedForRemoveAt(s.phase.pending, k, x);
    }
    forall u | u in s.parts ensures Content(s.parts[u], s'.phys) {
      assert Content(s.parts[u], s.phys) && Owns(s.held, u, s.parts[u]);
    }
  }

  /** The slots handed out at the end of a listing: nobody has them, and they are empty by now. */
  lemma ListedFree(s: System)
    requires Core(s) && s.phase.Answered?
    ensures forall x :: x in FreeSlots(s.phase.listing, s.bus.allocations) ==>
              x < |s.phys| && x !in s.bus.allocations && s.phys[x] == 0
  {}

  lemma SucceedCore(s: System, everDeposited: bool)
    requires Core(s) && !s.phase.Idle?
    ensures Core(Succeed(s, everDeposited))
  {
    assert Drain(s.bus).allocations == s.held.Keys;
  }

  /** After the grants of a listing that leaves nothing to store: if someone still waits, every slot of
      the bus was already allocated or has just been granted. */
  lemma NothingLeft(s: System)
    requires Core(s) && s.phase.Answered?
    requires forall x :: 0 <= x < |s.phys| && x !in s.bus.allocations ==> s.phase.listing[x] == 0
    ensures var b := GiveAll(s.bus, FreeSlots(s.phase.listing, s.bus.allocations));
      b.waiters != [] ==> forall x :: 0 <= x < |s.phys| ==> x in b.allocations
  {
    GiveAllServes(s.bus, FreeSlots(s.phase.listing, s.bus.allocations));
  }

  lemma EmptyPlan(listing: seq<nat>, allocations: set<nat>)
    requires PlanFor([], true, listing, allocations)
    ensures forall x :: 0 <= x < |listing| && x !in allocations ==> listing[x] == 0
  {
    forall x | 0 <= x < |listing| && x !in allocations ensures listing[x] == 0 {
      assert PlannedFor([], x) == listing[x];
    }
  }

  lemma StoringCore(s: System, plan: seq<Transfer>, failed: bool, listing: seq<nat>)
    requires Core(s) && s.phase.Answered? && s.phase.listing == listing
    requires forall i :: 0 <= i < |plan| ==> plan[i].slot < |listing| && plan[i].slot !in s.bus.allocations
    requires !failed ==>
      forall x :: 0 <= x < |listing| && x !in s.bus.allocations ==> PlannedFor(plan, x) == listing[x]
    ensures Core(s.(phase := Storing(plan, failed)))
  {}

  lemma Granted(s: System)
    requires Core(s) && s.phase.Answered?
    ensures var s1 := GrantAll(s, FreeSlots(s.phase.listing, s.bus.allocations));
      && Core(s1) && s1.phase == s.phase && s1.phys == s.phys
      && s1.bus == GiveAll(s.bus, FreeSlots(s.phase.listing, s.bus.allocations))
      && s.bus.allocations <= s1.bus.allocations
      && forall x :: x in s1.bus.allocations && x !in s.bus.allocations ==> x < |s.phys| && s.phase.listing[x] == 0
  {
    var free := FreeSlots(s.phase.listing, s.bus.allocations);
    ListedFree(s);
    GrantAllCore(s, free);
    GiveAllServes(s.bus, free);
  }

  lemma AnswerStored(s: System, plan: seq<Transfer>, room: bool)
    requires Core(s) && s.phase.Answered? && PlanFor(plan, room, s.phase.listing, s.bus.allocations)
    requires plan != [] || !room
    ensures Inv(TakeAnswer(s, plan, room))
  {
    Granted(s);
    var s1 := GrantAll(s, FreeSlots(s.phase.listing, s.bus.allocations));
    StoringCore(s1, plan, !room, s.phase.listing);
  }

  lemma AnswerEnds(s: System)
    requires Core(s) && s.phase.Answered? && PlanFor([], true, s.phase.listing, s.bus.allocations)
    ensures Inv(TakeAnswer(s, [], true))
  {
    Granted(s);
    EmptyPlan(s.phase.listing, s.bus.allocations);
    NothingLeft(s);
    var s1 := GrantAll(s, FreeSlots(s.phase.listing, s.bus.allocations));
    SucceedCore(s1, false);
  }

  /** An extraction that does not fail brings the full amount: what others of the part have brought leaves room for it. */
  lemma FillIsExact(s: System, t: Ticket, k: nat, there: nat)
    requires Pulling(s, t, k) && SourceHolds(s, t, k, there) && Content(s.parts[t], s.phys)
    ensures Min(PullRoom(s, t, k), there) == s.parts[t].state.rest[k]
  {
    PullFits(s.parts[t], s.phys, k);
  }

  /** A transfer out of the slot of a part without failures, into which nothing else was put, brings the full amount. */
  lemma EmptyIsExact(s: System, t: Ticket, k: nat, room: nat)
    requires Pushing(s, t, k) && TargetTakes(s, t, k, room) && Content(s.parts[t], s.phys)
    ensures s.parts[t].state.ok && !s.parts[t].state.kept ==> Min(PushRoom(s, t, k), room) == s.parts[t].state.rest[k]
  {
    if s.parts[t].state.ok && !s.parts[t].state.kept {
      PushFits(s.parts[t], s.phys, k);
    }
  }

  lemma FillForm(s: System, t: Ticket, k: nat, there: nat, content: nat)
    requires Pulling(s, t, k) && SourceHolds(s, t, k, there) && Content(s.parts[t], s.phys)
    requires content == s.phys[s.parts[t].state.slot] + s.parts[t].state.rest[k]
    ensures FillFrom(s, t, k, there) == Update(s, t, Pulled(s.parts[t].state, k, true), content)
  {
    FillIsExact(s, t, k, there);
  }

  lemma FillStep(s: System, t: Ticket, k: nat, there: nat)
    requires Inv(s) && Pulling(s, t, k) && SourceHolds(s, t, k, there)
    ensures Inv(FillFrom(s, t, k, there))
  {
    var content := s.phys[s.parts[t].state.slot] + s.parts[t].state.rest[k];
    assert Content(s.parts[t], s.phys);
    FillForm(s, t, k, there, content);
    FilledInv(s, t, k, content, FillFrom(s, t, k, there));
  }

  lemma FilledInv(s: System, t: Ticket, k: nat, content: nat, s': System)
    requires Inv(s) && Pulling(s, t, k) && s' == Update(s, t, Pulled(s.parts[t].state, k, true), content)
    requires content == s.phys[s.parts[t].state.slot] + s.parts[t].state.rest[k]
    ensures Inv(s')
  {
    PullInv(s, t, k, content, true);
  }

  lemma EmptyStep(s: System, t: Ticket, k: nat, room: nat)
    requires Inv(s) && Pushing(s, t, k) && TargetTakes(s, t, k, room)
    ensures Inv(EmptyInto(s, t, k, room))
  {
    assert Content(s.parts[t], s.phys);
    EmptyIsExact(s, t, k, room);
    var content: nat := s.phys[s.parts[t].state.slot] - Min(PushRoom(s, t, k), room);
    PushInv(s, t, k, content, true);
    assert EmptyInto(s, t, k, room) == Update(s, t, Pushed(s.parts[t].state, k, true), content);
  }

  lemma FillFailsForm(s: System, t: Ticket, k: nat, moved: nat)
    requires Pulling(s, t, k) && moved <= PullRoom(s, t, k)
    ensures var st := s.parts[t].state;
      && moved <= st.rest[k]
      && Step(s, FillFails(t, k, moved)) == Update(s, t, Pulled(st, k, false), s.phys[st.slot] + moved)
  {}

  lemma FillFailsStep(s: System, t: Ticket, k: nat, moved: nat)
    requires Inv(s) && Pulling(s, t, k) && moved <= PullRoom(s, t, k)
    ensures Inv(Step(s, FillFails(t, k, moved)))
  {
    FillFailsForm(s, t, k, moved);
    PullInv(s, t, k, s.phys[s.parts[t].state.slot] + moved, false);
  }

  lemma EmptyFailsStep(s: System, t: Ticket, k: nat, moved: nat)
    requires Inv(s) && Pushing(s, t, k) && moved <= PushRoom(s, t, k)
    ensures Inv(Step(s, EmptyFails(t, k, moved)))
  {
    var st := s.parts[t].state;
    var content := s.phys[st.slot] - moved;
    PushInv(s, t, k, content, false);
    assert Step(s, EmptyFails(t, k, moved)) == Update(s, t, Pushed(st, k, false), content);
  }

  lemma ReceiveStep(s: System, t: Ticket, amount: nat)
    requires Inv(s) && Emptied(s, t)
    ensures Inv(Step(s, Receive(t, amount)))
  {
    assert Content(s.parts[t], s.phys);
    var st := s.parts[t].state;
    var content := s.phys[st.slot] + amount;
    UpdateInv(s, t, Emptying(st.slot, [], st.ok, true), content);
    assert Step(s, Receive(t, amount)) == Update(s, t, Emptying(st.slot, [], st.ok, true), content);
  }

  lemma StoreStep(s: System, k: nat, moved: nat, ok: bool)
    requires Inv(s) && StoringOne(s, k) && moved <= StoreRoom(s, k) && (ok ==> moved == StoreRoom(s, k))
    ensures Inv(Step(s, if ok then Store(k) else StoreFails(k, moved)))
  {
    var content := s.phys[s.phase.pending[k].slot] - moved;
    StoreInv(s, k, content, ok);
    assert Step(s, if ok then Store(k) else StoreFails(k, moved)) == StoreOne(s, k, content, ok);
  }

  lemma CycleStep(s: System, e: Event)
    requires Inv(s) && Enabled(s, e) && (e.EndCycle? || e.NextCycle? || e.Answer?)
    ensures Inv(Step(s, e))
  {
    if e.EndCycle? {
      HeadIsMember(s.bus.waiters);
    }
  }

  lemma UpdateStep(s: System, e: Event)
    requires Inv(s) && Enabled(s, e) && (e.Process? || e.Finish? || e.UpdateFails?)
    ensures Inv(Step(s, e))
  {
    if e.Process? {
      if e.plan == [] && e.room {
        AnswerEnds(s);
      } else {
        AnswerStored(s, e.plan, e.room);
      }
    } else {
      FailInv(s);
      SucceedCore(s, true);
    }
  }

  lemma LateContent(s: System, x: nat, content: nat, t: Ticket)
    requires Inv(s) && InTime(s, x, content) && t in s.parts
    ensures Content(s.parts[t], s.phys[x := content])
  {
    assert Content(s.parts[t], s.phys) && Owns(s.held, t, s.parts[t]);
  }

  /** A transfer that is carried out in time does no harm. */
  lemma LateInv(s: System, x: nat, content: nat)
    requires Inv(s) && InTime(s, x, content)
    ensures Inv(s.(phys := s.phys[x := content]))
  {
    var s' := s.(phys := s.phys[x := content]);
    forall t | t in s'.parts ensures Content(s'.parts[t], s'.phys) {
      LateContent(s, x, content, t);
    }
    assert Listing(s'.phase, s'.phys, s'.bus.allocations);
  }

  /** Every step of every kind keeps the invariant. */
  lemma StepInv(s: System, e: Event)
    requires Inv(s) && Enabled(s, e)
    ensures Inv(Step(s, e))
  {
    match e
    case Ask(t, fills, outs, cap) => AskInv(s, t, fills, outs, cap);
    case Fill(t, k, there) => FillStep(s, t, k, there);
    case FillFails(t, k, moved) => FillFailsStep(s, t, k, moved);
    case Turn(t) => TurnInv(s, t);
    case Empty(t, k, room) => EmptyStep(s, t, k, room);
    case EmptyFails(t, k, moved) => EmptyFailsStep(s, t, k, moved);
    case Receive(t, amount) => ReceiveStep(s, t, amount);
    case GiveBack(t) => FreeInv(s, t);
    case HandOver(ts) => PutAwayInv(s, ts);
    case Answer => CycleStep(s, e);
    case Process(plan, room) => UpdateStep(s, e);
    case Store(k) => StoreStep(s, k, StoreRoom(s, k), true);
    case StoreFails(k, moved) => StoreStep(s, k, moved, false);
    case Finish => UpdateStep(s, e);
    case UpdateFails => UpdateStep(s, e);
    case Late(x, content) => LateInv(s, x, content);
    case EndCycle(spawn) => CycleStep(s, e);
    case NextCycle => CycleStep(s, e);
  }

  // ----- whole runs

  /** The events can happen one after the other. */
  ghost predicate CanRun(s: System, es: seq<Event>)
    decreases |es|
  {
    es == [] || (Enabled(s, es[0]) && CanRun(Step(s, es[0]), es[1..]))
  }

  ghost function Run(s: System, es: seq<Event>): System
    requires CanRun(s, es)
    decreases |es|
  {
    if es == [] then s else Run(Step(s, es[0]), es[1..])
  }

  lemma RunCons(s: System, e: Event, es: seq<Event>)
    requires Enabled(s, e) && CanRun(Step(s, e), es)
    ensures CanRun(s, [e] + es) && Run(s, [e] + es) == Run(Step(s, e), es)
  {
    assert ([e] + es)[1..] == es;
  }

  lemma OneRuns(s: System, e: Event)
    requires Enabled(s, e)
    ensures CanRun(s, [e]) && Run(s, [e]) == Step(s, e)
  {
    assert [e][1..] == [];
  }

  lemma {:induction false} RunAppend(s: System, es: seq<Event>, fs: seq<Event>)
    requires CanRun(s, es) && CanRun(Run(s, es), fs)
    ensures CanRun(s, es + fs) && Run(s, es + fs) == Run(Run(s, es), fs)
    decreases |es|
  {
    if es == [] {
      assert es + fs == fs;
    } else {
      assert (es + fs)[1..] == es[1..] + fs;
      RunAppend(Step(s, es[0]), es[1..], fs);
    }
  }

  lemma {:induction false} RunInv(s: System, es: seq<Event>)
    requires Inv(s) && CanRun(s, es)
    ensures Inv(Run(s, es))
    decreases |es|
  {
    if es != [] {
      StepInv(s, es[0]);
      RunInv(Step(s, es[0]), es[1..]);
    }
  }
}
