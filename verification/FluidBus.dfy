/** The fluid bus (server/RustImpl/src/factory.rs): the same allocator as the item bus, with another background task.
    Ownership is as safe as on the item bus; a ticket may be passed over although a bus is free, and it is shown exactly when. */
module FluidBus {
  import opened Common
  import opened Bus

  /** The background task has asked for the contents, or is storing away what lies in the drained buses. */
  datatype Phase = Idle | Reading | Storing(drained: seq<nat>)

  /** `held` maps a bus to the ticket that has it; there are n buses. While `draining`, the cycle is over: factory_main has
      taken the task handle and waits for the task. */
  datatype System = System(bus: State, held: map<nat, Ticket>, phase: Phase, n: nat, draining: bool)

  datatype Event =
    | Ask(t: Ticket)
    | GiveBack(x: nat)
    | PutBack(xs: seq<nat>)
    | Answer(empty: seq<nat>, drained: seq<nat>)
    | Stored
    | Fails
    | EndCycle(spawn: bool)
    | NextCycle

  function Start(n: nat): System { System(EMPTY, map[], Idle, n, false) }

  /** Who has which bus after listed buses, last first, have gone to waiters, oldest first. */
  function HeldAll(b: State, held: map<nat, Ticket>, slots: seq<nat>): map<nat, Ticket>
    decreases |slots|
  {
    if slots == [] || b.waiters == [] then held
    else HeldAll(Give(b, slots[|slots| - 1]), held[slots[|slots| - 1] := b.waiters[0]], slots[..|slots| - 1])
  }

  /** The buses that nobody has are empty or hold some fluid. */
  ghost predicate Listed(s: System, empty: seq<nat>, drained: seq<nat>) {
    && Distinct(empty) && Distinct(drained) && SetOf(empty) !! SetOf(drained)
    && forall x: nat :: x in empty || x in drained <==> x < s.n && x !in s.bus.allocations
  }

  ghost predicate Enabled(s: System, e: Event) {
    match e
    case Ask(t) => !s.draining
    case GiveBack(x) => x in s.held
    case PutBack(xs) => Distinct(xs) && forall x :: x in xs ==> x in s.held
    case Answer(empty, drained) => s.phase.Reading? && Listed(s, empty, drained)
    case Stored => s.phase.Storing?
    case Fails => !s.phase.Idle?
    case EndCycle(spawn) => !s.draining && s.held == map[] && s.bus.waiters == [] && (spawn ==> s.phase.Idle?)
    case NextCycle => s.draining && s.phase.Idle?
  }

  /** The end of an update that worked: drained buses are offered, queued ones become free; only the latter make the
      task go round again. */
  function Finish(s: System, drained: seq<nat>): System {
    var b := GiveAll(s.bus, drained);
    var held := HeldAll(s.bus, s.held, drained);
    if b.freeQueue != [] then s.(bus := Drain(b), held := held, phase := Reading)
    else s.(bus := b.(running := false), held := held, phase := Idle)
  }

  function Step(s: System, e: Event): System
    requires Enabled(s, e)
  {
    match e
    case Ask(t) => s.(bus := Allocate(s.bus, t), phase := if s.bus.running then s.phase else Reading)
    case GiveBack(x) =>
      s.(bus := Free(s.bus, x),
         held := if s.bus.waiters != [] then s.held[x := s.bus.waiters[0]] else s.held - {x})
    case PutBack(xs) =>
      s.(bus := Deposit(s.bus, xs), held := s.held - SetOf(xs),
         phase := if s.bus.running || xs == [] then s.phase else Reading)
    case Answer(empty, drained) =>
      var s1 := s.(bus := GiveAll(s.bus, empty), held := HeldAll(s.bus, s.held, empty));
      if drained == [] then Finish(s1, []) else s1.(phase := Storing(drained))
    case Stored => Finish(s, s.phase.drained)
    case Fails => s.(bus := s.bus.(waiters := [], running := false), phase := Idle)
    case EndCycle(spawn) =>
      s.(bus := s.bus.(running := false), phase := if spawn then Reading else s.phase, draining := true)
    case NextCycle => s.(draining := false)
  }

  ghost predicate Inv(s: System) {
    && s.bus.allocations == s.held.Keys + SetOf(s.bus.freeQueue) && s.held.Keys !! SetOf(s.bus.freeQueue)
    && Distinct(s.bus.freeQueue) && (forall x :: x in s.bus.allocations ==> x < s.n)
    && (s.bus.running <==> !s.phase.Idle? && !s.draining)
    && (s.draining ==> s.held == map[] && s.bus.waiters == [])
    && (s.phase.Storing? ==>
          Distinct(s.phase.drained) && forall x :: x in s.phase.drained ==> x < s.n && x !in s.bus.allocations)
  }

  lemma InitDiffers(slots: seq<nat>, k: nat, used: set<nat>)
    requires Distinct(slots) && |slots| == k + 1 && forall x :: x in slots ==> x !in used
    ensures Distinct(slots[..k]) && slots[k] !in used && forall x :: x in slots[..k] ==> x !in used + {slots[k]}
  {
    assert slots[k] in slots;
    forall x | x in slots[..k] ensures x !in used + {slots[k]} {
      var i :| 0 <= i < |slots[..k]| && slots[..k][i] == x;
      assert slots[i] == x;
    }
  }

  lemma OneMoreGranted(held: set<nat>, used: set<nat>, after: set<nat>, slot: nat)
    requires held <= used && slot !in used && used + {slot} <= after
    ensures (held + {slot}) + (after - (used + {slot})) == held + (after - used)
  {}

  /** Handing out buses that nobody has gives each of them to one waiter and takes none away from anybody. */
  lemma {:induction false} HeldAllGrants(b: State, held: map<nat, Ticket>, slots: seq<nat>)
    requires Distinct(slots) && (forall x :: x in slots ==> x !in b.allocations) && held.Keys <= b.allocations
    ensures HeldAll(b, held, slots).Keys == held.Keys + (GiveAll(b, slots).allocations - b.allocations)
    ensures forall x :: x in held ==> x in HeldAll(b, held, slots) && HeldAll(b, held, slots)[x] == held[x]
    decreases |slots|
  {
    if slots != [] && b.waiters != [] {
      var k := |slots| - 1;
      var slot, rest := slots[k], slots[..k];
      var b1, held1 := Give(b, slot), held[slot := b.waiters[0]];
      InitDiffers(slots, k, b.allocations);
      assert held1.Keys == held.Keys + {slot};
      HeldAllGrants(b1, held1, rest);
      GiveAllServes(b1, rest);
      OneMoreGranted(held.Keys, b.allocations, GiveAll(b1, rest).allocations, slot);
    }
  }

  lemma GrantInv(s: System, slots: seq<nat>)
    requires Inv(s) && Distinct(slots) && forall x :: x in slots ==> x < s.n && x !in s.bus.allocations
    ensures var b, held := GiveAll(s.bus, slots), HeldAll(s.bus, s.held, slots);
      && b.allocations == held.Keys + SetOf(b.freeQueue) && held.Keys !! SetOf(b.freeQueue)
      && b.freeQueue == s.bus.freeQueue && b.running == s.bus.running
      && (forall x :: x in b.allocations ==> x < s.n)
      && (forall x :: x in s.held ==> x in held && held[x] == s.held[x])
  {
    GiveAllServes(s.bus, slots);
    HeldAllGrants(s.bus, s.held, slots);
  }

  lemma FinishInv(s: System, drained: seq<nat>)
    requires Inv(s) && !s.phase.Idle? && Distinct(drained) && forall x :: x in drained ==> x < s.n && x !in s.bus.allocations
    ensures Inv(Finish(s, drained))
    ensures forall x :: x in s.held ==> x in Finish(s, drained).held && Finish(s, drained).held[x] == s.held[x]
  {
    GrantInv(s, drained);
  }

  lemma AnswerInv(s: System, empty: seq<nat>, drained: seq<nat>)
    requires Inv(s) && Enabled(s, Answer(empty, drained))
    ensures Inv(Step(s, Answer(empty, drained)))
    ensures forall x :: x in s.held ==>
      x in Step(s, Answer(empty, drained)).held && Step(s, Answer(empty, drained)).held[x] == s.held[x]
  {
    GrantInv(s, empty);
    GiveAllServes(s.bus, empty);
    var s1 := s.(bus := GiveAll(s.bus, empty), held := HeldAll(s.bus, s.held, empty));
    if drained == [] {
      FinishInv(s1, []);
    }
  }

  lemma FreeInv(s: System, x: nat)
    requires Inv(s) && x in s.held
    ensures Inv(Step(s, GiveBack(x)))
  {
    var s' := Step(s, GiveBack(x));
    if s.bus.waiters != [] {
      assert s'.held.Keys == s.held.Keys;
    } else {
      assert s'.held.Keys == s.held.Keys - {x};
    }
  }

  lemma PutBackInv(s: System, xs: seq<nat>)
    requires Inv(s) && Enabled(s, PutBack(xs))
    ensures Inv(Step(s, PutBack(xs)))
  {
    var s' := Step(s, PutBack(xs));
    assert s'.held.Keys == s.held.Keys - SetOf(xs);
    assert xs == [] || xs[0] in s.held;
    if s.bus.running {
      QueueGrows(s.bus.freeQueue, xs);
      assert s'.bus.allocations == s'.held.Keys + SetOf(s'.bus.freeQueue);
    }
  }

  lemma QueueGrows(queue: seq<nat>, xs: seq<nat>)
    requires Distinct(queue) && Distinct(xs) && SetOf(queue) !! SetOf(xs)
    ensures Distinct(queue + xs) && SetOf(queue + xs) == SetOf(queue) + SetOf(xs)
  {
    forall i, j | 0 <= i < j < |queue + xs| ensures (queue + xs)[i] != (queue + xs)[j] {
      if i < |queue| && j >= |queue| {
        assert queue[i] in SetOf(queue) && xs[j - |queue|] in SetOf(xs);
      }
    }
  }

  predicate Releases(e: Event, x: nat) {
    (e.GiveBack? && e.x == x) || (e.PutBack? && x in e.xs)
  }

  /** Exclusive ownership: no step takes a bus away from its holder, except the holder's own; and the allocated buses
      stay the disjoint union of held and queued ones. */
  lemma OwnershipIsSafe(s: System, e: Event)
    requires Inv(s) && Enabled(s, e)
    ensures Inv(Step(s, e))
    ensures forall x :: x in s.held && !Releases(e, x) ==> x in Step(s, e).held && Step(s, e).held[x] == s.held[x]
  {
    match e
    case Ask(t) =>
    case GiveBack(x) => FreeInv(s, x);
    case PutBack(xs) => PutBackInv(s, xs);
    case Answer(empty, drained) => AnswerInv(s, empty, drained);
    case Stored => FinishInv(s, s.phase.drained);
    case _ => {}
  }

  ghost predicate CanRun(s: System, es: seq<Event>)
    decreases |es|
  {
    es != [] ==> Enabled(s, es[0]) && CanRun(Step(s, es[0]), es[1..])
  }

  ghost function Run(s: System, es: seq<Event>): System
    requires CanRun(s, es)
    decreases |es|
  {
    if es == [] then s else Run(Step(s, es[0]), es[1..])
  }

  lemma {:induction false} RunInv(s: System, es: seq<Event>)
    requires Inv(s) && CanRun(s, es)
    ensures Inv(Run(s, es)) && Run(s, es).n == s.n
    decreases |es|
  {
    if es != [] {
      OwnershipIsSafe(s, es[0]);
      RunInv(Step(s, es[0]), es[1..]);
    }
  }

  /** In every run: a holder keeps its bus until it lets go of it, and the task is remembered while it runs. */
  lemma HoldersKeepTheirBus(n: nat, es: seq<Event>, e: Event, x: nat)
    requires CanRun(Start(n), es) && Enabled(Run(Start(n), es), e)
    requires x in Run(Start(n), es).held && !Releases(e, x)
    ensures var s := Run(Start(n), es);
      && x in Step(s, e).held && Step(s, e).held[x] == s.held[x]
      && s.bus.allocations == s.held.Keys + SetOf(s.bus.freeQueue) && s.held.Keys !! SetOf(s.bus.freeQueue)
      && (s.bus.running <==> !s.phase.Idle? && !s.draining)
  {
    RunInv(Start(n), es);
    OwnershipIsSafe(Run(Start(n), es), e);
  }

  // ----- progress

  /** With the task at rest, a ticket waits only when every bus is held by somebody. */
  ghost predicate Awake(s: System) {
    s.phase.Idle? && s.bus.waiters != [] ==> forall x :: 0 <= x < s.n ==> x in s.held
  }

  /** An update that has nothing to store away leaves nobody waiting for a bus that is free. */
  lemma QuietUpdateServes(s: System, empty: seq<nat>)
    requires Inv(s) && Enabled(s, Answer(empty, []))
    ensures Awake(Step(s, Answer(empty, [])))
  {
    GrantInv(s, empty);
    GiveAllServes(s.bus, empty);
    var s' := Step(s, Answer(empty, []));
    if s'.phase.Idle? && s'.bus.waiters != [] {
      forall x | 0 <= x < s.n ensures x in s'.held {
        assert x in SetOf(empty) || x in s.bus.allocations;
      }
    }
  }

  /** When the drained buses have been stored away and no bus is queued, the task stops. It leaves nobody waiting for a
      free bus exactly if the drained buses are enough for the waiters or no other bus is free. */
  lemma StoredServesExactlyWhen(s: System)
    requires Inv(s) && s.phase.Storing? && s.bus.freeQueue == []
    ensures Step(s, Stored).phase.Idle?
    ensures Awake(Step(s, Stored)) <==>
      || |s.bus.waiters| <= |s.phase.drained|
      || forall x :: 0 <= x < s.n ==> x in s.bus.allocations || x in s.phase.drained
  {
    GrantInv(s, s.phase.drained);
    GiveAllServes(s.bus, s.phase.drained);
    HeldAllGrants(s.bus, s.held, s.phase.drained);
    var s' := Step(s, Stored);
    assert s'.held.Keys == s'.bus.allocations;
    if |s.bus.waiters| > |s.phase.drained| {
      assert s'.bus.waiters != [];
      assert s'.bus.allocations == s.bus.allocations + SetOf(s.phase.drained);
    }
  }

  /** The task is about to stop without looking at the buses that were found empty or have been freed meanwhile. */
  ghost predicate Forgets(s: System, e: Event) {
    && e.Stored? && s.phase.Storing? && s.bus.freeQueue == []
    && |s.bus.waiters| > |s.phase.drained|
    && exists x :: 0 <= x < s.n && x !in s.bus.allocations && x !in s.phase.drained
  }

  lemma StoredServes(s: System)
    requires Inv(s) && Enabled(s, Stored) && !Forgets(s, Stored)
    ensures Awake(Step(s, Stored))
  {
    if s.bus.freeQueue == [] {
      StoredServesExactlyWhen(s);
    } else {
      GiveAllServes(s.bus, s.phase.drained);
    }
  }

  /** No other step leaves a ticket waiting beside a free bus. */
  lemma AwakeStep(s: System, e: Event)
    requires Inv(s) && Awake(s) && Enabled(s, e) && !Forgets(s, e)
    ensures Awake(Step(s, e))
  {
    match e
    case Answer(empty, drained) => if drained == [] { QuietUpdateServes(s, empty); }
    case Stored => StoredServes(s);
    case _ => {}
  }

  ghost predicate NeverForgets(s: System, es: seq<Event>)
    requires CanRun(s, es)
    decreases |es|
  {
    es != [] ==> !Forgets(s, es[0]) && NeverForgets(Step(s, es[0]), es[1..])
  }

  lemma {:induction false} RunAwake(s: System, es: seq<Event>)
    requires Inv(s) && Awake(s) && CanRun(s, es) && NeverForgets(s, es)
    ensures Awake(Run(s, es))
    decreases |es|
  {
    if es != [] {
      AwakeStep(s, es[0]);
      OwnershipIsSafe(s, es[0]);
      RunAwake(Step(s, es[0]), es[1..]);
    }
  }

  /** In a run in which that does not happen, nobody ever waits beside a free bus with no task at work; and where it does
      happen, exactly that is the result. */
  lemma WaitersAreServedUnlessForgotten(n: nat, es: seq<Event>)
    requires CanRun(Start(n), es)
    ensures NeverForgets(Start(n), es) ==> Awake(Run(Start(n), es))
    ensures forall e :: Enabled(Run(Start(n), es), e) && Forgets(Run(Start(n), es), e) ==> !Awake(Step(Run(Start(n), es), e))
  {
    if NeverForgets(Start(n), es) {
      RunAwake(Start(n), es);
    }
    RunInv(Start(n), es);
    var s := Run(Start(n), es);
    if Enabled(s, Stored) && Forgets(s, Stored) {
      StoredServesExactlyWhen(s);
    }
  }

  /** A ticket that waits with the task at rest waits for somebody who holds a bus. */
  ghost predicate SomeBusIsHeld(s: System) {
    && (s.n > 0 && s.phase.Idle? && s.bus.waiters != [] ==> s.held != map[])
    && (s.phase.Storing? ==> s.phase.drained != [])
  }

  lemma FinishHolds(s: System, drained: seq<nat>)
    requires Inv(s) && Distinct(drained) && forall x :: x in drained ==> x < s.n && x !in s.bus.allocations
    requires drained != []
    ensures SomeBusIsHeld(Finish(s, drained))
  {
    GrantInv(s, drained);
    GiveAllServes(s.bus, drained);
    var s' := Finish(s, drained);
    if s'.phase.Idle? && s'.bus.waiters != [] {
      assert drained[0] in SetOf(drained) && drained[0] in s'.held;
    }
  }

  lemma QuietHolds(s: System, empty: seq<nat>)
    requires Inv(s) && Enabled(s, Answer(empty, []))
    ensures SomeBusIsHeld(Step(s, Answer(empty, [])))
  {
    QuietUpdateServes(s, empty);
    var s' := Step(s, Answer(empty, []));
    if s'.n > 0 && s'.phase.Idle? && s'.bus.waiters != [] {
      assert 0 in s'.held;
    }
  }

  lemma ReleaseStep(s: System, e: Event)
    requires Inv(s) && SomeBusIsHeld(s) && Enabled(s, e)
    ensures SomeBusIsHeld(Step(s, e))
  {
    match e
    case Answer(empty, drained) => if drained == [] { QuietHolds(s, empty); }
    case Stored => FinishHolds(s, s.phase.drained);
    case GiveBack(x) => if s.bus.waiters != [] { assert x in Step(s, e).held; }
    case _ => {}
  }

  lemma {:induction false} RunReleases(s: System, es: seq<Event>)
    requires Inv(s) && SomeBusIsHeld(s) && CanRun(s, es)
    ensures SomeBusIsHeld(Run(s, es))
    decreases |es|
  {
    if es != [] {
      ReleaseStep(s, es[0]);
      OwnershipIsSafe(s, es[0]);
      RunReleases(Step(s, es[0]), es[1..]);
    }
  }

  /** What a release would do: a ticket that waits with no task at work waits for the holder of some bus, and the first one to
      free its bus would hand it to the oldest ticket, while the first one to hand it back for emptying would start the task
      again. That a release comes is not said: the holder's job may itself wait for a bus (FluidWaits). */
  lemma NextReleaseServes(n: nat, es: seq<Event>)
    requires n > 0 && CanRun(Start(n), es)
    requires Run(Start(n), es).phase.Idle? && Run(Start(n), es).bus.waiters != []
    ensures var s := Run(Start(n), es);
      && (exists x :: x in s.held)
      && (forall x :: x in s.held ==> Step(s, GiveBack(x)).held == s.held[x := s.bus.waiters[0]])
      && (forall xs :: xs != [] && Enabled(s, PutBack(xs)) ==> Step(s, PutBack(xs)).phase.Reading?)
  {
    RunInv(Start(n), es);
    RunReleases(Start(n), es);
  }

  lemma RunOne(s: System, e: Event, rest: seq<Event>)
    requires Enabled(s, e) && CanRun(Step(s, e), rest)
    ensures CanRun(s, [e] + rest) && Run(s, [e] + rest) == Run(Step(s, e), rest)
  {
    assert ([e] + rest)[1..] == rest;
  }

  /** Bus 1 holds some fluid, buses 0 and 2 are empty; one ticket has asked and got bus 2. */
  lemma FirstAnswer() returns (s: System)
    ensures CanRun(Start(3), [Ask(10), Answer([0, 2], [1])])
    ensures s == Run(Start(3), [Ask(10), Answer([0, 2], [1])])
    ensures s == System(State({2}, [], [], true), map[2 := 10], Storing([1]), 3, false)
  {
    var s1 := Step(Start(3), Ask(10));
    s := Step(s1, Answer([0, 2], [1]));
    assert [0, 2][..1] == [0] && ({} + {2}) == {2};
    RunOne(s1, Answer([0, 2], [1]), []);
    RunOne(Start(3), Ask(10), [Answer([0, 2], [1])]);
    assert [Answer([0, 2], [1])] + [] == [Answer([0, 2], [1])];
    assert [Ask(10)] + [Answer([0, 2], [1])] == [Ask(10), Answer([0, 2], [1])];
  }

  lemma {:induction false} RunAppend(s: System, xs: seq<Event>, ys: seq<Event>)
    requires CanRun(s, xs) && CanRun(Run(s, xs), ys)
    ensures CanRun(s, xs + ys) && Run(s, xs + ys) == Run(Run(s, xs), ys)
    decreases |xs|
  {
    if xs == [] {
      assert xs + ys == ys;
    } else {
      RunAppend(Step(s, xs[0]), xs[1..], ys);
      assert xs + ys == [xs[0]] + (xs[1..] + ys);
      RunOne(s, xs[0], xs[1..] + ys);
    }
  }

  /** A run after which ticket 12 waits although bus 0 is free and no task is left: while the contents of bus 1 were
      being stored away, two more tickets came, and only bus 1 was offered to them. */
  lemma TicketMayBeForgotten()
    ensures exists es :: CanRun(Start(3), es) && !Awake(Run(Start(3), es))
  {
    var s2 := FirstAnswer();
    var s3 := Step(s2, Ask(11));
    var s4 := Step(s3, Ask(12));
    var s5 := Step(s4, Stored);
    assert s4.bus.waiters == [11, 12];
    assert s5.phase.Idle? && s5.bus.waiters == [12] && 0 !in s5.held;
    RunOne(s4, Stored, []);
    RunOne(s3, Ask(12), [Stored] + []);
    RunOne(s2, Ask(11), [Ask(12)] + ([Stored] + []));
    var first, second := [Ask(10), Answer([0, 2], [1])], [Ask(11)] + ([Ask(12)] + ([Stored] + []));
    RunAppend(Start(3), first, second);
    assert !Awake(Run(Start(3), first + second));
  }

  /** After an update that succeeds the fluid task starts over exactly if buses were handed over meanwhile, and has let go of
      them; whoever waits does not matter. */
  lemma FluidTaskGoesOnExactlyWhen(s: System, e: Event)
    requires Enabled(s, e) && (e.Stored? || (e.Answer? && e.drained == []))
    ensures Step(s, e).phase.Reading? || Step(s, e).phase.Idle?
    ensures Step(s, e).phase.Reading? <==> s.bus.freeQueue != []
    ensures Step(s, e).bus.freeQueue == [] && (Step(s, e).phase.Idle? ==> !Step(s, e).bus.running)
  {
    if e.Answer? {
      GiveAllServes(s.bus, e.empty);
      GiveAllServes(GiveAll(s.bus, e.empty), []);
    } else {
      GiveAllServes(s.bus, s.phase.drained);
    }
  }

  /** A bus that was handed over is held by nobody until an update has ended well. */
  lemma HandedOverWaits(s: System, e: Event, x: nat)
    requires Inv(s) && Enabled(s, e) && x in s.bus.freeQueue
    requires !e.Stored? && !(e.Answer? && e.drained == [])
    ensures x in Step(s, e).bus.freeQueue && x in Step(s, e).bus.allocations && x !in Step(s, e).held
  {
    OwnershipIsSafe(s, e);
    if e.Answer? {
      GiveAllServes(s.bus, e.empty);
    }
    assert x in Step(s, e).bus.freeQueue;
    assert x in SetOf(Step(s, e).bus.freeQueue);
  }
}
