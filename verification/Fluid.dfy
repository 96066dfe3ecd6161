/** Fluid storages (server/RustImpl/src/factory.rs) and the fluid part of recipes
    (server/RustImpl/src/process/fluid_slotted.rs). A storage keeps two counters: at least `nStoredLo` can still be
    promised, and at most `nStoredHi` is or will be in the tank. */
module Fluid {
  import opened Common
  import opened Supply
  import Chest

  // ----- reading the tanks of a storage

  /** One tank of a block, as it is read; an empty one holds no fluid. */
  datatype Tank = Tank(capacity: nat, qty: nat, fluid: Option<string>)

  /** The tank holds the storage's fluid, or may get it. */
  predicate Suits(tank: Tank, fluid: string) { tank.fluid.None? || tank.fluid.value == fluid }

  predicate TanksOk(tanks: seq<Tank>) {
    forall i :: 0 <= i < |tanks| ==> tanks[i].qty <= tanks[i].capacity && (tanks[i].fluid.None? <==> tanks[i].qty == 0)
  }

  function QtyIn(tanks: seq<Tank>, fluid: string): nat {
    if tanks == [] then 0
    else QtyIn(tanks[..|tanks| - 1], fluid) + (if Suits(tanks[|tanks| - 1], fluid) then tanks[|tanks| - 1].qty else 0)
  }

  function CapacityOf(tanks: seq<Tank>, fluid: string): nat {
    if tanks == [] then 0
    else CapacityOf(tanks[..|tanks| - 1], fluid) + (if Suits(tanks[|tanks| - 1], fluid) then tanks[|tanks| - 1].capacity else 0)
  }

  /** The tank that is drawn from: the last one without another fluid. */
  function SlotOf(tanks: seq<Tank>, fluid: string): (r: Option<nat>)
    ensures r.Some? ==>
      && r.value < |tanks| && Suits(tanks[r.value], fluid)
      && forall i :: r.value < i < |tanks| ==> !Suits(tanks[i], fluid)
    ensures r.None? ==> forall i :: 0 <= i < |tanks| ==> !Suits(tanks[i], fluid)
  {
    if tanks == [] then None
    else if Suits(tanks[|tanks| - 1], fluid) then Some(|tanks| - 1)
    else
      var r := SlotOf(tanks[..|tanks| - 1], fluid);
      assert forall i :: 0 <= i < |tanks| - 1 ==> tanks[i] == tanks[..|tanks| - 1][i];
      r
  }

  function DrawnQty(tanks: seq<Tank>, fluid: string): nat {
    if SlotOf(tanks, fluid).Some? then tanks[SlotOf(tanks, fluid).value].qty else 0
  }

  /** No tank but the one drawn from holds any of the storage's fluid. */
  predicate InOneTank(tanks: seq<Tank>, fluid: string) {
    forall i :: 0 <= i < |tanks| && Suits(tanks[i], fluid) && SlotOf(tanks, fluid) != Some(i) ==> tanks[i].qty == 0
  }

  lemma {:induction false} QtyAtLeast(tanks: seq<Tank>, fluid: string, i: nat)
    requires i < |tanks| && Suits(tanks[i], fluid)
    ensures QtyIn(tanks, fluid) >= tanks[i].qty
    decreases |tanks|
  {
    if i < |tanks| - 1 {
      QtyAtLeast(tanks[..|tanks| - 1], fluid, i);
    }
  }

  lemma {:induction false} NoQty(tanks: seq<Tank>, fluid: string)
    requires forall i :: 0 <= i < |tanks| && Suits(tanks[i], fluid) ==> tanks[i].qty == 0
    ensures QtyIn(tanks, fluid) == 0
    decreases |tanks|
  {
    if tanks != [] {
      NoQty(tanks[..|tanks| - 1], fluid);
    }
  }

  lemma {:induction false} QtyFits(tanks: seq<Tank>, fluid: string)
    requires TanksOk(tanks)
    ensures QtyIn(tanks, fluid) <= CapacityOf(tanks, fluid)
    decreases |tanks|
  {
    if tanks != [] {
      QtyFits(tanks[..|tanks| - 1], fluid);
    }
  }

  /** What is counted is what can be drawn, exactly if it all is in the tank drawn from. */
  lemma {:induction false} CountedIsDrawnExactlyWhen(tanks: seq<Tank>, fluid: string)
    ensures DrawnQty(tanks, fluid) <= QtyIn(tanks, fluid)
    ensures QtyIn(tanks, fluid) == DrawnQty(tanks, fluid) <==> InOneTank(tanks, fluid)
    decreases |tanks|
  {
    if tanks != [] {
      var n := |tanks| - 1;
      var init := tanks[..n];
      if Suits(tanks[n], fluid) {
        if InOneTank(tanks, fluid) {
          forall i | 0 <= i < n && Suits(init[i], fluid) ensures init[i].qty == 0 {
            assert Suits(tanks[i], fluid) && tanks[i] == init[i];
          }
          NoQty(init, fluid);
        } else {
          var i :| 0 <= i < |tanks| && Suits(tanks[i], fluid) && SlotOf(tanks, fluid) != Some(i) && tanks[i].qty > 0;
          QtyAtLeast(init, fluid, i);
        }
      } else {
        CountedIsDrawnExactlyWhen(init, fluid);
        assert forall i :: 0 <= i < n ==> tanks[i] == init[i];
        assert InOneTank(tanks, fluid) <==> InOneTank(init, fluid);
      }
    }
  }

  /** Each tank counts for itself, wherever it stands: one without another fluid adds its content and its capacity, one with
      another fluid adds nothing. */
  lemma {:induction false} EachTankCounts(before: seq<Tank>, tank: Tank, after: seq<Tank>, fluid: string)
    ensures QtyIn([], fluid) == 0 && CapacityOf([], fluid) == 0
    ensures QtyIn(before + [tank] + after, fluid) == QtyIn(before + after, fluid)
      + (if tank.fluid.None? || tank.fluid == Some(fluid) then tank.qty else 0)
    ensures CapacityOf(before + [tank] + after, fluid) == CapacityOf(before + after, fluid)
      + (if tank.fluid.None? || tank.fluid == Some(fluid) then tank.capacity else 0)
    decreases |after|
  {
    if after == [] {
      assert before + [tank] + after == before + [tank] && before + after == before;
      assert (before + [tank])[..|before|] == before;
    } else {
      var n := |after| - 1;
      var longer, shorter := before + [tank] + after, before + after;
      EachTankCounts(before, tank, after[..n], fluid);
      assert longer[..|longer| - 1] == before + [tank] + after[..n] && shorter[..|shorter| - 1] == before + after[..n];
      assert longer[|longer| - 1] == after[n] == shorter[|shorter| - 1];
    }
  }

  // ----- one storage, with everything that is under way

  /** `drawn` is what lies in the tank that is drawn from, `others` what lies in the storage's other tanks. */
  datatype Stock = Stock(hi: nat, lo: nat, capacity: nat, drawn: nat, others: nat, pulls: seq<Chest.Pull>, puts: seq<nat>)

  datatype StockEvent =
    | Reserve(amount: nat, tag: Chest.Tag)
    | Extract(k: nat)
    | ExtractFails(k: nat, moved: nat)
    | Acknowledge(k: nat)
    | Deposit(amount: nat)
    | Arrive(k: nat, moved: nat, aside: nat)

  /** The counters after the tanks have been read: they add up all tanks. */
  function Read(tanks: seq<Tank>, fluid: string): Stock {
    var qty := QtyIn(tanks, fluid);
    Stock(qty, qty, CapacityOf(tanks, fluid), DrawnQty(tanks, fluid), Max(0, qty - DrawnQty(tanks, fluid)), [], [])
  }

  /** A real transfer moves at most what is there and what has room; deposits may arrive in part, and in any tank. */
  predicate Enabled(t: Stock, e: StockEvent) {
    match e
    case Reserve(amount, tag) => 0 < amount <= t.lo
    case Extract(k) => k < |t.pulls| && !t.pulls[k].moved
    case ExtractFails(k, moved) => k < |t.pulls| && !t.pulls[k].moved && moved <= Min(t.pulls[k].amount, t.drawn)
    case Acknowledge(k) => k < |t.pulls| && t.pulls[k].moved
    case Deposit(amount) => amount <= t.capacity - t.hi
    case Arrive(k, moved, aside) =>
      k < |t.puts| && moved + aside <= Min(t.puts[k], t.capacity - t.drawn - t.others)
  }

  /** An extraction takes from the one tank only. */
  function Step(t: Stock, e: StockEvent): Stock
    requires Enabled(t, e)
  {
    match e
    case Reserve(amount, tag) => t.(lo := t.lo - amount, pulls := t.pulls + [Chest.Pull(amount, false, tag)])
    case Extract(k) =>
      t.(drawn := Max(0, t.drawn - t.pulls[k].amount), pulls := t.pulls[k := t.pulls[k].(moved := true)])
    case ExtractFails(k, moved) => t.(drawn := t.drawn - moved, pulls := RemoveAt(t.pulls, k))
    case Acknowledge(k) => t.(hi := Max(0, t.hi - t.pulls[k].amount), pulls := RemoveAt(t.pulls, k))
    case Deposit(amount) => t.(hi := t.hi + amount, puts := t.puts + [amount])
    case Arrive(k, moved, aside) =>
      t.(drawn := t.drawn + moved, others := t.others + aside, puts := RemoveAt(t.puts, k))
  }

  /** What can be promised and what is promised is there; what is there, what has left unnoticed and what is still
      to come is below the upper counter, and that below the capacity. */
  ghost predicate Bracket(t: Stock) {
    && t.lo + Chest.Unmoved(t.pulls) <= t.drawn
    && t.drawn + t.others + (Chest.Promised(t.pulls) - Chest.Unmoved(t.pulls)) + Sum(t.puts) <= t.hi <= t.capacity
  }

  lemma StepBracket(t: Stock, e: StockEvent)
    requires Bracket(t) && Enabled(t, e)
    ensures Bracket(Step(t, e))
  {
    Chest.UnmovedArePromised(t.pulls);
    match e
    case Reserve(amount, tag) => Chest.PullsAppend(t.pulls, [Chest.Pull(amount, false, tag)]);
    case Extract(k) => Chest.PullsAt(t.pulls, k, t.pulls[k].(moved := true));
    case ExtractFails(k, moved) => Chest.PullsAt(t.pulls, k, t.pulls[k]);
    case Acknowledge(k) =>
      Chest.PullsAt(t.pulls, k, t.pulls[k]);
      Chest.UnmovedArePromised(RemoveAt(t.pulls, k));
    case Deposit(amount) => SumSnoc(t.puts, amount);
    case Arrive(k, moved, aside) => SumRemoveAt(t.puts, k);
  }

  predicate CanRun(t: Stock, es: seq<StockEvent>)
    decreases |es|
  {
    es != [] ==> Enabled(t, es[0]) && CanRun(Step(t, es[0]), es[1..])
  }

  function Run(t: Stock, es: seq<StockEvent>): Stock
    requires CanRun(t, es)
    decreases |es|
  {
    if es == [] then t else Run(Step(t, es[0]), es[1..])
  }

  lemma {:induction false} RunBracket(t: Stock, es: seq<StockEvent>)
    requires Bracket(t) && CanRun(t, es)
    ensures Bracket(Run(t, es))
    decreases |es|
  {
    if es != [] {
      StepBracket(t, es[0]);
      RunBracket(Step(t, es[0]), es[1..]);
    }
  }

  /** A promised extraction that is due finds all of its fluid in the tank it is drawn from. */
  predicate Served(t: Stock, k: nat) { Enabled(t, Extract(k)) ==> t.pulls[k].amount <= t.drawn }

  ghost predicate AlwaysServed(t: Stock) {
    forall es, k :: CanRun(t, es) ==> Served(Run(t, es), k)
  }

  lemma BracketServes(t: Stock, k: nat)
    requires Bracket(t)
    ensures Served(t, k)
  {
    if Enabled(t, Extract(k)) {
      Chest.PullsAt(t.pulls, k, t.pulls[k]);
    }
  }

  lemma ReadBracket(tanks: seq<Tank>, fluid: string)
    requires TanksOk(tanks) && InOneTank(tanks, fluid)
    ensures Bracket(Read(tanks, fluid))
  {
    CountedIsDrawnExactlyWhen(tanks, fluid);
    QtyFits(tanks, fluid);
  }

  const NO_TAG := Chest.Tag(0, 0)

  /** All that is counted is promised at once, and asked for. */
  lemma AllPromised(t: Stock)
    requires t.lo > t.drawn && t.pulls == []
    ensures CanRun(t, [Reserve(t.lo, NO_TAG)]) && !Served(Run(t, [Reserve(t.lo, NO_TAG)]), 0)
  {
    var es := [Reserve(t.lo, NO_TAG)];
    var t1 := Step(t, es[0]);
    assert es[1..] == [] && t1.pulls == [Chest.Pull(t.lo, false, NO_TAG)];
    assert Run(t, es) == t1;
  }

  /** Fluid that is promised can always be drawn, exactly if no tank of the storage but the one drawn from, which is the last
      without another fluid, holds the storage's fluid when the tanks are read. */
  lemma PromisesAreServedExactlyWhen(tanks: seq<Tank>, fluid: string)
    requires TanksOk(tanks)
    ensures AlwaysServed(Read(tanks, fluid)) <==> InOneTank(tanks, fluid)
  {
    var t := Read(tanks, fluid);
    CountedIsDrawnExactlyWhen(tanks, fluid);
    if InOneTank(tanks, fluid) {
      ReadBracket(tanks, fluid);
      forall es, k | CanRun(t, es) ensures Served(Run(t, es), k) {
        RunBracket(t, es);
        BracketServes(Run(t, es), k);
      }
    } else {
      AllPromised(t);
    }
  }

  /** A full tank followed by an empty one: half of the fluid is promised, and not a drop is found. */
  lemma PromisedFluidMayBeOutOfReach(fluid: string)
    ensures var tanks := [Tank(1000, 1000, Some(fluid)), Tank(1000, 0, None)];
      && TanksOk(tanks) && SlotOf(tanks, fluid) == Some(1)
      && var t, es := Read(tanks, fluid), [Reserve(500, NO_TAG)];
         && CanRun(t, es) && Enabled(Run(t, es), Extract(0))
         && Run(t, es).pulls[0].amount == 500 && Run(t, es).drawn == 0
  {
    var tanks := [Tank(1000, 1000, Some(fluid)), Tank(1000, 0, None)];
    assert tanks[..1] == [tanks[0]] && [tanks[0]][..0] == [];
    assert QtyIn([tanks[0]], fluid) == 1000;
    var t, es := Read(tanks, fluid), [Reserve(500, NO_TAG)];
    assert es[1..] == [] && Run(t, es) == Step(t, es[0]);
  }

  /** However reservations, extractions and deposits interleave, if the fluid was in one tank: the counters bracket the
      content, each promised extraction finds its fluid, the upper counter never goes below what is acknowledged, no deposit
      overfills. And whatever is promised, there is a tank to draw it from. */
  lemma CountersBracketContent(tanks: seq<Tank>, fluid: string, es: seq<StockEvent>, k: nat)
    requires TanksOk(tanks) && InOneTank(tanks, fluid) && CanRun(Read(tanks, fluid), es)
    ensures var t := Run(Read(tanks, fluid), es);
      && t.lo + Chest.Unmoved(t.pulls) <= t.drawn && t.drawn + t.others + Sum(t.puts) <= t.hi <= t.capacity
      && Served(t, k)
      && (Enabled(t, Acknowledge(k)) ==> t.pulls[k].amount <= t.hi)
      && (k < |t.puts| ==> t.puts[k] <= t.capacity - t.drawn - t.others)
  {
    ReadBracket(tanks, fluid);
    RunBracket(Read(tanks, fluid), es);
    var t := Run(Read(tanks, fluid), es);
    BracketServes(t, k);
    Chest.UnmovedArePromised(t.pulls);
    if Enabled(t, Acknowledge(k)) {
      Chest.PullsAt(t.pulls, k, t.pulls[k]);
      Chest.UnmovedArePromised(RemoveAt(t.pulls, k));
    }
    if k < |t.puts| {
      SumRemoveAt(t.puts, k);
    }
  }

  /** The transfer moves all that it was to move. */
  predicate Succeeds(t: Stock, e: StockEvent)
    requires Enabled(t, e)
  {
    !e.ExtractFails? && (e.Arrive? ==> e.moved + e.aside == t.puts[e.k])
  }

  predicate AllSucceed(t: Stock, es: seq<StockEvent>)
    requires CanRun(t, es)
    decreases |es|
  {
    es != [] ==> Succeeds(t, es[0]) && AllSucceed(Step(t, es[0]), es[1..])
  }

  /** The upper counter is what lies in the tanks, what has left them without the program knowing, and what is on its way. */
  ghost predicate Exact(t: Stock) {
    t.hi == t.drawn + t.others + (Chest.Promised(t.pulls) - Chest.Unmoved(t.pulls)) + Sum(t.puts)
  }

  lemma StepExact(t: Stock, e: StockEvent)
    requires Bracket(t) && Exact(t) && Enabled(t, e) && Succeeds(t, e)
    ensures Exact(Step(t, e))
  {
    Chest.UnmovedArePromised(t.pulls);
    match e
    case Reserve(amount, tag) => Chest.PullsAppend(t.pulls, [Chest.Pull(amount, false, tag)]);
    case Extract(k) => Chest.PullsAt(t.pulls, k, t.pulls[k].(moved := true));
    case Acknowledge(k) =>
      Chest.PullsAt(t.pulls, k, t.pulls[k]);
      Chest.UnmovedArePromised(RemoveAt(t.pulls, k));
    case Deposit(amount) => SumSnoc(t.puts, amount);
    case Arrive(k, moved, aside) => SumRemoveAt(t.puts, k);
  }

  lemma {:induction false} RunExact(t: Stock, es: seq<StockEvent>)
    requires Bracket(t) && Exact(t) && CanRun(t, es) && AllSucceed(t, es)
    ensures Exact(Run(t, es))
    decreases |es|
  {
    if es != [] {
      StepBracket(t, es[0]);
      StepExact(t, es[0]);
      RunExact(Step(t, es[0]), es[1..]);
    }
  }

  /** As long as no transfer fails, a storage for which nothing is under way holds just as much as its upper counter says. */
  lemma CounterIsExactAtRest(tanks: seq<Tank>, fluid: string, es: seq<StockEvent>)
    requires TanksOk(tanks) && InOneTank(tanks, fluid)
    requires CanRun(Read(tanks, fluid), es) && AllSucceed(Read(tanks, fluid), es)
    ensures var t := Run(Read(tanks, fluid), es);
      && t.hi == t.drawn + t.others + (Chest.Promised(t.pulls) - Chest.Unmoved(t.pulls)) + Sum(t.puts)
      && (t.pulls == [] && t.puts == [] ==> t.hi == t.drawn + t.others)
  {
    ReadBracket(tanks, fluid);
    CountedIsDrawnExactlyWhen(tanks, fluid);
    RunExact(Read(tanks, fluid), es);
  }

  // ----- what an update finds in a bus

  /** The first tank that holds a fluid, and how much all tanks hold of it. */
  ghost predicate MapOf(tanks: seq<Tank>, fluids: map<string, (nat, nat)>) {
    && (forall f :: f in fluids ==>
          && fluids[f].0 < |tanks| && tanks[fluids[f].0].fluid == Some(f)
          && (forall i :: 0 <= i < fluids[f].0 ==> tanks[i].fluid != Some(f))
          && fluids[f].1 == Held(tanks, f))
    && forall i :: 0 <= i < |tanks| && tanks[i].fluid.Some? ==> tanks[i].fluid.value in fluids
  }

  function Held(tanks: seq<Tank>, fluid: string): nat {
    if tanks == [] then 0
    else Held(tanks[..|tanks| - 1], fluid) + (if tanks[|tanks| - 1].fluid == Some(fluid) then tanks[|tanks| - 1].qty else 0)
  }

  lemma {:induction false} HeldNone(tanks: seq<Tank>, fluid: string)
    requires forall i :: 0 <= i < |tanks| ==> tanks[i].fluid != Some(fluid)
    ensures Held(tanks, fluid) == 0
    decreases |tanks|
  {
    if tanks != [] {
      HeldNone(tanks[..|tanks| - 1], fluid);
    }
  }

  method TanksToFluidMap(tanks: seq<Tank>) returns (fluids: map<string, (nat, nat)>)
    ensures MapOf(tanks, fluids)
  {
    fluids := map[];
    for slot := 0 to |tanks|
      invariant MapOf(tanks[..slot], fluids)
    {
      ghost var before := fluids;
      if tanks[slot].fluid.Some? {
        var f := tanks[slot].fluid.value;
        var entry := if f in fluids then fluids[f] else (slot, 0);
        fluids := fluids[f := (entry.0, entry.1 + tanks[slot].qty)];
      }
      MapNext(tanks, slot, slot + 1, before, fluids);
    }
    assert tanks[..|tanks|] == tanks;
  }

  lemma MapNext(tanks: seq<Tank>, slot: nat, next: nat, before: map<string, (nat, nat)>, after: map<string, (nat, nat)>)
    requires next == slot + 1 <= |tanks| && MapOf(tanks[..slot], before)
    requires tanks[slot].fluid.None? ==> after == before
    requires tanks[slot].fluid.Some? ==>
      var f := tanks[slot].fluid.value;
      var entry := if f in before then before[f] else (slot, 0);
      after == before[f := (entry.0, entry.1 + tanks[slot].qty)]
    ensures MapOf(tanks[..next], after)
  {
    assert tanks[..next][..slot] == tanks[..slot];
    forall f ensures Held(tanks[..next], f) == Held(tanks[..slot], f) + (if tanks[slot].fluid == Some(f) then tanks[slot].qty else 0) {}
    if tanks[slot].fluid.Some? && tanks[slot].fluid.value !in before {
      HeldNone(tanks[..slot], tanks[slot].fluid.value);
    }
  }

  lemma {:induction false} HeldAtLeast(tanks: seq<Tank>, fluid: string, i: nat, j: nat)
    requires i < j < |tanks| && tanks[i].fluid == tanks[j].fluid == Some(fluid)
    ensures Held(tanks, fluid) >= tanks[i].qty + tanks[j].qty
    decreases |tanks|
  {
    var n := |tanks| - 1;
    if j < n {
      HeldAtLeast(tanks[..n], fluid, i, j);
    } else {
      HeldOne(tanks[..n], fluid, i);
    }
  }

  lemma {:induction false} HeldOne(tanks: seq<Tank>, fluid: string, i: nat)
    requires i < |tanks| && tanks[i].fluid == Some(fluid)
    ensures Held(tanks, fluid) >= tanks[i].qty
    ensures (forall j :: 0 <= j < |tanks| && j != i ==> tanks[j].fluid != Some(fluid)) ==> Held(tanks, fluid) == tanks[i].qty
    decreases |tanks|
  {
    var n := |tanks| - 1;
    if i < n {
      HeldOne(tanks[..n], fluid, i);
      assert (forall j :: 0 <= j < |tanks| && j != i ==> tanks[j].fluid != Some(fluid)) ==>
        forall j :: 0 <= j < n && j != i ==> tanks[..n][j].fluid != Some(fluid);
    } else if forall j :: 0 <= j < n ==> tanks[j].fluid != Some(fluid) {
      HeldNone(tanks[..n], fluid);
    }
  }

  /** The transfers that store a bus's fluid away all drain the first tank with it. They are to move no more than that tank
      holds, exactly if no later tank of the bus holds the same fluid; otherwise some of it stays in the bus. */
  lemma DrainCoversExactlyWhen(tanks: seq<Tank>, fluids: map<string, (nat, nat)>, fluid: string)
    requires TanksOk(tanks) && MapOf(tanks, fluids) && fluid in fluids
    ensures fluids[fluid].1 <= tanks[fluids[fluid].0].qty
       <==> forall i :: fluids[fluid].0 < i < |tanks| ==> tanks[i].fluid != Some(fluid)
  {
    var slot := fluids[fluid].0;
    HeldOne(tanks, fluid, slot);
    if i :| slot < i < |tanks| && tanks[i].fluid == Some(fluid) {
      HeldAtLeast(tanks, fluid, slot, i);
    }
  }

  /** What a transfer leaves in a tank. */
  function DrawDown(tank: Tank, amount: nat): Tank {
    if amount >= tank.qty then tank.(qty := 0, fluid := None) else tank.(qty := tank.qty - amount)
  }

  /** Whether the transfers of some fluid draw from this tank. */
  predicate DrawnFrom(tanks: seq<Tank>, fluids: map<string, (nat, nat)>, i: nat)
    requires i < |tanks|
  {
    tanks[i].fluid.Some? && tanks[i].fluid.value in fluids && fluids[tanks[i].fluid.value].0 == i
  }

  /** The tanks of a bus after so much of each fluid has been transferred to storages. */
  function Drained(tanks: seq<Tank>, fluids: map<string, (nat, nat)>, stored: map<string, nat>): (r: seq<Tank>)
    requires forall f :: f in fluids ==> f in stored
    ensures |r| == |tanks|
    ensures forall i :: 0 <= i < |r| ==>
      r[i] == if DrawnFrom(tanks, fluids, i) then DrawDown(tanks[i], stored[tanks[i].fluid.value]) else tanks[i]
  {
    seq(|tanks|, i requires 0 <= i < |tanks| =>
      if DrawnFrom(tanks, fluids, i) then DrawDown(tanks[i], stored[tanks[i].fluid.value]) else tanks[i])
  }

  /** Of each fluid the first tank with it loses what was transferred, as far as it had so much; all other tanks stay. */
  lemma DrainTakesFromFirst(tanks: seq<Tank>, fluids: map<string, (nat, nat)>, stored: map<string, nat>, fluid: string, i: nat)
    requires TanksOk(tanks) && MapOf(tanks, fluids) && forall f :: f in fluids ==> f in stored
    requires i < |tanks| && tanks[i].fluid == Some(fluid)
    ensures var tank := Drained(tanks, fluids, stored)[i];
      if forall k :: 0 <= k < i ==> tanks[k].fluid != Some(fluid)
      then fluid in stored && tank.qty == Max(0, tanks[i].qty - stored[fluid]) && (tank.fluid.None? <==> tank.qty == 0)
      else tank == tanks[i]
    ensures forall k :: 0 <= k < |tanks| && tanks[k].fluid.None? ==> Drained(tanks, fluids, stored)[k] == tanks[k]
  {
    assert fluid in fluids;
    if fluids[fluid].0 < i {
      assert tanks[fluids[fluid].0].fluid == Some(fluid);
    }
  }

  predicate AllEmpty(tanks: seq<Tank>) { forall i :: 0 <= i < |tanks| ==> tanks[i].fluid.None? }

  /** No later tank holds a fluid that the first tank with it is drained for. */
  ghost predicate OnlyIn(tanks: seq<Tank>, slot: nat, fluid: string) {
    forall i :: slot < i < |tanks| ==> tanks[i].fluid != Some(fluid)
  }

  lemma OnlyTankIsDrained(tanks: seq<Tank>, fluids: map<string, (nat, nat)>, stored: map<string, nat>, i: nat)
    requires TanksOk(tanks) && MapOf(tanks, fluids) && forall f :: f in fluids ==> f in stored
    requires i < |tanks| && tanks[i].fluid.Some?
    ensures var f := tanks[i].fluid.value;
      f in fluids && (OnlyIn(tanks, fluids[f].0, f) && stored[f] == fluids[f].1 ==> Drained(tanks, fluids, stored)[i].fluid.None?)
  {
    var f := tanks[i].fluid.value;
    DrainCoversExactlyWhen(tanks, fluids, f);
    if OnlyIn(tanks, fluids[f].0, f) {
      HeldOne(tanks, f, fluids[f].0);
    }
  }

  lemma RestStays(tanks: seq<Tank>, fluids: map<string, (nat, nat)>, stored: map<string, nat>, fluid: string)
    requires TanksOk(tanks) && MapOf(tanks, fluids) && forall f :: f in fluids ==> f in stored
    requires AllEmpty(Drained(tanks, fluids, stored)) && fluid in fluids && stored[fluid] <= fluids[fluid].1
    ensures OnlyIn(tanks, fluids[fluid].0, fluid) && stored[fluid] == fluids[fluid].1
  {
    var slot := fluids[fluid].0;
    forall i | slot < i < |tanks| ensures tanks[i].fluid != Some(fluid) {
      assert Drained(tanks, fluids, stored)[i].fluid.None?;
    }
    assert Drained(tanks, fluids, stored)[slot].fluid.None?;
    HeldOne(tanks, fluid, slot);
  }

  /** A drained bus, as it is then given to a waiter, is empty exactly if the drain covered each of its fluids and all of it
      found room in the storages. (If it did not find room, the update fails, and nobody gets a bus.) A bus of which nothing is
      to be drained is empty. */
  lemma DrainedBusIsEmptyExactlyWhen(tanks: seq<Tank>, fluids: map<string, (nat, nat)>, stored: map<string, nat>)
    requires TanksOk(tanks) && MapOf(tanks, fluids) && forall f :: f in fluids ==> f in stored && stored[f] <= fluids[f].1
    ensures AllEmpty(Drained(tanks, fluids, stored))
       <==> forall f :: f in fluids ==> OnlyIn(tanks, fluids[f].0, f) && stored[f] == fluids[f].1
    ensures AllEmpty(tanks) <==> forall f :: f !in fluids
  {
    if AllEmpty(Drained(tanks, fluids, stored)) {
      forall f | f in fluids ensures OnlyIn(tanks, fluids[f].0, f) && stored[f] == fluids[f].1 {
        RestStays(tanks, fluids, stored, f);
      }
    } else if forall f :: f in fluids ==> OnlyIn(tanks, fluids[f].0, f) && stored[f] == fluids[f].1 {
      forall i | 0 <= i < |tanks| && tanks[i].fluid.Some? ensures Drained(tanks, fluids, stored)[i].fluid.None? {
        OnlyTankIsDrained(tanks, fluids, stored, i);
      }
    }
  }

  /** A bus with the same fluid in two tanks: the transfer is to move all of it out of the first tank, and what lies in the
      second one stays. */
  lemma DrainLeavesARest(fluid: string)
    ensures var tanks := [Tank(1000, 400, Some(fluid)), Tank(1000, 300, Some(fluid))];
      var fluids, stored := map[fluid := (0, 700)], map[fluid := 700];
      && TanksOk(tanks) && MapOf(tanks, fluids)
      && fluids[fluid].1 > tanks[fluids[fluid].0].qty
      && Drained(tanks, fluids, stored) == [Tank(1000, 0, None), Tank(1000, 300, Some(fluid))]
  {
    var tanks := [Tank(1000, 400, Some(fluid)), Tank(1000, 300, Some(fluid))];
    assert tanks[..1] == [tanks[0]] && [tanks[0]][..0] == [];
    assert |tanks| == 2 && |[tanks[0]]| == 1 && Held([], fluid) == 0;
    assert Held([tanks[0]], fluid) == Held([], fluid) + 400;
    assert Held(tanks, fluid) == Held([tanks[0]], fluid) + 300;
  }

  // ----- spreading an amount over storages

  /** So much from or to storage number `storage`. */
  datatype Part = Part(storage: nat, amount: nat)

  function Given(parts: seq<Part>, storage: nat): nat {
    if parts == [] then 0
    else (if parts[0].storage == storage then parts[0].amount else 0) + Given(parts[1..], storage)
  }

  function TotalGiven(parts: seq<Part>): nat {
    if parts == [] then 0 else parts[0].amount + TotalGiven(parts[1..])
  }

  lemma {:induction false} GivenSnoc(parts: seq<Part>, p: Part, storage: nat)
    ensures Given(parts + [p], storage) == Given(parts, storage) + (if p.storage == storage then p.amount else 0)
    ensures TotalGiven(parts + [p]) == TotalGiven(parts) + p.amount
    decreases |parts|
  {
    if parts == [] {
      assert parts + [p] == [p] && [p][1..] == [];
    } else {
      assert (parts + [p])[1..] == parts[1..] + [p];
      GivenSnoc(parts[1..], p, storage);
    }
  }

  lemma {:induction false} SumUpdate(xs: seq<nat>, k: nat, x: nat)
    requires k < |xs|
    ensures Sum(xs[k := x]) + xs[k] == Sum(xs) + x
    decreases |xs|
  {
    if k == 0 {
      assert xs[k := x][1..] == xs[1..];
    } else {
      assert xs[k := x][1..] == xs[1..][k - 1 := x];
      SumUpdate(xs[1..], k - 1, x);
    }
  }

  /** The parts take from each room what is missing afterwards, and every part but the last one uses its room up.
      Rooms come in order of preference: nothing is taken from one while a preferred one has some left. */
  ghost predicate Spread(rooms: seq<nat>, parts: seq<Part>, rest: seq<nat>, rank: seq<int>) {
    && |rooms| == |rest| == |rank|
    && (forall k :: 0 <= k < |rooms| ==> rooms[k] == rest[k] + Given(parts, k))
    && (forall i :: 0 <= i < |parts| ==> parts[i].storage < |rooms| && parts[i].amount > 0)
    && (forall i :: 0 <= i < |parts| - 1 ==> rest[parts[i].storage] == 0)
    && (forall i, k :: 0 <= i < |parts| && 0 <= k < |rest| && rest[k] > 0 ==> rank[parts[i].storage] <= rank[k])
  }

  /** A room that is not used up and none is preferred to it. */
  ghost predicate Foremost(rest: seq<nat>, rank: seq<int>, k: nat) {
    && k < |rest| == |rank| && rest[k] > 0
    && forall j :: 0 <= j < |rest| && rest[j] > 0 ==> rank[k] <= rank[j]
  }

  lemma SpreadOne(rooms: seq<nat>, parts: seq<Part>, rest: seq<nat>, rank: seq<int>, k: nat, amount: nat)
    requires Spread(rooms, parts, rest, rank) && Foremost(rest, rank, k) && 0 < amount <= rest[k]
    requires forall i :: 0 <= i < |parts| ==> rest[parts[i].storage] == 0
    ensures Spread(rooms, parts + [Part(k, amount)], rest[k := rest[k] - amount], rank)
    ensures TotalGiven(parts + [Part(k, amount)]) == TotalGiven(parts) + amount
    ensures Sum(rest[k := rest[k] - amount]) + amount == Sum(rest)
  {
    SumUpdate(rest, k, rest[k] - amount);
    forall j ensures Given(parts + [Part(k, amount)], j) == Given(parts, j) + (if k == j then amount else 0) {
      GivenSnoc(parts, Part(k, amount), j);
    }
    GivenSnoc(parts, Part(k, amount), k);
  }

  lemma {:induction false} NothingGiven(parts: seq<Part>, k: nat)
    requires forall i :: 0 <= i < |parts| ==> parts[i].storage != k
    ensures Given(parts, k) == 0
    decreases |parts|
  {
    if parts != [] {
      NothingGiven(parts[1..], k);
    }
  }

  /** Rooms that are neither used up nor touched are as they were. */
  lemma Untouched(rooms: seq<nat>, parts: seq<Part>, rest: seq<nat>, rank: seq<int>)
    requires Spread(rooms, parts, rest, rank) && forall i :: 0 <= i < |parts| ==> rest[parts[i].storage] == 0
    ensures forall k :: 0 <= k < |rest| && rest[k] > 0 ==> rest[k] == rooms[k]
  {
    forall k | 0 <= k < |rest| && rest[k] > 0 ensures rest[k] == rooms[k] {
      NothingGiven(parts, k);
    }
  }

  lemma {:induction false} SumZero(xs: seq<nat>)
    requires forall k :: 0 <= k < |xs| ==> xs[k] == 0
    ensures Sum(xs) == 0
    decreases |xs|
  {
    if xs != [] {
      SumZero(xs[1..]);
    }
  }

  /** Every part so far has used its room up. */
  ghost predicate UsedUp(parts: seq<Part>, rest: seq<nat>) {
    forall i :: 0 <= i < |parts| ==> parts[i].storage < |rest| && rest[parts[i].storage] == 0
  }

  /** The state of the spreading: so much has been given, and the rooms have become smaller by just that. */
  ghost predicate Spreading(rooms: seq<nat>, parts: seq<Part>, rest: seq<nat>, rank: seq<int>, given: nat) {
    Spread(rooms, parts, rest, rank) && TotalGiven(parts) == given && Sum(rest) + given == Sum(rooms)
  }

  lemma SpreadSome(rooms: seq<nat>, parts: seq<Part>, rest: seq<nat>, rank: seq<int>, given: nat, p: Part)
    requires Spreading(rooms, parts, rest, rank, given) && UsedUp(parts, rest)
    requires Foremost(rest, rank, p.storage) && 0 < p.amount <= rest[p.storage]
    ensures Spreading(rooms, parts + [p], rest[p.storage := rest[p.storage] - p.amount], rank, given + p.amount)
    ensures p.amount == rest[p.storage] ==> UsedUp(parts + [p], rest[p.storage := rest[p.storage] - p.amount])
  {
    assert p == Part(p.storage, p.amount);
    SpreadOne(rooms, parts, rest, rank, p.storage, p.amount);
  }

  /** Where nothing has been taken from a room in part, what is left ranks rooms as the rooms themselves do. */
  lemma SameRank(rooms: seq<nat>, parts: seq<Part>, rest: seq<nat>, given: nat, k: nat)
    requires Spreading(rooms, parts, rest, rooms, given) && UsedUp(parts, rest) && Foremost(rest, rest, k)
    ensures Foremost(rest, rooms, k)
  {
    Untouched(rooms, parts, rest, rooms);
  }

  function Negated(n: int): int { -n }

  /** Fuller storages come first. */
  function Fullness(his: seq<nat>): (r: seq<int>)
    ensures |r| == |his|
  {
    seq(|his|, i requires 0 <= i < |his| => Negated(his[i]))
  }

  /** The parts have been added to the upper counters. */
  ghost predicate Raised(his0: seq<nat>, his: seq<nat>, parts: seq<Part>) {
    |his0| == |his| && forall i :: 0 <= i < |his| ==> his[i] == his0[i] + Given(parts, i)
  }

  lemma RaisedOne(his0: seq<nat>, his: seq<nat>, parts: seq<Part>, k: nat, amount: nat)
    requires Raised(his0, his, parts) && k < |his|
    ensures Raised(his0, his[k := his[k] + amount], parts + [Part(k, amount)])
  {
    forall i | 0 <= i < |his| ensures his[k := his[k] + amount][i] == his0[i] + Given(parts + [Part(k, amount)], i) {
      GivenSnoc(parts, Part(k, amount), i);
    }
  }

  lemma StillForemost(rooms: seq<nat>, parts: seq<Part>, rest: seq<nat>, his0: seq<nat>, his: seq<nat>, given: nat, k: nat)
    requires Spreading(rooms, parts, rest, Fullness(his0), given) && UsedUp(parts, rest)
    requires Raised(his0, his, parts) && Foremost(rest, Fullness(his), k)
    ensures Foremost(rest, Fullness(his0), k)
  {
    forall j | 0 <= j < |rest| && rest[j] > 0 ensures his[j] == his0[j] {
      NothingGiven(parts, j);
    }
  }

  // ----- the storages of the program

  class FluidStorage {
    const fluid: string
    var slot: Option<nat>
    var capacity: nat
    var nStoredHi: nat
    var nStoredLo: nat

    constructor (fluid: string)
      ensures this.fluid == fluid && capacity == nStoredHi == nStoredLo == 0 && slot == None
    {
      this.fluid := fluid;
      slot, capacity, nStoredHi, nStoredLo := None, 0, 0, 0;
    }

    /** Adds up the tanks without another fluid, and remembers the last of them. */
    method Update(tanks: seq<Tank>)
      requires slot == None && capacity == nStoredHi == nStoredLo == 0
      modifies this
      ensures slot == SlotOf(tanks, fluid)
      ensures nStoredHi == Read(tanks, fluid).hi && nStoredLo == Read(tanks, fluid).lo
      ensures capacity == Read(tanks, fluid).capacity
      ensures nStoredLo > 0 ==> slot.Some?
    {
      for i := 0 to |tanks|
        invariant slot == SlotOf(tanks[..i], fluid) && capacity == CapacityOf(tanks[..i], fluid)
        invariant nStoredHi == nStoredLo == QtyIn(tanks[..i], fluid)
      {
        assert tanks[..i + 1][..i] == tanks[..i];
        if tanks[i].fluid.None? || tanks[i].fluid.value == fluid {
          slot := Some(i);
          capacity, nStoredHi, nStoredLo := capacity + tanks[i].capacity, nStoredHi + tanks[i].qty, nStoredLo + tanks[i].qty;
        }
      }
      assert tanks[..|tanks|] == tanks;
      if slot.None? {
        NoQty(tanks, fluid);
      }
    }

    method EndOfCycle()
      modifies this
      ensures slot == None && capacity == nStoredHi == nStoredLo == 0
    {
      slot, capacity, nStoredHi, nStoredLo := None, 0, 0, 0;
    }
  }

  ghost predicate Different(storages: seq<FluidStorage>) {
    forall i, j :: 0 <= i < j < |storages| ==> storages[i] != storages[j]
  }

  /** What each storage of a fluid can still promise. */
  function Los(storages: seq<FluidStorage>, fluid: string): (r: seq<nat>)
    reads storages
    ensures |r| == |storages|
  {
    seq(|storages|, i requires 0 <= i < |storages| reads storages =>
      if storages[i].fluid == fluid then storages[i].nStoredLo else 0)
  }

  /** How much each storage of a fluid can still take. */
  function Gaps(storages: seq<FluidStorage>, fluid: string): (r: seq<nat>)
    reads storages
    ensures |r| == |storages|
  {
    seq(|storages|, i requires 0 <= i < |storages| reads storages =>
      if storages[i].fluid == fluid && storages[i].nStoredHi < storages[i].capacity
      then storages[i].capacity - storages[i].nStoredHi else 0)
  }

  function His(storages: seq<FluidStorage>): (r: seq<nat>)
    reads storages
    ensures |r| == |storages|
  {
    seq(|storages|, i requires 0 <= i < |storages| reads storages => storages[i].nStoredHi)
  }

  /** The storage of the fluid with the least that can still be promised. */
  method Least(storages: seq<FluidStorage>, fluid: string) returns (best: Option<nat>)
    ensures best.None? ==> Sum(Los(storages, fluid)) == 0
    ensures best.Some? ==> Foremost(Los(storages, fluid), Los(storages, fluid), best.value)
  {
    best := None;
    for i := 0 to |storages|
      invariant best.None? ==> forall j :: 0 <= j < i ==> Los(storages, fluid)[j] == 0
      invariant best.Some? ==>
        && best.value < i && Los(storages, fluid)[best.value] > 0
        && forall j :: 0 <= j < i && Los(storages, fluid)[j] > 0 ==>
             Los(storages, fluid)[best.value] <= Los(storages, fluid)[j]
    {
      var storage := storages[i];
      if storage.fluid == fluid && storage.nStoredLo > 0
         && (best.None? || storage.nStoredLo < storages[best.value].nStoredLo)
      {
        best := Some(i);
      }
    }
    if best.None? {
      SumZero(Los(storages, fluid));
    }
  }

  /** The fullest storage of the fluid that is not full. */
  method Greatest(storages: seq<FluidStorage>, fluid: string) returns (best: Option<nat>)
    ensures best.None? ==> Sum(Gaps(storages, fluid)) == 0
    ensures best.Some? ==> Foremost(Gaps(storages, fluid), Fullness(His(storages)), best.value)
  {
    best := None;
    for i := 0 to |storages|
      invariant best.None? ==> forall j :: 0 <= j < i ==> Gaps(storages, fluid)[j] == 0
      invariant best.Some? ==>
        && best.value < i && Gaps(storages, fluid)[best.value] > 0
        && forall j :: 0 <= j < i && Gaps(storages, fluid)[j] > 0 ==>
             Fullness(His(storages))[best.value] <= Fullness(His(storages))[j]
    {
      var storage := storages[i];
      if storage.fluid == fluid && storage.nStoredHi < storage.capacity
         && (best.None? || storage.nStoredHi > storages[best.value].nStoredHi)
      {
        best := Some(i);
      }
    }
    if best.None? {
      SumZero(Gaps(storages, fluid));
    }
  }

  /** Takes some from one storage. */
  method TakeFrom(storages: seq<FluidStorage>, fluid: string, k: nat, amount: nat)
    requires Different(storages) && k < |storages| && storages[k].fluid == fluid && amount <= storages[k].nStoredLo
    modifies storages[k]
    ensures storages[k].nStoredHi == old(storages[k].nStoredHi) && storages[k].capacity == old(storages[k].capacity)
    ensures Los(storages, fluid) == old(Los(storages, fluid))[k := old(Los(storages, fluid))[k] - amount]
    ensures forall other :: other != fluid ==> Los(storages, other) == old(Los(storages, other))
  {
    storages[k].nStoredLo := storages[k].nStoredLo - amount;
  }

  /** Nothing but lower counters of the fluid differs. */
  twostate predicate OnlyLos(storages: seq<FluidStorage>, fluid: string)
    reads storages
  {
    && (forall i :: 0 <= i < |storages| ==>
          storages[i].nStoredHi == old(storages[i].nStoredHi) && storages[i].capacity == old(storages[i].capacity))
    && forall other :: other != fluid ==> Los(storages, other) == old(Los(storages, other))
  }

  /** One round of reserving. */
  method ReserveSome(storages: seq<FluidStorage>, fluid: string, qty: nat) returns (part: Part)
    requires Different(storages) && 0 < qty <= Sum(Los(storages, fluid))
    modifies set i | 0 <= i < |storages| :: storages[i]
    ensures OnlyLos(storages, fluid)
    ensures Foremost(old(Los(storages, fluid)), old(Los(storages, fluid)), part.storage)
    ensures part.amount == Min(qty, old(Los(storages, fluid))[part.storage])
    ensures Los(storages, fluid)
         == old(Los(storages, fluid))[part.storage := old(Los(storages, fluid))[part.storage] - part.amount]
  {
    var best := Least(storages, fluid);
    var toReserve: nat := Min(qty, storages[best.value].nStoredLo);
    part := Part(best.value, toReserve);
    TakeFrom(storages, fluid, best.value, toReserve);
  }

  /** One round, as a step of the spreading. */
  method ReserveRound(storages: seq<FluidStorage>, fluid: string, qty: nat, ghost parts: seq<Part>, ghost rooms: seq<nat>,
                      ghost given: nat)
    returns (part: Part)
    requires Different(storages) && 0 < qty <= Sum(Los(storages, fluid)) && UsedUp(parts, Los(storages, fluid))
    requires Spreading(rooms, parts, Los(storages, fluid), rooms, given)
    modifies set i | 0 <= i < |storages| :: storages[i]
    ensures OnlyLos(storages, fluid) && 0 < part.amount <= qty
    ensures Spreading(rooms, parts + [part], Los(storages, fluid), rooms, given + part.amount)
    ensures part.amount < qty ==> UsedUp(parts + [part], Los(storages, fluid))
  {
    ghost var los := Los(storages, fluid);
    part := ReserveSome(storages, fluid, qty);
    SameRank(rooms, parts, los, given, part.storage);
    SpreadSome(rooms, parts, los, rooms, given, part);
  }

  /** Reserves a quantity of a fluid. There is always a storage to take from until the quantity is reached; storages
      with less come first, and all but the last one are used up. */
  method ReserveFluid(storages: seq<FluidStorage>, fluid: string, qty: nat) returns (extractors: seq<Part>)
    requires Different(storages) && qty <= Sum(Los(storages, fluid))
    modifies set i | 0 <= i < |storages| :: storages[i]
    ensures OnlyLos(storages, fluid)
    ensures Spreading(old(Los(storages, fluid)), extractors, Los(storages, fluid), old(Los(storages, fluid)), qty)
    ensures forall i :: 0 <= i < |storages| && storages[i].fluid != fluid ==> Given(extractors, i) == 0
    ensures forall i :: 0 <= i < |storages| && storages[i].fluid == fluid ==>
      storages[i].nStoredLo + Given(extractors, i) == old(storages[i].nStoredLo)
    ensures qty == old(Sum(Los(storages, fluid))) ==>
      forall i :: 0 <= i < |storages| && storages[i].fluid == fluid ==> storages[i].nStoredLo == 0
  {
    extractors := [];
    var rest: nat := qty;
    ghost var given: nat := 0;
    ghost var before := Los(storages, fluid);
    while rest > 0
      invariant OnlyLos(storages, fluid) && given + rest == qty
      invariant Spreading(before, extractors, Los(storages, fluid), before, given)
      invariant rest > 0 ==> UsedUp(extractors, Los(storages, fluid))
    {
      var part := ReserveRound(storages, fluid, rest, extractors, before, given);
      rest := rest - part.amount;
      given := given + part.amount;
      extractors := extractors + [part];
    }
    LosAt(storages, fluid);
    if Sum(Los(storages, fluid)) == 0 {
      SumIsZero(Los(storages, fluid));
    }
  }

  lemma LosAt(storages: seq<FluidStorage>, fluid: string)
    ensures forall i :: 0 <= i < |storages| ==>
      Los(storages, fluid)[i] == if storages[i].fluid == fluid then storages[i].nStoredLo else 0
  {}

  lemma GapsAt(storages: seq<FluidStorage>, fluid: string)
    ensures forall i :: 0 <= i < |storages| ==>
      Gaps(storages, fluid)[i] == if storages[i].fluid == fluid then Max(0, storages[i].capacity - storages[i].nStoredHi) else 0
  {}

  lemma {:induction false} SumIsZero(xs: seq<nat>)
    requires Sum(xs) == 0
    ensures forall k :: 0 <= k < |xs| ==> xs[k] == 0
    decreases |xs|
  {
    if xs != [] {
      SumIsZero(xs[1..]);
      assert forall k :: 0 < k < |xs| ==> xs[k] == xs[1..][k - 1];
    }
  }

  /** Nothing but upper counters differs. */
  twostate predicate OnlyHis(storages: seq<FluidStorage>)
    reads storages
  {
    forall i :: 0 <= i < |storages| ==>
      storages[i].nStoredLo == old(storages[i].nStoredLo) && storages[i].capacity == old(storages[i].capacity)
  }

  /** Adds some to one storage. */
  method PutInto(storages: seq<FluidStorage>, fluid: string, k: nat, amount: nat)
    requires Different(storages) && k < |storages| && storages[k].fluid == fluid
    requires storages[k].nStoredHi + amount <= storages[k].capacity
    modifies storages[k]
    ensures storages[k].nStoredLo == old(storages[k].nStoredLo) && storages[k].capacity == old(storages[k].capacity)
    ensures His(storages) == old(His(storages))[k := old(His(storages))[k] + amount]
    ensures Gaps(storages, fluid) == old(Gaps(storages, fluid))[k := old(Gaps(storages, fluid))[k] - amount]
  {
    storages[k].nStoredHi := storages[k].nStoredHi + amount;
  }

  /** One round of storing fluid away. */
  method DepositSome(storages: seq<FluidStorage>, fluid: string, qty: nat) returns (part: Option<Part>)
    requires Different(storages) && qty > 0
    modifies set i | 0 <= i < |storages| :: storages[i]
    ensures OnlyHis(storages)
    ensures part.None? ==>
      && His(storages) == old(His(storages)) && Gaps(storages, fluid) == old(Gaps(storages, fluid))
      && Sum(Gaps(storages, fluid)) == 0
    ensures part.Some? ==>
      var k, amount := part.value.storage, part.value.amount;
      && Foremost(old(Gaps(storages, fluid)), Fullness(old(His(storages))), k)
      && amount == Min(qty, old(Gaps(storages, fluid))[k])
      && His(storages) == old(His(storages))[k := old(His(storages))[k] + amount]
      && Gaps(storages, fluid) == old(Gaps(storages, fluid))[k := old(Gaps(storages, fluid))[k] - amount]
  {
    var best := Greatest(storages, fluid);
    if best.None? {
      return None;
    }
    var k := best.value;
    var nDeposited: nat := Min(qty, storages[k].capacity - storages[k].nStoredHi);
    PutInto(storages, fluid, k, nDeposited);
    return Some(Part(k, nDeposited));
  }

  /** Stores a quantity of a fluid away: the fullest storages first, all but the last one filled up, none beyond its
      capacity. Something is left over only if every storage of the fluid is full. */
  method FluidDeposit(storages: seq<FluidStorage>, fluid: string, qty: nat) returns (parts: seq<Part>, full: bool)
    requires Different(storages)
    modifies set i | 0 <= i < |storages| :: storages[i]
    ensures OnlyHis(storages) && Raised(old(His(storages)), His(storages), parts)
    ensures TotalGiven(parts) <= qty && (full <==> TotalGiven(parts) < qty)
    ensures Spreading(old(Gaps(storages, fluid)), parts, Gaps(storages, fluid), Fullness(old(His(storages))), TotalGiven(parts))
    ensures full ==> Sum(Gaps(storages, fluid)) == 0
    ensures forall i :: 0 <= i < |storages| && storages[i].fluid != fluid ==> Given(parts, i) == 0
    ensures forall i :: 0 <= i < |storages| && Given(parts, i) > 0 ==> storages[i].nStoredHi <= storages[i].capacity
    ensures full ==>
      forall i :: 0 <= i < |storages| && storages[i].fluid == fluid ==> storages[i].nStoredHi >= storages[i].capacity
  {
    parts, full := [], false;
    var rest: nat := qty;
    ghost var given: nat := 0;
    ghost var before, his0 := Gaps(storages, fluid), His(storages);
    StoringStarts(before, his0);
    while rest > 0 && !full
      invariant given + rest == qty && OnlyHis(storages)
      invariant Storing(before, parts, Gaps(storages, fluid), his0, His(storages), given)
      invariant rest > 0 ==> UsedUp(parts, Gaps(storages, fluid))
      invariant full ==> rest > 0 && Sum(Gaps(storages, fluid)) == 0
      decreases rest, !full
    {
      var part := DepositRound(storages, fluid, rest, parts, before, his0, given);
      match part {
        case None => full := true;
        case Some(p) =>
          rest := rest - p.amount;
          given := given + p.amount;
          parts := parts + [p];
      }
    }
    DepositEnds(storages, fluid, before, parts, his0, given, full);
  }

  /** What the parts of a deposit say about each storage. */
  lemma DepositEnds(storages: seq<FluidStorage>, fluid: string, rooms: seq<nat>, parts: seq<Part>, his0: seq<nat>, given: nat,
                    full: bool)
    requires Storing(rooms, parts, Gaps(storages, fluid), his0, His(storages), given)
    requires full ==> Sum(Gaps(storages, fluid)) == 0
    requires |rooms| == |storages| && forall i :: 0 <= i < |storages| && storages[i].fluid != fluid ==> rooms[i] == 0
    requires forall i :: 0 <= i < |storages| && storages[i].fluid == fluid ==>
      rooms[i] == Max(0, storages[i].capacity - his0[i])
    ensures forall i :: 0 <= i < |storages| && storages[i].fluid != fluid ==> Given(parts, i) == 0
    ensures forall i :: 0 <= i < |storages| && Given(parts, i) > 0 ==> storages[i].nStoredHi <= storages[i].capacity
    ensures full ==>
      forall i :: 0 <= i < |storages| && storages[i].fluid == fluid ==> storages[i].nStoredHi >= storages[i].capacity
  {
    GapsAt(storages, fluid);
    if full {
      SumIsZero(Gaps(storages, fluid));
    }
  }

  lemma StoringStarts(rooms: seq<nat>, his: seq<nat>)
    requires |rooms| == |his|
    ensures Storing(rooms, [], rooms, his, his, 0)
  {}

  /** One round, as a step of the spreading. */
  method DepositRound(storages: seq<FluidStorage>, fluid: string, qty: nat, ghost parts: seq<Part>,
                      ghost rooms: seq<nat>, ghost his0: seq<nat>, ghost given: nat)
    returns (part: Option<Part>)
    requires Different(storages) && qty > 0 && UsedUp(parts, Gaps(storages, fluid))
    requires Storing(rooms, parts, Gaps(storages, fluid), his0, His(storages), given)
    modifies set i | 0 <= i < |storages| :: storages[i]
    ensures OnlyHis(storages)
    ensures part.None? ==>
      && Storing(rooms, parts, Gaps(storages, fluid), his0, His(storages), given)
      && UsedUp(parts, Gaps(storages, fluid)) && Sum(Gaps(storages, fluid)) == 0
    ensures part.Some? ==>
      && 0 < part.value.amount <= qty
      && Storing(rooms, parts + [part.value], Gaps(storages, fluid), his0, His(storages), given + part.value.amount)
      && (part.value.amount < qty ==> UsedUp(parts + [part.value], Gaps(storages, fluid)))
  {
    ghost var gaps, his := Gaps(storages, fluid), His(storages);
    part := DepositSome(storages, fluid, qty);
    if part.Some? {
      StoreSome(rooms, parts, gaps, his0, his, given, part.value);
    }
  }

  ghost predicate Storing(rooms: seq<nat>, parts: seq<Part>, gaps: seq<nat>, his0: seq<nat>, his: seq<nat>, given: nat) {
    Spreading(rooms, parts, gaps, Fullness(his0), given) && Raised(his0, his, parts)
  }

  lemma StoreSome(rooms: seq<nat>, parts: seq<Part>, gaps: seq<nat>, his0: seq<nat>, his: seq<nat>, given: nat, p: Part)
    requires Storing(rooms, parts, gaps, his0, his, given) && UsedUp(parts, gaps)
    requires Foremost(gaps, Fullness(his), p.storage) && 0 < p.amount <= gaps[p.storage]
    ensures Storing(rooms, parts + [p], gaps[p.storage := gaps[p.storage] - p.amount], his0,
                    his[p.storage := his[p.storage] + p.amount], given + p.amount)
    ensures p.amount == gaps[p.storage] ==> UsedUp(parts + [p], gaps[p.storage := gaps[p.storage] - p.amount])
  {
    assert p == Part(p.storage, p.amount);
    StillForemost(rooms, parts, gaps, his0, his, given, p.storage);
    SpreadSome(rooms, parts, gaps, Fullness(his0), given, p);
    RaisedOne(his0, his, parts, p.storage, p.amount);
  }
}
