/** What the processes start, may start: the outcome of every Start method of Jobs is a job that Plant takes, and it leaves
    the books and the machine such that the next one of the cycle may start on them. */
module Starts {
  import opened Common
  import opened Items
  import opened Placement
  import opened Catalog
  import opened Places
  import opened Backing
  import BusSystem
  import Buffered
  import JobRuns
  import Jobs
  import Plant
  import Recipe
  import Reservations
  import Scattering
  import Slotted

  /** What a process knows of its reservations: they were made one after the other from these books, one for each item, and
      each use of the bus fetches one of them. */
  ghost predicate Fetched(books: Books, items: seq<Item>, uses: seq<BusSystem.Use>,
                          reservations: seq<seq<Reservations.Entry>>, bookings: seq<Booking>)
  {
    && |uses| == |items| && Jobs.Brings(uses, reservations, items)
    && Booked(books, bookings) && Recipe.Records(bookings, items, reservations)
  }

  /** The job may start with these uses of the bus, and what it leaves, the next one can start on. */
  ghost predicate MayStart(p: Plant.Plant, j: nat, kind: JobRuns.Kind, ts: seq<nat>, uses: seq<BusSystem.Use>,
                           loads: seq<Plant.Load>, base: nat, inv: Inventory, books: Books)
  {
    && |ts| == |loads| && Plant.UsesOf(loads) == uses && Plant.May(p, Plant.Launch(j, kind, ts, loads))
    && Ready(Plant.After(p, Plant.Launch(j, kind, ts, loads)).places, base, inv, books)
  }

  function TasksOf(bookings: seq<Booking>, drops: seq<seq<Drop>>, items: seq<Item>): (r: seq<Task>)
    requires |bookings| == |drops| == |items|
    ensures |r| == |items| && forall i :: 0 <= i < |r| ==> r[i] == Task(bookings[i], drops[i], items[i].maxSize)
  {
    seq(|items|, i requires 0 <= i < |items| => Task(bookings[i], drops[i], items[i].maxSize))
  }

  /** The planned transfers take out what the uses say. */
  ghost predicate Delivers(base: nat, drops: seq<seq<Drop>>, uses: seq<BusSystem.Use>) {
    |drops| == |uses| && forall i :: 0 <= i < |uses| ==> Dropped(At(base, drops[i])) == uses[i].outs
  }

  lemma UsesAreLoads(base: nat, books: Books, items: seq<Item>, uses: seq<BusSystem.Use>,
                     reservations: seq<seq<Reservations.Entry>>, bookings: seq<Booking>, drops: seq<seq<Drop>>)
    requires Fetched(books, items, uses, reservations, bookings) && Delivers(base, drops, uses)
    ensures Plant.UsesOf(LoadsOf(base, TasksOf(bookings, drops, items))) == uses
  {
    var tasks := TasksOf(bookings, drops, items);
    forall i | 0 <= i < |uses| ensures Plant.UsesOf(LoadsOf(base, tasks))[i] == uses[i] {
      FillsAreDraws(bookings[i].taken);
    }
  }

  /** From the reservations and the planned transfers to the start. */
  lemma JobMayStart(p: Plant.Plant, j: nat, kind: JobRuns.Kind, ts: seq<nat>, base: nat, inv: Inventory, books: Books,
                    items: seq<Item>, uses: seq<BusSystem.Use>, reservations: seq<seq<Reservations.Entry>>,
                    bookings: seq<Booking>, drops: seq<seq<Drop>>)
    returns (loads: seq<Plant.Load>)
    requires Ready(p.places, base, inv, books) && Fetched(books, items, uses, reservations, bookings)
    requires Delivers(base, drops, uses) && JobRuns.MayBegin(p.world, j, kind, ts, uses)
    requires kind.Crafting? || Accepted(inv, TasksOf(bookings, drops, items))
    ensures loads == LoadsOf(base, TasksOf(bookings, drops, items))
    ensures MayStart(p, j, kind, ts, uses, loads, base,
                     if kind.Crafting? then inv else AcceptAll(inv, TasksOf(bookings, drops, items)), BooksAfter(books, bookings))
  {
    var tasks := TasksOf(bookings, drops, items);
    loads := LoadsOf(base, tasks);
    UsesAreLoads(base, books, items, uses, reservations, bookings, drops);
    assert BookingsOf(tasks) == bookings;
    RecipeMayLaunch(p, j, kind, ts, base, inv, books, tasks);
  }

  /** A job with one input. */
  lemma OneMayStart(p: Plant.Plant, j: nat, kind: JobRuns.Kind, ts: seq<nat>, base: nat, inv: Inventory, books: Books,
                    items: seq<Item>, use: BusSystem.Use, reservations: seq<seq<Reservations.Entry>>,
                    bookings: seq<Booking>, drops: seq<Drop>)
    returns (loads: seq<Plant.Load>)
    requires Ready(p.places, base, inv, books) && Fetched(books, items, [use], reservations, bookings)
    requires Dropped(At(base, drops)) == use.outs && JobRuns.MayBegin(p.world, j, kind, ts, [use])
    requires !kind.Crafting? && Accepts(inv, drops, |drops|)
    ensures MayStart(p, j, kind, ts, [use], loads, base, Accept(inv, drops, |drops|), BooksAfter(books, bookings))
  {
    var tasks := TasksOf(bookings, [drops], items);
    OneIsAccepted(inv, tasks);
    loads := JobMayStart(p, j, kind, ts, base, inv, books, items, [use], reservations, bookings, [drops]);
  }

  lemma OneIsAccepted(inv: Inventory, tasks: seq<Task>)
    requires |tasks| == 1 && Accepts(inv, tasks[0].drops, |tasks[0].drops|)
    ensures Accepted(inv, tasks) && AcceptAll(inv, tasks) == Accept(inv, tasks[0].drops, |tasks[0].drops|)
  {
    assert tasks[1..] == [];
  }

  // ----- buffered machines

  function PlanDropsOf(wants: seq<Want>, plans: seq<seq<Insertion>>): (r: seq<seq<Drop>>)
    requires |wants| == |plans|
    ensures |r| == |wants| && forall i :: 0 <= i < |r| ==> r[i] == PlanDrops(wants[i].item, plans[i])
  {
    seq(|wants|, i requires 0 <= i < |wants| => PlanDrops(wants[i].item, plans[i]))
  }

  lemma UnitsDeliver(base: nat, wants: seq<Want>, plans: seq<seq<Insertion>>, uses: seq<BusSystem.Use>)
    requires |wants| == |plans| == |uses| && forall i :: 0 <= i < |uses| ==> uses[i].outs == Jobs.Units(plans[i])
    ensures Delivers(base, PlanDropsOf(wants, plans), uses)
  {
    forall i | 0 <= i < |uses| ensures Dropped(At(base, PlanDropsOf(wants, plans)[i])) == uses[i].outs {
      UnitsAreDrops(base, wants[i].item, plans[i]);
    }
  }

  /** Taking a plan transfer by transfer is what the process notes in its own listing. */
  lemma {:induction false} PlanDone(inv: Inventory, item: Item, plan: seq<Insertion>, n: nat)
    requires n <= |plan| && Accepts(inv, PlanDrops(item, plan), n)
    ensures Accept(inv, PlanDrops(item, plan), n) == AddAll(inv, item, plan[..n])
    decreases n
  {
    if n > 0 {
      PlanDone(inv, item, plan, n - 1);
      InSlots(inv, item, plan, n - 1);
      AddAllSnoc(inv, item, plan[..n - 1], plan[n - 1]);
      assert plan[..n] == plan[..n - 1] + [plan[n - 1]];
    }
  }

  lemma {:induction false} InSlots(inv: Inventory, item: Item, plan: seq<Insertion>, n: nat)
    requires n <= |plan| && Accepts(inv, PlanDrops(item, plan), n)
    ensures forall k :: 0 <= k < n ==> plan[k].slot < |inv|
    decreases n
  {
    if n > 0 {
      InSlots(inv, item, plan, n - 1);
    }
  }

  lemma {:induction false} AddAllSnoc(inv: Inventory, item: Item, plan: seq<Insertion>, ins: Insertion)
    requires ins.slot < |inv| && forall k :: 0 <= k < |plan| ==> plan[k].slot < |inv|
    ensures AddAll(inv, item, plan + [ins]) == Add(AddAll(inv, item, plan), item, ins)
    decreases |plan|
  {
    if plan == [] {
      assert plan + [ins] == [ins] && [ins][1..] == [];
    } else {
      assert (plan + [ins])[1..] == plan[1..] + [ins];
      AddAllSnoc(Add(inv, item, plan[0]), item, plan[1..], ins);
    }
  }

  lemma {:induction false} PlansDone(inv: Inventory, wants: seq<Want>, plans: seq<seq<Insertion>>, tasks: seq<Task>)
    requires Follows(tasks, wants, plans) && Accepted(inv, tasks)
    ensures AcceptAll(inv, tasks) == Buffered.Apply(inv, wants, plans)
    decreases |wants|
  {
    if wants != [] {
      PlanDone(inv, wants[0].item, plans[0], |plans[0]|);
      assert plans[0][..|plans[0]|] == plans[0];
      assert forall i :: 0 <= i < |tasks[1..]| ==> tasks[1..][i] == tasks[i + 1];
      PlansDone(AddAll(inv, wants[0].item, plans[0]), wants[1..], plans[1..], tasks[1..]);
    }
  }

  /** A recipe that a buffered process takes on may start; the machine will be as the process has noted. */
  lemma BufferedMayStart(p: Plant.Plant, j: nat, kind: JobRuns.Kind, ts: seq<nat>, base: nat, books: Books, stock: Stock,
                         inputs: seq<Recipe.Input>, items: seq<Item>, shadow: Inventory, existing: map<Item, nat>,
                         remaining: int, maxInputs: int, actual: Inventory, actual': Inventory, n: nat,
                         plans: seq<seq<Insertion>>, uses: seq<BusSystem.Use>,
                         reservations: seq<seq<Reservations.Entry>>, bookings: seq<Booking>)
    returns (loads: seq<Plant.Load>)
    requires n > 0 && Extends(actual, shadow) && !kind.Crafting?
    requires Jobs.Decided(stock, inputs, items, shadow, existing, remaining, maxInputs, actual, actual', n, plans)
    requires Fetched(books, items, uses, reservations, bookings)
    requires forall i :: 0 <= i < |uses| ==> uses[i].outs == Jobs.Units(plans[i])
    requires Ready(p.places, base, actual, books) && JobRuns.MayBegin(p.world, j, kind, ts, uses)
    ensures MayStart(p, j, kind, ts, uses, loads, base, actual', BooksAfter(books, bookings))
  {
    var wants := Sets(Jobs.Wants(inputs, items), n);
    var drops := PlanDropsOf(wants, plans);
    UnitsDeliver(base, wants, plans, uses);
    PlansAreAccepted(actual, shadow, wants, TasksOf(bookings, drops, items));
    PlansDone(actual, wants, plans, TasksOf(bookings, drops, items));
    loads := JobMayStart(p, j, kind, ts, base, actual, books, items, uses, reservations, bookings, drops);
  }

  /** So may a refill. */
  lemma RefillMayStart(p: Plant.Plant, j: nat, kind: JobRuns.Kind, ts: seq<nat>, base: nat, books: Books, item: Item,
                       shadow: Inventory, actual: Inventory, plan: seq<Insertion>, use: BusSystem.Use,
                       reservations: seq<seq<Reservations.Entry>>, bookings: seq<Booking>)
    returns (loads: seq<Plant.Load>)
    requires Extends(actual, shadow) && !kind.Crafting? && GreedyPlan(shadow, item, plan)
    requires Fetched(books, [item], [use], reservations, bookings) && use.outs == Jobs.Units(plan)
    requires Ready(p.places, base, actual, books) && JobRuns.MayBegin(p.world, j, kind, ts, [use])
    ensures MayStart(p, j, kind, ts, [use], loads, base, AddAll(actual, item, plan), BooksAfter(books, bookings))
  {
    UnitsAreDrops(base, item, plan);
    PlanTakenUpTo(actual, shadow, item, plan, |plan|);
    PlanDone(actual, item, plan, |plan|);
    assert plan[..|plan|] == plan;
    loads := OneMayStart(p, j, kind, ts, base, actual, books, [item], use, reservations, bookings, PlanDrops(item, plan));
  }

  // ----- machines with fixed slots

  function ShareDropsOf(inputs: seq<seq<Slotted.Use<nat>>>, items: seq<Item>, n: nat): (r: seq<seq<Drop>>)
    requires |inputs| == |items|
    ensures |r| == |items| && forall i :: 0 <= i < |r| ==> r[i] == ShareDrops(inputs[i], items[i], n)
  {
    seq(|items|, i requires 0 <= i < |items| => ShareDrops(inputs[i], items[i], n))
  }

  /** A recipe that a slotted process takes on may start, also one with fluids. */
  lemma SlottedMayStart(p: Plant.Plant, j: nat, kind: JobRuns.Kind, ts: seq<nat>, base: nat, inv: Inventory, books: Books,
                        stock: Stock, existing: Slotted.Slots<nat>, recipe: Slotted.Recipe<nat>, inputs: seq<Recipe.Input>,
                        items: seq<Item>, n: nat, uses: seq<BusSystem.Use>,
                        reservations: seq<seq<Reservations.Entry>>, bookings: seq<Booking>)
    returns (loads: seq<Plant.Load>)
    requires Jobs.SlottedOk(existing, recipe, inputs) && Slotted.DistinctInputs(recipe.inputs) && !kind.Crafting?
    requires n > 0 && Jobs.Sensible(stock, existing, recipe, inputs, items, n) && Numbered(inv, existing)
    requires Fetched(books, items, uses, reservations, bookings)
    requires forall i :: 0 <= i < |uses| ==> uses[i].outs == Slotted.Shares(recipe.inputs[i], n)
    requires Ready(p.places, base, inv, books) && JobRuns.MayBegin(p.world, j, kind, ts, uses)
    ensures var tasks := TasksOf(bookings, ShareDropsOf(recipe.inputs, items, n), items);
      && Accepted(inv, tasks)
      && MayStart(p, j, kind, ts, uses, loads, base, AcceptAll(inv, tasks), BooksAfter(books, bookings))
  {
    var drops := ShareDropsOf(recipe.inputs, items, n);
    var tasks := TasksOf(bookings, drops, items);
    forall i | 0 <= i < |uses| ensures Dropped(At(base, drops[i])) == uses[i].outs {
      LoadsAreUses(base, tasks[i]);
    }
    SharesAreAccepted(inv, existing, Slotted.Demand(recipe, items, 0), n, tasks);
    loads := JobMayStart(p, j, kind, ts, base, inv, books, items, uses, reservations, bookings, drops);
  }

  // ----- scattering

  lemma {:induction false} AcceptPrefix(inv: Inventory, ds: seq<Drop>, more: seq<Drop>, n: nat)
    requires n <= |ds|
    ensures Accepts(inv, ds + more, n) == Accepts(inv, ds, n)
    ensures Accepts(inv, ds, n) ==> Accept(inv, ds + more, n) == Accept(inv, ds, n)
    decreases n
  {
    if n > 0 {
      AcceptPrefix(inv, ds, more, n - 1);
      assert (ds + more)[n - 1] == ds[n - 1];
    }
  }

  /** After the transfers to the slots below k, these slots are as the process has noted. */
  ghost predicate ScatteredBelow(before: Inventory, after: Inventory, insertions: map<nat, nat>, item: Item, k: nat)
    requires k <= |before| == |after|
  {
    var ds := ScatterDrops(insertions, item, k);
    && Accepts(before, ds, |ds|)
    && forall s :: 0 <= s < |before| ==> Accept(before, ds, |ds|)[s] == if s < k then after[s] else before[s]
  }

  lemma {:induction false} ScatterDone(before: Inventory, after: Inventory, insertions: map<nat, nat>, item: Item, k: nat)
    requires Scattering.Filled(before, after, item, insertions) && k <= |before|
    requires forall s :: s in insertions && s < |before| ==> Takes(before[s], item, insertions[s])
    ensures ScatteredBelow(before, after, insertions, item, k)
    decreases k
  {
    if k > 0 {
      ScatterDone(before, after, insertions, item, k - 1);
      var ds := ScatterDrops(insertions, item, k - 1);
      var one := if k - 1 in insertions then [Drop(k - 1, item, insertions[k - 1])] else [];
      AcceptPrefix(before, ds, one, |ds|);
    }
  }

  lemma SpreadIsTaken(before: Inventory, after: Inventory, slots: set<nat>, item: Item, limit: int,
                      insertions: map<nat, nat>, n: nat)
    requires Scattering.Spread(before, after, slots, item, limit, insertions, n) && limit <= item.maxSize
    ensures var ds := ScatterDrops(insertions, item, |before|);
      Accepts(before, ds, |ds|) && Accept(before, ds, |ds|) == after
  {
    forall s | s in insertions && s < |before| ensures Takes(before[s], item, insertions[s]) {
      assert CountStack(after[s], item) <= limit;
    }
    ScatterDone(before, after, insertions, item, |before|);
  }

  /** Units that a scattering process spreads may start; the machine will be as the process has noted. */
  lemma ScatteredMayStart(p: Plant.Plant, j: nat, kind: JobRuns.Kind, ts: seq<nat>, base: nat, books: Books, stock: Stock,
                          input: Recipe.Input, items: seq<Item>, before: Inventory, after: Inventory, slots: set<nat>,
                          maxPerSlot: int, insertions: map<nat, nat>, n: nat, use: BusSystem.Use,
                          reservations: seq<seq<Reservations.Entry>>, bookings: seq<Booking>)
    returns (loads: seq<Plant.Load>)
    requires n > 0 && !kind.Crafting?
    requires Jobs.MostSpread(stock, input, items, before, after, slots, maxPerSlot, insertions, n)
    requires Fetched(books, items, [use], reservations, bookings) && use.outs == Jobs.Drops(insertions, |before|)
    requires Ready(p.places, base, before, books) && JobRuns.MayBegin(p.world, j, kind, ts, [use])
    ensures MayStart(p, j, kind, ts, [use], loads, base, after, BooksAfter(books, bookings))
  {
    var drops := ScatterDrops(insertions, items[0], |before|);
    SpreadIsTaken(before, after, slots, items[0], Min(maxPerSlot, items[0].maxSize), insertions, n);
    ScatteredAreDrops(base, insertions, items[0], |before|);
    loads := OneMayStart(p, j, kind, ts, base, before, books, items, use, reservations, bookings, drops);
  }

  // ----- crafting

  function GridDropsOf(slots: seq<seq<nat>>, items: seq<Item>, n: nat): (r: seq<seq<Drop>>)
    requires |slots| == |items|
    ensures |r| == |items| && forall i :: 0 <= i < |r| ==> r[i] == GridDrops(slots[i], items[i], n)
  {
    seq(|items|, i requires 0 <= i < |items| => GridDrops(slots[i], items[i], n))
  }

  /** A recipe that a crafting process takes on may start whatever is on its grid, which is used only when the group of its
      requests is run (NextGroupMayRun); so may all further ones. */
  lemma CraftingMayStart(p: Plant.Plant, j: nat, ts: seq<nat>, base: nat, inv: Inventory, books: Books,
                         inputs: seq<Recipe.Input>, items: seq<Item>, slots: seq<seq<nat>>, n: nat,
                         uses: seq<BusSystem.Use>, reservations: seq<seq<Reservations.Entry>>, bookings: seq<Booking>)
    returns (loads: seq<Plant.Load>)
    requires |slots| == |inputs| == |items| && forall i :: 0 <= i < |inputs| ==> |slots[i]| == inputs[i].size
    requires Fetched(books, items, uses, reservations, bookings)
    requires forall i :: 0 <= i < |uses| ==> uses[i].outs == Jobs.Copies(inputs[i].size, n)
    requires Ready(p.places, base, inv, books) && JobRuns.MayBegin(p.world, j, JobRuns.Crafting, ts, uses)
    ensures MayStart(p, j, JobRuns.Crafting, ts, uses, loads, base, inv, BooksAfter(books, bookings))
  {
    var drops := GridDropsOf(slots, items, n);
    forall i | 0 <= i < |uses| ensures Dropped(At(base, drops[i])) == uses[i].outs {
      CopiesAreDrops(base, slots[i], items[i], n);
    }
    loads := JobMayStart(p, j, JobRuns.Crafting, ts, base, inv, books, items, uses, reservations, bookings, drops);
  }

  /** A recipe without inputs needs a slot only for what it makes. */
  lemma CraftingFromNothingMayStart(p: Plant.Plant, j: nat, t: nat, base: nat, inv: Inventory, books: Books)
    requires Ready(p.places, base, inv, books)
    requires JobRuns.MayBegin(p.world, j, JobRuns.Crafting, [t], [BusSystem.Use([], [], 0)])
    ensures MayStart(p, j, JobRuns.Crafting, [t], [BusSystem.Use([], [], 0)], [Plant.Load([], [], 0)], base, inv, books)
  {
    var loads := [Plant.Load([], [], 0)];
    assert Plant.UsesOf(loads) == [BusSystem.Use([], [], 0)];
    assert Plant.CanLoad(p.places, [t], loads) && Plant.LoadAll(p.places, [t], loads) == p.places;
    assert Plant.NoDrops(loads) == loads;
  }
}
