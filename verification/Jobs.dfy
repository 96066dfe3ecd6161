/** From a recipe to the bus: each process resolves a recipe, plans how many sets the machine takes, reserves the
    inputs and asks for one bus slot per input. What it will put into a slot is what it will take out again, and at
    most one stack; this is what makes it right to give the slot back as empty (BusSystem). */
module Jobs {
  import opened Common
  import opened Items
  import opened Reservations
  import opened Catalog
  import opened Placement
  import Supply
  import Recipe
  import Slotted
  import Buffered
  import Scattering
  import Fluid
  import FluidRecipe
  import BusSystem

  /** Balanced uses are what the bus allocator's invariant asks of its users. */
  lemma BalancedMayAsk(s: BusSystem.System, t: nat, use: BusSystem.Use)
    requires BusSystem.Inv(s) && !s.draining && t !in s.parts && BusSystem.Balanced(use)
    ensures BusSystem.Enabled(s, BusSystem.Ask(t, use.fills, use.outs, use.cap))
    ensures BusSystem.Inv(BusSystem.Step(s, BusSystem.Ask(t, use.fills, use.outs, use.cap)))
  {
    BusSystem.StepInv(s, BusSystem.Ask(t, use.fills, use.outs, use.cap));
  }

  /** Whatever else happens on the bus, before a balanced use asks for a slot and after: when its part may give the
      slot back, the slot is empty. */
  lemma BalancedSlotsComeBackEmpty(phys: seq<nat>, before: seq<BusSystem.Event>, t: nat, use: BusSystem.Use,
                                   after: seq<BusSystem.Event>)
    requires BusSystem.Balanced(use) && BusSystem.CanRun(BusSystem.Start(phys), before)
    requires var s := BusSystem.Run(BusSystem.Start(phys), before); !s.draining && t !in s.parts
    requires BusSystem.CanRun(Asked(phys, before, t, use), after)
    requires BusSystem.Enabled(BusSystem.Run(Asked(phys, before, t, use), after), BusSystem.GiveBack(t))
    ensures var s := BusSystem.Run(Asked(phys, before, t, use), after); s.phys[s.parts[t].state.slot] == 0
  {
    BusSystem.StartInv(phys);
    BusSystem.RunInv(BusSystem.Start(phys), before);
    BalancedMayAsk(BusSystem.Run(BusSystem.Start(phys), before), t, use);
    BusSystem.RunInv(Asked(phys, before, t, use), after);
    var s := BusSystem.Run(Asked(phys, before, t, use), after);
    assert BusSystem.Content(s.parts[t], s.phys);
  }

  /** The bus after a run and one more request. */
  ghost function Asked(phys: seq<nat>, before: seq<BusSystem.Event>, t: nat, use: BusSystem.Use): BusSystem.System
    requires BusSystem.CanRun(BusSystem.Start(phys), before)
  {
    BusSystem.AskFor(BusSystem.Run(BusSystem.Start(phys), before), t, use.fills, use.outs, use.cap)
  }

  /** The extractions of a reservation. */
  function Fills(entries: seq<Entry>): seq<nat> {
    if entries == [] then [] else [entries[0].n] + Fills(entries[1..])
  }

  lemma {:induction false} FillsTotal(entries: seq<Entry>)
    ensures Sum(Fills(entries)) == TotalOf(entries)
    decreases |entries|
  {
    if entries != [] {
      FillsTotal(entries[1..]);
    }
  }

  /** Each use brings in what was reserved for its item, and a slot holds a stack of it. */
  predicate Brings(uses: seq<BusSystem.Use>, reservations: seq<seq<Entry>>, items: seq<Item>) {
    && |reservations| == |items| <= |uses|
    && forall i :: 0 <= i < |items| ==> uses[i].fills == Fills(reservations[i]) && uses[i].cap == items[i].maxSize
  }

  // ----- machines with fixed input slots

  /** A recipe for fixed slots, and what it asks the storages for. */
  predicate SlottedOk<S>(existing: Slotted.Slots<S>, recipe: Slotted.Recipe<S>, inputs: seq<Recipe.Input>) {
    && |inputs| == |recipe.inputs|
    && forall i :: 0 <= i < |inputs| ==>
         && Slotted.WellFormed(existing, recipe.inputs[i])
         && inputs[i].size == Slotted.SizeOfInput(recipe.inputs[i])
  }

  lemma SlottedUse<S>(entries: seq<Entry>, uses: seq<Slotted.Use<S>>, n: nat, cap: nat)
    requires TotalOf(entries) == n * Slotted.SizeOfInput(uses) <= cap
    ensures BusSystem.Balanced(BusSystem.Use(Fills(entries), Slotted.Shares(uses, n), cap))
  {
    FillsTotal(entries);
    Slotted.SharesAreExact(uses, n);
  }

  /** Pairs each reservation with the transfers of its input. */
  method SlottedUses<S>(reservations: seq<seq<Entry>>, recipe: Slotted.Recipe<S>, inputs: seq<Recipe.Input>,
                        items: seq<Item>, n: nat)
    returns (uses: seq<BusSystem.Use>)
    requires |reservations| == |recipe.inputs| == |inputs| == |items| && Recipe.HandedOut(reservations, inputs, n)
    requires forall i :: 0 <= i < |inputs| ==>
      inputs[i].size == Slotted.SizeOfInput(recipe.inputs[i]) && n * inputs[i].size <= items[i].maxSize
    ensures |uses| == |inputs|
    ensures forall i :: 0 <= i < |uses| ==> BusSystem.Balanced(uses[i]) && uses[i].outs == Slotted.Shares(recipe.inputs[i], n)
    ensures Brings(uses, reservations, items)
  {
    uses := [];
    for i := 0 to |inputs|
      invariant |uses| == i
      invariant forall j :: 0 <= j < i ==> BusSystem.Balanced(uses[j]) && uses[j].outs == Slotted.Shares(recipe.inputs[j], n)
      invariant forall j :: 0 <= j < i ==> uses[j].fills == Fills(reservations[j]) && uses[j].cap == items[j].maxSize
    {
      SlottedUse(reservations[i], recipe.inputs[i], n, items[i].maxSize);
      uses := uses + [BusSystem.Use(Fills(reservations[i]), Slotted.Shares(recipe.inputs[i], n), items[i].maxSize)];
    }
  }

  /** Some input matches nothing that is stored; `items` are those found before it. */
  ghost predicate Unresolved(stock: Stock, inputs: seq<Recipe.Input>, items: seq<Item>) {
    && Recipe.Chosen(stock, inputs, items)
    && |items| < |inputs| && Matches(stock, inputs[|items|].filter) == {}
  }

  /** So many sets can be supplied and go into the machine. */
  ghost predicate Sensible<S>(stock: Stock, existing: Slotted.Slots<S>, recipe: Slotted.Recipe<S>,
                              inputs: seq<Recipe.Input>, items: seq<Item>, n: nat)
    requires SlottedOk(existing, recipe, inputs)
  {
    && Recipe.Chosen(stock, inputs, items) && |items| == |inputs| && Recipe.Supplied(stock, inputs, items, n)
    && Slotted.Acceptable(existing, Slotted.Demand(recipe, items, 0), n)
  }

  /** Each input has an item, and n is the largest sensible number of sets, 0 if there is none. */
  ghost predicate MostSensible<S>(stock: Stock, existing: Slotted.Slots<S>, recipe: Slotted.Recipe<S>,
                                  inputs: seq<Recipe.Input>, items: seq<Item>, n: nat)
    requires SlottedOk(existing, recipe, inputs)
  {
    && Recipe.Chosen(stock, inputs, items) && |items| == |inputs|
    && forall m: nat :: m > 0 ==> (m <= n <==> Sensible(stock, existing, recipe, inputs, items, m))
  }

  method ChooseSets<S(==)>(table: ItemTable, ghost stock: Stock, existing: Slotted.Slots<S>, recipe: Slotted.Recipe<S>,
                           inputs: seq<Recipe.Input>)
    returns (n: nat, items: seq<Item>)
    requires table.Valid() && table.Shows(stock) && Recipe.WellFormed(stock, inputs)
    requires SlottedOk(existing, recipe, inputs)
    ensures (n == 0 && Unresolved(stock, inputs, items)) || MostSensible(stock, existing, recipe, inputs, items, n)
  {
    var r, found := Recipe.ResolveInputs(table, stock, inputs);
    items := found;
    if r.None? {
      return 0, items;
    }
    n := Slotted.AcceptableSets(existing, Slotted.Demand(recipe, items, r.value.nSets));
    Resolution(stock, existing, recipe, inputs, items, r.value.nSets, n);
  }

  lemma Resolution<S>(stock: Stock, existing: Slotted.Slots<S>, recipe: Slotted.Recipe<S>,
                      inputs: seq<Recipe.Input>, items: seq<Item>, nSets: nat, n: nat)
    requires SlottedOk(existing, recipe, inputs) && Recipe.Chosen(stock, inputs, items) && |items| == |inputs|
    requires forall m: nat :: m > 0 ==> (m <= nSets <==> Recipe.Supplied(stock, inputs, items, m))
    requires forall m: nat :: 0 < m <= nSets ==>
      (m <= n <==> Slotted.Acceptable(existing, Slotted.Demand(recipe, items, nSets), m))
    requires n <= nSets
    ensures MostSensible(stock, existing, recipe, inputs, items, n)
  {
    forall m: nat | m > 0
      ensures m <= n <==> Sensible(stock, existing, recipe, inputs, items, m)
    {
      assert m <= nSets <==> Recipe.Supplied(stock, inputs, items, m);
      SameAcceptable(existing, recipe, items, nSets, m);
      assert m <= nSets ==> (m <= n <==> Slotted.Acceptable(existing, Slotted.Demand(recipe, items, nSets), m));
    }
  }

  lemma SameAcceptable<S>(existing: Slotted.Slots<S>, recipe: Slotted.Recipe<S>, items: seq<Item>, nSets: nat, n: nat)
    requires Slotted.DemandOk(existing, Slotted.Demand(recipe, items, 0))
    ensures Slotted.DemandOk(existing, Slotted.Demand(recipe, items, nSets))
    ensures Slotted.Acceptable(existing, Slotted.Demand(recipe, items, nSets), n)
       <==> Slotted.Acceptable(existing, Slotted.Demand(recipe, items, 0), n)
  {}

  /** Reserves what n sets need and plans their way over the bus. */
  method CommitSlotted<S>(table: ItemTable, ghost stock: Stock, ghost books: Books, recipe: Slotted.Recipe<S>,
                          inputs: seq<Recipe.Input>, items: seq<Item>, n: nat)
    returns (uses: seq<BusSystem.Use>, reservations: seq<seq<Entry>>, ghost bookings: seq<Booking>)
    requires table.Valid() && table.Shows(stock) && table.Keeps(books) && |recipe.inputs| == |inputs| == |items|
    requires forall i :: 0 <= i < |inputs| ==>
      Recipe.Enough(stock, inputs, items, n, i) && inputs[i].size == Slotted.SizeOfInput(recipe.inputs[i])
    modifies table.items.Values
    ensures table.Valid() && table.Shows(Recipe.Left(stock, inputs, items, n, |inputs|))
    ensures |uses| == |inputs|
    ensures forall i :: 0 <= i < |uses| ==> BusSystem.Balanced(uses[i]) && uses[i].outs == Slotted.Shares(recipe.inputs[i], n)
    ensures Brings(uses, reservations, items) && Recipe.Records(bookings, items, reservations)
    ensures Booked(books, bookings) && table.Keeps(BooksAfter(books, bookings))
  {
    forall i | 0 <= i < |inputs| ensures n * inputs[i].size <= items[i].maxSize {
      assert Recipe.Enough(stock, inputs, items, n, i);
    }
    reservations, bookings := Recipe.ReserveAll(table, stock, books, inputs, items, n);
    uses := SlottedUses(reservations, recipe, inputs, items, n);
  }

  /** A slotted process takes on a recipe: for each input one balanced use of the bus, which transfers n times the
      recipe's shares, for the largest sensible n. When there is none, the books stay as they are. */
  method StartSlotted<S(==)>(table: ItemTable, ghost stock: Stock, ghost books: Books, existing: Slotted.Slots<S>,
                             recipe: Slotted.Recipe<S>, inputs: seq<Recipe.Input>)
    returns (n: nat, items: seq<Item>, uses: seq<BusSystem.Use>,
             reservations: seq<seq<Entry>>, ghost bookings: seq<Booking>)
    requires table.Valid() && table.Shows(stock) && table.Keeps(books) && Recipe.WellFormed(stock, inputs)
    requires SlottedOk(existing, recipe, inputs)
    modifies table.items.Values
    ensures (n == 0 && Unresolved(stock, inputs, items)) || MostSensible(stock, existing, recipe, inputs, items, n)
    ensures table.Valid() && |uses| == (if n == 0 then 0 else |inputs|)
    ensures table.Shows(if n == 0 then stock else Recipe.Left(stock, inputs, items, n, |inputs|))
    ensures forall i :: 0 <= i < |uses| ==> BusSystem.Balanced(uses[i]) && uses[i].outs == Slotted.Shares(recipe.inputs[i], n)
    ensures Booked(books, bookings) && table.Keeps(BooksAfter(books, bookings)) && (n == 0 ==> bookings == [])
    ensures n > 0 ==> Brings(uses, reservations, items) && Recipe.Records(bookings, items, reservations)
  {
    uses, reservations, bookings := [], [], [];
    n, items := ChooseSets(table, stock, existing, recipe, inputs);
    if n > 0 {
      MostIsSensible(stock, existing, recipe, inputs, items, n);
      Recipe.AlwaysEnough(stock, inputs, items, n);
      uses, reservations, bookings := CommitSlotted(table, stock, books, recipe, inputs, items, n);
    }
  }

  lemma MostIsSensible<S>(stock: Stock, existing: Slotted.Slots<S>, recipe: Slotted.Recipe<S>,
                          inputs: seq<Recipe.Input>, items: seq<Item>, n: nat)
    requires SlottedOk(existing, recipe, inputs)
    requires n > 0 && MostSensible(stock, existing, recipe, inputs, items, n)
    ensures Sensible(stock, existing, recipe, inputs, items, n)
  {
    var sensible := Sensible(stock, existing, recipe, inputs, items, n);
  }

  // ----- machines with fixed input slots and tanks

  /** So many sets are also supplied with fluids, and go into the tanks. */
  ghost predicate SensibleMix<S>(stock: Stock, existing: Slotted.Slots<S>, recipe: Slotted.Recipe<S>,
                                 inputs: seq<Recipe.Input>, items: seq<Item>,
                                 storages: seq<Fluid.FluidStorage>, backups: map<string, int>, busCapacity: nat,
                                 fluids: seq<FluidRecipe.FluidInput>, tanks: seq<map<string, nat>>,
                                 uses: seq<FluidRecipe.TankUse>, n: nat)
    requires SlottedOk(existing, recipe, inputs)
    requires forall j :: 0 <= j < |uses| ==> uses[j].tank < |tanks|
    reads storages
  {
    && Sensible(stock, existing, recipe, inputs, items, n)
    && FluidRecipe.FluidsSupplied(storages, backups, busCapacity, fluids, n)
    && FluidRecipe.TanksAcceptable(tanks, uses, recipe.maxSets, n)
  }

  ghost predicate MostMix<S>(stock: Stock, existing: Slotted.Slots<S>, recipe: Slotted.Recipe<S>,
                             inputs: seq<Recipe.Input>, items: seq<Item>,
                             storages: seq<Fluid.FluidStorage>, backups: map<string, int>, busCapacity: nat,
                             fluids: seq<FluidRecipe.FluidInput>, tanks: seq<map<string, nat>>,
                             uses: seq<FluidRecipe.TankUse>, n: nat)
    requires SlottedOk(existing, recipe, inputs)
    requires forall j :: 0 <= j < |uses| ==> uses[j].tank < |tanks|
    reads storages
  {
    && Recipe.Chosen(stock, inputs, items) && |items| == |inputs|
    && forall m: nat :: m > 0 ==> (m <= n <==> SensibleMix(stock, existing, recipe, inputs, items, storages, backups,
                                                           busCapacity, fluids, tanks, uses, m))
  }

  /** The recipe selection of a process with tanks: the largest number of sets that the storages of items and of fluids
      can supply and that slots and tanks can take. */
  method ChooseMix<S(==)>(table: ItemTable, ghost stock: Stock, existing: Slotted.Slots<S>, recipe: Slotted.Recipe<S>,
                          inputs: seq<Recipe.Input>, storages: seq<Fluid.FluidStorage>, backups: map<string, int>,
                          busCapacity: nat, fluids: seq<FluidRecipe.FluidInput>, tanks: seq<map<string, nat>>,
                          uses: seq<FluidRecipe.TankUse>)
    returns (n: nat, items: seq<Item>)
    requires table.Valid() && table.Shows(stock) && Recipe.WellFormed(stock, inputs)
    requires SlottedOk(existing, recipe, inputs)
    requires FluidRecipe.WellFormed(backups, fluids)
    requires forall j :: 0 <= j < |uses| ==> uses[j].tank < |tanks| && uses[j].mult > 0
    ensures
      || (n == 0 && Unresolved(stock, inputs, items))
      || MostMix(stock, existing, recipe, inputs, items, storages, backups, busCapacity, fluids, tanks, uses, n)
  {
    var r, found := Recipe.ResolveInputs(table, stock, inputs);
    items := found;
    if r.None? {
      return 0, items;
    }
    SuppliedAtMost(stock, inputs, items, r.value.nSets);
    var supplied := FluidRecipe.FluidSets(storages, backups, busCapacity, fluids, r.value.nSets);
    var bound: nat := Max(0, supplied);
    var inSlots := Slotted.AcceptableSets(existing, Slotted.Demand(recipe, items, bound));
    n := FluidRecipe.TightenTanks(tanks, uses, recipe.maxSets, inSlots);
    forall m: nat | m > 0
      ensures m <= n <==> SensibleMix(stock, existing, recipe, inputs, items, storages, backups, busCapacity, fluids, tanks,
                                      uses, m)
    {
      var fluidsSupplied := FluidRecipe.FluidsSupplied(storages, backups, busCapacity, fluids, m);
      var tanksAcceptable := FluidRecipe.TanksAcceptable(tanks, uses, recipe.maxSets, m);
      SameAcceptable(existing, recipe, items, bound, m);
      var acceptable := Slotted.Acceptable(existing, Slotted.Demand(recipe, items, bound), m);
      var itemsSupplied := Recipe.Supplied(stock, inputs, items, m);
    }
  }

  /** A process with tanks takes on a recipe: balanced uses of the item bus as for any slotted process, and for each
      fluid exactly what its tanks will get, which fits into one fluid bus. */
  method StartMix<S(==)>(table: ItemTable, ghost stock: Stock, ghost books: Books, existing: Slotted.Slots<S>,
                         recipe: Slotted.Recipe<S>,
                         inputs: seq<Recipe.Input>, storages: seq<Fluid.FluidStorage>, backups: map<string, int>,
                         busCapacity: nat, fluids: seq<FluidRecipe.FluidInput>, tanks: seq<map<string, nat>>,
                         tankUses: seq<FluidRecipe.TankUse>)
    returns (n: nat, items: seq<Item>, uses: seq<BusSystem.Use>,
             reservations: seq<seq<Entry>>, ghost bookings: seq<Booking>, drawn: seq<seq<Fluid.Part>>)
    requires table.Valid() && table.Shows(stock) && table.Keeps(books) && Recipe.WellFormed(stock, inputs)
    requires SlottedOk(existing, recipe, inputs)
    requires FluidRecipe.WellFormed(backups, fluids) && Fluid.Different(storages)
    requires forall j :: 0 <= j < |tankUses| ==> tankUses[j].tank < |tanks| && tankUses[j].mult > 0
    modifies table.items.Values, set i | 0 <= i < |storages| :: storages[i]
    ensures |uses| == (if n == 0 then 0 else |inputs|) && |drawn| == (if n == 0 then 0 else |fluids|)
    ensures
      || (n == 0 && Unresolved(stock, inputs, items))
      || old(MostMix(stock, existing, recipe, inputs, items, storages, backups, busCapacity, fluids, tanks, tankUses, n))
    ensures table.Valid() && table.Shows(if n == 0 then stock else Recipe.Left(stock, inputs, items, n, |inputs|))
    ensures n == 0 ==> unchanged(set i | 0 <= i < |storages| :: storages[i])
    ensures forall i :: 0 <= i < |uses| ==> BusSystem.Balanced(uses[i]) && uses[i].outs == Slotted.Shares(recipe.inputs[i], n)
    ensures FluidRecipe.HandedOut(drawn, fluids, n)
    ensures forall i :: 0 <= i < |drawn| ==> Fluid.TotalGiven(drawn[i]) <= busCapacity
    ensures Booked(books, bookings) && table.Keeps(BooksAfter(books, bookings)) && (n == 0 ==> bookings == [])
    ensures n > 0 ==> Brings(uses, reservations, items) && Recipe.Records(bookings, items, reservations)
  {
    uses, reservations, bookings, drawn := [], [], [], [];
    n, items := ChooseMix(table, stock, existing, recipe, inputs, storages, backups, busCapacity, fluids, tanks, tankUses);
    if n > 0 {
      MixIsSensible(stock, existing, recipe, inputs, items, storages, backups, busCapacity, fluids, tanks, tankUses, n);
      Recipe.AlwaysEnough(stock, inputs, items, n);
      uses, reservations, bookings, drawn :=
        CommitMix(table, stock, books, recipe, inputs, items, storages, backups, busCapacity, fluids, n);
    }
  }

  lemma MixIsSensible<S>(stock: Stock, existing: Slotted.Slots<S>, recipe: Slotted.Recipe<S>,
                         inputs: seq<Recipe.Input>, items: seq<Item>,
                         storages: seq<Fluid.FluidStorage>, backups: map<string, int>, busCapacity: nat,
                         fluids: seq<FluidRecipe.FluidInput>, tanks: seq<map<string, nat>>,
                         uses: seq<FluidRecipe.TankUse>, n: nat)
    requires SlottedOk(existing, recipe, inputs)
    requires forall j :: 0 <= j < |uses| ==> uses[j].tank < |tanks|
    requires n > 0 && MostMix(stock, existing, recipe, inputs, items, storages, backups, busCapacity, fluids, tanks, uses, n)
    ensures Recipe.Supplied(stock, inputs, items, n)
    ensures FluidRecipe.FluidsSupplied(storages, backups, busCapacity, fluids, n)
  {
    var sensible :=
      SensibleMix(stock, existing, recipe, inputs, items, storages, backups, busCapacity, fluids, tanks, uses, n);
  }

  /** Reserves what n sets need of fluids and of items. */
  method CommitMix<S>(table: ItemTable, ghost stock: Stock, ghost books: Books, recipe: Slotted.Recipe<S>,
                      inputs: seq<Recipe.Input>,
                      items: seq<Item>, storages: seq<Fluid.FluidStorage>, backups: map<string, int>, busCapacity: nat,
                      fluids: seq<FluidRecipe.FluidInput>, n: nat)
    returns (uses: seq<BusSystem.Use>, reservations: seq<seq<Entry>>, ghost bookings: seq<Booking>,
             drawn: seq<seq<Fluid.Part>>)
    requires table.Valid() && table.Shows(stock) && table.Keeps(books) && |recipe.inputs| == |inputs| == |items| && n > 0
    requires forall i :: 0 <= i < |inputs| ==>
      Recipe.Enough(stock, inputs, items, n, i) && inputs[i].size == Slotted.SizeOfInput(recipe.inputs[i])
    requires FluidRecipe.WellFormed(backups, fluids) && Fluid.Different(storages)
    requires FluidRecipe.FluidsSupplied(storages, backups, busCapacity, fluids, n)
    modifies table.items.Values, set i | 0 <= i < |storages| :: storages[i]
    ensures table.Valid() && table.Shows(Recipe.Left(stock, inputs, items, n, |inputs|))
    ensures |uses| == |inputs| && |drawn| == |fluids|
    ensures forall i :: 0 <= i < |uses| ==> BusSystem.Balanced(uses[i]) && uses[i].outs == Slotted.Shares(recipe.inputs[i], n)
    ensures FluidRecipe.HandedOut(drawn, fluids, n)
    ensures forall i :: 0 <= i < |drawn| ==> Fluid.TotalGiven(drawn[i]) <= busCapacity
    ensures Brings(uses, reservations, items) && Recipe.Records(bookings, items, reservations)
    ensures Booked(books, bookings) && table.Keeps(BooksAfter(books, bookings))
  {
    drawn := FluidRecipe.ReserveFluids(storages, backups, busCapacity, fluids, n);
    FluidsFit(drawn, fluids, busCapacity, n);
    assert unchanged(table) && unchanged(table.items.Values);
    uses, reservations, bookings := CommitSlotted(table, stock, books, recipe, inputs, items, n);
  }

  lemma FluidsFit(drawn: seq<seq<Fluid.Part>>, fluids: seq<FluidRecipe.FluidInput>, busCapacity: nat, n: nat)
    requires |drawn| == |fluids| && FluidRecipe.HandedOut(drawn, fluids, n)
    requires Supply.Fit(FluidRecipe.Buses(busCapacity, |fluids|), FluidRecipe.Sizes(fluids), n)
    ensures forall i :: 0 <= i < |drawn| ==> Fluid.TotalGiven(drawn[i]) <= busCapacity
  {
    forall i | 0 <= i < |drawn| ensures Fluid.TotalGiven(drawn[i]) <= busCapacity {
      assert n * FluidRecipe.Sizes(fluids)[i] <= FluidRecipe.Buses(busCapacity, |fluids|)[i];
    }
  }

  // ----- crafting grids

  /** n items to each of k grid slots. */
  function Copies(k: nat, n: nat): seq<nat> {
    if k == 0 then [] else [n] + Copies(k - 1, n)
  }

  lemma {:induction false} CopiesTotal(k: nat, n: nat)
    ensures Sum(Copies(k, n)) == n * k
    decreases k
  {
    if k > 0 {
      CopiesTotal(k - 1, n);
      Supply.Scaled(n, k - 1, 1);
    }
  }

  /** A crafting process pairs each reservation with transfers to the input's grid slots; a recipe without inputs still
      needs one slot for its products. */
  method CraftingUses(reservations: seq<seq<Entry>>, inputs: seq<Recipe.Input>, items: seq<Item>, n: nat)
    returns (uses: seq<BusSystem.Use>)
    requires |reservations| == |inputs| == |items| && Recipe.HandedOut(reservations, inputs, n)
    requires forall i :: 0 <= i < |inputs| ==> n * inputs[i].size <= items[i].maxSize
    ensures |uses| == Max(1, |inputs|) && forall i :: 0 <= i < |uses| ==> BusSystem.Balanced(uses[i])
    ensures forall i :: 0 <= i < |inputs| ==> uses[i].outs == Copies(inputs[i].size, n)
    ensures Brings(uses, reservations, items)
    ensures inputs == [] ==> uses == [BusSystem.Use([], [], 0)]
  {
    uses := [];
    for i := 0 to |inputs|
      invariant |uses| == i
      invariant forall j :: 0 <= j < i ==> BusSystem.Balanced(uses[j]) && uses[j].outs == Copies(inputs[j].size, n)
      invariant forall j :: 0 <= j < i ==> uses[j].fills == Fills(reservations[j]) && uses[j].cap == items[j].maxSize
    {
      FillsTotal(reservations[i]);
      CopiesTotal(inputs[i].size, n);
      uses := uses + [BusSystem.Use(Fills(reservations[i]), Copies(inputs[i].size, n), items[i].maxSize)];
    }
    if uses == [] {
      uses := [BusSystem.Use([], [], 0)];
    }
  }

  /** How many sets a crafting process takes on, if each input has an item: the most that are supplied and allowed. */
  ghost predicate MostCrafted(stock: Stock, inputs: seq<Recipe.Input>, items: seq<Item>, maxSets: int, n: nat) {
    && Recipe.Chosen(stock, inputs, items) && |items| == |inputs|
    && forall m: nat :: m > 0 ==> (m <= n <==> m <= maxSets && Recipe.Supplied(stock, inputs, items, m))
  }

  method ChooseCrafted(table: ItemTable, ghost stock: Stock, inputs: seq<Recipe.Input>, maxSets: int)
    returns (n: nat, items: seq<Item>)
    requires table.Valid() && table.Shows(stock) && Recipe.WellFormed(stock, inputs)
    ensures
      || (n == 0 && (maxSets <= 0 || Unresolved(stock, inputs, items)))
      || MostCrafted(stock, inputs, items, maxSets, n)
  {
    if maxSets <= 0 {
      return 0, [];
    }
    var r, found := Recipe.ResolveInputs(table, stock, inputs);
    items := found;
    if r.None? {
      return 0, items;
    }
    n := Min(r.value.nSets, maxSets);
  }

  lemma CraftedIsSupplied(stock: Stock, inputs: seq<Recipe.Input>, items: seq<Item>, maxSets: int, n: nat)
    requires n > 0 && MostCrafted(stock, inputs, items, maxSets, n)
    ensures Recipe.Supplied(stock, inputs, items, n)
  {
    var supplied := Recipe.Supplied(stock, inputs, items, n);
  }

  method CommitCrafting(table: ItemTable, ghost stock: Stock, ghost books: Books, inputs: seq<Recipe.Input>,
                        items: seq<Item>, n: nat)
    returns (uses: seq<BusSystem.Use>, reservations: seq<seq<Entry>>, ghost bookings: seq<Booking>)
    requires table.Valid() && table.Shows(stock) && table.Keeps(books) && |inputs| == |items|
    requires forall i :: 0 <= i < |inputs| ==> Recipe.Enough(stock, inputs, items, n, i)
    modifies table.items.Values
    ensures table.Valid() && table.Shows(Recipe.Left(stock, inputs, items, n, |inputs|))
    ensures |uses| == Max(1, |inputs|) && forall i :: 0 <= i < |uses| ==> BusSystem.Balanced(uses[i])
    ensures forall i :: 0 <= i < |inputs| ==> uses[i].outs == Copies(inputs[i].size, n)
    ensures Brings(uses, reservations, items) && Recipe.Records(bookings, items, reservations)
    ensures Booked(books, bookings) && table.Keeps(BooksAfter(books, bookings))
  {
    forall i | 0 <= i < |inputs| ensures n * inputs[i].size <= items[i].maxSize {
      assert Recipe.Enough(stock, inputs, items, n, i);
    }
    reservations, bookings := Recipe.ReserveAll(table, stock, books, inputs, items, n);
    uses := CraftingUses(reservations, inputs, items, n);
  }

  /** A crafting process takes on a recipe whose inputs go to as many grid slots as their size says. */
  method StartCrafting(table: ItemTable, ghost stock: Stock, ghost books: Books, inputs: seq<Recipe.Input>,
                       maxSets: int)
    returns (n: nat, items: seq<Item>, uses: seq<BusSystem.Use>,
             reservations: seq<seq<Entry>>, ghost bookings: seq<Booking>)
    requires table.Valid() && table.Shows(stock) && table.Keeps(books) && Recipe.WellFormed(stock, inputs)
    modifies table.items.Values
    ensures
      || (n == 0 && (maxSets <= 0 || Unresolved(stock, inputs, items)))
      || MostCrafted(stock, inputs, items, maxSets, n)
    ensures table.Valid() && |uses| == (if n == 0 then 0 else Max(1, |inputs|))
    ensures table.Shows(if n == 0 then stock else Recipe.Left(stock, inputs, items, n, |inputs|))
    ensures forall i :: 0 <= i < |uses| ==> BusSystem.Balanced(uses[i])
    ensures n > 0 ==> forall i :: 0 <= i < |inputs| ==> uses[i].outs == Copies(inputs[i].size, n)
    ensures Booked(books, bookings) && table.Keeps(BooksAfter(books, bookings)) && (n == 0 ==> bookings == [])
    ensures n > 0 ==> Brings(uses, reservations, items) && Recipe.Records(bookings, items, reservations)
  {
    uses, reservations, bookings := [], [], [];
    n, items := ChooseCrafted(table, stock, inputs, maxSets);
    if n > 0 {
      CraftedIsSupplied(stock, inputs, items, maxSets, n);
      Recipe.AlwaysEnough(stock, inputs, items, n);
      uses, reservations, bookings := CommitCrafting(table, stock, books, inputs, items, n);
    }
  }

  // ----- machines with a buffer

  /** The transfers of a plan. */
  function Units(plan: seq<Insertion>): seq<nat> {
    if plan == [] then [] else [plan[0].amount] + Units(plan[1..])
  }

  lemma {:induction false} UnitsTotal(plan: seq<Insertion>)
    ensures Sum(Units(plan)) == Inserted(plan)
    decreases |plan|
  {
    if plan != [] {
      UnitsTotal(plan[1..]);
    }
  }

  function Wants(inputs: seq<Recipe.Input>, items: seq<Item>): (r: seq<Want>)
    requires |items| == |inputs|
    ensures |r| == |inputs| && forall i :: 0 <= i < |r| ==> r[i] == Want(items[i], inputs[i].size)
  {
    seq(|inputs|, i requires 0 <= i < |inputs| => Want(items[i], inputs[i].size))
  }

  lemma WantsFit(stock: Stock, inputs: seq<Recipe.Input>, items: seq<Item>, n: nat)
    requires |items| == |inputs| && Recipe.Supplied(stock, inputs, items, n)
    ensures AtMostStacks(Sets(Wants(inputs, items), n))
  {
    forall i | 0 <= i < |inputs| ensures n * inputs[i].size <= items[i].maxSize {
      Recipe.StackHolds(inputs, items, n, i);
    }
  }

  method BufferedUses(reservations: seq<seq<Entry>>, plans: seq<seq<Insertion>>, inputs: seq<Recipe.Input>,
                      items: seq<Item>, n: nat)
    returns (uses: seq<BusSystem.Use>)
    requires |reservations| == |plans| == |inputs| == |items| && Recipe.HandedOut(reservations, inputs, n)
    requires forall i :: 0 <= i < |inputs| ==> Inserted(plans[i]) == n * inputs[i].size <= items[i].maxSize
    ensures |uses| == |inputs|
    ensures forall i :: 0 <= i < |uses| ==> BusSystem.Balanced(uses[i]) && uses[i].outs == Units(plans[i])
    ensures Brings(uses, reservations, items)
  {
    uses := [];
    for i := 0 to |inputs|
      invariant |uses| == i
      invariant forall j :: 0 <= j < i ==> BusSystem.Balanced(uses[j]) && uses[j].outs == Units(plans[j])
      invariant forall j :: 0 <= j < i ==> uses[j].fills == Fills(reservations[j]) && uses[j].cap == items[j].maxSize
    {
      FillsTotal(reservations[i]);
      UnitsTotal(plans[i]);
      uses := uses + [BusSystem.Use(Fills(reservations[i]), Units(plans[i]), items[i].maxSize)];
    }
  }

  /** No stored item equals the stand-in for slots that are not to be touched. */
  ghost predicate NoJammer(stock: Stock) { JAMMER !in stock }

  /** What a recipe asks of a buffered run can be tried with the number of sets that the storages supply. */
  lemma WantsOk(stock: Stock, inputs: seq<Recipe.Input>, items: seq<Item>, n: nat)
    requires |items| == |inputs| && inputs != [] && Recipe.WellFormed(stock, inputs) && NoJammer(stock)
    requires Recipe.Chosen(stock, inputs, items) && Recipe.Supplied(stock, inputs, items, n)
    ensures AtMostStacks(Sets(Wants(inputs, items), n)) && Buffered.Amounts(Wants(inputs, items)) > 0
    ensures forall i :: 0 <= i < |inputs| ==> Wants(inputs, items)[i].item != JAMMER
  {
    WantsFit(stock, inputs, items, n);
  }

  method CommitBuffered(table: ItemTable, ghost stock: Stock, ghost books: Books, plans: seq<seq<Insertion>>,
                        inputs: seq<Recipe.Input>, items: seq<Item>, n: nat)
    returns (uses: seq<BusSystem.Use>, reservations: seq<seq<Entry>>, ghost bookings: seq<Booking>)
    requires table.Valid() && table.Shows(stock) && table.Keeps(books) && |plans| == |inputs| == |items|
    requires n > 0 && Recipe.WellFormed(stock, inputs)
    requires Recipe.Chosen(stock, inputs, items) && Recipe.Supplied(stock, inputs, items, n)
    requires forall i :: 0 <= i < |inputs| ==> Inserted(plans[i]) == n * inputs[i].size
    modifies table.items.Values
    ensures table.Valid() && table.Shows(Recipe.Left(stock, inputs, items, n, |inputs|))
    ensures |uses| == |inputs|
    ensures forall i :: 0 <= i < |uses| ==> BusSystem.Balanced(uses[i]) && uses[i].outs == Units(plans[i])
    ensures Brings(uses, reservations, items) && Recipe.Records(bookings, items, reservations)
    ensures Booked(books, bookings) && table.Keeps(BooksAfter(books, bookings))
  {
    Recipe.AlwaysEnough(stock, inputs, items, n);
    forall i | 0 <= i < |inputs| ensures n * inputs[i].size <= items[i].maxSize {
      assert Recipe.Enough(stock, inputs, items, n, i);
    }
    reservations, bookings := Recipe.ReserveAll(table, stock, books, inputs, items, n);
    uses := BufferedUses(reservations, plans, inputs, items, n);
  }

  /** How many sets the storages, the quotas and the machine's shadow inventory allow together. */
  ghost predicate Possible(stock: Stock, inputs: seq<Recipe.Input>, items: seq<Item>, shadow: Inventory,
                           existing: map<Item, nat>, remaining: int, maxInputs: int, n: nat)
  {
    && |items| == |inputs| && Recipe.Chosen(stock, inputs, items) && Recipe.Supplied(stock, inputs, items, n)
    && Buffered.Feasible(shadow, existing, remaining, Wants(inputs, items), maxInputs, n)
  }

  /** Each input has an item, and n is the largest possible number of sets, 0 if there is none. */
  ghost predicate MostSets(stock: Stock, inputs: seq<Recipe.Input>, items: seq<Item>, shadow: Inventory,
                           existing: map<Item, nat>, remaining: int, maxInputs: int, n: nat)
  {
    && Recipe.Chosen(stock, inputs, items) && |items| == |inputs|
    && (n > 0 ==> Possible(stock, inputs, items, shadow, existing, remaining, maxInputs, n))
    && forall m: nat :: m > n ==> !Possible(stock, inputs, items, shadow, existing, remaining, maxInputs, m)
  }

  /** The plans put n sets into the shadow, and into the machine as it will be. */
  ghost predicate TakenOn(inputs: seq<Recipe.Input>, items: seq<Item>, shadow: Inventory, actual: Inventory,
                          actual': Inventory, n: nat, plans: seq<seq<Insertion>>)
  {
    && |items| == |inputs| == |plans| && Buffered.Planned(shadow, Sets(Wants(inputs, items), n), plans)
    && actual' == Buffered.Apply(actual, Sets(Wants(inputs, items), n), plans)
    && forall i :: 0 <= i < |plans| ==> Inserted(plans[i]) == n * inputs[i].size
  }

  /** What a buffered process makes of a recipe: the largest possible number of sets with plans for them, and the machine as
      it will be; or some input matches nothing. */
  ghost predicate Decided(stock: Stock, inputs: seq<Recipe.Input>, items: seq<Item>, shadow: Inventory,
                          existing: map<Item, nat>, remaining: int, maxInputs: int, actual: Inventory, actual': Inventory,
                          n: nat, plans: seq<seq<Insertion>>)
  {
    && ((n == 0 && Unresolved(stock, inputs, items))
        || MostSets(stock, inputs, items, shadow, existing, remaining, maxInputs, n))
    && if n == 0 then actual' == actual && plans == []
       else Recipe.Supplied(stock, inputs, items, n) && TakenOn(inputs, items, shadow, actual, actual', n, plans)
  }

  /** Plans a recipe of which the storages supply at most nSets sets on the shadow. */
  method PlanResolved(run: Buffered.BufferedRun, ghost stock: Stock, inputs: seq<Recipe.Input>, items: seq<Item>,
                      nSets: nat, maxInputs: int)
    returns (n: nat, plans: seq<seq<Insertion>>)
    requires run.Valid() && Recipe.WellFormed(stock, inputs) && inputs != [] && NoJammer(stock)
    requires |items| == |inputs| && Recipe.Chosen(stock, inputs, items) && nSets > 0
    requires forall m: nat :: m > 0 ==> (m <= nSets <==> Recipe.Supplied(stock, inputs, items, m))
    modifies run, run.stacks
    ensures run.Valid() && |plans| == (if n == 0 then 0 else |inputs|)
    ensures MostSets(stock, inputs, items, old(run.stacks[..]), old(run.existingSize), old(run.remainingSize), maxInputs, n)
    ensures n == 0 ==> run.actual == old(run.actual) && run.remainingSize == old(run.remainingSize)
    ensures n > 0 ==> TakenOn(inputs, items, old(run.stacks[..]), old(run.actual), run.actual, n, plans)
  {
    var wants := Wants(inputs, items);
    assert AtMostStacks(Sets(wants, nSets)) && forall i :: 0 <= i < |wants| ==> wants[i].item != JAMMER && wants[i].amount > 0 by {
      SuppliedAtMost(stock, inputs, items, nSets);
      WantsOk(stock, inputs, items, nSets);
    }
    n, plans := run.TakeRecipe(wants, nSets, maxInputs);
    LargestPossible(stock, inputs, items, old(run.stacks[..]), old(run.existingSize), old(run.remainingSize), maxInputs,
                    nSets, n);
  }

  /** Resolves a recipe and plans it on the shadow. */
  method PlanBuffered(run: Buffered.BufferedRun, table: ItemTable, ghost stock: Stock, inputs: seq<Recipe.Input>,
                      maxInputs: int)
    returns (n: nat, items: seq<Item>, plans: seq<seq<Insertion>>)
    requires run.Valid() && table.Valid() && table.Shows(stock) && Recipe.WellFormed(stock, inputs)
    requires inputs != [] && NoJammer(stock)
    modifies run, run.stacks
    ensures run.Valid() && (n == 0 ==> run.remainingSize == old(run.remainingSize))
    ensures Decided(stock, inputs, items, old(run.stacks[..]), old(run.existingSize), old(run.remainingSize), maxInputs,
                    old(run.actual), run.actual, n, plans)
    ensures Unresolved(stock, inputs, items) ==> unchanged(run, run.stacks)
  {
    n, plans := 0, [];
    var r, found := Recipe.ResolveInputs(table, stock, inputs);
    items := found;
    if r.Some? {
      n, plans := PlanResolved(run, stock, inputs, items, r.value.nSets, maxInputs);
    } else {
      NothingSupplied(stock, inputs, items, run.stacks[..], run.existingSize, run.remainingSize, maxInputs);
    }
  }

  lemma NothingSupplied(stock: Stock, inputs: seq<Recipe.Input>, items: seq<Item>, shadow: Inventory,
                        existing: map<Item, nat>, remaining: int, maxInputs: int)
    requires Recipe.Chosen(stock, inputs, items)
    requires
      || (|items| < |inputs| && Matches(stock, inputs[|items|].filter) == {})
      || (|items| == |inputs| && forall m: nat :: m > 0 ==> !Recipe.Supplied(stock, inputs, items, m))
    ensures Unresolved(stock, inputs, items) || MostSets(stock, inputs, items, shadow, existing, remaining, maxInputs, 0)
  {}

  lemma SuppliedAtMost(stock: Stock, inputs: seq<Recipe.Input>, items: seq<Item>, nSets: nat)
    requires |items| == |inputs| && nSets > 0
    requires forall m: nat :: m > 0 ==> (m <= nSets <==> Recipe.Supplied(stock, inputs, items, m))
    ensures Recipe.Supplied(stock, inputs, items, nSets)
  {
    var supplied := Recipe.Supplied(stock, inputs, items, nSets);
  }

  lemma LargestPossible(stock: Stock, inputs: seq<Recipe.Input>, items: seq<Item>, shadow: Inventory,
                        existing: map<Item, nat>, remaining: int, maxInputs: int, nSets: nat, n: nat)
    requires |items| == |inputs| && Recipe.Chosen(stock, inputs, items) && n <= nSets
    requires forall m: nat :: m > 0 ==> (m <= nSets <==> Recipe.Supplied(stock, inputs, items, m))
    requires n > 0 ==> Buffered.Feasible(shadow, existing, remaining, Wants(inputs, items), maxInputs, n)
    requires forall m: nat :: n < m <= nSets ==>
      !Buffered.Feasible(shadow, existing, remaining, Wants(inputs, items), maxInputs, m)
    ensures MostSets(stock, inputs, items, shadow, existing, remaining, maxInputs, n)
  {
    if n > 0 {
      var supplied := Recipe.Supplied(stock, inputs, items, n);
    }
  }

  /** Reserves what has been planned, if anything; the plans and the machine stay as they are. */
  method CommitPlan(ghost run: Buffered.BufferedRun, table: ItemTable, ghost stock: Stock, ghost books: Books,
                    plans: seq<seq<Insertion>>, inputs: seq<Recipe.Input>, items: seq<Item>, n: nat)
    returns (uses: seq<BusSystem.Use>, reservations: seq<seq<Entry>>, ghost bookings: seq<Booking>)
    requires table.Valid() && table.Shows(stock) && table.Keeps(books) && run.Valid()
    requires n > 0 ==>
      && |plans| == |inputs| == |items| && Recipe.WellFormed(stock, inputs)
      && Recipe.Chosen(stock, inputs, items) && Recipe.Supplied(stock, inputs, items, n)
      && forall i :: 0 <= i < |inputs| ==> Inserted(plans[i]) == n * inputs[i].size
    modifies table.items.Values
    ensures run.Valid() && run.actual == old(run.actual) && |uses| == (if n == 0 then 0 else |inputs|)
    ensures table.Valid() && table.Shows(if n == 0 then stock else Recipe.Left(stock, inputs, items, n, |inputs|))
    ensures forall i :: 0 <= i < |uses| ==> BusSystem.Balanced(uses[i]) && uses[i].outs == Units(plans[i])
    ensures Booked(books, bookings) && table.Keeps(BooksAfter(books, bookings)) && (n == 0 ==> bookings == [])
    ensures n > 0 ==> Brings(uses, reservations, items) && Recipe.Records(bookings, items, reservations)
  {
    uses, reservations, bookings := [], [], [];
    if n > 0 {
      uses, reservations, bookings := CommitBuffered(table, stock, books, plans, inputs, items, n);
    }
  }

  /** A buffered process takes on a recipe: the largest possible number of sets, planned into the machine so that
      everything fits (PlanBuffered), and for each input one balanced use of the bus that follows the plan. When there is
      none, the books stay as they are. */
  method StartBuffered(run: Buffered.BufferedRun, table: ItemTable, ghost stock: Stock, ghost books: Books,
                       inputs: seq<Recipe.Input>, maxInputs: int)
    returns (n: nat, items: seq<Item>, plans: seq<seq<Insertion>>, uses: seq<BusSystem.Use>,
             reservations: seq<seq<Entry>>, ghost bookings: seq<Booking>)
    requires run.Valid() && table.Valid() && table.Shows(stock) && table.Keeps(books) && Recipe.WellFormed(stock, inputs)
    requires inputs != [] && NoJammer(stock)
    modifies run, run.stacks, table.items.Values
    ensures run.Valid() && |uses| == (if n == 0 then 0 else |inputs|)
    ensures Decided(stock, inputs, items, old(run.stacks[..]), old(run.existingSize), old(run.remainingSize), maxInputs,
                    old(run.actual), run.actual, n, plans)
    ensures table.Valid() && table.Shows(if n == 0 then stock else Recipe.Left(stock, inputs, items, n, |inputs|))
    ensures forall i :: 0 <= i < |uses| ==>
      BusSystem.Balanced(uses[i]) && uses[i].outs == Units(plans[i])
    ensures Booked(books, bookings) && table.Keeps(BooksAfter(books, bookings)) && (n == 0 ==> bookings == [])
    ensures n > 0 ==> Brings(uses, reservations, items) && Recipe.Records(bookings, items, reservations)
  {
    n, items, plans := PlanBuffered(run, table, stock, inputs, maxInputs);
    assert unchanged(table) && unchanged(table.items.Values);
    uses, reservations, bookings := CommitPlan(run, table, stock, books, plans, inputs, items, n);
  }

  /** How much of a stock item is refilled: what is missing, available and has room. */
  ghost function RefillOf(stored: Stored, input: Recipe.Input, item: Item, shadow: Inventory, actual: Inventory): int {
    Insertable(shadow, item, Max(0, Min(input.size - Count(actual, item), Recipe.Availability(stored, input))))
  }

  ghost function RefillAmount(stock: Stock, input: Recipe.Input, item: Option<Item>, shadow: Inventory, actual: Inventory): int
    requires item.Some? ==> item.value in stock
  {
    if item.None? then 0 else RefillOf(stock[item.value], input, item.value, shadow, actual)
  }

  /** A refill takes k more units exactly if so many are missing, the storages may spare them, and they have room: at most
      one stack, and unless a slot is empty at most what the stacks of the item still take. */
  lemma RefillExactly(stored: Stored, input: Recipe.Input, item: Item, shadow: Inventory, actual: Inventory, k: nat)
    requires k > 0
    ensures k <= RefillOf(stored, input, item, shadow, actual) <==>
      && k + Count(actual, item) <= input.size && k <= item.maxSize
      && (if input.allowBackup then k + input.extraBackup <= stored.nStored
          else k + input.extraBackup + stored.nBackup <= stored.nStored)
      && ((exists s :: 0 <= s < |shadow| && shadow[s].None?) || k <= StackRoom(shadow, item, 0))
  {
    var empty := FirstEmpty(shadow);
  }

  lemma RefillIsStored(stock: Stock, input: Recipe.Input, item: Item, shadow: Inventory, actual: Inventory)
    requires item in stock && Recipe.WellFormed(stock, [input]) && RefillAmount(stock, input, Some(item), shadow, actual) > 0
    ensures RefillAmount(stock, input, Some(item), shadow, actual) <= stock[item].nStored
    ensures RefillAmount(stock, input, Some(item), shadow, actual) <= item.maxSize
  {
    assert [input][0].extraBackup >= 0;
  }

  /** Looks a stock item up, and how much of it is available. */
  method FindRefill(table: ItemTable, ghost stock: Stock, input: Recipe.Input) returns (item: Option<Item>,
                    available: int)
    requires table.Valid() && table.Shows(stock) && NoJammer(stock)
    ensures IsBest(stock, Matches(stock, input.filter), item)
    ensures item.Some? ==>
      item.value in stock && item.value != JAMMER && available == Recipe.Availability(stock[item.value], input)
  {
    available := 0;
    item := table.SearchItem(input.filter, stock);
    if item.Some? {
      available := table.items[item.value].GetAvailability(input.allowBackup, input.extraBackup);
    }
  }

  /** Looks a stock item up and plans its refill on the shadow. */
  method PlanRefill(run: Buffered.BufferedRun, table: ItemTable, ghost stock: Stock, input: Recipe.Input)
    returns (item: Option<Item>, n: nat, plan: seq<Insertion>)
    requires run.Valid() && table.Valid() && table.Shows(stock) && Recipe.WellFormed(stock, [input]) && NoJammer(stock)
    modifies run, run.stacks
    ensures run.Valid() && IsBest(stock, Matches(stock, input.filter), item)
    ensures n == RefillAmount(stock, input, item, old(run.stacks[..]), old(run.actual)) && Inserted(plan) == n
    ensures n > 0 ==> item.Some? && item.value in stock && n <= stock[item.value].nStored && n <= item.value.maxSize
    ensures item.Some? ==>
      run.actual == AddAll(old(run.actual), item.value, plan) && GreedyPlan(old(run.stacks[..]), item.value, plan)
  {
    n, plan := 0, [];
    var available;
    item, available := FindRefill(table, stock, input);
    if item.Some? {
      n, plan := RefillFrom(run, stock[item.value], input, item.value, available);
      if n > 0 {
        RefillIsStored(stock, input, item.value, old(run.stacks[..]), old(run.actual));
      }
    }
  }

  method RefillFrom(run: Buffered.BufferedRun, ghost stored: Stored, input: Recipe.Input, item: Item, available: int)
    returns (n: nat, plan: seq<Insertion>)
    requires run.Valid() && item != JAMMER && available == Recipe.Availability(stored, input)
    modifies run, run.stacks
    ensures run.Valid() && Inserted(plan) == n && run.actual == AddAll(old(run.actual), item, plan)
    ensures GreedyPlan(old(run.stacks[..]), item, plan)
    ensures n == RefillOf(stored, input, item, old(run.stacks[..]), old(run.actual))
  {
    n, plan := run.Refill(item, input.size, available);
  }

  lemma RefillUse(entries: seq<Entry>, plan: seq<Insertion>, item: Item)
    requires TotalOf(entries) == Inserted(plan) <= item.maxSize
    ensures BusSystem.Balanced(BusSystem.Use(Fills(entries), Units(plan), item.maxSize))
    ensures Brings([BusSystem.Use(Fills(entries), Units(plan), item.maxSize)], [entries], [item])
  {
    FillsTotal(entries);
    UnitsTotal(plan);
  }

  lemma OneBooking(books: Books, booking: Booking)
    requires BookedOne(books, booking)
    ensures Booked(books, [booking]) && BooksAfter(books, [booking]) == books[booking.item := booking.left]
    ensures Recipe.Records([booking], [booking.item], [booking.taken])
  {
    BookedOneMore(books, [], booking);
    assert [] + [booking] == [booking];
  }

  method BookRefill(table: ItemTable, ghost stock: Stock, ghost books: Books, item: Item, plan: seq<Insertion>, n: nat)
    returns (use: BusSystem.Use, reservations: seq<seq<Entry>>, ghost bookings: seq<Booking>)
    requires table.Valid() && table.Shows(stock) && table.Keeps(books) && item in stock && n <= stock[item].nStored
    requires Inserted(plan) == n <= item.maxSize
    modifies table.items.Values
    ensures table.Valid() && table.Shows(Taken(stock, item, n))
    ensures BusSystem.Balanced(use) && use.outs == Units(plan)
    ensures Brings([use], reservations, [item]) && Recipe.Records(bookings, [item], reservations)
    ensures Booked(books, bookings) && table.Keeps(BooksAfter(books, bookings))
  {
    ghost var booking;
    var entries;
    entries, booking := Recipe.ReserveShown(table, stock, books, item, n);
    use, reservations, bookings := BusSystem.Use(Fills(entries), Units(plan), item.maxSize), [entries], [booking];
    RefillUse(entries, plan, item);
    OneBooking(books, booking);
  }

  /** Reserves what a refill needs, if anything. */
  method CommitRefill(ghost run: Buffered.BufferedRun, table: ItemTable, ghost stock: Stock, ghost books: Books,
                      item: Option<Item>, plan: seq<Insertion>, n: nat)
    returns (use: Option<BusSystem.Use>, reservations: seq<seq<Entry>>, ghost bookings: seq<Booking>)
    requires run.Valid() && table.Valid() && table.Shows(stock) && table.Keeps(books) && Inserted(plan) == n
    requires n > 0 ==> item.Some? && item.value in stock && n <= stock[item.value].nStored && n <= item.value.maxSize
    modifies table.items.Values
    ensures run.Valid() && run.actual == old(run.actual) && (use.Some? <==> n > 0)
    ensures table.Valid() && table.Shows(if n == 0 then stock else Taken(stock, item.value, n))
    ensures Booked(books, bookings) && table.Keeps(BooksAfter(books, bookings)) && (n == 0 ==> bookings == [])
    ensures use.Some? ==> BusSystem.Balanced(use.value) && use.value.outs == Units(plan)
    ensures use.Some? ==>
      Brings([use.value], reservations, [item.value]) && Recipe.Records(bookings, [item.value], reservations)
  {
    use, reservations, bookings := None, [], [];
    if n > 0 {
      var u;
      u, reservations, bookings := BookRefill(table, stock, books, item.value, plan, n);
      use := Some(u);
    }
  }

  /** A buffered process refills a stock item, with one balanced use of the bus that follows the plan. */
  method StartRefill(run: Buffered.BufferedRun, table: ItemTable, ghost stock: Stock, ghost books: Books,
                     input: Recipe.Input)
    returns (item: Option<Item>, n: nat, plan: seq<Insertion>, use: Option<BusSystem.Use>,
             reservations: seq<seq<Entry>>, ghost bookings: seq<Booking>)
    requires run.Valid() && table.Valid() && table.Shows(stock) && table.Keeps(books) && Recipe.WellFormed(stock, [input])
    requires NoJammer(stock)
    modifies run, run.stacks, table.items.Values
    ensures IsBest(stock, Matches(stock, input.filter), item) && (use.Some? <==> n > 0)
    ensures n == RefillAmount(stock, input, item, old(run.stacks[..]), old(run.actual)) && Inserted(plan) == n
    ensures run.Valid() && (n > 0 ==> item.Some?)
    ensures item.Some? ==>
      run.actual == AddAll(old(run.actual), item.value, plan) && GreedyPlan(old(run.stacks[..]), item.value, plan)
    ensures table.Valid() && table.Shows(if n == 0 then stock else Taken(stock, item.value, n))
    ensures Booked(books, bookings) && table.Keeps(BooksAfter(books, bookings)) && (n == 0 ==> bookings == [])
    ensures use.Some? ==> BusSystem.Balanced(use.value) && use.value.outs == Units(plan)
    ensures use.Some? ==>
      Brings([use.value], reservations, [item.value]) && Recipe.Records(bookings, [item.value], reservations)
  {
    item, n, plan := PlanRefill(run, table, stock, input);
    assert unchanged(table) && unchanged(table.items.Values);
    use, reservations, bookings := CommitRefill(run, table, stock, books, item, plan, n);
  }

  // ----- machines that get single items spread over their slots

  /** The transfers to slots below k, in the order of the slots. */
  function Drops(insertions: map<nat, nat>, k: nat): seq<nat> {
    if k == 0 then []
    else Drops(insertions, k - 1) + (if k - 1 in insertions then [insertions[k - 1]] else [])
  }

  lemma {:induction false} DropsTotal(insertions: map<nat, nat>, k: nat)
    ensures Sum(Drops(insertions, k)) == Scattering.InsertedBelow(insertions, k)
    decreases k
  {
    if k > 0 {
      DropsTotal(insertions, k - 1);
      if k - 1 in insertions {
        SumSnoc(Drops(insertions, k - 1), insertions[k - 1]);
      } else {
        assert Drops(insertions, k - 1) + [] == Drops(insertions, k - 1);
      }
    }
  }

  lemma ScatteredUse(reservations: seq<seq<Entry>>, insertions: map<nat, nat>, size: nat, n: nat, items: seq<Item>)
    requires |reservations| == |items| == 1
    requires TotalOf(reservations[0]) == n == Scattering.InsertedBelow(insertions, size) <= items[0].maxSize
    ensures BusSystem.Balanced(BusSystem.Use(Fills(reservations[0]), Drops(insertions, size), items[0].maxSize))
    ensures Brings([BusSystem.Use(Fills(reservations[0]), Drops(insertions, size), items[0].maxSize)], reservations, items)
  {
    FillsTotal(reservations[0]);
    DropsTotal(insertions, size);
  }

  lemma OneInput(stock: Stock, input: Recipe.Input, items: seq<Item>, n: nat, reservations: seq<seq<Entry>>)
    requires |items| == 1 && Recipe.Enough(stock, [input], items, n, 0) && input.size == 1
    requires |reservations| == 1 && Recipe.HandedOut(reservations, [input], n)
    ensures TotalOf(reservations[0]) == n <= items[0].maxSize
  {
    assert TotalOf(reservations[0]) == n * [input][0].size;
  }

  method BookScattered(table: ItemTable, ghost stock: Stock, ghost books: Books, input: Recipe.Input, items: seq<Item>,
                       insertions: map<nat, nat>, size: nat, n: nat)
    returns (use: BusSystem.Use, reservations: seq<seq<Entry>>, ghost bookings: seq<Booking>)
    requires table.Valid() && table.Shows(stock) && table.Keeps(books) && |items| == 1
    requires Recipe.Enough(stock, [input], items, n, 0)
    requires input.size == 1 && n == Scattering.InsertedBelow(insertions, size)
    modifies table.items.Values
    ensures table.Valid() && table.Shows(Recipe.Left(stock, [input], items, n, 1))
    ensures BusSystem.Balanced(use) && use.outs == Drops(insertions, size)
    ensures Brings([use], reservations, items) && Recipe.Records(bookings, items, reservations)
    ensures Booked(books, bookings) && table.Keeps(BooksAfter(books, bookings))
  {
    reservations, bookings := Recipe.ReserveAll(table, stock, books, [input], items, n);
    use := BusSystem.Use(Fills(reservations[0]), Drops(insertions, size), items[0].maxSize);
    OneInput(stock, input, items, n, reservations);
    ScatteredUse(reservations, insertions, size, n, items);
  }

  /** The input has an item, and n units of it are spread: as many as are supplied and have room. */
  ghost predicate MostSpread(stock: Stock, input: Recipe.Input, items: seq<Item>, before: Inventory, after: Inventory,
                             slots: set<nat>, maxPerSlot: int, insertions: map<nat, nat>, n: nat)
  {
    && |items| == 1 && Recipe.Chosen(stock, [input], items)
    && Scattering.Spread(before, after, slots, items[0], Min(maxPerSlot, items[0].maxSize), insertions, n)
    && forall m: nat :: m > 0 ==>
         (m <= n <==> && Recipe.Supplied(stock, [input], items, m)
                      && m <= Scattering.RoomBelow(before, slots, items[0], Min(maxPerSlot, items[0].maxSize), |before|))
  }

  /** Resolves a recipe and spreads what the storages supply, as far as there is room, evenly over the slots. */
  method PlanScattered(stacks: array<Option<Stack>>, inputSlots: seq<nat>, maxPerSlot: int, table: ItemTable,
                       ghost stock: Stock, ghost books: Books, input: Recipe.Input)
    returns (n: nat, items: seq<Item>, insertions: map<nat, nat>)
    requires forall s :: s in inputSlots ==> s < stacks.Length
    requires table.Valid() && table.Shows(stock) && table.Keeps(books) && input.size == 1
    modifies stacks
    ensures table.Valid() && table.Shows(stock) && table.Keeps(books)
    ensures
      || (n == 0 && Unresolved(stock, [input], items) && stacks[..] == old(stacks[..]))
      || MostSpread(stock, input, items, old(stacks[..]), stacks[..], SetOf(inputSlots), maxPerSlot, insertions, n)
    ensures n > 0 ==>
      && |items| == 1 && Recipe.Chosen(stock, [input], items) && Recipe.Supplied(stock, [input], items, n)
      && n == Scattering.InsertedBelow(insertions, stacks.Length)
  {
    var r, found := Recipe.ResolveInputs(table, stock, [input]);
    items := found;
    if r.None? {
      Scattering.SpreadNone(stacks[..], SetOf(inputSlots), if items == [] then JAMMER else items[0],
                            Min(maxPerSlot, if items == [] then 1 else items[0].maxSize));
      return 0, items, map[];
    }
    n, insertions := Scattering.Scatter(stacks, inputSlots, items[0], r.value.nSets, maxPerSlot);
    assert unchanged(table) && unchanged(table.items.Values);
    forall m: nat | m > 0
      ensures m <= r.value.nSets <==> Recipe.Supplied(stock, [input], items, m)
    {}
    if n > 0 {
      SpreadIsSupplied(stock, input, items, old(stacks[..]), stacks[..], SetOf(inputSlots), maxPerSlot, insertions, n);
    }
  }

  lemma SpreadIsSupplied(stock: Stock, input: Recipe.Input, items: seq<Item>, before: Inventory, after: Inventory,
                         slots: set<nat>, maxPerSlot: int, insertions: map<nat, nat>, n: nat)
    requires n > 0 && MostSpread(stock, input, items, before, after, slots, maxPerSlot, insertions, n)
    ensures Recipe.Supplied(stock, [input], items, n) && n == Scattering.InsertedBelow(insertions, |before|)
  {
    var supplied := Recipe.Supplied(stock, [input], items, n);
  }

  /** Reserves what is spread, if anything. */
  method CommitScattered(table: ItemTable, ghost stock: Stock, ghost books: Books, input: Recipe.Input, items: seq<Item>,
                         insertions: map<nat, nat>, size: nat, n: nat)
    returns (use: Option<BusSystem.Use>, reservations: seq<seq<Entry>>, ghost bookings: seq<Booking>)
    requires table.Valid() && table.Shows(stock) && table.Keeps(books) && Recipe.WellFormed(stock, [input]) && input.size == 1
    requires n > 0 ==>
      && |items| == 1 && Recipe.Chosen(stock, [input], items) && Recipe.Supplied(stock, [input], items, n)
      && n == Scattering.InsertedBelow(insertions, size)
    modifies table.items.Values
    ensures table.Valid() && table.Shows(if n == 0 then stock else Recipe.Left(stock, [input], items, n, 1))
    ensures Booked(books, bookings) && table.Keeps(BooksAfter(books, bookings)) && (n == 0 ==> bookings == [])
    ensures use.Some? <==> n > 0
    ensures use.Some? ==> BusSystem.Balanced(use.value) && use.value.outs == Drops(insertions, size)
    ensures use.Some? ==> Brings([use.value], reservations, items) && Recipe.Records(bookings, items, reservations)
  {
    use, reservations, bookings := None, [], [];
    if n > 0 {
      Recipe.AlwaysEnough(stock, [input], items, n);
      var u;
      u, reservations, bookings := BookScattered(table, stock, books, input, items, insertions, size, n);
      use := Some(u);
    }
  }

  /** A scattering process takes on a recipe: the units of PlanScattered are brought by one balanced use of the bus. */
  method StartScattered(stacks: array<Option<Stack>>, inputSlots: seq<nat>, maxPerSlot: int, table: ItemTable,
                        ghost stock: Stock, ghost books: Books, input: Recipe.Input)
    returns (n: nat, items: seq<Item>, insertions: map<nat, nat>, use: Option<BusSystem.Use>,
             reservations: seq<seq<Entry>>, ghost bookings: seq<Booking>)
    requires forall s :: s in inputSlots ==> s < stacks.Length
    requires table.Valid() && table.Shows(stock) && table.Keeps(books) && Recipe.WellFormed(stock, [input]) && input.size == 1
    modifies stacks, table.items.Values
    ensures
      || (n == 0 && Unresolved(stock, [input], items))
      || MostSpread(stock, input, items, old(stacks[..]), stacks[..], SetOf(inputSlots), maxPerSlot, insertions, n)
    ensures table.Valid() && table.Shows(if n == 0 then stock else Recipe.Left(stock, [input], items, n, 1))
    ensures use.Some? <==> n > 0
    ensures use.Some? ==> BusSystem.Balanced(use.value) && use.value.outs == Drops(insertions, stacks.Length)
    ensures Booked(books, bookings) && table.Keeps(BooksAfter(books, bookings)) && (n == 0 ==> bookings == [])
    ensures use.Some? ==> Brings([use.value], reservations, items) && Recipe.Records(bookings, items, reservations)
  {
    n, items, insertions := PlanScattered(stacks, inputSlots, maxPerSlot, table, stock, books, input);
    use, reservations, bookings := CommitScattered(table, stock, books, input, items, insertions, stacks.Length, n);
  }
}
