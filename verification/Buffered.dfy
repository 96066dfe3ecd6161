/** The planning part of a buffered process (server/RustImpl/src/process/buffered.rs): a shadow of the
    machine's inventory, stock refills, and recipes tried with fewer and fewer sets. */
module Buffered {
  import opened Common
  import opened Items
  import opened Placement

  const JAMMED: Option<Stack> := Some(Stack(JAMMER, 1))

  function Plans(inv: Inventory, wants: seq<Want>): (plans: seq<seq<Insertion>>)
    ensures |plans| == |wants|
    decreases |wants|
  {
    if wants == [] then []
    else
      var r := Insert(inv, wants[0].item, wants[0].amount);
      [r.insertions] + Plans(r.inv, wants[1..])
  }

  /** These are the plans that fit everything into the shadow. */
  predicate Planned(shadow: Inventory, wants: seq<Want>, plans: seq<seq<Insertion>>) {
    InsertAll(shadow, wants).Some? && plans == Plans(shadow, wants)
  }

  /** What the plans, made for some inventory, do to another one of the same size. */
  function Apply(inv: Inventory, wants: seq<Want>, plans: seq<seq<Insertion>>): (r: Inventory)
    requires |wants| == |plans|
    ensures |r| == |inv|
    decreases |wants|
  {
    if wants == [] then inv else Apply(AddAll(inv, wants[0].item, plans[0]), wants[1..], plans[1..])
  }

  // ----- plans made on the shadow fit the real inventory

  lemma {:induction false} PlanFitsBelow(actual: Inventory, shadow: Inventory, item: Item, plan: seq<Insertion>)
    requires Extends(actual, shadow) && GreedyPlan(shadow, item, plan)
    ensures Extends(actual, AddAll(actual, item, plan))
    ensures Extends(AddAll(actual, item, plan), AddAll(shadow, item, plan))
    ensures forall x :: Count(AddAll(actual, item, plan), x) == Count(actual, x) + (if x == item then Inserted(plan) else 0)
    decreases |plan|
  {
    if plan != [] {
      var ins := plan[0];
      var actual1, shadow1 := Add(actual, item, ins), Add(shadow, item, ins);
      assert Grows(actual[ins.slot], shadow[ins.slot]);
      forall s | 0 <= s < |actual| ensures Grows(actual[s], actual1[s]) && Grows(actual1[s], shadow1[s]) {
        assert Grows(actual[s], shadow[s]);
      }
      PlanFitsBelow(actual1, shadow1, item, plan[1..]);
      ExtendsTransitive(actual, actual1, AddAll(actual, item, plan));
      forall x ensures Count(actual1, x) == Count(actual, x) + (if x == item then ins.amount else 0) {
        AddCounts(actual, item, ins, x);
      }
    }
  }

  /** A plan leaves alone the slots that hold something else. */
  lemma {:induction false} PlanAvoids(shadow: Inventory, item: Item, plan: seq<Insertion>, slot: nat)
    requires GreedyPlan(shadow, item, plan) && slot < |shadow|
    requires shadow[slot].Some? && shadow[slot].value.item != item
    ensures AddAll(shadow, item, plan)[slot] == shadow[slot]
    ensures forall i :: 0 <= i < |plan| ==> plan[i].slot != slot
    decreases |plan|
  {
    if plan != [] {
      PlanAvoids(Add(shadow, item, plan[0]), item, plan[1..], slot);
      forall i | 0 <= i < |plan| ensures plan[i].slot != slot {
        assert i == 0 || plan[i] == plan[1..][i - 1];
      }
    }
  }

  /** Plans for a whole list of wants, made on the shadow, carried out for real. */
  lemma {:induction false} PlansFitBelow(actual: Inventory, shadow: Inventory, wants: seq<Want>)
    requires Extends(actual, shadow) && InsertAll(shadow, wants).Some?
    ensures var actual' := Apply(actual, wants, Plans(shadow, wants));
      && Extends(actual, actual') && Extends(actual', InsertAll(shadow, wants).value)
      && forall x :: Count(actual', x) == Count(actual, x) + Total(wants, x)
    decreases |wants|
  {
    if wants != [] {
      var item, r := wants[0].item, Insert(shadow, wants[0].item, wants[0].amount);
      InsertIsGreedy(shadow, item, wants[0].amount);
      PlanFitsBelow(actual, shadow, item, r.insertions);
      var actual1 := AddAll(actual, item, r.insertions);
      PlansFitBelow(actual1, r.inv, wants[1..]);
      ExtendsTransitive(actual, actual1, Apply(actual1, wants[1..], Plans(r.inv, wants[1..])));
    }
  }

  lemma {:induction false} PlansAvoid(shadow: Inventory, wants: seq<Want>, slot: nat)
    requires slot < |shadow| && shadow[slot] == JAMMED && InsertAll(shadow, wants).Some?
    requires forall i :: 0 <= i < |wants| ==> wants[i].item != JAMMER
    ensures InsertAll(shadow, wants).value[slot] == JAMMED
    ensures forall i, j :: 0 <= i < |wants| && 0 <= j < |Plans(shadow, wants)[i]| ==>
              Plans(shadow, wants)[i][j].slot != slot
    decreases |wants|
  {
    if wants != [] {
      var item, r := wants[0].item, Insert(shadow, wants[0].item, wants[0].amount);
      InsertIsGreedy(shadow, item, wants[0].amount);
      PlanAvoids(shadow, item, r.insertions, slot);
      PlansAvoid(r.inv, wants[1..], slot);
    }
  }

  // ----- the retry loop

  /** The inventory after a try that stops at the first want that does not fit completely. */
  function Attempt(inv: Inventory, wants: seq<Want>): (r: Inventory)
    ensures |r| == |inv|
    decreases |wants|
  {
    if wants == [] then inv
    else
      var r := Insert(inv, wants[0].item, wants[0].amount);
      if Inserted(r.insertions) != wants[0].amount then r.inv else Attempt(r.inv, wants[1..])
  }

  /** Inserts the inputs of some sets in turn; stops at the first that does not fit completely. */
  method TryAll(stacks: array<Option<Stack>>, wants: seq<Want>)
    returns (ok: bool, plans: seq<seq<Insertion>>)
    modifies stacks
    ensures ok <==> InsertAll(old(stacks[..]), wants).Some?
    ensures ok ==> stacks[..] == InsertAll(old(stacks[..]), wants).value && plans == Plans(old(stacks[..]), wants)
    ensures stacks[..] == Attempt(old(stacks[..]), wants) && Extends(old(stacks[..]), stacks[..])
  {
    plans := [];
    ghost var inv := stacks[..];
    for i := 0 to |wants|
      invariant |stacks[..]| == |inv| && Extends(inv, stacks[..])
      invariant Attempt(inv, wants) == Attempt(stacks[..], wants[i..])
      invariant InsertAll(inv, wants) == InsertAll(stacks[..], wants[i..])
      invariant Plans(inv, wants) == plans + Plans(stacks[..], wants[i..])
    {
      ghost var before := stacks[..];
      var item, amount := wants[i].item, wants[i].amount;
      InsertIsGreedy(before, item, amount);
      PlanCounts(before, item, Insert(before, item, amount).insertions, item);
      assert wants[i..][0] == wants[i] && wants[i..][1..] == wants[i + 1..];
      var n, plan := InsertIntoInventory(stacks, item, amount);
      ExtendsTransitive(inv, before, stacks[..]);
      if n != amount {
        return false, [];
      }
      assert plans + ([plan] + Plans(stacks[..], wants[i + 1..])) == (plans + [plan]) + Plans(stacks[..], wants[i + 1..]);
      plans := plans + [plan];
    }
    ok := true;
    assert plans + [] == plans;
  }

  /** Starting from n0 sets, takes one set off until the inputs fit. The result is the largest number of
      sets for which any placement exists; when there is none, the shadow keeps the last try, with one set. */
  method PlanSets(stacks: array<Option<Stack>>, inputs: seq<Want>, n0: nat)
    returns (n: nat, plans: seq<seq<Insertion>>)
    requires n0 > 0 && AtMostStacks(Sets(inputs, n0))
    modifies stacks
    ensures n <= n0
    ensures forall m :: n < m <= n0 ==> !Placeable(old(stacks[..]), Sets(inputs, m))
    ensures n > 0 ==>
      && Placeable(old(stacks[..]), Sets(inputs, n))
      && InsertAll(old(stacks[..]), Sets(inputs, n)) == Some(stacks[..])
      && plans == Plans(old(stacks[..]), Sets(inputs, n))
    ensures n == 0 ==> stacks[..] == Attempt(old(stacks[..]), Sets(inputs, 1))
    ensures n == 0 ==> InsertAll(old(stacks[..]), Sets(inputs, 1)).None?
    ensures Extends(old(stacks[..]), stacks[..])
  {
    ghost var inv := stacks[..];
    var backup := new Option<Stack>[stacks.Length](i requires 0 <= i < stacks.Length reads stacks => stacks[i]);
    assert backup[..] == inv;
    n := n0;
    var ok := false;
    plans := [];
    while !ok && n > 0
      invariant n <= n0 && backup[..] == inv
      invariant forall m :: n < m <= n0 ==> !Placeable(inv, Sets(inputs, m))
      invariant !ok && n > 0 ==> stacks[..] == inv
      invariant ok ==> n > 0 && InsertAll(inv, Sets(inputs, n)) == Some(stacks[..])
      invariant ok ==> Placeable(inv, Sets(inputs, n)) && plans == Plans(inv, Sets(inputs, n))
      invariant n == 0 ==> stacks[..] == Attempt(inv, Sets(inputs, 1)) && InsertAll(inv, Sets(inputs, 1)).None?
      invariant Extends(inv, stacks[..])
      decreases n, !ok
    {
      FewerAreStacks(inputs, n, n0);
      GreedyIsComplete(inv, Sets(inputs, n));
      ok, plans := TryAll(stacks, Sets(inputs, n));
      if !ok {
        n := n - 1;
        if n > 0 {
          forall i | 0 <= i < stacks.Length {
            stacks[i] := backup[i];
          }
          assert stacks[..] == inv;
        }
      }
    }
  }

  // ----- what a rejected recipe leaves behind

  lemma {:induction false} ExtendsCounts(a: Inventory, b: Inventory, x: Item)
    requires Extends(a, b)
    ensures Count(a, x) <= Count(b, x)
    decreases |a|
  {
    if a != [] {
      assert Grows(a[0], b[0]);
      forall s | 0 <= s < |a[1..]| ensures Grows(a[1..][s], b[1..][s]) {
        assert Grows(a[s + 1], b[s + 1]);
      }
      ExtendsCounts(a[1..], b[1..], x);
    }
  }

  lemma {:induction false} AttemptExtends(inv: Inventory, wants: seq<Want>)
    ensures Extends(inv, Attempt(inv, wants))
    decreases |wants|
  {
    if wants != [] {
      var r := Insert(inv, wants[0].item, wants[0].amount);
      InsertIsGreedy(inv, wants[0].item, wants[0].amount);
      PlanCounts(inv, wants[0].item, r.insertions, wants[0].item);
      if Inserted(r.insertions) == wants[0].amount {
        AttemptExtends(r.inv, wants[1..]);
        ExtendsTransitive(inv, r.inv, Attempt(inv, wants));
      }
    }
  }

  /** A failed try leaves the inventory as it was exactly if nothing of the first want could be put in. */
  lemma TraceExactlyWhen(inv: Inventory, wants: seq<Want>)
    requires wants != [] && wants[0].amount > 0 && InsertAll(inv, wants).None?
    ensures Attempt(inv, wants) == inv <==> Insert(inv, wants[0].item, wants[0].amount).insertions == []
  {
    var item, r := wants[0].item, Insert(inv, wants[0].item, wants[0].amount);
    InsertIsGreedy(inv, item, wants[0].amount);
    PlanCounts(inv, item, r.insertions, item);
    if r.insertions != [] {
      assert Inserted(r.insertions) > 0;
      if Inserted(r.insertions) == wants[0].amount {
        AttemptExtends(r.inv, wants[1..]);
      }
      ExtendsCounts(r.inv, Attempt(inv, wants), item);
    }
  }

  /** A recipe of one a and one b does not fit into one empty slot. Its a stays behind in the plan, and one b alone, which
      would have fitted, no longer does. */
  lemma RejectedRecipeLeavesTrace(a: Item, b: Item)
    requires a != b && a.maxSize > 0 && b.maxSize > 0
    ensures var inv, after := [None], Attempt([None], Sets([Want(a, 1), Want(b, 1)], 1));
      && InsertAll(inv, Sets([Want(a, 1), Want(b, 1)], 1)).None? && after != inv
      && Placeable(inv, [Want(b, 1)]) && !Placeable(after, [Want(b, 1)])
  {
    var inv, wants := [None], Sets([Want(a, 1), Want(b, 1)], 1);
    assert wants == [Want(a, 1), Want(b, 1)] && wants[1..] == [Want(b, 1)];
    OneSlot(inv, a);
    OneSlot(inv, b);
    var after := [Some(Stack(a, 1))];
    assert Insert(inv, a, 1).inv == after;
    FullSlot(a, b);
    assert Attempt(after, [Want(b, 1)]) == after;
    GreedyIsComplete(inv, [Want(b, 1)]);
    GreedyIsComplete(after, [Want(b, 1)]);
    assert [Want(b, 1)][1..] == [];
  }

  lemma OneSlot(inv: Inventory, x: Item)
    requires inv == [None] && x.maxSize > 0
    ensures Insert(inv, x, 1) == Placement.Filled([Some(Stack(x, 1))], [Insertion(0, 1)], 0)
    ensures Inserted([Insertion(0, 1)]) == 1
  {
    assert TopUp(inv, x, 1, 0) == TopUp(inv, x, 1, 1) == Placement.Filled(inv, [], 1);
    assert FirstEmpty(inv) == Some(0);
    assert [Insertion(0, 1)][1..] == [];
  }

  lemma FullSlot(a: Item, b: Item)
    requires a != b && b.maxSize > 0
    ensures Insert([Some(Stack(a, 1))], b, 1) == Placement.Filled([Some(Stack(a, 1))], [], 1)
  {
    var inv := [Some(Stack(a, 1))];
    assert TopUp(inv, b, 1, 0) == TopUp(inv, b, 1, 1) == Placement.Filled(inv, [], 1);
    assert FirstEmpty(inv).None?;
  }

  /** What fits into a fuller inventory fits into an emptier one: traces only ever cost sets. */
  lemma TracesOnlyCost(clean: Inventory, shadow: Inventory, wants: seq<Want>)
    requires Extends(clean, shadow) && AtMostStacks(wants) && Placeable(shadow, wants)
    ensures Placeable(clean, wants)
  {
    GreedyIsComplete(shadow, wants);
    PlansFitBelow(clean, shadow, wants);
    assert Serves(clean, wants, Apply(clean, wants, Plans(shadow, wants)));
  }

  lemma {:induction false} ApplyPlans(inv: Inventory, wants: seq<Want>)
    requires InsertAll(inv, wants).Some?
    ensures Apply(inv, wants, Plans(inv, wants)) == InsertAll(inv, wants).value
    decreases |wants|
  {
    if wants != [] {
      InsertIsGreedy(inv, wants[0].item, wants[0].amount);
      ApplyPlans(Insert(inv, wants[0].item, wants[0].amount).inv, wants[1..]);
    }
  }

  lemma FewerAreStacks(inputs: seq<Want>, m: nat, n: nat)
    requires m <= n && AtMostStacks(Sets(inputs, n))
    ensures AtMostStacks(Sets(inputs, m))
  {
    forall i | 0 <= i < |inputs| ensures m * inputs[i].amount <= inputs[i].item.maxSize {
      assert Sets(inputs, n)[i].amount <= inputs[i].item.maxSize;
      MulMono(m, n, inputs[i].amount);
    }
  }

  // ----- one run of the process

  function Amounts(inputs: seq<Want>): nat {
    if inputs == [] then 0 else inputs[0].amount + Amounts(inputs[1..])
  }

  function Lookup(m: map<Item, nat>, item: Item): nat { if item in m then m[item] else 0 }

  /** How much of the inputs' items is there already, item by item as the inputs name them. */
  function ExistingTotal(m: map<Item, nat>, inputs: seq<Want>): nat {
    if inputs == [] then 0 else Lookup(m, inputs[0].item) + ExistingTotal(m, inputs[1..])
  }

  datatype Config = Config(
    toExtract: Option<(nat, Stack) -> bool>,
    slotFilter: Option<nat -> bool>,
    stocks: seq<Filter>)
  {
    /** Slots to be emptied by this run, and slots outside the filter. */
    predicate Jams(slot: nat, s: Option<Stack>) {
      || (toExtract.Some? && s.Some? && toExtract.value(slot, s.value))
      || (slotFilter.Some? && !slotFilter.value(slot))
    }

    predicate IsStock(item: Item) {
      exists i :: 0 <= i < |stocks| && stocks[i].Apply(item)
    }

    /** The part of a listing that plans may count on: jammed slots look empty and stay as they are. */
    function Visible(listing: Inventory): (r: Inventory)
      ensures |r| == |listing|
      ensures forall s :: 0 <= s < |r| ==> r[s] == if Jams(s, listing[s]) then None else listing[s]
    {
      seq(|listing|, s requires 0 <= s < |listing| => if Jams(s, listing[s]) then None else listing[s])
    }

    function Shadow(slot: nat, s: Option<Stack>): Option<Stack> {
      if Jams(slot, s) then JAMMED else s
    }

    /** The size of all visible stacks that are not stock. */
    function RecipeSize(inv: Inventory): nat {
      if inv == [] then 0
      else
        var last := inv[|inv| - 1];
        RecipeSize(inv[..|inv| - 1]) + (if last.Some? && !IsStock(last.value.item) then last.value.size else 0)
    }
  }

  /** The first pass over a listing: jams slots, and adds up what is there. */
  method Scan(config: Config, list: Inventory, maxRecipeInputs: int)
    returns (shadow: array<Option<Stack>>, existing: map<Item, nat>, remaining: int)
    ensures fresh(shadow) && shadow.Length == |list|
    ensures forall s :: 0 <= s < |list| ==> shadow[s] == config.Shadow(s, list[s])
    ensures forall x :: Lookup(existing, x) == Count(config.Visible(list), x)
    ensures remaining == maxRecipeInputs - config.RecipeSize(config.Visible(list))
  {
    shadow := new Option<Stack>[|list|](i requires 0 <= i < |list| => list[i]);
    existing := map[];
    remaining := maxRecipeInputs;
    ghost var visible := config.Visible(list);
    for slot := 0 to |list|
      invariant forall s :: 0 <= s < slot ==> shadow[s] == config.Shadow(s, list[s])
      invariant forall s :: slot <= s < |list| ==> shadow[s] == list[s]
      invariant forall x :: Lookup(existing, x) == Count(visible[..slot], x)
      invariant remaining == maxRecipeInputs - config.RecipeSize(visible[..slot])
    {
      VisibleNext(config, visible, slot, slot + 1);
      if config.Jams(slot, list[slot]) {
        shadow[slot] := JAMMED;
      } else if list[slot].Some? {
        var stack := list[slot].value;
        existing := existing[stack.item := Lookup(existing, stack.item) + stack.size];
        if !config.IsStock(stack.item) {
          remaining := remaining - stack.size;
        }
      }
    }
    assert visible[..|list|] == visible;
  }

  lemma VisibleNext(config: Config, visible: Inventory, slot: nat, next: nat)
    requires slot < |visible| && next == slot + 1
    ensures forall x :: Count(visible[..next], x) == Count(visible[..slot], x) + CountStack(visible[slot], x)
    ensures config.RecipeSize(visible[..next]) == config.RecipeSize(visible[..slot])
      + (if visible[slot].Some? && !config.IsStock(visible[slot].value.item) then visible[slot].value.size else 0)
  {
    assert visible[..next] == visible[..slot] + [visible[slot]];
    assert visible[..next][..slot] == visible[..slot];
    forall x ensures Count(visible[..next], x) == Count(visible[..slot], x) + CountStack(visible[slot], x) {
      CountSnoc(visible[..slot], visible[slot], x);
    }
  }

  class BufferedRun {
    const stacks: array<Option<Stack>>
    var existingSize: map<Item, nat>
    var remainingSize: int
    ghost var actual: Inventory
    ghost var clean: Inventory
    ghost const listing: Inventory
    ghost const jammed: set<nat>

    /** The shadow dominates the listing plus all accepted insertions, slot by slot and kind by kind;
        jammed slots are untouched; existing sizes are exact. `clean` is what the shadow would be without the
        traces of rejected recipes. */
    ghost predicate Valid()
      reads this, stacks
    {
      && Extends(listing, actual) && Extends(actual, stacks[..]) && Extends(clean, stacks[..])
      && (forall s :: s in jammed ==> s < stacks.Length && stacks[s] == JAMMED)
      && forall x :: Lookup(existingSize, x) == Count(actual, x)
    }

    /** No rejected recipe has left a trace. */
    ghost predicate Spotless()
      reads this, stacks
    {
      stacks[..] == clean
    }

    constructor (config: Config, list: Inventory, maxRecipeInputs: int)
      ensures Valid() && Spotless() && fresh(stacks)
      ensures listing == actual == config.Visible(list)
      ensures jammed == set s | 0 <= s < |list| && config.Jams(s, list[s])
      ensures forall s :: 0 <= s < |list| ==>
        (s in jammed <==> || (config.slotFilter.Some? && !config.slotFilter.value(s))
                          || (config.toExtract.Some? && list[s].Some? && config.toExtract.value(s, list[s].value)))
      ensures remainingSize == maxRecipeInputs - config.RecipeSize(config.Visible(list))
    {
      var shadow, existing, remaining := Scan(config, list, maxRecipeInputs);
      stacks := shadow;
      existingSize := existing;
      remainingSize := remaining;
      actual := config.Visible(list);
      clean := shadow[..];
      listing := config.Visible(list);
      jammed := set s | 0 <= s < |list| && config.Jams(s, list[s]);
      new;
      forall s | 0 <= s < |list| ensures Grows(actual[s], stacks[s]) {
        assert stacks[s] == config.Shadow(s, list[s]);
      }
    }

    /** Refills a stock item: what is missing and available, at most a stack, and as much of it as there is room for. */
    method Refill(item: Item, size: int, availability: int) returns (nInserted: nat, plan: seq<Insertion>)
      requires Valid() && item != JAMMER
      modifies this, stacks
      ensures Valid() && remainingSize == old(remainingSize) && (old(Spotless()) ==> Spotless())
      ensures nInserted == Inserted(plan)
      ensures nInserted == Insertable(old(stacks[..]), item, Max(0, Min(size - Count(old(actual), item), availability)))
      ensures actual == AddAll(old(actual), item, plan) && GreedyPlan(old(stacks[..]), item, plan)
      ensures nInserted > 0 ==> Count(actual, item) <= size
      ensures forall i :: 0 <= i < |plan| ==> plan[i].slot !in jammed
    {
      var existing := Lookup(existingSize, item);
      var toInsert := Min(size - existing, availability);
      if toInsert <= 0 {
        return 0, [];
      }
      ghost var shadow := stacks[..];
      ghost var r := Insert(shadow, item, toInsert);
      InsertIsGreedy(shadow, item, toInsert);
      InsertAmount(shadow, item, toInsert);
      PlanFitsBelow(actual, shadow, item, r.insertions);
      PlanFitsBelow(clean, shadow, item, r.insertions);
      PlanAvoidsAll(shadow, item, r.insertions, jammed);
      nInserted, plan := InsertIntoInventory(stacks, item, toInsert);
      ExtendsTransitive(listing, actual, AddAll(actual, item, plan));
      actual := AddAll(actual, item, plan);
      clean := AddAll(clean, item, plan);
      existingSize := existingSize[item := existing + nInserted];
    }

    /** One recipe: of the sets that the storages can supply, as many as the quotas and the machine allow. A recipe for
        which both quotas allow a set, but which does not fit, leaves a trace exactly if some of its first input fits. */
    method TakeRecipe(inputs: seq<Want>, nSets: nat, maxInputs: int) returns (n: nat, plans: seq<seq<Insertion>>)
      requires Valid() && nSets > 0 && AtMostStacks(Sets(inputs, nSets))
      requires inputs != [] && forall i :: 0 <= i < |inputs| ==> inputs[i].item != JAMMER && inputs[i].amount > 0
      modifies this, stacks
      ensures Valid() && n <= nSets && |plans| == (if n == 0 then 0 else |inputs|)
      ensures n > 0 ==> Feasible(old(stacks[..]), old(existingSize), old(remainingSize), inputs, maxInputs, n)
      ensures forall m :: n < m <= nSets ==>
        !Feasible(old(stacks[..]), old(existingSize), old(remainingSize), inputs, maxInputs, m)
      ensures remainingSize == if n == 0 then old(remainingSize) else old(remainingSize) - n * Amounts(inputs)
      ensures n > 0 ==> Planned(old(stacks[..]), Sets(inputs, n), plans)
      ensures actual == if n == 0 then old(actual) else Apply(old(actual), Sets(inputs, n), plans)
      ensures forall x :: Count(actual, x) == Count(old(actual), x) + Total(Sets(inputs, n), x)
      ensures forall i :: 0 <= i < |plans| ==> Inserted(plans[i]) == n * inputs[i].amount
      ensures forall i, j :: 0 <= i < |plans| && 0 <= j < |plans[i]| ==> plans[i][j].slot !in jammed
      ensures clean == if n == 0 then old(clean) else Apply(old(clean), Sets(inputs, n), plans)
      ensures n > 0 && old(Spotless()) ==> Spotless()
      ensures n == 0 && !WithinQuotas(old(existingSize), old(remainingSize), inputs, maxInputs, 1) ==>
        stacks[..] == old(stacks[..])
      ensures n == 0 && WithinQuotas(old(existingSize), old(remainingSize), inputs, maxInputs, 1) ==>
        (stacks[..] == old(stacks[..]) <==> Insert(old(stacks[..]), inputs[0].item, inputs[0].amount).insertions == [])
    {
      var perSet := Amounts(inputs);
      var existing := ExistingTotal(existingSize, inputs);
      var bound := Min(nSets, TruncDiv(remainingSize, perSet));
      bound := Min(bound, TruncDiv(maxInputs - existing, perSet));
      ghost var shadow := stacks[..];
      forall m | 0 < m <= nSets
        ensures m <= bound <==> WithinQuotas(existingSize, remainingSize, inputs, maxInputs, m)
      {
        TruncDivFits(remainingSize, perSet, m);
        TruncDivFits(maxInputs - existing, perSet, m);
      }
      NoSets(inputs);
      if bound <= 0 {
        return 0, [];
      }
      FewerAreStacks(inputs, bound, nSets);
      n, plans := PlanSets(stacks, inputs, bound);
      if n == 0 {
        TraceExactlyWhen(shadow, Sets(inputs, 1));
        KeepTrace(shadow);
        return 0, [];
      }
      AcceptPlans(Sets(inputs, n), plans, shadow);
      remainingSize := remainingSize - n * perSet;
    }

    /** A trace on the shadow hurts nothing that has been accepted. */
    lemma KeepTrace(shadow: Inventory)
      requires Extends(listing, actual) && Extends(actual, shadow) && Extends(clean, shadow)
      requires Extends(shadow, stacks[..]) && forall s :: s in jammed ==> s < |shadow| && shadow[s] == JAMMED
      requires forall x :: Lookup(existingSize, x) == Count(actual, x)
      ensures Valid()
    {
      ExtendsTransitive(actual, shadow, stacks[..]);
      ExtendsTransitive(clean, shadow, stacks[..]);
      forall s | s in jammed ensures stacks[s] == JAMMED {
        assert Grows(shadow[s], stacks[s]);
      }
    }

    /** Accounts for plans that have been made on the shadow. */
    method AcceptPlans(wants: seq<Want>, plans: seq<seq<Insertion>>, ghost shadow: Inventory)
      requires Extends(listing, actual) && Extends(actual, shadow) && Extends(clean, shadow) && |shadow| == stacks.Length
      requires forall s :: s in jammed ==> s < |shadow| && shadow[s] == JAMMED
      requires forall x :: Lookup(existingSize, x) == Count(actual, x)
      requires InsertAll(shadow, wants) == Some(stacks[..]) && plans == Plans(shadow, wants)
      requires forall i :: 0 <= i < |wants| ==> wants[i].item != JAMMER
      modifies this`existingSize, this`actual, this`clean
      ensures Valid() && actual == Apply(old(actual), wants, plans) && clean == Apply(old(clean), wants, plans)
      ensures old(clean) == shadow ==> Spotless()
      ensures forall x :: Count(actual, x) == Count(old(actual), x) + Total(wants, x)
      ensures forall i :: 0 <= i < |plans| ==> Inserted(plans[i]) == wants[i].amount
      ensures forall i, j :: 0 <= i < |plans| && 0 <= j < |plans[i]| ==> plans[i][j].slot !in jammed
    {
      PlansFitBelow(actual, shadow, wants);
      PlansFitBelow(clean, shadow, wants);
      ApplyPlans(shadow, wants);
      ExtendsTransitive(listing, actual, Apply(actual, wants, plans));
      AllAvoid(shadow, wants, jammed);
      PlanSizes(shadow, wants);
      CountIn(wants);
      actual := Apply(actual, wants, plans);
      clean := Apply(clean, wants, plans);
    }

    method CountIn(wants: seq<Want>)
      modifies this`existingSize
      ensures forall x :: Lookup(existingSize, x) == Lookup(old(existingSize), x) + Total(wants, x)
    {
      for i := 0 to |wants|
        invariant forall x :: Lookup(existingSize, x) == Lookup(old(existingSize), x) + Total(wants[..i], x)
      {
        assert wants[..i + 1] == wants[..i] + [wants[i]];
        forall x ensures Total(wants[..i + 1], x) == Total(wants[..i], x) + (if wants[i].item == x then wants[i].amount else 0) {
          TotalSnoc(wants[..i], wants[i], x);
        }
        var item := wants[i].item;
        existingSize := existingSize[item := Lookup(existingSize, item) + wants[i].amount];
      }
      assert wants[..|wants|] == wants;
    }
  }

  lemma PlanAvoidsAll(shadow: Inventory, item: Item, plan: seq<Insertion>, jammed: set<nat>)
    requires GreedyPlan(shadow, item, plan) && item != JAMMER
    requires forall s :: s in jammed ==> s < |shadow| && shadow[s] == JAMMED
    ensures forall s :: s in jammed ==> AddAll(shadow, item, plan)[s] == JAMMED
    ensures forall i :: 0 <= i < |plan| ==> plan[i].slot !in jammed
  {
    forall s | s in jammed
      ensures AddAll(shadow, item, plan)[s] == JAMMED && forall i :: 0 <= i < |plan| ==> plan[i].slot != s
    {
      PlanAvoids(shadow, item, plan, s);
    }
  }

  lemma AllAvoid(shadow: Inventory, wants: seq<Want>, jammed: set<nat>)
    requires InsertAll(shadow, wants).Some? && forall i :: 0 <= i < |wants| ==> wants[i].item != JAMMER
    requires forall s :: s in jammed ==> s < |shadow| && shadow[s] == JAMMED
    ensures forall s :: s in jammed ==> InsertAll(shadow, wants).value[s] == JAMMED
    ensures forall i, j :: 0 <= i < |wants| && 0 <= j < |Plans(shadow, wants)[i]| ==>
              Plans(shadow, wants)[i][j].slot !in jammed
  {
    forall s | s in jammed
      ensures InsertAll(shadow, wants).value[s] == JAMMED
      ensures forall i, j :: 0 <= i < |wants| && 0 <= j < |Plans(shadow, wants)[i]| ==>
                Plans(shadow, wants)[i][j].slot != s
    {
      PlansAvoid(shadow, wants, s);
    }
  }

  predicate WithinQuotas(existing: map<Item, nat>, remaining: int, inputs: seq<Want>, maxInputs: int, n: nat) {
    && n * Amounts(inputs) <= remaining
    && ExistingTotal(existing, inputs) + n * Amounts(inputs) <= maxInputs
  }

  /** Whether so many sets respect both quotas and their items fit somehow. */
  ghost predicate Feasible(shadow: Inventory, existing: map<Item, nat>, remaining: int, inputs: seq<Want>,
                           maxInputs: int, n: nat)
  {
    WithinQuotas(existing, remaining, inputs, maxInputs, n) && Placeable(shadow, Sets(inputs, n))
  }

  // ----- what the quotas mean

  /** The size of all stacks whose item is counted. */
  function Units(inv: Inventory, counted: Item -> bool): nat {
    if inv == [] then 0
    else (match inv[0]
          case Some(stack) => if counted(stack.item) then stack.size else 0
          case None => 0) + Units(inv[1..], counted)
  }

  lemma {:induction false} UnitsOfNone(inv: Inventory, counted: Item -> bool)
    requires forall x :: !counted(x)
    ensures Units(inv, counted) == 0
    decreases |inv|
  {
    if inv != [] {
      UnitsOfNone(inv[1..], counted);
    }
  }

  /** One more kind of item is counted. */
  lemma {:induction false} UnitsOfOneMore(inv: Inventory, counted: Item -> bool, more: Item -> bool, item: Item)
    requires !counted(item) && forall x :: more(x) <==> counted(x) || x == item
    ensures Units(inv, more) == Units(inv, counted) + Count(inv, item)
    decreases |inv|
  {
    if inv != [] {
      UnitsOfOneMore(inv[1..], counted, more, item);
    }
  }

  lemma {:induction false} UnitsSnoc(inv: Inventory, s: Option<Stack>, counted: Item -> bool)
    ensures Units(inv + [s], counted) == Units(inv, counted) + (if s.Some? && counted(s.value.item) then s.value.size else 0)
    decreases |inv|
  {
    if inv == [] {
      assert inv + [s] == [s] && [s][1..] == [];
    } else {
      assert (inv + [s])[1..] == inv[1..] + [s];
      UnitsSnoc(inv[1..], s, counted);
    }
  }

  /** The first quota counts the items that no stock filter names. */
  lemma {:induction false} RecipeSizeCounts(config: Config, inv: Inventory)
    ensures config.RecipeSize(inv) == Units(inv, x => forall i :: 0 <= i < |config.stocks| ==> !config.stocks[i].Apply(x))
    decreases |inv|
  {
    if inv != [] {
      var n := |inv| - 1;
      assert inv == inv[..n] + [inv[n]];
      RecipeSizeCounts(config, inv[..n]);
      UnitsSnoc(inv[..n], inv[n], x => forall i :: 0 <= i < |config.stocks| ==> !config.stocks[i].Apply(x));
    }
  }

  predicate Names(inputs: seq<Want>, x: Item) { exists i :: 0 <= i < |inputs| && inputs[i].item == x }

  predicate NamedOnce(inputs: seq<Want>) {
    forall i, j :: 0 <= i < j < |inputs| ==> inputs[i].item != inputs[j].item
  }

  lemma NamesSplit(inputs: seq<Want>)
    requires inputs != []
    ensures forall x :: Names(inputs, x) <==> Names(inputs[1..], x) || x == inputs[0].item
    ensures NamedOnce(inputs) ==> NamedOnce(inputs[1..]) && !Names(inputs[1..], inputs[0].item)
  {
    var rest := inputs[1..];
    assert forall i :: 0 < i < |inputs| ==> inputs[i] == rest[i - 1];
    forall x ensures Names(inputs, x) <==> Names(rest, x) || x == inputs[0].item {
      if Names(rest, x) {
        var i :| 0 <= i < |rest| && rest[i].item == x;
        assert inputs[i + 1].item == x;
      }
    }
  }

  lemma {:induction false} ExistingCounts(existing: map<Item, nat>, inputs: seq<Want>, inv: Inventory)
    requires NamedOnce(inputs) && forall x :: Lookup(existing, x) == Count(inv, x)
    ensures ExistingTotal(existing, inputs) == Units(inv, x => Names(inputs, x))
    decreases |inputs|
  {
    if inputs == [] {
      UnitsOfNone(inv, x => Names(inputs, x));
    } else {
      NamesSplit(inputs);
      ExistingCounts(existing, inputs[1..], inv);
      UnitsOfOneMore(inv, x => Names(inputs[1..], x), x => Names(inputs, x), inputs[0].item);
    }
  }

  lemma {:induction false} NotNamed(inputs: seq<Want>, n: nat, x: Item)
    requires !Names(inputs, x)
    ensures Total(Sets(inputs, n), x) == 0
    decreases |inputs|
  {
    if inputs != [] {
      NamesSplit(inputs);
      NotNamed(inputs[1..], n, x);
      assert Sets(inputs, n)[1..] == Sets(inputs[1..], n);
    }
  }

  lemma FirstTotal(inputs: seq<Want>, n: nat, x: Item)
    requires inputs != [] && NamedOnce(inputs)
    ensures x == inputs[0].item ==> Total(Sets(inputs, n), x) == n * inputs[0].amount
    ensures x != inputs[0].item ==> Total(Sets(inputs, n), x) == Total(Sets(inputs[1..], n), x)
  {
    NamesSplit(inputs);
    NotNamed(inputs[1..], n, inputs[0].item);
    assert Sets(inputs, n)[1..] == Sets(inputs[1..], n);
  }

  lemma Distributes(n: nat, a: nat, b: nat)
    ensures n * (a + b) == n * a + n * b
  {}

  /** The items of n sets raise what is counted by n times the size of a set. */
  lemma {:induction false} SetsRaise(inputs: seq<Want>, n: nat, inv: Inventory, after: Inventory)
    requires NamedOnce(inputs)
    requires forall x :: Names(inputs, x) ==> Count(after, x) == Count(inv, x) + Total(Sets(inputs, n), x)
    ensures Units(after, x => Names(inputs, x)) == Units(inv, x => Names(inputs, x)) + n * Amounts(inputs)
    decreases |inputs|
  {
    if inputs == [] {
      UnitsOfNone(inv, x => Names(inputs, x));
      UnitsOfNone(after, x => Names(inputs, x));
    } else {
      var rest, item := inputs[1..], inputs[0].item;
      NamesSplit(inputs);
      forall x | Names(rest, x) ensures Count(after, x) == Count(inv, x) + Total(Sets(rest, n), x) {
        FirstTotal(inputs, n, x);
      }
      SetsRaise(rest, n, inv, after);
      RaisedByOne(inputs, n, inv, after);
    }
  }

  lemma RaisedByOne(inputs: seq<Want>, n: nat, inv: Inventory, after: Inventory)
    requires inputs != [] && NamedOnce(inputs)
    requires Count(after, inputs[0].item) == Count(inv, inputs[0].item) + Total(Sets(inputs, n), inputs[0].item)
    requires Units(after, x => Names(inputs[1..], x)) == Units(inv, x => Names(inputs[1..], x)) + n * Amounts(inputs[1..])
    ensures Units(after, x => Names(inputs, x)) == Units(inv, x => Names(inputs, x)) + n * Amounts(inputs)
  {
    var item := inputs[0].item;
    NamesSplit(inputs);
    FirstTotal(inputs, n, item);
    UnitsOfOneMore(inv, x => Names(inputs[1..], x), x => Names(inputs, x), item);
    UnitsOfOneMore(after, x => Names(inputs[1..], x), x => Names(inputs, x), item);
    Distributes(n, inputs[0].amount, Amounts(inputs[1..]));
  }

  /** The quotas allow n sets of a recipe that names each item once, exactly if with them the machine has at most `maxInputs`
      units of its items, and gets no more units than the first quota has left. */
  lemma QuotasExactly(existing: map<Item, nat>, remaining: int, inputs: seq<Want>, maxInputs: int, n: nat, inv: Inventory,
                      after: Inventory)
    requires NamedOnce(inputs) && forall x :: Lookup(existing, x) == Count(inv, x)
    requires forall x :: Count(after, x) == Count(inv, x) + Total(Sets(inputs, n), x)
    ensures var before, then' := Units(inv, x => Names(inputs, x)), Units(after, x => Names(inputs, x));
      WithinQuotas(existing, remaining, inputs, maxInputs, n) <==> then' - before <= remaining && then' <= maxInputs
  {
    ExistingCounts(existing, inputs, inv);
    SetsRaise(inputs, n, inv, after);
  }

  lemma {:induction false} TotalSnoc(wants: seq<Want>, w: Want, x: Item)
    ensures Total(wants + [w], x) == Total(wants, x) + (if w.item == x then w.amount else 0)
    decreases |wants|
  {
    if wants == [] {
      assert wants + [w] == [w] && [w][1..] == [];
    } else {
      assert (wants + [w])[1..] == wants[1..] + [w];
      TotalSnoc(wants[1..], w, x);
    }
  }

  /** On a spotless shadow the most sets that TakeRecipe finds are the most that the machine takes; traces can only
      lower that number. */
  lemma TracesOnlyCostSets(clean: Inventory, shadow: Inventory, existing: map<Item, nat>, remaining: int,
                           inputs: seq<Want>, maxInputs: int, n: nat)
    requires Extends(clean, shadow) && AtMostStacks(Sets(inputs, n))
    requires Feasible(shadow, existing, remaining, inputs, maxInputs, n)
    ensures Feasible(clean, existing, remaining, inputs, maxInputs, n)
  {
    TracesOnlyCost(clean, shadow, Sets(inputs, n));
  }

  lemma NoSets(inputs: seq<Want>)
    ensures forall x :: Total(Sets(inputs, 0), x) == 0
  {
    forall x ensures Total(Sets(inputs, 0), x) == 0 {
      SetsAdd(inputs, 0, 0, x);
    }
  }

  lemma {:induction false} PlanSizes(shadow: Inventory, wants: seq<Want>)
    requires InsertAll(shadow, wants).Some?
    ensures forall i :: 0 <= i < |wants| ==> Inserted(Plans(shadow, wants)[i]) == wants[i].amount
    decreases |wants|
  {
    if wants != [] {
      PlanSizes(Insert(shadow, wants[0].item, wants[0].amount).inv, wants[1..]);
    }
  }
}
