/** insert_into_inventory (server/RustImpl/src/item.rs) and what it means for a set of items to fit. */
module Placement {
  import opened Common
  import opened Items

  // ----- how much of an item an inventory holds, and how it may grow

  function CountStack(s: Option<Stack>, item: Item): nat {
    if s.Some? && s.value.item == item then s.value.size else 0
  }

  function Count(inv: Inventory, item: Item): nat {
    if inv == [] then 0 else CountStack(inv[0], item) + Count(inv[1..], item)
  }

  lemma {:induction false} CountUpdate(inv: Inventory, slot: nat, s: Option<Stack>, item: Item)
    requires slot < |inv|
    ensures Count(inv[slot := s], item) + CountStack(inv[slot], item) == Count(inv, item) + CountStack(s, item)
    decreases |inv|
  {
    if slot == 0 {
      assert inv[slot := s][1..] == inv[1..];
    } else {
      assert inv[slot := s][1..] == inv[1..][slot - 1 := s];
      CountUpdate(inv[1..], slot - 1, s, item);
    }
  }

  lemma {:induction false} CountSnoc(inv: Inventory, s: Option<Stack>, item: Item)
    ensures Count(inv + [s], item) == Count(inv, item) + CountStack(s, item)
    decreases |inv|
  {
    if inv == [] {
      assert inv + [s] == [s] && [s][1..] == [];
    } else {
      assert (inv + [s])[1..] == inv[1..] + [s];
      CountSnoc(inv[1..], s, item);
    }
  }

  /** A slot may grow by items of its own kind up to a full stack; an empty slot may take any one kind. */
  predicate Grows(a: Option<Stack>, b: Option<Stack>) {
    match a
    case None => b.None? || b.value.size <= b.value.item.maxSize
    case Some(x) =>
      b.Some? && b.value.item == x.item && x.size <= b.value.size
      && (b.value.size == x.size || b.value.size <= x.item.maxSize)
  }

  /** g can be reached from inv by only adding items. */
  predicate Extends(inv: Inventory, g: Inventory) {
    |inv| == |g| && forall s :: 0 <= s < |inv| ==> Grows(inv[s], g[s])
  }

  lemma ExtendsTransitive(a: Inventory, b: Inventory, c: Inventory)
    requires Extends(a, b) && Extends(b, c)
    ensures Extends(a, c)
  {
    forall s | 0 <= s < |a| ensures Grows(a[s], c[s]) {
      assert Grows(a[s], b[s]) && Grows(b[s], c[s]);
    }
  }

  /** So much of an item is to be put in. */
  datatype Want = Want(item: Item, amount: nat)

  function Total(wants: seq<Want>, item: Item): nat {
    if wants == [] then 0 else (if wants[0].item == item then wants[0].amount else 0) + Total(wants[1..], item)
  }

  /** g holds, besides what inv holds, exactly the wanted items. */
  ghost predicate Serves(inv: Inventory, wants: seq<Want>, g: Inventory) {
    Extends(inv, g) && forall x :: Count(g, x) == Count(inv, x) + Total(wants, x)
  }

  /** The reference notion: somehow or other the wanted items can all be put in. */
  ghost predicate Placeable(inv: Inventory, wants: seq<Want>) {
    exists g :: Serves(inv, wants, g)
  }

  // ----- the greedy insertion

  datatype Insertion = Insertion(slot: nat, amount: nat)

  function Add(inv: Inventory, item: Item, ins: Insertion): Inventory
    requires ins.slot < |inv|
  {
    inv[ins.slot := Some(Stack(item, CountStack(inv[ins.slot], item) + ins.amount))]
  }

  datatype Filled = Filled(inv: Inventory, insertions: seq<Insertion>, remaining: nat)

  function Room(s: Option<Stack>, item: Item): nat {
    if s.Some? && s.value.item == item && s.value.size < item.maxSize then item.maxSize - s.value.size else 0
  }

  /** Tops up the stacks of the item, slot by slot. */
  function TopUp(inv: Inventory, item: Item, remaining: nat, slot: nat): (r: Filled)
    requires slot <= |inv|
    ensures |r.inv| == |inv|
    decreases |inv| - slot
  {
    if slot == |inv| || remaining == 0 then Filled(inv, [], remaining)
    else
      var amount := Min(remaining, Room(inv[slot], item));
      if amount == 0 then TopUp(inv, item, remaining, slot + 1)
      else
        var r := TopUp(Add(inv, item, Insertion(slot, amount)), item, remaining - amount, slot + 1);
        r.(insertions := [Insertion(slot, amount)] + r.insertions)
  }

  function FirstEmpty(inv: Inventory): (r: Option<nat>)
    ensures r.Some? ==> r.value < |inv| && inv[r.value].None? && forall s :: 0 <= s < r.value ==> inv[s].Some?
    ensures r.None? ==> forall s :: 0 <= s < |inv| ==> inv[s].Some?
  {
    if inv == [] then None
    else if inv[0].None? then Some(0)
    else
      var r := FirstEmpty(inv[1..]);
      if r.Some? then
        assert forall s :: 1 <= s <= r.value ==> inv[s] == inv[1..][s - 1];
        Some(r.value + 1)
      else
        assert forall s :: 1 <= s < |inv| ==> inv[s] == inv[1..][s - 1];
        None
  }

  /** At most one stack is put in: first onto stacks of the item, the rest into the first empty slot. */
  function Insert(inv: Inventory, item: Item, toInsert: nat): (r: Filled)
    ensures |r.inv| == |inv|
  {
    var r := TopUp(inv, item, Min(toInsert, item.maxSize), 0);
    var empty := FirstEmpty(inv);
    if r.remaining == 0 || empty.None? then r
    else
      Filled(Add(r.inv, item, Insertion(empty.value, r.remaining)),
             r.insertions + [Insertion(empty.value, r.remaining)], 0)
  }

  function Inserted(insertions: seq<Insertion>): nat {
    if insertions == [] then 0 else insertions[0].amount + Inserted(insertions[1..])
  }

  function AddAll(inv: Inventory, item: Item, insertions: seq<Insertion>): (r: Inventory)
    ensures |r| == |inv|
    decreases |insertions|
  {
    if insertions == [] || insertions[0].slot >= |inv| then inv
    else AddAll(Add(inv, item, insertions[0]), item, insertions[1..])
  }

  /** No stack of the item has room. */
  predicate Full(inv: Inventory, item: Item) {
    forall s :: 0 <= s < |inv| && inv[s].Some? && inv[s].value.item == item ==> inv[s].value.size >= item.maxSize
  }

  /** A greedy step: onto a stack of the item, or into an empty slot when no stack has room. */
  predicate GreedyStep(inv: Inventory, item: Item, ins: Insertion) {
    && ins.slot < |inv| && ins.amount > 0
    && CountStack(inv[ins.slot], item) + ins.amount <= item.maxSize
    && match inv[ins.slot]
       case Some(x) => x.item == item
       case None => Full(inv, item)
  }

  predicate GreedyPlan(inv: Inventory, item: Item, insertions: seq<Insertion>)
    decreases |insertions|
  {
    insertions == []
    || (GreedyStep(inv, item, insertions[0]) && GreedyPlan(Add(inv, item, insertions[0]), item, insertions[1..]))
  }

  // ----- the exchange argument: a greedy step never spoils a placement

  lemma {:induction false} SomeSlotGrows(inv: Inventory, g: Inventory, item: Item) returns (t: nat)
    requires Extends(inv, g) && Count(g, item) > Count(inv, item)
    ensures t < |inv| && CountStack(g[t], item) > CountStack(inv[t], item)
    decreases |inv|
  {
    if CountStack(g[0], item) > CountStack(inv[0], item) {
      t := 0;
    } else {
      assert Grows(inv[0], g[0]);
      forall s | 0 <= s < |inv[1..]| ensures Grows(inv[1..][s], g[1..][s]) {
        assert Grows(inv[s + 1], g[s + 1]);
      }
      t := SomeSlotGrows(inv[1..], g[1..], item);
      t := t + 1;
    }
  }

  function Less(s: Option<Stack>): Option<Stack>
    requires s.Some? && s.value.size > 0
  {
    if s.value.size == 1 then None else Some(s.value.(size := s.value.size - 1))
  }

  /** Taking one added item away again. */
  lemma Shrink(inv: Inventory, g: Inventory, item: Item) returns (g': Inventory)
    requires Extends(inv, g) && Count(g, item) > Count(inv, item)
    ensures Extends(inv, g')
    ensures forall x :: Count(g', x) + (if x == item then 1 else 0) == Count(g, x)
  {
    var t := SomeSlotGrows(inv, g, item);
    assert Grows(inv[t], g[t]);
    var less := if inv[t].None? then Less(g[t]) else Some(g[t].value.(size := g[t].value.size - 1));
    g' := g[t := less];
    forall s | 0 <= s < |inv| ensures Grows(inv[s], g'[s]) {
      assert Grows(inv[s], g[s]);
    }
    forall x ensures Count(g', x) + (if x == item then 1 else 0) == Count(g, x) {
      CountUpdate(g, t, less, x);
    }
  }

  /** One unit, put greedily at a slot, can be exchanged into any placement that has it elsewhere. */
  lemma ExchangeUnit(inv: Inventory, g: Inventory, item: Item, slot: nat) returns (g': Inventory)
    requires Extends(inv, g) && Count(g, item) > Count(inv, item) && GreedyStep(inv, item, Insertion(slot, 1))
    ensures Extends(Add(inv, item, Insertion(slot, 1)), g')
    ensures forall x :: Count(g', x) == Count(g, x)
  {
    var t := SomeSlotGrows(inv, g, item);
    assert Grows(inv[t], g[t]) && Grows(inv[slot], g[slot]);
    if CountStack(g[slot], item) > CountStack(inv[slot], item) {
      g' := g;
    } else if inv[slot].Some? {
      var less := if inv[t].None? then Less(g[t]) else Some(g[t].value.(size := g[t].value.size - 1));
      var more := Some(g[slot].value.(size := g[slot].value.size + 1));
      g' := g[t := less][slot := more];
      forall x ensures Count(g', x) == Count(g, x) {
        CountUpdate(g, t, less, x);
        CountUpdate(g[t := less], slot, more, x);
      }
    } else {
      g' := g[slot := g[t]][t := g[slot]];
      forall x ensures Count(g', x) == Count(g, x) {
        CountUpdate(g, slot, g[t], x);
        CountUpdate(g[slot := g[t]], t, g[slot], x);
      }
    }
    forall s | 0 <= s < |inv| ensures Grows(Add(inv, item, Insertion(slot, 1))[s], g'[s]) {
      assert Grows(inv[s], g[s]);
    }
  }

  lemma {:induction false} ExchangeStep(inv: Inventory, g: Inventory, item: Item, ins: Insertion)
    returns (g': Inventory)
    requires Extends(inv, g) && Count(g, item) >= Count(inv, item) + ins.amount && GreedyStep(inv, item, ins)
    ensures Extends(Add(inv, item, ins), g')
    ensures forall x :: Count(g', x) == Count(g, x)
    decreases ins.amount
  {
    g' := ExchangeUnit(inv, g, item, ins.slot);
    if ins.amount > 1 {
      var inv1 := Add(inv, item, Insertion(ins.slot, 1));
      CountUpdate(inv, ins.slot, inv1[ins.slot], item);
      assert Add(inv1, item, Insertion(ins.slot, ins.amount - 1)) == Add(inv, item, ins);
      g' := ExchangeStep(inv1, g', item, Insertion(ins.slot, ins.amount - 1));
    }
  }

  lemma AddCounts(inv: Inventory, item: Item, ins: Insertion, x: Item)
    requires ins.slot < |inv| && (inv[ins.slot].Some? ==> inv[ins.slot].value.item == item)
    ensures Count(Add(inv, item, ins), x) == Count(inv, x) + (if x == item then ins.amount else 0)
  {
    CountUpdate(inv, ins.slot, Add(inv, item, ins)[ins.slot], x);
  }

  lemma {:induction false} ExchangePlan(inv: Inventory, g: Inventory, item: Item, plan: seq<Insertion>)
    returns (g': Inventory)
    requires Extends(inv, g) && GreedyPlan(inv, item, plan) && Count(g, item) >= Count(inv, item) + Inserted(plan)
    ensures Extends(AddAll(inv, item, plan), g')
    ensures forall x :: Count(g', x) == Count(g, x)
    decreases |plan|
  {
    g' := g;
    if plan != [] {
      g' := ExchangeStep(inv, g, item, plan[0]);
      AddCounts(inv, item, plan[0], item);
      g' := ExchangePlan(Add(inv, item, plan[0]), g', item, plan[1..]);
    }
  }

  // ----- insert_into_inventory is such a greedy plan

  lemma {:induction false} TopUpIsGreedy(inv: Inventory, item: Item, remaining: nat, slot: nat)
    requires slot <= |inv|
    ensures var r := TopUp(inv, item, remaining, slot);
      && GreedyPlan(inv, item, r.insertions) && r.inv == AddAll(inv, item, r.insertions)
      && Inserted(r.insertions) + r.remaining == remaining
      && (forall s :: 0 <= s < |inv| ==> (r.inv[s].None? <==> inv[s].None?))
      && (forall s :: 0 <= s < slot ==> r.inv[s] == inv[s])
      && (r.remaining > 0 ==> forall s :: slot <= s < |inv| && r.inv[s].Some? && r.inv[s].value.item == item ==>
                                r.inv[s].value.size >= item.maxSize)
    decreases |inv| - slot
  {
    if slot < |inv| && remaining > 0 {
      var amount := Min(remaining, Room(inv[slot], item));
      if amount == 0 {
        TopUpIsGreedy(inv, item, remaining, slot + 1);
      } else {
        TopUpIsGreedy(Add(inv, item, Insertion(slot, amount)), item, remaining - amount, slot + 1);
      }
    }
  }

  lemma {:induction false} GreedySnoc(inv: Inventory, item: Item, plan: seq<Insertion>, ins: Insertion)
    requires GreedyPlan(inv, item, plan) && GreedyStep(AddAll(inv, item, plan), item, ins)
    ensures GreedyPlan(inv, item, plan + [ins])
    ensures AddAll(inv, item, plan + [ins]) == Add(AddAll(inv, item, plan), item, ins)
    ensures Inserted(plan + [ins]) == Inserted(plan) + ins.amount
    decreases |plan|
  {
    if plan == [] {
      assert plan + [ins] == [ins] && [ins][1..] == [];
    } else {
      assert (plan + [ins])[1..] == plan[1..] + [ins];
      GreedySnoc(Add(inv, item, plan[0]), item, plan[1..], ins);
    }
  }

  /** There is neither an empty slot nor room on a stack of the item. */
  predicate NoRoom(inv: Inventory, item: Item) {
    Full(inv, item) && forall s :: 0 <= s < |inv| ==> inv[s].Some?
  }

  lemma InsertIsGreedy(inv: Inventory, item: Item, toInsert: nat)
    ensures var r := Insert(inv, item, toInsert);
      && GreedyPlan(inv, item, r.insertions) && r.inv == AddAll(inv, item, r.insertions)
      && Inserted(r.insertions) + r.remaining == Min(toInsert, item.maxSize)
      && (r.remaining > 0 ==> NoRoom(r.inv, item))
  {
    var r := TopUp(inv, item, Min(toInsert, item.maxSize), 0);
    TopUpIsGreedy(inv, item, Min(toInsert, item.maxSize), 0);
    var empty := FirstEmpty(inv);
    if r.remaining > 0 && empty.Some? {
      GreedySnoc(inv, item, r.insertions, Insertion(empty.value, r.remaining));
    }
  }

  lemma {:induction false} PlanCounts(inv: Inventory, item: Item, plan: seq<Insertion>, x: Item)
    requires GreedyPlan(inv, item, plan)
    ensures Extends(inv, AddAll(inv, item, plan))
    ensures Count(AddAll(inv, item, plan), x) == Count(inv, x) + (if x == item then Inserted(plan) else 0)
    decreases |plan|
  {
    if plan != [] {
      var inv1 := Add(inv, item, plan[0]);
      AddCounts(inv, item, plan[0], x);
      PlanCounts(inv1, item, plan[1..], x);
      ExtendsTransitive(inv, inv1, AddAll(inv, item, plan));
    }
  }

  lemma NoRoomNoGrowth(inv: Inventory, g: Inventory, item: Item)
    requires NoRoom(inv, item) && Extends(inv, g)
    ensures Count(g, item) <= Count(inv, item)
  {
    if Count(g, item) > Count(inv, item) {
      var t := SomeSlotGrows(inv, g, item);
    }
  }

  // ----- how much is inserted

  /** The room on stacks of the item from a slot on. */
  function StackRoom(inv: Inventory, item: Item, slot: nat): nat
    requires slot <= |inv|
    decreases |inv| - slot
  {
    if slot == |inv| then 0 else Room(inv[slot], item) + StackRoom(inv, item, slot + 1)
  }

  /** What insertion brings in: the wanted amount, at most a stack; without an empty slot, at most the room on stacks. */
  function Insertable(inv: Inventory, item: Item, toInsert: nat): int {
    var most := Min(toInsert, item.maxSize);
    if FirstEmpty(inv).Some? then most else Min(most, StackRoom(inv, item, 0))
  }

  lemma {:induction false} StackRoomElsewhere(inv: Inventory, item: Item, k: nat, s: Option<Stack>, slot: nat)
    requires k < slot <= |inv|
    ensures StackRoom(inv[k := s], item, slot) == StackRoom(inv, item, slot)
    decreases |inv| - slot
  {
    if slot < |inv| {
      StackRoomElsewhere(inv, item, k, s, slot + 1);
    }
  }

  lemma {:induction false} TopUpAmount(inv: Inventory, item: Item, remaining: nat, slot: nat)
    requires slot <= |inv|
    ensures TopUp(inv, item, remaining, slot).remaining == Max(0, remaining - StackRoom(inv, item, slot))
    decreases |inv| - slot
  {
    if slot < |inv| && remaining > 0 {
      var amount := Min(remaining, Room(inv[slot], item));
      if amount == 0 {
        TopUpAmount(inv, item, remaining, slot + 1);
      } else {
        var inv1 := Add(inv, item, Insertion(slot, amount));
        TopUpAmount(inv1, item, remaining - amount, slot + 1);
        StackRoomElsewhere(inv, item, slot, inv1[slot], slot + 1);
      }
    }
  }

  lemma InsertAmount(inv: Inventory, item: Item, toInsert: nat)
    ensures Inserted(Insert(inv, item, toInsert).insertions) == Insertable(inv, item, toInsert)
  {
    InsertIsGreedy(inv, item, toInsert);
    TopUpAmount(inv, item, Min(toInsert, item.maxSize), 0);
  }

  // ----- greedy insertion of a list of wants, and its completeness

  /** The result of inserting every want in turn, or None when one of them does not fit completely. */
  function InsertAll(inv: Inventory, wants: seq<Want>): (r: Option<Inventory>)
    ensures r.Some? ==> |r.value| == |inv|
    decreases |wants|
  {
    if wants == [] then Some(inv)
    else
      var r := Insert(inv, wants[0].item, wants[0].amount);
      if Inserted(r.insertions) != wants[0].amount then None else InsertAll(r.inv, wants[1..])
  }

  predicate AtMostStacks(wants: seq<Want>) {
    forall i :: 0 <= i < |wants| ==> wants[i].amount <= wants[i].item.maxSize
  }

  lemma FirstWantFits(inv: Inventory, wants: seq<Want>)
    requires wants != [] && AtMostStacks(wants)
    requires Inserted(Insert(inv, wants[0].item, wants[0].amount).insertions) == wants[0].amount
    ensures Placeable(inv, wants) <==> Placeable(Insert(inv, wants[0].item, wants[0].amount).inv, wants[1..])
  {
    var item, plan := wants[0].item, Insert(inv, wants[0].item, wants[0].amount).insertions;
    InsertIsGreedy(inv, item, wants[0].amount);
    var inv1 := AddAll(inv, item, plan);
    forall x ensures Count(inv1, x) == Count(inv, x) + (if x == item then wants[0].amount else 0) {
      PlanCounts(inv, item, plan, x);
    }
    PlanCounts(inv, item, plan, item);
    if Placeable(inv, wants) {
      var g :| Serves(inv, wants, g);
      var g' := ExchangePlan(inv, g, item, plan);
      assert Serves(inv1, wants[1..], g');
    }
    if Placeable(inv1, wants[1..]) {
      var g :| Serves(inv1, wants[1..], g);
      ExtendsTransitive(inv, inv1, g);
      assert Serves(inv, wants, g);
    }
  }

  lemma FirstWantFails(inv: Inventory, wants: seq<Want>)
    requires wants != [] && AtMostStacks(wants)
    requires Inserted(Insert(inv, wants[0].item, wants[0].amount).insertions) != wants[0].amount
    ensures !Placeable(inv, wants)
  {
    var item, r := wants[0].item, Insert(inv, wants[0].item, wants[0].amount);
    InsertIsGreedy(inv, item, wants[0].amount);
    PlanCounts(inv, item, r.insertions, item);
    forall g | Extends(inv, g) ensures !Serves(inv, wants, g) {
      if Serves(inv, wants, g) {
        var g' := ExchangePlan(inv, g, item, r.insertions);
        NoRoomNoGrowth(r.inv, g', item);
      }
    }
  }

  /** Greedy insertion is complete: it succeeds exactly when the wanted items fit at all. */
  lemma {:induction false} GreedyIsComplete(inv: Inventory, wants: seq<Want>)
    requires AtMostStacks(wants)
    ensures InsertAll(inv, wants).Some? <==> Placeable(inv, wants)
    ensures InsertAll(inv, wants).Some? ==> Serves(inv, wants, InsertAll(inv, wants).value)
    decreases |wants|
  {
    if wants == [] {
      assert Serves(inv, wants, inv);
    } else {
      var r := Insert(inv, wants[0].item, wants[0].amount);
      if Inserted(r.insertions) == wants[0].amount {
        GreedyIsComplete(r.inv, wants[1..]);
        FirstWantFits(inv, wants);
        InsertIsGreedy(inv, wants[0].item, wants[0].amount);
        forall x ensures Count(r.inv, x) == Count(inv, x) + (if x == wants[0].item then wants[0].amount else 0) {
          PlanCounts(inv, wants[0].item, r.insertions, x);
        }
        PlanCounts(inv, wants[0].item, r.insertions, wants[0].item);
        if InsertAll(inv, wants).Some? {
          ExtendsTransitive(inv, r.inv, InsertAll(inv, wants).value);
        }
      } else {
        FirstWantFails(inv, wants);
      }
    }
  }

  // ----- smaller orders fit if larger ones do

  lemma {:induction false} ShrinkBy(inv: Inventory, g: Inventory, item: Item, k: nat) returns (g': Inventory)
    requires Extends(inv, g) && Count(g, item) >= Count(inv, item) + k
    ensures Extends(inv, g')
    ensures forall x :: Count(g', x) + (if x == item then k else 0) == Count(g, x)
    decreases k
  {
    g' := g;
    if k > 0 {
      g' := Shrink(inv, g, item);
      g' := ShrinkBy(inv, g', item, k - 1);
    }
  }

  lemma {:induction false} ShrinkAll(inv: Inventory, g: Inventory, less: seq<Want>) returns (g': Inventory)
    requires Extends(inv, g) && forall x :: Count(g, x) >= Count(inv, x) + Total(less, x)
    ensures Extends(inv, g')
    ensures forall x :: Count(g', x) + Total(less, x) == Count(g, x)
    decreases |less|
  {
    g' := g;
    if less != [] {
      assert Count(g, less[0].item) >= Count(inv, less[0].item) + Total(less, less[0].item);
      g' := ShrinkBy(inv, g, less[0].item, less[0].amount);
      forall x ensures Count(g', x) >= Count(inv, x) + Total(less[1..], x) {
        assert Count(g, x) >= Count(inv, x) + Total(less, x);
      }
      g' := ShrinkAll(inv, g', less[1..]);
    }
  }

  /** n sets of a recipe's inputs. */
  function Sets(inputs: seq<Want>, n: nat): (r: seq<Want>)
    ensures |r| == |inputs|
    ensures forall i :: 0 <= i < |r| ==> r[i] == Want(inputs[i].item, n * inputs[i].amount)
  {
    if inputs == [] then [] else [Want(inputs[0].item, n * inputs[0].amount)] + Sets(inputs[1..], n)
  }

  lemma {:induction false} SetsAdd(inputs: seq<Want>, m: nat, n: nat, x: Item)
    ensures Total(Sets(inputs, m + n), x) == Total(Sets(inputs, m), x) + Total(Sets(inputs, n), x)
    decreases |inputs|
  {
    if inputs != [] {
      SetsAdd(inputs[1..], m, n, x);
      assert (m + n) * inputs[0].amount == m * inputs[0].amount + n * inputs[0].amount;
    }
  }

  lemma FewerSetsFit(inv: Inventory, inputs: seq<Want>, m: nat, n: nat)
    requires m <= n && Placeable(inv, Sets(inputs, n))
    ensures Placeable(inv, Sets(inputs, m))
  {
    var g :| Serves(inv, Sets(inputs, n), g);
    forall x ensures Total(Sets(inputs, n), x) == Total(Sets(inputs, m), x) + Total(Sets(inputs, n - m), x) {
      SetsAdd(inputs, m, n - m, x);
    }
    var g' := ShrinkAll(inv, g, Sets(inputs, n - m));
    assert Serves(inv, Sets(inputs, m), g');
  }

  // ----- the program's insertion, in place

  /** Topping up from slot on is all that is left to reach the goal. */
  ghost predicate ToppedUp(goal: Filled, inv: Inventory, item: Item, remaining: nat, slot: nat, done: seq<Insertion>) {
    slot <= |inv| &&
    var r := TopUp(inv, item, remaining, slot);
    goal == Filled(r.inv, done + r.insertions, r.remaining)
  }

  lemma TopUpStep(goal: Filled, inv: Inventory, item: Item, remaining: nat, slot: nat, done: seq<Insertion>)
    requires ToppedUp(goal, inv, item, remaining, slot, done) && slot < |inv| && remaining > 0
    ensures var amount := Min(remaining, Room(inv[slot], item));
      if amount == 0 then ToppedUp(goal, inv, item, remaining, slot + 1, done)
      else ToppedUp(goal, Add(inv, item, Insertion(slot, amount)), item, remaining - amount, slot + 1,
                    done + [Insertion(slot, amount)])
  {
    var amount := Min(remaining, Room(inv[slot], item));
    if amount > 0 {
      var rest := TopUp(Add(inv, item, Insertion(slot, amount)), item, remaining - amount, slot + 1).insertions;
      assert done + ([Insertion(slot, amount)] + rest) == (done + [Insertion(slot, amount)]) + rest;
    }
  }

  method InsertIntoInventory(inventory: array<Option<Stack>>, item: Item, toInsert: nat)
    returns (nInserted: nat, insertions: seq<Insertion>)
    modifies inventory
    ensures var r := Insert(old(inventory[..]), item, toInsert);
      inventory[..] == r.inv && insertions == r.insertions && nInserted == Inserted(r.insertions)
  {
    nInserted, insertions := 0, [];
    var remaining: nat := Min(toInsert, item.maxSize);
    var firstEmptySlot: Option<nat> := None;
    ghost var inv := inventory[..];
    ghost var goal := TopUp(inv, item, remaining, 0);
    var slot := 0;
    while slot < inventory.Length
      invariant 0 <= slot <= inventory.Length && |goal.inv| == |inv| == inventory.Length
      invariant ToppedUp(goal, inventory[..], item, remaining, slot, insertions)
      invariant nInserted == Inserted(insertions)
      invariant firstEmptySlot == FirstEmpty(inv[..slot])
      invariant forall s :: 0 <= s < inventory.Length ==> (inventory[s].None? <==> inv[s].None?)
    {
      if remaining == 0 {
        return;
      }
      FirstEmptyNext(inv, slot);
      TopUpStep(goal, inventory[..], item, remaining, slot, insertions);
      match inventory[slot] {
        case Some(stack) =>
          if stack.item == item {
            var amount := Min(remaining, item.maxSize - stack.size);
            if amount > 0 {
              InsertedSnoc(insertions, Insertion(slot, amount));
              ghost var added := Add(inventory[..], item, Insertion(slot, amount));
              inventory[slot] := Some(Stack(item, stack.size + amount));
              assert inventory[..] == added;
              nInserted := nInserted + amount;
              insertions := insertions + [Insertion(slot, amount)];
              remaining := remaining - amount;
            }
          }
        case None =>
          if firstEmptySlot.None? {
            firstEmptySlot := Some(slot);
          }
      }
      slot := slot + 1;
    }
    assert inv[..slot] == inv;
    assert insertions + [] == insertions;
    if remaining > 0 && firstEmptySlot.Some? {
      var s := firstEmptySlot.value;
      ghost var added := Add(inventory[..], item, Insertion(s, remaining));
      InsertedSnoc(insertions, Insertion(s, remaining));
      inventory[s] := Some(Stack(item, remaining));
      assert inventory[..] == added;
      nInserted := nInserted + remaining;
      insertions := insertions + [Insertion(s, remaining)];
    }
  }

  lemma {:induction false} InsertedSnoc(plan: seq<Insertion>, ins: Insertion)
    ensures Inserted(plan + [ins]) == Inserted(plan) + ins.amount
    decreases |plan|
  {
    if plan == [] {
      assert plan + [ins] == [ins] && [ins][1..] == [];
    } else {
      assert (plan + [ins])[1..] == plan[1..] + [ins];
      InsertedSnoc(plan[1..], ins);
    }
  }

  lemma FirstEmptyNext(inv: Inventory, slot: nat)
    requires slot < |inv|
    ensures FirstEmpty(inv[..slot + 1])
         == if FirstEmpty(inv[..slot]).Some? then FirstEmpty(inv[..slot])
            else if inv[slot].None? then Some(slot) else None
  {
    var a, b := FirstEmpty(inv[..slot]), FirstEmpty(inv[..slot + 1]);
    assert forall s :: 0 <= s < slot ==> inv[..slot][s] == inv[s] == inv[..slot + 1][s];
    assert inv[..slot + 1][slot] == inv[slot];
  }
}
