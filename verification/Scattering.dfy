/** The spreading of inputs over machine slots (server/RustImpl/src/process/scattering.rs). */
module Scattering {
  import opened Common
  import opened Items
  import opened Placement

  /** A slot the item may go to: an empty one, or one that already holds it. */
  predicate Eligible(s: Option<Stack>, item: Item) {
    s.None? || s.value.item == item
  }

  /** How many units slot s can still take under the limit. */
  function SlotRoom(s: Option<Stack>, item: Item, limit: int): nat {
    if Eligible(s, item) then Max(0, limit - CountStack(s, item)) else 0
  }

  /** The room of all input slots below n together. */
  function RoomBelow(inv: Inventory, slots: set<nat>, item: Item, limit: int, n: nat): nat
    requires n <= |inv|
  {
    if n == 0 then 0
    else RoomBelow(inv, slots, item, limit, n - 1) + (if n - 1 in slots then SlotRoom(inv[n - 1], item, limit) else 0)
  }

  function At(insertions: map<nat, nat>, slot: nat): nat {
    if slot in insertions then insertions[slot] else 0
  }

  /** All units that go to slots below n. */
  function InsertedBelow(insertions: map<nat, nat>, n: nat): nat {
    if n == 0 then 0 else InsertedBelow(insertions, n - 1) + At(insertions, n - 1)
  }

  lemma {:induction false} RoomShrinks(inv: Inventory, slots: set<nat>, item: Item, limit: int, slot: nat, n: nat)
    requires n <= |inv| && slot < |inv| && slot in slots
    requires Eligible(inv[slot], item) && CountStack(inv[slot], item) < limit
    ensures var inv1 := inv[slot := Some(Stack(item, CountStack(inv[slot], item) + 1))];
      RoomBelow(inv1, slots, item, limit, n) + (if slot < n then 1 else 0) == RoomBelow(inv, slots, item, limit, n)
    decreases n
  {
    if n > 0 {
      RoomShrinks(inv, slots, item, limit, slot, n - 1);
    }
  }

  lemma {:induction false} InsertedGrows(insertions: map<nat, nat>, slot: nat, n: nat)
    ensures InsertedBelow(insertions[slot := At(insertions, slot) + 1], n)
         == InsertedBelow(insertions, n) + (if slot < n then 1 else 0)
    decreases n
  {
    if n > 0 {
      InsertedGrows(insertions, slot, n - 1);
    }
  }

  /** No input slot can take the item, or the least filled one has reached the limit. */
  ghost predicate Stuck(inv: Inventory, slots: set<nat>, item: Item, limit: int) {
    forall s :: s in slots && s < |inv| ==> SlotRoom(inv[s], item, limit) == 0
  }

  lemma {:induction false} NoRoomLeft(inv: Inventory, slots: set<nat>, item: Item, limit: int, n: nat)
    requires n <= |inv| && Stuck(inv, slots, item, limit)
    ensures RoomBelow(inv, slots, item, limit, n) == 0
    decreases n
  {
    if n > 0 {
      NoRoomLeft(inv, slots, item, limit, n - 1);
    }
  }

  lemma {:induction false} NothingInserted(n: nat)
    ensures InsertedBelow(map[], n) == 0
    decreases n
  {
    if n > 0 {
      NothingInserted(n - 1);
    }
  }

  /** The slot is eligible and no other eligible input slot is less filled. */
  ghost predicate LeastFilled(inv: Inventory, slots: set<nat>, item: Item, slot: nat) {
    && slot in slots && slot < |inv| && Eligible(inv[slot], item)
    && forall t :: t in slots && t < |inv| && Eligible(inv[t], item) ==>
         CountStack(inv[slot], item) <= CountStack(inv[t], item)
  }

  /** The least filled eligible input slot; an empty slot ends the search. */
  method FindBest(stacks: array<Option<Stack>>, inputSlots: seq<nat>, item: Item)
    returns (best: Option<(nat, nat)>)
    requires forall s :: s in inputSlots ==> s < stacks.Length
    ensures best.None? ==> forall s :: s in inputSlots ==> !Eligible(stacks[s], item)
    ensures best.Some? ==>
      && LeastFilled(stacks[..], SetOf(inputSlots), item, best.value.0)
      && best.value.1 == CountStack(stacks[best.value.0], item)
  {
    best := None;
    for i := 0 to |inputSlots|
      invariant forall j :: 0 <= j < |inputSlots| ==> inputSlots[j] in inputSlots && inputSlots[j] < stacks.Length
      invariant best.None? ==> forall j :: 0 <= j < i ==> !Eligible(stacks[inputSlots[j]], item)
      invariant best.Some? ==>
        var (slot, size) := best.value;
        && slot in inputSlots && Eligible(stacks[slot], item) && size == CountStack(stacks[slot], item)
        && forall j :: 0 <= j < i && Eligible(stacks[inputSlots[j]], item) ==>
             size <= CountStack(stacks[inputSlots[j]], item)
    {
      assert inputSlots[i] in inputSlots;
      match stacks[inputSlots[i]] {
        case Some(stack) =>
          if stack.item == item && (best.None? || stack.size < best.value.1) {
            best := Some((inputSlots[i], stack.size));
          }
        case None =>
          best := Some((inputSlots[i], 0));
          return;
      }
    }
  }

  /** What the insertions have made of the inventory. */
  ghost predicate Filled(before: Inventory, after: Inventory, item: Item, insertions: map<nat, nat>) {
    && |before| == |after|
    && forall s :: 0 <= s < |before| ==>
         if s in insertions then
           && insertions[s] > 0 && Eligible(before[s], item)
           && after[s] == Some(Stack(item, CountStack(before[s], item) + insertions[s]))
         else after[s] == before[s]
  }

  /** Water filling: no slot that received something is more than one unit above another eligible slot. */
  ghost predicate Level(inv: Inventory, slots: set<nat>, item: Item, insertions: map<nat, nat>) {
    forall s, t :: s in insertions && t in slots && s < |inv| && t < |inv| && Eligible(inv[t], item) ==>
      CountStack(inv[s], item) <= CountStack(inv[t], item) + 1
  }

  /** The state of the spreading after k units: what has been inserted is accounted for, the level is even,
      no slot that received something is above the limit, and every unit has used up one unit of room. */
  ghost predicate Spread(before: Inventory, inv: Inventory, slots: set<nat>, item: Item, limit: int,
                         insertions: map<nat, nat>, k: nat)
  {
    && Filled(before, inv, item, insertions) && insertions.Keys <= slots
    && Level(inv, slots, item, insertions)
    && (forall s :: s in insertions ==> s < |inv| && CountStack(inv[s], item) <= limit)
    && k == InsertedBelow(insertions, |inv|)
    && k + RoomBelow(inv, slots, item, limit, |inv|) == RoomBelow(before, slots, item, limit, |before|)
  }

  /** The slot takes no more of the item: it holds another one, or as much of it as it may get. */
  predicate Reached(s: Option<Stack>, item: Item, limit: int) {
    match s
    case None => limit <= 0
    case Some(stack) => stack.item != item || stack.size >= limit
  }

  /** Puts units one by one into the least filled slot, until the sets are done or all slots have got what they may. */
  method Scatter(stacks: array<Option<Stack>>, inputSlots: seq<nat>, item: Item, nSets: nat, maxPerSlot: int)
    returns (nInserted: nat, insertions: map<nat, nat>)
    requires forall s :: s in inputSlots ==> s < stacks.Length
    modifies stacks
    ensures Spread(old(stacks[..]), stacks[..], SetOf(inputSlots), item, Min(maxPerSlot, item.maxSize), insertions,
                   nInserted)
    ensures nInserted == Min(nSets, RoomBelow(old(stacks[..]), SetOf(inputSlots), item, Min(maxPerSlot, item.maxSize),
                                             stacks.Length))
    ensures nInserted <= nSets
    ensures nInserted < nSets ==> forall s :: s in inputSlots ==> Reached(stacks[s], item, Min(maxPerSlot, item.maxSize))
    ensures forall s :: s in insertions ==> s < stacks.Length && stacks[s].Some? && stacks[s].value.item == item
    ensures forall s :: s in insertions && s < stacks.Length ==> CountStack(stacks[s], item) <= Min(maxPerSlot, item.maxSize)
  {
    nInserted, insertions := 0, map[];
    var n: nat := nSets;
    var limit := Min(maxPerSlot, item.maxSize);
    SpreadNone(stacks[..], SetOf(inputSlots), item, limit);
    while n > 0
      invariant n + nInserted == nSets
      invariant Spread(old(stacks[..]), stacks[..], SetOf(inputSlots), item, limit, insertions, nInserted)
    {
      ghost var inv := stacks[..];
      var best := FindSlot(stacks, inputSlots, item, limit);
      if best.None? {
        break;
      }
      SpreadOne(old(stacks[..]), inv, SetOf(inputSlots), item, limit, insertions, nInserted, best.value);
      n, nInserted := n - 1, nInserted + 1;
      insertions := insertions[best.value := At(insertions, best.value) + 1];
      PutOne(stacks, best.value, item);
    }
  }

  lemma SpreadNone(inv: Inventory, slots: set<nat>, item: Item, limit: int)
    ensures Spread(inv, inv, slots, item, limit, map[], 0)
  {
    NothingInserted(|inv|);
  }

  /** The slot for the next unit; None means that there is no room left. */
  method FindSlot(stacks: array<Option<Stack>>, inputSlots: seq<nat>, item: Item, limit: int)
    returns (best: Option<nat>)
    requires forall s :: s in inputSlots ==> s < stacks.Length
    ensures best.None? ==> RoomBelow(stacks[..], SetOf(inputSlots), item, limit, stacks.Length) == 0
    ensures best.None? ==> forall s :: s in inputSlots ==> Reached(stacks[s], item, limit)
    ensures best.Some? ==>
      && LeastFilled(stacks[..], SetOf(inputSlots), item, best.value)
      && CountStack(stacks[best.value], item) < limit
  {
    var found := FindBest(stacks, inputSlots, item);
    if found.None? || found.value.1 >= limit {
      assert Stuck(stacks[..], SetOf(inputSlots), item, limit);
      NoRoomLeft(stacks[..], SetOf(inputSlots), item, limit, stacks.Length);
      return None;
    }
    return Some(found.value.0);
  }

  method PutOne(stacks: array<Option<Stack>>, slot: nat, item: Item)
    requires slot < stacks.Length && Eligible(stacks[slot], item)
    modifies stacks
    ensures stacks[..] == old(stacks[..])[slot := Some(Stack(item, CountStack(old(stacks[slot]), item) + 1))]
  {
    match stacks[slot]
    case Some(stack) => stacks[slot] := Some(stack.(size := stack.size + 1));
    case None => stacks[slot] := Some(Stack(item, 1));
  }

  lemma SpreadOne(before: Inventory, inv: Inventory, slots: set<nat>, item: Item, limit: int,
                  insertions: map<nat, nat>, k: nat, slot: nat)
    requires Spread(before, inv, slots, item, limit, insertions, k)
    requires LeastFilled(inv, slots, item, slot) && CountStack(inv[slot], item) < limit
    ensures Spread(before, inv[slot := Some(Stack(item, CountStack(inv[slot], item) + 1))], slots, item, limit,
                   insertions[slot := At(insertions, slot) + 1], k + 1)
  {
    var inv' := inv[slot := Some(Stack(item, CountStack(inv[slot], item) + 1))];
    var insertions' := insertions[slot := At(insertions, slot) + 1];
    RoomShrinks(inv, slots, item, limit, slot, |inv|);
    InsertedGrows(insertions, slot, |inv|);
    FilledOne(before, inv, item, insertions, slot);
    LevelOne(inv, slots, item, insertions, slot);
    assert forall s :: s in insertions' ==> s < |inv'| && CountStack(inv'[s], item) <= limit;
  }

  lemma FilledOne(before: Inventory, inv: Inventory, item: Item, insertions: map<nat, nat>, slot: nat)
    requires Filled(before, inv, item, insertions) && slot < |inv| && Eligible(inv[slot], item)
    ensures Filled(before, inv[slot := Some(Stack(item, CountStack(inv[slot], item) + 1))], item,
                   insertions[slot := At(insertions, slot) + 1])
  {}

  lemma LevelOne(inv: Inventory, slots: set<nat>, item: Item, insertions: map<nat, nat>, slot: nat)
    requires Level(inv, slots, item, insertions) && LeastFilled(inv, slots, item, slot)
    ensures Level(inv[slot := Some(Stack(item, CountStack(inv[slot], item) + 1))], slots, item,
                  insertions[slot := At(insertions, slot) + 1])
  {}
}
