/** A chest as the program sees it and as it is (server/RustImpl/src/storage/chest.rs, and deposit_item in
    server/RustImpl/src/factory.rs). The program keeps a shadow of each slot; extractions and deposits that
    are under way make it differ from the real content. */
module Chest {
  import opened Common
  import opened Items
  import opened Placement

  const I32_MIN: int := -0x8000_0000

  /** What deposits into a slot do to its shadow: a stack is filled up, an empty slot takes everything. */
  function Accepted(shadow: Option<Stack>, size: nat): nat {
    match shadow
    case None => size
    case Some(x) => if x.size >= x.item.maxSize then 0 else Min(size, x.item.maxSize - x.size)
  }

  function Deposited(shadow: Option<Stack>, item: Item, size: nat): Option<Stack> {
    match shadow
    case None => Some(Stack(item, size))
    case Some(x) => Some(x.(size := x.size + Accepted(shadow, size)))
  }

  /** A finished extraction takes its size off the shadow; nothing left means that the slot is empty. */
  function Reduced(stack: Stack, size: nat): Option<Stack> {
    if stack.size <= size then None else Some(stack.(size := stack.size - size))
  }

  predicate HasRoom(s: Option<Stack>, item: Item) {
    s.Some? && s.value.item == item && s.value.size < item.maxSize
  }

  /** Where a deposit goes: the fullest stack of the item that is not full, the first one among equals; without
      such a stack, the last empty slot. */
  ghost predicate Target(stacks: Inventory, item: Item, slot: nat, priority: int) {
    slot < |stacks|
    && if HasRoom(stacks[slot], item) then
         && priority == stacks[slot].value.size
         && (forall s :: 0 <= s < |stacks| && HasRoom(stacks[s], item) ==> stacks[s].value.size <= priority)
         && (forall s :: 0 <= s < slot && HasRoom(stacks[s], item) ==> stacks[s].value.size < priority)
       else
         && stacks[slot].None? && priority == I32_MIN + 1
         && (forall s :: 0 <= s < |stacks| ==> !HasRoom(stacks[s], item))
         && (forall s :: slot < s < |stacks| ==> stacks[s].Some?)
  }

  class ChestStorage {
    var stacks: Inventory
    var invSlotToDeposit: nat

    constructor ()
      ensures stacks == []
    {
      stacks, invSlotToDeposit := [], 0;
    }

    method DepositPriority(item: Item) returns (priority: Option<int>)
      modifies this`invSlotToDeposit
      ensures priority.Some? ==> Target(stacks, item, invSlotToDeposit, priority.value)
      ensures priority.None? ==> forall s :: 0 <= s < |stacks| ==> stacks[s].Some? && !HasRoom(stacks[s], item)
    {
      var emptySlot: Option<nat> := None;
      var sizeOfBestSlot: Option<nat> := None;
      for slot := 0 to |stacks|
        invariant emptySlot.None? ==> forall s :: 0 <= s < slot ==> stacks[s].Some?
        invariant emptySlot.Some? ==>
          && emptySlot.value < slot && stacks[emptySlot.value].None?
          && forall s :: emptySlot.value < s < slot ==> stacks[s].Some?
        invariant sizeOfBestSlot.None? ==> forall s :: 0 <= s < slot ==> !HasRoom(stacks[s], item)
        invariant sizeOfBestSlot.Some? ==>
          && invSlotToDeposit < slot && HasRoom(stacks[invSlotToDeposit], item)
          && stacks[invSlotToDeposit].value.size == sizeOfBestSlot.value
          && (forall s :: 0 <= s < slot && HasRoom(stacks[s], item) ==> stacks[s].value.size <= sizeOfBestSlot.value)
          && (forall s :: 0 <= s < invSlotToDeposit && HasRoom(stacks[s], item) ==>
                stacks[s].value.size < sizeOfBestSlot.value)
      {
        match stacks[slot] {
          case Some(stack) =>
            if stack.item == item && stack.size < item.maxSize {
              if sizeOfBestSlot.None? || stack.size > sizeOfBestSlot.value {
                sizeOfBestSlot := Some(stack.size);
                invSlotToDeposit := slot;
              }
            }
          case None =>
            emptySlot := Some(slot);
        }
      }
      if sizeOfBestSlot.Some? {
        return Some(sizeOfBestSlot.value);
      }
      if emptySlot.Some? {
        invSlotToDeposit := emptySlot.value;
        return Some(I32_MIN + 1);
      }
      return None;
    }

    /** Deposits into the slot that was chosen last, of which the caller knows that the item may go there. */
    method Deposit(item: Item, size: nat) returns (nDeposited: nat)
      requires invSlotToDeposit < |stacks| && size > 0
      requires stacks[invSlotToDeposit].None? || HasRoom(stacks[invSlotToDeposit], item)
      modifies this`stacks
      ensures nDeposited == Accepted(old(stacks)[invSlotToDeposit], size) && 0 < nDeposited <= size
      ensures stacks == old(stacks)[invSlotToDeposit := Deposited(old(stacks)[invSlotToDeposit], item, size)]
      ensures stacks[invSlotToDeposit].Some?
      ensures old(stacks)[invSlotToDeposit].None? ==>
        nDeposited == size && stacks[invSlotToDeposit].value == Stack(item, size)
      ensures old(stacks)[invSlotToDeposit].Some? ==>
        && stacks[invSlotToDeposit].value == Stack(item, old(stacks)[invSlotToDeposit].value.size + nDeposited)
        && (nDeposited < size ==> stacks[invSlotToDeposit].value.size == item.maxSize)
    {
      match stacks[invSlotToDeposit] {
        case Some(stack) =>
          nDeposited := Min(size, stack.item.maxSize - stack.size);
          stacks := stacks[invSlotToDeposit := Some(stack.(size := stack.size + nDeposited))];
        case None =>
          nDeposited := size;
          stacks := stacks[invSlotToDeposit := Some(Stack(item, size))];
      }
    }

    /** An extraction has been carried out. The program relies on the slot's shadow not being empty. */
    method FinishExtraction(slot: nat, size: nat)
      requires slot < |stacks| && stacks[slot].Some?
      modifies this`stacks
      ensures stacks == old(stacks)[slot := Reduced(old(stacks)[slot].value, size)]
      ensures (if stacks[slot].Some? then stacks[slot].value.size else 0) == Max(0, old(stacks)[slot].value.size - size)
    {
      var stack := stacks[slot].value;
      if stack.size - size <= 0 {
        stacks := stacks[slot := None];
      } else {
        stacks := stacks[slot := Some(stack.(size := stack.size - size))];
      }
    }
  }

  // ----- storing a stack away

  /** A transfer from the bus into slot `slot` of storage number `storage`. */
  datatype Move = Move(storage: nat, slot: nat, amount: nat)

  function Moved(moves: seq<Move>): nat {
    if moves == [] then 0 else Moved(moves[..|moves| - 1]) + moves[|moves| - 1].amount
  }

  /** The slot exists, takes the item, and the amount does not go beyond a full stack. */
  predicate MoveFits(invs: seq<Inventory>, item: Item, move: Move) {
    && move.storage < |invs| && move.slot < |invs[move.storage]| && move.amount > 0
    && match invs[move.storage][move.slot]
       case None => true
       case Some(x) => x.item == item && x.size + move.amount <= item.maxSize
  }

  function ApplyMove(invs: seq<Inventory>, item: Item, move: Move): (r: seq<Inventory>)
    ensures |r| == |invs|
  {
    if !MoveFits(invs, item, move) then invs
    else
      var inv := invs[move.storage];
      invs[move.storage := inv[move.slot := Some(Stack(item, CountStack(inv[move.slot], item) + move.amount))]]
  }

  function ApplyMoves(invs: seq<Inventory>, item: Item, moves: seq<Move>): (r: seq<Inventory>)
    ensures |r| == |invs|
    decreases |moves|
  {
    if moves == [] then invs
    else ApplyMove(ApplyMoves(invs, item, moves[..|moves| - 1]), item, moves[|moves| - 1])
  }

  predicate MovesFit(invs: seq<Inventory>, item: Item, moves: seq<Move>)
    decreases |moves|
  {
    moves != [] ==>
      && MovesFit(invs, item, moves[..|moves| - 1])
      && MoveFits(ApplyMoves(invs, item, moves[..|moves| - 1]), item, moves[|moves| - 1])
  }

  function CountAll(invs: seq<Inventory>, x: Item): nat {
    if invs == [] then 0 else Count(invs[0], x) + CountAll(invs[1..], x)
  }

  lemma {:induction false} CountAllUpdate(invs: seq<Inventory>, i: nat, inv: Inventory, x: Item)
    requires i < |invs|
    ensures CountAll(invs[i := inv], x) + Count(invs[i], x) == CountAll(invs, x) + Count(inv, x)
    decreases |invs|
  {
    if i == 0 {
      assert invs[i := inv][1..] == invs[1..];
    } else {
      assert invs[i := inv][1..] == invs[1..][i - 1 := inv];
      CountAllUpdate(invs[1..], i - 1, inv, x);
    }
  }

  /** The moves add exactly what they move, and only of their item. */
  lemma {:induction false} MovesConserve(invs: seq<Inventory>, item: Item, moves: seq<Move>, x: Item)
    requires MovesFit(invs, item, moves)
    ensures CountAll(ApplyMoves(invs, item, moves), x) == CountAll(invs, x) + (if x == item then Moved(moves) else 0)
    decreases |moves|
  {
    if moves != [] {
      var init, move := moves[..|moves| - 1], moves[|moves| - 1];
      MovesConserve(invs, item, init, x);
      var before := ApplyMoves(invs, item, init);
      var inv := before[move.storage];
      var s := Some(Stack(item, CountStack(inv[move.slot], item) + move.amount));
      CountUpdate(inv, move.slot, s, x);
      CountAllUpdate(before, move.storage, inv[move.slot := s], x);
    }
  }

  predicate NoneTakes(inv: Inventory, item: Item) {
    forall s :: 0 <= s < |inv| ==> inv[s].Some? && !HasRoom(inv[s], item)
  }

  ghost predicate HasPriority(inv: Inventory, item: Item, priority: int) {
    exists slot :: Target(inv, item, slot, priority)
  }

  lemma PriorityIsUnique(inv: Inventory, item: Item, slot: nat, priority: int)
    requires Target(inv, item, slot, priority)
    ensures forall q :: HasPriority(inv, item, q) ==> q == priority
  {
    forall q | HasPriority(inv, item, q) ensures q == priority {
      var t :| Target(inv, item, t, q);
    }
  }

  lemma NoPriority(inv: Inventory, item: Item)
    requires NoneTakes(inv, item)
    ensures forall q :: !HasPriority(inv, item, q)
  {}

  ghost predicate Different(storages: seq<ChestStorage>) {
    forall i, j :: 0 <= i < j < |storages| ==> storages[i] != storages[j]
  }

  function Shadows(storages: seq<ChestStorage>): (invs: seq<Inventory>)
    reads storages
    ensures |invs| == |storages| && forall i :: 0 <= i < |storages| ==> invs[i] == storages[i].stacks
  {
    seq(|storages|, i requires 0 <= i < |storages| reads storages => storages[i].stacks)
  }

  /** The chosen storage has the highest priority for the item, and is the first one that has it. */
  ghost predicate Preferred(invs: seq<Inventory>, item: Item, best: nat, priority: int) {
    forall i, q :: 0 <= i < |invs| && HasPriority(invs[i], item, q) ==> q <= priority && (i < best ==> q < priority)
  }

  /** The storage for the next part of the item, with the slot it has chosen; None if nobody takes any of it. */
  method Choose(storages: seq<ChestStorage>, item: Item) returns (best: Option<(nat, int)>)
    requires Different(storages)
    modifies set i | 0 <= i < |storages| :: storages[i]
    ensures Shadows(storages) == old(Shadows(storages))
    ensures best.None? ==> forall i :: 0 <= i < |storages| ==> NoneTakes(storages[i].stacks, item)
    ensures best.Some? ==>
      && best.value.0 < |storages|
      && Target(storages[best.value.0].stacks, item, storages[best.value.0].invSlotToDeposit, best.value.1)
      && Preferred(Shadows(storages), item, best.value.0, best.value.1)
      && Fullest(Shadows(storages), item, storages[best.value.0].stacks, storages[best.value.0].invSlotToDeposit)
  {
    best := None;
    ghost var invs := Shadows(storages);
    for k := 0 to |storages|
      invariant Shadows(storages) == invs
      invariant best.None? ==> forall i :: 0 <= i < k ==> NoneTakes(invs[i], item)
      invariant best.Some? ==>
        && best.value.0 < k
        && Target(invs[best.value.0], item, storages[best.value.0].invSlotToDeposit, best.value.1)
        && Preferred(invs[..k], item, best.value.0, best.value.1)
    {
      var priority := storages[k].DepositPriority(item);
      assert invs[..k + 1] == invs[..k] + [invs[k]];
      if priority.Some? {
        PriorityIsUnique(invs[k], item, storages[k].invSlotToDeposit, priority.value);
        if best.None? {
          forall i | 0 <= i < k ensures forall q :: !HasPriority(invs[i], item, q) {
            NoPriority(invs[i], item);
          }
        }
        if best.None? || priority.value > best.value.1 {
          best := Some((k, priority.value));
        }
      } else {
        NoPriority(invs[k], item);
      }
    }
    assert invs[..|storages|] == invs;
    if best.Some? {
      PreferredIsFullest(invs, item, best.value.0, storages[best.value.0].invSlotToDeposit, best.value.1);
    }
  }

  /** No storage has a fuller stack that still takes some of the item; an empty slot is chosen only if there is no such stack. */
  ghost predicate Fullest(invs: seq<Inventory>, item: Item, inv: Inventory, slot: nat) {
    slot < |inv| && forall i, s :: 0 <= i < |invs| && 0 <= s < |invs[i]| && HasRoom(invs[i][s], item) ==>
      HasRoom(inv[slot], item) && invs[i][s].value.size <= inv[slot].value.size
  }

  /** The first of the fullest stacks with room below n. */
  lemma {:induction false} FullestStack(inv: Inventory, item: Item, n: nat) returns (top: nat)
    requires n <= |inv| && exists s :: 0 <= s < n && HasRoom(inv[s], item)
    ensures top < n && HasRoom(inv[top], item)
    ensures forall s :: 0 <= s < n && HasRoom(inv[s], item) ==> inv[s].value.size <= inv[top].value.size
    ensures forall s :: 0 <= s < top && HasRoom(inv[s], item) ==> inv[s].value.size < inv[top].value.size
    decreases n
  {
    if exists s :: 0 <= s < n - 1 && HasRoom(inv[s], item) {
      top := FullestStack(inv, item, n - 1);
      if HasRoom(inv[n - 1], item) && inv[n - 1].value.size > inv[top].value.size {
        top := n - 1;
      }
    } else {
      top := n - 1;
    }
  }

  lemma PreferredIsFullest(invs: seq<Inventory>, item: Item, best: nat, slot: nat, priority: int)
    requires best < |invs| && Target(invs[best], item, slot, priority) && Preferred(invs, item, best, priority)
    ensures Fullest(invs, item, invs[best], slot)
  {
    forall i, s | 0 <= i < |invs| && 0 <= s < |invs[i]| && HasRoom(invs[i][s], item)
      ensures HasRoom(invs[best][slot], item) && invs[i][s].value.size <= invs[best][slot].value.size
    {
      var top := FullestStack(invs[i], item, |invs[i]|);
      assert Target(invs[i], item, top, invs[i][top].value.size);
      assert HasPriority(invs[i], item, invs[i][top].value.size);
    }
  }

  lemma MovesSnoc(invs: seq<Inventory>, item: Item, moves: seq<Move>, move: Move)
    ensures Moved(moves + [move]) == Moved(moves) + move.amount
    ensures ApplyMoves(invs, item, moves + [move]) == ApplyMove(ApplyMoves(invs, item, moves), item, move)
    ensures MovesFit(invs, item, moves) && MoveFits(ApplyMoves(invs, item, moves), item, move) ==>
      MovesFit(invs, item, moves + [move])
  {
    assert (moves + [move])[..|moves|] == moves;
  }

  lemma DepositIsMove(invs: seq<Inventory>, item: Item, k: nat, slot: nat, priority: int, size: nat)
    requires k < |invs| && Target(invs[k], item, slot, priority) && 0 < size <= item.maxSize
    ensures var move := Move(k, slot, Accepted(invs[k][slot], size));
      && MoveFits(invs, item, move) && move.amount <= size
      && ApplyMove(invs, item, move) == invs[k := invs[k][slot := Deposited(invs[k][slot], item, size)]]
  {}

  /** Deposits into the slot that storage k has chosen. */
  method DepositAt(storages: seq<ChestStorage>, k: nat, item: Item, size: nat) returns (n: nat)
    requires Different(storages) && k < |storages| && size > 0
    requires storages[k].invSlotToDeposit < |storages[k].stacks|
    requires var s := storages[k].stacks[storages[k].invSlotToDeposit]; s.None? || HasRoom(s, item)
    modifies storages[k]
    ensures var invs, slot := old(Shadows(storages)), old(storages[k].invSlotToDeposit);
      && n == Accepted(invs[k][slot], size)
      && Shadows(storages) == invs[k := invs[k][slot := Deposited(invs[k][slot], item, size)]]
  {
    n := storages[k].Deposit(item, size);
  }

  /** One round of storing: chooses a storage and deposits what it takes. */
  method DepositSome(storages: seq<ChestStorage>, item: Item, rest: nat) returns (move: Option<Move>)
    requires Different(storages) && 0 < rest <= item.maxSize
    modifies set i | 0 <= i < |storages| :: storages[i]
    ensures move.None? ==>
      && Shadows(storages) == old(Shadows(storages))
      && forall i :: 0 <= i < |storages| ==> NoneTakes(storages[i].stacks, item)
    ensures move.Some? ==>
      && MoveFits(old(Shadows(storages)), item, move.value) && move.value.amount <= rest
      && Shadows(storages) == ApplyMove(old(Shadows(storages)), item, move.value)
  {
    var best := Choose(storages, item);
    if best.None? {
      return None;
    }
    var k, slot := best.value.0, storages[best.value.0].invSlotToDeposit;
    DepositIsMove(Shadows(storages), item, k, slot, best.value.1, rest);
    var n := DepositAt(storages, k, item, rest);
    return Some(Move(k, slot, n));
  }

  /** Spreads a stack over the storages. Every planned transfer goes to a slot that takes it; the plan covers the
      whole stack unless in the end no storage takes any of the item. */
  method DepositItem(storages: seq<ChestStorage>, item: Item, size: nat) returns (moves: seq<Move>, full: bool)
    requires Different(storages) && size <= item.maxSize
    modifies set i | 0 <= i < |storages| :: storages[i]
    ensures MovesFit(old(Shadows(storages)), item, moves)
    ensures Shadows(storages) == ApplyMoves(old(Shadows(storages)), item, moves)
    ensures Moved(moves) <= size && (full <==> Moved(moves) < size)
    ensures full ==> forall i :: 0 <= i < |storages| ==> NoneTakes(storages[i].stacks, item)
  {
    moves, full := [], false;
    var rest: nat := size;
    ghost var invs := Shadows(storages);
    while rest > 0
      invariant !full && rest + Moved(moves) == size
      invariant MovesFit(invs, item, moves) && Shadows(storages) == ApplyMoves(invs, item, moves)
    {
      var move := DepositSome(storages, item, rest);
      if move.None? {
        full := true;
        break;
      }
      MovesSnoc(invs, item, moves, move.value);
      moves := moves + [move.value];
      rest := rest - move.value.amount;
    }
  }

  // ----- one slot, with everything that is under way

  /** Names a transfer: the bus ticket it belongs to, and which of its transfers it is. */
  datatype Tag = Tag(ticket: nat, serial: nat)

  /** An extraction promised to a job; `moved` once the items have left the chest but the program does not know yet. */
  datatype Pull = Pull(amount: nat, moved: bool, tag: Tag)

  /** A deposit that has been planned or sent off, by a job or by the background task, which has no ticket. Its items may
      arrive in part or not at all. */
  datatype Put = Put(item: Item, amount: nat, tag: Option<Tag>)

  /** `offered` is what the slot's provider has not yet promised to anybody, and `kind` the item it is listed under. */
  datatype Slot = Slot(shadow: Option<Stack>, phys: Option<Stack>, kind: Item, offered: nat, pulls: seq<Pull>, puts: seq<Put>)

  datatype SlotEvent =
    | Reserve(amount: nat, tag: Tag)
    | Extract(k: nat)
    | ExtractFails(k: nat, moved: nat)
    | Acknowledge(k: nat)
    | Deposit(item: Item, size: nat, sender: Option<Tag>)
    | Arrive(k: nat, moved: nat)
    | Consume(n: nat)

  function SizeOf(s: Option<Stack>): nat { if s.Some? then s.value.size else 0 }

  /** What has been promised and not yet acknowledged. */
  function Promised(pulls: seq<Pull>): nat {
    if pulls == [] then 0 else pulls[0].amount + Promised(pulls[1..])
  }

  /** What has been promised and is still in the chest. */
  function Unmoved(pulls: seq<Pull>): nat {
    if pulls == [] then 0 else (if pulls[0].moved then 0 else pulls[0].amount) + Unmoved(pulls[1..])
  }

  function Coming(puts: seq<Put>): nat {
    if puts == [] then 0 else puts[0].amount + Coming(puts[1..])
  }

  /** The listing has just been read, and the slot's stack offered as a whole. */
  function Listed(s: Option<Stack>): Slot {
    Slot(s, s, if s.Some? then s.value.item else JAMMER, SizeOf(s), [], [])
  }

  /** The real slot loses items; an empty stack is no stack. */
  function Without(s: Option<Stack>, n: nat): Option<Stack> {
    if s.None? || n == 0 then s else Reduced(s.value, n)
  }

  /** How much the real slot lets in: nothing next to another kind of item. */
  function Room(s: Option<Stack>, item: Item): nat {
    match s
    case None => item.maxSize
    case Some(x) => if x.item == item && x.size < item.maxSize then item.maxSize - x.size else 0
  }

  function With(s: Option<Stack>, item: Item, n: nat): Option<Stack> {
    if n == 0 then s else Some(Stack(item, SizeOf(s) + n))
  }

  /** A real transfer moves at most what is there and what has room. The program sends a deposit only where the
      shadow takes it; an extraction is acknowledged whatever the shadow says. A machine uses up what lies in a slot of
      its own, from which nothing is promised. */
  predicate Enabled(s: Slot, e: SlotEvent) {
    match e
    case Reserve(amount, tag) => 0 < amount <= s.offered
    case Extract(k) => k < |s.pulls| && !s.pulls[k].moved
    case ExtractFails(k, moved) =>
      k < |s.pulls| && !s.pulls[k].moved && moved <= Min(s.pulls[k].amount, SizeOf(s.phys))
    case Acknowledge(k) => k < |s.pulls| && s.pulls[k].moved
    case Deposit(item, size, sender) => 0 < size <= item.maxSize && (s.shadow.None? || HasRoom(s.shadow, item))
    case Arrive(k, moved) => k < |s.puts| && moved <= Min(s.puts[k].amount, Room(s.phys, s.puts[k].item))
    case Consume(n) => s.offered == 0 && s.pulls == [] && n <= SizeOf(s.phys)
  }

  function Step(s: Slot, e: SlotEvent): Slot
    requires Enabled(s, e)
  {
    match e
    case Reserve(amount, tag) => s.(offered := s.offered - amount, pulls := s.pulls + [Pull(amount, false, tag)])
    case Extract(k) =>
      s.(phys := Without(s.phys, s.pulls[k].amount), pulls := s.pulls[k := s.pulls[k].(moved := true)])
    case ExtractFails(k, moved) => s.(phys := Without(s.phys, moved), pulls := RemoveAt(s.pulls, k))
    case Acknowledge(k) =>
      s.(shadow := if s.shadow.Some? then Reduced(s.shadow.value, s.pulls[k].amount) else None,
         pulls := RemoveAt(s.pulls, k))
    case Deposit(item, size, sender) =>
      s.(shadow := Deposited(s.shadow, item, size), puts := s.puts + [Put(item, Accepted(s.shadow, size), sender)])
    case Arrive(k, moved) => s.(phys := With(s.phys, s.puts[k].item, moved), puts := RemoveAt(s.puts, k))
    case Consume(n) => s.(phys := Without(s.phys, n))
  }

  /** Real stacks are neither empty nor larger than the game allows. */
  predicate Legal(s: Option<Stack>) {
    s.Some? ==> 0 < s.value.size <= s.value.item.maxSize
  }

  /** Everything in the slot, promised from it or on its way to it is of the shadow's kind. */
  ghost predicate OneKind(s: Slot) {
    && (s.phys.Some? ==> s.shadow.Some? && s.phys.value.item == s.shadow.value.item)
    && (s.offered > 0 || s.pulls != [] ==> s.shadow.Some? && s.shadow.value.item == s.kind)
    && (forall i :: 0 <= i < |s.puts| ==> s.shadow.Some? && s.puts[i].item == s.shadow.value.item)
  }

  /** The shadow is at least what is there, plus what has left unnoticed, plus what is still to come. What is there
      covers all promises and offers. Nothing is beyond a full stack. */
  ghost predicate Bracket(s: Slot) {
    && Legal(s.shadow) && Legal(s.phys) && OneKind(s)
    && (forall i :: 0 <= i < |s.pulls| ==> s.pulls[i].amount > 0)
    && (forall i :: 0 <= i < |s.puts| ==> s.puts[i].amount > 0)
    && SizeOf(s.phys) + (Promised(s.pulls) - Unmoved(s.pulls)) + Coming(s.puts) <= SizeOf(s.shadow)
    && s.offered + Unmoved(s.pulls) <= SizeOf(s.phys)
  }

  lemma {:induction false} PullsAppend(xs: seq<Pull>, ys: seq<Pull>)
    ensures Promised(xs + ys) == Promised(xs) + Promised(ys)
    ensures Unmoved(xs + ys) == Unmoved(xs) + Unmoved(ys)
    decreases |xs|
  {
    if xs == [] {
      assert xs + ys == ys;
    } else {
      assert (xs + ys)[1..] == xs[1..] + ys;
      PullsAppend(xs[1..], ys);
    }
  }

  lemma PullsAt(pulls: seq<Pull>, k: nat, p: Pull)
    requires k < |pulls|
    ensures Promised(RemoveAt(pulls, k)) + pulls[k].amount == Promised(pulls)
    ensures Unmoved(RemoveAt(pulls, k)) + (if pulls[k].moved then 0 else pulls[k].amount) == Unmoved(pulls)
    ensures Promised(pulls[k := p]) == Promised(RemoveAt(pulls, k)) + p.amount
    ensures Unmoved(pulls[k := p]) == Unmoved(RemoveAt(pulls, k)) + (if p.moved then 0 else p.amount)
  {
    var before, after := pulls[..k], pulls[k + 1..];
    assert pulls == before + ([pulls[k]] + after);
    assert pulls[k := p] == before + ([p] + after);
    PullsAppend(before, [pulls[k]] + after);
    PullsAppend(before, [p] + after);
    PullsAppend(before, after);
  }

  lemma {:induction false} PutsAppend(xs: seq<Put>, ys: seq<Put>)
    ensures Coming(xs + ys) == Coming(xs) + Coming(ys)
    decreases |xs|
  {
    if xs == [] {
      assert xs + ys == ys;
    } else {
      assert (xs + ys)[1..] == xs[1..] + ys;
      PutsAppend(xs[1..], ys);
    }
  }

  lemma {:induction false} PutsAt(puts: seq<Put>, k: nat)
    requires k < |puts|
    ensures Coming(RemoveAt(puts, k)) + puts[k].amount == Coming(puts)
    decreases |puts|
  {
    if k == 0 {
      assert RemoveAt(puts, k) == puts[1..];
    } else {
      assert RemoveAt(puts, k)[1..] == RemoveAt(puts[1..], k - 1);
      PutsAt(puts[1..], k - 1);
    }
  }

  lemma {:induction false} UnmovedArePromised(pulls: seq<Pull>)
    ensures Unmoved(pulls) <= Promised(pulls)
    decreases |pulls|
  {
    if pulls != [] {
      UnmovedArePromised(pulls[1..]);
    }
  }

  /** What the program relies on when an extraction is acknowledged: the shadow is there and large enough. */
  lemma AcknowledgedIsThere(s: Slot, k: nat)
    requires Bracket(s) && k < |s.pulls| && s.pulls[k].moved
    ensures s.shadow.Some? && s.shadow.value.item == s.kind && s.pulls[k].amount <= s.shadow.value.size
  {
    PullsAt(s.pulls, k, s.pulls[k]);
    UnmovedArePromised(RemoveAt(s.pulls, k));
  }

  /** A promised extraction finds its items. */
  lemma PromisedIsThere(s: Slot, k: nat)
    requires Bracket(s) && k < |s.pulls| && !s.pulls[k].moved
    ensures s.phys.Some? && s.phys.value.item == s.kind && s.pulls[k].amount <= s.phys.value.size
  {
    PullsAt(s.pulls, k, s.pulls[k]);
  }

  /** A deposit on its way has room for all of its items. */
  lemma ComingHasRoom(s: Slot, k: nat)
    requires Bracket(s) && k < |s.puts|
    ensures s.puts[k].amount <= Room(s.phys, s.puts[k].item)
  {
    PutsAt(s.puts, k);
    UnmovedArePromised(s.pulls);
  }

  lemma ReserveBracket(s: Slot, amount: nat, tag: Tag)
    requires Bracket(s) && Enabled(s, Reserve(amount, tag))
    ensures Bracket(Step(s, Reserve(amount, tag)))
  {
    PullsAppend(s.pulls, [Pull(amount, false, tag)]);
  }

  lemma ExtractBracket(s: Slot, k: nat)
    requires Bracket(s) && Enabled(s, Extract(k))
    ensures Bracket(Step(s, Extract(k)))
  {
    PromisedIsThere(s, k);
    PullsAt(s.pulls, k, s.pulls[k].(moved := true));
  }

  lemma RemovedPulls(pulls: seq<Pull>, k: nat)
    requires k < |pulls| && forall i :: 0 <= i < |pulls| ==> pulls[i].amount > 0
    ensures forall i :: 0 <= i < |RemoveAt(pulls, k)| ==> RemoveAt(pulls, k)[i].amount > 0
    ensures RemoveAt(pulls, k) != [] ==> Promised(RemoveAt(pulls, k)) > 0
  {}

  lemma ExtractFailsBracket(s: Slot, k: nat, moved: nat)
    requires Bracket(s) && Enabled(s, ExtractFails(k, moved))
    ensures Bracket(Step(s, ExtractFails(k, moved)))
  {
    PromisedIsThere(s, k);
    PullsAt(s.pulls, k, s.pulls[k]);
    RemovedPulls(s.pulls, k);
  }

  lemma AcknowledgeBracket(s: Slot, k: nat)
    requires Bracket(s) && Enabled(s, Acknowledge(k))
    ensures Bracket(Step(s, Acknowledge(k)))
  {
    AcknowledgedIsThere(s, k);
    PullsAt(s.pulls, k, s.pulls[k]);
    RemovedPulls(s.pulls, k);
    UnmovedArePromised(RemoveAt(s.pulls, k));
    NothingComing(s.puts);
  }

  lemma NothingComing(puts: seq<Put>)
    requires forall i :: 0 <= i < |puts| ==> puts[i].amount > 0
    ensures Coming(puts) == 0 ==> puts == []
  {}

  lemma DepositBracket(s: Slot, item: Item, size: nat, sender: Option<Tag>)
    requires Bracket(s) && Enabled(s, Deposit(item, size, sender))
    ensures Bracket(Step(s, Deposit(item, size, sender)))
  {
    PutsAppend(s.puts, [Put(item, Accepted(s.shadow, size), sender)]);
    UnmovedArePromised(s.pulls);
  }

  lemma ArriveBracket(s: Slot, k: nat, moved: nat)
    requires Bracket(s) && Enabled(s, Arrive(k, moved))
    ensures Bracket(Step(s, Arrive(k, moved)))
  {
    ComingHasRoom(s, k);
    ArriveSums(s, k, moved);
    UnmovedArePromised(s.pulls);
    RemovedPuts(s.puts, k);
  }

  lemma ArriveSums(s: Slot, k: nat, moved: nat)
    requires Bracket(s) && Enabled(s, Arrive(k, moved))
    ensures SizeOf(With(s.phys, s.puts[k].item, moved)) == SizeOf(s.phys) + moved
    ensures Coming(RemoveAt(s.puts, k)) + s.puts[k].amount == Coming(s.puts)
    ensures Legal(With(s.phys, s.puts[k].item, moved))
  {
    PutsAt(s.puts, k);
  }

  lemma RemovedPuts(puts: seq<Put>, k: nat)
    requires k < |puts| && forall i :: 0 <= i < |puts| ==> puts[i].amount > 0
    ensures forall i :: 0 <= i < |RemoveAt(puts, k)| ==> RemoveAt(puts, k)[i].amount > 0 && RemoveAt(puts, k)[i] in puts
  {}

  /** Every step keeps the bracket. */
  lemma StepBracket(s: Slot, e: SlotEvent)
    requires Bracket(s) && Enabled(s, e)
    ensures Bracket(Step(s, e))
  {
    match e
    case Reserve(amount, tag) => ReserveBracket(s, amount, tag);
    case Extract(k) => ExtractBracket(s, k);
    case ExtractFails(k, moved) => ExtractFailsBracket(s, k, moved);
    case Acknowledge(k) => AcknowledgeBracket(s, k);
    case Deposit(item, size, sender) => DepositBracket(s, item, size, sender);
    case Arrive(k, moved) => ArriveBracket(s, k, moved);
    case Consume(n) => {}
  }

  // ----- a whole chest, over whole runs

  datatype ChestEvent = At(slot: nat, event: SlotEvent)

  function ListedAll(listing: Inventory): (r: seq<Slot>)
    ensures |r| == |listing| && forall s :: 0 <= s < |r| ==> r[s] == Listed(listing[s])
  {
    seq(|listing|, s requires 0 <= s < |listing| => Listed(listing[s]))
  }

  function ShadowOf(chest: seq<Slot>): (r: Inventory)
    ensures |r| == |chest| && forall s :: 0 <= s < |r| ==> r[s] == chest[s].shadow
  {
    seq(|chest|, s requires 0 <= s < |chest| => chest[s].shadow)
  }

  predicate CanRun(chest: seq<Slot>, es: seq<ChestEvent>)
    decreases |es|
  {
    es != [] ==>
      && es[0].slot < |chest| && Enabled(chest[es[0].slot], es[0].event)
      && CanRun(chest[es[0].slot := Step(chest[es[0].slot], es[0].event)], es[1..])
  }

  function Run(chest: seq<Slot>, es: seq<ChestEvent>): (r: seq<Slot>)
    requires CanRun(chest, es)
    ensures |r| == |chest|
    decreases |es|
  {
    if es == [] then chest
    else Run(chest[es[0].slot := Step(chest[es[0].slot], es[0].event)], es[1..])
  }

  lemma {:induction false} RunBracket(chest: seq<Slot>, es: seq<ChestEvent>)
    requires CanRun(chest, es) && forall s :: 0 <= s < |chest| ==> Bracket(chest[s])
    ensures forall s :: 0 <= s < |chest| ==> Bracket(Run(chest, es)[s])
    decreases |es|
  {
    if es != [] {
      var slot := es[0].slot;
      StepBracket(chest[slot], es[0].event);
      RunBracket(chest[slot := Step(chest[slot], es[0].event)], es[1..]);
    }
  }

  /** However reservations, extractions and deposits interleave after a listing of legal stacks, in every slot
      the shadow brackets the content, is at most a full stack, and covers all that is promised. */
  lemma ShadowBracketsContent(listing: Inventory, es: seq<ChestEvent>, s: nat)
    requires forall i :: 0 <= i < |listing| ==> Legal(listing[i])
    requires CanRun(ListedAll(listing), es) && s < |listing|
    ensures var x := Run(ListedAll(listing), es)[s];
      && SizeOf(x.phys) + Coming(x.puts) <= SizeOf(x.shadow)
      && x.offered + Promised(x.pulls) <= SizeOf(x.shadow)
      && Legal(x.shadow) && OneKind(x)
  {
    RunBracket(ListedAll(listing), es);
    UnmovedArePromised(Run(ListedAll(listing), es)[s].pulls);
  }

  /** No extraction is acknowledged on an empty shadow, each promised extraction finds its items, and each deposit
      on its way has room, whatever else happened in the chest. */
  lemma TransfersAreSafe(listing: Inventory, es: seq<ChestEvent>, s: nat, k: nat)
    requires forall i :: 0 <= i < |listing| ==> Legal(listing[i])
    requires CanRun(ListedAll(listing), es) && s < |listing|
    ensures var x := Run(ListedAll(listing), es)[s];
      && (Enabled(x, Acknowledge(k)) ==> x.shadow.Some? && x.pulls[k].amount <= x.shadow.value.size)
      && (Enabled(x, Extract(k)) ==> x.phys.Some? && x.phys.value.item == x.kind && x.pulls[k].amount <= x.phys.value.size)
      && (k < |x.puts| ==> x.puts[k].amount <= Room(x.phys, x.puts[k].item))
  {
    RunBracket(ListedAll(listing), es);
    var x := Run(ListedAll(listing), es)[s];
    if Enabled(x, Acknowledge(k)) {
      AcknowledgedIsThere(x, k);
    }
    if Enabled(x, Extract(k)) {
      PromisedIsThere(x, k);
    }
    if k < |x.puts| {
      ComingHasRoom(x, k);
    }
  }

  // ----- runs in which nothing fails

  /** The transfer moves all that it was to move; and no machine uses anything up. */
  predicate Succeeds(s: Slot, e: SlotEvent)
    requires Enabled(s, e)
  {
    !e.ExtractFails? && !e.Consume? && (e.Arrive? ==> e.moved == s.puts[e.k].amount)
  }

  predicate AllSucceed(chest: seq<Slot>, es: seq<ChestEvent>)
    requires CanRun(chest, es)
    decreases |es|
  {
    es != [] ==>
      && Succeeds(chest[es[0].slot], es[0].event)
      && AllSucceed(chest[es[0].slot := Step(chest[es[0].slot], es[0].event)], es[1..])
  }

  /** The shadow is what lies in the slot, what has left it without the program knowing, and what is on its way. */
  ghost predicate Exact(s: Slot) {
    SizeOf(s.shadow) == SizeOf(s.phys) + (Promised(s.pulls) - Unmoved(s.pulls)) + Coming(s.puts)
  }

  lemma ExtractExact(s: Slot, k: nat)
    requires Bracket(s) && Exact(s) && Enabled(s, Extract(k))
    ensures Exact(Step(s, Extract(k)))
  {
    PromisedIsThere(s, k);
    PullsAt(s.pulls, k, s.pulls[k].(moved := true));
  }

  lemma AcknowledgeExact(s: Slot, k: nat)
    requires Bracket(s) && Exact(s) && Enabled(s, Acknowledge(k))
    ensures Exact(Step(s, Acknowledge(k)))
  {
    AcknowledgedIsThere(s, k);
    PullsAt(s.pulls, k, s.pulls[k]);
  }

  lemma DepositExact(s: Slot, item: Item, size: nat, sender: Option<Tag>)
    requires Bracket(s) && Exact(s) && Enabled(s, Deposit(item, size, sender))
    ensures Exact(Step(s, Deposit(item, size, sender)))
  {
    PutsAppend(s.puts, [Put(item, Accepted(s.shadow, size), sender)]);
  }

  lemma StepExact(s: Slot, e: SlotEvent)
    requires Bracket(s) && Exact(s) && Enabled(s, e) && Succeeds(s, e)
    ensures Exact(Step(s, e))
  {
    match e
    case Reserve(amount, tag) => PullsAppend(s.pulls, [Pull(amount, false, tag)]);
    case Extract(k) => ExtractExact(s, k);
    case Acknowledge(k) => AcknowledgeExact(s, k);
    case Deposit(item, size, sender) => DepositExact(s, item, size, sender);
    case Arrive(k, moved) => ArriveSums(s, k, moved);
  }

  lemma {:induction false} RunExact(chest: seq<Slot>, es: seq<ChestEvent>)
    requires CanRun(chest, es) && AllSucceed(chest, es)
    requires forall s :: 0 <= s < |chest| ==> Bracket(chest[s]) && Exact(chest[s])
    ensures forall s :: 0 <= s < |chest| ==> Exact(Run(chest, es)[s])
    decreases |es|
  {
    if es != [] {
      var slot := es[0].slot;
      StepBracket(chest[slot], es[0].event);
      StepExact(chest[slot], es[0].event);
      RunExact(chest[slot := Step(chest[slot], es[0].event)], es[1..]);
    }
  }

  lemma Balanced(s: Slot)
    requires Bracket(s) && Exact(s)
    ensures SizeOf(s.shadow) == SizeOf(s.phys) + (Promised(s.pulls) - Unmoved(s.pulls)) + Coming(s.puts)
    ensures s.pulls == [] && s.puts == [] ==> s.shadow == s.phys
  {}

  /** The shadow is not only a bound: as long as no transfer fails, a slot for which nothing is under way holds just what its
      shadow says. */
  lemma ShadowIsExactAtRest(listing: Inventory, es: seq<ChestEvent>, s: nat, x: Slot)
    requires forall i :: 0 <= i < |listing| ==> Legal(listing[i])
    requires CanRun(ListedAll(listing), es) && AllSucceed(ListedAll(listing), es)
    requires s < |listing| && x == Run(ListedAll(listing), es)[s]
    ensures SizeOf(x.shadow) == SizeOf(x.phys) + (Promised(x.pulls) - Unmoved(x.pulls)) + Coming(x.puts)
    ensures x.pulls == [] && x.puts == [] ==> x.shadow == x.phys
  {
    RunBracket(ListedAll(listing), es);
    RunExact(ListedAll(listing), es);
    Balanced(x);
  }
}
