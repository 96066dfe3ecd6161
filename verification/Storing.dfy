/** The part of bus_update that sends listed stacks off to the storages (server/RustImpl/src/factory.rs). It meets
    what the model of the running bus (BusSystem) expects of an answered listing. */
module Storing {
  import opened Common
  import opened Items
  import Chest
  import BusSystem

  function Sizes(listing: Inventory): (r: seq<nat>)
    ensures |r| == |listing| && forall s :: 0 <= s < |r| ==> r[s] == Chest.SizeOf(listing[s])
  {
    seq(|listing|, s requires 0 <= s < |listing| => Chest.SizeOf(listing[s]))
  }

  /** The moves of one stack as transfers out of its bus slot. */
  function Transfers(slot: nat, moves: seq<Chest.Move>): seq<BusSystem.Transfer> {
    if moves == [] then []
    else Transfers(slot, moves[..|moves| - 1]) + [BusSystem.Transfer(slot, moves[|moves| - 1].amount)]
  }

  lemma {:induction false} PlannedAppend(xs: seq<BusSystem.Transfer>, ys: seq<BusSystem.Transfer>, slot: nat)
    ensures BusSystem.PlannedFor(xs + ys, slot) == BusSystem.PlannedFor(xs, slot) + BusSystem.PlannedFor(ys, slot)
    decreases |xs|
  {
    if xs == [] {
      assert xs + ys == ys;
    } else {
      assert (xs + ys)[1..] == xs[1..] + ys;
      PlannedAppend(xs[1..], ys, slot);
    }
  }

  lemma {:induction false} TransfersPlan(slot: nat, moves: seq<Chest.Move>, s: nat)
    ensures BusSystem.PlannedFor(Transfers(slot, moves), s) == if s == slot then Chest.Moved(moves) else 0
    ensures forall i :: 0 <= i < |Transfers(slot, moves)| ==> Transfers(slot, moves)[i].slot == slot
    decreases |moves|
  {
    if moves != [] {
      var init, last := moves[..|moves| - 1], BusSystem.Transfer(slot, moves[|moves| - 1].amount);
      TransfersPlan(slot, init, s);
      PlannedAppend(Transfers(slot, init), [last], s);
      assert [last][1..] == [];
    }
  }

  /** The plan for the slots below k of a listing. */
  ghost predicate PlanBelow(plan: seq<BusSystem.Transfer>, room: bool, sizes: seq<nat>, allocations: set<nat>, k: nat)
    requires k <= |sizes|
  {
    && (forall i :: 0 <= i < |plan| ==> plan[i].slot < k && plan[i].slot !in allocations && sizes[plan[i].slot] > 0)
    && (room ==> forall s :: 0 <= s < k && s !in allocations ==> BusSystem.PlannedFor(plan, s) == sizes[s])
  }

  lemma {:induction false} NothingPlanned(plan: seq<BusSystem.Transfer>, s: nat)
    requires forall i :: 0 <= i < |plan| ==> plan[i].slot != s
    ensures BusSystem.PlannedFor(plan, s) == 0
    decreases |plan|
  {
    if plan != [] {
      NothingPlanned(plan[1..], s);
    }
  }

  lemma PlanNext(plan: seq<BusSystem.Transfer>, room: bool, sizes: seq<nat>, allocations: set<nat>, k: nat, next: nat,
                 moves: seq<Chest.Move>)
    requires k < |sizes| && next == k + 1 && PlanBelow(plan, room, sizes, allocations, k)
    requires k !in allocations && sizes[k] > 0
    ensures PlanBelow(plan + Transfers(k, moves), room && Chest.Moved(moves) == sizes[k], sizes, allocations, next)
  {
    TransfersPlan(k, moves, k);
    forall s: nat
      ensures BusSystem.PlannedFor(plan + Transfers(k, moves), s)
           == BusSystem.PlannedFor(plan, s) + (if s == k then Chest.Moved(moves) else 0)
    {
      PlannedAppend(plan, Transfers(k, moves), s);
      TransfersPlan(k, moves, s);
    }
    NothingPlanned(plan, k);
  }

  lemma PlanSkips(plan: seq<BusSystem.Transfer>, room: bool, sizes: seq<nat>, allocations: set<nat>, k: nat, next: nat)
    requires k < |sizes| && next == k + 1 && PlanBelow(plan, room, sizes, allocations, k)
    requires k in allocations || sizes[k] == 0
    ensures PlanBelow(plan, room, sizes, allocations, next)
  {
    NothingPlanned(plan, k);
  }

  /** Sends every unallocated listed stack to the storages. Unless one of them finds the storages full, the transfers
      cover all of them; no transfer touches an allocated slot. */
  method StoreListing(storages: seq<Chest.ChestStorage>, listing: Inventory, allocations: set<nat>)
    returns (plan: seq<BusSystem.Transfer>, room: bool)
    requires Chest.Different(storages) && forall s :: 0 <= s < |listing| ==> Chest.Legal(listing[s])
    modifies set i | 0 <= i < |storages| :: storages[i]
    ensures BusSystem.PlanFor(plan, room, Sizes(listing), allocations)
  {
    plan, room := [], true;
    for slot := 0 to |listing|
      invariant PlanBelow(plan, room, Sizes(listing), allocations, slot)
    {
      if slot !in allocations && listing[slot].Some? {
        var moves, full := Chest.DepositItem(storages, listing[slot].value.item, listing[slot].value.size);
        PlanNext(plan, room, Sizes(listing), allocations, slot, slot + 1, moves);
        plan, room := plan + Transfers(slot, moves), room && !full;
      } else {
        PlanSkips(plan, room, Sizes(listing), allocations, slot, slot + 1);
      }
    }
  }
}
