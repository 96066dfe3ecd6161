/** The clients' transfers between the bus and the slots of chests and machines only move items: what one side loses, the other
    gains, and nothing else changes (server/RustImpl/src/storage/chest.rs, lines 130-160; process/slotted.rs, lines 151-193).
    Together with Plant, which shows how much a transfer moves, this says what a job does to the world. */
module Conservation {
  import opened Common
  import opened Items
  import opened Bus
  import opened BusSystem
  import opened JobRuns
  import opened Places
  import opened Plant
  import Chest

  function Content(s: Option<Stack>): nat { if s.Some? then s.value.size else 0 }

  /** So much has gone out of place c into slot x of the bus, or, if negative, the other way; nothing else is different. */
  ghost predicate Moved(places: seq<Chest.Slot>, places': seq<Chest.Slot>, phys: seq<nat>, phys': seq<nat>, c: nat, x: nat, amount: int) {
    && c < |places| == |places'| && x < |phys| == |phys'|
    && phys'[x] == phys[x] + amount && Content(places'[c].phys) == Content(places[c].phys) - amount
    && (forall d :: 0 <= d < |places| && d != c ==> places'[d] == places[d])
    && forall y :: 0 <= y < |phys| && y != x ==> phys'[y] == phys[y]
  }

  lemma BothSides(places: seq<Chest.Slot>, c: nat, s: Chest.Slot, phys: seq<nat>, x: nat, content: nat, amount: int)
    requires c < |places| && x < |phys| && content == phys[x] + amount && Content(s.phys) == Content(places[c].phys) - amount
    ensures Moved(places, places[c := s], phys, phys[x := content], c, x, amount)
  {}

  /** What an event on a slot takes out of it. */
  lemma ExtractTakes(s: Chest.Slot, k: nat, amount: nat)
    requires Chest.Enabled(s, Chest.Extract(k)) && s.pulls[k].amount == amount <= Content(s.phys)
    ensures Content(Chest.Step(s, Chest.Extract(k)).phys) == Content(s.phys) - amount
  {}

  lemma FailureTakes(s: Chest.Slot, k: nat, moved: nat)
    requires Chest.Enabled(s, Chest.ExtractFails(k, moved))
    ensures Content(Chest.Step(s, Chest.ExtractFails(k, moved)).phys) == Content(s.phys) - moved
  {}

  lemma ArrivalAdds(s: Chest.Slot, k: nat, moved: nat)
    requires Chest.Enabled(s, Chest.Arrive(k, moved))
    ensures Content(Chest.Step(s, Chest.Arrive(k, moved)).phys) == Content(s.phys) + moved
    ensures moved > 0 ==> Chest.Step(s, Chest.Arrive(k, moved)).phys.value.item == s.puts[k].item
    ensures s.phys.Some? && moved > 0 ==> s.phys.value.item == s.puts[k].item
  {}

  // ----- the bus's side

  lemma FillBrings(s: System, e: Event)
    requires (e.Fill? || e.FillFails?) && Enabled(s, e)
    ensures Step(s, e).phys
         == s.phys[s.parts[e.t].state.slot := s.phys[s.parts[e.t].state.slot]
                                              + if e.Fill? then Min(PullRoom(s, e.t, e.k), e.there) else e.moved]
  {}

  lemma EmptyTakes(s: System, e: Event)
    requires (e.Empty? || e.EmptyFails?) && Enabled(s, e)
    ensures Step(s, e).phys
         == s.phys[s.parts[e.t].state.slot := s.phys[s.parts[e.t].state.slot]
                                              - if e.Empty? then Min(PushRoom(s, e.t, e.k), e.space) else e.moved]
  {}

  /** The bus takes the step that the transfer is for it. */
  ghost predicate Next(p: Plant, p': Plant, e: Event) { Enabled(Sys(p), e) && Sys(p') == Step(Sys(p), e) }

  lemma TransferIsNext(p: Plant, p': Plant, e: Event)
    requires WorldInv(p.world) && MayHappen(p.world, e) && p'.world == Do(p.world, OnBus(e))
    ensures Next(p, p', e)
  {
    MayHappenRuns(p.world, e);
  }

  lemma InvHasParts(p: Plant)
    requires PlantInv(p)
    ensures WorldInv(p.world) && SlotsOk(p)
  {}

  lemma TransferredTells(p: Plant, p': Plant, e: Event)
    requires Transferred(p, p', e)
    ensures MayHappen(p.world, e) && p'.world == Do(p.world, OnBus(e))
  {}

  lemma PullOnBus(p: Plant, t: Ticket, k: nat)
    requires PlantInv(p) && MayPull(p, t, k)
    ensures Next(p, After(p, Pull(t, k)), Fill(t, k, There(p, t, k)))
  {
    InvHasParts(p);
    PullHappens(p, t, k);
    TransferredTells(p, After(p, Pull(t, k)), Fill(t, k, There(p, t, k)));
    TransferIsNext(p, After(p, Pull(t, k)), Fill(t, k, There(p, t, k)));
  }

  lemma FailedPullOnBus(p: Plant, t: Ticket, k: nat, moved: nat)
    requires PlantInv(p) && May(p, PullFails(t, k, moved))
    ensures Next(p, After(p, PullFails(t, k, moved)), FillFails(t, k, moved))
  {
    InvHasParts(p);
    PullFailsHappens(p, t, k, moved);
    TransferredTells(p, After(p, PullFails(t, k, moved)), FillFails(t, k, moved));
    TransferIsNext(p, After(p, PullFails(t, k, moved)), FillFails(t, k, moved));
  }

  lemma PushOnBus(p: Plant, t: Ticket, k: nat)
    requires PlantInv(p) && MayPush(p, t, k)
    ensures Next(p, After(p, Push(t, k)), Empty(t, k, Space(p, t, k)))
  {
    InvHasParts(p);
    PushHappens(p, t, k);
    TransferredTells(p, After(p, Push(t, k)), Empty(t, k, Space(p, t, k)));
    TransferIsNext(p, After(p, Push(t, k)), Empty(t, k, Space(p, t, k)));
  }

  lemma FailedPushOnBus(p: Plant, t: Ticket, k: nat, moved: nat)
    requires PlantInv(p) && May(p, PushFails(t, k, moved))
    ensures Next(p, After(p, PushFails(t, k, moved)), EmptyFails(t, k, moved))
  {
    InvHasParts(p);
    PushFailsHappens(p, t, k, moved);
    TransferredTells(p, After(p, PushFails(t, k, moved)), EmptyFails(t, k, moved));
    TransferIsNext(p, After(p, PushFails(t, k, moved)), EmptyFails(t, k, moved));
  }

  // ----- the places' side

  lemma PullAtPlace(p: Plant, t: Ticket, k: nat)
    requires MayPull(p, t, k)
    ensures Chest.Enabled(SourceSlot(p, t, k), Chest.Extract(PullIndex(p, t, k)))
    ensures After(p, Pull(t, k)).places
         == p.places[p.sources[t][k].place := Chest.Step(SourceSlot(p, t, k), Chest.Extract(PullIndex(p, t, k)))]
    ensures SourceSlot(p, t, k).pulls[PullIndex(p, t, k)].amount == Sys(p).parts[t].state.rest[k]
  {}

  lemma PushAtPlace(p: Plant, t: Ticket, k: nat, moved: nat)
    requires MayPush(p, t, k) && moved <= Min(PushRoom(Sys(p), t, k), Space(p, t, k))
    ensures var arrival := Chest.Arrive(PutIndex(p, t, k), moved);
      && Chest.Enabled(TargetSlot(p, t, k), arrival)
      && After(p, PushFails(t, k, moved)).places == p.places[p.targets[t][k].place := Chest.Step(TargetSlot(p, t, k), arrival)]
      && (moved == PushAmount(p, t, k) ==> After(p, Push(t, k)).places == After(p, PushFails(t, k, moved)).places)
  {}

  // ----- both sides

  lemma PullMoves(p: Plant, t: Ticket, k: nat, p': Plant)
    requires PlantInv(p) && MayPull(p, t, k) && p' == After(p, Pull(t, k))
    ensures Moved(p.places, p'.places, Sys(p).phys, Sys(p').phys, p.sources[t][k].place, Sys(p).parts[t].state.slot,
                  Sys(p).parts[t].state.rest[k])
  {
    PullMovesAll(p, t, k);
    PullAtPlace(p, t, k);
    PullOnBus(p, t, k);
    PulledBoth(p, p', t, k, Chest.Extract(PullIndex(p, t, k)), Fill(t, k, There(p, t, k)), Sys(p).parts[t].state.rest[k]);
  }

  lemma PulledBoth(p: Plant, p': Plant, t: Ticket, k: nat, ce: Chest.SlotEvent, e: Event, amount: nat)
    requires MayPull(p, t, k) && Chest.Enabled(SourceSlot(p, t, k), ce) && Next(p, p', e)
    requires p'.places == p.places[p.sources[t][k].place := Chest.Step(SourceSlot(p, t, k), ce)]
    requires (&& e == Fill(t, k, There(p, t, k)) && Min(PullRoom(Sys(p), t, k), There(p, t, k)) == amount <= There(p, t, k)
              && ce.Extract? && SourceSlot(p, t, k).pulls[ce.k].amount == amount)
          || (e == FillFails(t, k, amount) && ce.ExtractFails? && ce.moved == amount)
    ensures Moved(p.places, p'.places, Sys(p).phys, Sys(p').phys, p.sources[t][k].place, Sys(p).parts[t].state.slot, amount)
  {
    var x, phys := Sys(p).parts[t].state.slot, Sys(p).phys;
    FillBrings(Sys(p), e);
    if ce.Extract? {
      ExtractTakes(SourceSlot(p, t, k), ce.k, amount);
    } else {
      FailureTakes(SourceSlot(p, t, k), ce.k, amount);
    }
    BothSides(p.places, p.sources[t][k].place, Chest.Step(SourceSlot(p, t, k), ce), phys, x, phys[x] + amount, amount);
  }

  lemma FailedPullMoves(p: Plant, t: Ticket, k: nat, moved: nat, p': Plant)
    requires PlantInv(p) && May(p, PullFails(t, k, moved)) && p' == After(p, PullFails(t, k, moved))
    ensures Moved(p.places, p'.places, Sys(p).phys, Sys(p').phys, p.sources[t][k].place, Sys(p).parts[t].state.slot, moved)
  {
    PullFailsEffect(p, t, k, moved);
    FailedPullOnBus(p, t, k, moved);
    PulledBoth(p, p', t, k, Chest.ExtractFails(PullIndex(p, t, k), moved), FillFails(t, k, moved), moved);
  }

  lemma PushedBoth(p: Plant, p': Plant, t: Ticket, k: nat, e: Event, amount: nat)
    requires MayPush(p, t, k) && Next(p, p', e) && amount <= Min(PushRoom(Sys(p), t, k), Space(p, t, k))
    requires p'.places == After(p, PushFails(t, k, amount)).places
    requires (e == Empty(t, k, Space(p, t, k)) && amount == PushAmount(p, t, k)) || e == EmptyFails(t, k, amount)
    ensures Moved(p.places, p'.places, Sys(p).phys, Sys(p').phys, p.targets[t][k].place, Sys(p).parts[t].state.slot, 0 - amount)
  {
    var x, phys := Sys(p).parts[t].state.slot, Sys(p).phys;
    var arrival := Chest.Arrive(PutIndex(p, t, k), amount);
    PushAtPlace(p, t, k, amount);
    EmptyTakes(Sys(p), e);
    ArrivalAdds(TargetSlot(p, t, k), PutIndex(p, t, k), amount);
    BothSides(p.places, p.targets[t][k].place, Chest.Step(TargetSlot(p, t, k), arrival), phys, x, phys[x] - amount, 0 - amount);
  }

  lemma PushMoves(p: Plant, t: Ticket, k: nat, p': Plant)
    requires PlantInv(p) && MayPush(p, t, k) && p' == After(p, Push(t, k))
    ensures Moved(p.places, p'.places, Sys(p).phys, Sys(p').phys, p.targets[t][k].place, Sys(p).parts[t].state.slot,
                  0 - PushAmount(p, t, k))
  {
    PushOnBus(p, t, k);
    PushAtPlace(p, t, k, PushAmount(p, t, k));
    PushedBoth(p, p', t, k, Empty(t, k, Space(p, t, k)), PushAmount(p, t, k));
  }

  lemma FailedPushMoves(p: Plant, t: Ticket, k: nat, moved: nat, p': Plant)
    requires PlantInv(p) && May(p, PushFails(t, k, moved)) && p' == After(p, PushFails(t, k, moved))
    ensures Moved(p.places, p'.places, Sys(p).phys, Sys(p').phys, p.targets[t][k].place, Sys(p).parts[t].state.slot, 0 - moved)
  {
    FailedPushOnBus(p, t, k, moved);
    PushedBoth(p, p', t, k, EmptyFails(t, k, moved), moved);
  }

  /** In every run an extraction takes out of its place just what it brings into the bus slot, which is all it was to bring, or
      as much as was moved until it failed; no other slot is touched. */
  lemma ExtractionsOnlyMove(phys: seq<nat>, stacks: Inventory, acts: seq<PlantAction>, a: PlantAction)
    requires AllLegal(stacks) && CanGo(PlantStart(phys, stacks), acts)
    requires (a.Pull? || a.PullFails?) && May(Go(PlantStart(phys, stacks), acts), a)
    ensures var p := Go(PlantStart(phys, stacks), acts);
      Moved(p.places, After(p, a).places, Sys(p).phys, Sys(After(p, a)).phys, p.sources[a.t][a.k].place,
            Sys(p).parts[a.t].state.slot, if a.Pull? then Sys(p).parts[a.t].state.rest[a.k] else a.moved)
  {
    Reached(phys, stacks, acts);
    var p := Go(PlantStart(phys, stacks), acts);
    if a.Pull? {
      PullMoves(p, a.t, a.k, After(p, a));
    } else {
      FailedPullMoves(p, a.t, a.k, a.moved, After(p, a));
    }
  }

  /** In every run a transfer takes out of the bus slot just what it brings into the machine: all it was to bring, if nothing of
      its task has failed, or as much as was moved until it failed; no other slot is touched. */
  lemma DeliveriesOnlyMove(phys: seq<nat>, stacks: Inventory, acts: seq<PlantAction>, a: PlantAction) returns (amount: nat)
    requires AllLegal(stacks) && CanGo(PlantStart(phys, stacks), acts)
    requires (a.Push? || a.PushFails?) && May(Go(PlantStart(phys, stacks), acts), a)
    ensures var p := Go(PlantStart(phys, stacks), acts);
      && Moved(p.places, After(p, a).places, Sys(p).phys, Sys(After(p, a)).phys, p.targets[a.t][a.k].place,
               Sys(p).parts[a.t].state.slot, 0 - amount)
      && (a.PushFails? ==> amount == a.moved)
      && (a.Push? && Sys(p).parts[a.t].state.ok && !Sys(p).parts[a.t].state.kept ==> amount == Sys(p).parts[a.t].state.rest[a.k])
  {
    Reached(phys, stacks, acts);
    var p := Go(PlantStart(phys, stacks), acts);
    if a.Push? {
      PushMoves(p, a.t, a.k, After(p, a));
      amount := PushAmount(p, a.t, a.k);
      if Sys(p).parts[a.t].state.ok && !Sys(p).parts[a.t].state.kept {
        PushMovesAll(p, a.t, a.k);
      }
    } else {
      FailedPushMoves(p, a.t, a.k, a.moved, After(p, a));
      amount := a.moved;
    }
  }
}
