/** The jobs on the bus (JobRuns) together with the slots of chests and machines that they transfer from and to (Places).
    A transfer takes what really lies in its source, and moves what its target really has room for; nothing is said about
    how much that is. That it is always enough follows from how jobs start: they reserve what the slots offer and plan what
    the shadows take. */
module Plant {
  import opened Common
  import opened Items
  import opened Bus
  import opened BusSystem
  import opened BusJobs
  import opened JobRuns
  import opened Places
  import Chest

  /** A transfer that a task still has to make, and the slot it is from. */
  datatype Source = Source(place: nat, serial: nat)

  datatype Target = Target(place: nat, serial: nat, item: Item)

  /** What one task brings, and where it goes. */
  datatype Load = Load(draws: seq<Draw>, drops: seq<Drop>, cap: nat)

  /** The lists of a ticket run parallel to the transfers that its part has still to make. A crafting job does not plan its
      transfers when it starts: all recipes of a process may be started at once for the same grid, and each uses it when its
      group of requests is run. `late` is what the tickets of such jobs will bring. */
  datatype Plant = Plant(
    world: World,
    places: seq<Chest.Slot>,
    sources: map<Ticket, seq<Source>>,
    targets: map<Ticket, seq<Target>>,
    late: map<Ticket, seq<Drop>>)

  datatype PlantAction =
    | Launch(j: nat, kind: Kind, tickets: seq<Ticket>, loads: seq<Load>)
    | RunGroup(j: nat)
    | Pull(t: Ticket, k: nat)
    | PullFails(t: Ticket, k: nat, moved: nat)
    | Push(t: Ticket, k: nat)
    | PushFails(t: Ticket, k: nat, moved: nat)
    | AtPlace(c: nat, event: Chest.SlotEvent)
    | Relist(c: nat, offer: bool)
    | OfJob(action: Action)

  function UseOf(load: Load): Use { Use(Drawn(load.draws), Dropped(load.drops), load.cap) }

  function UsesOf(loads: seq<Load>): (r: seq<Use>)
    ensures |r| == |loads| && forall i :: 0 <= i < |r| ==> r[i] == UseOf(loads[i])
  {
    seq(|loads|, i requires 0 <= i < |loads| => UseOf(loads[i]))
  }

  // ----- how a job starts

  /** The reservations and the planned transfers of the tasks, one task after the other. */
  predicate CanLoad(places: seq<Chest.Slot>, ts: seq<Ticket>, loads: seq<Load>)
    requires |ts| == |loads|
    decreases |ts|
  {
    ts != [] ==>
    && CanDraw(places, ts[0], loads[0].draws, |loads[0].draws|)
    && CanDrop(DrawAll(places, ts[0], loads[0].draws, |loads[0].draws|), ts[0], loads[0].drops, |loads[0].drops|)
    && CanLoad(LoadOne(places, ts[0], loads[0]), ts[1..], loads[1..])
  }

  function LoadOne(places: seq<Chest.Slot>, t: Ticket, load: Load): (r: seq<Chest.Slot>)
    requires CanDraw(places, t, load.draws, |load.draws|)
    requires CanDrop(DrawAll(places, t, load.draws, |load.draws|), t, load.drops, |load.drops|)
    ensures |r| == |places|
  {
    DropAll(DrawAll(places, t, load.draws, |load.draws|), t, load.drops, |load.drops|)
  }

  function LoadAll(places: seq<Chest.Slot>, ts: seq<Ticket>, loads: seq<Load>): (r: seq<Chest.Slot>)
    requires |ts| == |loads| && CanLoad(places, ts, loads)
    ensures |r| == |places|
    decreases |ts|
  {
    if ts == [] then places else LoadAll(LoadOne(places, ts[0], loads[0]), ts[1..], loads[1..])
  }

  function NoDrops(loads: seq<Load>): (r: seq<Load>)
    ensures |r| == |loads| && forall i :: 0 <= i < |r| ==> r[i] == loads[i].(drops := [])
  {
    seq(|loads|, i requires 0 <= i < |loads| => loads[i].(drops := []))
  }

  /** What a job reserves and plans when it starts. */
  function AtOnce(kind: Kind, loads: seq<Load>): (r: seq<Load>)
    ensures |r| == |loads|
  {
    if kind.Crafting? then NoDrops(loads) else loads
  }

  function LateOf(ts: seq<Ticket>, loads: seq<Load>): map<Ticket, seq<Drop>>
    requires |ts| == |loads|
  {
    map t | t in ts :: loads[IndexOf(ts, t)].drops
  }

  /** What a crafting job plans when its group is run. */
  function GroupLoads(late: map<Ticket, seq<Drop>>, ts: seq<Ticket>): (r: seq<Load>)
    ensures |r| == |ts| && forall i :: 0 <= i < |r| ==> r[i] == Load([], if ts[i] in late then late[ts[i]] else [], 0)
  {
    seq(|ts|, i requires 0 <= i < |ts| => Load([], if ts[i] in late then late[ts[i]] else [], 0))
  }

  function SourcesOf(ds: seq<Draw>): (r: seq<Source>)
    ensures |r| == |ds| && forall k :: 0 <= k < |r| ==> r[k] == Source(ds[k].place, k)
  {
    seq(|ds|, k requires 0 <= k < |ds| => Source(ds[k].place, k))
  }

  function TargetsOf(ds: seq<Drop>): (r: seq<Target>)
    ensures |r| == |ds| && forall k :: 0 <= k < |r| ==> r[k] == Target(ds[k].place, k, ds[k].item)
  {
    seq(|ds|, k requires 0 <= k < |ds| => Target(ds[k].place, k, ds[k].item))
  }

  function AllSources(ts: seq<Ticket>, loads: seq<Load>): map<Ticket, seq<Source>>
    requires |ts| == |loads|
  {
    map t | t in ts :: SourcesOf(loads[IndexOf(ts, t)].draws)
  }

  function AllTargets(ts: seq<Ticket>, loads: seq<Load>): map<Ticket, seq<Target>>
    requires |ts| == |loads|
  {
    map t | t in ts :: TargetsOf(loads[IndexOf(ts, t)].drops)
  }

  // ----- steps

  function Sys(p: Plant): System { p.world.sys }

  function PullOf(p: Plant, t: Ticket, k: nat): Chest.Pull
    requires Pulling(Sys(p), t, k) && t in p.sources && k < |p.sources[t]|
  {
    Chest.Pull(Sys(p).parts[t].state.rest[k], false, Chest.Tag(t, p.sources[t][k].serial))
  }

  /** The task has been told its slot, and its reservation is known. */
  predicate MayPull(p: Plant, t: Ticket, k: nat) {
    && Pulling(Sys(p), t, k) && Woken(p.world, t)
    && t in p.sources && k < |p.sources[t]| && p.sources[t][k].place < |p.places|
    && PullOf(p, t, k) in p.places[p.sources[t][k].place].pulls
  }

  function PutOf(p: Plant, t: Ticket, k: nat): Chest.Put
    requires Pushing(Sys(p), t, k) && t in p.targets && k < |p.targets[t]|
  {
    Chest.Put(p.targets[t][k].item, Sys(p).parts[t].state.rest[k], Some(Chest.Tag(t, p.targets[t][k].serial)))
  }

  predicate MayPush(p: Plant, t: Ticket, k: nat) {
    && Pushing(Sys(p), t, k)
    && t in p.targets && k < |p.targets[t]| && p.targets[t][k].place < |p.places|
    && PutOf(p, t, k) in p.places[p.targets[t][k].place].puts
  }

  function SourceSlot(p: Plant, t: Ticket, k: nat): Chest.Slot
    requires MayPull(p, t, k)
  {
    p.places[p.sources[t][k].place]
  }

  function TargetSlot(p: Plant, t: Ticket, k: nat): Chest.Slot
    requires MayPush(p, t, k)
  {
    p.places[p.targets[t][k].place]
  }

  /** How much really lies in the source, and how much the target really has room for. */
  function There(p: Plant, t: Ticket, k: nat): nat
    requires MayPull(p, t, k)
  {
    Chest.SizeOf(SourceSlot(p, t, k).phys)
  }

  function Space(p: Plant, t: Ticket, k: nat): nat
    requires MayPush(p, t, k)
  {
    Chest.Room(TargetSlot(p, t, k).phys, p.targets[t][k].item)
  }

  function PullIndex(p: Plant, t: Ticket, k: nat): nat
    requires MayPull(p, t, k)
  {
    IndexOf(SourceSlot(p, t, k).pulls, PullOf(p, t, k))
  }

  function PutIndex(p: Plant, t: Ticket, k: nat): nat
    requires MayPush(p, t, k)
  {
    IndexOf(TargetSlot(p, t, k).puts, PutOf(p, t, k))
  }

  predicate Open(p: Part) { p.state.Waiting? || p.state.Filling? || p.state.Emptying? }

  function ToPull(p: Part): seq<nat> {
    match p.state
    case Waiting => p.fills
    case Filling(_, rest, _) => rest
    case _ => []
  }

  function ToPush(p: Part): seq<nat> {
    match p.state
    case Waiting => p.outs
    case Filling(_, _, _) => p.outs
    case Emptying(_, rest, _, _) => rest
    case _ => []
  }

  /** No task still has to transfer from or to the slot, and nothing else is on its way. */
  ghost predicate Unused(p: Plant, c: nat)
    requires c < |p.places|
  {
    && (forall x :: x in p.places[c].pulls ==> !x.moved) && (forall x :: x in p.places[c].puts ==> x.tag.Some?)
    && (forall t, k :: t in Sys(p).parts && Open(Sys(p).parts[t]) && t in p.sources && 0 <= k < |p.sources[t]| ==>
          p.sources[t][k].place != c)
    && (forall t, k :: t in Sys(p).parts && Open(Sys(p).parts[t]) && t in p.targets && 0 <= k < |p.targets[t]| ==>
          p.targets[t][k].place != c)
  }

  /** A slot is read: what lies in it is known, and offered if the slot is a storage's. */
  function Read(s: Chest.Slot, offer: bool): Chest.Slot {
    Chest.Listed(s.phys).(offered := if offer then Chest.SizeOf(s.phys) else 0)
  }

  /** What the background task and the machines do to a slot. */
  predicate Foreign(s: Chest.Slot, e: Chest.SlotEvent) {
    Chest.Enabled(s, e) &&
    match e
    case Acknowledge(_) => true
    case Deposit(_, _, sender) => sender.None?
    case Arrive(k, _) => s.puts[k].tag.None?
    case Consume(_) => true
    case _ => false
  }

  predicate Moves(e: Event) { e.Fill? || e.FillFails? || e.Empty? || e.EmptyFails? }

  predicate IsTransfer(a: Action) { a.OnBus? && Moves(a.e) }

  /** The group of a crafting job begins to run: its grid takes all that it brings. */
  predicate MayRun(p: Plant, j: nat) {
    && InStage(p.world, j, Unloading) && p.world.jobs[j].kind.Crafting?
    && (forall t :: t in p.world.jobs[j].parts ==> t in p.late)
    && CanLoad(p.places, p.world.jobs[j].parts, GroupLoads(p.late, p.world.jobs[j].parts))
  }

  ghost predicate May(p: Plant, a: PlantAction) {
    match a
    case Launch(j, kind, tickets, loads) =>
      && MayBegin(p.world, j, kind, tickets, UsesOf(loads)) && CanLoad(p.places, tickets, AtOnce(kind, loads))
    case RunGroup(j) => MayRun(p, j)
    case Pull(t, k) => MayPull(p, t, k)
    case PullFails(t, k, moved) => MayPull(p, t, k) && moved <= Min(PullRoom(Sys(p), t, k), There(p, t, k))
    case Push(t, k) => MayPush(p, t, k)
    case PushFails(t, k, moved) => MayPush(p, t, k) && moved <= Min(PushRoom(Sys(p), t, k), Space(p, t, k))
    case AtPlace(c, event) => c < |p.places| && Foreign(p.places[c], event)
    case Relist(c, offer) => c < |p.places| && Unused(p, c)
    case OfJob(action) => Allowed(p.world, action) && !action.Begin? && !IsTransfer(action)
  }

  /** What the step is for the jobs and the bus. A transfer is tried with what is really there; BusSystem allows it only if
      that is enough. */
  function JobActions(p: Plant, a: PlantAction): seq<Action>
    requires a.Pull? ==> MayPull(p, a.t, a.k)
    requires a.Push? ==> MayPush(p, a.t, a.k)
  {
    match a
    case Launch(j, kind, tickets, loads) => [Begin(j, kind, tickets, UsesOf(loads))]
    case RunGroup(j) => []
    case Pull(t, k) => [OnBus(Fill(t, k, There(p, t, k)))]
    case PullFails(t, k, moved) => [OnBus(FillFails(t, k, moved))]
    case Push(t, k) => [OnBus(Empty(t, k, Space(p, t, k)))]
    case PushFails(t, k, moved) => [OnBus(EmptyFails(t, k, moved))]
    case AtPlace(c, event) => []
    case Relist(c, offer) => []
    case OfJob(action) => [action]
  }

  /** How much a transfer out of a bus slot moves. */
  function PushAmount(p: Plant, t: Ticket, k: nat): nat
    requires MayPush(p, t, k)
  {
    Min(PushRoom(Sys(p), t, k), Space(p, t, k))
  }

  function Replace(p: Plant, c: nat, s: Chest.Slot): Plant
    requires c < |p.places|
  {
    p.(places := p.places[c := s])
  }

  function PlacesAfter(p: Plant, a: PlantAction): Plant
    requires May(p, a)
  {
    match a
    case Launch(j, kind, tickets, loads) =>
      p.(places := LoadAll(p.places, tickets, AtOnce(kind, loads)), sources := p.sources + AllSources(tickets, loads),
         targets := if kind.Crafting? then p.targets else p.targets + AllTargets(tickets, loads),
         late := if kind.Crafting? then p.late + LateOf(tickets, loads) else p.late)
    case RunGroup(j) =>
      var ts := p.world.jobs[j].parts;
      p.(places := LoadAll(p.places, ts, GroupLoads(p.late, ts)),
         targets := p.targets + AllTargets(ts, GroupLoads(p.late, ts)), late := p.late - SetOf(ts))
    case Pull(t, k) =>
      Replace(p, p.sources[t][k].place, Chest.Step(SourceSlot(p, t, k), Chest.Extract(PullIndex(p, t, k))))
        .(sources := p.sources[t := RemoveAt(p.sources[t], k)])
    case PullFails(t, k, moved) =>
      Replace(p, p.sources[t][k].place, Chest.Step(SourceSlot(p, t, k), Chest.ExtractFails(PullIndex(p, t, k), moved)))
        .(sources := p.sources[t := RemoveAt(p.sources[t], k)])
    case Push(t, k) =>
      Replace(p, p.targets[t][k].place, Chest.Step(TargetSlot(p, t, k), Chest.Arrive(PutIndex(p, t, k), PushAmount(p, t, k))))
        .(targets := p.targets[t := RemoveAt(p.targets[t], k)])
    case PushFails(t, k, moved) =>
      Replace(p, p.targets[t][k].place, Chest.Step(TargetSlot(p, t, k), Chest.Arrive(PutIndex(p, t, k), moved)))
        .(targets := p.targets[t := RemoveAt(p.targets[t], k)])
    case AtPlace(c, event) => Replace(p, c, Chest.Step(p.places[c], event))
    case Relist(c, offer) => Replace(p, c, Read(p.places[c], offer))
    case OfJob(action) => p
  }

  ghost function After(p: Plant, a: PlantAction): Plant
    requires May(p, a)
  {
    PlacesAfter(p, a).(world := Act(p.world, JobActions(p, a)))
  }

  // ----- what tasks still have to transfer is known to the slots

  ghost predicate PullsLinked(places: seq<Chest.Slot>, t: Ticket, sources: seq<Source>, amounts: seq<nat>) {
    && |sources| == |amounts|
    && (forall k :: 0 <= k < |sources| ==>
          && sources[k].place < |places|
          && HasPull(places[sources[k].place], Chest.Tag(t, sources[k].serial), amounts[k]))
    && forall k, l :: 0 <= k < l < |sources| ==> sources[k].serial != sources[l].serial
  }

  ghost predicate PutsLinked(places: seq<Chest.Slot>, t: Ticket, targets: seq<Target>, amounts: seq<nat>) {
    && |targets| == |amounts|
    && (forall k :: 0 <= k < |targets| ==>
          && targets[k].place < |places|
          && HasPut(places[targets[k].place], Chest.Tag(t, targets[k].serial), targets[k].item, amounts[k]))
    && forall k, l :: 0 <= k < l < |targets| ==> targets[k].serial != targets[l].serial
  }

  ghost predicate PartLinked(places: seq<Chest.Slot>, sources: map<Ticket, seq<Source>>, targets: map<Ticket, seq<Target>>,
                             t: Ticket, part: Part)
  {
    Open(part) ==>
    && t in sources && PullsLinked(places, t, sources[t], ToPull(part))
    && (t in targets ==> PutsLinked(places, t, targets[t], ToPush(part)))
  }

  /** Each task has planned its transfers, or still knows what it will bring. */
  ghost predicate Known(targets: map<Ticket, seq<Target>>, late: map<Ticket, seq<Drop>>, parts: map<Ticket, Part>) {
    && (forall t :: t in targets ==> t in parts)
    && (forall t :: t in late ==> t in parts && t !in targets && (Open(parts[t]) ==> Dropped(late[t]) == ToPush(parts[t])))
    && forall t :: t in parts && Open(parts[t]) ==> t in targets || t in late
  }

  ghost predicate Linked(places: seq<Chest.Slot>, sources: map<Ticket, seq<Source>>, targets: map<Ticket, seq<Target>>,
                         parts: map<Ticket, Part>)
  {
    forall t :: t in parts ==> PartLinked(places, sources, targets, t, parts[t])
  }

  ghost predicate SlotsOk(p: Plant) {
    && Sound(p.places) && Linked(p.places, p.sources, p.targets, Sys(p).parts) && Known(p.targets, p.late, Sys(p).parts)
  }

  ghost predicate PlantInv(p: Plant) { WorldInv(p.world) && SlotsOk(p) }

  /** The event does not carry out the extraction with this tag. */
  predicate SparesPull(s: Chest.Slot, e: Chest.SlotEvent, tag: Chest.Tag)
    requires Chest.Enabled(s, e)
  {
    e.Extract? || e.ExtractFails? ==> s.pulls[e.k].tag != tag
  }

  predicate SparesPut(s: Chest.Slot, e: Chest.SlotEvent, tag: Chest.Tag)
    requires Chest.Enabled(s, e)
  {
    e.Arrive? ==> s.puts[e.k].tag != Some(tag)
  }

  lemma EventKeepsPulls(places: seq<Chest.Slot>, c: nat, e: Chest.SlotEvent, t: Ticket, sources: seq<Source>, amounts: seq<nat>)
    requires c < |places| && Chest.Enabled(places[c], e) && PullsLinked(places, t, sources, amounts)
    requires forall k :: 0 <= k < |sources| ==> SparesPull(places[c], e, Chest.Tag(t, sources[k].serial))
    ensures PullsLinked(places[c := Chest.Step(places[c], e)], t, sources, amounts)
  {
    var places' := places[c := Chest.Step(places[c], e)];
    forall k | 0 <= k < |sources| ensures HasPull(places'[sources[k].place], Chest.Tag(t, sources[k].serial), amounts[k]) {
      if sources[k].place == c {
        assert SparesPull(places[c], e, Chest.Tag(t, sources[k].serial));
        PullStays(places[c], e, Chest.Tag(t, sources[k].serial), amounts[k]);
      }
    }
  }

  lemma EventKeepsPuts(places: seq<Chest.Slot>, c: nat, e: Chest.SlotEvent, t: Ticket, targets: seq<Target>, amounts: seq<nat>)
    requires c < |places| && Chest.Enabled(places[c], e) && PutsLinked(places, t, targets, amounts)
    requires forall k :: 0 <= k < |targets| ==> SparesPut(places[c], e, Chest.Tag(t, targets[k].serial))
    ensures PutsLinked(places[c := Chest.Step(places[c], e)], t, targets, amounts)
  {
    var places' := places[c := Chest.Step(places[c], e)];
    forall k | 0 <= k < |targets|
      ensures HasPut(places'[targets[k].place], Chest.Tag(t, targets[k].serial), targets[k].item, amounts[k])
    {
      if targets[k].place == c {
        assert SparesPut(places[c], e, Chest.Tag(t, targets[k].serial));
        PutStays(places[c], e, Chest.Tag(t, targets[k].serial), targets[k].item, amounts[k]);
      }
    }
  }

  /** The event carries out no transfer of this ticket. */
  ghost predicate Spares(s: Chest.Slot, e: Chest.SlotEvent, t: Ticket)
    requires Chest.Enabled(s, e)
  {
    forall serial :: SparesPull(s, e, Chest.Tag(t, serial)) && SparesPut(s, e, Chest.Tag(t, serial))
  }

  lemma EventKeepsPart(places: seq<Chest.Slot>, c: nat, e: Chest.SlotEvent, sources: map<Ticket, seq<Source>>,
                       targets: map<Ticket, seq<Target>>, t: Ticket, part: Part)
    requires c < |places| && Chest.Enabled(places[c], e) && Spares(places[c], e, t)
    requires PartLinked(places, sources, targets, t, part)
    ensures PartLinked(places[c := Chest.Step(places[c], e)], sources, targets, t, part)
  {
    if Open(part) {
      forall k | 0 <= k < |sources[t]| ensures SparesPull(places[c], e, Chest.Tag(t, sources[t][k].serial)) {}
      EventKeepsPulls(places, c, e, t, sources[t], ToPull(part));
      if t in targets {
        forall k | 0 <= k < |targets[t]| ensures SparesPut(places[c], e, Chest.Tag(t, targets[t][k].serial)) {}
        EventKeepsPuts(places, c, e, t, targets[t], ToPush(part));
      }
    }
  }

  lemma RemovedSources(places: seq<Chest.Slot>, t: Ticket, sources: seq<Source>, amounts: seq<nat>, k: nat)
    requires PullsLinked(places, t, sources, amounts) && k < |sources|
    ensures PullsLinked(places, t, RemoveAt(sources, k), RemoveAt(amounts, k))
    ensures forall l :: 0 <= l < |RemoveAt(sources, k)| ==> RemoveAt(sources, k)[l].serial != sources[k].serial
  {}

  lemma RemovedTargets(places: seq<Chest.Slot>, t: Ticket, targets: seq<Target>, amounts: seq<nat>, k: nat)
    requires PutsLinked(places, t, targets, amounts) && k < |targets|
    ensures PutsLinked(places, t, RemoveAt(targets, k), RemoveAt(amounts, k))
    ensures forall l :: 0 <= l < |RemoveAt(targets, k)| ==> RemoveAt(targets, k)[l].serial != targets[k].serial
  {}

  // ----- a transfer takes place

  lemma PullKnown(p: Plant, t: Ticket, k: nat, ok: bool)
    requires Known(p.targets, p.late, Sys(p).parts) && Pulling(Sys(p), t, k)
    ensures Known(p.targets, p.late, Sys(p).parts[t := Sys(p).parts[t].(state := Pulled(Sys(p).parts[t].state, k, ok))])
  {}

  lemma PushKnown(p: Plant, t: Ticket, k: nat, ok: bool)
    requires Known(p.targets, p.late, Sys(p).parts) && MayPush(p, t, k)
    ensures Known(p.targets[t := RemoveAt(p.targets[t], k)], p.late,
                  Sys(p).parts[t := Sys(p).parts[t].(state := Pushed(Sys(p).parts[t].state, k, ok))])
  {}

  lemma PullLinked(p: Plant, t: Ticket, k: nat, e: Chest.SlotEvent, ok: bool)
    requires MayPull(p, t, k) && Linked(p.places, p.sources, p.targets, Sys(p).parts)
    requires e.Extract? || e.ExtractFails?
    requires Chest.Enabled(SourceSlot(p, t, k), e) && e.k == PullIndex(p, t, k)
    ensures var part, c := Sys(p).parts[t], p.sources[t][k].place;
      Linked(p.places[c := Chest.Step(p.places[c], e)], p.sources[t := RemoveAt(p.sources[t], k)], p.targets,
             Sys(p).parts[t := part.(state := Pulled(part.state, k, ok))])
  {
    var part, c := Sys(p).parts[t], p.sources[t][k].place;
    var part' := part.(state := Pulled(part.state, k, ok));
    var places' := p.places[c := Chest.Step(p.places[c], e)];
    var sources' := p.sources[t := RemoveAt(p.sources[t], k)];
    assert PartLinked(p.places, p.sources, p.targets, t, part);
    RemovedSources(p.places, t, p.sources[t], part.state.rest, k);
    EventKeepsPulls(p.places, c, e, t, sources'[t], ToPull(part'));
    if t in p.targets {
      EventKeepsPuts(p.places, c, e, t, p.targets[t], ToPush(part'));
    }
    forall u | u in Sys(p).parts && u != t ensures PartLinked(places', sources', p.targets, u, Sys(p).parts[u]) {
      assert PartLinked(p.places, p.sources, p.targets, u, Sys(p).parts[u]);
      EventKeepsPart(p.places, c, e, p.sources, p.targets, u, Sys(p).parts[u]);
    }
  }

  lemma PushLinked(p: Plant, t: Ticket, k: nat, moved: nat, ok: bool)
    requires MayPush(p, t, k) && Linked(p.places, p.sources, p.targets, Sys(p).parts)
    requires Chest.Enabled(TargetSlot(p, t, k), Chest.Arrive(PutIndex(p, t, k), moved))
    ensures var part, c := Sys(p).parts[t], p.targets[t][k].place;
      Linked(p.places[c := Chest.Step(p.places[c], Chest.Arrive(PutIndex(p, t, k), moved))], p.sources,
             p.targets[t := RemoveAt(p.targets[t], k)], Sys(p).parts[t := part.(state := Pushed(part.state, k, ok))])
  {
    var part, c, e := Sys(p).parts[t], p.targets[t][k].place, Chest.Arrive(PutIndex(p, t, k), moved);
    var part' := part.(state := Pushed(part.state, k, ok));
    var places' := p.places[c := Chest.Step(p.places[c], e)];
    var targets' := p.targets[t := RemoveAt(p.targets[t], k)];
    assert PartLinked(p.places, p.sources, p.targets, t, part);
    RemovedTargets(p.places, t, p.targets[t], part.state.rest, k);
    EventKeepsPuts(p.places, c, e, t, targets'[t], ToPush(part'));
    EventKeepsPulls(p.places, c, e, t, p.sources[t], ToPull(part'));
    forall u | u in Sys(p).parts && u != t ensures PartLinked(places', p.sources, targets', u, Sys(p).parts[u]) {
      assert PartLinked(p.places, p.sources, p.targets, u, Sys(p).parts[u]);
      EventKeepsPart(p.places, c, e, p.sources, p.targets, u, Sys(p).parts[u]);
    }
  }

  /** A promised extraction finds its items where it was promised, of the kind it was promised. */
  lemma SourceAlwaysHolds(p: Plant, t: Ticket, k: nat)
    requires Sound(p.places) && MayPull(p, t, k)
    ensures SourceHolds(Sys(p), t, k, There(p, t, k))
    ensures SourceSlot(p, t, k).phys.Some? && SourceSlot(p, t, k).phys.value.item == SourceSlot(p, t, k).kind
    ensures Chest.Enabled(SourceSlot(p, t, k), Chest.Extract(PullIndex(p, t, k)))
  {
    Chest.PromisedIsThere(SourceSlot(p, t, k), PullIndex(p, t, k));
  }

  /** A planned transfer finds room in the slot it was planned for, whatever has happened to the machine. */
  lemma TargetAlwaysTakes(p: Plant, t: Ticket, k: nat)
    requires Sound(p.places) && MayPush(p, t, k)
    ensures TargetTakes(Sys(p), t, k, Space(p, t, k))
  {
    Chest.ComingHasRoom(TargetSlot(p, t, k), PutIndex(p, t, k));
  }

  /** The jobs' side and the slots' side of a transfer go together. */
  ghost predicate Transferred(p: Plant, p': Plant, e: Event) {
    && MayHappen(p.world, e) && Enabled(Sys(p), e)
    && p'.world == Do(p.world, OnBus(e))
    && Sound(p'.places) && Linked(p'.places, p'.sources, p'.targets, Step(Sys(p), e).parts)
    && Known(p'.targets, p'.late, Step(Sys(p), e).parts)
  }

  lemma TransferKeepsInv(p: Plant, p': Plant, e: Event)
    requires WorldInv(p.world) && Transferred(p, p', e)
    ensures PlantInv(p')
  {
    MayHappenRuns(p.world, e);
  }

  /** What an extraction does to the slots. */
  ghost predicate PulledTo(p: Plant, p': Plant, t: Ticket, k: nat, ce: Chest.SlotEvent)
    requires MayPull(p, t, k) && Chest.Enabled(SourceSlot(p, t, k), ce)
  {
    && p'.places == p.places[p.sources[t][k].place := Chest.Step(SourceSlot(p, t, k), ce)]
    && p'.sources == p.sources[t := RemoveAt(p.sources[t], k)] && p'.targets == p.targets && p'.late == p.late
  }

  lemma PullTransferred(p: Plant, p': Plant, e: Event, ce: Chest.SlotEvent)
    requires (e.Fill? || e.FillFails?) && MayHappen(p.world, e) && Enabled(Sys(p), e) && MayPull(p, e.t, e.k)
    requires SlotsOk(p)
    requires (ce.Extract? || ce.ExtractFails?) && Chest.Enabled(SourceSlot(p, e.t, e.k), ce) && ce.k == PullIndex(p, e.t, e.k)
    requires PulledTo(p, p', e.t, e.k, ce) && p'.world == Do(p.world, OnBus(e))
    ensures Transferred(p, p', e)
  {
    SoundUpdate(p.places, p.sources[e.t][e.k].place, ce);
    PullLinked(p, e.t, e.k, ce, e.Fill?);
    PullParts(Sys(p), e);
    PullKnown(p, e.t, e.k, e.Fill?);
  }

  ghost predicate PushedTo(p: Plant, p': Plant, t: Ticket, k: nat, ce: Chest.SlotEvent)
    requires MayPush(p, t, k) && Chest.Enabled(TargetSlot(p, t, k), ce)
  {
    && p'.places == p.places[p.targets[t][k].place := Chest.Step(TargetSlot(p, t, k), ce)]
    && p'.targets == p.targets[t := RemoveAt(p.targets[t], k)] && p'.sources == p.sources && p'.late == p.late
  }

  lemma PushTransferred(p: Plant, p': Plant, e: Event, moved: nat)
    requires (e.Empty? || e.EmptyFails?) && MayHappen(p.world, e) && Enabled(Sys(p), e) && MayPush(p, e.t, e.k)
    requires SlotsOk(p)
    requires Chest.Enabled(TargetSlot(p, e.t, e.k), Chest.Arrive(PutIndex(p, e.t, e.k), moved))
    requires PushedTo(p, p', e.t, e.k, Chest.Arrive(PutIndex(p, e.t, e.k), moved)) && p'.world == Do(p.world, OnBus(e))
    ensures Transferred(p, p', e)
  {
    SoundUpdate(p.places, p.targets[e.t][e.k].place, Chest.Arrive(PutIndex(p, e.t, e.k), moved));
    PushLinked(p, e.t, e.k, moved, e.Empty?);
    PushParts(Sys(p), e);
    PushKnown(p, e.t, e.k, e.Empty?);
  }

  lemma PullHappens(p: Plant, t: Ticket, k: nat)
    requires SlotsOk(p) && MayPull(p, t, k)
    ensures Transferred(p, After(p, Pull(t, k)), Fill(t, k, There(p, t, k)))
  {
    var e := Fill(t, k, There(p, t, k));
    SourceAlwaysHolds(p, t, k);
    OneAct(p.world, OnBus(e));
    PullTransferred(p, After(p, Pull(t, k)), e, Chest.Extract(PullIndex(p, t, k)));
  }

  lemma PullFailsEffect(p: Plant, t: Ticket, k: nat, moved: nat)
    requires May(p, PullFails(t, k, moved))
    ensures Chest.Enabled(SourceSlot(p, t, k), Chest.ExtractFails(PullIndex(p, t, k), moved))
    ensures PulledTo(p, After(p, PullFails(t, k, moved)), t, k, Chest.ExtractFails(PullIndex(p, t, k), moved))
    ensures After(p, PullFails(t, k, moved)).world == Do(p.world, OnBus(FillFails(t, k, moved)))
  {
    OneAct(p.world, OnBus(FillFails(t, k, moved)));
  }

  lemma PullFailsHappens(p: Plant, t: Ticket, k: nat, moved: nat)
    requires SlotsOk(p) && May(p, PullFails(t, k, moved))
    ensures Transferred(p, After(p, PullFails(t, k, moved)), FillFails(t, k, moved))
  {
    var e, ce := FillFails(t, k, moved), Chest.ExtractFails(PullIndex(p, t, k), moved);
    PullFailsEffect(p, t, k, moved);
    var p' := After(p, PullFails(t, k, moved));
    PullTransferred(p, p', e, ce);
  }

  lemma PushHappens(p: Plant, t: Ticket, k: nat)
    requires SlotsOk(p) && MayPush(p, t, k)
    ensures Transferred(p, After(p, Push(t, k)), Empty(t, k, Space(p, t, k)))
  {
    var e := Empty(t, k, Space(p, t, k));
    TargetAlwaysTakes(p, t, k);
    OneAct(p.world, OnBus(e));
    PushTransferred(p, After(p, Push(t, k)), e, PushAmount(p, t, k));
  }

  lemma PushFailsHappens(p: Plant, t: Ticket, k: nat, moved: nat)
    requires SlotsOk(p) && May(p, PushFails(t, k, moved))
    ensures Transferred(p, After(p, PushFails(t, k, moved)), EmptyFails(t, k, moved))
  {
    var e := EmptyFails(t, k, moved);
    OneAct(p.world, OnBus(e));
    PushTransferred(p, After(p, PushFails(t, k, moved)), e, moved);
  }

  // ----- everything else leaves the tasks' transfers as they are

  /** What a part has still to transfer is the same, or the part is closed for ever. */
  predicate Continues(p: Part, p': Part) {
    !Open(p') || (Open(p) && ToPull(p') == ToPull(p) && ToPush(p') == ToPush(p) && p'.fills == p.fills && p'.outs == p.outs)
  }

  ghost predicate AllContinue(parts: map<Ticket, Part>, parts': map<Ticket, Part>) {
    forall t :: t in parts ==> t in parts' && Continues(parts[t], parts'[t])
  }

  lemma ContinueMore(a: map<Ticket, Part>, b: map<Ticket, Part>, c: map<Ticket, Part>)
    requires AllContinue(a, b) && AllContinue(b, c)
    ensures AllContinue(a, c)
  {
    forall t | t in a ensures t in c && Continues(a[t], c[t]) {
      assert Continues(a[t], b[t]) && Continues(b[t], c[t]);
    }
  }

  lemma {:induction false} GrantsContinue(s: System, slots: seq<nat>)
    requires Queue(s.bus.waiters, s.parts) && Distinct(s.bus.waiters)
    ensures AllContinue(s.parts, GrantAll(s, slots).parts)
    decreases |slots|
  {
    if slots != [] && s.bus.waiters != [] {
      HeadIsMember(s.bus.waiters);
      var n := |slots| - 1;
      var s1 := GrantOne(s, slots[n]);
      assert s.bus.waiters == [s.bus.waiters[0]] + s1.bus.waiters;
      GrantsContinue(s1, slots[..n]);
      ContinueMore(s.parts, s1.parts, GrantAll(s1, slots[..n]).parts);
    }
  }

  lemma AnswerContinues(s: System, plan: seq<Transfer>, room: bool)
    requires Queue(s.bus.waiters, s.parts) && Distinct(s.bus.waiters) && s.phase.Answered?
    ensures AllContinue(s.parts, TakeAnswer(s, plan, room).parts)
  {
    GrantsContinue(s, FreeSlots(s.phase.listing, s.bus.allocations));
    assert TakeAnswer(s, plan, room).parts == GrantAll(s, FreeSlots(s.phase.listing, s.bus.allocations)).parts;
  }

  lemma FreeContinues(s: System, t: Ticket)
    requires Queue(s.bus.waiters, s.parts) && Holds(s, t)
    ensures AllContinue(s.parts, FreeOne(s, t).parts)
  {
    HeadIsMember(s.bus.waiters);
  }

  lemma OtherContinues(s: System, e: Event)
    requires Enabled(s, e) && !Moves(e) && !e.Process? && !e.GiveBack?
    ensures AllContinue(s.parts, Step(s, e).parts)
  {}

  lemma EventContinues(s: System, e: Event)
    requires Inv(s) && Enabled(s, e) && !Moves(e)
    ensures AllContinue(s.parts, Step(s, e).parts)
  {
    if e.Process? {
      AnswerContinues(s, e.plan, e.room);
    } else if e.GiveBack? {
      FreeContinues(s, e.t);
    } else {
      OtherContinues(s, e);
    }
  }

  predicate NoneMoves(es: seq<Event>) { forall i :: 0 <= i < |es| ==> !Moves(es[i]) }

  lemma {:induction false} TraceContinues(s: System, es: seq<Event>)
    requires Inv(s) && CanRun(s, es) && NoneMoves(es)
    ensures AllContinue(s.parts, Run(s, es).parts)
    decreases |es|
  {
    if es != [] {
      EventContinues(s, es[0]);
      StepInv(s, es[0]);
      TraceContinues(Step(s, es[0]), es[1..]);
      ContinueMore(s.parts, Step(s, es[0]).parts, Run(Step(s, es[0]), es[1..]).parts);
    }
  }

  lemma {:induction false} FreesMoveNothing(ts: seq<Ticket>)
    ensures NoneMoves(FreeEvents(ts)) && NoneMoves(TurnEvents(ts))
  {
    if ts != [] {
      FreesMoveNothing(ts[1..]);
    }
  }

  lemma {:induction false} AsksMoveNothing(ts: seq<Ticket>, uses: seq<Use>)
    ensures NoneMoves(AskEvents(ts, uses))
    decreases |ts|
  {
    if ts != [] && uses != [] {
      AsksMoveNothing(ts[1..], uses[1..]);
    }
  }

  lemma TraceMovesNothing(w: World, a: Action)
    requires !IsTransfer(a)
    ensures NoneMoves(Trace(w, a))
  {
    match a
    case Begin(j, kind, tickets, uses) => AsksMoveNothing(tickets, uses);
    case Unload(j) => if j in w.jobs { FreesMoveNothing(w.jobs[j].parts); }
    case Complete(j) =>
      if j in w.jobs {
        var ts := w.jobs[j].slotsToFree;
        FreesMoveNothing(ts);
        if ts != [] {
          FreesMoveNothing(Reverse(ts[1..]));
        }
      }
    case _ => {}
  }

  lemma ActionContinues(w: World, a: Action)
    requires WorldInv(w) && Allowed(w, a) && !IsTransfer(a)
    ensures WorldInv(Do(w, a)) && AllContinue(w.sys.parts, Do(w, a).sys.parts)
  {
    Refines(w, a);
    TraceMovesNothing(w, a);
    TraceContinues(w.sys, Trace(w, a));
  }

  lemma ContinueLinked(p: Plant, parts': map<Ticket, Part>, places': seq<Chest.Slot>)
    requires Linked(p.places, p.sources, p.targets, Sys(p).parts) && Grown(p.places, places')
    requires AllContinue(Sys(p).parts, parts') && parts'.Keys == Sys(p).parts.Keys
    ensures Linked(places', p.sources, p.targets, parts')
  {
    forall t | t in parts' ensures PartLinked(places', p.sources, p.targets, t, parts'[t]) {
      assert PartLinked(p.places, p.sources, p.targets, t, Sys(p).parts[t]) && Continues(Sys(p).parts[t], parts'[t]);
      if Open(parts'[t]) {
        PullsGrown(p.places, places', t, p.sources[t], ToPull(parts'[t]));
        if t in p.targets {
          PutsGrown(p.places, places', t, p.targets[t], ToPush(parts'[t]));
        }
      }
    }
  }

  lemma ContinueKnown(p: Plant, parts': map<Ticket, Part>)
    requires Known(p.targets, p.late, Sys(p).parts) && AllContinue(Sys(p).parts, parts') && parts'.Keys == Sys(p).parts.Keys
    ensures Known(p.targets, p.late, parts')
  {
    forall t | t in parts' ensures Continues(Sys(p).parts[t], parts'[t]) {}
  }

  lemma PullsGrown(a: seq<Chest.Slot>, b: seq<Chest.Slot>, t: Ticket, sources: seq<Source>, amounts: seq<nat>)
    requires PullsLinked(a, t, sources, amounts) && Grown(a, b)
    ensures PullsLinked(b, t, sources, amounts)
  {
    forall k | 0 <= k < |sources| ensures HasPull(b[sources[k].place], Chest.Tag(t, sources[k].serial), amounts[k]) {
      assert Places.Keeps(a[sources[k].place], b[sources[k].place]);
    }
  }

  lemma PutsGrown(a: seq<Chest.Slot>, b: seq<Chest.Slot>, t: Ticket, targets: seq<Target>, amounts: seq<nat>)
    requires PutsLinked(a, t, targets, amounts) && Grown(a, b)
    ensures PutsLinked(b, t, targets, amounts)
  {
    forall k | 0 <= k < |targets|
      ensures HasPut(b[targets[k].place], Chest.Tag(t, targets[k].serial), targets[k].item, amounts[k])
    {
      assert Places.Keeps(a[targets[k].place], b[targets[k].place]);
    }
  }

  /** Only a job that begins has new tickets. */
  lemma NoNewTickets(w: World, a: Action)
    requires WorldInv(w) && Allowed(w, a) && !a.Begin?
    ensures Do(w, a).sys.parts.Keys == w.sys.parts.Keys
  {
    Refines(w, a);
  }

  lemma JobKeepsInv(p: Plant, a: Action)
    requires PlantInv(p) && May(p, OfJob(a))
    ensures PlantInv(After(p, OfJob(a)))
  {
    OneAct(p.world, a);
    ActionContinues(p.world, a);
    NoNewTickets(p.world, a);
    GrownSame(p.places);
    ContinueLinked(p, Do(p.world, a).sys.parts, p.places);
    ContinueKnown(p, Do(p.world, a).sys.parts);
  }

  lemma ForeignSpares(s: Chest.Slot, e: Chest.SlotEvent, t: Ticket)
    requires Foreign(s, e)
    ensures Spares(s, e, t)
  {}

  lemma PlaceLinked(p: Plant, c: nat, e: Chest.SlotEvent)
    requires Linked(p.places, p.sources, p.targets, Sys(p).parts) && c < |p.places| && Foreign(p.places[c], e)
    ensures Linked(p.places[c := Chest.Step(p.places[c], e)], p.sources, p.targets, Sys(p).parts)
  {
    forall t | t in Sys(p).parts
      ensures PartLinked(p.places[c := Chest.Step(p.places[c], e)], p.sources, p.targets, t, Sys(p).parts[t])
    {
      assert PartLinked(p.places, p.sources, p.targets, t, Sys(p).parts[t]);
      ForeignSpares(p.places[c], e, t);
      EventKeepsPart(p.places, c, e, p.sources, p.targets, t, Sys(p).parts[t]);
    }
  }

  lemma PlaceKeepsInv(p: Plant, c: nat, e: Chest.SlotEvent)
    requires PlantInv(p) && May(p, AtPlace(c, e))
    ensures PlantInv(After(p, AtPlace(c, e)))
  {
    SoundUpdate(p.places, c, e);
    PlaceLinked(p, c, e);
  }

  lemma RelistLinked(p: Plant, c: nat, s: Chest.Slot)
    requires Linked(p.places, p.sources, p.targets, Sys(p).parts) && c < |p.places| && Unused(p, c)
    ensures Linked(p.places[c := s], p.sources, p.targets, Sys(p).parts)
  {
    forall t | t in Sys(p).parts ensures PartLinked(p.places[c := s], p.sources, p.targets, t, Sys(p).parts[t]) {
      assert PartLinked(p.places, p.sources, p.targets, t, Sys(p).parts[t]);
    }
  }

  lemma ReadBracket(s: Chest.Slot, offer: bool)
    requires Chest.Legal(s.phys)
    ensures Chest.Bracket(Read(s, offer))
  {}

  lemma RelistSound(places: seq<Chest.Slot>, c: nat, offer: bool)
    requires Sound(places) && c < |places|
    ensures Sound(places[c := Read(places[c], offer)])
  {
    assert Chest.Bracket(places[c]);
    ReadBracket(places[c], offer);
  }

  /** A slot that is read anew is taken to hold what it holds, and offers all of it or nothing; nothing is under way there. */
  lemma RelistReads(p: Plant, c: nat, offer: bool)
    requires May(p, Relist(c, offer))
    ensures var s, s' := p.places[c], After(p, Relist(c, offer)).places[c];
      && s'.phys == s.phys && s'.shadow == s.phys && s'.pulls == [] && s'.puts == []
      && (s.phys.Some? ==> s'.kind == s.phys.value.item && s'.offered == if offer then s.phys.value.size else 0)
      && (s.phys.None? ==> s'.offered == 0)
    ensures forall x :: 0 <= x < |p.places| && x != c ==> After(p, Relist(c, offer)).places[x] == p.places[x]
  {}

  lemma RelistKeepsInv(p: Plant, c: nat, offer: bool)
    requires PlantInv(p) && May(p, Relist(c, offer))
    ensures PlantInv(After(p, Relist(c, offer)))
  {
    RelistLinked(p, c, Read(p.places[c], offer));
    RelistSound(p.places, c, offer);
    var p' := p.(places := p.places[c := Read(p.places[c], offer)]);
    assert After(p, Relist(c, offer)) == p';
  }

  // ----- a job starts

  predicate LoadKept(places: seq<Chest.Slot>, t: Ticket, load: Load) {
    AllDrawn(places, t, load.draws, |load.draws|) && AllDropped(places, t, load.drops, |load.drops|)
  }

  predicate LoadsKept(places: seq<Chest.Slot>, ts: seq<Ticket>, loads: seq<Load>)
    requires |ts| == |loads|
  {
    forall i :: 0 <= i < |ts| ==> LoadKept(places, ts[i], loads[i])
  }

  lemma LoadStays(a: seq<Chest.Slot>, b: seq<Chest.Slot>, t: Ticket, load: Load)
    requires LoadKept(a, t, load) && Grown(a, b)
    ensures LoadKept(b, t, load)
  {
    DrawnStays(a, b, t, load.draws, |load.draws|);
    DroppedStays(a, b, t, load.drops, |load.drops|);
  }

  lemma LoadOneSound(before: seq<Chest.Slot>, t: Ticket, load: Load)
    requires Sound(before) && CanDraw(before, t, load.draws, |load.draws|)
    requires CanDrop(DrawAll(before, t, load.draws, |load.draws|), t, load.drops, |load.drops|)
    ensures var after := LoadOne(before, t, load); Sound(after) && Grown(before, after) && LoadKept(after, t, load)
  {
    var middle := DrawAll(before, t, load.draws, |load.draws|);
    var after := DropAll(middle, t, load.drops, |load.drops|);
    DrawAllSound(before, t, load.draws, |load.draws|);
    DropAllSound(middle, t, load.drops, |load.drops|);
    GrownMore(before, middle, after);
    DrawnStays(middle, after, t, load.draws, |load.draws|);
  }

  lemma FirstLoadKept(after: seq<Chest.Slot>, ts: seq<Ticket>, loads: seq<Load>)
    requires |ts| == |loads| > 0 && LoadKept(after, ts[0], loads[0]) && LoadsKept(after, ts[1..], loads[1..])
    ensures LoadsKept(after, ts, loads)
  {
    forall i | 0 <= i < |ts| ensures LoadKept(after, ts[i], loads[i]) {
      if i > 0 {
        assert LoadKept(after, ts[1..][i - 1], loads[1..][i - 1]);
      }
    }
  }

  lemma {:induction false} LoadAllSound(places: seq<Chest.Slot>, ts: seq<Ticket>, loads: seq<Load>)
    requires |ts| == |loads| && CanLoad(places, ts, loads) && Sound(places)
    ensures var after := LoadAll(places, ts, loads);
      Sound(after) && Grown(places, after) && LoadsKept(after, ts, loads)
    decreases |ts|
  {
    if ts == [] {
      GrownSame(places);
    } else {
      var next, after := LoadOne(places, ts[0], loads[0]), LoadAll(places, ts, loads);
      LoadOneSound(places, ts[0], loads[0]);
      LoadAllSound(next, ts[1..], loads[1..]);
      GrownMore(places, next, after);
      LoadStays(next, after, ts[0], loads[0]);
      FirstLoadKept(after, ts, loads);
    }
  }

  lemma LoadLinks(places: seq<Chest.Slot>, t: Ticket, load: Load, part: Part)
    requires LoadKept(places, t, load) && Asking(part, UseOf(load))
    ensures PullsLinked(places, t, SourcesOf(load.draws), ToPull(part))
    ensures PutsLinked(places, t, TargetsOf(load.drops), ToPush(part))
  {}

  lemma IndexIsUnique(ts: seq<Ticket>, i: nat)
    requires Distinct(ts) && i < |ts|
    ensures ts[i] in ts && IndexOf(ts, ts[i]) == i
  {}

  lemma OldPartLinked(p: Plant, t: Ticket, places': seq<Chest.Slot>, sources': map<Ticket, seq<Source>>,
                      targets': map<Ticket, seq<Target>>, part: Part)
    requires PartLinked(p.places, p.sources, p.targets, t, part) && Grown(p.places, places')
    requires t in p.sources ==> t in sources' && sources'[t] == p.sources[t]
    requires t in targets' ==> t in p.targets && targets'[t] == p.targets[t]
    ensures PartLinked(places', sources', targets', t, part)
  {
    if Open(part) {
      PullsGrown(p.places, places', t, p.sources[t], ToPull(part));
      if t in targets' {
        PutsGrown(p.places, places', t, p.targets[t], ToPush(part));
      }
    }
  }

  lemma LaunchLinked(p: Plant, ts: seq<Ticket>, loads: seq<Load>, places': seq<Chest.Slot>, parts': map<Ticket, Part>)
    requires Linked(p.places, p.sources, p.targets, Sys(p).parts) && Grown(p.places, places')
    requires Distinct(ts) && |ts| == |loads| && LoadsKept(places', ts, loads)
    requires AskedFor(Sys(p).parts, parts', ts, UsesOf(loads)) && forall t :: t in ts ==> t !in Sys(p).parts
    ensures Linked(places', p.sources + AllSources(ts, loads), p.targets + AllTargets(ts, loads), parts')
  {
    var sources', targets' := p.sources + AllSources(ts, loads), p.targets + AllTargets(ts, loads);
    forall t | t in parts' ensures PartLinked(places', sources', targets', t, parts'[t]) {
      if t in ts {
        var i :| 0 <= i < |ts| && ts[i] == t;
        IndexIsUnique(ts, i);
        assert Asking(parts'[ts[i]], UsesOf(loads)[i]) && LoadKept(places', ts[i], loads[i]);
        LoadLinks(places', t, loads[i], parts'[t]);
      } else {
        assert PartLinked(p.places, p.sources, p.targets, t, Sys(p).parts[t]);
        OldPartLinked(p, t, places', sources', targets', parts'[t]);
      }
    }
  }

  /** A crafting job has only made its reservations. */
  lemma LateLinked(p: Plant, ts: seq<Ticket>, loads: seq<Load>, places': seq<Chest.Slot>, parts': map<Ticket, Part>)
    requires Linked(p.places, p.sources, p.targets, Sys(p).parts) && Grown(p.places, places')
    requires Distinct(ts) && |ts| == |loads| && LoadsKept(places', ts, NoDrops(loads))
    requires AskedFor(Sys(p).parts, parts', ts, UsesOf(loads))
    requires forall t :: t in ts ==> t !in Sys(p).parts && t !in p.targets
    ensures Linked(places', p.sources + AllSources(ts, loads), p.targets, parts')
  {
    var sources' := p.sources + AllSources(ts, loads);
    forall t | t in parts' ensures PartLinked(places', sources', p.targets, t, parts'[t]) {
      if t in ts {
        var i :| 0 <= i < |ts| && ts[i] == t;
        IndexIsUnique(ts, i);
        assert Asking(parts'[ts[i]], UsesOf(loads)[i]) && LoadKept(places', ts[i], NoDrops(loads)[i]);
        DrawLinks(places', t, loads[i], parts'[t]);
      } else {
        assert PartLinked(p.places, p.sources, p.targets, t, Sys(p).parts[t]);
        OldPartLinked(p, t, places', sources', p.targets, parts'[t]);
      }
    }
  }

  lemma DrawLinks(places: seq<Chest.Slot>, t: Ticket, load: Load, part: Part)
    requires AllDrawn(places, t, load.draws, |load.draws|) && Asking(part, UseOf(load))
    ensures PullsLinked(places, t, SourcesOf(load.draws), ToPull(part))
  {}

  lemma LaunchKnown(p: Plant, ts: seq<Ticket>, loads: seq<Load>, crafting: bool, parts': map<Ticket, Part>)
    requires Known(p.targets, p.late, Sys(p).parts) && |ts| == |loads| && Distinct(ts)
    requires AskedFor(Sys(p).parts, parts', ts, UsesOf(loads)) && forall t :: t in ts ==> t !in Sys(p).parts
    ensures if crafting then Known(p.targets, p.late + LateOf(ts, loads), parts')
            else Known(p.targets + AllTargets(ts, loads), p.late, parts')
  {
    forall t | t in ts ensures t in parts' && ToPush(parts'[t]) == Dropped(loads[IndexOf(ts, t)].drops) {
      var i :| 0 <= i < |ts| && ts[i] == t;
      IndexIsUnique(ts, i);
      assert Asking(parts'[ts[i]], UsesOf(loads)[i]);
    }
  }

  lemma BeginAsks(w: World, j: nat, kind: Kind, tickets: seq<Ticket>, uses: seq<Use>)
    requires WorldInv(w) && MayBegin(w, j, kind, tickets, uses)
    ensures WorldInv(Do(w, Begin(j, kind, tickets, uses)))
    ensures AskedFor(w.sys.parts, Do(w, Begin(j, kind, tickets, uses)).sys.parts, tickets, uses)
  {
    Refines(w, Begin(j, kind, tickets, uses));
    AsksRun(w.sys, tickets, uses);
  }

  lemma LaunchSlots(p: Plant, j: nat, kind: Kind, ts: seq<Ticket>, loads: seq<Load>, p': Plant)
    requires SlotsOk(p)
    requires May(p, Launch(j, kind, ts, loads)) && p' == After(p, Launch(j, kind, ts, loads))
    requires AskedFor(Sys(p).parts, Sys(p').parts, ts, UsesOf(loads))
    ensures SlotsOk(p')
  {
    LoadAllSound(p.places, ts, AtOnce(kind, loads));
    LaunchKnown(p, ts, loads, kind.Crafting?, Sys(p').parts);
    if kind.Crafting? {
      LateLinked(p, ts, loads, p'.places, Sys(p').parts);
    } else {
      LaunchLinked(p, ts, loads, p'.places, Sys(p').parts);
    }
  }

  lemma LaunchKeepsInv(p: Plant, j: nat, kind: Kind, ts: seq<Ticket>, loads: seq<Load>)
    requires PlantInv(p) && May(p, Launch(j, kind, ts, loads))
    ensures PlantInv(After(p, Launch(j, kind, ts, loads)))
  {
    BeginAsks(p.world, j, kind, ts, UsesOf(loads));
    OneAct(p.world, Begin(j, kind, ts, UsesOf(loads)));
    LaunchSlots(p, j, kind, ts, loads, After(p, Launch(j, kind, ts, loads)));
  }

  // ----- the group of a crafting job is run

  lemma GroupLinks(places: seq<Chest.Slot>, t: Ticket, drops: seq<Drop>)
    requires AllDropped(places, t, drops, |drops|)
    ensures PutsLinked(places, t, TargetsOf(drops), Dropped(drops))
  {}

  lemma GroupLinked(p: Plant, ts: seq<Ticket>, places': seq<Chest.Slot>)
    requires SlotsOk(p) && Distinct(ts) && (forall t :: t in ts ==> t in p.late) && Grown(p.places, places')
    requires LoadsKept(places', ts, GroupLoads(p.late, ts))
    ensures Linked(places', p.sources, p.targets + AllTargets(ts, GroupLoads(p.late, ts)), Sys(p).parts)
  {
    var targets' := p.targets + AllTargets(ts, GroupLoads(p.late, ts));
    forall t | t in Sys(p).parts ensures PartLinked(places', p.sources, targets', t, Sys(p).parts[t]) {
      var part := Sys(p).parts[t];
      assert PartLinked(p.places, p.sources, p.targets, t, part);
      if t !in ts {
        OldPartLinked(p, t, places', p.sources, targets', part);
      } else if Open(part) {
        var i :| 0 <= i < |ts| && ts[i] == t;
        IndexIsUnique(ts, i);
        assert LoadKept(places', ts[i], GroupLoads(p.late, ts)[i]);
        GroupLinks(places', t, p.late[t]);
        PullsGrown(p.places, places', t, p.sources[t], ToPull(part));
      }
    }
  }

  lemma GroupKnown(p: Plant, ts: seq<Ticket>)
    requires Known(p.targets, p.late, Sys(p).parts) && forall t :: t in ts ==> t in p.late
    ensures Known(p.targets + AllTargets(ts, GroupLoads(p.late, ts)), p.late - SetOf(ts), Sys(p).parts)
  {}

  lemma GroupSlots(p: Plant, j: nat, p': Plant)
    requires SlotsOk(p) && MayRun(p, j) && Distinct(p.world.jobs[j].parts)
    requires p' == PlacesAfter(p, RunGroup(j))
    ensures SlotsOk(p')
  {
    var ts := p.world.jobs[j].parts;
    LoadAllSound(p.places, ts, GroupLoads(p.late, ts));
    GroupLinked(p, ts, p'.places);
    GroupKnown(p, ts);
  }

  lemma GroupKeepsInv(p: Plant, j: nat)
    requires PlantInv(p) && May(p, RunGroup(j))
    ensures PlantInv(After(p, RunGroup(j)))
  {
    assert OwnsAll(p.world.owner, j, p.world.jobs[j].parts);
    GroupSlots(p, j, PlacesAfter(p, RunGroup(j)));
    assert Act(p.world, []) == p.world;
    assert After(p, RunGroup(j)) == PlacesAfter(p, RunGroup(j));
  }

  // ----- whole runs

  lemma TransferStep(p: Plant, p': Plant, e: Event)
    requires WorldInv(p.world) && Transferred(p, p', e)
    ensures PlantInv(p') && CanAct(p.world, [OnBus(e)])
  {
    TransferKeepsInv(p, p', e);
    OneMayAct(p.world, OnBus(e));
  }

  lemma JobStep(p: Plant, a: PlantAction)
    requires PlantInv(p) && May(p, a) && (a.Launch? || a.RunGroup? || a.OfJob? || a.AtPlace? || a.Relist?)
    ensures PlantInv(After(p, a)) && CanAct(p.world, JobActions(p, a))
  {
    match a
    case Launch(j, kind, ts, loads) =>
      LaunchKeepsInv(p, j, kind, ts, loads);
      OneMayAct(p.world, Begin(j, kind, ts, UsesOf(loads)));
    case RunGroup(j) => GroupKeepsInv(p, j);
    case OfJob(action) =>
      JobKeepsInv(p, action);
      OneMayAct(p.world, action);
    case AtPlace(c, e) => PlaceKeepsInv(p, c, e);
    case Relist(c, offer) => RelistKeepsInv(p, c, offer);
  }

  lemma PullStep(p: Plant, a: PlantAction)
    requires PlantInv(p) && May(p, a) && (a.Pull? || a.PullFails?)
    ensures PlantInv(After(p, a)) && CanAct(p.world, JobActions(p, a))
  {
    if a.Pull? {
      PullHappens(p, a.t, a.k);
      TransferStep(p, After(p, a), Fill(a.t, a.k, There(p, a.t, a.k)));
    } else {
      PullFailsHappens(p, a.t, a.k, a.moved);
      TransferStep(p, After(p, a), FillFails(a.t, a.k, a.moved));
    }
  }

  lemma PushStep(p: Plant, a: PlantAction)
    requires PlantInv(p) && May(p, a) && (a.Push? || a.PushFails?)
    ensures PlantInv(After(p, a)) && CanAct(p.world, JobActions(p, a))
  {
    if a.Push? {
      PushHappens(p, a.t, a.k);
      TransferStep(p, After(p, a), Empty(a.t, a.k, Space(p, a.t, a.k)));
    } else {
      PushFailsHappens(p, a.t, a.k, a.moved);
      TransferStep(p, After(p, a), EmptyFails(a.t, a.k, a.moved));
    }
  }

  /** Every step keeps everything in order, and what it asks of the bus, the bus allows: sources hold what they are to give
      and targets have room for what they are to get. */
  lemma PlantStep(p: Plant, a: PlantAction)
    requires PlantInv(p) && May(p, a)
    ensures PlantInv(After(p, a)) && CanAct(p.world, JobActions(p, a))
  {
    if a.Pull? || a.PullFails? {
      PullStep(p, a);
    } else if a.Push? || a.PushFails? {
      PushStep(p, a);
    } else {
      JobStep(p, a);
    }
  }

  ghost predicate CanGo(p: Plant, acts: seq<PlantAction>)
    decreases |acts|
  {
    acts == [] || (May(p, acts[0]) && CanGo(After(p, acts[0]), acts[1..]))
  }

  ghost function Go(p: Plant, acts: seq<PlantAction>): Plant
    requires CanGo(p, acts)
    decreases |acts|
  {
    if acts == [] then p else Go(After(p, acts[0]), acts[1..])
  }

  ghost function AllActions(p: Plant, acts: seq<PlantAction>): seq<Action>
    requires CanGo(p, acts)
    decreases |acts|
  {
    if acts == [] then [] else JobActions(p, acts[0]) + AllActions(After(p, acts[0]), acts[1..])
  }

  /** Every run of the plant is a run of the jobs, and so one of the bus: what is proved of those holds of it. */
  lemma {:induction false} PlantRefines(p: Plant, acts: seq<PlantAction>)
    requires PlantInv(p) && CanGo(p, acts)
    ensures CanAct(p.world, AllActions(p, acts)) && Act(p.world, AllActions(p, acts)) == Go(p, acts).world
    ensures PlantInv(Go(p, acts))
    decreases |acts|
  {
    if acts != [] {
      PlantStep(p, acts[0]);
      PlantRefines(After(p, acts[0]), acts[1..]);
      ActAppend(p.world, JobActions(p, acts[0]), AllActions(After(p, acts[0]), acts[1..]));
    }
  }

  function PlantStart(phys: seq<nat>, stacks: Inventory): Plant {
    Plant(WorldStart(phys), Chest.ListedAll(stacks), map[], map[], map[])
  }

  predicate AllLegal(stacks: Inventory) { forall c :: 0 <= c < |stacks| ==> Chest.Legal(stacks[c]) }

  lemma ListedBracket(s: Option<Stack>)
    requires Chest.Legal(s)
    ensures Chest.Bracket(Chest.Listed(s))
  {}

  lemma ListedSound(stacks: Inventory)
    requires AllLegal(stacks)
    ensures Sound(Chest.ListedAll(stacks))
  {
    forall c | 0 <= c < |stacks| ensures Chest.Bracket(Chest.ListedAll(stacks)[c]) {
      ListedBracket(stacks[c]);
    }
  }

  lemma PlantStartInv(phys: seq<nat>, stacks: Inventory)
    requires AllLegal(stacks)
    ensures PlantInv(PlantStart(phys, stacks))
  {
    StartWorldInv(phys);
    ListedSound(stacks);
    assert Sys(PlantStart(phys, stacks)).parts == map[];
  }

  lemma Reached(phys: seq<nat>, stacks: Inventory, acts: seq<PlantAction>)
    requires AllLegal(stacks) && CanGo(PlantStart(phys, stacks), acts)
    ensures PlantInv(Go(PlantStart(phys, stacks), acts))
  {
    PlantStartInv(phys, stacks);
    PlantRefines(PlantStart(phys, stacks), acts);
  }

  lemma PullLinks(p: Plant, t: Ticket, k: nat)
    requires Linked(p.places, p.sources, p.targets, Sys(p).parts) && Pulling(Sys(p), t, k) && Woken(p.world, t)
    ensures MayPull(p, t, k)
  {
    assert PartLinked(p.places, p.sources, p.targets, t, Sys(p).parts[t]);
  }

  lemma PushLinks(p: Plant, t: Ticket, k: nat)
    requires SlotsOk(p) && Pushing(Sys(p), t, k) && t !in p.late
    ensures MayPush(p, t, k)
  {
    assert PartLinked(p.places, p.sources, p.targets, t, Sys(p).parts[t]);
  }

  lemma PullMovesAll(p: Plant, t: Ticket, k: nat)
    requires PlantInv(p) && MayPull(p, t, k)
    ensures Min(PullRoom(Sys(p), t, k), There(p, t, k)) == Sys(p).parts[t].state.rest[k] <= There(p, t, k)
    ensures SourceSlot(p, t, k).phys.Some? && SourceSlot(p, t, k).phys.value.item == SourceSlot(p, t, k).kind
  {
    SourceAlwaysHolds(p, t, k);
    assert Content(Sys(p).parts[t], Sys(p).phys);
    FillIsExact(Sys(p), t, k, There(p, t, k));
  }

  lemma PushMovesAll(p: Plant, t: Ticket, k: nat)
    requires PlantInv(p) && MayPush(p, t, k) && Sys(p).parts[t].state.ok && !Sys(p).parts[t].state.kept
    ensures PushAmount(p, t, k) == Sys(p).parts[t].state.rest[k] <= Space(p, t, k)
  {
    TargetAlwaysTakes(p, t, k);
    assert Content(Sys(p).parts[t], Sys(p).phys);
    EmptyIsExact(Sys(p), t, k, Space(p, t, k));
  }

  /** Whatever the chests, the machines, the bus and other jobs do: an extraction that is due finds all of its items in the
      slot they were reserved in, and the bus slot has room for them. */
  lemma ExtractionsAreExact(phys: seq<nat>, stacks: Inventory, acts: seq<PlantAction>, t: Ticket, k: nat)
    requires AllLegal(stacks) && CanGo(PlantStart(phys, stacks), acts)
    requires var p := Go(PlantStart(phys, stacks), acts); Pulling(Sys(p), t, k) && Woken(p.world, t)
    ensures var p := Go(PlantStart(phys, stacks), acts);
      && MayPull(p, t, k)
      && Min(PullRoom(Sys(p), t, k), There(p, t, k)) == Sys(p).parts[t].state.rest[k] <= There(p, t, k)
      && SourceSlot(p, t, k).phys.Some? && SourceSlot(p, t, k).phys.value.item == SourceSlot(p, t, k).kind
  {
    Reached(phys, stacks, acts);
    PullLinks(Go(PlantStart(phys, stacks), acts), t, k);
    PullMovesAll(Go(PlantStart(phys, stacks), acts), t, k);
  }

  /** And a transfer that is due, of a task without failures, finds all of its items in the bus slot and room for all of them
      in the slot of the machine that it was planned for. The transfers of a crafting job are due once its group is run. */
  lemma DeliveriesAreExact(phys: seq<nat>, stacks: Inventory, acts: seq<PlantAction>, t: Ticket, k: nat)
    requires AllLegal(stacks) && CanGo(PlantStart(phys, stacks), acts)
    requires var p := Go(PlantStart(phys, stacks), acts);
      Pushing(Sys(p), t, k) && t !in p.late && Sys(p).parts[t].state.ok && !Sys(p).parts[t].state.kept
    ensures var p := Go(PlantStart(phys, stacks), acts);
      && MayPush(p, t, k)
      && PushAmount(p, t, k) == Sys(p).parts[t].state.rest[k] <= Space(p, t, k)
  {
    Reached(phys, stacks, acts);
    PushLinks(Go(PlantStart(phys, stacks), acts), t, k);
    PushMovesAll(Go(PlantStart(phys, stacks), acts), t, k);
  }

  /** When a job has delivered everything without a failure, each slot that it frees is really empty. */
  lemma FreedSlotsAreReallyEmpty(phys: seq<nat>, stacks: Inventory, acts: seq<PlantAction>, j: nat, t: Ticket)
    requires AllLegal(stacks) && CanGo(PlantStart(phys, stacks), acts)
    requires var p := Go(PlantStart(phys, stacks), acts);
      Allowed(p.world, Complete(j)) && t in p.world.jobs[j].slotsToFree && !JobRuns.Keeps(p.world.jobs[j], t)
    ensures var s := Sys(Go(PlantStart(phys, stacks), acts)); Holds(s, t) && s.phys[s.parts[t].state.slot] == 0
  {
    Reached(phys, stacks, acts);
    var p := Go(PlantStart(phys, stacks), acts);
    SlotsReady(p.world, j);
    assert Content(Sys(p).parts[t], Sys(p).phys);
  }

  // ----- one group after the other on the same grid

  /** The tickets of a job whose transfers have all been answered plan nothing any more. */
  lemma FinishedGroupLetsGo(p: Plant, j: nat, t: Ticket)
    requires PlantInv(p) && InStage(p.world, j, Unloading) && AllOutDone(p.world.jobs[j], Sys(p).parts)
    requires t in p.world.jobs[j].parts && t in p.targets
    ensures p.targets[t] == []
  {
    OutIsDone(p.world.jobs[j], Sys(p).parts, t);
    NothingLeft(p, t);
  }

  lemma OutIsDone(job: Job, parts: map<Ticket, Part>, t: Ticket)
    requires AllOutDone(job, parts) && t in job.parts
    ensures OutDone(t, parts)
  {
    var i :| 0 <= i < |job.parts| && job.parts[i] == t;
    assert OutDone(job.parts[i], parts);
  }

  lemma NothingLeft(p: Plant, t: Ticket)
    requires SlotsOk(p) && OutDone(t, Sys(p).parts) && t in p.targets
    ensures p.targets[t] == []
  {
    assert PartLinked(p.places, p.sources, p.targets, t, Sys(p).parts[t]);
  }

  /** Nobody has anything planned for these slots, and nothing lies in them. */
  ghost predicate GridFree(p: Plant, base: nat, n: nat) {
    base + n <= |p.places| && forall c: nat :: base <= c < base + n ==> FreeAt(p, c)
  }

  ghost predicate FreeAt(p: Plant, c: nat) { c < |p.places| && Unused(p, c) && p.places[c].phys.None? }

  lemma OneRelisted(p: Plant, c: nat)
    requires PlantInv(p) && FreeAt(p, c)
    ensures May(p, Relist(c, false)) && PlantInv(After(p, Relist(c, false)))
    ensures After(p, Relist(c, false)) == p.(places := p.places[c := Chest.Listed(None).(offered := 0)])
  {
    RelistKeepsInv(p, c, false);
    assert Act(p.world, []) == p.world;
  }

  lemma FreeElsewhere(p: Plant, d: nat, c: nat, slot: Chest.Slot)
    requires FreeAt(p, d) && c < |p.places| && c != d
    ensures FreeAt(p.(places := p.places[c := slot]), d)
  {
    assert Unused(p, d);
  }

  lemma StillFree(p: Plant, base: nat, n: nat, c: nat, slot: Chest.Slot)
    requires GridFree(p, base, n) && base + n <= c < |p.places|
    ensures GridFree(p.(places := p.places[c := slot]), base, n)
  {
    var p' := p.(places := p.places[c := slot]);
    forall d: nat | base <= d < base + n ensures FreeAt(p', d) {
      FreeElsewhere(p, d, c, slot);
    }
  }

  lemma GoOn(p: Plant, a: PlantAction, acts: seq<PlantAction>)
    requires May(p, a) && CanGo(After(p, a), acts)
    ensures CanGo(p, [a] + acts) && Go(p, [a] + acts) == Go(After(p, a), acts)
  {
    assert ([a] + acts)[1..] == acts;
  }

  /** The grid is seen as empty, and nothing else has changed. */
  ghost predicate Cleared(p: Plant, g: Plant, base: nat, n: nat) {
    && g == p.(places := g.places) && |g.places| == |p.places| && base + n <= |g.places|
    && (forall c :: base <= c < base + n ==> g.places[c].shadow.None?)
    && forall c :: 0 <= c < |p.places| && !(base <= c < base + n) ==> g.places[c] == p.places[c]
  }

  lemma OneMoreCleared(p: Plant, p1: Plant, g: Plant, base: nat, n: nat, c: nat)
    requires c == base + n < |p.places| && p1 == p.(places := p.places[c := Chest.Listed(None).(offered := 0)])
    requires Cleared(p1, g, base, n)
    ensures Cleared(p, g, base, n + 1)
  {}

  /** An empty grid can be taken as new. */
  lemma {:induction false} GridIsNew(p: Plant, base: nat, n: nat) returns (acts: seq<PlantAction>, g: Plant)
    requires PlantInv(p) && GridFree(p, base, n)
    ensures CanGo(p, acts) && g == Go(p, acts) && PlantInv(g) && Cleared(p, g, base, n)
    decreases n
  {
    if n == 0 {
      acts, g := [], p;
    } else {
      var c := base + n - 1;
      assert FreeAt(p, c);
      OneRelisted(p, c);
      StillFree(p, base, n - 1, c, Chest.Listed(None).(offered := 0));
      acts, g := GridIsNew(After(p, Relist(c, false)), base, n - 1);
      OneMoreCleared(p, After(p, Relist(c, false)), g, base, n - 1, c);
      GoOn(p, Relist(c, false), acts);
      acts := [Relist(c, false)] + acts;
    }
  }
}
