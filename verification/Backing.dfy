/** Where the transfers of a job come from: the reservations of ItemInfo are draws that the slots' offers cover, and what
    the processes plan into their machines are drops that the machines' slots take. So a job that a process starts may
    start in the sense of Plant. */
module Backing {
  import opened Common
  import opened Items
  import opened Placement
  import opened Places
  import opened Catalog
  import Buffered
  import Chest
  import JobRuns
  import Jobs
  import Listing
  import Plant
  import Reservations
  import Scattering
  import Slotted

  // ----- reservations are draws

  function DrawsOf(entries: seq<Reservations.Entry>): (r: seq<Draw>)
    ensures |r| == |entries| && forall i :: 0 <= i < |r| ==> r[i] == Draw(entries[i].provider.id, entries[i].n)
  {
    seq(|entries|, i requires 0 <= i < |entries| => Draw(entries[i].provider.id, entries[i].n))
  }

  /** Each provider in the books of an item stands for one slot, which offers at least what the books say. */
  ghost predicate Covered(places: seq<Chest.Slot>, es: seq<Reservations.Entry>) {
    && (forall p :: Reservations.Amount(es, p) > 0 ==>
          p.id < |places| && Reservations.Amount(es, p) <= places[p.id].offered)
    && forall p, q :: Reservations.Amount(es, p) > 0 && Reservations.Amount(es, q) > 0 && p.id == q.id ==> p == q
  }

  lemma AmountUpTo(taken: seq<Reservations.Entry>, n: nat, next: nat, p: Reservations.Provider)
    requires next == n + 1 <= |taken|
    ensures Reservations.Amount(taken[..next], p)
         == Reservations.Amount(taken[..n], p) + (if taken[n].provider == p then taken[n].n else 0)
    ensures Reservations.Amount(taken[..next], p) <= Reservations.Amount(taken, p)
  {
    assert taken[..next] == taken[..n] + [taken[n]];
    Reservations.EntriesAppend(taken[..n], [taken[n]], p);
    assert taken == taken[..next] + taken[next..];
    Reservations.EntriesAppend(taken[..next], taken[next..], p);
  }

  /** After n draws the offers have become smaller by just these. */
  ghost predicate DrawnUpTo(places: seq<Chest.Slot>, t: nat, before: seq<Reservations.Entry>, taken: seq<Reservations.Entry>, n: nat)
    requires n <= |taken|
  {
    && CanDraw(places, t, DrawsOf(taken), n)
    && forall p :: Reservations.Amount(before, p) > 0 ==>
         && p.id < |places|
         && DrawAll(places, t, DrawsOf(taken), n)[p.id].offered + Reservations.Amount(taken[..n], p) == places[p.id].offered
  }

  lemma DrawNext(places: seq<Chest.Slot>, t: nat, before: seq<Reservations.Entry>, after: seq<Reservations.Entry>,
                 taken: seq<Reservations.Entry>, n: nat, next: nat)
    requires next == n + 1 <= |taken| && Covered(places, before) && Reservations.Drawn(before, after, taken)
    requires DrawnUpTo(places, t, before, taken, n)
    ensures DrawnUpTo(places, t, before, taken, next)
  {
    var q, here := taken[n].provider, DrawAll(places, t, DrawsOf(taken), n);
    AmountUpTo(taken, n, next, q);
    assert Reservations.Amount(before, q) == Reservations.Amount(after, q) + Reservations.Amount(taken, q);
    assert Chest.Enabled(here[q.id], Chest.Reserve(taken[n].n, Chest.Tag(t, n)));
    assert CanDraw(places, t, DrawsOf(taken), next);
    forall p | Reservations.Amount(before, p) > 0
      ensures p.id < |places|
      ensures DrawAll(places, t, DrawsOf(taken), next)[p.id].offered + Reservations.Amount(taken[..next], p)
           == places[p.id].offered
    {
      AmountUpTo(taken, n, next, p);
    }
  }

  lemma {:induction false} DrawsUpTo(places: seq<Chest.Slot>, t: nat, before: seq<Reservations.Entry>,
                                     after: seq<Reservations.Entry>, taken: seq<Reservations.Entry>, n: nat)
    requires n <= |taken| && Covered(places, before) && Reservations.Drawn(before, after, taken)
    ensures DrawnUpTo(places, t, before, taken, n)
    decreases n
  {
    if n > 0 {
      DrawsUpTo(places, t, before, after, taken, n - 1);
      DrawNext(places, t, before, after, taken, n - 1, n);
    }
  }

  /** What ItemInfo.Reserve hands out can be drawn, and what it leaves in its books is still covered. */
  lemma ReservationsAreOffered(places: seq<Chest.Slot>, t: nat, before: seq<Reservations.Entry>,
                               after: seq<Reservations.Entry>, taken: seq<Reservations.Entry>)
    requires Covered(places, before) && Reservations.Drawn(before, after, taken)
    ensures CanDraw(places, t, DrawsOf(taken), |taken|)
    ensures Covered(DrawAll(places, t, DrawsOf(taken), |taken|), after)
  {
    DrawsUpTo(places, t, before, after, taken, |taken|);
    assert taken[..|taken|] == taken;
    forall p | Reservations.Amount(after, p) > 0
      ensures Reservations.Amount(before, p) > 0
      ensures p.id < |places|
      ensures Reservations.Amount(after, p) <= DrawAll(places, t, DrawsOf(taken), |taken|)[p.id].offered
    {
      assert Reservations.Amount(before, p) == Reservations.Amount(after, p) + Reservations.Amount(taken, p);
    }
  }

  /** Draws leave other slots and all shadows alone. */
  lemma {:induction false} DrawsElsewhere(places: seq<Chest.Slot>, t: nat, ds: seq<Draw>, n: nat, c: nat)
    requires n <= |ds| && CanDraw(places, t, ds, n) && c < |places|
    ensures DrawAll(places, t, ds, n)[c].shadow == places[c].shadow
    ensures (forall k :: 0 <= k < n ==> ds[k].place != c) ==> DrawAll(places, t, ds, n)[c] == places[c]
    decreases n
  {
    if n > 0 {
      DrawsElsewhere(places, t, ds, n - 1, c);
    }
  }

  ghost predicate Apart(a: seq<Reservations.Entry>, b: seq<Reservations.Entry>) {
    forall p, q :: Reservations.Amount(a, p) > 0 && Reservations.Amount(b, q) > 0 ==> p.id != q.id
  }

  /** The books of all items: no slot stands for two of them. */
  ghost predicate BooksCovered(places: seq<Chest.Slot>, books: Books) {
    (forall x :: x in books ==> Covered(places, books[x])) && AllApart(books)
  }

  ghost predicate AllApart(books: Books) {
    forall x, y :: x in books && y in books && x != y ==> Apart(books[x], books[y])
  }

  lemma DrawnIsInBooks(before: seq<Reservations.Entry>, after: seq<Reservations.Entry>, taken: seq<Reservations.Entry>, k: nat)
    requires Reservations.Drawn(before, after, taken) && k < |taken|
    ensures Reservations.Amount(before, taken[k].provider) > 0
  {
    Reservations.EntriesSplit(taken, k, taken[k].provider);
    assert Reservations.Amount(before, taken[k].provider)
        == Reservations.Amount(after, taken[k].provider) + Reservations.Amount(taken, taken[k].provider);
  }

  lemma OtherBooksStay(places: seq<Chest.Slot>, t: nat, before: seq<Reservations.Entry>, after: seq<Reservations.Entry>,
                       taken: seq<Reservations.Entry>, other: seq<Reservations.Entry>)
    requires Reservations.Drawn(before, after, taken) && CanDraw(places, t, DrawsOf(taken), |taken|)
    requires Covered(places, other) && Apart(before, other)
    ensures Covered(DrawAll(places, t, DrawsOf(taken), |taken|), other)
  {
    forall p | Reservations.Amount(other, p) > 0
      ensures DrawAll(places, t, DrawsOf(taken), |taken|)[p.id] == places[p.id]
    {
      forall k | 0 <= k < |taken| ensures DrawsOf(taken)[k].place != p.id {
        DrawnIsInBooks(before, after, taken, k);
      }
      DrawsElsewhere(places, t, DrawsOf(taken), |taken|, p.id);
    }
  }

  lemma ApartStays(before: seq<Reservations.Entry>, after: seq<Reservations.Entry>, taken: seq<Reservations.Entry>,
                   other: seq<Reservations.Entry>)
    requires Reservations.Drawn(before, after, taken) && Apart(before, other)
    ensures Apart(after, other) && (Apart(other, before) ==> Apart(other, after))
  {
    forall p | Reservations.Amount(after, p) > 0 ensures Reservations.Amount(before, p) > 0 {
      assert Reservations.Amount(before, p) == Reservations.Amount(after, p) + Reservations.Amount(taken, p);
    }
  }

  lemma CoveredStay(places: seq<Chest.Slot>, t: nat, books: Books, item: Item, after: seq<Reservations.Entry>,
                    taken: seq<Reservations.Entry>)
    requires BooksCovered(places, books) && item in books && Reservations.Drawn(books[item], after, taken)
    requires CanDraw(places, t, DrawsOf(taken), |taken|)
    ensures forall x :: x in books && x != item ==> Covered(DrawAll(places, t, DrawsOf(taken), |taken|), books[x])
  {
    forall x | x in books && x != item ensures Covered(DrawAll(places, t, DrawsOf(taken), |taken|), books[x]) {
      OtherBooksStay(places, t, books[item], after, taken, books[x]);
    }
  }

  lemma AllApartStay(books: Books, item: Item, after: seq<Reservations.Entry>, taken: seq<Reservations.Entry>)
    requires AllApart(books) && item in books && Reservations.Drawn(books[item], after, taken)
    ensures AllApart(books[item := after])
  {
    var books' := books[item := after];
    forall x, y | x in books' && y in books' && x != y ensures Apart(books'[x], books'[y]) {
      assert Apart(books[x], books[y]) && Apart(books[y], books[x]);
      if x == item {
        ApartStays(books[item], after, taken, books[y]);
      } else if y == item {
        ApartStays(books[item], after, taken, books[x]);
      }
    }
  }

  lemma BooksStay(places: seq<Chest.Slot>, t: nat, books: Books, item: Item, after: seq<Reservations.Entry>,
                  taken: seq<Reservations.Entry>)
    requires BooksCovered(places, books) && item in books && Reservations.Drawn(books[item], after, taken)
    ensures CanDraw(places, t, DrawsOf(taken), |taken|)
    ensures BooksCovered(DrawAll(places, t, DrawsOf(taken), |taken|), books[item := after])
  {
    ReservationsAreOffered(places, t, books[item], after, taken);
    CoveredStay(places, t, books, item, after, taken);
    AllApartStay(books, item, after, taken);
  }

  // ----- plans are drops

  /** The slots of a machine, starting at some place, as the process sees them. */
  ghost predicate Shown(places: seq<Chest.Slot>, base: nat, inv: Inventory) {
    forall s :: 0 <= s < |inv| ==> ShownAt(places, base, inv, s)
  }

  predicate ShownAt(places: seq<Chest.Slot>, base: nat, inv: Inventory, s: nat)
    requires s < |inv|
  {
    base + s < |places| && places[base + s].shadow == inv[s]
  }

  /** The first n drops into an inventory, one after the other, each taken in full. */
  predicate Accepts(inv: Inventory, ds: seq<Drop>, n: nat)
    requires n <= |ds|
    decreases n, 0
  {
    n > 0 ==>
    && Accepts(inv, ds, n - 1) && ds[n - 1].place < |inv|
    && Takes(Accept(inv, ds, n - 1)[ds[n - 1].place], ds[n - 1].item, ds[n - 1].amount)
  }

  function Accept(inv: Inventory, ds: seq<Drop>, n: nat): (r: Inventory)
    requires n <= |ds| && Accepts(inv, ds, n)
    ensures |r| == |inv|
    decreases n, 1
  {
    if n == 0 then inv
    else Add(Accept(inv, ds, n - 1), ds[n - 1].item, Insertion(ds[n - 1].place, ds[n - 1].amount))
  }

  /** Drops into a machine, where it stands. */
  function At(base: nat, ds: seq<Drop>): (r: seq<Drop>)
    ensures |r| == |ds| && forall k :: 0 <= k < |r| ==> r[k] == Drop(base + ds[k].place, ds[k].item, ds[k].amount)
  {
    seq(|ds|, k requires 0 <= k < |ds| => Drop(base + ds[k].place, ds[k].item, ds[k].amount))
  }

  /** Drops leave what other slots offer alone. */
  ghost predicate SameOffers(places: seq<Chest.Slot>, places': seq<Chest.Slot>) {
    |places'| == |places| && forall c :: 0 <= c < |places| ==> places'[c].offered == places[c].offered
  }

  lemma DropShown(places: seq<Chest.Slot>, t: nat, base: nat, inv: Inventory, d: Drop, k: nat)
    requires Shown(places, base, inv) && d.place < |inv| && Takes(inv[d.place], d.item, d.amount)
    ensures base + d.place < |places| && Takes(places[base + d.place].shadow, d.item, d.amount)
    ensures var places' := places[base + d.place := Chest.Step(places[base + d.place], DropEvent(t, d, k))];
      SameOffers(places, places') && Shown(places', base, Add(inv, d.item, Insertion(d.place, d.amount)))
  {
    assert ShownAt(places, base, inv, d.place);
    var places' := places[base + d.place := Chest.Step(places[base + d.place], DropEvent(t, d, k))];
    forall s | 0 <= s < |inv| ensures ShownAt(places', base, Add(inv, d.item, Insertion(d.place, d.amount)), s) {
      assert ShownAt(places, base, inv, s);
    }
  }

  lemma {:induction false} DropsShown(places: seq<Chest.Slot>, t: nat, base: nat, inv: Inventory, ds: seq<Drop>, n: nat)
    requires n <= |ds| && Shown(places, base, inv) && Accepts(inv, ds, n)
    ensures CanDrop(places, t, At(base, ds), n)
    ensures SameOffers(places, DropAll(places, t, At(base, ds), n))
    ensures Shown(DropAll(places, t, At(base, ds), n), base, Accept(inv, ds, n))
    decreases n
  {
    if n > 0 {
      DropsShown(places, t, base, inv, ds, n - 1);
      DropShown(DropAll(places, t, At(base, ds), n - 1), t, base, Accept(inv, ds, n - 1), ds[n - 1], n - 1);
    }
  }

  lemma OffersCover(places: seq<Chest.Slot>, places': seq<Chest.Slot>, books: Books)
    requires BooksCovered(places, books) && SameOffers(places, places')
    ensures BooksCovered(places', books)
  {
    forall x | x in books ensures Covered(places', books[x]) {
      assert Covered(places, books[x]);
    }
  }

  // ----- a whole recipe

  /** The slots offer what the books say, and their shadows are what the process plans with. */
  ghost predicate Ready(places: seq<Chest.Slot>, base: nat, inv: Inventory, books: Books) {
    Shown(places, base, inv) && BooksCovered(places, books)
  }

  /** One input of a recipe: its reservation, and the planned transfers. */
  datatype Task = Task(booking: Booking, drops: seq<Drop>, cap: nat)

  function BookingsOf(tasks: seq<Task>): (r: seq<Booking>)
    ensures |r| == |tasks| && forall i :: 0 <= i < |r| ==> r[i] == tasks[i].booking
  {
    seq(|tasks|, i requires 0 <= i < |tasks| => tasks[i].booking)
  }

  ghost predicate Reserved(books: Books, tasks: seq<Task>) { Booked(books, BookingsOf(tasks)) }

  function LoadOf(base: nat, task: Task): Plant.Load { Plant.Load(DrawsOf(task.booking.taken), At(base, task.drops), task.cap) }

  function LoadsOf(base: nat, tasks: seq<Task>): (r: seq<Plant.Load>)
    ensures |r| == |tasks| && forall i :: 0 <= i < |r| ==> r[i] == LoadOf(base, tasks[i])
  {
    if tasks == [] then [] else [LoadOf(base, tasks[0])] + LoadsOf(base, tasks[1..])
  }

  /** Each planned transfer is taken in full by the machine as the ones before will have left it. */
  predicate Accepted(inv: Inventory, tasks: seq<Task>)
    decreases |tasks|
  {
    tasks != [] ==>
    && Accepts(inv, tasks[0].drops, |tasks[0].drops|)
    && Accepted(Accept(inv, tasks[0].drops, |tasks[0].drops|), tasks[1..])
  }

  lemma {:induction false} DrawsShown(places: seq<Chest.Slot>, t: nat, ds: seq<Draw>, base: nat, inv: Inventory)
    requires CanDraw(places, t, ds, |ds|) && Shown(places, base, inv)
    ensures Shown(DrawAll(places, t, ds, |ds|), base, inv)
  {
    forall s | 0 <= s < |inv| ensures ShownAt(DrawAll(places, t, ds, |ds|), base, inv, s) {
      assert ShownAt(places, base, inv, s);
      DrawsElsewhere(places, t, ds, |ds|, base + s);
    }
  }

  lemma TaskMayLoad(places: seq<Chest.Slot>, t: nat, base: nat, inv: Inventory, books: Books, task: Task)
    requires Ready(places, base, inv, books) && task.booking.item in books
    requires Reservations.Drawn(books[task.booking.item], task.booking.left, task.booking.taken) && Accepts(inv, task.drops, |task.drops|)
    ensures var load := LoadOf(base, task);
      && CanDraw(places, t, load.draws, |load.draws|)
      && CanDrop(DrawAll(places, t, load.draws, |load.draws|), t, load.drops, |load.drops|)
      && Ready(Plant.LoadOne(places, t, load), base, Accept(inv, task.drops, |task.drops|), books[task.booking.item := task.booking.left])
  {
    var draws, drops := DrawsOf(task.booking.taken), At(base, task.drops);
    BooksStay(places, t, books, task.booking.item, task.booking.left, task.booking.taken);
    DrawsShown(places, t, draws, base, inv);
    var middle := DrawAll(places, t, draws, |draws|);
    DropsShown(middle, t, base, inv, task.drops, |drops|);
    OffersCover(middle, DropAll(middle, t, drops, |drops|), books[task.booking.item := task.booking.left]);
  }

  /** The machine as the whole plan will leave it. */
  function AcceptAll(inv: Inventory, tasks: seq<Task>): (r: Inventory)
    requires Accepted(inv, tasks)
    ensures |r| == |inv|
    decreases |tasks|
  {
    if tasks == [] then inv else AcceptAll(Accept(inv, tasks[0].drops, |tasks[0].drops|), tasks[1..])
  }

  /** The tasks of a recipe can all load, one after the other; and what they leave, the next job of the cycle can rely on. */
  lemma {:induction false} RecipeMayLoad(places: seq<Chest.Slot>, ts: seq<nat>, base: nat, inv: Inventory, books: Books,
                                         tasks: seq<Task>)
    requires Ready(places, base, inv, books) && |ts| == |tasks| && Reserved(books, tasks) && Accepted(inv, tasks)
    ensures Plant.CanLoad(places, ts, LoadsOf(base, tasks))
    ensures Ready(Plant.LoadAll(places, ts, LoadsOf(base, tasks)), base, AcceptAll(inv, tasks), BooksAfter(books, BookingsOf(tasks)))
    decreases |tasks|
  {
    if tasks != [] {
      var task, load := tasks[0], LoadOf(base, tasks[0]);
      assert BookingsOf(tasks)[1..] == BookingsOf(tasks[1..]);
      TaskMayLoad(places, ts[0], base, inv, books, task);
      RecipeMayLoad(Plant.LoadOne(places, ts[0], load), ts[1..], base, Accept(inv, task.drops, |task.drops|),
                    books[task.booking.item := task.booking.left], tasks[1..]);
      assert LoadsOf(base, tasks)[1..] == LoadsOf(base, tasks[1..]);
    }
  }

  // ----- a crafting job reserves when it starts, and plans when its group is run

  function WithoutDrops(tasks: seq<Task>): (r: seq<Task>)
    ensures |r| == |tasks| && forall i :: 0 <= i < |r| ==> r[i] == tasks[i].(drops := [])
  {
    seq(|tasks|, i requires 0 <= i < |tasks| => tasks[i].(drops := []))
  }

  lemma {:induction false} NothingDropped(inv: Inventory, tasks: seq<Task>)
    ensures Accepted(inv, WithoutDrops(tasks)) && AcceptAll(inv, WithoutDrops(tasks)) == inv
    decreases |tasks|
  {
    if tasks != [] {
      NothingDropped(inv, tasks[1..]);
      assert WithoutDrops(tasks)[1..] == WithoutDrops(tasks[1..]);
    }
  }

  lemma {:induction false} LoadsWithoutDrops(base: nat, tasks: seq<Task>)
    ensures LoadsOf(base, WithoutDrops(tasks)) == Plant.NoDrops(LoadsOf(base, tasks))
    decreases |tasks|
  {
    if tasks != [] {
      LoadsWithoutDrops(base, tasks[1..]);
      assert WithoutDrops(tasks)[1..] == WithoutDrops(tasks[1..]);
      assert At(base, []) == [];
      assert Plant.NoDrops(LoadsOf(base, tasks)) == [LoadOf(base, tasks[0]).(drops := [])] + Plant.NoDrops(LoadsOf(base, tasks[1..]));
    }
  }

  /** The transfers of a whole group, one input after the other. */
  lemma {:induction false} GroupMayLoad(places: seq<Chest.Slot>, ts: seq<nat>, base: nat, grid: Inventory, tasks: seq<Task>,
                                        loads: seq<Plant.Load>)
    requires Shown(places, base, grid) && |ts| == |tasks| == |loads| && Accepted(grid, tasks)
    requires forall i :: 0 <= i < |loads| ==> loads[i].draws == [] && loads[i].drops == At(base, tasks[i].drops)
    ensures Plant.CanLoad(places, ts, loads)
    decreases |tasks|
  {
    if tasks != [] {
      DropsShown(places, ts[0], base, grid, tasks[0].drops, |tasks[0].drops|);
      assert DrawAll(places, ts[0], [], 0) == places;
      GroupMayLoad(Plant.LoadOne(places, ts[0], loads[0]), ts[1..], base,
                   Accept(grid, tasks[0].drops, |tasks[0].drops|), tasks[1..], loads[1..]);
    }
  }

  // ----- plans of a buffered process

  function PlanDrops(item: Item, plan: seq<Insertion>): (r: seq<Drop>)
    ensures |r| == |plan| && forall k :: 0 <= k < |r| ==> r[k] == Drop(plan[k].slot, item, plan[k].amount)
  {
    seq(|plan|, k requires 0 <= k < |plan| => Drop(plan[k].slot, item, plan[k].amount))
  }

  /** A step that is greedy for the shadow is taken by an inventory that the shadow dominates. */
  lemma StepTaken(actual: Inventory, shadow: Inventory, item: Item, ins: Insertion)
    requires Extends(actual, shadow) && GreedyStep(shadow, item, ins)
    ensures ins.slot < |actual| && Takes(actual[ins.slot], item, ins.amount)
    ensures Extends(Add(actual, item, ins), Add(shadow, item, ins))
  {
    assert Grows(actual[ins.slot], shadow[ins.slot]);
    forall s | 0 <= s < |actual| ensures Grows(Add(actual, item, ins)[s], Add(shadow, item, ins)[s]) {
      assert Grows(actual[s], shadow[s]);
    }
  }

  lemma {:induction false} GreedySplit(inv: Inventory, item: Item, plan: seq<Insertion>, n: nat, next: nat)
    requires GreedyPlan(inv, item, plan) && next == n + 1 <= |plan|
    ensures GreedyStep(AddAll(inv, item, plan[..n]), item, plan[n])
    ensures AddAll(inv, item, plan[..next]) == Add(AddAll(inv, item, plan[..n]), item, plan[n])
    decreases n
  {
    if n == 0 {
      assert plan[..next] == [plan[0]] && [plan[0]][1..] == [];
    } else {
      GreedySplit(Add(inv, item, plan[0]), item, plan[1..], n - 1, n);
      assert plan[..n][1..] == plan[1..][..n - 1] && plan[..next][1..] == plan[1..][..n];
    }
  }

  /** As far as the plan goes: what is taken so far is still dominated by the shadow. */
  lemma {:induction false} PlanTakenUpTo(actual: Inventory, shadow: Inventory, item: Item, plan: seq<Insertion>, n: nat)
    requires Extends(actual, shadow) && GreedyPlan(shadow, item, plan) && n <= |plan|
    ensures Accepts(actual, PlanDrops(item, plan), n)
    ensures Extends(Accept(actual, PlanDrops(item, plan), n), AddAll(shadow, item, plan[..n]))
    decreases n
  {
    if n > 0 {
      PlanTakenUpTo(actual, shadow, item, plan, n - 1);
      GreedySplit(shadow, item, plan, n - 1, n);
      StepTaken(Accept(actual, PlanDrops(item, plan), n - 1), AddAll(shadow, item, plan[..n - 1]), item, plan[n - 1]);
    }
  }

  /** These tasks carry out these plans. */
  predicate Follows(tasks: seq<Task>, wants: seq<Want>, plans: seq<seq<Insertion>>) {
    && |tasks| == |wants| == |plans|
    && forall i :: 0 <= i < |tasks| ==> tasks[i].drops == PlanDrops(wants[i].item, plans[i])
  }

  /** What a buffered process plans on its shadow is taken by the machine, which the shadow dominates. */
  lemma {:induction false} PlansAreAccepted(actual: Inventory, shadow: Inventory, wants: seq<Want>, tasks: seq<Task>)
    requires Extends(actual, shadow) && InsertAll(shadow, wants).Some?
    requires Follows(tasks, wants, Buffered.Plans(shadow, wants))
    ensures Accepted(actual, tasks)
    decreases |wants|
  {
    if wants != [] {
      var item, r := wants[0].item, Insert(shadow, wants[0].item, wants[0].amount);
      var plan, plans := r.insertions, Buffered.Plans(shadow, wants);
      InsertIsGreedy(shadow, item, wants[0].amount);
      PlanTakenUpTo(actual, shadow, item, plan, |plan|);
      assert plan[..|plan|] == plan && tasks[0].drops == PlanDrops(item, plan);
      forall i | 0 <= i < |tasks[1..]| ensures tasks[1..][i].drops == PlanDrops(wants[1..][i].item, plans[1..][i]) {
        assert tasks[i + 1].drops == PlanDrops(wants[i + 1].item, plans[i + 1]);
      }
      PlansAreAccepted(Accept(actual, PlanDrops(item, plan), |plan|), r.inv, wants[1..], tasks[1..]);
    }
  }

  // ----- transfers to different slots

  ghost predicate DistinctDrops(ds: seq<Drop>) {
    forall i, j :: 0 <= i < j < |ds| ==> ds[i].place != ds[j].place
  }

  ghost predicate EachTaken(inv: Inventory, ds: seq<Drop>) {
    forall k :: 0 <= k < |ds| ==> ds[k].place < |inv| && Takes(inv[ds[k].place], ds[k].item, ds[k].amount)
  }

  /** Transfers to different slots do not stand in each other's way. */
  lemma {:induction false} DistinctAccepted(inv: Inventory, ds: seq<Drop>, n: nat)
    requires n <= |ds| && DistinctDrops(ds) && EachTaken(inv, ds)
    ensures Accepts(inv, ds, n)
    ensures forall s :: 0 <= s < |inv| && (forall k :: 0 <= k < n ==> ds[k].place != s) ==> Accept(inv, ds, n)[s] == inv[s]
    decreases n
  {
    if n > 0 {
      DistinctAccepted(inv, ds, n - 1);
    }
  }

  /** No two transfers of the recipe go to the same slot. */
  ghost predicate AllDistinct(tasks: seq<Task>) {
    && (forall i :: 0 <= i < |tasks| ==> DistinctDrops(tasks[i].drops))
    && forall i, j, k, l :: 0 <= i < j < |tasks| && 0 <= k < |tasks[i].drops| && 0 <= l < |tasks[j].drops| ==>
         tasks[i].drops[k].place != tasks[j].drops[l].place
  }

  ghost predicate AllTaken(inv: Inventory, tasks: seq<Task>) {
    forall i :: 0 <= i < |tasks| ==> EachTaken(inv, tasks[i].drops)
  }

  lemma TakenElsewhere(inv: Inventory, inv': Inventory, ds: seq<Drop>)
    requires EachTaken(inv, ds) && |inv'| == |inv| && forall k :: 0 <= k < |ds| ==> inv'[ds[k].place] == inv[ds[k].place]
    ensures EachTaken(inv', ds)
  {}

  lemma RestTaken(inv: Inventory, inv': Inventory, tasks: seq<Task>)
    requires tasks != [] && AllDistinct(tasks) && AllTaken(inv, tasks) && |inv'| == |inv|
    requires forall s :: 0 <= s < |inv| && (forall k :: 0 <= k < |tasks[0].drops| ==> tasks[0].drops[k].place != s) ==>
      inv'[s] == inv[s]
    ensures AllTaken(inv', tasks[1..])
  {
    forall i | 0 <= i < |tasks[1..]| ensures EachTaken(inv', tasks[1..][i].drops) {
      var ds := tasks[i + 1].drops;
      assert EachTaken(inv, ds);
      forall k | 0 <= k < |ds| ensures inv'[ds[k].place] == inv[ds[k].place] {
        assert forall l :: 0 <= l < |tasks[0].drops| ==> tasks[0].drops[l].place != ds[k].place;
      }
      TakenElsewhere(inv, inv', ds);
    }
  }

  lemma RestDistinct(tasks: seq<Task>)
    requires tasks != [] && AllDistinct(tasks)
    ensures AllDistinct(tasks[1..])
  {
    forall i | 0 <= i < |tasks[1..]| ensures DistinctDrops(tasks[1..][i].drops) {
      assert DistinctDrops(tasks[i + 1].drops);
    }
    forall i, j, k, l | 0 <= i < j < |tasks[1..]| && 0 <= k < |tasks[1..][i].drops| && 0 <= l < |tasks[1..][j].drops|
      ensures tasks[1..][i].drops[k].place != tasks[1..][j].drops[l].place
    {
      assert tasks[i + 1].drops[k].place != tasks[j + 1].drops[l].place;
    }
  }

  lemma {:induction false} DifferentSlotsAccepted(inv: Inventory, tasks: seq<Task>)
    requires AllDistinct(tasks) && AllTaken(inv, tasks)
    ensures Accepted(inv, tasks)
    decreases |tasks|
  {
    if tasks != [] {
      var ds := tasks[0].drops;
      assert EachTaken(inv, ds) && DistinctDrops(ds);
      DistinctAccepted(inv, ds, |ds|);
      RestTaken(inv, Accept(inv, ds, |ds|), tasks);
      RestDistinct(tasks);
      DifferentSlotsAccepted(Accept(inv, ds, |ds|), tasks[1..]);
    }
  }

  /** The transfers of an input of a slotted recipe. */
  function ShareDrops(uses: seq<Slotted.Use<nat>>, item: Item, n: nat): (r: seq<Drop>)
    ensures |r| == |uses| && forall k :: 0 <= k < |r| ==> r[k] == Drop(uses[k].slot, item, n * uses[k].mult)
  {
    seq(|uses|, k requires 0 <= k < |uses| => Drop(uses[k].slot, item, n * uses[k].mult))
  }

  /** The machine's slots, by number. */
  ghost predicate Numbered(inv: Inventory, existing: Slotted.Slots<nat>) {
    forall s :: s in existing ==> s < |inv| && inv[s] == existing[s]
  }

  lemma ShareTaken(inv: Inventory, existing: Slotted.Slots<nat>, use: Slotted.Use<nat>, item: Item, maxSets: int, n: nat)
    requires Numbered(inv, existing) && use.slot in existing && use.mult > 0 && n > 0
    requires Slotted.Fits(existing, use, item, maxSets, n)
    ensures use.slot < |inv| && Takes(inv[use.slot], item, n * use.mult)
  {
    MulNat(n - 1, use.mult);
    assert n * use.mult == (n - 1) * use.mult + use.mult;
  }

  lemma InputTaken(inv: Inventory, existing: Slotted.Slots<nat>, uses: seq<Slotted.Use<nat>>, item: Item, maxSets: int, n: nat)
    requires Numbered(inv, existing) && n > 0 && Slotted.WellFormed(existing, uses)
    requires Slotted.InputFits(existing, uses, item, maxSets, n) && Slotted.DistinctUses(uses)
    ensures EachTaken(inv, ShareDrops(uses, item, n)) && DistinctDrops(ShareDrops(uses, item, n))
  {
    forall k | 0 <= k < |uses| ensures uses[k].slot < |inv| && Takes(inv[uses[k].slot], item, n * uses[k].mult) {
      ShareTaken(inv, existing, uses[k], item, maxSets, n);
    }
  }

  /** An acceptable number of sets of a slotted recipe is taken by the machine. */
  lemma SharesAreAccepted(inv: Inventory, existing: Slotted.Slots<nat>, d: Slotted.Demand<nat>, n: nat, tasks: seq<Task>)
    requires Numbered(inv, existing) && n > 0 && Slotted.DemandOk(existing, d) && Slotted.Acceptable(existing, d, n)
    requires Slotted.DistinctInputs(d.recipe.inputs) && |tasks| == |d.items|
    requires forall i :: 0 <= i < |tasks| ==> tasks[i].drops == ShareDrops(d.recipe.inputs[i], d.items[i], n)
    ensures Accepted(inv, tasks)
  {
    forall i | 0 <= i < |tasks| ensures EachTaken(inv, tasks[i].drops) && DistinctDrops(tasks[i].drops) {
      InputTaken(inv, existing, d.recipe.inputs[i], d.items[i], d.recipe.maxSets, n);
    }
    forall i, j, k, l | 0 <= i < j < |tasks| && 0 <= k < |tasks[i].drops| && 0 <= l < |tasks[j].drops|
      ensures tasks[i].drops[k].place != tasks[j].drops[l].place
    {
      assert d.recipe.inputs[i][k].slot in Slotted.UsedBy(d.recipe.inputs[i]);
      assert d.recipe.inputs[j][l].slot in Slotted.UsedBy(d.recipe.inputs[j]);
    }
    DifferentSlotsAccepted(inv, tasks);
  }

  /** The transfers of a scattering process to slots below k. */
  function ScatterDrops(insertions: map<nat, nat>, item: Item, k: nat): seq<Drop> {
    if k == 0 then []
    else ScatterDrops(insertions, item, k - 1) + (if k - 1 in insertions then [Drop(k - 1, item, insertions[k - 1])] else [])
  }

  lemma {:induction false} ScatterDistinct(inv: Inventory, insertions: map<nat, nat>, item: Item, k: nat)
    requires k <= |inv|
    requires forall s :: s in insertions && s < k ==> Takes(inv[s], item, insertions[s])
    ensures EachTaken(inv, ScatterDrops(insertions, item, k)) && DistinctDrops(ScatterDrops(insertions, item, k))
    ensures forall i :: 0 <= i < |ScatterDrops(insertions, item, k)| ==> ScatterDrops(insertions, item, k)[i].place < k
    decreases k
  {
    if k > 0 {
      ScatterDistinct(inv, insertions, item, k - 1);
    }
  }

  /** What a scattering process spreads is taken by the machine. */
  lemma UnitsAreAccepted(before: Inventory, after: Inventory, slots: set<nat>, item: Item, limit: int,
                         insertions: map<nat, nat>, n: nat, task: Task)
    requires Scattering.Spread(before, after, slots, item, limit, insertions, n) && limit <= item.maxSize
    requires task.drops == ScatterDrops(insertions, item, |before|)
    ensures Accepted(before, [task])
  {
    forall s | s in insertions && s < |before| ensures Takes(before[s], item, insertions[s]) {
      assert CountStack(after[s], item) <= limit;
    }
    ScatterDistinct(before, insertions, item, |before|);
    DistinctAccepted(before, task.drops, |task.drops|);
    assert [task][1..] == [];
  }

  /** The transfers to the grid slots of an input of a crafting recipe. */
  function GridDrops(slots: seq<nat>, item: Item, n: nat): (r: seq<Drop>)
    ensures |r| == |slots| && forall k :: 0 <= k < |r| ==> r[k] == Drop(slots[k], item, n)
  {
    seq(|slots|, k requires 0 <= k < |slots| => Drop(slots[k], item, n))
  }

  /** An empty grid, and a recipe that puts so much into each slot that one of its inputs names. */
  ghost predicate GridPlan(grid: Inventory, slots: seq<seq<nat>>, items: seq<Item>, n: nat, tasks: seq<Task>) {
    && |slots| == |items| == |tasks| && (forall s :: 0 <= s < |grid| ==> grid[s].None?)
    && (forall i :: 0 <= i < |slots| ==> 0 < n <= items[i].maxSize && tasks[i].drops == GridDrops(slots[i], items[i], n))
    && (forall i, k :: 0 <= i < |slots| && 0 <= k < |slots[i]| ==> slots[i][k] < |grid|)
    && AllDistinct(tasks)
  }

  /** An empty grid takes at most one stack of each input in each of its slots. */
  lemma GridAccepts(grid: Inventory, slots: seq<seq<nat>>, items: seq<Item>, n: nat, tasks: seq<Task>)
    requires GridPlan(grid, slots, items, n, tasks)
    ensures Accepted(grid, tasks)
  {
    forall i | 0 <= i < |tasks| ensures EachTaken(grid, tasks[i].drops) {
      forall k | 0 <= k < |tasks[i].drops|
        ensures tasks[i].drops[k].place < |grid|
        ensures Takes(grid[tasks[i].drops[k].place], tasks[i].drops[k].item, tasks[i].drops[k].amount)
      {
        assert slots[i][k] < |grid|;
      }
    }
    DifferentSlotsAccepted(grid, tasks);
  }

  // ----- from the listing of the chests to the start of a job

  /** Where the chests' slots are among all places. */
  ghost predicate Placed(places: seq<Chest.Slot>, listings: seq<Inventory>, bases: seq<nat>) {
    && |bases| == |listings|
    && forall k, s :: 0 <= k < |listings| && 0 <= s < |listings[k]| ==>
         bases[k] + s < |places| && places[bases[k] + s] == Chest.Listed(listings[k][s])
  }

  /** These are the books after the chests have been read: each stack is there once, and nothing else is. */
  ghost predicate ListBooks(listings: seq<Inventory>, bases: seq<nat>, books: Books)
    requires |bases| == |listings|
  {
    forall x, e :: x in books ==> multiset(books[x])[e] == if Listing.IsOfferIn(listings, bases, x, e) then 1 else 0
  }

  lemma {:induction false} AmountOfNone(es: seq<Reservations.Entry>, p: Reservations.Provider)
    requires forall e :: e in es ==> e.provider != p
    ensures Reservations.Amount(es, p) == 0
    decreases |es|
  {
    if es != [] {
      assert es[0] in es && forall e :: e in es[1..] ==> e in es;
      AmountOfNone(es[1..], p);
    }
  }

  /** A provider that is there once. */
  lemma {:induction false} AmountOfOne(es: seq<Reservations.Entry>, e: Reservations.Entry)
    requires multiset(es)[e] == 1 && forall f :: f in es && f.provider == e.provider ==> f == e
    ensures Reservations.Amount(es, e.provider) == e.n
    decreases |es|
  {
    assert es != [];
    assert es == [es[0]] + es[1..];
    assert multiset(es) == multiset{es[0]} + multiset(es[1..]);
    assert forall f :: f in es[1..] ==> f in es;
    if es[0] == e {
      assert e !in multiset(es[1..]);
      AmountOfNone(es[1..], e.provider);
    } else {
      assert es[0] in es && es[0].provider != e.provider;
      AmountOfOne(es[1..], e);
    }
  }

  /** A place that provides an item is the slot of one chest, and holds a stack of it. */
  lemma ProviderIsListed(listings: seq<Inventory>, bases: seq<nat>, books: Books, x: Item, p: Reservations.Provider)
    returns (k: nat, e: Reservations.Entry)
    requires Listing.StandApart(listings, bases) && ListBooks(listings, bases, books) && x in books
    requires Reservations.Amount(books[x], p) > 0
    ensures k < |listings| && Listing.IsOffer(listings[k], bases[k], x, e) && e.provider == p
    ensures Reservations.Amount(books[x], p) == e.n
  {
    var es := books[x];
    Reservations.AmountPresent(es, p);
    var i :| 0 <= i < |es| && es[i].provider == p;
    e := es[i];
    assert e in multiset(es);
    k :| 0 <= k < |listings| && Listing.IsOffer(listings[k], bases[k], x, e);
    forall f | f in es && f.provider == e.provider ensures f == e {
      assert f in multiset(es);
      var l :| 0 <= l < |listings| && Listing.IsOffer(listings[l], bases[l], x, f);
      SamePlace(listings, bases, k, l, x, e, x, f);
    }
    AmountOfOne(es, e);
  }

  lemma SamePlace(listings: seq<Inventory>, bases: seq<nat>, k: nat, l: nat, x: Item, e: Reservations.Entry, y: Item,
                  f: Reservations.Entry)
    requires Listing.StandApart(listings, bases) && k < |listings| && l < |listings|
    requires Listing.IsOffer(listings[k], bases[k], x, e) && Listing.IsOffer(listings[l], bases[l], y, f)
    requires e.provider.id == f.provider.id
    ensures x == y && e == f
  {}

  lemma ListedCovered(places: seq<Chest.Slot>, listings: seq<Inventory>, bases: seq<nat>, books: Books, x: Item)
    requires Listing.StandApart(listings, bases) && Placed(places, listings, bases)
    requires ListBooks(listings, bases, books) && x in books
    ensures Covered(places, books[x])
  {
    forall p | Reservations.Amount(books[x], p) > 0
      ensures p.id < |places| && Reservations.Amount(books[x], p) <= places[p.id].offered
    {
      var k, e := ProviderIsListed(listings, bases, books, x, p);
      assert places[bases[k] + (p.id - bases[k])] == Chest.Listed(listings[k][p.id - bases[k]]);
    }
    forall p, q | Reservations.Amount(books[x], p) > 0 && Reservations.Amount(books[x], q) > 0 && p.id == q.id ensures p == q {
      var k, e := ProviderIsListed(listings, bases, books, x, p);
      var l, f := ProviderIsListed(listings, bases, books, x, q);
      SamePlace(listings, bases, k, l, x, e, x, f);
    }
  }

  lemma ListedApart(listings: seq<Inventory>, bases: seq<nat>, books: Books, x: Item, y: Item)
    requires Listing.StandApart(listings, bases) && ListBooks(listings, bases, books) && x in books && y in books && x != y
    ensures Apart(books[x], books[y])
  {
    forall p, q | Reservations.Amount(books[x], p) > 0 && Reservations.Amount(books[y], q) > 0 ensures p.id != q.id {
      if p.id == q.id {
        var k, e := ProviderIsListed(listings, bases, books, x, p);
        var l, f := ProviderIsListed(listings, bases, books, y, q);
        SamePlace(listings, bases, k, l, x, e, y, f);
      }
    }
  }

  /** The books of freshly read chests are covered by what their slots offer. */
  lemma ListedBooksAreCovered(places: seq<Chest.Slot>, listings: seq<Inventory>, bases: seq<nat>, books: Books)
    requires Listing.StandApart(listings, bases) && Placed(places, listings, bases) && ListBooks(listings, bases, books)
    ensures BooksCovered(places, books)
  {
    forall x | x in books ensures Covered(places, books[x]) {
      ListedCovered(places, listings, bases, books, x);
    }
    forall x, y | x in books && y in books && x != y ensures Apart(books[x], books[y]) {
      ListedApart(listings, bases, books, x, y);
    }
  }

  /** A cycle begins: the chests are read into empty books, which their slots then cover. */
  method ReadChests(storages: seq<Chest.ChestStorage>, table: ItemTable, listings: seq<Inventory>, bases: seq<nat>,
                    ghost places: seq<Chest.Slot>)
    returns (ghost books: Books)
    requires table.Valid() && table.items == map[] && |storages| == |listings| && Chest.Different(storages)
    requires Listing.StandApart(listings, bases) && Placed(places, listings, bases)
    modifies (set i | 0 <= i < |storages| :: storages[i]), table, table.items.Values
    ensures table.Valid() && table.Keeps(books) && books.Keys == table.items.Keys && BooksCovered(places, books)
    ensures forall k :: 0 <= k < |storages| ==> storages[k].stacks == listings[k]
    ensures forall x :: table.GetNStored(x) == Chest.CountAll(listings, x)
  {
    Listing.UpdateAll(storages, table, listings, bases);
    books := map x | x in table.items :: table.items[x].providers;
    forall x, e | x in books
      ensures multiset(books[x])[e] == if Listing.IsOfferIn(listings, bases, x, e) then 1 else 0
    {
      assert table.Heap(x)[e] == if Listing.IsOfferIn(listings, bases, x, e) then 1 else 0;
    }
    ListedBooksAreCovered(places, listings, bases, books);
  }

  lemma CraftingMayLoad(places: seq<Chest.Slot>, ts: seq<nat>, base: nat, inv: Inventory, books: Books, tasks: seq<Task>)
    requires Ready(places, base, inv, books) && |ts| == |tasks| && Reserved(books, tasks)
    ensures Plant.CanLoad(places, ts, Plant.NoDrops(LoadsOf(base, tasks)))
    ensures Ready(Plant.LoadAll(places, ts, Plant.NoDrops(LoadsOf(base, tasks))), base, inv, BooksAfter(books, BookingsOf(tasks)))
  {
    NothingDropped(inv, tasks);
    assert BookingsOf(WithoutDrops(tasks)) == BookingsOf(tasks);
    LoadsWithoutDrops(base, tasks);
    RecipeMayLoad(places, ts, base, inv, books, WithoutDrops(tasks));
  }

  lemma MayLaunch(p: Plant.Plant, j: nat, kind: JobRuns.Kind, ts: seq<nat>, loads: seq<Plant.Load>)
    requires JobRuns.MayBegin(p.world, j, kind, ts, Plant.UsesOf(loads))
    requires Plant.CanLoad(p.places, ts, Plant.AtOnce(kind, loads))
    ensures Plant.May(p, Plant.Launch(j, kind, ts, loads))
    ensures Plant.After(p, Plant.Launch(j, kind, ts, loads)).places == Plant.LoadAll(p.places, ts, Plant.AtOnce(kind, loads))
  {}

  /** A process may start its job: the reservations are such as ItemInfo.Reserve makes, and the machine takes the plan; a
      crafting process only has to make its reservations, whatever is planned or done with its grid. All that Plant proves of
      jobs then holds of this one; and the books and the shadows are such that the next job of the cycle may start. */
  lemma RecipeMayLaunch(p: Plant.Plant, j: nat, kind: JobRuns.Kind, ts: seq<nat>, base: nat, inv: Inventory, books: Books,
                        tasks: seq<Task>)
    requires Ready(p.places, base, inv, books) && |ts| == |tasks| && Reserved(books, tasks)
    requires kind.Crafting? || Accepted(inv, tasks)
    requires JobRuns.MayBegin(p.world, j, kind, ts, Plant.UsesOf(LoadsOf(base, tasks)))
    ensures Plant.May(p, Plant.Launch(j, kind, ts, LoadsOf(base, tasks)))
    ensures Ready(Plant.After(p, Plant.Launch(j, kind, ts, LoadsOf(base, tasks))).places, base,
                  if kind.Crafting? then inv else AcceptAll(inv, tasks), BooksAfter(books, BookingsOf(tasks)))
  {
    if kind.Crafting? {
      CraftingMayLoad(p.places, ts, base, inv, books, tasks);
    } else {
      RecipeMayLoad(p.places, ts, base, inv, books, tasks);
    }
    MayLaunch(p, j, kind, ts, LoadsOf(base, tasks));
  }

  /** When the group of a crafting job is to be run, and its grid is seen to be empty, the grid takes all that the group brings:
      so recipes that were started together for one grid are run one after the other. */
  lemma GroupMayRun(p: Plant.Plant, j: nat, base: nat, grid: Inventory, slots: seq<seq<nat>>, items: seq<Item>, n: nat,
                    tasks: seq<Task>)
    requires JobRuns.InStage(p.world, j, JobRuns.Unloading) && p.world.jobs[j].kind.Crafting?
    requires |p.world.jobs[j].parts| == |tasks| && Shown(p.places, base, grid) && GridPlan(grid, slots, items, n, tasks)
    requires forall i :: 0 <= i < |tasks| ==>
      p.world.jobs[j].parts[i] in p.late && p.late[p.world.jobs[j].parts[i]] == At(base, tasks[i].drops)
    ensures Plant.May(p, Plant.RunGroup(j))
  {
    var ts := p.world.jobs[j].parts;
    GridAccepts(grid, slots, items, n, tasks);
    GroupMayLoad(p.places, ts, base, grid, tasks, Plant.GroupLoads(p.late, ts));
  }

  lemma GridIsShown(g: Plant.Plant, base: nat, grid: Inventory)
    requires base + |grid| <= |g.places| && forall s :: 0 <= s < |grid| ==> grid[s].None?
    requires forall c :: base <= c < base + |grid| ==> g.places[c].shadow.None?
    ensures Shown(g.places, base, grid)
  {}

  /** Once the group before has let go of the grid and its sets are crafted, the group of the next recipe can be run. */
  lemma NextGroupMayRun(p: Plant.Plant, j: nat, base: nat, grid: Inventory, slots: seq<seq<nat>>, items: seq<Item>, n: nat,
                        tasks: seq<Task>) returns (acts: seq<Plant.PlantAction>)
    requires Plant.PlantInv(p) && Plant.GridFree(p, base, |grid|) && GridPlan(grid, slots, items, n, tasks)
    requires JobRuns.InStage(p.world, j, JobRuns.Unloading) && p.world.jobs[j].kind.Crafting?
    requires |p.world.jobs[j].parts| == |tasks|
    requires forall i :: 0 <= i < |tasks| ==>
      p.world.jobs[j].parts[i] in p.late && p.late[p.world.jobs[j].parts[i]] == At(base, tasks[i].drops)
    ensures Plant.CanGo(p, acts) && Plant.May(Plant.Go(p, acts), Plant.RunGroup(j))
  {
    var g: Plant.Plant;
    acts, g := Plant.GridIsNew(p, base, |grid|);
    GridIsShown(g, base, grid);
    GroupMayRun(g, j, base, grid, slots, items, n, tasks);
  }

  // ----- the loads are the uses that the processes ask for (Jobs)

  lemma {:induction false} FillsAreDraws(entries: seq<Reservations.Entry>)
    ensures Drawn(DrawsOf(entries)) == Jobs.Fills(entries)
    decreases |entries|
  {
    if entries != [] {
      FillsAreDraws(entries[1..]);
      assert Drawn(DrawsOf(entries)) == [entries[0].n] + Drawn(DrawsOf(entries[1..]));
    }
  }

  lemma {:induction false} UnitsAreDrops(base: nat, item: Item, plan: seq<Insertion>)
    ensures Dropped(At(base, PlanDrops(item, plan))) == Jobs.Units(plan)
    decreases |plan|
  {
    if plan != [] {
      UnitsAreDrops(base, item, plan[1..]);
      assert Dropped(At(base, PlanDrops(item, plan))) == [plan[0].amount] + Dropped(At(base, PlanDrops(item, plan[1..])));
    }
  }

  lemma {:induction false} ScatteredAreDrops(base: nat, insertions: map<nat, nat>, item: Item, k: nat)
    ensures Dropped(At(base, ScatterDrops(insertions, item, k))) == Jobs.Drops(insertions, k)
    decreases k
  {
    if k > 0 {
      ScatteredAreDrops(base, insertions, item, k - 1);
    }
  }

  lemma {:induction false} CopiesAreDrops(base: nat, slots: seq<nat>, item: Item, n: nat)
    ensures Dropped(At(base, GridDrops(slots, item, n))) == Jobs.Copies(|slots|, n)
    decreases |slots|
  {
    if slots != [] {
      CopiesAreDrops(base, slots[1..], item, n);
      assert Dropped(At(base, GridDrops(slots, item, n))) == [n] + Dropped(At(base, GridDrops(slots[1..], item, n)));
    }
  }

  /** A task asks for the use of the bus that its process has worked out: its reservation in, its planned transfers out. */
  lemma LoadsAreUses(base: nat, task: Task)
    ensures Plant.UseOf(LoadOf(base, task)).fills == Jobs.Fills(task.booking.taken)
    ensures forall plan :: task.drops == PlanDrops(task.booking.item, plan) ==>
      Plant.UseOf(LoadOf(base, task)).outs == Jobs.Units(plan)
    ensures forall insertions, k :: task.drops == ScatterDrops(insertions, task.booking.item, k) ==>
      Plant.UseOf(LoadOf(base, task)).outs == Jobs.Drops(insertions, k)
    ensures forall uses, n :: task.drops == ShareDrops(uses, task.booking.item, n) ==>
      Plant.UseOf(LoadOf(base, task)).outs == Slotted.Shares(uses, n)
    ensures forall slots, n :: task.drops == GridDrops(slots, task.booking.item, n) ==>
      Plant.UseOf(LoadOf(base, task)).outs == Jobs.Copies(|slots|, n)
  {
    FillsAreDraws(task.booking.taken);
    forall plan | task.drops == PlanDrops(task.booking.item, plan)
      ensures Plant.UseOf(LoadOf(base, task)).outs == Jobs.Units(plan)
    {
      UnitsAreDrops(base, task.booking.item, plan);
    }
    forall insertions, k | task.drops == ScatterDrops(insertions, task.booking.item, k)
      ensures Plant.UseOf(LoadOf(base, task)).outs == Jobs.Drops(insertions, k)
    {
      ScatteredAreDrops(base, insertions, task.booking.item, k);
    }
    forall slots, n | task.drops == GridDrops(slots, task.booking.item, n)
      ensures Plant.UseOf(LoadOf(base, task)).outs == Jobs.Copies(|slots|, n)
    {
      CopiesAreDrops(base, slots, task.booking.item, n);
    }
  }
}
