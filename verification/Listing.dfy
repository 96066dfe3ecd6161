/** Reading a chest at the start of a cycle (ChestStorage::update in server/RustImpl/src/storage/chest.rs): every
    listed stack is offered under its item, so the counts that recipes see are what was listed. */
module Listing {
  import opened Common
  import opened Items
  import opened Reservations
  import opened Catalog
  import opened Placement
  import Chest

  /** How a stack is offered: by its own place, and fuller stacks are taken from last. */
  predicate IsOfferOf(s: Option<Stack>, place: nat, item: Item, e: Entry) {
    s == Some(Stack(item, e.n)) && e.n > 0 && e.provider.id == place && e.provider.priority == -(e.n as int)
  }

  /** One stack of a chest; `base` numbers its slots among all places that things can be extracted from. */
  predicate IsOffer(listing: Inventory, base: nat, item: Item, e: Entry) {
    base <= e.provider.id < base + |listing| && IsOfferOf(listing[e.provider.id - base], e.provider.id, item, e)
  }

  function OnceIf(b: bool, e: Entry): multiset<Entry> { if b then multiset{e} else multiset{} }

  function EntryOf(stack: Stack, extractor: nat): Entry {
    Entry(Provider(extractor, -(stack.size as int)), stack.size)
  }

  lemma OfferedOnce(stack: Stack, place: nat, x: Item, e: Entry)
    ensures OnceIf(x == stack.item && stack.size > 0, EntryOf(stack, place))[e]
         == if IsOfferOf(Some(stack), place, x, e) then 1 else 0
  {}

  /** Offers some of an item that is in the table. */
  method Enlist(table: ItemTable, item: Item, provider: Provider, n: nat)
    requires table.Valid() && item in table.items
    modifies table.items[item]
    ensures table.Valid()
    ensures forall x :: table.GetNStored(x) == old(table.GetNStored(x)) + (if x == item then n else 0)
    ensures forall x :: table.Heap(x) == old(table.Heap(x)) + OnceIf(x == item && n > 0, Entry(provider, n))
  {
    table.items[item].Provide(provider, n);
    forall x | x in table.items && x != item ensures table.items[x] != table.items[item] {
      assert Separate(table.items);
    }
  }

  /** Offers one stack. */
  method Offer(table: ItemTable, stack: Stack, extractor: nat)
    requires table.Valid()
    modifies table, table.items.Values
    ensures table.Valid() && fresh(table.items.Values - old(table.items.Values))
    ensures forall x :: table.GetNStored(x) == old(table.GetNStored(x)) + (if x == stack.item then stack.size else 0)
    ensures forall x :: table.Heap(x) == old(table.Heap(x)) + OnceIf(x == stack.item && stack.size > 0, EntryOf(stack, extractor))
  {
    var info := table.RegisterStoredItem(stack.item);
    assert info in table.items.Values;
    Enlist(table, stack.item, EntryOf(stack, extractor).provider, stack.size);
  }

  method OfferStack(table: ItemTable, stack: Stack, place: nat)
    requires table.Valid()
    modifies table, table.items.Values
    ensures table.Valid() && fresh(table.items.Values - old(table.items.Values))
    ensures forall x :: table.GetNStored(x) == old(table.GetNStored(x)) + CountStack(Some(stack), x)
    ensures forall x, e ::
      table.Heap(x)[e] == old(table.Heap(x))[e] + (if IsOfferOf(Some(stack), place, x, e) then 1 else 0)
  {
    ghost var heaps := imap x: Item :: table.Heap(x);
    Offer(table, stack, place);
    forall x, e
      ensures table.Heap(x)[e] == heaps[x][e] + (if IsOfferOf(Some(stack), place, x, e) then 1 else 0)
    {
      OneMore(heaps[x], table.Heap(x), stack, place, x, e);
    }
  }

  lemma OneMore(heap: multiset<Entry>, heap': multiset<Entry>, stack: Stack, place: nat, x: Item, e: Entry)
    requires heap' == heap + OnceIf(x == stack.item && stack.size > 0, EntryOf(stack, place))
    ensures heap'[e] == heap[e] + (if IsOfferOf(Some(stack), place, x, e) then 1 else 0)
  {
    OfferedOnce(stack, place, x, e);
  }

  /** Since the table had these counts and heaps, the stacks of a listing have been offered, each once. */
  ghost predicate HasOffers(table: ItemTable, counts: imap<Item, int>, heaps: imap<Item, multiset<Entry>>,
                            listing: Inventory, base: nat)
    reads table, table.items.Values
  {
    && (forall x :: x in counts && table.GetNStored(x) == counts[x] + Count(listing, x))
    && (forall x :: x in heaps)
    && forall x, e :: table.Heap(x)[e] == heaps[x][e] + (if IsOffer(listing, base, x, e) then 1 else 0)
  }

  /** The answer to a chest's listing: the shadow is what was listed, and the count of each item has grown by what the
      chest holds of it; each listed stack is offered once, by its own slot. */
  method Update(storage: Chest.ChestStorage, table: ItemTable, listing: Inventory, base: nat)
    requires table.Valid()
    modifies storage, table, table.items.Values
    ensures storage.stacks == listing
    ensures table.Valid() && fresh(table.items.Values - old(table.items.Values))
    ensures forall x :: table.GetNStored(x) == old(table.GetNStored(x)) + Count(listing, x)
    ensures forall x, e :: table.Heap(x)[e] == old(table.Heap(x))[e] + (if IsOffer(listing, base, x, e) then 1 else 0)
  {
    ghost var counts := imap x: Item :: table.GetNStored(x);
    ghost var heaps := imap x: Item :: table.Heap(x);
    NothingOffered(table, counts, heaps, base);
    storage.stacks := listing;
    assert unchanged(table) && unchanged(table.items.Values);
    for slot := 0 to |listing|
      invariant table.Valid() && fresh(table.items.Values - old(table.items.Values))
      invariant storage.stacks == listing && HasOffers(table, counts, heaps, listing[..slot], base)
      invariant forall x :: counts[x] == old(table.GetNStored(x)) && heaps[x] == old(table.Heap(x))
    {
      OfferSlot(table, listing, slot, base, counts, heaps);
    }
    assert listing[..|listing|] == listing;
  }

  method OfferSlot(table: ItemTable, listing: Inventory, slot: nat, base: nat, ghost counts: imap<Item, int>,
                   ghost heaps: imap<Item, multiset<Entry>>)
    requires table.Valid() && slot < |listing| && HasOffers(table, counts, heaps, listing[..slot], base)
    modifies table, table.items.Values
    ensures table.Valid() && fresh(table.items.Values - old(table.items.Values))
    ensures HasOffers(table, counts, heaps, listing[..slot + 1], base)
  {
    CountNext(listing, slot, slot + 1);
    OfferNext(listing, base, slot, slot + 1);
    if listing[slot].Some? {
      OfferStack(table, listing[slot].value, base + slot);
    }
  }

  lemma NothingOffered(table: ItemTable, counts: imap<Item, int>, heaps: imap<Item, multiset<Entry>>, base: nat)
    requires forall x :: x in counts && counts[x] == table.GetNStored(x)
    requires forall x :: x in heaps && heaps[x] == table.Heap(x)
    ensures HasOffers(table, counts, heaps, [], base)
  {}

  lemma OfferNext(listing: Inventory, base: nat, slot: nat, next: nat)
    requires slot < |listing| && next == slot + 1
    ensures forall x, e :: IsOffer(listing[..next], base, x, e)
                           == (IsOffer(listing[..slot], base, x, e) || IsOfferOf(listing[slot], base + slot, x, e))
    ensures forall x, e :: !IsOffer(listing[..slot], base, x, e) || !IsOfferOf(listing[slot], base + slot, x, e)
  {
    assert listing[..next] == listing[..slot] + [listing[slot]];
  }

  lemma CountNext(listing: Inventory, slot: nat, next: nat)
    requires slot < |listing| && next == slot + 1
    ensures forall x :: Count(listing[..next], x) == Count(listing[..slot], x) + CountStack(listing[slot], x)
  {
    assert listing[..next] == listing[..slot] + [listing[slot]];
    forall x ensures Count(listing[..next], x) == Count(listing[..slot], x) + CountStack(listing[slot], x) {
      CountSnoc(listing[..slot], listing[slot], x);
    }
  }

  // ----- several chests

  /** No place belongs to two chests. */
  ghost predicate StandApart(listings: seq<Inventory>, bases: seq<nat>) {
    && |bases| == |listings|
    && forall k, l :: 0 <= k < |listings| && 0 <= l < |listings| && k != l ==>
         bases[k] + |listings[k]| <= bases[l] || bases[l] + |listings[l]| <= bases[k]
  }

  /** One stack of one of the chests. */
  predicate IsOfferIn(listings: seq<Inventory>, bases: seq<nat>, item: Item, e: Entry)
    requires |bases| == |listings|
  {
    exists k :: 0 <= k < |listings| && IsOffer(listings[k], bases[k], item, e)
  }

  ghost predicate HasAllOffers(table: ItemTable, counts: imap<Item, int>, heaps: imap<Item, multiset<Entry>>,
                               listings: seq<Inventory>, bases: seq<nat>)
    requires |bases| == |listings|
    reads table, table.items.Values
  {
    && (forall x :: x in counts && table.GetNStored(x) == counts[x] + Chest.CountAll(listings, x))
    && (forall x :: x in heaps)
    && forall x, e :: table.Heap(x)[e] == heaps[x][e] + (if IsOfferIn(listings, bases, x, e) then 1 else 0)
  }

  lemma {:induction false} CountAllNext(listings: seq<Inventory>, inv: Inventory, x: Item)
    ensures Chest.CountAll(listings + [inv], x) == Chest.CountAll(listings, x) + Count(inv, x)
    decreases |listings|
  {
    if listings == [] {
      assert listings + [inv] == [inv] && [inv][1..] == [];
    } else {
      assert (listings + [inv])[1..] == listings[1..] + [inv];
      CountAllNext(listings[1..], inv, x);
    }
  }

  lemma NextChest(listings: seq<Inventory>, bases: seq<nat>, k: nat, next: nat, x: Item, e: Entry)
    requires StandApart(listings, bases) && next == k + 1 <= |listings|
    ensures IsOfferIn(listings[..next], bases[..next], x, e)
        <==> IsOfferIn(listings[..k], bases[..k], x, e) || IsOffer(listings[k], bases[k], x, e)
    ensures !IsOfferIn(listings[..k], bases[..k], x, e) || !IsOffer(listings[k], bases[k], x, e)
    ensures Chest.CountAll(listings[..next], x) == Chest.CountAll(listings[..k], x) + Count(listings[k], x)
  {
    assert listings[..next] == listings[..k] + [listings[k]] && bases[..next] == bases[..k] + [bases[k]];
    CountAllNext(listings[..k], listings[k], x);
    if IsOffer(listings[k], bases[k], x, e) {
      assert IsOffer(listings[..next][k], bases[..next][k], x, e);
    }
    if IsOfferIn(listings[..k], bases[..k], x, e) {
      var l :| 0 <= l < k && IsOffer(listings[..k][l], bases[..k][l], x, e);
      assert IsOffer(listings[..next][l], bases[..next][l], x, e);
    }
  }

  method UpdateNext(storage: Chest.ChestStorage, table: ItemTable, listings: seq<Inventory>, bases: seq<nat>, k: nat,
                    ghost counts: imap<Item, int>, ghost heaps: imap<Item, multiset<Entry>>)
    requires table.Valid() && StandApart(listings, bases) && k < |listings|
    requires HasAllOffers(table, counts, heaps, listings[..k], bases[..k])
    modifies storage, table, table.items.Values
    ensures storage.stacks == listings[k]
    ensures table.Valid() && fresh(table.items.Values - old(table.items.Values))
    ensures HasAllOffers(table, counts, heaps, listings[..k + 1], bases[..k + 1])
  {
    Update(storage, table, listings[k], bases[k]);
    forall x
      ensures table.GetNStored(x) == counts[x] + Chest.CountAll(listings[..k + 1], x)
      ensures forall e :: table.Heap(x)[e]
                          == heaps[x][e] + (if IsOfferIn(listings[..k + 1], bases[..k + 1], x, e) then 1 else 0)
    {
      forall e ensures table.Heap(x)[e] == heaps[x][e] + (if IsOfferIn(listings[..k + 1], bases[..k + 1], x, e) then 1 else 0) {
        NextChest(listings, bases, k, k + 1, x, e);
      }
      NextChest(listings, bases, k, k + 1, x, Entry(Provider(0, 0), 0));
    }
  }

  /** The answers of all chests, in the order in which they come in: each stack of each of them is offered once, by its own
      place. */
  method UpdateAll(storages: seq<Chest.ChestStorage>, table: ItemTable, listings: seq<Inventory>, bases: seq<nat>)
    requires table.Valid() && StandApart(listings, bases) && |storages| == |listings| && Chest.Different(storages)
    modifies (set i | 0 <= i < |storages| :: storages[i]), table, table.items.Values
    ensures forall k :: 0 <= k < |storages| ==> storages[k].stacks == listings[k]
    ensures table.Valid() && fresh(table.items.Values - old(table.items.Values))
    ensures forall x :: table.GetNStored(x) == old(table.GetNStored(x)) + Chest.CountAll(listings, x)
    ensures forall x, e :: table.Heap(x)[e] == old(table.Heap(x))[e] + (if IsOfferIn(listings, bases, x, e) then 1 else 0)
  {
    ghost var counts := imap x: Item :: table.GetNStored(x);
    ghost var heaps := imap x: Item :: table.Heap(x);
    NoChestYet(table, counts, heaps);
    UpdateEach(storages, table, listings, bases, counts, heaps);
  }

  lemma NoChestYet(table: ItemTable, counts: imap<Item, int>, heaps: imap<Item, multiset<Entry>>)
    requires forall x :: x in counts && counts[x] == table.GetNStored(x)
    requires forall x :: x in heaps && heaps[x] == table.Heap(x)
    ensures HasAllOffers(table, counts, heaps, [], [])
  {}

  /** The first chests have been read. */
  ghost predicate AreListed(storages: seq<Chest.ChestStorage>, listings: seq<Inventory>, k: nat)
    requires k <= |storages| == |listings|
    reads storages
  {
    forall l :: 0 <= l < k ==> storages[l].stacks == listings[l]
  }

  method UpdateEach(storages: seq<Chest.ChestStorage>, table: ItemTable, listings: seq<Inventory>, bases: seq<nat>,
                    ghost counts: imap<Item, int>, ghost heaps: imap<Item, multiset<Entry>>)
    requires table.Valid() && StandApart(listings, bases) && |storages| == |listings| && Chest.Different(storages)
    requires HasAllOffers(table, counts, heaps, [], [])
    modifies (set i | 0 <= i < |storages| :: storages[i]), table, table.items.Values
    ensures forall k :: 0 <= k < |storages| ==> storages[k].stacks == listings[k]
    ensures table.Valid() && fresh(table.items.Values - old(table.items.Values))
    ensures HasAllOffers(table, counts, heaps, listings, bases)
  {
    assert listings[..0] == [] && bases[..0] == [];
    for k := 0 to |storages|
      invariant table.Valid() && fresh(table.items.Values - old(table.items.Values))
      invariant AreListed(storages, listings, k)
      invariant HasAllOffers(table, counts, heaps, listings[..k], bases[..k])
    {
      UpdateOne(storages, table, listings, bases, k, counts, heaps);
    }
    assert listings[..|storages|] == listings && bases[..|storages|] == bases;
  }

  method UpdateOne(storages: seq<Chest.ChestStorage>, table: ItemTable, listings: seq<Inventory>, bases: seq<nat>, k: nat,
                   ghost counts: imap<Item, int>, ghost heaps: imap<Item, multiset<Entry>>)
    requires table.Valid() && StandApart(listings, bases) && |storages| == |listings| && Chest.Different(storages)
    requires k < |listings| && AreListed(storages, listings, k)
    requires HasAllOffers(table, counts, heaps, listings[..k], bases[..k])
    modifies (set i | 0 <= i < |storages| :: storages[i]), table, table.items.Values
    ensures AreListed(storages, listings, k + 1)
    ensures table.Valid() && fresh(table.items.Values - old(table.items.Values))
    ensures HasAllOffers(table, counts, heaps, listings[..k + 1], bases[..k + 1])
  {
    UpdateNext(storages[k], table, listings, bases, k, counts, heaps);
  }
}
