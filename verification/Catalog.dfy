/** The factory's table of stored items with its two indices (register_stored_item, search_item and
    reserve_item in server/RustImpl/src/factory.rs). */
module Catalog {
  import opened Common
  import opened Items
  import opened Reservations

  /** What a reader of the table sees of an item. */
  datatype Stored = Stored(nStored: int, nBackup: int)

  type Stock = map<Item, Stored>

  /** The items a filter asks for, by looking at every one of them. */
  function Matches(stock: Stock, filter: Filter): set<Item> {
    set x | x in stock && filter.Apply(x)
  }

  /** A filter by label compares titles, one by name names, one by both both; any other is asked about each item. */
  lemma MatchesExactly(stock: Stock, filter: Filter, x: Item)
    ensures filter.ByLabel? ==> (x in Matches(stock, filter) <==> x in stock && x.title == filter.title)
    ensures filter.ByName? ==> (x in Matches(stock, filter) <==> x in stock && x.name == filter.name)
    ensures filter.Both? ==> (x in Matches(stock, filter) <==> x in stock && x.title == filter.title && x.name == filter.name)
    ensures filter.Custom? ==> (x in Matches(stock, filter) <==> x in stock && filter.func(x))
  {}

  /** A search result: none if there is no candidate, else one that is stored in the greatest number. */
  predicate IsBest(stock: Stock, candidates: set<Item>, best: Option<Item>) {
    match best
    case None => candidates == {}
    case Some(x) =>
      && x in candidates && x in stock
      && forall y :: y in candidates && y in stock ==> stock[y].nStored <= stock[x].nStored
  }

  function Title(x: Item): string { x.title }

  function Name(x: Item): string { x.name }

  /** The index lists each stored item under its own key, and nothing else. */
  ghost predicate Lists(index: map<string, seq<Item>>, stored: set<Item>, key: Item -> string) {
    && (forall x :: x in stored ==> key(x) in index && x in index[key(x)])
    && forall k :: k in index ==> forall x :: x in index[k] ==> x in stored && key(x) == k
  }

  function Listed(index: map<string, seq<Item>>, k: string): seq<Item> {
    if k in index then index[k] else []
  }

  lemma ListsOneMore(index: map<string, seq<Item>>, stored: set<Item>, key: Item -> string, item: Item)
    requires Lists(index, stored, key)
    ensures Lists(index[key(item) := Listed(index, key(item)) + [item]], stored + {item}, key)
  {}

  /** No two items share a record. */
  ghost predicate Separate(items: map<Item, ItemInfo>) {
    forall x, y :: x in items && y in items && x != y ==> items[x] != items[y]
  }

  lemma SeparateOneMore(items: map<Item, ItemInfo>, item: Item, info: ItemInfo)
    requires Separate(items) && info !in items.Values
    ensures Separate(items[item := info])
  {
    assert forall x :: x in items ==> items[x] in items.Values;
  }

  /** What the books say about every item: who has how much of it. */
  type Books = map<Item, seq<Entry>>

  /** A reservation: what was taken of an item, and what was left of it in the books. */
  datatype Booking = Booking(item: Item, taken: seq<Entry>, left: seq<Entry>)

  ghost predicate BookedOne(books: Books, b: Booking) {
    b.item in books && Drawn(books[b.item], b.left, b.taken)
  }

  /** Each reservation is one that ItemInfo.Reserve makes from the books as the ones before have left them. */
  ghost predicate Booked(books: Books, bookings: seq<Booking>)
    decreases |bookings|
  {
    bookings != [] ==>
      BookedOne(books, bookings[0]) && Booked(books[bookings[0].item := bookings[0].left], bookings[1..])
  }

  function BooksAfter(books: Books, bookings: seq<Booking>): Books
    decreases |bookings|
  {
    if bookings == [] then books else BooksAfter(books[bookings[0].item := bookings[0].left], bookings[1..])
  }

  lemma {:induction false} BookedOneMore(books: Books, bookings: seq<Booking>, b: Booking)
    requires Booked(books, bookings) && BookedOne(BooksAfter(books, bookings), b)
    ensures Booked(books, bookings + [b])
    ensures BooksAfter(books, bookings + [b]) == BooksAfter(books, bookings)[b.item := b.left]
    decreases |bookings|
  {
    if bookings == [] {
      assert [b][1..] == [];
      assert bookings + [b] == [b];
    } else {
      assert (bookings + [b])[1..] == bookings[1..] + [b];
      BookedOneMore(books[bookings[0].item := bookings[0].left], bookings[1..], b);
    }
  }

  class ItemTable {
    var items: map<Item, ItemInfo>
    var labelMap: map<string, seq<Item>>
    var nameMap: map<string, seq<Item>>

    ghost predicate Valid()
      reads this, items.Values
    {
      && Lists(labelMap, items.Keys, Title)
      && Lists(nameMap, items.Keys, Name)
      && (forall x :: x in items ==> items[x].Valid())
      && Separate(items)
    }

    /** The table contains what a snapshot says. */
    ghost predicate Shows(stock: Stock)
      reads this, items.Values
    {
      stock.Keys == items.Keys && forall x :: x in items ==> stock[x] == Stored(items[x].nStored, items[x].nBackup)
    }

    /** The providers that a snapshot of the books says. */
    ghost predicate Keeps(books: Books)
      reads this, items.Values
    {
      && items.Keys <= books.Keys
      && forall x {:trigger books[x]} :: x in items ==> books[x] == items[x].providers
    }

    /** The heap of an item, which has no order; empty for an item that is not in the table. */
    ghost function Heap(item: Item): multiset<Entry>
      reads this, items.Values
    {
      if item in items then multiset(items[item].providers) else multiset{}
    }

    function GetNStored(item: Item): int
      reads this, items.Values
    {
      if item in items then items[item].nStored else 0
    }

    constructor ()
      ensures Valid() && Shows(map[])
    {
      items, labelMap, nameMap := map[], map[], map[];
    }

    method RegisterStoredItem(item: Item) returns (info: ItemInfo)
      requires Valid()
      modifies this
      ensures Valid() && item in items && items[item] == info
      ensures item in old(items) ==> items == old(items)
      ensures item !in old(items) ==>
        && items == old(items)[item := info]
        && fresh(info) && info.nStored == info.nBackup == 0 && info.providers == []
      ensures forall x :: GetNStored(x) == old(GetNStored(x)) && Heap(x) == old(Heap(x))
      ensures fresh(items.Values - old(items.Values))
    {
      if item in items {
        return items[item];
      }
      info := new ItemInfo();
      Enter(item, info);
    }

    /** Files a new item under its label and its name. */
    method Enter(item: Item, info: ItemInfo)
      requires Valid() && item !in items && info.Valid() && info !in items.Values
      modifies this
      ensures Valid() && items == old(items)[item := info]
    {
      ListsOneMore(labelMap, items.Keys, Title, item);
      ListsOneMore(nameMap, items.Keys, Name, item);
      SeparateOneMore(items, item, info);
      assert items[item := info].Keys == items.Keys + {item};
      labelMap := labelMap[item.title := Listed(labelMap, item.title) + [item]];
      nameMap := nameMap[item.name := Listed(nameMap, item.name) + [item]];
      items := items[item := info];
    }

    /** Weighs a candidate against the best one so far, which it replaces if there is more of it. */
    method OnCandidate(best: Option<Item>, item: Item, ghost stock: Stock, ghost seen: set<Item>)
      returns (r: Option<Item>)
      requires Shows(stock) && item in items && seen <= items.Keys && IsBest(stock, seen, best)
      ensures IsBest(stock, seen + {item}, r)
    {
      if best.Some? && items[item].nStored <= items[best.value].nStored {
        return best;
      }
      return Some(item);
    }

    method ScanList(list: seq<Item>, name: Option<string>, ghost stock: Stock) returns (best: Option<Item>)
      requires Shows(stock) && forall x :: x in list ==> x in items
      ensures IsBest(stock, (set x | x in list && (name.Some? ==> x.name == name.value)), best)
    {
      best := None;
      ghost var seen := {};
      for i := 0 to |list|
        invariant seen == set x | x in list[..i] && (name.Some? ==> x.name == name.value)
        invariant seen <= items.Keys && IsBest(stock, seen, best)
      {
        assert list[..i + 1] == list[..i] + [list[i]];
        assert list[i] in list;
        if name.None? || list[i].name == name.value {
          best := OnCandidate(best, list[i], stock, seen);
          seen := seen + {list[i]};
        }
      }
      assert list[..|list|] == list;
    }

    method ScanAll(func: Item -> bool, ghost stock: Stock) returns (best: Option<Item>)
      requires Shows(stock)
      ensures IsBest(stock, (set x | x in items && func(x)), best)
    {
      best := None;
      var rest := items.Keys;
      ghost var seen := {};
      while rest != {}
        invariant rest <= items.Keys
        invariant seen == set x | x in items && x !in rest && func(x)
        invariant IsBest(stock, seen, best)
        decreases |rest|
      {
        var item :| item in rest;
        rest := rest - {item};
        if func(item) {
          best := OnCandidate(best, item, stock, seen);
          seen := seen + {item};
        }
      }
    }

    /** Searching through the indices gives the same as looking at every stored item. `stock` is what the table
        contains. */
    method SearchItem(filter: Filter, ghost stock: Stock) returns (best: Option<Item>)
      requires Valid() && Shows(stock)
      ensures IsBest(stock, Matches(stock, filter), best)
    {
      match filter {
        case ByLabel(title) =>
          best := ScanList(Listed(labelMap, title), None, stock);
        case ByName(name) =>
          best := ScanList(Listed(nameMap, name), None, stock);
        case Both(title, name) =>
          best := ScanList(Listed(labelMap, title), Some(name), stock);
        case Custom(func) =>
          best := ScanAll(func, stock);
      }
    }

    lemma ShowsTheRest(item: Item, size: nat, stock: Stock)
      requires item in items && stock.Keys == items.Keys
      requires Stored(items[item].nStored, items[item].nBackup) == stock[item].(nStored := stock[item].nStored - size)
      requires forall x :: x in items && x != item ==> Stored(items[x].nStored, items[x].nBackup) == stock[x]
      ensures Shows(Taken(stock, item, size))
    {}

    lemma KeepsTheRest(item: Item, books: Books)
      requires item in items && items.Keys <= books.Keys
      requires forall x :: x in items && x != item ==> books[x] == items[x].providers
      ensures Keeps(books[item := items[item].providers])
    {}

    /** At the end of reading the storages each configured backup goes to the item that its filter finds, if any. */
    method AddBackup(filter: Filter, nBackup: int, ghost stock: Stock) returns (best: Option<Item>)
      requires Valid() && Shows(stock)
      modifies items.Values
      ensures Valid() && items == old(items) && IsBest(stock, Matches(stock, filter), best)
      ensures forall x :: x in items ==> items[x].nStored == stock[x].nStored && items[x].providers == old(items[x].providers)
      ensures forall x :: x in items ==>
        items[x].nBackup == stock[x].nBackup + (if best == Some(x) then nBackup else 0)
    {
      best := SearchItem(filter, stock);
      if best.Some? {
        items[best.value].nBackup := items[best.value].nBackup + nBackup;
        assert forall x :: x in items && x != best.value ==> items[x] != items[best.value];
      }
    }

    /** Takes some of an item out of the table's books. Nothing else changes. */
    method ReserveItem(item: Item, size: nat, ghost stock: Stock, ghost books: Books)
      returns (extractors: seq<Entry>, ghost booking: Booking)
      requires Valid() && Shows(stock) && Keeps(books) && item in items && size <= items[item].nStored
      modifies items[item]
      ensures Valid() && TotalOf(extractors) == size
      ensures Shows(Taken(stock, item, size))
      ensures booking.item == item && booking.taken == extractors
      ensures BookedOne(books, booking) && Keeps(books[item := booking.left])
    {
      assert books[item] == items[item].providers;
      extractors := items[item].Reserve(size);
      booking := Booking(item, extractors, items[item].providers);
      forall x | x in items && x != item
        ensures items[x].Valid() && Stored(items[x].nStored, items[x].nBackup) == stock[x]
        ensures books[x] == items[x].providers
      {
        assert items[x] != items[item];
      }
      ShowsTheRest(item, size, stock);
      KeepsTheRest(item, books);
    }
  }

  function Taken(stock: Stock, item: Item, size: nat): Stock {
    if item in stock then stock[item := stock[item].(nStored := stock[item].nStored - size)] else stock
  }
}
