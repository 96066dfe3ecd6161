/** How many sets of a recipe the storages can supply, and reserving them (server/RustImpl/src/recipe.rs). */
module Recipe {
  import opened Common
  import opened Items
  import opened Reservations
  import opened Catalog
  import opened Supply

  datatype Input = Input(filter: Filter, size: nat, allowBackup: bool, extraBackup: int)

  datatype Resolved = Resolved(nSets: nat, priority: nat, items: seq<Item>)

  function Availability(stored: Stored, input: Input): nat {
    Max(0, stored.nStored - input.extraBackup - (if input.allowBackup then 0 else stored.nBackup))
  }

  /** Each input got an item that matches its filter, one of which most is stored. */
  predicate Chosen(stock: Stock, inputs: seq<Input>, items: seq<Item>) {
    && |items| <= |inputs|
    && forall i :: 0 <= i < |items| ==> IsBest(stock, Matches(stock, inputs[i].filter), Some(items[i]))
  }

  function Avails(stock: Stock, inputs: seq<Input>, items: seq<Item>): (r: seq<nat>)
    requires |items| <= |inputs|
    ensures |r| == |items|
  {
    seq(|items|, i requires 0 <= i < |items| => if items[i] in stock then Availability(stock[items[i]], inputs[i]) else 0)
  }

  function Sizes(inputs: seq<Input>, k: nat): (r: seq<nat>)
    requires k <= |inputs|
    ensures |r| == k
  {
    seq(k, i requires 0 <= i < k => inputs[i].size)
  }

  function StackSizes(items: seq<Item>): (r: seq<nat>)
    ensures |r| == |items|
  {
    seq(|items|, i requires 0 <= i < |items| => items[i].maxSize)
  }

  predicate AllAvailable(stock: Stock, inputs: seq<Input>, items: seq<Item>, n: nat)
    requires |items| == |inputs|
  {
    Available(Avails(stock, inputs, items), Sizes(inputs, |items|), items, n)
  }

  /** The total need of each item is available, and each input is at most one stack, so it fits into a bus slot. */
  predicate Supplied(stock: Stock, inputs: seq<Input>, items: seq<Item>, n: nat)
    requires |items| == |inputs|
  {
    n <= I32_MAX && AllAvailable(stock, inputs, items, n) && Fit(StackSizes(items), Sizes(inputs, |items|), n)
  }

  /** n sets in terms of what is stored: each input is at most one stack, and all inputs of an item together leave the extra
      backup that the first of them names, and the item's own backup unless that input may use it. */
  predicate Affordable(stock: Stock, inputs: seq<Input>, items: seq<Item>, n: nat)
    requires |items| == |inputs| && forall i :: 0 <= i < |items| ==> items[i] in stock
  {
    && n <= I32_MAX && (forall i :: 0 <= i < |inputs| ==> n * inputs[i].size <= items[i].maxSize)
    && forall f :: 0 <= f < |items| && IsFirst(items, f) ==>
         var taken, stored := n * Need(Sizes(inputs, |items|), items, items[f], |items|), stock[items[f]];
         if inputs[f].allowBackup then taken + inputs[f].extraBackup <= stored.nStored
         else taken + inputs[f].extraBackup + stored.nBackup <= stored.nStored
  }

  lemma ChosenAreStored(stock: Stock, inputs: seq<Input>, items: seq<Item>)
    requires Chosen(stock, inputs, items)
    ensures forall i :: 0 <= i < |items| ==> items[i] in stock
  {}

  lemma AvailabilityAt(stock: Stock, inputs: seq<Input>, items: seq<Item>, f: nat, taken: nat)
    requires f < |items| == |inputs| && items[f] in stock && taken > 0
    ensures taken <= Avails(stock, inputs, items)[f]
       <==> if inputs[f].allowBackup then taken + inputs[f].extraBackup <= stock[items[f]].nStored
            else taken + inputs[f].extraBackup + stock[items[f]].nBackup <= stock[items[f]].nStored
  {}

  lemma TakesSome(inputs: seq<Input>, items: seq<Item>, n: nat, f: nat)
    requires f < |items| == |inputs| && n > 0 && inputs[f].size > 0
    ensures n * Need(Sizes(inputs, |items|), items, items[f], |items|) > 0
  {
    NeedGrows(Sizes(inputs, |items|), items, items[f], f + 1, |items|);
    PositiveProduct(n, Need(Sizes(inputs, |items|), items, items[f], |items|));
  }

  /** Sets are supplied exactly if what is stored affords them. */
  lemma SuppliedIsAffordable(stock: Stock, inputs: seq<Input>, items: seq<Item>, n: nat)
    requires |items| == |inputs| && Chosen(stock, inputs, items) && n > 0
    requires forall i :: 0 <= i < |inputs| ==> inputs[i].size > 0
    ensures forall i :: 0 <= i < |items| ==> items[i] in stock
    ensures Supplied(stock, inputs, items, n) <==> Affordable(stock, inputs, items, n)
  {
    ChosenAreStored(stock, inputs, items);
    assert Fit(StackSizes(items), Sizes(inputs, |items|), n) <==> forall i :: 0 <= i < |inputs| ==> n * inputs[i].size <= items[i].maxSize by {
      StackFit(inputs, items, n);
    }
    forall f | 0 <= f < |items| && IsFirst(items, f)
      ensures n * Need(Sizes(inputs, |items|), items, items[f], |items|) <= Avails(stock, inputs, items)[f]
         <==> var taken, stored := n * Need(Sizes(inputs, |items|), items, items[f], |items|), stock[items[f]];
              if inputs[f].allowBackup then taken + inputs[f].extraBackup <= stored.nStored
              else taken + inputs[f].extraBackup + stored.nBackup <= stored.nStored
    {
      TakesSome(inputs, items, n, f);
      AvailabilityAt(stock, inputs, items, f, n * Need(Sizes(inputs, |items|), items, items[f], |items|));
    }
  }

  lemma StackFit(inputs: seq<Input>, items: seq<Item>, n: nat)
    requires |items| == |inputs|
    ensures Fit(StackSizes(items), Sizes(inputs, |items|), n) <==> forall i :: 0 <= i < |inputs| ==> n * inputs[i].size <= items[i].maxSize
  {
    if Fit(StackSizes(items), Sizes(inputs, |items|), n) {
      forall i | 0 <= i < |inputs| ensures n * inputs[i].size <= items[i].maxSize {
        assert n * Sizes(inputs, |items|)[i] <= StackSizes(items)[i];
      }
    }
  }

  /** The state of the lookup after the first inputs. */
  ghost predicate Gathered(stock: Stock, inputs: seq<Input>, items: seq<Item>, infos: map<Item, InputInfo>, bound: int) {
    && Chosen(stock, inputs, items)
    && Noted(infos, Avails(stock, inputs, items), Sizes(inputs, |items|), items)
    && FitBound(bound, I32_MAX, StackSizes(items), Sizes(inputs, |items|))
  }

  lemma OneMore(stock: Stock, inputs: seq<Input>, items: seq<Item>, item: Item)
    requires |items| < |inputs| && item in stock
    ensures Avails(stock, inputs, items + [item])
         == Avails(stock, inputs, items) + [Availability(stock[item], inputs[|items|])]
    ensures Sizes(inputs, |items + [item]|) == Sizes(inputs, |items|) + [inputs[|items|].size]
    ensures StackSizes(items + [item]) == StackSizes(items) + [item.maxSize]
  {}

  lemma GatherOne(stock: Stock, inputs: seq<Input>, items: seq<Item>, infos: map<Item, InputInfo>, bound: int, item: Item)
    requires Gathered(stock, inputs, items, infos, bound) && |items| < |inputs| && inputs[|items|].size > 0
    requires IsBest(stock, Matches(stock, inputs[|items|].filter), Some(item))
    ensures Gathered(stock, inputs, items + [item],
                     Note(infos, Availability(stock[item], inputs[|items|]), inputs[|items|].size, item),
                     Min(bound, TruncDiv(item.maxSize, inputs[|items|].size)))
  {
    var avails, sizes, input := Avails(stock, inputs, items), Sizes(inputs, |items|), inputs[|items|];
    OneMore(stock, inputs, items, item);
    NoteOne(infos, avails, sizes, items, Availability(stock[item], input), input.size, item);
    FitBoundOne(bound, I32_MAX, StackSizes(items), sizes, item.maxSize, input.size);
    ChosenOne(stock, inputs, items, item);
  }

  lemma ChosenOne(stock: Stock, inputs: seq<Input>, items: seq<Item>, item: Item)
    requires Chosen(stock, inputs, items) && |items| < |inputs|
    requires IsBest(stock, Matches(stock, inputs[|items|].filter), Some(item))
    ensures Chosen(stock, inputs, items + [item])
  {}

  method NoteInput(infos: map<Item, InputInfo>, info: ItemInfo, input: Input, item: Item)
    returns (r: map<Item, InputInfo>)
    ensures r == Note(infos, Availability(Stored(info.nStored, info.nBackup), input), input.size, item)
  {
    if item in infos {
      r := infos[item := infos[item].(nNeeded := infos[item].nNeeded + input.size)];
    } else {
      var available := info.GetAvailability(input.allowBackup, input.extraBackup);
      r := infos[item := InputInfo(available, input.size)];
    }
  }

  /** Looks up each input's item, adds up the needs, and bounds the sets by the stack sizes. Stops at an input
      that nothing stored matches. */
  method Gather(table: ItemTable, ghost stock: Stock, inputs: seq<Input>)
    returns (items: seq<Item>, infos: map<Item, InputInfo>, maxSizeBound: int)
    requires table.Valid() && table.Shows(stock) && forall i :: 0 <= i < |inputs| ==> inputs[i].size > 0
    ensures Gathered(stock, inputs, items, infos, maxSizeBound)
    ensures |items| < |inputs| ==> Matches(stock, inputs[|items|].filter) == {}
  {
    items, infos, maxSizeBound := [], map[], I32_MAX;
    for i := 0 to |inputs|
      invariant |items| == i && Gathered(stock, inputs, items, infos, maxSizeBound)
    {
      var best := table.SearchItem(inputs[i].filter, stock);
      if best.None? {
        return;
      }
      var item := best.value;
      GatherOne(stock, inputs, items, infos, maxSizeBound, item);
      infos := NoteInput(infos, table.items[item], inputs[i], item);
      maxSizeBound := Min(maxSizeBound, TruncDiv(item.maxSize, inputs[i].size));
      items := items + [item];
    }
  }

  /** The largest number of sets for which each item's total need is available and each input is at most one
      stack. There is none if some input has no item at all or not even one set is supplied. `items` are the items
      found, up to the first input that has none. */
  method ResolveInputs(table: ItemTable, ghost stock: Stock, inputs: seq<Input>)
    returns (r: Option<Resolved>, items: seq<Item>)
    requires table.Valid() && table.Shows(stock) && forall i :: 0 <= i < |inputs| ==> inputs[i].size > 0
    ensures Chosen(stock, inputs, items)
    ensures r.Some? ==>
      && r.value.items == items && |items| == |inputs| && 0 < r.value.nSets
      && (forall m: nat :: m > 0 ==> (m <= r.value.nSets <==> Supplied(stock, inputs, items, m)))
      && forall m: nat :: m > 0 ==> (m <= r.value.priority <==> m <= I32_MAX && AllAvailable(stock, inputs, items, m))
    ensures r.None? ==>
      || (|items| < |inputs| && Matches(stock, inputs[|items|].filter) == {})
      || (|items| == |inputs| && forall m: nat :: m > 0 ==> !Supplied(stock, inputs, items, m))
    ensures (forall i :: 0 <= i < |items| ==> items[i] in stock)
         && (|items| == |inputs| ==> forall m: nat :: m > 0 ==>
               (Affordable(stock, inputs, items, m) <==> r.Some? && m <= r.value.nSets))
  {
    var found, infos, maxSizeBound := Gather(table, stock, inputs);
    items := found;
    if |found| < |inputs| {
      return None, items;
    }
    var availabilityBound := AvailabilityBound(infos, I32_MAX);
    var nSets := Min(maxSizeBound, availabilityBound);
    BoundsMeet(stock, inputs, items, infos, maxSizeBound, availabilityBound, nSets);
    forall m: nat | m > 0
      ensures Affordable(stock, inputs, items, m) <==> m <= nSets
    {
      SuppliedIsAffordable(stock, inputs, items, m);
    }
    if nSets > 0 {
      return Some(Resolved(nSets, availabilityBound, found)), items;
    }
    return None, items;
  }

  lemma BoundsMeet(stock: Stock, inputs: seq<Input>, items: seq<Item>, infos: map<Item, InputInfo>,
                   maxSizeBound: int, availabilityBound: int, nSets: int)
    requires Gathered(stock, inputs, items, infos, maxSizeBound) && |items| == |inputs|
    requires forall m: nat :: m > 0 ==> (m <= availabilityBound <==> m <= I32_MAX && Covered(infos, infos.Keys, m))
    requires nSets == Min(maxSizeBound, availabilityBound)
    ensures forall m: nat :: m > 0 ==> (m <= availabilityBound <==> m <= I32_MAX && AllAvailable(stock, inputs, items, m))
    ensures forall m: nat :: m > 0 ==> (m <= nSets <==> Supplied(stock, inputs, items, m))
  {
    var sizes := Sizes(inputs, |items|);
    forall m: nat | m > 0
      ensures m <= availabilityBound <==> m <= I32_MAX && AllAvailable(stock, inputs, items, m)
      ensures m <= nSets <==> Supplied(stock, inputs, items, m)
    {
      InfosCover(infos, Avails(stock, inputs, items), sizes, items, m);
      FitBoundAt(maxSizeBound, I32_MAX, StackSizes(items), sizes, m);
      assert m <= availabilityBound <==> m <= I32_MAX && Covered(infos, infos.Keys, m);
    }
  }

  // ----- what is resolved can be reserved

  /** The books after the first k inputs have been reserved for n sets. */
  function Left(stock: Stock, inputs: seq<Input>, items: seq<Item>, n: nat, k: nat): Stock
    requires k <= |items| <= |inputs|
  {
    map x | x in stock :: stock[x].(nStored := stock[x].nStored - n * Need(Sizes(inputs, |items|), items, x, k))
  }

  lemma LeftOne(stock: Stock, inputs: seq<Input>, items: seq<Item>, n: nat, k: nat, next: nat)
    requires k < |inputs| == |items| && next == k + 1 && items[k] in stock
    ensures Left(stock, inputs, items, n, next) == Taken(Left(stock, inputs, items, n, k), items[k], n * inputs[k].size)
  {
    var sizes := Sizes(inputs, |items|);
    forall x ensures n * Need(sizes, items, x, next)
                  == n * Need(sizes, items, x, k) + (if items[k] == x then n * inputs[k].size else 0)
    {
      Scaled(n, Need(sizes, items, x, k), if items[k] == x then inputs[k].size else 0);
    }
  }

  /** Recipes and the factory's books as they are made: positive sizes, no negative backups. */
  ghost predicate WellFormed(stock: Stock, inputs: seq<Input>) {
    && (forall i :: 0 <= i < |inputs| ==> inputs[i].size > 0 && inputs[i].extraBackup >= 0)
    && forall x :: x in stock ==> stock[x].nBackup >= 0
  }

  lemma PositiveProduct(n: nat, a: nat)
    requires n > 0 && a > 0
    ensures n * a > 0
  {}

  /** After all inputs of n supplied sets have been reserved, the backup and the extra backup named by the first
      input of each item are still there. */
  lemma BackupsRemain(stock: Stock, inputs: seq<Input>, items: seq<Item>, n: nat, i: nat) returns (f: nat)
    requires i < |inputs| == |items| && items[i] in stock && n > 0
    requires WellFormed(stock, inputs) && AllAvailable(stock, inputs, items, n)
    ensures f < |items| && items[f] == items[i] && IsFirst(items, f)
    ensures Left(stock, inputs, items, n, |items|)[items[i]].nStored
            >= inputs[f].extraBackup + (if inputs[f].allowBackup then 0 else stock[items[i]].nBackup)
  {
    var sizes := Sizes(inputs, |items|);
    f := BackupRemains(Avails(stock, inputs, items), sizes, items, n, i);
    NeedGrows(sizes, items, items[i], i + 1, |items|);
    PositiveProduct(n, Need(sizes, items, items[i], |items|));
  }

  /** Input i can be reserved when its turn comes, and is at most one stack. */
  ghost predicate Enough(stock: Stock, inputs: seq<Input>, items: seq<Item>, n: nat, i: nat)
    requires i < |inputs| == |items|
  {
    && items[i] in stock && n * inputs[i].size <= items[i].maxSize
    && n * inputs[i].size <= Left(stock, inputs, items, n, i)[items[i]].nStored
  }

  /** Up to the number of sets that resolving the inputs gives, every reservation finds enough. */
  lemma AlwaysEnough(stock: Stock, inputs: seq<Input>, items: seq<Item>, n: nat)
    requires |items| == |inputs| && Chosen(stock, inputs, items) && n > 0
    requires WellFormed(stock, inputs) && Supplied(stock, inputs, items, n)
    ensures forall i :: 0 <= i < |inputs| ==> Enough(stock, inputs, items, n, i)
  {
    forall i | 0 <= i < |inputs| ensures Enough(stock, inputs, items, n, i) {
      EnoughOne(stock, inputs, items, n, i);
    }
  }

  lemma EnoughOne(stock: Stock, inputs: seq<Input>, items: seq<Item>, n: nat, i: nat)
    requires i < |items| == |inputs| && items[i] in stock && n > 0
    requires WellFormed(stock, inputs) && Supplied(stock, inputs, items, n)
    ensures Enough(stock, inputs, items, n, i)
  {
    StackHolds(inputs, items, n, i);
    StoreHolds(stock, inputs, items, n, i);
  }

  lemma StackHolds(inputs: seq<Input>, items: seq<Item>, n: nat, i: nat)
    requires i < |items| == |inputs| && Fit(StackSizes(items), Sizes(inputs, |items|), n)
    ensures n * inputs[i].size <= items[i].maxSize
  {
    assert n * Sizes(inputs, |items|)[i] <= StackSizes(items)[i];
  }

  lemma StoreHolds(stock: Stock, inputs: seq<Input>, items: seq<Item>, n: nat, i: nat)
    requires i < |items| == |inputs| && items[i] in stock && n > 0
    requires WellFormed(stock, inputs) && AllAvailable(stock, inputs, items, n)
    ensures n * inputs[i].size <= Left(stock, inputs, items, n, i)[items[i]].nStored
  {
    var f := EnoughLeft(Avails(stock, inputs, items), Sizes(inputs, |items|), items, n, i);
    PositiveProduct(n, inputs[i].size);
    AvailableIsStored(stock, inputs, items, f);
    LeftHolds(stock, inputs, items, n, i, Avails(stock, inputs, items)[f]);
  }

  lemma LeftHolds(stock: Stock, inputs: seq<Input>, items: seq<Item>, n: nat, i: nat, avail: nat)
    requires i < |items| == |inputs| && items[i] in stock && n * inputs[i].size > 0
    requires n * Need(Sizes(inputs, |items|), items, items[i], i) + n * inputs[i].size <= avail
    requires avail > 0 ==> avail <= stock[items[i]].nStored
    ensures n * inputs[i].size <= Left(stock, inputs, items, n, i)[items[i]].nStored
  {}

  lemma AvailableIsStored(stock: Stock, inputs: seq<Input>, items: seq<Item>, f: nat)
    requires f < |items| == |inputs| && items[f] in stock && WellFormed(stock, inputs)
    ensures Avails(stock, inputs, items)[f] > 0 ==> Avails(stock, inputs, items)[f] <= stock[items[f]].nStored
  {}

  lemma NothingTaken(stock: Stock, inputs: seq<Input>, items: seq<Item>, n: nat)
    requires |items| <= |inputs|
    ensures Left(stock, inputs, items, n, 0) == stock
  {}

  /** The next input, with the books before and after it. */
  method ReserveNext(table: ItemTable, ghost stock: Stock, ghost books: Books, inputs: seq<Input>, items: seq<Item>, n: nat,
                     i: nat)
    returns (extractors: seq<Entry>, ghost booking: Booking)
    requires table.Valid() && table.Keeps(books) && i < |inputs| == |items|
    requires table.Shows(Left(stock, inputs, items, n, i)) && Enough(stock, inputs, items, n, i)
    modifies table.items.Values
    ensures table.Valid() && TotalOf(extractors) == n * inputs[i].size
    ensures table.Shows(Left(stock, inputs, items, n, i + 1))
    ensures booking.item == items[i] && booking.taken == extractors
    ensures BookedOne(books, booking) && table.Keeps(books[items[i] := booking.left])
  {
    ghost var before := Left(stock, inputs, items, n, i);
    LeftOne(stock, inputs, items, n, i, i + 1);
    MulNat(n, inputs[i].size);
    extractors, booking := ReserveShown(table, before, books, items[i], n * inputs[i].size);
  }

  method ReserveShown(table: ItemTable, ghost before: Stock, ghost books: Books, item: Item, size: nat)
    returns (extractors: seq<Entry>, ghost booking: Booking)
    requires table.Valid() && table.Shows(before) && table.Keeps(books) && item in before && size <= before[item].nStored
    modifies table.items.Values
    ensures table.Valid() && TotalOf(extractors) == size && table.Shows(Taken(before, item, size))
    ensures booking.item == item && booking.taken == extractors
    ensures BookedOne(books, booking) && table.Keeps(books[item := booking.left])
  {
    assert table.items[item] in table.items.Values;
    extractors, booking := table.ReserveItem(item, size, before, books);
  }

  /** Each reservation so far is exactly n times the size of its input. */
  ghost predicate HandedOut(reservations: seq<seq<Entry>>, inputs: seq<Input>, n: nat)
    requires |reservations| <= |inputs|
  {
    forall i :: 0 <= i < |reservations| ==> TotalOf(reservations[i]) == n * inputs[i].size
  }

  lemma HandedOutOne(reservations: seq<seq<Entry>>, extractors: seq<Entry>, inputs: seq<Input>, n: nat)
    requires |reservations| < |inputs| && HandedOut(reservations, inputs, n)
    requires TotalOf(extractors) == n * inputs[|reservations|].size
    ensures HandedOut(reservations + [extractors], inputs, n)
  {}

  /** The bookings are these reservations of these items. */
  ghost predicate Records(bookings: seq<Booking>, items: seq<Item>, reservations: seq<seq<Entry>>) {
    && |bookings| == |reservations| <= |items|
    && forall i :: 0 <= i < |bookings| ==> bookings[i].item == items[i] && bookings[i].taken == reservations[i]
  }

  lemma RecordsOne(books: Books, bookings: seq<Booking>, booking: Booking, items: seq<Item>,
                   reservations: seq<seq<Entry>>, extractors: seq<Entry>)
    requires Records(bookings, items, reservations) && |bookings| < |items|
    requires booking.item == items[|bookings|] && booking.taken == extractors
    requires Booked(books, bookings) && BookedOne(BooksAfter(books, bookings), booking)
    ensures Records(bookings + [booking], items, reservations + [extractors]) && Booked(books, bookings + [booking])
    ensures BooksAfter(books, bookings + [booking]) == BooksAfter(books, bookings)[booking.item := booking.left]
  {
    BookedOneMore(books, bookings, booking);
  }

  /** Reserves the inputs of n resolved sets, one after the other, as the processes do. No reservation finds too
      little, and each hands out exactly n times the input's size. `stock` is a snapshot of the books before;
      AlwaysEnough shows that resolved sets are such that there is always enough. */
  method ReserveAll(table: ItemTable, ghost stock: Stock, ghost books: Books, inputs: seq<Input>, items: seq<Item>, n: nat)
    returns (reservations: seq<seq<Entry>>, ghost bookings: seq<Booking>)
    requires table.Valid() && table.Shows(stock) && table.Keeps(books)
    requires |items| == |inputs| && forall i :: 0 <= i < |inputs| ==> Enough(stock, inputs, items, n, i)
    modifies table.items.Values
    ensures table.Valid() && table.Shows(Left(stock, inputs, items, n, |inputs|))
    ensures |reservations| == |inputs|
    ensures HandedOut(reservations, inputs, n)
    ensures Booked(books, bookings) && Records(bookings, items, reservations)
    ensures table.Keeps(BooksAfter(books, bookings))
  {
    reservations, bookings := [], [];
    NothingTaken(stock, inputs, items, n);
    for i := 0 to |inputs|
      invariant table.Valid() && |reservations| == i
      invariant table.Shows(Left(stock, inputs, items, n, i))
      invariant HandedOut(reservations, inputs, n)
      invariant Booked(books, bookings) && Records(bookings, items, reservations)
      invariant table.Keeps(BooksAfter(books, bookings))
    {
      ghost var booking;
      var extractors;
      extractors, booking := ReserveNext(table, stock, BooksAfter(books, bookings), inputs, items, n, i);
      HandedOutOne(reservations, extractors, inputs, n);
      RecordsOne(books, bookings, booking, items, reservations, extractors);
      reservations, bookings := reservations + [extractors], bookings + [booking];
    }
  }
}
