/** What the factory knows about one stored item, and how it reserves some of it from the storages that
    provide it (ItemInfo in server/RustImpl/src/factory.rs, Provider in server/RustImpl/src/storage/mod.rs). */
module Reservations {
  import opened Common

  /** `id` stands for the extractor, which names one place in one storage. */
  datatype Provider = Provider(id: nat, priority: int)

  /** So many items at a provider, or so many taken from it. */
  datatype Entry = Entry(provider: Provider, n: nat)

  function Amount(es: seq<Entry>, p: Provider): nat {
    if es == [] then 0 else (if es[0].provider == p then es[0].n else 0) + Amount(es[1..], p)
  }

  function TotalOf(es: seq<Entry>): nat {
    if es == [] then 0 else es[0].n + TotalOf(es[1..])
  }

  lemma {:induction false} EntriesAppend(xs: seq<Entry>, ys: seq<Entry>, p: Provider)
    ensures Amount(xs + ys, p) == Amount(xs, p) + Amount(ys, p)
    ensures TotalOf(xs + ys) == TotalOf(xs) + TotalOf(ys)
    decreases |xs|
  {
    if xs == [] {
      assert xs + ys == ys;
    } else {
      assert (xs + ys)[1..] == xs[1..] + ys;
      EntriesAppend(xs[1..], ys, p);
    }
  }

  lemma EntriesSplit(es: seq<Entry>, k: nat, p: Provider)
    requires k < |es|
    ensures Amount(es, p) == Amount(es[..k], p) + (if es[k].provider == p then es[k].n else 0) + Amount(es[k + 1..], p)
    ensures TotalOf(es) == TotalOf(es[..k]) + es[k].n + TotalOf(es[k + 1..])
  {
    assert es == es[..k] + es[k..] && es[k..][1..] == es[k + 1..];
    EntriesAppend(es[..k], es[k..], p);
  }

  /** What stays in the heap when some of entry k is taken. */
  function Take(es: seq<Entry>, k: nat, n: nat): seq<Entry>
    requires k < |es| && n <= es[k].n
  {
    if n == es[k].n then RemoveAt(es, k) else es[k := es[k].(n := es[k].n - n)]
  }

  lemma TakeCounts(es: seq<Entry>, k: nat, n: nat, p: Provider)
    requires k < |es| && n <= es[k].n
    ensures Amount(Take(es, k, n), p) + (if es[k].provider == p then n else 0) == Amount(es, p)
    ensures TotalOf(Take(es, k, n)) + n == TotalOf(es)
  {
    EntriesSplit(es, k, p);
    if n == es[k].n {
      EntriesAppend(es[..k], es[k + 1..], p);
    } else {
      var es' := Take(es, k, n);
      EntriesSplit(es', k, p);
      assert es'[..k] == es[..k] && es'[k + 1..] == es[k + 1..];
    }
  }

  /** The heap may show any provider of the highest priority; ties are broken arbitrarily. */
  predicate Best(es: seq<Entry>, k: nat) {
    k < |es| && forall j :: 0 <= j < |es| ==> es[j].provider.priority <= es[k].provider.priority
  }

  lemma {:induction false} BestExists(es: seq<Entry>)
    requires es != []
    ensures exists k: nat :: Best(es, k)
    decreases |es|
  {
    if |es| == 1 {
      assert Best(es, 0);
    } else {
      BestExists(es[1..]);
      var k: nat :| Best(es[1..], k);
      assert forall j :: 0 < j < |es| ==> es[j] == es[1..][j - 1];
      assert Best(es, k + 1) || Best(es, 0);
    }
  }

  ghost predicate Positive(es: seq<Entry>) {
    forall i :: 0 <= i < |es| ==> es[i].n > 0
  }

  /** Provider by provider, `taken` is what is missing in `after`; it was taken in order of priority, and
      nothing of a higher priority was left behind. */
  ghost predicate Drawn(before: seq<Entry>, after: seq<Entry>, taken: seq<Entry>) {
    && (forall p :: Amount(before, p) == Amount(after, p) + Amount(taken, p))
    && Positive(taken)
    && (forall i, j :: 0 <= i < j < |taken| ==> taken[i].provider.priority >= taken[j].provider.priority)
    && (forall i, j :: 0 <= i < |taken| && 0 <= j < |after| ==> taken[i].provider.priority >= after[j].provider.priority)
  }

  lemma DrawOne(before: seq<Entry>, es: seq<Entry>, taken: seq<Entry>, k: nat, n: nat)
    requires Drawn(before, es, taken) && Best(es, k) && 0 < n <= es[k].n
    ensures Drawn(before, Take(es, k, n), taken + [Entry(es[k].provider, n)])
    ensures TotalOf(taken + [Entry(es[k].provider, n)]) == TotalOf(taken) + n
  {
    var one := [Entry(es[k].provider, n)];
    forall p ensures Amount(before, p) == Amount(Take(es, k, n), p) + Amount(taken + one, p) {
      TakeCounts(es, k, n, p);
      EntriesAppend(taken, one, p);
    }
    EntriesAppend(taken, one, es[k].provider);
    forall j | 0 <= j < |Take(es, k, n)|
      ensures Take(es, k, n)[j].provider.priority <= es[k].provider.priority
      ensures exists i :: 0 <= i < |es| && es[i].provider == Take(es, k, n)[j].provider
    {
      var i := if n == es[k].n && j >= k then j + 1 else j;
      assert es[i].provider == Take(es, k, n)[j].provider;
    }
  }

  class ItemInfo {
    var nStored: int
    var nBackup: int
    var providers: seq<Entry>

    /** The count that everybody reads is the sum over the heap. */
    ghost predicate Valid()
      reads this
    {
      nStored == TotalOf(providers) && Positive(providers)
    }

    constructor ()
      ensures Valid() && nStored == nBackup == 0 && providers == []
    {
      nStored, nBackup, providers := 0, 0, [];
    }

    method Provide(provider: Provider, nProvided: int)
      requires Valid()
      modifies this
      ensures Valid() && nBackup == old(nBackup)
      ensures nStored == old(nStored) + Max(0, nProvided)
      ensures forall p :: Amount(providers, p) == Amount(old(providers), p) + (if p == provider then Max(0, nProvided) else 0)
      ensures multiset(providers)
           == multiset(old(providers)) + (if nProvided > 0 then multiset{Entry(provider, nProvided)} else multiset{})
    {
      if nProvided > 0 {
        nStored := nStored + nProvided;
        forall p ensures Amount(providers + [Entry(provider, nProvided)], p)
                      == Amount(providers, p) + (if p == provider then nProvided else 0)
        {
          EntriesAppend(providers, [Entry(provider, nProvided)], p);
        }
        EntriesAppend(providers, [Entry(provider, nProvided)], provider);
        providers := providers + [Entry(provider, nProvided)];
      }
    }

    function GetAvailability(allowBackup: bool, extraBackup: int): (r: int)
      reads this
    {
      var result := nStored - extraBackup;
      Max(0, if allowBackup then result else result - nBackup)
    }

    /** The heap never runs empty before the size is reached, exactly the size is handed out, no provider
        gives more than it has. */
    method Reserve(size: int) returns (extractors: seq<Entry>)
      requires Valid() && size <= nStored
      modifies this
      ensures Valid() && nBackup == old(nBackup)
      ensures nStored == old(nStored) - Max(0, size)
      ensures TotalOf(extractors) == Max(0, size)
      ensures Drawn(old(providers), providers, extractors)
    {
      extractors := [];
      var rest: nat := Max(0, size);
      while rest > 0
        invariant Reserving(old(providers), providers, extractors, Max(0, size), rest)
        invariant nStored == TotalOf(providers) && nBackup == old(nBackup) && rest <= nStored
      {
        BestExists(providers);
        var best: nat :| best < |providers| && Best(providers, best);
        var nProvided := providers[best].n;
        var toReserve: nat := Min(rest, nProvided);
        ReserveOne(old(providers), providers, extractors, Max(0, size), rest, best, toReserve);
        extractors := extractors + [Entry(providers[best].provider, toReserve)];
        nStored := nStored - toReserve;
        rest := rest - toReserve;
        if nProvided - toReserve <= 0 {
          providers := RemoveAt(providers, best);
        } else {
          providers := providers[best := providers[best].(n := nProvided - toReserve)];
        }
      }
    }
  }

  /** The state of a reservation of `size` of which `rest` is still to be found. */
  ghost predicate Reserving(before: seq<Entry>, es: seq<Entry>, taken: seq<Entry>, size: nat, rest: nat) {
    && Positive(es) && Drawn(before, es, taken) && rest <= size && TotalOf(taken) == size - rest
    && TotalOf(es) + TotalOf(taken) == TotalOf(before)
  }

  lemma ReserveOne(before: seq<Entry>, es: seq<Entry>, taken: seq<Entry>, size: nat, rest: nat, k: nat, n: nat)
    requires Reserving(before, es, taken, size, rest) && Best(es, k) && 0 < n <= es[k].n && n <= rest
    ensures Reserving(before, Take(es, k, n), taken + [Entry(es[k].provider, n)], size, rest - n)
    ensures TotalOf(Take(es, k, n)) + n == TotalOf(es)
  {
    DrawOne(before, es, taken, k, n);
    TakeCounts(es, k, n, es[k].provider);
    TakePositive(es, k, n);
  }

  lemma TakePositive(es: seq<Entry>, k: nat, n: nat)
    requires k < |es| && n <= es[k].n && Positive(es)
    ensures Positive(Take(es, k, n))
  {}

  /** What is available: where backups may be used, all that is stored but for the extra backup; else the backup stays, too. */
  lemma AvailabilityExactly(info: ItemInfo, extraBackup: int, size: int)
    requires size > 0
    ensures size <= info.GetAvailability(true, extraBackup) <==> size + extraBackup <= info.nStored
    ensures size <= info.GetAvailability(false, extraBackup) <==> size + extraBackup + info.nBackup <= info.nStored
    ensures info.GetAvailability(true, extraBackup) >= 0 && info.GetAvailability(false, extraBackup) >= 0
  {}

  /** An availability that was read keeps the backups: what is reserved within it leaves them untouched. */
  lemma AvailabilityKeepsBackup(info: ItemInfo, allowBackup: bool, extraBackup: int, size: int)
    requires info.nBackup >= 0 && extraBackup >= 0
    requires 0 < size <= info.GetAvailability(allowBackup, extraBackup)
    ensures size <= info.nStored
    ensures info.nStored - size >= extraBackup + (if allowBackup then 0 else info.nBackup)
  {}

  // ----- with distinct priorities a reservation is determined

  ghost predicate DistinctPriorities(es: seq<Entry>) {
    forall i, j :: 0 <= i < j < |es| ==> es[i].provider.priority != es[j].provider.priority
  }

  predicate Known(es: seq<Entry>, p: Provider) {
    exists i :: 0 <= i < |es| && es[i].provider == p
  }

  lemma {:induction false} AmountPresent(es: seq<Entry>, p: Provider)
    requires Amount(es, p) > 0
    ensures Known(es, p)
    decreases |es|
  {
    if es[0].provider != p {
      AmountPresent(es[1..], p);
      var i :| 0 <= i < |es[1..]| && es[1..][i].provider == p;
      assert es[i + 1].provider == p;
    }
  }

  /** The amounts that `taken` draws from the providers of `es`, summed up in the order of `es`. */
  function DrawnFrom(es: seq<Entry>, taken: seq<Entry>): nat {
    if es == [] then 0 else Amount(taken, es[0].provider) + DrawnFrom(es[1..], taken)
  }

  lemma {:induction false} DrawnFromOne(es: seq<Entry>, e: Entry, rest: seq<Entry>)
    requires DistinctPriorities(es)
    ensures DrawnFrom(es, [e] + rest)
         == DrawnFrom(es, rest) + (if Known(es, e.provider) then e.n else 0)
    decreases |es|
  {
    assert ([e] + rest)[1..] == rest;
    if es != [] {
      DrawnFromOne(es[1..], e, rest);
      if es[0].provider == e.provider {
        assert forall i :: 0 <= i < |es[1..]| ==> es[1..][i].provider != es[0].provider;
      } else {
        assert forall i :: 0 < i < |es| ==> es[i] == es[1..][i - 1];
      }
    }
  }

  lemma {:induction false} DrawnFromAll(es: seq<Entry>, taken: seq<Entry>)
    requires DistinctPriorities(es)
    requires forall i :: 0 <= i < |taken| ==> Known(es, taken[i].provider)
    ensures DrawnFrom(es, taken) == TotalOf(taken)
    decreases |taken|
  {
    if taken == [] {
      DrawnFromNone(es);
    } else {
      forall i | 0 <= i < |taken[1..]|
        ensures Known(es, taken[1..][i].provider)
      {
        assert taken[1..][i] == taken[i + 1];
      }
      DrawnFromAll(es, taken[1..]);
      assert taken == [taken[0]] + taken[1..];
      DrawnFromOne(es, taken[0], taken[1..]);
    }
  }

  lemma {:induction false} DrawnFromNone(es: seq<Entry>)
    ensures DrawnFrom(es, []) == 0
    decreases |es|
  {
    if es != [] {
      DrawnFromNone(es[1..]);
    }
  }

  /** If two ways to take the same total differ, one provider gives less in the first than in the second. */
  lemma {:induction false} SomeGivesLess(es: seq<Entry>, a: seq<Entry>, b: seq<Entry>) returns (k: nat)
    requires DrawnFrom(es, a) < DrawnFrom(es, b)
    ensures k < |es| && Amount(a, es[k].provider) < Amount(b, es[k].provider)
    decreases |es|
  {
    if Amount(a, es[0].provider) < Amount(b, es[0].provider) {
      k := 0;
    } else {
      k := SomeGivesLess(es[1..], a, b);
      k := k + 1;
    }
  }

  lemma {:induction false} SomeGivesMore(es: seq<Entry>, a: seq<Entry>, b: seq<Entry>, k: nat) returns (l: nat)
    requires DrawnFrom(es, a) >= DrawnFrom(es, b)
    requires k < |es| && Amount(a, es[k].provider) < Amount(b, es[k].provider)
    ensures l < |es| && Amount(b, es[l].provider) < Amount(a, es[l].provider)
    decreases |es|
  {
    if Amount(b, es[0].provider) < Amount(a, es[0].provider) {
      l := 0;
    } else if k == 0 {
      l := SomeGivesLess(es[1..], b, a);
      l := l + 1;
    } else {
      l := SomeGivesMore(es[1..], a, b, k - 1);
      l := l + 1;
    }
  }

  lemma NotLess(before: seq<Entry>, after: seq<Entry>, taken: seq<Entry>,
                after': seq<Entry>, taken': seq<Entry>, p: Provider)
    requires DistinctPriorities(before)
    requires Drawn(before, after, taken) && Drawn(before, after', taken') && TotalOf(taken) == TotalOf(taken')
    ensures Amount(taken, p) >= Amount(taken', p)
  {
    if Amount(taken, p) < Amount(taken', p) {
      DrawnFromBefore(before, after, taken);
      DrawnFromBefore(before, after', taken');
      AmountPresent(before, p);
      var k :| 0 <= k < |before| && before[k].provider == p;
      var l := SomeGivesMore(before, taken, taken', k);
      var q := before[l].provider;
      AmountPresent(after, p);
      AmountPresent(taken, q);
      AmountPresent(after', q);
      AmountPresent(taken', p);
    }
  }

  /** As long as priorities differ, it does not matter how the heap is built: each provider gives a fixed
      amount. */
  lemma ReservationIsDetermined(before: seq<Entry>, after: seq<Entry>, taken: seq<Entry>,
                                after': seq<Entry>, taken': seq<Entry>, p: Provider)
    requires DistinctPriorities(before)
    requires Drawn(before, after, taken) && Drawn(before, after', taken') && TotalOf(taken) == TotalOf(taken')
    ensures Amount(taken, p) == Amount(taken', p)
  {
    NotLess(before, after, taken, after', taken', p);
    NotLess(before, after', taken', after, taken, p);
  }

  lemma DrawnFromBefore(before: seq<Entry>, after: seq<Entry>, taken: seq<Entry>)
    requires DistinctPriorities(before) && Drawn(before, after, taken)
    ensures DrawnFrom(before, taken) == TotalOf(taken)
  {
    forall i | 0 <= i < |taken| ensures Known(before, taken[i].provider) {
      EntriesSplit(taken, i, taken[i].provider);
      AmountPresent(before, taken[i].provider);
    }
    DrawnFromAll(before, taken);
  }
}
