/** All slots of chests and machines together, with the extractions and deposits that jobs have on them (Chest). A job that
    starts takes its reservations out of what the slots offer, and plans its transfers into the slots' shadows; what this
    leaves in the slots is there until the job's own transfer, whatever happens to the slot meanwhile. */
module Places {
  import opened Common
  import opened Items
  import Chest

  /** So much from a slot of a chest. */
  datatype Draw = Draw(place: nat, amount: nat)

  /** So much of an item into a slot of a machine. */
  datatype Drop = Drop(place: nat, item: Item, amount: nat)

  function Drawn(ds: seq<Draw>): (r: seq<nat>)
    ensures |r| == |ds| && forall k :: 0 <= k < |r| ==> r[k] == ds[k].amount
  {
    seq(|ds|, k requires 0 <= k < |ds| => ds[k].amount)
  }

  function Dropped(ds: seq<Drop>): (r: seq<nat>)
    ensures |r| == |ds| && forall k :: 0 <= k < |r| ==> r[k] == ds[k].amount
  {
    seq(|ds|, k requires 0 <= k < |ds| => ds[k].amount)
  }

  // ----- one transfer of a job

  predicate HasPull(s: Chest.Slot, tag: Chest.Tag, amount: nat) {
    Chest.Pull(amount, false, tag) in s.pulls
  }

  predicate HasPut(s: Chest.Slot, tag: Chest.Tag, item: Item, amount: nat) {
    Chest.Put(item, amount, Some(tag)) in s.puts
  }

  function IndexOf<T(==)>(xs: seq<T>, x: T): (k: nat)
    requires x in xs
    ensures k < |xs| && xs[k] == x
  {
    if xs[0] == x then 0 else IndexOf(xs[1..], x) + 1
  }

  lemma StillThere<T>(xs: seq<T>, k: nat, x: T)
    requires k < |xs| && x in xs && xs[k] != x
    ensures x in RemoveAt(xs, k)
  {
    var i :| 0 <= i < |xs| && xs[i] == x;
    if i < k {
      assert RemoveAt(xs, k)[i] == x;
    } else {
      assert RemoveAt(xs, k)[i - 1] == x;
    }
  }

  lemma StillThereAt<T>(xs: seq<T>, k: nat, y: T, x: T)
    requires k < |xs| && x in xs && xs[k] != x
    ensures x in xs[k := y]
  {
    var i :| 0 <= i < |xs| && xs[i] == x;
    assert xs[k := y][i] == x;
  }

  /** No other event makes a promised extraction disappear. */
  lemma PullStays(s: Chest.Slot, e: Chest.SlotEvent, tag: Chest.Tag, amount: nat)
    requires Chest.Enabled(s, e) && HasPull(s, tag, amount)
    requires e.Extract? || e.ExtractFails? ==> s.pulls[e.k].tag != tag
    ensures HasPull(Chest.Step(s, e), tag, amount)
  {
    var p := Chest.Pull(amount, false, tag);
    if e.Extract? {
      StillThereAt(s.pulls, e.k, s.pulls[e.k].(moved := true), p);
    } else if e.ExtractFails? || e.Acknowledge? {
      StillThere(s.pulls, e.k, p);
    }
  }

  /** No other event makes a planned deposit disappear. */
  lemma PutStays(s: Chest.Slot, e: Chest.SlotEvent, tag: Chest.Tag, item: Item, amount: nat)
    requires Chest.Enabled(s, e) && HasPut(s, tag, item, amount)
    requires e.Arrive? ==> s.puts[e.k].tag != Some(tag)
    ensures HasPut(Chest.Step(s, e), tag, item, amount)
  {
    if e.Arrive? {
      StillThere(s.puts, e.k, Chest.Put(item, amount, Some(tag)));
    }
  }

  // ----- all slots

  ghost predicate Sound(places: seq<Chest.Slot>) {
    forall c :: 0 <= c < |places| ==> Chest.Bracket(places[c])
  }

  lemma SoundUpdate(places: seq<Chest.Slot>, c: nat, e: Chest.SlotEvent)
    requires Sound(places) && c < |places| && Chest.Enabled(places[c], e)
    ensures Sound(places[c := Chest.Step(places[c], e)])
  {
    Chest.StepBracket(places[c], e);
  }

  /** What jobs have on the slots stays. */
  ghost predicate Keeps(s: Chest.Slot, s': Chest.Slot) {
    && (forall p :: p in s.pulls ==> p in s'.pulls)
    && (forall p :: p in s.puts ==> p in s'.puts)
  }

  ghost predicate Grown(places: seq<Chest.Slot>, places': seq<Chest.Slot>) {
    |places'| == |places| && forall c :: 0 <= c < |places| ==> Keeps(places[c], places'[c])
  }

  lemma GrownMore(a: seq<Chest.Slot>, b: seq<Chest.Slot>, c: seq<Chest.Slot>)
    requires Grown(a, b) && Grown(b, c)
    ensures Grown(a, c)
  {
    forall i | 0 <= i < |a| ensures Keeps(a[i], c[i]) {
      assert Keeps(a[i], b[i]) && Keeps(b[i], c[i]);
    }
  }

  lemma GrownOne(places: seq<Chest.Slot>, c: nat, e: Chest.SlotEvent)
    requires c < |places| && Chest.Enabled(places[c], e) && (e.Reserve? || e.Deposit?)
    ensures Grown(places, places[c := Chest.Step(places[c], e)])
  {
    assert Keeps(places[c], Chest.Step(places[c], e));
  }

  // ----- the reservations of one task

  /** The first n draws, taken one after the other. */
  predicate CanDraw(places: seq<Chest.Slot>, t: nat, ds: seq<Draw>, n: nat)
    requires n <= |ds|
    decreases n, 0
  {
    n > 0 ==>
    && CanDraw(places, t, ds, n - 1) && ds[n - 1].place < |places|
    && Chest.Enabled(DrawAll(places, t, ds, n - 1)[ds[n - 1].place], Chest.Reserve(ds[n - 1].amount, Chest.Tag(t, n - 1)))
  }

  function DrawAll(places: seq<Chest.Slot>, t: nat, ds: seq<Draw>, n: nat): (r: seq<Chest.Slot>)
    requires n <= |ds| && CanDraw(places, t, ds, n)
    ensures |r| == |places|
    decreases n, 1
  {
    if n == 0 then places
    else
      var before, c := DrawAll(places, t, ds, n - 1), ds[n - 1].place;
      before[c := Chest.Step(before[c], Chest.Reserve(ds[n - 1].amount, Chest.Tag(t, n - 1)))]
  }

  predicate AllDrawn(places: seq<Chest.Slot>, t: nat, ds: seq<Draw>, n: nat)
    requires n <= |ds|
  {
    forall k :: 0 <= k < n ==> ds[k].place < |places| && HasPull(places[ds[k].place], Chest.Tag(t, k), ds[k].amount)
  }

  lemma DrawnStays(a: seq<Chest.Slot>, b: seq<Chest.Slot>, t: nat, ds: seq<Draw>, n: nat)
    requires n <= |ds| && AllDrawn(a, t, ds, n) && Grown(a, b)
    ensures AllDrawn(b, t, ds, n)
  {
    forall k | 0 <= k < n ensures HasPull(b[ds[k].place], Chest.Tag(t, k), ds[k].amount) {
      assert Keeps(a[ds[k].place], b[ds[k].place]);
    }
  }

  lemma GrownSame(places: seq<Chest.Slot>)
    ensures Grown(places, places)
  {}

  /** Reservations that the slots' offers cover leave everything sound, and each of them waits in its slot. */
  lemma {:induction false} DrawAllSound(places: seq<Chest.Slot>, t: nat, ds: seq<Draw>, n: nat)
    requires n <= |ds| && CanDraw(places, t, ds, n) && Sound(places)
    ensures Sound(DrawAll(places, t, ds, n)) && Grown(places, DrawAll(places, t, ds, n))
    ensures AllDrawn(DrawAll(places, t, ds, n), t, ds, n)
    decreases n
  {
    if n == 0 {
      GrownSame(places);
    } else {
      DrawAllSound(places, t, ds, n - 1);
      var before, c := DrawAll(places, t, ds, n - 1), ds[n - 1].place;
      var e := Chest.Reserve(ds[n - 1].amount, Chest.Tag(t, n - 1));
      var after := before[c := Chest.Step(before[c], e)];
      SoundUpdate(before, c, e);
      GrownOne(before, c, e);
      GrownMore(places, before, after);
      DrawnStays(before, after, t, ds, n - 1);
      assert HasPull(after[c], Chest.Tag(t, n - 1), ds[n - 1].amount);
    }
  }

  // ----- the planned transfers of one task

  /** The shadow takes all of a drop. */
  predicate Takes(shadow: Option<Stack>, item: Item, amount: nat) {
    && 0 < amount <= item.maxSize
    && match shadow
       case None => true
       case Some(x) => x.item == item && x.size + amount <= item.maxSize
  }

  predicate CanDrop(places: seq<Chest.Slot>, t: nat, ds: seq<Drop>, n: nat)
    requires n <= |ds|
    decreases n, 0
  {
    n > 0 ==>
    && CanDrop(places, t, ds, n - 1) && ds[n - 1].place < |places|
    && Takes(DropAll(places, t, ds, n - 1)[ds[n - 1].place].shadow, ds[n - 1].item, ds[n - 1].amount)
  }

  function DropEvent(t: nat, d: Drop, k: nat): Chest.SlotEvent { Chest.Deposit(d.item, d.amount, Some(Chest.Tag(t, k))) }

  function DropAll(places: seq<Chest.Slot>, t: nat, ds: seq<Drop>, n: nat): (r: seq<Chest.Slot>)
    requires n <= |ds| && CanDrop(places, t, ds, n)
    ensures |r| == |places|
    decreases n, 1
  {
    if n == 0 then places
    else
      var before, c := DropAll(places, t, ds, n - 1), ds[n - 1].place;
      before[c := Chest.Step(before[c], DropEvent(t, ds[n - 1], n - 1))]
  }

  predicate AllDropped(places: seq<Chest.Slot>, t: nat, ds: seq<Drop>, n: nat)
    requires n <= |ds|
  {
    forall k :: 0 <= k < n ==>
      ds[k].place < |places| && HasPut(places[ds[k].place], Chest.Tag(t, k), ds[k].item, ds[k].amount)
  }

  lemma DroppedStays(a: seq<Chest.Slot>, b: seq<Chest.Slot>, t: nat, ds: seq<Drop>, n: nat)
    requires n <= |ds| && AllDropped(a, t, ds, n) && Grown(a, b)
    ensures AllDropped(b, t, ds, n)
  {
    forall k | 0 <= k < n ensures HasPut(b[ds[k].place], Chest.Tag(t, k), ds[k].item, ds[k].amount) {
      assert Keeps(a[ds[k].place], b[ds[k].place]);
    }
  }

  lemma DropOne(before: seq<Chest.Slot>, t: nat, ds: seq<Drop>, k: nat, n: nat, after: seq<Chest.Slot>)
    requires n == k + 1 <= |ds| && Sound(before) && AllDropped(before, t, ds, k)
    requires ds[k].place < |before| && Takes(before[ds[k].place].shadow, ds[k].item, ds[k].amount)
    requires after == before[ds[k].place := Chest.Step(before[ds[k].place], DropEvent(t, ds[k], k))]
    ensures Sound(after) && Grown(before, after) && AllDropped(after, t, ds, n)
  {
    SoundUpdate(before, ds[k].place, DropEvent(t, ds[k], k));
    GrownOne(before, ds[k].place, DropEvent(t, ds[k], k));
    DroppedStays(before, after, t, ds, k);
    assert HasPut(after[ds[k].place], Chest.Tag(t, k), ds[k].item, ds[k].amount);
  }

  /** Transfers that the shadows take leave everything sound, and each of them is expected in full. */
  lemma {:induction false} DropAllSound(places: seq<Chest.Slot>, t: nat, ds: seq<Drop>, n: nat)
    requires n <= |ds| && CanDrop(places, t, ds, n) && Sound(places)
    ensures Sound(DropAll(places, t, ds, n)) && Grown(places, DropAll(places, t, ds, n))
    ensures AllDropped(DropAll(places, t, ds, n), t, ds, n)
    decreases n
  {
    if n == 0 {
      GrownSame(places);
    } else {
      DropAllSound(places, t, ds, n - 1);
      var before := DropAll(places, t, ds, n - 1);
      DropOne(before, t, ds, n - 1, n, DropAll(places, t, ds, n));
      GrownMore(places, before, DropAll(places, t, ds, n));
    }
  }
}
