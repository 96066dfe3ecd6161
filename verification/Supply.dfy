/** The arithmetic shared by item recipes (server/RustImpl/src/recipe.rs) and fluid recipes
    (server/RustImpl/src/process/fluid_slotted.rs): several inputs may ask for the same thing, whose
    availability is taken from the first of them; how many sets can be supplied? `keys` says what each input asks for,
    `sizes` how much, `avails` how much is available as far as this input's backup settings go. */
module Supply {
  import opened Common

  /** What one set takes of a thing for the first k inputs together. */
  function Need<K(==)>(sizes: seq<nat>, keys: seq<K>, key: K, k: nat): nat
    requires k <= |sizes| && k <= |keys|
  {
    if k == 0 then 0 else Need(sizes, keys, key, k - 1) + (if keys[k - 1] == key then sizes[k - 1] else 0)
  }

  lemma {:induction false} NeedGrows<K>(sizes: seq<nat>, keys: seq<K>, key: K, j: nat, k: nat)
    requires j <= k <= |sizes| && k <= |keys|
    ensures Need(sizes, keys, key, j) <= Need(sizes, keys, key, k)
    decreases k
  {
    if j < k {
      NeedGrows(sizes, keys, key, j, k - 1);
    }
  }

  predicate IsFirst<K(==)>(keys: seq<K>, i: nat)
    requires i < |keys|
  {
    forall j :: 0 <= j < i ==> keys[j] != keys[i]
  }

  lemma {:induction false} FirstExists<K>(keys: seq<K>, i: nat) returns (f: nat)
    requires i < |keys|
    ensures f < |keys| && keys[f] == keys[i] && IsFirst(keys, f)
    decreases i
  {
    if IsFirst(keys, i) {
      f := i;
    } else {
      var j :| 0 <= j < i && keys[j] == keys[i];
      f := FirstExists(keys, j);
    }
  }

  /** All that n sets take of each thing is available. */
  predicate Available<K(==)>(avails: seq<nat>, sizes: seq<nat>, keys: seq<K>, n: nat)
    requires |avails| == |sizes| == |keys|
  {
    forall i :: 0 <= i < |keys| && IsFirst(keys, i) ==> n * Need(sizes, keys, keys[i], |keys|) <= avails[i]
  }

  /** What n sets take for each input is within a capacity. */
  predicate Fit(caps: seq<nat>, sizes: seq<nat>, n: nat)
    requires |caps| == |sizes|
  {
    forall i :: 0 <= i < |sizes| ==> n * sizes[i] <= caps[i]
  }

  // ----- adding up needs

  datatype InputInfo = InputInfo(nAvailable: nat, nNeeded: nat)

  /** What the map of infos says after some inputs have been looked at. */
  ghost predicate Noted<K>(infos: map<K, InputInfo>, avails: seq<nat>, sizes: seq<nat>, keys: seq<K>)
    requires |avails| == |sizes| == |keys|
  {
    && (forall x :: x in infos ==> x in keys) && (forall i :: 0 <= i < |keys| ==> keys[i] in infos)
    && (forall x :: x in infos ==> infos[x].nNeeded == Need(sizes, keys, x, |keys|) > 0)
    && forall i :: 0 <= i < |keys| && keys[i] in infos && IsFirst(keys, i) ==> infos[keys[i]].nAvailable == avails[i]
  }

  function Note<K(==)>(infos: map<K, InputInfo>, avail: nat, size: nat, key: K): map<K, InputInfo> {
    if key in infos then infos[key := infos[key].(nNeeded := infos[key].nNeeded + size)]
    else infos[key := InputInfo(avail, size)]
  }

  lemma {:induction false} NeedPrefix<K>(sizes: seq<nat>, keys: seq<K>, size: nat, key: K, x: K, k: nat)
    requires k <= |keys| == |sizes|
    ensures Need(sizes + [size], keys + [key], x, k) == Need(sizes, keys, x, k)
    decreases k
  {
    if k > 0 {
      NeedPrefix(sizes, keys, size, key, x, k - 1);
    }
  }

  lemma {:induction false} NoNeed<K>(sizes: seq<nat>, keys: seq<K>, x: K, k: nat)
    requires k <= |keys| == |sizes| && forall j :: 0 <= j < k ==> keys[j] != x
    ensures Need(sizes, keys, x, k) == 0
    decreases k
  {
    if k > 0 {
      NoNeed(sizes, keys, x, k - 1);
    }
  }

  lemma NoteOne<K>(infos: map<K, InputInfo>, avails: seq<nat>, sizes: seq<nat>, keys: seq<K>,
                   avail: nat, size: nat, key: K)
    requires |avails| == |sizes| == |keys| && size > 0 && Noted(infos, avails, sizes, keys)
    ensures Noted(Note(infos, avail, size, key), avails + [avail], sizes + [size], keys + [key])
  {
    var keys' := keys + [key];
    forall x ensures Need(sizes + [size], keys', x, |keys'|)
                  == Need(sizes, keys, x, |keys|) + (if x == key then size else 0)
    {
      NeedPrefix(sizes, keys, size, key, x, |keys|);
    }
    if key !in infos {
      NoNeed(sizes, keys, key, |keys|);
    }
    forall i | 0 <= i < |keys'| && IsFirst(keys', i)
      ensures i < |keys| ==> IsFirst(keys, i) && keys'[i] in infos
      ensures i == |keys| ==> key !in infos
    {
      assert forall j :: 0 <= j < i ==> keys'[j] == keys[j];
    }
  }

  // ----- bounds on the number of sets

  /** The bound allows exactly the numbers of sets, up to `top`, that fit. */
  ghost predicate FitBound(bound: int, top: int, caps: seq<nat>, sizes: seq<nat>)
    requires |caps| == |sizes|
  {
    forall m: nat :: m > 0 ==> (m <= bound <==> m <= top && Fit(caps, sizes, m))
  }

  lemma FitBoundAt(bound: int, top: int, caps: seq<nat>, sizes: seq<nat>, m: nat)
    requires |caps| == |sizes| && FitBound(bound, top, caps, sizes) && m > 0
    ensures m <= bound <==> m <= top && Fit(caps, sizes, m)
  {
    var fits := Fit(caps, sizes, m);
  }

  lemma FitOneMore(caps: seq<nat>, sizes: seq<nat>, cap: nat, size: nat, m: nat)
    requires |caps| == |sizes|
    ensures Fit(caps + [cap], sizes + [size], m) <==> Fit(caps, sizes, m) && m * size <= cap
  {
    var caps', sizes' := caps + [cap], sizes + [size];
    if Fit(caps', sizes', m) {
      assert m * sizes'[|sizes|] <= caps'[|sizes|];
      forall i | 0 <= i < |sizes| ensures m * sizes[i] <= caps[i] {
        assert m * sizes'[i] <= caps'[i];
      }
    }
  }

  lemma FitBoundOne(bound: int, top: int, caps: seq<nat>, sizes: seq<nat>, cap: nat, size: nat)
    requires |caps| == |sizes| && size > 0 && FitBound(bound, top, caps, sizes)
    ensures FitBound(Min(bound, TruncDiv(cap, size)), top, caps + [cap], sizes + [size])
  {
    forall m: nat | m > 0
      ensures m <= Min(bound, TruncDiv(cap, size)) <==> m <= top && Fit(caps + [cap], sizes + [size], m)
    {
      TruncDivFits(cap, size, m);
      FitBoundAt(bound, top, caps, sizes, m);
      FitOneMore(caps, sizes, cap, size, m);
    }
  }

  /** What is available covers what n sets need, for some of the things. */
  predicate Covered<K>(infos: map<K, InputInfo>, keys: set<K>, n: nat)
    requires keys <= infos.Keys
  {
    forall x :: x in keys ==> n * infos[x].nNeeded <= infos[x].nAvailable
  }

  /** The smallest quotient of what is available and what is needed, the things taken in any order. */
  method AvailabilityBound<K(==)>(infos: map<K, InputInfo>, top: int) returns (bound: int)
    requires forall x :: x in infos ==> infos[x].nNeeded > 0
    ensures bound <= top
    ensures forall m: nat :: m > 0 ==> (m <= bound <==> m <= top && Covered(infos, infos.Keys, m))
  {
    bound := top;
    var rest := infos.Keys;
    ghost var done := {};
    while rest != {}
      invariant done + rest == infos.Keys && done !! rest && bound <= top
      invariant forall m: nat :: m > 0 ==> (m <= bound <==> m <= top && Covered(infos, done, m))
      decreases |rest|
    {
      var x :| x in rest;
      var next := Min(bound, TruncDiv(infos[x].nAvailable, infos[x].nNeeded));
      CoverOne(infos, done, x, done + {x}, top, bound, next);
      bound := next;
      rest, done := rest - {x}, done + {x};
    }
    assert done == infos.Keys;
  }

  lemma CoverOne<K>(infos: map<K, InputInfo>, done: set<K>, x: K, next: set<K>, top: int, bound: int, bound': int)
    requires done <= infos.Keys && x in infos && next == done + {x} && infos[x].nNeeded > 0
    requires forall m: nat :: m > 0 ==> (m <= bound <==> m <= top && Covered(infos, done, m))
    requires bound' == Min(bound, TruncDiv(infos[x].nAvailable, infos[x].nNeeded))
    ensures forall m: nat :: m > 0 ==> (m <= bound' <==> m <= top && Covered(infos, next, m))
  {
    forall m: nat | m > 0 ensures m <= bound' <==> m <= top && Covered(infos, next, m) {
      TruncDivFits(infos[x].nAvailable, infos[x].nNeeded, m);
      assert m <= bound <==> m <= top && Covered(infos, done, m);
      assert Covered(infos, next, m) <==> Covered(infos, done, m) && m * infos[x].nNeeded <= infos[x].nAvailable;
    }
  }

  lemma InfosCover<K>(infos: map<K, InputInfo>, avails: seq<nat>, sizes: seq<nat>, keys: seq<K>, n: nat)
    requires |avails| == |sizes| == |keys| && Noted(infos, avails, sizes, keys)
    ensures Available(avails, sizes, keys, n) <==> Covered(infos, infos.Keys, n)
  {
    if Available(avails, sizes, keys, n) {
      forall x | x in infos ensures n * infos[x].nNeeded <= infos[x].nAvailable {
        var i :| 0 <= i < |keys| && keys[i] == x;
        var f := FirstExists(keys, i);
      }
    }
  }

  // ----- reserving the inputs one after the other

  lemma Scaled(n: nat, a: nat, b: nat)
    ensures n * (a + b) == n * a + n * b
  {}

  /** What is left of a thing in the end: at least what its first input does not make available. */
  lemma BackupRemains<K>(avails: seq<nat>, sizes: seq<nat>, keys: seq<K>, n: nat, i: nat) returns (f: nat)
    requires |avails| == |sizes| == |keys| && i < |keys| && Available(avails, sizes, keys, n)
    ensures f < |keys| && keys[f] == keys[i] && IsFirst(keys, f)
    ensures n * Need(sizes, keys, keys[i], |keys|) <= avails[f]
  {
    f := FirstExists(keys, i);
    assert n * Need(sizes, keys, keys[f], |keys|) <= avails[f];
  }

  lemma ScaledParts(n: nat, a: nat, b: nat, c: nat)
    requires a + b <= c
    ensures n * a + n * b <= n * c
  {
    Scaled(n, a, b);
    Scaled(n, a + b, c - (a + b));
  }

  /** When input k's turn comes, what it takes is still available. */
  lemma EnoughLeft<K>(avails: seq<nat>, sizes: seq<nat>, keys: seq<K>, n: nat, k: nat) returns (f: nat)
    requires |avails| == |sizes| == |keys| && k < |keys| && Available(avails, sizes, keys, n)
    ensures f < |keys| && keys[f] == keys[k] && IsFirst(keys, f)
    ensures n * Need(sizes, keys, keys[k], k) + n * sizes[k] <= avails[f]
  {
    f := BackupRemains(avails, sizes, keys, n, k);
    NeedGrows(sizes, keys, keys[k], k + 1, |keys|);
    ScaledParts(n, Need(sizes, keys, keys[k], k), sizes[k], Need(sizes, keys, keys[k], |keys|));
  }
}
