/** Recipes whose inputs go to fixed machine slots (server/RustImpl/src/process/slotted.rs,
    multi_inv_slotted.rs and fluid_slotted.rs). A slot is a number, or a pair of inventory and slot. */
module Slotted {
  import opened Common
  import opened Items

  /** So many of an input go to this slot in each set. */
  datatype Use<S> = Use(slot: S, mult: nat)

  datatype Recipe<S> = Recipe(inputs: seq<seq<Use<S>>>, maxSets: int)

  /** A recipe whose inputs have been resolved to items, and how many sets the storages can supply. */
  datatype Demand<S> = Demand(recipe: Recipe<S>, items: seq<Item>, nSets: nat)

  type Slots<S> = map<S, Option<Stack>>

  function SizeOf(s: Option<Stack>): nat { if s.Some? then s.value.size else 0 }

  // ----- which numbers of sets are acceptable

  predicate Fits<S>(existing: Slots<S>, use: Use<S>, item: Item, maxSets: int, n: nat)
    requires use.slot in existing
  {
    && (existing[use.slot].Some? ==> existing[use.slot].value.item == item)
    && SizeOf(existing[use.slot]) + n * use.mult <= Min(maxSets * use.mult, item.maxSize)
  }

  /** The recipe names input slots of the machine only, and puts something into each of them. */
  predicate WellFormed<S>(existing: Slots<S>, uses: seq<Use<S>>) {
    forall j :: 0 <= j < |uses| ==> uses[j].slot in existing && uses[j].mult > 0
  }

  predicate InputFits<S>(existing: Slots<S>, uses: seq<Use<S>>, item: Item, maxSets: int, n: nat)
    requires WellFormed(existing, uses)
  {
    forall j :: 0 <= j < |uses| ==> Fits(existing, uses[j], item, maxSets, n)
  }

  function UsedBy<S>(uses: seq<Use<S>>): set<S> { set j | 0 <= j < |uses| :: uses[j].slot }

  function Used<S>(inputs: seq<seq<Use<S>>>): set<S> {
    set i, j | 0 <= i < |inputs| && 0 <= j < |inputs[i]| :: inputs[i][j].slot
  }

  predicate DemandOk<S>(existing: Slots<S>, d: Demand<S>) {
    && |d.items| == |d.recipe.inputs|
    && forall i :: 0 <= i < |d.recipe.inputs| ==> WellFormed(existing, d.recipe.inputs[i])
  }

  /** Each use fits, and no other input slot holds anything. */
  predicate Acceptable<S>(existing: Slots<S>, d: Demand<S>, n: nat)
    requires DemandOk(existing, d)
  {
    && (forall i :: 0 <= i < |d.recipe.inputs| ==>
          InputFits(existing, d.recipe.inputs[i], d.items[i], d.recipe.maxSets, n))
    && forall s :: s in existing && existing[s].Some? ==> s in Used(d.recipe.inputs)
  }

  // ----- the scan tightens the number of sets until it is the largest acceptable one

  method TightenInput<S(==)>(existing: Slots<S>, uses: seq<Use<S>>, item: Item, maxSets: int, n0: nat)
    returns (n: nat, usedSlots: set<S>)
    requires WellFormed(existing, uses)
    ensures n <= n0
    ensures forall m :: 0 < m <= n0 ==> (m <= n <==> InputFits(existing, uses, item, maxSets, m))
    ensures n > 0 ==> usedSlots == UsedBy(uses)
  {
    n, usedSlots := n0, {};
    for j := 0 to |uses|
      invariant n <= n0
      invariant forall m :: 0 < m <= n0 ==> (m <= n <==> UsesFitBelow(existing, uses, item, maxSets, m, j))
      invariant usedSlots == UsedBy(uses[..j])
    {
      var bound := SetsThatFit(existing, uses[j], item, maxSets);
      TightenUse(existing, uses, item, maxSets, n0, n, j, j + 1, bound);
      n := Max(0, Min(n, bound));
      if n == 0 {
        return;
      }
      assert uses[..j + 1] == uses[..j] + [uses[j]];
      usedSlots := usedSlots + {uses[j].slot};
    }
    assert uses[..|uses|] == uses;
    forall m | 0 < m <= n0
      ensures InputFits(existing, uses, item, maxSets, m) <==> UsesFitBelow(existing, uses, item, maxSets, m, |uses|)
    {}
  }

  /** The bound that one slot puts on the number of sets. A stack of another kind allows none. */
  method SetsThatFit<S(==)>(existing: Slots<S>, use: Use<S>, item: Item, maxSets: int) returns (bound: int)
    requires use.slot in existing && use.mult > 0
    ensures forall m :: m > 0 ==> (m <= bound <==> Fits(existing, use, item, maxSets, m))
  {
    var found := existing[use.slot];
    if found.Some? && found.value.item != item {
      return 0;
    }
    var room := Min(maxSets * use.mult, item.maxSize) - SizeOf(found);
    bound := TruncDiv(room, use.mult);
    forall m | m > 0 ensures m <= bound <==> m * use.mult <= room {
      TruncDivFits(room, use.mult, m);
    }
  }

  predicate UsesFitBelow<S>(existing: Slots<S>, uses: seq<Use<S>>, item: Item, maxSets: int, n: nat, k: nat)
    requires WellFormed(existing, uses) && k <= |uses|
  {
    forall j :: 0 <= j < k ==> Fits(existing, uses[j], item, maxSets, n)
  }

  lemma TightenUse<S>(existing: Slots<S>, uses: seq<Use<S>>, item: Item, maxSets: int, n0: nat, n: nat,
                      j: nat, next: nat, bound: int)
    requires WellFormed(existing, uses) && j < |uses| && next == j + 1 && n <= n0
    requires forall m :: 0 < m <= n0 ==> (m <= n <==> UsesFitBelow(existing, uses, item, maxSets, m, j))
    requires forall m :: m > 0 ==> (m <= bound <==> Fits(existing, uses[j], item, maxSets, m))
    ensures forall m :: 0 < m <= n0 ==> (m <= n && m <= bound <==> UsesFitBelow(existing, uses, item, maxSets, m, next))
    ensures bound <= 0 || n == 0 ==> forall m :: 0 < m <= n0 ==> !InputFits(existing, uses, item, maxSets, m)
  {
    forall m: nat | 0 < m <= n0
      ensures m <= n && m <= bound <==> UsesFitBelow(existing, uses, item, maxSets, m, next)
      ensures InputFits(existing, uses, item, maxSets, m) ==> m <= n && m <= bound
    {
      assert m <= n <==> UsesFitBelow(existing, uses, item, maxSets, m, j);
      assert m <= bound <==> Fits(existing, uses[j], item, maxSets, m);
    }
  }

  /** The body of the loop over demands: how many sets of this one the machine can take, 0 for none. */
  method AcceptableSets<S(==)>(existing: Slots<S>, d: Demand<S>) returns (n: nat)
    requires DemandOk(existing, d)
    ensures n <= d.nSets
    ensures forall m :: 0 < m <= d.nSets ==> (m <= n <==> Acceptable(existing, d, m))
  {
    n := d.nSets;
    var usedSlots := {};
    var inputs := d.recipe.inputs;
    for i := 0 to |inputs|
      invariant n <= d.nSets
      invariant forall m :: 0 < m <= d.nSets ==> (m <= n <==> FitBelow(existing, d, m, i))
      invariant usedSlots == Used(inputs[..i])
    {
      var bound, used := TightenInput(existing, inputs[i], d.items[i], d.recipe.maxSets, n);
      TightenDemand(existing, d, n, i, i + 1, bound);
      n := bound;
      if n == 0 {
        return;
      }
      UsedNext(inputs, i);
      usedSlots := usedSlots + used;
    }
    assert inputs[..|inputs|] == inputs;
    assert usedSlots == Used(d.recipe.inputs);
    var stray := exists s :: s in existing && existing[s].Some? && s !in usedSlots;
    forall m: nat | 0 < m <= d.nSets
      ensures Acceptable(existing, d, m) <==> m <= n && !stray
    {
      assert m <= n <==> FitBelow(existing, d, m, |inputs|);
    }
    if stray {
      return 0;
    }
  }

  predicate FitBelow<S>(existing: Slots<S>, d: Demand<S>, n: nat, k: nat)
    requires DemandOk(existing, d) && k <= |d.recipe.inputs|
  {
    forall i :: 0 <= i < k ==> InputFits(existing, d.recipe.inputs[i], d.items[i], d.recipe.maxSets, n)
  }

  lemma TightenDemand<S>(existing: Slots<S>, d: Demand<S>, n: nat, i: nat, next: nat, bound: nat)
    requires DemandOk(existing, d) && i < |d.recipe.inputs| && next == i + 1 && bound <= n <= d.nSets
    requires forall m :: 0 < m <= d.nSets ==> (m <= n <==> FitBelow(existing, d, m, i))
    requires forall m :: 0 < m <= n ==>
      (m <= bound <==> InputFits(existing, d.recipe.inputs[i], d.items[i], d.recipe.maxSets, m))
    ensures forall m :: 0 < m <= d.nSets ==> (m <= bound <==> FitBelow(existing, d, m, next))
    ensures bound == 0 ==> forall m :: 0 < m <= d.nSets ==> !Acceptable(existing, d, m)
  {
    forall m: nat | 0 < m <= d.nSets
      ensures m <= bound <==> FitBelow(existing, d, m, next)
      ensures Acceptable(existing, d, m) ==> m <= bound
    {
      assert m <= n <==> FitBelow(existing, d, m, i);
      assert m <= n ==> (m <= bound <==> InputFits(existing, d.recipe.inputs[i], d.items[i], d.recipe.maxSets, m));
    }
  }

  lemma UsedNext<S>(inputs: seq<seq<Use<S>>>, k: nat)
    requires k < |inputs|
    ensures Used(inputs[..k + 1]) == Used(inputs[..k]) + UsedBy(inputs[k])
  {
    assert inputs[..k + 1] == inputs[..k] + [inputs[k]];
    forall s | s in UsedBy(inputs[k]) ensures s in Used(inputs[..k + 1]) {
      var j :| 0 <= j < |inputs[k]| && inputs[k][j].slot == s;
      assert inputs[..k + 1][k][j].slot == s;
    }
    forall s | s in Used(inputs[..k]) ensures s in Used(inputs[..k + 1]) {
      var i, j :| 0 <= i < |inputs[..k]| && 0 <= j < |inputs[..k][i]| && inputs[..k][i][j].slot == s;
      assert inputs[..k + 1][i][j].slot == s;
    }
  }

  /** No positive number of sets is acceptable. */
  ghost predicate Hopeless<S>(existing: Slots<S>, d: Demand<S>)
    requires DemandOk(existing, d)
  {
    forall m :: 0 < m <= d.nSets ==> !Acceptable(existing, d, m)
  }

  /** The demand to be executed, with its number of sets: the first that the machine can take at all,
      with as many sets as it can take. Under strict priority only the first demand is considered. */
  method Select<S(==)>(existing: Slots<S>, demands: seq<Demand<S>>, strictPriority: bool)
    returns (choice: Option<(nat, nat)>)
    requires forall k :: 0 <= k < |demands| ==> DemandOk(existing, demands[k])
    ensures choice.None? ==>
      forall k :: 0 <= k < (if strictPriority then Min(1, |demands|) else |demands|) ==> Hopeless(existing, demands[k])
    ensures choice.Some? ==>
      var (k, n) := choice.value;
      && k < |demands| && (strictPriority ==> k == 0)
      && (forall k' :: 0 <= k' < k ==> Hopeless(existing, demands[k']))
      && 0 < n <= demands[k].nSets
      && (forall m :: 0 < m <= demands[k].nSets ==> (m <= n <==> Acceptable(existing, demands[k], m)))
  {
    var candidates := if strictPriority && demands != [] then demands[..1] else demands;
    for k := 0 to |candidates|
      invariant forall k' :: 0 <= k' < k ==> Hopeless(existing, demands[k'])
    {
      var n := AcceptableSets(existing, candidates[k]);
      if n > 0 {
        return Some((k, n));
      }
    }
    return None;
  }

  // ----- carrying the recipe out

  /** A transfer into a machine slot: refused by a stack of another kind, and cut off at a full stack. */
  function Move(s: Option<Stack>, item: Item, amount: nat): Option<Stack> {
    match s
    case None => Some(Stack(item, Min(amount, item.maxSize)))
    case Some(x) =>
      if x.item == item && x.size <= item.maxSize then Some(Stack(item, Min(x.size + amount, item.maxSize))) else s
  }

  function LoadInput<S>(inv: Slots<S>, uses: seq<Use<S>>, item: Item, n: nat): (r: Slots<S>)
    requires WellFormed(inv, uses)
    ensures r.Keys == inv.Keys
    decreases |uses|
  {
    if uses == [] then inv
    else LoadInput(inv[uses[0].slot := Move(inv[uses[0].slot], item, n * uses[0].mult)], uses[1..], item, n)
  }

  function LoadAll<S>(inv: Slots<S>, inputs: seq<seq<Use<S>>>, items: seq<Item>, n: nat): (r: Slots<S>)
    requires |items| == |inputs| && forall i :: 0 <= i < |inputs| ==> WellFormed(inv, inputs[i])
    ensures r.Keys == inv.Keys
    decreases |inputs|
  {
    if inputs == [] then inv
    else
      var inv1 := LoadInput(inv, inputs[0], items[0], n);
      assert forall i :: 0 <= i < |inputs| ==> WellFormed(inv, inputs[i]) ==> WellFormed(inv1, inputs[i]);
      LoadAll(inv1, inputs[1..], items[1..], n)
  }

  ghost predicate DistinctUses<S>(uses: seq<Use<S>>) {
    forall j, k :: 0 <= j < k < |uses| ==> uses[j].slot != uses[k].slot
  }

  ghost predicate DistinctInputs<S>(inputs: seq<seq<Use<S>>>) {
    && (forall i :: 0 <= i < |inputs| ==> DistinctUses(inputs[i]))
    && forall i, k :: 0 <= i < k < |inputs| ==> UsedBy(inputs[i]) !! UsedBy(inputs[k])
  }

  /** The stack that a use leaves in its slot: what was there, and the exact share of n sets. */
  predicate Loaded<S(==)>(before: Slots<S>, after: Slots<S>, use: Use<S>, item: Item, n: nat) {
    && use.slot in before && use.slot in after
    && after[use.slot] == Some(Stack(item, SizeOf(before[use.slot]) + n * use.mult))
  }

  lemma MoveExact<S>(inv: Slots<S>, use: Use<S>, item: Item, maxSets: int, n: nat)
    requires use.slot in inv && Fits(inv, use, item, maxSets, n)
    ensures Move(inv[use.slot], item, n * use.mult) == Some(Stack(item, SizeOf(inv[use.slot]) + n * use.mult))
  {}

  lemma {:induction false} LoadInputExact<S>(inv: Slots<S>, uses: seq<Use<S>>, item: Item, maxSets: int, n: nat)
    requires WellFormed(inv, uses) && DistinctUses(uses) && InputFits(inv, uses, item, maxSets, n)
    ensures forall j :: 0 <= j < |uses| ==> Loaded(inv, LoadInput(inv, uses, item, n), uses[j], item, n)
    ensures forall s :: s in inv && s !in UsedBy(uses) ==> LoadInput(inv, uses, item, n)[s] == inv[s]
    decreases |uses|
  {
    if uses != [] {
      var use, rest := uses[0], uses[1..];
      MoveExact(inv, use, item, maxSets, n);
      var inv1 := inv[use.slot := Move(inv[use.slot], item, n * use.mult)];
      assert inv1 == inv[use.slot := Some(Stack(item, SizeOf(inv[use.slot]) + n * use.mult))];
      FitsRest(inv, inv1, uses, item, maxSets, n);
      LoadInputExact(inv1, rest, item, maxSets, n);
      UsedByTail(uses);
      LoadedRest(inv, inv1, LoadInput(inv, uses, item, n), uses, item, n);
    }
  }

  lemma FitsRest<S>(inv: Slots<S>, inv1: Slots<S>, uses: seq<Use<S>>, item: Item, maxSets: int, n: nat)
    requires uses != [] && WellFormed(inv, uses) && WellFormed(inv1, uses)
    requires DistinctUses(uses) && InputFits(inv, uses, item, maxSets, n)
    requires forall s :: s in inv && s != uses[0].slot ==> s in inv1 && inv1[s] == inv[s]
    ensures WellFormed(inv1, uses[1..]) && DistinctUses(uses[1..]) && InputFits(inv1, uses[1..], item, maxSets, n)
  {
    forall j | 0 <= j < |uses[1..]| ensures Fits(inv1, uses[1..][j], item, maxSets, n) {
      assert Fits(inv, uses[j + 1], item, maxSets, n);
    }
  }

  lemma LoadedRest<S>(inv: Slots<S>, inv1: Slots<S>, r: Slots<S>, uses: seq<Use<S>>, item: Item, n: nat)
    requires uses != [] && WellFormed(inv, uses) && DistinctUses(uses)
    requires forall s :: s in inv && s != uses[0].slot ==> s in inv1 && inv1[s] == inv[s]
    requires Loaded(inv, inv1, uses[0], item, n) && uses[0].slot in r && r[uses[0].slot] == inv1[uses[0].slot]
    requires forall j :: 0 <= j < |uses[1..]| ==> Loaded(inv1, r, uses[1..][j], item, n)
    ensures forall j :: 0 <= j < |uses| ==> Loaded(inv, r, uses[j], item, n)
  {
    forall j | 0 <= j < |uses| ensures Loaded(inv, r, uses[j], item, n) {
      if j > 0 {
        assert Loaded(inv1, r, uses[1..][j - 1], item, n);
      }
    }
  }

  lemma UsedByTail<S>(uses: seq<Use<S>>)
    requires uses != []
    ensures UsedBy(uses) == {uses[0].slot} + UsedBy(uses[1..])
    ensures DistinctUses(uses) ==> uses[0].slot !in UsedBy(uses[1..])
  {
    assert forall j :: 0 < j < |uses| ==> uses[j] == uses[1..][j - 1];
    assert forall j :: 0 <= j < |uses[1..]| ==> uses[1..][j] == uses[j + 1];
  }

  lemma InputsTail<S>(inputs: seq<seq<Use<S>>>)
    requires inputs != []
    ensures Used(inputs) == UsedBy(inputs[0]) + Used(inputs[1..])
    ensures DistinctInputs(inputs) ==> DistinctInputs(inputs[1..]) && UsedBy(inputs[0]) !! Used(inputs[1..])
  {
    var rest := inputs[1..];
    forall s | s in Used(inputs) ensures s in UsedBy(inputs[0]) + Used(rest) {
      var i, j :| 0 <= i < |inputs| && 0 <= j < |inputs[i]| && inputs[i][j].slot == s;
      assert i > 0 ==> rest[i - 1][j].slot == s;
    }
    forall s | s in Used(rest)
      ensures s in Used(inputs)
      ensures DistinctInputs(inputs) ==> s !in UsedBy(inputs[0])
    {
      var i, j :| 0 <= i < |rest| && 0 <= j < |rest[i]| && rest[i][j].slot == s;
      assert inputs[i + 1][j].slot == s;
      assert s in UsedBy(inputs[i + 1]);
    }
    forall s | s in UsedBy(inputs[0]) ensures s in Used(inputs) {
      var j :| 0 <= j < |inputs[0]| && inputs[0][j].slot == s;
    }
    if DistinctInputs(inputs) {
      forall i | 0 <= i < |rest| ensures DistinctUses(rest[i]) {
        assert DistinctUses(inputs[i + 1]);
      }
    }
  }

  lemma FitsElsewhere<S>(inv: Slots<S>, inv1: Slots<S>, uses: seq<Use<S>>, item: Item, maxSets: int, n: nat)
    requires WellFormed(inv, uses) && InputFits(inv, uses, item, maxSets, n)
    requires forall s :: s in UsedBy(uses) && s in inv ==> s in inv1 && inv1[s] == inv[s]
    ensures WellFormed(inv1, uses) && InputFits(inv1, uses, item, maxSets, n)
  {
    forall j | 0 <= j < |uses|
      ensures uses[j].slot in inv1 && inv1[uses[j].slot] == inv[uses[j].slot]
    {
      assert uses[j].slot in UsedBy(uses);
    }
    forall j | 0 <= j < |uses| ensures Fits(inv1, uses[j], item, maxSets, n) {
      assert Fits(inv, uses[j], item, maxSets, n);
    }
  }

  predicate InputLoaded<S(==)>(before: Slots<S>, after: Slots<S>, uses: seq<Use<S>>, item: Item, n: nat) {
    forall j :: 0 <= j < |uses| ==> Loaded(before, after, uses[j], item, n)
  }

  lemma LoadedLater<S>(inv: Slots<S>, inv1: Slots<S>, r: Slots<S>, uses: seq<Use<S>>, item: Item, n: nat)
    requires WellFormed(inv, uses) && InputLoaded(inv, inv1, uses, item, n) && r.Keys == inv1.Keys
    requires forall s :: s in UsedBy(uses) && s in inv1 ==> r[s] == inv1[s]
    ensures InputLoaded(inv, r, uses, item, n)
  {
    forall j | 0 <= j < |uses| ensures Loaded(inv, r, uses[j], item, n) {
      assert Loaded(inv, inv1, uses[j], item, n) && uses[j].slot in UsedBy(uses);
    }
  }

  lemma LoadedEarlier<S>(inv: Slots<S>, inv1: Slots<S>, r: Slots<S>, uses: seq<Use<S>>, item: Item, n: nat)
    requires WellFormed(inv, uses) && InputLoaded(inv1, r, uses, item, n) && inv.Keys == inv1.Keys
    requires forall s :: s in UsedBy(uses) && s in inv ==> inv1[s] == inv[s]
    ensures InputLoaded(inv, r, uses, item, n)
  {
    forall j | 0 <= j < |uses| ensures Loaded(inv, r, uses[j], item, n) {
      assert Loaded(inv1, r, uses[j], item, n) && uses[j].slot in UsedBy(uses);
    }
  }

  lemma OtherInputs<S>(inputs: seq<seq<Use<S>>>, i: nat)
    requires 0 < i < |inputs| && DistinctInputs(inputs)
    ensures UsedBy(inputs[0]) !! UsedBy(inputs[i])
  {}

  /** The transfers of all inputs, one input after the other, each move the exact share, and nothing else. */
  lemma {:induction false} LoadAllExact<S>(inv: Slots<S>, inputs: seq<seq<Use<S>>>, items: seq<Item>, maxSets: int, n: nat)
    requires |items| == |inputs| && DistinctInputs(inputs)
    requires forall i :: 0 <= i < |inputs| ==> WellFormed(inv, inputs[i]) && InputFits(inv, inputs[i], items[i], maxSets, n)
    ensures forall i :: 0 <= i < |inputs| ==> InputLoaded(inv, LoadAll(inv, inputs, items, n), inputs[i], items[i], n)
    ensures forall s :: s in inv && s !in Used(inputs) ==> LoadAll(inv, inputs, items, n)[s] == inv[s]
    decreases |inputs|
  {
    if inputs != [] {
      var inv1, r := LoadInput(inv, inputs[0], items[0], n), LoadAll(inv, inputs, items, n);
      var inputs1, items1 := inputs[1..], items[1..];
      LoadInputExact(inv, inputs[0], items[0], maxSets, n);
      InputsTail(inputs);
      forall i | 0 <= i < |inputs1|
        ensures WellFormed(inv1, inputs1[i]) && InputFits(inv1, inputs1[i], items1[i], maxSets, n)
      {
        OtherInputs(inputs, i + 1);
        FitsElsewhere(inv, inv1, inputs[i + 1], items[i + 1], maxSets, n);
      }
      LoadAllExact(inv1, inputs1, items1, maxSets, n);
      assert r == LoadAll(inv1, inputs1, items1, n);
      LoadedLater(inv, inv1, r, inputs[0], items[0], n);
      forall i | 0 < i < |inputs| ensures InputLoaded(inv, r, inputs[i], items[i], n) {
        OtherInputs(inputs, i);
        assert InputLoaded(inv1, r, inputs1[i - 1], items1[i - 1], n);
        LoadedEarlier(inv, inv1, r, inputs[i], items[i], n);
      }
    }
  }

  /** Executing an acceptable demand leaves in each used slot the right item, at most the quota and at most a
      stack of it, in the ratio of the recipe; all other input slots are and stay empty. */
  lemma ExecutionIsExact<S>(existing: Slots<S>, d: Demand<S>, n: nat)
    requires DemandOk(existing, d) && DistinctInputs(d.recipe.inputs) && Acceptable(existing, d, n)
    ensures var after := LoadAll(existing, d.recipe.inputs, d.items, n);
      && (forall i, j :: 0 <= i < |d.recipe.inputs| && 0 <= j < |d.recipe.inputs[i]| ==>
            var use := d.recipe.inputs[i][j];
            && Loaded(existing, after, use, d.items[i], n)
            && after[use.slot].value.size <= Min(d.recipe.maxSets * use.mult, d.items[i].maxSize))
      && forall s :: s in existing && s !in Used(d.recipe.inputs) ==> after[s].None?
  {
    LoadAllExact(existing, d.recipe.inputs, d.items, d.recipe.maxSets, n);
    forall i, j | 0 <= i < |d.recipe.inputs| && 0 <= j < |d.recipe.inputs[i]|
      ensures Fits(existing, d.recipe.inputs[i][j], d.items[i], d.recipe.maxSets, n)
    {
      assert InputFits(existing, d.recipe.inputs[i], d.items[i], d.recipe.maxSets, n);
      assert InputLoaded(existing, LoadAll(existing, d.recipe.inputs, d.items, n), d.recipe.inputs[i], d.items[i], n);
    }
  }

  /** Executing n sets leaves in each used slot what was there and the exact share of n sets, no more than the quota and no
      more than a stack, all of the input's item; the other input slots are empty. */
  ghost predicate Kept<S>(existing: Slots<S>, d: Demand<S>, after: Slots<S>, n: nat)
    requires DemandOk(existing, d)
  {
    && (forall i, j :: 0 <= i < |d.recipe.inputs| && 0 <= j < |d.recipe.inputs[i]| ==>
          var use, item := d.recipe.inputs[i][j], d.items[i];
          && (existing[use.slot].Some? ==> existing[use.slot].value.item == item)
          && use.slot in after && after[use.slot].Some? && after[use.slot].value.item == item
          && after[use.slot].value.size == (if existing[use.slot].Some? then existing[use.slot].value.size else 0) + n * use.mult
          && after[use.slot].value.size <= d.recipe.maxSets * use.mult && after[use.slot].value.size <= item.maxSize)
    && forall s :: s in existing && existing[s].Some? ==>
         exists i, j :: 0 <= i < |d.recipe.inputs| && 0 <= j < |d.recipe.inputs[i]| && d.recipe.inputs[i][j].slot == s
  }

  lemma AcceptableIsKept<S>(existing: Slots<S>, d: Demand<S>, n: nat)
    requires DemandOk(existing, d) && DistinctInputs(d.recipe.inputs) && Acceptable(existing, d, n)
    ensures Kept(existing, d, LoadAll(existing, d.recipe.inputs, d.items, n), n)
  {
    ExecutionIsExact(existing, d, n);
    forall i, j | 0 <= i < |d.recipe.inputs| && 0 <= j < |d.recipe.inputs[i]|
      ensures Fits(existing, d.recipe.inputs[i][j], d.items[i], d.recipe.maxSets, n)
    {
      assert InputFits(existing, d.recipe.inputs[i], d.items[i], d.recipe.maxSets, n);
    }
  }

  lemma KeptIsAcceptable<S>(existing: Slots<S>, d: Demand<S>, after: Slots<S>, n: nat)
    requires DemandOk(existing, d) && Kept(existing, d, after, n)
    ensures Acceptable(existing, d, n)
  {
    forall i, j | 0 <= i < |d.recipe.inputs| && 0 <= j < |d.recipe.inputs[i]|
      ensures Fits(existing, d.recipe.inputs[i][j], d.items[i], d.recipe.maxSets, n)
    {}
  }

  /** A number of sets is acceptable exactly if executing it leaves the machine so. */
  lemma AcceptableExactlyWhen<S>(existing: Slots<S>, d: Demand<S>, n: nat)
    requires DemandOk(existing, d) && DistinctInputs(d.recipe.inputs)
    ensures Acceptable(existing, d, n) <==> Kept(existing, d, LoadAll(existing, d.recipe.inputs, d.items, n), n)
  {
    if Acceptable(existing, d, n) {
      AcceptableIsKept(existing, d, n);
    } else if Kept(existing, d, LoadAll(existing, d.recipe.inputs, d.items, n), n) {
      KeptIsAcceptable(existing, d, LoadAll(existing, d.recipe.inputs, d.items, n), n);
    }
  }

  // ----- what goes through the bus slot of an input

  /** The size of an input: all it needs for one set. */
  function SizeOfInput<S>(uses: seq<Use<S>>): nat {
    if uses == [] then 0 else uses[0].mult + SizeOfInput(uses[1..])
  }

  /** The transfers out of the bus slot of an input. */
  function Shares<S>(uses: seq<Use<S>>, n: nat): (r: seq<nat>)
    ensures |r| == |uses| && forall j :: 0 <= j < |r| ==> r[j] == n * uses[j].mult
  {
    if uses == [] then [] else [n * uses[0].mult] + Shares(uses[1..], n)
  }

  /** What n sets reserve for an input is exactly what is transferred out of its bus slot again. */
  lemma {:induction false} SharesAreExact<S>(uses: seq<Use<S>>, n: nat)
    ensures Sum(Shares(uses, n)) == n * SizeOfInput(uses)
    decreases |uses|
  {
    if uses != [] {
      SharesAreExact(uses[1..], n);
    }
  }
}
