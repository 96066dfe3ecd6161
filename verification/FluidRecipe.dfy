/** Recipes that also take fluids (server/RustImpl/src/process/fluid_slotted.rs): how many sets the fluid storages
    can supply, and reserving the fluids. */
module FluidRecipe {
  import opened Common
  import opened Supply
  import opened Fluid

  datatype FluidInput = FluidInput(fluid: string, size: nat, allowBackup: bool, extraBackup: int)

  const I64_MAX: int := 0x7FFF_FFFF_FFFF_FFFF

  function BackupOf(backups: map<string, int>, fluid: string): int {
    if fluid in backups then backups[fluid] else 0
  }

  /** What of a stored total an input may use. */
  function Availability(total: nat, backups: map<string, int>, input: FluidInput): nat {
    Max(0, total - input.extraBackup - (if input.allowBackup then 0 else BackupOf(backups, input.fluid)))
  }

  function Avails(storages: seq<FluidStorage>, backups: map<string, int>, inputs: seq<FluidInput>): (r: seq<nat>)
    reads storages
    ensures |r| == |inputs|
  {
    seq(|inputs|, i requires 0 <= i < |inputs| reads storages =>
      Availability(Sum(Los(storages, inputs[i].fluid)), backups, inputs[i]))
  }

  function Sizes(inputs: seq<FluidInput>): (r: seq<nat>)
    ensures |r| == |inputs|
  {
    seq(|inputs|, i requires 0 <= i < |inputs| => inputs[i].size)
  }

  function Fluids(inputs: seq<FluidInput>): (r: seq<string>)
    ensures |r| == |inputs|
  {
    seq(|inputs|, i requires 0 <= i < |inputs| => inputs[i].fluid)
  }

  function Buses(capacity: nat, k: nat): (r: seq<nat>)
    ensures |r| == k
  {
    seq(k, i => capacity)
  }

  /** The total need of each fluid is available, and each input fits into one fluid bus. */
  ghost predicate FluidsSupplied(storages: seq<FluidStorage>, backups: map<string, int>, busCapacity: nat,
                                 inputs: seq<FluidInput>, n: nat)
    reads storages
  {
    && Available(Avails(storages, backups, inputs), Sizes(inputs), Fluids(inputs), n)
    && Fit(Buses(busCapacity, |inputs|), Sizes(inputs), n)
  }

  /** n sets in terms of what can still be promised: each input fits into one fluid bus, and all inputs of a fluid together
      leave the extra backup that the first of them names, and the fluid's own backup unless that input may use it. */
  ghost predicate FluidsAffordable(storages: seq<FluidStorage>, backups: map<string, int>, busCapacity: nat,
                                   inputs: seq<FluidInput>, n: nat)
    reads storages
  {
    && (forall i :: 0 <= i < |inputs| ==> n * inputs[i].size <= busCapacity)
    && forall f :: 0 <= f < |inputs| && IsFirst(Fluids(inputs), f) ==>
         var fluid, left := inputs[f].fluid, Sum(Los(storages, inputs[f].fluid)) - n * Need(Sizes(inputs), Fluids(inputs), inputs[f].fluid, |inputs|);
         if inputs[f].allowBackup || fluid !in backups then inputs[f].extraBackup <= left
         else inputs[f].extraBackup + backups[fluid] <= left
  }

  lemma AvailabilityAt(total: nat, backups: map<string, int>, input: FluidInput, taken: nat)
    requires taken > 0
    ensures taken <= Availability(total, backups, input)
       <==> if input.allowBackup || input.fluid !in backups then input.extraBackup <= total - taken
            else input.extraBackup + backups[input.fluid] <= total - taken
  {}

  lemma BusFit(inputs: seq<FluidInput>, busCapacity: nat, n: nat)
    ensures Fit(Buses(busCapacity, |inputs|), Sizes(inputs), n) <==> forall i :: 0 <= i < |inputs| ==> n * inputs[i].size <= busCapacity
  {
    if Fit(Buses(busCapacity, |inputs|), Sizes(inputs), n) {
      forall i | 0 <= i < |inputs| ensures n * inputs[i].size <= busCapacity {
        assert n * Sizes(inputs)[i] <= Buses(busCapacity, |inputs|)[i];
      }
    }
  }

  /** The fluids of so many sets are supplied exactly if what the storages can still promise affords them. */
  lemma FluidsSuppliedAreAffordable(storages: seq<FluidStorage>, backups: map<string, int>, busCapacity: nat,
                                    inputs: seq<FluidInput>, n: nat)
    requires n > 0 && forall i :: 0 <= i < |inputs| ==> inputs[i].size > 0
    ensures FluidsSupplied(storages, backups, busCapacity, inputs, n)
       <==> FluidsAffordable(storages, backups, busCapacity, inputs, n)
  {
    BusFit(inputs, busCapacity, n);
    forall f | 0 <= f < |inputs|
      ensures n * Need(Sizes(inputs), Fluids(inputs), inputs[f].fluid, |inputs|) > 0
    {
      NeedGrows(Sizes(inputs), Fluids(inputs), inputs[f].fluid, f + 1, |inputs|);
      Positive(n, Need(Sizes(inputs), Fluids(inputs), inputs[f].fluid, |inputs|));
    }
    forall f | 0 <= f < |inputs| {
      AvailabilityAt(Sum(Los(storages, inputs[f].fluid)), backups, inputs[f],
                     n * Need(Sizes(inputs), Fluids(inputs), inputs[f].fluid, |inputs|));
    }
  }

  ghost predicate Gathered(avails: seq<nat>, inputs: seq<FluidInput>, busCapacity: nat,
                           infos: map<string, InputInfo>, bound: int)
    requires |avails| == |inputs|
  {
    && Noted(infos, avails, Sizes(inputs), Fluids(inputs))
    && FitBound(bound, I64_MAX, Buses(busCapacity, |inputs|), Sizes(inputs))
  }

  lemma GatherOne(avails: seq<nat>, inputs: seq<FluidInput>, busCapacity: nat, infos: map<string, InputInfo>,
                  bound: int, avail: nat, input: FluidInput)
    requires |avails| == |inputs| && input.size > 0 && Gathered(avails, inputs, busCapacity, infos, bound)
    ensures Gathered(avails + [avail], inputs + [input], busCapacity, Note(infos, avail, input.size, input.fluid),
                     Min(bound, TruncDiv(busCapacity, input.size)))
  {
    assert Sizes(inputs + [input]) == Sizes(inputs) + [input.size];
    assert Fluids(inputs + [input]) == Fluids(inputs) + [input.fluid];
    assert Buses(busCapacity, |inputs + [input]|) == Buses(busCapacity, |inputs|) + [busCapacity];
    NoteOne(infos, avails, Sizes(inputs), Fluids(inputs), avail, input.size, input.fluid);
    FitBoundOne(bound, I64_MAX, Buses(busCapacity, |inputs|), Sizes(inputs), busCapacity, input.size);
  }

  /** search_n_fluid: how much of a fluid can still be promised. */
  method SearchNFluid(storages: seq<FluidStorage>, fluid: string) returns (n: nat)
    ensures n == Sum(Los(storages, fluid))
  {
    n := 0;
    for i := 0 to |storages|
      invariant n == Sum(Los(storages, fluid)[..i])
    {
      var los := Los(storages, fluid);
      assert los[..i + 1] == los[..i] + [los[i]];
      SumSnoc(los[..i], los[i]);
      if storages[i].fluid == fluid {
        n := n + storages[i].nStoredLo;
      }
    }
    assert Los(storages, fluid)[..|storages|] == Los(storages, fluid);
  }

  method NoteFluid(storages: seq<FluidStorage>, backups: map<string, int>, infos: map<string, InputInfo>,
                   input: FluidInput)
    returns (r: map<string, InputInfo>)
    ensures r == Note(infos, Availability(Sum(Los(storages, input.fluid)), backups, input), input.size, input.fluid)
  {
    if input.fluid in infos {
      r := infos[input.fluid := infos[input.fluid].(nNeeded := infos[input.fluid].nNeeded + input.size)];
    } else {
      var total := SearchNFluid(storages, input.fluid);
      r := infos[input.fluid := InputInfo(Availability(total, backups, input), input.size)];
    }
  }

  /** The state of the lookup after the first k inputs. */
  ghost predicate GatheredTo(avails: seq<nat>, inputs: seq<FluidInput>, busCapacity: nat, k: nat,
                             infos: map<string, InputInfo>, bound: int)
    requires k <= |avails| == |inputs|
  {
    Gathered(avails[..k], inputs[..k], busCapacity, infos, bound)
  }

  lemma GatherNext(avails: seq<nat>, inputs: seq<FluidInput>, busCapacity: nat, k: nat, next: nat,
                   infos: map<string, InputInfo>, bound: int, infos': map<string, InputInfo>, bound': int)
    requires k < |avails| == |inputs| && next == k + 1 && inputs[k].size > 0
    requires GatheredTo(avails, inputs, busCapacity, k, infos, bound)
    requires infos' == Note(infos, avails[k], inputs[k].size, inputs[k].fluid)
    requires bound' == Min(bound, TruncDiv(busCapacity, inputs[k].size))
    ensures GatheredTo(avails, inputs, busCapacity, next, infos', bound')
  {
    GatherOne(avails[..k], inputs[..k], busCapacity, infos, bound, avails[k], inputs[k]);
    assert avails[..next] == avails[..k] + [avails[k]] && inputs[..next] == inputs[..k] + [inputs[k]];
  }

  method Gather(storages: seq<FluidStorage>, backups: map<string, int>, busCapacity: nat, inputs: seq<FluidInput>,
                ghost avails: seq<nat>)
    returns (infos: map<string, InputInfo>, busBound: int)
    requires avails == Avails(storages, backups, inputs) && forall i :: 0 <= i < |inputs| ==> inputs[i].size > 0
    ensures Gathered(avails, inputs, busCapacity, infos, busBound)
  {
    infos, busBound := map[], I64_MAX;
    for i := 0 to |inputs|
      invariant GatheredTo(avails, inputs, busCapacity, i, infos, busBound)
    {
      var infos' := NoteFluid(storages, backups, infos, inputs[i]);
      var busBound' := Min(busBound, TruncDiv(busCapacity, inputs[i].size));
      GatherNext(avails, inputs, busCapacity, i, i + 1, infos, busBound, infos', busBound');
      infos, busBound := infos', busBound';
    }
    assert avails[..|inputs|] == avails && inputs[..|inputs|] == inputs;
  }

  lemma BoundsMeet(avails: seq<nat>, inputs: seq<FluidInput>, busCapacity: nat, infos: map<string, InputInfo>,
                   nSets: nat, busBound: int, availabilityBound: int, m: nat)
    requires |avails| == |inputs| && Gathered(avails, inputs, busCapacity, infos, busBound)
    requires 0 < m && nSets <= I32_MAX
    requires m <= availabilityBound <==> m <= I64_MAX && Covered(infos, infos.Keys, m)
    ensures m <= nSets && m <= busBound && m <= availabilityBound <==>
      && m <= nSets && Available(avails, Sizes(inputs), Fluids(inputs), m)
      && Fit(Buses(busCapacity, |inputs|), Sizes(inputs), m)
  {
    InfosCover(infos, avails, Sizes(inputs), Fluids(inputs), m);
    FitBoundAt(busBound, I64_MAX, Buses(busCapacity, |inputs|), Sizes(inputs), m);
  }

  /** The fluid part of compute_fluid_demands: of the sets that the items allow, as many as the fluids allow too. */
  method FluidSets(storages: seq<FluidStorage>, backups: map<string, int>, busCapacity: nat, inputs: seq<FluidInput>,
                   nSets: nat)
    returns (n: int)
    requires nSets <= I32_MAX && forall i :: 0 <= i < |inputs| ==> inputs[i].size > 0
    ensures n <= nSets
    ensures forall m: nat :: m > 0 ==>
      (m <= n <==> m <= nSets && FluidsSupplied(storages, backups, busCapacity, inputs, m))
  {
    ghost var avails := Avails(storages, backups, inputs);
    var infos, busBound := Gather(storages, backups, busCapacity, inputs, avails);
    var availabilityBound := AvailabilityBound(infos, I64_MAX);
    n := Min(Min(nSets, busBound), availabilityBound);
    forall m: nat | m > 0
      ensures m <= n <==> m <= nSets && FluidsSupplied(storages, backups, busCapacity, inputs, m)
    {
      BoundsMeet(avails, inputs, busCapacity, infos, nSets, busBound, availabilityBound, m);
    }
  }

  // ----- reserving the fluids

  /** The total of each fluid has gone down by what the first k inputs take. */
  twostate predicate Taken(storages: seq<FluidStorage>, inputs: seq<FluidInput>, n: nat, k: nat)
    requires k <= |inputs|
    reads storages
  {
    forall fluid ::
      Sum(Los(storages, fluid)) + n * Need(Sizes(inputs), Fluids(inputs), fluid, k) == old(Sum(Los(storages, fluid)))
  }

  /** When input k's turn comes, what it takes can still be promised. */
  lemma EnoughFluid(total: nat, avails: seq<nat>, backups: map<string, int>, inputs: seq<FluidInput>, n: nat, k: nat)
    requires |avails| == |inputs| && k < |inputs| && n > 0 && inputs[k].size > 0
    requires Available(avails, Sizes(inputs), Fluids(inputs), n)
    requires forall i :: 0 <= i < |inputs| && inputs[i].fluid == inputs[k].fluid ==>
      avails[i] == Availability(total, backups, inputs[i]) && inputs[i].extraBackup >= 0
    requires BackupOf(backups, inputs[k].fluid) >= 0
    ensures n * Need(Sizes(inputs), Fluids(inputs), inputs[k].fluid, k) + n * inputs[k].size <= total
  {
    var f := EnoughLeft(avails, Sizes(inputs), Fluids(inputs), n, k);
    Positive(n, inputs[k].size);
  }

  lemma Positive(n: nat, a: nat)
    requires n > 0 && a > 0
    ensures n * a > 0
  {}

  lemma TakenOne(inputs: seq<FluidInput>, n: nat, k: nat, fluid: string)
    requires k < |inputs|
    ensures n * Need(Sizes(inputs), Fluids(inputs), fluid, k + 1)
         == n * Need(Sizes(inputs), Fluids(inputs), fluid, k) + (if fluid == inputs[k].fluid then n * inputs[k].size else 0)
  {
    Scaled(n, Need(Sizes(inputs), Fluids(inputs), fluid, k), if fluid == inputs[k].fluid then inputs[k].size else 0);
  }

  /** Fluid recipes and backups as they are made. */
  ghost predicate WellFormed(backups: map<string, int>, inputs: seq<FluidInput>) {
    && (forall i :: 0 <= i < |inputs| ==> inputs[i].size > 0 && inputs[i].extraBackup >= 0)
    && forall fluid :: fluid in backups ==> backups[fluid] >= 0
  }

  /** So much is reserved for each input. */
  ghost predicate HandedOut(reservations: seq<seq<Part>>, inputs: seq<FluidInput>, n: nat)
    requires |reservations| <= |inputs|
  {
    forall i :: 0 <= i < |reservations| ==> TotalGiven(reservations[i]) == n * inputs[i].size
  }

  lemma HandedOutOne(reservations: seq<seq<Part>>, parts: seq<Part>, inputs: seq<FluidInput>, n: nat)
    requires |reservations| < |inputs| && HandedOut(reservations, inputs, n)
    requires TotalGiven(parts) == n * inputs[|reservations|].size
    ensures HandedOut(reservations + [parts], inputs, n)
  {}

  method ReserveNext(storages: seq<FluidStorage>, fluid: string, qty: nat) returns (parts: seq<Part>)
    requires Different(storages) && qty <= Sum(Los(storages, fluid))
    modifies set i | 0 <= i < |storages| :: storages[i]
    ensures TotalGiven(parts) == qty
    ensures forall other :: Sum(Los(storages, other)) + (if other == fluid then qty else 0) == old(Sum(Los(storages, other)))
  {
    parts := ReserveFluid(storages, fluid, qty);
  }

  /** Reserves the fluids of n supplied sets, one input after the other. No reservation finds too little, and each
      hands out exactly n times the input's size. */
  method ReserveFluids(storages: seq<FluidStorage>, backups: map<string, int>, busCapacity: nat,
                       inputs: seq<FluidInput>, n: nat)
    returns (reservations: seq<seq<Part>>)
    requires Different(storages) && WellFormed(backups, inputs) && n > 0
    requires FluidsSupplied(storages, backups, busCapacity, inputs, n)
    modifies set i | 0 <= i < |storages| :: storages[i]
    ensures |reservations| == |inputs| && HandedOut(reservations, inputs, n)
    ensures Taken(storages, inputs, n, |inputs|)
  {
    reservations := [];
    ghost var avails := Avails(storages, backups, inputs);
    for k := 0 to |inputs|
      invariant |reservations| == k && HandedOut(reservations, inputs, n) && Taken(storages, inputs, n, k)
    {
      var input := inputs[k];
      var qty := n * input.size;
      assert 0 <= qty <= Sum(Los(storages, input.fluid)) by {
        EnoughFluid(old(Sum(Los(storages, input.fluid))), avails, backups, inputs, n, k);
        MulNat(n, input.size);
      }
      var parts := ReserveNext(storages, input.fluid, qty);
      HandedOutOne(reservations, parts, inputs, n);
      forall fluid
        ensures Sum(Los(storages, fluid)) + n * Need(Sizes(inputs), Fluids(inputs), fluid, k + 1)
             == old(Sum(Los(storages, fluid)))
      {
        TakenOne(inputs, n, k, fluid);
      }
      reservations := reservations + [parts];
    }
  }

  // ----- which numbers of sets the machine's tanks can take

  /** So much of a fluid goes to a tank group in each set. */
  datatype TankUse = TankUse(tank: nat, fluid: string, mult: nat)

  function InTank(existing: seq<map<string, nat>>, tank: nat, fluid: string): nat
    requires tank < |existing|
  {
    if fluid in existing[tank] then existing[tank][fluid] else 0
  }

  predicate TankFits(existing: seq<map<string, nat>>, use: TankUse, maxSets: int, n: nat)
    requires use.tank < |existing|
  {
    InTank(existing, use.tank, use.fluid) + n * use.mult <= maxSets * use.mult
  }

  predicate TanksFit(existing: seq<map<string, nat>>, uses: seq<TankUse>, maxSets: int, n: nat, k: nat)
    requires k <= |uses| && forall j :: 0 <= j < |uses| ==> uses[j].tank < |existing|
  {
    forall j :: 0 <= j < k ==> TankFits(existing, uses[j], maxSets, n)
  }

  /** The fluids that lie in tanks, and those that the recipe puts into tanks. */
  function Present(existing: seq<map<string, nat>>): set<(nat, string)> {
    set i: nat, fluid | i < |existing| && fluid in existing[i] :: (i, fluid)
  }

  function UsedBelow(uses: seq<TankUse>, k: nat): set<(nat, string)>
    requires k <= |uses|
  {
    set j | 0 <= j < k :: (uses[j].tank, uses[j].fluid)
  }

  /** Each use fits, and no tank holds a fluid that the recipe does not put there. */
  predicate TanksAcceptable(existing: seq<map<string, nat>>, uses: seq<TankUse>, maxSets: int, n: nat)
    requires forall j :: 0 <= j < |uses| ==> uses[j].tank < |existing|
  {
    TanksFit(existing, uses, maxSets, n, |uses|) && Present(existing) <= UsedBelow(uses, |uses|)
  }

  /** What the machine may have in its tanks: with n more sets no tank group has more of a fluid than the quota of the recipe
      puts there, and a fluid that the recipe puts nowhere is in no tank. */
  lemma TanksExactly(existing: seq<map<string, nat>>, uses: seq<TankUse>, maxSets: int, n: nat)
    requires forall j :: 0 <= j < |uses| ==> uses[j].tank < |existing|
    ensures TanksAcceptable(existing, uses, maxSets, n) <==>
      && (forall j :: 0 <= j < |uses| ==>
            if uses[j].fluid in existing[uses[j].tank]
            then existing[uses[j].tank][uses[j].fluid] + n * uses[j].mult <= maxSets * uses[j].mult
            else n * uses[j].mult <= maxSets * uses[j].mult)
      && (forall i, fluid :: 0 <= i < |existing| && fluid in existing[i] ==>
            exists j :: 0 <= j < |uses| && uses[j].tank == i && uses[j].fluid == fluid)
  {
    if TanksAcceptable(existing, uses, maxSets, n) {
      forall j | 0 <= j < |uses| ensures TankFits(existing, uses[j], maxSets, n) {}
      forall i, fluid | 0 <= i < |existing| && fluid in existing[i]
        ensures exists j :: 0 <= j < |uses| && uses[j].tank == i && uses[j].fluid == fluid
      {
        assert (i, fluid) in Present(existing);
      }
    } else if (forall j :: 0 <= j < |uses| ==> TankFits(existing, uses[j], maxSets, n)) {
      var place :| place in Present(existing) && place !in UsedBelow(uses, |uses|);
      assert forall j :: 0 <= j < |uses| ==> (uses[j].tank, uses[j].fluid) in UsedBelow(uses, |uses|);
    }
  }

  lemma TankBound(existing: seq<map<string, nat>>, use: TankUse, maxSets: int, bound: int)
    requires use.tank < |existing| && use.mult > 0
    requires bound == TruncDiv(maxSets * use.mult - InTank(existing, use.tank, use.fluid), use.mult)
    ensures forall m: nat :: m > 0 ==> (m <= bound <==> TankFits(existing, use, maxSets, m))
  {
    forall m: nat | m > 0 ensures m <= bound <==> TankFits(existing, use, maxSets, m) {
      TruncDivFits(maxSets * use.mult - InTank(existing, use.tank, use.fluid), use.mult, m);
    }
  }

  lemma TightenTank(existing: seq<map<string, nat>>, uses: seq<TankUse>, maxSets: int, n0: nat, n: nat,
                    k: nat, next: nat, bound: int)
    requires k < |uses| && next == k + 1 && n <= n0 && forall j :: 0 <= j < |uses| ==> uses[j].tank < |existing|
    requires forall m: nat :: 0 < m <= n0 ==> (m <= n <==> TanksFit(existing, uses, maxSets, m, k))
    requires forall m: nat :: m > 0 ==> (m <= bound <==> TankFits(existing, uses[k], maxSets, m))
    ensures forall m: nat :: 0 < m <= n0 ==> (m <= n && m <= bound <==> TanksFit(existing, uses, maxSets, m, next))
    ensures forall m: nat :: 0 < m <= n0 && TanksAcceptable(existing, uses, maxSets, m) ==> m <= n && m <= bound
  {
    forall m: nat | 0 < m <= n0
      ensures m <= n && m <= bound <==> TanksFit(existing, uses, maxSets, m, next)
      ensures TanksAcceptable(existing, uses, maxSets, m) ==> m <= n && m <= bound
    {
      assert m <= n <==> TanksFit(existing, uses, maxSets, m, k);
      assert m <= bound <==> TankFits(existing, uses[k], maxSets, m);
    }
  }

  lemma NothingLeft<T>(a: set<T>, b: set<T>)
    ensures a - b == {} <==> a <= b
  {
    forall x | x in a && x !in b ensures x in a - b {}
  }

  /** The scan over the tanks, in the order of the recipe's fluids: how many of n0 sets the machine can take. */
  method TightenTanks(existing: seq<map<string, nat>>, uses: seq<TankUse>, maxSets: int, n0: nat) returns (n: nat)
    requires n0 <= I32_MAX
    requires forall j :: 0 <= j < |uses| ==> uses[j].tank < |existing| && uses[j].mult > 0
    ensures n <= n0
    ensures forall m: nat :: 0 < m <= n0 ==> (m <= n <==> TanksAcceptable(existing, uses, maxSets, m))
  {
    n := n0;
    var mismatched := Present(existing);
    for k := 0 to |uses|
      invariant n <= n0 && mismatched == Present(existing) - UsedBelow(uses, k)
      invariant forall m: nat :: 0 < m <= n0 ==> (m <= n <==> TanksFit(existing, uses, maxSets, m, k))
    {
      var use := uses[k];
      mismatched := mismatched - {(use.tank, use.fluid)};
      var bound := TruncDiv(maxSets * use.mult - InTank(existing, use.tank, use.fluid), use.mult);
      TankBound(existing, use, maxSets, bound);
      TightenTank(existing, uses, maxSets, n0, n, k, k + 1, bound);
      n := Min(n, Max(0, Min(bound, I32_MAX)));
      if n == 0 {
        return;
      }
    }
    NothingLeft(Present(existing), UsedBelow(uses, |uses|));
    forall m: nat | 0 < m <= n0
      ensures TanksAcceptable(existing, uses, maxSets, m) <==> m <= n && mismatched == {}
    {
      assert m <= n <==> TanksFit(existing, uses, maxSets, m, |uses|);
    }
    if mismatched != {} {
      n := 0;
    }
  }
}