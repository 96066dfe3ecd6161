/** The group of requests of a crafting job (server/RustImpl/src/process/crafting_grid.rs), and what it does on the client that
    runs it: load the inputs and the tools into the grid, craft, store the product and the tools. Whatever lay in the bus slots
    for the inputs is used up, and the grid is empty afterwards, as the next group of the same client finds it. */
module Crafting {
  import opened Common
  import opened Items

  /** `slots` are the places of the grid that get one piece per set. */
  datatype Input = Input(item: Item, slots: seq<nat>)

  /** A tool stays in its place of the client's storage, but for the time of crafting. */
  datatype Tool = Tool(storage: nat, slot: nat)

  datatype Call =
    | LoadInput(bus: nat, slot: nat, n: nat)
    | LoadTool(tool: Tool)
    | StoreOutput(bus: nat, n: nat)
    | StoreTool(tool: Tool)

  // ----- the server's part

  function LoadsOf(bus: nat, slots: seq<nat>, n: nat): (r: seq<Call>)
    ensures |r| == |slots| && forall k :: 0 <= k < |r| ==> r[k] == LoadInput(bus, slots[k], n)
  {
    seq(|slots|, k requires 0 <= k < |slots| => LoadInput(bus, slots[k], n))
  }

  /** The loads of the first k inputs. */
  function AllLoads(inputs: seq<Input>, buses: seq<nat>, n: nat, k: nat): seq<Call>
    requires k <= |inputs| <= |buses|
  {
    if k == 0 then [] else AllLoads(inputs, buses, n, k - 1) + LoadsOf(buses[k - 1], inputs[k - 1].slots, n)
  }

  function ToolLoads(tools: seq<Tool>): (r: seq<Call>)
    ensures |r| == |tools| && forall k :: 0 <= k < |r| ==> r[k] == LoadTool(tools[k])
  {
    seq(|tools|, k requires 0 <= k < |tools| => LoadTool(tools[k]))
  }

  function ToolStores(tools: seq<Tool>): (r: seq<Call>)
    ensures |r| == |tools| && forall k :: 0 <= k < |r| ==> r[k] == StoreTool(tools[k])
  {
    seq(|tools|, k requires 0 <= k < |tools| => StoreTool(tools[k]))
  }

  function Group(inputs: seq<Input>, tools: seq<Tool>, buses: seq<nat>, first: nat, n: nat): seq<Call>
    requires |inputs| <= |buses|
  {
    AllLoads(inputs, buses, n, |inputs|) + ToolLoads(tools) + [StoreOutput(first, n)] + ToolStores(tools)
  }

  lemma LoadsSnoc(bus: nat, slots: seq<nat>, n: nat, k: nat, next: nat)
    requires next == k + 1 <= |slots|
    ensures LoadsOf(bus, slots[..next], n) == LoadsOf(bus, slots[..k], n) + [LoadInput(bus, slots[k], n)]
  {}

  /** How the process builds the group. The product goes to the first slot that the job was told. */
  method BuildGroup(inputs: seq<Input>, tools: seq<Tool>, buses: seq<nat>, slotsToFree: seq<nat>, n: nat)
    returns (group: seq<Call>)
    requires |inputs| <= |buses| && slotsToFree != []
    ensures group == Group(inputs, tools, buses, slotsToFree[0], n)
  {
    group := [];
    for i := 0 to |inputs|
      invariant group == AllLoads(inputs, buses, n, i)
    {
      ghost var before := group;
      var slots := inputs[i].slots;
      for k := 0 to |slots|
        invariant group == before + LoadsOf(buses[i], slots[..k], n)
      {
        LoadsSnoc(buses[i], slots, n, k, k + 1);
        group := group + [LoadInput(buses[i], slots[k], n)];
      }
      assert slots[..|slots|] == slots;
    }
    ghost var loads := group;
    for k := 0 to |tools|
      invariant group == loads + ToolLoads(tools[..k])
    {
      assert ToolLoads(tools[..k + 1]) == ToolLoads(tools[..k]) + [LoadTool(tools[k])];
      group := group + [LoadTool(tools[k])];
    }
    assert tools[..|tools|] == tools;
    group := group + [StoreOutput(slotsToFree[0], n)];
    ghost var crafted := group;
    for k := 0 to |tools|
      invariant group == crafted + ToolStores(tools[..k])
    {
      assert ToolStores(tools[..k + 1]) == ToolStores(tools[..k]) + [StoreTool(tools[k])];
      group := group + [StoreTool(tools[k])];
    }
    assert tools[..|tools|] == tools;
  }

  // ----- the client's part

  /** What the client can reach: the bus, its grid and its own storage. */
  datatype Client = Client(bus: Inventory, grid: Inventory, storage: Inventory)

  function SizeOf(s: Option<Stack>): nat { if s.Some? then s.value.size else 0 }

  function Taken(s: Option<Stack>, n: nat): Option<Stack> {
    if s.None? || s.value.size <= n then None else Some(s.value.(size := s.value.size - n))
  }

  /** A transfer into an empty place of the grid; into any other it moves nothing here. */
  function MoveToGrid(c: Client, bus: nat, slot: nat, n: nat): Client
    requires bus < |c.bus| && slot < |c.grid|
  {
    if n == 0 || c.bus[bus].None? || c.grid[slot].Some? then c
    else
      var moved := Min(Min(n, c.bus[bus].value.size), c.bus[bus].value.item.maxSize);
      c.(bus := c.bus[bus := Taken(c.bus[bus], moved)], grid := c.grid[slot := Some(c.bus[bus].value.(size := moved))])
  }

  /** Every set takes one piece out of each place of the grid that holds an ingredient. */
  function UsedUp(grid: Inventory, tools: set<nat>, sets: nat): (r: Inventory)
    ensures |r| == |grid| && forall s :: 0 <= s < |r| ==> r[s] == if s in tools then grid[s] else Taken(grid[s], sets)
  {
    seq(|grid|, s requires 0 <= s < |grid| => if s in tools then grid[s] else Taken(grid[s], sets))
  }

  /** The game crafts as long as every ingredient is there: so often as the smallest stack of an ingredient says. */
  ghost predicate Makes(grid: Inventory, tools: set<nat>, sets: nat) {
    && (forall s :: 0 <= s < |grid| && s !in tools && grid[s].Some? ==> sets <= grid[s].value.size)
    && ((exists s :: 0 <= s < |grid| && s !in tools && grid[s].Some?) ==>
          exists s :: 0 <= s < |grid| && s !in tools && grid[s].Some? && sets == grid[s].value.size)
  }

  function ToolSlots(tools: seq<Tool>): set<nat> { set k | 0 <= k < |tools| :: tools[k].slot }

  function Exchange(c: Client, storage: nat, slot: nat, stacks: (Option<Stack>, Option<Stack>)): Client
    requires storage < |c.storage| && slot < |c.grid|
  {
    c.(storage := c.storage[storage := stacks.0], grid := c.grid[slot := stacks.1])
  }

  /** A whole stack goes to an empty place. */
  function FetchTool(c: Client, tool: Tool): Client
    requires tool.storage < |c.storage| && tool.slot < |c.grid|
  {
    if c.grid[tool.slot].Some? then c else Exchange(c, tool.storage, tool.slot, (None, c.storage[tool.storage]))
  }

  function ReturnTool(c: Client, tool: Tool): Client
    requires tool.storage < |c.storage| && tool.slot < |c.grid|
  {
    if c.storage[tool.storage].Some? then c else Exchange(c, tool.storage, tool.slot, (c.grid[tool.slot], None))
  }

  predicate Within(c: Client, call: Call) {
    match call
    case LoadInput(bus, slot, _) => bus < |c.bus| && slot < |c.grid|
    case LoadTool(tool) => tool.storage < |c.storage| && tool.slot < |c.grid|
    case StoreTool(tool) => tool.storage < |c.storage| && tool.slot < |c.grid|
    case StoreOutput(bus, _) => bus < |c.bus|
  }

  predicate SameShape(c: Client, c': Client) {
    |c'.bus| == |c.bus| && |c'.grid| == |c.grid| && |c'.storage| == |c.storage|
  }

  predicate AllWithin(c: Client, calls: seq<Call>) {
    forall k :: 0 <= k < |calls| ==> Within(c, calls[k]) && !calls[k].StoreOutput?
  }

  function Do(c: Client, call: Call): (c': Client)
    requires Within(c, call) && !call.StoreOutput?
    ensures SameShape(c, c')
  {
    match call
    case LoadInput(bus, slot, n) => MoveToGrid(c, bus, slot, n)
    case LoadTool(tool) => FetchTool(c, tool)
    case StoreTool(tool) => ReturnTool(c, tool)
  }

  /** Calls other than crafting, one after the other. */
  function DoAll(c: Client, calls: seq<Call>): (c': Client)
    requires AllWithin(c, calls)
    ensures SameShape(c, c')
    decreases |calls|
  {
    if calls == [] then c
    else
      var before := DoAll(c, calls[..|calls| - 1]);
      assert Within(c, calls[|calls| - 1]);
      Do(before, calls[|calls| - 1])
  }

  lemma DoSnoc(c: Client, calls: seq<Call>, call: Call)
    requires AllWithin(c, calls) && Within(c, call) && !call.StoreOutput?
    ensures AllWithin(c, calls + [call]) && DoAll(c, calls + [call]) == Do(DoAll(c, calls), call)
  {
    assert (calls + [call])[..|calls|] == calls;
  }

  lemma {:induction false} DoAppend(c: Client, xs: seq<Call>, ys: seq<Call>)
    requires AllWithin(c, xs) && AllWithin(c, ys)
    ensures AllWithin(c, xs + ys) && DoAll(c, xs + ys) == DoAll(DoAll(c, xs), ys)
    decreases |ys|
  {
    if ys == [] {
      assert xs + ys == xs;
    } else {
      var init, last := ys[..|ys| - 1], ys[|ys| - 1];
      DoAppend(c, xs, init);
      assert xs + ys == (xs + init) + [last] && ys == init + [last];
      DoSnoc(c, xs + init, last);
      DoSnoc(DoAll(c, xs), init, last);
    }
  }

  // ----- what the loads of one input do

  /** n pieces for each of so many places. */
  function Pieces(item: Item, n: nat, places: nat): Option<Stack> {
    if n * places == 0 then None else Some(Stack(item, n * places))
  }

  /** The places named so far hold n pieces each, and what is left in the bus slot is for the rest. */
  ghost predicate LoadedUpTo(c: Client, c': Client, bus: nat, input: Input, n: nat, k: nat)
    requires k <= |input.slots|
  {
    && SameShape(c, c') && bus < |c.bus| && c'.storage == c.storage
    && c'.bus == c.bus[bus := Pieces(input.item, n, |input.slots| - k)]
    && forall s :: 0 <= s < |c.grid| ==>
         c'.grid[s] == if s in input.slots[..k] then Some(Stack(input.item, n)) else c.grid[s]
  }

  lemma OneLess(n: nat, m: nat)
    requires m > 0
    ensures n * m == n * (m - 1) + n
  {}

  lemma PieceLeaves(item: Item, n: nat, m: nat)
    requires n > 0 && m > 0
    ensures Pieces(item, n, m).Some? && Pieces(item, n, m).value.size >= n
    ensures Taken(Pieces(item, n, m), n) == Pieces(item, n, m - 1)
  {
    OneLess(n, m);
    assert n * m > 0;
    if m > 1 {
      OneLess(n, m - 1);
    }
  }

  /** An input fits the client: its places are empty and different, and its bus slot holds what they take. */
  ghost predicate Ready(c: Client, bus: nat, input: Input, n: nat) {
    && 0 < n <= input.item.maxSize && bus < |c.bus| && Distinct(input.slots)
    && c.bus[bus] == Pieces(input.item, n, |input.slots|)
    && forall k :: 0 <= k < |input.slots| ==> input.slots[k] < |c.grid| && c.grid[input.slots[k]].None?
  }

  lemma LoadNext(c: Client, c1: Client, bus: nat, input: Input, n: nat, k: nat, next: nat)
    requires Ready(c, bus, input, n) && next == k + 1 <= |input.slots| && LoadedUpTo(c, c1, bus, input, n, k)
    ensures LoadedUpTo(c, MoveToGrid(c1, bus, input.slots[k], n), bus, input, n, next)
  {
    PieceLeaves(input.item, n, |input.slots| - k);
    var slot := input.slots[k];
    assert slot !in input.slots[..k];
    assert input.slots[..next] == input.slots[..k] + [slot];
  }

  lemma {:induction false} InputIsLoaded(c: Client, bus: nat, input: Input, n: nat, k: nat)
    requires Ready(c, bus, input, n) && k <= |input.slots|
    ensures AllWithin(c, LoadsOf(bus, input.slots[..k], n))
    ensures LoadedUpTo(c, DoAll(c, LoadsOf(bus, input.slots[..k], n)), bus, input, n, k)
    decreases k
  {
    if k == 0 {
      assert c.bus == c.bus[bus := c.bus[bus]];
    } else {
      InputIsLoaded(c, bus, input, n, k - 1);
      LoadsSnoc(bus, input.slots, n, k - 1, k);
      DoSnoc(c, LoadsOf(bus, input.slots[..k - 1], n), LoadInput(bus, input.slots[k - 1], n));
      LoadNext(c, DoAll(c, LoadsOf(bus, input.slots[..k - 1], n)), bus, input, n, k - 1, k);
    }
  }

  // ----- all inputs

  predicate Named(inputs: seq<Input>, i: nat, slot: nat)
    requires i <= |inputs|
  {
    exists j :: 0 <= j < i && slot in inputs[j].slots
  }

  /** No place of the grid is used for two inputs, and each input has its own bus slot. */
  ghost predicate AllReady(c: Client, inputs: seq<Input>, buses: seq<nat>, n: nat) {
    && |inputs| <= |buses| && Distinct(buses)
    && (forall i :: 0 <= i < |inputs| ==> Ready(c, buses[i], inputs[i], n))
    && forall i, j, slot :: 0 <= i < j < |inputs| && slot in inputs[i].slots ==> slot !in inputs[j].slots
  }

  ghost predicate InputsLoaded(c: Client, c': Client, inputs: seq<Input>, buses: seq<nat>, n: nat, i: nat)
    requires i <= |inputs| <= |buses|
  {
    && SameShape(c, c') && c'.storage == c.storage
    && (forall b :: 0 <= b < |c.bus| ==> c'.bus[b] == if b in buses[..i] then None else c.bus[b])
    && (forall j, slot :: 0 <= j < i && slot in inputs[j].slots ==>
          slot < |c.grid| && c'.grid[slot] == Some(Stack(inputs[j].item, n)))
    && forall slot :: 0 <= slot < |c.grid| && !Named(inputs, i, slot) ==> c'.grid[slot] == c.grid[slot]
  }

  lemma StillReady(c: Client, c1: Client, inputs: seq<Input>, buses: seq<nat>, n: nat, i: nat)
    requires AllReady(c, inputs, buses, n) && i < |inputs| && InputsLoaded(c, c1, inputs, buses, n, i)
    ensures Ready(c1, buses[i], inputs[i], n)
  {
    assert buses[i] !in buses[..i];
    forall k | 0 <= k < |inputs[i].slots| ensures c1.grid[inputs[i].slots[k]].None? {
      assert inputs[i].slots[k] in inputs[i].slots;
      assert !Named(inputs, i, inputs[i].slots[k]);
    }
  }

  lemma NextInputLoaded(c: Client, c1: Client, c2: Client, inputs: seq<Input>, buses: seq<nat>, n: nat, i: nat, next: nat)
    requires AllReady(c, inputs, buses, n) && next == i + 1 <= |inputs| && InputsLoaded(c, c1, inputs, buses, n, i)
    requires LoadedUpTo(c1, c2, buses[i], inputs[i], n, |inputs[i].slots|)
    ensures InputsLoaded(c, c2, inputs, buses, n, next)
  {
    assert inputs[i].slots[..|inputs[i].slots|] == inputs[i].slots;
    assert buses[..next] == buses[..i] + [buses[i]];
    forall j, slot | 0 <= j < next && slot in inputs[j].slots
      ensures slot < |c.grid| && c2.grid[slot] == Some(Stack(inputs[j].item, n))
    {
      assert Ready(c, buses[j], inputs[j], n);
      if j < i {
        assert slot !in inputs[i].slots;
      }
    }
    forall slot | 0 <= slot < |c.grid| && !Named(inputs, next, slot) ensures c2.grid[slot] == c.grid[slot] {
      assert slot !in inputs[i].slots && !Named(inputs, i, slot);
    }
  }

  lemma WithinShape(c: Client, c1: Client, calls: seq<Call>)
    requires SameShape(c, c1) && AllWithin(c1, calls)
    ensures AllWithin(c, calls)
  {
    forall k | 0 <= k < |calls| ensures Within(c, calls[k]) && !calls[k].StoreOutput? {
      assert Within(c1, calls[k]);
    }
  }

  /** The loads of one input more. */
  lemma OneInputMore(c: Client, calls: seq<Call>, inputs: seq<Input>, buses: seq<nat>, n: nat, i: nat, next: nat,
                     more: seq<Call>)
    requires AllReady(c, inputs, buses, n) && next == i + 1 <= |inputs| && more == LoadsOf(buses[i], inputs[i].slots, n)
    requires AllWithin(c, calls) && InputsLoaded(c, DoAll(c, calls), inputs, buses, n, i)
    ensures AllWithin(c, calls + more) && InputsLoaded(c, DoAll(c, calls + more), inputs, buses, n, next)
  {
    var c1, slots := DoAll(c, calls), inputs[i].slots;
    StillReady(c, c1, inputs, buses, n, i);
    InputIsLoaded(c1, buses[i], inputs[i], n, |slots|);
    assert slots[..|slots|] == slots;
    WithinShape(c, c1, more);
    DoAppend(c, calls, more);
    NextInputLoaded(c, c1, DoAll(c1, more), inputs, buses, n, i, next);
  }

  lemma {:induction false} InputsAreLoaded(c: Client, inputs: seq<Input>, buses: seq<nat>, n: nat, i: nat)
    requires AllReady(c, inputs, buses, n) && i <= |inputs|
    ensures AllWithin(c, AllLoads(inputs, buses, n, i))
    ensures InputsLoaded(c, DoAll(c, AllLoads(inputs, buses, n, i)), inputs, buses, n, i)
    decreases i
  {
    if i == 0 {
      assert AllLoads(inputs, buses, n, 0) == [] && DoAll(c, []) == c;
    } else {
      InputsAreLoaded(c, inputs, buses, n, i - 1);
      OneInputMore(c, AllLoads(inputs, buses, n, i - 1), inputs, buses, n, i - 1, i,
                   LoadsOf(buses[i - 1], inputs[i - 1].slots, n));
    }
  }

  // ----- tools

  /** Each tool has its own place in the storage and in the grid. */
  ghost predicate ToolsApart(c: Client, tools: seq<Tool>) {
    && (forall k :: 0 <= k < |tools| ==> tools[k].storage < |c.storage| && tools[k].slot < |c.grid|)
    && forall k, l :: 0 <= k < l < |tools| ==> tools[k].storage != tools[l].storage && tools[k].slot != tools[l].slot
  }

  /** The first k tools are in the grid, the others where they were. */
  ghost predicate ToolsOut(c: Client, c': Client, tools: seq<Tool>, k: nat)
    requires k <= |tools| && ToolsApart(c, tools)
  {
    && SameShape(c, c') && c'.bus == c.bus
    && (forall l :: 0 <= l < k ==>
          c'.storage[tools[l].storage].None? && c'.grid[tools[l].slot] == c.storage[tools[l].storage])
    && (forall s :: 0 <= s < |c.storage| && (forall l :: 0 <= l < k ==> tools[l].storage != s) ==> c'.storage[s] == c.storage[s])
    && forall s :: 0 <= s < |c.grid| && (forall l :: 0 <= l < k ==> tools[l].slot != s) ==> c'.grid[s] == c.grid[s]
  }

  lemma NextToolOut(c: Client, c1: Client, tools: seq<Tool>, k: nat, next: nat)
    requires ToolsApart(c, tools) && next == k + 1 <= |tools| && ToolsOut(c, c1, tools, k)
    requires c.grid[tools[k].slot].None?
    ensures ToolsOut(c, FetchTool(c1, tools[k]), tools, next)
  {
    assert c1.grid[tools[k].slot].None? && c1.storage[tools[k].storage] == c.storage[tools[k].storage];
  }

  lemma ToolLoadsSnoc(tools: seq<Tool>, k: nat, next: nat)
    requires next == k + 1 <= |tools|
    ensures ToolLoads(tools[..next]) == ToolLoads(tools[..k]) + [LoadTool(tools[k])]
    ensures ToolStores(tools[..next]) == ToolStores(tools[..k]) + [StoreTool(tools[k])]
  {}

  lemma {:induction false} ToolsAreFetched(c: Client, tools: seq<Tool>, k: nat)
    requires ToolsApart(c, tools) && k <= |tools| && forall l :: 0 <= l < |tools| ==> c.grid[tools[l].slot].None?
    ensures AllWithin(c, ToolLoads(tools[..k])) && ToolsOut(c, DoAll(c, ToolLoads(tools[..k])), tools, k)
    decreases k
  {
    if k > 0 {
      ToolsAreFetched(c, tools, k - 1);
      ToolLoadsSnoc(tools, k - 1, k);
      DoSnoc(c, ToolLoads(tools[..k - 1]), LoadTool(tools[k - 1]));
      NextToolOut(c, DoAll(c, ToolLoads(tools[..k - 1])), tools, k - 1, k);
    }
  }

  /** The tools from number k on are still in the grid, with whatever they were; those before are back. */
  ghost predicate ToolsBack(c: Client, c': Client, tools: seq<Tool>, k: nat)
    requires k <= |tools| && ToolsApart(c, tools)
  {
    && SameShape(c, c') && c'.bus == c.bus
    && (forall l :: 0 <= l < k ==> c'.storage[tools[l].storage] == c.grid[tools[l].slot] && c'.grid[tools[l].slot].None?)
    && (forall s :: 0 <= s < |c.storage| && (forall l :: 0 <= l < k ==> tools[l].storage != s) ==> c'.storage[s] == c.storage[s])
    && forall s :: 0 <= s < |c.grid| && (forall l :: 0 <= l < k ==> tools[l].slot != s) ==> c'.grid[s] == c.grid[s]
  }

  lemma NextToolBack(c: Client, c1: Client, tools: seq<Tool>, k: nat, next: nat)
    requires ToolsApart(c, tools) && next == k + 1 <= |tools| && ToolsBack(c, c1, tools, k)
    requires c.storage[tools[k].storage].None?
    ensures ToolsBack(c, ReturnTool(c1, tools[k]), tools, next)
  {
    assert c1.storage[tools[k].storage].None? && c1.grid[tools[k].slot] == c.grid[tools[k].slot];
  }

  lemma {:induction false} ToolsAreReturned(c: Client, tools: seq<Tool>, k: nat)
    requires ToolsApart(c, tools) && k <= |tools| && forall l :: 0 <= l < |tools| ==> c.storage[tools[l].storage].None?
    ensures AllWithin(c, ToolStores(tools[..k])) && ToolsBack(c, DoAll(c, ToolStores(tools[..k])), tools, k)
    decreases k
  {
    if k > 0 {
      ToolsAreReturned(c, tools, k - 1);
      ToolLoadsSnoc(tools, k - 1, k);
      DoSnoc(c, ToolStores(tools[..k - 1]), StoreTool(tools[k - 1]));
      NextToolBack(c, DoAll(c, ToolStores(tools[..k - 1])), tools, k - 1, k);
    }
  }

  // ----- the whole group

  /** Crafting uses up the ingredients and puts the product into an empty bus slot. */
  ghost predicate Crafts(c: Client, c': Client, tools: seq<Tool>, bus: nat, product: Option<Stack>, sets: nat) {
    && bus < |c.bus| && Makes(c.grid, ToolSlots(tools), sets)
    && c' == c.(grid := UsedUp(c.grid, ToolSlots(tools), sets), bus := c.bus[bus := product])
  }

  /** The client carries the calls out in order. Exactly one of them crafts: it puts its product into the bus slot it names. */
  ghost predicate RunsCalls(c: Client, c': Client, calls: seq<Call>, k: nat, tools: seq<Tool>, product: Option<Stack>, sets: nat)
    requires k < |calls|
  {
    && calls[k].StoreOutput? && AllWithin(c, calls[..k])
    && exists c2 :: Crafts(DoAll(c, calls[..k]), c2, tools, calls[k].bus, product, sets)
                    && AllWithin(c2, calls[k + 1..]) && c' == DoAll(c2, calls[k + 1..])
  }

  /** What the client does with a group. */
  ghost predicate RunsGroup(c: Client, c': Client, group: seq<Call>, tools: seq<Tool>, product: Option<Stack>, sets: nat) {
    exists k :: 0 <= k < |group| && RunsCalls(c, c', group, k, tools, product, sets)
  }

  /** Where a group crafts. */
  lemma GroupCrafts(inputs: seq<Input>, tools: seq<Tool>, buses: seq<nat>, first: nat, n: nat, k: nat)
    requires |inputs| <= |buses| && k < |Group(inputs, tools, buses, first, n)|
    requires Group(inputs, tools, buses, first, n)[k].StoreOutput?
    ensures var group := Group(inputs, tools, buses, first, n);
      && group[k].bus == first && group[k + 1..] == ToolStores(tools)
      && group[..k] == AllLoads(inputs, buses, n, |inputs|) + ToolLoads(tools)
  {
    var loads := AllLoads(inputs, buses, n, |inputs|);
    LoadsDoNotCraft(inputs, buses, n, |inputs|);
    assert k >= |loads| ==> k >= |loads| + |tools|;
  }

  lemma {:induction false} LoadsDoNotCraft(inputs: seq<Input>, buses: seq<nat>, n: nat, k: nat)
    requires k <= |inputs| <= |buses|
    ensures forall i :: 0 <= i < |AllLoads(inputs, buses, n, k)| ==> AllLoads(inputs, buses, n, k)[i].LoadInput?
    decreases k
  {
    if k > 0 {
      LoadsDoNotCraft(inputs, buses, n, k - 1);
    }
  }

  /** An empty grid, tools in places that no input uses, and bus slots with exactly what the sets take. */
  ghost predicate MayCraft(c: Client, inputs: seq<Input>, tools: seq<Tool>, buses: seq<nat>, n: nat) {
    && AllReady(c, inputs, buses, n) && ToolsApart(c, tools) && (forall s :: 0 <= s < |c.grid| ==> c.grid[s].None?)
    && forall k, i :: 0 <= k < |tools| && 0 <= i < |inputs| ==> tools[k].slot !in inputs[i].slots
  }

  /** The grid holds n of each ingredient, and the tools. */
  ghost predicate Laid(c: Client, c1: Client, inputs: seq<Input>, tools: seq<Tool>, buses: seq<nat>, n: nat)
    requires |inputs| <= |buses| && ToolsApart(c, tools)
  {
    && SameShape(c, c1)
    && (forall b :: 0 <= b < |c.bus| ==> c1.bus[b] == if b in buses[..|inputs|] then None else c.bus[b])
    && (forall j, slot :: 0 <= j < |inputs| && slot in inputs[j].slots ==>
          slot < |c.grid| && c1.grid[slot] == Some(Stack(inputs[j].item, n)))
    && (forall l :: 0 <= l < |tools| ==>
          c1.storage[tools[l].storage].None? && c1.grid[tools[l].slot] == c.storage[tools[l].storage])
    && (forall s :: 0 <= s < |c.storage| && (forall l :: 0 <= l < |tools| ==> tools[l].storage != s) ==>
          c1.storage[s] == c.storage[s])
    && forall s :: 0 <= s < |c.grid| && !Named(inputs, |inputs|, s) && s !in ToolSlots(tools) ==> c1.grid[s].None?
  }

  lemma GridIsLaid(c: Client, inputs: seq<Input>, tools: seq<Tool>, buses: seq<nat>, n: nat)
    requires MayCraft(c, inputs, tools, buses, n)
    ensures var calls := AllLoads(inputs, buses, n, |inputs|) + ToolLoads(tools);
      AllWithin(c, calls) && Laid(c, DoAll(c, calls), inputs, tools, buses, n)
  {
    var loads := AllLoads(inputs, buses, n, |inputs|);
    InputsAreLoaded(c, inputs, buses, n, |inputs|);
    var c1 := DoAll(c, loads);
    forall l | 0 <= l < |tools| ensures c1.grid[tools[l].slot].None? {
      assert !Named(inputs, |inputs|, tools[l].slot);
    }
    ToolsAreFetched(c1, tools, |tools|);
    assert tools[..|tools|] == tools;
    WithinShape(c, c1, ToolLoads(tools));
    DoAppend(c, loads, ToolLoads(tools));
    LaidByBoth(c, c1, DoAll(c1, ToolLoads(tools)), inputs, tools, buses, n);
  }

  lemma LaidByBoth(c: Client, c1: Client, c2: Client, inputs: seq<Input>, tools: seq<Tool>, buses: seq<nat>, n: nat)
    requires MayCraft(c, inputs, tools, buses, n) && InputsLoaded(c, c1, inputs, buses, n, |inputs|)
    requires ToolsApart(c1, tools) && ToolsOut(c1, c2, tools, |tools|)
    ensures Laid(c, c2, inputs, tools, buses, n)
  {
    forall s | 0 <= s < |c.grid| && !Named(inputs, |inputs|, s) && s !in ToolSlots(tools) ensures c2.grid[s].None? {
      assert forall l :: 0 <= l < |tools| ==> tools[l].slot in ToolSlots(tools);
    }
  }

  /** With n of each ingredient, n sets are made, and nothing is left but the tools. */
  lemma AllIsUsedUp(c: Client, c1: Client, inputs: seq<Input>, tools: seq<Tool>, buses: seq<nat>, n: nat, sets: nat)
    requires MayCraft(c, inputs, tools, buses, n) && Laid(c, c1, inputs, tools, buses, n)
    requires Makes(c1.grid, ToolSlots(tools), sets)
    ensures forall i :: 0 <= i < |inputs| && inputs[i].slots != [] ==> sets == n
    ensures forall s :: 0 <= s < |c1.grid| && s !in ToolSlots(tools) ==> UsedUp(c1.grid, ToolSlots(tools), sets)[s].None?
  {
    forall s | 0 <= s < |c1.grid| && s !in ToolSlots(tools) && c1.grid[s].Some?
      ensures sets == n && c1.grid[s].value.size == n
    {
      IngredientIsNamed(c, c1, inputs, tools, buses, n, s);
    }
    forall i | 0 <= i < |inputs| && inputs[i].slots != [] ensures sets == n {
      var slot := inputs[i].slots[0];
      assert slot in inputs[i].slots && slot !in ToolSlots(tools);
      IngredientIsNamed(c, c1, inputs, tools, buses, n, slot);
    }
  }

  lemma IngredientIsNamed(c: Client, c1: Client, inputs: seq<Input>, tools: seq<Tool>, buses: seq<nat>, n: nat, s: nat)
    requires MayCraft(c, inputs, tools, buses, n) && Laid(c, c1, inputs, tools, buses, n)
    requires s < |c1.grid| && s !in ToolSlots(tools) && c1.grid[s].Some?
    ensures c1.grid[s].value.size == n
  {
    assert Named(inputs, |inputs|, s);
  }

  /** What the group leaves: an empty grid, the tools where they were, no ingredient in the bus, and the product in the first
      slot. */
  ghost predicate Restored(c: Client, c': Client, inputs: seq<Input>, buses: seq<nat>, first: nat, product: Option<Stack>)
    requires |inputs| <= |buses| && first < |c.bus|
  {
    && SameShape(c, c') && c'.storage == c.storage && (forall s :: 0 <= s < |c.grid| ==> c'.grid[s].None?)
    && c'.bus[first] == product
    && forall b :: 0 <= b < |c.bus| && b != first ==> c'.bus[b] == if b in buses[..|inputs|] then None else c.bus[b]
  }

  lemma CraftedIsRestored(c: Client, c1: Client, c2: Client, c3: Client, inputs: seq<Input>, tools: seq<Tool>,
                          buses: seq<nat>, first: nat, n: nat, product: Option<Stack>, sets: nat)
    requires MayCraft(c, inputs, tools, buses, n) && Laid(c, c1, inputs, tools, buses, n) && first < |c.bus|
    requires Crafts(c1, c2, tools, first, product, sets) && ToolsApart(c2, tools) && ToolsBack(c2, c3, tools, |tools|)
    ensures Restored(c, c3, inputs, buses, first, product)
  {
    AllIsUsedUp(c, c1, inputs, tools, buses, n, sets);
    assert forall l :: 0 <= l < |tools| ==> tools[l].slot in ToolSlots(tools);
    forall s | 0 <= s < |c.storage| ensures c3.storage[s] == c.storage[s] {
      if l :| 0 <= l < |tools| && tools[l].storage == s {
        assert c3.storage[tools[l].storage] == c2.grid[tools[l].slot] == c1.grid[tools[l].slot];
      }
    }
    forall s | 0 <= s < |c.grid| ensures c3.grid[s].None? {
      if s !in ToolSlots(tools) {
        assert c2.grid[s].None?;
      }
    }
  }

  lemma CraftedThenStored(c: Client, c1: Client, c2: Client, c': Client, inputs: seq<Input>, tools: seq<Tool>,
                          buses: seq<nat>, first: nat, n: nat, product: Option<Stack>, sets: nat)
    requires MayCraft(c, inputs, tools, buses, n) && Laid(c, c1, inputs, tools, buses, n) && first < |c.bus|
    requires Crafts(c1, c2, tools, first, product, sets) && AllWithin(c2, ToolStores(tools)) && c' == DoAll(c2, ToolStores(tools))
    ensures Restored(c, c', inputs, buses, first, product)
    ensures forall i :: 0 <= i < |inputs| && inputs[i].slots != [] ==> sets == n
  {
    ToolsAreReturned(c2, tools, |tools|);
    assert tools[..|tools|] == tools;
    CraftedIsRestored(c, c1, c2, c', inputs, tools, buses, first, n, product, sets);
    AllIsUsedUp(c, c1, inputs, tools, buses, n, sets);
  }

  /** The states before and after crafting. */
  lemma RunTakenApart(c: Client, c': Client, inputs: seq<Input>, tools: seq<Tool>, buses: seq<nat>, first: nat, n: nat,
                      product: Option<Stack>, sets: nat)
    returns (loads: seq<Call>, c2: Client)
    requires |inputs| <= |buses| && RunsGroup(c, c', Group(inputs, tools, buses, first, n), tools, product, sets)
    ensures loads == AllLoads(inputs, buses, n, |inputs|) + ToolLoads(tools) && AllWithin(c, loads)
    ensures Crafts(DoAll(c, loads), c2, tools, first, product, sets)
    ensures AllWithin(c2, ToolStores(tools)) && c' == DoAll(c2, ToolStores(tools))
  {
    var group := Group(inputs, tools, buses, first, n);
    var k :| 0 <= k < |group| && RunsCalls(c, c', group, k, tools, product, sets);
    GroupCrafts(inputs, tools, buses, first, n, k);
    loads := group[..k];
    c2 :| Crafts(DoAll(c, group[..k]), c2, tools, group[k].bus, product, sets)
          && AllWithin(c2, group[k + 1..]) && c' == DoAll(c2, group[k + 1..]);
  }

  /** Each group makes its sets, empties the bus slots of its inputs, and leaves the grid empty and the tools in place; so the
      next group of the client, which it runs after this one, finds the grid as this one did. */
  lemma GroupRestoresGrid(c: Client, c': Client, inputs: seq<Input>, tools: seq<Tool>, buses: seq<nat>, first: nat, n: nat,
                          product: Option<Stack>, sets: nat)
    requires MayCraft(c, inputs, tools, buses, n) && first < |c.bus|
    requires RunsGroup(c, c', Group(inputs, tools, buses, first, n), tools, product, sets)
    ensures Restored(c, c', inputs, buses, first, product)
    ensures forall i :: 0 <= i < |inputs| && inputs[i].slots != [] ==> sets == n
  {
    var loads, c2 := RunTakenApart(c, c', inputs, tools, buses, first, n, product, sets);
    GridIsLaid(c, inputs, tools, buses, n);
    CraftedThenStored(c, DoAll(c, loads), c2, c', inputs, tools, buses, first, n, product, sets);
  }

  lemma SomeSetsAreMade(c: Client, c1: Client, inputs: seq<Input>, tools: seq<Tool>, buses: seq<nat>, n: nat)
    requires MayCraft(c, inputs, tools, buses, n) && Laid(c, c1, inputs, tools, buses, n)
    ensures Makes(c1.grid, ToolSlots(tools), n)
  {
    forall s | 0 <= s < |c1.grid| && s !in ToolSlots(tools) && c1.grid[s].Some? ensures c1.grid[s].value.size == n {
      IngredientIsNamed(c, c1, inputs, tools, buses, n, s);
    }
  }

  lemma StoresAreWithin(c: Client, c2: Client, tools: seq<Tool>)
    requires ToolsApart(c, tools) && SameShape(c, c2)
    ensures AllWithin(c2, ToolStores(tools))
  {}

  lemma CallsCanRun(c: Client, calls: seq<Call>, k: nat, tools: seq<Tool>, product: Option<Stack>, sets: nat, stores: seq<Call>)
    requires k < |calls| && calls[k].StoreOutput? && calls[k].bus < |c.bus| && AllWithin(c, calls[..k])
    requires Makes(DoAll(c, calls[..k]).grid, ToolSlots(tools), sets) && stores == calls[k + 1..]
    requires forall c2 :: SameShape(c, c2) ==> AllWithin(c2, stores)
    ensures exists c' :: RunsCalls(c, c', calls, k, tools, product, sets)
  {
    var c1 := DoAll(c, calls[..k]);
    var c2 := c1.(grid := UsedUp(c1.grid, ToolSlots(tools), sets), bus := c1.bus[calls[k].bus := product]);
    assert AllWithin(c2, stores) && Crafts(c1, c2, tools, calls[k].bus, product, sets);
    assert RunsCalls(c, DoAll(c2, stores), calls, k, tools, product, sets);
  }

  lemma GroupHasCraft(inputs: seq<Input>, tools: seq<Tool>, buses: seq<nat>, first: nat, n: nat) returns (k: nat)
    requires |inputs| <= |buses|
    ensures var group := Group(inputs, tools, buses, first, n);
      && k < |group| && group[k] == StoreOutput(first, n) && group[k + 1..] == ToolStores(tools)
      && group[..k] == AllLoads(inputs, buses, n, |inputs|) + ToolLoads(tools)
  {
    k := |AllLoads(inputs, buses, n, |inputs|) + ToolLoads(tools)|;
    assert Group(inputs, tools, buses, first, n)[k] == StoreOutput(first, n);
    GroupCrafts(inputs, tools, buses, first, n, k);
  }

  /** The grid is laid, and what lies on it makes the sets. */
  lemma GridMakes(c: Client, inputs: seq<Input>, tools: seq<Tool>, buses: seq<nat>, n: nat, calls: seq<Call>)
    requires MayCraft(c, inputs, tools, buses, n) && calls == AllLoads(inputs, buses, n, |inputs|) + ToolLoads(tools)
    ensures AllWithin(c, calls) && Makes(DoAll(c, calls).grid, ToolSlots(tools), n)
    ensures forall c2 :: SameShape(c, c2) ==> AllWithin(c2, ToolStores(tools))
  {
    GridIsLaid(c, inputs, tools, buses, n);
    SomeSetsAreMade(c, DoAll(c, calls), inputs, tools, buses, n);
    forall c2 | SameShape(c, c2) ensures AllWithin(c2, ToolStores(tools)) {
      StoresAreWithin(c, c2, tools);
    }
  }

  /** The client can carry each such group out, whatever the product is. */
  lemma GroupCanRun(c: Client, inputs: seq<Input>, tools: seq<Tool>, buses: seq<nat>, first: nat, n: nat, product: Option<Stack>)
    requires MayCraft(c, inputs, tools, buses, n) && first < |c.bus|
    ensures exists c' :: RunsGroup(c, c', Group(inputs, tools, buses, first, n), tools, product, n)
  {
    var group := Group(inputs, tools, buses, first, n);
    var k := GroupHasCraft(inputs, tools, buses, first, n);
    GridMakes(c, inputs, tools, buses, n, group[..k]);
    CallsCanRun(c, group, k, tools, product, n, ToolStores(tools));
    var c' :| RunsCalls(c, c', group, k, tools, product, n);
    assert RunsGroup(c, c', group, tools, product, n);
  }
}
