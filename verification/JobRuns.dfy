/** Whole jobs on the bus, as the processes run them: one task per input, which waits for a slot, remembers it and waits
    for its extractions; then a join, the transfers out of all slots, a second join, and the return of all slots, freed
    on success and handed over for emptying on failure (execute_recipe of the processes, scattering_insert, extract_output
    and run_crafting_grid_process). A step of a job sends events to the bus (BusSystem) without looking whether the bus
    is in a state that allows them; that it always is, is what has to be proved. */
module JobRuns {
  import opened Common
  import opened Bus
  import opened BusSystem
  import opened BusJobs
  import opened Lines

  /** Plain jobs free all their slots. A mixed job also needs fluids, which may fail although the items are well. A crafting
      job gets its products into the first slot it was given, and hands that one over. An output job only brings items from
      a machine, and hands its slot over in any case. */
  datatype Kind = Plain | Mixed | Crafting | Output

  datatype Stage = Loading | Unloading | Ended(ok: bool)

  /** `parts` are the tickets of the job's tasks, `slotsToFree` those that have been told their slot, in that order. */
  datatype Job = Job(kind: Kind, parts: seq<Ticket>, slotsToFree: seq<Ticket>, stage: Stage)

  /** `owner` finds the job of a ticket, `log` is the order in which jobs have begun. */
  datatype World = World(sys: System, jobs: map<nat, Job>, owner: map<Ticket, nat>, log: seq<nat>)

  datatype Action =
    | Begin(j: nat, kind: Kind, tickets: seq<Ticket>, uses: seq<Use>)
    | Wake(t: Ticket)
    | Unload(j: nat)
    | Abandon(j: nat)
    | Complete(j: nat)
    | GiveUp(j: nat)
    | OnBus(e: Event)

  function WorldStart(phys: seq<nat>): World { World(Start(phys), map[], map[], []) }

  // ----- what the joins wait for

  /** The task of a ticket has ended: it was refused a slot, or all its extractions have been answered. */
  predicate ChildDone(job: Job, t: Ticket, parts: map<Ticket, Part>) {
    t in parts &&
    match parts[t].state
    case Denied => true
    case Filling(_, rest, _) => t in job.slotsToFree && rest == []
    case _ => false
  }

  /** It has ended well. */
  predicate ChildOk(job: Job, t: Ticket, parts: map<Ticket, Part>) {
    ChildDone(job, t, parts) && parts[t].state.Filling? && parts[t].state.ok
  }

  /** All transfers out of the slot of a ticket have been answered. */
  predicate OutDone(t: Ticket, parts: map<Ticket, Part>) {
    t in parts && parts[t].state.Emptying? && parts[t].state.rest == []
  }

  predicate OutOk(t: Ticket, parts: map<Ticket, Part>) {
    OutDone(t, parts) && parts[t].state.ok
  }

  predicate AllChildrenDone(job: Job, parts: map<Ticket, Part>) {
    forall i :: 0 <= i < |job.parts| ==> ChildDone(job, job.parts[i], parts)
  }

  predicate AllChildrenOk(job: Job, parts: map<Ticket, Part>) {
    forall i :: 0 <= i < |job.parts| ==> ChildOk(job, job.parts[i], parts)
  }

  predicate AllOutDone(job: Job, parts: map<Ticket, Part>) {
    forall i :: 0 <= i < |job.parts| ==> OutDone(job.parts[i], parts)
  }

  predicate AllOutOk(job: Job, parts: map<Ticket, Part>) {
    forall i :: 0 <= i < |job.parts| ==> OutOk(job.parts[i], parts)
  }

  /** The slot of this ticket gets items that the job does not transfer on. */
  predicate Keeps(job: Job, t: Ticket) {
    job.kind.Output? || (job.kind.Crafting? && job.slotsToFree != [] && job.slotsToFree[0] == t)
  }

  predicate InStage(w: World, j: nat, stage: Stage) {
    j in w.jobs && w.jobs[j].stage == stage
  }

  predicate Woken(w: World, t: Ticket) {
    t in w.owner && w.owner[t] in w.jobs && t in w.jobs[w.owner[t]].slotsToFree
  }

  predicate MayReceive(w: World, t: Ticket) {
    t in w.owner && w.owner[t] in w.jobs && Keeps(w.jobs[w.owner[t]], t)
  }

  predicate MayAsk(s: System, tickets: seq<Ticket>, uses: seq<Use>) {
    && !s.draining && Distinct(tickets) && |uses| == |tickets|
    && forall i :: 0 <= i < |tickets| ==> tickets[i] !in s.parts && Balanced(uses[i])
  }

  predicate MayBegin(w: World, j: nat, kind: Kind, tickets: seq<Ticket>, uses: seq<Use>) {
    && j !in w.jobs && MayAsk(w.sys, tickets, uses)
    && (kind.Crafting? ==> tickets != [])
    && (kind.Output? ==> |tickets| == 1 && uses[0].fills == [] && uses[0].outs == [])
  }

  predicate AllEnded(jobs: map<nat, Job>) {
    forall j :: j in jobs ==> jobs[j].stage.Ended?
  }

  /** Tasks pull only into a slot they were told, and the cycle ends when the tasks of all its jobs have ended. */
  ghost predicate MayHappen(w: World, e: Event) {
    match e
    case Ask(_, _, _, _) => false
    case Turn(_) => false
    case GiveBack(_) => false
    case HandOver(_) => false
    case Fill(t, _, _) => Woken(w, t) && Enabled(w.sys, e)
    case FillFails(t, _, _) => Woken(w, t) && Enabled(w.sys, e)
    case Receive(t, _) => MayReceive(w, t) && Enabled(w.sys, e)
    case EndCycle(spawn) => !w.sys.draining && (spawn ==> w.sys.phase.Idle?) && AllEnded(w.jobs)
    case _ => Enabled(w.sys, e)
  }

  ghost predicate Allowed(w: World, a: Action) {
    match a
    case Begin(j, kind, tickets, uses) => MayBegin(w, j, kind, tickets, uses)
    case Wake(t) =>
      && t in w.owner && InStage(w, w.owner[t], Loading) && !Woken(w, t)
      && t in w.sys.parts && w.sys.parts[t].state.Filling?
    case Unload(j) => InStage(w, j, Loading) && AllChildrenOk(w.jobs[j], w.sys.parts)
    case Abandon(j) =>
      && InStage(w, j, Loading) && AllChildrenDone(w.jobs[j], w.sys.parts)
      && (w.jobs[j].kind.Mixed? || !AllChildrenOk(w.jobs[j], w.sys.parts))
    case Complete(j) => InStage(w, j, Unloading) && AllOutOk(w.jobs[j], w.sys.parts)
    case GiveUp(j) =>
      && InStage(w, j, Unloading) && AllOutDone(w.jobs[j], w.sys.parts)
      && (w.jobs[j].kind.Mixed? || !AllOutOk(w.jobs[j], w.sys.parts))
    case OnBus(e) => MayHappen(w, e)
  }

  // ----- steps

  function AskEvents(ts: seq<Ticket>, uses: seq<Use>): seq<Event>
    decreases |ts|
  {
    if ts == [] || uses == [] then []
    else [Ask(ts[0], uses[0].fills, uses[0].outs, uses[0].cap)] + AskEvents(ts[1..], uses[1..])
  }

  function TurnEvents(ts: seq<Ticket>): seq<Event> {
    if ts == [] then [] else [Turn(ts[0])] + TurnEvents(ts[1..])
  }

  function Reverse(ts: seq<Ticket>): (r: seq<Ticket>)
    ensures |r| == |ts| && forall i :: 0 <= i < |r| ==> r[i] == ts[|ts| - 1 - i]
  {
    if ts == [] then [] else Reverse(ts[1..]) + [ts[0]]
  }

  /** How the slots of a job that went well are returned. A crafting job frees from the end, and keeps the first slot. */
  function ReturnEvents(job: Job): seq<Event> {
    match job.kind
    case Output => [HandOver(job.slotsToFree)]
    case Crafting =>
      if job.slotsToFree == [] then []
      else FreeEvents(Reverse(job.slotsToFree[1..])) + [HandOver([job.slotsToFree[0]])]
    case _ => FreeEvents(job.slotsToFree)
  }

  /** What an action sends to the bus. */
  function Trace(w: World, a: Action): seq<Event> {
    match a
    case Begin(j, kind, tickets, uses) => AskEvents(tickets, uses)
    case Wake(t) => []
    case Unload(j) => if j in w.jobs then TurnEvents(w.jobs[j].parts) else []
    case Abandon(j) => if j in w.jobs then [HandOver(w.jobs[j].slotsToFree)] else []
    case Complete(j) => if j in w.jobs then ReturnEvents(w.jobs[j]) else []
    case GiveUp(j) => if j in w.jobs then [HandOver(w.jobs[j].slotsToFree)] else []
    case OnBus(e) => [e]
  }

  /** The bus after these events, whether or not its rules allow them; what they do not allow has no effect. */
  ghost function Apply(s: System, es: seq<Event>): System
    decreases |es|
  {
    if es == [] then s else Apply(if Enabled(s, es[0]) then Step(s, es[0]) else s, es[1..])
  }

  function OwnersOf(ts: seq<Ticket>, j: nat): (r: map<Ticket, nat>)
    ensures r.Keys == SetOf(ts) && forall t :: t in ts ==> r[t] == j
  {
    if ts == [] then map[] else assert ts == [ts[0]] + ts[1..]; OwnersOf(ts[1..], j)[ts[0] := j]
  }

  function SetStage(jobs: map<nat, Job>, j: nat, stage: Stage): map<nat, Job> {
    if j in jobs then jobs[j := jobs[j].(stage := stage)] else jobs
  }

  function JobsAfter(w: World, a: Action): map<nat, Job> {
    match a
    case Begin(j, kind, tickets, uses) => w.jobs[j := Job(kind, tickets, [], Loading)]
    case Wake(t) =>
      if t in w.owner && w.owner[t] in w.jobs then
        var job := w.jobs[w.owner[t]];
        w.jobs[w.owner[t] := job.(slotsToFree := job.slotsToFree + [t])]
      else w.jobs
    case Unload(j) => SetStage(w.jobs, j, Unloading)
    case Abandon(j) => SetStage(w.jobs, j, Ended(false))
    case Complete(j) => SetStage(w.jobs, j, Ended(true))
    case GiveUp(j) => SetStage(w.jobs, j, Ended(false))
    case OnBus(e) => w.jobs
  }

  function OwnerAfter(w: World, a: Action): map<Ticket, nat> {
    if a.Begin? then w.owner + OwnersOf(a.tickets, a.j) else w.owner
  }

  function LogAfter(w: World, a: Action): seq<nat> { if a.Begin? then w.log + [a.j] else w.log }

  ghost function Do(w: World, a: Action): World {
    World(Apply(w.sys, Trace(w, a)), JobsAfter(w, a), OwnerAfter(w, a), LogAfter(w, a))
  }

  // ----- the invariant

  ghost predicate OwnsAll(owner: map<Ticket, nat>, j: nat, ts: seq<Ticket>) {
    Distinct(ts) && forall i :: 0 <= i < |ts| ==> ts[i] in owner && owner[ts[i]] == j
  }

  /** Every ticket belongs to one job, and every job's tickets are known. */
  ghost predicate Owned(jobs: map<nat, Job>, owner: map<Ticket, nat>, tickets: set<Ticket>) {
    && owner.Keys == tickets
    && (forall t :: t in owner ==> owner[t] in jobs && t in jobs[owner[t]].parts)
    && forall j :: j in jobs ==> OwnsAll(owner, j, jobs[j].parts)
  }

  /** What the stage of a job says about one of its parts. */
  predicate PartOk(job: Job, t: Ticket, p: Part) {
    match job.stage
    case Loading =>
      && (p.state.Waiting? || p.state.Denied? || p.state.Filling?)
      && (t in job.slotsToFree ==> p.state.Filling?)
    case Unloading => p.state.Emptying? && t in job.slotsToFree && (p.state.kept ==> Keeps(job, t))
    case Ended(_) => p.state.Done? || p.state.Denied?
  }

  ghost predicate Remembered(job: Job) {
    && Distinct(job.slotsToFree) && (forall t :: t in job.slotsToFree ==> t in job.parts)
    && (job.kind.Crafting? ==> job.parts != [])
  }

  ghost predicate Staged(job: Job, parts: map<Ticket, Part>) {
    Remembered(job) && forall t :: t in job.parts ==> t in parts && PartOk(job, t, parts[t])
  }

  ghost predicate AllStaged(jobs: map<nat, Job>, parts: map<Ticket, Part>) {
    forall j :: j in jobs ==> Staged(jobs[j], parts)
  }

  function PartsOf(jobs: map<nat, Job>): map<nat, seq<Ticket>> { map j | j in jobs :: jobs[j].parts }

  /** The waiters are the last ones in line. */
  ghost predicate InLine(waiters: seq<Ticket>, jobs: map<nat, Job>, log: seq<nat>) {
    && Distinct(log) && (forall j :: j in log <==> j in jobs)
    && Suffix(waiters, Lined(log, PartsOf(jobs)))
  }

  /** Jobs and tickets agree with the parts and the queue of the bus. */
  ghost predicate Records(jobs: map<nat, Job>, owner: map<Ticket, nat>, log: seq<nat>, s: System) {
    && Owned(jobs, owner, s.parts.Keys)
    && AllStaged(jobs, s.parts)
    && InLine(s.bus.waiters, jobs, log)
  }

  ghost predicate WorldInv(w: World) { Inv(w.sys) && Records(w.jobs, w.owner, w.log, w.sys) }

  // ----- what the events of an action do to the parts and to the queue

  lemma {:induction false} ApplyRuns(s: System, es: seq<Event>)
    requires CanRun(s, es)
    ensures Apply(s, es) == Run(s, es)
    decreases |es|
  {
    if es != [] {
      ApplyRuns(Step(s, es[0]), es[1..]);
    }
  }

  predicate Asking(p: Part, use: Use) { p == Part(use.fills, use.outs, use.cap, Waiting) }

  /** New parts wait; all others are as before. */
  ghost predicate AskedFor(parts: map<Ticket, Part>, parts': map<Ticket, Part>, ts: seq<Ticket>, uses: seq<Use>) {
    && |ts| == |uses| && parts'.Keys == parts.Keys + SetOf(ts)
    && (forall i :: 0 <= i < |ts| ==> Asking(parts'[ts[i]], uses[i]))
    && forall t :: t in parts && t !in ts ==> parts'[t] == parts[t]
  }

  lemma AskFirst(s: System, ts: seq<Ticket>, uses: seq<Use>, s1: System)
    requires Inv(s) && MayAsk(s, ts, uses) && ts != []
    requires s1 == AskFor(s, ts[0], uses[0].fills, uses[0].outs, uses[0].cap)
    ensures Enabled(s, Ask(ts[0], uses[0].fills, uses[0].outs, uses[0].cap))
    ensures Step(s, Ask(ts[0], uses[0].fills, uses[0].outs, uses[0].cap)) == s1
    ensures Inv(s1) && MayAsk(s1, ts[1..], uses[1..]) && ts[0] !in ts[1..]
  {
    assert Balanced(uses[0]) && ts[0] !in s.parts;
    AskInv(s, ts[0], uses[0].fills, uses[0].outs, uses[0].cap);
    forall i | 0 <= i < |ts[1..]| ensures ts[1..][i] !in s1.parts && Balanced(uses[1..][i]) {
      assert ts[i + 1] !in s.parts && Balanced(uses[i + 1]);
    }
  }

  lemma AskedMore(s: System, s1: System, s2: System, ts: seq<Ticket>, uses: seq<Use>)
    requires ts != [] && |uses| == |ts| && ts[0] !in s.parts && ts[0] !in ts[1..]
    requires s1 == AskFor(s, ts[0], uses[0].fills, uses[0].outs, uses[0].cap)
    requires AskedFor(s1.parts, s2.parts, ts[1..], uses[1..]) && s2.bus.waiters == s1.bus.waiters + ts[1..]
    ensures AskedFor(s.parts, s2.parts, ts, uses) && s2.bus.waiters == s.bus.waiters + ts
  {
    assert ts == [ts[0]] + ts[1..];
    assert SetOf(ts) == {ts[0]} + SetOf(ts[1..]);
    assert s.bus.waiters + ts == (s.bus.waiters + [ts[0]]) + ts[1..];
    forall i | 0 <= i < |ts| ensures Asking(s2.parts[ts[i]], uses[i]) {
      if i > 0 {
        assert Asking(s2.parts[ts[1..][i - 1]], uses[1..][i - 1]);
      }
    }
  }

  lemma {:induction false} AsksRun(s: System, ts: seq<Ticket>, uses: seq<Use>)
    requires Inv(s) && MayAsk(s, ts, uses)
    ensures CanRun(s, AskEvents(ts, uses))
    ensures AskedFor(s.parts, Run(s, AskEvents(ts, uses)).parts, ts, uses)
    ensures Run(s, AskEvents(ts, uses)).bus.waiters == s.bus.waiters + ts
    decreases |ts|
  {
    if ts == [] {
      assert Run(s, []) == s;
    } else {
      var e := Ask(ts[0], uses[0].fills, uses[0].outs, uses[0].cap);
      var s1 := AskFor(s, ts[0], uses[0].fills, uses[0].outs, uses[0].cap);
      AskFirst(s, ts, uses, s1);
      AsksRun(s1, ts[1..], uses[1..]);
      RunCons(s, e, AskEvents(ts[1..], uses[1..]));
      AskedMore(s, s1, Run(s1, AskEvents(ts[1..], uses[1..])), ts, uses);
    }
  }

  /** All extractions into the slot are done, and well. */
  predicate Loaded(s: System, t: Ticket) {
    Holds(s, t) && s.parts[t].state.Filling? && s.parts[t].state.rest == [] && s.parts[t].state.ok
  }

  predicate AllLoaded(s: System, ts: seq<Ticket>) {
    Distinct(ts) && forall i :: 0 <= i < |ts| ==> Loaded(s, ts[i])
  }

  /** These parts have begun to empty their slots; all others are as before. */
  ghost predicate Turned(parts: map<Ticket, Part>, parts': map<Ticket, Part>, ts: set<Ticket>) {
    && parts'.Keys == parts.Keys
    && forall t :: t in parts ==>
         if t in ts then parts'[t].state.Emptying? && !parts'[t].state.kept else parts'[t] == parts[t]
  }

  lemma TurnFirst(s: System, ts: seq<Ticket>, s1: System)
    requires Inv(s) && AllLoaded(s, ts) && ts != []
    requires var slot := s.parts[ts[0]].state.slot;
      s1 == Update(s, ts[0], Emptying(slot, s.parts[ts[0]].outs, true, false), s.phys[slot])
    ensures Enabled(s, Turn(ts[0])) && Step(s, Turn(ts[0])) == s1
    ensures Inv(s1) && AllLoaded(s1, ts[1..]) && ts[0] !in ts[1..]
    ensures Turned(s.parts, s1.parts, {ts[0]}) && s1.bus == s.bus
  {
    assert Loaded(s, ts[0]);
    TurnInv(s, ts[0]);
    forall i | 0 <= i < |ts[1..]| ensures Loaded(s1, ts[1..][i]) {
      assert Loaded(s, ts[i + 1]);
    }
  }

  lemma TurnedMore(p0: map<Ticket, Part>, p1: map<Ticket, Part>, p2: map<Ticket, Part>, ts: seq<Ticket>)
    requires ts != [] && ts[0] !in ts[1..]
    requires Turned(p0, p1, {ts[0]}) && Turned(p1, p2, SetOf(ts[1..]))
    ensures Turned(p0, p2, SetOf(ts))
  {
    assert SetOf(ts) == {ts[0]} + SetOf(ts[1..]);
  }

  lemma {:induction false} TurnsRun(s: System, ts: seq<Ticket>)
    requires Inv(s) && AllLoaded(s, ts)
    ensures CanRun(s, TurnEvents(ts))
    ensures Turned(s.parts, Run(s, TurnEvents(ts)).parts, SetOf(ts))
    ensures Run(s, TurnEvents(ts)).bus == s.bus
    decreases |ts|
  {
    if ts != [] {
      assert Loaded(s, ts[0]);
      var slot := s.parts[ts[0]].state.slot;
      var s1 := Update(s, ts[0], Emptying(slot, s.parts[ts[0]].outs, true, false), s.phys[slot]);
      TurnFirst(s, ts, s1);
      TurnsRun(s1, ts[1..]);
      RunCons(s, Turn(ts[0]), TurnEvents(ts[1..]));
      TurnedMore(s.parts, s1.parts, Run(s1, TurnEvents(ts[1..])).parts, ts);
    }
  }

  /** A crafting job: all slots but the first are freed, from the end, and the first is handed over. */
  lemma CraftingReturns(s: System, ts: seq<Ticket>)
    requires Inv(s) && ts != [] && Distinct(ts)
    requires forall i :: 1 <= i < |ts| ==> Ready(s, ts[i])
    requires Settled(s, ts[0])
    ensures var es := FreeEvents(Reverse(ts[1..])) + [HandOver([ts[0]])];
      CanRun(s, es) && Released(s.parts, Run(s, es).parts, SetOf(ts)) && Suffix(Run(s, es).bus.waiters, s.bus.waiters)
  {
    var rest := Reverse(ts[1..]);
    ReverseReady(s, ts);
    JobFreesAll(s, rest);
    var s1 := Run(s, FreeEvents(rest));
    RunInv(s, FreeEvents(rest));
    FirstStays(s, s1, ts);
    JobHandsOver(s1, [ts[0]]);
    RunAppend(s, FreeEvents(rest), [HandOver([ts[0]])]);
    ReleasedMore(s.parts, s1.parts, Run(s1, [HandOver([ts[0]])]).parts, SetOf(rest), SetOf([ts[0]]));
  }

  lemma ReverseReady(s: System, ts: seq<Ticket>)
    requires ts != [] && Distinct(ts)
    requires forall i :: 1 <= i < |ts| ==> Ready(s, ts[i])
    ensures AllReady(s, Reverse(ts[1..]))
    ensures SetOf(Reverse(ts[1..])) !! SetOf([ts[0]]) && SetOf(Reverse(ts[1..])) + SetOf([ts[0]]) == SetOf(ts)
  {
    var rest := Reverse(ts[1..]);
    forall i | 0 <= i < |rest| ensures Ready(s, rest[i]) && rest[i] != ts[0] {
      assert rest[i] == ts[|ts| - 1 - i];
    }
    forall t | t in ts ensures t == ts[0] || t in rest {
      var i :| 0 <= i < |ts| && ts[i] == t;
      if i > 0 {
        assert rest[|ts| - 1 - i] == t;
      }
    }
    forall t | t in rest ensures t in ts && t != ts[0] {
      var i :| 0 <= i < |rest| && rest[i] == t;
    }
  }

  lemma FirstStays(s: System, s1: System, ts: seq<Ticket>)
    requires Inv(s1) && ts != [] && Settled(s, ts[0]) && ts[0] in s1.parts
    requires Released(s.parts, s1.parts, SetOf(Reverse(ts[1..]))) && ts[0] !in Reverse(ts[1..])
    ensures AllHold(s1, [ts[0]]) && AllSettled(s1, [ts[0]])
  {
    assert Content(s1.parts[ts[0]], s1.phys);
    assert s1.parts[ts[0]] == s.parts[ts[0]];
    assert Settled(s1, ts[0]);
  }

  // ----- the events that no job sends

  predicate Background(e: Event) {
    e.Answer? || e.Process? || e.Store? || e.StoreFails? || e.Finish? || e.UpdateFails? || e.EndCycle? || e.NextCycle?
    || e.Late?
  }

  predicate Transfers(e: Event) {
    e.Fill? || e.FillFails? || e.Empty? || e.EmptyFails? || e.Receive?
  }

  lemma {:induction false} GrantsRelease(s: System, slots: seq<nat>)
    requires Queue(s.bus.waiters, s.parts) && Distinct(s.bus.waiters)
    ensures Released(s.parts, GrantAll(s, slots).parts, {}) && Suffix(GrantAll(s, slots).bus.waiters, s.bus.waiters)
    decreases |slots|
  {
    if slots != [] && s.bus.waiters != [] {
      HeadIsMember(s.bus.waiters);
      var n := |slots| - 1;
      var s1 := GrantOne(s, slots[n]);
      assert s.bus.waiters == [s.bus.waiters[0]] + s1.bus.waiters;
      GrantsRelease(s1, slots[..n]);
      ReleasedMore(s.parts, s1.parts, GrantAll(s1, slots[..n]).parts, {}, {});
    }
  }

  lemma AnswerReleases(s: System, plan: seq<Transfer>, room: bool)
    requires Queue(s.bus.waiters, s.parts) && Distinct(s.bus.waiters) && s.phase.Answered?
    ensures Released(s.parts, TakeAnswer(s, plan, room).parts, {})
    ensures Suffix(TakeAnswer(s, plan, room).bus.waiters, s.bus.waiters)
  {
    var free := FreeSlots(s.phase.listing, s.bus.allocations);
    GrantsRelease(s, free);
    assert TakeAnswer(s, plan, room).parts == GrantAll(s, free).parts;
    assert TakeAnswer(s, plan, room).bus.waiters == GrantAll(s, free).bus.waiters;
  }

  lemma FailReleases(s: System)
    requires Queue(s.bus.waiters, s.parts)
    ensures Released(s.parts, Fail(s).parts, {}) && Suffix(Fail(s).bus.waiters, s.bus.waiters)
  {}

  lemma NothingReleased(parts: map<Ticket, Part>, waiters: seq<Ticket>)
    ensures Released(parts, parts, {}) && Suffix(waiters, waiters)
  {}

  lemma BackgroundReleases(s: System, e: Event)
    requires Inv(s) && Enabled(s, e) && Background(e)
    ensures Released(s.parts, Step(s, e).parts, {}) && Suffix(Step(s, e).bus.waiters, s.bus.waiters)
  {
    if e.Process? {
      AnswerReleases(s, e.plan, e.room);
    } else if e.UpdateFails? || (e.Finish? && s.phase.failed) {
      FailReleases(s);
      assert Step(s, e) == Fail(s);
    } else {
      NothingReleased(s.parts, s.bus.waiters);
      assert Step(s, e).parts == s.parts && Step(s, e).bus.waiters == s.bus.waiters;
    }
  }

  /** What a transfer, or another task of the factory, may do to a part. */
  predicate Follows(p: Part, p': Part, keeps: bool) {
    || Quiet(p, p')
    || (p.state.Filling? && p'.state.Filling?)
    || (p.state.Emptying? && p'.state.Emptying? && (p'.state.kept ==> p.state.kept || keeps))
  }

  lemma TransferFollows(s: System, e: Event)
    requires Inv(s) && Enabled(s, e) && Transfers(e)
    ensures e.t in s.parts && Step(s, e).parts.Keys == s.parts.Keys && Step(s, e).bus == s.bus
    ensures forall t :: t in s.parts && t != e.t ==> Step(s, e).parts[t] == s.parts[t]
    ensures Follows(s.parts[e.t], Step(s, e).parts[e.t], e.Receive?)
  {}

  // ----- the invariant of the jobs

  lemma FollowsOk(job: Job, t: Ticket, p: Part, p': Part)
    requires PartOk(job, t, p) && Follows(p, p', Keeps(job, t))
    ensures PartOk(job, t, p')
  {}

  lemma StagedFollows(job: Job, parts: map<Ticket, Part>, parts': map<Ticket, Part>)
    requires Staged(job, parts) && parts'.Keys == parts.Keys
    requires forall t :: t in job.parts ==> Follows(parts[t], parts'[t], Keeps(job, t))
    ensures Staged(job, parts')
  {
    forall t | t in job.parts ensures t in parts' && PartOk(job, t, parts'[t]) {
      FollowsOk(job, t, parts[t], parts'[t]);
    }
  }

  lemma AllFollow(jobs: map<nat, Job>, parts: map<Ticket, Part>, parts': map<Ticket, Part>)
    requires AllStaged(jobs, parts) && Released(parts, parts', {})
    ensures AllStaged(jobs, parts')
  {
    forall j | j in jobs ensures Staged(jobs[j], parts') {
      StagedFollows(jobs[j], parts, parts');
    }
  }

  predicate SameParts(jobs: map<nat, Job>, jobs': map<nat, Job>) {
    jobs'.Keys == jobs.Keys && forall j :: j in jobs ==> jobs'[j].parts == jobs[j].parts
  }

  lemma SamePartsOf(jobs: map<nat, Job>, jobs': map<nat, Job>)
    requires SameParts(jobs, jobs')
    ensures PartsOf(jobs') == PartsOf(jobs)
  {}

  /** Only one job changes: its parts in a way that its new stage explains, the others as they follow. */
  lemma Restaged(w: World, j: nat, job: Job, parts': map<Ticket, Part>)
    requires AllStaged(w.jobs, w.sys.parts) && Owned(w.jobs, w.owner, w.sys.parts.Keys) && j in w.jobs
    requires job.parts == w.jobs[j].parts && Staged(job, parts') && parts'.Keys == w.sys.parts.Keys
    requires forall t :: t in w.sys.parts && t !in job.parts ==> Quiet(w.sys.parts[t], parts'[t])
    ensures AllStaged(w.jobs[j := job], parts')
  {
    forall k | k in w.jobs && k != j ensures Staged(w.jobs[k], parts') {
      assert Staged(w.jobs[k], w.sys.parts);
      forall t | t in w.jobs[k].parts ensures t !in job.parts {
        assert OwnsAll(w.owner, k, w.jobs[k].parts) && OwnsAll(w.owner, j, w.jobs[j].parts);
      }
      StagedFollows(w.jobs[k], w.sys.parts, parts');
    }
  }

  /** Nothing changes who has asked for what, and waiters leave at the front. */
  lemma Unmoved(w: World, jobs': map<nat, Job>, tickets: set<Ticket>, waiters: seq<Ticket>)
    requires Owned(w.jobs, w.owner, tickets) && InLine(w.sys.bus.waiters, w.jobs, w.log)
    requires SameParts(w.jobs, jobs') && Suffix(waiters, w.sys.bus.waiters)
    ensures Owned(jobs', w.owner, tickets) && InLine(waiters, jobs', w.log)
  {
    SamePartsOf(w.jobs, jobs');
  }

  lemma Recorded(w: World, j: nat, job: Job, s: System)
    requires Records(w.jobs, w.owner, w.log, w.sys) && j in w.jobs
    requires job.parts == w.jobs[j].parts && Staged(job, s.parts) && s.parts.Keys == w.sys.parts.Keys
    requires forall t :: t in w.sys.parts && t !in job.parts ==> Quiet(w.sys.parts[t], s.parts[t])
    requires Suffix(s.bus.waiters, w.sys.bus.waiters)
    ensures Records(w.jobs[j := job], w.owner, w.log, s)
  {
    Restaged(w, j, job, s.parts);
    Unmoved(w, w.jobs[j := job], s.parts.Keys, s.bus.waiters);
  }

  /** What an action has to show: the bus allows its events, and jobs and tickets agree afterwards. */
  ghost predicate Fine(w: World, a: Action) {
    && CanRun(w.sys, Trace(w, a))
    && Records(JobsAfter(w, a), OwnerAfter(w, a), LogAfter(w, a), Run(w.sys, Trace(w, a)))
  }

  /** The owners are known as before, and those of some new tickets besides. */
  ghost predicate Extended(owner: map<Ticket, nat>, owner': map<Ticket, nat>, ts: seq<Ticket>, j: nat) {
    && owner'.Keys == owner.Keys + SetOf(ts)
    && (forall t :: t in owner ==> owner'[t] == owner[t])
    && forall t :: t in ts ==> owner'[t] == j
  }

  lemma OwnersAdded(owner: map<Ticket, nat>, ts: seq<Ticket>, j: nat)
    requires forall t :: t in ts ==> t !in owner
    ensures Extended(owner, owner + OwnersOf(ts, j), ts, j)
  {}

  lemma OwnsMore(owner: map<Ticket, nat>, owner': map<Ticket, nat>, j: nat, ts: seq<Ticket>)
    requires OwnsAll(owner, j, ts) && forall t :: t in owner ==> t in owner' && owner'[t] == owner[t]
    ensures OwnsAll(owner', j, ts)
  {}

  lemma OwnedWith(jobs: map<nat, Job>, owner: map<Ticket, nat>, owner': map<Ticket, nat>, tickets: set<Ticket>,
                  j: nat, job: Job)
    requires Owned(jobs, owner, tickets) && j !in jobs && Distinct(job.parts) && Extended(owner, owner', job.parts, j)
    ensures Owned(jobs[j := job], owner', tickets + SetOf(job.parts))
  {
    forall k | k in jobs ensures OwnsAll(owner', k, jobs[k].parts) {
      OwnsMore(owner, owner', k, jobs[k].parts);
    }
    assert OwnsAll(owner', j, job.parts);
  }

  lemma BeginOwns(w: World, j: nat, job: Job)
    requires Owned(w.jobs, w.owner, w.sys.parts.Keys) && j !in w.jobs
    requires Distinct(job.parts) && forall i :: 0 <= i < |job.parts| ==> job.parts[i] !in w.sys.parts
    ensures Owned(w.jobs[j := job], w.owner + OwnersOf(job.parts, j), w.sys.parts.Keys + SetOf(job.parts))
  {
    OwnersAdded(w.owner, job.parts, j);
    OwnedWith(w.jobs, w.owner, w.owner + OwnersOf(job.parts, j), w.sys.parts.Keys, j, job);
  }

  lemma LogGrows(log: seq<nat>, jobs: map<nat, Job>, j: nat, job: Job)
    requires Distinct(log) && (forall k :: k in log <==> k in jobs) && j !in jobs
    ensures Distinct(log + [j]) && forall k :: k in log + [j] <==> k in jobs[j := job]
  {}

  lemma OneMorePartsOf(jobs: map<nat, Job>, j: nat, job: Job)
    ensures PartsOf(jobs[j := job]) == PartsOf(jobs)[j := job.parts]
  {}

  lemma BeginInLine(w: World, j: nat, job: Job)
    requires InLine(w.sys.bus.waiters, w.jobs, w.log) && j !in w.jobs
    ensures InLine(w.sys.bus.waiters + job.parts, w.jobs[j := job], w.log + [j])
  {
    LogGrows(w.log, w.jobs, j, job);
    NewInLine(w.log, PartsOf(w.jobs), w.sys.bus.waiters, j, job.parts);
    OneMorePartsOf(w.jobs, j, job);
  }

  lemma BeginStaged(jobs: map<nat, Job>, j: nat, job: Job, uses: seq<Use>, parts: map<Ticket, Part>, parts': map<Ticket, Part>)
    requires AllStaged(jobs, parts) && AskedFor(parts, parts', job.parts, uses) && j !in jobs
    requires job.stage.Loading? && job.slotsToFree == [] && (job.kind.Crafting? ==> job.parts != [])
    requires forall t :: t in job.parts ==> t !in parts
    ensures AllStaged(jobs[j := job], parts')
  {
    forall k | k in jobs ensures Staged(jobs[k], parts') {
      assert Staged(jobs[k], parts);
    }
    forall t | t in job.parts ensures t in parts' && PartOk(job, t, parts'[t]) {
      var i :| 0 <= i < |job.parts| && job.parts[i] == t;
      assert Asking(parts'[job.parts[i]], uses[i]);
    }
  }

  lemma BeginRecorded(w: World, j: nat, job: Job, uses: seq<Use>, s: System)
    requires Records(w.jobs, w.owner, w.log, w.sys) && j !in w.jobs
    requires Distinct(job.parts) && forall i :: 0 <= i < |job.parts| ==> job.parts[i] !in w.sys.parts
    requires job.stage.Loading? && job.slotsToFree == [] && (job.kind.Crafting? ==> job.parts != [])
    requires AskedFor(w.sys.parts, s.parts, job.parts, uses) && s.bus.waiters == w.sys.bus.waiters + job.parts
    ensures Records(w.jobs[j := job], w.owner + OwnersOf(job.parts, j), w.log + [j], s)
  {
    BeginOwns(w, j, job);
    BeginInLine(w, j, job);
    BeginStaged(w.jobs, j, job, uses, w.sys.parts, s.parts);
  }

  lemma BeginFine(w: World, j: nat, kind: Kind, tickets: seq<Ticket>, uses: seq<Use>)
    requires WorldInv(w) && MayBegin(w, j, kind, tickets, uses)
    ensures Fine(w, Begin(j, kind, tickets, uses))
  {
    AsksRun(w.sys, tickets, uses);
    BeginRecorded(w, j, Job(kind, tickets, [], Loading), uses, Run(w.sys, AskEvents(tickets, uses)));
  }

  lemma WakeStaged(job: Job, t: Ticket, parts: map<Ticket, Part>)
    requires Staged(job, parts) && job.stage.Loading? && t in job.parts && t !in job.slotsToFree
    requires t in parts && parts[t].state.Filling?
    ensures Staged(job.(slotsToFree := job.slotsToFree + [t]), parts)
  {}

  lemma WakeFine(w: World, t: Ticket)
    requires WorldInv(w) && Allowed(w, Wake(t))
    ensures Fine(w, Wake(t))
  {
    var j := w.owner[t];
    var job := w.jobs[j];
    WakeStaged(job, t, w.sys.parts);
    Recorded(w, j, job.(slotsToFree := job.slotsToFree + [t]), w.sys);
    assert Trace(w, Wake(t)) == [];
  }

  lemma TurnStaged(job: Job, parts: map<Ticket, Part>, parts': map<Ticket, Part>)
    requires Staged(job, parts) && job.stage.Loading? && Turned(parts, parts', SetOf(job.parts))
    requires forall t :: t in job.parts ==> t in job.slotsToFree
    ensures Staged(job.(stage := Unloading), parts')
  {}

  lemma ChildrenLoaded(s: System, job: Job)
    requires Contents(s.parts, s.phys) && Distinct(job.parts) && AllChildrenOk(job, s.parts)
    ensures AllLoaded(s, job.parts) && forall t :: t in job.parts ==> t in job.slotsToFree
  {
    forall i | 0 <= i < |job.parts| ensures Loaded(s, job.parts[i]) && job.parts[i] in job.slotsToFree {
      assert ChildOk(job, job.parts[i], s.parts) && Content(s.parts[job.parts[i]], s.phys);
    }
  }

  lemma UnloadFine(w: World, j: nat)
    requires WorldInv(w) && Allowed(w, Unload(j))
    ensures Fine(w, Unload(j))
  {
    var job := w.jobs[j];
    assert OwnsAll(w.owner, j, job.parts);
    ChildrenLoaded(w.sys, job);
    TurnsRun(w.sys, job.parts);
    var s := Run(w.sys, TurnEvents(job.parts));
    TurnStaged(job, w.sys.parts, s.parts);
    Recorded(w, j, job.(stage := Unloading), s);
  }

  lemma EndStaged(job: Job, ok: bool, parts: map<Ticket, Part>, parts': map<Ticket, Part>)
    requires Staged(job, parts) && Released(parts, parts', SetOf(job.slotsToFree))
    requires forall t :: t in job.parts && t !in job.slotsToFree ==> t in parts && parts[t].state.Denied?
    ensures Staged(job.(stage := Ended(ok)), parts')
  {}

  /** A job has returned its slots; the parts without a slot were refused one. */
  lemma EndRecorded(w: World, j: nat, ok: bool, s: System)
    requires Records(w.jobs, w.owner, w.log, w.sys) && j in w.jobs
    requires forall t :: t in w.jobs[j].parts && t !in w.jobs[j].slotsToFree ==> t in w.sys.parts && w.sys.parts[t].state.Denied?
    requires Released(w.sys.parts, s.parts, SetOf(w.jobs[j].slotsToFree)) && Suffix(s.bus.waiters, w.sys.bus.waiters)
    ensures Records(SetStage(w.jobs, j, Ended(ok)), w.owner, w.log, s)
  {
    assert Staged(w.jobs[j], w.sys.parts);
    EndStaged(w.jobs[j], ok, w.sys.parts, s.parts);
    Recorded(w, j, w.jobs[j].(stage := Ended(ok)), s);
  }

  lemma SlotsSettled(w: World, j: nat)
    requires WorldInv(w) && j in w.jobs
    requires || (w.jobs[j].stage.Loading? && AllChildrenDone(w.jobs[j], w.sys.parts))
             || (w.jobs[j].stage.Unloading? && AllOutDone(w.jobs[j], w.sys.parts))
    ensures AllHold(w.sys, w.jobs[j].slotsToFree) && AllSettled(w.sys, w.jobs[j].slotsToFree)
    ensures forall t :: t in w.jobs[j].parts && t !in w.jobs[j].slotsToFree ==> t in w.sys.parts && w.sys.parts[t].state.Denied?
  {
    var job := w.jobs[j];
    assert Staged(job, w.sys.parts);
    forall t | t in job.parts
      ensures t in w.sys.parts && if t in job.slotsToFree then Settled(w.sys, t) else w.sys.parts[t].state.Denied?
    {
      var i :| 0 <= i < |job.parts| && job.parts[i] == t;
      assert Content(w.sys.parts[t], w.sys.phys);
      if job.stage.Loading? {
        assert ChildDone(job, job.parts[i], w.sys.parts);
      } else {
        assert OutDone(job.parts[i], w.sys.parts);
      }
    }
    forall i | 0 <= i < |job.slotsToFree| ensures Settled(w.sys, job.slotsToFree[i]) {
      assert job.slotsToFree[i] in job.parts;
    }
  }

  lemma FailureFine(w: World, j: nat, a: Action)
    requires WorldInv(w) && Allowed(w, a) && (a == Abandon(j) || a == GiveUp(j))
    ensures Fine(w, a)
  {
    SlotsSettled(w, j);
    var ts := w.jobs[j].slotsToFree;
    JobHandsOver(w.sys, ts);
    EndRecorded(w, j, false, Run(w.sys, [HandOver(ts)]));
  }

  lemma SlotsReady(w: World, j: nat)
    requires WorldInv(w) && j in w.jobs && w.jobs[j].stage.Unloading? && AllOutOk(w.jobs[j], w.sys.parts)
    ensures forall t :: t in w.jobs[j].slotsToFree && !Keeps(w.jobs[j], t) ==> Ready(w.sys, t)
  {
    var job := w.jobs[j];
    assert Staged(job, w.sys.parts);
    forall t | t in job.slotsToFree && !Keeps(job, t) ensures Ready(w.sys, t) {
      assert t in job.parts;
      var i :| 0 <= i < |job.parts| && job.parts[i] == t;
      assert OutOk(job.parts[i], w.sys.parts) && Content(w.sys.parts[t], w.sys.phys);
    }
  }

  lemma FirstRemembered(job: Job, parts: map<Ticket, Part>)
    requires Staged(job, parts) && job.kind.Crafting? && job.stage.Unloading?
    ensures job.slotsToFree != []
  {
    assert job.parts[0] in job.parts;
  }

  /** How the slots of a job come back: see ReturnEvents. */
  ghost predicate Returns(s: System, job: Job) {
    && CanRun(s, ReturnEvents(job))
    && Released(s.parts, Run(s, ReturnEvents(job)).parts, SetOf(job.slotsToFree))
    && Suffix(Run(s, ReturnEvents(job)).bus.waiters, s.bus.waiters)
  }

  lemma OutputReturns(s: System, job: Job)
    requires Inv(s) && job.kind.Output? && AllHold(s, job.slotsToFree) && AllSettled(s, job.slotsToFree)
    ensures Returns(s, job)
  {
    JobHandsOver(s, job.slotsToFree);
  }

  lemma FirstReturns(s: System, job: Job)
    requires Inv(s) && job.kind.Crafting? && Distinct(job.slotsToFree) && job.slotsToFree != []
    requires Settled(s, job.slotsToFree[0])
    requires forall t :: t in job.slotsToFree && !Keeps(job, t) ==> Ready(s, t)
    ensures Returns(s, job)
  {
    forall i | 1 <= i < |job.slotsToFree| ensures Ready(s, job.slotsToFree[i]) {
      assert job.slotsToFree[i] in job.slotsToFree && job.slotsToFree[i] != job.slotsToFree[0];
    }
    CraftingReturns(s, job.slotsToFree);
  }

  lemma PlainReturns(s: System, job: Job)
    requires Inv(s) && (job.kind.Plain? || job.kind.Mixed?) && Distinct(job.slotsToFree)
    requires forall t :: t in job.slotsToFree && !Keeps(job, t) ==> Ready(s, t)
    ensures Returns(s, job)
  {
    forall i | 0 <= i < |job.slotsToFree| ensures Ready(s, job.slotsToFree[i]) {
      assert job.slotsToFree[i] in job.slotsToFree;
    }
    JobFreesAll(s, job.slotsToFree);
  }

  lemma ReturnsRun(w: World, j: nat)
    requires j in w.jobs && WorldInv(w) && Allowed(w, Complete(j))
    ensures Returns(w.sys, w.jobs[j])
  {
    var job := w.jobs[j];
    OutOkIsDone(job, w.sys.parts);
    SlotsSettled(w, j);
    SlotsReady(w, j);
    if job.kind.Output? {
      OutputReturns(w.sys, job);
    } else if job.kind.Crafting? {
      FirstRemembered(job, w.sys.parts);
      assert Settled(w.sys, job.slotsToFree[0]);
      FirstReturns(w.sys, job);
    } else {
      PlainReturns(w.sys, job);
    }
  }

  lemma OutOkIsDone(job: Job, parts: map<Ticket, Part>)
    requires AllOutOk(job, parts)
    ensures AllOutDone(job, parts)
  {
    forall i | 0 <= i < |job.parts| ensures OutDone(job.parts[i], parts) {
      assert OutOk(job.parts[i], parts);
    }
  }

  lemma CompleteFine(w: World, j: nat)
    requires WorldInv(w) && Allowed(w, Complete(j))
    ensures Fine(w, Complete(j))
  {
    ReturnsRun(w, j);
    OutOkIsDone(w.jobs[j], w.sys.parts);
    SlotsSettled(w, j);
    EndRecorded(w, j, true, Run(w.sys, ReturnEvents(w.jobs[j])));
  }

  /** When the tasks of all jobs have ended, every part is done or was refused a slot. */
  lemma EndedParts(w: World, t: Ticket)
    requires WorldInv(w) && AllEnded(w.jobs) && t in w.sys.parts
    ensures w.sys.parts[t].state.Done? || w.sys.parts[t].state.Denied?
  {
    assert Staged(w.jobs[w.owner[t]], w.sys.parts);
  }

  lemma MayHappenIsEnabled(w: World, e: Event)
    requires WorldInv(w) && MayHappen(w, e)
    ensures Enabled(w.sys, e) && (Background(e) || Transfers(e))
  {
    if e.EndCycle? {
      forall t | t in w.sys.parts ensures w.sys.parts[t].state.Done? || w.sys.parts[t].state.Denied? {
        EndedParts(w, t);
      }
    }
  }

  lemma TransferStaged(w: World, e: Event, parts': map<Ticket, Part>)
    requires Owned(w.jobs, w.owner, w.sys.parts.Keys) && AllStaged(w.jobs, w.sys.parts)
    requires Transfers(e) && e.t in w.sys.parts && parts'.Keys == w.sys.parts.Keys && (e.Receive? ==> MayReceive(w, e.t))
    requires forall t :: t in w.sys.parts && t != e.t ==> parts'[t] == w.sys.parts[t]
    requires Follows(w.sys.parts[e.t], parts'[e.t], e.Receive?)
    ensures AllStaged(w.jobs, parts')
  {
    forall j | j in w.jobs ensures Staged(w.jobs[j], parts') {
      assert OwnsAll(w.owner, j, w.jobs[j].parts);
      StagedFollows(w.jobs[j], w.sys.parts, parts');
    }
  }

  lemma TransferFine(w: World, e: Event)
    requires WorldInv(w) && MayHappen(w, e) && Enabled(w.sys, e) && Transfers(e)
    ensures Records(w.jobs, w.owner, w.log, Step(w.sys, e))
  {
    TransferFollows(w.sys, e);
    var s := Step(w.sys, e);
    TransferStaged(w, e, s.parts);
    Unmoved(w, w.jobs, s.parts.Keys, s.bus.waiters);
  }

  lemma BackgroundRecorded(w: World, s: System)
    requires Records(w.jobs, w.owner, w.log, w.sys)
    requires Released(w.sys.parts, s.parts, {}) && Suffix(s.bus.waiters, w.sys.bus.waiters)
    ensures Records(w.jobs, w.owner, w.log, s)
  {
    AllFollow(w.jobs, w.sys.parts, s.parts);
    Unmoved(w, w.jobs, s.parts.Keys, s.bus.waiters);
  }

  lemma BackgroundFine(w: World, e: Event)
    requires WorldInv(w) && Enabled(w.sys, e) && Background(e)
    ensures Records(w.jobs, w.owner, w.log, Step(w.sys, e))
  {
    BackgroundReleases(w.sys, e);
    var s := Step(w.sys, e);
    BackgroundRecorded(w, s);
  }

  lemma OnBusRecorded(w: World, e: Event)
    requires WorldInv(w) && MayHappen(w, e)
    ensures CanRun(w.sys, [e]) && Records(w.jobs, w.owner, w.log, Run(w.sys, [e]))
  {
    MayHappenIsEnabled(w, e);
    OneRuns(w.sys, e);
    if Background(e) {
      BackgroundFine(w, e);
    } else {
      TransferFine(w, e);
    }
  }

  lemma OnBusFine(w: World, e: Event)
    requires CanRun(w.sys, [e]) && Records(w.jobs, w.owner, w.log, Run(w.sys, [e]))
    ensures Fine(w, OnBus(e))
  {
    var a := OnBus(e);
    assert Trace(w, a) == [e] && JobsAfter(w, a) == w.jobs && OwnerAfter(w, a) == w.owner && LogAfter(w, a) == w.log;
  }

  lemma ActionFine(w: World, a: Action)
    requires WorldInv(w) && Allowed(w, a)
    ensures Fine(w, a)
  {
    match a
    case Begin(j, kind, tickets, uses) => BeginFine(w, j, kind, tickets, uses);
    case Wake(t) => WakeFine(w, t);
    case Unload(j) => UnloadFine(w, j);
    case Abandon(j) => FailureFine(w, j, a);
    case Complete(j) => CompleteFine(w, j);
    case GiveUp(j) => FailureFine(w, j, a);
    case OnBus(e) =>
      OnBusRecorded(w, e);
      OnBusFine(w, e);
  }

  /** Whatever a job does, at any moment and on success or failure, the bus allows: a slot freed is empty and without
      transfers under way, a slot handed over has no transfers under way, and the cycle ends with no slot held. */
  lemma Refines(w: World, a: Action)
    requires WorldInv(w) && Allowed(w, a)
    ensures CanRun(w.sys, Trace(w, a)) && Do(w, a).sys == Run(w.sys, Trace(w, a))
    ensures WorldInv(Do(w, a))
  {
    ActionFine(w, a);
    ApplyRuns(w.sys, Trace(w, a));
    RunInv(w.sys, Trace(w, a));
  }

  // ----- whole runs

  ghost predicate CanAct(w: World, actions: seq<Action>)
    decreases |actions|
  {
    actions == [] || (Allowed(w, actions[0]) && CanAct(Do(w, actions[0]), actions[1..]))
  }

  ghost function Act(w: World, actions: seq<Action>): World
    decreases |actions|
  {
    if actions == [] then w else Act(Do(w, actions[0]), actions[1..])
  }

  lemma MayHappenRuns(w: World, e: Event)
    requires WorldInv(w) && MayHappen(w, e)
    ensures Enabled(w.sys, e) && WorldInv(Do(w, OnBus(e))) && Do(w, OnBus(e)).sys == Step(w.sys, e)
  {
    Refines(w, OnBus(e));
    MayHappenIsEnabled(w, e);
    OneRuns(w.sys, e);
  }

  lemma OneAct(w: World, a: Action)
    ensures Act(w, [a]) == Do(w, a)
  {
    assert [a][1..] == [];
  }

  lemma PullParts(s: System, e: Event)
    requires (e.Fill? || e.FillFails?) && Enabled(s, e)
    ensures Step(s, e).parts == s.parts[e.t := s.parts[e.t].(state := Pulled(s.parts[e.t].state, e.k, e.Fill?))]
  {}

  lemma PushParts(s: System, e: Event)
    requires (e.Empty? || e.EmptyFails?) && Enabled(s, e)
    ensures Step(s, e).parts == s.parts[e.t := s.parts[e.t].(state := Pushed(s.parts[e.t].state, e.k, e.Empty?))]
  {}

  lemma OneMayAct(w: World, a: Action)
    requires Allowed(w, a)
    ensures CanAct(w, [a])
  {
    assert [a][1..] == [];
  }

  lemma {:induction false} ActAppend(w: World, as1: seq<Action>, as2: seq<Action>)
    requires CanAct(w, as1) && CanAct(Act(w, as1), as2)
    ensures CanAct(w, as1 + as2) && Act(w, as1 + as2) == Act(Act(w, as1), as2)
    decreases |as1|
  {
    if as1 == [] {
      assert as1 + as2 == as2;
    } else {
      assert (as1 + as2)[1..] == as1[1..] + as2;
      ActAppend(Do(w, as1[0]), as1[1..], as2);
    }
  }

  ghost function TraceAll(w: World, actions: seq<Action>): seq<Event>
    decreases |actions|
  {
    if actions == [] then [] else Trace(w, actions[0]) + TraceAll(Do(w, actions[0]), actions[1..])
  }

  lemma StartWorldInv(phys: seq<nat>)
    ensures WorldInv(WorldStart(phys))
  {}

  /** Every run of the jobs is a run of the bus, so that all of BusRuns holds of it, and keeps the jobs' invariant. */
  lemma {:induction false} RunsRefine(w: World, actions: seq<Action>)
    requires WorldInv(w) && CanAct(w, actions)
    ensures CanRun(w.sys, TraceAll(w, actions)) && Run(w.sys, TraceAll(w, actions)) == Act(w, actions).sys
    ensures WorldInv(Act(w, actions))
    decreases |actions|
  {
    if actions != [] {
      Refines(w, actions[0]);
      RunsRefine(Do(w, actions[0]), actions[1..]);
      RunAppend(w.sys, Trace(w, actions[0]), TraceAll(Do(w, actions[0]), actions[1..]));
    }
  }

  /** How often a part's slot must have been given back: never if it was refused one, else once. */
  function Due(p: Part): nat { if p.state.Denied? then 0 else 1 }

  lemma CountIsDue(phys: seq<nat>, es: seq<Event>, s: System, t: Ticket)
    requires CanRun(Start(phys), es) && s == Run(Start(phys), es)
    requires t in s.parts && (s.parts[t].state.Done? || s.parts[t].state.Denied?)
    ensures CountReleases(es, t) == Due(s.parts[t])
  {
    StartInv(phys);
    ReleasedOnce(Start(phys), es, t);
  }

  /** When a job has ended, well or not, each slot it was granted has been freed or handed over exactly once, and none of
      its transfers is still under way. */
  lemma EndedJobsReleaseOnce(phys: seq<nat>, actions: seq<Action>, j: nat, t: Ticket)
    requires CanAct(WorldStart(phys), actions)
    requires var w := Act(WorldStart(phys), actions); j in w.jobs && w.jobs[j].stage.Ended? && t in w.jobs[j].parts
    ensures var w := Act(WorldStart(phys), actions);
      && t in w.sys.parts && (w.sys.parts[t].state.Done? || w.sys.parts[t].state.Denied?)
      && CountReleases(TraceAll(WorldStart(phys), actions), t) == Due(w.sys.parts[t])
      && forall k :: !Pulling(w.sys, t, k) && !Pushing(w.sys, t, k)
  {
    StartWorldInv(phys);
    RunsRefine(WorldStart(phys), actions);
    var w := Act(WorldStart(phys), actions);
    assert Staged(w.jobs[j], w.sys.parts);
    CountIsDue(phys, TraceAll(WorldStart(phys), actions), w.sys, t);
  }

  lemma NoneHeld(w: World)
    requires WorldInv(w) && AllEnded(w.jobs)
    ensures w.sys.held == map[] && w.sys.bus.waiters == []
  {
    forall x | x in w.sys.held ensures false {
      EndedParts(w, w.sys.held[x]);
    }
    if w.sys.bus.waiters != [] {
      HeadIsMember(w.sys.bus.waiters);
      EndedParts(w, w.sys.bus.waiters[0]);
    }
  }

  lemma EndedCycle(phys: seq<nat>, es: seq<Event>, w: World)
    requires WorldInv(w) && AllEnded(w.jobs) && CanRun(Start(phys), es) && w.sys == Run(Start(phys), es)
    ensures w.sys.held == map[] && w.sys.bus.waiters == []
    ensures forall t :: t in w.sys.parts ==> CountReleases(es, t) == Due(w.sys.parts[t])
  {
    NoneHeld(w);
    forall t | t in w.sys.parts ensures CountReleases(es, t) == Due(w.sys.parts[t]) {
      EndedParts(w, t);
      CountIsDue(phys, es, w.sys, t);
    }
  }

  lemma MayEndWhenEnded(w: World, spawn: bool)
    requires Allowed(w, OnBus(EndCycle(spawn)))
    ensures AllEnded(w.jobs)
  {}

  lemma RunEndsCycle(phys: seq<nat>, actions: seq<Action>, w: World)
    requires CanAct(WorldStart(phys), actions) && w == Act(WorldStart(phys), actions) && AllEnded(w.jobs)
    ensures w.sys.held == map[] && w.sys.bus.waiters == []
    ensures forall t :: t in w.sys.parts ==> CountReleases(TraceAll(WorldStart(phys), actions), t) == Due(w.sys.parts[t])
  {
    StartWorldInv(phys);
    RunsRefine(WorldStart(phys), actions);
    EndedCycle(phys, TraceAll(WorldStart(phys), actions), w);
  }

  /** When a cycle ends, nobody holds a slot or waits for one, and every slot ever granted came back exactly once. */
  lemma CycleReturnsEverySlot(phys: seq<nat>, actions: seq<Action>, spawn: bool)
    requires CanAct(WorldStart(phys), actions)
    requires Allowed(Act(WorldStart(phys), actions), OnBus(EndCycle(spawn)))
    ensures var w := Act(WorldStart(phys), actions);
      && w.sys.held == map[] && w.sys.bus.waiters == []
      && forall t :: t in w.sys.parts ==> CountReleases(TraceAll(WorldStart(phys), actions), t) == Due(w.sys.parts[t])
  {
    var w := Act(WorldStart(phys), actions);
    MayEndWhenEnded(w, spawn);
    RunEndsCycle(phys, actions, w);
  }
}
