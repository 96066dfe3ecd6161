/** How the parts and jobs of the running bus (BusSystem) give their slots back: each exactly once. */
module BusJobs {
  import opened Common
  import opened Bus
  import opened BusSystem
  import opened BusRuns

  // ----- every slot is given back exactly once

  function Releases(e: Event, t: Ticket): nat {
    match e
    case GiveBack(u) => if u == t then 1 else 0
    case HandOver(ts) => if t in ts then 1 else 0
    case _ => 0
  }

  function CountReleases(es: seq<Event>, t: Ticket): nat {
    if es == [] then 0 else Releases(es[0], t) + CountReleases(es[1..], t)
  }

  function Finished(s: System, t: Ticket): nat {
    if t in s.parts && s.parts[t].state.Done? then 1 else 0
  }

  lemma GrantsFinishNothing(s: System, slots: seq<nat>, t: Ticket)
    requires Queue(s.bus.waiters, s.parts)
    ensures Finished(GrantAll(s, slots), t) == Finished(s, t)
  {
    GrantAllFresh(s, slots);
  }

  lemma AnswerFinished(s: System, plan: seq<Transfer>, room: bool, t: Ticket)
    requires Queue(s.bus.waiters, s.parts) && s.phase.Answered?
    ensures Finished(TakeAnswer(s, plan, room), t) == Finished(s, t)
  {
    var free := FreeSlots(s.phase.listing, s.bus.allocations);
    GrantsFinishNothing(s, free, t);
    assert TakeAnswer(s, plan, room).parts == GrantAll(s, free).parts;
  }

  lemma UpdateFinished(s: System, e: Event, t: Ticket)
    requires Inv(s) && Enabled(s, e) && (e.Finish? || e.UpdateFails?)
    ensures Finished(Step(s, e), t) == Finished(s, t)
  {}

  lemma HandOverFinished(s: System, ts: seq<Ticket>, t: Ticket)
    requires Inv(s) && AllHold(s, ts)
    ensures Finished(PutAway(s, ts), t) == Finished(s, t) + Releases(HandOver(ts), t)
  {
    forall u | u in ts ensures Holds(s, u) {
      var i :| 0 <= i < |ts| && ts[i] == u;
      assert Holds(s, ts[i]);
    }
  }

  lemma PartStepFinished(s: System, e: Event, t: Ticket)
    requires Inv(s) && Enabled(s, e) && (e.Ask? || e.Fill? || e.FillFails? || e.Turn? || e.Empty? || e.EmptyFails? || e.Receive?
                                         || e.GiveBack?)
    ensures Finished(Step(s, e), t) == Finished(s, t) + Releases(e, t)
  {}

  lemma OtherStepFinished(s: System, e: Event, t: Ticket)
    requires Enabled(s, e) && (e.Answer? || e.Store? || e.StoreFails? || e.EndCycle? || e.NextCycle? || e.Late?)
    ensures Finished(Step(s, e), t) == Finished(s, t) + Releases(e, t)
  {}

  /** Along every run a part is done exactly when its slot was given back once, and never twice. */
  lemma {:induction false} ReleasedOnce(s: System, es: seq<Event>, t: Ticket)
    requires Inv(s) && CanRun(s, es)
    ensures Finished(Run(s, es), t) == Finished(s, t) + CountReleases(es, t)
    decreases |es|
  {
    if es != [] {
      var e := es[0];
      StepInv(s, e);
      ReleasedOnce(Step(s, e), es[1..], t);
      if e.Process? {
        AnswerFinished(s, e.plan, e.room, t);
      } else if e.Finish? || e.UpdateFails? {
        UpdateFinished(s, e, t);
      } else if e.HandOver? {
        HandOverFinished(s, e.ts, t);
      } else if e.Answer? || e.Store? || e.StoreFails? || e.EndCycle? || e.NextCycle? || e.Late? {
        OtherStepFinished(s, e, t);
      } else {
        PartStepFinished(s, e, t);
      }
    }
  }

  // ----- a whole job gives its slots back

  function FreeEvents(ts: seq<Ticket>): seq<Event> {
    if ts == [] then [] else [GiveBack(ts[0])] + FreeEvents(ts[1..])
  }

  /** Nothing is left in the part's slot, and nothing went wrong. */
  predicate Ready(s: System, t: Ticket) {
    Emptied(s, t) && s.parts[t].state.ok && !s.parts[t].state.kept
  }

  predicate AllReady(s: System, ts: seq<Ticket>) {
    Distinct(ts) && forall i :: 0 <= i < |ts| ==> Ready(s, ts[i])
  }

  /** A part is as before, or it has been told its slot or the failure it waited for. */
  predicate Quiet(p: Part, p': Part) {
    p' == p || (p.state.Waiting? && (p'.state.Filling? || p'.state.Denied?))
  }

  /** The parts of these tickets are done, and all others were left alone but for what they waited for. */
  ghost predicate Released(parts: map<Ticket, Part>, parts': map<Ticket, Part>, ts: set<Ticket>) {
    && parts'.Keys == parts.Keys
    && forall t :: t in parts ==> if t in ts then parts'[t].state.Done? else Quiet(parts[t], parts'[t])
  }

  /** Waiters leave the queue at its front. */
  predicate Suffix(a: seq<Ticket>, b: seq<Ticket>) {
    |a| <= |b| && a == b[|b| - |a|..]
  }

  lemma ReleasedMore(p0: map<Ticket, Part>, p1: map<Ticket, Part>, p2: map<Ticket, Part>, ts: set<Ticket>, us: set<Ticket>)
    requires Released(p0, p1, ts) && Released(p1, p2, us) && ts !! us
    ensures Released(p0, p2, ts + us)
  {}

  lemma FreeReleases(s: System, t: Ticket)
    requires Inv(s) && Ready(s, t)
    ensures Released(s.parts, FreeOne(s, t).parts, {t}) && Suffix(FreeOne(s, t).bus.waiters, s.bus.waiters)
  {
    HeadIsMember(s.bus.waiters);
  }

  lemma FreeKeepsReady(s: System, t: Ticket, u: Ticket)
    requires Inv(s) && Ready(s, t) && Ready(s, u) && t != u
    ensures Ready(FreeOne(s, t), u)
  {
    HeadIsMember(s.bus.waiters);
  }

  lemma FreeKeepsAllReady(s: System, ts: seq<Ticket>)
    requires Inv(s) && AllReady(s, ts) && ts != []
    ensures Ready(s, ts[0]) && ts[0] !in ts[1..] && AllReady(FreeOne(s, ts[0]), ts[1..])
  {
    var t, rest := ts[0], ts[1..];
    assert Ready(s, t);
    forall i | 0 <= i < |rest| ensures Ready(FreeOne(s, t), rest[i]) {
      assert Ready(s, ts[i + 1]);
      FreeKeepsReady(s, t, rest[i]);
    }
  }

  lemma FreeFirst(s: System, ts: seq<Ticket>)
    requires Inv(s) && AllReady(s, ts) && ts != []
    ensures Ready(s, ts[0]) && Enabled(s, GiveBack(ts[0])) && Step(s, GiveBack(ts[0])) == FreeOne(s, ts[0])
    ensures Inv(FreeOne(s, ts[0])) && AllReady(FreeOne(s, ts[0]), ts[1..])
    ensures Released(s.parts, FreeOne(s, ts[0]).parts, {ts[0]}) && ts[0] !in ts[1..]
    ensures Suffix(FreeOne(s, ts[0]).bus.waiters, s.bus.waiters)
  {
    FreeKeepsAllReady(s, ts);
    FreeInv(s, ts[0]);
    FreeReleases(s, ts[0]);
  }

  lemma FreedFirst(s: System, s1: System, s2: System, ts: seq<Ticket>)
    requires ts != [] && ts[0] !in ts[1..]
    requires Released(s.parts, s1.parts, {ts[0]}) && Suffix(s1.bus.waiters, s.bus.waiters)
    requires Released(s1.parts, s2.parts, SetOf(ts[1..])) && Suffix(s2.bus.waiters, s1.bus.waiters)
    ensures Released(s.parts, s2.parts, SetOf(ts)) && Suffix(s2.bus.waiters, s.bus.waiters)
  {
    ReleasedMore(s.parts, s1.parts, s2.parts, {ts[0]}, SetOf(ts[1..]));
    assert SetOf(ts) == {ts[0]} + SetOf(ts[1..]);
  }

  lemma NoneReleased(s: System)
    ensures Released(s.parts, s.parts, SetOf<Ticket>([])) && Suffix(s.bus.waiters, s.bus.waiters)
  {}

  /** The success path of a job: when all its parts are emptied, freeing them one after the other, whoever
      gets the slots meanwhile, gives each of them back and touches no other part that is not waiting. */
  lemma {:induction false} JobFreesAll(s: System, ts: seq<Ticket>)
    requires Inv(s) && AllReady(s, ts)
    ensures CanRun(s, FreeEvents(ts))
    ensures Released(s.parts, Run(s, FreeEvents(ts)).parts, SetOf(ts))
    ensures Suffix(Run(s, FreeEvents(ts)).bus.waiters, s.bus.waiters)
    decreases |ts|
  {
    if ts == [] {
      NoneReleased(s);
    } else {
      FreeFirst(s, ts);
      var s1 := FreeOne(s, ts[0]);
      JobFreesAll(s1, ts[1..]);
      RunCons(s, GiveBack(ts[0]), FreeEvents(ts[1..]));
      FreedFirst(s, s1, Run(s1, FreeEvents(ts[1..])), ts);
    }
  }

  lemma PutAwayReleases(s: System, ts: seq<Ticket>)
    requires Queue(s.bus.waiters, s.parts) && AllHold(s, ts)
    ensures Released(s.parts, PutAway(s, ts).parts, SetOf(ts)) && PutAway(s, ts).bus.waiters == s.bus.waiters
  {
    forall u | u in ts ensures Holds(s, u) {
      var i :| 0 <= i < |ts| && ts[i] == u;
      assert Holds(s, ts[i]);
    }
  }

  /** The failure path, and the slot with products: the slots are handed over for emptying. */
  lemma JobHandsOver(s: System, ts: seq<Ticket>)
    requires Inv(s) && AllHold(s, ts) && AllSettled(s, ts)
    ensures CanRun(s, [HandOver(ts)]) && Run(s, [HandOver(ts)]) == PutAway(s, ts)
    ensures Released(s.parts, PutAway(s, ts).parts, SetOf(ts)) && PutAway(s, ts).bus.waiters == s.bus.waiters
  {
    PutAwayReleases(s, ts);
    OneRuns(s, HandOver(ts));
    assert Step(s, HandOver(ts)) == PutAway(s, ts);
  }
}
