/** What the bus allocator tells the tasks (the one-shot channels of bus_allocate), and what it has in its own books: each
    ticket is told once, in the order in which they asked, and whoever is told a slot is the one who has it. */
module Messages {
  import opened Common
  import opened Bus
  import opened BusSystem
  import opened BusRuns

  /** The messages that go out in a step, as the methods of the allocator send them (Bus). */
  predicate Sends(s: System, e: Event, news: seq<Send>) {
    match e
    case GiveBack(t) => Holds(s, t) && Granting(s.bus.waiters, [s.parts[t].state.slot], news)
    case Process(_, _) => s.phase.Answered? && Granting(s.bus.waiters, FreeSlots(s.phase.listing, s.bus.allocations), news)
    case UpdateFails => Refusing(s.bus.waiters, news)
    case Finish => if s.phase.Storing? && s.phase.failed then Refusing(s.bus.waiters, news) else news == []
    case _ => news == []
  }

  /** Whoever is told a slot has it then, and nobody else comes to have one; each has it from the message on. */
  ghost predicate GrantsAreHeld(held: map<nat, Ticket>, held': map<nat, Ticket>, parts': map<Ticket, Part>, news: seq<Send>) {
    && (forall i :: 0 <= i < |news| && news[i].reply.Granted? ==>
          var x, t := news[i].reply.slot, news[i].ticket;
          x in held' && held'[x] == t && t in parts' && parts'[t].state == Filling(x, parts'[t].fills, true))
    && forall x :: x in held' && !(x in held && held[x] == held'[x]) ==>
         exists i :: 0 <= i < |news| && news[i] == Send(held'[x], Granted(x))
  }

  /** Whoever is refused is not served. */
  ghost predicate RefusedAreDenied(parts': map<Ticket, Part>, news: seq<Send>) {
    forall i :: 0 <= i < |news| && news[i].reply.Refused? ==>
      news[i].ticket in parts' && parts'[news[i].ticket].state.Denied?
  }

  function Tickets(news: seq<Send>): (ts: seq<Ticket>)
    ensures |ts| == |news| && forall i :: 0 <= i < |ts| ==> ts[i] == news[i].ticket
  {
    seq(|news|, i requires 0 <= i < |news| => news[i].ticket)
  }

  function Asked(e: Event): seq<Ticket> { if e.Ask? then [e.t] else [] }

  /** The messages of a step go to those who leave the queue, in its order; and they say what has become of them. */
  ghost predicate Tells(s: System, s': System, asked: seq<Ticket>, news: seq<Send>) {
    && s.bus.waiters + asked == Tickets(news) + s'.bus.waiters
    && GrantsAreHeld(s.held, s'.held, s'.parts, news) && RefusedAreDenied(s'.parts, news)
  }

  lemma NothingSaid(s: System, s': System, asked: seq<Ticket>)
    requires s'.bus.waiters == s.bus.waiters + asked
    requires forall x :: x in s'.held ==> x in s.held && s.held[x] == s'.held[x]
    ensures Tells(s, s', asked, [])
  {}

  lemma OneSaid(s: System, slot: nat, n: Send)
    requires s.bus.waiters != [] && s.bus.waiters[0] in s.parts && n == Send(s.bus.waiters[0], Granted(slot))
    ensures Tells(s, GrantOne(s, slot), [], [n])
  {
    assert [n][0] == n && Tickets([n]) == [n.ticket];
  }

  lemma GrantingRest(waiters: seq<Ticket>, slots: seq<nat>, news: seq<Send>, k: nat)
    requires Granting(waiters, slots, news) && waiters != [] && |slots| == k + 1
    ensures news != [] && news[0] == Send(waiters[0], Granted(slots[k])) && Granting(waiters[1..], slots[..k], news[1..])
  {}

  /** Other slots keep their holders, and those who do not wait are not concerned. */
  ghost predicate OthersStay(s: System, s': System, slots: seq<nat>) {
    && (forall x :: x !in slots && x in s.held ==> x in s'.held && s'.held[x] == s.held[x])
    && s'.parts.Keys == s.parts.Keys && forall t :: t in s.parts && t !in s.bus.waiters ==> s'.parts[t] == s.parts[t]
  }

  lemma HeldMore(held: map<nat, Ticket>, held1: map<nat, Ticket>, held2: map<nat, Ticket>, parts1: map<Ticket, Part>,
                 parts2: map<Ticket, Part>, n: Send, rest: seq<Send>)
    requires GrantsAreHeld(held, held1, parts1, [n]) && GrantsAreHeld(held1, held2, parts2, rest)
    requires n.reply.Granted? && n.reply.slot in held2 && held2[n.reply.slot] == n.ticket
    requires n.ticket in parts1 && n.ticket in parts2 && parts2[n.ticket] == parts1[n.ticket]
    ensures GrantsAreHeld(held, held2, parts2, [n] + rest)
  {
    var news := [n] + rest;
    assert [n][0] == n && news[0] == n && news[1..] == rest;
    forall x | x in held2 && !(x in held && held[x] == held2[x])
      ensures exists i :: 0 <= i < |news| && news[i] == Send(held2[x], Granted(x))
    {
      if x in held1 && held1[x] == held2[x] {
        assert news[0] == Send(held2[x], Granted(x));
      } else {
        var i :| 0 <= i < |rest| && rest[i] == Send(held2[x], Granted(x));
        assert news[i + 1] == rest[i];
      }
    }
  }

  lemma QueueMore(w: seq<Ticket>, w1: seq<Ticket>, w2: seq<Ticket>, n: Send, rest: seq<Send>)
    requires w + [] == Tickets([n]) + w1 && w1 + [] == Tickets(rest) + w2
    ensures w + [] == Tickets([n] + rest) + w2
  {
    assert Tickets([n] + rest) == Tickets([n]) + Tickets(rest);
    assert w1 + [] == w1;
  }

  lemma TellsMore(s: System, s1: System, s2: System, n: Send, rest: seq<Send>)
    requires Tells(s, s1, [], [n]) && Tells(s1, s2, [], rest)
    requires n.reply.Granted? && n.reply.slot in s2.held && s2.held[n.reply.slot] == n.ticket
    requires n.ticket in s1.parts && n.ticket in s2.parts && s2.parts[n.ticket] == s1.parts[n.ticket]
    ensures Tells(s, s2, [], [n] + rest)
  {
    QueueMore(s.bus.waiters, s1.bus.waiters, s2.bus.waiters, n, rest);
    HeldMore(s.held, s1.held, s2.held, s1.parts, s2.parts, n, rest);
  }

  lemma LastIsApart(slots: seq<nat>, k: nat)
    requires Distinct(slots) && |slots| == k + 1
    ensures Distinct(slots[..k]) && slots[k] !in slots[..k] && forall x :: x in slots[..k] ==> x in slots
  {}

  /** Slots of nobody are handed out: those who get them are told so, one after the other. */
  lemma {:induction false} GrantsTold(s: System, slots: seq<nat>, news: seq<Send>)
    requires Distinct(slots) && Distinct(s.bus.waiters) && (forall t :: t in s.bus.waiters ==> t in s.parts)
    requires (forall x :: x in slots ==> x !in s.held) && Granting(s.bus.waiters, slots, news)
    ensures Tells(s, GrantAll(s, slots), [], news) && OthersStay(s, GrantAll(s, slots), slots)
    decreases |slots|
  {
    if slots == [] || s.bus.waiters == [] {
      NothingSaid(s, s, []);
    } else {
      var k := |slots| - 1;
      GrantingRest(s.bus.waiters, slots, news, k);
      FirstGranted(s, slots, k);
      GrantsTold(GrantOne(s, slots[k]), slots[..k], news[1..]);
      FirstAndRest(s, slots, k, GrantAll(GrantOne(s, slots[k]), slots[..k]), news);
    }
  }

  lemma FirstGranted(s: System, slots: seq<nat>, k: nat)
    requires Distinct(slots) && |slots| == k + 1 && s.bus.waiters != [] && Distinct(s.bus.waiters)
    requires (forall t :: t in s.bus.waiters ==> t in s.parts) && (forall x :: x in slots ==> x !in s.held)
    ensures var s1 := GrantOne(s, slots[k]);
      && Distinct(slots[..k]) && Distinct(s1.bus.waiters) && (forall t :: t in s1.bus.waiters ==> t in s1.parts)
      && (forall x :: x in slots[..k] ==> x !in s1.held) && OthersStay(s, s1, slots)
      && s.bus.waiters[0] !in s1.bus.waiters && (forall t :: t in s1.bus.waiters ==> t in s.bus.waiters)
  {
    HeadIsMember(s.bus.waiters);
    LastIsApart(slots, k);
    assert slots[k] in slots && s.bus.waiters == [s.bus.waiters[0]] + GrantOne(s, slots[k]).bus.waiters;
  }

  lemma FirstAndRest(s: System, slots: seq<nat>, k: nat, s2: System, news: seq<Send>)
    requires Distinct(slots) && |slots| == k + 1 && s.bus.waiters != [] && s.bus.waiters[0] in s.parts && news != []
    requires news[0] == Send(s.bus.waiters[0], Granted(slots[k]))
    requires var s1 := GrantOne(s, slots[k]);
      && OthersStay(s, s1, slots) && Tells(s1, s2, [], news[1..]) && OthersStay(s1, s2, slots[..k])
      && s.bus.waiters[0] !in s1.bus.waiters && (forall t :: t in s1.bus.waiters ==> t in s.bus.waiters)
    ensures Tells(s, s2, [], news) && OthersStay(s, s2, slots)
  {
    LastIsApart(slots, k);
    OneSaid(s, slots[k], news[0]);
    TellsMore(s, GrantOne(s, slots[k]), s2, news[0], news[1..]);
    assert news == [news[0]] + news[1..];
  }

  lemma LessHeld(s: System, s0: System, s': System, news: seq<Send>)
    requires Tells(s0, s', [], news) && s0.bus.waiters == s.bus.waiters
    requires forall x :: x in s0.held ==> x in s.held && s.held[x] == s0.held[x]
    ensures Tells(s, s', [], news)
  {}

  lemma FreeTells(s: System, t: Ticket, news: seq<Send>)
    requires Inv(s) && Emptied(s, t) && Granting(s.bus.waiters, [s.parts[t].state.slot], news)
    ensures Tells(s, FreeOne(s, t), [], news)
  {
    var slot, s0 := s.parts[t].state.slot, LetGo(s, t);
    if s.bus.waiters == [] {
      NothingSaid(s, s0, []);
    } else {
      HeadIsMember(s.bus.waiters);
      assert news == [Send(s.bus.waiters[0], Granted(slot))];
      OneSaid(s0, slot, news[0]);
      LessHeld(s, s0, FreeOne(s, t), news);
    }
  }

  lemma AnswerTells(s: System, plan: seq<Transfer>, room: bool, news: seq<Send>)
    requires Inv(s) && s.phase.Answered?
    requires Granting(s.bus.waiters, FreeSlots(s.phase.listing, s.bus.allocations), news)
    ensures Tells(s, TakeAnswer(s, plan, room), [], news)
  {
    var free := FreeSlots(s.phase.listing, s.bus.allocations);
    assert forall x :: x in free ==> x !in s.held;
    GrantsTold(s, free, news);
    AnswerIsGrant(s, plan, room);
    SameTells(s, GrantAll(s, free), TakeAnswer(s, plan, room), news);
  }

  lemma AnswerIsGrant(s: System, plan: seq<Transfer>, room: bool)
    requires s.phase.Answered?
    ensures var s1, s' := GrantAll(s, FreeSlots(s.phase.listing, s.bus.allocations)), TakeAnswer(s, plan, room);
      s'.held == s1.held && s'.parts == s1.parts && s'.bus.waiters == s1.bus.waiters
  {
    SucceedingTellsNobody(GrantAll(s, FreeSlots(s.phase.listing, s.bus.allocations)));
  }

  lemma SucceedingTellsNobody(s: System)
    ensures var s' := Succeed(s, false); s'.held == s.held && s'.parts == s.parts && s'.bus.waiters == s.bus.waiters
  {}

  lemma SameTells(s: System, s1: System, s2: System, news: seq<Send>)
    requires Tells(s, s1, [], news) && s2.held == s1.held && s2.parts == s1.parts && s2.bus.waiters == s1.bus.waiters
    ensures Tells(s, s2, [], news)
  {}

  lemma FailTells(s: System, news: seq<Send>)
    requires Inv(s) && Refusing(s.bus.waiters, news)
    ensures Tells(s, Fail(s), [], news)
  {
    assert Tickets(news) == s.bus.waiters;
    forall i | 0 <= i < |news| ensures news[i].ticket in s.parts && Fail(s).parts[news[i].ticket].state.Denied? {
      assert s.bus.waiters[i] in s.bus.waiters;
    }
  }

  lemma QuietTells(s: System, e: Event)
    requires Inv(s) && Enabled(s, e) && !e.GiveBack? && !e.Process? && !e.UpdateFails? && !e.Ask?
    requires e.Finish? ==> !s.phase.failed
    ensures Tells(s, Step(s, e), [], [])
  {
    if e.HandOver? {
      HandedOverSlots(s, e.ts);
    }
    NothingSaid(s, Step(s, e), []);
  }

  lemma HandedOverSlots(s: System, ts: seq<Ticket>)
    requires AllHold(s, ts)
    ensures forall x :: x in PutAway(s, ts).held ==> x in s.held && s.held[x] == PutAway(s, ts).held[x]
    ensures PutAway(s, ts).bus.waiters == s.bus.waiters
  {}

  lemma OtherTells(s: System, e: Event, news: seq<Send>)
    requires Inv(s) && Enabled(s, e) && Sends(s, e, news)
    requires !e.GiveBack? && !e.Process? && !e.UpdateFails? && (e.Finish? ==> !s.phase.failed)
    ensures Tells(s, Step(s, e), Asked(e), news)
  {
    if e.Ask? {
      NothingSaid(s, Step(s, e), [e.t]);
    } else {
      QuietTells(s, e);
    }
  }

  /** What a step says is what it does. */
  lemma StepTells(s: System, e: Event, news: seq<Send>)
    requires Inv(s) && Enabled(s, e) && Sends(s, e, news)
    ensures Tells(s, Step(s, e), Asked(e), news)
  {
    if e.GiveBack? {
      FreeTells(s, e.t, news);
    } else if e.Process? {
      AnswerTells(s, e.plan, e.room, news);
    } else if e.UpdateFails? || (e.Finish? && s.phase.failed) {
      FailTells(s, news);
    } else {
      OtherTells(s, e, news);
    }
  }

  // ----- along a run

  /** What is said in a run, step by step. */
  ghost predicate Says(s: System, es: seq<Event>, all: seq<seq<Send>>)
    requires CanRun(s, es)
    decreases |es|
  {
    && |all| == |es|
    && (es != [] ==> Sends(s, es[0], all[0]) && Says(Step(s, es[0]), es[1..], all[1..]))
  }

  function AllAsked(es: seq<Event>): seq<Ticket> { if es == [] then [] else Asked(es[0]) + AllAsked(es[1..]) }

  function AllTold(all: seq<seq<Send>>): seq<Ticket> { if all == [] then [] else Tickets(all[0]) + AllTold(all[1..]) }

  lemma {:induction false} ToldInTurn(s: System, es: seq<Event>, all: seq<seq<Send>>)
    requires Inv(s) && CanRun(s, es) && Says(s, es, all)
    ensures s.bus.waiters + AllAsked(es) == AllTold(all) + Run(s, es).bus.waiters
    decreases |es|
  {
    if es == [] {
      assert all == [];
    } else {
      var s1 := Step(s, es[0]);
      StepInv(s, es[0]);
      StepTells(s, es[0], all[0]);
      ToldInTurn(s1, es[1..], all[1..]);
      Regroup(s.bus.waiters, Asked(es[0]), AllAsked(es[1..]), Tickets(all[0]), s1.bus.waiters, AllTold(all[1..]),
              Run(s, es).bus.waiters);
    }
  }

  lemma Regroup(w: seq<Ticket>, a: seq<Ticket>, b: seq<Ticket>, t: seq<Ticket>, w1: seq<Ticket>, u: seq<Ticket>, w2: seq<Ticket>)
    requires w + a == t + w1 && w1 + b == u + w2
    ensures w + (a + b) == (t + u) + w2
  {
    assert w + (a + b) == (w + a) + b == t + (w1 + b);
    assert (t + u) + w2 == t + (u + w2);
  }

  lemma {:induction false} AskedOnce(s: System, es: seq<Event>)
    requires CanRun(s, es)
    ensures Distinct(AllAsked(es)) && (forall t :: t in AllAsked(es) ==> t !in s.parts)
    decreases |es|
  {
    if es != [] {
      var s1 := Step(s, es[0]);
      AskedOnce(s1, es[1..]);
      KnownStays(s, es[0]);
      if es[0].Ask? {
        assert es[0].t in s1.parts;
      }
    }
  }

  lemma KnownStays(s: System, e: Event)
    requires Enabled(s, e)
    ensures s.parts.Keys <= Step(s, e).parts.Keys
  {
    if e.Process? {
      GrantAllFresh(s, FreeSlots(s.phase.listing, s.bus.allocations));
    }
  }

  /** In every run each ticket is told at most once, in the order in which they were asked for; those not told wait, in that
      order; and every message of a step says who has the slot after it, or that there is none. */
  lemma EachIsToldInTurn(phys: seq<nat>, es: seq<Event>, all: seq<seq<Send>>, e: Event, news: seq<Send>)
    requires CanRun(Start(phys), es) && Says(Start(phys), es, all)
    requires Enabled(Run(Start(phys), es), e) && Sends(Run(Start(phys), es), e, news)
    ensures AllAsked(es) == AllTold(all) + Run(Start(phys), es).bus.waiters && Distinct(AllAsked(es))
    ensures var s := Run(Start(phys), es); Tells(s, Step(s, e), Asked(e), news)
  {
    StartInv(phys);
    RunInv(Start(phys), es);
    ToldInTurn(Start(phys), es, all);
    AskedOnce(Start(phys), es);
    StepTells(Run(Start(phys), es), e, news);
    assert [] + AllAsked(es) == AllAsked(es);
  }

  // ----- the methods of the allocator do to its fields what the steps do

  lemma FreeingIsFree(s: System, t: Ticket)
    requires Inv(s) && Holds(s, t)
    ensures FreeOne(s, t).bus == Free(s.bus, s.parts[t].state.slot)
  {
    assert Owns(s.held, t, s.parts[t]);
    assert s.bus.allocations - {s.parts[t].state.slot} + {s.parts[t].state.slot} == s.bus.allocations;
  }
}
