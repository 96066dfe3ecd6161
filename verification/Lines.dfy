/** Tickets in line. A job asks for all that it needs at once, so its tickets are neighbours in the queue of an allocator;
    the queue is served from the front, so whoever waits are the last ones in line. */
module Lines {
  import opened Common
  import opened Bus
  import opened BusJobs

  function TicketsOf(tickets: map<nat, seq<Ticket>>, j: nat): seq<Ticket> { if j in tickets then tickets[j] else [] }

  /** The tickets of all jobs, in the order in which the jobs have begun. */
  function Lined(log: seq<nat>, tickets: map<nat, seq<Ticket>>): seq<Ticket>
    decreases |log|
  {
    if log == [] then [] else Lined(log[..|log| - 1], tickets) + TicketsOf(tickets, log[|log| - 1])
  }

  /** No ticket belongs to two jobs. */
  ghost predicate Apart(tickets: map<nat, seq<Ticket>>) {
    forall j, k, t :: j in tickets && k in tickets && t in tickets[j] && t in tickets[k] ==> j == k
  }

  lemma {:induction false} LinedSame(log: seq<nat>, a: map<nat, seq<Ticket>>, b: map<nat, seq<Ticket>>)
    requires forall i :: 0 <= i < |log| ==> TicketsOf(a, log[i]) == TicketsOf(b, log[i])
    ensures Lined(log, a) == Lined(log, b)
    decreases |log|
  {
    if log != [] {
      LinedSame(log[..|log| - 1], a, b);
    }
  }

  lemma LinedGrows(log: seq<nat>, tickets: map<nat, seq<Ticket>>, j: nat, ts: seq<Ticket>)
    requires j !in log
    ensures Lined(log + [j], tickets[j := ts]) == Lined(log, tickets) + ts
  {
    LinedSame(log, tickets, tickets[j := ts]);
    assert (log + [j])[..|log|] == log;
  }

  lemma SuffixAppend(a: seq<Ticket>, b: seq<Ticket>, c: seq<Ticket>)
    requires Suffix(a, b)
    ensures Suffix(a + c, b + c)
  {
    assert b == b[..|b| - |a|] + a;
    assert b + c == b[..|b| - |a|] + (a + c);
  }

  /** A new job goes to the end of the line with all its tickets. */
  lemma NewInLine(log: seq<nat>, tickets: map<nat, seq<Ticket>>, waiters: seq<Ticket>, j: nat, ts: seq<Ticket>)
    requires j !in log && Suffix(waiters, Lined(log, tickets))
    ensures Suffix(waiters + ts, Lined(log + [j], tickets[j := ts]))
  {
    LinedGrows(log, tickets, j, ts);
    SuffixAppend(waiters, Lined(log, tickets), ts);
  }

  /** Waiters no more than the last job's tickets are tickets of the last job. */
  lemma LastWaits(line: seq<Ticket>, last: seq<Ticket>, waiters: seq<Ticket>, t: Ticket)
    requires Suffix(waiters, line + last) && |waiters| <= |last| && t in waiters
    ensures t in last
  {
    var i :| 0 <= i < |waiters| && waiters[i] == t;
    assert t == (line + last)[|line| + |last| - |waiters| + i] == last[|last| - |waiters| + i];
  }

  lemma MoreWait(line: seq<Ticket>, last: seq<Ticket>, waiters: seq<Ticket>) returns (before: seq<Ticket>)
    requires Suffix(waiters, line + last) && |waiters| >= |last|
    ensures Suffix(before, line) && waiters == before + last
  {
    var n := |waiters| - |last|;
    before := waiters[..n];
    assert before == line[|line| - n..];
    assert waiters[n..] == last;
  }

  /** Whoever has begun after a job that waits has got nothing yet. */
  lemma {:induction false} LaterWaits(log: seq<nat>, tickets: map<nat, seq<Ticket>>, waiters: seq<Ticket>, i: nat, k: nat,
                                      t: Ticket, u: Ticket)
    requires Distinct(log) && Apart(tickets) && Suffix(waiters, Lined(log, tickets)) && i < k < |log|
    requires t in TicketsOf(tickets, log[i]) && t in waiters && u in TicketsOf(tickets, log[k])
    ensures u in waiters
    decreases |log|
  {
    var n := |log| - 1;
    var line, last := Lined(log[..n], tickets), TicketsOf(tickets, log[n]);
    if |waiters| <= |last| {
      LastWaits(line, last, waiters, t);
      assert false;
    } else {
      var before := MoreWait(line, last, waiters);
      if k < n {
        LaterWaits(log[..n], tickets, before, i, k, t, u);
      }
    }
  }

  /** Of two jobs that both have got something and still wait, none has begun after the other: they are one job. */
  lemma OneBetween(log: seq<nat>, tickets: map<nat, seq<Ticket>>, waiters: seq<Ticket>, i: nat, k: nat,
                   t: Ticket, got: Ticket, t': Ticket, got': Ticket)
    requires Distinct(log) && Apart(tickets) && Suffix(waiters, Lined(log, tickets)) && i < |log| && k < |log|
    requires t in TicketsOf(tickets, log[i]) && t in waiters && got in TicketsOf(tickets, log[i]) && got !in waiters
    requires t' in TicketsOf(tickets, log[k]) && t' in waiters && got' in TicketsOf(tickets, log[k]) && got' !in waiters
    ensures i == k
  {
    if i < k {
      LaterWaits(log, tickets, waiters, i, k, t, got');
    } else if k < i {
      LaterWaits(log, tickets, waiters, k, i, t', got);
    }
  }
}
