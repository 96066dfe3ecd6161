/** The server's side of one connection and the table of logged-in clients
    (server/RustImpl/src/server.rs). */
module Server {
  import opened Common
  import opened LuaValue

  /** A request and the table it is sent as. */
  datatype Request = Request(id: nat, doc: Doc)

  function Flatten<T>(groups: seq<seq<T>>): seq<T> {
    if groups == [] then [] else groups[0] + Flatten(groups[1..])
  }

  lemma {:induction false} FlattenAppend<T>(a: seq<seq<T>>, b: seq<seq<T>>)
    ensures Flatten(a + b) == Flatten(a) + Flatten(b)
    decreases |a|
  {
    if a == [] {
      assert a + b == b;
    } else {
      assert (a + b)[1..] == a[1..] + b;
      FlattenAppend(a[1..], b);
    }
  }

  lemma FlattenSnoc<T>(a: seq<seq<T>>, x: seq<T>)
    ensures Flatten(a + [x]) == Flatten(a) + x
  {
    FlattenAppend(a, [x]);
    assert Flatten([x]) == x + Flatten<T>([]);
  }

  // ----- a group of requests is one table with keys 1, 2, ..

  function VecEntries(nt: NumText, docs: seq<Doc>, first: nat): seq<Entry>
    decreases |docs|
  {
    if docs == [] then [] else [Entry(KF(nt.index(first)), docs[0])] + VecEntries(nt, docs[1..], first + 1)
  }

  function VecToTable(nt: NumText, docs: seq<Doc>): Doc { DT(VecEntries(nt, docs, 1)) }

  /** Lua's ipairs: the members 1, 2, .. up to the first one missing. */
  function Ipairs(nt: NumText, table: map<Key, Value>, first: nat, fuel: nat): seq<Value>
    decreases fuel
  {
    var k := KF(nt.index(first));
    if fuel == 0 || k !in table || table[k].N? then [] else [table[k]] + Ipairs(nt, table, first + 1, fuel - 1)
  }

  function Members(nt: NumText, group: Value): seq<Value> {
    if group.T? then Ipairs(nt, group.table, 1, |group.table|) else []
  }

  /** No index from n on is a key. */
  ghost predicate NoneFrom(nt: NumText, r: map<Key, Value>, n: nat) {
    forall i :: n <= i <= MAX_INDEX ==> KF(nt.index(i)) !in r
  }

  /** The table r holds the values of docs at the indices from first on, and whatever table held. */
  ghost predicate Holds(nt: NumText, r: map<Key, Value>, docs: seq<Doc>, first: nat) {
    && (forall n :: first <= n < first + |docs| ==>
          KF(nt.index(n)) in r && r[KF(nt.index(n))] == Meaning(docs[n - first]))
    && NoneFrom(nt, r, first + |docs|)
  }

  lemma StillNone(nt: NumText, table: map<Key, Value>, value: Value, first: nat, next: nat)
    requires nt.Faithful() && next == first + 1 <= MAX_INDEX && NoneFrom(nt, table, first)
    ensures KF(nt.index(first)) !in table && NoneFrom(nt, table[KF(nt.index(first)) := value], next)
  {}

  lemma HoldsOneMore(nt: NumText, r: map<Key, Value>, docs: seq<Doc>, first: nat, next: nat)
    requires docs != [] && next == first + 1 && Holds(nt, r, docs[1..], next)
    requires KF(nt.index(first)) in r && r[KF(nt.index(first))] == Meaning(docs[0])
    ensures Holds(nt, r, docs, first)
  {
    forall n | first <= n < first + |docs| ensures KF(nt.index(n)) in r && r[KF(nt.index(n))] == Meaning(docs[n - first]) {
      if n > first {
        assert docs[n - first] == docs[1..][n - next];
      }
    }
  }

  lemma {:induction false} FillVec(nt: NumText, table: map<Key, Value>, docs: seq<Doc>, first: nat)
    requires nt.Faithful() && first + |docs| <= MAX_INDEX && NoneFrom(nt, table, first)
    ensures var r := Fill(table, VecEntries(nt, docs, first));
      && |r| == |table| + |docs|
      && (forall k :: k in table ==> k in r && r[k] == table[k])
      && Holds(nt, r, docs, first)
    decreases |docs|
  {
    if docs != [] {
      var k, next := KF(nt.index(first)), first + 1;
      var table1 := table[k := Meaning(docs[0])];
      StillNone(nt, table, Meaning(docs[0]), first, next);
      assert table1.Keys == table.Keys + {k};
      FillVec(nt, table1, docs[1..], next);
      assert VecEntries(nt, docs, first)[1..] == VecEntries(nt, docs[1..], next);
      var r := Fill(table1, VecEntries(nt, docs[1..], next));
      assert Fill(table, VecEntries(nt, docs, first)) == r;
      assert k in table1 && table1[k] == Meaning(docs[0]);
      HoldsOneMore(nt, r, docs, first, next);
    }
  }

  lemma {:induction false} IpairsReads(nt: NumText, r: map<Key, Value>, docs: seq<Doc>, first: nat, fuel: nat)
    requires Holds(nt, r, docs, first) && first + |docs| <= MAX_INDEX
    requires fuel >= |docs| && forall i :: 0 <= i < |docs| ==> !docs[i].DN?
    ensures Ipairs(nt, r, first, fuel) == Meanings(docs)
    decreases |docs|
  {
    if docs != [] {
      assert KF(nt.index(first)) in r;
      IpairsReads(nt, r, docs[1..], first + 1, fuel - 1);
    } else {
      assert KF(nt.index(first)) !in r;
    }
  }

  lemma GroupTable(nt: NumText, docs: seq<Doc>, r: map<Key, Value>)
    requires nt.Faithful() && |docs| < MAX_INDEX && r == Fill(map[], VecEntries(nt, docs, 1))
    ensures |r| == |docs| && Holds(nt, r, docs, 1)
  {
    FillVec(nt, map[], docs, 1);
  }

  /** The table of a group has its members under 1, 2, .. and nothing else, so that Lua's ipairs, which counts from 1, finds
      them. */
  lemma GroupIsNumbered(nt: NumText, docs: seq<Doc>, r: map<Key, Value>)
    requires nt.Faithful() && |docs| < MAX_INDEX && Meaning(VecToTable(nt, docs)) == T(r)
    ensures |r| == |docs|
    ensures forall n :: 1 <= n <= |docs| ==> KF(nt.index(n)) in r && r[KF(nt.index(n))] == Meaning(docs[n - 1])
  {
    GroupTable(nt, docs, r);
  }

  /** The client takes a group apart into exactly the requests that the server put together. A group has fewer members than
      a double can count. */
  lemma GroupRoundTrip(nt: NumText, docs: seq<Doc>)
    requires nt.Faithful() && |docs| < MAX_INDEX && forall i :: 0 <= i < |docs| ==> !docs[i].DN?
    ensures Members(nt, Meaning(VecToTable(nt, docs))) == Meanings(docs)
  {
    var r := Fill(map[], VecEntries(nt, docs, 1));
    assert Meaning(VecToTable(nt, docs)) == T(r);
    GroupTable(nt, docs, r);
    IpairsReads(nt, r, docs, 1, |r|);
  }

  // ----- one connection

  type Name = seq<byte>

  /** `writing` says whether a writer task is running for the connection, `login` the name under which it has logged in. */
  datatype Conn = Conn(
    requestQueue: seq<seq<Request>>,
    requestQueueSize: nat,
    responseQueue: seq<Request>,
    writing: bool,
    login: Option<Name>)

  const NEW_CONN := Conn([], 0, [], false, None)

  /** The counter matches the queue, and an idle writer has nothing to send. */
  predicate Consistent(c: Conn) {
    c.requestQueueSize == |Flatten(c.requestQueue)| && (!c.writing ==> c.requestQueue == [])
  }

  function Enqueue(c: Conn, group: seq<Request>): Conn {
    c.(requestQueue := c.requestQueue + [group], requestQueueSize := c.requestQueueSize + |group|, writing := true)
  }

  /** The writer takes the oldest group, or stops when there is none. */
  function WriterTurn(c: Conn): Conn
    requires Consistent(c)
  {
    if c.requestQueue == [] then c.(writing := false)
    else c.(requestQueue := c.requestQueue[1..],
            requestQueueSize := c.requestQueueSize - |c.requestQueue[0]|,
            responseQueue := c.responseQueue + c.requestQueue[0])
  }

  function Docs(group: seq<Request>): (docs: seq<Doc>)
    ensures |docs| == |group| && forall i :: 0 <= i < |group| ==> docs[i] == group[i].doc
  {
    seq(|group|, i requires 0 <= i < |group| => group[i].doc)
  }

  datatype Reaction = LoggedIn(name: Name) | Answered(request: Request) | Unexpected | BadLogin

  /** What a complete value from the client means. */
  function React(c: Conn, value: Value): Reaction {
    if c.login.Some? then (if c.responseQueue != [] then Answered(c.responseQueue[0]) else Unexpected)
    else if value.S? then LoggedIn(value.text) else BadLogin
  }

  function AfterPacket(c: Conn, value: Value): Conn {
    match React(c, value)
    case LoggedIn(name) => c.(login := Some(name))
    case Answered(_) => c.(responseQueue := c.responseQueue[1..])
    case _ => c
  }

  /** Dropping a connection fails everything that was queued or under way. */
  function Dropped(c: Conn): seq<Request> { Flatten(c.requestQueue) + c.responseQueue }

  class Client {
    var requestQueue: seq<seq<Request>>
    var requestQueueSize: nat
    var responseQueue: seq<Request>
    var writing: bool
    var login: Option<Name>

    ghost function Abs(): Conn
      reads this
    {
      Conn(requestQueue, requestQueueSize, responseQueue, writing, login)
    }

    constructor ()
      ensures Abs() == NEW_CONN && Consistent(Abs())
    {
      requestQueue, requestQueueSize, responseQueue, writing, login := [], 0, [], false, None;
    }

    method EnqueueRequestGroup(group: seq<Request>) returns (startWriter: bool)
      requires Consistent(Abs())
      modifies this
      ensures Abs() == Enqueue(old(Abs()), group) && Consistent(Abs())
      ensures startWriter == !old(writing)
    {
      FlattenSnoc(requestQueue, group);
      requestQueueSize := requestQueueSize + |group|;
      requestQueue := requestQueue + [group];
      startWriter := !writing;
      writing := true;
    }

    /** One turn of writer_main up to its await: the bytes of the next group, or None when it stops. */
    method NextGroup(nt: NumText) returns (data: Option<seq<byte>>)
      requires Consistent(Abs())
      modifies this
      ensures Abs() == WriterTurn(old(Abs())) && Consistent(Abs())
      ensures data == if old(requestQueue) == [] then None
                      else Some(Encode(nt, VecToTable(nt, Docs(old(requestQueue[0])))))
    {
      if requestQueue == [] {
        writing := false;
        return None;
      }
      var group := requestQueue[0];
      requestQueue := requestQueue[1..];
      requestQueueSize := requestQueueSize - |group|;
      var value: seq<Doc> := [];
      for i := 0 to |group|
        invariant value == Docs(group)[..i]
        invariant responseQueue == old(responseQueue) + group[..i]
        invariant requestQueue == old(requestQueue)[1..] && writing == old(writing) && login == old(login)
        invariant requestQueueSize == old(requestQueueSize) - |group|
      {
        value := value + [group[i].doc];
        responseQueue := responseQueue + [group[i]];
      }
      assert group[..|group|] == group && value == Docs(group);
      var bytes := Serialize(nt, VecToTable(nt, value), []);
      assert [] + Encode(nt, VecToTable(nt, value)) == Encode(nt, VecToTable(nt, value));
      data := Some(bytes);
    }

    method OnPacket(value: Value) returns (r: Reaction)
      modifies this
      ensures r == React(old(Abs()), value) && Abs() == AfterPacket(old(Abs()), value)
      ensures r.LoggedIn? ==> login == Some(r.name)
      ensures old(login).Some? && old(responseQueue) == [] ==> r == Unexpected
      ensures old(login).Some? && old(responseQueue) != [] ==>
        r == Answered(old(responseQueue)[0]) && responseQueue == old(responseQueue)[1..]
      ensures old(login).None? && value.S? ==> r == LoggedIn(value.text)
      ensures old(login).None? && !value.S? ==> r == BadLogin
    {
      if login.Some? {
        if responseQueue != [] {
          r := Answered(responseQueue[0]);
          responseQueue := responseQueue[1..];
        } else {
          r := Unexpected;
        }
      } else if value.S? {
        login := Some(value.text);
        r := LoggedIn(value.text);
      } else {
        r := BadLogin;
      }
    }

    method Drop() returns (failed: seq<Request>)
      ensures failed == Dropped(Abs())
    {
      failed := [];
      for i := 0 to |requestQueue|
        invariant failed == Flatten(requestQueue[..i])
      {
        assert requestQueue[..i + 1] == requestQueue[..i] + [requestQueue[i]];
        FlattenSnoc(requestQueue[..i], requestQueue[i]);
        failed := failed + requestQueue[i];
      }
      assert requestQueue[..|requestQueue|] == requestQueue;
      failed := failed + responseQueue;
    }

    /** What load_balance compares: the number of requests that are queued or under way. */
    method EstimateLoad() returns (load: nat)
      requires Consistent(Abs())
      ensures load == |Dropped(Abs())|
    {
      load := requestQueueSize + |responseQueue|;
    }
  }

  // ----- who is logged in

  /** The live connections with their names, and the name table. */
  class Connections {
    var clients: map<nat, Option<Name>>
    var logins: map<Name, nat>

    /** The name table lists exactly the logged-in live connections: what it points to is still there. */
    ghost predicate Valid()
      reads this
    {
      && (forall n :: n in logins ==> logins[n] in clients && clients[logins[n]] == Some(n))
      && (forall c :: c in clients && clients[c].Some? ==> clients[c].value in logins && logins[clients[c].value] == c)
    }

    constructor ()
      ensures Valid() && clients == map[] && logins == map[]
    {
      clients, logins := map[], map[];
    }

    method Accept(c: nat)
      requires Valid() && c !in clients
      modifies this
      ensures Valid() && clients == old(clients)[c := None] && logins == old(logins)
    {
      clients := clients[c := None];
    }

    method DisconnectByServer(c: nat)
      requires Valid() && c in clients
      modifies this
      ensures Valid() && clients == old(clients) - {c}
      ensures logins == if old(clients[c]).Some? then old(logins) - {old(clients[c]).value} else old(logins)
    {
      if clients[c].Some? {
        logins := logins - {clients[c].value};
      }
      clients := clients - {c};
    }

    /** A second login under a name evicts the first connection and keeps the new one registered. */
    method Login(name: Name, c: nat)
      requires Valid() && c in clients && clients[c] == None
      modifies this
      ensures Valid()
      ensures logins == old(logins)[name := c] && c in clients && clients[c] == Some(name)
      ensures clients.Keys == old(clients).Keys - (if name in old(logins) then {old(logins)[name]} else {})
      ensures forall d :: d in clients && d != c ==> clients[d] == old(clients)[d]
    {
      clients := clients[c := Some(name)];
      var evicted := name in logins;
      var first := if evicted then logins[name] else 0;
      logins := logins[name := c];
      if evicted {
        clients := clients[first := None];
        DisconnectByServer(first);
      }
    }
  }

  /** What a packet does on the server: the first one, if it is a string, is the name under which the connection is listed
      from then on; any further one leaves the names alone. */
  method HandlePacket(client: Client, connections: Connections, c: nat, value: Value) returns (r: Reaction)
    requires connections.Valid() && c in connections.clients && connections.clients[c] == client.login
    modifies client, connections
    ensures connections.Valid() && c in connections.clients && connections.clients[c] == client.login
    ensures old(client.login).Some? ==> client.login == old(client.login) && connections.logins == old(connections.logins)
    ensures old(client.login).None? && value.S? ==>
      client.login == Some(value.text) && value.text in connections.logins && connections.logins[value.text] == c
    ensures old(client.login).None? && !value.S? ==> client.login == None && r == BadLogin
    ensures forall n :: n in connections.logins && connections.logins[n] != c ==>
      n in old(connections.logins) && connections.logins[n] == old(connections.logins)[n]
  {
    r := client.OnPacket(value);
    if r.LoggedIn? {
      connections.Login(r.name, c);
    }
  }
}
