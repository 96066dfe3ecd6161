/** A server connection and the client at its other end, joined by two byte streams that may be cut into
    any pieces: the server's writer and parser (server/RustImpl/src/server.rs), the client's decoder and
    its loop over the requests of a group (client/client.lua). */
module Link {
  import opened Common
  import opened LuaValue
  import opened Server
  import LuaClient

  /** A request as the client saw it and the reply it wrote, with the order of its tables. */
  datatype Exchange = Exchange(request: Value, reply: Doc)

  datatype Answer = Answer(request: Request, value: Value)

  /** `down` and `up` are the bytes under way; the fields after `alive` are the history of the link. */
  datatype Link = Link(
    conn: Conn,
    down: seq<byte>, decoder: Outcome,
    up: seq<byte>, parser: Outcome,
    alive: bool,
    enqueued: seq<Request>, sent: seq<seq<Request>>, ran: seq<Exchange>,
    answered: seq<Answer>, failed: seq<Request>,
    downRead: seq<byte>, upRead: seq<byte>)

  datatype Event =
    | Submit(group: seq<Request>)
    | Write
    | ClientReads(n: nat, replies: seq<Doc>)
    | ServerReads(n: nat, m: nat, stop: bool)
    | Drop

  datatype World = World(nt: NumText, name: seq<byte>)

  /** build_request always makes a table, never nil. */
  predicate Sendable(requests: seq<Request>) {
    forall r :: r in requests ==> !r.doc.DN?
  }

  /** The keys of each group's table can be told apart. */
  predicate Short(groups: seq<seq<Request>>) {
    forall g :: g in groups ==> |g| < MAX_INDEX
  }

  function Start(w: World): Link {
    Link(NEW_CONN, [], START, Encode(w.nt, DS(w.name)), START, true, [], [], [], [], [], [], [])
  }

  function Env0(w: World): Env { Env(w.nt, TakeAll) }

  function Requests(nt: NumText, groups: seq<Value>): seq<Value> {
    if groups == [] then [] else Members(nt, groups[0]) + Requests(nt, groups[1..])
  }

  function Zip(requests: seq<Value>, replies: seq<Doc>): (r: seq<Exchange>)
    requires |requests| == |replies|
    ensures |r| == |replies|
  {
    seq(|replies|, i requires 0 <= i < |replies| => Exchange(requests[i], replies[i]))
  }

  /** The values that reading the next n bytes completes. */
  function News(w: World, o: Outcome, bytes: seq<byte>): seq<Value>
    requires Valid(o)
  {
    var out := Feed(Env0(w), o, bytes).out;
    if |o.out| <= |out| then out[|o.out|..] else []
  }

  datatype Absorbed = Absorbed(conn: Conn, answered: seq<Answer>, ok: bool)

  /** The server's handler, called for each completed value until one is not expected. */
  function Absorb(conn: Conn, answered: seq<Answer>, values: seq<Value>): Absorbed
    decreases |values|
  {
    if values == [] then Absorbed(conn, answered, true)
    else
      match React(conn, values[0])
      case LoggedIn(_) => Absorb(AfterPacket(conn, values[0]), answered, values[1..])
      case Answered(r) => Absorb(AfterPacket(conn, values[0]), answered + [Answer(r, values[0])], values[1..])
      case _ => Absorbed(conn, answered, false)
  }

  /** The link after the server has read a piece and handled some of the values it completed. */
  function Received(w: World, s: Link, n: nat, conn: Conn, answered: seq<Answer>): Link
    requires n <= |s.up| && Valid(s.parser)
  {
    s.(up := s.up[n..], upRead := s.upRead + s.up[..n], parser := Feed(Env0(w), s.parser, s.up[..n]),
       conn := conn, answered := answered)
  }

  ghost predicate Enabled(w: World, s: Link, e: Event) {
    match e
    case Submit(group) =>
      s.alive && s.conn.login.Some? && Sendable(group) && |group| < MAX_INDEX
    case Write => s.alive && s.conn.writing && Consistent(s.conn)
    case ClientReads(n, replies) =>
      && n <= |s.down| && Valid(s.decoder)
      && |replies| == |Requests(w.nt, News(w, s.decoder, s.down[..n]))|
    case ServerReads(n, m, stop) =>
      && s.alive && n <= |s.up| && Valid(s.parser)
      && m <= |News(w, s.parser, s.up[..n])| && (!stop ==> m == |News(w, s.parser, s.up[..n])|)
    case Drop => s.alive
  }

  function Close(s: Link): Link {
    s.(alive := false, failed := Dropped(s.conn), conn := s.conn.(requestQueue := [], responseQueue := []))
  }

  function Step(w: World, s: Link, e: Event): Link
    requires Enabled(w, s, e)
  {
    match e
    case Submit(group) => s.(conn := Enqueue(s.conn, group), enqueued := s.enqueued + group)
    case Write =>
      if s.conn.requestQueue == [] then s.(conn := WriterTurn(s.conn))
      else
        var group := s.conn.requestQueue[0];
        s.(conn := WriterTurn(s.conn), sent := s.sent + [group],
           down := s.down + Encode(w.nt, VecToTable(w.nt, Docs(group))))
    case ClientReads(n, replies) =>
      var chunk := s.down[..n];
      s.(down := s.down[n..], downRead := s.downRead + chunk, decoder := Feed(Env0(w), s.decoder, chunk),
         ran := s.ran + Zip(Requests(w.nt, News(w, s.decoder, chunk)), replies),
         up := s.up + EncodeAll(w.nt, replies))
    case ServerReads(n, m, stop) =>
      var r := Absorb(s.conn, s.answered, News(w, s.parser, s.up[..n])[..m]);
      var s1 := Received(w, s, n, r.conn, r.answered);
      if stop || !r.ok then Close(s1) else s1
    case Drop => Close(s)
  }

  // ----- the invariant

  function GroupDocs(nt: NumText, groups: seq<seq<Request>>): (docs: seq<Doc>)
    ensures |docs| == |groups|
  {
    if groups == [] then [] else [VecToTable(nt, Docs(groups[0]))] + GroupDocs(nt, groups[1..])
  }

  function Replies(ran: seq<Exchange>): (docs: seq<Doc>)
    ensures |docs| == |ran| && forall i :: 0 <= i < |ran| ==> docs[i] == ran[i].reply
  {
    seq(|ran|, i requires 0 <= i < |ran| => ran[i].reply)
  }

  function Asked(ran: seq<Exchange>): (values: seq<Value>)
    ensures |values| == |ran| && forall i :: 0 <= i < |ran| ==> values[i] == ran[i].request
  {
    seq(|ran|, i requires 0 <= i < |ran| => ran[i].request)
  }

  function AnsweredRequests(answered: seq<Answer>): (requests: seq<Request>)
    ensures |requests| == |answered| && forall i :: 0 <= i < |answered| ==> requests[i] == answered[i].request
  {
    seq(|answered|, i requires 0 <= i < |answered| => answered[i].request)
  }

  /** What the client has taken from the stream is what the server wrote, and it ran just that. */
  ghost predicate DownOk(w: World, s: Link) {
    && s.downRead + s.down == EncodeAll(w.nt, GroupDocs(w.nt, s.sent))
    && s.decoder == Feed(Env0(w), START, s.downRead)
    && Asked(s.ran) == Requests(w.nt, s.decoder.out)
    && Sendable(s.enqueued)
  }

  /** What the server has taken from the stream is the login and the replies, in order. */
  ghost predicate UpOk(w: World, s: Link) {
    && s.upRead + s.up == EncodeAll(w.nt, [DS(w.name)] + Replies(s.ran))
    && s.parser == Feed(Env0(w), START, s.upRead)
    && (s.alive ==> |s.parser.out| == |s.answered| + (if s.conn.login.Some? then 1 else 0))
    && |s.answered| < |s.parser.out| + 1
    && (s.answered != [] ==> |s.answered| + 1 <= |s.parser.out|)
    && forall i :: 0 <= i < |s.answered| ==> s.answered[i].value == s.parser.out[i + 1]
  }

  /** Requests leave in the order in which they came, and none is lost or doubled. */
  ghost predicate OrderOk(s: Link) {
    if s.alive then
      && Consistent(s.conn) && s.failed == []
      && AnsweredRequests(s.answered) + s.conn.responseQueue == Flatten(s.sent)
      && Flatten(s.sent) + Flatten(s.conn.requestQueue) == s.enqueued
    else
      && AnsweredRequests(s.answered) <= Flatten(s.sent) <= s.enqueued
      && multiset(AnsweredRequests(s.answered)) + multiset(s.failed) == multiset(s.enqueued)
  }

  ghost predicate GroupsOk(s: Link) { Short(s.sent) && Short(s.conn.requestQueue) }

  ghost predicate Inv(w: World, s: Link) { DownOk(w, s) && UpOk(w, s) && OrderOk(s) }

  // ----- lemmas about the streams

  lemma {:induction false} EncodeAllAppend(nt: NumText, a: seq<Doc>, b: seq<Doc>)
    ensures EncodeAll(nt, a + b) == EncodeAll(nt, a) + EncodeAll(nt, b)
    decreases |a|
  {
    if a == [] {
      assert a + b == b;
    } else {
      assert (a + b)[1..] == a[1..] + b;
      EncodeAllAppend(nt, a[1..], b);
    }
  }

  lemma {:induction false} GroupDocsAppend(nt: NumText, a: seq<seq<Request>>, b: seq<seq<Request>>)
    ensures GroupDocs(nt, a + b) == GroupDocs(nt, a) + GroupDocs(nt, b)
    decreases |a|
  {
    if a == [] {
      assert a + b == b;
    } else {
      assert (a + b)[1..] == a[1..] + b;
      GroupDocsAppend(nt, a[1..], b);
    }
  }

  lemma {:induction false} RequestsAppend(nt: NumText, a: seq<Value>, b: seq<Value>)
    ensures Requests(nt, a + b) == Requests(nt, a) + Requests(nt, b)
    decreases |a|
  {
    if a == [] {
      assert a + b == b;
    } else {
      assert (a + b)[1..] == a[1..] + b;
      RequestsAppend(nt, a[1..], b);
    }
  }

  function Asking(requests: seq<Request>): (values: seq<Value>)
    ensures |values| == |requests| && forall i :: 0 <= i < |values| ==> values[i] == Meaning(requests[i].doc)
  {
    Meanings(Docs(requests))
  }

  lemma AskingAppend(a: seq<Request>, b: seq<Request>)
    ensures Asking(a + b) == Asking(a) + Asking(b)
  {}

  lemma GroupMembers(nt: NumText, group: seq<Request>)
    requires nt.Faithful() && Sendable(group) && |group| < MAX_INDEX
    ensures Members(nt, Meaning(VecToTable(nt, Docs(group)))) == Asking(group)
  {
    forall i | 0 <= i < |group| ensures !Docs(group)[i].DN? {
      assert group[i] in group;
    }
    GroupRoundTrip(nt, Docs(group));
  }

  /** Taking the groups apart again gives the requests in the order in which they were sent. */
  lemma {:induction false} RequestsOfGroups(nt: NumText, groups: seq<seq<Request>>)
    requires nt.Faithful() && Sendable(Flatten(groups)) && Short(groups)
    ensures Requests(nt, Meanings(GroupDocs(nt, groups))) == Asking(Flatten(groups))
    decreases |groups|
  {
    if groups != [] {
      var g, rest := groups[0], groups[1..];
      assert g in groups;
      RequestsOfGroups(nt, rest);
      GroupMembers(nt, g);
      AskingAppend(g, Flatten(rest));
      assert Meanings(GroupDocs(nt, groups)) == [Meaning(VecToTable(nt, Docs(g)))] + Meanings(GroupDocs(nt, rest));
    }
  }

  lemma NewsFollow(w: World, o: Outcome, bytes: seq<byte>)
    requires Valid(o)
    ensures Feed(Env0(w), o, bytes).out == o.out + News(w, o, bytes)
  {
    FeedExtends(Env0(w), o, bytes);
  }

  // ----- each step keeps the invariant

  lemma SubmitOrder(s: Link, s': Link, group: seq<Request>)
    requires OrderOk(s) && s.alive && s' == s.(conn := Enqueue(s.conn, group), enqueued := s.enqueued + group)
    ensures OrderOk(s')
  {
    FlattenSnoc(s.conn.requestQueue, group);
    assert Flatten(s.sent) + (Flatten(s.conn.requestQueue) + group) == s.enqueued + group;
  }

  lemma SubmitInv(w: World, s: Link, group: seq<Request>)
    requires Inv(w, s) && Enabled(w, s, Submit(group))
    ensures Inv(w, Step(w, s, Submit(group)))
  {
    SubmitOrder(s, Step(w, s, Submit(group)), group);
  }

  lemma DownGrows(nt: NumText, read: seq<byte>, down: seq<byte>, sent: seq<seq<Request>>, group: seq<Request>)
    requires read + down == EncodeAll(nt, GroupDocs(nt, sent))
    ensures read + (down + Encode(nt, VecToTable(nt, Docs(group)))) == EncodeAll(nt, GroupDocs(nt, sent + [group]))
  {
    var d := VecToTable(nt, Docs(group));
    GroupDocsAppend(nt, sent, [group]);
    assert GroupDocs(nt, [group]) == [d];
    EncodeAllAppend(nt, GroupDocs(nt, sent), [d]);
    assert EncodeAll(nt, [d]) == Encode(nt, d) + EncodeAll(nt, []);
    assert read + (down + Encode(nt, d)) == (read + down) + Encode(nt, d);
  }

  lemma OrderOnWrite(answered: seq<Request>, response: seq<Request>, sent: seq<seq<Request>>, group: seq<Request>,
                     rest: seq<seq<Request>>, enqueued: seq<Request>)
    requires answered + response == Flatten(sent) && Flatten(sent) + Flatten([group] + rest) == enqueued
    ensures answered + (response + group) == Flatten(sent + [group])
    ensures Flatten(sent + [group]) + Flatten(rest) == enqueued
  {
    FlattenSnoc(sent, group);
    assert ([group] + rest)[1..] == rest;
    assert Flatten([group] + rest) == group + Flatten(rest);
    assert (Flatten(sent) + group) + Flatten(rest) == Flatten(sent) + (group + Flatten(rest));
  }

  lemma WriteInv(w: World, s: Link)
    requires Inv(w, s) && Enabled(w, s, Write)
    ensures Inv(w, Step(w, s, Write))
  {
    if s.conn.requestQueue != [] {
      var group, rest := s.conn.requestQueue[0], s.conn.requestQueue[1..];
      assert s.conn.requestQueue == [group] + rest;
      DownGrows(w.nt, s.downRead, s.down, s.sent, group);
      OrderOnWrite(AnsweredRequests(s.answered), s.conn.responseQueue, s.sent, group, rest, s.enqueued);
    }
  }

  lemma UpGrows(nt: NumText, login: Doc, read: seq<byte>, up: seq<byte>, ran: seq<Exchange>,
                requests: seq<Value>, replies: seq<Doc>)
    requires |requests| == |replies| && read + up == EncodeAll(nt, [login] + Replies(ran))
    ensures read + (up + EncodeAll(nt, replies)) == EncodeAll(nt, [login] + Replies(ran + Zip(requests, replies)))
  {
    assert Replies(ran + Zip(requests, replies)) == Replies(ran) + replies;
    assert ([login] + Replies(ran)) + replies == [login] + (Replies(ran) + replies);
    EncodeAllAppend(nt, [login] + Replies(ran), replies);
    assert read + (up + EncodeAll(nt, replies)) == (read + up) + EncodeAll(nt, replies);
  }

  lemma AskedAppend(ran: seq<Exchange>, requests: seq<Value>, replies: seq<Doc>)
    requires |requests| == |replies|
    ensures Asked(ran + Zip(requests, replies)) == Asked(ran) + requests
  {}

  lemma DecoderMoves(w: World, read: seq<byte>, decoder: Outcome, ran: seq<Exchange>, chunk: seq<byte>, replies: seq<Doc>)
    requires Valid(decoder) && decoder == Feed(Env0(w), START, read) && Asked(ran) == Requests(w.nt, decoder.out)
    requires |replies| == |Requests(w.nt, News(w, decoder, chunk))|
    ensures Feed(Env0(w), decoder, chunk) == Feed(Env0(w), START, read + chunk)
    ensures Asked(ran + Zip(Requests(w.nt, News(w, decoder, chunk)), replies))
         == Requests(w.nt, Feed(Env0(w), decoder, chunk).out)
  {
    NewsFollow(w, decoder, chunk);
    RequestsAppend(w.nt, decoder.out, News(w, decoder, chunk));
    FeedAppend(Env0(w), START, read, chunk);
    AskedAppend(ran, Requests(w.nt, News(w, decoder, chunk)), replies);
  }

  lemma ClientReadsInv(w: World, s: Link, n: nat, replies: seq<Doc>)
    requires Inv(w, s) && Enabled(w, s, ClientReads(n, replies))
    ensures Inv(w, Step(w, s, ClientReads(n, replies)))
  {
    var chunk := s.down[..n];
    var requests := Requests(w.nt, News(w, s.decoder, chunk));
    DecoderMoves(w, s.downRead, s.decoder, s.ran, chunk, replies);
    assert (s.downRead + chunk) + s.down[n..] == s.downRead + s.down;
    UpGrows(w.nt, DS(w.name), s.upRead, s.up, s.ran, requests, replies);
  }

  // ----- what each side has heard so far

  /** The client has run the requests of the server in the order in which they were sent. */
  lemma RanInOrder(w: World, s: Link)
    requires w.nt.Faithful() && Inv(w, s) && Short(s.sent)
    ensures Flatten(s.sent) <= s.enqueued
    ensures Asked(s.ran) <= Asking(Flatten(s.sent))
  {
    assert forall r :: r in Flatten(s.sent) ==> r in s.enqueued;
    var docs := GroupDocs(w.nt, s.sent);
    assert s.downRead <= EncodeAll(w.nt, docs);
    PrefixDelivers(Env0(w), docs, s.downRead);
    var got, all := s.decoder.out, Meanings(docs);
    assert all == got + all[|got|..];
    RequestsAppend(w.nt, got, all[|got|..]);
    RequestsOfGroups(w.nt, s.sent);
  }

  /** The server has heard the login and then the client's replies in order. */
  lemma HeardInOrder(w: World, s: Link)
    requires w.nt.Faithful() && UpOk(w, s)
    ensures s.parser.Running? && s.parser.out <= Meanings([DS(w.name)] + Replies(s.ran))
  {
    assert s.upRead <= EncodeAll(w.nt, [DS(w.name)] + Replies(s.ran));
    PrefixDelivers(Env0(w), [DS(w.name)] + Replies(s.ran), s.upRead);
  }

  function Pairs(requests: seq<Request>, values: seq<Value>): (r: seq<Answer>)
    requires |requests| == |values|
    ensures |r| == |values|
  {
    seq(|values|, i requires 0 <= i < |values| => Answer(requests[i], values[i]))
  }

  lemma {:induction false} AbsorbReplies(conn: Conn, answered: seq<Answer>, values: seq<Value>)
    requires conn.login.Some? && |values| <= |conn.responseQueue|
    ensures Absorb(conn, answered, values)
         == Absorbed(conn.(responseQueue := conn.responseQueue[|values|..]),
                     answered + Pairs(conn.responseQueue[..|values|], values), true)
    decreases |values|
  {
    var queue := conn.responseQueue;
    if values == [] {
      assert queue[0..] == queue && answered + Pairs(queue[..0], values) == answered;
    } else {
      var answered1 := answered + [Answer(queue[0], values[0])];
      AbsorbReplies(conn.(responseQueue := queue[1..]), answered1, values[1..]);
      assert queue[1..][|values[1..]|..] == queue[|values|..];
      assert answered1 + Pairs(queue[1..][..|values[1..]|], values[1..]) == answered + Pairs(queue[..|values|], values);
    }
  }

  /** The first value is the login, each further one answers the oldest open request. */
  lemma AbsorbAll(conn: Conn, answered: seq<Answer>, values: seq<Value>)
    requires conn.login.Some? || values == [] || values[0].S?
    requires |values| <= |conn.responseQueue| + (if conn.login.Some? then 0 else 1)
    ensures var k := if conn.login.Some? || values == [] then 0 else 1;
      Absorb(conn, answered, values)
      == Absorbed(conn.(login := if k == 1 then Some(values[0].text) else conn.login,
                             responseQueue := conn.responseQueue[|values| - k..]),
                  answered + Pairs(conn.responseQueue[..|values| - k], values[k..]), true)
  {
    if conn.login.Some? {
      AbsorbReplies(conn, answered, values);
      assert values[0..] == values;
    } else if values != [] {
      AbsorbReplies(conn.(login := Some(values[0].text)), answered, values[1..]);
    } else {
      assert conn.responseQueue[0..] == conn.responseQueue;
      assert answered + Pairs(conn.responseQueue[..0], []) == answered;
    }
  }

  /** What the handler makes of newly completed values: open requests are answered in order. */
  ghost predicate Advance(s: Link, conn: Conn, answered: seq<Answer>, taken: nat) {
    && taken <= |s.conn.responseQueue|
    && conn == s.conn.(login := conn.login, responseQueue := s.conn.responseQueue[taken..])
    && |answered| == |s.answered| + taken && s.answered <= answered
    && AnsweredRequests(answered) == AnsweredRequests(s.answered) + s.conn.responseQueue[..taken]
  }

  lemma NewsWereSent(w: World, s: Link, n: nat)
    requires w.nt.Faithful() && UpOk(w, s) && n <= |s.up|
    ensures s.parser.Running? && s.parser.out + News(w, s.parser, s.up[..n]) <= Meanings([DS(w.name)] + Replies(s.ran))
  {
    var chunk := s.up[..n];
    HeardInOrder(w, s);
    FeedAppend(Env0(w), START, s.upRead, chunk);
    NewsFollow(w, s.parser, chunk);
    assert (s.upRead + chunk) + s.up[n..] == s.upRead + s.up;
    PrefixDelivers(Env0(w), [DS(w.name)] + Replies(s.ran), s.upRead + chunk);
  }

  lemma RanAtMostSent(w: World, s: Link)
    requires w.nt.Faithful() && Inv(w, s) && Short(s.sent) && s.alive
    ensures |s.ran| <= |s.answered| + |s.conn.responseQueue|
    ensures |s.parser.out| == |s.answered| + (if s.conn.login.Some? then 1 else 0)
    ensures s.answered != [] ==> s.conn.login.Some?
  {
    RanInOrder(w, s);
    assert |AnsweredRequests(s.answered) + s.conn.responseQueue| == |Flatten(s.sent)|;
  }

  /** No reply is unexpected: there are never more replies than open requests. */
  lemma Expected(w: World, s: Link, n: nat, m: nat)
    requires w.nt.Faithful() && Inv(w, s) && Short(s.sent) && s.alive && n <= |s.up| && m <= |News(w, s.parser, s.up[..n])|
    ensures var values := News(w, s.parser, s.up[..n])[..m];
      && (s.conn.login.Some? || values == [] || values[0].S?)
      && |values| <= |s.conn.responseQueue| + (if s.conn.login.Some? then 0 else 1)
  {
    NewsWereSent(w, s, n);
    RanAtMostSent(w, s);
    FirstIsLogin(s.parser.out, News(w, s.parser, s.up[..n]), Meanings([DS(w.name)] + Replies(s.ran)));
  }

  lemma FirstIsLogin(out: seq<Value>, news: seq<Value>, heard: seq<Value>)
    requires out + news <= heard && heard != [] && heard[0].S?
    ensures out == [] && news != [] ==> news[0].S?
    ensures |out| + |news| <= |heard|
  {
    if out == [] && news != [] {
      assert news[0] == (out + news)[0] == heard[0];
    }
  }

  lemma AbsorbAdvances(s: Link, values: seq<Value>)
    requires s.conn.login.Some? || values == [] || values[0].S?
    requires |values| <= |s.conn.responseQueue| + (if s.conn.login.Some? then 0 else 1)
    ensures var r := Absorb(s.conn, s.answered, values);
      var k := if s.conn.login.Some? || values == [] then 0 else 1;
      && r.ok && Advance(s, r.conn, r.answered, |values| - k)
      && (r.conn.login.Some? <==> s.conn.login.Some? || k == 1)
      && forall i :: |s.answered| <= i < |r.answered| ==> r.answered[i].value == values[i - |s.answered| + k]
  {
    AbsorbAll(s.conn, s.answered, values);
  }

  lemma OrderAdvances(w: World, s: Link, n: nat, conn: Conn, answered: seq<Answer>, taken: nat)
    requires s.alive && OrderOk(s) && Advance(s, conn, answered, taken) && n <= |s.up| && Valid(s.parser)
    ensures OrderOk(Received(w, s, n, conn, answered))
  {
    var queue := s.conn.responseQueue;
    assert queue == queue[..taken] + queue[taken..];
    assert AnsweredRequests(s.answered) + (queue[..taken] + queue[taken..])
        == (AnsweredRequests(s.answered) + queue[..taken]) + queue[taken..];
  }

  lemma CloseOrder(s: Link)
    requires s.alive && OrderOk(s)
    ensures OrderOk(Close(s))
  {
    var a, r, q := AnsweredRequests(s.answered), s.conn.responseQueue, Flatten(s.conn.requestQueue);
    assert s.enqueued == (a + r) + q;
    assert multiset(a) + multiset(q + r) == multiset((a + r) + q);
  }

  lemma UpAdvances(w: World, s: Link, n: nat, conn: Conn, answered: seq<Answer>, alive: bool)
    requires UpOk(w, s) && s.alive && n <= |s.up|
    requires s.answered <= answered && |answered| + (if conn.login.Some? then 1 else 0) <= |s.parser.out + News(w, s.parser, s.up[..n])|
    requires answered != [] ==> conn.login.Some?
    requires alive ==> |answered| + (if conn.login.Some? then 1 else 0) == |s.parser.out + News(w, s.parser, s.up[..n])|
    requires forall i :: |s.answered| <= i < |answered| ==>
               answered[i].value == (s.parser.out + News(w, s.parser, s.up[..n]))[i + 1]
    ensures UpOk(w, Received(w, s, n, conn, answered).(alive := alive))
  {
    var chunk := s.up[..n];
    FeedAppend(Env0(w), START, s.upRead, chunk);
    NewsFollow(w, s.parser, chunk);
    assert (s.upRead + chunk) + s.up[n..] == s.upRead + s.up;
  }

  lemma LinesUp(out: seq<Value>, news: seq<Value>, m: nat, before: nat, answered: seq<Answer>, k: nat)
    requires m <= |news| && before <= |answered| && |answered| - before + k <= m
    requires before < |answered| ==> |out| + k == before + 1
    requires forall i :: before <= i < |answered| ==> answered[i].value == news[..m][i - before + k]
    ensures forall i :: before <= i < |answered| ==> i + 1 < |out + news| && answered[i].value == (out + news)[i + 1]
  {
    forall i | before <= i < |answered| ensures answered[i].value == (out + news)[i + 1] {
      assert news[..m][i - before + k] == news[i - before + k];
    }
  }

  /** What comes of the first m newly completed values. */
  ghost predicate WellHandled(w: World, s: Link, n: nat, m: nat)
    requires n <= |s.up| && Valid(s.parser) && m <= |News(w, s.parser, s.up[..n])|
  {
    var news := News(w, s.parser, s.up[..n]);
    var r := Absorb(s.conn, s.answered, news[..m]);
    && r.ok && OrderOk(Received(w, s, n, r.conn, r.answered))
    && s.answered <= r.answered && (r.answered != [] ==> r.conn.login.Some?)
    && |r.answered| + (if r.conn.login.Some? then 1 else 0) == |s.parser.out| + m
    && forall i :: |s.answered| <= i < |r.answered| ==> r.answered[i].value == (s.parser.out + news)[i + 1]
  }

  lemma HandledWell(w: World, s: Link, n: nat, m: nat)
    requires s.alive && OrderOk(s) && n <= |s.up| && Valid(s.parser) && m <= |News(w, s.parser, s.up[..n])|
    requires |s.parser.out| == |s.answered| + (if s.conn.login.Some? then 1 else 0)
    requires s.answered != [] ==> s.conn.login.Some?
    requires var values := News(w, s.parser, s.up[..n])[..m];
      && (s.conn.login.Some? || values == [] || values[0].S?)
      && |values| <= |s.conn.responseQueue| + (if s.conn.login.Some? then 0 else 1)
    ensures WellHandled(w, s, n, m)
  {
    var news := News(w, s.parser, s.up[..n]);
    var values := news[..m];
    AbsorbAdvances(s, values);
    var r := Absorb(s.conn, s.answered, values);
    var k := if s.conn.login.Some? || values == [] then 0 else 1;
    LinesUp(s.parser.out, news, m, |s.answered|, r.answered, k);
    OrderAdvances(w, s, n, r.conn, r.answered, |values| - k);
  }

  lemma Handled(w: World, s: Link, n: nat, m: nat)
    requires w.nt.Faithful() && Inv(w, s) && Short(s.sent) && s.alive && n <= |s.up| && m <= |News(w, s.parser, s.up[..n])|
    ensures WellHandled(w, s, n, m)
  {
    Expected(w, s, n, m);
    RanAtMostSent(w, s);
    HandledWell(w, s, n, m);
  }

  /** No packet is ever unexpected: the connection closes only when asked to. */
  lemma ServerReadsInv(w: World, s: Link, n: nat, m: nat, stop: bool)
    requires w.nt.Faithful() && Inv(w, s) && Short(s.sent) && Enabled(w, s, ServerReads(n, m, stop))
    ensures Inv(w, Step(w, s, ServerReads(n, m, stop)))
    ensures Step(w, s, ServerReads(n, m, stop)).alive == !stop
  {
    var r := Absorb(s.conn, s.answered, News(w, s.parser, s.up[..n])[..m]);
    var s1 := Received(w, s, n, r.conn, r.answered);
    Handled(w, s, n, m);
    UpAdvances(w, s, n, r.conn, r.answered, !stop);
    if stop {
      CloseOrder(s1);
    } else {
      assert s1.(alive := true) == s1;
    }
  }

  lemma StepInv(w: World, s: Link, e: Event)
    requires w.nt.Faithful() && Inv(w, s) && Short(s.sent) && Enabled(w, s, e)
    ensures Inv(w, Step(w, s, e))
  {
    match e
    case Submit(group) => SubmitInv(w, s, group);
    case Write => WriteInv(w, s);
    case ClientReads(n, replies) => ClientReadsInv(w, s, n, replies);
    case ServerReads(n, m, stop) => ServerReadsInv(w, s, n, m, stop);
    case Drop => CloseOrder(s);
  }

  lemma GroupsStayShort(w: World, s: Link, e: Event)
    requires Enabled(w, s, e) && GroupsOk(s)
    ensures GroupsOk(Step(w, s, e))
  {
    if e.ServerReads? {
      AbsorbKeepsQueue(s.conn, s.answered, News(w, s.parser, s.up[..e.n])[..e.m]);
    }
  }

  lemma {:induction false} AbsorbKeepsQueue(conn: Conn, answered: seq<Answer>, values: seq<Value>)
    ensures Absorb(conn, answered, values).conn.requestQueue == conn.requestQueue
    decreases |values|
  {
    if values != [] {
      match React(conn, values[0])
      case LoggedIn(_) => AbsorbKeepsQueue(AfterPacket(conn, values[0]), answered, values[1..]);
      case Answered(r) => AbsorbKeepsQueue(AfterPacket(conn, values[0]), answered + [Answer(r, values[0])], values[1..]);
      case _ => {}
    }
  }

  lemma StartInv(w: World)
    ensures Inv(w, Start(w)) && GroupsOk(Start(w))
  {
    var s := Start(w);
    assert [DS(w.name)] + Replies(s.ran) == [DS(w.name)];
    assert EncodeAll(w.nt, [DS(w.name)]) == Encode(w.nt, DS(w.name)) + EncodeAll(w.nt, []);
    assert AnsweredRequests([]) + [] == Flatten<Request>([]);
  }

  ghost predicate CanRun(w: World, s: Link, es: seq<Event>)
    decreases |es|
  {
    es == [] || (Enabled(w, s, es[0]) && CanRun(w, Step(w, s, es[0]), es[1..]))
  }

  ghost function Run(w: World, s: Link, es: seq<Event>): Link
    requires CanRun(w, s, es)
    decreases |es|
  {
    if es == [] then s else Run(w, Step(w, s, es[0]), es[1..])
  }

  lemma {:induction false} RunInv(w: World, s: Link, es: seq<Event>)
    requires w.nt.Faithful() && Inv(w, s) && GroupsOk(s) && CanRun(w, s, es)
    ensures Inv(w, Run(w, s, es)) && GroupsOk(Run(w, s, es))
    decreases |es|
  {
    if es != [] {
      StepInv(w, s, es[0]);
      GroupsStayShort(w, s, es[0]);
      RunInv(w, Step(w, s, es[0]), es[1..]);
    }
  }

  /** Whatever the pieces and the interleaving: the k-th value that completes a request on the server is
      the reply that the client computed for exactly that request, which is the k-th one submitted. */
  lemma RepliesArePaired(w: World, es: seq<Event>, k: nat)
    requires w.nt.Faithful() && CanRun(w, Start(w), es)
    requires k < |Run(w, Start(w), es).answered|
    ensures var s := Run(w, Start(w), es);
      && k < |s.ran| && k < |s.enqueued|
      && s.answered[k].request == s.enqueued[k]
      && s.ran[k].request == Meaning(s.enqueued[k].doc)
      && s.answered[k].value == Meaning(s.ran[k].reply)
  {
    StartInv(w);
    RunInv(w, Start(w), es);
    var s := Run(w, Start(w), es);
    RanInOrder(w, s);
    HeardInOrder(w, s);
    var heard := [DS(w.name)] + Replies(s.ran);
    assert s.parser.out[k + 1] == Meanings(heard)[k + 1] == Meaning(heard[k + 1]);
    assert AnsweredRequests(s.answered)[k] == Flatten(s.sent)[k];
    assert Asked(s.ran)[k] == Asking(Flatten(s.sent))[k];
  }

  // ----- the name of the connection

  /** The name is the first value that has come in. */
  ghost predicate NamedByFirst(s: Link) {
    s.conn.login.Some? ==> s.parser.out != [] && s.parser.out[0] == S(s.conn.login.value)
  }

  lemma NameStays(w: World, s: Link, e: Event)
    requires Inv(w, s) && NamedByFirst(s) && Enabled(w, s, e) && !e.ServerReads?
    ensures NamedByFirst(Step(w, s, e))
  {}

  lemma NameIsRead(w: World, s: Link, n: nat, m: nat, stop: bool)
    requires w.nt.Faithful() && Inv(w, s) && GroupsOk(s) && NamedByFirst(s) && Enabled(w, s, ServerReads(n, m, stop))
    ensures NamedByFirst(Step(w, s, ServerReads(n, m, stop)))
  {
    var values := News(w, s.parser, s.up[..n])[..m];
    Expected(w, s, n, m);
    AbsorbAll(s.conn, s.answered, values);
    RanAtMostSent(w, s);
    NewsFollow(w, s.parser, s.up[..n]);
  }

  lemma {:induction false} RunNamed(w: World, s: Link, es: seq<Event>)
    requires w.nt.Faithful() && Inv(w, s) && GroupsOk(s) && NamedByFirst(s) && CanRun(w, s, es)
    ensures NamedByFirst(Run(w, s, es))
    decreases |es|
  {
    if es != [] {
      if es[0].ServerReads? {
        NameIsRead(w, s, es[0].n, es[0].m, es[0].stop);
      } else {
        NameStays(w, s, es[0]);
      }
      StepInv(w, s, es[0]);
      GroupsStayShort(w, s, es[0]);
      RunNamed(w, Step(w, s, es[0]), es[1..]);
    }
  }

  /** In every run a connection that has logged in has done so under the name that the client wrote first. */
  lemma NameArrives(w: World, es: seq<Event>)
    requires w.nt.Faithful() && CanRun(w, Start(w), es)
    ensures var s := Run(w, Start(w), es); s.conn.login.Some? ==> s.conn.login == Some(w.name)
  {
    StartInv(w);
    RunInv(w, Start(w), es);
    RunNamed(w, Start(w), es);
    var s := Run(w, Start(w), es);
    HeardInOrder(w, s);
    if s.conn.login.Some? {
      var heard := Meanings([DS(w.name)] + Replies(s.ran));
      assert s.parser.out[0] == heard[0] == Meaning(DS(w.name));
    }
  }

  /** Every submitted request is completed at most once, and once the connection is gone exactly once. */
  lemma CompletedOnce(w: World, es: seq<Event>)
    requires w.nt.Faithful() && CanRun(w, Start(w), es)
    ensures var s := Run(w, Start(w), es);
      var done := multiset(AnsweredRequests(s.answered)) + multiset(s.failed);
      && (s.alive ==> done + multiset(Dropped(s.conn)) == multiset(s.enqueued))
      && (!s.alive ==> done == multiset(s.enqueued))
      && (s.alive ==> s.conn.requestQueueSize == |Flatten(s.conn.requestQueue)|)
  {
    StartInv(w);
    RunInv(w, Start(w), es);
    var s := Run(w, Start(w), es);
    if s.alive {
      var a, r, q := AnsweredRequests(s.answered), s.conn.responseQueue, Flatten(s.conn.requestQueue);
      assert s.enqueued == (a + r) + q;
    }
  }

  /** A live connection whose writer and both streams have come to rest has answered everything. */
  lemma RestMeansAllAnswered(w: World, es: seq<Event>)
    requires w.nt.Faithful() && CanRun(w, Start(w), es)
    requires var s := Run(w, Start(w), es); s.alive && !s.conn.writing && s.down == [] && s.up == []
    ensures var s := Run(w, Start(w), es); AnsweredRequests(s.answered) == s.enqueued && s.conn.login.Some?
  {
    StartInv(w);
    RunInv(w, Start(w), es);
    var s := Run(w, Start(w), es);
    var docs := GroupDocs(w.nt, s.sent);
    assert s.downRead + [] == s.downRead && s.upRead + [] == s.upRead;
    PrefixDelivers(Env0(w), docs, s.downRead);
    RequestsOfSent(w, s);
    PrefixDelivers(Env0(w), [DS(w.name)] + Replies(s.ran), s.upRead);
    assert |s.answered| == |Flatten(s.sent)|;
    assert Flatten(s.sent) + Flatten<Request>([]) == Flatten(s.sent);
  }

  lemma RequestsOfSent(w: World, s: Link)
    requires w.nt.Faithful() && Inv(w, s) && Short(s.sent)
    ensures Requests(w.nt, Meanings(GroupDocs(w.nt, s.sent))) == Asking(Flatten(s.sent))
  {
    assert forall r :: r in Flatten(s.sent) ==> r in s.enqueued;
    RequestsOfGroups(w.nt, s.sent);
  }

  /** The decoder of the link is in step with the client's own one: whatever pieces it got, its callback has been given just
      the groups that the link's decoder delivered, without their nil members. */
  lemma ClientDecodes(w: World, es: seq<Event>, pieces: seq<seq<byte>>)
    requires w.nt.Faithful() && CanRun(w, Start(w), es) && Concat(pieces) == Run(w, Start(w), es).downRead
    ensures var s := Run(w, Start(w), es);
      && s.decoder.Running? && Valid(s.decoder)
      && LuaClient.ReadAll(w.nt, LuaClient.FRESH, pieces) == LuaClient.DecoderOf(s.decoder)
  {
    StartInv(w);
    RunInv(w, Start(w), es);
    var s := Run(w, Start(w), es);
    assert s.downRead <= EncodeAll(w.nt, GroupDocs(w.nt, s.sent));
    PrefixDelivers(Env0(w), GroupDocs(w.nt, s.sent), s.downRead);
    ChunksDoNotMatter(Env0(w), START, pieces);
    LuaClient.StartsFresh();
    LuaClient.PiecesFollow(Env0(w), START, pieces);
  }
}
