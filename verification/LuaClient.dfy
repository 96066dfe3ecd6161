/** The client's own decoder (client/client.lua): closures that replace each other in the variable `s`. A closure is here the
    state it has captured; the closures it returns to are the frames below. It takes whole pieces of the stream, and calls
    itself with what is left of a piece. On all that the server may write it does what the server's parser would do
    (LuaValue), but that a table in Lua does not remember members that are nil. */
module LuaClient {
  import opened Common
  import opened LuaValue
  import opened Server

  /** An open table: what it holds, and a key that waits for its value. */
  datatype Frame = Frame(data: map<Key, Value>, key: Option<Key>)

  /** The closure that is called with the next piece. */
  datatype Closure = Root | Number(data: seq<byte>) | Text(data: seq<byte>, escape: bool)

  /** The decoder between two pieces; stopped by an error; or with a table as a key, which Lua allows and this does not
      follow. `out` is what the callback has been given. */
  datatype Decoder =
    | Ready(frames: seq<Frame>, s: Closure, out: seq<Value>)
    | Stopped(out: seq<Value>)
    | Strange(out: seq<Value>)

  /** Where the first @ is, if there is one. */
  function Find(x: seq<byte>): (pos: nat)
    ensures pos <= |x| && (forall i :: 0 <= i < pos ==> x[i] != AT) && (pos < |x| ==> x[pos] == AT)
  {
    if x == [] || x[0] == AT then 0 else 1 + Find(x[1..])
  }

  /** data[key] = x */
  function Assign(data: map<Key, Value>, key: Key, x: Value): map<Key, Value> {
    if x.N? then data - {key} else data[key := x]
  }

  function AsKey(x: Value): Option<Key> {
    match x
    case F(n) => Some(KF(n))
    case S(text) => Some(KS(text))
    case B(b) => Some(KB(b))
    case _ => None
  }

  /** tonumber gives nil for what is not a number. */
  function ToNumber(nt: NumText, text: seq<byte>): Value {
    match nt.read(text)
    case Some(n) => F(n)
    case None => N
  }

  /** A call with a value and the rest of the piece: what sTable and the outermost closure do. */
  function CallWith(nt: NumText, frames: seq<Frame>, out: seq<Value>, x: Value, rem: seq<byte>): Decoder
    decreases |rem|, |frames| + 1
  {
    if frames == [] then Call(nt, [], Root, out + [x], rem)
    else
      var below, top := frames[..|frames| - 1], frames[|frames| - 1];
      match top.key
      case Some(key) => Call(nt, below + [Frame(Assign(top.data, key, x), None)], Root, out, rem)
      case None =>
        if x.N? then CallWith(nt, below, out, T(top.data), rem)
        else if AsKey(x).None? then Strange(out)
        else Call(nt, below + [Frame(top.data, AsKey(x))], Root, out, rem)
  }

  /** A call with a piece: what sRoot, sNumber and sString do. */
  function Call(nt: NumText, frames: seq<Frame>, s: Closure, out: seq<Value>, x: seq<byte>): Decoder
    decreases |x|, 0
  {
    match s
    case Root =>
      if x == [] then Ready(frames, Root, out)
      else
        var tag, rem := x[0], x[1..];
        if tag == NIL then CallWith(nt, frames, out, N, rem)
        else if tag == NUMBER then Call(nt, frames, Number([]), out, rem)
        else if tag == AT then Call(nt, frames, Text([], false), out, rem)
        else if tag == YES then CallWith(nt, frames, out, B(true), rem)
        else if tag == NO then CallWith(nt, frames, out, B(false), rem)
        else if tag == TABLE then Call(nt, frames + [Frame(map[], None)], Root, out, rem)
        else Stopped(out)
    case Number(data) =>
      var pos := Find(x);
      if pos < |x| then CallWith(nt, frames, out, ToNumber(nt, data + x[..pos]), x[pos + 1..])
      else Ready(frames, Number(data + x), out)
    case Text(data, escape) =>
      if x == [] then Ready(frames, s, out)
      else if escape then
        if x[0] == DOT then Call(nt, frames, Text(data + [AT], false), out, x[1..])
        else if x[0] == TILDE then CallWith(nt, frames, out, S(data), x[1..])
        else Stopped(out)
      else Call(nt, frames, if x[0] == AT then Text(data, true) else Text(data + [x[0]], false), out, x[1..])
  }

  function Read(nt: NumText, d: Decoder, piece: seq<byte>): Decoder {
    if d.Ready? then Call(nt, d.frames, d.s, d.out, piece) else d
  }

  function ReadAll(nt: NumText, d: Decoder, pieces: seq<seq<byte>>): Decoder
    decreases |pieces|
  {
    if pieces == [] then d else ReadAll(nt, Read(nt, d, pieces[0]), pieces[1..])
  }

  const FRESH: Decoder := Ready([], Root, [])

  // ----- how it compares with the server's parser

  /** What Lua keeps of a value: no members that are nil. */
  function Kept(v: Value): Value {
    match v
    case T(table) => T(map k | k in table && !table[k].N? :: Kept(table[k]))
    case _ => v
  }

  function KeptTable(table: map<Key, Value>): map<Key, Value> { Kept(T(table)).table }

  function KeptAll(values: seq<Value>): (r: seq<Value>)
    ensures |r| == |values| && forall i :: 0 <= i < |r| ==> r[i] == Kept(values[i])
  {
    seq(|values|, i requires 0 <= i < |values| => Kept(values[i]))
  }

  function FramesOf(tables: seq<State>): (r: seq<Frame>)
    requires AllTables(tables)
    ensures |r| == |tables|
    ensures forall i :: 0 <= i < |r| ==> r[i] == Frame(KeptTable(tables[i].result), tables[i].key)
  {
    seq(|tables|, i requires 0 <= i < |tables| => Frame(KeptTable(tables[i].result), tables[i].key))
  }

  function ClosureOf(top: State): Closure
    requires !top.InTable?
  {
    match top
    case V => Root
    case InNumber(digits) => Number(digits)
    case InString(chars, escape) => Text(chars, escape)
  }

  /** The decoder that corresponds to a parser that has not failed. */
  function DecoderOf(o: Outcome): Decoder
    requires o.Running? && WellFormed(o.stack)
  {
    Ready(FramesOf(o.stack[..|o.stack| - 1]), ClosureOf(o.stack[|o.stack| - 1]), KeptAll(o.out))
  }

  lemma AssignKept(table: map<Key, Value>, key: Key, x: Value)
    ensures KeptTable(table[key := x]) == Assign(KeptTable(table), key, Kept(x))
  {}

  lemma FailedStays(env: Env, o: Outcome, x: seq<byte>)
    requires o.Failed?
    ensures Feed(env, o, x) == o
  {}

  lemma SplitLast(rest: seq<State>, top: State)
    ensures (rest + [top])[..|rest|] == rest && (rest + [top])[|rest|] == top
  {}

  /** The parser has just completed a value, and goes on with the rest of the piece. */
  ghost predicate GoesOn(env: Env, o: Outcome, rem: seq<byte>) {
    o.Running? && WellFormed(o.stack) && Feed(env, o, rem).Running?
  }

  lemma {:induction false} ValueFollows(env: Env, tables: seq<State>, out: seq<Value>, x: Value, rem: seq<byte>)
    requires AllTables(tables) && GoesOn(env, Reduce(env, tables, out, x), rem)
    ensures CallWith(env.nt, FramesOf(tables), KeptAll(out), Kept(x), rem)
         == DecoderOf(Feed(env, Reduce(env, tables, out, x), rem))
    decreases |rem|, |tables| + 2
  {
    if tables == [] {
      assert KeptAll(out + [x]) == KeptAll(out) + [Kept(x)];
      assert FramesOf([V][..0]) == [];
      PieceFollows(env, [], V, out + [x], rem);
    } else {
      var rest, top := tables[..|tables| - 1], tables[|tables| - 1];
      assert FramesOf(tables) == FramesOf(rest) + [Frame(KeptTable(top.result), top.key)];
      assert FramesOf(tables)[..|rest|] == FramesOf(rest);
      if top.key.Some? {
        var top' := InTable(top.result[top.key.value := x], None);
        AssignKept(top.result, top.key.value, x);
        assert FramesOf(rest + [top']) == FramesOf(rest) + [Frame(KeptTable(top'.result), None)];
        SplitLast(rest + [top'], V);
        assert rest + [top', V] == (rest + [top']) + [V];
        PieceFollows(env, rest + [top'], V, out, rem);
      } else if x.N? {
        ValueFollows(env, rest, out, T(top.result), rem);
      } else {
        var top' := InTable(top.result, AsKey(x));
        assert FramesOf(rest + [top']) == FramesOf(rest) + [Frame(KeptTable(top.result), AsKey(x))];
        assert rest + [top', V] == (rest + [top']) + [V];
        PieceFollows(env, rest + [top'], V, out, rem);
      }
    }
  }

  lemma FirstByte(env: Env, stack: seq<State>, out: seq<Value>, x: seq<byte>)
    requires WellFormed(stack) && x != [] && Feed(env, Running(stack, out), x).Running?
    ensures Feed(env, Running(stack, out), x) == Feed(env, Feed1(env, stack, out, x[0]), x[1..])
    ensures GoesOn(env, Feed1(env, stack, out, x[0]), x[1..])
  {}

  lemma NothingRead(env: Env, tables: seq<State>, top: State, out: seq<Value>)
    requires AllTables(tables) && !top.InTable?
    ensures Feed(env, Running(tables + [top], out), []) == Running(tables + [top], out)
    ensures DecoderOf(Running(tables + [top], out)) == Ready(FramesOf(tables), ClosureOf(top), KeptAll(out))
  {
    SplitLast(tables, top);
  }

  lemma {:induction false} PieceFollows(env: Env, tables: seq<State>, top: State, out: seq<Value>, x: seq<byte>)
    requires AllTables(tables) && !top.InTable? && Feed(env, Running(tables + [top], out), x).Running?
    ensures Call(env.nt, FramesOf(tables), ClosureOf(top), KeptAll(out), x)
         == DecoderOf(Feed(env, Running(tables + [top], out), x))
    decreases |x|, 1
  {
    if top.InNumber? {
      NumberFollows(env, tables, top.digits, out, x);
    } else if x == [] {
      NothingRead(env, tables, top, out);
    } else {
      FirstByte(env, tables + [top], out, x);
      if top.V? {
        RootFollows(env, tables, out, x);
      } else {
        TextFollows(env, tables, top, out, x);
      }
    }
  }

  lemma RootFollows(env: Env, tables: seq<State>, out: seq<Value>, x: seq<byte>)
    requires AllTables(tables) && x != [] && GoesOn(env, Feed1(env, tables + [V], out, x[0]), x[1..])
    ensures Call(env.nt, FramesOf(tables), Root, KeptAll(out), x)
         == DecoderOf(Feed(env, Feed1(env, tables + [V], out, x[0]), x[1..]))
    decreases |x|, 0
  {
    SplitLast(tables, V);
    var tag, rem := x[0], x[1..];
    if tag == NIL {
      ValueFollows(env, tables, out, N, rem);
    } else if tag == NUMBER {
      PieceFollows(env, tables, InNumber([]), out, rem);
    } else if tag == AT {
      PieceFollows(env, tables, InString([], false), out, rem);
    } else if tag == YES || tag == NO {
      ValueFollows(env, tables, out, B(tag == YES), rem);
    } else {
      var open := InTable(map[], None);
      assert FramesOf(tables + [open]) == FramesOf(tables) + [Frame(map[], None)];
      assert tables + [open, V] == (tables + [open]) + [V];
      PieceFollows(env, tables + [open], V, out, rem);
    }
  }

  lemma TextFollows(env: Env, tables: seq<State>, top: State, out: seq<Value>, x: seq<byte>)
    requires AllTables(tables) && top.InString? && x != [] && GoesOn(env, Feed1(env, tables + [top], out, x[0]), x[1..])
    ensures Call(env.nt, FramesOf(tables), ClosureOf(top), KeptAll(out), x)
         == DecoderOf(Feed(env, Feed1(env, tables + [top], out, x[0]), x[1..]))
    decreases |x|, 0
  {
    SplitLast(tables, top);
    if top.escape && x[0] == TILDE {
      ValueFollows(env, tables, out, S(top.chars), x[1..]);
    } else if top.escape {
      PieceFollows(env, tables, InString(top.chars + [AT], false), out, x[1..]);
    } else {
      PieceFollows(env, tables, if x[0] == AT then InString(top.chars, true) else InString(top.chars + [x[0]], false), out, x[1..]);
    }
  }

  /** The closure looks for the end of the number in the whole piece at once. */
  lemma NumberFollows(env: Env, tables: seq<State>, digits: seq<byte>, out: seq<Value>, x: seq<byte>)
    requires AllTables(tables) && Feed(env, Running(tables + [InNumber(digits)], out), x).Running?
    ensures Call(env.nt, FramesOf(tables), Number(digits), KeptAll(out), x)
         == DecoderOf(Feed(env, Running(tables + [InNumber(digits)], out), x))
    decreases |x|, 0
  {
    var pos := Find(x);
    var o, text := Running(tables + [InNumber(digits)], out), x[..pos];
    FeedDigits(env, tables, out, digits, text);
    SplitLast(tables, InNumber(digits + text));
    if pos == |x| {
      assert text == x;
    } else {
      assert x == text + x[pos..] && x[pos..][0] == AT && x[pos..][1..] == x[pos + 1..];
      FeedAppend(env, o, text, x[pos..]);
      var o1 := Feed1(env, tables + [InNumber(digits + text)], out, AT);
      if o1.Failed? {
        FailedStays(env, o1, x[pos + 1..]);
      }
      ValueFollows(env, tables, out, ToNumber(env.nt, digits + text), x[pos + 1..]);
    }
  }

  /** Piece by piece: as long as the parser has no complaint, the decoder is in step with it. */
  lemma {:induction false} PiecesFollow(env: Env, o: Outcome, pieces: seq<seq<byte>>)
    requires o.Running? && WellFormed(o.stack) && FeedAll(env, o, pieces).Running?
    ensures ReadAll(env.nt, DecoderOf(o), pieces) == DecoderOf(FeedAll(env, o, pieces))
    decreases |pieces|
  {
    if pieces != [] {
      var o1, n := Feed(env, o, pieces[0]), |o.stack| - 1;
      assert o.stack == o.stack[..n] + [o.stack[n]];
      if o1.Failed? {
        FailedForAll(env, o1, pieces[1..]);
      }
      PieceFollows(env, o.stack[..n], o.stack[n], o.out, pieces[0]);
      PiecesFollow(env, o1, pieces[1..]);
    }
  }

  lemma {:induction false} FailedForAll(env: Env, o: Outcome, pieces: seq<seq<byte>>)
    requires o.Failed?
    ensures FeedAll(env, o, pieces).Failed?
    decreases |pieces|
  {
    if pieces != [] {
      FailedStays(env, o, pieces[0]);
      FailedForAll(env, o, pieces[1..]);
    }
  }

  lemma StartsFresh()
    ensures DecoderOf(START) == FRESH
  {
    assert FramesOf([V][..0]) == [] && KeptAll([]) == [];
  }

  /** However the stream is cut, the client's callback gets exactly the values that the server wrote, without the members that
      are nil, and the decoder is back at its start. */
  lemma ClientReadsWhatWasWritten(nt: NumText, docs: seq<Doc>, pieces: seq<seq<byte>>)
    requires nt.Faithful() && Concat(pieces) == EncodeAll(nt, docs)
    ensures ReadAll(nt, FRESH, pieces) == Ready([], Root, KeptAll(Meanings(docs)))
  {
    var env := Env(nt, (out: seq<Value>, v: Value) => true);
    RoundTrip(env, docs, pieces);
    StartsFresh();
    assert FramesOf([V][..0]) == [];
    PiecesFollow(env, START, pieces);
  }

  // ----- a group is taken apart

  lemma {:induction false} NoneNil(nt: NumText, table: map<Key, Value>, docs: seq<Doc>, first: nat)
    requires (forall k :: k in table ==> !table[k].N?) && forall i :: 0 <= i < |docs| ==> !docs[i].DN?
    ensures forall k :: k in Fill(table, VecEntries(nt, docs, first)) ==> !Fill(table, VecEntries(nt, docs, first))[k].N?
    decreases |docs|
  {
    if docs != [] {
      NoneNil(nt, table[KF(nt.index(first)) := Meaning(docs[0])], docs[1..], first + 1);
      assert VecEntries(nt, docs, first)[1..] == VecEntries(nt, docs[1..], first + 1);
    }
  }

  lemma {:induction false} IpairsKept(nt: NumText, table: map<Key, Value>, first: nat, fuel: nat)
    requires forall k :: k in table ==> !table[k].N?
    ensures Ipairs(nt, KeptTable(table), first, fuel) == KeptAll(Ipairs(nt, table, first, fuel))
    decreases fuel
  {
    var k := KF(nt.index(first));
    if fuel > 0 && k in table {
      IpairsKept(nt, table, first + 1, fuel - 1);
      var rest := Ipairs(nt, table, first + 1, fuel - 1);
      assert KeptAll([table[k]] + rest) == [Kept(table[k])] + KeptAll(rest);
    }
  }

  lemma KeptGroup(nt: NumText, group: Value)
    requires group.T? && forall k :: k in group.table ==> !group.table[k].N?
    ensures Members(nt, Kept(group)) == KeptAll(Members(nt, group))
  {
    IpairsKept(nt, group.table, 1, |group.table|);
    assert Kept(group) == T(KeptTable(group.table)) && KeptTable(group.table).Keys == group.table.Keys;
  }

  lemma GroupHasNoNil(nt: NumText, docs: seq<Doc>, group: Value)
    requires (forall i :: 0 <= i < |docs| ==> !docs[i].DN?) && group == Meaning(VecToTable(nt, docs))
    ensures group.T? && forall k :: k in group.table ==> !group.table[k].N?
  {
    NoneNil(nt, map[], docs, 1);
  }

  lemma TakenApart(nt: NumText, group: Value, values: seq<Value>)
    requires group.T? && (forall k :: k in group.table ==> !group.table[k].N?) && Members(nt, group) == values
    ensures Members(nt, Kept(group)) == KeptAll(values)
  {
    KeptGroup(nt, group);
  }

  /** What ipairs finds in a group as Lua keeps it are the requests that the server put into it, each as Lua keeps it. */
  lemma GroupIsTakenApart(nt: NumText, docs: seq<Doc>)
    requires nt.Faithful() && |docs| < MAX_INDEX && forall i :: 0 <= i < |docs| ==> !docs[i].DN?
    ensures Members(nt, Kept(Meaning(VecToTable(nt, docs)))) == KeptAll(Meanings(docs))
  {
    GroupRoundTrip(nt, docs);
    GroupHasNoNil(nt, docs, Meaning(VecToTable(nt, docs)));
    TakenApart(nt, Meaning(VecToTable(nt, docs)), Meanings(docs));
  }
}
