/** The wire format of server/RustImpl/src/lua_value.rs: a self-delimiting encoding of values and a parser
    with an explicit stack that may be fed any pieces of a byte stream. */
module LuaValue {
  import opened Common

  type byte = x: int | 0 <= x < 256

  const NIL: byte := 0x21     // !  also ends a table
  const NUMBER: byte := 0x23  // #
  const AT: byte := 0x40      // @  starts a string, ends a number, escapes inside a string
  const YES: byte := 0x2B     // +
  const NO: byte := 0x2D      // -
  const TABLE: byte := 0x3D   // =
  const DOT: byte := 0x2E     // .  after @ inside a string: a literal @
  const TILDE: byte := 0x7E   // ~  after @ inside a string: the end

  const MAX_INDEX: nat := 0x20_0000_0000_0000

  /** A number is known by its bit pattern; how it is written as text is a parameter of the model. */
  datatype Num = Num(bits: nat)

  datatype NumText = NumText(show: Num -> seq<byte>, read: seq<byte> -> Option<Num>, index: nat -> Num) {
    /** Written numbers contain no @ and are read back as they were; different indices are different numbers, as long as
        they are so small that a double represents them exactly. */
    ghost predicate Faithful() {
      && (forall x :: AT !in show(x) && read(show(x)) == Some(x))
      && (forall i: nat, j: nat :: i <= MAX_INDEX && j <= MAX_INDEX && index(i) == index(j) ==> i == j)
    }
  }

  datatype Key = KF(num: Num) | KS(text: seq<byte>) | KB(bit: bool)

  datatype Value = N | F(num: Num) | S(text: seq<byte>) | B(bit: bool) | T(table: map<Key, Value>)

  /** A value together with the order in which its tables are walked when it is written: key order in
      the server's ordered maps, any order in the client's pairs. */
  datatype Doc = DN | DF(num: Num) | DS(text: seq<byte>) | DB(bit: bool) | DT(entries: seq<Entry>)

  datatype Entry = Entry(key: Key, value: Doc)

  function Meaning(d: Doc): Value
    decreases d, 1
  {
    match d
    case DN => N
    case DF(x) => F(x)
    case DS(s) => S(s)
    case DB(b) => B(b)
    case DT(entries) => T(Fill(map[], entries))
  }

  /** The table after inserting the entries in order. */
  function Fill(table: map<Key, Value>, entries: seq<Entry>): map<Key, Value>
    decreases entries, 0
  {
    if entries == [] then table
    else
      var Entry(key, value) := entries[0];
      assert entries[0].value < entries[0];
      Fill(table[key := Meaning(value)], entries[1..])
  }

  // ----- writing

  function Escape(s: seq<byte>): seq<byte> {
    if s == [] then [] else (if s[0] == AT then [AT, DOT] else [s[0]]) + Escape(s[1..])
  }

  function EncodeString(s: seq<byte>): seq<byte> { [AT] + Escape(s) + [AT, TILDE] }

  function EncodeNum(nt: NumText, x: Num): seq<byte> { [NUMBER] + nt.show(x) + [AT] }

  function EncodeBool(b: bool): seq<byte> { [if b then YES else NO] }

  function EncodeKey(nt: NumText, k: Key): seq<byte> {
    match k
    case KF(x) => EncodeNum(nt, x)
    case KS(s) => EncodeString(s)
    case KB(b) => EncodeBool(b)
  }

  function Encode(nt: NumText, d: Doc): seq<byte>
    decreases d, 1
  {
    match d
    case DN => [NIL]
    case DF(x) => EncodeNum(nt, x)
    case DS(s) => EncodeString(s)
    case DB(b) => EncodeBool(b)
    case DT(entries) => [TABLE] + EncodeEntries(nt, entries) + [NIL]
  }

  function EncodeEntries(nt: NumText, entries: seq<Entry>): seq<byte>
    decreases entries, 0
  {
    if entries == [] then []
    else
      var Entry(key, value) := entries[0];
      assert entries[0].value < entries[0];
      EncodeKey(nt, key) + Encode(nt, value) + EncodeEntries(nt, entries[1..])
  }

  // ----- reading: one byte at a time

  datatype State =
    | V
    | InTable(result: map<Key, Value>, key: Option<Key>)
    | InNumber(digits: seq<byte>)
    | InString(chars: seq<byte>, escape: bool)

  datatype Error = InvalidTag(tag: byte) | UnknownEscape(tag: byte) | InvalidNumber | TableAsKey | Rejected

  /** The consumer of complete values: whether it takes the next one, given those before. */
  type Handler = (seq<Value>, Value) -> bool

  datatype Env = Env(nt: NumText, handler: Handler)

  /** The parser between two bytes, or stopped by an error; `out` are the values handed over so far. */
  datatype Outcome = Running(stack: seq<State>, out: seq<Value>) | Failed(error: Error, out: seq<Value>)

  predicate AllTables(stack: seq<State>) {
    forall i :: 0 <= i < |stack| ==> stack[i].InTable?
  }

  /** Open tables below one state that consumes bytes. */
  predicate WellFormed(stack: seq<State>) {
    stack != [] && AllTables(stack[..|stack| - 1]) && !stack[|stack| - 1].InTable?
  }

  function Deliver(env: Env, out: seq<Value>, value: Value): Outcome {
    if env.handler(out, value) then Running([V], out + [value]) else Failed(Rejected, out)
  }

  /** A complete value: it becomes a key or a member of the innermost open table, closes it, or is
      delivered. */
  function Reduce(env: Env, stack: seq<State>, out: seq<Value>, value: Value): (r: Outcome)
    requires AllTables(stack)
    ensures r.Running? ==> WellFormed(r.stack)
  {
    if stack == [] then Deliver(env, out, value)
    else
      var rest, top := stack[..|stack| - 1], stack[|stack| - 1];
      match top.key
      case Some(k) => Running(rest + [InTable(top.result[k := value], None), V], out)
      case None =>
        match value
        case N => Reduce(env, rest, out, T(top.result))
        case F(x) => Running(rest + [InTable(top.result, Some(KF(x))), V], out)
        case S(x) => Running(rest + [InTable(top.result, Some(KS(x))), V], out)
        case B(x) => Running(rest + [InTable(top.result, Some(KB(x))), V], out)
        case T(_) => Failed(TableAsKey, out)
  }

  function Feed1(env: Env, stack: seq<State>, out: seq<Value>, b: byte): (r: Outcome)
    requires WellFormed(stack)
    ensures r.Running? ==> WellFormed(r.stack)
  {
    var rest, top := stack[..|stack| - 1], stack[|stack| - 1];
    match top
    case V =>
      if b == NIL then Reduce(env, rest, out, N)
      else if b == NUMBER then Running(rest + [InNumber([])], out)
      else if b == AT then Running(rest + [InString([], false)], out)
      else if b == YES then Reduce(env, rest, out, B(true))
      else if b == NO then Reduce(env, rest, out, B(false))
      else if b == TABLE then Running(rest + [InTable(map[], None), V], out)
      else Failed(InvalidTag(b), out)
    case InNumber(digits) =>
      if b != AT then Running(rest + [InNumber(digits + [b])], out)
      else (match env.nt.read(digits)
            case Some(x) => Reduce(env, rest, out, F(x))
            case None => Failed(InvalidNumber, out))
    case InString(chars, escape) =>
      if !escape then Running(rest + [if b == AT then InString(chars, true) else InString(chars + [b], false)], out)
      else if b == DOT then Running(rest + [InString(chars + [AT], false)], out)
      else if b == TILDE then Reduce(env, rest, out, S(chars))
      else Failed(UnknownEscape(b), out)
  }

  predicate Valid(o: Outcome) { o.Running? ==> WellFormed(o.stack) }

  function Feed(env: Env, o: Outcome, data: seq<byte>): (r: Outcome)
    requires Valid(o)
    ensures Valid(r)
    decreases |data|
  {
    if data == [] || o.Failed? then o else Feed(env, Feed1(env, o.stack, o.out, data[0]), data[1..])
  }

  function FeedAll(env: Env, o: Outcome, chunks: seq<seq<byte>>): (r: Outcome)
    requires Valid(o)
    ensures Valid(r)
    decreases |chunks|
  {
    if chunks == [] then o else FeedAll(env, Feed(env, o, chunks[0]), chunks[1..])
  }

  function Concat(chunks: seq<seq<byte>>): seq<byte> {
    if chunks == [] then [] else chunks[0] + Concat(chunks[1..])
  }

  const START: Outcome := Running([V], [])

  // ----- pieces of the stream do not matter

  /** For arbitrary bytes: the same values, then the same error or the same stack. */
  lemma {:induction false} FeedAppend(env: Env, o: Outcome, a: seq<byte>, b: seq<byte>)
    requires Valid(o)
    ensures Feed(env, o, a + b) == Feed(env, Feed(env, o, a), b)
    decreases |a|
  {
    if a == [] {
      assert a + b == b;
    } else if o.Running? {
      assert (a + b)[0] == a[0] && (a + b)[1..] == a[1..] + b;
      FeedAppend(env, Feed1(env, o.stack, o.out, a[0]), a[1..], b);
    }
  }

  lemma {:induction false} ChunksDoNotMatter(env: Env, o: Outcome, chunks: seq<seq<byte>>)
    requires Valid(o)
    ensures FeedAll(env, o, chunks) == Feed(env, o, Concat(chunks))
    decreases |chunks|
  {
    if chunks != [] {
      FeedAppend(env, o, chunks[0], Concat(chunks[1..]));
      ChunksDoNotMatter(env, Feed(env, o, chunks[0]), chunks[1..]);
    }
  }

  /** What has been handed over is never taken back. */
  lemma {:induction false} FeedExtends(env: Env, o: Outcome, data: seq<byte>)
    requires Valid(o)
    ensures o.out <= Feed(env, o, data).out
    decreases |data|
  {
    if data != [] && o.Running? {
      var o1 := Feed1(env, o.stack, o.out, data[0]);
      Feed1Extends(env, o.stack, o.out, data[0]);
      FeedExtends(env, o1, data[1..]);
    }
  }

  lemma {:induction false} ReduceExtends(env: Env, stack: seq<State>, out: seq<Value>, value: Value)
    requires AllTables(stack)
    ensures out <= Reduce(env, stack, out, value).out
    decreases |stack|
  {
    if stack != [] {
      var top := stack[|stack| - 1];
      if top.key.None? && value.N? {
        ReduceExtends(env, stack[..|stack| - 1], out, T(top.result));
      }
    }
  }

  lemma Feed1Extends(env: Env, stack: seq<State>, out: seq<Value>, b: byte)
    requires WellFormed(stack)
    ensures out <= Feed1(env, stack, out, b).out
  {
    var rest := stack[..|stack| - 1];
    ReduceExtends(env, rest, out, N);
    ReduceExtends(env, rest, out, B(true));
    ReduceExtends(env, rest, out, B(false));
    match stack[|stack| - 1]
    case InNumber(digits) => if env.nt.read(digits).Some? { ReduceExtends(env, rest, out, F(env.nt.read(digits).value)); }
    case InString(chars, _) => ReduceExtends(env, rest, out, S(chars));
    case _ =>
  }

  // ----- what is written is read back

  lemma {:induction false} FeedDigits(env: Env, stack: seq<State>, out: seq<Value>, digits: seq<byte>, text: seq<byte>)
    requires AllTables(stack) && AT !in text
    ensures Feed(env, Running(stack + [InNumber(digits)], out), text)
         == Running(stack + [InNumber(digits + text)], out)
    decreases |text|
  {
    if text == [] {
      assert digits + text == digits;
    } else {
      assert (digits + [text[0]]) + text[1..] == digits + text;
      FeedDigits(env, stack, out, digits + [text[0]], text[1..]);
      assert Feed1(env, stack + [InNumber(digits)], out, text[0]) == Running(stack + [InNumber(digits + [text[0]])], out);
    }
  }

  lemma {:induction false} FeedChars(env: Env, stack: seq<State>, out: seq<Value>, chars: seq<byte>, text: seq<byte>)
    requires AllTables(stack)
    ensures Feed(env, Running(stack + [InString(chars, false)], out), Escape(text))
         == Running(stack + [InString(chars + text, false)], out)
    decreases |text|
  {
    if text == [] {
      assert chars + text == chars;
    } else {
      var o := Running(stack + [InString(chars, false)], out);
      var head := if text[0] == AT then [AT, DOT] else [text[0]];
      FeedOne(env, o.stack, out, text[0]);
      if text[0] == AT {
        assert [AT] + [DOT] == head;
        FeedAppend(env, o, [AT], [DOT]);
        FeedOne(env, stack + [InString(chars, true)], out, DOT);
      }
      assert (chars + [text[0]]) + text[1..] == chars + text;
      FeedAppend(env, o, head, Escape(text[1..]));
      FeedChars(env, stack, out, chars + [text[0]], text[1..]);
    }
  }

  lemma FeedNumber(env: Env, stack: seq<State>, out: seq<Value>, x: Num)
    requires AllTables(stack) && env.nt.Faithful()
    ensures Feed(env, Running(stack + [V], out), EncodeNum(env.nt, x)) == Reduce(env, stack, out, F(x))
  {
    var o, text := Running(stack + [V], out), env.nt.show(x);
    FeedAppend(env, o, [NUMBER], text + [AT]);
    assert [NUMBER] + (text + [AT]) == EncodeNum(env.nt, x);
    FeedOne(env, stack + [V], out, NUMBER);
    FeedAppend(env, Running(stack + [InNumber([])], out), text, [AT]);
    FeedDigits(env, stack, out, [], text);
    assert [] + text == text;
    FeedOne(env, stack + [InNumber(text)], out, AT);
  }

  lemma FeedOne(env: Env, stack: seq<State>, out: seq<Value>, b: byte)
    requires WellFormed(stack)
    ensures Feed(env, Running(stack, out), [b]) == Feed1(env, stack, out, b)
  {}

  lemma FeedString(env: Env, stack: seq<State>, out: seq<Value>, text: seq<byte>)
    requires AllTables(stack)
    ensures Feed(env, Running(stack + [V], out), EncodeString(text)) == Reduce(env, stack, out, S(text))
  {
    var o := Running(stack + [V], out);
    FeedAppend(env, o, [AT], Escape(text) + [AT, TILDE]);
    assert [AT] + (Escape(text) + [AT, TILDE]) == EncodeString(text);
    FeedOne(env, stack + [V], out, AT);
    FeedAppend(env, Running(stack + [InString([], false)], out), Escape(text), [AT, TILDE]);
    FeedChars(env, stack, out, [], text);
    assert [] + text == text;
    EndString(env, stack, out, text);
  }

  lemma EndString(env: Env, stack: seq<State>, out: seq<Value>, text: seq<byte>)
    requires AllTables(stack)
    ensures Feed(env, Running(stack + [InString(text, false)], out), [AT, TILDE]) == Reduce(env, stack, out, S(text))
  {
    var o := Running(stack + [InString(text, false)], out);
    FeedAppend(env, o, [AT], [TILDE]);
    assert [AT] + [TILDE] == [AT, TILDE];
    FeedOne(env, o.stack, out, AT);
    FeedOne(env, stack + [InString(text, true)], out, TILDE);
  }

  lemma FeedKey(env: Env, stack: seq<State>, out: seq<Value>, table: map<Key, Value>, k: Key)
    requires AllTables(stack) && env.nt.Faithful()
    ensures Feed(env, Running(stack + [InTable(table, None), V], out), EncodeKey(env.nt, k))
         == Running(stack + [InTable(table, Some(k)), V], out)
  {
    var stack1 := stack + [InTable(table, None)];
    assert stack + [InTable(table, None), V] == stack1 + [V];
    assert stack1[..|stack1| - 1] == stack;
    match k
    case KF(x) => FeedNumber(env, stack1, out, x);
    case KS(text) => FeedString(env, stack1, out, text);
    case KB(bit) => FeedOne(env, stack1 + [V], out, if bit then YES else NO);
  }

  /** Wherever a value may stand, reading its encoding amounts to completing that value. */
  lemma {:induction false} FeedDoc(env: Env, stack: seq<State>, out: seq<Value>, d: Doc)
    requires AllTables(stack) && env.nt.Faithful()
    ensures Feed(env, Running(stack + [V], out), Encode(env.nt, d)) == Reduce(env, stack, out, Meaning(d))
    decreases d, 1
  {
    match d
    case DN => FeedOne(env, stack + [V], out, NIL);
    case DF(x) => FeedNumber(env, stack, out, x);
    case DS(text) => FeedString(env, stack, out, text);
    case DB(bit) => FeedOne(env, stack + [V], out, if bit then YES else NO);
    case DT(entries) => FeedTable(env, stack, out, entries);
  }

  lemma {:induction false} FeedTable(env: Env, stack: seq<State>, out: seq<Value>, entries: seq<Entry>)
    requires AllTables(stack) && env.nt.Faithful()
    ensures Feed(env, Running(stack + [V], out), [TABLE] + EncodeEntries(env.nt, entries) + [NIL])
         == Reduce(env, stack, out, T(Fill(map[], entries)))
    decreases entries, 1
  {
    var o, body := Running(stack + [V], out), EncodeEntries(env.nt, entries);
    var inside := Running(stack + [InTable(map[], None), V], out);
    assert [TABLE] + (body + [NIL]) == [TABLE] + body + [NIL];
    FeedAppend(env, o, [TABLE], body + [NIL]);
    OpenTable(env, stack, out);
    FeedAppend(env, inside, body, [NIL]);
    FeedEntries(env, stack, out, map[], entries);
    CloseTable(env, stack, out, Fill(map[], entries));
  }

  lemma OpenTable(env: Env, stack: seq<State>, out: seq<Value>)
    requires AllTables(stack)
    ensures Feed(env, Running(stack + [V], out), [TABLE]) == Running(stack + [InTable(map[], None), V], out)
  {
    FeedOne(env, stack + [V], out, TABLE);
  }

  lemma CloseTable(env: Env, stack: seq<State>, out: seq<Value>, table: map<Key, Value>)
    requires AllTables(stack)
    ensures Feed(env, Running(stack + [InTable(table, None), V], out), [NIL]) == Reduce(env, stack, out, T(table))
  {
    var open := stack + [InTable(table, None)];
    assert stack + [InTable(table, None), V] == open + [V];
    assert open[..|open| - 1] == stack;
    FeedOne(env, open + [V], out, NIL);
  }

  lemma {:induction false} FeedEntries(env: Env, stack: seq<State>, out: seq<Value>, table: map<Key, Value>,
                                       entries: seq<Entry>)
    requires AllTables(stack) && env.nt.Faithful()
    ensures Feed(env, Running(stack + [InTable(table, None), V], out), EncodeEntries(env.nt, entries))
         == Running(stack + [InTable(Fill(table, entries), None), V], out)
    decreases entries, 0
  {
    if entries != [] {
      var Entry(key, value) := entries[0];
      assert entries[0].value < entries[0];
      var k, v, rest := EncodeKey(env.nt, key), Encode(env.nt, value), EncodeEntries(env.nt, entries[1..]);
      var o := Running(stack + [InTable(table, None), V], out);
      assert (k + v) + rest == k + (v + rest);
      FeedAppend(env, o, k, v + rest);
      FeedKey(env, stack, out, table, key);
      var stack1 := stack + [InTable(table, Some(key))];
      assert stack + [InTable(table, Some(key)), V] == stack1 + [V];
      FeedAppend(env, Running(stack1 + [V], out), v, rest);
      FeedDoc(env, stack1, out, value);
      assert stack1[..|stack1| - 1] == stack;
      FeedEntries(env, stack, out, table[key := Meaning(value)], entries[1..]);
    }
  }

  // ----- the round trip

  function EncodeAll(nt: NumText, docs: seq<Doc>): seq<byte> {
    if docs == [] then [] else Encode(nt, docs[0]) + EncodeAll(nt, docs[1..])
  }

  function Meanings(docs: seq<Doc>): (values: seq<Value>)
    ensures |values| == |docs| && forall i :: 0 <= i < |docs| ==> values[i] == Meaning(docs[i])
  {
    if docs == [] then [] else [Meaning(docs[0])] + Meanings(docs[1..])
  }

  /** Handing values over one by one, until the consumer refuses one. */
  function DeliverAll(env: Env, out: seq<Value>, values: seq<Value>): Outcome
    decreases |values|
  {
    if values == [] then Running([V], out)
    else
      var o := Deliver(env, out, values[0]);
      if o.Failed? then o else DeliverAll(env, o.out, values[1..])
  }

  lemma {:induction false} FeedDocs(env: Env, out: seq<Value>, docs: seq<Doc>)
    requires env.nt.Faithful()
    ensures Feed(env, Running([V], out), EncodeAll(env.nt, docs)) == DeliverAll(env, out, Meanings(docs))
    decreases |docs|
  {
    if docs != [] {
      var o := Running([V], out);
      FeedAppend(env, o, Encode(env.nt, docs[0]), EncodeAll(env.nt, docs[1..]));
      assert [] + [V] == [V];
      FeedDoc(env, [], out, docs[0]);
      assert Meanings(docs)[1..] == Meanings(docs[1..]);
      if env.handler(out, Meaning(docs[0])) {
        FeedDocs(env, out + [Meaning(docs[0])], docs[1..]);
      }
    }
  }

  /** Any values, written one after the other with their tables walked in any order, and cut into any
      pieces: the consumer gets exactly these values, and the parser ends as it started. */
  lemma RoundTrip(env: Env, docs: seq<Doc>, chunks: seq<seq<byte>>)
    requires env.nt.Faithful() && Concat(chunks) == EncodeAll(env.nt, docs)
    ensures FeedAll(env, START, chunks) == DeliverAll(env, [], Meanings(docs))
    ensures (forall out, v :: env.handler(out, v)) ==> FeedAll(env, START, chunks) == Running([V], Meanings(docs))
  {
    ChunksDoNotMatter(env, START, chunks);
    FeedDocs(env, [], docs);
    if forall out, v :: env.handler(out, v) {
      DeliverAllAccepted(env, [], Meanings(docs));
      assert [] + Meanings(docs) == Meanings(docs);
    }
  }

  lemma {:induction false} DeliverAllAccepted(env: Env, out: seq<Value>, values: seq<Value>)
    requires forall o, v :: env.handler(o, v)
    ensures DeliverAll(env, out, values) == Running([V], out + values)
    decreases |values|
  {
    if values == [] {
      assert out + values == out;
    } else {
      assert (out + [values[0]]) + values[1..] == out + values;
      DeliverAllAccepted(env, out + [values[0]], values[1..]);
    }
  }

  /** A stream that has only partly arrived has handed over the first values and no others. */
  lemma PrefixDelivers(env: Env, docs: seq<Doc>, seen: seq<byte>)
    requires env.nt.Faithful() && (forall out, v :: env.handler(out, v)) && seen <= EncodeAll(env.nt, docs)
    ensures Feed(env, START, seen).Running?
    ensures Feed(env, START, seen).out <= Meanings(docs)
    ensures seen == EncodeAll(env.nt, docs) ==> Feed(env, START, seen).out == Meanings(docs)
  {
    var all := EncodeAll(env.nt, docs);
    var tail := all[|seen|..];
    assert seen + tail == all;
    FeedAppend(env, START, seen, tail);
    FeedExtends(env, Feed(env, START, seen), tail);
    FeedDocs(env, [], docs);
    DeliverAllAccepted(env, [], Meanings(docs));
    assert [] + Meanings(docs) == Meanings(docs);
  }

  /** Different values are never written alike, however their tables are walked. */
  lemma EncodingIsUnambiguous(nt: NumText, d: Doc, e: Doc)
    requires nt.Faithful() && Encode(nt, d) == Encode(nt, e)
    ensures Meaning(d) == Meaning(e)
  {
    FeedAlone(nt, d);
    FeedAlone(nt, e);
    assert [Meaning(d)][0] == [Meaning(e)][0];
  }

  const TakeAll: Handler := (out, v) => true

  lemma FeedAlone(nt: NumText, d: Doc)
    requires nt.Faithful()
    ensures Feed(Env(nt, TakeAll), START, Encode(nt, d)) == Running([V], [Meaning(d)])
  {
    var env := Env(nt, TakeAll);
    FeedDoc(env, [], [], d);
    assert [] + [V] == [V] && [] + [Meaning(d)] == [Meaning(d)];
    assert Deliver(env, [], Meaning(d)) == Running([V], [] + [Meaning(d)]);
  }

  /** A walk visits each key of each table once. */
  predicate IsWalk(d: Doc)
    decreases d, 1
  {
    d.DT? ==> WalksOnce(d.entries)
  }

  predicate WalksOnce(entries: seq<Entry>)
    decreases entries, 0
  {
    entries != [] ==>
      var Entry(key, value) := entries[0];
      assert entries[0].value < entries[0];
      IsWalk(value) && WalksOnce(entries[1..]) && forall i :: 1 <= i < |entries| ==> entries[i].key != key
  }

  /** Every value has a walk, so the round trip covers every value. */
  lemma {:induction false} EveryValueHasAWalk(v: Value) returns (d: Doc)
    ensures Meaning(d) == v && IsWalk(d)
    decreases v, 1
  {
    match v
    case N => d := DN;
    case F(x) => d := DF(x);
    case S(x) => d := DS(x);
    case B(x) => d := DB(x);
    case T(table) =>
      var entries := WalkOf(v, table.Keys);
      assert table == map k | k in table.Keys :: table[k];
      d := DT(entries);
  }

  lemma {:induction false} WalkOf(v: Value, keys: set<Key>) returns (entries: seq<Entry>)
    requires v.T? && keys <= v.table.Keys
    ensures WalksOnce(entries) && forall i :: 0 <= i < |entries| ==> entries[i].key in keys
    ensures forall start :: Fill(start, entries) == start + map k | k in keys :: v.table[k]
    decreases v, 0, |keys|
  {
    if keys == {} {
      entries := [];
    } else {
      var k :| k in keys;
      var d := EveryValueHasAWalk(v.table[k]);
      var rest := WalkOf(v, keys - {k});
      entries := [Entry(k, d)] + rest;
      assert entries[1..] == rest;
      forall start ensures Fill(start, entries) == start + map x | x in keys :: v.table[x] {
        assert Fill(start, entries) == Fill(start[k := v.table[k]], rest);
      }
    }
  }

  // ----- the program's writer and parser

  lemma {:induction false} EscapeAppend(a: seq<byte>, b: seq<byte>)
    ensures Escape(a + b) == Escape(a) + Escape(b)
  {
    if a == [] {
      assert a + b == b;
    } else {
      assert (a + b)[1..] == a[1..] + b;
      EscapeAppend(a[1..], b);
    }
  }

  lemma {:induction false} EncodeEntriesAppend(nt: NumText, a: seq<Entry>, b: seq<Entry>)
    ensures EncodeEntries(nt, a + b) == EncodeEntries(nt, a) + EncodeEntries(nt, b)
    decreases |a|
  {
    if a == [] {
      assert a + b == b;
    } else {
      assert (a + b)[1..] == a[1..] + b;
      EncodeEntriesAppend(nt, a[1..], b);
    }
  }

  method SerializeString(x: seq<byte>, out: seq<byte>) returns (r: seq<byte>)
    ensures r == out + EncodeString(x)
  {
    r := out + [AT];
    for i := 0 to |x|
      invariant r == out + ([AT] + Escape(x[..i]))
    {
      assert x[..i + 1] == x[..i] + [x[i]];
      EscapeAppend(x[..i], [x[i]]);
      r := r + [x[i]];
      if x[i] == AT {
        r := r + [DOT];
      }
    }
    assert x[..|x|] == x;
    r := r + [AT, TILDE];
  }

  method SerializeKey(nt: NumText, k: Key, out: seq<byte>) returns (r: seq<byte>)
    ensures r == out + EncodeKey(nt, k)
  {
    match k
    case KF(x) => r := out + [NUMBER] + nt.show(x) + [AT];
    case KS(x) => r := SerializeString(x, out);
    case KB(x) => r := out + [if x then YES else NO];
  }

  lemma Regroup(a: seq<byte>, b: seq<byte>, c: seq<byte>, d: seq<byte>)
    ensures ((a + b) + c) + d == a + (b + (c + d))
  {}

  lemma SerializedEntry(nt: NumText, entries: seq<Entry>, i: nat)
    requires i < |entries|
    ensures EncodeEntries(nt, entries[..i + 1])
         == EncodeEntries(nt, entries[..i]) + (EncodeKey(nt, entries[i].key) + Encode(nt, entries[i].value))
  {
    assert entries[..i + 1] == entries[..i] + [entries[i]];
    EncodeEntriesAppend(nt, entries[..i], [entries[i]]);
    assert EncodeEntries(nt, [entries[i]][1..]) == [];
  }

  method Serialize(nt: NumText, d: Doc, out: seq<byte>) returns (r: seq<byte>)
    ensures r == out + Encode(nt, d)
    decreases d, 1
  {
    match d
    case DN => r := out + [NIL];
    case DF(x) => r := out + [NUMBER] + nt.show(x) + [AT];
    case DS(x) => r := SerializeString(x, out);
    case DB(x) => r := out + [if x then YES else NO];
    case DT(entries) =>
      r := SerializeEntries(nt, entries, out + [TABLE]);
      r := r + [NIL];
  }

  method SerializeEntries(nt: NumText, entries: seq<Entry>, out: seq<byte>) returns (r: seq<byte>)
    ensures r == out + EncodeEntries(nt, entries)
    decreases entries, 0
  {
    r := out;
    for i := 0 to |entries|
      invariant r == out + EncodeEntries(nt, entries[..i])
    {
      assert entries[i].value < entries[i];
      SerializedEntry(nt, entries, i);
      r := SerializeKey(nt, entries[i].key, r);
      r := Serialize(nt, entries[i].value, r);
      Regroup(out, EncodeEntries(nt, entries[..i]), EncodeKey(nt, entries[i].key), Encode(nt, entries[i].value));
    }
    assert entries[..|entries|] == entries;
  }

  /** What consuming data[from..next] has done to the stack: it stopped with the error that the
      specification gives for all of the rest, or what remains is to be consumed in the new state. */
  ghost predicate Progress(env: Env, before: Outcome, data: seq<byte>, from: nat, next: nat, after: Outcome)
    requires from <= |data| && next <= |data| && Valid(before)
  {
    var r := Feed(env, before, data[from..]);
    match after
    case Failed(_, _) => r == after
    case Running(stack, _) => WellFormed(stack) && r == Feed(env, after, data[next..])
  }

  /** The parser object of a connection. Values go to the handler as soon as they are complete;
      `delivered` records them. After an error the connection is dropped. */
  class Parser {
    var stack: seq<State>
    var delivered: seq<Value>

    ghost function Abs(error: Option<Error>): Outcome
      reads this
    {
      if error.Some? then Failed(error.value, delivered) else Running(stack, delivered)
    }

    constructor ()
      ensures Abs(None) == START
    {
      stack, delivered := [V], [];
    }

    method ReduceValue(env: Env, v: Value) returns (error: Option<Error>)
      requires AllTables(stack)
      modifies this
      ensures Abs(error) == Reduce(env, old(stack), old(delivered), v)
    {
      var value := v;
      while true
        invariant AllTables(stack) && delivered == old(delivered)
        invariant Reduce(env, stack, delivered, value) == Reduce(env, old(stack), old(delivered), v)
        decreases |stack|
      {
        if stack == [] {
          if !env.handler(delivered, value) {
            return Some(Rejected);
          }
          delivered := delivered + [value];
          stack := [V];
          return None;
        }
        var top := stack[|stack| - 1];
        stack := stack[..|stack| - 1];
        if top.key.Some? {
          stack := stack + [InTable(top.result[top.key.value := value], None)];
        } else {
          match value {
            case N =>
              value := T(top.result);
              continue;
            case F(x) => stack := stack + [InTable(top.result, Some(KF(x)))];
            case S(x) => stack := stack + [InTable(top.result, Some(KS(x)))];
            case B(x) => stack := stack + [InTable(top.result, Some(KB(x)))];
            case T(_) => return Some(TableAsKey);
          }
        }
        stack := stack + [V];
        return None;
      }
    }

    method ShiftTag(env: Env, data: seq<byte>, i: nat) returns (error: Option<Error>)
      requires i < |data| && AllTables(stack)
      modifies this
      ensures Progress(env, Running(old(stack) + [V], old(delivered)), data, i, i + 1, Abs(error))
    {
      assert data[i..][1..] == data[i + 1..];
      var x := data[i];
      if x == NIL {
        error := ReduceValue(env, N);
      } else if x == NUMBER {
        stack := stack + [InNumber([])];
        error := None;
      } else if x == AT {
        stack := stack + [InString([], false)];
        error := None;
      } else if x == YES || x == NO {
        error := ReduceValue(env, B(x == YES));
      } else if x == TABLE {
        assert stack + [InTable(map[], None), V] == stack + [InTable(map[], None)] + [V];
        stack := stack + [InTable(map[], None)];
        stack := stack + [V];
        error := None;
      } else {
        error := Some(InvalidTag(x));
      }
    }

    method ShiftNumber(env: Env, digits: seq<byte>, data: seq<byte>, from: nat)
      returns (i: nat, error: Option<Error>)
      requires from < |data| && AllTables(stack)
      modifies this
      ensures from < i <= |data|
      ensures Progress(env, Running(old(stack) + [InNumber(digits)], old(delivered)), data, from, i, Abs(error))
    {
      i := from;
      error := None;
      var result := digits;
      while i < |data|
        invariant from <= i <= |data| && (i == from ==> from < |data|)
        invariant stack == old(stack) && delivered == old(delivered)
        invariant Feed(env, Running(stack + [InNumber(result)], delivered), data[i..])
               == Feed(env, Running(stack + [InNumber(digits)], delivered), data[from..])
      {
        assert data[i..][1..] == data[i + 1..];
        var x := data[i];
        i := i + 1;
        if x == AT {
          var number := env.nt.read(result);
          if number.None? {
            error := Some(InvalidNumber);
          } else {
            error := ReduceValue(env, F(number.value));
          }
          return;
        } else {
          result := result + [x];
        }
      }
      stack := stack + [InNumber(result)];
    }

    method ShiftString(env: Env, chars: seq<byte>, esc: bool, data: seq<byte>, from: nat)
      returns (i: nat, error: Option<Error>)
      requires from < |data| && AllTables(stack)
      modifies this
      ensures from < i <= |data|
      ensures Progress(env, Running(old(stack) + [InString(chars, esc)], old(delivered)), data, from, i, Abs(error))
    {
      i := from;
      error := None;
      var result, escape := chars, esc;
      while i < |data|
        invariant from <= i <= |data| && (i == from ==> from < |data|)
        invariant stack == old(stack) && delivered == old(delivered)
        invariant Feed(env, Running(stack + [InString(result, escape)], delivered), data[i..])
               == Feed(env, Running(stack + [InString(chars, esc)], delivered), data[from..])
      {
        assert data[i..][1..] == data[i + 1..];
        var x := data[i];
        i := i + 1;
        if escape {
          if x == DOT {
            result := result + [AT];
            escape := false;
          } else if x == TILDE {
            error := ReduceValue(env, S(result));
            return;
          } else {
            error := Some(UnknownEscape(x));
            return;
          }
        } else if x == AT {
          escape := true;
        } else {
          result := result + [x];
        }
      }
      stack := stack + [InString(result, escape)];
    }

    /** Consumes a piece of the stream. The states below the innermost one are always open tables, so
        the stack is never empty and never shows a table where a byte is to be read. */
    method Shift(env: Env, data: seq<byte>) returns (error: Option<Error>)
      requires WellFormed(stack)
      modifies this
      ensures Abs(error) == Feed(env, old(Abs(None)), data)
      ensures error == None ==> WellFormed(stack)
    {
      var i := 0;
      error := None;
      assert data[0..] == data;
      while i < |data| && error.None?
        invariant i <= |data|
        invariant Progress(env, old(Abs(None)), data, 0, i, Abs(error))
        decreases |data| - i, error.None?
      {
        var top := stack[|stack| - 1];
        assert stack == stack[..|stack| - 1] + [top];
        stack := stack[..|stack| - 1];
        match top {
          case V =>
            error := ShiftTag(env, data, i);
            i := i + 1;
          case InNumber(digits) => i, error := ShiftNumber(env, digits, data, i);
          case InString(chars, escape) => i, error := ShiftString(env, chars, escape, data, i);
        }
      }
    }
  }
}
