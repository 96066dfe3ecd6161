/** The wire format byte by byte, as both ends must have it (server/RustImpl/src/lua_value.rs and client/client.lua): what is
    written for each kind of value, and what each byte does wherever it arrives. */
module Wire {
  import opened Common
  import opened LuaValue

  // ----- writing

  /** Booleans are '+' and '-', nothing is '!'; a number stands between '#' and '@', a string between '@' and '@~', the members
      of a table between '=' and '!'. */
  lemma WrittenBytes(nt: NumText, d: Doc)
    ensures d == DN ==> Encode(nt, d) == [0x21]
    ensures d == DB(true) ==> Encode(nt, d) == [0x2B]
    ensures d == DB(false) ==> Encode(nt, d) == [0x2D]
    ensures d.DF? ==> Encode(nt, d) == [0x23] + nt.show(d.num) + [0x40]
    ensures d.DS? ==> Encode(nt, d) == [0x40] + Escape(d.text) + [0x40, 0x7E]
    ensures d.DT? ==> Encode(nt, d) == [0x3D] + EncodeEntries(nt, d.entries) + [0x21]
  {}

  /** Inside a string only '@' is written differently, as '@.'. */
  lemma {:induction false} EscapedBytes(a: seq<byte>, b: seq<byte>)
    ensures Escape(a + b) == Escape(a) + Escape(b)
    ensures Escape([0x40]) == [0x40, 0x2E] && (0x40 !in a ==> Escape(a) == a)
    decreases |a|
  {
    if a == [] {
      assert a + b == b;
    } else {
      assert (a + b)[0] == a[0] && (a + b)[1..] == a[1..] + b;
      EscapedBytes(a[1..], b);
      assert a == [a[0]] + a[1..];
    }
  }

  /** A key is written as the value that it is. */
  function AsDoc(k: Key): Doc {
    match k
    case KF(x) => DF(x)
    case KS(s) => DS(s)
    case KB(b) => DB(b)
  }

  /** The members of a table are written one after the other, each key before its value. */
  lemma WrittenMembers(nt: NumText, e: Entry, rest: seq<Entry>)
    ensures EncodeEntries(nt, []) == []
    ensures EncodeEntries(nt, [e] + rest) == Encode(nt, AsDoc(e.key)) + Encode(nt, e.value) + EncodeEntries(nt, rest)
  {
    assert ([e] + rest)[0] == e && ([e] + rest)[1..] == rest;
  }

  // ----- reading

  /** Where a value may begin, the first byte says which kind it is; no other byte may stand there. */
  lemma FirstByte(env: Env, stack: seq<State>, out: seq<Value>, b: byte)
    requires AllTables(stack)
    ensures b == 0x21 ==> Feed1(env, stack + [V], out, b) == Reduce(env, stack, out, N)
    ensures b == 0x2B ==> Feed1(env, stack + [V], out, b) == Reduce(env, stack, out, B(true))
    ensures b == 0x2D ==> Feed1(env, stack + [V], out, b) == Reduce(env, stack, out, B(false))
    ensures b == 0x23 ==> Feed1(env, stack + [V], out, b) == Running(stack + [InNumber([])], out)
    ensures b == 0x40 ==> Feed1(env, stack + [V], out, b) == Running(stack + [InString([], false)], out)
    ensures b == 0x3D ==> Feed1(env, stack + [V], out, b) == Running(stack + [InTable(map[], None), V], out)
    ensures b !in {0x21, 0x2B, 0x2D, 0x23, 0x40, 0x3D} ==> Feed1(env, stack + [V], out, b) == Failed(InvalidTag(b), out)
  {
    assert (stack + [V])[..|stack|] == stack;
  }

  /** A number goes on until '@'. */
  lemma ByteOfNumber(env: Env, stack: seq<State>, out: seq<Value>, digits: seq<byte>, b: byte)
    requires AllTables(stack)
    ensures b != 0x40 ==> Feed1(env, stack + [InNumber(digits)], out, b) == Running(stack + [InNumber(digits + [b])], out)
    ensures b == 0x40 ==> Feed1(env, stack + [InNumber(digits)], out, b)
                          == match env.nt.read(digits)
                             case Some(x) => Reduce(env, stack, out, F(x))
                             case None => Failed(InvalidNumber, out)
  {
    assert (stack + [InNumber(digits)])[..|stack|] == stack;
  }

  /** In a string '@.' is an '@', '@~' is its end, and '@' before any other byte is wrong. */
  lemma BytesOfString(env: Env, stack: seq<State>, out: seq<Value>, chars: seq<byte>, b: byte)
    requires AllTables(stack)
    ensures b != 0x40 ==>
      Feed(env, Running(stack + [InString(chars, false)], out), [b]) == Running(stack + [InString(chars + [b], false)], out)
    ensures Feed(env, Running(stack + [InString(chars, false)], out), [0x40, 0x2E])
         == Running(stack + [InString(chars + [0x40], false)], out)
    ensures Feed(env, Running(stack + [InString(chars, false)], out), [0x40, 0x7E]) == Reduce(env, stack, out, S(chars))
    ensures b != 0x2E && b != 0x7E ==>
      Feed(env, Running(stack + [InString(chars, false)], out), [0x40, b]) == Failed(UnknownEscape(b), out)
  {
    var plain, escape := stack + [InString(chars, false)], stack + [InString(chars, true)];
    assert plain[..|stack|] == stack && escape[..|stack|] == stack;
    FeedOne(env, plain, out, b);
    AfterAt(env, stack, out, chars, 0x2E);
    AfterAt(env, stack, out, chars, 0x7E);
    AfterAt(env, stack, out, chars, b);
  }

  lemma AfterAt(env: Env, stack: seq<State>, out: seq<Value>, chars: seq<byte>, b: byte)
    requires AllTables(stack)
    ensures Feed(env, Running(stack + [InString(chars, false)], out), [0x40, b])
         == Feed1(env, stack + [InString(chars, true)], out, b)
  {
    var o := Running(stack + [InString(chars, false)], out);
    assert [0x40] + [b] == [0x40, b] && (stack + [InString(chars, false)])[..|stack|] == stack;
    FeedAppend(env, o, [0x40], [b]);
    FeedOne(env, o.stack, out, 0x40);
    FeedOne(env, stack + [InString(chars, true)], out, b);
  }

  /** From the start one byte is a whole boolean. */
  lemma BooleanArrives(env: Env, b: bool)
    requires env.handler([], B(b))
    ensures Feed(env, START, [if b then 0x2B else 0x2D]) == Running([V], [B(b)])
  {
    FeedOne(env, [V], [], if b then 0x2B else 0x2D);
    assert [V] == [] + [V];
    FirstByte(env, [], [], if b then 0x2B else 0x2D);
  }

  /** A table with one member, {a = true}, as it goes over the wire. */
  lemma TableArrives(env: Env)
    requires env.nt.Faithful() && env.handler([], T(map[KS([0x61]) := B(true)]))
    ensures Encode(env.nt, DT([Entry(KS([0x61]), DB(true))])) == [0x3D, 0x40, 0x61, 0x40, 0x7E, 0x2B, 0x21]
    ensures Feed(env, START, [0x3D, 0x40, 0x61, 0x40, 0x7E, 0x2B, 0x21]) == Running([V], [T(map[KS([0x61]) := B(true)])])
  {
    var e := Entry(KS([0x61]), DB(true));
    var d := DT([e]);
    assert [e] + [] == [e];
    WrittenMembers(env.nt, e, []);
    WrittenBytes(env.nt, d);
    WrittenBytes(env.nt, DS([0x61]));
    EscapedBytes([0x61], []);
    FeedDoc(env, [], [], d);
    assert [V] == [] + [V];
    assert Fill(map[], [e]) == Fill(map[KS([0x61]) := B(true)], [e][1..]);
  }
}
