/**
 * The control channel's framing (lib/message.js): a five-byte header with the
 * body's length, then JSON. The parser keeps a buffer and a small state between
 * chunks; the main theorem is that however a stream of messages is cut into
 * chunks, each is delivered with the chunk that completes it.
 */
module Framing {
  import opened Common

  const MAGIC: u8 := 0x33

  /** 0: expecting a header; 1: expecting `bodylength` bytes; 2: bad magic seen, the next chunk is thrown away. */
  datatype Parser = Parser(state: nat, buffer: Bytes, bodylength: int)

  function NewState(): Parser { Parser(0, [], 0) }

  /** `Buffer.slice`: negative offsets count from the end, and everything is clamped. */
  function Offset(n: nat, i: int): (o: nat)
    ensures o <= n
  {
    if i < 0 then if n + i < 0 then 0 else n + i else if i > n then n else i
  }

  function ReadInt16BE(hi: u8, lo: u8): int {
    var v := hi * 0x100 + lo;
    if v >= 0x8000 then v - 0x1_0000 else v
  }

  /** `createmessage` on an already serialised body; `writeInt16BE` throws when the length does not fit. */
  function CreateMessage(body: Bytes): Option<Bytes> {
    if |body| > 0x7fff then None else Some(Frame(body))
  }

  function Frame(body: Bytes): Bytes
    requires |body| <= 0x7fff
  {
    [MAGIC, 0, 0, |body| / 0x100, |body| % 0x100] + body
  }

  function LookForPacketStart(p: Parser): Parser {
    if p.state == 0 && |p.buffer| >= 5 then
      var rest := p.buffer[5..];
      if p.buffer[0] == MAGIC then Parser(1, rest, ReadInt16BE(p.buffer[3], p.buffer[4])) else Parser(2, rest, p.bodylength)
    else p
  }

  /** Whether a body, as far as its length is known, has arrived. */
  predicate BodyHere(p: Parser) { p.state == 1 && p.buffer != [] && |p.buffer| >= p.bodylength }

  function Body(p: Parser): Bytes { p.buffer[..Offset(|p.buffer|, p.bodylength)] }

  function Trimmed(p: Parser): Parser { p.(state := 0, buffer := p.buffer[Offset(|p.buffer|, p.bodylength)..]) }

  /** What is left to parse; a header or a body taken off makes it smaller. */
  function Measure(p: Parser): nat { 2 * |p.buffer| + if p.state == 1 then 1 else 0 }

  /** `parsemessage`: the new state and the bodies delivered. `json` says which bodies JSON.parse accepts. */
  function Parse(json: Bytes -> bool, p: Parser, data: Bytes): (Parser, seq<Bytes>)
    decreases Measure(p.(buffer := p.buffer + data))
  {
    if p.state == 2 then (p.(state := 0), [])
    else
      var p1 := LookForPacketStart(p.(buffer := p.buffer + data));
      if !BodyHere(p1) || !json(Body(p1)) then (if BodyHere(p1) then Trimmed(p1) else p1, [])
      else
        assert Trimmed(p1).buffer + [] == Trimmed(p1).buffer;
        var (p2, bodies) := Parse(json, Trimmed(p1), []);
        (p2, [Body(p1)] + bodies)
  }

  class MessageState {
    var state: nat
    var buffer: Bytes
    var bodylength: int

    function Model(): Parser
      reads this
    {
      Parser(state, buffer, bodylength)
    }

    constructor ()
      ensures Model() == NewState()
    {
      state, buffer, bodylength := 0, [], 0;
    }

    method FindStart()
      modifies this
      ensures Model() == LookForPacketStart(old(Model()))
    {
      if state == 0 && 5 <= |buffer| {
        var dataheader := buffer[..5];
        buffer := buffer[5..];
        if dataheader[0] == MAGIC {
          bodylength := ReadInt16BE(dataheader[3], dataheader[4]);
          state := 1;
        } else {
          state := 2;
        }
      }
    }

    method TrimAndCallback(json: Bytes -> bool) returns (delivered: seq<Bytes>)
      requires state != 2 && (state == 0 ==> |buffer| < 5)
      modifies this
      ensures (Model(), delivered) == Parse(json, old(Model()), [])
      decreases Measure(Model()), 0
    {
      assert buffer + [] == buffer;
      delivered := [];
      if state == 1 && 0 < |buffer| {
        if |buffer| >= bodylength {
          state := 0;
          var msgbody := buffer[..Offset(|buffer|, bodylength)];
          buffer := buffer[Offset(|buffer|, bodylength)..];
          assert Model() == Trimmed(old(Model()));
          assert buffer + [] == buffer;
          if json(msgbody) {
            delivered := ParseMessage([], json);
            delivered := [msgbody] + delivered;
          }
        }
      }
    }

    method ParseMessage(newdata: Bytes, json: Bytes -> bool) returns (delivered: seq<Bytes>)
      modifies this
      ensures (Model(), delivered) == Parse(json, old(Model()), newdata)
      decreases Measure(Model().(buffer := buffer + newdata)), 1
    {
      if state == 2 {
        state := 0;
        return [];
      }
      buffer := buffer + newdata;
      FindStart();
      if state == 2 { return []; }
      assert buffer + [] == buffer;
      delivered := TrimAndCallback(json);
    }
  }

  // ---- The bytes of a message ----

  /** What `createmessage` writes: 0x33, two zeros, the length in two bytes, the higher first, and the body. */
  lemma MessageBytes(body: Bytes)
    ensures CreateMessage(body).None? <==> |body| > 32767
    ensures CreateMessage(body).Some? ==>
              var m := CreateMessage(body).value;
              && |m| == 5 + |body| && m[0] == 0x33 && m[1] == m[2] == 0 && 256 * (m[3] as int) + m[4] as int == |body|
              && m[3] < 0x80 && m[5..] == body
  {
  }

  /** How much of the bytes at hand a body of this length is: below 0, all but that many at the end. */
  function BodyBytes(length: int, here: nat): nat {
    if length >= 0 then length else if here + length >= 0 then here + length else 0
  }

  /** One call on a parser that expects a header, in bytes: b is all it holds, and 32768 on in its length is below 0. */
  lemma ParseIs(json: Bytes -> bool, p: Parser, data: Bytes)
    requires p.state == 0
    ensures var b, out := p.buffer + data, Parse(json, p, data);
            if |b| < 5 then out == (p.(buffer := b), [])
            else if b[0] != 0x33 then out == (Parser(2, b[5..], p.bodylength), [])
            else
              var v: int := 256 * (b[3] as int) + b[4] as int;
              out == Parse(json, Parser(1, b[5..], if v <= 32767 then v else v - 65536), [])
  {
    if |p.buffer + data| >= 5 { assert (p.buffer + data)[5..] + [] == (p.buffer + data)[5..]; }
  }

  /** And on one that expects a body: not there yet, refused by the JSON parser, or delivered with whatever follows. */
  lemma ParseBodyIs(json: Bytes -> bool, p: Parser, data: Bytes)
    requires p.state == 1
    ensures var b, out := p.buffer + data, Parse(json, p, data);
            if b == [] || |b| < p.bodylength then out == (p.(buffer := b), [])
            else
              var n := BodyBytes(p.bodylength, |b|);
              var rest := Parser(0, b[n..], p.bodylength);
              if !json(b[..n]) then out == (rest, [])
              else out.0 == Parse(json, rest, []).0 && out.1 == [b[..n]] + Parse(json, rest, []).1
  {
  }

  /** A bad magic byte costs the header and the whole of the next chunk, and nothing else. */
  lemma BadMagicCostsTheNextChunk(json: Bytes -> bool, p: Parser, data: Bytes, next: Bytes)
    requires p.state == 0 && |p.buffer + data| >= 5 && (p.buffer + data)[0] != 0x33
    ensures var p1 := Parse(json, p, data).0;
            Parse(json, p, data).1 == [] && Parse(json, p1, next) == (Parser(0, (p.buffer + data)[5..], p.bodylength), [])
  {
  }

  // ---- A stream of messages ----

  function Frames(ms: seq<Bytes>): Bytes
    requires forall m <- ms :: |m| <= 0x7fff
  {
    if ms == [] then [] else Frame(ms[0]) + Frames(ms[1..])
  }

  /** Bodies that `createmessage` can frame and `JSON.parse` accepts. */
  predicate Sendable(json: Bytes -> bool, ms: seq<Bytes>) {
    forall m <- ms :: 1 <= |m| <= 0x7fff && json(m)
  }

  /** How many messages are wholly contained in the first n bytes of the stream. */
  function Whole(ms: seq<Bytes>, n: nat): (k: nat)
    ensures k <= |ms|
  {
    if ms == [] || n < 5 + |ms[0]| then 0 else 1 + Whole(ms[1..], n - 5 - |ms[0]|)
  }

  /** Feeding chunks one after the other. */
  function Feed(json: Bytes -> bool, p: Parser, chunks: seq<Bytes>): (Parser, seq<Bytes>) {
    if chunks == [] then (p, [])
    else
      var (p1, early) := Feed(json, p, chunks[..|chunks| - 1]);
      var (p2, late) := Parse(json, p1, chunks[|chunks| - 1]);
      (p2, early + late)
  }

  function Flatten(chunks: seq<Bytes>): Bytes {
    if chunks == [] then [] else Flatten(chunks[..|chunks| - 1]) + chunks[|chunks| - 1]
  }

  /** The parser holds the bytes x of a stream of frames of ms, the first header perhaps already taken off. */
  predicate Holds(p: Parser, ms: seq<Bytes>, x: Bytes) {
    || (p.state == 0 && p.buffer == x)
    || (p.state == 1 && ms != [] && |x| >= 5 && p.buffer == x[5..] && p.bodylength == |ms[0]|)
  }

  lemma {:induction false} FramesSplit(ms: seq<Bytes>, k: nat)
    requires k <= |ms| && forall m <- ms :: |m| <= 0x7fff
    ensures Frames(ms) == Frames(ms[..k]) + Frames(ms[k..])
  {
    hide Frame;
    if k == 0 {
      assert ms[0..] == ms;
    } else {
      FramesSplit(ms[1..], k - 1);
      assert ms[..k][1..] == ms[1..][..k - 1] && ms[1..][k - 1..] == ms[k..];
    }
  }

  lemma FirstFrame(ms: seq<Bytes>)
    requires ms != [] && forall m <- ms :: |m| <= 0x7fff
    ensures |Frames(ms)| == 5 + |ms[0]| + |Frames(ms[1..])|
  {
  }

  lemma {:induction false} WholeSplit(ms: seq<Bytes>, k: nat, n: nat)
    requires k <= |ms| && (forall m <- ms :: |m| <= 0x7fff) && |Frames(ms[..k])| <= n
    ensures Whole(ms, n) == k + Whole(ms[k..], n - |Frames(ms[..k])|)
  {
    if k == 0 {
      assert ms[0..] == ms;
    } else {
      FirstFrame(ms[..k]);
      SplitTail(ms, k);
      hide Frames, Frame;
      WholeSplit(ms[1..], k - 1, n - 5 - |ms[0]|);
      WholeNext(ms, n);
      hide Whole;
    }
  }

  lemma SplitTail(ms: seq<Bytes>, k: nat)
    requires 1 <= k <= |ms|
    ensures ms[..k][0] == ms[0] && ms[..k][1..] == ms[1..][..k - 1] && ms[1..][k - 1..] == ms[k..]
  {
  }

  lemma WholeNext(ms: seq<Bytes>, n: nat)
    requires ms != [] && n >= 5 + |ms[0]|
    ensures Whole(ms, n) == 1 + Whole(ms[1..], n - 5 - |ms[0]|)
  {
  }

  lemma {:induction false} WholeFits(ms: seq<Bytes>, n: nat)
    requires forall m <- ms :: |m| <= 0x7fff
    ensures |Frames(ms[..Whole(ms, n)])| <= n
  {
    if ms != [] && n >= 5 + |ms[0]| {
      WholeFits(ms[1..], n - 5 - |ms[0]|);
      var k := Whole(ms, n);
      assert ms[..k][1..] == ms[1..][..k - 1];
    }
  }

  /** With at least a header's worth of a stream at hand, the parser knows the next body's length. */
  lemma HeaderTaken(p: Parser, ms: seq<Bytes>, x: Bytes, data: Bytes)
    requires (forall m <- ms :: |m| <= 0x7fff) && Holds(p, ms, x) && x + data <= Frames(ms) && |x + data| >= 5
    ensures ms != []
    ensures LookForPacketStart(p.(buffer := p.buffer + data)) == Parser(1, (x + data)[5..], |ms[0]|)
  {
    var b := x + data;
    var f := Frame(ms[0]) + Frames(ms[1..]);
    assert b[0] == f[0] && b[3] == f[3] && b[4] == f[4];
    if p.state == 1 {
      assert x[5..] + data == b[5..];
    }
  }

  /** Everything but the first message of a stream that the parser has just taken off. */
  lemma FirstBody(ms: seq<Bytes>, b: Bytes)
    requires ms != [] && (forall m <- ms :: |m| <= 0x7fff) && b <= Frames(ms) && |b| >= 5 + |ms[0]|
    ensures b[5..][..|ms[0]|] == ms[0] && b[5..][|ms[0]|..] == b[5 + |ms[0]|..] <= Frames(ms[1..])
  {
    var f := Frame(ms[0]) + Frames(ms[1..]);
    assert b == f[..|b|];
    assert f[5..5 + |ms[0]|] == ms[0];
    assert b[5..][..|ms[0]|] == f[5..5 + |ms[0]|];
    assert b[5 + |ms[0]|..] == Frames(ms[1..])[..|b| - 5 - |ms[0]|];
  }

  /** After the bytes b: exactly the messages complete in them are out, and the parser holds the rest of b. */
  predicate Delivered(ms: seq<Bytes>, p: Parser, out: seq<Bytes>, b: Bytes)
    requires forall m <- ms :: |m| <= 0x7fff
  {
    var k := Whole(ms, |b|);
    out == ms[..k] && |Frames(ms[..k])| <= |b| && Holds(p, ms[k..], b[|Frames(ms[..k])|..])
  }

  /** Too little for a header, or for the body: nothing is delivered yet. */
  lemma StillWaiting(json: Bytes -> bool, ms: seq<Bytes>, p: Parser, x: Bytes, data: Bytes)
    requires Sendable(json, ms) && Holds(p, ms, x) && x + data <= Frames(ms)
    requires ms == [] || |x + data| < 5 + |ms[0]|
    ensures Parse(json, p, data).1 == [] && Holds(Parse(json, p, data).0, ms, x + data)
  {
    if |x + data| >= 5 { HeaderTaken(p, ms, x, data); }
    hide Frame, Frames;
  }

  /** A complete first message is delivered, and parsing goes on with what follows it. */
  lemma OneDelivered(json: Bytes -> bool, ms: seq<Bytes>, p: Parser, x: Bytes, data: Bytes)
    requires Sendable(json, ms) && Holds(p, ms, x) && x + data <= Frames(ms)
    requires ms != [] && |x + data| >= 5 + |ms[0]|
    ensures var rest := (x + data)[5 + |ms[0]|..];
            && rest <= Frames(ms[1..])
            && Parse(json, p, data).0 == Parse(json, Parser(0, rest, |ms[0]|), []).0
            && Parse(json, p, data).1 == [ms[0]] + Parse(json, Parser(0, rest, |ms[0]|), []).1
  {
    HeaderTaken(p, ms, x, data);
    FirstBody(ms, x + data);
    hide Frame, Frames, Holds;
    var p1 := LookForPacketStart(p.(buffer := p.buffer + data));
    assert json(ms[0]) && |ms[0]| >= 1;
    assert Body(p1) == ms[0] && Trimmed(p1) == Parser(0, (x + data)[5 + |ms[0]|..], |ms[0]|);
    assert p.state != 2;
  }

  /**
   * Whatever part of a stream the parser holds, a chunk that continues it
   * delivers exactly the messages that are then complete, and the parser holds
   * the rest.
   */
  lemma {:induction false} ParsesWhole(json: Bytes -> bool, ms: seq<Bytes>, p: Parser, x: Bytes, data: Bytes)
    requires Sendable(json, ms) && Holds(p, ms, x) && x + data <= Frames(ms)
    ensures Delivered(ms, Parse(json, p, data).0, Parse(json, p, data).1, x + data)
    decreases |ms|
  {
    hide Parse, Frame;
    var b := x + data;
    WholeFits(ms, |b|);
    if ms == [] || |b| < 5 + |ms[0]| {
      StillWaiting(json, ms, p, x, data);
      assert ms[0..] == ms && b[0..] == b;
    } else {
      OneDelivered(json, ms, p, x, data);
      var rest := b[5 + |ms[0]|..];
      assert rest + [] == rest;
      hide Holds, Frames;
      HoldsRest(ms[1..], rest, |ms[0]|);
      ParsesWhole(json, ms[1..], Parser(0, rest, |ms[0]|), rest, []);
      NextMessages(ms, b);
    }
  }

  lemma HoldsRest(ms: seq<Bytes>, rest: Bytes, length: int)
    ensures Holds(Parser(0, rest, length), ms, rest)
  {
  }

  /** Counting on from the second message. */
  lemma NextMessages(ms: seq<Bytes>, b: Bytes)
    requires ms != [] && (forall m <- ms :: |m| <= 0x7fff) && |b| >= 5 + |ms[0]|
    ensures var k, k1 := Whole(ms, |b|), Whole(ms[1..], |b| - 5 - |ms[0]|);
            && k == k1 + 1 && ms[..k] == [ms[0]] + ms[1..][..k1] && ms[k..] == ms[1..][k1..]
            && |Frames(ms[..k])| == 5 + |ms[0]| + |Frames(ms[1..][..k1])|
            && (|Frames(ms[..k])| <= |b| ==>
                  b[5 + |ms[0]|..][|Frames(ms[1..][..k1])|..] == b[|Frames(ms[..k])|..])
  {
    var k := Whole(ms, |b|);
    assert ms[..k][1..] == ms[1..][..k - 1];
  }

  /** Two deliveries in a row are one: the second about the bytes and messages the first left. */
  lemma DeliveredInTurn(ms: seq<Bytes>, p: Parser, out: seq<Bytes>, b0: Bytes, p1: Parser, out1: seq<Bytes>, last: Bytes)
    requires (forall m <- ms :: |m| <= 0x7fff) && Delivered(ms, p, out, b0)
    requires var k := Whole(ms, |b0|); Delivered(ms[k..], p1, out1, b0[|Frames(ms[..k])|..] + last)
    ensures Delivered(ms, p1, out + out1, b0 + last)
  {
    hide Frames, Whole, Holds;
    var k, b := Whole(ms, |b0|), b0 + last;
    var n := |Frames(ms[..k])|;
    var k1 := Whole(ms[k..], |b| - n);
    assert b0[n..] + last == b[n..];
    WholeSplit(ms, k, |b|);
    LaterMessages(ms, k, k1, b);
    assert Whole(ms, |b|) == k + k1;
    assert out + out1 == ms[..k + k1];
    assert |Frames(ms[..k + k1])| <= |b|;
  }

  /**
   * The main theorem on framing: for every list of sendable messages and every
   * way of cutting the stream, what has been delivered after each chunk is
   * exactly the messages wholly contained in the bytes so far, in order and
   * once each.
   */
  lemma {:induction false} DeliversExactly(json: Bytes -> bool, ms: seq<Bytes>, chunks: seq<Bytes>)
    requires Sendable(json, ms) && Flatten(chunks) <= Frames(ms)
    ensures Delivered(ms, Feed(json, NewState(), chunks).0, Feed(json, NewState(), chunks).1, Flatten(chunks))
    decreases |chunks|
  {
    if chunks == [] {
      WholeFits(ms, 0);
      assert ms[0..] == ms;
    } else {
      hide Parse, Holds, Frames, Whole;
      var early, last := chunks[..|chunks| - 1], chunks[|chunks| - 1];
      DeliversExactly(json, ms, early);
      var (p, out) := Feed(json, NewState(), early);
      var b0, k := Flatten(early), Whole(ms, |Flatten(early)|);
      RestOfStream(ms, k, b0, last);
      ParsesWhole(json, ms[k..], p, b0[|Frames(ms[..k])|..], last);
      var (p1, out1) := Parse(json, p, last);
      hide Delivered;
      DeliveredInTurn(ms, p, out, b0, p1, out1, last);
    }
  }

  /** The bytes not yet used up, and the next chunk, are a stream of the remaining messages. */
  lemma RestOfStream(ms: seq<Bytes>, k: nat, b0: Bytes, last: Bytes)
    requires k <= |ms| && (forall m <- ms :: |m| <= 0x7fff) && b0 + last <= Frames(ms)
    requires |Frames(ms[..k])| <= |b0|
    ensures b0[|Frames(ms[..k])|..] + last <= Frames(ms[k..])
  {
    FramesSplit(ms, k);
    hide Frames;
    var f, n := Frames(ms), |Frames(ms[..k])|;
    assert b0 + last == f[..|b0 + last|];
    assert b0[n..] + last == (b0 + last)[n..] == f[n..][..|b0 + last| - n];
  }

  lemma LaterMessages(ms: seq<Bytes>, k: nat, k1: nat, b: Bytes)
    requires k + k1 <= |ms| && forall m <- ms :: |m| <= 0x7fff
    ensures ms[..k] + ms[k..][..k1] == ms[..k + k1] && ms[k..][k1..] == ms[k + k1..]
    ensures Frames(ms[..k + k1]) == Frames(ms[..k]) + Frames(ms[k..][..k1])
    ensures |Frames(ms[..k + k1])| <= |b| ==>
              b[|Frames(ms[..k])|..][|Frames(ms[k..][..k1])|..] == b[|Frames(ms[..k + k1])|..]
  {
    var first := ms[..k + k1];
    FramesSplit(first, k);
    hide Frames;
    assert first[..k] == ms[..k] && first[k..] == ms[k..][..k1];
  }

  /** The round trip: everything `createmessage` framed comes out, however it was cut, and the parser is ready for more. */
  lemma RoundTrip(json: Bytes -> bool, ms: seq<Bytes>, chunks: seq<Bytes>)
    requires Sendable(json, ms) && Flatten(chunks) == Frames(ms)
    ensures forall m <- ms :: CreateMessage(m) == Some(Frame(m))
    ensures Feed(json, NewState(), chunks).1 == ms
    ensures Feed(json, NewState(), chunks).0.state == 0 && Feed(json, NewState(), chunks).0.buffer == []
  {
    DeliversExactly(json, ms, chunks);
    assert ms[..|ms|] == ms && ms[|ms|..] == [];
    WholeSplit(ms, |ms|, |Frames(ms)|);
    assert Whole(ms, |Frames(ms)|) == |ms|;
    assert Frames(ms)[|Frames(ms)|..] == [];
  }

  /**
   * Why a body must not be empty: a frame without one is taken off only when
   * more bytes arrive, its empty body is no JSON, and the complete message after
   * it stays in the buffer undelivered.
   */
  lemma EmptyBodyStalls(json: Bytes -> bool, m: Bytes)
    requires !json([]) && |m| <= 0x7fff
    ensures Parse(json, NewState(), Frame([]) + Frame(m)) == (Parser(0, Frame(m), 0), [])
  {
    var b := Frame([]) + Frame(m);
    assert [] + b == b && b[5..] == Frame(m);
    assert b[5..][..0] == [] && b[5..][0..] == Frame(m);
  }
}
