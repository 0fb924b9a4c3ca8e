/**
 * The STUN messages of the ICE path (rust/src/stun.rs): walking a request's
 * attributes with their integrity and fingerprint checks, and building the
 * Binding Response. HMAC-SHA1 and CRC-32 are functions handed in. Sections 6
 * and 15 of RFC 5389 give the formats.
 */
module Stun {
  import opened Common

  type Digest = d: Bytes | |d| == 20 witness seq(20, i => 0)

  datatype Hashes = Hashes(hmac: (Bytes, Bytes) -> Digest, crc: Bytes -> u32)

  const COOKIE: u32 := 0x2112_A442
  const FINGERPRINT_XOR: u32 := 0x5354_554E

  // ---- Exclusive or, bit by bit ----

  function Xor(a: nat, b: nat, bits: nat): (r: nat)
    ensures r < Pow2(bits)
  {
    if bits == 0 then 0 else 2 * Xor(a / 2, b / 2, bits - 1) + if a % 2 == b % 2 then 0 else 1
  }

  function Pow2(n: nat): nat { if n == 0 then 1 else 2 * Pow2(n - 1) }

  lemma {:induction false} XorTwice(a: nat, b: nat, bits: nat)
    requires a < Pow2(bits)
    ensures Xor(Xor(a, b, bits), b, bits) == a
  {
    if bits > 0 {
      XorTwice(a / 2, b / 2, bits - 1);
      var x, y := Xor(a, b, bits), Xor(a / 2, b / 2, bits - 1);
      assert x == 2 * y + if a % 2 == b % 2 then 0 else 1;
      assert x / 2 == y && x % 2 == if a % 2 == b % 2 then 0 else 1;
      assert Xor(x, b, bits) == 2 * Xor(y, b / 2, bits - 1) + if x % 2 == b % 2 then 0 else 1;
    }
  }

  /** Bit i of a number, the lowest first. */
  function Bit(v: nat, i: nat): nat {
    Pow2Positive(i);
    v / Pow2(i) % 2
  }

  lemma {:induction false} Pow2Positive(n: nat)
    ensures Pow2(n) > 0
  {
    if n > 0 { Pow2Positive(n - 1); }
  }

  /** A higher bit is the next lower one of the half. */
  lemma BitOfHalf(v: nat, i: nat)
    requires i > 0
    ensures Bit(v, i) == Bit(v / 2, i - 1)
  {
    Pow2Positive(i - 1);
    HalfThenRest(v, Pow2(i - 1));
  }

  lemma HalfThenRest(v: nat, p: nat)
    requires p > 0
    ensures v / (2 * p) == v / 2 / p
  {
    var q, r := v / 2 / p, v / 2 % p;
    assert v / 2 == q * p + r;
    assert v == q * (2 * p) + (2 * r + v % 2) by { assert q * (2 * p) == 2 * (q * p); }
    QuotientIs(v, 2 * p, q, 2 * r + v % 2);
  }

  lemma XorHalves(a: nat, b: nat, bits: nat)
    requires bits > 0
    ensures Xor(a, b, bits) / 2 == Xor(a / 2, b / 2, bits - 1) && Xor(a, b, bits) % 2 == (a % 2 + b % 2) % 2
  {
  }

  lemma LowestBit(v: nat)
    ensures Bit(v, 0) == v % 2
  {
    assert Pow2(0) == 1;
  }

  /** What exclusive or is: a bit is set in the result when it is set in exactly one of the two. */
  lemma {:induction false} XorBit(a: nat, b: nat, bits: nat, i: nat)
    requires i < bits
    ensures Bit(Xor(a, b, bits), i) == (Bit(a, i) + Bit(b, i)) % 2
  {
    hide Xor, Bit, Pow2;
    var x := Xor(a, b, bits);
    XorHalves(a, b, bits);
    if i == 0 {
      LowestBit(a);
      LowestBit(b);
      LowestBit(x);
    } else {
      BitOfHalf(x, i);
      BitOfHalf(a, i);
      BitOfHalf(b, i);
      XorBit(a / 2, b / 2, bits - 1, i - 1);
    }
  }

  lemma {:induction false} XorCommutes(a: nat, b: nat, bits: nat)
    ensures Xor(a, b, bits) == Xor(b, a, bits)
  {
    if bits > 0 { XorCommutes(a / 2, b / 2, bits - 1); }
  }

  /** It changes nothing exactly when the other operand has no bit set. */
  lemma {:induction false} XorSameIff(a: nat, b: nat, bits: nat)
    requires a < Pow2(bits)
    ensures Xor(a, b, bits) == a <==> b % Pow2(bits) == 0
  {
    if bits > 0 {
      XorSameIff(a / 2, b / 2, bits - 1);
      var x, y := Xor(a, b, bits), Xor(a / 2, b / 2, bits - 1);
      var low := if a % 2 == b % 2 then 0 else 1;
      assert x == 2 * y + low && a == 2 * (a / 2) + a % 2;
      assert x == a <==> y == a / 2 && b % 2 == 0;
      EvenMultiple(b, Pow2(bits - 1));
    }
  }

  lemma EvenMultiple(b: nat, p: nat)
    requires p > 0
    ensures b % (2 * p) == 0 <==> b % 2 == 0 && b / 2 % p == 0
  {
    var q, r := b / 2 / p, b / 2 % p;
    assert b / 2 == q * p + r;
    assert b == q * (2 * p) + (2 * r + b % 2) by { assert q * (2 * p) == 2 * (q * p); }
    QuotientIs(b, 2 * p, q, 2 * r + b % 2);
  }

  lemma Widths()
    ensures Pow2(8) == 0x100 && Pow2(16) == 0x1_0000 && Pow2(32) == 0x1_0000_0000
  {
    assert Pow2(4) == 16;
    assert Pow2(8) == 0x100;
    assert Pow2(12) == 0x1000;
    assert Pow2(16) == 0x1_0000;
    assert Pow2(20) == 0x10_0000;
    assert Pow2(24) == 0x100_0000;
    assert Pow2(28) == 0x1000_0000;
  }

  function Xor8(a: u8, b: u8): u8 { Widths(); Xor(a, b, 8) }

  function Xor16(a: u16, b: u16): u16 { Widths(); Xor(a, b, 16) }

  function Xor32(a: u32, b: u32): u32 { Widths(); Xor(a, b, 32) }

  // ---- Fields ----

  function Read16(pk: Bytes, off: nat): u16
    requires off + 2 <= |pk|
  {
    (pk[off] as int) * 0x100 + pk[off + 1] as int
  }

  function Read32(pk: Bytes, off: nat): u32
    requires off + 4 <= |pk|
  {
    (Read16(pk, off) as int) * 0x1_0000 + Read16(pk, off + 2) as int
  }

  function Be16(v: u16): (r: Bytes)
    ensures |r| == 2
  {
    [v / 0x100, v % 0x100]
  }

  function Be32(v: u32): (r: Bytes)
    ensures |r| == 4
  {
    Be16(v / 0x1_0000) + Be16(v % 0x1_0000)
  }

  /** The bytes from off on replaced. */
  function Put(pk: Bytes, off: nat, bs: Bytes): (r: Bytes)
    requires off + |bs| <= |pk|
    ensures |r| == |pk|
  {
    pk[..off] + bs + pk[off + |bs|..]
  }

  predicate IsStun(pk: Bytes) {
    && |pk| >= 20 && pk[0] < 0x40
    && |pk| - 20 == Read16(pk, 2)
    && Read32(pk, 4) == COOKIE
  }

  // ---- Walking the attributes ----

  datatype Attribute = Attribute(kind: u16, value: Bytes)

  /** OutOfRange: an integrity or fingerprint attribute too short for the bytes the code then reads, which panics. */
  datatype Outcome = Accepted | Rejected | OutOfRange

  function Padding(n: nat): nat { (4 - n % 4) % 4 }

  /** Section 15.4 of RFC 5389: the digest covers what precedes it, under the length the message had up to it. */
  predicate IntegrityOk(h: Hashes, key: Bytes, pk: Bytes, off: nat)
    requires 20 <= off && off + 24 <= |pk|
  {
    h.hmac(key, Put(pk, 2, Be16((off - 20 + 24) % 0x1_0000))[..off]) == pk[off + 4..off + 24]
  }

  /** Section 15.5 of RFC 5389. */
  predicate FingerprintOk(h: Hashes, pk: Bytes, off: nat)
    requires off + 8 <= |pk|
  {
    Xor32(h.crc(pk[..off]), FINGERPRINT_XOR) == Read32(pk, off + 4)
  }

  function Check(h: Hashes, key: Bytes, pk: Bytes, off: nat, kind: u16): Outcome
    requires 20 <= off
  {
    if kind == 0x0008 then
      if off + 24 > |pk| then OutOfRange else if IntegrityOk(h, key, pk, off) then Accepted else Rejected
    else if kind == 0x8028 then
      if off + 8 > |pk| then OutOfRange else if FingerprintOk(h, pk, off) then Accepted else Rejected
    else Accepted
  }

  /** The outcome from offset off on, and the attributes met. */
  function Walk(h: Hashes, key: Bytes, pk: Bytes, off: nat, total: nat): (Outcome, seq<Attribute>)
    requires 20 <= off && total <= |pk|
    decreases total - off
  {
    if off + 4 > total then (Accepted, [])
    else
      var kind, n := Read16(pk, off), Read16(pk, off + 2);
      if off + 4 + n > total then (Rejected, [])
      else
        var here := Check(h, key, pk, off, kind);
        var met := Attribute(kind, pk[off + 4..off + 4 + n]);
        if here != Accepted then (here, [met])
        else
          var (rest, seen) := Walk(h, key, pk, off + 4 + n + Padding(n), total);
          (rest, [met] + seen)
  }

  /** `walk_attributes` as a whole. */
  function WalkAll(h: Hashes, key: Bytes, pk: Bytes): (Outcome, seq<Attribute>)
    requires |pk| >= 4
  {
    var total := 20 + Read16(pk, 2);
    if key == [] || total > |pk| then (Rejected, []) else Walk(h, key, pk, 20, total)
  }

  /** A STUN packet in bytes: two zero bits first, its length less the header's 20 in bytes 2 and 3, the cookie in 4 to 7. */
  lemma StunBytes(pk: Bytes)
    ensures IsStun(pk)
       <==> && |pk| >= 20 && pk[0] < 64 && 256 * (pk[2] as int) + pk[3] as int + 20 == |pk|
            && pk[4] == 0x21 && pk[5] == 0x12 && pk[6] == 0xA4 && pk[7] == 0x42
  {
  }

  /** Attributes start at multiples of four. */
  lemma PaddingFills(n: nat)
    ensures Padding(n) <= 3 && (n + Padding(n)) % 4 == 0
  {
  }

  /** Without a key, or with a length that goes past the packet's end, nothing is looked at. */
  lemma NothingWalked(h: Hashes, key: Bytes, pk: Bytes)
    requires |pk| >= 20 && (key == [] || 256 * (pk[2] as int) + pk[3] as int + 20 > |pk|)
    ensures WalkAll(h, key, pk) == (Rejected, [])
  {
  }

  method Write16(pk: array<u8>, off: nat, v: u16)
    requires off + 2 <= pk.Length
    modifies pk
    ensures pk[..] == Put(old(pk[..]), off, Be16(v))
  {
    pk[off], pk[off + 1] := v / 0x100, v % 0x100;
  }

  /** The length field is changed for the digest and put back. */
  method VerifyIntegrity(h: Hashes, pk: array<u8>, off: nat, key: Bytes) returns (ok: bool)
    requires 20 <= off && off + 24 <= pk.Length
    modifies pk
    ensures pk[..] == old(pk[..]) && ok == IntegrityOk(h, key, pk[..], off)
  {
    hide Put, Be16, Read16;
    ghost var was := pk[..];
    var saved := Read16(pk[..], 2);
    var length := (off - 20 + 24) % 0x1_0000;
    LengthRestored(was, length, off);
    Write16(pk, 2, length);
    ghost var now := pk[..];
    var computed := h.hmac(key, pk[..off]);
    assert pk[..off] == now[..off];
    ok := computed == pk[off + 4..off + 24];
    assert pk[off + 4..off + 24] == now[off + 4..off + 24];
    Write16(pk, 2, saved);
  }

  /** Writing the length field leaves the digest alone, and writing the old value back restores everything. */
  lemma LengthRestored(pk: Bytes, length: u16, off: nat)
    requires 20 <= off && off + 24 <= |pk|
    ensures Put(pk, 2, Be16(length))[off + 4..off + 24] == pk[off + 4..off + 24]
    ensures Put(Put(pk, 2, Be16(length)), 2, Be16(Read16(pk, 2))) == pk
  {
    assert Be16(Read16(pk, 2)) == pk[2..4];
    hide Be16, Read16;
  }

  /** One turn of the walk, as the code's loop takes it. */
  lemma WalkTurn(h: Hashes, key: Bytes, pk: Bytes, off: nat, total: nat)
    requires 20 <= off && off + 4 <= total <= |pk|
    ensures var n := Read16(pk, off + 2);
            var walk := Walk(h, key, pk, off, total);
            if off + 4 + n > total then walk == (Rejected, [])
            else
              var here, met := Check(h, key, pk, off, Read16(pk, off)), Attribute(Read16(pk, off), pk[off + 4..off + 4 + n]);
              && (here != Accepted ==> walk == (here, [met]))
              && (here == Accepted ==> walk.0 == Walk(h, key, pk, off + 4 + n + Padding(n), total).0)
              && (here == Accepted ==> walk.1 == [met] + Walk(h, key, pk, off + 4 + n + Padding(n), total).1)
  {
    hide Check, Read16;
  }

  /** How far a walk has come: at off, having met seen. */
  predicate WalkedTo(h: Hashes, key: Bytes, pk: Bytes, total: nat, off: nat, seen: seq<Attribute>)
    requires total <= |pk|
  {
    && 20 <= off
    && Walk(h, key, pk, 20, total).0 == Walk(h, key, pk, off, total).0
    && Walk(h, key, pk, 20, total).1 == seen + Walk(h, key, pk, off, total).1
  }

  lemma WalkStarts(h: Hashes, key: Bytes, pk: Bytes, total: nat)
    requires total <= |pk|
    ensures WalkedTo(h, key, pk, total, 20, [])
  {
    hide Walk;
  }

  lemma WalkStops(h: Hashes, key: Bytes, pk: Bytes, total: nat, off: nat, seen: seq<Attribute>)
    requires total <= |pk| && WalkedTo(h, key, pk, total, off, seen)
    ensures off + 4 > total ==> Walk(h, key, pk, 20, total) == (Accepted, seen)
    ensures off + 4 <= total ==>
              var kind, n := Read16(pk, off), Read16(pk, off + 2);
              && (off + 4 + n > total ==> Walk(h, key, pk, 20, total) == (Rejected, seen))
              && (off + 4 + n <= total ==>
                    var here, seen1 := Check(h, key, pk, off, kind), seen + [Attribute(kind, pk[off + 4..off + 4 + n])];
                    && (here != Accepted ==> Walk(h, key, pk, 20, total) == (here, seen1))
                    && (here == Accepted ==> WalkedTo(h, key, pk, total, off + 4 + n + Padding(n), seen1)))
  {
    hide Check, Read16;
    assert seen + [] == seen;
    if off + 4 <= total { WalkTurn(h, key, pk, off, total); }
  }

  method WalkAttributes(h: Hashes, pk: array<u8>, key: Bytes) returns (r: Outcome, ghost seen: seq<Attribute>)
    requires pk.Length >= 20
    modifies pk
    ensures pk[..] == old(pk[..]) && (r, seen) == WalkAll(h, key, pk[..])
  {
    if key == [] { return Rejected, []; }
    var total := 20 + Read16(pk[..], 2);
    if total > pk.Length { return Rejected, []; }
    r, seen := WalkLoop(h, pk, key, total);
  }

  method WalkLoop(h: Hashes, pk: array<u8>, key: Bytes, total: nat) returns (r: Outcome, ghost seen: seq<Attribute>)
    requires 20 <= total <= pk.Length
    modifies pk
    ensures pk[..] == old(pk[..]) && (r, seen) == Walk(h, key, pk[..], 20, total)
  {
    hide *;
    ghost var bytes := pk[..];
    seen := [];
    WalkStarts(h, key, bytes, total);
    var off := 20;
    while off + 4 <= total
      invariant 20 <= off && pk[..] == bytes && WalkedTo(h, key, bytes, total, off, seen)
      decreases total - off
    {
      WalkStops(h, key, bytes, total, off, seen);
      var kind, n := Read16(pk[..], off), Read16(pk[..], off + 2);
      if off + 4 + n > total { return Rejected, seen; }
      seen := seen + [Attribute(kind, bytes[off + 4..off + 4 + n])];
      var here := CheckAttribute(h, pk, off, kind, key);
      if here != Accepted { return here, seen; }
      off := off + 4 + n + Padding(n);
    }
    WalkStops(h, key, bytes, total, off, seen);
    r := Accepted;
  }

  /** The match on the attribute's type. */
  method CheckAttribute(h: Hashes, pk: array<u8>, off: nat, kind: u16, key: Bytes) returns (r: Outcome)
    requires 20 <= off <= pk.Length
    modifies pk
    ensures pk[..] == old(pk[..]) && r == Check(h, key, pk[..], off, kind)
  {
    if kind == 0x0008 {
      if off + 24 > pk.Length { return OutOfRange; }
      var ok := VerifyIntegrity(h, pk, off, key);
      return if ok then Accepted else Rejected;
    } else if kind == 0x8028 {
      if off + 8 > pk.Length { return OutOfRange; }
      assert pk[..off] == pk[..][..off];
      return if Xor32(h.crc(pk[..off]), FINGERPRINT_XOR) == Read32(pk[..], off + 4) then Accepted else Rejected;
    }
    return Accepted;
  }

  // ---- Where the walk reads past the end ----

  /** The walk from start comes to off: whole attributes lie between, and each was accepted. */
  predicate Reaches(h: Hashes, key: Bytes, pk: Bytes, start: nat, total: nat, off: nat)
    requires 20 <= start && total <= |pk|
    decreases total - start
  {
    || start == off
    || (&& Whole(pk, start, total)
        && Check(h, key, pk, start, Read16(pk, start)) == Accepted
        && Reaches(h, key, pk, Next(pk, start), total, off))
  }

  /** An attribute begins at off and its value lies inside the message. */
  predicate Whole(pk: Bytes, off: nat, total: nat)
    requires total <= |pk|
  {
    off + 4 <= total && off + 4 + Read16(pk, off + 2) <= total
  }

  function Next(pk: Bytes, off: nat): (r: nat)
    requires off + 4 <= |pk|
    ensures r >= off + 4
  {
    off + 4 + Read16(pk, off + 2) + Padding(Read16(pk, off + 2))
  }

  /** An integrity attribute with less than 24 bytes of packet left from its start, or a fingerprint with less than 8. */
  predicate TooShort(pk: Bytes, off: nat)
    requires off + 4 <= |pk|
  {
    (Read16(pk, off) == 0x0008 && off + 24 > |pk|) || (Read16(pk, off) == 0x8028 && off + 8 > |pk|)
  }

  /** The walk reads past the end exactly when it comes to such an attribute. */
  lemma {:induction false} WalkOutOfRangeIff(h: Hashes, key: Bytes, pk: Bytes, start: nat, total: nat)
    requires 20 <= start && total <= |pk|
    ensures Walk(h, key, pk, start, total).0 == OutOfRange
       <==> exists off :: Reaches(h, key, pk, start, total, off) && Whole(pk, off, total) && TooShort(pk, off)
    decreases total - start
  {
    hide Read16, IntegrityOk, FingerprintOk;
    if Whole(pk, start, total) {
      WalkTurn(h, key, pk, start, total);
      var next := Next(pk, start);
      WalkOutOfRangeIff(h, key, pk, next, total);
      if Check(h, key, pk, start, Read16(pk, start)) == Accepted {
        forall off | Reaches(h, key, pk, next, total, off) ensures Reaches(h, key, pk, start, total, off) {
        }
      } else {
        assert Reaches(h, key, pk, start, total, start);
      }
    }
  }

  lemma OutOfRangeIff(h: Hashes, key: Bytes, pk: Bytes)
    requires IsStun(pk)
    ensures WalkAll(h, key, pk).0 == OutOfRange
       <==> key != [] && exists off :: Reaches(h, key, pk, 20, |pk|, off) && Whole(pk, off, |pk|) && TooShort(pk, off)
  {
    WalkOutOfRangeIff(h, key, pk, 20, |pk|);
    hide Reaches, Whole, TooShort, Walk, Read16;
  }

  /** What can be seen from the lengths alone: every integrity attribute has 20 bytes or more, every fingerprint 4 or more. */
  predicate LongEnough(pk: Bytes, off: nat, total: nat)
    requires total <= |pk|
    decreases total - off
  {
    Whole(pk, off, total) ==>
      && (Read16(pk, off) == 0x0008 ==> Read16(pk, off + 2) >= 20)
      && (Read16(pk, off) == 0x8028 ==> Read16(pk, off + 2) >= 4)
      && LongEnough(pk, Next(pk, off), total)
  }

  /** Such a message is walked without reading past the end, whatever it is signed with. */
  lemma {:induction false} LongEnoughIsInRange(h: Hashes, key: Bytes, pk: Bytes, off: nat, total: nat)
    requires 20 <= off && total <= |pk| && LongEnough(pk, off, total)
    ensures Walk(h, key, pk, off, total).0 != OutOfRange
    decreases total - off
  {
    hide Read16, IntegrityOk, FingerprintOk;
    if Whole(pk, off, total) {
      WalkTurn(h, key, pk, off, total);
      LongEnoughIsInRange(h, key, pk, Next(pk, off), total);
    }
  }

  /** Twenty-four bytes that pass for STUN and are read past their end: a Binding Request with an empty integrity attribute. */
  function ShortRequest(): Bytes {
    [0x00, 0x01, 0x00, 0x04, 0x21, 0x12, 0xA4, 0x42] + seq(12, i => 0) + [0x00, 0x08, 0x00, 0x00]
  }

  lemma ShortRequestIsOutOfRange(h: Hashes, key: Bytes)
    requires key != []
    ensures IsStun(ShortRequest()) && WalkAll(h, key, ShortRequest()).0 == OutOfRange
  {
    var pk := ShortRequest();
    assert |pk| == 24 && Read16(pk, 2) == 4 && Read32(pk, 4) == COOKIE && Read16(pk, 20) == 8 && Read16(pk, 22) == 0;
    hide Read16, ShortRequest;
    WalkTurn(h, key, pk, 20, 24);
  }

  // ---- Messages as they are put together ----

  /** An attribute on the wire; `pad` is whatever fills it up to a multiple of four. */
  datatype Padded = Padded(attr: Attribute, pad: Bytes)

  predicate WellPadded(p: Padded) { |p.attr.value| <= 0xffff && |p.pad| == Padding(|p.attr.value|) }

  function Encode(p: Padded): (r: Bytes)
    requires WellPadded(p)
    ensures |r| == 4 + |p.attr.value| + |p.pad|
  {
    Be16(p.attr.kind) + Be16(|p.attr.value|) + p.attr.value + p.pad
  }

  function EncodeAll(ps: seq<Padded>): Bytes
    requires forall p <- ps :: WellPadded(p)
  {
    if ps == [] then [] else Encode(ps[0]) + EncodeAll(ps[1..])
  }

  function Attributes(ps: seq<Padded>): seq<Attribute> {
    if ps == [] then [] else [ps[0].attr] + Attributes(ps[1..])
  }

  function Header(kind: u16, length: u16, id: Bytes): (r: Bytes)
    requires |id| == 12
    ensures |r| == 20
  {
    Be16(kind) + Be16(length) + Be32(COOKIE) + id
  }

  function Integrity(digest: Digest): (p: Padded)
    ensures WellPadded(p)
  {
    Padded(Attribute(0x0008, digest), [])
  }

  function Fingerprint(v: u32): (p: Padded)
    ensures WellPadded(p)
  {
    Padded(Attribute(0x8028, Be32(v)), [])
  }

  /** Attributes the walk accepts unseen. */
  predicate Plain(ps: seq<Padded>) {
    forall p <- ps :: WellPadded(p) && p.attr.kind != 0x0008 && p.attr.kind != 0x8028
  }

  /** A message closed by a digest and a fingerprint, whatever their values. */
  function Message(kind: u16, id: Bytes, ps: seq<Padded>, digest: Digest, check: u32): Bytes
    requires |id| == 12 && Plain(ps) && |EncodeAll(ps)| + 32 <= 0xffff
  {
    Header(kind, |EncodeAll(ps)| + 32, id) + EncodeAll(ps) + Encode(Integrity(digest)) + Encode(Fingerprint(check))
  }

  /** The digest and the fingerprint that sections 15.4 and 15.5 of RFC 5389 ask for. */
  function DigestOf(h: Hashes, key: Bytes, kind: u16, id: Bytes, ps: seq<Padded>): Digest
    requires |id| == 12 && Plain(ps) && |EncodeAll(ps)| + 32 <= 0xffff
  {
    h.hmac(key, Header(kind, |EncodeAll(ps)| + 24, id) + EncodeAll(ps))
  }

  function CheckOf(h: Hashes, kind: u16, id: Bytes, ps: seq<Padded>, digest: Digest): u32
    requires |id| == 12 && Plain(ps) && |EncodeAll(ps)| + 32 <= 0xffff
  {
    Xor32(h.crc(Header(kind, |EncodeAll(ps)| + 32, id) + EncodeAll(ps) + Encode(Integrity(digest))), FINGERPRINT_XOR)
  }

  function Signed(h: Hashes, key: Bytes, kind: u16, id: Bytes, ps: seq<Padded>): Bytes
    requires |id| == 12 && Plain(ps) && |EncodeAll(ps)| + 32 <= 0xffff
  {
    var digest := DigestOf(h, key, kind, id, ps);
    Message(kind, id, ps, digest, CheckOf(h, kind, id, ps, digest))
  }

  // ---- The walk reads back what was put together ----

  lemma Subslice(pk: Bytes, off: nat, i: nat, j: nat)
    requires off + j <= |pk| && i <= j
    ensures pk[off + i..off + j] == pk[off..][i..j] && pk[off + i..] == pk[off..][i..]
  {
  }

  lemma EncodedParts(p: Padded, rest: Bytes)
    requires WellPadded(p)
    ensures var tail, n := Encode(p) + rest, |p.attr.value|;
            && |tail| == 4 + n + |p.pad| + |rest|
            && tail[0..2] == Be16(p.attr.kind) && tail[2..4] == Be16(n) && tail[4..4 + n] == p.attr.value
            && tail[4 + n + |p.pad|..] == rest
  {
    hide Be16;
    var tail := Be16(p.attr.kind) + (Be16(|p.attr.value|) + (p.attr.value + (p.pad + rest)));
    assert Encode(p) + rest == tail;
  }

  lemma Read16At(pk: Bytes, off: nat, v: u16)
    requires off + 2 <= |pk| && pk[off..off + 2] == Be16(v)
    ensures Read16(pk, off) == v
  {
    var b := pk[off..off + 2];
    assert pk[off] == b[0] && pk[off + 1] == b[1];
  }

  /** One attribute at the walk's offset: its fields, and where the next one is. */
  lemma ReadsAttribute(pk: Bytes, off: nat, p: Padded, rest: Bytes)
    requires WellPadded(p) && off <= |pk| && pk[off..] == Encode(p) + rest
    ensures off + |Encode(p)| <= |pk| && |Encode(p)| == 4 + |p.attr.value| + |p.pad|
    ensures Read16(pk, off) == p.attr.kind && Read16(pk, off + 2) == |p.attr.value|
    ensures pk[off + 4..off + 4 + |p.attr.value|] == p.attr.value
    ensures pk[off + |Encode(p)|..] == rest
  {
    var n := |p.attr.value|;
    EncodedParts(p, rest);
    EncodedParts(p, []);
    assert Encode(p) + [] == Encode(p);
    hide Encode, Be16, Read16;
    Subslice(pk, off, 0, 2);
    Read16At(pk, off, p.attr.kind);
    Subslice(pk, off, 2, 4);
    Read16At(pk, off + 2, n);
    Subslice(pk, off, 4, 4 + n);
    Subslice(pk, off, |Encode(p)|, |Encode(p)|);
  }

  /** One turn of the walk. */
  lemma WalkStep(h: Hashes, key: Bytes, pk: Bytes, off: nat, p: Padded, rest: Bytes)
    requires WellPadded(p) && 20 <= off <= |pk| && pk[off..] == Encode(p) + rest
    ensures var next := off + |Encode(p)|;
            && next <= |pk| && pk[next..] == rest
            && var here := Check(h, key, pk, off, p.attr.kind);
               && (here != Accepted ==> Walk(h, key, pk, off, |pk|) == (here, [p.attr]))
               && (here == Accepted ==>
                     && Walk(h, key, pk, off, |pk|).0 == Walk(h, key, pk, next, |pk|).0
                     && Walk(h, key, pk, off, |pk|).1 == [p.attr] + Walk(h, key, pk, next, |pk|).1)
  {
    hide Check, Encode, Read16, Walk;
    ReadsAttribute(pk, off, p, rest);
    WalkTurn(h, key, pk, off, |pk|);
  }

  /** Plain attributes are met one by one, and the walk goes on after them. */
  lemma {:induction false} WalksPlain(h: Hashes, key: Bytes, pk: Bytes, off: nat, ps: seq<Padded>, rest: Bytes)
    requires Plain(ps) && 20 <= off <= |pk| && pk[off..] == EncodeAll(ps) + rest
    ensures off + |EncodeAll(ps)| <= |pk| && pk[off + |EncodeAll(ps)|..] == rest
    ensures var (r, seen) := Walk(h, key, pk, off + |EncodeAll(ps)|, |pk|);
            Walk(h, key, pk, off, |pk|).0 == r && Walk(h, key, pk, off, |pk|).1 == Attributes(ps) + seen
    decreases |ps|
  {
    hide Walk, Encode;
    if ps == [] {
      assert EncodeAll(ps) + rest == rest;
    } else {
      var p, next := ps[0], off + |Encode(ps[0])|;
      FirstEncoded(ps, rest);
      WalkStep(h, key, pk, off, p, EncodeAll(ps[1..]) + rest);
      assert Check(h, key, pk, off, p.attr.kind) == Accepted;
      hide EncodeAll, Plain, Check;
      WalksPlain(h, key, pk, next, ps[1..], rest);
      var seen := Walk(h, key, pk, off + |EncodeAll(ps)|, |pk|).1;
      assert [p.attr] + (Attributes(ps[1..]) + seen) == Attributes(ps) + seen;
    }
  }

  lemma FirstEncoded(ps: seq<Padded>, rest: Bytes)
    requires ps != [] && Plain(ps)
    ensures Plain(ps[1..]) && |EncodeAll(ps)| == |Encode(ps[0])| + |EncodeAll(ps[1..])|
    ensures EncodeAll(ps) + rest == Encode(ps[0]) + (EncodeAll(ps[1..]) + rest)
  {
    hide Encode, WellPadded;
    PlainRest(ps);
    var first, others := Encode(ps[0]), EncodeAll(ps[1..]);
    assert EncodeAll(ps) == first + others;
    Joined(first, others, rest);
  }

  lemma PlainRest(ps: seq<Padded>)
    requires ps != [] && Plain(ps)
    ensures Plain(ps[1..]) && ps[0] in ps && Plain([ps[0]])
  {
    hide WellPadded;
  }

  lemma Joined(a: Bytes, b: Bytes, c: Bytes)
    ensures a + b + c == a + (b + c)
  {
  }

  lemma HeaderFields(kind: u16, length: u16, id: Bytes, body: Bytes)
    requires |id| == 12
    ensures var pk := Header(kind, length, id) + body;
            && |pk| == 20 + |body| && Read16(pk, 0) == kind && Read16(pk, 2) == length && Read32(pk, 4) == COOKIE
            && pk[20..] == body
  {
  }

  lemma LengthReplaced(kind: u16, was: u16, length: u16, id: Bytes, body: Bytes)
    requires |id| == 12
    ensures Put(Header(kind, was, id) + body, 2, Be16(length)) == Header(kind, length, id) + body
  {
    var pk := Header(kind, was, id) + body;
    assert pk[..2] == Be16(kind) && pk[4..] == Be32(COOKIE) + id + body;
  }

  /** What the two closing attributes of a message look like from the outside. */
  lemma Layout(kind: u16, id: Bytes, ps: seq<Padded>, digest: Digest, check: u32)
    requires |id| == 12 && Plain(ps) && |EncodeAll(ps)| + 32 <= 0xffff
    ensures var pk, body := Message(kind, id, ps, digest, check), EncodeAll(ps);
            var mi, fp := Encode(Integrity(digest)), Encode(Fingerprint(check));
            && |mi| == 24 && mi[4..24] == digest && |fp| == 8 && fp[4..8] == Be32(check)
            && pk == Header(kind, |body| + 32, id) + (body + (mi + fp))
            && |pk| == 52 + |body| && Read16(pk, 2) == |body| + 32 && pk[20..] == body + (mi + fp)
  {
    hide Encode, EncodeAll, Header, WellPadded, Read16, Put;
    var body, mi, fp := EncodeAll(ps), Encode(Integrity(digest)), Encode(Fingerprint(check));
    ClosingLengths(digest, check);
    HeaderFields(kind, |body| + 32, id, body + (mi + fp));
    assert Message(kind, id, ps, digest, check) == Header(kind, |body| + 32, id) + (body + (mi + fp));
  }

  lemma IntegrityAt(h: Hashes, key: Bytes, kind: u16, id: Bytes, ps: seq<Padded>, digest: Digest, check: u32)
    requires |id| == 12 && Plain(ps) && |EncodeAll(ps)| + 32 <= 0xffff
    ensures var pk, off := Message(kind, id, ps, digest, check), 20 + |EncodeAll(ps)|;
            off + 24 <= |pk| && (IntegrityOk(h, key, pk, off) <==> digest == DigestOf(h, key, kind, id, ps))
  {
    assert DigestOf(h, key, kind, id, ps) == h.hmac(key, Header(kind, |EncodeAll(ps)| + 24, id) + EncodeAll(ps));
    hide *;
    Layout(kind, id, ps, digest, check);
    IntegrityOn(h, key, kind, id, EncodeAll(ps), Encode(Integrity(digest)), Encode(Fingerprint(check)), digest);
  }

  lemma IntegrityOn(h: Hashes, key: Bytes, kind: u16, id: Bytes, body: Bytes, mi: Bytes, fp: Bytes, digest: Digest)
    requires |id| == 12 && |body| + 32 <= 0xffff && |mi| == 24 && mi[4..24] == digest
    ensures var pk := Header(kind, |body| + 32, id) + (body + (mi + fp));
            && |pk| == 44 + |body| + |fp|
            && (IntegrityOk(h, key, pk, 20 + |body|) <==> digest == h.hmac(key, Header(kind, |body| + 24, id) + body))
  {
    hide Header, Put, Be16, IntegrityOk;
    var n, pk := |body|, Header(kind, |body| + 32, id) + (body + (mi + fp));
    CoveredByDigest(kind, id, body, mi + fp);
    assert pk[20..] == body + (mi + fp);
    Subslice(pk, 20, n + 4, n + 24);
    MiddlePart(body, mi, fp, 4, 24);
    assert (20 + n - 20 + 24) % 0x1_0000 == n + 24;
    IntegrityIff(h, key, pk, 20 + n, Header(kind, n + 24, id) + body, digest);
  }

  lemma IntegrityIff(h: Hashes, key: Bytes, pk: Bytes, off: nat, covered: Bytes, digest: Digest)
    requires 20 <= off && off + 24 <= |pk| && pk[off + 4..off + 24] == digest
    requires Put(pk, 2, Be16((off - 20 + 24) % 0x1_0000))[..off] == covered
    ensures IntegrityOk(h, key, pk, off) <==> digest == h.hmac(key, covered)
  {
    hide Put;
  }

  lemma MiddlePart(a: Bytes, b: Bytes, c: Bytes, i: nat, j: nat)
    requires i <= j <= |b|
    ensures (a + (b + c))[|a| + i..|a| + j] == b[i..j]
  {
  }

  /** Setting the length back leaves what the digest covers. */
  lemma CoveredByDigest(kind: u16, id: Bytes, body: Bytes, rest: Bytes)
    requires |id| == 12 && |body| + 32 <= 0xffff
    ensures |Header(kind, |body| + 32, id) + (body + rest)| == 20 + |body| + |rest|
    ensures Put(Header(kind, |body| + 32, id) + (body + rest), 2, Be16(|body| + 24))[..20 + |body|]
         == Header(kind, |body| + 24, id) + body
  {
    LengthReplaced(kind, |body| + 32, |body| + 24, id, body + rest);
    HeaderFields(kind, |body| + 24, id, body + rest);
    hide Put, Header;
    var head := Header(kind, |body| + 24, id);
    assert |head| == 20;
    assert (head + (body + rest))[..20 + |body|] == head + body;
  }

  lemma ClosingLengths(digest: Digest, check: u32)
    ensures |Encode(Integrity(digest))| == 24 && Encode(Integrity(digest))[4..24] == digest
    ensures |Encode(Fingerprint(check))| == 8 && Encode(Fingerprint(check))[4..8] == Be32(check)
  {
  }

  lemma FingerprintAt(h: Hashes, kind: u16, id: Bytes, ps: seq<Padded>, digest: Digest, check: u32)
    requires |id| == 12 && Plain(ps) && |EncodeAll(ps)| + 32 <= 0xffff
    ensures var pk, off := Message(kind, id, ps, digest, check), 44 + |EncodeAll(ps)|;
            off + 8 <= |pk| && (FingerprintOk(h, pk, off) <==> check == CheckOf(h, kind, id, ps, digest))
  {
    hide EncodeAll, Encode, WellPadded, Xor, Xor32;
    Layout(kind, id, ps, digest, check);
    var pk, n := Message(kind, id, ps, digest, check), |EncodeAll(ps)|;
    var fp := Encode(Fingerprint(check));
    var covered := Header(kind, n + 32, id) + EncodeAll(ps) + Encode(Integrity(digest));
    hide Header;
    assert pk == covered + fp && |covered| == 44 + n;
    ClosingLengths(digest, check);
    EndPart(covered, fp, 4, 8);
    hide Message, Be32, Read32;
    Read32At(pk, 48 + n, check);
  }

  lemma EndPart(a: Bytes, b: Bytes, i: nat, j: nat)
    requires i <= j <= |b|
    ensures (a + b)[..|a|] == a && (a + b)[|a| + i..|a| + j] == b[i..j]
  {
  }

  lemma Read32At(pk: Bytes, off: nat, v: u32)
    requires off + 4 <= |pk| && pk[off..off + 4] == Be32(v)
    ensures Read32(pk, off) == v
  {
    var b := pk[off..off + 4];
    assert pk[off] == b[0] && pk[off + 1] == b[1] && pk[off + 2] == b[2] && pk[off + 3] == b[3];
  }

  /** The walk over the last two attributes. */
  lemma WalksClosing(h: Hashes, key: Bytes, pk: Bytes, off: nat, digest: Digest, check: u32)
    requires 20 <= off <= |pk| && pk[off..] == Encode(Integrity(digest)) + Encode(Fingerprint(check))
    ensures off + 32 == |pk|
    ensures Walk(h, key, pk, off, |pk|).0
         == if IntegrityOk(h, key, pk, off) && FingerprintOk(h, pk, off + 24) then Accepted else Rejected
    ensures IntegrityOk(h, key, pk, off) ==>
              Walk(h, key, pk, off, |pk|).1 == [Integrity(digest).attr, Fingerprint(check).attr]
  {
    hide IntegrityOk, FingerprintOk, Encode, Walk;
    var fp := Encode(Fingerprint(check));
    ClosingLengths(digest, check);
    WalkStep(h, key, pk, off, Integrity(digest), fp);
    WalksFingerprint(h, key, pk, off + 24, check);
  }

  lemma WalksFingerprint(h: Hashes, key: Bytes, pk: Bytes, off: nat, check: u32)
    requires 20 <= off <= |pk| && pk[off..] == Encode(Fingerprint(check))
    ensures off + 8 == |pk|
    ensures Walk(h, key, pk, off, |pk|).0 == if FingerprintOk(h, pk, off) then Accepted else Rejected
    ensures Walk(h, key, pk, off, |pk|).1 == [Fingerprint(check).attr]
  {
    hide FingerprintOk, Encode;
    var fp := Encode(Fingerprint(check));
    ClosingLengths(seq(20, i => 0), check);
    assert fp + [] == fp;
    WalkStep(h, key, pk, off, Fingerprint(check), []);
    assert Walk(h, key, pk, off + 8, |pk|) == (Accepted, []);
  }

  /**
   * A message closed by a digest and a fingerprint is accepted exactly when both
   * are the ones the standard asks for; the walk then has met every attribute.
   */
  lemma ClosedMessage(h: Hashes, key: Bytes, kind: u16, id: Bytes, ps: seq<Padded>, digest: Digest, check: u32)
    requires |id| == 12 && Plain(ps) && |EncodeAll(ps)| + 32 <= 0xffff && key != []
    ensures var pk := Message(kind, id, ps, digest, check);
            && (WalkAll(h, key, pk).0 == Accepted <==>
                  digest == DigestOf(h, key, kind, id, ps) && check == CheckOf(h, kind, id, ps, digest))
            && (WalkAll(h, key, pk).0 == Accepted ==>
                  WalkAll(h, key, pk).1 == Attributes(ps) + [Integrity(digest).attr, Fingerprint(check).attr])
            && WalkAll(h, key, pk).0 != OutOfRange
  {
    hide Encode, Header, Walk, IntegrityOk, FingerprintOk, DigestOf, CheckOf, Attributes, Message, EncodeAll;
    var pk, n := Message(kind, id, ps, digest, check), |EncodeAll(ps)|;
    Layout(kind, id, ps, digest, check);
    WalksPlain(h, key, pk, 20, ps, Encode(Integrity(digest)) + Encode(Fingerprint(check)));
    WalksClosing(h, key, pk, 20 + n, digest, check);
    IntegrityAt(h, key, kind, id, ps, digest, check);
    FingerprintAt(h, kind, id, ps, digest, check);
  }

  /**
   * Whatever the other attributes, a message signed as the standard says is
   * STUN, and the walk accepts it and meets all of it.
   */
  lemma SignedIsAccepted(h: Hashes, key: Bytes, kind: u16, id: Bytes, ps: seq<Padded>)
    requires |id| == 12 && Plain(ps) && |EncodeAll(ps)| + 32 <= 0xffff && key != [] && kind < 0x4000
    ensures var pk := Signed(h, key, kind, id, ps);
            && IsStun(pk) && WalkAll(h, key, pk).0 == Accepted
            && |WalkAll(h, key, pk).1| == |ps| + 2 && WalkAll(h, key, pk).1[..|ps|] == Attributes(ps)
  {
    var digest := DigestOf(h, key, kind, id, ps);
    var check := CheckOf(h, kind, id, ps, digest);
    ClosedMessage(h, key, kind, id, ps, digest, check);
    AttributesLength(ps);
    Layout(kind, id, ps, digest, check);
    HeaderFields(kind, |EncodeAll(ps)| + 32, id, EncodeAll(ps) + (Encode(Integrity(digest)) + Encode(Fingerprint(check))));
    hide Encode, EncodeAll, WalkAll, DigestOf, CheckOf;
  }

  lemma {:induction false} AttributesLength(ps: seq<Padded>)
    ensures |Attributes(ps)| == |ps|
  {
    if ps != [] { AttributesLength(ps[1..]); }
  }

  // ---- The Binding Response ----

  datatype Endpoint = V4(ip: u32, port: u16) | V6(octets: Bytes, port: u16)

  predicate ValidEndpoint(e: Endpoint) { e.V6? ==> |e.octets| == 16 }

  function XorAll(a: Bytes, b: Bytes): (r: Bytes)
    requires |a| == |b|
    ensures |r| == |a|
  {
    seq(|a|, i requires 0 <= i < |a| => Xor8(a[i], b[i]))
  }

  /** Section 15.2 of RFC 5389: XOR-MAPPED-ADDRESS. */
  function XorAddress(e: Endpoint, id: Bytes): (v: Bytes)
    requires ValidEndpoint(e) && |id| == 12
    ensures |v| == if e.V4? then 8 else 20
  {
    var port := Be16(Xor16(e.port, 0x2112));
    match e
    case V4(ip, _) => [0, 1] + port + Be32(Xor32(ip, COOKIE))
    case V6(octets, _) => [0, 2] + port + XorAll(octets, Be32(COOKIE) + id)
  }

  /** What a client makes of the attribute, as the standard describes it. */
  function MappedAddress(v: Bytes, id: Bytes): Option<Endpoint>
    requires |id| == 12
  {
    if |v| == 8 && v[1] == 1 then Some(V4(Xor32(Read32(v, 4), COOKIE), Xor16(Read16(v, 2), 0x2112)))
    else if |v| == 20 && v[1] == 2 then Some(V6(XorAll(v[4..], Be32(COOKIE) + id), Xor16(Read16(v, 2), 0x2112)))
    else None
  }

  lemma PortSurvives(port: u16)
    ensures Xor16(Xor16(port, 0x2112), 0x2112) == port
  {
    Widths();
    XorTwice(port, 0x2112, 16);
    hide Xor;
  }

  lemma IpSurvives(ip: u32)
    ensures Xor32(Xor32(ip, COOKIE), COOKIE) == ip
  {
    Widths();
    XorTwice(ip, COOKIE, 32);
    hide Xor;
  }

  lemma OctetsSurvive(octets: Bytes, key: Bytes)
    requires |octets| == |key|
    ensures XorAll(XorAll(octets, key), key) == octets
  {
    Widths();
    forall i | 0 <= i < |octets| ensures Xor8(Xor8(octets[i], key[i]), key[i]) == octets[i] {
      XorTwice(octets[i], key[i], 8);
    }
    hide Xor, Xor8;
    assert XorAll(XorAll(octets, key), key) == octets;
  }

  lemma AddressSurvives(e: Endpoint, id: Bytes)
    requires ValidEndpoint(e) && |id| == 12
    ensures MappedAddress(XorAddress(e, id), id) == Some(e)
  {
    hide Xor16, Xor32, XorAll, Be16, Be32;
    var v := XorAddress(e, id);
    PortSurvives(e.port);
    assert v[2..4] == Be16(Xor16(e.port, 0x2112));
    Read16At(v, 2, Xor16(e.port, 0x2112));
    match e {
      case V4(ip, _) =>
        IpSurvives(ip);
        assert v[4..8] == Be32(Xor32(ip, COOKIE));
        Read32At(v, 4, Xor32(ip, COOKIE));
      case V6(octets, _) =>
        OctetsSurvive(octets, Be32(COOKIE) + id);
        assert v[4..] == XorAll(octets, Be32(COOKIE) + id);
    }
  }

  /** The 16 bytes an IPv6 address is masked with: the cookie and the transaction id. */
  function MaskByte(id: Bytes, k: nat): u8
    requires |id| == 12 && k < 16
  {
    if k == 0 then 0x21 else if k == 1 then 0x12 else if k == 2 then 0xA4 else if k == 3 then 0x42 else id[k - 4]
  }

  /** A bit of the value is the endpoint's, turned over where the mask has one. */
  predicate Masked(value: nat, plain: nat, mask: nat, bits: nat) {
    forall i: nat | i < bits :: Bit(value, i) == (Bit(plain, i) + Bit(mask, i)) % 2
  }

  /** The attribute's value from the endpoint, bit by bit: port under 0x2112, address under the cookie, and under the id too. */
  predicate MasksEndpoint(v: Bytes, e: Endpoint, id: Bytes)
    requires ValidEndpoint(e) && |id| == 12
  {
    && |v| == (if e.V4? then 8 else 20) && v[0] == 0 && v[1] == (if e.V4? then 1 else 2)
    && Masked(Read16(v, 2), e.port, 0x2112, 16)
    && (e.V4? ==> Masked(Read32(v, 4), e.ip, 0x2112A442, 32))
    && (e.V6? ==> forall k: nat | k < 16 :: Masked(v[4 + k], e.octets[k], MaskByte(id, k), 8))
  }

  lemma XorAddressBits(e: Endpoint, id: Bytes)
    requires ValidEndpoint(e) && |id| == 12
    ensures MasksEndpoint(XorAddress(e, id), e, id)
  {
    hide Xor, Bit, Xor8, Xor16, Xor32, Be16, Be32, XorAll, Masked;
    var v := XorAddress(e, id);
    assert v[2..4] == Be16(Xor16(e.port, 0x2112));
    Read16At(v, 2, Xor16(e.port, 0x2112));
    PortMasked(e.port);
    match e {
      case V4(ip, _) =>
        assert v[4..8] == Be32(Xor32(ip, COOKIE));
        Read32At(v, 4, Xor32(ip, COOKIE));
        WordMasked(ip, COOKIE);
      case V6(octets, _) =>
        assert v[4..] == XorAll(octets, Be32(COOKIE) + id);
        forall k: nat | k < 16 ensures Masked(v[4 + k], octets[k], MaskByte(id, k), 8) {
          OctetMasked(octets, id, k);
          assert v[4 + k] == v[4..][k];
        }
    }
  }

  lemma PortMasked(port: u16)
    ensures Masked(Xor16(port, 0x2112), port, 0x2112, 16)
  {
    hide Xor, Bit;
    forall i: nat | i < 16 { XorBit(port, 0x2112, 16, i); }
  }

  lemma WordMasked(v: u32, mask: u32)
    ensures Masked(Xor32(v, mask), v, mask, 32)
  {
    hide Xor, Bit;
    forall i: nat | i < 32 { XorBit(v, mask, 32, i); }
  }

  lemma OctetMasked(octets: Bytes, id: Bytes, k: nat)
    requires |octets| == 16 && |id| == 12 && k < 16
    ensures Masked(XorAll(octets, Be32(COOKIE) + id)[k], octets[k], MaskByte(id, k), 8)
  {
    CookieBytes();
    hide Xor, Bit, Be32;
    assert (Be32(COOKIE) + id)[k] == MaskByte(id, k);
    forall i: nat | i < 8 { XorBit(octets[k], MaskByte(id, k), 8, i); }
  }

  lemma CookieBytes()
    ensures Be32(COOKIE) == [0x21, 0x12, 0xA4, 0x42]
  {
  }

  function XorMapped(e: Endpoint, id: Bytes): (p: Padded)
    requires ValidEndpoint(e) && |id| == 12
    ensures WellPadded(p) && |Encode(p)| == 4 + |XorAddress(e, id)|
  {
    Padded(Attribute(0x0020, XorAddress(e, id)), [])
  }

  /** The response the standard asks for. */
  function BindingResponse(h: Hashes, key: Bytes, id: Bytes, e: Endpoint): Bytes
    requires ValidEndpoint(e) && |id| == 12
  {
    assert EncodeAll([XorMapped(e, id)]) == Encode(XorMapped(e, id));
    Signed(h, key, 0x0101, id, [XorMapped(e, id)])
  }

  /** `copy_from_slice` at off, behind bytes already written. */
  method WriteBytes(pk: array<u8>, off: nat, bs: Bytes)
    requires off + |bs| <= pk.Length
    modifies pk
    ensures pk[..off + |bs|] == old(pk[..off]) + bs
    ensures forall m | off + |bs| <= m <= pk.Length :: pk[m..] == old(pk[m..])
  {
    forall i | 0 <= i < |bs| { pk[off + i] := bs[i]; }
  }

  /** `set_message_length` on a message written up to some point. */
  method SetMessageLength(pk: array<u8>, length: u16, ghost kind: u16, ghost was: u16, ghost id: Bytes, ghost body: Bytes)
    requires |id| == 12 && 20 + |body| <= pk.Length && pk[..20 + |body|] == Header(kind, was, id) + body
    modifies pk
    ensures pk[..20 + |body|] == Header(kind, length, id) + body
    ensures forall m | 20 + |body| <= m <= pk.Length :: pk[m..] == old(pk[m..])
  {
    ghost var n := 20 + |body|;
    Write16(pk, 2, length);
    LengthReplaced(kind, was, length, id, body);
    hide Header, Be16;
    assert pk[..n] == Put(old(pk[..n]), 2, Be16(length));
  }

  method WriteXorMappedAddress(response: array<u8>, off: nat, e: Endpoint) returns (n: nat)
    requires ValidEndpoint(e) && 20 <= off && off + (if e.V4? then 12 else 24) <= response.Length
    modifies response
    ensures n == if e.V4? then 12 else 24
    ensures response[..off + n] == old(response[..off]) + Encode(XorMapped(e, old(response[8..20])))
    ensures forall m | off + n <= m <= response.Length :: response[m..] == old(response[m..])
  {
    hide Xor, Be32;
    var id := response[8..20];
    var port := Xor16(e.port, 0x2112);
    match e {
      case V4(ip, _) =>
        WriteBytes(response, off, Be16(0x0020) + Be16(8) + [0, 1] + Be16(port) + Be32(Xor32(ip, COOKIE)));
        assert Encode(XorMapped(e, id)) == Be16(0x0020) + Be16(8) + [0, 1] + Be16(port) + Be32(Xor32(ip, COOKIE));
        return 12;
      case V6(octets, _) =>
        var key := Be32(COOKIE) + id;
        WriteBytes(response, off, Be16(0x0020) + Be16(20) + [0, 2] + Be16(port) + XorAll(octets, key));
        assert Encode(XorMapped(e, id)) == Be16(0x0020) + Be16(20) + [0, 2] + Be16(port) + XorAll(octets, key);
        return 24;
    }
  }

  /** What both closing attributes begin with: type and length at off, and then the header's length set. */
  method OpenAttribute(response: array<u8>, off: nat, attr: u16, size: u16, length: u16,
                       ghost kind: u16, ghost was: u16, ghost id: Bytes, ghost body: Bytes)
    requires |id| == 12 && off == 20 + |body| && off + 4 <= response.Length
    requires response[..off] == Header(kind, was, id) + body
    modifies response
    ensures response[..off] == Header(kind, length, id) + body
    ensures response[..off + 4] == Header(kind, length, id) + body + (Be16(attr) + Be16(size))
    ensures forall m | off + 4 <= m <= response.Length :: response[m..] == old(response[m..])
  {
    ghost var typeAndLength := Be16(attr) + Be16(size);
    WriteBytes(response, off, Be16(attr) + Be16(size));
    hide Header, Be16;
    assert response[..off + 4] == Header(kind, was, id) + (body + typeAndLength);
    SetMessageLength(response, length, kind, was, id, body + typeAndLength);
    assert response[..off] == response[..off + 4][..off];
  }

  lemma IntegrityEnds(covered: Bytes, digest: Digest)
    ensures covered + (Be16(0x0008) + Be16(20)) + digest == covered + Encode(Integrity(digest))
  {
  }

  lemma FingerprintEnds(covered: Bytes, v: u32)
    ensures covered + (Be16(0x8028) + Be16(4)) + Be32(v) == covered + Encode(Fingerprint(v))
  {
  }

  /** Sets the header's length as if the digest came last, and puts the digest of everything before it at off. */
  method AddMessageIntegrity(h: Hashes, response: array<u8>, off: nat, key: Bytes,
                             ghost kind: u16, ghost was: u16, ghost id: Bytes, ghost body: Bytes)
    returns (n: nat)
    requires |id| == 12 && off == 20 + |body| && |body| + 24 <= 0xffff && off + 24 <= response.Length
    requires response[..off] == Header(kind, was, id) + body
    modifies response
    ensures n == 24
    ensures var covered := Header(kind, |body| + 24, id) + body;
            response[..off + 24] == covered + Encode(Integrity(h.hmac(key, covered)))
    ensures forall m | off + 24 <= m <= response.Length :: response[m..] == old(response[m..])
  {
    hide *;
    OpenAttribute(response, off, 0x0008, 20, (off - 20 + 24) % 0x1_0000, kind, was, id, body);
    var digest := h.hmac(key, response[..off]);
    WriteBytes(response, off + 4, digest);
    IntegrityEnds(Header(kind, |body| + 24, id) + body, digest);
    n := 24;
  }

  method AddFingerprint(h: Hashes, response: array<u8>, off: nat,
                        ghost kind: u16, ghost was: u16, ghost id: Bytes, ghost body: Bytes)
    returns (n: nat)
    requires |id| == 12 && off == 20 + |body| && |body| + 8 <= 0xffff && off + 8 <= response.Length
    requires response[..off] == Header(kind, was, id) + body
    modifies response
    ensures n == 8
    ensures var covered := Header(kind, |body| + 8, id) + body;
            response[..off + 8] == covered + Encode(Fingerprint(Xor32(h.crc(covered), FINGERPRINT_XOR)))
    ensures forall m | off + 8 <= m <= response.Length :: response[m..] == old(response[m..])
  {
    hide *;
    OpenAttribute(response, off, 0x8028, 4, (off - 20 + 8) % 0x1_0000, kind, was, id, body);
    var crc := Xor32(h.crc(response[..off]), FINGERPRINT_XOR);
    WriteBytes(response, off + 4, Be32(crc));
    FingerprintEnds(Header(kind, |body| + 8, id) + body, crc);
    n := 8;
  }

  /**
   * A buffer shorter than a header, or no key: nothing. Otherwise the response;
   * the code indexes past a buffer in between.
   */
  method CreateBindingResponse(h: Hashes, request: Bytes, response: array<u8>, e: Endpoint, key: Bytes) returns (n: nat)
    requires |request| >= 20 && ValidEndpoint(e)
    requires response.Length < 20 || response.Length >= if e.V4? then 64 else 76
    modifies response
    ensures n == if response.Length < 20 || key == [] then 0 else if e.V4? then 64 else 76
    ensures n == 0 ==> response[..] == old(response[..])
    ensures n > 0 ==> response[..n] == BindingResponse(h, key, request[8..20], e) && response[n..] == old(response[n..])
  {
    if response.Length < 20 || key == [] { return 0; }
    var id := request[8..20];
    WriteBytes(response, 0, Be16(0x0101) + [0, 0] + Be32(COOKIE) + id);
    assert response[..20] == Header(0x0101, 0, id);
    assert response[8..20] == id;
    n := WriteAttributes(h, response, id, e, key);
  }

  /** The response's header stands; the three attributes follow. */
  method WriteAttributes(h: Hashes, response: array<u8>, id: Bytes, e: Endpoint, key: Bytes) returns (off: nat)
    requires |id| == 12 && ValidEndpoint(e) && response.Length >= if e.V4? then 64 else 76
    requires response[..20] == Header(0x0101, 0, id) && response[8..20] == id
    modifies response
    ensures off == if e.V4? then 64 else 76
    ensures response[..off] == BindingResponse(h, key, id, e) && response[off..] == old(response[off..])
  {
    hide Header, Encode, BindingResponse, XorAddress, EncodeAll;
    off := 20;
    var k := WriteXorMappedAddress(response, off, e);
    ghost var body := Encode(XorMapped(e, id));
    assert response[..20 + k] == Header(0x0101, 0, id) + body;
    off := off + k;
    k := AddMessageIntegrity(h, response, off, key, 0x0101, 0, id, body);
    ghost var digest := h.hmac(key, Header(0x0101, |body| + 24, id) + body);
    ghost var mi := Encode(Integrity(digest));
    ClosingLengths(digest, 0);
    assert response[..off + 24] == Header(0x0101, |body| + 24, id) + (body + mi);
    off := off + k;
    k := AddFingerprint(h, response, off, 0x0101, |body| + 24, id, body + mi);
    off := off + k;
    ResponseParts(h, key, id, e);
  }

  /** The reference response, as the code adds it up. */
  lemma ResponseParts(h: Hashes, key: Bytes, id: Bytes, e: Endpoint)
    requires ValidEndpoint(e) && |id| == 12
    ensures var body := Encode(XorMapped(e, id));
            var mi := Encode(Integrity(h.hmac(key, Header(0x0101, |body| + 24, id) + body)));
            var covered := Header(0x0101, |body| + |mi| + 8, id) + (body + mi);
            BindingResponse(h, key, id, e) == covered + Encode(Fingerprint(Xor32(h.crc(covered), FINGERPRINT_XOR)))
  {
    var p := XorMapped(e, id);
    var body := Encode(p);
    assert EncodeAll([p]) == body;
    var digest := h.hmac(key, Header(0x0101, |body| + 24, id) + body);
    var mi := Encode(Integrity(digest));
    ClosingLengths(digest, 0);
    hide Header, Encode, XorAddress;
    assert digest == DigestOf(h, key, 0x0101, id, [p]);
    var head := Header(0x0101, |body| + 32, id);
    assert head + (body + mi) == head + body + mi;
  }

  /** Every response built is STUN, passes the peer's walk under the same key, and tells the peer its own address. */
  lemma ResponseIsAccepted(h: Hashes, key: Bytes, id: Bytes, e: Endpoint)
    requires ValidEndpoint(e) && |id| == 12 && key != []
    ensures var pk := BindingResponse(h, key, id, e);
            && IsStun(pk) && WalkAll(h, key, pk).0 == Accepted
            && |WalkAll(h, key, pk).1| == 3 && WalkAll(h, key, pk).1[0].kind == 0x0020
            && MappedAddress(WalkAll(h, key, pk).1[0].value, id) == Some(e)
  {
    var p := XorMapped(e, id);
    assert EncodeAll([p]) == Encode(p);
    SignedIsAccepted(h, key, 0x0101, id, [p]);
    AddressSurvives(e, id);
    assert Attributes([p]) == [p.attr];
    hide WalkAll, Signed, IsStun, XorAddress, MappedAddress;
    var seen := WalkAll(h, key, Signed(h, key, 0x0101, id, [p])).1;
    assert seen[0] == seen[..1][0];
  }

  /** The header's cookie and id, and the type and length of the address that follows: v is n bytes long. */
  function Front(id: Bytes, n: u8): Bytes { [0x21, 0x12, 0xA4, 0x42] + id + [0, 0x20, 0, n] }

  /**
   * The response byte by byte. Success to a Binding Request is 0x0101; the
   * length counts what follows the header, and for the digest only up to the
   * digest's end; each bit of the fingerprint is the checksum's under 0x5354554E.
   */
  lemma ResponseBytes(h: Hashes, key: Bytes, id: Bytes, e: Endpoint)
    requires ValidEndpoint(e) && |id| == 12
    ensures var pk, n := BindingResponse(h, key, id, e), if e.V4? then 8 else 20;
            && |pk| == n + 56
            && pk[..24] == [1, 1, 0, n + 36] + Front(id, n)
            && MasksEndpoint(pk[24..n + 24], e, id)
            && pk[n + 24..n + 48] == [0, 8, 0, 20] + h.hmac(key, [1, 1, 0, n + 28] + Front(id, n) + pk[24..n + 24])
            && pk[n + 48..n + 52] == [0x80, 0x28, 0, 4]
            && Masked(Read32(pk, n + 52), h.crc(pk[..n + 48]), 0x5354554E, 32)
  {
    hide XorAddress, BindingResponse, Be32, Xor32, Masked, Read32, MasksEndpoint;
    XorAddressBits(e, id);
    ResponseInBytes(h, key, id, e);
    var v := XorAddress(e, id);
    var n := |v|;
    var mi := [0, 8, 0, 20] + h.hmac(key, [1, 1, 0, n + 28] + Front(id, n) + v);
    var covered := [1, 1, 0, n + 36] + Front(id, n) + v + mi;
    WordMasked(h.crc(covered), FINGERPRINT_XOR);
    ResponseSlices([1, 1, 0, n + 36] + Front(id, n), v, mi, Xor32(h.crc(covered), FINGERPRINT_XOR));
  }

  /** The parts of a response one after the other. */
  lemma ResponseInBytes(h: Hashes, key: Bytes, id: Bytes, e: Endpoint)
    requires ValidEndpoint(e) && |id| == 12
    ensures var v := XorAddress(e, id);
            var n := |v|;
            var mi := [0, 8, 0, 20] + h.hmac(key, [1, 1, 0, n + 28] + Front(id, n) + v);
            var covered := [1, 1, 0, n + 36] + Front(id, n) + v + mi;
            BindingResponse(h, key, id, e)
            == covered + ([0x80, 0x28, 0, 4] + Be32(Xor32(h.crc(covered), FINGERPRINT_XOR)))
  {
    hide XorAddress, BindingResponse, Xor32, Be32;
    CookieBytes();
    ResponseParts(h, key, id, e);
    var v := XorAddress(e, id);
    var n := |v|;
    var body := Encode(XorMapped(e, id));
    assert body == [0, 0x20, 0, n] + v;
    assert Header(0x0101, n + 28, id) + body == [1, 1, 0, n + 28] + Front(id, n) + v;
    var digest := h.hmac(key, [1, 1, 0, n + 28] + Front(id, n) + v);
    var mi := Encode(Integrity(digest));
    assert mi == [0, 8, 0, 20] + digest;
    var covered := Header(0x0101, n + 36, id) + (body + mi);
    assert covered == [1, 1, 0, n + 36] + Front(id, n) + v + mi;
    var check := Xor32(h.crc(covered), FINGERPRINT_XOR);
    assert Encode(Fingerprint(check)) == [0x80, 0x28, 0, 4] + Be32(check);
  }

  /** Where the parts of a response lie. */
  lemma ResponseSlices(head: Bytes, v: Bytes, mi: Bytes, check: u32)
    requires |head| == 24 && |mi| == 24
    ensures var pk, n := head + v + mi + ([0x80, 0x28, 0, 4] + Be32(check)), |v|;
            && |pk| == n + 56 && pk[..24] == head && pk[24..n + 24] == v && pk[n + 24..n + 48] == mi
            && pk[..n + 48] == head + v + mi && pk[n + 48..n + 52] == [0x80, 0x28, 0, 4]
            && Read32(pk, n + 52) == check
  {
    hide Read32, Be32;
    var pk, n := head + v + mi + ([0x80, 0x28, 0, 4] + Be32(check)), |v|;
    assert pk[n + 52..n + 56] == Be32(check);
    Read32At(pk, n + 52, check);
  }
}
