/**
 * CodecBundle (rust/src/codec.rs): the lazy cache of every form of one tick's
 * audio, over codecs and filters that remember what they have processed. The
 * bundle is a class whose methods follow a value model; the theorems are about
 * that model: which results and memories do not depend on who asked first.
 */
module Codec {
  import opened Common
  import opened FirFilter

  /** Everything a codec object remembers. */
  type Memory = seq<int>

  /** The codecs behind the foreign interface, as functions of what they remember; None is a refusal. */
  datatype Codecs = Codecs(
    ilbcDecode: (Memory, seq<u8>) -> (Option<seq<i16>>, Memory),
    ilbcEncode: (Memory, seq<i16>) -> (Option<seq<u8>>, Memory),
    g722Decode: (Memory, seq<u8>) -> (Option<seq<i16>>, Memory),
    g722Encode: (Memory, seq<i16>) -> (Option<seq<u8>>, Memory),
    ulawDecode: seq<u8> -> seq<i16>,
    alawDecode: seq<u8> -> seq<i16>,
    ulawEncode: seq<i16> -> seq<u8>,
    alawEncode: seq<i16> -> seq<u8>)

  /** What outlives a feed: the codecs' memories, and the inputs of the two resampling filters. */
  datatype Memories = Memories(
    ilbcDecoder: Memory, ilbcEncoder: Memory, g722Decoder: Memory, g722Encoder: Memory,
    down: seq<i16>, up: seq<i16>)

  const NO_PT: u8 := 255

  datatype Bundle = Bundle(
    ilbcPts: set<u8>, wirePt: u8, wireBytes: seq<u8>,
    narrow: Option<seq<i16>>, wide: Option<seq<i16>>,
    pcma: Option<seq<u8>>, pcmu: Option<seq<u8>>, g722: Option<seq<u8>>, ilbc: Option<seq<u8>>,
    mem: Memories)
  {
    predicate IsIlbc(pt: u8) { pt == 97 || pt in ilbcPts }

    predicate FromIlbc() { wireBytes != [] && IsIlbc(wirePt) }

    predicate FromG722() { wireBytes != [] && wirePt == 9 }

    function Invalidate(): Bundle {
      this.(narrow := None, wide := None, pcma := None, pcmu := None, g722 := None, ilbc := None)
    }

    function FeedWire(pt: u8, payload: seq<u8>): Bundle { Invalidate().(wirePt := pt, wireBytes := payload) }

    function FeedLinear8k(samples: seq<i16>): Bundle {
      Invalidate().(wirePt := NO_PT, wireBytes := [], narrow := Some(samples))
    }

    function FeedLinear16k(samples: seq<i16>): Bundle {
      Invalidate().(wirePt := NO_PT, wireBytes := [], wide := Some(samples))
    }

    /** Right after a feed: one input, and no output yet. */
    predicate Fed() {
      && pcma.None? && pcmu.None? && g722.None? && ilbc.None?
      && (narrow.Some? || wide.Some? ==> wireBytes == []) && !(narrow.Some? && wide.Some?)
    }

    function RawWireIfPt(pt: u8): Option<seq<u8>> {
      if wirePt == NO_PT || wireBytes == [] then None
      else if (if pt == 0 || pt == 8 || pt == 9 then pt == wirePt else IsIlbc(pt) && IsIlbc(wirePt)) then Some(wireBytes)
      else None
    }

    // The accessors: what the bundle is after each. The answer is the cache they fill, if they fill it.

    function NeedNarrow(k: Codecs): Bundle
      decreases if FromG722() then 1 else 0
    {
      if narrow.Some? then this
      else if FromIlbc() then
        var (out, m) := k.ilbcDecode(mem.ilbcDecoder, wireBytes);
        this.(narrow := out, mem := mem.(ilbcDecoder := m))
      else if wireBytes != [] && wirePt == 0 then this.(narrow := Some(k.ulawDecode(wireBytes)))
      else if wireBytes != [] && wirePt == 8 then this.(narrow := Some(k.alawDecode(wireBytes)))
      else if FromG722() then
        var b := NeedWide(k);
        if b.wide.Some? then b.Downsample() else b
      else if wide.Some? then Downsample()
      else this
    }

    function Downsample(): Bundle
      requires wide.Some?
    {
      var (out, past) := Down(mem.down, wide.value);
      this.(narrow := Some(out), mem := mem.(down := past))
    }

    function NeedWide(k: Codecs): Bundle
      decreases if FromG722() then 0 else 1
    {
      if wide.Some? then this
      else if FromG722() then
        var (out, m) := k.g722Decode(mem.g722Decoder, wireBytes);
        this.(wide := out, mem := mem.(g722Decoder := m))
      else
        var b := NeedNarrow(k);
        if b.narrow.Some? then b.Upsample() else b
    }

    function Upsample(): Bundle
      requires narrow.Some?
    {
      var (out, past) := Up(mem.up, narrow.value);
      this.(wide := Some(out), mem := mem.(up := past))
    }

    function NeedWireAs(k: Codecs, pt: u8): Bundle {
      if IsIlbc(pt) then
        if ilbc.Some? then this
        else
          var b := NeedNarrow(k);
          if b.narrow.None? then b
          else
            var (out, m) := k.ilbcEncode(b.mem.ilbcEncoder, b.narrow.value);
            b.(ilbc := out, mem := b.mem.(ilbcEncoder := m))
      else if pt == 0 then
        if pcmu.Some? then this
        else
          var b := NeedNarrow(k);
          if b.narrow.None? then b else b.(pcmu := Some(k.ulawEncode(b.narrow.value)))
      else if pt == 8 then
        if pcma.Some? then this
        else
          var b := NeedNarrow(k);
          if b.narrow.None? then b else b.(pcma := Some(k.alawEncode(b.narrow.value)))
      else if pt == 9 then
        if g722.Some? then this
        else
          var b := NeedWide(k);
          if b.wide.None? then b
          else
            var (out, m) := k.g722Encode(b.mem.g722Encoder, b.wide.value);
            b.(g722 := out, mem := b.mem.(g722Encoder := m))
      else this
    }
  }

  datatype Demand = Narrow | Wide | As(pt: u8)

  datatype Answer = Linear(samples: Option<seq<i16>>) | Encoded(bytes: Option<seq<u8>>)

  function Serve(k: Codecs, b: Bundle, d: Demand): Bundle {
    match d
    case Narrow => b.NeedNarrow(k)
    case Wide => b.NeedWide(k)
    case As(pt) => b.NeedWireAs(k, pt)
  }

  /** What the call returns: the cache as it stands after the call. */
  function AnswerTo(k: Codecs, b: Bundle, d: Demand): Answer {
    var b1 := Serve(k, b, d);
    match d
    case Narrow => Linear(b1.narrow)
    case Wide => Linear(b1.wide)
    case As(pt) => Encoded(if b1.IsIlbc(pt) then b1.ilbc else if pt == 0 then b1.pcmu else if pt == 8 then b1.pcma
                           else if pt == 9 then b1.g722 else None)
  }

  function ServeAll(k: Codecs, b: Bundle, ds: seq<Demand>): Bundle
    decreases |ds|
  {
    if ds == [] then b else ServeAll(k, Serve(k, b, ds[0]), ds[1..])
  }

  // ---- What the input means, converted without a cache ----

  function NarrowOf(k: Codecs, b: Bundle): Option<seq<i16>> {
    if b.narrow.Some? then b.narrow
    else if b.FromIlbc() then k.ilbcDecode(b.mem.ilbcDecoder, b.wireBytes).0
    else if b.wireBytes != [] && b.wirePt == 0 then Some(k.ulawDecode(b.wireBytes))
    else if b.wireBytes != [] && b.wirePt == 8 then Some(k.alawDecode(b.wireBytes))
    else match NativeWideOf(k, b)
         case Some(w) => Some(Down(b.mem.down, w).0)
         case None => None
  }

  /** The wideband form when it comes first: given as such, or decoded from G.722. */
  function NativeWideOf(k: Codecs, b: Bundle): Option<seq<i16>> {
    if b.wide.Some? then b.wide
    else if b.FromG722() then k.g722Decode(b.mem.g722Decoder, b.wireBytes).0
    else None
  }

  function WideOf(k: Codecs, b: Bundle): Option<seq<i16>> {
    if b.wide.Some? || b.FromG722() then NativeWideOf(k, b)
    else match NarrowOf(k, b)
         case Some(n) => Some(Up(b.mem.up, n).0)
         case None => None
  }

  function WireOf(k: Codecs, b: Bundle, pt: u8): Option<seq<u8>> {
    var n, w := NarrowOf(k, b), WideOf(k, b);
    if b.IsIlbc(pt) then if n.Some? then k.ilbcEncode(b.mem.ilbcEncoder, n.value).0 else None
    else if pt == 0 then if n.Some? then Some(k.ulawEncode(n.value)) else None
    else if pt == 8 then if n.Some? then Some(k.alawEncode(n.value)) else None
    else if pt == 9 then if w.Some? then k.g722Encode(b.mem.g722Encoder, w.value).0 else None
    else None
  }

  // ---- What a feed means ----

  /** 8 kHz samples fed are the narrowband, and wideband is those resampled. */
  lemma FedNarrow(k: Codecs, b: Bundle, s: seq<i16>)
    ensures var c := b.FeedLinear8k(s);
            && NarrowOf(k, c) == Some(s) && WideOf(k, c) == Some(Up(b.mem.up, s).0)
            && c.mem == b.mem && c.ilbcPts == b.ilbcPts && c.Fed() && c.wireBytes == []
  {
  }

  /** 16 kHz samples fed are the wideband, and narrowband is those resampled. */
  lemma FedWide(k: Codecs, b: Bundle, s: seq<i16>)
    ensures var c := b.FeedLinear16k(s);
            && WideOf(k, c) == Some(s) && NarrowOf(k, c) == Some(Down(b.mem.down, s).0)
            && c.mem == b.mem && c.ilbcPts == b.ilbcPts && c.Fed() && c.wireBytes == []
  {
  }

  /** Bytes fed are what the decoder of their type makes of them; without bytes, or of an unknown type, there is nothing. */
  lemma FedWire(k: Codecs, b: Bundle, pt: u8, bytes: seq<u8>)
    ensures var c := b.FeedWire(pt, bytes);
            var n, w := NarrowOf(k, c), WideOf(k, c);
            var ilbc := pt == 97 || pt in b.ilbcPts;
            && c.mem == b.mem && c.ilbcPts == b.ilbcPts && c.Fed() && c.wireBytes == bytes && c.wirePt == pt
            && (bytes == [] ==> n.None? && w.None?)
            && (bytes != [] && ilbc ==> n == k.ilbcDecode(b.mem.ilbcDecoder, bytes).0)
            && (bytes != [] && !ilbc && pt == 0 ==> n == Some(k.ulawDecode(bytes)))
            && (bytes != [] && !ilbc && pt == 8 ==> n == Some(k.alawDecode(bytes)))
            && (bytes != [] && pt == 9 ==> w == k.g722Decode(b.mem.g722Decoder, bytes).0)
            && (bytes != [] && !ilbc && pt == 9 ==> n == if w.Some? then Some(Down(b.mem.down, w.value).0) else None)
            && (bytes != [] && pt != 9 ==> w == if n.Some? then Some(Up(b.mem.up, n.value).0) else None)
            && (!ilbc && pt !in {0, 8, 9} ==> n.None? && w.None?)
  {
  }

  function Converted(k: Codecs, b: Bundle, d: Demand): Answer {
    match d
    case Narrow => Linear(NarrowOf(k, b))
    case Wide => Linear(WideOf(k, b))
    case As(pt) => Encoded(WireOf(k, b, pt))
  }

  // ---- Refusals: a failed stage is not cached, so it runs again at the next demand ----

  /** Once a stage has refused, running it again changes nothing more. */
  predicate DecodeSettles(decode: (Memory, seq<u8>) -> (Option<seq<i16>>, Memory), m: Memory, bytes: seq<u8>) {
    decode(m, bytes).0.Some? || decode(decode(m, bytes).1, bytes) == decode(m, bytes)
  }

  predicate EncodeSettles(encode: (Memory, seq<i16>) -> (Option<seq<u8>>, Memory), m: Memory, samples: seq<i16>) {
    encode(m, samples).0.Some? || encode(encode(m, samples).1, samples) == encode(m, samples)
  }

  /** Every stage that some demand can set going settles. */
  predicate Settles(k: Codecs, b: Bundle) {
    && (b.FromIlbc() && b.narrow.None? ==> DecodeSettles(k.ilbcDecode, b.mem.ilbcDecoder, b.wireBytes))
    && (b.FromG722() && b.wide.None? ==> DecodeSettles(k.g722Decode, b.mem.g722Decoder, b.wireBytes))
    && (NarrowOf(k, b).Some? ==> EncodeSettles(k.ilbcEncode, b.mem.ilbcEncoder, NarrowOf(k, b).value))
    && (WideOf(k, b).Some? && !b.IsIlbc(9) ==> EncodeSettles(k.g722Encode, b.mem.g722Encoder, WideOf(k, b).value))
  }

  // ---- The state after any demands is a function of what was demanded, not of the order ----

  /** The stages of the conversion; a set of these says what has been attempted since the feed. */
  datatype Stage = ToNarrow | ToWide | ToPcma | ToPcmu | ToG722 | ToIlbc

  /** The stages a demand sets going after a feed. */
  function Attempts(k: Codecs, b: Bundle, d: Demand): set<Stage> {
    var narrow := if b.narrow.Some? then {}
                  else if !b.FromIlbc() && (b.FromG722() || b.wide.Some?) then {ToNarrow, ToWide}
                  else {ToNarrow};
    var wide := if b.wide.Some? then {} else if b.FromG722() then {ToWide} else {ToWide} + narrow;
    match d
    case Narrow => narrow
    case Wide => wide
    case As(pt) =>
      if b.IsIlbc(pt) then narrow + {ToIlbc}
      else if pt == 0 then narrow + {ToPcmu}
      else if pt == 8 then narrow + {ToPcma}
      else if pt == 9 then wide + {ToG722}
      else {}
  }

  function AllAttempts(k: Codecs, b: Bundle, ds: set<Demand>): set<Stage> {
    set d, x | d in ds && x in Attempts(k, b, d) :: x
  }

  /** The bundle once the stages in done have been attempted, each of them once, from the memories at the feed. */
  function After(k: Codecs, b: Bundle, done: set<Stage>): Bundle {
    var n, w := NarrowOf(k, b), WideOf(k, b);
    b.(narrow := if ToNarrow in done then n else b.narrow,
       wide := if ToWide in done then w else b.wide,
       pcmu := if ToPcmu in done && n.Some? then Some(k.ulawEncode(n.value)) else None,
       pcma := if ToPcma in done && n.Some? then Some(k.alawEncode(n.value)) else None,
       ilbc := if ToIlbc in done && n.Some? then k.ilbcEncode(b.mem.ilbcEncoder, n.value).0 else None,
       g722 := if ToG722 in done && w.Some? then k.g722Encode(b.mem.g722Encoder, w.value).0 else None,
       mem := Memories(
         if ToNarrow in done && b.narrow.None? && b.FromIlbc() then k.ilbcDecode(b.mem.ilbcDecoder, b.wireBytes).1
         else b.mem.ilbcDecoder,
         if ToIlbc in done && n.Some? then k.ilbcEncode(b.mem.ilbcEncoder, n.value).1 else b.mem.ilbcEncoder,
         if ToWide in done && b.wide.None? && b.FromG722() then k.g722Decode(b.mem.g722Decoder, b.wireBytes).1
         else b.mem.g722Decoder,
         if ToG722 in done && w.Some? then k.g722Encode(b.mem.g722Encoder, w.value).1 else b.mem.g722Encoder,
         if ToNarrow in done && Downsampled(k, b) then Down(b.mem.down, w.value).1 else b.mem.down,
         if ToWide in done && Upsampled(k, b) then Up(b.mem.up, n.value).1 else b.mem.up))
  }

  predicate Downsampled(k: Codecs, b: Bundle) {
    b.narrow.None? && !b.FromIlbc() && (b.FromG722() || b.wide.Some?) && WideOf(k, b).Some?
  }

  predicate Upsampled(k: Codecs, b: Bundle) { b.wide.None? && !b.FromG722() && NarrowOf(k, b).Some? }

  /** Sets of stages that can have been attempted: each with the stages it draws on. */
  predicate Closed(k: Codecs, b: Bundle, done: set<Stage>) {
    && (ToNarrow in done && !b.FromIlbc() && (b.FromG722() || b.wide.Some?) ==> ToWide in done)
    && (ToWide in done && b.narrow.None? && b.wide.None? && !b.FromG722() ==> ToNarrow in done)
    && (ToIlbc in done || ToPcma in done || ToPcmu in done ==> b.narrow.Some? || ToNarrow in done)
    && (ToG722 in done ==> b.wide.Some? || ToWide in done)
  }


  lemma AfterNothing(k: Codecs, b: Bundle)
    requires b.Fed()
    ensures After(k, b, {}) == b && Closed(k, b, {})
  {
  }

  lemma NarrowServedFromIlbc(k: Codecs, b: Bundle, done: set<Stage>)
    requires b.Fed() && Settles(k, b) && Closed(k, b, done) && b.FromIlbc()
    ensures After(k, b, done).NeedNarrow(k) == After(k, b, done + {ToNarrow})
  {
    hide Down, Up;
    assert b.narrow.None?;
  }

  /** G.722 straight to wideband, or wideband given: no other form is involved. */
  lemma NativeWideServed(k: Codecs, b: Bundle, done: set<Stage>)
    requires b.Fed() && Settles(k, b) && (b.FromG722() || b.wide.Some?)
    ensures After(k, b, done).NeedWide(k) == After(k, b, done + {ToWide})
  {
    hide Down, Up;
  }

  lemma NarrowServed(k: Codecs, b: Bundle, done: set<Stage>)
    requires b.Fed() && Settles(k, b) && Closed(k, b, done)
    ensures After(k, b, done).NeedNarrow(k) == After(k, b, done + Attempts(k, b, Narrow))
    ensures Closed(k, b, done + Attempts(k, b, Narrow))
  {
    hide Down, Up;
    if b.FromIlbc() {
      NarrowServedFromIlbc(k, b, done);
    } else if b.FromG722() || b.wide.Some? {
      NativeWideServed(k, b, done);
      assert done + {ToWide} + {ToNarrow} == done + {ToNarrow, ToWide};
    }
  }

  lemma WideServed(k: Codecs, b: Bundle, done: set<Stage>)
    requires b.Fed() && Settles(k, b) && Closed(k, b, done)
    ensures After(k, b, done).NeedWide(k) == After(k, b, done + Attempts(k, b, Wide))
    ensures Closed(k, b, done + Attempts(k, b, Wide))
  {
    hide Down, Up;
    if b.FromG722() || b.wide.Some? {
      NativeWideServed(k, b, done);
    } else {
      NarrowServed(k, b, done);
      var narrow := Attempts(k, b, Narrow);
      assert Attempts(k, b, Wide) == {ToWide} + narrow;
      var c, c1 := After(k, b, done), After(k, b, done + narrow);
      assert ToNarrow in done + narrow || b.narrow.Some?;
      assert c.wide.None? ==> c.NeedWide(k) == if c1.narrow.Some? then c1.Upsample() else c1;
      if c.wide.Some? {
        assert done + ({ToWide} + narrow) == done;
      } else if NarrowOf(k, b).None? {
        assert c1 == After(k, b, done + ({ToWide} + narrow));
      } else {
        assert ToWide !in done && c1.narrow == NarrowOf(k, b) && c1.mem.up == b.mem.up;
        assert c1.Upsample() == After(k, b, done + ({ToWide} + narrow));
      }
    }
  }

  lemma OneMoreStage(k: Codecs, b: Bundle, done: set<Stage>, s: Stage)
    requires Closed(k, b, done) && s in {ToPcmu, ToPcma, ToIlbc}
    ensures var narrow := Attempts(k, b, Narrow);
            && done + (narrow + {s}) == done + narrow + {s} && narrow <= {ToNarrow, ToWide}
            && (s in done ==> done + (narrow + {s}) == done)
  {
    hide NarrowOf, WideOf;
  }

  lemma IlbcServed(k: Codecs, b: Bundle, done: set<Stage>, pt: u8)
    requires b.Fed() && Settles(k, b) && Closed(k, b, done) && b.IsIlbc(pt)
    ensures After(k, b, done).NeedWireAs(k, pt) == After(k, b, done + Attempts(k, b, As(pt)))
  {
    NarrowServed(k, b, done);
    var narrow := Attempts(k, b, Narrow);
    OneMoreStage(k, b, done, ToIlbc);
    hide Down, Up, Bundle.NeedNarrow, Bundle.NeedWide, Closed, NarrowOf, WideOf, Downsampled, Upsampled;
  }

  /** What the G.711 stages do to the bundle. */
  lemma PcmStages(k: Codecs, b: Bundle, done: set<Stage>)
    ensures var c, n := After(k, b, done), NarrowOf(k, b);
            && c.ilbcPts == b.ilbcPts
            && c.pcmu == (if ToPcmu in done && n.Some? then Some(k.ulawEncode(n.value)) else None)
            && c.pcma == (if ToPcma in done && n.Some? then Some(k.alawEncode(n.value)) else None)
            && After(k, b, done + {ToPcmu}) == c.(pcmu := if n.Some? then Some(k.ulawEncode(n.value)) else None)
            && After(k, b, done + {ToPcma}) == c.(pcma := if n.Some? then Some(k.alawEncode(n.value)) else None)
  {
    hide NarrowOf, WideOf, Downsampled, Upsampled;
  }

  /** After a demand for narrowband its cache holds the plain conversion. */
  lemma NarrowKnown(k: Codecs, b: Bundle, done: set<Stage>)
    requires b.Fed()
    ensures After(k, b, done + Attempts(k, b, Narrow)).narrow == NarrowOf(k, b)
  {
    hide WideOf;
  }

  lemma PcmuServed(k: Codecs, b: Bundle, done: set<Stage>)
    requires b.Fed() && Settles(k, b) && Closed(k, b, done) && !b.IsIlbc(0)
    ensures After(k, b, done).NeedWireAs(k, 0) == After(k, b, done + Attempts(k, b, As(0)))
  {
    NarrowServed(k, b, done);
    OneMoreStage(k, b, done, ToPcmu);
    var narrow := Attempts(k, b, Narrow);
    PcmStages(k, b, done);
    PcmStages(k, b, done + narrow);
    NarrowKnown(k, b, done);
    assert Attempts(k, b, As(0)) == narrow + {ToPcmu};
    hide After, Closed, NarrowOf, WideOf, Settles, Attempts, Bundle.NeedNarrow, Bundle.NeedWide, Bundle.Fed;
  }

  lemma PcmaServed(k: Codecs, b: Bundle, done: set<Stage>)
    requires b.Fed() && Settles(k, b) && Closed(k, b, done) && !b.IsIlbc(8)
    ensures After(k, b, done).NeedWireAs(k, 8) == After(k, b, done + Attempts(k, b, As(8)))
  {
    NarrowServed(k, b, done);
    OneMoreStage(k, b, done, ToPcma);
    var narrow := Attempts(k, b, Narrow);
    PcmStages(k, b, done);
    PcmStages(k, b, done + narrow);
    NarrowKnown(k, b, done);
    assert Attempts(k, b, As(8)) == narrow + {ToPcma};
    hide After, Closed, NarrowOf, WideOf, Settles, Attempts, Bundle.NeedNarrow, Bundle.NeedWide, Bundle.Fed;
  }

  lemma NarrowWireClosed(k: Codecs, b: Bundle, done: set<Stage>, pt: u8)
    requires b.Fed() && Closed(k, b, done) && (b.IsIlbc(pt) || pt == 0 || pt == 8)
    ensures Closed(k, b, done + Attempts(k, b, As(pt)))
  {
  }

  lemma WideWireServed(k: Codecs, b: Bundle, done: set<Stage>)
    requires b.Fed() && Settles(k, b) && Closed(k, b, done) && !b.IsIlbc(9)
    ensures After(k, b, done).NeedWireAs(k, 9) == After(k, b, done + Attempts(k, b, As(9)))
    ensures Closed(k, b, done + Attempts(k, b, As(9)))
  {
    WideServed(k, b, done);
    hide Down, Up, Bundle.NeedNarrow, Bundle.NeedWide;
    var wide := Attempts(k, b, Wide);
    assert wide <= {ToNarrow, ToWide};
    assert Attempts(k, b, As(9)) == wide + {ToG722};
    assert done + (wide + {ToG722}) == done + wide + {ToG722};
    if ToG722 in done {
      assert done + (wide + {ToG722}) == done;
    }
  }

  lemma WireServed(k: Codecs, b: Bundle, done: set<Stage>, pt: u8)
    requires b.Fed() && Settles(k, b) && Closed(k, b, done)
    ensures After(k, b, done).NeedWireAs(k, pt) == After(k, b, done + Attempts(k, b, As(pt)))
    ensures Closed(k, b, done + Attempts(k, b, As(pt)))
  {
    if b.IsIlbc(pt) {
      IlbcServed(k, b, done, pt);
      NarrowWireClosed(k, b, done, pt);
    } else if pt == 0 || pt == 8 {
      if pt == 0 { PcmuServed(k, b, done); } else { PcmaServed(k, b, done); }
      NarrowWireClosed(k, b, done, pt);
    } else if pt == 9 {
      WideWireServed(k, b, done);
    } else {
      assert done + {} == done;
    }
  }

  lemma Served(k: Codecs, b: Bundle, done: set<Stage>, d: Demand)
    requires b.Fed() && Settles(k, b) && Closed(k, b, done)
    ensures Serve(k, After(k, b, done), d) == After(k, b, done + Attempts(k, b, d))
    ensures Closed(k, b, done + Attempts(k, b, d))
    ensures AnswerTo(k, After(k, b, done), d) == Converted(k, b, d)
  {
    match d {
      case Narrow => NarrowServed(k, b, done);
      case Wide => WideServed(k, b, done);
      case As(pt) => WireServed(k, b, done, pt);
    }
    hide Closed, Settles, Down, Up, Bundle.NeedNarrow, Bundle.NeedWide, Bundle.NeedWireAs;
  }

  lemma {:induction false} AllServed(k: Codecs, b: Bundle, done: set<Stage>, ds: seq<Demand>)
    requires b.Fed() && Settles(k, b) && Closed(k, b, done)
    ensures ServeAll(k, After(k, b, done), ds) == After(k, b, done + AllAttempts(k, b, set d | d in ds))
    ensures Closed(k, b, done + AllAttempts(k, b, set d | d in ds))
    decreases |ds|
  {
    hide After, Closed, Attempts, Settles, Serve;
    var all := AllAttempts(k, b, set d | d in ds);
    if ds == [] {
      assert done + all == done;
    } else {
      Served(k, b, done, ds[0]);
      AllServed(k, b, done + Attempts(k, b, ds[0]), ds[1..]);
      var rest := AllAttempts(k, b, set d | d in ds[1..]);
      assert ds == [ds[0]] + ds[1..];
      assert all == Attempts(k, b, ds[0]) + rest;
      assert done + Attempts(k, b, ds[0]) + rest == done + all;
    }
  }

  /**
   * After a feed, what every demand returns is the uncached conversion of what
   * was fed, whatever was demanded before it and however often.
   */
  lemma AnswersIgnoreHistory(k: Codecs, b: Bundle, ds: seq<Demand>, d: Demand)
    requires b.Fed() && Settles(k, b)
    ensures AnswerTo(k, ServeAll(k, b, ds), d) == Converted(k, b, d)
  {
    AfterNothing(k, b);
    AllServed(k, b, {}, ds);
    hide After, Closed, Settles;
    Served(k, b, {} + AllAttempts(k, b, set d | d in ds), d);
  }

  /** Each stage runs at most once on what was fed: every memory is the one at the feed, or one application later. */
  lemma EveryStageAtMostOnce(k: Codecs, b: Bundle, ds: seq<Demand>)
    requires b.Fed() && Settles(k, b)
    ensures var m, m1, n, w := b.mem, ServeAll(k, b, ds).mem, NarrowOf(k, b), WideOf(k, b);
            && m1.ilbcDecoder in {m.ilbcDecoder, k.ilbcDecode(m.ilbcDecoder, b.wireBytes).1}
            && m1.g722Decoder in {m.g722Decoder, k.g722Decode(m.g722Decoder, b.wireBytes).1}
            && (m1.ilbcEncoder == m.ilbcEncoder || (n.Some? && m1.ilbcEncoder == k.ilbcEncode(m.ilbcEncoder, n.value).1))
            && (m1.g722Encoder == m.g722Encoder || (w.Some? && m1.g722Encoder == k.g722Encode(m.g722Encoder, w.value).1))
            && (m1.down == m.down || (w.Some? && m1.down == Down(m.down, w.value).1))
            && (m1.up == m.up || (n.Some? && m1.up == Up(m.up, n.value).1))
  {
    AfterNothing(k, b);
    AllServed(k, b, {}, ds);
    hide Closed, Settles, Down, Up, NarrowOf, WideOf, ServeAll, AllAttempts;
  }

  /** Two runs of demands that ask for the same things. */
  predicate SameDemands(xs: seq<Demand>, ys: seq<Demand>) { (set d | d in xs) == (set d | d in ys) }

  lemma OrderDoesNotMatter(k: Codecs, b: Bundle, xs: seq<Demand>, ys: seq<Demand>)
    requires b.Fed() && Settles(k, b) && SameDemands(xs, ys)
    ensures ServeAll(k, b, xs) == ServeAll(k, b, ys)
  {
    AfterNothing(k, b);
    AllServed(k, b, {}, xs);
    AllServed(k, b, {}, ys);
  }

  ghost predicate OrderFree(k: Codecs, b: Bundle) {
    forall xs, ys :: SameDemands(xs, ys) ==> ServeAll(k, b, xs) == ServeAll(k, b, ys)
  }

  lemma TwiceIsOnce(k: Codecs, b: Bundle, d: Demand)
    requires OrderFree(k, b)
    ensures Serve(k, Serve(k, b, d), d) == Serve(k, b, d)
  {
    assert (set x | x in [d]) == {d} == (set x | x in [d, d]);
    assert SameDemands([d], [d, d]);
    hide Serve;
    var b1 := Serve(k, b, d);
    assert ServeAll(k, b1, []) == b1;
    assert [d, d][1..] == [d] && [d][1..] == [];
    assert ServeAll(k, b1, [d]) == ServeAll(k, Serve(k, b1, d), [d][1..]) == Serve(k, b1, d);
    assert ServeAll(k, b, [d, d]) == ServeAll(k, b1, [d]);
    assert ServeAll(k, b, [d]) == ServeAll(k, b1, []);
  }

  /**
   * Exactly when the order and repetition of demands make no difference to the
   * bundle: when every stage that can refuse what was fed settles once it has.
   */
  lemma OrderFreeIffSettles(k: Codecs, b: Bundle)
    requires b.Fed()
    ensures OrderFree(k, b) <==> Settles(k, b)
  {
    if Settles(k, b) {
      forall xs, ys | SameDemands(xs, ys) ensures ServeAll(k, b, xs) == ServeAll(k, b, ys) {
        OrderDoesNotMatter(k, b, xs, ys);
      }
    }
    if OrderFree(k, b) {
      TwiceIsOnce(k, b, Narrow);
      TwiceIsOnce(k, b, Wide);
      TwiceIsOnce(k, b, As(97));
      TwiceIsOnce(k, b, As(9));
      hide OrderFree;
      DecodersSettle(k, b);
      if NarrowOf(k, b).Some? { IlbcEncoderSettles(k, b); }
      if WideOf(k, b).Some? && !b.IsIlbc(9) { G722EncoderSettles(k, b); }
    }
  }

  lemma DecodersSettle(k: Codecs, b: Bundle)
    requires b.Fed() && b.NeedNarrow(k).NeedNarrow(k) == b.NeedNarrow(k) && b.NeedWide(k).NeedWide(k) == b.NeedWide(k)
    ensures b.FromIlbc() && b.narrow.None? ==> DecodeSettles(k.ilbcDecode, b.mem.ilbcDecoder, b.wireBytes)
    ensures b.FromG722() && b.wide.None? ==> DecodeSettles(k.g722Decode, b.mem.g722Decoder, b.wireBytes)
  {
    hide Down, Up;
    var b1, b2 := b.NeedNarrow(k), b.NeedWide(k);
    assert b1.wireBytes == b.wireBytes && b1.wirePt == b.wirePt && b1.ilbcPts == b.ilbcPts;
    assert b2.wireBytes == b.wireBytes && b2.wirePt == b.wirePt && b2.ilbcPts == b.ilbcPts;
  }

  lemma IlbcEncoderSettles(k: Codecs, b: Bundle)
    requires b.Fed() && NarrowOf(k, b).Some? && b.NeedWireAs(k, 97).NeedWireAs(k, 97) == b.NeedWireAs(k, 97)
    ensures EncodeSettles(k.ilbcEncode, b.mem.ilbcEncoder, NarrowOf(k, b).value)
  {
    FirstNeed(k, b);
    hide Down, Up;
    var b0 := b.NeedNarrow(k);
    var b1 := b.NeedWireAs(k, 97);
    assert b1.narrow == b0.narrow && b1.NeedNarrow(k) == b1;
  }

  lemma G722EncoderSettles(k: Codecs, b: Bundle)
    requires b.Fed() && WideOf(k, b).Some? && !b.IsIlbc(9) && b.NeedWireAs(k, 9).NeedWireAs(k, 9) == b.NeedWireAs(k, 9)
    ensures EncodeSettles(k.g722Encode, b.mem.g722Encoder, WideOf(k, b).value)
  {
    FirstNeed(k, b);
    hide Down, Up;
    var b0 := b.NeedWide(k);
    var b1 := b.NeedWireAs(k, 9);
    assert b1.wide == b0.wide && b1.NeedWide(k) == b1;
  }

  /** The first demand after a feed is the plain conversion, settled or not, and leaves the encoders alone. */
  lemma FirstNeed(k: Codecs, b: Bundle)
    requires b.Fed()
    ensures b.NeedNarrow(k).narrow == NarrowOf(k, b) && b.NeedWide(k).wide == WideOf(k, b)
    ensures b.NeedNarrow(k).mem.ilbcEncoder == b.mem.ilbcEncoder && b.NeedWide(k).mem.g722Encoder == b.mem.g722Encoder
    ensures b.NeedNarrow(k).ilbcPts == b.ilbcPts == b.NeedWide(k).ilbcPts
    ensures b.NeedNarrow(k).ilbc.None? && b.NeedWide(k).g722.None?
  {
    hide Down, Up;
  }

  // ---- The dynamic iLBC types ----

  /** Alike but for the number under which iLBC came in. */
  predicate SameIlbc(b: Bundle, c: Bundle) {
    b == c.(wirePt := b.wirePt) && b.IsIlbc(b.wirePt) && c.IsIlbc(c.wirePt) && b.wirePt != 9 && c.wirePt != 9
  }

  lemma ServedAlike(k: Codecs, b: Bundle, c: Bundle, d: Demand)
    requires SameIlbc(b, c)
    ensures SameIlbc(Serve(k, b, d), Serve(k, c, d)) && AnswerTo(k, b, d) == AnswerTo(k, c, d)
  {
    LinearAlike(k, b, c);
    if d.As? { WireAlike(k, b, c, d.pt); }
    hide Bundle.NeedNarrow, Bundle.NeedWide, Bundle.NeedWireAs;
  }

  lemma WireAlike(k: Codecs, b: Bundle, c: Bundle, pt: u8)
    requires SameIlbc(b, c)
    ensures SameIlbc(b.NeedWireAs(k, pt), c.NeedWireAs(k, pt))
  {
    LinearAlike(k, b, c);
    hide Bundle.NeedNarrow, Bundle.NeedWide;
  }

  lemma LinearAlike(k: Codecs, b: Bundle, c: Bundle)
    requires SameIlbc(b, c)
    ensures SameIlbc(b.NeedNarrow(k), c.NeedNarrow(k)) && SameIlbc(b.NeedWide(k), c.NeedWide(k))
  {
    hide Down, Up;
  }

  /**
   * Bytes fed under a negotiated iLBC type are answered for, after any demands,
   * as if they had come under the static type 97. The number 9 is apart, as G.722
   * is asked first for wideband.
   */
  lemma {:induction false} DynamicTypeIsStatic(k: Codecs, b: Bundle, pt: u8, bytes: seq<u8>, ds: seq<Demand>, d: Demand)
    requires pt in b.ilbcPts && pt != 9
    ensures SameIlbc(ServeAll(k, b.FeedWire(pt, bytes), ds), ServeAll(k, b.FeedWire(97, bytes), ds))
    ensures AnswerTo(k, ServeAll(k, b.FeedWire(pt, bytes), ds), d) == AnswerTo(k, ServeAll(k, b.FeedWire(97, bytes), ds), d)
  {
    AllServedAlike(k, b.FeedWire(pt, bytes), b.FeedWire(97, bytes), ds);
    ServedAlike(k, ServeAll(k, b.FeedWire(pt, bytes), ds), ServeAll(k, b.FeedWire(97, bytes), ds), d);
  }

  lemma {:induction false} AllServedAlike(k: Codecs, b: Bundle, c: Bundle, ds: seq<Demand>)
    requires SameIlbc(b, c)
    ensures SameIlbc(ServeAll(k, b, ds), ServeAll(k, c, ds))
    decreases |ds|
  {
    if ds != [] {
      ServedAlike(k, b, c, ds[0]);
      hide Serve, SameIlbc, AnswerTo;
      AllServedAlike(k, Serve(k, b, ds[0]), Serve(k, c, ds[0]), ds[1..]);
    }
  }

  // ---- Encoding from another channel's bundle ----

  datatype Transcoding = Transcoding(dst: Bundle, src: Bundle, out: Option<seq<u8>>)

  /** `encode_from`: the source's own bytes when the codecs agree, otherwise its samples through this side's encoder. */
  function Transcode(k: Codecs, dst: Bundle, src: Bundle, pt: u8): Transcoding {
    var raw := src.RawWireIfPt(pt);
    if raw.Some? && pt == 0 then Transcoding(dst.(pcmu := raw), src, raw)
    else if raw.Some? && pt == 8 then Transcoding(dst.(pcma := raw), src, raw)
    else if raw.Some? && pt == 9 then Transcoding(dst.(g722 := raw), src, raw)
    else if raw.Some? && dst.IsIlbc(pt) then Transcoding(dst.(ilbc := raw), src, raw)
    else if pt == 9 then
      var s := src.NeedWide(k);
      if s.wide.None? then Transcoding(dst, s, None)
      else
        var (out, m) := k.g722Encode(dst.mem.g722Encoder, s.wide.value);
        var d := dst.(mem := dst.mem.(g722Encoder := m));
        Transcoding(if out.Some? then d.(g722 := out) else d, s, out)
    else if dst.IsIlbc(pt) then
      var s := src.NeedNarrow(k);
      if s.narrow.None? then Transcoding(dst, s, None)
      else
        var (out, m) := k.ilbcEncode(dst.mem.ilbcEncoder, s.narrow.value);
        Transcoding(dst.(ilbc := out, mem := dst.mem.(ilbcEncoder := m)), s, out)
    else if pt == 0 || pt == 8 then
      var s := src.NeedNarrow(k);
      if s.narrow.None? then Transcoding(dst, s, None)
      else if pt == 0 then
        var out := Some(k.ulawEncode(s.narrow.value));
        Transcoding(dst.(pcmu := out), s, out)
      else
        var out := Some(k.alawEncode(s.narrow.value));
        Transcoding(dst.(pcma := out), s, out)
    else Transcoding(dst, src, None)
  }

  /** What goes out does not depend on who else has drawn on the source this tick. */
  lemma TranscodeIgnoresHistory(k: Codecs, dst: Bundle, src: Bundle, ds: seq<Demand>, pt: u8)
    requires src.Fed() && Settles(k, src)
    ensures var fresh1, later := Transcode(k, dst, src, pt), Transcode(k, dst, ServeAll(k, src, ds), pt);
            later.out == fresh1.out && later.dst == fresh1.dst
  {
    AnswersIgnoreHistory(k, src, [], Narrow);
    AnswersIgnoreHistory(k, src, [], Wide);
    AnswersIgnoreHistory(k, src, ds, Narrow);
    AnswersIgnoreHistory(k, src, ds, Wide);
    AfterNothing(k, src);
    AllServed(k, src, {}, ds);
    SameInput(k, src, {} + AllAttempts(k, src, set d | d in ds), pt);
    var src1 := ServeAll(k, src, ds);
    assert src1.RawWireIfPt(pt) == src.RawWireIfPt(pt);
    hide Settles, Converted, ServeAll, After, Closed, AllAttempts;
    hide Bundle.NeedNarrow, Bundle.NeedWide, Bundle.RawWireIfPt, Bundle.Fed;
    assert AnswerTo(k, src, Narrow) == AnswerTo(k, src1, Narrow) && AnswerTo(k, src, Wide) == AnswerTo(k, src1, Wide) by {
      NothingServed(k, src);
    }
    SameForms(k, dst, src, src1, pt);
  }

  lemma NothingServed(k: Codecs, b: Bundle)
    ensures ServeAll(k, b, []) == b
  {
  }

  lemma SameForms(k: Codecs, dst: Bundle, src: Bundle, src1: Bundle, pt: u8)
    requires src1.RawWireIfPt(pt) == src.RawWireIfPt(pt)
    requires src1.NeedNarrow(k).narrow == src.NeedNarrow(k).narrow && src1.NeedWide(k).wide == src.NeedWide(k).wide
    ensures Transcode(k, dst, src1, pt).out == Transcode(k, dst, src, pt).out
    ensures Transcode(k, dst, src1, pt).dst == Transcode(k, dst, src, pt).dst
  {
    hide Bundle.NeedNarrow, Bundle.NeedWide, Bundle.RawWireIfPt;
  }

  lemma SameInput(k: Codecs, b: Bundle, done: set<Stage>, pt: u8)
    ensures After(k, b, done).RawWireIfPt(pt) == b.RawWireIfPt(pt)
  {
    hide Down, Up;
  }

  /** The source was fed bytes in the wire format asked for; all iLBC types count as one format. */
  predicate SameFormat(dst: Bundle, src: Bundle, pt: u8) {
    && src.wirePt != NO_PT && src.wireBytes != []
    && if pt in {0, 8, 9} then src.wirePt == pt else src.IsIlbc(pt) && src.IsIlbc(src.wirePt) && dst.IsIlbc(pt)
  }

  /**
   * Same codec on both sides, iLBC included: the bytes pass through untouched
   * and nothing is decoded or encoded. They also stand in the destination's own
   * cache, so its next `require_wire_as` answers with them instead of converting
   * its input - unless its iLBC type is a static number, when that asks for iLBC.
   * Otherwise what goes out is this side's encoding of the source's samples, if
   * it has any.
   */
  lemma PassThrough(k: Codecs, dst: Bundle, src: Bundle, pt: u8)
    ensures var t := Transcode(k, dst, src, pt);
            if SameFormat(dst, src, pt) then
              && t.out == Some(src.wireBytes) && t.src == src && t.dst.mem == dst.mem
              && (!(pt in {0, 8, 9} && dst.IsIlbc(pt)) ==> AnswerTo(k, t.dst, As(pt)) == Encoded(Some(src.wireBytes)))
            else t.out == EncodedBy(k, dst, src, pt)
  {
    hide Bundle.NeedNarrow, Bundle.NeedWide;
  }

  /**
   * What stands in the destination afterwards: the bytes that went out, in the
   * output cache of their format, and the format's encoder one application
   * later. An encoder that was not asked, and everything else, is as it was.
   */
  lemma DestinationAfter(k: Codecs, dst: Bundle, src: Bundle, pt: u8)
    ensures var t, narrow, wide := Transcode(k, dst, src, pt), src.NeedNarrow(k).narrow, src.NeedWide(k).wide;
            var ilbc := pt == 97 || pt in dst.ilbcPts;
            t.dst ==
            if SameFormat(dst, src, pt) then
              (if pt == 0 then dst.(pcmu := Some(src.wireBytes)) else if pt == 8 then dst.(pcma := Some(src.wireBytes))
               else if pt == 9 then dst.(g722 := Some(src.wireBytes)) else dst.(ilbc := Some(src.wireBytes)))
            else if pt == 9 && wide.Some? then
              (var (out, m) := k.g722Encode(dst.mem.g722Encoder, wide.value);
               dst.(g722 := if out.Some? then out else dst.g722, mem := dst.mem.(g722Encoder := m)))
            else if pt != 9 && ilbc && narrow.Some? then
              (var (out, m) := k.ilbcEncode(dst.mem.ilbcEncoder, narrow.value);
               dst.(ilbc := out, mem := dst.mem.(ilbcEncoder := m)))
            else if pt == 0 && narrow.Some? then dst.(pcmu := Some(k.ulawEncode(narrow.value)))
            else if pt == 8 && narrow.Some? then dst.(pcma := Some(k.alawEncode(narrow.value)))
            else dst
  {
    hide Bundle.NeedNarrow, Bundle.NeedWide;
  }

  /** From a source that has just been fed, what goes out is this side's encoding of the plain conversion. */
  lemma EncodedFromFed(k: Codecs, dst: Bundle, src: Bundle, pt: u8)
    requires src.Fed() && !SameFormat(dst, src, pt)
    ensures var n, w, ilbc := NarrowOf(k, src), WideOf(k, src), pt == 97 || pt in dst.ilbcPts;
            Transcode(k, dst, src, pt).out
            == if pt == 9 then (if w.Some? then k.g722Encode(dst.mem.g722Encoder, w.value).0 else None)
               else if n.None? then None
               else if ilbc then k.ilbcEncode(dst.mem.ilbcEncoder, n.value).0
               else if pt == 0 then Some(k.ulawEncode(n.value))
               else if pt == 8 then Some(k.alawEncode(n.value))
               else None
  {
    PassThrough(k, dst, src, pt);
    FirstNeed(k, src);
    hide Transcode, NarrowOf, WideOf, Bundle.NeedNarrow, Bundle.NeedWide, SameFormat, Bundle.Fed;
  }

  /** What the destination's encoder for this type makes of the source's samples. */
  function EncodedBy(k: Codecs, dst: Bundle, src: Bundle, pt: u8): Option<seq<u8>> {
    var narrow, wide := src.NeedNarrow(k).narrow, src.NeedWide(k).wide;
    if pt == 9 then if wide.Some? then k.g722Encode(dst.mem.g722Encoder, wide.value).0 else None
    else if narrow.None? then None
    else if dst.IsIlbc(pt) then k.ilbcEncode(dst.mem.ilbcEncoder, narrow.value).0
    else if pt == 0 then Some(k.ulawEncode(narrow.value))
    else if pt == 8 then Some(k.alawEncode(narrow.value))
    else None
  }

  /** Decoding and resampling leave the encoded forms alone. */
  lemma NeedsKeepOutputs(k: Codecs, b: Bundle)
    ensures forall c | c == b.NeedNarrow(k) || c == b.NeedWide(k) ::
              c.pcmu == b.pcmu && c.pcma == b.pcma && c.g722 == b.g722 && c.ilbc == b.ilbc && c.ilbcPts == b.ilbcPts
  {
    hide Down, Up;
  }

  // ---- The bundle ----

  class CodecBundle {
    const k: Codecs
    var localIlbcPt: u8
    var peerIlbcPt: u8
    var wirePt: u8
    var wireBytes: seq<u8>
    var narrowband8k: Option<seq<i16>>
    var wideband16k: Option<seq<i16>>
    var pcmaOut: Option<seq<u8>>
    var pcmuOut: Option<seq<u8>>
    var g722Out: Option<seq<u8>>
    var ilbcOut: Option<seq<u8>>
    var mem: Memories

    function Model(): Bundle
      reads this
    {
      Bundle({localIlbcPt, peerIlbcPt}, wirePt, wireBytes, narrowband8k, wideband16k, pcmaOut, pcmuOut, g722Out, ilbcOut, mem)
    }

    constructor (k: Codecs, initial: Memories)
      ensures this.k == k && Model() == Bundle({97}, NO_PT, [], None, None, None, None, None, None, initial)
      ensures Model().Fed()
    {
      this.k := k;
      localIlbcPt, peerIlbcPt := 97, 97;
      wirePt, wireBytes := NO_PT, [];
      narrowband8k, wideband16k := None, None;
      pcmaOut, pcmuOut, g722Out, ilbcOut := None, None, None, None;
      mem := initial;
    }

    method InvalidateCaches()
      modifies this
      ensures Model() == old(Model()).Invalidate()
    {
      narrowband8k, wideband16k := None, None;
      pcmaOut, pcmuOut, g722Out, ilbcOut := None, None, None, None;
    }

    method FeedWire(pt: u8, payload: seq<u8>)
      modifies this
      ensures Model() == old(Model()).FeedWire(pt, payload) && Model().Fed()
    {
      wirePt := pt;
      wireBytes := payload;
      InvalidateCaches();
    }

    method FeedLinear8k(samples: seq<i16>)
      modifies this
      ensures Model() == old(Model()).FeedLinear8k(samples) && Model().Fed()
    {
      wirePt := NO_PT;
      wireBytes := [];
      InvalidateCaches();
      narrowband8k := Some(samples);
    }

    method FeedLinear16k(samples: seq<i16>)
      modifies this
      ensures Model() == old(Model()).FeedLinear16k(samples) && Model().Fed()
    {
      wirePt := NO_PT;
      wireBytes := [];
      InvalidateCaches();
      wideband16k := Some(samples);
    }

    method Downsample()
      requires wideband16k.Some?
      modifies this`narrowband8k, this`mem
      ensures Model() == old(Model()).Downsample()
    {
      var (nb, past) := Down(mem.down, wideband16k.value);
      mem := mem.(down := past);
      narrowband8k := Some(nb);
    }

    method RequireNarrowband8k() returns (r: Option<seq<i16>>)
      modifies this
      ensures Model() == old(Model()).NeedNarrow(k) && r == narrowband8k
      decreases if Model().FromG722() then 1 else 0
    {
      if narrowband8k.Some? { return narrowband8k; }
      if wireBytes != [] {
        if wirePt == 97 || wirePt == localIlbcPt || wirePt == peerIlbcPt {
          var (out, m) := k.ilbcDecode(mem.ilbcDecoder, wireBytes);
          mem := mem.(ilbcDecoder := m);
          narrowband8k := out;
          return narrowband8k;
        }
        if wirePt == 0 {
          narrowband8k := Some(k.ulawDecode(wireBytes));
          return narrowband8k;
        } else if wirePt == 8 {
          narrowband8k := Some(k.alawDecode(wireBytes));
          return narrowband8k;
        } else if wirePt == 9 {
          var wb := RequireWideband16k();
          if wb.None? { return None; }
          Downsample();
          return narrowband8k;
        }
      }
      if wideband16k.Some? {
        Downsample();
      }
      return narrowband8k;
    }

    method RequireWideband16k() returns (r: Option<seq<i16>>)
      modifies this
      ensures Model() == old(Model()).NeedWide(k) && r == wideband16k
      decreases if Model().FromG722() then 0 else 1
    {
      if wideband16k.Some? { return wideband16k; }
      if wirePt == 9 && wireBytes != [] {
        var (out, m) := k.g722Decode(mem.g722Decoder, wireBytes);
        mem := mem.(g722Decoder := m);
        wideband16k := out;
        return wideband16k;
      }
      var nb := RequireNarrowband8k();
      if nb.None? { return wideband16k; }
      var (wb, past) := Up(mem.up, nb.value);
      mem := mem.(up := past);
      wideband16k := Some(wb);
      return wideband16k;
    }

    method RequireWireAs(pt: u8) returns (r: Option<seq<u8>>)
      modifies this
      ensures Model() == old(Model()).NeedWireAs(k, pt)
      ensures Encoded(r) == AnswerTo(k, old(Model()), As(pt))
    {
      var ilbc := pt == 97 || pt == localIlbcPt || pt == peerIlbcPt;
      assert ilbc == Model().IsIlbc(pt);
      NoSuchType(Model(), pt);
      hide Bundle.NeedWireAs, AnswerTo, Bundle.IsIlbc;
      if ilbc {
        r := RequireIlbc(pt);
      } else if pt == 0 {
        r := RequirePcmu();
      } else if pt == 8 {
        r := RequirePcma();
      } else if pt == 9 {
        r := RequireG722();
      } else {
        r := None;
      }
    }

    lemma NoSuchType(b: Bundle, pt: u8)
      ensures !b.IsIlbc(pt) && pt !in {0, 8, 9} ==> b.NeedWireAs(k, pt) == b && AnswerTo(k, b, As(pt)) == Encoded(None)
    {
    }

    method RequireIlbc(pt: u8) returns (r: Option<seq<u8>>)
      requires Model().IsIlbc(pt)
      modifies this
      ensures Model() == old(Model()).NeedWireAs(k, pt) && Encoded(r) == AnswerTo(k, old(Model()), As(pt))
    {
      NeedsKeepOutputs(k, Model());
      hide Bundle.NeedNarrow, Bundle.NeedWide;
      if ilbcOut.Some? { return ilbcOut; }
      var nb := RequireNarrowband8k();
      if nb.None? { return None; }
      var (out, m) := k.ilbcEncode(mem.ilbcEncoder, nb.value);
      mem := mem.(ilbcEncoder := m);
      ilbcOut := out;
      return ilbcOut;
    }

    method RequirePcmu() returns (r: Option<seq<u8>>)
      requires !Model().IsIlbc(0)
      modifies this
      ensures Model() == old(Model()).NeedWireAs(k, 0) && Encoded(r) == AnswerTo(k, old(Model()), As(0))
    {
      NeedsKeepOutputs(k, Model());
      hide Bundle.NeedNarrow, Bundle.NeedWide;
      if pcmuOut.Some? { return pcmuOut; }
      var nb := RequireNarrowband8k();
      if nb.None? { return None; }
      pcmuOut := Some(k.ulawEncode(nb.value));
      return pcmuOut;
    }

    method RequirePcma() returns (r: Option<seq<u8>>)
      requires !Model().IsIlbc(8)
      modifies this
      ensures Model() == old(Model()).NeedWireAs(k, 8) && Encoded(r) == AnswerTo(k, old(Model()), As(8))
    {
      NeedsKeepOutputs(k, Model());
      hide Bundle.NeedNarrow, Bundle.NeedWide;
      if pcmaOut.Some? { return pcmaOut; }
      var nb := RequireNarrowband8k();
      if nb.None? { return None; }
      pcmaOut := Some(k.alawEncode(nb.value));
      return pcmaOut;
    }

    method RequireG722() returns (r: Option<seq<u8>>)
      requires !Model().IsIlbc(9)
      modifies this
      ensures Model() == old(Model()).NeedWireAs(k, 9) && Encoded(r) == AnswerTo(k, old(Model()), As(9))
    {
      NeedsKeepOutputs(k, Model());
      hide Bundle.NeedNarrow, Bundle.NeedWide;
      if g722Out.Some? { return g722Out; }
      var wb := RequireWideband16k();
      if wb.None? { return None; }
      var (out, m) := k.g722Encode(mem.g722Encoder, wb.value);
      mem := mem.(g722Encoder := m);
      g722Out := out;
      return g722Out;
    }

    method EncodeFrom(pt: u8, src: CodecBundle) returns (r: Option<seq<u8>>)
      requires src != this && src.k == k
      modifies this, src
      ensures var t := Transcode(k, old(Model()), old(src.Model()), pt);
              Model() == t.dst && src.Model() == t.src && r == t.out
    {
      var raw := src.Model().RawWireIfPt(pt);
      if raw.Some? {
        if pt == 0 { pcmuOut := raw; return raw; }
        else if pt == 8 { pcmaOut := raw; return raw; }
        else if pt == 9 { g722Out := raw; return raw; }
        else if pt == 97 || pt == localIlbcPt || pt == peerIlbcPt { ilbcOut := raw; return raw; }
      }
      if pt == 9 {
        var wb := src.RequireWideband16k();
        if wb.None? { return None; }
        var (out, m) := k.g722Encode(mem.g722Encoder, wb.value);
        mem := mem.(g722Encoder := m);
        if out.None? { return None; }
        g722Out := out;
        return g722Out;
      }
      if pt == 97 || pt == localIlbcPt || pt == peerIlbcPt {
        var nb := src.RequireNarrowband8k();
        if nb.None? { return None; }
        var (out, m) := k.ilbcEncode(mem.ilbcEncoder, nb.value);
        mem := mem.(ilbcEncoder := m);
        ilbcOut := out;
        return ilbcOut;
      }
      if pt == 0 {
        var nb := src.RequireNarrowband8k();
        if nb.None? { return None; }
        pcmuOut := Some(k.ulawEncode(nb.value));
        return pcmuOut;
      } else if pt == 8 {
        var nb := src.RequireNarrowband8k();
        if nb.None? { return None; }
        pcmaOut := Some(k.alawEncode(nb.value));
        return pcmaOut;
      }
      return None;
    }

    method SetLocalIlbcPt(pt: u8)
      modifies this`localIlbcPt
      ensures Model() == old(Model()).(ilbcPts := Model().ilbcPts)
      ensures forall x :: Model().IsIlbc(x) <==> x == 97 || x == pt || x == peerIlbcPt
    {
      localIlbcPt := pt;
    }

    method SetPeerIlbcPt(pt: u8)
      modifies this`peerIlbcPt
      ensures Model() == old(Model()).(ilbcPts := Model().ilbcPts)
      ensures forall x :: Model().IsIlbc(x) <==> x == 97 || x == localIlbcPt || x == pt
    {
      peerIlbcPt := pt;
    }
  }
}
