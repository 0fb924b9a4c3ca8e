/**
 * What the members of a mix hear (rust/src/channel/mixer.rs): the frames each
 * tick puts up, the sum of the others for three members or more, and the direct
 * pass between two. The members are a hash map in the source, so every loop
 * over them here takes them in an arbitrary order.
 */
module Mixing {
  import opened Common
  import opened Codec

  type ChannelId = nat

  type Frame = f: seq<i16> | |f| == 160 witness seq(160, i => 0)

  /** `remote`: whether the member has an address to send to; its bundle is the value model of `CodecBundle`. */
  datatype Member = Member(
    recv: bool, send: bool, remote: bool, remotePt: u8,
    frame: Frame, framePresent: bool, inboundThisTick: bool, codecx: Bundle)
  {
    function ResetForTick(): Member {
      this.(frame := Silence(), framePresent := false, inboundThisTick := false)
    }

    /** Inbound audio wins over the member's own player; a member that does not receive puts up nothing. */
    function PopulateMixFrame(inbound: Option<seq<i16>>, player: Option<seq<i16>>): Member {
      if !recv then this
      else match inbound
           case Some(s) => this.(frame := Padded(s, 160), framePresent := true, inboundThisTick := true)
           case None =>
             match player
             case Some(s) => this.(frame := Padded(s, 160), framePresent := true)
             case None => this
    }
  }

  /** Rust's `saturating_add` on i32. */
  function SaturatingAdd(a: int, b: int): int {
    if a + b < -0x8000_0000 then -0x8000_0000 else if a + b > 0x7fff_ffff then 0x7fff_ffff else a + b
  }

  /** What a member adds to the mix at sample i. */
  function Voice(m: Member, i: nat): int
    requires i < 160
  {
    if m.recv && m.framePresent then m.frame[i] else 0
  }

  /** The sum of the voices of some members, in no particular order. */
  ghost function SumAt(ms: map<ChannelId, Member>, ids: set<ChannelId>, i: nat): int
    requires ids <= ms.Keys && i < 160
  {
    if ids == {} then 0
    else
      var x :| x in ids;
      Voice(ms[x], i) + SumAt(ms, ids - {x}, i)
  }

  /** Whichever member is taken out first, the sum is the same. */
  lemma {:induction false} SumPicks(ms: map<ChannelId, Member>, ids: set<ChannelId>, x: ChannelId, i: nat)
    requires ids <= ms.Keys && x in ids && i < 160
    ensures SumAt(ms, ids, i) == Voice(ms[x], i) + SumAt(ms, ids - {x}, i)
    decreases |ids|
  {
    var y :| y in ids && SumAt(ms, ids, i) == Voice(ms[y], i) + SumAt(ms, ids - {y}, i);
    if x != y {
      SumPicks(ms, ids - {y}, x, i);
      SumPicks(ms, ids - {x}, y, i);
      assert ids - {y} - {x} == ids - {x} - {y};
    }
  }

  lemma {:induction false} SumBounds(ms: map<ChannelId, Member>, ids: set<ChannelId>, i: nat)
    requires ids <= ms.Keys && i < 160
    ensures -0x8000 * |ids| <= SumAt(ms, ids, i) <= 0x7fff * |ids|
    decreases |ids|
  {
    if ids != {} {
      var x :| x in ids;
      SumPicks(ms, ids, x, i);
      SumBounds(ms, ids - {x}, i);
    }
  }

  lemma {:induction false} SumDependsOnVoices(ms: map<ChannelId, Member>, ms1: map<ChannelId, Member>,
                                              ids: set<ChannelId>, i: nat)
    requires ids <= ms.Keys && ids <= ms1.Keys && i < 160
    requires forall x <- ids :: Voice(ms1[x], i) == Voice(ms[x], i)
    ensures SumAt(ms1, ids, i) == SumAt(ms, ids, i)
    decreases |ids|
  {
    if ids != {} {
      var x :| x in ids;
      SumPicks(ms, ids, x, i);
      SumPicks(ms1, ids, x, i);
      SumDependsOnVoices(ms, ms1, ids - {x}, i);
    }
  }

  /** What a member should hear: everyone else, clamped sample by sample. */
  ghost function OthersOf(ms: map<ChannelId, Member>, id: ChannelId): Frame
    requires id in ms
  {
    seq(160, i requires 0 <= i < 160 => Clamp16(SumAt(ms, ms.Keys - {id}, i)))
  }

  /** A member's own frame makes no difference to what it hears. */
  lemma OwnFrameIsNotHeard(ms: map<ChannelId, Member>, id: ChannelId, other: Member)
    requires id in ms
    ensures OthersOf(ms[id := other], id) == OthersOf(ms, id)
  {
    var ms1 := ms[id := other];
    assert ms1.Keys - {id} == ms.Keys - {id};
    forall i | 0 <= i < 160 ensures SumAt(ms1, ms1.Keys - {id}, i) == SumAt(ms, ms.Keys - {id}, i) {
      SumDependsOnVoices(ms, ms1, ms.Keys - {id}, i);
    }
  }

  /** With two members the formula for many gives the peer's frame as it is, which is what the direct pass sends. */
  lemma TwoHearEachOther(ms: map<ChannelId, Member>, a: ChannelId, b: ChannelId)
    requires a != b && ms.Keys == {a, b}
    ensures OthersOf(ms, a) == if ms[b].recv && ms[b].framePresent then ms[b].frame else Silence()
  {
    assert ms.Keys - {a} == {b};
    forall i | 0 <= i < 160 ensures SumAt(ms, {b}, i) == Voice(ms[b], i) {
      SumPicks(ms, {b}, b, i);
      assert {b} - {b} == {};
    }
  }

  /** What one tick of the outbound mix makes of a member. */
  ghost function Outbound(k: Codecs, ms: map<ChannelId, Member>, id: ChannelId): Member
    requires id in ms
  {
    if ms[id].send && ms[id].remote then
      ms[id].(codecx := ms[id].codecx.FeedLinear8k(OthersOf(ms, id)).NeedWireAs(k, ms[id].remotePt))
    else ms[id]
  }

  /** The payload it is sent, if its codec gives one. */
  ghost function PayloadFor(k: Codecs, ms: map<ChannelId, Member>, id: ChannelId): Option<seq<u8>>
    requires id in ms
  {
    if ms[id].send && ms[id].remote then
      AnswerTo(k, ms[id].codecx.FeedLinear8k(OthersOf(ms, id)), As(ms[id].remotePt)).bytes
    else None
  }

  /** A member is heard if it receives and has a frame up. */
  lemma VoiceIs(m: Member, i: nat)
    requires i < 160
    ensures Voice(m, i) == if m.recv && m.framePresent then m.frame[i] as int else 0
  {
  }

  /**
   * What a member of a mix is sent, from the sound alone: c is the other
   * members' samples, added up and clamped, and goes out as its own codec makes
   * it. The codec's memory is that of having encoded c.
   */
  lemma PayloadIs(k: Codecs, ms: map<ChannelId, Member>, id: ChannelId, c: seq<i16>)
    requires id in ms && |c| == 160 && forall i | 0 <= i < 160 :: c[i] == Clamp16(SumAt(ms, ms.Keys - {id}, i))
    ensures var b, pt := ms[id].codecx, ms[id].remotePt;
            var ilbc := pt == 97 || pt in b.ilbcPts;
            var wide := FirFilter.Up(b.mem.up, c);
            var after := Outbound(k, ms, id).codecx;
            if ms[id].send && ms[id].remote then
              && PayloadFor(k, ms, id)
                 == (if ilbc then k.ilbcEncode(b.mem.ilbcEncoder, c).0
                     else if pt == 0 then Some(k.ulawEncode(c))
                     else if pt == 8 then Some(k.alawEncode(c))
                     else if pt == 9 then k.g722Encode(b.mem.g722Encoder, wide.0).0
                     else None)
              && after.narrow == Some(c)
              && after.mem
                 == (if ilbc then b.mem.(ilbcEncoder := k.ilbcEncode(b.mem.ilbcEncoder, c).1)
                     else if pt == 9 then b.mem.(g722Encoder := k.g722Encode(b.mem.g722Encoder, wide.0).1, up := wide.1)
                     else b.mem)
            else PayloadFor(k, ms, id).None? && Outbound(k, ms, id) == ms[id]
  {
    assert c == OthersOf(ms, id);
    hide FirFilter.Up, FirFilter.Down, OthersOf;
    SamplesServed(k, ms[id].codecx, c, ms[id].remotePt);
    hide Bundle.NeedWireAs, AnswerTo, Bundle.FeedLinear8k;
  }

  /** Samples fed and asked for in a wire format at once. */
  lemma SamplesServed(k: Codecs, b: Bundle, c: seq<i16>, pt: u8)
    ensures var ilbc := pt == 97 || pt in b.ilbcPts;
            var wide := FirFilter.Up(b.mem.up, c);
            var f := b.FeedLinear8k(c);
            var after := f.NeedWireAs(k, pt);
            && AnswerTo(k, f, As(pt))
               == Encoded(if ilbc then k.ilbcEncode(b.mem.ilbcEncoder, c).0
                          else if pt == 0 then Some(k.ulawEncode(c))
                          else if pt == 8 then Some(k.alawEncode(c))
                          else if pt == 9 then k.g722Encode(b.mem.g722Encoder, wide.0).0
                          else None)
            && after.narrow == Some(c)
            && after.mem
               == (if ilbc then b.mem.(ilbcEncoder := k.ilbcEncode(b.mem.ilbcEncoder, c).1)
                   else if pt == 9 then b.mem.(g722Encoder := k.g722Encode(b.mem.g722Encoder, wide.0).1, up := wide.1)
                   else b.mem)
  {
    var f := b.FeedLinear8k(c);
    hide FirFilter.Up, FirFilter.Down;
    assert f.NeedNarrow(k) == f;
    assert f.NeedWide(k) == f.Upsample();
    hide Bundle.NeedNarrow, Bundle.NeedWide;
  }

  /** The second loop under way: the members still to do are as they were. */
  ghost predicate MixedSoFar(k: Codecs, ms: map<ChannelId, Member>, now: map<ChannelId, Member>,
                             sent: map<ChannelId, Option<seq<u8>>>, todo: set<ChannelId>)
  {
    && now.Keys == ms.Keys && sent.Keys == ms.Keys - todo
    && (forall id <- ms :: now[id] == if id in todo then ms[id] else Outbound(k, ms, id))
    && (forall id <- sent :: sent[id] == PayloadFor(k, ms, id))
  }

  lemma MixedStep(k: Codecs, ms: map<ChannelId, Member>, now: map<ChannelId, Member>,
                  sent: map<ChannelId, Option<seq<u8>>>, todo: set<ChannelId>, id: ChannelId)
    requires MixedSoFar(k, ms, now, sent, todo) && id in todo && todo <= ms.Keys
    ensures now[id] == ms[id]
    ensures MixedSoFar(k, ms, now[id := Outbound(k, ms, id)], sent[id := PayloadFor(k, ms, id)], todo - {id})
  {
    hide Outbound, PayloadFor;
  }

  lemma MixedEnd(k: Codecs, ms: map<ChannelId, Member>, now: map<ChannelId, Member>, sent: map<ChannelId, Option<seq<u8>>>)
    requires MixedSoFar(k, ms, now, sent, {})
    ensures now == map id | id in ms :: Outbound(k, ms, id)
    ensures sent == map id | id in ms :: PayloadFor(k, ms, id)
  {
    hide Outbound, PayloadFor;
  }

  datatype Input = Input(inbound: Option<seq<i16>>, player: Option<seq<i16>>)

  /** A member after the inbound phase: what was up last tick is gone. */
  function AfterInbound(m: Member, input: Input): Member {
    m.ResetForTick().PopulateMixFrame(input.inbound, input.player)
  }

  /** The inbound phase under way: the members in `todo` are as they were. */
  ghost predicate InboundSoFar(was: map<ChannelId, Member>, now: map<ChannelId, Member>, inputs: map<ChannelId, Input>,
                               todo: set<ChannelId>)
  {
    && was.Keys == now.Keys == inputs.Keys && todo <= now.Keys
    && forall id <- now :: now[id] == if id in todo then was[id] else AfterInbound(was[id], inputs[id])
  }

  lemma InboundStart(was: map<ChannelId, Member>, inputs: map<ChannelId, Input>)
    requires was.Keys == inputs.Keys
    ensures InboundSoFar(was, was, inputs, was.Keys)
  {
  }

  lemma InboundEnd(was: map<ChannelId, Member>, now: map<ChannelId, Member>, inputs: map<ChannelId, Input>)
    requires InboundSoFar(was, now, inputs, {})
    ensures was.Keys == inputs.Keys && now == map id | id in inputs :: AfterInbound(was[id], inputs[id])
  {
    hide AfterInbound;
  }

  lemma InboundTurn(was: map<ChannelId, Member>, now: map<ChannelId, Member>, inputs: map<ChannelId, Input>,
                    todo: set<ChannelId>, id: ChannelId)
    requires InboundSoFar(was, now, inputs, todo) && id in todo
    ensures todo <= now.Keys == inputs.Keys && id in now && id in inputs
    ensures InboundSoFar(was, now[id := now[id].ResetForTick().PopulateMixFrame(inputs[id].inbound, inputs[id].player)],
                         inputs, todo - {id})
  {
    hide Member.ResetForTick, Member.PopulateMixFrame;
  }

  /** Only members that receive have a frame up. */
  predicate OnlyReceivers(ms: map<ChannelId, Member>) { forall id <- ms :: ms[id].framePresent ==> ms[id].recv }

  // ---- The direct pass between two ----

  /** One direction: nothing unless the source sends and has a frame up, and the destination has an address. */
  datatype Leg = Leg(src: Member, dst: Member, out: Option<seq<u8>>)

  function SendLeg(k: Codecs, src: Member, dst: Member): Leg {
    if !src.send || !src.framePresent || !dst.remote then Leg(src, dst, None)
    else
      var t := Transcode(k, dst.codecx, src.codecx, dst.remotePt);
      Leg(src.(codecx := t.src), dst.(codecx := t.dst), t.out)
  }

  /** The part of a bundle that encoding writes: outputs and encoders. Decoding and resampling never look at it. */
  datatype Outs = Outs(pcma: Option<seq<u8>>, pcmu: Option<seq<u8>>, g722: Option<seq<u8>>, ilbc: Option<seq<u8>>,
                       ilbcEncoder: Memory, g722Encoder: Memory)

  function OutsOf(b: Bundle): Outs { Outs(b.pcma, b.pcmu, b.g722, b.ilbc, b.mem.ilbcEncoder, b.mem.g722Encoder) }

  function WithOuts(b: Bundle, o: Outs): Bundle {
    b.(pcma := o.pcma, pcmu := o.pcmu, g722 := o.g722, ilbc := o.ilbc,
       mem := b.mem.(ilbcEncoder := o.ilbcEncoder, g722Encoder := o.g722Encoder))
  }

  lemma NativeIgnoresOuts(k: Codecs, b: Bundle, o: Outs)
    requires b.FromG722() || b.wide.Some?
    ensures WithOuts(b, o).NeedWide(k) == WithOuts(b.NeedWide(k), o) && OutsOf(b.NeedWide(k)) == OutsOf(b)
  {
    hide FirFilter.Down, FirFilter.Up;
  }

  lemma NarrowIgnoresOuts(k: Codecs, b: Bundle, o: Outs)
    ensures WithOuts(b, o).NeedNarrow(k) == WithOuts(b.NeedNarrow(k), o) && OutsOf(b.NeedNarrow(k)) == OutsOf(b)
  {
    if b.FromG722() { NativeIgnoresOuts(k, b, o); }
    hide FirFilter.Down, FirFilter.Up, Bundle.NeedWide;
  }

  lemma WideIgnoresOuts(k: Codecs, b: Bundle, o: Outs)
    ensures WithOuts(b, o).NeedWide(k) == WithOuts(b.NeedWide(k), o) && OutsOf(b.NeedWide(k)) == OutsOf(b)
  {
    if b.FromG722() || b.wide.Some? {
      NativeIgnoresOuts(k, b, o);
    } else {
      NarrowIgnoresOuts(k, b, o);
      hide FirFilter.Down, FirFilter.Up, Bundle.NeedNarrow;
    }
  }

  lemma NeedsIgnoreOuts(k: Codecs, b: Bundle, o: Outs)
    ensures WithOuts(b, o).NeedNarrow(k) == WithOuts(b.NeedNarrow(k), o)
    ensures WithOuts(b, o).NeedWide(k) == WithOuts(b.NeedWide(k), o)
    ensures OutsOf(b.NeedNarrow(k)) == OutsOf(b) == OutsOf(b.NeedWide(k))
  {
    NarrowIgnoresOuts(k, b, o);
    WideIgnoresOuts(k, b, o);
    hide Bundle.NeedNarrow, Bundle.NeedWide;
  }

  /** A source's outputs and encoders play no part in encoding from it, and stay as they are. */
  lemma SourceOuts(k: Codecs, dst: Bundle, src: Bundle, pt: u8, o: Outs)
    ensures var t, t1 := Transcode(k, dst, src, pt), Transcode(k, dst, WithOuts(src, o), pt);
            t1 == t.(src := WithOuts(t.src, o))
  {
    NeedsIgnoreOuts(k, src, o);
    hide Bundle.NeedNarrow, Bundle.NeedWide;
  }

  /** Of the destination nothing but its outputs, encoders and iLBC types plays a part, and nothing else changes. */
  lemma DestinationOuts(k: Codecs, dst: Bundle, dst1: Bundle, src: Bundle, pt: u8)
    requires OutsOf(dst1) == OutsOf(dst) && dst1.ilbcPts == dst.ilbcPts
    ensures var t, t1 := Transcode(k, dst, src, pt), Transcode(k, dst1, src, pt);
            && t1.src == t.src && t1.out == t.out
            && t1.dst == WithOuts(dst1, OutsOf(t.dst)) && t.dst == WithOuts(dst, OutsOf(t.dst))
  {
    hide Bundle.NeedNarrow, Bundle.NeedWide, Bundle.RawWireIfPt;
  }

  /** What encoding from a source does to it: its outputs and types stay. */
  lemma SourceKeepsOuts(k: Codecs, dst: Bundle, src: Bundle, pt: u8)
    ensures OutsOf(Transcode(k, dst, src, pt).src) == OutsOf(src) && Transcode(k, dst, src, pt).src.ilbcPts == src.ilbcPts
  {
    NeedsIgnoreOuts(k, src, OutsOf(src));
    PtsStay(k, src);
    hide Bundle.NeedNarrow, Bundle.NeedWide, Bundle.RawWireIfPt;
  }

  lemma PtsStay(k: Codecs, b: Bundle)
    ensures b.NeedNarrow(k).ilbcPts == b.ilbcPts == b.NeedWide(k).ilbcPts
  {
    hide FirFilter.Down, FirFilter.Up;
  }

  lemma TranscodesCommute(k: Codecs, a: Bundle, b: Bundle, toA: u8, toB: u8)
    ensures var t1 := Transcode(k, b, a, toB);
            var t2 := Transcode(k, t1.src, t1.dst, toA);
            var u1 := Transcode(k, a, b, toA);
            var u2 := Transcode(k, u1.src, u1.dst, toB);
            t2.dst == u2.src && t2.src == u2.dst && t1.out == u2.out && t2.out == u1.out
  {
    var t1 := Transcode(k, b, a, toB);
    var u1 := Transcode(k, a, b, toA);
    SourceKeepsOuts(k, b, a, toB);
    SourceKeepsOuts(k, a, b, toA);
    DestinationOuts(k, b, b, a, toB);
    DestinationOuts(k, a, a, b, toA);
    SourceOuts(k, t1.src, b, toA, OutsOf(t1.dst));
    DestinationOuts(k, a, t1.src, b, toA);
    SourceOuts(k, u1.src, a, toB, OutsOf(u1.dst));
    DestinationOuts(k, b, u1.src, a, toB);
    hide Transcode;
  }

  /** Which of the two comes first in the map makes no difference: both legs carry the same, and both members end the same. */
  lemma LegsCommute(k: Codecs, a: Member, b: Member)
    ensures var l1 := SendLeg(k, a, b);
            var l2 := SendLeg(k, l1.dst, l1.src);
            var r1 := SendLeg(k, b, a);
            var r2 := SendLeg(k, r1.dst, r1.src);
            l2.dst == r2.src && l2.src == r2.dst && l1.out == r2.out && l2.out == r1.out
  {
    TranscodesCommute(k, a.codecx, b.codecx, a.remotePt, b.remotePt);
    hide Transcode;
  }

  /** What each of the two is sent, named by the receiver. */
  function TwoSent(k: Codecs, ms: map<ChannelId, Member>, a: ChannelId, b: ChannelId): map<ChannelId, Option<seq<u8>>>
    requires a in ms && b in ms && a != b
  {
    var l1 := SendLeg(k, ms[a], ms[b]);
    var l2 := SendLeg(k, l1.dst, l1.src);
    map[b := l1.out, a := l2.out]
  }

  function TwoAfter(k: Codecs, ms: map<ChannelId, Member>, a: ChannelId, b: ChannelId): map<ChannelId, Member>
    requires a in ms && b in ms && a != b
  {
    var l1 := SendLeg(k, ms[a], ms[b]);
    var l2 := SendLeg(k, l1.dst, l1.src);
    ms[a := l2.dst][b := l2.src]
  }

  lemma TwoCommute(k: Codecs, ms: map<ChannelId, Member>, a: ChannelId, b: ChannelId)
    requires a in ms && b in ms && a != b
    ensures TwoSent(k, ms, a, b) == TwoSent(k, ms, b, a) && TwoAfter(k, ms, a, b) == TwoAfter(k, ms, b, a)
  {
    LegsCommute(k, ms[a], ms[b]);
    hide SendLeg;
  }

  /** What each of the two is sent is what its peer's leg carries from the state both began the tick in. */
  lemma TwoSentIs(k: Codecs, ms: map<ChannelId, Member>, a: ChannelId, b: ChannelId)
    requires a in ms && b in ms && a != b
    ensures TwoSent(k, ms, a, b) == map[b := SendLeg(k, ms[a], ms[b]).out, a := SendLeg(k, ms[b], ms[a]).out]
  {
    LegsCommute(k, ms[a], ms[b]);
    hide SendLeg;
  }

  lemma BothLegs(k: Codecs, a: Bundle, b: Bundle, toA: u8, toB: u8)
    ensures var t1, u1 := Transcode(k, b, a, toB), Transcode(k, a, b, toA);
            var t2 := Transcode(k, t1.src, t1.dst, toA);
            t2.dst == WithOuts(t1.src, OutsOf(u1.dst)) && t2.src == WithOuts(u1.src, OutsOf(t1.dst))
  {
    var t1 := Transcode(k, b, a, toB);
    SourceKeepsOuts(k, b, a, toB);
    DestinationOuts(k, b, b, a, toB);
    SourceOuts(k, t1.src, b, toA, OutsOf(t1.dst));
    DestinationOuts(k, a, t1.src, b, toA);
    hide Transcode;
  }

  /**
   * How the tick leaves the two: what was decoded and resampled of a member's
   * input is as sending it leaves it, its outputs and encoders as sending to it
   * leaves them; nobody else changes.
   */
  lemma TwoAfterIs(k: Codecs, ms: map<ChannelId, Member>, a: ChannelId, b: ChannelId)
    requires a in ms && b in ms && a != b
    ensures var there, back := SendLeg(k, ms[a], ms[b]), SendLeg(k, ms[b], ms[a]);
            TwoAfter(k, ms, a, b)
            == ms[a := ms[a].(codecx := WithOuts(there.src.codecx, OutsOf(back.dst.codecx)))]
                 [b := ms[b].(codecx := WithOuts(back.src.codecx, OutsOf(there.dst.codecx)))]
  {
    LegsTogether(k, ms[a], ms[b]);
    hide SendLeg, WithOuts, OutsOf;
  }

  lemma OwnOuts(b: Bundle)
    ensures WithOuts(b, OutsOf(b)) == b
  {
  }

  lemma LegsTogether(k: Codecs, x: Member, y: Member)
    ensures var there, back := SendLeg(k, x, y), SendLeg(k, y, x);
            var second := SendLeg(k, there.dst, there.src);
            && second.dst == x.(codecx := WithOuts(there.src.codecx, OutsOf(back.dst.codecx)))
            && second.src == y.(codecx := WithOuts(back.src.codecx, OutsOf(there.dst.codecx)))
  {
    BothLegs(k, x.codecx, y.codecx, x.remotePt, y.remotePt);
    SourceKeepsOuts(k, y.codecx, x.codecx, y.remotePt);
    SourceKeepsOuts(k, x.codecx, y.codecx, x.remotePt);
    DestinationOuts(k, y.codecx, y.codecx, x.codecx, y.remotePt);
    DestinationOuts(k, x.codecx, x.codecx, y.codecx, x.remotePt);
    OwnOuts(x.codecx);
    OwnOuts(y.codecx);
    OwnOuts(Transcode(k, y.codecx, x.codecx, y.remotePt).src);
    OwnOuts(Transcode(k, x.codecx, y.codecx, x.remotePt).src);
    hide Transcode, WithOuts, OutsOf;
  }

  /**
   * What a leg carries, from the sound alone: nothing unless the source sends,
   * has a frame up and the destination an address; the source's own bytes when
   * the formats agree; otherwise its samples through the destination's codec.
   */
  lemma LegIs(k: Codecs, src: Member, dst: Member)
    requires src.codecx.Fed()
    ensures var l, pt := SendLeg(k, src, dst), dst.remotePt;
            var n, w, d := NarrowOf(k, src.codecx), WideOf(k, src.codecx), dst.codecx.mem;
            if !src.send || !src.framePresent || !dst.remote then l == Leg(src, dst, None)
            else l.out
                 == if SameFormat(dst.codecx, src.codecx, pt) then Some(src.codecx.wireBytes)
                    else if pt == 9 then (if w.Some? then k.g722Encode(d.g722Encoder, w.value).0 else None)
                    else if n.None? then None
                    else if pt == 97 || pt in dst.codecx.ilbcPts then k.ilbcEncode(d.ilbcEncoder, n.value).0
                    else if pt == 0 then Some(k.ulawEncode(n.value))
                    else if pt == 8 then Some(k.alawEncode(n.value))
                    else None
  {
    PassThrough(k, dst.codecx, src.codecx, dst.remotePt);
    if !SameFormat(dst.codecx, src.codecx, dst.remotePt) { EncodedFromFed(k, dst.codecx, src.codecx, dst.remotePt); }
    hide Transcode, NarrowOf, WideOf, SameFormat, EncodedBy, Bundle.Fed;
  }

  /** A packet on its way through: between every two of the four codecs, what the peer is sent. */
  lemma PacketThrough(k: Codecs, b: Bundle, pt: u8, bytes: seq<u8>, src: Member, dst: Member)
    requires bytes != [] && src.codecx == b.FeedWire(pt, bytes) && src.send && src.framePresent && dst.remote
    requires {pt, dst.remotePt} <= {0, 8, 9, 97} && {0, 8, 9} !! b.ilbcPts + dst.codecx.ilbcPts
    ensures var to, d := dst.remotePt, dst.codecx.mem;
            var w := k.g722Decode(b.mem.g722Decoder, bytes).0;
            var n := if pt == 0 then Some(k.ulawDecode(bytes)) else if pt == 8 then Some(k.alawDecode(bytes))
                     else if pt == 97 then k.ilbcDecode(b.mem.ilbcDecoder, bytes).0
                     else if w.Some? then Some(FirFilter.Down(b.mem.down, w.value).0) else None;
            var wide := if pt == 9 then w else if n.Some? then Some(FirFilter.Up(b.mem.up, n.value).0) else None;
            SendLeg(k, src, dst).out
            == if pt == to then Some(bytes)
               else if to == 9 then (if wide.Some? then k.g722Encode(d.g722Encoder, wide.value).0 else None)
               else if n.None? then None
               else if to == 97 then k.ilbcEncode(d.ilbcEncoder, n.value).0
               else Some(if to == 0 then k.ulawEncode(n.value) else k.alawEncode(n.value))
  {
    FedWire(k, b, pt, bytes);
    LegIs(k, src, dst);
    assert SameFormat(dst.codecx, src.codecx, dst.remotePt) == (pt == dst.remotePt) by { hide NarrowOf, WideOf; }
    hide SendLeg, NarrowOf, WideOf, SameFormat, Bundle.Fed, Bundle.FeedWire, FirFilter.Up, FirFilter.Down;
  }

  class Mixer {
    const k: Codecs
    var members: map<ChannelId, Member>

    constructor (k: Codecs)
      ensures this.k == k && members == map[]
    {
      this.k := k;
      members := map[];
    }

    /** The frames put up this tick; a member with nothing popped and no player has `Input(None, None)`. */
    method RunInboundPhase(inputs: map<ChannelId, Input>)
      requires inputs.Keys == members.Keys
      modifies this`members
      ensures members == map id | id in inputs :: AfterInbound(old(members)[id], inputs[id])
    {
      hide *;
      InboundStart(members, inputs);
      var todo := members.Keys;
      while todo != {}
        invariant InboundSoFar(old(members), members, inputs, todo)
        decreases |todo|
      {
        var id :| id in todo;
        InboundTurn(old(members), members, inputs, todo, id);
        var m := members[id].ResetForTick();
        members := members[id := m.PopulateMixFrame(inputs[id].inbound, inputs[id].player)];
        todo := todo - {id};
      }
      InboundEnd(old(members), members, inputs);
    }

    /** All members' frames into one buffer; no step saturates for up to 65536 members. */
    method SumFrames() returns (summed: seq<int>)
      requires |members| <= 0x1_0000
      ensures |summed| == 160 && forall i | 0 <= i < 160 :: summed[i] == SumAt(members, members.Keys, i)
    {
      var buffer := new int[160](_ => 0);
      var todo := members.Keys;
      while todo != {}
        invariant todo <= members.Keys && fresh(buffer)
        invariant forall i | 0 <= i < 160 :: buffer[i] == SumAt(members, members.Keys - todo, i)
        decreases |todo|
      {
        var id :| id in todo;
        ghost var done := members.Keys - todo;
        todo := todo - {id};
        assert members.Keys - todo == done + {id} && members.Keys - todo - {id} == done;
        forall i | 0 <= i < 160
          ensures SumAt(members, members.Keys - todo, i) == Voice(members[id], i) + SumAt(members, done, i)
        {
          SumPicks(members, members.Keys - todo, id, i);
        }
        if members[id].recv && members[id].framePresent {
          AddFrame(buffer, members[id].frame, members, done);
        }
      }
      assert members.Keys - {} == members.Keys;
      summed := buffer[..];
    }

    /** The other half of the tick for two: a hash map's order decides which leg goes first, and it does not matter. */
    method Mix2Outbound() returns (sent: map<ChannelId, Option<seq<u8>>>)
      requires |members| == 2
      modifies this`members
      ensures forall a <- old(members), b <- old(members) | a != b ::
        sent == TwoSent(k, old(members), a, b) && members == TwoAfter(k, old(members), a, b)
    {
      ghost var ms := members;
      var first :| first in members;
      assert |members.Keys| == 2 && |members.Keys - {first}| == 1;
      assert members.Keys - {first} != {};
      var second :| second in members.Keys - {first};
      assert |members.Keys - {first} - {second}| == 0;
      assert members.Keys == {first, second};
      var l1 := SendLeg(k, members[first], members[second]);
      var l2 := SendLeg(k, l1.dst, l1.src);
      members := members[first := l2.dst][second := l2.src];
      sent := map[second := l1.out, first := l2.out];
      TwoCommute(k, ms, first, second);
    }

    /** The other half of the tick for three members or more: everyone who sends is fed the sum without itself. */
    method MixAllOutbound() returns (sent: map<ChannelId, Option<seq<u8>>>)
      requires |members| <= 0x1_0000 && OnlyReceivers(members)
      modifies this`members
      ensures members == map id | id in old(members) :: Outbound(k, old(members), id)
      ensures sent == map id | id in old(members) :: PayloadFor(k, old(members), id)
    {
      ghost var ms := members;
      var summed := SumFrames();
      sent := map[];
      var todo := members.Keys;
      assert MixedSoFar(k, ms, members, sent, todo);
      hide Outbound, PayloadFor, SumAt, MixedSoFar;
      while todo != {}
        invariant todo <= ms.Keys && members.Keys == ms.Keys && MixedSoFar(k, ms, members, sent, todo)
        decreases |todo|
      {
        var id :| id in todo;
        MixedStep(k, ms, members, sent, todo, id);
        todo := todo - {id};
        var m, payload := FeedMember(summed, members[id], ms, id);
        members := members[id := m];
        sent := sent[id := payload];
      }
      MixedEnd(k, ms, members, sent);
    }

    /** The body of the second loop: the computed samples into the member's own bundle, and out in its own codec. */
    method FeedMember(summed: seq<int>, m: Member, ghost ms: map<ChannelId, Member>, ghost id: ChannelId)
      returns (m1: Member, payload: Option<seq<u8>>)
      requires |summed| == 160 && id in ms && ms[id] == m && (m.framePresent ==> m.recv)
      requires forall i | 0 <= i < 160 :: summed[i] == SumAt(ms, ms.Keys, i)
      ensures m1 == Outbound(k, ms, id) && payload == PayloadFor(k, ms, id)
    {
      if !m.send || !m.remote { return m, None; }
      var out := WithoutOwn(summed, m, ms, id);
      hide Bundle.NeedWireAs, Bundle.FeedLinear8k, SumAt, OthersOf;
      var fed := m.codecx.FeedLinear8k(out);
      payload := AnswerTo(k, fed, As(m.remotePt)).bytes;
      m1 := m.(codecx := fed.NeedWireAs(k, m.remotePt));
    }

    /** `summed - own`, clamped; without a frame of its own the member hears the whole sum. */
    static method WithoutOwn(summed: seq<int>, m: Member, ghost ms: map<ChannelId, Member>, ghost id: ChannelId)
      returns (out: seq<i16>)
      requires |summed| == 160 && id in ms && ms[id] == m && (m.framePresent ==> m.recv)
      requires forall i | 0 <= i < 160 :: summed[i] == SumAt(ms, ms.Keys, i)
      ensures out == OthersOf(ms, id)
    {
      out := [];
      for i := 0 to 160
        invariant |out| == i && forall j | 0 <= j < i :: out[j] == Clamp16(SumAt(ms, ms.Keys - {id}, j))
      {
        SumPicks(ms, ms.Keys, id, i);
        var v := if m.framePresent then summed[i] - m.frame[i] else summed[i];
        out := out + [Clamp16(v)];
      }
    }
  }

  /** Frames up after the inbound phase: the inbound audio of this tick, else the player's, and only for those who receive. */
  lemma InboundVoices(m: Member, input: Input, i: nat)
    requires i < 160
    ensures AfterInbound(m, input).framePresent ==> m.recv
    ensures AfterInbound(m, input).inboundThisTick == (m.recv && input.inbound.Some?)
    ensures Voice(AfterInbound(m, input), i)
         == if !m.recv then 0
            else match (input.inbound, input.player)
                 case (Some(s), _) => if i < |s| then s[i] else 0
                 case (None, Some(s)) => if i < |s| then s[i] else 0
                 case (None, None) => 0
  {
  }

  /** One member's frame onto the buffer, sample by sample. */
  method AddFrame(buffer: array<int>, frame: Frame, ghost ms: map<ChannelId, Member>, ghost done: set<ChannelId>)
    requires buffer.Length == 160 && done < ms.Keys && |ms| <= 0x1_0000
    requires forall i | 0 <= i < 160 :: buffer[i] == SumAt(ms, done, i)
    modifies buffer
    ensures forall i | 0 <= i < 160 :: buffer[i] == frame[i] + SumAt(ms, done, i)
  {
    assert ms.Keys == done + (ms.Keys - done) && |done| < |ms|;
    for i := 0 to 160
      invariant forall j | 0 <= j < 160 :: buffer[j] == SumAt(ms, done, j) + if j < i then frame[j] else 0
    {
      SumBounds(ms, done, i);
      buffer[i] := SaturatingAdd(buffer[i], frame[i]);
    }
  }
}
