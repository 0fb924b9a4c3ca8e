/**
 * RFC 2833 telephone events (rust/src/channel/dtmf.rs): the per-tick burst
 * sender, the de-duplicating receiver and the 4-byte event payload.
 *
 * A `Burst` is fourteen packets numbered 0..13. `DtmfSender` keeps two count-down
 * counters, a running duration and two options; it is proved to walk through
 * the numbered packets of one burst after another with the required silence
 * between them.
 */
module Dtmf {
  import opened Common

  const EVENT_REPEATS: nat := 11
  const END_REPEATS: nat := 3
  const DEFAULT_VOLUME: nat := 13
  const EVENT_DURATION_UNIT: nat := 160
  const INTER_DIGIT_GAP_TICKS: nat := 10
  const NEW_BURST_TS_DELTA: nat := 3200

  // ---- Digits and payloads ----

  function CharToEvent(c: char): Option<u8> {
    if '0' <= c <= '9' then Some((c as int) - ('0' as int))
    else if c == '*' then Some(10)
    else if c == '#' then Some(11)
    else if 'A' <= c <= 'D' then Some((c as int) - ('A' as int) + 12)
    else if 'a' <= c <= 'd' then Some((c as int) - ('a' as int) + 12)
    else if c == 'F' || c == 'f' then Some(16)
    else None
  }

  function EventToChar(event: u8): Option<char> {
    if event <= 9 then Some((('0' as int) + event) as char)
    else if event == 10 then Some('*')
    else if event == 11 then Some('#')
    else if event <= 15 then Some((('A' as int) + event - 12) as char)
    else if event == 16 then Some('F')
    else None
  }

  /** The sixteen digits and the hook flash, as they are written back. */
  const KEYS: string := "0123456789*#ABCDF"

  /** The letters the table takes in either case. */
  function Upper(c: char): char {
    if c == 'a' then 'A' else if c == 'b' then 'B' else if c == 'c' then 'C' else if c == 'd' then 'D'
    else if c == 'f' then 'F' else c
  }

  /**
   * Seventeen characters, five of them in either case, have an event and no
   * other; events 0 to 16 have a character and no other; and each table undoes
   * the other, up to case.
   */
  lemma DigitRoundTrip(c: char, event: u8)
    ensures CharToEvent(c).Some? <==> Upper(c) in KEYS
    ensures CharToEvent(c).Some? ==> EventToChar(CharToEvent(c).value) == Some(Upper(c))
    ensures EventToChar(event).Some? <==> event <= 16
    ensures event <= 16 ==> CharToEvent(EventToChar(event).value) == Some(event)
  {
  }

  /** Each key's event is its place among the keys: 0 to 9, then * # A B C D and the hook flash. */
  lemma KeysAreCodes(i: u8)
    requires i < |KEYS|
    ensures |KEYS| == 17 && CharToEvent(KEYS[i]) == Some(i) && EventToChar(i) == Some(KEYS[i])
  {
  }

  type Payload = seq<u8>

  datatype DecodedEvent = DecodedEvent(event: u8, end: bool, volume: u8, duration: u16)

  /** Byte 1 is `E` in the top bit and six bits of volume; bytes 2 and 3 the duration, high byte first. */
  function EncodeEvent(event: u8, end: bool, volume: u8, duration: u16): Payload {
    [event, (if end then 0x80 else 0) + volume % 0x40, duration / 0x100, duration % 0x100]
  }

  function DecodeEvent(p: Payload): Option<DecodedEvent> {
    if |p| < 4 then None
    else
      var hi: int := p[2];
      Some(DecodedEvent(p[0], p[1] >= 0x80, p[1] % 0x40, hi * 0x100 + p[3]))
  }

  /** The four bytes of section 3.5 of RFC 2833: event; end bit, reserved bit and volume; duration, high byte first. */
  lemma EncodedBytes(event: u8, end: bool, volume: u8, duration: u16)
    ensures var p := EncodeEvent(event, end, volume, duration);
            && |p| == 4 && p[0] == event && (p[1] >= 0x80 <==> end) && p[1] % 0x80 == volume % 0x40
            && (p[2] as int) * 0x100 + p[3] as int == duration
  {
  }

  lemma EventRoundTrip(event: u8, end: bool, volume: u8, duration: u16, tail: Payload)
    ensures DecodeEvent(EncodeEvent(event, end, volume, duration) + tail)
         == Some(DecodedEvent(event, end, volume % 0x40, duration))
  {
    var p := EncodeEvent(event, end, volume, duration) + tail;
    assert p[1] % 0x40 == volume % 0x40;
  }

  // ---- Bursts ----

  datatype DtmfPacket = DtmfPacket(event: u8, payload: Payload, marker: bool, timestamp: u32)

  const BURST: nat := 14

  /**
   * Packet j of a burst: eleven bodies of growing duration, then three identical
   * ends; one timestamp; marker on the first.
   */
  function BurstPacket(event: u8, timestamp: u32, j: nat): DtmfPacket
    requires j < BURST
  {
    var duration := 160 * (if j < 11 then j + 1 else 12);
    DtmfPacket(event, EncodeEvent(event, j >= 11, 13, duration), j == 0, timestamp)
  }

  /** The bytes of packet j: the marker on the first only, the end bit on the last three, 20 ms more in each body. */
  lemma BurstPacketBytes(event: u8, timestamp: u32, j: nat)
    requires j < 14
    ensures var p := BurstPacket(event, timestamp, j);
            && p.event == event && p.timestamp == timestamp && (p.marker <==> j == 0)
            && |p.payload| == 4 && p.payload[0] == event && (p.payload[1] >= 0x80 <==> j >= 11) && p.payload[1] % 0x80 == 13
            && (p.payload[2] as int) * 0x100 + p.payload[3] as int == (if j <= 10 then 160 + 160 * j else 1920)
  {
    EncodedBytes(event, j >= 11, 13, 160 * (if j < 11 then j + 1 else 12));
  }

  /** `Silent(n)`: n ticks (at most 10) since the last burst. `Bursting(e, t, j)`: j packets are out. */
  datatype Phase = Silent(idle: nat) | Bursting(event: u8, timestamp: u32, sent: nat)

  datatype Sender = Sender(queue: seq<u8>, phase: Phase) {
    predicate Ok() {
      if phase.Silent? then phase.idle <= 10 else 0 < phase.sent < BURST
    }

    function Enqueue(events: seq<u8>): Sender {
      this.(queue := queue + events)
    }

    /** The idle count as the next call will see it. */
    function Waited(): nat
      requires phase.Silent?
    {
      Min(phase.idle + 1, 10)
    }

    function Next(now: u32): Sender
      requires Ok()
      ensures Next(now).Ok()
    {
      match phase
      case Silent(_) =>
        if queue == [] || Waited() < 10 then this.(phase := Silent(Waited()))
        else Sender(queue[1..], Bursting(queue[0], now, 1))
      case Bursting(e, t, j) =>
        this.(phase := if j + 1 == BURST then Silent(0) else Bursting(e, t, j + 1))
    }

    function Emit(now: u32): Option<DtmfPacket>
      requires Ok()
    {
      match phase
      case Silent(_) =>
        if queue == [] || Waited() < 10 then None else Some(BurstPacket(queue[0], now, 0))
      case Bursting(e, t, j) => Some(BurstPacket(e, t, j))
    }
  }

  const FreshSender: Sender := Sender([], Silent(10))

  /** The events of a string, characters that name none being skipped. */
  function EventsOf(digits: string): seq<u8> {
    if digits == "" then []
    else (match CharToEvent(digits[0]) case Some(e) => [e] case None => []) + EventsOf(digits[1..])
  }

  lemma {:induction false} EventsOfAppend(a: string, b: string)
    ensures EventsOf(a + b) == EventsOf(a) + EventsOf(b)
  {
    if a == "" {
      assert a + b == b;
    } else {
      assert (a + b)[1..] == a[1..] + b;
      EventsOfAppend(a[1..], b);
    }
  }

  // ---- Runs of the sender ----

  datatype Call = EnqueueCall(digits: string) | NextCall(now: u32)

  /** The sender after the calls, in order. */
  function After(s: Sender, calls: seq<Call>): (s': Sender)
    requires s.Ok()
    ensures s'.Ok()
  {
    if calls == [] then s
    else match calls[|calls| - 1]
         case EnqueueCall(d) => After(s, calls[..|calls| - 1]).Enqueue(EventsOf(d))
         case NextCall(now) => After(s, calls[..|calls| - 1]).Next(now)
  }

  /** What the last call put out. */
  function LastEmission(s: Sender, calls: seq<Call>): Option<DtmfPacket>
    requires s.Ok() && calls != []
  {
    var c := calls[|calls| - 1];
    if c.NextCall? then After(s, calls[..|calls| - 1]).Emit(c.now) else None
  }

  function Packets(s: Sender, calls: seq<Call>): seq<DtmfPacket>
    requires s.Ok()
  {
    if calls == [] then []
    else Packets(s, calls[..|calls| - 1])
         + (match LastEmission(s, calls) case Some(p) => [p] case None => [])
  }

  /** The timestamps of the calls that started a burst. */
  function Starts(s: Sender, calls: seq<Call>): seq<u32>
    requires s.Ok()
  {
    if calls == [] then []
    else Starts(s, calls[..|calls| - 1])
         + (if LastEmission(s, calls).Some? && After(s, calls[..|calls| - 1]).phase.Silent?
            then [calls[|calls| - 1].now] else [])
  }

  function AllEvents(calls: seq<Call>): seq<u8> {
    if calls == [] then []
    else AllEvents(calls[..|calls| - 1])
         + (if calls[|calls| - 1].EnqueueCall? then EventsOf(calls[|calls| - 1].digits) else [])
  }

  /** The packets p are the bursts of the events e, of which those started so far have the timestamps t. */
  predicate AreBursts(s: Sender, p: seq<DtmfPacket>, e: seq<u8>, t: seq<u32>) {
    && |t| <= |e| && s.queue == e[|t|..]
    && (match s.phase
        case Silent(_) => |p| == 14 * |t|
        case Bursting(ev, ts, j) => |t| > 0 && |p| == 14 * (|t| - 1) + j && ev == e[|t| - 1] && ts == t[|t| - 1])
    && (forall i | 0 <= i < |p| :: i / 14 < |t| && p[i] == BurstPacket(e[i / 14], t[i / 14], i % 14))
  }

  lemma EnqueueKeepsBursts(s: Sender, p: seq<DtmfPacket>, e: seq<u8>, t: seq<u32>, more: seq<u8>)
    requires AreBursts(s, p, e, t)
    ensures AreBursts(s.Enqueue(more), p, e + more, t)
  {
    hide BurstPacket;
  }

  lemma NextKeepsBursts(s: Sender, p: seq<DtmfPacket>, e: seq<u8>, t: seq<u32>, now: u32)
    requires s.Ok() && AreBursts(s, p, e, t)
    ensures AreBursts(s.Next(now), p + (match s.Emit(now) case Some(x) => [x] case None => []), e,
                      t + (if s.Emit(now).Some? && s.phase.Silent? then [now] else []))
  {
    hide BurstPacket;
    if s.phase.Bursting? {
      PartOf(|t| - 1, s.phase.sent);
    } else {
      PartOf(|t|, 0);
    }
  }

  lemma PartOf(k: nat, j: nat)
    requires j < 14
    ensures (14 * k + j) / 14 == k && (14 * k + j) % 14 == j
  {
  }

  /**
   * Whatever the interleaving of `enqueue` and `next_event`, the i-th packet
   * ever sent is part i % 14 of the burst of the (i / 14)-th valid digit, under
   * the timestamp latched when that burst began.
   */
  lemma {:induction false} PacketsAreBursts(calls: seq<Call>)
    ensures AreBursts(After(FreshSender, calls), Packets(FreshSender, calls), AllEvents(calls), Starts(FreshSender, calls))
  {
    if calls != [] {
      var early, c := calls[..|calls| - 1], calls[|calls| - 1];
      PacketsAreBursts(early);
      var s, p, e, t := After(FreshSender, early), Packets(FreshSender, early), AllEvents(early), Starts(FreshSender, early);
      assert p + [] == p && e + [] == e && t + [] == t;
      match c {
        case EnqueueCall(d) => EnqueueKeepsBursts(s, p, e, t, EventsOf(d));
        case NextCall(now) => NextKeepsBursts(s, p, e, t, now);
      }
      hide AreBursts, Sender.Next, Sender.Emit, Sender.Enqueue;
    }
  }

  function NextCalls(calls: seq<Call>): nat {
    if calls == [] then 0 else NextCalls(calls[..|calls| - 1]) + (if calls[|calls| - 1].NextCall? then 1 else 0)
  }

  /** The call that sends the last packet of a burst starts the count; nine more calls stay silent whatever is enqueued. */
  lemma {:induction false} SilentGap(s: Sender, calls: seq<Call>)
    requires s.Ok() && s.phase.Silent? && s.phase.idle + NextCalls(calls) <= 9
    ensures Packets(s, calls) == [] && After(s, calls).phase == Silent(s.phase.idle + NextCalls(calls))
  {
    if calls != [] {
      SilentGap(s, calls[..|calls| - 1]);
    }
  }

  function Polls(nows: seq<u32>): seq<Call> {
    seq(|nows|, i requires 0 <= i < |nows| => NextCall(nows[i]))
  }

  /**
   * Draining: with `events` queued on a fresh sender and nothing added, call c
   * sends part c % 23 of burst c / 23, or nothing in the last 9 of every 23.
   */
  lemma {:induction false} DrainSchedule(events: seq<u8>, nows: seq<u32>, c: nat)
    requires c < |nows|
    ensures var calls := Polls(nows[..c + 1]);
            LastEmission(FreshSender.Enqueue(events), calls)
            == if c / 23 < |events| && c % 23 < 14
               then Some(BurstPacket(events[c / 23], nows[23 * (c / 23)], c % 23)) else None
  {
    DrainState(events, nows, c);
    assert Polls(nows[..c + 1])[..c] == Polls(nows[..c]);
  }

  /** The sender after c calls: in the part of the 23-call cycle that c says, on the digit that c says. */
  predicate Drained(s: Sender, events: seq<u8>, nows: seq<u32>, c: nat)
    requires c <= |nows|
  {
    var k, r := c / 23, c % 23;
    if k >= |events| then s.queue == [] && s.phase.Silent?
    else if r == 0 then s.queue == events[k..] && s.phase.Silent? && s.phase.idle >= 9
    else s.queue == events[k + 1..] && s.phase == if r < 14 then Bursting(events[k], nows[23 * k], r) else Silent(r - 14)
  }

  lemma DrainStep(s: Sender, events: seq<u8>, nows: seq<u32>, c: nat)
    requires c < |nows| && s.Ok() && Drained(s, events, nows, c)
    ensures Drained(s.Next(nows[c]), events, nows, c + 1)
  {
    var k, r := c / 23, c % 23;
    if r < 22 {
      assert (c + 1) / 23 == k && (c + 1) % 23 == r + 1;
    } else {
      assert (c + 1) / 23 == k + 1 && (c + 1) % 23 == 0;
    }
  }

  lemma {:induction false} DrainState(events: seq<u8>, nows: seq<u32>, c: nat)
    requires c <= |nows|
    ensures Drained(After(FreshSender.Enqueue(events), Polls(nows[..c])), events, nows, c)
  {
    if c > 0 {
      DrainState(events, nows, c - 1);
      assert Polls(nows[..c])[..c - 1] == Polls(nows[..c - 1]);
      assert Polls(nows[..c])[c - 1] == NextCall(nows[c - 1]);
      DrainStep(After(FreshSender.Enqueue(events), Polls(nows[..c - 1])), events, nows, c - 1);
      hide Drained;
    }
  }

  /** n queued digits are out after exactly 23n - 9 calls, and not one call sooner. */
  lemma {:induction false} DrainsExactly(events: seq<u8>, nows: seq<u32>)
    requires |events| > 0 && |nows| == 23 * |events| - 9
    ensures var s := FreshSender.Enqueue(events);
            && After(s, Polls(nows)) == Sender([], Silent(0))
            && After(s, Polls(nows[..|nows| - 1])).phase.Bursting?
  {
    var n := |nows|;
    DrainState(events, nows, n - 1);
    DrainState(events, nows, n);
    assert nows[..n] == nows;
  }

  lemma QueuedNone(s: Sender, digits: string)
    ensures s.Enqueue(EventsOf(digits[..0])) == s
  {
    assert digits[..0] == "";
  }

  /** The next character adds its event, if it has one. */
  lemma QueuedMore(s: Sender, digits: string, i: nat)
    requires i < |digits|
    ensures var e := CharToEvent(digits[i]);
            s.Enqueue(EventsOf(digits[..i + 1]))
            == if e.Some? then s.Enqueue(EventsOf(digits[..i])).Enqueue([e.value]) else s.Enqueue(EventsOf(digits[..i]))
  {
    assert digits[..i + 1] == digits[..i] + [digits[i]];
    EventsOfAppend(digits[..i], [digits[i]]);
    assert [digits[i]][1..] == [];
    hide CharToEvent;
  }

  class DtmfSender {
    var queue: seq<u8>
    var ticksRemaining: nat
    var endRemaining: nat
    var durationTicks: u16
    var currentEvent: Option<u8>
    var burstTs: Option<u32>
    var idleTicksSinceBurst: nat

    ghost var model: Sender

    /** While bursting, the two counters and the duration all encode how many packets are out. */
    ghost predicate Valid()
      reads this
    {
      && model.Ok() && queue == model.queue
      && match model.phase
         case Silent(n) =>
           currentEvent.None? && burstTs.None? && idleTicksSinceBurst == n
         case Bursting(e, t, j) =>
           && currentEvent == Some(e) && burstTs == Some(t)
           && ticksRemaining == (if j < 11 then 11 - j else 0)
           && endRemaining == (if j < 11 then 3 else 14 - j)
           && durationTicks == 160 * (if j < 11 then j + 1 else 12)
    }

    constructor ()
      ensures Valid() && model == FreshSender
    {
      queue := [];
      ticksRemaining, endRemaining, durationTicks := 0, 0, 0;
      currentEvent, burstTs := None, None;
      idleTicksSinceBurst := INTER_DIGIT_GAP_TICKS;
      model := FreshSender;
    }

    method Enqueue(digits: string)
      requires Valid()
      modifies this
      ensures Valid() && model == old(model).Enqueue(EventsOf(digits))
    {
      QueuedNone(model, digits);
      var i := 0;
      while i < |digits|
        invariant 0 <= i <= |digits|
        invariant Valid() && model == old(model).Enqueue(EventsOf(digits[..i]))
      {
        QueuedMore(old(model), digits, i);
        hide EventsOf;
        var e := CharToEvent(digits[i]);
        if e.Some? {
          EnqueueValid([e.value]);
          queue := queue + [e.value];
          model := model.Enqueue([e.value]);
        }
        i := i + 1;
      }
      assert digits[..i] == digits;
    }

    lemma EnqueueValid(more: seq<u8>)
      requires Valid()
      ensures model.Enqueue(more).Ok() && model.Enqueue(more).phase == model.phase && model.Enqueue(more).queue == queue + more
    {
    }

    method NextEvent(currentTs: u32) returns (r: Option<DtmfPacket>)
      requires Valid()
      modifies this
      ensures Valid() && model == old(model).Next(currentTs) && r == old(model).Emit(currentTs)
    {
      model := model.Next(currentTs);
      if currentEvent.None? {
        if idleTicksSinceBurst < INTER_DIGIT_GAP_TICKS {
          idleTicksSinceBurst := idleTicksSinceBurst + 1;
        }
        if queue == [] {
          return None;
        }
        if idleTicksSinceBurst < INTER_DIGIT_GAP_TICKS {
          return None;
        }
        currentEvent := Some(queue[0]);
        queue := queue[1..];
        ticksRemaining := EVENT_REPEATS;
        endRemaining := END_REPEATS;
        durationTicks := EVENT_DURATION_UNIT;
        burstTs := Some(currentTs);
      }
      var event, ts := currentEvent.value, burstTs.value;
      var marker := ticksRemaining == EVENT_REPEATS;
      if ticksRemaining > 0 {
        ticksRemaining := ticksRemaining - 1;
        var payload := EncodeEvent(event, false, DEFAULT_VOLUME, durationTicks);
        durationTicks := Min(durationTicks + EVENT_DURATION_UNIT, 0xFFFF);
        return Some(DtmfPacket(event, payload, marker, ts));
      }
      if endRemaining > 0 {
        endRemaining := endRemaining - 1;
        var payload := EncodeEvent(event, true, DEFAULT_VOLUME, durationTicks);
        if endRemaining == 0 {
          currentEvent, burstTs := None, None;
          idleTicksSinceBurst := 0;
        }
        return Some(DtmfPacket(event, payload, false, ts));
      }
      // The tail branch of the code: no state leads here.
      assert false;
    }
  }

  // ---- Receiver ----

  datatype Receiver = Receiver(lastSn: Option<u16>, lastEvent: Option<u8>, lastEventTs: Option<u32>)

  const FreshReceiver: Receiver := Receiver(None, None, None)

  /** Serial-number comparison over 16 bits: later than the last packet seen, by less than half the range. */
  predicate Advances(r: Receiver, sn: u16) {
    r.lastSn.None? || 0 < (sn - r.lastSn.value) % 0x1_0000 < 0x8000
  }

  predicate SameBurst(r: Receiver, event: u8, ts: u32) {
    && r.lastEvent == Some(event)
    && (r.lastEventTs.Some? ==> (ts - r.lastEventTs.value) % 0x1_0000_0000 < 3200)
  }

  function Feed(r: Receiver, sn: u16, ts: u32, payload: Payload): Receiver {
    var ev := DecodeEvent(payload);
    if ev.None? || !Advances(r, sn) then r
    else if ev.value.end then Receiver(Some(sn), None, None)
    else if SameBurst(r, ev.value.event, ts) then r.(lastSn := Some(sn))
    else Receiver(Some(sn), Some(ev.value.event), Some(ts))
  }

  function Report(r: Receiver, sn: u16, ts: u32, payload: Payload): Option<char> {
    var ev := DecodeEvent(payload);
    if ev.None? || !Advances(r, sn) || ev.value.end || SameBurst(r, ev.value.event, ts) then None
    else EventToChar(ev.value.event)
  }

  /**
   * What is reported, on the bytes and the two wrapped differences: a body of a
   * known event, from a packet ahead of the last one by less than half the
   * number space, unless the same event was the last one begun and its burst
   * began less than 3200 timestamp units (400 ms) before.
   */
  lemma ReportedIff(r: Receiver, sn: u16, ts: u32, p: Payload)
    ensures Report(r, sn, ts, p)
         == if && |p| >= 4 && p[1] < 0x80
               && (r.lastSn.Some? ==> 1 <= (sn - r.lastSn.value) % 0x1_0000 <= 0x7fff)
               && !(r.lastEvent == Some(p[0]) && (r.lastEventTs.Some? ==> (ts - r.lastEventTs.value) % 0x1_0000_0000 <= 3199))
               && p[0] < 17
            then Some(KEYS[p[0]]) else None
  {
    if |p| >= 4 && p[0] < 17 { KeysAreCodes(p[0]); }
  }

  /**
   * And what is remembered: the number of every packet that is ahead, nothing of
   * an event that has ended, and the event and timestamp that began a burst.
   */
  lemma RememberedAfter(r: Receiver, sn: u16, ts: u32, p: Payload)
    ensures var r1 := Feed(r, sn, ts, p);
            if |p| >= 4 && (r.lastSn.Some? ==> 1 <= (sn - r.lastSn.value) % 0x1_0000 <= 0x7fff) then
              && r1.lastSn == Some(sn)
              && (p[1] >= 0x80 ==> r1.lastEvent.None? && r1.lastEventTs.None?)
              && (p[1] < 0x80 ==>
                    && r1.lastEvent == Some(p[0])
                    && r1.lastEventTs
                       == if r.lastEvent == Some(p[0]) && (r.lastEventTs.Some? ==> (ts - r.lastEventTs.value) % 0x1_0000_0000 < 3200)
                          then r.lastEventTs else Some(ts))
            else r1 == r
  {
  }

  class DtmfReceiver {
    var lastSn: Option<u16>
    var lastEvent: Option<u8>
    var lastEventTs: Option<u32>

    ghost function Model(): Receiver
      reads this
    {
      Receiver(lastSn, lastEvent, lastEventTs)
    }

    constructor ()
      ensures Model() == FreshReceiver
    {
      lastSn, lastEvent, lastEventTs := None, None, None;
    }

    method FeedPacket(sn: u16, ts: u32, payload: Payload) returns (r: Option<char>)
      modifies this
      ensures Model() == Feed(old(Model()), sn, ts, payload) && r == Report(old(Model()), sn, ts, payload)
    {
      var ev := DecodeEvent(payload);
      if ev.None? {
        return None;
      }
      var advanced := true;
      if lastSn.Some? {
        advanced := (sn - lastSn.value) % 0x1_0000 < 0x8000 && sn != lastSn.value;
      }
      if !advanced {
        return None;
      }
      lastSn := Some(sn);
      if ev.value.end {
        lastEvent, lastEventTs := None, None;
        return None;
      }
      var sameEvent := lastEvent == Some(ev.value.event);
      var bigTsGap := false;
      if lastEventTs.Some? {
        bigTsGap := (ts - lastEventTs.value) % 0x1_0000_0000 >= NEW_BURST_TS_DELTA;
      }
      if sameEvent && !bigTsGap {
        return None;
      }
      lastEvent, lastEventTs := Some(ev.value.event), Some(ts);
      return EventToChar(ev.value.event);
    }
  }
}
