/**
 * One telephone-event sender, the network and one receiver, end to end.
 *
 * The channel polls its `DtmfSender` at most once per 20 ms tick, stamps the
 * packet with its running sequence number and hands it to a network that may
 * lose, repeat and reorder packets freely. The receiver still reports each
 * digit it heard any body packet of exactly once and in order, because bursts
 * of one sender start at least 23 ticks apart: 3680 timestamp units, which is
 * more than the receiver's threshold of 3200.
 */
module DtmfLink {
  import opened Common
  import opened Dtmf

  /** One tick: digits enqueued before it, whether the send path polls the sender, and the other packets sent first. */
  datatype Tick = Tick(digits: string, polled: bool, others: nat)

  /** A packet put on the wire under unwrapped sequence `number`; `burst`, `part` and `start` say where it comes from. */
  datatype Sent = Sent(number: int, packet: DtmfPacket, burst: nat, part: nat, start: int)

  datatype Link = Link(sender: Sender, tick: nat, number: nat, bursts: nat, startTick: int, events: seq<u8>, sent: seq<Sent>)

  function FreshLink(tick: nat, number: nat): Link {
    Link(FreshSender, tick, number, 0, 0, [], [])
  }

  /** The channel's media clock: `out_ts` grows by 160 every tick, modulo 2^32. */
  function Clock(tick: int): u32 { (160 * tick) % 0x1_0000_0000 }

  /** The send path asks the sender for a packet and stamps it with the next sequence number. */
  function Poll(l: Link): Link
    requires l.sender.Ok()
    ensures Poll(l).sender.Ok()
  {
    var s, now := l.sender, Clock(l.tick);
    var p := s.Emit(now);
    if p.None? then l.(sender := s.Next(now))
    else if s.phase.Silent? then
      l.(sender := s.Next(now), number := l.number + 1, bursts := l.bursts + 1, startTick := l.tick,
         sent := l.sent + [Sent(l.number, p.value, l.bursts, 0, 160 * l.tick)])
    else
      l.(sender := s.Next(now), number := l.number + 1,
         sent := l.sent + [Sent(l.number, p.value, Max(l.bursts - 1, 0), s.phase.sent, 160 * l.startTick)])
  }

  function Advance(l: Link, k: Tick): Link
    requires l.sender.Ok()
    ensures Advance(l, k).sender.Ok()
  {
    var queued := l.(sender := l.sender.Enqueue(EventsOf(k.digits)), events := l.events + EventsOf(k.digits));
    var ticked := queued.(tick := l.tick + 1, number := l.number + k.others);
    if k.polled then Poll(ticked) else ticked
  }

  function Transmit(l: Link, ticks: seq<Tick>): (l': Link)
    requires l.sender.Ok()
    ensures l'.sender.Ok()
  {
    if ticks == [] then l else Advance(Transmit(l, ticks[..|ticks| - 1]), ticks[|ticks| - 1])
  }

  // ---- What one sender puts on the wire ----

  predicate Digit(event: u8) { event <= 16 }

  ghost predicate Authentic(s: Sent, events: seq<u8>) {
    && s.part < BURST && s.burst < |events|
    && s.packet == BurstPacket(events[s.burst], s.start % 0x1_0000_0000, s.part)
  }

  /** `a` was sent before `b`: within a burst the parts go up, and a later burst starts at least 3680 units later. */
  ghost predicate Before(a: Sent, b: Sent) {
    && a.number < b.number
    && (|| (a.burst == b.burst && a.part < b.part && a.start == b.start)
        || (a.burst < b.burst && b.start - a.start >= 3680))
  }

  ghost predicate Genuine(sent: seq<Sent>, events: seq<u8>) {
    && (forall i | 0 <= i < |events| :: Digit(events[i]))
    && (forall i | 0 <= i < |sent| :: Authentic(sent[i], events))
    && (forall i, j | 0 <= i < j < |sent| :: Before(sent[i], sent[j]))
  }

  /** The state the transmission proof carries: how the sender's phase bounds the packets already out. */
  ghost predicate LinkOk(l: Link) {
    && l.sender.Ok() && l.bursts <= |l.events| && l.sender.queue == l.events[l.bursts..]
    && Genuine(l.sent, l.events)
    && (forall i | 0 <= i < |l.sent| :: l.sent[i].number < l.number && l.sent[i].burst < l.bursts)
    && (forall i | 0 <= i < |l.sent| :: if l.sent[i].burst == l.bursts - 1 then l.sent[i].start == 160 * l.startTick
                                        else 160 * l.startTick - l.sent[i].start >= 3680)
    && match l.sender.phase
       case Silent(n) => l.bursts > 0 ==> l.startTick + 13 + n <= l.tick
       case Bursting(e, ts, j) =>
         && l.bursts > 0 && e == l.events[l.bursts - 1] && ts == Clock(l.startTick)
         && l.startTick + j - 1 <= l.tick
         && (forall i | 0 <= i < |l.sent| && l.sent[i].burst == l.bursts - 1 :: l.sent[i].part < j)
  }

  lemma {:induction false} EventsAreDigits(digits: string)
    ensures forall i | 0 <= i < |EventsOf(digits)| :: Digit(EventsOf(digits)[i])
  {
    if digits != "" {
      EventsAreDigits(digits[1..]);
    }
  }

  lemma EnqueueOk(l: Link, digits: string)
    requires LinkOk(l)
    ensures LinkOk(l.(sender := l.sender.Enqueue(EventsOf(digits)), events := l.events + EventsOf(digits)))
  {
    EventsAreDigits(digits);
  }

  /** A poll happens at the tick just begun, so the tick bounds hold one tick earlier. */
  ghost predicate TickBegun(l: Link) {
    LinkOk(l) && l.tick > 0 && LinkOk(l.(tick := l.tick - 1))
  }

  lemma GenuineAppend(sent: seq<Sent>, events: seq<u8>, s: Sent)
    requires Genuine(sent, events) && Authentic(s, events)
    requires forall i | 0 <= i < |sent| :: Before(sent[i], s)
    ensures Genuine(sent + [s], events)
  {
  }

  /** Opening a burst: the silence since the last one makes its start 23 ticks later at least. */
  lemma StartBurst(l: Link)
    requires TickBegun(l) && l.sender.phase.Silent? && l.sender.Emit(Clock(l.tick)).Some?
    ensures LinkOk(Poll(l))
  {
    var s := Sent(l.number, l.sender.Emit(Clock(l.tick)).value, l.bursts, 0, 160 * l.tick);
    forall i | 0 <= i < |l.sent| ensures Before(l.sent[i], s) {
      assert l.sent[i].burst < l.bursts;
      assert l.startTick + 13 + 9 <= l.tick - 1;
      assert 160 * l.tick - l.sent[i].start >= 3680;
    }
    GenuineAppend(l.sent, l.events, s);
    var l1 := Poll(l);
    assert l1.sent == l.sent + [s];
    forall i | 0 <= i < |l1.sent| && l1.sent[i].burst == l1.bursts - 1 ensures l1.sent[i].part < 1 {
    }
  }

  lemma ContinueBurst(l: Link)
    requires TickBegun(l) && l.sender.phase.Bursting?
    ensures LinkOk(Poll(l))
  {
    var s := Sent(l.number, l.sender.Emit(Clock(l.tick)).value, l.bursts - 1, l.sender.phase.sent, 160 * l.startTick);
    forall i | 0 <= i < |l.sent| ensures Before(l.sent[i], s) {
    }
    GenuineAppend(l.sent, l.events, s);
    assert Poll(l).sent == l.sent + [s];
  }

  lemma PollOk(l: Link)
    requires TickBegun(l)
    ensures LinkOk(Poll(l))
  {
    if l.sender.Emit(Clock(l.tick)).None? {
      assert l.sender.phase.Silent?;
    } else if l.sender.phase.Silent? {
      StartBurst(l);
    } else {
      ContinueBurst(l);
    }
  }

  lemma TickOk(l: Link, others: nat)
    requires LinkOk(l)
    ensures TickBegun(l.(tick := l.tick + 1, number := l.number + others))
  {
    var l1 := l.(tick := l.tick + 1, number := l.number + others);
    assert LinkOk(l.(number := l.number + others));
    assert l1.(tick := l1.tick - 1) == l.(number := l.number + others);
  }

  lemma AdvanceOk(l: Link, k: Tick)
    requires LinkOk(l)
    ensures LinkOk(Advance(l, k))
  {
    hide *;
    EnqueueOk(l, k.digits);
    AdvanceIs(l, k);
    var queued := l.(sender := l.sender.Enqueue(EventsOf(k.digits)), events := l.events + EventsOf(k.digits));
    TickOk(queued, k.others);
    var ticked := queued.(tick := l.tick + 1, number := l.number + k.others);
    TickBegunIsOk(ticked);
    if k.polled { PollOk(ticked); }
  }

  lemma AdvanceIs(l: Link, k: Tick)
    requires LinkOk(l)
    ensures l.sender.Enqueue(EventsOf(k.digits)).Ok()
    ensures var queued := l.(sender := l.sender.Enqueue(EventsOf(k.digits)), events := l.events + EventsOf(k.digits));
            var ticked := queued.(tick := l.tick + 1, number := l.number + k.others);
            Advance(l, k) == if k.polled then Poll(ticked) else ticked
  {
    hide EventsOf, Poll;
  }

  lemma TickBegunIsOk(l: Link)
    requires TickBegun(l)
    ensures LinkOk(l)
  {
    hide LinkOk;
  }

  lemma {:induction false} TransmitOk(ticks: seq<Tick>, tick: nat, number: nat)
    ensures LinkOk(Transmit(FreshLink(tick, number), ticks))
  {
    if ticks != [] {
      TransmitOk(ticks[..|ticks| - 1], tick, number);
      AdvanceOk(Transmit(FreshLink(tick, number), ticks[..|ticks| - 1]), ticks[|ticks| - 1]);
    }
  }

  // ---- The network and the receiver ----

  /** Arrivals name sent packets by position, so loss, duplication and reordering are any sequence of positions. */
  ghost predicate Delivered(sent: seq<Sent>, arrivals: seq<nat>) {
    forall k | 0 <= k < |arrivals| :: arrivals[k] < |sent|
  }

  /** The 16- and 32-bit wraps stay unambiguous over the whole exchange. */
  ghost predicate Spans(sent: seq<Sent>) {
    forall i, j | 0 <= i < j < |sent| ::
      sent[j].number - sent[i].number < 0x8000 && sent[j].start - sent[i].start < 0x1_0000_0000
  }

  function Received(sent: seq<Sent>, arrivals: seq<nat>): Receiver
    requires Delivered(sent, arrivals)
  {
    if arrivals == [] then FreshReceiver
    else FeedSent(Received(sent, arrivals[..|arrivals| - 1]), sent[arrivals[|arrivals| - 1]])
  }

  function Reported(sent: seq<Sent>, arrivals: seq<nat>): string
    requires Delivered(sent, arrivals)
  {
    if arrivals == [] then ""
    else Reported(sent, arrivals[..|arrivals| - 1])
         + ReportSent(Received(sent, arrivals[..|arrivals| - 1]), sent[arrivals[|arrivals| - 1]])
  }

  /** Arrival k brings a packet sent later than every packet that arrived before it. */
  ghost predicate Fresh(arrivals: seq<nat>, k: nat)
    requires k < |arrivals|
  {
    forall i | 0 <= i < k :: arrivals[i] < arrivals[k]
  }

  function IsBody(s: Sent): bool { s.part < 11 }

  /** The bursts heard so far: those with a body packet among the fresh arrivals, in order of first hearing. */
  ghost function Heard(sent: seq<Sent>, arrivals: seq<nat>): seq<nat>
    requires Delivered(sent, arrivals)
  {
    if arrivals == [] then []
    else HeardNext(Heard(sent, arrivals[..|arrivals| - 1]), Fresh(arrivals, |arrivals| - 1), sent[arrivals[|arrivals| - 1]])
  }

  function HeardNext(heard: seq<nat>, ahead: bool, p: Sent): seq<nat> {
    if ahead && IsBody(p) && (heard == [] || heard[|heard| - 1] != p.burst) then heard + [p.burst] else heard
  }

  ghost predicate HasFreshBody(sent: seq<Sent>, arrivals: seq<nat>, b: nat)
    requires Delivered(sent, arrivals)
  {
    exists k | 0 <= k < |arrivals| :: Fresh(arrivals, k) && IsBody(sent[arrivals[k]]) && sent[arrivals[k]].burst == b
  }

  /** What the receiver remembers when p is the latest-sent packet it has accepted and `heard` the bursts it reported. */
  ghost predicate Remembers(r: Receiver, heard: seq<nat>, p: Sent) {
    && r.lastSn == Some(p.number % 0x1_0000)
    && (heard != [] ==> heard[|heard| - 1] <= p.burst)
    && if IsBody(p)
       then && heard != [] && heard[|heard| - 1] == p.burst
            && r.lastEvent == Some(p.packet.event) && r.lastEventTs == Some(p.packet.timestamp)
       else r.lastEvent.None? && r.lastEventTs.None?
  }

  ghost predicate Latest(arrivals: seq<nat>, m: nat) {
    m in arrivals && forall k | 0 <= k < |arrivals| :: arrivals[k] <= m
  }

  ghost predicate Named(events: seq<u8>, bursts: seq<nat>) {
    forall i | 0 <= i < |bursts| :: bursts[i] < |events|
  }

  ghost function DigitsOf(events: seq<u8>, bursts: seq<nat>): string
    requires (forall i | 0 <= i < |events| :: Digit(events[i])) && Named(events, bursts)
  {
    seq(|bursts|, i requires 0 <= i < |bursts| => assert Digit(events[bursts[i]]); EventToChar(events[bursts[i]]).value)
  }

  function FeedSent(r: Receiver, p: Sent): Receiver {
    Feed(r, p.number % 0x1_0000, p.packet.timestamp, p.packet.payload)
  }

  function ReportSent(r: Receiver, p: Sent): string {
    match Report(r, p.number % 0x1_0000, p.packet.timestamp, p.packet.payload)
    case Some(c) => [c]
    case None => []
  }

  lemma PacketDecodes(p: Sent, events: seq<u8>)
    requires Authentic(p, events)
    ensures var ev := DecodeEvent(p.packet.payload);
            ev.Some? && ev.value.event == events[p.burst] && ev.value.end == !IsBody(p)
  {
    EventRoundTrip(events[p.burst], p.part >= 11, 13, 160 * (if p.part < 11 then p.part + 1 else 12), []);
    assert p.packet.payload + [] == p.packet.payload;
  }

  lemma FirstPacket(p: Sent, events: seq<u8>)
    requires Authentic(p, events)
    ensures Remembers(FeedSent(FreshReceiver, p), HeardNext([], true, p), p)
    ensures HeardNext([], true, p) == (if IsBody(p) then [p.burst] else [])
    ensures ReportSent(FreshReceiver, p)
         == if !IsBody(p) then [] else match EventToChar(events[p.burst]) case Some(c) => [c] case None => []
  {
    PacketDecodes(p, events);
  }

  /** A packet sent no later than the latest accepted one is ignored. */
  lemma StalePacket(r: Receiver, heard: seq<nat>, q: Sent, p: Sent, events: seq<u8>)
    requires Remembers(r, heard, q) && Authentic(p, events)
    requires 0 <= q.number - p.number < 0x8000
    ensures FeedSent(r, p) == r && ReportSent(r, p) == []
  {
    PacketDecodes(p, events);
    assert !Advances(r, p.number % 0x1_0000);
  }

  /** The receiver's two tests on a packet sent after the latest accepted one, which was sent as q. */
  lemma FreshTests(r: Receiver, heard: seq<nat>, q: Sent, p: Sent, events: seq<u8>)
    requires Remembers(r, heard, q) && Authentic(q, events) && Authentic(p, events) && Before(q, p)
    requires p.number - q.number < 0x8000 && p.start - q.start < 0x1_0000_0000
    ensures Advances(r, p.number % 0x1_0000)
    ensures IsBody(p) ==> (SameBurst(r, events[p.burst], p.packet.timestamp) <==> IsBody(q) && q.burst == p.burst)
  {
    if IsBody(q) && q.burst != p.burst {
      StampsApart(q.start, p.start);
    }
    Stamped(q, events);
    Stamped(p, events);
    hide BurstPacket, Authentic;
    assert q.packet.timestamp == q.start % 0x1_0000_0000 && p.packet.timestamp == p.start % 0x1_0000_0000;
    NumbersAhead(q.number, p.number);
  }

  lemma NumbersAhead(a: int, b: int)
    requires 0 < b - a < 0x8000
    ensures (b % 0x1_0000 - a % 0x1_0000) % 0x1_0000 == b - a
  {
  }

  lemma Stamped(p: Sent, events: seq<u8>)
    requires Authentic(p, events)
    ensures p.packet.timestamp == p.start % 0x1_0000_0000 && p.packet.event == events[p.burst]
  {
  }

  lemma StampsApart(a: int, b: int)
    requires 3680 <= b - a < 0x1_0000_0000
    ensures (b % 0x1_0000_0000 - a % 0x1_0000_0000) % 0x1_0000_0000 >= 3200
  {
    assert (b % 0x1_0000_0000 - a % 0x1_0000_0000) % 0x1_0000_0000 == b - a;
  }

  /** A packet sent after the latest accepted one is reported exactly when it opens a burst not heard yet. */
  lemma FreshPacket(r: Receiver, heard: seq<nat>, q: Sent, p: Sent, events: seq<u8>)
    requires Remembers(r, heard, q) && Authentic(q, events) && Authentic(p, events) && Before(q, p)
    requires p.number - q.number < 0x8000 && p.start - q.start < 0x1_0000_0000
    ensures Remembers(FeedSent(r, p), HeardNext(heard, true, p), p)
    ensures ReportSent(r, p)
         == if HeardNext(heard, true, p) == heard then []
            else match EventToChar(events[p.burst]) case Some(c) => [c] case None => []
  {
    PacketDecodes(p, events);
    FreshTests(r, heard, q, p, events);
    Stamped(p, events);
    assert IsBody(q) && IsBody(p) && q.burst == p.burst ==> r.lastEventTs == Some(p.packet.timestamp) by {
      Stamped(q, events);
    }
    hide Advances, SameBurst, BurstPacket, EventToChar, DecodeEvent;
  }

  /** After some arrivals: what the receiver remembers and has reported is what the bursts heard so far make it. */
  ghost predicate Tracks(sent: seq<Sent>, events: seq<u8>, arrivals: seq<nat>, latest: nat)
    requires Delivered(sent, arrivals) && forall i | 0 <= i < |events| :: Digit(events[i])
  {
    && (arrivals != [] ==>
          && Latest(arrivals, latest) && latest < |sent|
          && Remembers(Received(sent, arrivals), Heard(sent, arrivals), sent[latest]))
    && Named(events, Heard(sent, arrivals))
    && Reported(sent, arrivals) == DigitsOf(events, Heard(sent, arrivals))
  }

  /** One more arrival, split off. */
  lemma Arrives(sent: seq<Sent>, early: seq<nat>, a: nat)
    requires Delivered(sent, early) && a < |sent|
    ensures var arrivals := early + [a]; var r := Received(sent, early);
            && Delivered(sent, arrivals)
            && Received(sent, arrivals) == FeedSent(r, sent[a])
            && Reported(sent, arrivals) == Reported(sent, early) + ReportSent(r, sent[a])
            && Heard(sent, arrivals) == HeardNext(Heard(sent, early), Fresh(arrivals, |early|), sent[a])
  {
    assert (early + [a])[..|early|] == early;
    hide FeedSent, ReportSent, HeardNext, Fresh;
  }

  lemma TracksFirst(sent: seq<Sent>, events: seq<u8>, a: nat)
    requires Genuine(sent, events) && a < |sent|
    ensures Tracks(sent, events, [a], a)
  {
    assert Authentic(sent[a], events) && Digit(events[sent[a].burst]);
    Arrives(sent, [], a);
    assert [] + [a] == [a] && Fresh([a], 0);
    assert Heard(sent, []) == [] && Reported(sent, []) == "" && Received(sent, []) == FreshReceiver;
    hide Received, Reported, Heard, FeedSent, ReportSent, Genuine, Authentic, EventToChar;
    FirstPacket(sent[a], events);
    AppendDigit(events, [], sent[a]);
  }

  lemma TracksNext(sent: seq<Sent>, events: seq<u8>, early: seq<nat>, a: nat, latest: nat)
    requires Genuine(sent, events) && Spans(sent) && Delivered(sent, early) && a < |sent| && early != []
    requires Tracks(sent, events, early, latest)
    ensures Delivered(sent, early + [a]) && Tracks(sent, events, early + [a], Max(latest, a))
  {
    hide *;
    KnownDigits(sent, events, a);
    assert (early + [a])[..|early|] == early;
    var r, heard, p := Received(sent, early), Heard(sent, early), sent[a];
    Arrives(sent, early, a);
    TracksParts(sent, events, early, latest);
    LatestMoves(early + [a], latest);
    OneMorePacket(sent, events, r, heard, latest, a);
    AppendDigit(events, heard, p);
    HeardNextShape(heard, a > latest, p);
    TheLater(latest, a);
    assert Reported(sent, early) + [] == Reported(sent, early);
    TracksParts(sent, events, early + [a], Max(latest, a));
  }

  lemma KnownDigits(sent: seq<Sent>, events: seq<u8>, a: nat)
    requires Genuine(sent, events) && a < |sent|
    ensures sent[a].burst < |events| && forall i | 0 <= i < |events| :: Digit(events[i])
  {
    assert Authentic(sent[a], events);
  }

  lemma HeardNextShape(heard: seq<nat>, ahead: bool, p: Sent)
    ensures HeardNext(heard, ahead, p) == heard || HeardNext(heard, ahead, p) == heard + [p.burst]
  {
  }

  lemma TheLater(m: nat, a: nat)
    ensures Max(m, a) == if a > m then a else m
  {
  }

  lemma TracksParts(sent: seq<Sent>, events: seq<u8>, arrivals: seq<nat>, latest: nat)
    requires Delivered(sent, arrivals) && arrivals != [] && forall i | 0 <= i < |events| :: Digit(events[i])
    ensures Tracks(sent, events, arrivals, latest)
       <==> && Latest(arrivals, latest) && latest < |sent|
            && Remembers(Received(sent, arrivals), Heard(sent, arrivals), sent[latest])
            && Named(events, Heard(sent, arrivals))
            && Reported(sent, arrivals) == DigitsOf(events, Heard(sent, arrivals))
  {
    hide Received, Reported, Heard, Latest, Remembers, Named, DigitsOf, Digit;
  }

  lemma {:induction false} ReceiverTracksBursts(sent: seq<Sent>, events: seq<u8>, arrivals: seq<nat>) returns (latest: nat)
    requires Genuine(sent, events) && Spans(sent) && Delivered(sent, arrivals)
    ensures Tracks(sent, events, arrivals, latest)
    decreases |arrivals|
  {
    hide *;
    latest := 0;
    if arrivals == [] {
      TracksNothing(sent, events);
    } else {
      var n := |arrivals| - 1;
      DeliveredPrefix(sent, arrivals);
      latest := ReceiverTracksBursts(sent, events, arrivals[..n]);
      assert arrivals == arrivals[..n] + [arrivals[n]];
      TheLater(latest, arrivals[n]);
      if n == 0 {
        latest := arrivals[n];
        TracksFirst(sent, events, latest);
        assert arrivals == [latest];
      } else {
        TracksNext(sent, events, arrivals[..n], arrivals[n], latest);
        latest := Max(latest, arrivals[n]);
      }
    }
  }

  lemma TracksNothing(sent: seq<Sent>, events: seq<u8>)
    requires Genuine(sent, events)
    ensures Tracks(sent, events, [], 0)
  {
  }

  lemma DeliveredPrefix(sent: seq<Sent>, arrivals: seq<nat>)
    requires Delivered(sent, arrivals) && arrivals != []
    ensures Delivered(sent, arrivals[..|arrivals| - 1]) && arrivals[|arrivals| - 1] < |sent|
  {
  }

  lemma LatestMoves(arrivals: seq<nat>, m: nat)
    requires |arrivals| > 1 && Latest(arrivals[..|arrivals| - 1], m)
    ensures Latest(arrivals, Max(m, arrivals[|arrivals| - 1]))
    ensures Fresh(arrivals, |arrivals| - 1) <==> arrivals[|arrivals| - 1] > m
  {
    var n := |arrivals| - 1;
    var k :| 0 <= k < n && arrivals[..n][k] == m;
    assert arrivals[k] == m;
    assert forall i | 0 <= i < n :: arrivals[..n][i] == arrivals[i];
  }

  lemma OneMorePacket(sent: seq<Sent>, events: seq<u8>, r: Receiver, heard: seq<nat>, m: nat, a: nat)
    requires Genuine(sent, events) && Spans(sent) && m < |sent| && a < |sent| && Remembers(r, heard, sent[m])
    ensures var h := HeardNext(heard, a > m, sent[a]);
            && Remembers(FeedSent(r, sent[a]), h, sent[Max(m, a)])
            && ReportSent(r, sent[a])
               == if h == heard then []
                  else match EventToChar(events[sent[a].burst]) case Some(c) => [c] case None => []
  {
    assert Authentic(sent[a], events) && Authentic(sent[m], events);
    if a <= m {
      assert a < m ==> Before(sent[a], sent[m]);
      StalePacket(r, heard, sent[m], sent[a], events);
    } else {
      assert Before(sent[m], sent[a]);
      FreshPacket(r, heard, sent[m], sent[a], events);
    }
  }

  lemma AppendDigit(events: seq<u8>, heard: seq<nat>, p: Sent)
    requires (forall i | 0 <= i < |events| :: Digit(events[i])) && Named(events, heard) && p.burst < |events|
    ensures Named(events, heard + [p.burst])
    ensures EventToChar(events[p.burst]).Some?
    ensures DigitsOf(events, heard + [p.burst]) == DigitsOf(events, heard) + [EventToChar(events[p.burst]).value]
  {
    assert Digit(events[p.burst]);
  }

  lemma FreshSame(arrivals: seq<nat>, k: nat)
    requires k < |arrivals| - 1
    ensures Fresh(arrivals, k) <==> Fresh(arrivals[..|arrivals| - 1], k)
  {
    var prev := arrivals[..|arrivals| - 1];
    assert forall i | 0 <= i <= k :: prev[i] == arrivals[i];
  }

  /** Freshness of the earlier arrivals does not depend on the last one. */
  lemma FreshPrefix(sent: seq<Sent>, arrivals: seq<nat>, b: nat)
    requires Delivered(sent, arrivals) && arrivals != []
    ensures var n := |arrivals| - 1;
            HasFreshBody(sent, arrivals, b)
            <==> || HasFreshBody(sent, arrivals[..n], b)
                 || (Fresh(arrivals, n) && IsBody(sent[arrivals[n]]) && sent[arrivals[n]].burst == b)
  {
    var n := |arrivals| - 1;
    var prev := arrivals[..n];
    forall k: nat | k < n ensures (Fresh(arrivals, k) <==> Fresh(prev, k)) && prev[k] == arrivals[k] {
      FreshSame(arrivals, k);
    }
    hide Fresh, IsBody;
    if HasFreshBody(sent, prev, b) {
      var k :| 0 <= k < n && Fresh(prev, k) && IsBody(sent[prev[k]]) && sent[prev[k]].burst == b;
      assert Fresh(arrivals, k) && arrivals[k] == prev[k];
    }
    if HasFreshBody(sent, arrivals, b) {
      var k :| 0 <= k <= n && Fresh(arrivals, k) && IsBody(sent[arrivals[k]]) && sent[arrivals[k]].burst == b;
      if k < n {
        assert Fresh(prev, k) && arrivals[k] == prev[k];
      }
    }
  }

  ghost predicate Increasing(h: seq<nat>) {
    forall i, j | 0 <= i < j < |h| :: h[i] < h[j]
  }

  lemma HeardNextIncreases(h: seq<nat>, q: Sent, p: Sent)
    requires Increasing(h) && (h != [] ==> h[|h| - 1] <= q.burst) && Before(q, p)
    ensures Increasing(HeardNext(h, true, p))
  {
  }

  lemma {:induction false} HeardIncreases(sent: seq<Sent>, events: seq<u8>, arrivals: seq<nat>)
    requires Genuine(sent, events) && Spans(sent) && Delivered(sent, arrivals)
    ensures Increasing(Heard(sent, arrivals))
  {
    if |arrivals| > 1 {
      var n := |arrivals| - 1;
      HeardIncreases(sent, events, arrivals[..n]);
      var m := ReceiverTracksBursts(sent, events, arrivals[..n]);
      LatestMoves(arrivals, m);
      if arrivals[n] > m {
        HeardNextIncreases(Heard(sent, arrivals[..n]), sent[m], sent[arrivals[n]]);
      }
    } else if |arrivals| == 1 {
      assert Heard(sent, arrivals[..0]) == [];
    }
  }

  lemma {:induction false} HeardExactly(sent: seq<Sent>, arrivals: seq<nat>, b: nat)
    requires Delivered(sent, arrivals)
    ensures b in Heard(sent, arrivals) <==> HasFreshBody(sent, arrivals, b)
  {
    if arrivals != [] {
      HeardExactly(sent, arrivals[..|arrivals| - 1], b);
      FreshPrefix(sent, arrivals, b);
    }
  }

  /**
   * The whole link. Whatever the digits, the ticks on which the sender was
   * polled, the other traffic, and whatever the network loses, repeats or
   * reorders: the receiver reports the digits of exactly those bursts of which
   * some body packet arrived ahead of everything seen before it, once each and
   * in the order they were dialled - even if no end packet ever arrives.
   */
  lemma DigitsSurviveTheNetwork(ticks: seq<Tick>, tick: nat, number: nat, arrivals: seq<nat>)
    requires var sent := Transmit(FreshLink(tick, number), ticks).sent; Spans(sent) && Delivered(sent, arrivals)
    ensures var l := Transmit(FreshLink(tick, number), ticks);
            var h := Heard(l.sent, arrivals);
            && (forall i | 0 <= i < |l.events| :: Digit(l.events[i])) && Named(l.events, h)
            && Reported(l.sent, arrivals) == DigitsOf(l.events, h)
            && Increasing(h)
            && (forall b: nat :: b in h <==> HasFreshBody(l.sent, arrivals, b))
  {
    TransmitOk(ticks, tick, number);
    var l := Transmit(FreshLink(tick, number), ticks);
    var latest := ReceiverTracksBursts(l.sent, l.events, arrivals);
    HeardIncreases(l.sent, l.events, arrivals);
    forall b: nat ensures b in Heard(l.sent, arrivals) <==> HasFreshBody(l.sent, arrivals, b) {
      HeardExactly(l.sent, arrivals, b);
    }
  }
}
