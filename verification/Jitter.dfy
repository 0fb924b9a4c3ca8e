/**
 * The jitter / reorder buffer (rust/src/channel/jitter.rs), for every size and
 * water level its constructor takes.
 *
 * `Window` is what the buffer is for: packets filed under their unwrapped
 * sequence number, less than a wrap ahead of the read position. `JitterBuffer`
 * is what the code does: a ring of slots addressed by `sn % count`, a 16-bit
 * read position and four counters. Every method of the ring is proved to
 * perform the matching step of the window; ordering, delivery, conservation
 * and what the sizes must be are then proved about runs of window steps.
 */
module Jitter {
  import opened Common

  datatype Packet = Packet(sn: u16, timestamp: u32, payloadType: u8, payload: seq<u8>)

  /** `epoch` counts primings: the first packet after construction or `Clear`, and every re-prime. */
  datatype Window = Window(
    count: nat, water: nat, pos: int, held: map<int, Packet>, primed: bool, peeked: bool, epoch: nat,
    dropped: nat, pushed: nat, popped: nat, badSn: nat)
  {
    /** Every held packet is less than a wrap ahead under its own number, and no two share a slot. */
    ghost predicate Ok() {
      && 0 < count
      && (forall u <- held :: pos <= u < pos + 0x1_0000 && held[u].sn == u % 0x1_0000)
      && (forall u <- held, v <- held :: SlotOf(u, count) == SlotOf(v, count) ==> u == v)
      && (!primed ==> held == map[])
      && (peeked ==> pos in held)
    }

    /** The unwrapped number a 16-bit `sn` is read as: the first one at or after `pos`. */
    function Unwrap(sn: u16): (u: int)
      ensures pos <= u < pos + 0x1_0000 && u % 0x1_0000 == sn
    {
      pos + (sn - pos) % 0x1_0000
    }

    /** Some packet is filed in the slot of `u`. */
    predicate Taken(u: int)
      requires 0 < count
    {
      exists v <- held :: SlotOf(v, count) == SlotOf(u, count)
    }

    /** Further ahead than the ring is long. */
    predicate Far(sn: u16) {
      Unwrap(sn) - pos > count
    }

    /** `water as u16`: how far behind a priming packet reading starts. */
    function Lead(): nat {
      water % 0x1_0000
    }

    /** Numbering starts afresh on the first priming and goes on from the old one on a re-prime. */
    function PrimeAt(sn: u16): Window {
      this.(pos := (if primed then Unwrap(sn) else sn) - Lead(), primed := true, epoch := epoch + 1)
    }

    /** Where a packet finds the window: primed on the first one, and again when it is far ahead of an empty window. */
    function Settled(sn: u16): Window {
      var w := if primed then this else PrimeAt(sn);
      if w.Far(sn) && w.held == map[] then w.PrimeAt(sn) else w
    }

    function Push(pk: Packet): Window
      requires 0 < count
    {
      var w := Settled(pk.sn);
      if w.Far(pk.sn) && w.held != map[] then w.(dropped := w.dropped + 1) else w.Take(pk)
    }

    /** The packet in its slot, or dropped if that is taken. */
    function Take(pk: Packet): Window
      requires 0 < count
    {
      if Taken(Unwrap(pk.sn)) then this.(dropped := dropped + 1)
      else this.(held := held[Unwrap(pk.sn) := pk], pushed := pushed + 1)
    }

    function Peek(): Window
      requires 0 < count
    {
      if !primed then this
      else if pos in held then this.(peeked := true)
      else if Taken(pos) then this.(held := WithoutSlot(held, count, SlotOf(pos, count)), badSn := badSn + 1)
      else this.(pos := pos + 1)
    }

    function Next(): Option<Packet> {
      if primed && pos in held then Some(held[pos]) else None
    }

    function DiscardPeeked(): Window {
      if peeked then this.(held := held - {pos}, pos := pos + 1, peeked := false, popped := popped + 1) else this
    }

    function Pop(): Window
      requires 0 < count
    {
      if Next().Some? then Peek().DiscardPeeked() else Peek()
    }

    function Clear(): Window {
      this.(held := map[], peeked := false, primed := false)
    }
  }

  /** Where the ring files the packet of an unwrapped number: `sn % count`, the number already cut to 16 bits. */
  function SlotOf(u: int, count: nat): (i: nat)
    requires 0 < count
    ensures i < count
  {
    (u % 0x1_0000) % count
  }

  function WithoutSlot(held: map<int, Packet>, count: nat, i: nat): map<int, Packet>
    requires 0 < count
  {
    map v | v in held && SlotOf(v, count) != i :: held[v]
  }

  function Empty(count: nat, water: nat): Window {
    Window(count, water, 0, map[], false, false, 0, 0, 0, 0, 0)
  }

  /** A window just primed on `sn` has it `Lead()` ahead, and priming an empty window keeps it well formed. */
  lemma PrimedOk(w: Window, sn: u16)
    requires w.Ok() && w.held == map[]
    ensures w.PrimeAt(sn).Ok() && w.PrimeAt(sn).Unwrap(sn) - w.PrimeAt(sn).pos == w.Lead()
  {
  }

  lemma PushOk(w: Window, pk: Packet)
    requires w.Ok()
    ensures w.Push(pk).Ok()
  {
  }

  lemma PeekOk(w: Window)
    requires w.Ok()
    ensures w.Peek().Ok()
  {
  }

  lemma DiscardOk(w: Window)
    requires w.Ok()
    ensures w.DiscardPeeked().Ok()
  {
  }

  // ---- The ring the code keeps, refining the window ----

  type Slots = seq<Option<Packet>>

  /** Each held packet sits in its slot, and `number` says which packet an occupied slot holds. */
  ghost predicate Represents(slots: Slots, number: seq<int>, n: nat, held: map<int, Packet>) {
    && 0 < n == |slots| == |number|
    && (forall u <- held :: number[SlotOf(u, n)] == u && slots[SlotOf(u, n)] == Some(held[u]))
    && (forall i | 0 <= i < n && slots[i].Some? :: number[i] in held && SlotOf(number[i], n) == i)
  }

  lemma StoreRepresents(slots: Slots, number: seq<int>, n: nat, held: map<int, Packet>, u: int, pk: Packet)
    requires Represents(slots, number, n, held) && slots[SlotOf(u, n)].None?
    ensures Represents(slots[SlotOf(u, n) := Some(pk)], number[SlotOf(u, n) := u], n, held[u := pk])
  {
    hide SlotOf;
  }

  lemma EvictRepresents(slots: Slots, number: seq<int>, n: nat, held: map<int, Packet>, i: nat)
    requires Represents(slots, number, n, held) && i < n
    ensures Represents(slots[i := None], number, n, WithoutSlot(held, n, i))
  {
    hide SlotOf;
  }

  /** Slots are not shared, so a packet can be taken out by number. */
  lemma RemoveRepresents(slots: Slots, number: seq<int>, n: nat, held: map<int, Packet>, u: int)
    requires Represents(slots, number, n, held) && u in held
    ensures Represents(slots[SlotOf(u, n) := None], number, n, held - {u})
  {
    hide SlotOf;
  }

  lemma AllFree(slots: Slots, number: seq<int>, n: nat, held: map<int, Packet>)
    requires Represents(slots, number, n, held) && forall i | 0 <= i < n :: slots[i].None?
    ensures held == map[]
  {
    forall u ensures u !in held {
    }
  }

  lemma SlotTaken(slots: Slots, number: seq<int>, w: Window, u: int)
    requires Represents(slots, number, w.count, w.held)
    ensures slots[SlotOf(u, w.count)].Some? <==> w.Taken(u)
  {
    hide SlotOf;
  }

  /** What `peek` finds in the slot of the read position: nothing, the packet due, or another number's. */
  lemma CurrentSlot(slots: Slots, number: seq<int>, w: Window)
    requires w.Ok() && Represents(slots, number, w.count, w.held)
    ensures var s := slots[SlotOf(w.pos, w.count)];
            && (w.pos in w.held ==> s == Some(w.held[w.pos]) && s.value.sn == w.pos % 0x1_0000)
            && (w.pos !in w.held && w.Taken(w.pos) ==> s.Some? && s.value.sn != w.pos % 0x1_0000)
            && (!w.Taken(w.pos) ==> s.None?)
  {
    SlotTaken(slots, number, w, w.pos);
    var i := SlotOf(w.pos, w.count);
    hide SlotOf, Window.Taken;
    if w.pos !in w.held && slots[i].Some? {
      var v := number[i];
      assert v in w.held && slots[i] == Some(w.held[v]);
      OtherNumber(v, w.pos);
    }
  }

  /** Less than a wrap apart, different numbers stay different. */
  lemma OtherNumber(v: int, pos: int)
    requires pos < v < pos + 0x1_0000
    ensures v % 0x1_0000 != pos % 0x1_0000
  {
    if v % 0x1_0000 == pos % 0x1_0000 {
      SmallMultiple(v / 0x1_0000 - pos / 0x1_0000, 0x1_0000, v - pos);
    }
  }

  lemma NextNumber(pos: int)
    ensures (pos % 0x1_0000 + 1) % 0x1_0000 == (pos + 1) % 0x1_0000
  {
  }

  /** The two wrapped differences of the code, on unwrapped numbers. */
  lemma WrappedDistance(w: Window, sn: u16)
    ensures (sn - w.pos % 0x1_0000) % 0x1_0000 == w.Unwrap(sn) - w.pos
    ensures (sn - w.Lead()) % 0x1_0000 == w.PrimeAt(sn).pos % 0x1_0000
  {
    Wraps(sn - w.pos % 0x1_0000, sn - w.pos, w.pos / 0x1_0000);
    Wraps(w.Unwrap(sn) - w.Lead(), sn - w.Lead(), w.Unwrap(sn) / 0x1_0000);
  }

  lemma Wraps(x: int, y: int, k: int)
    requires x == y + k * 0x1_0000
    ensures x % 0x1_0000 == y % 0x1_0000
  {
  }

  class JitterBuffer {
    const slots: array<Option<Packet>>
    const bufferCount: nat
    const waterLevel: nat
    var outSn: u16
    var primed: bool
    var peekedSlot: Option<nat>
    var dropped: nat
    var pushed: nat
    var popped: nat
    var badSn: nat

    /** What the ring stands for, and for each occupied slot the unwrapped number of its packet. */
    ghost var window: Window
    ghost var number: seq<int>

    ghost predicate Valid()
      reads this, slots
    {
      && window.Ok()
      && slots.Length == bufferCount == window.count
      && waterLevel == window.water
      && outSn == window.pos % 0x1_0000
      && primed == window.primed
      && (peekedSlot.Some? == window.peeked)
      && (peekedSlot.Some? ==> peekedSlot.value == SlotOf(window.pos, bufferCount))
      && dropped == window.dropped && pushed == window.pushed && popped == window.popped && badSn == window.badSn
      && Represents(slots[..], number, bufferCount, window.held)
    }

    constructor (bufferCount: nat, waterLevel: nat)
      requires bufferCount > 0
      ensures Valid() && window == Empty(bufferCount, waterLevel)
      ensures fresh(slots)
    {
      slots := new Option<Packet>[bufferCount](_ => None);
      this.bufferCount, this.waterLevel := bufferCount, waterLevel;
      outSn, primed, peekedSlot := 0, false, None;
      dropped, pushed, popped, badSn := 0, 0, 0, 0;
      window := Empty(bufferCount, waterLevel);
      number := seq(bufferCount, _ => 0);
    }

    method Push(pk: Packet)
      requires Valid()
      modifies this, slots
      ensures Valid() && window == old(window).Push(pk)
    {
      PushCases(window, pk);
      Fields();
      hide *;
      if !primed {
        Prime(pk.sn);
        Fields();
      }
      WrappedDistance(window, pk.sn);
      var ahead := (pk.sn - outSn) % 0x1_0000;
      if ahead > bufferCount {
        var empty := AllEmpty();
        if !empty {
          Drop();
          return;
        }
        Prime(pk.sn);
      }
      Store(pk);
    }

    method Drop()
      requires Valid()
      modifies this
      ensures Valid() && window == old(window).(dropped := old(window).dropped + 1)
    {
      hide SlotOf;
      dropped := dropped + 1;
      window := window.(dropped := window.dropped + 1);
    }

    lemma Fields()
      requires Valid()
      ensures window.Ok() && primed == window.primed && bufferCount == window.count && outSn == window.pos % 0x1_0000
    {
    }

    /** `out_sn = sn - water_level`: start reading `water_level` packets before `sn`. */
    method Prime(sn: u16)
      requires Valid() && window.held == map[]
      modifies this
      ensures Valid() && window == old(window).PrimeAt(sn)
    {
      WrappedDistance(window, sn);
      PrimedOk(window, sn);
      hide Window.Ok, Window.Unwrap, Represents, SlotOf;
      outSn := (sn - waterLevel % 0x1_0000) % 0x1_0000;
      primed := true;
      window := window.PrimeAt(sn);
    }

    /** The second half of `push`: the packet takes its slot or is dropped. */
    method Store(pk: Packet)
      requires Valid() && window.primed
      modifies this, slots
      ensures Valid() && window == old(window).Take(pk)
    {
      ghost var u, ring := window.Unwrap(pk.sn), slots[..];
      var idx := pk.sn % bufferCount;
      assert idx == SlotOf(u, bufferCount);
      SlotTaken(ring, number, window, u);
      TakeOk(window, pk);
      if slots[idx].None? {
        StoreRepresents(ring, number, bufferCount, window.held, u, pk);
        hide Window.Ok, Window.Unwrap, Represents, SlotOf, Window.Taken;
        slots[idx] := Some(pk);
        assert slots[..] == ring[idx := Some(pk)];
        pushed := pushed + 1;
        number := number[idx := u];
      } else {
        hide Window.Ok, Window.Unwrap, Represents, SlotOf, Window.Taken;
        dropped := dropped + 1;
      }
      window := window.Take(pk);
    }

    method AllEmpty() returns (empty: bool)
      requires Valid()
      ensures empty <==> window.held == map[]
    {
      var i := 0;
      while i < slots.Length
        invariant 0 <= i <= slots.Length
        invariant forall j | 0 <= j < i :: slots[j].None?
      {
        if slots[i].Some? {
          assert slots[..][i].Some?;
          return false;
        }
        i := i + 1;
      }
      AllFree(slots[..], number, bufferCount, window.held);
      return true;
    }

    method Peek() returns (r: Option<Packet>)
      requires Valid()
      modifies this, slots
      ensures Valid() && window == old(window).Peek() && r == old(window).Next()
    {
      if !primed {
        return None;
      }
      var idx := outSn % bufferCount;
      assert idx == SlotOf(window.pos, bufferCount);
      ghost var ring := slots[..];
      CurrentSlot(ring, number, window);
      EvictRepresents(ring, number, bufferCount, window.held, idx);
      PeekOk(window);
      NextNumber(window.pos);
      HeldIsTaken(window);
      hide Represents, Window.Ok, SlotOf, Window.Taken, WithoutSlot;
      assert slots[idx] == ring[idx];
      window := window.Peek();
      if slots[idx].None? {
        outSn := (outSn + 1) % 0x1_0000;
        return None;
      } else if slots[idx].value.sn != outSn {
        slots[idx] := None;
        assert slots[..] == ring[idx := None];
        badSn := badSn + 1;
        return None;
      } else {
        peekedSlot := Some(idx);
        return slots[idx];
      }
    }

    method DiscardPeeked()
      requires Valid()
      modifies this, slots
      ensures Valid() && window == old(window).DiscardPeeked()
    {
      if peekedSlot.Some? {
        var idx := peekedSlot.value;
        ghost var ring := slots[..];
        assert window.pos in window.held;
        DiscardOk(window);
        RemoveRepresents(ring, number, bufferCount, window.held, window.pos);
        NextNumber(window.pos);
        hide Represents, Window.Ok, SlotOf;
        slots[idx] := None;
        assert slots[..] == ring[idx := None];
        peekedSlot := None;
        outSn := (outSn + 1) % 0x1_0000;
        popped := popped + 1;
        window := window.DiscardPeeked();
      }
    }

    method Pop() returns (r: Option<Packet>)
      requires Valid()
      modifies this, slots
      ensures Valid() && window == old(window).Pop() && r == old(window).Next()
    {
      r := Peek();
      if r.Some? {
        DiscardPeeked();
      }
    }

    method Clear()
      requires Valid()
      modifies this, slots
      ensures Valid() && window == old(window).Clear()
    {
      var i := 0;
      while i < slots.Length
        invariant 0 <= i <= slots.Length
        invariant forall j | 0 <= j < i :: slots[j].None?
        modifies slots
      {
        slots[i] := None;
        i := i + 1;
      }
      peekedSlot := None;
      primed := false;
      window := window.Clear();
    }
  }

  /** `push` as the sequence of steps the code takes. */
  lemma PushCases(w: Window, pk: Packet)
    requires w.Ok()
    ensures w.held != map[] ==> w.primed
    ensures var v := if w.primed then w else w.PrimeAt(pk.sn);
            var d := v.Unwrap(pk.sn) - v.pos;
            && v.count == w.count && v.held == w.held && v.primed
            && w.Push(pk) == (if d <= w.count then v.Take(pk)
                              else if w.held == map[] then v.PrimeAt(pk.sn).Take(pk)
                              else v.(dropped := v.dropped + 1))
            && v.PrimeAt(pk.sn).primed
  {
    hide SlotOf;
  }

  lemma HeldIsTaken(w: Window)
    requires 0 < w.count
    ensures w.pos in w.held ==> w.Taken(w.pos)
  {
  }

  lemma TakeOk(w: Window, pk: Packet)
    requires w.Ok() && w.primed
    ensures w.Take(pk).Ok()
  {
    hide SlotOf;
  }

  // ---- Runs ----

  /** One call on the buffer. `index` is the sender's own running packet number, of which `sn` is the low 16 bits. */
  datatype Op = PushOp(pk: Packet, index: int) | PopOp | PeekOp | DiscardOp | ClearOp

  /** A packet handed to the caller, with its unwrapped number. */
  datatype Output = Output(number: int, pk: Packet)

  function Step(w: Window, op: Op): Window
    requires 0 < w.count
  {
    match op
    case PushOp(pk, _) => w.Push(pk)
    case PopOp => w.Pop()
    case PeekOp => w.Peek()
    case DiscardOp => w.DiscardPeeked()
    case ClearOp => w.Clear()
  }

  function Emit(w: Window, op: Op): seq<Output> {
    if op.PopOp? && w.Next().Some? then [Output(w.pos, w.Next().value)] else []
  }

  lemma StepCount(w: Window, op: Op)
    requires 0 < w.count
    ensures Step(w, op).count == w.count && Step(w, op).water == w.water
  {
  }

  function Run(w: Window, ops: seq<Op>): (r: Window)
    requires 0 < w.count
    ensures r.count == w.count && r.water == w.water
    decreases |ops|
  {
    if ops == [] then w else StepCount(w, ops[0]); Run(Step(w, ops[0]), ops[1..])
  }

  function Outputs(w: Window, ops: seq<Op>): seq<Output>
    requires 0 < w.count
    decreases |ops|
  {
    if ops == [] then [] else StepCount(w, ops[0]); Emit(w, ops[0]) + Outputs(Step(w, ops[0]), ops[1..])
  }

  /** What a push does to the read position: nothing, or a (re-)priming, which starts a new epoch. */
  lemma PushShape(w: Window, pk: Packet)
    requires w.Ok()
    ensures var w1 := w.Push(pk);
            && w1.Ok() && w1.primed && w1.badSn == w.badSn && w1.popped == w.popped
            && w1.pushed + w1.dropped == w.pushed + w.dropped + 1
            && (if w.primed && !(w.Far(pk.sn) && w.held == map[])
                then w1.pos == w.pos && w1.epoch == w.epoch
                else w1.pos == w.PrimeAt(pk.sn).pos && w1.epoch > w.epoch && w.held == map[])
            && (w1.epoch == w.epoch && w1.held != w.held ==> !w.Far(pk.sn))
            && var u := w1.Unwrap(pk.sn);
               if w1.pushed == w.pushed then w1.held == w.held
               else w1.pushed == w.pushed + 1 && w1.held == w.held[u := pk] && u !in w.held
  {
    var v := w.Settled(pk.sn);
    SettledOk(w, pk.sn);
    TakeOk(v, pk);
    TakeShape(v, pk);
    hide SlotOf, Window.Ok, Window.Unwrap, Window.Take;
  }

  lemma TakeShape(w: Window, pk: Packet)
    requires 0 < w.count
    ensures var u, w1 := w.Unwrap(pk.sn), w.Take(pk);
            && w1.(held := w.held, pushed := w.pushed, dropped := w.dropped) == w
            && w1.Unwrap(pk.sn) == u
            && (if w1.pushed == w.pushed then w1.held == w.held && w1.dropped == w.dropped + 1
                else w1.pushed == w.pushed + 1 && w1.dropped == w.dropped && w1.held == w.held[u := pk] && u !in w.held)
  {
    hide SlotOf;
  }

  lemma SettledOk(w: Window, sn: u16)
    requires w.Ok()
    ensures var v := w.Settled(sn);
            && v.Ok() && v.primed && v.held == w.held
            && (if w.primed && !(w.Far(sn) && w.held == map[]) then v == w
                else v.pos == w.PrimeAt(sn).pos && v.epoch > w.epoch && w.held == map[])
  {
    if w.held == map[] {
      PrimedOk(w, sn);
      PrimedOk(w.PrimeAt(sn), sn);
    }
  }

  /** One call keeps the window well formed, never goes back an epoch, and inside an epoch never moves the read position back. */
  lemma StepOk(w: Window, op: Op)
    requires w.Ok()
    ensures var w1 := Step(w, op);
            && w1.Ok() && w1.count == w.count && w1.epoch >= w.epoch && w1.badSn >= w.badSn
            && (w1.epoch == w.epoch ==> w1.pos == w.pos || w1.pos == w.pos + 1)
            && (Emit(w, op) != [] ==> w1.pos == w.pos + 1 && w1.epoch == w.epoch)
  {
    hide SlotOf;
    match op
    case PushOp(pk, _) => PushShape(w, pk);
    case PopOp => PeekOk(w); DiscardOk(w.Peek());
    case PeekOp => PeekOk(w);
    case DiscardOp => DiscardOk(w);
    case ClearOp =>
  }

  lemma {:induction false} RunOk(w: Window, ops: seq<Op>)
    requires w.Ok()
    ensures Run(w, ops).Ok() && Run(w, ops).epoch >= w.epoch && Run(w, ops).badSn >= w.badSn
    ensures Run(w, ops).epoch == w.epoch ==> Run(w, ops).pos >= w.pos
    decreases |ops|
  {
    if ops != [] {
      StepOk(w, ops[0]);
      hide Window.Ok, Step;
      RunOk(Step(w, ops[0]), ops[1..]);
    }
  }

  /** The read position never moves back during the run. */
  ghost predicate NeverBack(w: Window, ops: seq<Op>)
    requires 0 < w.count
    decreases |ops|
  {
    ops == [] || (StepCount(w, ops[0]); Step(w, ops[0]).pos >= w.pos && NeverBack(Step(w, ops[0]), ops[1..]))
  }

  lemma {:induction false} OrderedWhileNeverBack(w: Window, ops: seq<Op>)
    requires w.Ok() && NeverBack(w, ops)
    ensures var os := Outputs(w, ops);
            && (forall i, j | 0 <= i < j < |os| :: os[i].number < os[j].number)
            && (forall o <- os :: w.pos <= o.number < Run(w, ops).pos && o.pk.sn == o.number % 0x1_0000)
            && w.pos <= Run(w, ops).pos
    decreases |ops|
  {
    if ops != [] {
      StepOk(w, ops[0]);
      FirstOutput(w, ops[0]);
      hide Window.Ok, Step, Emit;
      OrderedWhileNeverBack(Step(w, ops[0]), ops[1..]);
    }
  }

  /** What one operation hands out: at most the packet at the read position, which then moves on. */
  lemma FirstOutput(w: Window, op: Op)
    requires w.Ok()
    ensures |Emit(w, op)| <= 1
    ensures forall o <- Emit(w, op) :: o.number == w.pos && o.pk.sn == w.pos % 0x1_0000 && Step(w, op).pos == w.pos + 1
  {
    hide SlotOf, WithoutSlot;
  }

  lemma {:induction false} EpochNeverBack(w: Window, ops: seq<Op>)
    requires w.Ok() && Run(w, ops).epoch == w.epoch
    ensures NeverBack(w, ops)
    decreases |ops|
  {
    if ops != [] {
      StepOk(w, ops[0]);
      hide Window.Ok, Step;
      RunOk(Step(w, ops[0]), ops[1..]);
      EpochNeverBack(Step(w, ops[0]), ops[1..]);
    }
  }

  lemma {:induction false} UnclearedNeverBack(w: Window, ops: seq<Op>)
    requires w.Ok() && w.primed && w.Lead() <= w.count + 1
    requires forall op <- ops :: !op.ClearOp?
    ensures NeverBack(w, ops)
    decreases |ops|
  {
    if ops != [] {
      StepOk(w, ops[0]);
      StepForward(w, ops[0]);
      hide Window.Ok, Step;
      UnclearedNeverBack(Step(w, ops[0]), ops[1..]);
    }
  }

  /** A re-prime needs a packet more than `count` ahead, so with a smaller lead it moves on. */
  lemma StepForward(w: Window, op: Op)
    requires w.Ok() && w.primed && w.Lead() <= w.count + 1 && !op.ClearOp?
    ensures var w1 := Step(w, op); w1.pos >= w.pos && w1.primed && w1.Lead() == w.Lead() && w1.count == w.count
  {
    StepCount(w, op);
    if op.PushOp? { PushShape(w, op.pk); }
  }

  /**
   * Ordering: inside one priming epoch, whatever is pushed, popped, peeked,
   * discarded or cleared in whatever order, the packets handed out carry
   * strictly increasing unwrapped numbers of which their `sn` is the low part.
   */
  lemma PopsInOrder(w: Window, ops: seq<Op>)
    requires w.Ok() && Run(w, ops).epoch == w.epoch
    ensures var os := Outputs(w, ops);
            && (forall i, j | 0 <= i < j < |os| :: os[i].number < os[j].number)
            && (forall o <- os :: w.pos <= o.number < Run(w, ops).pos && o.pk.sn == o.number % 0x1_0000)
  {
    EpochNeverBack(w, ops);
    OrderedWhileNeverBack(w, ops);
  }

  /** Between clears the order holds across re-primes as well, if the lead is at most one more than the count. */
  lemma PopsInOrderBetweenClears(w: Window, ops: seq<Op>)
    requires w.Ok() && w.primed && w.Lead() <= w.count + 1
    requires forall op <- ops :: !op.ClearOp?
    ensures var os := Outputs(w, ops);
            && (forall i, j | 0 <= i < j < |os| :: os[i].number < os[j].number)
            && (forall o <- os :: w.pos <= o.number < Run(w, ops).pos && o.pk.sn == o.number % 0x1_0000)
  {
    UnclearedNeverBack(w, ops);
    OrderedWhileNeverBack(w, ops);
  }

  /** Exactly with a longer lead some packet sends an empty buffer back to numbers it has passed. */
  lemma GoesBackIff(w: Window)
    requires w.Ok() && w.primed && w.held == map[]
    ensures (exists pk: Packet :: w.Push(pk).pos < w.pos) <==> w.Lead() > w.count + 1
  {
    if w.Lead() > w.count + 1 {
      var pk := Packet((w.pos + w.count + 1) % 0x1_0000, 0, 0, []);
      PushShape(w, pk);
      assert w.Unwrap(pk.sn) == w.pos + w.count + 1;
    } else {
      forall pk: Packet ensures w.Push(pk).pos >= w.pos {
        PushShape(w, pk);
      }
    }
  }

  /**
   * The arrivals the buffer can place: each packet is less than a wrap ahead of
   * the read position, or late by less than a wrap short of the ring.
   */
  ghost predicate Placeable(w: Window, ops: seq<Op>)
    requires 0 < w.count
    decreases |ops|
  {
    ops == [] || (
      && (ops[0].PushOp? ==> PlaceableAt(w, ops[0]))
      && (StepCount(w, ops[0]); Placeable(Step(w, ops[0]), ops[1..])))
  }

  predicate PlaceableAt(w: Window, op: Op)
    requires op.PushOp?
  {
    op.index % 0x1_0000 == op.pk.sn && w.count - 0x1_0000 < op.index - w.pos < 0x1_0000
  }

  /**
   * Inside an epoch the unwrapped number of every packet handed out is the
   * sender's own number for it: a late packet is dropped, never taken for one
   * a wrap later. With `PopsInOrder`: packets come out in sending order.
   */
  lemma {:induction false} OutputsAreSendersNumbers(w: Window, ops: seq<Op>, o: Output)
    requires w.Ok() && w.primed && Run(w, ops).epoch == w.epoch && Placeable(w, ops)
    requires o in Outputs(w, ops)
    ensures PushOp(o.pk, o.number) in ops || (o.number in w.held && w.held[o.number] == o.pk)
    decreases |ops|
  {
    var w1 := Step(w, ops[0]);
    StepOk(w, ops[0]);
    RunOk(w1, ops[1..]);
    if o !in Emit(w, ops[0]) {
      assert o in Outputs(w1, ops[1..]);
      if ops[0].ClearOp? {
        ClearedIsSilent(w1, ops[1..]);
      } else {
        HeldFrom(w, ops[0]);
        hide Window.Ok, Step, PlaceableAt;
        OutputsAreSendersNumbers(w1, ops[1..], o);
      }
    }
  }

  /** What is held after a call was held before it, or has just been pushed under the sender's number. */
  lemma HeldFrom(w: Window, op: Op)
    requires w.Ok() && w.primed && !op.ClearOp? && Step(w, op).epoch == w.epoch
    requires op.PushOp? ==> PlaceableAt(w, op)
    ensures Step(w, op).primed
    ensures forall u <- Step(w, op).held ::
              (u in w.held && w.held[u] == Step(w, op).held[u]) || op == PushOp(Step(w, op).held[u], u)
  {
    if op.PushOp? {
      PushShape(w, op.pk);
      OwnNumber(w, op);
      assert Step(w, op).Unwrap(op.pk.sn) == w.Unwrap(op.pk.sn);
      hide Window.Ok, Window.Unwrap, Window.Push, PlaceableAt, Window.Far, Window.PrimeAt;
    } else {
      hide SlotOf, Window.Ok;
    }
  }

  /** A placeable packet that is not far ahead is read as the number its sender gave it. */
  lemma OwnNumber(w: Window, op: Op)
    requires op.PushOp? && PlaceableAt(w, op)
    ensures !w.Far(op.pk.sn) ==> w.Unwrap(op.pk.sn) == op.index
  {
    assert op.index < w.pos ==> w.Unwrap(op.pk.sn) == op.index + 0x1_0000;
  }

  /** After a clear nothing comes out until the next priming. */
  lemma {:induction false} ClearedIsSilent(w: Window, ops: seq<Op>)
    requires w.Ok() && !w.primed && Run(w, ops).epoch == w.epoch
    ensures Outputs(w, ops) == []
    decreases |ops|
  {
    if ops != [] {
      var w1 := Step(w, ops[0]);
      StepOk(w, ops[0]);
      RunOk(w1, ops[1..]);
      if ops[0].PushOp? {
        PushShape(w, ops[0].pk);
      }
      assert w1.epoch == w.epoch;
      assert !w1.primed;
      ClearedIsSilent(w1, ops[1..]);
    }
  }

  // ---- Delivery ----

  function Pops(ops: seq<Op>): nat {
    if ops == [] then 0 else (if ops[0].PopOp? then 1 else 0) + Pops(ops[1..])
  }

  /** No position still to be read before `u` shares its slot. */
  ghost predicate ClearPath(w: Window, u: int)
    requires 0 < w.count
  {
    forall v | w.pos <= v < u :: SlotOf(v, w.count) != SlotOf(u, w.count)
  }

  /**
   * Delivery: a held packet with a clear path is handed out once the pops
   * exceed its distance plus the stale packets evicted meanwhile, however
   * pushes are interleaved.
   */
  lemma {:induction false} DeliveredInTime(w: Window, ops: seq<Op>, u: int)
    requires w.Ok() && u in w.held && ClearPath(w, u)
    requires forall op <- ops :: op.PushOp? || op.PopOp?
    requires Pops(ops) > u - w.pos + (Run(w, ops).badSn - w.badSn)
    ensures Output(u, w.held[u]) in Outputs(w, ops)
    decreases |ops|
  {
    RunOk(w, ops);
    var w1 := Step(w, ops[0]);
    StepOk(w, ops[0]);
    HeldStep(w, ops[0], u);
    if ops[0].PushOp? || w.pos != u {
      hide Window.Ok, Step, ClearPath;
      DeliveredInTime(w1, ops[1..], u);
    }
  }

  /** A push leaves a held packet and the read position alone; a pop hands it out if it is due, else makes progress towards it. */
  lemma HeldStep(w: Window, op: Op, u: int)
    requires w.Ok() && u in w.held && ClearPath(w, u) && (op.PushOp? || op.PopOp?)
    ensures var w1 := Step(w, op);
            && (op.PushOp? ==> w1.pos == w.pos && w1.badSn == w.badSn)
            && (op.PushOp? || w.pos != u ==> u in w1.held && w1.held[u] == w.held[u] && w1.count == w.count && ClearPath(w1, u))
            && (op.PopOp? && w.pos == u ==> Emit(w, op) == [Output(u, w.held[u])])
            && (op.PopOp? ==> (w1.pos - w.pos) + (w1.badSn - w.badSn) == 1)
  {
    StepCount(w, op);
    if op.PushOp? {
      PushShape(w, op.pk);
    }
    hide SlotOf;
  }

  /** Once primed, a pop either moves the read position on by one or counts one stale packet. */
  lemma PopProgress(w: Window)
    requires w.Ok() && w.primed
    ensures (w.Pop().pos - w.pos) + (w.Pop().badSn - w.badSn) == 1
    ensures w.Pop().pos == w.pos || w.Pop().pos == w.pos + 1
    ensures w.Pop().popped - w.popped == if w.Next().Some? then 1 else 0
  {
  }

  /** Wherever the packet is held, reading reaches its slot before its number. */
  ghost predicate Hopeless(w: Window, pk: Packet)
    requires 0 < w.count
  {
    forall u <- w.held :: w.held[u] == pk ==> !ClearPath(w, u)
  }

  /** And a packet without a clear path is never handed out, whatever is called. */
  lemma {:induction false} NeverReturned(w: Window, ops: seq<Op>, pk: Packet)
    requires w.Ok() && Hopeless(w, pk)
    requires forall op <- ops :: op.PushOp? ==> op.pk != pk
    ensures forall o <- Outputs(w, ops) :: o.pk != pk
    decreases |ops|
  {
    if ops != [] {
      StepOk(w, ops[0]);
      HopelessStep(w, ops[0], pk);
      hide Window.Ok, Step, Hopeless;
      NeverReturned(Step(w, ops[0]), ops[1..], pk);
    }
  }

  lemma HopelessStep(w: Window, op: Op, pk: Packet)
    requires w.Ok() && Hopeless(w, pk) && (op.PushOp? ==> op.pk != pk)
    ensures 0 < Step(w, op).count && Hopeless(Step(w, op), pk) && forall o <- Emit(w, op) :: o.pk != pk
  {
    StepCount(w, op);
    var w1 := Step(w, op);
    if op.PushOp? {
      PushShape(w, op.pk);
    }
    forall u | u in w1.held && w1.held[u] == pk ensures !ClearPath(w1, u) {
      HopelessHeld(w, op, pk, u);
    }
  }

  lemma HopelessHeld(w: Window, op: Op, pk: Packet, u: int)
    requires w.Ok() && Hopeless(w, pk) && (op.PushOp? ==> op.pk != pk)
    requires u in Step(w, op).held && Step(w, op).held[u] == pk
    ensures w.count == Step(w, op).count && !ClearPath(Step(w, op), u)
  {
    StepCount(w, op);
    if op.PushOp? {
      PushShape(w, op.pk);
    }
    hide SlotOf;
    assert u in w.held && w.held[u] == pk;
    var v :| w.pos <= v < u && SlotOf(v, w.count) == SlotOf(u, w.count);
    assert Step(w, op).pos <= v;
  }

  function PopTimes(n: nat): (ops: seq<Op>)
    ensures |ops| == n == Pops(ops) && forall op <- ops :: op == PopOp
  {
    if n == 0 then [] else [PopOp] + PopTimes(n - 1)
  }

  /** Enough pops hand the packet of number `u` out. */
  ghost predicate HandedOut(w: Window, u: int, pk: Packet)
    requires 0 < w.count
  {
    exists n: nat :: Output(u, pk) in Outputs(w, PopTimes(n))
  }

  /** A held packet is handed out if and only if no earlier read position shares its slot. */
  lemma HandedOutIff(w: Window, u: int)
    requires w.Ok() && u in w.held
    ensures HandedOut(w, u, w.held[u]) <==> ClearPath(w, u)
  {
    if ClearPath(w, u) {
      var n := u - w.pos + |w.held| + 1;
      var ops := PopTimes(n);
      PopsOnlyRemove(w, ops);
      DeliveredInTime(w, ops, u);
    } else {
      assert Hopeless(w, w.held[u]);
      forall n: nat ensures Output(u, w.held[u]) !in Outputs(w, PopTimes(n)) {
        NeverReturned(w, PopTimes(n), w.held[u]);
      }
    }
  }

  lemma PopsOnlyRemove(w: Window, ops: seq<Op>)
    requires w.Ok() && forall op <- ops :: op == PopOp
    ensures Run(w, ops).badSn <= w.badSn + |w.held|
    decreases |ops|
  {
    Conservation(w, ops);
    PopsPushNothing(w, ops);
  }

  lemma {:induction false} PopsPushNothing(w: Window, ops: seq<Op>)
    requires w.Ok() && forall op <- ops :: op == PopOp
    ensures Run(w, ops).pushed == w.pushed && Run(w, ops).popped >= w.popped && Cleared(w, ops) == 0
    decreases |ops|
  {
    if ops != [] {
      assert ops[0] in ops && ops[0] == PopOp;
      StepOk(w, ops[0]);
      if w.primed {
        PopProgress(w);
      }
      assert Step(w, ops[0]).pushed == w.pushed;
      hide Window.Ok, Step, Window.Pop;
      assert forall op <- ops[1..] :: op in ops;
      PopsPushNothing(Step(w, ops[0]), ops[1..]);
    }
  }

  // ---- Which packets are taken ----

  /** A held packet sits where a packet with this `sn` would go. */
  predicate Shares(held: map<int, Packet>, count: nat, sn: u16)
    requires 0 < count
  {
    exists v <- held :: (v % 0x1_0000) % count == sn % count
  }

  /**
   * While packets are held, one that lies up to `count` after the read position
   * is stored under that number if no held packet has its slot, be it late or
   * the one just due; any other is dropped, and nothing else changes.
   */
  lemma PushAccepts(w: Window, pk: Packet)
    requires w.Ok() && w.primed && w.held != map[]
    ensures var d := (pk.sn - w.pos) % 0x1_0000;
            w.Push(pk) == if d <= w.count && !Shares(w.held, w.count, pk.sn)
                          then w.(held := w.held[w.pos + d := pk], pushed := w.pushed + 1)
                          else w.(dropped := w.dropped + 1)
  {
    assert w.Unwrap(pk.sn) % 0x1_0000 == pk.sn;
    assert w.Taken(w.Unwrap(pk.sn)) <==> Shares(w.held, w.count, pk.sn);
  }

  /**
   * An empty buffer takes every packet: within reach under the number it has
   * there, and otherwise, or as the first one, with reading set back to begin
   * the water level (cut to 16 bits) before it.
   */
  lemma PushIntoEmpty(w: Window, pk: Packet)
    requires w.Ok() && w.held == map[]
    ensures var w1, d, lead := w.Push(pk), (pk.sn - w.pos) % 0x1_0000, w.water % 0x1_0000;
            && w1.primed && w1.pushed == w.pushed + 1 && w1.dropped == w.dropped
            && (if !w.primed then w1.pos == pk.sn - lead && w1.held == map[pk.sn as int := pk]
                else if d <= w.count then w1.pos == w.pos && w1.held == map[w.pos + d := pk]
                else w1.pos == w.pos + d - lead && w1.held == map[w.pos + d := pk])
  {
    EmptyTakes(w, pk);
    if !w.primed { PushPrimes(w, pk); }
    hide SlotOf, Window.Taken;
    PushShape(w, pk);
    PrimedOk(w, pk.sn);
  }

  lemma EmptyTakes(w: Window, pk: Packet)
    requires w.Ok() && w.held == map[]
    ensures w.Push(pk).pushed == w.pushed + 1 && w.Push(pk).dropped == w.dropped
  {
    hide SlotOf;
  }

  /** After a clear the next packet begins afresh, whatever its number. */
  lemma PushAfterClear(w: Window, pk: Packet)
    requires w.Ok()
    ensures w.Clear().Ok()
    ensures var w1 := w.Clear().Push(pk);
            w1.pos == pk.sn - w.water % 0x1_0000 && w1.held == map[pk.sn as int := pk] && w1.primed
  {
    PushIntoEmpty(w.Clear(), pk);
  }

  /** What filling a gap is for: a late packet that is not past the read position yet comes out, in a ring that divides 65536. */
  lemma LatePacketComesOut(w: Window, pk: Packet)
    requires w.Ok() && w.primed && w.held != map[] && 0x1_0000 % w.count == 0
    requires (pk.sn - w.pos) % 0x1_0000 < w.count && !Shares(w.held, w.count, pk.sn)
    ensures HandedOut(w.Push(pk), w.pos + (pk.sn - w.pos) % 0x1_0000, pk)
  {
    var u, w1 := w.pos + (pk.sn - w.pos) % 0x1_0000, w.Push(pk);
    PushAccepts(w, pk);
    PushOk(w, pk);
    hide Shares, Window.Ok, Window.Push, SlotOf;
    ClearPathOnDivisor(w1, u);
    HandedOutIff(w1, u);
  }

  // ---- The sizes ----

  /** The least distance at which two numbers can share a slot. */
  function Reach(count: nat): (r: int)
    requires 0 < count
    ensures 0 < r <= 0x1_0000 && r <= count
  {
    if 0x1_0000 % count == 0 then DividesAtMost(count); count else RemainderAtMost(count); 0x1_0000 % count
  }

  lemma DividesAtMost(count: nat)
    requires 0 < count && 0x1_0000 % count == 0
    ensures count <= 0x1_0000
  {
    if count > 0x1_0000 { assert 0x1_0000 % count == 0x1_0000 by { QuotientIs(0x1_0000, count, 0, 0x1_0000); } }
  }

  lemma RemainderAtMost(count: nat)
    requires 0 < count
    ensures 0x1_0000 % count <= 0x1_0000 && 0x1_0000 % count < count
  {
    if count > 0x1_0000 { QuotientIs(0x1_0000, count, 0, 0x1_0000); }
  }

  lemma AddMultiple(r: int, k: int, n: int)
    requires 0 < n
    ensures (k * n + r) % n == r % n
  {
    assert k * n + r == (k + r / n) * n + r % n;
    QuotientIs(k * n + r, n, k + r / n, r % n);
  }

  /** Equal residues lie a multiple of the divisor apart. */
  lemma SameResidue(a: int, b: int, n: int) returns (k: int)
    requires 0 < n && a % n == b % n
    ensures b - a == k * n
  {
    k := b / n - a / n;
    assert b - a == (b / n) * n - (a / n) * n;
  }

  /** Numbers less than a wrap apart that share a slot are at least `Reach` apart. */
  lemma SharersAreApart(u: int, v: int, count: nat)
    requires 0 < count && u < v < u + 0x1_0000 && SlotOf(u, count) == SlotOf(v, count)
    ensures v - u >= Reach(count)
  {
    var a, b, d := u % 0x1_0000, v % 0x1_0000, v - u;
    var k := SameResidue(a, b, count);
    if a <= b {
      assert b - a == d;
      AtLeastOne(k, count);
    } else {
      assert b - a == d - 0x1_0000;
      assert d == k * count + 0x1_0000;
      AddMultiple(0x1_0000, k, count);
      assert d % count == 0x1_0000 % count;
      RestIsLess(d, count);
    }
  }

  lemma AtLeastOne(k: int, n: int)
    requires 0 < n && k * n > 0
    ensures k * n >= n
  {
    if k * n < n {
      SmallMultiple(k, n, k * n);
    }
  }

  lemma RestIsLess(d: int, n: int)
    requires 0 < n && 0 < d
    ensures d % n <= d && (d % n == 0 ==> d >= n)
  {
    assert d == (d / n) * n + d % n;
    assert d / n >= 0;
    assert (d / n) * n >= 0;
    if d % n == 0 { AtLeastOne(d / n, n); }
  }

  /** At distance `Reach`, across the wrap, two numbers do share one. */
  lemma SharersAtReach(count: nat)
    requires 0 < count
    ensures SlotOf(-Reach(count), count) == SlotOf(0, count)
  {
    var q := 0x1_0000 / count;
    assert 0x1_0000 == q * count + 0x1_0000 % count;
    if 0x1_0000 % count == 0 {
      SharesWithZero(count, q - 1, count);
    } else {
      SharesWithZero(0x1_0000 % count, q, count);
    }
  }

  lemma SharesWithZero(r: int, k: int, count: nat)
    requires 0 < count && 0 < r <= 0x1_0000 && 0x1_0000 - r == k * count
    ensures SlotOf(-r, count) == SlotOf(0, count)
  {
    AddMultiple(0, k, count);
    assert (-r) % 0x1_0000 == (if r == 0x1_0000 then 0 else 0x1_0000 - r);
  }

  /**
   * Two numbers less than a ring apart share a slot, somewhere in the number
   * space, if and only if the ring (no longer than the number space) does not
   * divide 65536.
   */
  lemma SlotsClashIff(count: nat)
    requires 0 < count
    ensures (exists u, v :: u < v < u + Min(count, 0x1_0000) && SlotOf(u, count) == SlotOf(v, count))
       <==> 0x1_0000 % Min(count, 0x1_0000) != 0
  {
    hide SlotOf;
    var m := Min(count, 0x1_0000);
    if 0x1_0000 % m != 0 {
      SharersAtReach(count);
      assert -Reach(count) < 0 < -Reach(count) + m;
    } else {
      if count > 0x1_0000 { QuotientIs(0x1_0000, count, 0, 0x1_0000); }
      forall u, v | u < v < u + m ensures SlotOf(u, count) != SlotOf(v, count) {
        if SlotOf(u, count) == SlotOf(v, count) { SharersAreApart(u, v, count); }
      }
    }
  }

  /** The smallest failing size: the ring of three drops the very next packet at the wrap. */
  lemma RingOfThreeDropsTheNext()
    ensures var p, q := Packet(0xffff, 0, 0, []), Packet(0, 0, 0, []);
            var w := Empty(3, 0).Push(p).Push(q);
            w.dropped == 1 && w.pos == 0xffff && w.held == map[0xffff := p] && w.Unwrap(q.sn) == w.pos + 1
  {
    var w0, p, q := Empty(3, 0), Packet(0xffff, 0, 0, []), Packet(0, 0, 0, []);
    var w1 := w0.Push(p);
    assert w0.Ok() && !w0.primed && w0.Lead() == 0 && w0.count == 3 && w0.dropped == 0;
    hide *;
    PushPrimes(w0, p);
    PushOk(w0, p);
    NextAcrossWrap(w1);
    SharedSlotDrops(w1, q, 0xffff);
    NextAcrossWrap(w1.Push(q));
  }

  lemma NextAcrossWrap(w: Window)
    requires w.pos == 0xffff
    ensures w.Unwrap(0) == 0x1_0000 && SlotOf(0xffff, 3) == SlotOf(0x1_0000, 3)
  {
  }

  lemma SharedSlotDrops(w: Window, pk: Packet, v: int)
    requires w.Ok() && w.primed && v in w.held && SlotOf(v, w.count) == SlotOf(w.Unwrap(pk.sn), w.count)
    ensures w.Push(pk) == w.(dropped := w.dropped + 1)
  {
    hide SlotOf;
  }

  /** The packet that primes the buffer is handed out exactly when no number up to `Lead()` below it shares its slot. */
  lemma PrimingPacketIff(w: Window, pk: Packet)
    requires w.Ok() && !w.primed
    ensures w.Push(pk).held == map[pk.sn := pk] && w.Push(pk).pos == pk.sn - w.Lead()
    ensures HandedOut(w.Push(pk), pk.sn, pk)
       <==> forall v | pk.sn - w.Lead() <= v < pk.sn :: SlotOf(v, w.count) != SlotOf(pk.sn, w.count)
  {
    var w1 := w.Push(pk);
    PushShape(w, pk);
    PrimedOk(w, pk.sn);
    PushPrimes(w, pk);
    HandedOutIff(w1, pk.sn);
  }

  lemma PushPrimes(w: Window, pk: Packet)
    requires w.Ok() && !w.primed
    ensures w.Push(pk).held == map[pk.sn := pk] && w.Push(pk).pos == pk.sn - w.Lead() && w.Push(pk).count == w.count
    ensures w.Push(pk).primed && w.Push(pk).dropped == w.dropped
  {
    PrimedOk(w, pk.sn);
    var w1 := w.PrimeAt(pk.sn);
    assert w1.Unwrap(pk.sn) == pk.sn;
    assert w1.PrimeAt(pk.sn).Unwrap(pk.sn) == pk.sn;
  }

  /** Whatever its number, exactly when the lead is shorter than `Reach`. */
  lemma EveryPrimingPacketIff(w: Window)
    requires w.Ok() && !w.primed
    ensures (forall pk: Packet :: HandedOut(w.Push(pk), pk.sn, pk)) <==> w.Lead() < Reach(w.count)
  {
    if w.Lead() < Reach(w.count) {
      forall pk: Packet ensures HandedOut(w.Push(pk), pk.sn, pk) {
        PrimingPacketIff(w, pk);
        forall v | pk.sn - w.Lead() <= v < pk.sn ensures SlotOf(v, w.count) != SlotOf(pk.sn, w.count) {
          if SlotOf(v, w.count) == SlotOf(pk.sn, w.count) { SharersAreApart(v, pk.sn, w.count); }
        }
      }
    } else {
      var pk := Packet(0, 0, 0, []);
      PrimingPacketIff(w, pk);
      SharersAtReach(w.count);
      assert !HandedOut(w.Push(pk), pk.sn, pk);
    }
  }

  /** In a ring that divides 65536: any priming packet at all, exactly when the lead is shorter than the ring. */
  lemma PrimingPacketOnDivisorIff(w: Window, pk: Packet)
    requires w.Ok() && !w.primed && 0x1_0000 % w.count == 0
    ensures HandedOut(w.Push(pk), pk.sn, pk) <==> w.Lead() < w.count
  {
    PrimingPacketIff(w, pk);
    if w.Lead() < w.count {
      EveryPrimingPacketIff(w);
    } else {
      FullRingShares(pk.sn - w.count, w.count);
    }
  }

  lemma FullRingShares(u: int, count: nat)
    requires 0 < count && 0x1_0000 % count == 0
    ensures SlotOf(u, count) == SlotOf(u + count, count)
  {
    DivisorKeepsResidue(u, count);
    DivisorKeepsResidue(u + count, count);
    AddMultiple(u, 1, count);
  }

  lemma DivisorKeepsResidue(x: int, n: int)
    requires 0 < n && 0x1_0000 % n == 0
    ensures (x % 0x1_0000) % n == x % n
  {
    var q, k := x / 0x1_0000, 0x1_0000 / n;
    assert 0x1_0000 == k * n;
    assert x == (q * k) * n + x % 0x1_0000 by { assert q * (k * n) == (q * k) * n; }
    AddMultiple(x % 0x1_0000, q * k, n);
  }

  /** In such a ring a held packet has a clear path exactly when it is less than a full ring ahead. */
  lemma ClearPathOnDivisor(w: Window, u: int)
    requires w.Ok() && 0x1_0000 % w.count == 0 && w.pos <= u < w.pos + 0x1_0000
    ensures ClearPath(w, u) <==> u < w.pos + w.count
  {
    if u < w.pos + w.count {
      forall v | w.pos <= v < u ensures SlotOf(v, w.count) != SlotOf(u, w.count) {
        if SlotOf(v, w.count) == SlotOf(u, w.count) { SharersAreApart(v, u, w.count); }
      }
    } else {
      FullRingShares(u - w.count, w.count);
    }
  }

  /** So `push` accepts a packet exactly `count` ahead (`>` where `>=` was meant) if its slot is free, and nothing ever hands it out. */
  lemma FarEndIsLost(w: Window, pk: Packet)
    requires w.Ok() && w.primed && w.count < 0x1_0000 && 0x1_0000 % w.count == 0
    requires pk.sn == (w.pos + w.count) % 0x1_0000
    ensures w.Push(pk).held == (if w.Taken(w.pos) then w.held else w.held[w.pos + w.count := pk])
    ensures !w.Taken(w.pos) ==> !HandedOut(w.Push(pk), w.pos + w.count, pk)
  {
    var u, w1 := w.pos + w.count, w.Push(pk);
    FarEndNumber(w, pk.sn);
    FullRingShares(w.pos, w.count);
    SettledInside(w, pk);
    PushOk(w, pk);
    hide SlotOf, Window.Push, Window.Ok, Window.Unwrap;
    assert w.Taken(u) <==> w.Taken(w.pos);
    if !w.Taken(w.pos) {
      assert w1.held == w.held[u := pk] && u in w1.held && w1.count == w.count;
      ClearPathOnDivisor(w1, u);
      HandedOutIff(w1, u);
    }
  }

  lemma FarEndNumber(w: Window, sn: u16)
    requires w.count < 0x1_0000 && sn == (w.pos + w.count) % 0x1_0000
    ensures w.Unwrap(sn) == w.pos + w.count
  {
  }

  lemma SettledInside(w: Window, pk: Packet)
    requires w.Ok() && w.primed && !w.Far(pk.sn)
    ensures w.Push(pk) == w.Take(pk)
  {
    hide SlotOf;
  }

  // ---- Conservation ----

  function Pushes(ops: seq<Op>): nat {
    if ops == [] then 0 else (if ops[0].PushOp? then 1 else 0) + Pushes(ops[1..])
  }

  function Cleared(w: Window, ops: seq<Op>): nat
    requires 0 < w.count
    decreases |ops|
  {
    if ops == [] then 0
    else StepCount(w, ops[0]); (if ops[0].ClearOp? then |w.held| else 0) + Cleared(Step(w, ops[0]), ops[1..])
  }

  /** Every push is counted once, and every packet taken in leaves in exactly one way or is still held. */
  lemma {:induction false} Conservation(w: Window, ops: seq<Op>)
    requires w.Ok()
    ensures var w1 := Run(w, ops);
            && w1.pushed + w1.dropped == w.pushed + w.dropped + Pushes(ops)
            && w1.pushed - w1.popped - w1.badSn - |w1.held| == w.pushed - w.popped - w.badSn - |w.held| + Cleared(w, ops)
    decreases |ops|
  {
    if ops != [] {
      StepOk(w, ops[0]);
      StepCounts(w, ops[0]);
      hide Window.Ok, Step;
      Conservation(Step(w, ops[0]), ops[1..]);
    }
  }

  lemma StepCounts(w: Window, op: Op)
    requires w.Ok()
    ensures var w1 := Step(w, op);
            && w1.pushed + w1.dropped == w.pushed + w.dropped + (if op.PushOp? then 1 else 0)
            && w1.pushed - w1.popped - w1.badSn - |w1.held|
               == w.pushed - w.popped - w.badSn - |w.held| + (if op.ClearOp? then |w.held| else 0)
  {
    if op.PushOp? {
      PushShape(w, op.pk);
    } else {
      RemovedCount(w.held, w.pos);
      if w.Taken(w.pos) { EvictedCount(w); }
      hide Window.Ok, WithoutSlot, SlotOf, Window.Taken;
    }
  }

  lemma RemovedCount(m: map<int, Packet>, u: int)
    ensures |m - {u}| == |m| - (if u in m then 1 else 0)
  {
    assert (m - {u}).Keys == m.Keys - {u};
  }

  lemma EvictedCount(w: Window)
    requires w.Ok() && w.Taken(w.pos)
    ensures |WithoutSlot(w.held, w.count, SlotOf(w.pos, w.count))| == |w.held| - 1
  {
    hide SlotOf;
    var v :| v in w.held && SlotOf(v, w.count) == SlotOf(w.pos, w.count);
    assert WithoutSlot(w.held, w.count, SlotOf(w.pos, w.count)) == w.held - {v};
    RemovedCount(w.held, v);
  }
}
