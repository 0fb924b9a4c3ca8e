/**
 * What a caller of `mix`, `unmix` and `close` can do so that no channel's state
 * is lost (rust/src/channel/facade.rs, actor.rs, mixer.rs): wait for the
 * `mix/start` events before taking anybody out, and leave closed channels alone.
 * As long as no member goes idle, such a caller's runs are the clean runs of
 * module Migration, whatever the actors and mixers do in between.
 */
module Callers {
  import opened Common
  import M = Migration

  type ChannelId = M.ChannelId
  type MixId = M.MixId

  // ---- What the caller goes by ----

  /** A `mix/start` event is outstanding: an EnterMix has been sent and not been answered. */
  predicate Entering(ch: M.Channel, m: MixId) {
    !ch.phase.Closed? && (M.EnterMix(m) in ch.queue || ch.phase == M.AwaitAdd(m))
  }

  ghost predicate Outstanding(s: M.System, m: MixId) {
    exists c <- s.channels :: Entering(s.channels[c], m)
  }

  predicate Inside(ch: M.Channel, m: MixId) {
    Entering(ch, m) || ch.phase == M.Mixed(m) || (ch.phase.AwaitRemove? && ch.phase.mix == m)
  }

  /** `close` has been called on the channel, or its Close event has come. */
  predicate Closing(ch: M.Channel) { M.Close in ch.queue || M.Over(ch) }

  /**
   * The caller's rule: nobody is unmixed or closed while a start event of a group
   * it is in is outstanding, nobody is mixed after its close, and calls whose
   * command finds the queue full do not count. The idle sweep is not the caller's.
   */
  ghost predicate Careful(s: M.System, st: M.Step)
    requires M.Enabled(s, st)
  {
    match st
    case JsMix(a, b) =>
      && M.Accepts(s.channels[a]) && M.Accepts(s.channels[b])
      && (a != b ==> !Closing(s.channels[a]) && !Closing(s.channels[b]))
    case JsUnmix(c) => M.Accepts(s.channels[c]) && MayLeave(s, c)
    case JsClose(c) => MayLeave(s, c)
    case IdleSweep(_, _) => false
    case _ => true
  }

  ghost predicate MayLeave(s: M.System, c: ChannelId)
    requires c in s.channels
  {
    forall m: MixId | Inside(s.channels[c], m) :: !Outstanding(s, m)
  }

  ghost predicate CarefulRun(s: M.System, steps: seq<M.Step>)
    decreases |steps|
  {
    steps == [] ||
    (M.Enabled(s, steps[0]) && Careful(s, steps[0]) && CarefulRun(M.Apply(s, steps[0]), steps[1..]))
  }

  // ---- What such a caller keeps ----

  predicate Asks(q: seq<M.Command>) { M.LeaveMix in q || M.Close in q }

  /** After an EnterMix nobody has asked to leave. */
  predicate NoAskAfterEnter(q: seq<M.Command>) {
    forall i, j | 0 <= i < j < |q| :: q[i].EnterMix? ==> !q[j].LeaveMix? && !q[j].Close?
  }

  predicate Orderly(ch: M.Channel) {
    !ch.phase.Closed? ==> NoAskAfterEnter(ch.queue) && (ch.phase.AwaitAdd? ==> !Asks(ch.queue))
  }

  /** In the mix to stay. */
  predicate Anchor(ch: M.Channel, m: MixId) { ch.phase == M.Mixed(m) && !Asks(ch.queue) }

  /** On the way out. */
  predicate Leaving(ch: M.Channel, m: MixId) {
    (ch.phase == M.Mixed(m) && Asks(ch.queue)) || (ch.phase.AwaitRemove? && ch.phase.mix == m)
  }

  /** Whoever is entering finds the mixer running: somebody stays in it, or nobody is leaving it. */
  ghost predicate Awaited(s: M.System, m: MixId) {
    Outstanding(s, m) ==>
      && M.Alive(s, m)
      && ((exists c <- s.channels :: Anchor(s.channels[c], m)) || (forall c <- s.channels :: !Leaving(s.channels[c], m)))
  }

  ghost predicate Kept(s: M.System) {
    M.Ok(s) && (forall c <- s.channels :: Orderly(s.channels[c])) && forall m: MixId :: Awaited(s, m)
  }

  /** Nothing about the channel that could endanger an entrant of m is new. */
  predicate Calmer(ch: M.Channel, ch1: M.Channel, m: MixId) {
    && (Entering(ch1, m) ==> Entering(ch, m))
    && (Anchor(ch, m) ==> Anchor(ch1, m))
    && (Leaving(ch1, m) ==> Leaving(ch, m))
  }

  lemma StaysAwaited(s: M.System, s1: M.System, m: MixId)
    requires Awaited(s, m) && s1.channels.Keys == s.channels.Keys
    requires M.Alive(s, m) ==> M.Alive(s1, m)
    requires forall c <- s.channels :: Calmer(s.channels[c], s1.channels[c], m)
    ensures Awaited(s1, m)
  {
    hide Entering, Anchor, Leaving, M.Alive;
    if Outstanding(s1, m) {
      var c :| c in s1.channels && Entering(s1.channels[c], m);
      assert Calmer(s.channels[c], s1.channels[c], m) && Entering(s.channels[c], m);
      if x :| x in s.channels && Anchor(s.channels[x], m) {
        assert Calmer(s.channels[x], s1.channels[x], m) && Anchor(s1.channels[x], m);
      } else {
        forall d <- s1.channels ensures !Leaving(s1.channels[d], m) {
          assert Calmer(s.channels[d], s1.channels[d], m);
        }
      }
    }
  }

  // ---- Step by step ----

  /** One more EnterMix in the queue changes only who is entering its group. */
  lemma EnterCalm(ch: M.Channel, n: MixId, m: MixId)
    requires Orderly(ch) && !ch.phase.Closed?
    ensures var ch1 := M.Enqueue(ch.(slot := Some(n)), M.EnterMix(n));
            && Orderly(ch1) && (Anchor(ch, m) <==> Anchor(ch1, m)) && (Leaving(ch, m) <==> Leaving(ch1, m))
            && (m != n ==> (Entering(ch, m) <==> Entering(ch1, m)))
  {
  }

  lemma {:induction false} StillIn(g: Option<MixId>, q: seq<M.Command>, m: MixId)
    requires M.Fold(g, q) == Some(m) && M.EnterMix(m) !in q
    ensures g == Some(m) && M.LeaveMix !in q
    decreases |q|
  {
    if q != [] {
      var g1 := match q[0] case EnterMix(n) => if g.None? then Some(n) else g case LeaveMix => None case _ => g;
      StillIn(g1, q[1..], m);
    }
  }

  /** Whoever has the group in its slot, is not closing and has no start event outstanding is there to stay. */
  lemma SlotIsAnchor(s: M.System, c: ChannelId, m: MixId)
    requires M.Ok(s) && c in s.channels && s.channels[c].slot == Some(m)
    requires !Closing(s.channels[c]) && !Entering(s.channels[c], m)
    ensures Anchor(s.channels[c], m) && M.Alive(s, m)
  {
    M.ChannelIsOk(s, c);
    hide M.Ok, M.About, M.Ordinaries, M.Forwarded, M.Fold, M.NoForeignGroup, M.MixersOk;
    StillIn(M.Group(s.channels[c].phase), s.channels[c].queue, m);
  }

  /** A group that is yet to be made has nobody in it. */
  lemma NobodyYet(s: M.System, c: ChannelId)
    requires M.Ok(s) && c in s.channels
    ensures s.nextMix !in s.mixers && !Leaving(s.channels[c], s.nextMix)
  {
    M.ChannelIsOk(s, c);
    hide M.Ok, M.About, M.Ordinaries, M.Forwarded, M.Fold, M.NoForeignGroup;
  }

  /** The group a call of `mix` sends both channels to; none if it does nothing. */
  function Target(s: M.System, a: ChannelId, b: ChannelId): Option<MixId>
    requires a in s.channels && b in s.channels
  {
    if a == b then None
    else match (s.channels[a].slot, s.channels[b].slot)
         case (None, None) => Some(s.nextMix)
         case (Some(m), None) => Some(m)
         case (None, Some(m)) => Some(m)
         case (Some(m), Some(n)) => if m == n then Some(m) else None
  }

  lemma MixIsEnter(s: M.System, a: ChannelId, b: ChannelId)
    requires a in s.channels && b in s.channels
    ensures var t, s1 := Target(s, a, b), M.MixCall(s, a, b);
            if t.None? then s1 == s
            else
              && s1.channels.Keys == s.channels.Keys
              && (forall c <- s.channels :: s1.channels[c]
                    == if c == a || c == b then M.Enqueue(s.channels[c].(slot := t), M.EnterMix(t.value)) else s.channels[c])
              && (forall m: MixId | M.Alive(s, m) && (m == s.nextMix ==> t != Some(m)) :: M.Alive(s1, m))
              && (t.value == s.nextMix && s.channels[a].slot.None? && s.channels[b].slot.None? ==> M.Alive(s1, t.value))
  {
    hide M.Enqueue;
  }

  /** Nobody's being there, or leaving, is changed by the call; and nobody is entering another group than before. */
  lemma MixCalm(s: M.System, a: ChannelId, b: ChannelId, m: MixId)
    requires Kept(s) && a in s.channels && b in s.channels && Careful(s, M.JsMix(a, b))
    ensures var s1 := M.MixCall(s, a, b);
            && s1.channels.Keys == s.channels.Keys
            && forall c <- s.channels ::
                 && Orderly(s1.channels[c])
                 && (Anchor(s.channels[c], m) <==> Anchor(s1.channels[c], m))
                 && (Leaving(s.channels[c], m) <==> Leaving(s1.channels[c], m))
                 && (Target(s, a, b) != Some(m) ==> (Entering(s.channels[c], m) <==> Entering(s1.channels[c], m)))
  {
    var t, s1 := Target(s, a, b), M.MixCall(s, a, b);
    MixIsEnter(s, a, b);
    if t.Some? {
      assert !s.channels[a].phase.Closed? && !s.channels[b].phase.Closed?;
      EnterCalm(s.channels[a], t.value, m);
      EnterCalm(s.channels[b], t.value, m);
    }
    hide M.MixCall, M.Enqueue, Target, Anchor, Leaving, Entering, Orderly, M.Ok, Awaited, Closing, M.Accepts;
  }

  lemma CarefulMix(s: M.System, a: ChannelId, b: ChannelId)
    requires Kept(s) && a in s.channels && b in s.channels && Careful(s, M.JsMix(a, b))
    ensures var s1 := M.MixCall(s, a, b); (forall c <- s1.channels :: Orderly(s1.channels[c])) && forall m: MixId :: Awaited(s1, m)
  {
    var t, s1 := Target(s, a, b), M.MixCall(s, a, b);
    MixCalm(s, a, b, 0);
    forall m: MixId ensures Awaited(s1, m) {
      MixCalm(s, a, b, m);
      MixIsEnter(s, a, b);
      NobodyYet(s, a);
      if t == Some(m) {
        MixedTarget(s, a, b, m);
      } else {
        assert Awaited(s, m);
        hide *;
        if M.Alive(s, m) { NotNext(s, m); }
        CalmerAll(s, s1, m);
        StaysAwaited(s, s1, m);
      }
    }
    hide *;
  }

  lemma CalmerAll(s: M.System, s1: M.System, m: MixId)
    requires s1.channels.Keys == s.channels.Keys
    requires forall c <- s.channels ::
               && (Anchor(s.channels[c], m) <==> Anchor(s1.channels[c], m))
               && (Leaving(s.channels[c], m) <==> Leaving(s1.channels[c], m))
               && (Entering(s.channels[c], m) <==> Entering(s1.channels[c], m))
    ensures forall c <- s.channels :: Calmer(s.channels[c], s1.channels[c], m)
  {
    hide Anchor, Leaving, Entering;
  }

  lemma NotNext(s: M.System, m: MixId)
    requires s.nextMix !in s.mixers && M.Alive(s, m)
    ensures m != s.nextMix
  {
  }

  /** The group called for: new, with nobody leaving; or entered already by somebody who stays. */
  lemma MixedTarget(s: M.System, a: ChannelId, b: ChannelId, n: MixId)
    requires Kept(s) && a in s.channels && b in s.channels && a != b && Careful(s, M.JsMix(a, b))
    requires Target(s, a, b) == Some(n)
    ensures Awaited(M.MixCall(s, a, b), n)
  {
    var s1 := M.MixCall(s, a, b);
    MixIsEnter(s, a, b);
    MixCalm(s, a, b, n);
    if s.channels[a].slot.None? && s.channels[b].slot.None? {
      assert n == s.nextMix;
      forall c <- s.channels ensures !Leaving(s.channels[c], n) { NobodyYet(s, c); }
      hide *;
      NoneLeaving(s1, n);
    } else {
      NobodyYet(s, a);
      var x := if s.channels[a].slot == Some(n) then a else b;
      assert s.channels[x].slot == Some(n) && !Closing(s.channels[x]);
      assert Awaited(s, n) && M.Ok(s);
      hide *;
      Standing(s, x, n);
      NotNext(s, n);
      JoinedAwaited(s, s1, n);
    }
  }

  lemma NoneLeaving(s: M.System, n: MixId)
    requires M.Alive(s, n) && forall c <- s.channels :: !Leaving(s.channels[c], n)
    ensures Awaited(s, n)
  {
    hide Leaving, M.Alive;
  }

  /** A group somebody still has in its slot can be joined. */
  lemma Standing(s: M.System, x: ChannelId, n: MixId)
    requires M.Ok(s) && x in s.channels && s.channels[x].slot == Some(n) && !Closing(s.channels[x]) && Awaited(s, n)
    ensures M.Alive(s, n)
    ensures (exists c <- s.channels :: Anchor(s.channels[c], n)) || (forall c <- s.channels :: !Leaving(s.channels[c], n))
  {
    if !Outstanding(s, n) {
      assert !Entering(s.channels[x], n);
      SlotIsAnchor(s, x, n);
    }
    hide Anchor, Leaving, M.Ok, Entering, Closing, M.Alive;
  }

  lemma JoinedAwaited(s: M.System, s1: M.System, n: MixId)
    requires s1.channels.Keys == s.channels.Keys && M.Alive(s1, n)
    requires forall c <- s.channels :: (Anchor(s.channels[c], n) <==> Anchor(s1.channels[c], n))
                                       && (Leaving(s.channels[c], n) <==> Leaving(s1.channels[c], n))
    requires (exists c <- s.channels :: Anchor(s.channels[c], n)) || (forall c <- s.channels :: !Leaving(s.channels[c], n))
    ensures Awaited(s1, n)
  {
    hide Anchor, Leaving, Entering, M.Alive;
    if x :| x in s.channels && Anchor(s.channels[x], n) { assert Anchor(s1.channels[x], n); }
  }

  /** A step that changes one channel, calmly, and stops no mixer. */
  lemma OneCalm(s: M.System, s1: M.System, c: ChannelId)
    requires Kept(s) && c in s.channels && c in s1.channels && s1.channels == s.channels[c := s1.channels[c]]
    requires Orderly(s1.channels[c]) && forall m: MixId :: Calmer(s.channels[c], s1.channels[c], m)
    requires forall m: MixId | M.Alive(s, m) :: M.Alive(s1, m)
    ensures (forall d <- s1.channels :: Orderly(s1.channels[d])) && forall m: MixId :: Awaited(s1, m)
  {
    hide M.Ok, Orderly, Entering, Anchor, Leaving, M.Alive, Awaited;
    forall m: MixId ensures Awaited(s1, m) {
      assert Awaited(s, m);
      assert forall d <- s.channels :: Calmer(s.channels[d], s1.channels[d], m);
      hide Calmer;
      StaysAwaited(s, s1, m);
    }
  }

  /** Asking to leave, when no start event of the group is outstanding. */
  lemma CarefulLeave(s: M.System, c: ChannelId, slot: Option<MixId>, cmd: M.Command)
    requires Kept(s) && c in s.channels && MayLeave(s, c) && (cmd.LeaveMix? || cmd.Close?)
    ensures var s1 := M.Put(s, c, M.Enqueue(s.channels[c].(slot := slot), cmd));
            (forall d <- s1.channels :: Orderly(s1.channels[d])) && forall m: MixId :: Awaited(s1, m)
  {
    var ch, ch1 := s.channels[c], M.Enqueue(s.channels[c].(slot := slot), cmd);
    var s1 := M.Put(s, c, ch1);
    forall m: MixId ensures !(Inside(ch, m) && Entering(ch, m)) {
      assert Inside(ch, m) && Entering(ch, m) ==> Outstanding(s, m);
    }
    LeaveOrderly(ch, slot, cmd);
    assert forall d <- s1.channels :: Orderly(s1.channels[d]) by { hide Orderly, Awaited; }
    forall m: MixId ensures Awaited(s1, m) {
      LeaveCalm(ch, slot, cmd, m);
      assert Awaited(s, m);
      hide M.Ok, M.Enqueue, Orderly, Entering, Anchor, Leaving, Awaited;
      if Inside(ch, m) {
        assert !Outstanding(s, m);
        NobodyEnters(s, s1, m);
      } else {
        assert forall d <- s.channels :: Calmer(s.channels[d], s1.channels[d], m);
        StaysAwaited(s, s1, m);
      }
    }
  }

  lemma NobodyEnters(s: M.System, s1: M.System, m: MixId)
    requires !Outstanding(s, m) && s1.channels.Keys == s.channels.Keys
    requires forall c <- s.channels :: Entering(s1.channels[c], m) ==> Entering(s.channels[c], m)
    ensures Awaited(s1, m)
  {
    hide Entering, Anchor, Leaving, M.Alive;
  }

  lemma LeaveOrderly(ch: M.Channel, slot: Option<MixId>, cmd: M.Command)
    requires Orderly(ch) && (forall m: MixId :: !Entering(ch, m)) && (cmd.LeaveMix? || cmd.Close?)
    ensures Orderly(M.Enqueue(ch.(slot := slot), cmd))
  {
    if !ch.phase.Closed? {
      forall i | 0 <= i < |ch.queue| ensures !ch.queue[i].EnterMix? {
        if ch.queue[i].EnterMix? { assert Entering(ch, ch.queue[i].mix); }
      }
      if ch.phase.AwaitAdd? { assert Entering(ch, ch.phase.mix); }
    }
  }

  lemma LeaveCalm(ch: M.Channel, slot: Option<MixId>, cmd: M.Command, m: MixId)
    requires cmd.LeaveMix? || cmd.Close?
    ensures var ch1 := M.Enqueue(ch.(slot := slot), cmd);
            (Entering(ch1, m) ==> Entering(ch, m)) && (!Inside(ch, m) ==> Calmer(ch, ch1, m))
  {
  }

  lemma SendCalm(ch: M.Channel, w: nat, m: MixId)
    requires Orderly(ch)
    ensures Calmer(ch, M.Enqueue(ch, M.Ordinary(w)), m) && Orderly(M.Enqueue(ch, M.Ordinary(w)))
  {
  }

  /** An actor takes the head of its queue. */
  lemma ReceiveCalm(s: M.System, c: ChannelId, m: MixId)
    requires M.Enabled(s, M.ActorReceive(c)) && Orderly(s.channels[c]) && M.Clean(s, M.ActorReceive(c))
    requires M.ChannelOk(s.mixers, c, s.channels[c])
    ensures var s1 := M.Receive(s, c); Orderly(s1.channels[c]) && Calmer(s.channels[c], s1.channels[c], m)
  {
    M.ReceivePhase(s, c);
    var ch, ch1 := s.channels[c], M.Receive(s, c).channels[c];
    TailOrderly(ch.queue);
    ReceiveTurns(s, c);
    hide M.Receive, M.ChannelOk, M.Clean, M.Enabled, M.Group, NoAskAfterEnter;
    assert forall x :: x in ch.queue <==> x == ch.queue[0] || x in ch1.queue;
  }

  lemma TailOrderly(q: seq<M.Command>)
    requires q != [] && NoAskAfterEnter(q)
    ensures NoAskAfterEnter(q[1..]) && (q[0].EnterMix? ==> !Asks(q[1..]))
  {
    if q[0].EnterMix? {
      forall j | 0 <= j < |q[1..]| ensures !q[1..][j].LeaveMix? && !q[1..][j].Close? { assert q[1..][j] == q[j + 1]; }
    }
  }

  /** Where the command takes the actor. */
  lemma ReceiveTurns(s: M.System, c: ChannelId)
    requires M.Enabled(s, M.ActorReceive(c)) && M.Clean(s, M.ActorReceive(c)) && M.ChannelOk(s.mixers, c, s.channels[c])
    ensures var ch := s.channels[c]; var ph, x := M.Receive(s, c).channels[c].phase, ch.queue[0];
            match ch.phase
            case Local(_) => if x.EnterMix? then ph == M.AwaitAdd(x.mix) else if x.Close? then ph.Closed? else ph.Local?
            case Mixed(m) =>
              if x.LeaveMix? then ph == M.AwaitRemove(m, false) else if x.Close? then ph == M.AwaitRemove(m, true) else ph == M.Mixed(m)
            case _ => false
  {
    hide M.HistoryOk, M.SlotOk, M.About, M.Ordinaries, M.Forwarded;
  }

  lemma CarefulReceive(s: M.System, c: ChannelId)
    requires Kept(s) && M.Enabled(s, M.ActorReceive(c))
    ensures M.Clean(s, M.ActorReceive(c))
    ensures var s1 := M.Receive(s, c); (forall d <- s1.channels :: Orderly(s1.channels[d])) && forall m: MixId :: Awaited(s1, m)
  {
    var s1 := M.Receive(s, c);
    assert M.Ok(s) && c in s.channels && Orderly(s.channels[c]);
    hide *;
    EntrantFindsMixer(s, c);
    M.ChannelIsOk(s, c);
    OwnToken(s, c);
    M.ReceiveIsPost(s, c);
    ReceivedCalmly(s, c);
    PostedAlive(s, c);
    OneCalm(s, s1, c);
  }

  lemma ReceivedCalmly(s: M.System, c: ChannelId)
    requires M.Enabled(s, M.ActorReceive(c)) && Orderly(s.channels[c]) && M.Clean(s, M.ActorReceive(c))
    requires M.ChannelOk(s.mixers, c, s.channels[c])
    ensures var s1 := M.Receive(s, c);
            Orderly(s1.channels[c]) && forall m: MixId :: Calmer(s.channels[c], s1.channels[c], m)
  {
    hide M.Receive, Orderly, Calmer, M.Clean, M.ChannelOk;
    ReceiveCalm(s, c, 0);
    forall m: MixId ensures Calmer(s.channels[c], M.Receive(s, c).channels[c], m) { ReceiveCalm(s, c, m); }
  }

  lemma OwnToken(s: M.System, c: ChannelId)
    requires c in s.channels && M.ChannelOk(s.mixers, c, s.channels[c])
    ensures s.channels[c].phase.Local? ==> s.channels[c].phase.token.id == c
  {
    hide M.HistoryOk, M.SlotOk, M.About, M.Ordinaries, M.Forwarded;
  }

  /** The start event that is outstanding says that the mixer runs. */
  lemma EntrantFindsMixer(s: M.System, c: ChannelId)
    requires Kept(s) && M.Enabled(s, M.ActorReceive(c))
    ensures M.Clean(s, M.ActorReceive(c))
  {
    var ch := s.channels[c];
    if ch.phase.Local? && ch.queue[0].EnterMix? {
      var m := ch.queue[0].mix;
      assert M.EnterMix(m) in ch.queue && Entering(ch, m);
      assert Outstanding(s, m) && Awaited(s, m);
    }
    hide M.Ok, Orderly, Anchor, Leaving, M.Enabled;
  }

  lemma PostedAlive(s: M.System, c: ChannelId)
    requires M.Enabled(s, M.ActorReceive(c))
    ensures forall m: MixId | M.Alive(s, m) :: M.Alive(M.Receive(s, c), m)
  {
  }

  /** The mixer's answer: an entrant is in to stay, and a leaver is out. */
  lemma CarefulReply(s: M.System, c: ChannelId)
    requires Kept(s) && M.Enabled(s, M.ActorReply(c))
    ensures var s1 := M.TakeReply(s, c); (forall d <- s1.channels :: Orderly(s1.channels[d])) && forall m: MixId :: Awaited(s1, m)
  {
    M.ChannelIsOk(s, c);
    ReplyTurns(s, c);
    var s1 := M.TakeReply(s, c);
    assert Orderly(s.channels[c]);
    forall m: MixId ensures Calmer(s.channels[c], s1.channels[c], m) {
      hide M.Ok, M.TakeReply, M.Enabled, NoAskAfterEnter, Awaited;
    }
    assert Orderly(s1.channels[c]) by { hide M.Ok, M.TakeReply, M.Enabled, NoAskAfterEnter, Awaited, Asks; }
    hide *;
    SameAlive(s, s1);
    OneCalm(s, s1, c);
  }

  lemma ReplyTurns(s: M.System, c: ChannelId)
    requires M.Enabled(s, M.ActorReply(c)) && M.ChannelOk(s.mixers, c, s.channels[c])
    ensures var s1 := M.TakeReply(s, c);
            && s1.mixers == s.mixers && c in s1.channels && s1.channels == s.channels[c := s1.channels[c]]
            && s1.channels[c].queue == s.channels[c].queue
            && match s.channels[c].phase
               case AwaitAdd(m) => s1.channels[c].phase == M.Mixed(m)
               case AwaitRemove(_, _) => s1.channels[c].phase.Local? || s1.channels[c].phase.Closed?
               case _ => false
  {
    hide M.HistoryOk, M.SlotOk, M.About, M.Ordinaries, M.Forwarded;
  }

  lemma SameAlive(s: M.System, s1: M.System)
    requires s1.mixers == s.mixers
    ensures forall m: MixId | M.Alive(s, m) :: M.Alive(s1, m)
  {
  }

  lemma CarefulTick(s: M.System, c: ChannelId, idle: bool)
    requires Kept(s) && M.Enabled(s, M.ActorTick(c, idle))
    ensures var s1 := M.Apply(s, M.ActorTick(c, idle));
            (forall d <- s1.channels :: Orderly(s1.channels[d])) && forall m: MixId :: Awaited(s1, m)
  {
    var s1 := M.Apply(s, M.ActorTick(c, idle));
    assert Orderly(s.channels[c]);
    assert s1.channels == s.channels[c := s1.channels[c]] && s1.mixers == s.mixers;
    assert forall m: MixId :: Calmer(s.channels[c], s1.channels[c], m);
    assert Orderly(s1.channels[c]) by { hide M.Ok, NoAskAfterEnter, Awaited, Asks; }
    hide *;
    SameAlive(s, s1);
    OneCalm(s, s1, c);
  }

  lemma CarefulSend(s: M.System, c: ChannelId, w: nat)
    requires Kept(s) && c in s.channels
    ensures var s1 := M.Put(s, c, M.Enqueue(s.channels[c], M.Ordinary(w)));
            (forall d <- s1.channels :: Orderly(s1.channels[d])) && forall m: MixId :: Awaited(s1, m)
  {
    var s1 := M.Put(s, c, M.Enqueue(s.channels[c], M.Ordinary(w)));
    assert Orderly(s.channels[c]);
    forall m: MixId ensures Calmer(s.channels[c], s1.channels[c], m) && Orderly(s1.channels[c]) { SendCalm(s.channels[c], w, m); }
    assert Calmer(s.channels[c], s1.channels[c], 0);
    assert s1.mixers == s.mixers && s1.channels == s.channels[c := s1.channels[c]];
    hide *;
    SameAlive(s, s1);
    OneCalm(s, s1, c);
  }

  /** The mixer does not stop while somebody is entering. */
  lemma NotTheLast(s: M.System, m: MixId)
    requires Kept(s) && M.Enabled(s, M.MixerReceive(m)) && s.mixers[m].queue[0].Remove?
    requires s.mixers[m].members - {s.mixers[m].queue[0].rid} == map[]
    ensures !Outstanding(s, m)
  {
    M.HeadIsFirst(s, m);
    var id := s.mixers[m].queue[0].rid;
    M.ChannelPhase(s, id);
    M.HeadPhase(s.mixers, m, id, s.channels[id]);
    assert Leaving(s.channels[id], m) && !Anchor(s.channels[id], m);
    assert forall x <- s.mixers[m].members :: x == id || x in s.mixers[m].members - {id};
    forall x | x in s.channels ensures Anchor(s.channels[x], m) ==> x == id {
      if Anchor(s.channels[x], m) { AnchorIsMember(s, x, m); }
    }
    assert Awaited(s, m);
    hide M.Ok, M.About, Entering, Orderly, Anchor, Leaving;
  }

  lemma AnchorIsMember(s: M.System, x: ChannelId, m: MixId)
    requires M.Ok(s) && x in s.channels && Anchor(s.channels[x], m)
    ensures m in s.mixers && x in s.mixers[m].members
  {
    M.ChannelIsOk(s, x);
    hide M.Ok, M.About, M.Ordinaries, M.Forwarded, M.MixersOk;
  }

  lemma AddIsEntering(s: M.System, m: MixId, x: M.MixerCommand)
    requires M.Ok(s) && m in s.mixers && x in s.mixers[m].queue && x.Add?
    ensures Outstanding(s, m)
  {
    M.QueuedChannelIsOk(s, m, x);
    M.ChannelPhase(s, x.Id());
    M.AboutIn(s.mixers[m].queue, x);
    AddPhases(s.mixers, m, x, s.channels[x.Id()]);
    assert Entering(s.channels[x.Id()], m);
    hide M.Ok, M.ChannelOk, M.PhaseOk, M.About;
  }

  lemma AddPhases(mixers: map<MixId, M.Mixer>, m: MixId, x: M.MixerCommand, ch: M.Channel)
    requires M.PhaseOk(mixers, x.Id(), ch) && m in mixers && x in M.About(mixers[m].queue, x.Id()) && x.Add?
    ensures ch.phase == M.AwaitAdd(m)
  {
    hide M.Ordinaries, M.Forwarded, M.About;
    var q := M.About(mixers[m].queue, x.Id());
    if M.EndsWithRemove(q, x.Id()) { M.NoAddBeforeRemove(q, x.Id(), x); }
  }

  lemma CarefulMixer(s: M.System, m: MixId)
    requires Kept(s) && M.Enabled(s, M.MixerReceive(m))
    ensures M.Clean(s, M.MixerReceive(m))
    ensures var s1 := M.MixerStep(s, m); (forall d <- s1.channels :: Orderly(s1.channels[d])) && forall n: MixId :: Awaited(s1, n)
  {
    var q, s1 := s.mixers[m].queue, M.MixerStep(s, m);
    var stops := q[0].Remove? && s.mixers[m].members - {q[0].rid} == map[];
    if stops {
      NotTheLast(s, m);
      forall x | x in q[1..] ensures !x.Add? {
        assert x in q;
        if x.Add? { AddIsEntering(s, m, x); }
      }
    }
    MixerRepliesOnly(s, m);
    assert forall d <- s1.channels :: Orderly(s.channels[d]) && Orderly(s1.channels[d]) by {
      hide M.Ok, M.MixerStep, NoAskAfterEnter, Asks, Awaited;
    }
    forall n: MixId ensures Awaited(s1, n) {
      assert Awaited(s, n);
      hide M.Ok, M.MixerStep, Orderly, Awaited, M.Enabled;
      if n == m && stops {
        NobodyEnters(s, s1, m);
      } else {
        StaysAwaited(s, s1, n);
      }
    }
  }

  /** A mixer's step gives answers, and leaves phases and queues to the actors. */
  lemma MixerRepliesOnly(s: M.System, m: MixId)
    requires M.Enabled(s, M.MixerReceive(m))
    ensures var s1 := M.MixerStep(s, m);
            && s1.channels.Keys == s.channels.Keys
            && (forall c <- s.channels :: s1.channels[c].(reply := s.channels[c].reply) == s.channels[c])
            && (forall n: MixId | M.Alive(s, n) :: M.Alive(s1, n) ||
                  (n == m && s.mixers[m].queue[0].Remove? && s.mixers[m].members - {s.mixers[m].queue[0].rid} == map[]))
  {
  }

  // ---- Runs ----

  lemma CarefulStep(s: M.System, st: M.Step)
    requires Kept(s) && M.Enabled(s, st) && Careful(s, st)
    ensures M.Clean(s, st) && Kept(M.Apply(s, st))
  {
    match st {
      case JsMix(a, b) => CarefulMix(s, a, b);
      case JsUnmix(c) => CarefulLeave(s, c, None, M.LeaveMix);
      case JsSend(c, w) => CarefulSend(s, c, w);
      case JsClose(c) =>
        CarefulLeave(s, c, s.channels[c].slot, M.Close);
        assert s.channels[c].(slot := s.channels[c].slot) == s.channels[c];
      case ActorReceive(c) => CarefulReceive(s, c);
      case ActorReply(c) => CarefulReply(s, c);
      case ActorTick(c, idle) => CarefulTick(s, c, idle);
      case MixerReceive(m) => CarefulMixer(s, m);
      case MixerTick(m) => CarefulMixerTick(s, m);
    }
    hide M.Ok, M.Enqueue, M.MixCall, M.Receive, M.TakeReply, M.MixerStep, Orderly, Awaited, MayLeave, M.Accepts, Closing;
    M.StepOk(s, st);
  }

  lemma CarefulMixerTick(s: M.System, m: MixId)
    requires Kept(s) && M.Enabled(s, M.MixerTick(m))
    ensures var s1 := M.Apply(s, M.MixerTick(m));
            (forall d <- s1.channels :: Orderly(s1.channels[d])) && forall n: MixId :: Awaited(s1, n)
  {
    var s1 := M.Apply(s, M.MixerTick(m));
    assert s1.channels == s.channels && forall n: MixId | M.Alive(s, n) :: M.Alive(s1, n);
    hide M.Ok, M.Apply, Orderly;
    forall n: MixId ensures Awaited(s1, n) {
      assert Awaited(s, n);
      hide Awaited;
      StaysAwaited(s, s1, n);
    }
  }

  lemma {:induction false} CarefulRunIsClean(s: M.System, steps: seq<M.Step>)
    requires Kept(s) && CarefulRun(s, steps)
    ensures M.CleanRun(s, steps) && Kept(M.Run(s, steps))
    decreases |steps|
  {
    hide Kept, M.Apply, M.Enabled, M.Clean, Careful;
    if steps != [] {
      CarefulStep(s, steps[0]);
      CarefulRunIsClean(M.Apply(s, steps[0]), steps[1..]);
    }
  }

  /**
   * From the beginning, a run of careful calls, without the idle sweep, is a
   * clean run: by `EveryCommandOnceInOrder` no state is lost, and every command
   * that was sent reaches its channel's state once and in order.
   */
  lemma CarefulCallersLoseNothing(ids: set<ChannelId>, steps: seq<M.Step>)
    requires CarefulRun(M.Init(ids), steps)
    ensures M.CleanRun(M.Init(ids), steps)
  {
    CarefulRunFromStart(ids, steps);
  }

  lemma CarefulRunFromStart(ids: set<ChannelId>, steps: seq<M.Step>)
    requires CarefulRun(M.Init(ids), steps)
    ensures M.CleanRun(M.Init(ids), steps) && Kept(M.Run(M.Init(ids), steps))
  {
    M.InitOk(ids);
    CarefulRunIsClean(M.Init(ids), steps);
  }

  /** The run of `EarlyUnmixLosesThePartner` breaks the rule: at its `unmix` the partner's start event is outstanding. */
  lemma EarlyUnmixIsCareless()
    ensures M.EARLY[4] == M.JsUnmix(1) && Outstanding(M.EarlyState(4), 1) && !MayLeave(M.EarlyState(4), 1)
  {
    var s := M.EarlyState(4);
    assert M.EnterMix(1) in s.channels[2].queue && Entering(s.channels[2], 1);
    assert Inside(s.channels[1], 1);
  }
}
