/**
 * How often a channel's Close event is posted, and whether the registry has been
 * told before (rust/src/channel/actor.rs, mixer.rs): over every run the queues and
 * actors allow, with full queues, failed adds and idle sweeps.
 */
module Closes {
  import opened Common
  import M = Migration

  type ChannelId = M.ChannelId
  type MixId = M.MixId

  /** Any steps that are possible, one after another. */
  ghost predicate PossibleRun(s: M.System, steps: seq<M.Step>)
    decreases |steps|
  {
    steps == [] || (M.Enabled(s, steps[0]) && PossibleRun(M.Apply(s, steps[0]), steps[1..]))
  }

  function After(s: M.System, steps: seq<M.Step>): (r: M.System)
    requires PossibleRun(s, steps)
    ensures r.channels.Keys == s.channels.Keys
    decreases |steps|
  {
    if steps == [] then s else After(M.Apply(s, steps[0]), steps[1..])
  }

  function Sweep(st: M.Step, c: ChannelId): nat { if st.IdleSweep? && st.c == c then 1 else 0 }

  function Sweeps(steps: seq<M.Step>, c: ChannelId): nat {
    if steps == [] then 0 else Sweep(steps[0], c) + Sweeps(steps[1..], c)
  }

  /** The actor has run to its end; on the way it unregisters the channel, and nothing else does. */
  predicate Ended(s: M.System, c: ChannelId)
    requires c in s.channels
  {
    s.channels[c].phase.Closed?
  }

  // ---- The count ----

  lemma StepCloses(s: M.System, st: M.Step, c: ChannelId)
    requires M.Enabled(s, st) && c in s.channels
    ensures var s1 := M.Apply(s, st);
            && s1.channels[c].closes + (if Ended(s, c) then 1 else 0)
               == s.channels[c].closes + Sweep(st, c) + (if Ended(s1, c) then 1 else 0)
            && (Ended(s, c) ==> Ended(s1, c))
  {
    match st {
      case JsMix(a, b) =>
        var m := M.MixTouches(s, a, b, c);
        hide M.MixCall;
      case MixerReceive(m) => AnswerIs(s, m, c); hide M.MixerStep;
      case _ =>
    }
  }

  lemma {:induction false} RunCloses(s: M.System, steps: seq<M.Step>, c: ChannelId)
    requires PossibleRun(s, steps) && c in s.channels
    ensures After(s, steps).channels[c].closes + (if Ended(s, c) then 1 else 0)
         == s.channels[c].closes + Sweeps(steps, c) + (if Ended(After(s, steps), c) then 1 else 0)
    decreases |steps|
  {
    if steps != [] {
      StepCloses(s, steps[0], c);
      hide M.Apply, M.Enabled, Ended, Sweep;
      RunCloses(M.Apply(s, steps[0]), steps[1..], c);
    }
  }

  // ---- A channel is swept once at most ----

  /** Everything that carries a channel's state carries its id. */
  predicate OwnChannel(c: ChannelId, ch: M.Channel) {
    && (ch.phase.Local? ==> ch.phase.token.id == c)
    && (ch.reply.Removed? && ch.reply.token.Some? ==> ch.reply.token.value.id == c)
  }

  predicate OwnMembers(mx: M.Mixer) { forall d <- mx.members :: mx.members[d].id == d }

  ghost predicate OwnIds(s: M.System) {
    (forall c <- s.channels :: OwnChannel(c, s.channels[c])) && forall m <- s.mixers :: OwnMembers(s.mixers[m])
  }

  lemma ReceiveOwn(s: M.System, c: ChannelId)
    requires OwnIds(s) && M.Enabled(s, M.ActorReceive(c))
    ensures OwnIds(M.Receive(s, c))
  {
    assert OwnChannel(c, s.channels[c]);
    M.ReceiveIsPost(s, c);
    var s1 := M.Receive(s, c);
    assert OwnChannel(c, s1.channels[c]);
    assert forall m <- s1.mixers :: m in s.mixers && s1.mixers[m].members == s.mixers[m].members by { hide OwnMembers, OwnChannel; }
    hide M.Receive, M.Posted, OwnChannel;
    assert forall m <- s.mixers :: OwnMembers(s.mixers[m]);
  }

  lemma ReplyOwn(s: M.System, c: ChannelId)
    requires OwnIds(s) && M.Enabled(s, M.ActorReply(c))
    ensures OwnIds(M.TakeReply(s, c))
  {
    assert OwnChannel(c, s.channels[c]);
    hide OwnMembers;
  }

  lemma MixOwn(s: M.System, a: ChannelId, b: ChannelId)
    requires OwnIds(s) && a in s.channels && b in s.channels
    ensures OwnIds(M.MixCall(s, a, b))
  {
    var s1 := M.MixCall(s, a, b);
    forall c <- s1.channels ensures OwnChannel(c, s1.channels[c]) {
      assert OwnChannel(c, s.channels[c]);
      var m := M.MixTouches(s, a, b, c);
      hide M.MixCall;
    }
    assert forall m <- s1.mixers :: s1.mixers[m] == M.Mixer(true, [], map[]) || (m in s.mixers && s1.mixers[m] == s.mixers[m]) by {
      hide OwnChannel, OwnMembers, M.Enqueue;
    }
    hide M.MixCall, OwnChannel;
  }

  lemma MixerOwn(s: M.System, m: MixId)
    requires OwnIds(s) && M.Enabled(s, M.MixerReceive(m))
    ensures OwnIds(M.MixerStep(s, m))
  {
    var s1 := M.MixerStep(s, m);
    forall c <- s1.channels ensures OwnChannel(c, s1.channels[c]) {
      assert OwnChannel(c, s.channels[c]) && OwnMembers(s.mixers[m]);
      AnswerIs(s, m, c);
      hide M.MixerStep;
    }
    assert OwnMembers(s.mixers[m]);
    assert forall n <- s1.mixers :: OwnMembers(s1.mixers[n]) by { MixerIs(s, m); hide M.MixerStep, OwnChannel; }
    hide M.MixerStep, OwnChannel, OwnMembers;
  }

  /** The reply an actor is given by a mixer's step, if any. */
  predicate Answered(before: M.Reply, after: M.Reply, mx: M.Mixer, cmd: M.MixerCommand, c: ChannelId) {
    && (after == before || after.Added? || after == M.Removed(None)
        || (cmd == M.Remove(c) && c in mx.members && after == M.Removed(Some(mx.members[c]))))
    && (cmd == M.Remove(c) && c !in mx.members ==> !(after.Removed? && after.token.Some?))
  }

  lemma AnswerIs(s: M.System, m: MixId, c: ChannelId)
    requires M.Enabled(s, M.MixerReceive(m)) && c in s.channels
    ensures c in M.MixerStep(s, m).channels
    ensures var ch, ch1 := s.channels[c], M.MixerStep(s, m).channels[c];
            ch1.(reply := ch.reply) == ch && Answered(ch.reply, ch1.reply, s.mixers[m], s.mixers[m].queue[0], c)
  {
    var cmd, mx := s.mixers[m].queue[0], s.mixers[m].(queue := s.mixers[m].queue[1..]);
    if cmd.Remove? {
      var d := cmd.rid;
      var found := if d in mx.members then Some(mx.members[d]) else None;
      var s1 := M.SetReply(s.(mixers := s.mixers[m := mx.(members := mx.members - {d})]), d, M.Removed(found));
      StopAnswers(s1, m, c);
      assert M.MixerStep(s, m) == if mx.members - {d} == map[] then M.Stop(s1, m) else s1 by { hide M.Stop, M.SetReply; }
      hide M.MixerStep, M.Stop;
    } else {
      hide M.Stop;
    }
  }

  lemma StopAnswers(s: M.System, m: MixId, c: ChannelId)
    requires m in s.mixers && c in s.channels
    ensures c in M.Stop(s, m).channels
    ensures var ch, ch1 := s.channels[c], M.Stop(s, m).channels[c];
            ch1 == ch || ch1 == ch.(reply := M.Added(false)) || ch1 == ch.(reply := M.Removed(None))
  {
  }

  /** What a mixer's step makes of the mixers. */
  lemma MixerIs(s: M.System, m: MixId)
    requires M.Enabled(s, M.MixerReceive(m))
    ensures var s1, mx, cmd := M.MixerStep(s, m), s.mixers[m], s.mixers[m].queue[0];
            && s1.mixers.Keys == s.mixers.Keys && (forall n <- s.mixers | n != m :: s1.mixers[n] == s.mixers[n])
            && (s1.mixers[m].queue == mx.queue[1..] || s1.mixers[m].queue == [])
            && match cmd
               case Add(t) => s1.mixers[m].members == mx.members[t.id := t]
               case Remove(c) => s1.mixers[m].members == mx.members - {c}
               case Forward(c, w) =>
                 s1.mixers[m].members == if c in mx.members then mx.members[c := mx.members[c].Apply(w)] else mx.members
  {
  }

  lemma StepOwnIds(s: M.System, st: M.Step)
    requires OwnIds(s) && M.Enabled(s, st)
    ensures OwnIds(M.Apply(s, st))
  {
    match st {
      case JsMix(a, b) => MixOwn(s, a, b); hide M.MixCall, OwnIds;
      case ActorReceive(c) => ReceiveOwn(s, c); hide M.Receive, OwnIds;
      case ActorReply(c) => ReplyOwn(s, c); hide M.TakeReply, OwnIds;
      case MixerReceive(m) => MixerOwn(s, m); hide M.MixerStep, OwnIds;
      case _ => OtherOwn(s, st); hide OwnIds;
    }
  }

  /** Calls on a handle, ticks and sweeps change no id. */
  lemma OtherOwn(s: M.System, st: M.Step)
    requires OwnIds(s) && M.Enabled(s, st)
    requires st.JsUnmix? || st.JsSend? || st.JsClose? || st.ActorTick? || st.MixerTick? || st.IdleSweep?
    ensures OwnIds(M.Apply(s, st))
  {
    if st.JsUnmix? || st.JsSend? || st.JsClose? || st.ActorTick? || st.IdleSweep? { assert OwnChannel(st.c, s.channels[st.c]); }
    if st.MixerTick? || st.IdleSweep? { assert OwnMembers(s.mixers[st.m]); }
  }

  /** The place a channel's state was in before a step that has brought it to p. */
  function From(s: M.System, st: M.Step, c: ChannelId, p: M.Place): M.Place
    requires M.Enabled(s, st) && c in s.channels
  {
    match st
    case ActorReceive(d) =>
      if d == c && p.InQueue? && p.m in s.mixers && p.i == |s.mixers[p.m].queue| then M.InActor else p
    case ActorReply(d) => if d == c && p.InActor? && s.channels[c].phase.AwaitRemove? then M.InReply else p
    case MixerReceive(m) =>
      var cmd := s.mixers[m].queue[0];
      (match p
       case InQueue(n, i) => if n == m then M.InQueue(m, i + 1) else p
       case InMembers(n) => if n == m && cmd.Add? && cmd.Id() == c then M.InQueue(m, 0) else p
       case InReply => if cmd == M.Remove(c) then M.InMembers(m) else p
       case InActor => p)
    case _ => p
  }

  lemma MixerCameFrom(s: M.System, m: MixId, c: ChannelId, p: M.Place)
    requires M.Enabled(s, M.MixerReceive(m)) && c in s.channels && M.At(M.MixerStep(s, m), c, p)
    ensures M.At(s, c, From(s, M.MixerReceive(m), c, p))
    ensures s.mixers[m].queue[0] == M.Remove(c) ==> p != M.InMembers(m)
  {
    AnswerIs(s, m, c);
    MixerIs(s, m);
    hide M.MixerStep;
  }

  lemma ReceiveCameFrom(s: M.System, d: ChannelId, c: ChannelId, p: M.Place)
    requires OwnIds(s) && M.Enabled(s, M.ActorReceive(d)) && c in s.channels && M.At(M.Receive(s, d), c, p)
    ensures M.At(s, c, From(s, M.ActorReceive(d), c, p))
    ensures d == c && p.InQueue? && p.m in s.mixers && p.i == |s.mixers[p.m].queue| ==> !M.At(M.Receive(s, d), c, M.InActor)
  {
    assert OwnChannel(d, s.channels[d]);
    M.ReceiveIsPost(s, d);
    hide OwnIds, OwnChannel;
  }

  lemma ReplyCameFrom(s: M.System, d: ChannelId, c: ChannelId, p: M.Place)
    requires M.Enabled(s, M.ActorReply(d)) && c in s.channels && M.At(M.TakeReply(s, d), c, p)
    ensures M.At(s, c, From(s, M.ActorReply(d), c, p))
    ensures d == c && p.InActor? && s.channels[c].phase.AwaitRemove? ==> !M.At(M.TakeReply(s, d), c, M.InReply)
  {
  }

  lemma MixCameFrom(s: M.System, a: ChannelId, b: ChannelId, c: ChannelId, p: M.Place)
    requires a in s.channels && b in s.channels && c in s.channels && M.At(M.MixCall(s, a, b), c, p)
    ensures M.At(s, c, p)
  {
    var s1 := M.MixCall(s, a, b);
    var m := M.MixTouches(s, a, b, c);
    assert forall m <- s1.mixers :: s1.mixers[m] == M.Mixer(true, [], map[]) || (m in s.mixers && s1.mixers[m] == s.mixers[m]) by {
      hide M.Enqueue;
    }
    hide M.MixCall;
  }

  /** Every place after a step comes from one before it, and no two from the same. */
  lemma CameFrom(s: M.System, st: M.Step, c: ChannelId, p: M.Place, q: M.Place)
    requires OwnIds(s) && M.Enabled(s, st) && c in s.channels && M.At(M.Apply(s, st), c, p) && M.At(M.Apply(s, st), c, q)
    ensures M.At(s, c, From(s, st, c, p)) && (From(s, st, c, p) == From(s, st, c, q) ==> p == q)
  {
    match st {
      case JsMix(a, b) => MixCameFrom(s, a, b, c, p); hide M.MixCall, OwnIds;
      case ActorReceive(d) =>
        ReceiveCameFrom(s, d, c, p);
        ReceiveCameFrom(s, d, c, q);
        hide M.Receive, OwnIds, M.At;
      case ActorReply(d) =>
        ReplyCameFrom(s, d, c, p);
        ReplyCameFrom(s, d, c, q);
        hide M.TakeReply, OwnIds, M.At;
      case MixerReceive(m) =>
        MixerCameFrom(s, m, c, p);
        MixerCameFrom(s, m, c, q);
        hide M.MixerStep, OwnIds, M.At;
      case _ => hide OwnIds;
    }
  }

  ghost predicate OnePlace(s: M.System, c: ChannelId)
    requires c in s.channels
  {
    forall p, q | M.At(s, c, p) && M.At(s, c, q) :: p == q
  }

  ghost predicate Nowhere(s: M.System, c: ChannelId)
    requires c in s.channels
  {
    forall p :: !M.At(s, c, p)
  }

  lemma StepPlaces(s: M.System, st: M.Step, c: ChannelId)
    requires OwnIds(s) && M.Enabled(s, st) && c in s.channels && OnePlace(s, c)
    ensures OnePlace(M.Apply(s, st), c)
    ensures Nowhere(s, c) ==> Nowhere(M.Apply(s, st), c)
  {
    var s1 := M.Apply(s, st);
    hide M.Apply, M.Enabled, M.At, From, OwnIds;
    forall p, q | M.At(s1, c, p) && M.At(s1, c, q) ensures p == q {
      CameFrom(s, st, c, p, q);
      CameFrom(s, st, c, q, p);
    }
    forall p | M.At(s1, c, p) ensures !Nowhere(s, c) {
      CameFrom(s, st, c, p, p);
    }
  }

  /** A swept channel's state is nowhere, so the channel cannot be swept again. */
  lemma SweepIsLast(s: M.System, st: M.Step, c: ChannelId)
    requires M.Enabled(s, st) && c in s.channels && OnePlace(s, c) && Sweep(st, c) == 1
    ensures !Nowhere(s, c) && Nowhere(M.Apply(s, st), c)
  {
    assert M.At(s, c, M.InMembers(st.m));
    forall p | M.At(M.Apply(s, st), c, p) ensures M.At(s, c, p) {
    }
    assert !M.At(M.Apply(s, st), c, M.InMembers(st.m));
    hide M.Apply, M.At;
  }

  lemma {:induction false} SweptOnce(s: M.System, steps: seq<M.Step>, c: ChannelId)
    requires PossibleRun(s, steps) && OwnIds(s) && c in s.channels && OnePlace(s, c)
    ensures Sweeps(steps, c) <= if Nowhere(s, c) then 0 else 1
    decreases |steps|
  {
    hide M.Apply, M.Enabled, OwnIds, OnePlace, Nowhere;
    if steps != [] {
      StepOwnIds(s, steps[0]);
      StepPlaces(s, steps[0], c);
      if Sweep(steps[0], c) == 1 { SweepIsLast(s, steps[0], c); }
      SweptOnce(M.Apply(s, steps[0]), steps[1..], c);
    }
  }

  // ---- The exact condition ----

  lemma FromTheStart(ids: set<ChannelId>, c: ChannelId)
    requires c in ids
    ensures var s := M.Init(ids);
            c in s.channels && OwnIds(s) && OnePlace(s, c) && s.channels[c].closes == 0 && !Ended(s, c)
  {
  }

  /**
   * Over every possible run: a channel's Close events are its idle sweep, if it
   * has been swept, and its actor's end, if it has ended. So there is more than
   * one exactly when it has been swept and its actor has ended after that, and
   * there are never more than two.
   */
  lemma ClosesCounted(ids: set<ChannelId>, steps: seq<M.Step>, c: ChannelId)
    requires PossibleRun(M.Init(ids), steps) && c in ids
    ensures var s := After(M.Init(ids), steps);
            && c in s.channels && Sweeps(steps, c) <= 1
            && s.channels[c].closes == Sweeps(steps, c) + (if Ended(s, c) then 1 else 0)
            && (s.channels[c].closes > 1 <==> Sweeps(steps, c) == 1 && Ended(s, c))
  {
    FromTheStart(ids, c);
    RunCloses(M.Init(ids), steps, c);
    SweptOnce(M.Init(ids), steps, c);
    hide *;
  }

  /**
   * The registry is told when an actor ends, and not otherwise. A step that posts
   * a Close event without that is an idle sweep, and every idle sweep is one.
   */
  lemma ClosedUntoldIff(s: M.System, st: M.Step, c: ChannelId)
    requires M.Enabled(s, st) && c in s.channels && M.Apply(s, st).channels[c].closes > s.channels[c].closes
    ensures Ended(M.Apply(s, st), c) == Ended(s, c) <==> Sweep(st, c) == 1
  {
    StepCloses(s, st, c);
    if Sweep(st, c) == 1 { SweepEndsNobody(s, st, c); }
    hide M.Apply, M.Enabled, Ended;
  }

  lemma SweepEndsNobody(s: M.System, st: M.Step, c: ChannelId)
    requires M.Enabled(s, st) && c in s.channels && Sweep(st, c) == 1
    ensures Ended(M.Apply(s, st), c) == Ended(s, c)
  {
  }

  // ---- The concrete case ----

  /** Channels 1 and 2 are mixed, 1 enters and is swept for being idle, and its handle is closed. */
  const SWEPT: seq<M.Step> :=
    [M.JsMix(1, 2), M.ActorReceive(1), M.MixerReceive(1), M.ActorReply(1), M.IdleSweep(1, 1),
     M.JsClose(1), M.ActorReceive(1), M.MixerReceive(1), M.ActorReply(1)]

  lemma OneMoreStep(s: M.System, steps: seq<M.Step>, k: nat)
    requires k < |steps| && M.Enabled(s, steps[k])
    ensures PossibleRun(M.Apply(s, steps[k]), steps[k + 1..]) ==>
              PossibleRun(s, steps[k..]) && After(s, steps[k..]) == After(M.Apply(s, steps[k]), steps[k + 1..])
  {
    assert steps[k..][1..] == steps[k + 1..];
    hide M.Apply, M.Enabled;
  }

  /** Channel 1 is in the mix, and then swept out of it. */
  lemma SweptState()
    ensures M.Enabled(M.EarlyState(4), M.IdleSweep(1, 1))
    ensures var s := M.Apply(M.EarlyState(4), M.IdleSweep(1, 1));
            && 1 in s.channels && s.channels[1].phase == M.Mixed(1) && s.channels[1].queue == []
            && s.channels[1].reply.NoReply? && s.channels[1].closes == 1
            && M.Alive(s, 1) && s.mixers[1].queue == [] && 1 !in s.mixers[1].members
  {
  }

  /** From there on: a sweep, a close, and the actor's way out. */
  lemma SweptEnds()
    ensures PossibleRun(M.EarlyState(4), SWEPT[4..])
    ensures var s := After(M.EarlyState(4), SWEPT[4..]); 1 in s.channels && s.channels[1].closes == 2
  {
    SweptState();
    var s := M.EarlyState(4);
    assert SWEPT[4] == M.IdleSweep(1, 1) && SWEPT[5] == M.JsClose(1) && SWEPT[6] == M.ActorReceive(1);
    assert SWEPT[7] == M.MixerReceive(1) && SWEPT[8] == M.ActorReply(1) && SWEPT[9..] == [];
    hide *;
    var s1 := M.Apply(s, SWEPT[4]);
    CanClose(s1, 1);
    M.SweptCloses(s1, 1, 1);
    var s2 := M.Apply(s1, SWEPT[5]);
    var s3 := M.Apply(s2, SWEPT[6]);
    var s4 := M.Apply(s3, SWEPT[7]);
    var s5 := M.Apply(s4, SWEPT[8]);
    NothingMore(s5);
    OneMoreStep(s4, SWEPT, 8);
    OneMoreStep(s3, SWEPT, 7);
    OneMoreStep(s2, SWEPT, 6);
    OneMoreStep(s1, SWEPT, 5);
    OneMoreStep(s, SWEPT, 4);
  }

  lemma NothingMore(s: M.System)
    ensures PossibleRun(s, []) && After(s, []) == s
  {
  }

  lemma CanClose(s: M.System, c: ChannelId)
    requires c in s.channels
    ensures M.Enabled(s, M.JsClose(c))
  {
  }

  lemma SweptClosesTwice()
    ensures PossibleRun(M.Init({1, 2}), SWEPT)
    ensures var s := After(M.Init({1, 2}), SWEPT); 1 in s.channels && s.channels[1].closes == 2
  {
    hide M.Init, M.Apply, M.Enabled, M.EarlyState, PossibleRun, After;
    M.EarlyEnds();
    M.EarlyMix(); M.EarlyAdd(); M.EarlyAdded(); M.EarlyEntered();
    SweptEnds();
    OneMoreStep(M.EarlyState(3), SWEPT, 3);
    OneMoreStep(M.EarlyState(2), SWEPT, 2);
    OneMoreStep(M.EarlyState(1), SWEPT, 1);
    OneMoreStep(M.EarlyState(0), SWEPT, 0);
    assert SWEPT[0..] == SWEPT;
  }
}
