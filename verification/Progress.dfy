/**
 * Nothing gets stuck (rust/src/channel/actor.rs, mixer.rs): as long as callers
 * are careful, the actors and mixers by themselves come to the end of all their
 * queues, though every queue is bounded and every send and answer is waited for,
 * and then every command has reached its channel's state.
 */
module Progress {
  import opened Common
  import M = Migration
  import C = Callers
  import K = Closes

  type ChannelId = M.ChannelId
  type MixId = M.MixId

  /** A step of an actor or a mixer that takes a message. */
  predicate Takes(st: M.Step) { st.ActorReceive? || st.ActorReply? || st.MixerReceive? }

  predicate Waits(ch: M.Channel) { ch.phase.AwaitAdd? || ch.phase.AwaitRemove? }

  /** Nothing is left to take: every live actor's and every mixer's queue is empty, and no actor waits for an answer. */
  ghost predicate AtRest(s: M.System) {
    && (forall c <- s.channels :: !Waits(s.channels[c]) && (s.channels[c].phase.Closed? || s.channels[c].queue == []))
    && (forall m <- s.mixers :: s.mixers[m].queue == [])
  }

  // ---- No deadlock ----

  /** As long as something is left, some actor or mixer can take it. */
  lemma SomebodyMoves(s: M.System) returns (st: M.Step)
    requires C.Kept(s) && !AtRest(s)
    ensures Takes(st) && M.Enabled(s, st) && C.Careful(s, st)
  {
    if m :| m in s.mixers && s.mixers[m].queue != [] {
      QueueIsAlive(s, m);
      st := M.MixerReceive(m);
    } else if c :| c in s.channels && Waits(s.channels[c]) {
      AnswerIsThere(s, c);
      st := M.ActorReply(c);
    } else {
      var c :| c in s.channels && !s.channels[c].phase.Closed? && s.channels[c].queue != [];
      st := M.ActorReceive(c);
      assert forall m <- s.mixers :: |s.mixers[m].queue| < M.DEPTH;
    }
    hide C.Kept, M.Ok;
  }

  lemma QueueIsAlive(s: M.System, m: MixId)
    requires M.Ok(s) && m in s.mixers && s.mixers[m].queue != []
    ensures M.Alive(s, m)
  {
    hide M.ChannelOk;
  }

  /** Once the mixers' queues are empty, a waiting actor has been answered. */
  lemma AnswerIsThere(s: M.System, c: ChannelId)
    requires M.Ok(s) && c in s.channels && Waits(s.channels[c]) && forall m <- s.mixers :: s.mixers[m].queue == []
    ensures !s.channels[c].reply.NoReply?
  {
    M.ChannelIsOk(s, c);
    hide M.Ok, M.HistoryOk, M.SlotOk, M.Ordinaries, M.Forwarded, M.MixersOk, M.QuietBut;
  }

  // ---- And it comes to an end ----

  ghost function Sum(w: map<nat, nat>): nat {
    if w == map[] then 0 else var k :| k in w; w[k] + Sum(w - {k})
  }

  lemma {:induction false} SumPicks(w: map<nat, nat>, k: nat)
    requires k in w
    ensures Sum(w) == w[k] + Sum(w - {k})
    decreases w
  {
    var j :| j in w && Sum(w) == w[j] + Sum(w - {j});
    if j != k {
      SumPicks(w - {j}, k);
      SumPicks(w - {k}, j);
      assert w - {j} - {k} == w - {k} - {j};
    }
  }

  lemma SumUpdates(w: map<nat, nat>, k: nat, v: nat)
    requires k in w
    ensures Sum(w[k := v]) == Sum(w) - w[k] + v
  {
    SumPicks(w, k);
    SumPicks(w[k := v], k);
    assert w[k := v] - {k} == w - {k};
  }

  function Weight(ch: M.Channel): nat {
    if ch.phase.Closed? then 0 else 4 * |ch.queue| + if Waits(ch) then 1 else 0
  }

  function Actors(s: M.System): map<nat, nat> { map c | c in s.channels :: Weight(s.channels[c]) }

  function Mixers(s: M.System): map<nat, nat> { map m | m in s.mixers :: 2 * |s.mixers[m].queue| }

  /** A command taken costs four, may put one message worth two in a mixer's queue and one in waiting. */
  ghost function Work(s: M.System): nat { Sum(Actors(s)) + Sum(Mixers(s)) }

  lemma OneActor(s: M.System, s1: M.System, c: ChannelId)
    requires c in s.channels && c in s1.channels && s1.channels == s.channels[c := s1.channels[c]]
    ensures Sum(Actors(s1)) == Sum(Actors(s)) - Weight(s.channels[c]) + Weight(s1.channels[c])
  {
    hide Weight, Sum;
    assert Actors(s1) == Actors(s)[c := Weight(s1.channels[c])];
    SumUpdates(Actors(s), c, Weight(s1.channels[c]));
  }

  lemma OneMixer(s: M.System, s1: M.System, m: MixId)
    requires m in s.mixers && m in s1.mixers && s1.mixers.Keys == s.mixers.Keys
    requires forall n <- s.mixers | n != m :: s1.mixers[n] == s.mixers[n]
    ensures Sum(Mixers(s1)) == Sum(Mixers(s)) - 2 * |s.mixers[m].queue| + 2 * |s1.mixers[m].queue|
  {
    hide Sum;
    assert Mixers(s1) == Mixers(s)[m := 2 * |s1.mixers[m].queue|];
    SumUpdates(Mixers(s), m, 2 * |s1.mixers[m].queue|);
  }

  lemma SameMixers(s: M.System, s1: M.System)
    requires s1.mixers == s.mixers
    ensures Mixers(s1) == Mixers(s)
  {
  }

  lemma ReceiveWorks(s: M.System, c: ChannelId)
    requires C.Kept(s) && M.Enabled(s, M.ActorReceive(c))
    ensures Work(M.Receive(s, c)) < Work(s)
  {
    var s1 := M.Receive(s, c);
    assert M.Ok(s) && c in s.channels && Work(s) == Sum(Actors(s)) + Sum(Mixers(s)) && Work(s1) == Sum(Actors(s1)) + Sum(Mixers(s1));
    hide *;
    M.ChannelIsOk(s, c);
    C.OwnToken(s, c);
    M.ReceiveIsPost(s, c);
    TakesOne(s, c);
    OneActor(s, s1, c);
    match M.Posted(s, c) {
      case None => SameMixers(s, s1);
      case Some((m, x)) =>
        Posting(s, m, x);
        SameMixers(M.Post(s, m, x), s1);
        OneMixer(s, M.Post(s, m, x), m);
    }
  }

  lemma Posting(s: M.System, m: MixId, x: M.MixerCommand)
    requires m in s.mixers
    ensures var s1 := M.Post(s, m, x);
            && s1.mixers.Keys == s.mixers.Keys && (forall n <- s.mixers | n != m :: s1.mixers[n] == s.mixers[n])
            && |s1.mixers[m].queue| == |s.mixers[m].queue| + 1
  {
  }

  lemma TakesOne(s: M.System, c: ChannelId)
    requires M.Enabled(s, M.ActorReceive(c))
    ensures c in M.Receive(s, c).channels
    ensures Weight(M.Receive(s, c).channels[c]) + 3 <= Weight(s.channels[c])
    ensures M.Posted(s, c).Some? ==> M.Posted(s, c).value.0 in s.mixers
  {
  }

  lemma ReplyWorks(s: M.System, c: ChannelId)
    requires C.Kept(s) && M.Enabled(s, M.ActorReply(c))
    ensures Work(M.TakeReply(s, c)) < Work(s)
  {
    var s1 := M.TakeReply(s, c);
    assert M.Ok(s) && c in s.channels && Work(s) == Sum(Actors(s)) + Sum(Mixers(s)) && Work(s1) == Sum(Actors(s1)) + Sum(Mixers(s1));
    hide *;
    M.ChannelIsOk(s, c);
    C.ReplyTurns(s, c);
    AnsweredWeighsLess(s.channels[c], s1.channels[c]);
    OneActor(s, s1, c);
    SameMixers(s, s1);
  }

  lemma AnsweredWeighsLess(ch: M.Channel, ch1: M.Channel)
    requires ch1.queue == ch.queue
    requires match ch.phase
             case AwaitAdd(m) => ch1.phase == M.Mixed(m)
             case AwaitRemove(_, _) => ch1.phase.Local? || ch1.phase.Closed?
             case _ => false
    ensures Weight(ch1) < Weight(ch)
  {
  }

  lemma MixerWorks(s: M.System, m: MixId)
    requires M.Enabled(s, M.MixerReceive(m))
    ensures Work(M.MixerStep(s, m)) < Work(s)
  {
    var s1 := M.MixerStep(s, m);
    assert m in s.mixers && s.mixers[m].queue != [];
    assert Work(s) == Sum(Actors(s)) + Sum(Mixers(s)) && Work(s1) == Sum(Actors(s1)) + Sum(Mixers(s1));
    hide *;
    C.MixerRepliesOnly(s, m);
    K.MixerIs(s, m);
    SameActors(s, s1);
    OneMixer(s, s1, m);
  }

  lemma SameActors(s: M.System, s1: M.System)
    requires s1.channels.Keys == s.channels.Keys
    requires forall c <- s.channels :: s1.channels[c].(reply := s.channels[c].reply) == s.channels[c]
    ensures Actors(s1) == Actors(s)
  {
    forall c <- s.channels ensures Weight(s1.channels[c]) == Weight(s.channels[c]) {
      assert s1.channels[c].(reply := s.channels[c].reply) == s.channels[c];
    }
    hide Weight;
  }

  lemma TakingWorks(s: M.System, st: M.Step)
    requires C.Kept(s) && M.Enabled(s, st) && Takes(st)
    ensures Work(M.Apply(s, st)) < Work(s)
  {
    match st {
      case ActorReceive(c) => ReceiveWorks(s, c);
      case ActorReply(c) => ReplyWorks(s, c);
      case MixerReceive(m) => MixerWorks(s, m);
    }
    hide C.Kept, Work, M.Receive, M.TakeReply, M.MixerStep;
  }

  /** What a state's actors and mixers can do by themselves until nothing is left. */
  lemma {:induction false} ComesToRest(s: M.System) returns (steps: seq<M.Step>)
    requires C.Kept(s)
    ensures (forall st <- steps :: Takes(st)) && C.CarefulRun(s, steps) && M.CleanRun(s, steps)
    ensures AtRest(M.Run(s, steps)) && C.Kept(M.Run(s, steps))
    decreases Work(s)
  {
    hide *;
    if AtRest(s) {
      steps := [];
      NoSteps(s);
    } else {
      var st := SomebodyMoves(s);
      TakingWorks(s, st);
      C.CarefulStep(s, st);
      var rest := ComesToRest(M.Apply(s, st));
      steps := [st] + rest;
      FirstStep(s, st, rest);
    }
  }

  lemma NoSteps(s: M.System)
    ensures C.CarefulRun(s, []) && M.CleanRun(s, []) && M.Run(s, []) == s
  {
  }

  lemma FirstStep(s: M.System, st: M.Step, rest: seq<M.Step>)
    requires M.Enabled(s, st) && C.Careful(s, st) && M.Clean(s, st)
    requires C.CarefulRun(M.Apply(s, st), rest) && M.CleanRun(M.Apply(s, st), rest)
    ensures C.CarefulRun(s, [st] + rest) && M.CleanRun(s, [st] + rest)
    ensures M.Run(s, [st] + rest) == M.Run(M.Apply(s, st), rest)
  {
    assert ([st] + rest)[1..] == rest;
    hide M.Enabled, C.Careful, M.Clean, M.Apply;
  }

  // ---- Then everything has arrived ----

  /** Where the state of a live channel is when nothing is left to take, and what it has seen. */
  lemma RestIsComplete(s: M.System, c: ChannelId) returns (p: M.Place)
    requires M.Ok(s) && AtRest(s) && c in s.channels && !s.channels[c].phase.Closed?
    ensures M.At(s, c, p) && M.StateAt(s, c, p).applied == M.Ordinaries(s.channels[c].Sent())
  {
    M.ChannelIsOk(s, c);
    var ch := s.channels[c];
    assert ch.Sent() == ch.done;
    p := if ch.phase.Local? then M.InActor else M.InMembers(ch.phase.mix);
    hide M.Ok, M.Ordinaries, M.HistoryOk, M.SlotOk, M.MixersOk, M.QuietBut, M.QuietAll;
    if ch.phase.Mixed? {
      assert M.About(s.mixers[ch.phase.mix].queue, c) == [] && M.Forwarded([]) == [];
      var t := s.mixers[ch.phase.mix].members[c];
      assert t.applied + [] == t.applied;
    }
  }

  lemma {:induction false} TakingSendsNothing(s: M.System, steps: seq<M.Step>, c: ChannelId)
    requires M.CleanRun(s, steps) && c in s.channels && forall st <- steps :: Takes(st)
    ensures M.Accepted(s, steps, c) == []
    decreases |steps|
  {
    if steps != [] {
      assert steps[0] in steps && M.AcceptedBy(s, steps[0], c) == [];
      hide M.Apply, M.Enabled, M.Clean, M.AcceptedBy;
      assert forall st <- steps[1..] :: st in steps;
      TakingSendsNothing(M.Apply(s, steps[0]), steps[1..], c);
    }
  }

  /**
   * After any careful run from the beginning the actors and mixers can, by
   * taking what is there and nothing else, bring every command a handle's queue
   * took to the state of its channel, unless the channel has closed.
   */
  lemma EverythingArrives(ids: set<ChannelId>, steps: seq<M.Step>) returns (more: seq<M.Step>)
    requires C.CarefulRun(M.Init(ids), steps)
    ensures M.CleanRun(M.Init(ids), steps) && (forall st <- more :: Takes(st)) && M.CleanRun(M.Run(M.Init(ids), steps), more)
    ensures var s1 := M.Run(M.Run(M.Init(ids), steps), more);
            && AtRest(s1) && s1.channels.Keys == ids
            && forall c <- ids :: s1.channels[c].phase.Closed? ||
                 exists p :: M.At(s1, c, p) && M.StateAt(s1, c, p).applied == M.Accepted(M.Init(ids), steps, c)
  {
    hide *;
    C.CarefulRunFromStart(ids, steps);
    var s0 := M.Init(ids);
    var s := M.Run(s0, steps);
    more := ComesToRest(s);
    var s1 := M.Run(s, more);
    KeptIsOk(s1);
    KeptIsOk(s);
    KeysStay(ids, steps, more);
    forall c <- ids ensures s1.channels[c].phase.Closed? ||
      exists p :: M.At(s1, c, p) && M.StateAt(s1, c, p).applied == M.Accepted(s0, steps, c)
    {
      if !s1.channels[c].phase.Closed? {
        var p := RestIsComplete(s1, c);
        M.RunSends(s0, steps, c);
        M.RunSends(s, more, c);
        TakingSendsNothing(s, more, c);
        NothingSentYet(ids, c);
      }
    }
  }

  lemma KeptIsOk(s: M.System)
    requires C.Kept(s)
    ensures M.Ok(s)
  {
    hide M.Ok;
  }

  lemma NothingSentYet(ids: set<ChannelId>, c: ChannelId)
    requires c in ids
    ensures c in M.Init(ids).channels && M.Ordinaries(M.Init(ids).channels[c].Sent()) == []
  {
    assert M.Init(ids).channels[c].Sent() == [];
  }

  lemma KeysStay(ids: set<ChannelId>, steps: seq<M.Step>, more: seq<M.Step>)
    requires M.CleanRun(M.Init(ids), steps) && M.CleanRun(M.Run(M.Init(ids), steps), more)
    ensures M.Init(ids).channels.Keys == ids && M.Run(M.Init(ids), steps).channels.Keys == ids
    ensures M.Run(M.Run(M.Init(ids), steps), more).channels.Keys == ids
  {
    M.InitOk(ids);
    M.RunOk(M.Init(ids), steps);
    M.RunOk(M.Run(M.Init(ids), steps), more);
    hide M.Ok, M.Run, M.CleanRun;
  }
}
