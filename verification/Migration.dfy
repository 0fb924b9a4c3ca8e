/**
 * How a channel's state travels between its own actor and a shared mix actor
 * (rust/src/channel/actor.rs, mixer.rs, facade.rs).
 *
 * Three kinds of parties run concurrently: JavaScript calls on channel handles,
 * one actor per channel, and one mixer per group, joined by FIFO queues. Every
 * step below is one queue receive, one reply, one tick or one JavaScript call;
 * the theorems are about every interleaving of them.
 */
module Migration {
  import opened Common

  type ChannelId = nat
  type MixId = nat

  /** `Ordinary` stands for every command that acts on the channel's state, told apart by a number. */
  datatype Command = Ordinary(what: nat) | EnterMix(mix: MixId) | LeaveMix | Close

  /** The state that migrates, with the ordinary commands applied to it and its tick count and media clock. */
  datatype Token = Token(id: ChannelId, applied: seq<nat>, ticks: nat, outTs: u32) {
    function Apply(what: nat): Token { this.(applied := applied + [what]) }

    function Tick(): Token { this.(ticks := ticks + 1, outTs := (outTs + 160) % 0x1_0000_0000) }

    predicate OnTime() { outTs == (160 * ticks) % 0x1_0000_0000 }
  }

  datatype MixerCommand = Add(token: Token) | Remove(rid: ChannelId) | Forward(fid: ChannelId, what: nat) {
    function Id(): ChannelId {
      match this case Add(t) => t.id case Remove(c) => c case Forward(c, _) => c
    }
  }

  datatype Mixer = Mixer(running: bool, queue: seq<MixerCommand>, members: map<ChannelId, Token>)

  /** What an actor is doing: the two modes of `run`, and the two places where it waits for the mixer's answer. */
  datatype Phase =
    | Local(token: Token)
    | AwaitAdd(mix: MixId)
    | Mixed(mix: MixId)
    | AwaitRemove(mix: MixId, closing: bool)
    | Closed(last: Option<Token>)

  datatype Reply = NoReply | Added(ok: bool) | Removed(token: Option<Token>)

  /**
   * `slot` is the facade's shadow of the group; `done` are the commands the actor
   * has received; `closes` counts Close events.
   */
  datatype Channel = Channel(
    slot: Option<MixId>, done: seq<Command>, queue: seq<Command>, phase: Phase, reply: Reply, closes: nat)
  {
    function Sent(): seq<Command> { done + queue }
  }

  datatype System = System(channels: map<ChannelId, Channel>, mixers: map<MixId, Mixer>, nextMix: MixId)

  function Fresh(c: ChannelId): Channel { Channel(None, [], [], Local(Token(c, [], 0, 0)), NoReply, 0) }

  function Init(ids: set<ChannelId>): System {
    System(map c | c in ids :: Fresh(c), map[], 1)
  }

  const DEPTH: nat := 64

  datatype Step =
    | JsMix(a: ChannelId, b: ChannelId)
    | JsUnmix(c: ChannelId)
    | JsSend(c: ChannelId, what: nat)
    | JsClose(c: ChannelId)
    | ActorReceive(c: ChannelId)
    | ActorReply(c: ChannelId)
    | ActorTick(c: ChannelId, idle: bool)
    | MixerReceive(m: MixId)
    | MixerTick(m: MixId)
    | IdleSweep(m: MixId, c: ChannelId)

  // ---- The JavaScript side ----

  /** `try_send`: a full queue or a finished actor refuses, and the facade ignores that. */
  function Enqueue(ch: Channel, cmd: Command): Channel {
    if |ch.queue| < DEPTH && !ch.phase.Closed? then ch.(queue := ch.queue + [cmd]) else ch
  }

  function MixCall(s: System, a: ChannelId, b: ChannelId): System
    requires a in s.channels && b in s.channels
  {
    if a == b then s
    else
      match (s.channels[a].slot, s.channels[b].slot)
      case (None, None) =>
        Enter(s.(mixers := s.mixers[s.nextMix := Mixer(true, [], map[])], nextMix := s.nextMix + 1), a, b, s.nextMix)
      case (Some(m), None) => Enter(s, a, b, m)
      case (None, Some(m)) => Enter(s, a, b, m)
      case (Some(m), Some(n)) => if m == n then Enter(s, a, b, m) else s
  }

  function Enter(s: System, a: ChannelId, b: ChannelId, m: MixId): System
    requires a in s.channels && b in s.channels && a != b
  {
    s.(channels := s.channels[a := Enqueue(s.channels[a].(slot := Some(m)), EnterMix(m))]
                             [b := Enqueue(s.channels[b].(slot := Some(m)), EnterMix(m))])
  }

  // ---- The actor ----

  function Post(s: System, m: MixId, cmd: MixerCommand): System
    requires m in s.mixers
  {
    s.(mixers := s.mixers[m := s.mixers[m].(queue := s.mixers[m].queue + [cmd])])
  }

  function Put(s: System, c: ChannelId, ch: Channel): System { s.(channels := s.channels[c := ch]) }

  /** Whether the group's mixer still receives; every handle was made by `spawn`, so an id without a mixer does not occur. */
  predicate Alive(s: System, m: MixId) { m in s.mixers && s.mixers[m].running }

  function Receive(s: System, c: ChannelId): (r: System)
    requires c in s.channels && s.channels[c].queue != []
    ensures r.channels.Keys == s.channels.Keys
  {
    var cmd := s.channels[c].queue[0];
    var ch := s.channels[c].(queue := s.channels[c].queue[1..], done := s.channels[c].done + [cmd]);
    match ch.phase
    case Local(t) => (
      match cmd
      case Ordinary(w) => Put(s, c, ch.(phase := Local(t.Apply(w))))
      case LeaveMix => Put(s, c, ch)
      case Close => Put(s, c, ch.(phase := Closed(Some(t)), closes := ch.closes + 1))
      case EnterMix(m) =>
        if Alive(s, m) then Post(Put(s, c, ch.(phase := AwaitAdd(m))), m, Add(t))
        else Put(s, c, ch.(phase := Closed(None), closes := ch.closes + 1)))
    case Mixed(m) => (
      match cmd
      case Ordinary(w) => if Alive(s, m) then Post(Put(s, c, ch), m, Forward(c, w)) else Put(s, c, ch)
      case EnterMix(_) => Put(s, c, ch)
      case LeaveMix =>
        if Alive(s, m) then Post(Put(s, c, ch.(phase := AwaitRemove(m, false))), m, Remove(c)) else Put(s, c, ch)
      case Close =>
        if Alive(s, m) then Post(Put(s, c, ch.(phase := AwaitRemove(m, true))), m, Remove(c))
        else Put(s, c, ch.(phase := Closed(None), closes := ch.closes + 1)))
    case _ => s
  }

  function TakeReply(s: System, c: ChannelId): System
    requires c in s.channels
  {
    var ch := s.channels[c].(reply := NoReply);
    match (ch.phase, s.channels[c].reply)
    case (AwaitAdd(m), Added(ok)) =>
      Put(s, c, if ok then ch.(phase := Mixed(m)) else ch.(phase := Closed(None), closes := ch.closes + 1))
    case (AwaitRemove(m, closing), Removed(Some(t))) =>
      Put(s, c, if closing then ch.(phase := Closed(Some(t)), closes := ch.closes + 1) else ch.(phase := Local(t)))
    case (AwaitRemove(m, closing), Removed(None)) =>
      Put(s, c, if closing then ch.(phase := Closed(None), closes := ch.closes + 1) else ch.(phase := Mixed(m)))
    case _ => s
  }

  // ---- The mixer ----

  function SetReply(s: System, c: ChannelId, r: Reply): System {
    if c in s.channels then Put(s, c, s.channels[c].(reply := r)) else s
  }

  predicate HasAdd(q: seq<MixerCommand>, c: ChannelId) { exists x <- q :: x.Add? && x.Id() == c }

  predicate HasRemove(q: seq<MixerCommand>, c: ChannelId) { exists x <- q :: x.Remove? && x.Id() == c }

  /** The mixer returns: what is left in its queue is dropped, and every waiting actor hears of it. */
  function Stop(s: System, m: MixId): System
    requires m in s.mixers
  {
    var q := s.mixers[m].queue;
    s.(mixers := s.mixers[m := Mixer(false, [], map[])],
       channels := map c | c in s.channels ::
                     if HasAdd(q, c) then s.channels[c].(reply := Added(false))
                     else if HasRemove(q, c) then s.channels[c].(reply := Removed(None))
                     else s.channels[c])
  }

  function MixerStep(s: System, m: MixId): System
    requires m in s.mixers && s.mixers[m].queue != []
  {
    var cmd := s.mixers[m].queue[0];
    var mx := s.mixers[m].(queue := s.mixers[m].queue[1..]);
    match cmd
    case Add(t) =>
      SetReply(s.(mixers := s.mixers[m := mx.(members := mx.members[t.id := t])]), t.id, Added(true))
    case Remove(c) =>
      var found := if c in mx.members then Some(mx.members[c]) else None;
      var s1 := SetReply(s.(mixers := s.mixers[m := mx.(members := mx.members - {c})]), c, Removed(found));
      if mx.members - {c} == map[] then Stop(s1, m) else s1
    case Forward(c, w) =>
      if c in mx.members then s.(mixers := s.mixers[m := mx.(members := mx.members[c := mx.members[c].Apply(w)])])
      else s.(mixers := s.mixers[m := mx])
  }

  // ---- Steps and runs ----

  predicate Enabled(s: System, st: Step) {
    match st
    case JsMix(a, b) => a in s.channels && b in s.channels
    case JsUnmix(c) => c in s.channels
    case JsSend(c, _) => c in s.channels
    case JsClose(c) => c in s.channels
    case ActorReceive(c) =>
      && c in s.channels && s.channels[c].queue != [] && (s.channels[c].phase.Local? || s.channels[c].phase.Mixed?)
      && (forall m <- s.mixers :: Busy(s, c, m) ==> |s.mixers[m].queue| < DEPTH)
    case ActorReply(c) =>
      && c in s.channels && !s.channels[c].reply.NoReply?
      && (s.channels[c].phase.AwaitAdd? || s.channels[c].phase.AwaitRemove?)
    case ActorTick(c, _) => c in s.channels && s.channels[c].phase.Local?
    case MixerReceive(m) => Alive(s, m) && s.mixers[m].queue != []
    case MixerTick(m) => Alive(s, m)
    case IdleSweep(m, c) => Alive(s, m) && c in s.mixers[m].members && c in s.channels
  }

  /** Whether the next command of c makes its actor send to mixer m, so that a full queue holds it up. */
  predicate Busy(s: System, c: ChannelId, m: MixId)
    requires c in s.channels && s.channels[c].queue != []
  {
    || (s.channels[c].phase == Mixed(m) && !s.channels[c].queue[0].EnterMix?)
    || (s.channels[c].phase.Local? && s.channels[c].queue[0] == EnterMix(m))
  }

  function Apply(s: System, st: Step): (r: System)
    requires Enabled(s, st)
    ensures r.channels.Keys == s.channels.Keys
  {
    match st
    case JsMix(a, b) => MixCall(s, a, b)
    case JsUnmix(c) => Put(s, c, Enqueue(s.channels[c].(slot := None), LeaveMix))
    case JsSend(c, w) => Put(s, c, Enqueue(s.channels[c], Ordinary(w)))
    case JsClose(c) => Put(s, c, Enqueue(s.channels[c], Close))
    case ActorReceive(c) => Receive(s, c)
    case ActorReply(c) => TakeReply(s, c)
    case ActorTick(c, idle) =>
      var t := s.channels[c].phase.token.Tick();
      Put(s, c, if idle then s.channels[c].(phase := Closed(Some(t)), closes := s.channels[c].closes + 1)
                else s.channels[c].(phase := Local(t)))
    case MixerReceive(m) => MixerStep(s, m)
    case MixerTick(m) =>
      var ms := s.mixers[m].members;
      s.(mixers := s.mixers[m := s.mixers[m].(members := map c | c in ms :: ms[c].Tick())])
    case IdleSweep(m, c) =>
      Put(s.(mixers := s.mixers[m := s.mixers[m].(members := s.mixers[m].members - {c})]), c,
          s.channels[c].(closes := s.channels[c].closes + 1))
  }

  /** Whether the facade's `try_send`s for `mix` and `unmix` go through (channels that are over do not count). */
  predicate Accepts(ch: Channel) { |ch.queue| < DEPTH || ch.phase.Closed? }

  /**
   * The steps the guarantees are about: no member is idle-swept, no actor adds
   * itself to a mixer that has stopped or stops first, and the queue takes the
   * EnterMix or LeaveMix that goes with a change of the facade's slot.
   */
  predicate Clean(s: System, st: Step)
    requires Enabled(s, st)
  {
    match st
    case JsMix(a, b) => Accepts(s.channels[a]) && Accepts(s.channels[b])
    case JsUnmix(c) => Accepts(s.channels[c])
    case ActorReceive(c) =>
      s.channels[c].phase.Local? && s.channels[c].queue[0].EnterMix? ==> Alive(s, s.channels[c].queue[0].mix)
    case MixerReceive(m) =>
      var q := s.mixers[m].queue;
      q[0].Remove? && s.mixers[m].members - {q[0].rid} == map[] ==> forall x <- q[1..] :: !x.Add?
    case IdleSweep(_, _) => false
    case _ => true
  }

  ghost predicate CleanRun(s: System, steps: seq<Step>)
    decreases |steps|
  {
    steps == [] || (Enabled(s, steps[0]) && Clean(s, steps[0]) && CleanRun(Apply(s, steps[0]), steps[1..]))
  }

  function Run(s: System, steps: seq<Step>): System
    requires CleanRun(s, steps)
    decreases |steps|
  {
    if steps == [] then s else Run(Apply(s, steps[0]), steps[1..])
  }

  /** A queue takes 64 commands that nobody receives, and what is sent after that is lost. */
  lemma {:induction false} QueueTakes(ch: Channel, cmds: seq<Command>)
    requires ch.queue == [] && !ch.phase.Closed?
    ensures EnqueueAll(ch, cmds) == ch.(queue := if |cmds| <= 64 then cmds else cmds[..64])
  {
    if cmds == [] {
      assert ch.queue == cmds;
    } else {
      var n := |cmds| - 1;
      QueueTakes(ch, cmds[..n]);
      assert cmds[..n] + [cmds[n]] == cmds;
      if |cmds| > 64 { assert cmds[..n][..64] == cmds[..64]; }
    }
  }

  function EnqueueAll(ch: Channel, cmds: seq<Command>): Channel {
    if cmds == [] then ch else Enqueue(EnqueueAll(ch, cmds[..|cmds| - 1]), cmds[|cmds| - 1])
  }

  /** A channel that has been idle for too long ends with that tick and says so; any other goes on, one tick later. */
  lemma LocalTickIs(s: System, c: ChannelId, idle: bool)
    requires Enabled(s, ActorTick(c, idle))
    ensures var ch, ch1 := s.channels[c], Apply(s, ActorTick(c, idle)).channels[c];
            var t := ch.phase.token;
            var later := Token(t.id, t.applied, t.ticks + 1, (t.outTs + 160) % 0x1_0000_0000);
            && ch1.closes == ch.closes + (if idle then 1 else 0)
            && ch1.phase == (if idle then Closed(Some(later)) else Local(later))
            && ch1.queue == ch.queue && ch1.done == ch.done && ch1.slot == ch.slot
    ensures forall d <- s.channels | d != c :: Apply(s, ActorTick(c, idle)).channels[d] == s.channels[d]
    ensures Apply(s, ActorTick(c, idle)).mixers == s.mixers
  {
  }

  // ---- What every clean run keeps ----

  /** The commands in a mixer's queue that concern channel c. */
  function About(q: seq<MixerCommand>, c: ChannelId): seq<MixerCommand> {
    if q == [] then [] else (if q[0].Id() == c then [q[0]] else []) + About(q[1..], c)
  }

  lemma {:induction false} AboutAppend(q: seq<MixerCommand>, x: MixerCommand, c: ChannelId)
    ensures About(q + [x], c) == About(q, c) + (if x.Id() == c then [x] else [])
  {
    if q == [] {
      assert q + [x] == [x];
    } else {
      assert (q + [x])[1..] == q[1..] + [x] && (q + [x])[0] == q[0];
      AboutAppend(q[1..], x, c);
      var first, last := if q[0].Id() == c then [q[0]] else [], if x.Id() == c then [x] else [];
      assert first + (About(q[1..], c) + last) == (first + About(q[1..], c)) + last;
    }
  }

  lemma {:induction false} AboutIn(q: seq<MixerCommand>, x: MixerCommand)
    ensures x in About(q, x.Id()) <==> x in q
  {
    if q != [] { AboutIn(q[1..], x); }
  }

  function Ordinaries(cmds: seq<Command>): seq<nat> {
    if cmds == [] then []
    else Ordinaries(cmds[..|cmds| - 1])
         + (if cmds[|cmds| - 1].Ordinary? then [cmds[|cmds| - 1].what] else [])
  }

  function Forwarded(q: seq<MixerCommand>): seq<nat> {
    if q == [] then [] else (if q[0].Forward? then [q[0].what] else []) + Forwarded(q[1..])
  }

  lemma {:induction false} ForwardedAppend(q: seq<MixerCommand>, x: MixerCommand)
    ensures Forwarded(q + [x]) == Forwarded(q) + (if x.Forward? then [x.what] else [])
  {
    if q == [] {
      assert q + [x] == [x];
    } else {
      ForwardedAppend(q[1..], x);
      var q1 := q + [x];
      assert q1[0] == q[0] && q1[1..] == q[1..] + [x];
      assert Forwarded(q1) == (if q[0].Forward? then [q[0].what] else []) + Forwarded(q[1..] + [x]);
    }
  }

  predicate AllForward(q: seq<MixerCommand>) { forall i | 0 <= i < |q| :: q[i].Forward? }

  /** Forwarded commands and then c's removal. */
  predicate EndsWithRemove(q: seq<MixerCommand>, c: ChannelId) {
    q != [] && (q == [Remove(c)] || (q[0].Forward? && EndsWithRemove(q[1..], c)))
  }

  lemma {:induction false} RemoveAppend(q: seq<MixerCommand>, c: ChannelId)
    requires AllForward(q)
    ensures EndsWithRemove(q + [Remove(c)], c)
  {
    if q != [] {
      RemoveAppend(q[1..], c);
      assert (q + [Remove(c)])[1..] == q[1..] + [Remove(c)];
    }
  }

  predicate Quiet(mx: Mixer, c: ChannelId) { c !in mx.members && About(mx.queue, c) == [] }

  predicate QuietBut(mixers: map<MixId, Mixer>, c: ChannelId, m: MixId) {
    forall n <- mixers :: n != m ==> Quiet(mixers[n], c)
  }

  predicate QuietAll(mixers: map<MixId, Mixer>, c: ChannelId) {
    forall n <- mixers :: Quiet(mixers[n], c)
  }

  predicate TokenOk(t: Token, c: ChannelId, applied: seq<nat>) { t.id == c && t.OnTime() && t.applied == applied }

  /** Where c's state is in each phase, and that the commands it has yet to see are on their way to it in order. */
  predicate PhaseOk(mixers: map<MixId, Mixer>, c: ChannelId, ch: Channel) {
    var seen := Ordinaries(ch.done);
    match ch.phase
    case Local(t) => ch.reply.NoReply? && QuietAll(mixers, c) && TokenOk(t, c, seen)
    case AwaitAdd(m) =>
      && m in mixers && mixers[m].running && QuietBut(mixers, c, m)
      && (var q := About(mixers[m].queue, c); var ms := mixers[m].members;
          if ch.reply.NoReply? then c !in ms && |q| == 1 && q[0].Add? && TokenOk(q[0].token, c, seen)
          else ch.reply == Added(true) && q == [] && c in ms && TokenOk(ms[c], c, seen))
    case Mixed(m) =>
      && m in mixers && mixers[m].running && QuietBut(mixers, c, m) && ch.reply.NoReply?
      && (var q := About(mixers[m].queue, c); var ms := mixers[m].members;
          AllForward(q) && c in ms && ms[c].id == c && ms[c].OnTime() && ms[c].applied + Forwarded(q) == seen)
    case AwaitRemove(m, _) =>
      && m in mixers && QuietBut(mixers, c, m)
      && (var q := About(mixers[m].queue, c); var ms := mixers[m].members;
          if ch.reply.NoReply? then
            && mixers[m].running && EndsWithRemove(q, c)
            && c in ms && ms[c].id == c && ms[c].OnTime() && ms[c].applied + Forwarded(q) == seen
          else Quiet(mixers[m], c) && ch.reply.Removed? && ch.reply.token.Some? && TokenOk(ch.reply.token.value, c, seen))
    case Closed(t) => ch.reply.NoReply? && QuietAll(mixers, c) && t.Some? && TokenOk(t.value, c, seen)
  }

  predicate Over(ch: Channel) { ch.phase.Closed? || (ch.phase.AwaitRemove? && ch.phase.closing) }

  /** Close is the last command an actor receives, and nothing else closes it before time; one Close event at the end. */
  predicate HistoryOk(ch: Channel) {
    && (forall i | 0 <= i < |ch.done| - 1 :: !ch.done[i].Close?)
    && (!Over(ch) && ch.done != [] ==> !ch.done[|ch.done| - 1].Close?)
    && ch.closes == (if ch.phase.Closed? then 1 else 0)
  }

  /** The group an actor is in, or on its way into. */
  function Group(ph: Phase): Option<MixId> {
    match ph case AwaitAdd(m) => Some(m) case Mixed(m) => Some(m) case _ => None
  }

  /** The group the actor will be in once it has worked through the queue. */
  function Fold(g: Option<MixId>, cmds: seq<Command>): Option<MixId>
    decreases |cmds|
  {
    if cmds == [] then g
    else match cmds[0]
         case EnterMix(m) => Fold(if g.None? then Some(m) else g, cmds[1..])
         case LeaveMix => Fold(None, cmds[1..])
         case _ => Fold(g, cmds[1..])
  }

  /** On the way through the queue no EnterMix names another group than the one the actor is then in. */
  predicate NoForeignGroup(g: Option<MixId>, cmds: seq<Command>)
    decreases |cmds|
  {
    cmds == [] ||
    match cmds[0]
    case EnterMix(m) => (g.None? || g.value == m) && NoForeignGroup(Some(m), cmds[1..])
    case LeaveMix => NoForeignGroup(None, cmds[1..])
    case _ => NoForeignGroup(g, cmds[1..])
  }

  lemma {:induction false} FoldAppend(g: Option<MixId>, cmds: seq<Command>, cmd: Command)
    requires NoForeignGroup(g, cmds)
    requires cmd.EnterMix? ==> Fold(g, cmds).None? || Fold(g, cmds).value == cmd.mix
    ensures NoForeignGroup(g, cmds + [cmd])
    ensures Fold(g, cmds + [cmd])
         == match cmd case EnterMix(m) => Some(m) case LeaveMix => None case _ => Fold(g, cmds)
    decreases |cmds|
  {
    if cmds == [] {
      assert cmds + [cmd] == [cmd];
    } else {
      assert (cmds + [cmd])[1..] == cmds[1..] + [cmd];
      var g1 := match cmds[0] case EnterMix(m) => Some(m) case LeaveMix => None case _ => g;
      FoldAppend(g1, cmds[1..], cmd);
    }
  }

  predicate SlotOk(ch: Channel) {
    !Over(ch) ==> NoForeignGroup(Group(ch.phase), ch.queue) && Fold(Group(ch.phase), ch.queue) == ch.slot
  }

  predicate ChannelOk(mixers: map<MixId, Mixer>, c: ChannelId, ch: Channel) {
    && PhaseOk(mixers, c, ch) && HistoryOk(ch) && SlotOk(ch)
    && (ch.slot.Some? ==> ch.slot.value in mixers)
  }

  predicate MixerOk(channels: set<ChannelId>, mx: Mixer) {
    && (!mx.running ==> mx.queue == [] && mx.members == map[])
    && (forall x <- mx.queue :: x.Id() in channels)
    && mx.members.Keys <= channels
  }

  predicate MixersOk(channels: set<ChannelId>, mixers: map<MixId, Mixer>, next: MixId) {
    forall m <- mixers :: m < next && MixerOk(channels, mixers[m])
  }

  ghost predicate Ok(s: System) {
    && (forall c <- s.channels :: ChannelOk(s.mixers, c, s.channels[c]))
    && MixersOk(s.channels.Keys, s.mixers, s.nextMix)
  }

  lemma ChannelIsOk(s: System, c: ChannelId)
    requires Ok(s) && c in s.channels
    ensures ChannelOk(s.mixers, c, s.channels[c]) && MixersOk(s.channels.Keys, s.mixers, s.nextMix)
  {
  }

  lemma InitOk(ids: set<ChannelId>)
    ensures Ok(Init(ids))
  {
  }

  // ---- Frames: a step about one channel leaves the others' view of every mixer alone ----

  predicate SameMixer(mx: Mixer, mx': Mixer, c: ChannelId) {
    || (Quiet(mx, c) && Quiet(mx', c))
    || (&& mx'.running == mx.running && About(mx'.queue, c) == About(mx.queue, c)
        && (c in mx'.members <==> c in mx.members) && (c in mx.members ==> mx'.members[c] == mx.members[c]))
  }

  predicate SameView(mixers: map<MixId, Mixer>, mixers': map<MixId, Mixer>, c: ChannelId) {
    && mixers.Keys <= mixers'.Keys
    && (forall n <- mixers' :: if n in mixers then SameMixer(mixers[n], mixers'[n], c) else Quiet(mixers'[n], c))
  }

  lemma Frame(mixers: map<MixId, Mixer>, mixers': map<MixId, Mixer>, c: ChannelId, ch: Channel)
    requires ChannelOk(mixers, c, ch) && SameView(mixers, mixers', c)
    ensures ChannelOk(mixers', c, ch)
  {
  }

  /** A step that touches one channel, and the mixers only as far as that channel is concerned. */
  lemma OneChannel(s: System, s': System, c: ChannelId)
    requires Ok(s) && c in s.channels && c in s'.channels && s'.channels == s.channels[c := s'.channels[c]]
    requires forall d <- s.channels :: d != c ==> SameView(s.mixers, s'.mixers, d)
    requires ChannelOk(s'.mixers, c, s'.channels[c])
    requires MixersOk(s.channels.Keys, s'.mixers, s'.nextMix)
    ensures Ok(s')
  {
    hide ChannelOk, SameView, MixersOk;
    assert s'.channels.Keys == s.channels.Keys;
    forall d <- s'.channels ensures ChannelOk(s'.mixers, d, s'.channels[d]) {
      if d != c {
        Frame(s.mixers, s'.mixers, d, s.channels[d]);
      }
    }
  }

  /** A step that changes nothing but one channel. */
  lemma OnlyChannel(s: System, c: ChannelId, ch1: Channel)
    requires Ok(s) && c in s.channels && ChannelOk(s.mixers, c, ch1)
    ensures Ok(Put(s, c, ch1))
  {
    hide ChannelOk, MixersOk;
    assert Put(s, c, ch1).channels.Keys == s.channels.Keys;
  }

  // ---- JavaScript steps ----

  /** What a call on the handle may do to the slot along with the command it sends. */
  predicate Matches(ch: Channel, cmd: Command, slot: Option<MixId>) {
    match cmd
    case EnterMix(m) => slot == Some(m) && (ch.slot.None? || ch.slot == slot) && Accepts(ch)
    case LeaveMix => slot.None? && Accepts(ch)
    case _ => slot == ch.slot
  }

  lemma EnqueueOk(mixers: map<MixId, Mixer>, c: ChannelId, ch: Channel, cmd: Command, slot: Option<MixId>)
    requires ChannelOk(mixers, c, ch) && Matches(ch, cmd, slot) && (slot.Some? ==> slot.value in mixers)
    ensures ChannelOk(mixers, c, Enqueue(ch.(slot := slot), cmd))
  {
    var ch1 := Enqueue(ch.(slot := slot), cmd);
    assert PhaseOk(mixers, c, ch1) by {
      hide About, Ordinaries, Forwarded;
    }
    if !Over(ch) && |ch.queue| < DEPTH {
      FoldAppend(Group(ch.phase), ch.queue, cmd);
    }
  }

  lemma SendOk(s: System, c: ChannelId, cmd: Command, slot: Option<MixId>)
    requires Ok(s) && c in s.channels && Matches(s.channels[c], cmd, slot) && (slot.Some? ==> slot.value in s.mixers)
    ensures Ok(Put(s, c, Enqueue(s.channels[c].(slot := slot), cmd)))
  {
    EnqueueOk(s.mixers, c, s.channels[c], cmd, slot);
    OnlyChannel(s, c, Enqueue(s.channels[c].(slot := slot), cmd));
  }

  lemma SpawnOk(s: System)
    requires Ok(s)
    ensures Ok(s.(mixers := s.mixers[s.nextMix := Mixer(true, [], map[])], nextMix := s.nextMix + 1))
  {
    var s1 := s.(mixers := s.mixers[s.nextMix := Mixer(true, [], map[])], nextMix := s.nextMix + 1);
    forall d <- s1.channels ensures ChannelOk(s1.mixers, d, s1.channels[d]) {
      Frame(s.mixers, s1.mixers, d, s.channels[d]);
    }
  }

  lemma EnterOk(s: System, a: ChannelId, b: ChannelId, m: MixId)
    requires Ok(s) && a in s.channels && b in s.channels && a != b && m in s.mixers
    requires Accepts(s.channels[a]) && Accepts(s.channels[b])
    requires s.channels[a].slot.None? || s.channels[a].slot.value == m
    requires s.channels[b].slot.None? || s.channels[b].slot.value == m
    ensures Ok(Enter(s, a, b, m))
  {
    SendOk(s, a, EnterMix(m), Some(m));
    var s1 := Put(s, a, Enqueue(s.channels[a].(slot := Some(m)), EnterMix(m)));
    SendOk(s1, b, EnterMix(m), Some(m));
    assert Enter(s, a, b, m) == Put(s1, b, Enqueue(s1.channels[b].(slot := Some(m)), EnterMix(m)));
  }

  lemma MixCallOk(s: System, a: ChannelId, b: ChannelId)
    requires Ok(s) && Enabled(s, JsMix(a, b)) && Clean(s, JsMix(a, b))
    ensures Ok(MixCall(s, a, b))
  {
    if a != b {
      match (s.channels[a].slot, s.channels[b].slot) {
        case (None, None) =>
          SpawnOk(s);
          EnterOk(s.(mixers := s.mixers[s.nextMix := Mixer(true, [], map[])], nextMix := s.nextMix + 1), a, b, s.nextMix);
        case (Some(m), None) => EnterOk(s, a, b, m);
        case (None, Some(m)) => EnterOk(s, a, b, m);
        case (Some(m), Some(n)) => if m == n { EnterOk(s, a, b, m); }
      }
    }
  }

  // ---- Actor steps ----

  lemma OrdinariesAppend(cmds: seq<Command>, cmd: Command)
    ensures Ordinaries(cmds + [cmd]) == Ordinaries(cmds) + (if cmd.Ordinary? then [cmd.what] else [])
  {
    assert (cmds + [cmd])[..|cmds|] == cmds;
  }

  /** Posting to mixer m about c is invisible to every other channel. */
  lemma PostView(s: System, m: MixId, cmd: MixerCommand, d: ChannelId)
    requires m in s.mixers && cmd.Id() != d
    ensures SameView(s.mixers, Post(s, m, cmd).mixers, d)
  {
    AboutAppend(s.mixers[m].queue, cmd, d);
  }

  lemma PostMixers(s: System, m: MixId, cmd: MixerCommand)
    requires MixersOk(s.channels.Keys, s.mixers, s.nextMix) && Alive(s, m) && cmd.Id() in s.channels
    ensures MixersOk(s.channels.Keys, Post(s, m, cmd).mixers, s.nextMix)
  {
  }

  /** The head of the queue taken off: history and slot after the actor has acted on it. */
  lemma TakenOff(ch: Channel, ph: Phase)
    requires HistoryOk(ch) && SlotOk(ch) && ch.queue != [] && (ch.phase.Local? || ch.phase.Mixed?)
    requires var g := Group(ch.phase);
             match ch.queue[0]
             case EnterMix(m) => Group(ph) == (if g.None? then Some(m) else g) && !Over(ch.(phase := ph))
             case LeaveMix => Group(ph) == None && !Over(ch.(phase := ph))
             case Ordinary(_) => Group(ph) == g && !Over(ch.(phase := ph))
             case Close => Over(ch.(phase := ph))
    ensures var ch1 := ch.(queue := ch.queue[1..], done := ch.done + [ch.queue[0]], phase := ph,
                           closes := ch.closes + if ph.Closed? then 1 else 0);
            HistoryOk(ch1) && SlotOk(ch1)
  {
    assert forall i | 0 <= i < |ch.done| :: !ch.done[i].Close?;
  }

  /** The state sent to a running mixer. */
  lemma AddPhase(mixers: map<MixId, Mixer>, m: MixId, c: ChannelId, ch: Channel, ch1: Channel)
    requires PhaseOk(mixers, c, ch) && ch.phase.Local? && m in mixers && mixers[m].running
    requires ch1.phase == AwaitAdd(m) && ch1.reply == ch.reply && ch1.done == ch.done + [EnterMix(m)]
    ensures PhaseOk(mixers[m := mixers[m].(queue := mixers[m].queue + [Add(ch.phase.token)])], c, ch1)
  {
    OrdinariesAppend(ch.done, EnterMix(m));
    AboutAppend(mixers[m].queue, Add(ch.phase.token), c);
    hide About, Ordinaries, Forwarded, Token.OnTime;
  }

  /** An actor in Local mode: the command acts on the state it owns, or sends that state to a mixer. */
  lemma ReceiveLocalPhase(s: System, c: ChannelId)
    requires Enabled(s, ActorReceive(c)) && Clean(s, ActorReceive(c)) && s.channels[c].phase.Local?
    requires PhaseOk(s.mixers, c, s.channels[c])
    ensures PhaseOk(Receive(s, c).mixers, c, Receive(s, c).channels[c])
  {
    var was, ch1 := s.channels[c], Receive(s, c).channels[c];
    var cmd := was.queue[0];
    if cmd.EnterMix? {
      AddPhase(s.mixers, cmd.mix, c, was, ch1);
      hide PhaseOk;
    } else {
      OrdinariesAppend(was.done, cmd);
      hide About, Ordinaries, Forwarded;
    }
  }

  /** A command sent after the state goes to the end of what concerns this channel in the mixer's queue. */
  lemma ForwardPhase(mixers: map<MixId, Mixer>, m: MixId, c: ChannelId, ch: Channel, ch1: Channel, w: nat)
    requires PhaseOk(mixers, c, ch) && ch.phase == Mixed(m)
    requires ch1.phase == ch.phase && ch1.reply == ch.reply && ch1.done == ch.done + [Ordinary(w)]
    ensures PhaseOk(mixers[m := mixers[m].(queue := mixers[m].queue + [Forward(c, w)])], c, ch1)
  {
    var q := About(mixers[m].queue, c);
    AboutAppend(mixers[m].queue, Forward(c, w), c);
    ForwardedAppend(q, Forward(c, w));
    OrdinariesAppend(ch.done, Ordinary(w));
    hide About, Forwarded, Ordinaries;
    assert mixers[m].members[c].applied + (Forwarded(q) + [w]) == Ordinaries(ch.done) + [w];
  }

  lemma RemovePhase(mixers: map<MixId, Mixer>, m: MixId, c: ChannelId, ch: Channel, ch1: Channel, cmd: Command, closing: bool)
    requires PhaseOk(mixers, c, ch) && ch.phase == Mixed(m) && !cmd.Ordinary?
    requires ch1.phase == AwaitRemove(m, closing) && ch1.reply == ch.reply && ch1.done == ch.done + [cmd]
    ensures PhaseOk(mixers[m := mixers[m].(queue := mixers[m].queue + [Remove(c)])], c, ch1)
  {
    var q := About(mixers[m].queue, c);
    AboutAppend(mixers[m].queue, Remove(c), c);
    ForwardedAppend(q, Remove(c));
    OrdinariesAppend(ch.done, cmd);
    RemoveAppend(q, c);
    hide About, Forwarded, Ordinaries, EndsWithRemove, AllForward;
  }

  /** An actor in Mixed mode: the command follows the state into the mixer's queue. */
  lemma ReceiveMixedPhase(s: System, c: ChannelId)
    requires Enabled(s, ActorReceive(c)) && s.channels[c].phase.Mixed?
    requires PhaseOk(s.mixers, c, s.channels[c])
    ensures PhaseOk(Receive(s, c).mixers, c, Receive(s, c).channels[c])
  {
    var was, ch1 := s.channels[c], Receive(s, c).channels[c];
    var cmd, m := was.queue[0], was.phase.mix;
    assert Alive(s, m);
    if cmd.EnterMix? {
      OrdinariesAppend(was.done, cmd);
    } else if cmd.Ordinary? {
      ForwardPhase(s.mixers, m, c, was, ch1, cmd.what);
    } else {
      RemovePhase(s.mixers, m, c, was, ch1, cmd, cmd.Close?);
    }
  }

  /** The message an actor's next command makes it send, and to which mixer. */
  function Posted(s: System, c: ChannelId): Option<(MixId, MixerCommand)>
    requires Enabled(s, ActorReceive(c))
  {
    match (s.channels[c].phase, s.channels[c].queue[0])
    case (Local(t), EnterMix(m)) => if Alive(s, m) then Some((m, Add(t))) else None
    case (Mixed(m), Ordinary(w)) => if Alive(s, m) then Some((m, Forward(c, w))) else None
    case (Mixed(m), LeaveMix) => if Alive(s, m) then Some((m, Remove(c))) else None
    case (Mixed(m), Close) => if Alive(s, m) then Some((m, Remove(c))) else None
    case _ => None
  }

  lemma ReceiveIsPost(s: System, c: ChannelId)
    requires Enabled(s, ActorReceive(c)) && (s.channels[c].phase.Local? ==> s.channels[c].phase.token.id == c)
    ensures var s1 := Receive(s, c);
            && c in s1.channels && s1.channels == s.channels[c := s1.channels[c]] && s1.nextMix == s.nextMix
            && s1.mixers == match Posted(s, c) case Some((m, x)) => Post(s, m, x).mixers case None => s.mixers
    ensures Posted(s, c).Some? ==> Posted(s, c).value.1.Id() == c
  {
  }

  lemma ReceiveOk(s: System, c: ChannelId)
    requires Ok(s) && Enabled(s, ActorReceive(c)) && Clean(s, ActorReceive(c))
    ensures Ok(Receive(s, c))
  {
    hide Ok, HistoryOk, SlotOk, Receive, Fold, About, MixersOk, Ordinaries, Forwarded, NoForeignGroup, Token.OnTime;
    ChannelIsOk(s, c);
    var s1, was := Receive(s, c), s.channels[c];
    ReceiveIsPost(s, c);
    if was.phase.Local? { ReceiveLocalPhase(s, c); } else { ReceiveMixedPhase(s, c); }
    ReceiveHistory(s, c);
    hide PhaseOk;
    match Posted(s, c) {
      case Some((m, x)) =>
        PostMixers(s, m, x);
        forall d <- s.channels | d != c ensures SameView(s.mixers, s1.mixers, d) {
          PostView(s, m, x, d);
        }
      case None =>
    }
    OneChannel(s, s1, c);
  }

  lemma ReceiveHistory(s: System, c: ChannelId)
    requires Ok(s) && Enabled(s, ActorReceive(c)) && Clean(s, ActorReceive(c))
    ensures var ch := Receive(s, c).channels[c]; HistoryOk(ch) && SlotOk(ch) && ch.slot == s.channels[c].slot
  {
    hide Ok, HistoryOk, SlotOk, Post, MixersOk, Token.OnTime, About, Fold, Ordinaries, Forwarded, NoForeignGroup;
    ChannelIsOk(s, c);
    var ch, ph := s.channels[c], Receive(s, c).channels[c].phase;
    ReceivePhase(s, c);
    hide PhaseOk, Clean, Enabled;
    TakenOff(ch, ph);
    hide Receive, Group, Over;
  }

  /** What receiving the head of the queue does to the channel. */
  lemma ReceivePhase(s: System, c: ChannelId)
    requires Enabled(s, ActorReceive(c)) && Clean(s, ActorReceive(c)) && ChannelOk(s.mixers, c, s.channels[c])
    ensures var ch, ch1 := s.channels[c], Receive(s, c).channels[c];
            var g, ph := Group(ch.phase), ch1.phase;
            && (ch.phase.Local? || ch.phase.Mixed?)
            && (match ch.queue[0]
                case EnterMix(m) => Group(ph) == (if g.None? then Some(m) else g) && !Over(ch.(phase := ph))
                case LeaveMix => Group(ph) == None && !Over(ch.(phase := ph))
                case Ordinary(_) => Group(ph) == g && !Over(ch.(phase := ph))
                case Close => Over(ch.(phase := ph)))
            && ch1 == ch.(queue := ch.queue[1..], done := ch.done + [ch.queue[0]], phase := ph,
                          closes := ch.closes + if ph.Closed? then 1 else 0)
  {
    hide HistoryOk, SlotOk, About, Fold, Ordinaries, Forwarded, NoForeignGroup, Token.OnTime;
  }

  /** The mixer's answer: the state is now a member's, or back with the actor. */
  lemma ReplyPhase(mixers: map<MixId, Mixer>, c: ChannelId, ch: Channel, ph: Phase)
    requires PhaseOk(mixers, c, ch) && !ch.reply.NoReply? && (ch.phase.AwaitAdd? || ch.phase.AwaitRemove?)
    requires match ch.phase
             case AwaitAdd(m) => ph == Mixed(m)
             case AwaitRemove(m, closing) =>
               ch.reply.Removed? && ch.reply.token.Some?
               && ph == (if closing then Closed(ch.reply.token) else Local(ch.reply.token.value))
             case _ => false
    ensures PhaseOk(mixers, c, ch.(reply := NoReply, phase := ph, closes := ch.closes + if ph.Closed? then 1 else 0))
  {
    if ch.phase.AwaitAdd? {
      var t := mixers[ch.phase.mix].members[c];
      assert t.applied + [] == t.applied;
      assert Forwarded([]) == [];
    }
    hide About, Ordinaries, Forwarded, Token.OnTime;
  }

  lemma ReplyOk(s: System, c: ChannelId)
    requires Ok(s) && Enabled(s, ActorReply(c))
    ensures Ok(TakeReply(s, c))
  {
    var ch, ph := s.channels[c], TakeReply(s, c).channels[c].phase;
    var ch1 := ch.(reply := NoReply, phase := ph, closes := ch.closes + if ph.Closed? then 1 else 0);
    assert c in s.channels && !ch.reply.NoReply? && (ch.phase.AwaitAdd? || ch.phase.AwaitRemove?);
    hide *;
    ChannelIsOk(s, c);
    ChannelPhase(s, c);
    ReplyForm(s, c);
    ReplyPhase(s.mixers, c, ch, ph);
    ReplyHistory(s.mixers, c, ch, ph);
    OnlyChannel(s, c, ch1);
  }

  /** What an answer does to the waiting actor. */
  lemma ReplyForm(s: System, c: ChannelId)
    requires c in s.channels && PhaseOk(s.mixers, c, s.channels[c])
    requires var ch := s.channels[c]; !ch.reply.NoReply? && (ch.phase.AwaitAdd? || ch.phase.AwaitRemove?)
    ensures var ch := s.channels[c];
            c in TakeReply(s, c).channels && var ph := TakeReply(s, c).channels[c].phase;
            && (match ch.phase
                case AwaitAdd(m) => ph == Mixed(m)
                case AwaitRemove(m, closing) =>
                  ch.reply.Removed? && ch.reply.token.Some?
                  && ph == (if closing then Closed(ch.reply.token) else Local(ch.reply.token.value))
                case _ => false)
            && TakeReply(s, c) == Put(s, c, ch.(reply := NoReply, phase := ph, closes := ch.closes + if ph.Closed? then 1 else 0))
  {
    hide About, Ordinaries, Forwarded, QuietBut, EndsWithRemove, TokenOk;
  }

  lemma ReplyHistory(mixers: map<MixId, Mixer>, c: ChannelId, ch: Channel, ph: Phase)
    requires ChannelOk(mixers, c, ch) && (ch.phase.AwaitAdd? || ch.phase.AwaitRemove?)
    requires match ch.phase
             case AwaitAdd(m) => ph == Mixed(m)
             case AwaitRemove(m, closing) => if closing then ph.Closed? else ph.Local?
             case _ => false
    requires PhaseOk(mixers, c, ch.(reply := NoReply, phase := ph, closes := ch.closes + if ph.Closed? then 1 else 0))
    ensures ChannelOk(mixers, c, ch.(reply := NoReply, phase := ph, closes := ch.closes + if ph.Closed? then 1 else 0))
  {
    hide PhaseOk, Fold, NoForeignGroup;
  }

  lemma ActorTickOk(s: System, c: ChannelId, idle: bool)
    requires Ok(s) && Enabled(s, ActorTick(c, idle))
    ensures Ok(Apply(s, ActorTick(c, idle)))
  {
    ChannelIsOk(s, c);
    var t := s.channels[c].phase.token;
    TickOnTime(t);
    hide Ok, About, Ordinaries, Forwarded, MixersOk, Fold, NoForeignGroup, Token.OnTime;
    OnlyChannel(s, c, if idle then s.channels[c].(phase := Closed(Some(t.Tick())), closes := s.channels[c].closes + 1)
                      else s.channels[c].(phase := Local(t.Tick())));
  }

  // ---- Mixer steps ----

  /** Who is waiting for, or living off, a message that is the first about its channel in a mixer's queue. */
  lemma HeadPhase(mixers: map<MixId, Mixer>, m: MixId, c: ChannelId, ch: Channel)
    requires PhaseOk(mixers, c, ch) && m in mixers && About(mixers[m].queue, c) != []
    ensures ch.reply.NoReply? && mixers[m].running
    ensures var q := About(mixers[m].queue, c);
            && (q[0].Add? ==> ch.phase == AwaitAdd(m) && q == [q[0]] && TokenOk(q[0].token, c, Ordinaries(ch.done)))
            && (q[0].Remove? ==> ch.phase.AwaitRemove? && ch.phase.mix == m && q == [Remove(c)])
            && (q[0].Forward? ==> ch.phase == Mixed(m) || (ch.phase.AwaitRemove? && ch.phase.mix == m))
            && (!q[0].Add? ==> c in mixers[m].members)
  {
    hide About, Ordinaries, Forwarded, Token.OnTime;
  }

  lemma HeadIsFirst(s: System, m: MixId)
    requires Ok(s) && m in s.mixers && s.mixers[m].queue != []
    ensures var q := s.mixers[m].queue;
            && q[0].Id() in s.channels
            && ChannelOk(s.mixers, q[0].Id(), s.channels[q[0].Id()])
            && About(q, q[0].Id()) == [q[0]] + About(q[1..], q[0].Id())
  {
    hide ChannelOk;
    assert s.mixers[m].queue[0] in s.mixers[m].queue;
  }

  lemma HeadMixers(s: System, m: MixId, mx: Mixer, c: ChannelId)
    requires MixersOk(s.channels.Keys, s.mixers, s.nextMix) && m in s.mixers && s.mixers[m].queue != [] && c in s.channels
    requires mx.running && mx.queue == s.mixers[m].queue[1..] && mx.members - {c} == s.mixers[m].members - {c}
    ensures MixersOk(s.channels.Keys, s.mixers[m := mx], s.nextMix)
  {
    assert forall d <- mx.members :: d == c || d in mx.members - {c};
  }

  lemma HeadView(mixers: map<MixId, Mixer>, m: MixId, mx: Mixer, c: ChannelId, d: ChannelId)
    requires m in mixers && mixers[m].queue != [] && mixers[m].queue[0].Id() == c != d
    requires mx.running == mixers[m].running
    requires mx.queue == mixers[m].queue[1..] && mx.members - {c} == mixers[m].members - {c}
    ensures SameView(mixers, mixers[m := mx], d)
  {
    assert d in mx.members <==> d in mx.members - {c};
    assert d in mixers[m].members <==> d in mixers[m].members - {c};
    assert d in mx.members ==> mx.members[d] == (mx.members - {c})[d];
    assert SameMixer(mixers[m], mx, d);
    hide About;
  }

  /** The head of mixer m's queue taken off, and the state it is about changed or removed: invisible to the others. */
  lemma HeadStep(s: System, m: MixId, mx: Mixer, c: ChannelId, ch1: Channel)
    requires Ok(s) && Alive(s, m) && s.mixers[m].queue != [] && c in s.channels && s.mixers[m].queue[0].Id() == c
    requires mx.running && mx.queue == s.mixers[m].queue[1..] && mx.members - {c} == s.mixers[m].members - {c}
    requires ChannelOk(s.mixers[m := mx], c, ch1)
    ensures Ok(Put(s.(mixers := s.mixers[m := mx]), c, ch1))
  {
    hide ChannelOk, MixersOk, SameView;
    HeadMixers(s, m, mx, c);
    forall d <- s.channels | d != c ensures SameView(s.mixers, s.mixers[m := mx], d) {
      HeadView(s.mixers, m, mx, c, d);
    }
    OneChannel(s, Put(s.(mixers := s.mixers[m := mx]), c, ch1), c);
  }

  lemma AddedPhase(mixers: map<MixId, Mixer>, m: MixId, c: ChannelId, ch: Channel, mx: Mixer, t: Token)
    requires PhaseOk(mixers, c, ch) && ch.phase == AwaitAdd(m) && TokenOk(t, c, Ordinaries(ch.done))
    requires mx.running && About(mx.queue, c) == [] && mx.members == mixers[m].members[c := t]
    ensures PhaseOk(mixers[m := mx], c, ch.(reply := Added(true)))
  {
    hide About, Ordinaries, Forwarded;
  }

  lemma AddStepOk(s: System, m: MixId)
    requires Ok(s) && Alive(s, m) && s.mixers[m].queue != [] && s.mixers[m].queue[0].Add?
    ensures Ok(MixerStep(s, m))
  {
    HeadIsFirst(s, m);
    var t := s.mixers[m].queue[0].token;
    var c := t.id;
    HeadPhase(s.mixers, m, c, s.channels[c]);
    var mx := s.mixers[m].(queue := s.mixers[m].queue[1..], members := s.mixers[m].members[c := t]);
    var ch1 := s.channels[c].(reply := Added(true));
    AddedPhase(s.mixers, m, c, s.channels[c], mx, t);
    hide Ok, PhaseOk, Ordinaries, Forwarded, Fold, NoForeignGroup, About, Token.OnTime;
    assert ChannelOk(s.mixers[m := mx], c, ch1);
    assert mx.members - {c} == s.mixers[m].members - {c};
    HeadStep(s, m, mx, c, ch1);
  }

  /** A forwarded command moves from the queue to the state it is for. */
  lemma ForwardedPhase(mixers: map<MixId, Mixer>, m: MixId, c: ChannelId, ch: Channel, mx: Mixer, x: MixerCommand)
    requires PhaseOk(mixers, c, ch) && m in mixers && x.Forward? && mixers[m].running && mx.running
    requires About(mixers[m].queue, c) == [x] + About(mx.queue, c) && c in mixers[m].members
    requires mx.members == mixers[m].members[c := mixers[m].members[c].Apply(x.what)]
    ensures PhaseOk(mixers[m := mx], c, ch)
  {
    HeadPhase(mixers, m, c, ch);
    var q, t := About(mixers[m].queue, c), mixers[m].members[c];
    assert q[1..] == About(mx.queue, c);
    assert Forwarded(q) == [x.what] + Forwarded(q[1..]);
    assert t.applied + Forwarded(q) == (t.applied + [x.what]) + Forwarded(q[1..]);
    assert AllForward(q) ==> AllForward(q[1..]);
    hide About, Forwarded, Ordinaries, AllForward;
    assert mx.members[c].OnTime() == t.OnTime();
  }

  lemma ForwardStepOk(s: System, m: MixId)
    requires Ok(s) && Alive(s, m) && s.mixers[m].queue != [] && s.mixers[m].queue[0].Forward?
    ensures Ok(MixerStep(s, m))
  {
    HeadIsFirst(s, m);
    var mx0, x, c := s.mixers[m], s.mixers[m].queue[0], s.mixers[m].queue[0].fid;
    HeadPhase(s.mixers, m, c, s.channels[c]);
    var mx := mx0.(queue := mx0.queue[1..], members := mx0.members[c := mx0.members[c].Apply(x.what)]);
    ForwardedPhase(s.mixers, m, c, s.channels[c], mx, x);
    hide Ok, PhaseOk, About, HistoryOk, SlotOk;
    assert mx.members - {c} == mx0.members - {c};
    assert s.channels[c := s.channels[c]] == s.channels;
    HeadStep(s, m, mx, c, s.channels[c]);
  }

  lemma QueuedChannelIsOk(s: System, m: MixId, x: MixerCommand)
    requires Ok(s) && m in s.mixers && x in s.mixers[m].queue
    ensures x.Id() in s.channels && ChannelOk(s.mixers, x.Id(), s.channels[x.Id()])
  {
    hide ChannelOk;
  }

  /** A mixer that stops because its last member leaves has nothing left to receive. */
  lemma LastRemoveLeavesNothing(s: System, m: MixId)
    requires Ok(s) && Alive(s, m) && s.mixers[m].queue != [] && s.mixers[m].queue[0].Remove?
    requires s.mixers[m].members - {s.mixers[m].queue[0].rid} == map[]
    requires forall x <- s.mixers[m].queue[1..] :: !x.Add?
    ensures s.mixers[m].queue[1..] == []
  {
    HeadIsFirst(s, m);
    var q, c := s.mixers[m].queue, s.mixers[m].queue[0].rid;
    HeadPhase(s.mixers, m, c, s.channels[c]);
    assert About(q[1..], c) == [];
    if q[1..] != [] {
      var x := q[1];
      assert x in q[1..];
      AboutIn(q[1..], x);
      assert x.Id() !in s.mixers[m].members - {c};
      hide Ok, ChannelOk;
      QueuedChannelIsOk(s, m, x);
      AboutFirst(q[1..], x.Id());
      assert About(q, x.Id()) == About(q[1..], x.Id());
      ChannelPhase(s, x.Id());
      HeadPhase(s.mixers, m, x.Id(), s.channels[x.Id()]);
    }
  }

  lemma ChannelPhase(s: System, c: ChannelId)
    requires c in s.channels && ChannelOk(s.mixers, c, s.channels[c])
    ensures PhaseOk(s.mixers, c, s.channels[c])
  {
  }

  lemma AboutFirst(q: seq<MixerCommand>, c: ChannelId)
    requires About(q, c) != []
    ensures About(q, c)[0] in q
    decreases |q|
  {
    if q[0].Id() != c { AboutFirst(q[1..], c); }
  }

  lemma RemovedPhase(mixers: map<MixId, Mixer>, m: MixId, c: ChannelId, ch: Channel, mx: Mixer)
    requires PhaseOk(mixers, c, ch) && ch.phase.AwaitRemove? && ch.phase.mix == m && ch.reply.NoReply?
    requires About(mixers[m].queue, c) == [Remove(c)] && About(mx.queue, c) == []
    requires mx.members == mixers[m].members - {c} && c in mixers[m].members
    ensures PhaseOk(mixers[m := mx], c, ch.(reply := Removed(Some(mixers[m].members[c]))))
  {
    assert Forwarded([Remove(c)]) == [];
    assert mixers[m].members[c].applied + [] == mixers[m].members[c].applied;
    hide About, Ordinaries, Forwarded;
  }

  /** The channel at the head of the mixer's queue is a member, and its state is now in its reply. */
  lemma RemoveHead(s: System, m: MixId)
    requires Ok(s) && Alive(s, m) && s.mixers[m].queue != [] && s.mixers[m].queue[0].Remove?
    ensures var mx0, c := s.mixers[m], s.mixers[m].queue[0].rid;
            && c in s.channels && c in mx0.members
            && ChannelOk(s.mixers[m := mx0.(queue := mx0.queue[1..], members := mx0.members - {c})], c,
                         s.channels[c].(reply := Removed(Some(mx0.members[c]))))
  {
    HeadIsFirst(s, m);
    hide Ok, About, Fold, NoForeignGroup, Ordinaries;
    var mx0, c := s.mixers[m], s.mixers[m].queue[0].rid;
    HeadPhase(s.mixers, m, c, s.channels[c]);
    var mx := mx0.(queue := mx0.queue[1..], members := mx0.members - {c});
    assert [mx0.queue[0]] + About(mx.queue, c) == [Remove(c)];
    assert |About(mx.queue, c)| == 0;
    RemovedPhase(s.mixers, m, c, s.channels[c], mx);
    hide PhaseOk;
  }

  lemma RemoveStepOk(s: System, m: MixId)
    requires Ok(s) && Alive(s, m) && s.mixers[m].queue != [] && s.mixers[m].queue[0].Remove?
    requires s.mixers[m].members - {s.mixers[m].queue[0].rid} == map[] ==> forall x <- s.mixers[m].queue[1..] :: !x.Add?
    ensures Ok(MixerStep(s, m))
  {
    RemoveHead(s, m);
    hide Ok, ChannelOk, Stop;
    var mx0, c := s.mixers[m], s.mixers[m].queue[0].rid;
    var left := mx0.members - {c};
    if left == map[] { LastRemoveLeavesNothing(s, m); }
    var mx := mx0.(queue := mx0.queue[1..], members := left);
    var ch1 := s.channels[c].(reply := Removed(Some(mx0.members[c])));
    assert left - {c} == mx0.members - {c};
    HeadStep(s, m, mx, c, ch1);
    if left == map[] {
      StopOk(Put(s.(mixers := s.mixers[m := mx]), c, ch1), m);
    }
  }

  /** An empty mixer that stops with an empty queue: nobody is waiting for it, and nobody's state is in it. */
  lemma StopOk(s: System, m: MixId)
    requires Ok(s) && m in s.mixers && s.mixers[m].queue == [] && s.mixers[m].members == map[]
    ensures Ok(Stop(s, m))
  {
    hide ChannelOk, MixersOk;
    var s1 := Stop(s, m);
    assert s1.channels == s.channels;
    assert MixersOk(s1.channels.Keys, s1.mixers, s1.nextMix) by { StoppedMixers(s, m); }
    forall c <- s.channels ensures ChannelOk(s1.mixers, c, s1.channels[c]) {
      Frame(s.mixers, s1.mixers, c, s.channels[c]);
    }
  }

  lemma StoppedMixers(s: System, m: MixId)
    requires MixersOk(s.channels.Keys, s.mixers, s.nextMix) && m in s.mixers
    ensures MixersOk(s.channels.Keys, s.mixers[m := Mixer(false, [], map[])], s.nextMix)
  {
  }

  /** Every member ticks: no state changes hands, and each clock advances with its count. */
  lemma MixerTickOk(s: System, m: MixId)
    requires Ok(s) && Enabled(s, MixerTick(m))
    ensures Ok(Apply(s, MixerTick(m)))
  {
    hide PhaseOk, HistoryOk, SlotOk;
    var s1 := Apply(s, MixerTick(m));
    assert s1.mixers[m].members.Keys == s.mixers[m].members.Keys;
    forall c <- s1.channels ensures ChannelOk(s1.mixers, c, s1.channels[c]) {
      TickPhase(s.mixers, m, s1.mixers[m], c, s.channels[c]);
    }
  }

  lemma TickPhase(mixers: map<MixId, Mixer>, m: MixId, mx: Mixer, c: ChannelId, ch: Channel)
    requires PhaseOk(mixers, c, ch) && m in mixers && mx.queue == mixers[m].queue && mx.running == mixers[m].running
    requires mx.members == map d | d in mixers[m].members :: mixers[m].members[d].Tick()
    ensures PhaseOk(mixers[m := mx], c, ch)
  {
    hide About, Ordinaries, Forwarded, Token.OnTime;
    if c in mixers[m].members { TickOnTime(mixers[m].members[c]); }
  }

  lemma TickOnTime(t: Token)
    requires t.OnTime()
    ensures t.Tick().OnTime()
  {
    SumWraps(160 * t.ticks, 160);
  }

  lemma SumWraps(x: nat, d: nat)
    ensures (x % 0x1_0000_0000 + d) % 0x1_0000_0000 == (x + d) % 0x1_0000_0000
  {
    var q := x / 0x1_0000_0000;
    assert x + d == q * 0x1_0000_0000 + (x % 0x1_0000_0000 + d);
  }

  lemma StepOk(s: System, st: Step)
    requires Ok(s) && Enabled(s, st) && Clean(s, st)
    ensures Ok(Apply(s, st))
  {
    hide Ok, Receive, MixerStep, TakeReply;
    match st {
      case JsMix(a, b) => MixCallOk(s, a, b);
      case JsUnmix(c) => SendOk(s, c, LeaveMix, None);
      case JsSend(c, w) =>
        SlotExists(s, c);
        SendOk(s, c, Ordinary(w), s.channels[c].slot);
        assert s.channels[c].(slot := s.channels[c].slot) == s.channels[c];
      case JsClose(c) =>
        SlotExists(s, c);
        SendOk(s, c, Close, s.channels[c].slot);
        assert s.channels[c].(slot := s.channels[c].slot) == s.channels[c];
      case ActorReceive(c) => ReceiveOk(s, c);
      case ActorReply(c) => ReplyOk(s, c);
      case ActorTick(c, idle) => ActorTickOk(s, c, idle);
      case MixerReceive(m) =>
        if s.mixers[m].queue[0].Add? { AddStepOk(s, m); }
        else if s.mixers[m].queue[0].Remove? { RemoveStepOk(s, m); }
        else { ForwardStepOk(s, m); }
      case MixerTick(m) => MixerTickOk(s, m);
    }
  }

  lemma SlotExists(s: System, c: ChannelId)
    requires Ok(s) && c in s.channels
    ensures s.channels[c].slot.Some? ==> s.channels[c].slot.value in s.mixers
  {
  }

  lemma {:induction false} RunOk(s: System, steps: seq<Step>)
    requires Ok(s) && CleanRun(s, steps)
    ensures Ok(Run(s, steps)) && Run(s, steps).channels.Keys == s.channels.Keys
    decreases |steps|
  {
    hide Ok, Apply, Enabled, Clean;
    if steps != [] {
      StepOk(s, steps[0]);
      RunOk(Apply(s, steps[0]), steps[1..]);
    }
  }

  // ---- One owner, every command once and in order, the clock ----

  /** The places a channel's state can be. */
  datatype Place = InActor | InReply | InQueue(m: MixId, i: nat) | InMembers(m: MixId)

  predicate At(s: System, c: ChannelId, p: Place)
    requires c in s.channels
  {
    var ch := s.channels[c];
    match p
    case InActor => ch.phase.Local? || (ch.phase.Closed? && ch.phase.last.Some?)
    case InReply => ch.reply.Removed? && ch.reply.token.Some?
    case InQueue(m, i) =>
      m in s.mixers && i < |s.mixers[m].queue| && s.mixers[m].queue[i].Add? && s.mixers[m].queue[i].Id() == c
    case InMembers(m) => m in s.mixers && c in s.mixers[m].members
  }

  function StateAt(s: System, c: ChannelId, p: Place): Token
    requires c in s.channels && At(s, c, p)
  {
    match p
    case InActor => if s.channels[c].phase.Local? then s.channels[c].phase.token else s.channels[c].phase.last.value
    case InReply => s.channels[c].reply.token.value
    case InQueue(m, i) => s.mixers[m].queue[i].token
    case InMembers(m) => s.mixers[m].members[c]
  }

  /** The commands on their way from the actor to the state. */
  function InFlight(s: System, c: ChannelId): seq<nat>
    requires c in s.channels
  {
    match s.channels[c].phase
    case Mixed(m) => if m in s.mixers then Forwarded(About(s.mixers[m].queue, c)) else []
    case AwaitRemove(m, _) => if m in s.mixers then Forwarded(About(s.mixers[m].queue, c)) else []
    case _ => []
  }

  /** The ordinary commands that calls on c's handle got into its queue during a run. */
  function Accepted(s: System, steps: seq<Step>, c: ChannelId): seq<nat>
    requires CleanRun(s, steps) && c in s.channels
    decreases |steps|
  {
    if steps == [] then []
    else AcceptedBy(s, steps[0], c) + Accepted(Apply(s, steps[0]), steps[1..], c)
  }

  function AcceptedBy(s: System, st: Step, c: ChannelId): seq<nat>
    requires c in s.channels
  {
    if st.JsSend? && st.c == c && |s.channels[c].queue| < DEPTH && !s.channels[c].phase.Closed? then [st.what] else []
  }

  lemma {:induction false} AboutTwice(q: seq<MixerCommand>, i: nat, j: nat)
    requires i < j < |q| && q[i].Id() == q[j].Id()
    ensures |About(q, q[i].Id())| >= 2
  {
    if i == 0 {
      assert q[j] in q[1..] by { assert q[1..][j - 1] == q[j]; }
      AboutIn(q[1..], q[j]);
    } else {
      AboutTwice(q[1..], i - 1, j - 1);
    }
  }

  /** A state queued for a mixer shows in what concerns its channel there. */
  lemma QueuedIsAbout(s: System, c: ChannelId, p: Place)
    requires c in s.channels && At(s, c, p) && p.InQueue?
    ensures s.mixers[p.m].queue[p.i] in About(s.mixers[p.m].queue, c)
  {
    AboutIn(s.mixers[p.m].queue, s.mixers[p.m].queue[p.i]);
  }

  /** Wherever the state is found, the phase of its actor says so. */
  lemma PlaceFitsPhase(s: System, c: ChannelId, p: Place)
    requires c in s.channels && PhaseOk(s.mixers, c, s.channels[c]) && At(s, c, p)
    ensures var ch := s.channels[c];
            match ch.phase
            case Local(_) => p == InActor
            case Closed(_) => p == InActor
            case AwaitAdd(m) => if ch.reply.NoReply? then p.InQueue? && p.m == m else p == InMembers(m)
            case Mixed(m) => p == InMembers(m)
            case AwaitRemove(m, _) => if ch.reply.NoReply? then p == InMembers(m) else p == InReply
  {
    if p.InQueue? { QueuedIsAbout(s, c, p); }
    hide About, Forwarded, Ordinaries, Token.OnTime;
    if p.InQueue? && s.channels[c].phase.AwaitRemove? && s.channels[c].reply.NoReply? && s.channels[c].phase.mix == p.m {
      NoAddBeforeRemove(About(s.mixers[p.m].queue, c), c, s.mixers[p.m].queue[p.i]);
    }
  }

  lemma {:induction false} NoAddBeforeRemove(q: seq<MixerCommand>, c: ChannelId, x: MixerCommand)
    requires EndsWithRemove(q, c) && x in q
    ensures !x.Add?
  {
    if q != [Remove(c)] && x != q[0] { NoAddBeforeRemove(q[1..], c, x); }
  }

  /**
   * The state of every channel is in exactly one place, its clock is right, and
   * it has seen exactly the commands its actor has received, in order, except
   * those still on their way to it.
   */
  lemma OneOwner(s: System, c: ChannelId) returns (p: Place)
    requires Ok(s) && c in s.channels
    ensures At(s, c, p) && forall p' :: At(s, c, p') ==> p' == p
    ensures StateAt(s, c, p).id == c && StateAt(s, c, p).OnTime()
    ensures StateAt(s, c, p).applied + InFlight(s, c) == Ordinaries(s.channels[c].done)
  {
    ChannelIsOk(s, c);
    p := FindState(s, c);
    hide Ok, MixersOk, HistoryOk, SlotOk, About, Forwarded, Ordinaries, Token.OnTime, InFlight, StateAt;
    forall p' | At(s, c, p') ensures p' == p {
      PlaceFitsPhase(s, c, p);
      PlaceFitsPhase(s, c, p');
      if p.InQueue? {
        var q := s.mixers[p.m].queue;
        if p.i < p'.i { AboutTwice(q, p.i, p'.i); } else if p'.i < p.i { AboutTwice(q, p'.i, p.i); }
      }
    }
  }

  lemma FindState(s: System, c: ChannelId) returns (p: Place)
    requires c in s.channels && PhaseOk(s.mixers, c, s.channels[c])
    ensures At(s, c, p) && StateAt(s, c, p).id == c && StateAt(s, c, p).OnTime()
    ensures StateAt(s, c, p).applied + InFlight(s, c) == Ordinaries(s.channels[c].done)
  {
    var ch := s.channels[c];
    match ch.phase {
      case Local(t) => p := InActor; assert t.applied + [] == t.applied;
      case Closed(t) => p := InActor; assert t.value.applied + [] == t.value.applied;
      case AwaitAdd(m) =>
        var q := s.mixers[m].queue;
        if ch.reply.NoReply? {
          AboutFirst(q, c);
          var x := About(q, c)[0];
          var i :| 0 <= i < |q| && q[i] == x;
          p := InQueue(m, i);
          assert x.token.applied + [] == x.token.applied;
        } else {
          p := InMembers(m);
          assert s.mixers[m].members[c].applied + [] == s.mixers[m].members[c].applied;
        }
      case Mixed(m) => p := InMembers(m);
      case AwaitRemove(m, _) =>
        p := if ch.reply.NoReply? then InMembers(m) else InReply;
        if !ch.reply.NoReply? {
          assert InFlight(s, c) == [];
          assert ch.reply.token.value.applied + [] == ch.reply.token.value.applied;
        }
    }
  }

  lemma {:induction false} OrdinariesOfParts(a: seq<Command>, b: seq<Command>)
    ensures Ordinaries(a + b) == Ordinaries(a) + Ordinaries(b)
    decreases |b|
  {
    if b == [] {
      assert a + b == a;
    } else {
      OrdinariesOfParts(a, b[..|b| - 1]);
      assert (a + b)[..|a + b| - 1] == a + b[..|b| - 1];
    }
  }

  lemma StepSends(s: System, st: Step, c: ChannelId)
    requires Enabled(s, st) && c in s.channels
    ensures Ordinaries(Apply(s, st).channels[c].Sent()) == Ordinaries(s.channels[c].Sent()) + AcceptedBy(s, st, c)
  {
    var ch := s.channels[c];
    assert Ordinaries(ch.Sent()) + [] == Ordinaries(ch.Sent());
    match st {
      case JsMix(a, b) => MixSends(s, a, b, c);
      case JsUnmix(d) => EnqueueSends(ch.(slot := None), LeaveMix);
      case JsSend(d, w) => EnqueueSends(ch, Ordinary(w));
      case JsClose(d) => EnqueueSends(ch, Close);
      case ActorReceive(d) => ReceiveSends(s, d, c);
      case ActorReply(d) =>
      case ActorTick(d, idle) =>
      case MixerReceive(m) => MixerSends(s, m, c);
      case MixerTick(m) =>
      case IdleSweep(m, d) =>
    }
  }

  /** What `mix` does to a channel: nothing, or one more EnterMix in its queue. */
  lemma MixTouches(s: System, a: ChannelId, b: ChannelId, c: ChannelId) returns (m: MixId)
    requires a in s.channels && b in s.channels && c in s.channels
    ensures var ch1 := MixCall(s, a, b).channels[c];
            ch1 == s.channels[c] || ch1 == Enqueue(s.channels[c].(slot := Some(m)), EnterMix(m))
  {
    hide Enqueue;
    m := match (s.channels[a].slot, s.channels[b].slot)
         case (None, None) => s.nextMix
         case (Some(x), _) => x
         case (None, Some(x)) => x;
  }

  lemma MixSends(s: System, a: ChannelId, b: ChannelId, c: ChannelId)
    requires a in s.channels && b in s.channels && c in s.channels
    ensures Ordinaries(MixCall(s, a, b).channels[c].Sent()) == Ordinaries(s.channels[c].Sent())
  {
    var m := MixTouches(s, a, b, c);
    EnqueueSends(s.channels[c].(slot := Some(m)), EnterMix(m));
    hide MixCall, Enqueue, Ordinaries;
  }

  lemma ReceiveSends(s: System, d: ChannelId, c: ChannelId)
    requires d in s.channels && s.channels[d].queue != [] && c in s.channels
    ensures Receive(s, d).channels[c].Sent() == s.channels[c].Sent()
  {
    var ch := s.channels[d];
    assert (ch.done + [ch.queue[0]]) + ch.queue[1..] == ch.Sent();
  }

  lemma EnqueueSends(ch: Channel, cmd: Command)
    ensures Ordinaries(Enqueue(ch, cmd).Sent())
         == Ordinaries(ch.Sent()) + (if cmd.Ordinary? && |ch.queue| < DEPTH && !ch.phase.Closed? then [cmd.what] else [])
  {
    OrdinariesAppend(ch.Sent(), cmd);
    assert ch.done + (ch.queue + [cmd]) == (ch.done + ch.queue) + [cmd];
    assert Ordinaries(ch.Sent()) + [] == Ordinaries(ch.Sent());
  }

  lemma MixerSends(s: System, m: MixId, c: ChannelId)
    requires m in s.mixers && s.mixers[m].queue != [] && c in s.channels
    ensures MixerStep(s, m).channels[c].Sent() == s.channels[c].Sent()
  {
  }

  lemma {:induction false} RunSends(s: System, steps: seq<Step>, c: ChannelId)
    requires CleanRun(s, steps) && c in s.channels
    ensures c in Run(s, steps).channels
    ensures Ordinaries(Run(s, steps).channels[c].Sent()) == Ordinaries(s.channels[c].Sent()) + Accepted(s, steps, c)
    decreases |steps|
  {
    hide Apply, Enabled, Clean, Ordinaries, AcceptedBy;
    if steps == [] {
      assert Ordinaries(s.channels[c].Sent()) + [] == Ordinaries(s.channels[c].Sent());
    } else {
      StepSends(s, steps[0], c);
      RunSends(Apply(s, steps[0]), steps[1..], c);
    }
  }

  /**
   * The main theorem on migration: after any clean run from a fresh start, a
   * channel's state is in exactly one place, its media clock is 160 ticks' worth
   * per tick whoever ticked it, and what it has seen, what is on its way to it
   * and what its actor has yet to receive are together the commands that calls
   * on the handle sent, in order and once each.
   */
  lemma EveryCommandOnceInOrder(ids: set<ChannelId>, steps: seq<Step>, c: ChannelId) returns (p: Place)
    requires c in ids && CleanRun(Init(ids), steps)
    ensures var s := Run(Init(ids), steps);
            && c in s.channels && At(s, c, p) && (forall p' :: At(s, c, p') ==> p' == p)
            && StateAt(s, c, p).id == c
            && StateAt(s, c, p).outTs == (160 * StateAt(s, c, p).ticks) % 0x1_0000_0000
            && StateAt(s, c, p).applied + InFlight(s, c) + Ordinaries(s.channels[c].queue) == Accepted(Init(ids), steps, c)
  {
    InitOk(ids);
    RunOk(Init(ids), steps);
    RunSends(Init(ids), steps, c);
    var s := Run(Init(ids), steps);
    p := OneOwner(s, c);
    OrdinariesOfParts(s.channels[c].done, s.channels[c].queue);
    assert Init(ids).channels[c].Sent() == [];
    hide Ok, Run, CleanRun, InFlight;
    assert Ordinaries(Init(ids).channels[c].Sent()) == [];
  }

  lemma OverIsComplete(mixers: map<MixId, Mixer>, c: ChannelId, ch: Channel)
    requires PhaseOk(mixers, c, ch) && ch.phase.Closed?
    ensures ch.phase.last.Some? && ch.phase.last.value.applied == Ordinaries(ch.done)
  {
    hide About, Ordinaries, Forwarded, QuietAll;
  }

  /** A channel that is over has one Close event, its state has seen exactly what came before the Close, and nothing after. */
  lemma ClosedOnceWithEverything(ids: set<ChannelId>, steps: seq<Step>, c: ChannelId)
    requires c in ids && CleanRun(Init(ids), steps)
    ensures c in Run(Init(ids), steps).channels
    ensures var ch := Run(Init(ids), steps).channels[c];
            && ch.closes == (if ch.phase.Closed? then 1 else 0)
            && (forall i | 0 <= i < |ch.done| - 1 :: ch.done[i] != Close)
            && (ch.phase.Closed? ==> ch.phase.last.Some? && ch.phase.last.value.applied == Ordinaries(ch.done))
  {
    InitOk(ids);
    RunOk(Init(ids), steps);
    ChannelIsOk(Run(Init(ids), steps), c);
    var ch := Run(Init(ids), steps).channels[c];
    hide Ok, Run, CleanRun, SlotOk, MixersOk, PhaseOk, Ordinaries;
    if ch.phase.Closed? { OverIsComplete(Run(Init(ids), steps).mixers, c, ch); }
  }

  /**
   * What the facade believes about a channel's group is where the channel will
   * be once it has worked through its queue, so a channel in a mix never
   * receives an EnterMix for another group.
   */
  lemma SlotMirrorsQueue(ids: set<ChannelId>, steps: seq<Step>, c: ChannelId)
    requires c in ids && CleanRun(Init(ids), steps)
    ensures var s := Run(Init(ids), steps);
            && c in s.channels
            && (var ch := s.channels[c];
                !Over(ch) ==>
                  && Fold(Group(ch.phase), ch.queue) == ch.slot
                  && (ch.phase.Mixed? && ch.queue != [] && ch.queue[0].EnterMix? ==> ch.queue[0].mix == ch.phase.mix))
  {
    InitOk(ids);
    RunOk(Init(ids), steps);
    ChannelIsOk(Run(Init(ids), steps), c);
    hide Ok, Run, CleanRun, PhaseOk;
  }

  // ---- The steps that lose a channel's state, and only those ----

  /** An idle member swept out of the mix, an actor adding itself to a stopped mixer, a mixer stopping with an Add unread. */
  predicate Destroys(s: System, st: Step)
    requires Enabled(s, st)
  {
    match st
    case IdleSweep(_, _) => true
    case ActorReceive(c) =>
      s.channels[c].phase.Local? && s.channels[c].queue[0].EnterMix? && !Alive(s, s.channels[c].queue[0].mix)
    case MixerReceive(m) =>
      var q := s.mixers[m].queue;
      q[0].Remove? && s.mixers[m].members - {q[0].rid} == map[] && exists x <- q[1..] :: x.Add?
    case _ => false
  }

  ghost predicate Placed(s: System, c: ChannelId)
    requires c in s.channels
  {
    exists p :: At(s, c, p)
  }

  /** From any state a clean run reaches, a step leaves every channel with its state exactly when it is none of the three. */
  lemma StateIsLostIff(s: System, st: Step)
    requires Ok(s) && Enabled(s, st)
    ensures (forall c <- s.channels :: c in Apply(s, st).channels && Placed(Apply(s, st), c)) <==> !Destroys(s, st)
  {
    var s1 := Apply(s, st);
    if Destroys(s, st) {
      match st {
        case IdleSweep(m, c) => SweepLoses(s, m, c);
        case ActorReceive(c) => FailedAddLoses(s, c);
        case MixerReceive(m) => var c := StopLoses(s, m); assert !Placed(s1, c);
      }
    } else {
      forall c <- s.channels ensures Placed(s1, c) {
        if Clean(s, st) {
          StepOk(s, st);
          var p := OneOwner(s1, c);
        } else {
          var p := OneOwner(s, c);
          RefusedCallMovesNothing(s, st, c, p);
        }
      }
    }
  }

  lemma RefusedCallMovesNothing(s: System, st: Step, c: ChannelId, p: Place)
    requires Ok(s) && Enabled(s, st) && (st.JsMix? || st.JsUnmix?) && c in s.channels && At(s, c, p)
    ensures At(Apply(s, st), c, p)
  {
    NextIsNew(s);
    hide Ok;
    if st.JsMix? {
      var m := MixTouches(s, st.a, st.b, c);
      MixKeepsMixers(s, st.a, st.b);
      hide MixCall;
      SamePlace(s, Apply(s, st), c, p);
    } else {
      SamePlace(s, Apply(s, st), c, p);
    }
  }

  lemma MixKeepsMixers(s: System, a: ChannelId, b: ChannelId)
    requires a in s.channels && b in s.channels && s.nextMix !in s.mixers
    ensures forall m <- s.mixers :: m in MixCall(s, a, b).mixers && MixCall(s, a, b).mixers[m] == s.mixers[m]
  {
    hide Enqueue;
  }

  lemma SamePlace(s: System, s1: System, c: ChannelId, p: Place)
    requires c in s.channels && At(s, c, p) && c in s1.channels
    requires s1.channels[c].phase == s.channels[c].phase && s1.channels[c].reply == s.channels[c].reply
    requires forall m <- s.mixers :: m in s1.mixers && s1.mixers[m] == s.mixers[m]
    ensures At(s1, c, p)
  {
  }

  lemma NextIsNew(s: System)
    requires Ok(s)
    ensures s.nextMix !in s.mixers
  {
  }

  lemma SweepLoses(s: System, m: MixId, c: ChannelId)
    requires Ok(s) && Enabled(s, IdleSweep(m, c))
    ensures !Placed(Apply(s, IdleSweep(m, c)), c)
  {
    var p := OneOwner(s, c);
    var s1 := Apply(s, IdleSweep(m, c));
    assert At(s, c, InMembers(m));
    forall p' | At(s1, c, p') ensures false {
      assert At(s, c, p');
    }
  }

  lemma FailedAddLoses(s: System, c: ChannelId)
    requires Ok(s) && Enabled(s, ActorReceive(c)) && Destroys(s, ActorReceive(c))
    ensures !Placed(Apply(s, ActorReceive(c)), c)
  {
    var p := OneOwner(s, c);
    var s1 := Apply(s, ActorReceive(c));
    assert At(s, c, InActor);
    forall p' | At(s1, c, p') ensures false {
      assert At(s, c, p');
    }
  }

  lemma StopLoses(s: System, m: MixId) returns (c: ChannelId)
    requires Ok(s) && Enabled(s, MixerReceive(m)) && Destroys(s, MixerReceive(m))
    ensures c in s.channels && !Placed(Apply(s, MixerReceive(m)), c)
  {
    hide Ok, MixerStep;
    var i := QueuedAdd(s, m);
    c := s.mixers[m].queue[i].Id();
    assert Apply(s, MixerReceive(m)) == MixerStep(s, m);
    hide *;
    QueuedChannelIsOk(s, m, s.mixers[m].queue[i]);
    QueuedHere(s, m, i);
    StopAnswers(s, m, c);
    var p := OneOwner(s, c);
    NowhereElse(s, Apply(s, MixerReceive(m)), c, m, i);
  }

  /** The Add that a stopping mixer leaves unread. */
  lemma QueuedAdd(s: System, m: MixId) returns (i: nat)
    requires Enabled(s, MixerReceive(m)) && Destroys(s, MixerReceive(m))
    ensures Alive(s, m) && s.mixers[m].queue != [] && s.mixers[m].queue[0].Remove?
    ensures s.mixers[m].members - {s.mixers[m].queue[0].rid} == map[]
    ensures 1 <= i < |s.mixers[m].queue| && s.mixers[m].queue[i].Add? && s.mixers[m].queue[i] in s.mixers[m].queue
  {
    var q := s.mixers[m].queue;
    var x :| x in q[1..] && x.Add?;
    var j :| 0 <= j < |q[1..]| && q[1..][j] == x;
    i := j + 1;
  }

  lemma QueuedHere(s: System, m: MixId, i: nat)
    requires m in s.mixers && 1 <= i < |s.mixers[m].queue| && s.mixers[m].queue[i].Add?
    requires s.mixers[m].queue[i].Id() in s.channels
    ensures var q := s.mixers[m].queue; At(s, q[i].Id(), InQueue(m, i)) && HasAdd(q[1..], q[i].Id())
  {
    var q := s.mixers[m].queue;
    assert q[1..][i - 1] == q[i];
  }

  /** What the last removal does to a channel whose Add is still queued. */
  lemma StopAnswers(s: System, m: MixId, c: ChannelId)
    requires Alive(s, m) && s.mixers[m].queue != [] && s.mixers[m].queue[0].Remove? && c in s.channels
    requires s.mixers[m].members - {s.mixers[m].queue[0].rid} == map[] && HasAdd(s.mixers[m].queue[1..], c)
    ensures var s1 := MixerStep(s, m);
            && c in s1.channels && s1.channels[c] == s.channels[c].(reply := Added(false))
            && s1.mixers == s.mixers[m := Mixer(false, [], map[])]
  {
  }

  lemma NowhereElse(s: System, s1: System, c: ChannelId, m: MixId, i: nat)
    requires c in s.channels && c in s1.channels && s1.channels[c] == s.channels[c].(reply := Added(false))
    requires m in s.mixers && s1.mixers == s.mixers[m := Mixer(false, [], map[])]
    requires At(s, c, InQueue(m, i)) && forall p :: At(s, c, p) ==> p == InQueue(m, i)
    ensures !Placed(s1, c)
  {
    forall p | At(s1, c, p) ensures false {
      assert At(s, c, p);
    }
  }

  /** The close of a channel whose state is gone. */
  lemma SweptCloses(s: System, m: MixId, c: ChannelId)
    requires c in s.channels && s.channels[c].phase == Mixed(m) && s.channels[c].queue == [] && s.channels[c].reply.NoReply?
    requires Alive(s, m) && s.mixers[m].queue == [] && c !in s.mixers[m].members
    ensures var s2 := Apply(s, JsClose(c));
            && Enabled(s2, ActorReceive(c)) && var s3 := Apply(s2, ActorReceive(c));
            && Enabled(s3, MixerReceive(m)) && var s4 := Apply(s3, MixerReceive(m));
            && Enabled(s4, ActorReply(c)) && var s5 := Apply(s4, ActorReply(c));
               s5.channels[c].closes == s.channels[c].closes + 1 && s5.channels[c].phase == Closed(None)
  {
    var ch := s.channels[c];
    var s2 := Apply(s, JsClose(c));
    assert s2.channels[c] == ch.(queue := [Close]) && s2.mixers == s.mixers;
    var s3 := Apply(s2, ActorReceive(c));
    assert s.mixers[m].queue + [Remove(c)] == [Remove(c)];
    assert s3.channels[c] == ch.(queue := [], done := ch.done + [Close], phase := AwaitRemove(m, true));
    assert s3.mixers == s.mixers[m := s.mixers[m].(queue := [Remove(c)])];
    hide Enqueue, Receive;
    SweptAnswer(s3, m, c);
  }

  lemma SweptAnswer(s: System, m: MixId, c: ChannelId)
    requires c in s.channels && s.channels[c].phase == AwaitRemove(m, true) && s.channels[c].reply.NoReply?
    requires Alive(s, m) && s.mixers[m].queue == [Remove(c)] && c !in s.mixers[m].members
    ensures Enabled(s, MixerReceive(m)) && var s1 := Apply(s, MixerReceive(m));
            && Enabled(s1, ActorReply(c)) && var s2 := Apply(s1, ActorReply(c));
               s2.channels[c].closes == s.channels[c].closes + 1 && s2.channels[c].phase == Closed(None)
  {
    assert s.mixers[m].members - {c} == s.mixers[m].members && [Remove(c)][1..] == [];
    var s1 := Apply(s, MixerReceive(m));
    assert s1.channels[c] == s.channels[c].(reply := Removed(None));
    hide MixerStep;
  }

  /** Channels 1 and 2 are mixed, and 1 is taken out again before 2's actor gets to its EnterMix. */
  const EARLY: seq<Step> :=
    [JsMix(1, 2), ActorReceive(1), MixerReceive(1), ActorReply(1), JsUnmix(1), ActorReceive(1), MixerReceive(1)]

  function EarlyState(k: nat): System {
    var t, enter, leave := Token(1, [], 0, 0), EnterMix(1), LeaveMix;
    var one := match k
               case 0 => Fresh(1)
               case 1 => Channel(Some(1), [], [enter], Local(t), NoReply, 0)
               case 2 => Channel(Some(1), [enter], [], AwaitAdd(1), NoReply, 0)
               case 3 => Channel(Some(1), [enter], [], AwaitAdd(1), Added(true), 0)
               case 4 => Channel(Some(1), [enter], [], Mixed(1), NoReply, 0)
               case 5 => Channel(None, [enter], [leave], Mixed(1), NoReply, 0)
               case 6 => Channel(None, [enter, leave], [], AwaitRemove(1, false), NoReply, 0)
               case _ => Channel(None, [enter, leave], [], AwaitRemove(1, false), Removed(Some(t)), 0);
    var two := if k == 0 then Fresh(2) else Channel(Some(1), [], [enter], Local(Token(2, [], 0, 0)), NoReply, 0);
    var mixer := Mixer(k < 7, if k == 2 then [Add(t)] else if k == 6 then [Remove(1)] else [],
                       if 3 <= k < 7 then map[1 := t] else map[]);
    System(map[1 := one, 2 := two], if k == 0 then map[] else map[1 := mixer], if k == 0 then 1 else 2)
  }

  predicate EarlyNext(k: nat)
    requires k < 7
  {
    && Enabled(EarlyState(k), EARLY[k]) && Clean(EarlyState(k), EARLY[k])
    && Apply(EarlyState(k), EARLY[k]) == EarlyState(k + 1)
  }

  lemma EarlyMix()
    ensures EarlyNext(0)
  {
    var s1 := Apply(EarlyState(0), JsMix(1, 2));
    assert s1.channels[1] == EarlyState(1).channels[1] && s1.channels[2] == EarlyState(1).channels[2];
  }

  lemma EarlyAdd()
    ensures EarlyNext(1)
  {
    assert Apply(EarlyState(1), ActorReceive(1)).mixers[1] == EarlyState(2).mixers[1];
    assert Apply(EarlyState(1), ActorReceive(1)).channels[1] == EarlyState(2).channels[1];
  }

  lemma EarlyAdded()
    ensures EarlyNext(2)
  {
    assert Apply(EarlyState(2), MixerReceive(1)).mixers[1] == EarlyState(3).mixers[1];
  }

  lemma EarlyEntered()
    ensures EarlyNext(3)
  {
    assert Apply(EarlyState(3), ActorReply(1)).channels == EarlyState(4).channels;
  }

  lemma EarlyUnmixed()
    ensures EarlyNext(4)
  {
    assert Apply(EarlyState(4), JsUnmix(1)).channels[1] == EarlyState(5).channels[1];
    assert Apply(EarlyState(4), JsUnmix(1)).channels == EarlyState(5).channels;
  }

  lemma EarlyRemove()
    ensures EarlyNext(5)
  {
    assert Apply(EarlyState(5), ActorReceive(1)).mixers[1] == EarlyState(6).mixers[1];
    assert Apply(EarlyState(5), ActorReceive(1)).channels[1] == EarlyState(6).channels[1];
  }

  lemma EarlyStop()
    ensures EarlyNext(6)
  {
    var s := EarlyState(6);
    assert s.mixers[1].members - {1} == map[] && s.mixers[1].queue == [Remove(1)] && s.mixers[1].queue[1..] == [];
    EarlyStopStep(s);
    var s1 := MixerStep(s, 1);
    assert s1.channels == EarlyState(7).channels && s1.mixers == EarlyState(7).mixers && s1.nextMix == 2;
    hide MixerStep;
  }

  /** The last member leaves, and nothing else is queued. */
  lemma EarlyStopStep(s: System)
    requires s.channels.Keys == {1, 2} && s.mixers.Keys == {1} && s.mixers[1].queue == [Remove(1)]
    requires 1 in s.mixers[1].members && s.mixers[1].members - {1} == map[]
    ensures var s1 := MixerStep(s, 1);
            && s1.channels == s.channels[1 := s.channels[1].(reply := Removed(Some(s.mixers[1].members[1])))]
            && s1.mixers == map[1 := Mixer(false, [], map[])] && s1.nextMix == s.nextMix
  {
  }

  lemma {:induction false} EarlyRun(k: nat)
    requires k <= 7
    ensures CleanRun(EarlyState(k), EARLY[k..]) && Run(EarlyState(k), EARLY[k..]) == EarlyState(7)
    decreases 7 - k
  {
    hide Enabled, Clean, Apply, EarlyState;
    if k < 7 {
      assert EarlyNext(k) by {
        hide EarlyNext;
        EarlyMix(); EarlyAdd(); EarlyAdded(); EarlyEntered(); EarlyUnmixed(); EarlyRemove(); EarlyStop();
      }
      EarlyRun(k + 1);
      assert EARLY[k..][1..] == EARLY[k + 1..];
    }
  }

  lemma EarlyEnds()
    ensures Init({1, 2}) == EarlyState(0)
    ensures Enabled(EarlyState(7), ActorReceive(2)) && Destroys(EarlyState(7), ActorReceive(2))
  {
  }

  /**
   * A failed add needs no fault: the mixer, empty for a moment, has stopped, and
   * channel 2 is closed without its state when its actor receives the EnterMix.
   */
  lemma EarlyUnmixLosesThePartner()
    ensures CleanRun(Init({1, 2}), EARLY)
    ensures var s := Run(Init({1, 2}), EARLY);
            Enabled(s, ActorReceive(2)) && Destroys(s, ActorReceive(2))
  {
    hide Init, Run, CleanRun, Enabled, Destroys, EarlyState;
    assert EARLY[0..] == EARLY;
    EarlyEnds();
    EarlyRun(0);
  }
}
