/**
 * Prompts and recordings on a channel: `playrecord`'s pre-buffer and deferred
 * recorder, barge-in, and what every command and tick keeps
 * (rust/src/channel/actor.rs, tick.rs and the same phases in mixer.rs).
 *
 * A tick's inputs are what the other components hand it: the digits drained,
 * what the player and the writer gave, the decoded frame, and the measured
 * powers. `disk` and `opens` say whether the file system does as asked.
 */
module PlayRecord {
  import opened Common
  import FirFilter
  import R = Recorder

  const CAPACITY: nat := 480_000

  datatype BargeIn = BargeIn(threshold: int, window: nat, powers: seq<i16>)

  datatype Player = Player(interrupts: bool)

  /**
   * `byWriter` is not on the wire: a retired writer and a finished prompt post
   * the same event. `Unregistered` is no event either: it marks where the
   * registry is told.
   */
  datatype Event =
    | PlayStart
    | PlayEnd(reason: string, byWriter: bool)
    | TelephoneEvent
    | RecordStarted(file: string)
    | RecordFinished(file: string, why: string)
    | Unregistered
    | CloseEvent

  /** `files` are the recordings that have ended, as they were then. */
  datatype Subs = Subs(
    player: Option<Player>, recorders: seq<R.Recording>, bargein: Option<BargeIn>,
    pending: Option<R.Config>, prebuffer: seq<i16>, writer: bool,
    events: seq<Event>, files: seq<R.Recording>)
  {
    function Post(e: Event): Subs { this.(events := events + [e]) }

    function EndPlayer(reason: string): Subs {
      this.(player := None, bargein := None).Post(PlayEnd(reason, false))
    }

    /** A player in the way of another source is ended as replaced. */
    function ReplacePlayer(): Subs { if player.Some? then EndPlayer("replaced") else this }

    function ClearPending(): Subs { this.(pending := None, prebuffer := []) }

    /** The recorder at this path, closed, leaves; a new one goes to the end. */
    function Replace(rec: R.Recording): Subs {
      var i := IndexOf(recorders, rec.cfg.file);
      if i < |recorders| then
        this.(recorders := Removed(recorders, i) + [rec],
              files := files + [recorders[i].RequestFinish(R.ChannelClosed)])
      else this.(recorders := recorders + [rec])
    }

    /** `activate_pending_recorder`: what was heard during the prompt goes to the file first, past the power gate. */
    function Activate(opens: bool, disk: bool): Subs {
      match pending
      case None => this
      case Some(cfg) =>
        if opens then
          var rec := R.Open(cfg).WriteRaw(if cfg.channels == 2 then Interleave(prebuffer, prebuffer) else prebuffer, disk);
          var s := this.(pending := None, prebuffer := []).Replace(rec);
          if cfg.startAbove.None? then s.Post(RecordStarted(cfg.file)) else s
        else this.(pending := None, prebuffer := []).Post(RecordFinished(cfg.file, "open-failed"))
    }

    function OnDigit(opens: bool, disk: bool): Subs {
      if player.Some? && player.value.interrupts then
        EndPlayer("telephone-event").Post(TelephoneEvent).Activate(opens, disk)
      else Post(TelephoneEvent)
    }

    function OnDigits(n: nat, opens: bool, disk: bool): Subs
      decreases n
    {
      if n == 0 then this else OnDigit(opens, disk).OnDigits(n - 1, opens, disk)
    }

    function TickPlayer(finished: bool, opens: bool, disk: bool): Subs {
      if player.Some? && finished then EndPlayer("completed").Activate(opens, disk) else this
    }

    function TickWriter(drained: bool): Subs {
      if writer && drained then this.(writer := false).Post(PlayEnd("completed", true)) else this
    }

    /**
     * `warm`: a hundred packets have come in, so the average means something. A
     * window of 0 would divide by zero in the code; no valid command has one.
     */
    function RunBargein(decoded: Option<seq<i16>>, power: i16, warm: bool, opens: bool, disk: bool): Subs {
      if decoded.None? || bargein.None? || player.None? || !warm || bargein.value.window == 0 then this
      else
        var powers := bargein.value.powers + [power];
        if FirFilter.Average(powers, bargein.value.window) <= bargein.value.threshold then
          this.(bargein := Some(bargein.value.(powers := powers)))
        else EndPlayer("interrupted").Activate(opens, disk)
    }

    function Accumulate(decoded: Option<seq<i16>>): Subs {
      if player.None? || pending.None? || decoded.None? then this
      else
        var samples := decoded.value;
        var total := |prebuffer| + |samples|;
        var dropped := if total > CAPACITY then Min(total - CAPACITY, |prebuffer|) else 0;
        this.(prebuffer := prebuffer[dropped..] + samples)
    }

    /** Every recorder is written its form of the frame; those that finish leave the list. */
    function Feed(mono: seq<i16>, stereo: seq<i16>, power: i16, disk: bool): Subs
      requires ValidConfigs(recorders)
    {
      var fed := FeedAll(recorders, mono, stereo, power, disk);
      this.(recorders := fed.kept, files := files + fed.gone, events := events + fed.events)
    }
  }

  predicate ValidConfigs(rs: seq<R.Recording>) { forall i | 0 <= i < |rs| :: rs[i].cfg.Valid() }

  /** The first recorder at a path, or past the end. */
  function IndexOf(rs: seq<R.Recording>, file: string): (i: nat)
    ensures i <= |rs|
    ensures i < |rs| ==> rs[i].cfg.file == file
    ensures forall j | 0 <= j < i :: rs[j].cfg.file != file
  {
    if rs == [] || rs[0].cfg.file == file then 0 else 1 + IndexOf(rs[1..], file)
  }

  function Removed(rs: seq<R.Recording>, i: nat): (r: seq<R.Recording>)
    requires i < |rs|
    ensures |r| == |rs| - 1
  {
    rs[..i] + rs[i + 1..]
  }

  function Interleave(left: seq<i16>, right: seq<i16>): (r: seq<i16>)
    requires |left| == |right|
    ensures |r| == 2 * |left|
  {
    if left == [] then [] else [left[0], right[0]] + Interleave(left[1..], right[1..])
  }

  datatype Fed = Fed(kept: seq<R.Recording>, gone: seq<R.Recording>, events: seq<Event>)

  function FeedAll(rs: seq<R.Recording>, mono: seq<i16>, stereo: seq<i16>, power: i16, disk: bool): Fed
    requires ValidConfigs(rs)
  {
    if rs == [] then Fed([], [], [])
    else
      var r := Written(rs[0], mono, stereo, power, disk);
      var rest := FeedAll(rs[1..], mono, stereo, power, disk);
      Fed(if r.state.Finished? then rest.kept else [r] + rest.kept,
          if r.state.Finished? then [r] + rest.gone else rest.gone,
          WriteEvents(rs[0], r) + rest.events)
  }

  /** A gate that opened with this frame, and a recorder that finished with it, are reported. */
  function WriteEvents(before: R.Recording, r: R.Recording): seq<Event> {
    (if before.state.Pending? && r.state.Active? then [RecordStarted(r.cfg.file)] else [])
    + if r.state.Finished? then [RecordFinished(r.cfg.file, "ended")] else []
  }

  function Written(r: R.Recording, mono: seq<i16>, stereo: seq<i16>, power: i16, disk: bool): R.Recording
    requires r.cfg.Valid()
  {
    r.WriteFrame(if r.cfg.channels == 2 then stereo else mono, power, disk)
  }

  // ---- Ticks ----

  datatype Tick = Tick(
    digits: nat, audio: bool, playerFrame: Option<seq<i16>>, playerFinished: bool,
    writerFrame: Option<seq<i16>>, writerDrained: bool,
    decoded: Option<seq<i16>>, power: i16, warm: bool, echo: bool,
    peer: Option<seq<i16>>, receives: bool, wideband: Option<(seq<i16>, seq<i16>)>, peerWideband: Option<seq<i16>>,
    recorderPower: i16, opens: bool, disk: bool)

  function MonoFrame(inS: seq<i16>, outS: seq<i16>): seq<i16> {
    var n := Max(|inS|, |outS|);
    seq(n, j requires 0 <= j < n => Clamp16(SampleAt(inS, j) + SampleAt(outS, j)))
  }

  /** Left what came in, right what went out, both filled to the longer. */
  function StereoFrame(inS: seq<i16>, outS: seq<i16>): seq<i16> {
    var n := Max(|inS|, |outS|);
    Interleave(Padded(inS, n), Padded(outS, n))
  }

  /** The outbound source of a local tick: the writer's frame before the player's. */
  function OutFrame(s: Subs, t: Tick): Option<seq<i16>> {
    if s.writer && t.writerFrame.Some? then t.writerFrame
    else if s.player.Some? then t.playerFrame else None
  }

  /** What a local tick hands the recorders, if there is audio on either side. */
  function LocalFrames(out: Option<seq<i16>>, t: Tick): Option<(seq<i16>, seq<i16>)> {
    if t.decoded.None? && out.None? then None
    else
      var inS := if t.decoded.Some? then t.decoded.value else Silence();
      var outS := if out.Some? then out.value else if t.echo then inS else Silence();
      Some(if t.wideband.Some? then t.wideband.value else (inS, outS))
  }

  function AfterDigits(s: Subs, t: Tick): Subs { s.OnDigits(t.digits, t.opens, t.disk) }

  /** Player, writer, barge-in and pre-buffer: the phases that local and mixed ticks share. */
  function CommonPhases(s: Subs, t: Tick): Subs {
    s.TickPlayer(t.playerFinished, t.opens, t.disk).TickWriter(t.writerDrained)
     .RunBargein(t.decoded, t.power, t.warm, t.opens, t.disk).Accumulate(t.decoded)
  }

  function LocalTick(s: Subs, t: Tick): Subs
    requires AllValid(s)
  {
    var s1 := AfterDigits(s, t);
    var out := OutFrame(s1, t);
    var s2 := CommonPhases(s1, t);
    PhasesValid(s, t);
    match LocalFrames(out, t)
    case None => s2
    case Some((i, o)) => s2.Feed(MonoFrame(i, o), StereoFrame(i, o), t.recorderPower, t.disk)
  }

  /** The peer's audio cut or filled to one's own length, or one's own for want of a peer. */
  function PeerSide(self: seq<i16>, peer: Option<seq<i16>>): (r: seq<i16>)
    ensures |r| == |self|
  {
    if peer.Some? then Padded(peer.value, |self|) else self
  }

  function PeerMono(self: seq<i16>, peer: Option<seq<i16>>): (r: seq<i16>)
    ensures |r| == |self|
  {
    if peer.Some? then MonoFrame(self, PeerSide(self, peer)) else self
  }

  function PeerStereo(self: seq<i16>, peer: Option<seq<i16>>): seq<i16> { StereoFrame(self, PeerSide(self, peer)) }

  /** In a mix recorders get inbound audio only, with the peer's, both wideband on a wideband channel. */
  function MixedFrames(t: Tick): Option<(seq<i16>, seq<i16>)> {
    if t.decoded.None? || !t.receives then None
    else
      var self := if t.wideband.Some? then t.wideband.value.0 else t.decoded.value;
      var peer := if t.wideband.Some? then t.peerWideband else t.peer;
      Some((PeerMono(self, peer), PeerStereo(self, peer)))
  }

  /** In a mix a tick with digits and no audio ends after the digits. */
  function MixedTick(s: Subs, t: Tick): Subs
    requires AllValid(s)
  {
    var s1 := AfterDigits(s, t);
    PhasesValid(s, t);
    if t.digits > 0 && !t.audio then s1
    else
      var s2 := CommonPhases(s1, t);
      match MixedFrames(t)
      case None => s2
      case Some((mono, stereo)) => s2.Feed(mono, stereo, t.recorderPower, t.disk)
  }

  // ---- Commands ----

  datatype Command =
    | Play(interrupts: bool)
    | Record(cfg: R.Config, opens: bool)
    | PlayAndRecord(interrupts: bool, bargein: Option<BargeIn>, cfg: R.Config)
    | CreateWriteStream
    | DestroyWriteStream(matches: bool)
    | RecordFinish(file: string)
    | RecordSetPaused(file: string, paused: bool)
    | EnterMix

  function RecordAt(s: Subs, cfg: R.Config, opens: bool): Subs {
    var s1 := s.ClearPending();
    var i := PausedAt(s1.recorders, cfg.file);
    if i < |s1.recorders| then
      s1.(recorders := s1.recorders[i := s1.recorders[i].Resume()]).Post(RecordStarted(cfg.file))
    else if opens then
      var j := IndexOf(s1.recorders, cfg.file);
      var s2 := if j < |s1.recorders| then s1.Post(RecordFinished(cfg.file, "channelclosed")) else s1;
      var s3 := s2.Replace(R.Open(cfg));
      if cfg.startAbove.None? then s3.Post(RecordStarted(cfg.file)) else s3
    else s1.Post(RecordFinished(cfg.file, "open-failed"))
  }

  /** The first paused recorder at a path, or past the end. */
  function PausedAt(rs: seq<R.Recording>, file: string): (i: nat)
    ensures i <= |rs|
    ensures i < |rs| ==> rs[i].cfg.file == file && rs[i].state.Paused?
  {
    if rs == [] || (rs[0].cfg.file == file && rs[0].state.Paused?) then 0 else 1 + PausedAt(rs[1..], file)
  }

  function Handle(s: Subs, c: Command): Subs {
    match c
    case Play(interrupts) => s.ReplacePlayer().ClearPending().(player := Some(Player(interrupts))).Post(PlayStart)
    case Record(cfg, opens) => RecordAt(s, cfg, opens)
    case PlayAndRecord(interrupts, bargein, cfg) =>
      var s1 := s.ReplacePlayer().ClearPending().(player := Some(Player(interrupts))).Post(PlayStart);
      s1.(bargein := if interrupts && bargein.Some? then bargein else s1.bargein, pending := Some(cfg))
    case CreateWriteStream => s.ReplacePlayer().ClearPending().(writer := true)
    case DestroyWriteStream(matches) => if matches then s.(writer := false) else s
    case RecordFinish(file) =>
      var i := IndexOf(s.recorders, file);
      if i < |s.recorders| then
        s.(recorders := Removed(s.recorders, i),
           files := s.files + [s.recorders[i].RequestFinish(R.Requested)]).Post(RecordFinished(file, "requested"))
      else s
    case RecordSetPaused(file, paused) =>
      var i := IndexOf(s.recorders, file);
      if i < |s.recorders| then
        s.(recorders := s.recorders[i := if paused then s.recorders[i].Pause() else s.recorders[i].Resume()])
      else s
    case EnterMix =>
      (if s.player.Some? then s.EndPlayer("mix") else s).ClearPending()
  }

  /** The recorders closed one by one as the channel goes. */
  function CloseAll(rs: seq<R.Recording>): Fed {
    if rs == [] then Fed([], [], [])
    else
      var rest := CloseAll(rs[1..]);
      Fed([], [rs[0].RequestFinish(R.ChannelClosed)] + rest.gone,
          [RecordFinished(rs[0].cfg.file, "channelclosed")] + rest.events)
  }

  /** The exit path: everything ended, the registry told, and one Close event last. */
  function Exit(s: Subs): Subs {
    var s1 := if s.player.Some? then s.EndPlayer("channelclosed") else s;
    var closed := CloseAll(s1.recorders);
    var s2 := s1.(recorders := [], files := s1.files + closed.gone, events := s1.events + closed.events, writer := false);
    var s3 := if s2.pending.Some? then s2.(pending := None).Post(RecordFinished(s2.pending.value.file, "channelclosed"))
              else s2;
    s3.(prebuffer := []).Post(Unregistered).Post(CloseEvent)
  }

  // ---- Configurations stay valid, so that recorders can be fed ----

  predicate AllValid(s: Subs) { ValidConfigs(s.recorders) && (s.pending.Some? ==> s.pending.value.Valid()) }

  lemma ReplaceValid(s: Subs, rec: R.Recording)
    requires AllValid(s) && rec.cfg.Valid()
    ensures AllValid(s.Replace(rec))
  {
  }

  lemma ActivateValid(s: Subs, opens: bool, disk: bool)
    requires AllValid(s)
    ensures AllValid(s.Activate(opens, disk))
  {
    if s.pending.Some? && opens {
      var cfg := s.pending.value;
      var frame := if cfg.channels == 2 then Interleave(s.prebuffer, s.prebuffer) else s.prebuffer;
      ReplaceValid(s.(pending := None, prebuffer := []), R.Open(cfg).WriteRaw(frame, disk));
      hide Subs.Replace, Interleave;
    }
  }

  lemma {:induction false} DigitsValid(s: Subs, n: nat, opens: bool, disk: bool)
    requires AllValid(s)
    ensures AllValid(s.OnDigits(n, opens, disk))
    decreases n
  {
    if n > 0 {
      ActivateValid(s.EndPlayer("telephone-event").Post(TelephoneEvent), opens, disk);
      hide Subs.Activate;
      DigitsValid(s.OnDigit(opens, disk), n - 1, opens, disk);
    }
  }

  lemma EndPlayerValid(s: Subs, reason: string, opens: bool, disk: bool)
    requires AllValid(s)
    ensures AllValid(s.EndPlayer(reason).Activate(opens, disk))
  {
    ActivateValid(s.EndPlayer(reason), opens, disk);
    hide Subs.Activate, ValidConfigs;
  }

  lemma BargeinValid(s: Subs, t: Tick)
    requires AllValid(s)
    ensures AllValid(s.RunBargein(t.decoded, t.power, t.warm, t.opens, t.disk))
  {
    EndPlayerValid(s, "interrupted", t.opens, t.disk);
    hide Subs.Activate, Subs.EndPlayer, ValidConfigs, FirFilter.Average;
  }

  lemma SourcesValid(s: Subs, t: Tick)
    requires AllValid(s)
    ensures AllValid(s.TickPlayer(t.playerFinished, t.opens, t.disk).TickWriter(t.writerDrained))
  {
    EndPlayerValid(s, "completed", t.opens, t.disk);
    hide Subs.Activate, Subs.EndPlayer, ValidConfigs;
  }

  lemma CommonValid(s: Subs, t: Tick)
    requires AllValid(s)
    ensures AllValid(CommonPhases(s, t))
  {
    SourcesValid(s, t);
    var s2 := s.TickPlayer(t.playerFinished, t.opens, t.disk).TickWriter(t.writerDrained);
    BargeinValid(s2, t);
    hide Subs.TickPlayer, Subs.TickWriter, Subs.RunBargein, ValidConfigs;
  }

  lemma PhasesValid(s: Subs, t: Tick)
    requires AllValid(s)
    ensures AllValid(AfterDigits(s, t)) && AllValid(CommonPhases(AfterDigits(s, t), t))
  {
    DigitsValid(s, t.digits, t.opens, t.disk);
    CommonValid(AfterDigits(s, t), t);
  }

  // ---- What every command and every tick keeps ----

  /** Play events counted along a history: starts, ends, and the ends that were a writer's. */
  function Starts(es: seq<Event>): nat {
    if es == [] then 0 else Starts(es[..|es| - 1]) + if es[|es| - 1].PlayStart? then 1 else 0
  }

  function Ends(es: seq<Event>): nat {
    if es == [] then 0 else Ends(es[..|es| - 1]) + if es[|es| - 1].PlayEnd? then 1 else 0
  }

  function Retired(es: seq<Event>): nat {
    if es == [] then 0 else Retired(es[..|es| - 1]) + if es[|es| - 1].PlayEnd? && es[|es| - 1].byWriter then 1 else 0
  }

  /** Play starts and writer retirements are matched by play ends, but for the player that is still on. */
  predicate Balanced(s: Subs) {
    && Starts(s.events) + Retired(s.events) == Ends(s.events) + (if s.player.Some? then 1 else 0)
    && StillOpen(s.events)
  }

  /** Neither unregistered nor closed yet. */
  predicate StillOpen(es: seq<Event>) { Unregistered !in es && CloseEvent !in es }

  predicate Distinct(rs: seq<R.Recording>) {
    forall i, j | 0 <= i < j < |rs| :: rs[i].cfg.file != rs[j].cfg.file
  }

  predicate NoneFinished(rs: seq<R.Recording>) { forall i | 0 <= i < |rs| :: !rs[i].state.Finished? }

  predicate RecordersOk(rs: seq<R.Recording>) { ValidConfigs(rs) && Distinct(rs) && NoneFinished(rs) }

  /** What holds between the phases of a tick as well. */
  predicate PartsOk(s: Subs) {
    RecordersOk(s.recorders) && AllValid(s) && |s.prebuffer| <= CAPACITY && Balanced(s)
  }

  predicate Inv(s: Subs) {
    && PartsOk(s)
    && (s.bargein.Some? ==> s.player.Some?)
    && (s.pending.Some? ==> s.player.Some?)
    && (s.prebuffer != [] ==> s.pending.Some?)
  }

  function Nothing(): Subs { Subs(None, [], None, None, [], false, [], []) }

  predicate ValidTick(t: Tick) { t.decoded.Some? ==> |t.decoded.value| <= CAPACITY }

  predicate ValidCommand(c: Command) {
    match c
    case Record(cfg, _) => cfg.Valid()
    case PlayAndRecord(_, bargein, cfg) => cfg.Valid() && (bargein.Some? ==> 0 < bargein.value.window <= FirFilter.MA_LENGTH)
    case _ => true
  }

  lemma Counts(es: seq<Event>, e: Event)
    ensures Starts(es + [e]) == Starts(es) + if e.PlayStart? then 1 else 0
    ensures Ends(es + [e]) == Ends(es) + if e.PlayEnd? then 1 else 0
    ensures Retired(es + [e]) == Retired(es) + if e.PlayEnd? && e.byWriter then 1 else 0
  {
    assert (es + [e])[..|es|] == es;
  }

  predicate NoPlay(es: seq<Event>) { forall i | 0 <= i < |es| :: Neutral(es[i]) }

  /** An event that neither starts nor ends a source nor closes the channel. */
  predicate Neutral(e: Event) { !e.PlayStart? && !e.PlayEnd? && !e.Unregistered? && !e.CloseEvent? }

  lemma {:induction false} NoPlayCounts(es: seq<Event>, more: seq<Event>)
    requires NoPlay(more)
    ensures Starts(es + more) == Starts(es) && Ends(es + more) == Ends(es) && Retired(es + more) == Retired(es)
    ensures StillOpen(es + more) == StillOpen(es)
    decreases |more|
  {
    if more == [] {
      assert es + more == es;
    } else {
      var n := |more| - 1;
      NoPlayCounts(es, more[..n]);
      Counts(es + more[..n], more[n]);
      assert es + more == es + more[..n] + [more[n]];
    }
  }

  lemma PostKeeps(s: Subs, e: Event)
    requires Neutral(e)
    ensures Balanced(s.Post(e)) == Balanced(s)
  {
    Counts(s.events, e);
  }

  lemma EndPlayerKeeps(s: Subs, reason: string)
    requires PartsOk(s) && s.player.Some?
    ensures PartsOk(s.EndPlayer(reason))
  {
    Counts(s.events, PlayEnd(reason, false));
    hide RecordersOk, ValidConfigs;
  }

  /** The recorder at a path taken out: the rest keeps its order. */
  lemma Without(rs: seq<R.Recording>, i: nat)
    requires RecordersOk(rs) && i < |rs|
    ensures RecordersOk(Removed(rs, i))
    ensures forall j | 0 <= j < |rs| - 1 :: Removed(rs, i)[j].cfg.file != rs[i].cfg.file
  {
    forall j | 0 <= j < |rs| - 1 ensures Removed(rs, i)[j] == rs[if j < i then j else j + 1] {
    }
  }

  lemma AppendedLast(rs: seq<R.Recording>, rec: R.Recording)
    requires RecordersOk(rs) && rec.cfg.Valid() && !rec.state.Finished?
    requires forall j | 0 <= j < |rs| :: rs[j].cfg.file != rec.cfg.file
    ensures RecordersOk(rs + [rec])
  {
  }

  lemma ReplaceKeeps(s: Subs, rec: R.Recording)
    requires PartsOk(s) && rec.cfg.Valid() && !rec.state.Finished?
    ensures PartsOk(s.Replace(rec)) && s.Replace(rec).recorders != [] && s.Replace(rec).events == s.events
    ensures var rs := s.Replace(rec).recorders; rs[|rs| - 1] == rec
    ensures forall r <- s.recorders :: r.cfg.file != rec.cfg.file ==> r in s.Replace(rec).recorders
  {
    var i := IndexOf(s.recorders, rec.cfg.file);
    if i < |s.recorders| {
      Without(s.recorders, i);
      AppendedLast(Removed(s.recorders, i), rec);
      forall r <- s.recorders | r.cfg.file != rec.cfg.file ensures r in Removed(s.recorders, i) {
        var j :| 0 <= j < |s.recorders| && s.recorders[j] == r;
        assert Removed(s.recorders, i)[if j < i then j else j - 1] == r;
      }
    } else {
      AppendedLast(s.recorders, rec);
    }
    hide RecordersOk, Balanced;
  }

  /** The recorder that activation opens. */
  function Activated(s: Subs, disk: bool): R.Recording
    requires s.pending.Some?
  {
    R.Open(s.pending.value).WriteRaw(
      if s.pending.value.channels == 2 then Interleave(s.prebuffer, s.prebuffer) else s.prebuffer, disk)
  }

  /** Activation in terms of the steps it is made of. */
  lemma ActivateForm(s: Subs, opens: bool, disk: bool)
    ensures s.pending.None? ==> s.Activate(opens, disk) == s
    ensures s.pending.Some? && !opens ==>
              s.Activate(opens, disk) == s.ClearPending().Post(RecordFinished(s.pending.value.file, "open-failed"))
    ensures s.pending.Some? && opens ==>
              var s1 := s.ClearPending().Replace(Activated(s, disk));
              s.Activate(opens, disk)
              == if s.pending.value.startAbove.None? then s1.Post(RecordStarted(s.pending.value.file)) else s1
  {
    hide Subs.Replace, Interleave, R.Recording.WriteRaw, R.Open;
  }

  lemma ActivatedOk(s: Subs, disk: bool)
    requires s.pending.Some? && s.pending.value.Valid()
    ensures Activated(s, disk).cfg.Valid() && !Activated(s, disk).state.Finished?
  {
    hide Interleave;
  }

  lemma PostParts(s: Subs, e: Event)
    requires PartsOk(s) && Neutral(e)
    ensures PartsOk(s.Post(e)) && s.Post(e).(events := s.events) == s
  {
    PostKeeps(s, e);
    hide RecordersOk, Balanced, ValidConfigs;
  }

  lemma ClearParts(s: Subs)
    requires PartsOk(s)
    ensures PartsOk(s.ClearPending())
  {
    hide RecordersOk, ValidConfigs, Starts, Ends, Retired;
  }

  /** Nothing depends on a player that is off. */
  lemma RestOk(s: Subs)
    requires PartsOk(s) && s.bargein.None? && s.pending.None? && s.prebuffer == []
    ensures Inv(s)
  {
    hide PartsOk;
  }

  lemma ReplaceOnly(s: Subs, rec: R.Recording)
    ensures var s1 := s.Replace(rec); s1.(recorders := s.recorders, files := s.files) == s
  {
    hide IndexOf;
  }

  /** Activation, once the player is off, restores everything. */
  lemma ActivateKeeps(s: Subs, opens: bool, disk: bool)
    requires PartsOk(s) && s.player.None? && s.bargein.None? && (s.prebuffer != [] ==> s.pending.Some?)
    ensures Inv(s.Activate(opens, disk))
    ensures s.Activate(opens, disk).player.None?
  {
    ActivateForm(s, opens, disk);
    if s.pending.Some? {
      var file, s1 := s.pending.value.file, s.ClearPending();
      ClearParts(s);
      ActivatedOk(s, disk);
      hide Inv, PartsOk, Activated, Subs.Activate, Subs.Replace;
      var s2 := s1.Replace(Activated(s, disk));
      ReplaceKeeps(s1, Activated(s, disk));
      ReplaceOnly(s1, Activated(s, disk));
      PostParts(s1, RecordFinished(file, "open-failed"));
      PostParts(s2, RecordStarted(file));
      RestOk(s1.Post(RecordFinished(file, "open-failed")));
      RestOk(s2.Post(RecordStarted(file)));
      RestOk(s2);
    }
  }

  lemma {:induction false} DigitsKeep(s: Subs, n: nat, opens: bool, disk: bool)
    requires Inv(s)
    ensures Inv(s.OnDigits(n, opens, disk))
    decreases n
  {
    if n > 0 {
      if s.player.Some? && s.player.value.interrupts {
        var s1 := s.EndPlayer("telephone-event");
        EndPlayerKeeps(s, "telephone-event");
        PostKeeps(s1, TelephoneEvent);
        ActivateKeeps(s1.Post(TelephoneEvent), opens, disk);
      } else {
        PostKeeps(s, TelephoneEvent);
      }
      hide Subs.Activate, RecordersOk, Balanced, ValidConfigs;
      DigitsKeep(s.OnDigit(opens, disk), n - 1, opens, disk);
    }
  }

  lemma PlayerKeeps(s: Subs, finished: bool, opens: bool, disk: bool)
    requires Inv(s)
    ensures Inv(s.TickPlayer(finished, opens, disk))
  {
    if s.player.Some? && finished {
      EndPlayerKeeps(s, "completed");
      ActivateKeeps(s.EndPlayer("completed"), opens, disk);
    }
    hide Subs.Activate, RecordersOk, Balanced, ValidConfigs;
  }

  lemma WriterKeeps(s: Subs, drained: bool)
    requires Inv(s)
    ensures Inv(s.TickWriter(drained))
  {
    Counts(s.events, PlayEnd("completed", true));
    hide RecordersOk, ValidConfigs;
  }

  lemma BargeinKeeps(s: Subs, t: Tick)
    requires Inv(s)
    ensures Inv(s.RunBargein(t.decoded, t.power, t.warm, t.opens, t.disk))
  {
    if s.player.Some? {
      EndPlayerKeeps(s, "interrupted");
      ActivateKeeps(s.EndPlayer("interrupted"), t.opens, t.disk);
    }
    hide Subs.Activate, RecordersOk, Balanced, ValidConfigs, FirFilter.Average;
  }

  /** The pre-buffer is the last 480000 samples of what it has been given. */
  lemma AccumulateIsLast(s: Subs, samples: seq<i16>)
    requires s.player.Some? && s.pending.Some? && |s.prebuffer| <= CAPACITY && |samples| <= CAPACITY
    ensures s.Accumulate(Some(samples)).prebuffer == LastN(s.prebuffer + samples, 480_000)
  {
  }

  lemma AccumulateKeeps(s: Subs, decoded: Option<seq<i16>>)
    requires Inv(s) && (decoded.Some? ==> |decoded.value| <= CAPACITY)
    ensures Inv(s.Accumulate(decoded))
  {
    if s.player.Some? && s.pending.Some? && decoded.Some? { AccumulateIsLast(s, decoded.value); }
    hide RecordersOk, ValidConfigs;
  }

  predicate HasConfig(rs: seq<R.Recording>, cfg: R.Config) { exists r <- rs :: r.cfg == cfg }

  lemma WrittenConfig(r: R.Recording, mono: seq<i16>, stereo: seq<i16>, power: i16, disk: bool)
    requires r.cfg.Valid()
    ensures Written(r, mono, stereo, power, disk).cfg == r.cfg
  {
    hide FirFilter.Average;
  }

  /** What is kept are recorders of the list that have not finished. */
  lemma {:induction false} FedFrom(rs: seq<R.Recording>, mono: seq<i16>, stereo: seq<i16>, power: i16, disk: bool)
    requires ValidConfigs(rs)
    ensures var fed := FeedAll(rs, mono, stereo, power, disk);
            NoPlay(fed.events) && forall r <- fed.kept :: HasConfig(rs, r.cfg) && !r.state.Finished?
  {
    hide Written;
    if rs != [] {
      FedFrom(rs[1..], mono, stereo, power, disk);
      WrittenConfig(rs[0], mono, stereo, power, disk);
      var rest := FeedAll(rs[1..], mono, stereo, power, disk);
      forall r <- rest.kept ensures HasConfig(rs, r.cfg) {
        var x :| x in rs[1..] && x.cfg == r.cfg;
        assert x in rs;
      }
      assert rs[0] in rs;
    }
  }

  /** Every recorder is written the frame once, and then kept or gone. */
  lemma {:induction false} EveryoneWritten(rs: seq<R.Recording>, mono: seq<i16>, stereo: seq<i16>, power: i16, disk: bool)
    requires ValidConfigs(rs)
    ensures var fed := FeedAll(rs, mono, stereo, power, disk);
            forall i | 0 <= i < |rs| ::
              var w := Written(rs[i], mono, stereo, power, disk); w in if w.state.Finished? then fed.gone else fed.kept
  {
    hide Written;
    if rs != [] {
      EveryoneWritten(rs[1..], mono, stereo, power, disk);
      var fed, rest := FeedAll(rs, mono, stereo, power, disk), FeedAll(rs[1..], mono, stereo, power, disk);
      forall i | 0 <= i < |rs|
        ensures var w := Written(rs[i], mono, stereo, power, disk); w in if w.state.Finished? then fed.gone else fed.kept
      {
        if i > 0 { assert rs[i] == rs[1..][i - 1]; }
      }
    }
  }

  lemma {:induction false} FedRecordersOk(rs: seq<R.Recording>, mono: seq<i16>, stereo: seq<i16>, power: i16, disk: bool)
    requires RecordersOk(rs)
    ensures RecordersOk(FeedAll(rs, mono, stereo, power, disk).kept)
  {
    if rs != [] {
      Without(rs, 0);
      assert Removed(rs, 0) == rs[1..];
      FedRecordersOk(rs[1..], mono, stereo, power, disk);
      FedFrom(rs[1..], mono, stereo, power, disk);
      WrittenConfig(rs[0], mono, stereo, power, disk);
      var w, kept := Written(rs[0], mono, stereo, power, disk), FeedAll(rs[1..], mono, stereo, power, disk).kept;
      hide Written;
      forall k | 0 <= k < |kept| ensures kept[k].cfg.file != w.cfg.file {
        assert kept[k] in kept;
        var x :| x in rs[1..] && x.cfg == kept[k].cfg;
        var i :| 0 <= i < |rs[1..]| && rs[1..][i] == x;
        assert rs[i + 1].cfg.file != rs[0].cfg.file;
      }
      FirstPut(w, kept);
    }
  }

  lemma FirstPut(w: R.Recording, rs: seq<R.Recording>)
    requires RecordersOk(rs) && w.cfg.Valid() && forall k | 0 <= k < |rs| :: rs[k].cfg.file != w.cfg.file
    ensures !w.state.Finished? ==> RecordersOk([w] + rs)
  {
  }

  lemma FeedKeeps(s: Subs, mono: seq<i16>, stereo: seq<i16>, power: i16, disk: bool)
    requires Inv(s)
    ensures Inv(s.Feed(mono, stereo, power, disk))
  {
    FedFrom(s.recorders, mono, stereo, power, disk);
    FedRecordersOk(s.recorders, mono, stereo, power, disk);
    NoPlayCounts(s.events, FeedAll(s.recorders, mono, stereo, power, disk).events);
    hide FeedAll, Distinct, NoneFinished, Written;
  }

  lemma PhasesKeep(s: Subs, t: Tick)
    requires Inv(s) && ValidTick(t)
    ensures Inv(AfterDigits(s, t)) && Inv(CommonPhases(AfterDigits(s, t), t))
  {
    DigitsKeep(s, t.digits, t.opens, t.disk);
    var s1 := AfterDigits(s, t);
    hide Inv;
    PlayerKeeps(s1, t.playerFinished, t.opens, t.disk);
    var s2 := s1.TickPlayer(t.playerFinished, t.opens, t.disk);
    WriterKeeps(s2, t.writerDrained);
    var s3 := s2.TickWriter(t.writerDrained);
    BargeinKeeps(s3, t);
    AccumulateKeeps(s3.RunBargein(t.decoded, t.power, t.warm, t.opens, t.disk), t.decoded);
    hide Subs.TickPlayer, Subs.TickWriter, Subs.RunBargein, Subs.Accumulate;
  }

  lemma TickKeeps(s: Subs, t: Tick)
    requires Inv(s) && ValidTick(t)
    ensures AllValid(s) && Inv(LocalTick(s, t)) && Inv(MixedTick(s, t))
  {
    PhasesKeep(s, t);
    var s2 := CommonPhases(AfterDigits(s, t), t);
    forall mono, stereo { FeedKeeps(s2, mono, stereo, t.recorderPower, t.disk); }
    hide AfterDigits, CommonPhases, Subs.Feed, RecordersOk, Balanced, MonoFrame, StereoFrame, ValidConfigs;
  }

  lemma ResumedOk(rs: seq<R.Recording>, i: nat, r: R.Recording)
    requires RecordersOk(rs) && i < |rs| && r.cfg == rs[i].cfg && !r.state.Finished?
    ensures RecordersOk(rs[i := r])
  {
  }

  lemma RecordKeeps(s: Subs, cfg: R.Config, opens: bool)
    requires Inv(s) && cfg.Valid()
    ensures Inv(RecordAt(s, cfg, opens))
  {
    hide RecordersOk, ValidConfigs, Starts, Ends, Retired;
    var s1 := s.ClearPending();
    var i := PausedAt(s1.recorders, cfg.file);
    if i < |s1.recorders| {
      ResumedOk(s1.recorders, i, s1.recorders[i].Resume());
      PostKeeps(s1.(recorders := s1.recorders[i := s1.recorders[i].Resume()]), RecordStarted(cfg.file));
    } else if opens {
      PostKeeps(s1, RecordFinished(cfg.file, "channelclosed"));
      var j := IndexOf(s1.recorders, cfg.file);
      var s2 := if j < |s1.recorders| then s1.Post(RecordFinished(cfg.file, "channelclosed")) else s1;
      ReplaceKeeps(s2, R.Open(cfg));
      PostKeeps(s2.Replace(R.Open(cfg)), RecordStarted(cfg.file));
    } else {
      PostKeeps(s1, RecordFinished(cfg.file, "open-failed"));
    }
  }

  lemma ReplacePlayerKeeps(s: Subs)
    requires Inv(s)
    ensures Inv(s.ReplacePlayer().ClearPending()) && s.ReplacePlayer().player.None? && s.ReplacePlayer().bargein.None?
  {
    if s.player.Some? { EndPlayerKeeps(s, "replaced"); }
    hide RecordersOk, Balanced, ValidConfigs;
  }

  /** A new outbound source: prompt, prompt with a recorder queued, or writer. */
  lemma SourceKeeps(s: Subs, c: Command)
    requires Inv(s) && ValidCommand(c) && (c.Play? || c.PlayAndRecord? || c.CreateWriteStream? || c.DestroyWriteStream?)
    ensures Inv(Handle(s, c))
  {
    ReplacePlayerKeeps(s);
    Counts(s.ReplacePlayer().ClearPending().events, PlayStart);
    hide RecordersOk, Subs.ReplacePlayer, ValidConfigs, Starts, Ends, Retired;
  }

  lemma FinishKeeps(s: Subs, file: string)
    requires Inv(s)
    ensures Inv(Handle(s, RecordFinish(file)))
  {
    var i := IndexOf(s.recorders, file);
    if i < |s.recorders| {
      Without(s.recorders, i);
      hide Distinct, NoneFinished;
      PostKeeps(s.(recorders := Removed(s.recorders, i), files := s.files + [s.recorders[i].RequestFinish(R.Requested)]),
                RecordFinished(file, "requested"));
      hide Starts, Ends, Retired, Removed, Balanced;
    }
  }

  lemma PauseKeeps(s: Subs, file: string, paused: bool)
    requires Inv(s)
    ensures Inv(Handle(s, RecordSetPaused(file, paused)))
  {
    var i := IndexOf(s.recorders, file);
    if i < |s.recorders| {
      ResumedOk(s.recorders, i, if paused then s.recorders[i].Pause() else s.recorders[i].Resume());
    }
    hide Distinct, NoneFinished, Balanced;
  }

  lemma CommandKeeps(s: Subs, c: Command)
    requires Inv(s) && ValidCommand(c)
    ensures Inv(Handle(s, c))
  {
    match c {
      case Record(cfg, opens) => RecordKeeps(s, cfg, opens);
      case RecordFinish(file) => FinishKeeps(s, file);
      case RecordSetPaused(file, paused) => PauseKeeps(s, file, paused);
      case EnterMix =>
        if s.player.Some? { EndPlayerKeeps(s, "mix"); }
        hide RecordersOk, Balanced, ValidConfigs;
      case _ => SourceKeeps(s, c);
    }
  }

  /** Local ticks, mixed ticks and commands, however they come. */
  datatype Step = InLocal(t: Tick) | InMix(t: Tick) | Do(c: Command)

  predicate ValidStep(st: Step) {
    match st
    case InLocal(t) => ValidTick(t)
    case InMix(t) => ValidTick(t)
    case Do(c) => ValidCommand(c)
  }

  function ApplyStep(s: Subs, st: Step): Subs
    requires AllValid(s)
  {
    match st
    case InLocal(t) => LocalTick(s, t)
    case InMix(t) => MixedTick(s, t)
    case Do(c) => Handle(s, c)
  }

  lemma StepKeeps(s: Subs, st: Step)
    requires Inv(s) && ValidStep(st)
    ensures Inv(ApplyStep(s, st))
  {
    hide LocalTick, MixedTick, Handle, Inv;
    match st {
      case InLocal(t) => TickKeeps(s, t);
      case InMix(t) => TickKeeps(s, t);
      case Do(c) => CommandKeeps(s, c);
    }
  }

  function Run(s: Subs, steps: seq<Step>): Subs
    requires Inv(s) && forall i | 0 <= i < |steps| :: ValidStep(steps[i])
    decreases |steps|
  {
    if steps == [] then s
    else
      StepKeeps(s, steps[0]);
      Run(ApplyStep(s, steps[0]), steps[1..])
  }

  /**
   * Over every run of commands and ticks, local and mixed: barge-in and a queued
   * recorder need a prompt, the pre-buffer needs a queued recorder and stays
   * within its bound, no two recorders share a path and none is finished, and
   * every play start has its end but for the player that is on.
   */
  lemma {:induction false} RunKeeps(s: Subs, steps: seq<Step>)
    requires Inv(s) && forall i | 0 <= i < |steps| :: ValidStep(steps[i])
    ensures Inv(Run(s, steps))
    decreases |steps|
  {
    assert AllValid(s);
    hide Inv, ApplyStep, AllValid;
    if steps != [] {
      StepKeeps(s, steps[0]);
      RunKeeps(ApplyStep(s, steps[0]), steps[1..]);
    }
  }

  // ---- One outbound source at a time ----

  predicate OneSource(s: Subs) { s.player.None? || !s.writer }

  /** The commands that put a prompt on, and do not look at the writer. */
  predicate Prompts(c: Command) { c.Play? || c.PlayAndRecord? }

  /** Two commands from a fresh channel: both sources are on. */
  lemma PlayOverWriter()
    ensures var s := Handle(Handle(Nothing(), CreateWriteStream), Play(false));
            s.player.Some? && s.writer && !OneSource(s)
  {
  }

  /** A command keeps at most one source on, except a prompt while the writer is on. */
  lemma CommandKeepsOneSourceIff(s: Subs, c: Command)
    requires OneSource(s)
    ensures OneSource(Handle(s, c)) <==> !(Prompts(c) && s.writer)
    ensures Handle(s, c).writer == WriterAfter(s.writer, Do(c))
  {
  }

  lemma ActivateKeepsSources(s: Subs, opens: bool, disk: bool)
    ensures s.Activate(opens, disk).player == s.player && s.Activate(opens, disk).writer == s.writer
  {
  }

  lemma {:induction false} DigitsKeepSources(s: Subs, n: nat, opens: bool, disk: bool)
    ensures var s1 := s.OnDigits(n, opens, disk); s1.writer == s.writer && (s.player.None? ==> s1.player.None?)
    decreases n
  {
    if n > 0 {
      ActivateKeepsSources(s.EndPlayer("telephone-event").Post(TelephoneEvent), opens, disk);
      hide Subs.Activate;
      DigitsKeepSources(s.OnDigit(opens, disk), n - 1, opens, disk);
    }
  }

  lemma PhasesKeepSources(s: Subs, t: Tick)
    ensures var s1 := CommonPhases(s, t);
            s1.writer == (s.writer && !t.writerDrained) && (s.player.None? ==> s1.player.None?)
  {
    ActivateKeepsSources(s.EndPlayer("completed"), t.opens, t.disk);
    var s1 := s.TickPlayer(t.playerFinished, t.opens, t.disk).TickWriter(t.writerDrained);
    ActivateKeepsSources(s1.EndPlayer("interrupted"), t.opens, t.disk);
    hide Subs.Activate, FirFilter.Average;
  }

  /** Ticks only turn sources off. */
  lemma TicksKeepOneSource(s: Subs, t: Tick)
    requires AllValid(s)
    ensures OneSource(s) ==> OneSource(LocalTick(s, t)) && OneSource(MixedTick(s, t))
    ensures LocalTick(s, t).writer == WriterAfter(s.writer, InLocal(t))
    ensures MixedTick(s, t).writer == WriterAfter(s.writer, InMix(t))
  {
    PhasesValid(s, t);
    DigitsKeepSources(s, t.digits, t.opens, t.disk);
    PhasesKeepSources(AfterDigits(s, t), t);
    var s2 := CommonPhases(AfterDigits(s, t), t);
    forall mono, stereo { FeedKeepsSources(s2, mono, stereo, t.recorderPower, t.disk); }
    hide CommonPhases, Subs.Feed, MixedFrames, LocalFrames, Subs.OnDigits, MonoFrame, StereoFrame, ValidConfigs;
  }

  lemma FeedKeepsSources(s: Subs, mono: seq<i16>, stereo: seq<i16>, power: i16, disk: bool)
    requires ValidConfigs(s.recorders)
    ensures var s1 := s.Feed(mono, stereo, power, disk); s1.player == s.player && s1.writer == s.writer
  {
    hide FeedAll, ValidConfigs;
  }

  /** Whether the writer is on after a step, from what came in alone. */
  function WriterAfter(on: bool, st: Step): bool {
    match st
    case InLocal(t) => on && !t.writerDrained
    case InMix(t) => on && !(t.writerDrained && !(t.digits > 0 && !t.audio))
    case Do(c) => c.CreateWriteStream? || (on && !(c.DestroyWriteStream? && c.matches))
  }

  /** No prompt is asked for while the writer is on. */
  predicate NoPromptOverWriter(on: bool, steps: seq<Step>)
    decreases |steps|
  {
    steps == [] ||
    (!(on && steps[0].Do? && Prompts(steps[0].c)) && NoPromptOverWriter(WriterAfter(on, steps[0]), steps[1..]))
  }

  ghost predicate AlwaysOneSource(s: Subs, steps: seq<Step>)
    requires Inv(s) && forall i | 0 <= i < |steps| :: ValidStep(steps[i])
    decreases |steps|
  {
    OneSource(s) && (steps == [] || (StepKeeps(s, steps[0]); AlwaysOneSource(ApplyStep(s, steps[0]), steps[1..])))
  }

  /** Over a whole run there is at most one outbound source throughout, if and only if no prompt is asked for while the writer is on. */
  lemma {:induction false} OneSourceIff(s: Subs, steps: seq<Step>)
    requires Inv(s) && OneSource(s) && forall i | 0 <= i < |steps| :: ValidStep(steps[i])
    ensures AlwaysOneSource(s, steps) <==> NoPromptOverWriter(s.writer, steps)
    decreases |steps|
  {
    if steps != [] {
      var st := steps[0];
      StepKeeps(s, st);
      StepSources(s, st);
      var s1 := ApplyStep(s, st);
      hide Inv, ApplyStep, WriterAfter, Prompts;
      if OneSource(s1) { OneSourceIff(s1, steps[1..]); } else { hide OneSource; }
    }
  }

  lemma StepSources(s: Subs, st: Step)
    requires Inv(s) && OneSource(s) && ValidStep(st)
    ensures AllValid(s)
    ensures OneSource(ApplyStep(s, st)) <==> !(s.writer && st.Do? && Prompts(st.c))
    ensures ApplyStep(s, st).writer == WriterAfter(s.writer, st)
  {
    assert AllValid(s);
    match st {
      case InLocal(t) => TicksKeepOneSource(s, t);
      case InMix(t) => TicksKeepOneSource(s, t);
      case Do(c) => CommandKeepsOneSourceIff(s, c);
    }
    hide LocalTick, MixedTick, Handle, WriterAfter, Inv, AllValid;
  }

  /** How the exit path leaves a channel: nothing on, the play events balanced, and last the unregistering and the one Close. */
  predicate Closed(s: Subs) {
    && s.player.None? && s.bargein.None? && s.recorders == [] && s.pending.None? && s.prebuffer == [] && !s.writer
    && Starts(s.events) + Retired(s.events) == Ends(s.events)
    && var n := |s.events| - 2;
       n >= 0 && s.events[n..] == [Unregistered, CloseEvent] && StillOpen(s.events[..n])
  }

  lemma ExitBalances(s: Subs)
    requires Inv(s)
    ensures Closed(Exit(s)) && |Exit(s).files| == |s.files| + |s.recorders|
  {
    var s1 := if s.player.Some? then s.EndPlayer("channelclosed") else s;
    if s.player.Some? { EndPlayerKeeps(s, "channelclosed"); }
    assert Balanced(s1) && s1.player.None? && s1.bargein.None? by { hide RecordersOk, Starts, Ends, Retired; }
    RestCloses(s1);
    hide *;
    ExitFromEnded(s);
  }

  lemma ExitFromEnded(s: Subs)
    ensures var s1 := if s.player.Some? then s.EndPlayer("channelclosed") else s;
            Exit(s) == Exit(s1) && s1.files == s.files && s1.recorders == s.recorders
  {
    hide CloseAll;
  }

  /** The exit path once the player is off. */
  lemma RestCloses(s: Subs)
    requires Balanced(s) && s.player.None? && s.bargein.None?
    ensures Closed(Exit(s)) && |Exit(s).files| == |s.files| + |s.recorders|
  {
    var closed := CloseAll(s.recorders);
    AllClosed(s.recorders);
    NoPlayCounts(s.events, closed.events);
    var s2 := s.(recorders := [], files := s.files + closed.gone, events := s.events + closed.events, writer := false);
    assert Balanced(s2) by { hide CloseAll, Starts, Ends, Retired; }
    PendingCloses(s2);
    assert Exit(s) == Ending(s2) by { hide CloseAll; }
    hide *;
  }

  /** The rest of the exit path. */
  function Ending(s: Subs): Subs {
    var s1 := if s.pending.Some? then s.(pending := None).Post(RecordFinished(s.pending.value.file, "channelclosed")) else s;
    s1.(prebuffer := []).Post(Unregistered).Post(CloseEvent)
  }

  lemma PendingCloses(s: Subs)
    requires Balanced(s) && s.player.None? && s.bargein.None? && s.recorders == [] && !s.writer
    ensures Closed(Ending(s)) && Ending(s).files == s.files
  {
    var s1 := if s.pending.Some? then s.(pending := None).Post(RecordFinished(s.pending.value.file, "channelclosed")) else s;
    if s.pending.Some? { PostKeeps(s.(pending := None), RecordFinished(s.pending.value.file, "channelclosed")); }
    assert Balanced(s1) by { hide Starts, Ends, Retired, StillOpen; }
    hide Balanced, Closed, Starts, Ends, Retired, StillOpen;
    LastTwo(s1.(prebuffer := []));
  }

  lemma LastTwo(s: Subs)
    requires Balanced(s) && s.player.None? && s.bargein.None? && s.recorders == [] && s.pending.None? && s.prebuffer == [] && !s.writer
    ensures Closed(s.Post(Unregistered).Post(CloseEvent))
  {
    Counts(s.events, Unregistered);
    Counts(s.events + [Unregistered], CloseEvent);
    var es := s.events + [Unregistered] + [CloseEvent];
    assert es[..|es| - 2] == s.events && es[|es| - 2..] == [Unregistered, CloseEvent];
    hide Starts, Ends, Retired, StillOpen;
  }

  lemma {:induction false} AllClosed(rs: seq<R.Recording>)
    ensures NoPlay(CloseAll(rs).events) && |CloseAll(rs).gone| == |rs|
  {
    if rs != [] { AllClosed(rs[1..]); }
  }

  // ---- playrecord loses nothing of what came in ----

  /** The prompt is on, the recorder queued, and the pre-buffer holds the last 480000 samples of what was heard. */
  predicate Waiting(s: Subs, cfg: R.Config, heard: seq<i16>) {
    s.player.Some? && s.pending == Some(cfg) && s.prebuffer == LastN(heard, CAPACITY)
  }

  predicate Holds(r: R.Recording, cfg: R.Config, content: seq<i16>) {
    r.cfg == cfg && r.state.Active? && r.audio == content
  }

  /** The recorder is open and its file holds exactly this; nothing queued will take its place. */
  predicate Live(s: Subs, cfg: R.Config, content: seq<i16>) {
    && (s.pending.Some? ==> s.pending.value.file != cfg.file)
    && exists r <- s.recorders :: Holds(r, cfg, content)
  }

  predicate Ended(r: R.Recording, cfg: R.Config, content: seq<i16>) {
    r.cfg == cfg && r.state.Finished? && r.audio == content
  }

  /** The recorder has finished, and its file was left at exactly this. */
  predicate Over(s: Subs, cfg: R.Config, content: seq<i16>) { exists r <- s.files :: Ended(r, cfg, content) }

  predicate Ungated(cfg: R.Config) { cfg.Valid() && cfg.startAbove.None? }

  /** A tick in which the file system does as asked, on a narrowband channel. */
  predicate GoodTick(t: Tick) { ValidTick(t) && t.disk && t.opens && t.wideband.None? }

  /** What a tick adds to every open recording of this kind. */
  function TickFrame(cfg: R.Config, s: Subs, t: Tick): seq<i16> {
    match LocalFrames(OutFrame(AfterDigits(s, t), t), t)
    case None => []
    case Some((i, o)) => if cfg.channels == 2 then StereoFrame(i, o) else MonoFrame(i, o)
  }

  /** Samples as a file takes them: on both channels, if it has two. */
  function Spread(cfg: R.Config, s: seq<i16>): seq<i16> { if cfg.channels == 2 then Interleave(s, s) else s }

  function Heard(t: Tick): seq<i16> { if t.decoded.Some? then t.decoded.value else [] }

  /** Activation: the recorder opens with the pre-buffer already in its file. */
  lemma ActivationFlushes(s: Subs, cfg: R.Config, heard: seq<i16>)
    requires PartsOk(s) && Ungated(cfg) && s.pending == Some(cfg) && s.prebuffer == LastN(heard, CAPACITY)
    ensures Live(s.Activate(true, true), cfg, Spread(cfg, LastN(heard, CAPACITY)))
  {
    hide Interleave, LastN, RecordersOk, Starts, Ends, Retired, Holds;
    var rec := Activated(s, true);
    FlushedHolds(cfg, s.prebuffer);
    var s1 := s.(pending := None, prebuffer := []);
    ReplaceKeeps(s1, rec);
    hide Subs.Replace, PartsOk;
    var rs := s1.Replace(rec).recorders;
    assert rec == rs[|rs| - 1] && rec in rs;
  }

  lemma FlushedHolds(cfg: R.Config, prebuffer: seq<i16>)
    requires Ungated(cfg)
    ensures Holds(R.Open(cfg).WriteRaw(Spread(cfg, prebuffer), true), cfg, Spread(cfg, prebuffer))
    ensures !R.Open(cfg).WriteRaw(Spread(cfg, prebuffer), true).state.Finished?
  {
    hide Interleave;
    assert [] + Spread(cfg, prebuffer) == Spread(cfg, prebuffer);
  }

  /** Opening another recorder leaves this one alone. */
  lemma ActivationSpares(s: Subs, opens: bool, disk: bool, cfg: R.Config, content: seq<i16>)
    requires PartsOk(s) && Live(s, cfg, content)
    ensures Live(s.Activate(opens, disk), cfg, content)
  {
    if s.pending.Some? && opens {
      var r :| r in s.recorders && Holds(r, cfg, content);
      var rec := Activated(s, disk);
      ReplaceKeeps(s.(pending := None, prebuffer := []), rec);
      hide Interleave, Subs.Replace, Holds, PartsOk;
      assert r in s.(pending := None, prebuffer := []).Replace(rec).recorders;
    }
  }

  /** The state of the story between the phases of a tick. */
  predicate Telling(s: Subs, cfg: R.Config, heard: seq<i16>) {
    Waiting(s, cfg, heard) || Live(s, cfg, Spread(cfg, LastN(heard, CAPACITY)))
  }

  /** Ending the prompt, for whatever reason, and activating: from waiting to recording, or no change to a recording. */
  lemma PromptEnds(s: Subs, reason: string, more: seq<Event>, opens: bool, disk: bool,
                   cfg: R.Config, heard: seq<i16>, content: seq<i16>)
    requires Inv(s) && s.player.Some? && NoPlay(more) && Ungated(cfg)
    ensures var s1 := s.EndPlayer(reason); var s2 := s1.(events := s1.events + more);
            && Inv(s2.Activate(opens, disk))
            && (opens && disk && Waiting(s, cfg, heard) ==> Live(s2.Activate(opens, disk), cfg, Spread(cfg, LastN(heard, CAPACITY))))
            && (Live(s, cfg, content) ==> Live(s2.Activate(opens, disk), cfg, content))
  {
    var s1 := s.EndPlayer(reason);
    var s2 := s1.(events := s1.events + more);
    EndPlayerKeeps(s, reason);
    NoPlayCounts(s1.events, more);
    assert PartsOk(s2) by { hide RecordersOk, ValidConfigs, Starts, Ends, Retired; }
    ActivateKeeps(s2, opens, disk);
    hide Inv, PartsOk, Subs.Activate, Spread, LastN;
    if opens && disk && Waiting(s, cfg, heard) { ActivationFlushes(s2, cfg, heard); }
    if Live(s, cfg, content) { ActivationSpares(s2, opens, disk, cfg, content); }
  }

  /** The phases before the recorders are fed, in a recording. */
  lemma {:induction false} DigitsSpare(s: Subs, n: nat, opens: bool, disk: bool, cfg: R.Config, content: seq<i16>)
    requires Inv(s) && Live(s, cfg, content) && Ungated(cfg)
    ensures Live(s.OnDigits(n, opens, disk), cfg, content) && Inv(s.OnDigits(n, opens, disk))
    decreases n
  {
    if n > 0 {
      var s1 := s.OnDigit(opens, disk);
      if s.player.Some? && s.player.value.interrupts {
        PromptEnds(s, "telephone-event", [TelephoneEvent], opens, disk, cfg, [], content);
      } else {
        PostKeeps(s, TelephoneEvent);
      }
      hide Subs.Activate, RecordersOk, Balanced, ValidConfigs, Spread;
      assert Inv(s1) && Live(s1, cfg, content);
      DigitsSpare(s1, n - 1, opens, disk, cfg, content);
    }
  }

  lemma {:induction false} DigitsTell(s: Subs, n: nat, cfg: R.Config, heard: seq<i16>)
    requires Inv(s) && Waiting(s, cfg, heard) && Ungated(cfg)
    ensures Telling(s.OnDigits(n, true, true), cfg, heard) && Inv(s.OnDigits(n, true, true))
    decreases n
  {
    if n > 0 {
      var s1 := s.OnDigit(true, true);
      if s.player.Some? && s.player.value.interrupts {
        PromptEnds(s, "telephone-event", [TelephoneEvent], true, true, cfg, heard, []);
        hide Subs.Activate, RecordersOk, Balanced, ValidConfigs, Spread;
        DigitsSpare(s1, n - 1, true, true, cfg, Spread(cfg, LastN(heard, CAPACITY)));
      } else {
        PostKeeps(s, TelephoneEvent);
        hide Subs.Activate, RecordersOk, Balanced, ValidConfigs, Spread;
        DigitsTell(s1, n - 1, cfg, heard);
      }
    }
  }

  lemma LastNested(heard: seq<i16>, more: seq<i16>)
    requires |more| <= CAPACITY
    ensures LastN(LastN(heard, CAPACITY) + more, CAPACITY) == LastN(heard + more, CAPACITY)
  {
    LastNOfAppend(heard, more, CAPACITY);
    LastNOfAppend(LastN(heard, CAPACITY), more, CAPACITY);
  }

  /** The prompt may end by itself; the writer's end is no matter. */
  lemma SourcesTell(s: Subs, t: Tick, cfg: R.Config, heard: seq<i16>, content: seq<i16>)
    requires Inv(s) && GoodTick(t) && Ungated(cfg)
    ensures var s1 := s.TickPlayer(t.playerFinished, t.opens, t.disk).TickWriter(t.writerDrained);
            && Inv(s1)
            && (Waiting(s, cfg, heard) ==> Telling(s1, cfg, heard))
            && (Live(s, cfg, content) ==> Live(s1, cfg, content))
  {
    PlayerKeeps(s, t.playerFinished, t.opens, t.disk);
    WriterKeeps(s.TickPlayer(t.playerFinished, t.opens, t.disk), t.writerDrained);
    if s.player.Some? {
      PromptEnds(s, "completed", [], t.opens, t.disk, cfg, heard, content);
      assert s.EndPlayer("completed").events + [] == s.EndPlayer("completed").events;
    }
    hide Subs.Activate, Inv, Spread, Holds, LastN;
  }

  /** Barge-in may end it. */
  lemma BargeinTells(s: Subs, t: Tick, cfg: R.Config, heard: seq<i16>, content: seq<i16>)
    requires Inv(s) && GoodTick(t) && Ungated(cfg)
    ensures var s1 := s.RunBargein(t.decoded, t.power, t.warm, t.opens, t.disk);
            && Inv(s1)
            && (Waiting(s, cfg, heard) ==> Telling(s1, cfg, heard))
            && (Live(s, cfg, content) ==> Live(s1, cfg, content))
  {
    BargeinKeeps(s, t);
    if s.player.Some? {
      PromptEnds(s, "interrupted", [], t.opens, t.disk, cfg, heard, content);
      assert s.EndPlayer("interrupted").events + [] == s.EndPlayer("interrupted").events;
    }
    hide Subs.Activate, FirFilter.Average, Spread, Holds, LastN, Inv;
  }

  /** While it is on, what came in joins the pre-buffer. */
  lemma AccumulateTells(s: Subs, t: Tick, cfg: R.Config, heard: seq<i16>, content: seq<i16>)
    requires Inv(s) && GoodTick(t)
    ensures var s1 := s.Accumulate(t.decoded);
            && Inv(s1)
            && (Waiting(s, cfg, heard) ==> Waiting(s1, cfg, heard + Heard(t)))
            && (Live(s, cfg, content) ==> Live(s1, cfg, content))
  {
    AccumulateKeeps(s, t.decoded);
    if Waiting(s, cfg, heard) {
      if t.decoded.Some? {
        AccumulateIsLast(s, t.decoded.value);
        LastNested(heard, t.decoded.value);
      } else {
        assert heard + Heard(t) == heard;
      }
    }
    hide Inv, LastN, Holds;
  }

  lemma InboundTells(s: Subs, t: Tick, cfg: R.Config, heard: seq<i16>, content: seq<i16>)
    requires Inv(s) && GoodTick(t) && Ungated(cfg)
    ensures var s1 := s.RunBargein(t.decoded, t.power, t.warm, t.opens, t.disk).Accumulate(t.decoded);
            && Inv(s1)
            && (Waiting(s, cfg, heard) ==> Waiting(s1, cfg, heard + Heard(t)) || Live(s1, cfg, Spread(cfg, LastN(heard, CAPACITY))))
            && (Live(s, cfg, content) ==> Live(s1, cfg, content))
  {
    hide Inv, LastN, Live, Waiting, Spread, Subs.RunBargein, Subs.Accumulate;
    BargeinTells(s, t, cfg, heard, content);
    var s0 := s.RunBargein(t.decoded, t.power, t.warm, t.opens, t.disk);
    AccumulateTells(s0, t, cfg, heard, content);
    AccumulateTells(s0, t, cfg, heard, Spread(cfg, LastN(heard, CAPACITY)));
  }

  lemma PhasesTell(s: Subs, t: Tick, cfg: R.Config, heard: seq<i16>, content: seq<i16>)
    requires Inv(s) && GoodTick(t) && Ungated(cfg)
    ensures var s1 := CommonPhases(s, t);
            && Inv(s1)
            && (Waiting(s, cfg, heard) ==> Waiting(s1, cfg, heard + Heard(t)) || Live(s1, cfg, Spread(cfg, LastN(heard, CAPACITY))))
            && (Live(s, cfg, content) ==> Live(s1, cfg, content))
  {
    hide Inv, Spread, LastN, Live, Waiting, Subs.TickPlayer, Subs.TickWriter, Subs.RunBargein, Subs.Accumulate;
    SourcesTell(s, t, cfg, heard, content);
    var s1 := s.TickPlayer(t.playerFinished, t.opens, t.disk).TickWriter(t.writerDrained);
    InboundTells(s1, t, cfg, heard, content);
    InboundTells(s1, t, cfg, heard, Spread(cfg, LastN(heard, CAPACITY)));
  }

  predicate LiveOrOver(s: Subs, cfg: R.Config, content: seq<i16>) { Live(s, cfg, content) || Over(s, cfg, content) }

  lemma LiveWritten(r: R.Recording, mono: seq<i16>, stereo: seq<i16>, power: i16, cfg: R.Config, content: seq<i16>)
    requires Holds(r, cfg, content) && Ungated(cfg)
    ensures var w := Written(r, mono, stereo, power, true);
            var more := content + if cfg.channels == 2 then stereo else mono;
            Holds(w, cfg, more) || Ended(w, cfg, more)
  {
    hide FirFilter.Average;
  }

  lemma FeedTells(s: Subs, mono: seq<i16>, stereo: seq<i16>, power: i16, cfg: R.Config, heard: seq<i16>, content: seq<i16>)
    requires Inv(s) && Ungated(cfg)
    ensures var s1 := s.Feed(mono, stereo, power, true);
            && (Waiting(s, cfg, heard) ==> Waiting(s1, cfg, heard))
            && (Live(s, cfg, content) ==> LiveOrOver(s1, cfg, content + if cfg.channels == 2 then stereo else mono))
  {
    var s1 := s.Feed(mono, stereo, power, true);
    if Live(s, cfg, content) {
      var r :| r in s.recorders && Holds(r, cfg, content);
      var i :| 0 <= i < |s.recorders| && s.recorders[i] == r;
      LiveWritten(r, mono, stereo, power, cfg, content);
      EveryoneWritten(s.recorders, mono, stereo, power, true);
      var w := Written(r, mono, stereo, power, true);
      var more := content + if cfg.channels == 2 then stereo else mono;
      assert w.state.Finished? ==> Ended(w, cfg, more);
      assert !w.state.Finished? ==> Holds(w, cfg, more);
      assert w in if w.state.Finished? then s1.files else s1.recorders;
      hide Written, FeedAll, Holds, Ended, Inv;
    }
  }

  /** One local tick of the story. */
  lemma TickTells(s: Subs, t: Tick, cfg: R.Config, heard: seq<i16>, content: seq<i16>)
    requires Inv(s) && GoodTick(t) && Ungated(cfg)
    ensures AllValid(s)
    ensures Waiting(s, cfg, heard) ==>
              || Waiting(LocalTick(s, t), cfg, heard + Heard(t))
              || LiveOrOver(LocalTick(s, t), cfg, Spread(cfg, LastN(heard, CAPACITY)) + TickFrame(cfg, s, t))
    ensures Live(s, cfg, content) ==> LiveOrOver(LocalTick(s, t), cfg, content + TickFrame(cfg, s, t))
  {
    assert AllValid(s);
    DigitsKeep(s, t.digits, t.opens, t.disk);
    var s1 := AfterDigits(s, t);
    var opening := Spread(cfg, LastN(heard, CAPACITY));
    if Waiting(s, cfg, heard) { DigitsTell(s, t.digits, cfg, heard); }
    if Live(s, cfg, content) { DigitsSpare(s, t.digits, t.opens, t.disk, cfg, content); }
    hide Inv, Live, Waiting, Over, Spread, LastN;
    PhasesTell(s1, t, cfg, heard, content);
    PhasesTell(s1, t, cfg, heard, opening);
    var s2 := CommonPhases(s1, t);
    hide AfterDigits, CommonPhases, GoodTick;
    FramesTell(s, s2, t, cfg, heard + Heard(t), content);
    FramesTell(s, s2, t, cfg, heard + Heard(t), opening);
  }

  lemma FramesTell(s: Subs, s2: Subs, t: Tick, cfg: R.Config, heard: seq<i16>, content: seq<i16>)
    requires AllValid(s) && s2 == CommonPhases(AfterDigits(s, t), t) && Inv(s2) && t.disk && Ungated(cfg)
    ensures Waiting(s2, cfg, heard) ==> Waiting(LocalTick(s, t), cfg, heard)
    ensures Live(s2, cfg, content) ==> LiveOrOver(LocalTick(s, t), cfg, content + TickFrame(cfg, s, t))
  {
    hide AfterDigits, CommonPhases, LastN, Live, Waiting, Over, MonoFrame, StereoFrame, Subs.Feed, Inv;
    match LocalFrames(OutFrame(AfterDigits(s, t), t), t) {
      case None => assert content + [] == content;
      case Some((i, o)) => FeedTells(s2, MonoFrame(i, o), StereoFrame(i, o), t.recorderPower, cfg, heard, content);
    }
  }

  /** Commands that leave this recording alone: before it starts those that touch no prompt, then those about other files. */
  predicate Spares(c: Command, file: string, waiting: bool) {
    match c
    case DestroyWriteStream(_) => true
    case RecordFinish(f) => waiting || f != file
    case RecordSetPaused(f, _) => waiting || f != file
    case Play(_) => !waiting
    case CreateWriteStream => !waiting
    case Record(other, _) => !waiting && other.file != file
    case PlayAndRecord(_, _, other) => !waiting && other.file != file
    case EnterMix => false
  }

  lemma SparedWaiting(s: Subs, c: Command, cfg: R.Config, heard: seq<i16>)
    requires Waiting(s, cfg, heard) && Spares(c, cfg.file, true)
    ensures Waiting(Handle(s, c), cfg, heard)
  {
    hide LastN;
  }

  /** Another recorder taken out of the list, or changed in place. */
  lemma OtherRemoved(rs: seq<R.Recording>, i: nat, x: R.Recording, r: R.Recording)
    requires i < |rs| && r in rs && r.cfg.file != rs[i].cfg.file
    ensures r in Removed(rs, i) && r in rs[i := x]
  {
    var j :| 0 <= j < |rs| && rs[j] == r;
    assert Removed(rs, i)[if j < i then j else j - 1] == r;
    assert rs[i := x][j] == r;
  }

  lemma SparedReplace(s: Subs, rec: R.Recording, r: R.Recording)
    requires r in s.recorders && r.cfg.file != rec.cfg.file
    ensures r in s.Replace(rec).recorders
  {
    var j := IndexOf(s.recorders, rec.cfg.file);
    if j < |s.recorders| { OtherRemoved(s.recorders, j, r, r); }
    hide Removed, IndexOf;
  }

  lemma SparedRecord(s: Subs, other: R.Config, opens: bool, cfg: R.Config, content: seq<i16>)
    requires Live(s, cfg, content) && other.file != cfg.file
    ensures Live(RecordAt(s, other, opens), cfg, content)
  {
    var r :| r in s.recorders && Holds(r, cfg, content);
    var s1 := s.ClearPending();
    var i, j := PausedAt(s1.recorders, other.file), IndexOf(s1.recorders, other.file);
    if i < |s1.recorders| { OtherRemoved(s1.recorders, i, s1.recorders[i].Resume(), r); }
    var s2 := if j < |s1.recorders| then s1.Post(RecordFinished(other.file, "channelclosed")) else s1;
    SparedReplace(s2, R.Open(other), r);
    hide Holds, Removed, Subs.Replace, IndexOf, PausedAt;
    assert r in RecordAt(s, other, opens).recorders;
  }

  lemma SparedLive(s: Subs, c: Command, cfg: R.Config, content: seq<i16>)
    requires Inv(s) && ValidCommand(c) && Live(s, cfg, content) && Spares(c, cfg.file, false)
    ensures Live(Handle(s, c), cfg, content)
  {
    var r :| r in s.recorders && Holds(r, cfg, content);
    if c.Record? {
      SparedRecord(s, c.cfg, c.opens, cfg, content);
    } else {
      if c.RecordFinish? || c.RecordSetPaused? {
        var i := IndexOf(s.recorders, c.file);
        if i < |s.recorders| {
          var x := s.recorders[i];
          OtherRemoved(s.recorders, i, if c.RecordSetPaused? && c.paused then x.Pause() else x.Resume(), r);
        }
      }
      hide Holds, Removed, Inv;
      assert r in Handle(s, c).recorders;
    }
  }

  // ---- Ended recordings stay as they were ----

  predicate Extends(s: Subs, s1: Subs) { forall r <- s.files :: r in s1.files }

  lemma ActivateExtends(s: Subs, opens: bool, disk: bool)
    ensures Extends(s, s.Activate(opens, disk))
  {
    hide Interleave, IndexOf;
  }

  lemma {:induction false} DigitsExtend(s: Subs, n: nat, opens: bool, disk: bool)
    ensures Extends(s, s.OnDigits(n, opens, disk))
    decreases n
  {
    if n > 0 {
      ActivateExtends(s.EndPlayer("telephone-event").Post(TelephoneEvent), opens, disk);
      hide Subs.Activate;
      DigitsExtend(s.OnDigit(opens, disk), n - 1, opens, disk);
    }
  }

  lemma PhasesExtend(s: Subs, t: Tick)
    ensures Extends(s, CommonPhases(s, t))
  {
    ActivateExtends(s.EndPlayer("completed"), t.opens, t.disk);
    var s1 := s.TickPlayer(t.playerFinished, t.opens, t.disk).TickWriter(t.writerDrained);
    ActivateExtends(s1.EndPlayer("interrupted"), t.opens, t.disk);
    hide Subs.Activate, FirFilter.Average;
  }

  lemma CommandExtends(s: Subs, c: Command)
    ensures Extends(s, Handle(s, c))
  {
    hide IndexOf, PausedAt, Removed;
  }

  lemma FeedExtends(s: Subs, mono: seq<i16>, stereo: seq<i16>, power: i16, disk: bool)
    requires ValidConfigs(s.recorders)
    ensures Extends(s, s.Feed(mono, stereo, power, disk))
  {
    hide FeedAll, ValidConfigs;
  }

  lemma TickExtends(s: Subs, t: Tick)
    requires AllValid(s)
    ensures Extends(s, LocalTick(s, t)) && Extends(s, MixedTick(s, t))
  {
    DigitsExtend(s, t.digits, t.opens, t.disk);
    PhasesExtend(AfterDigits(s, t), t);
    PhasesValid(s, t);
    var s2 := CommonPhases(AfterDigits(s, t), t);
    assert Extends(s, AfterDigits(s, t)) && Extends(s, s2);
    forall mono, stereo { FeedExtends(s2, mono, stereo, t.recorderPower, t.disk); }
    hide CommonPhases, AfterDigits, Subs.Feed, MonoFrame, StereoFrame, MixedFrames, LocalFrames, ValidConfigs;
  }

  lemma StepExtends(s: Subs, st: Step)
    requires Inv(s) && ValidStep(st)
    ensures AllValid(s) && Extends(s, ApplyStep(s, st))
  {
    assert AllValid(s);
    hide Inv, LocalTick, MixedTick, Handle, Extends, AllValid;
    match st {
      case Do(c) => CommandExtends(s, c);
      case InLocal(t) => TickExtends(s, t);
      case InMix(t) => TickExtends(s, t);
    }
  }

  lemma {:induction false} OverStays(s: Subs, steps: seq<Step>, cfg: R.Config, content: seq<i16>)
    requires Inv(s) && Over(s, cfg, content) && forall i | 0 <= i < |steps| :: ValidStep(steps[i])
    ensures Over(Run(s, steps), cfg, content)
    decreases |steps|
  {
    if steps != [] {
      StepExtends(s, steps[0]);
      StepKeeps(s, steps[0]);
      var r :| r in s.files && Ended(r, cfg, content);
      hide ApplyStep, Inv, Ended;
      assert r in ApplyStep(s, steps[0]).files;
      OverStays(ApplyStep(s, steps[0]), steps[1..], cfg, content);
    }
  }

  // ---- The story over a run ----

  /** Local ticks whose writes go through, and commands that leave the recording alone. */
  predicate Harmless(s: Subs, cfg: R.Config, st: Step) {
    match st
    case InLocal(t) => GoodTick(t)
    case InMix(_) => false
    case Do(c) => ValidCommand(c) && Spares(c, cfg.file, s.pending == Some(cfg))
  }

  predicate HarmlessRun(s: Subs, cfg: R.Config, steps: seq<Step>)
    requires Inv(s)
    decreases |steps|
  {
    steps == [] ||
    (Harmless(s, cfg, steps[0]) && (StepKeeps(s, steps[0]); HarmlessRun(ApplyStep(s, steps[0]), cfg, steps[1..])))
  }

  lemma {:induction false} HarmlessIsValid(s: Subs, cfg: R.Config, steps: seq<Step>)
    requires Inv(s) && HarmlessRun(s, cfg, steps)
    ensures forall i | 0 <= i < |steps| :: ValidStep(steps[i])
    decreases |steps|
  {
    if steps != [] {
      StepKeeps(s, steps[0]);
      HarmlessIsValid(ApplyStep(s, steps[0]), cfg, steps[1..]);
      assert forall i | 0 < i < |steps| :: steps[i] == steps[1..][i - 1];
    }
  }

  function HeardIn(steps: seq<Step>): seq<i16> {
    if steps == [] then [] else (if steps[0].InLocal? then Heard(steps[0].t) else []) + HeardIn(steps[1..])
  }

  /** The frames the ticks of a run give every open recorder of this kind. */
  function FramesIn(cfg: R.Config, s: Subs, steps: seq<Step>): seq<i16>
    requires Inv(s) && forall i | 0 <= i < |steps| :: ValidStep(steps[i])
    decreases |steps|
  {
    if steps == [] then []
    else
      StepKeeps(s, steps[0]);
      (if steps[0].InLocal? then TickFrame(cfg, s, steps[0].t) else []) + FramesIn(cfg, ApplyStep(s, steps[0]), steps[1..])
  }

  lemma StepTells(s: Subs, st: Step, cfg: R.Config, heard: seq<i16>, content: seq<i16>)
    requires Inv(s) && Ungated(cfg) && Harmless(s, cfg, st)
    ensures ValidStep(st) && AllValid(s)
    ensures var s1, frame := ApplyStep(s, st), StepFrame(cfg, s, st);
            && (Waiting(s, cfg, heard) ==> Waiting(s1, cfg, heard + HeardIn([st]))
                                           || LiveOrOver(s1, cfg, Spread(cfg, LastN(heard, CAPACITY)) + frame))
            && (Live(s, cfg, content) ==> LiveOrOver(s1, cfg, content + frame))
  {
    assert AllValid(s);
    match st {
      case InLocal(t) =>
        TickTells(s, t, cfg, heard, content);
        assert HeardIn([st]) == Heard(t) + HeardIn([st][1..]);
        assert Heard(t) + [] == Heard(t);
        hide LocalTick, Waiting, Live, Over, Inv, LastN;
      case Do(c) =>
        assert HeardIn([st]) == [] + HeardIn([st][1..]);
        assert heard + [] == heard && content + [] == content;
        if Waiting(s, cfg, heard) { SparedWaiting(s, c, cfg, heard); }
        if Live(s, cfg, content) { SparedLive(s, c, cfg, content); }
        hide Handle, Inv, LastN;
    }
  }

  /** One step of a run, split off at the front. */
  lemma OneStep(s: Subs, cfg: R.Config, steps: seq<Step>, k: nat, m: nat)
    requires Inv(s) && steps != [] && HarmlessRun(s, cfg, steps) && k <= m && 1 <= m <= |steps|
    ensures forall i | 0 <= i < |steps| :: ValidStep(steps[i])
    ensures Harmless(s, cfg, steps[0]) && ValidStep(steps[0])
    ensures AllValid(s) && Inv(ApplyStep(s, steps[0])) && HarmlessRun(ApplyStep(s, steps[0]), cfg, steps[1..])
    ensures Run(s, steps) == Run(ApplyStep(s, steps[0]), steps[1..])
    ensures FramesIn(cfg, s, steps[..m]) == StepFrame(cfg, s, steps[0]) + FramesIn(cfg, ApplyStep(s, steps[0]), steps[1..][..m - 1])
    ensures k >= 1 ==> Run(s, steps[..k]) == Run(ApplyStep(s, steps[0]), steps[1..][..k - 1])
    ensures k >= 1 ==> steps[k..m] == steps[1..][k - 1..m - 1]
  {
    HarmlessIsValid(s, cfg, steps);
    StepKeeps(s, steps[0]);
    assert steps[..m][1..] == steps[1..][..m - 1];
    if k >= 1 { assert steps[..k][1..] == steps[1..][..k - 1]; }
    hide ApplyStep, Inv, ValidStep, TickFrame;
  }

  function StepFrame(cfg: R.Config, s: Subs, st: Step): seq<i16> { if st.InLocal? then TickFrame(cfg, s, st.t) else [] }

  /** The recording up to step m of the run is exactly this, and if m is not the end, the recorder has finished. */
  predicate Recorded(s: Subs, cfg: R.Config, content: seq<i16>, steps: seq<Step>, m: nat)
    requires Inv(s) && m <= |steps| && forall i | 0 <= i < |steps| :: ValidStep(steps[i])
  {
    && LiveOrOver(Run(s, steps), cfg, content + FramesIn(cfg, s, steps[..m]))
    && (m < |steps| ==> Over(Run(s, steps), cfg, content + FramesIn(cfg, s, steps[..m])))
  }

  lemma RecordedOn(s: Subs, s1: Subs, cfg: R.Config, content: seq<i16>, steps: seq<Step>, m: nat)
    requires Inv(s) && steps != [] && HarmlessRun(s, cfg, steps) && 1 <= m <= |steps|
    requires AllValid(s) && s1 == ApplyStep(s, steps[0]) && Inv(s1)
    requires (forall i | 0 <= i < |steps| - 1 :: ValidStep(steps[1..][i]))
             && Recorded(s1, cfg, content + StepFrame(cfg, s, steps[0]), steps[1..], m - 1)
    ensures forall i | 0 <= i < |steps| :: ValidStep(steps[i])
    ensures Recorded(s, cfg, content, steps, m)
  {
    hide ApplyStep, Inv, ValidStep, TickFrame, Run, FramesIn, HarmlessRun, Harmless, StepFrame, LiveOrOver, Over;
    OneStep(s, cfg, steps, 0, m);
    var frame, rest := StepFrame(cfg, s, steps[0]), FramesIn(cfg, s1, steps[1..][..m - 1]);
    assert content + frame + rest == content + (frame + rest);
  }

  /** A recording under way: every later frame, until it finishes. */
  lemma {:induction false} RecordingRuns(s: Subs, cfg: R.Config, content: seq<i16>, steps: seq<Step>) returns (m: nat)
    requires Inv(s) && Ungated(cfg) && HarmlessRun(s, cfg, steps) && LiveOrOver(s, cfg, content)
    ensures m <= |steps| && forall i | 0 <= i < |steps| :: ValidStep(steps[i])
    ensures Recorded(s, cfg, content, steps, m)
    ensures m == 0 ==> steps == [] || !Live(s, cfg, content)
    decreases |steps|
  {
    hide ApplyStep, Live, Over, Inv, Ungated, HarmlessRun, Harmless, FramesIn, Run, ValidStep, Recorded;
    HarmlessIsValid(s, cfg, steps);
    if steps == [] || !Live(s, cfg, content) {
      m := 0;
      RecordedAlready(s, cfg, content, steps);
    } else {
      OneStep(s, cfg, steps, 0, 1);
      StepTells(s, steps[0], cfg, [], content);
      var s1 := ApplyStep(s, steps[0]);
      m := RecordingRuns(s1, cfg, content + StepFrame(cfg, s, steps[0]), steps[1..]);
      m := m + 1;
      RecordedOn(s, s1, cfg, content, steps, m);
    }
  }

  /** Nothing more to come, or over already. */
  lemma RecordedAlready(s: Subs, cfg: R.Config, content: seq<i16>, steps: seq<Step>)
    requires Inv(s) && LiveOrOver(s, cfg, content) && forall i | 0 <= i < |steps| :: ValidStep(steps[i])
    requires steps == [] || !Live(s, cfg, content)
    ensures Recorded(s, cfg, content, steps, 0)
  {
    assert content + [] == content;
    if !Live(s, cfg, content) { OverStays(s, steps, cfg, content); }
    hide Live, Over, Inv, ValidStep, ApplyStep;
  }

  /**
   * The story of a run that starts with the prompt on and the recorder queued.
   * Up to step k the prompt is on and the pre-buffer is the last 480000 samples
   * that came in. From step k on, where the prompt ends, the file is that, and
   * then the frame of every tick until the recorder finishes, at step m.
   */
  predicate Story(s: Subs, cfg: R.Config, heard: seq<i16>, steps: seq<Step>, k: nat, m: nat)
    requires Inv(s) && k <= m <= |steps| && forall i | 0 <= i < |steps| :: ValidStep(steps[i])
  {
    var mid := Run(s, steps[..k]);
    && Inv(mid) && Waiting(mid, cfg, heard + HeardIn(steps[..k]))
    && (k < |steps| ==>
          && k < m
          && Recorded(mid, cfg, Spread(cfg, LastN(heard + HeardIn(steps[..k]), CAPACITY)), steps[k..], m - k)
          && Run(mid, steps[k..]) == Run(s, steps))
  }

  /** The main theorem on playrecord: every run has such a story, however the prompt ends. */
  lemma {:induction false} NothingIsLost(s: Subs, cfg: R.Config, heard: seq<i16>, steps: seq<Step>) returns (k: nat, m: nat)
    requires Inv(s) && Ungated(cfg) && HarmlessRun(s, cfg, steps) && Waiting(s, cfg, heard)
    ensures k <= m <= |steps| && forall i | 0 <= i < |steps| :: ValidStep(steps[i])
    ensures Story(s, cfg, heard, steps, k, m)
    decreases |steps|
  {
    hide *;
    HarmlessIsValid(s, cfg, steps);
    k, m := 0, 0;
    if steps == [] {
      NothingYet(s, cfg, heard);
    } else {
      OneStep(s, cfg, steps, 0, 1);
      StepTells(s, steps[0], cfg, heard, []);
      var s1, first := ApplyStep(s, steps[0]), HeardIn([steps[0]]);
      if Waiting(s1, cfg, heard + first) {
        k, m := NothingIsLost(s1, cfg, heard + first, steps[1..]);
        k, m := k + 1, m + 1;
        StoryGoesOn(s, cfg, heard, steps, k, m);
      } else {
        var opening := Spread(cfg, LastN(heard, CAPACITY));
        m := RecordingRuns(s1, cfg, opening + StepFrame(cfg, s, steps[0]), steps[1..]);
        m := m + 1;
        RecordedOn(s, s1, cfg, opening, steps, m);
        StoryOpens(s, cfg, heard, steps, m);
      }
    }
  }

  lemma NothingYet(s: Subs, cfg: R.Config, heard: seq<i16>)
    requires Inv(s) && Waiting(s, cfg, heard)
    ensures Story(s, cfg, heard, [], 0, 0)
  {
    hide Inv, Waiting;
    assert heard + [] == heard;
  }

  /** The prompt ends with the first step. */
  lemma StoryOpens(s: Subs, cfg: R.Config, heard: seq<i16>, steps: seq<Step>, m: nat)
    requires Inv(s) && 1 <= m <= |steps| && (forall i | 0 <= i < |steps| :: ValidStep(steps[i]))
    requires Waiting(s, cfg, heard) && Recorded(s, cfg, Spread(cfg, LastN(heard, CAPACITY)), steps, m)
    ensures Story(s, cfg, heard, steps, 0, m)
  {
    assert steps[..0] == [] && steps[0..] == steps;
    assert heard + [] == heard;
    hide Inv, Waiting, Recorded, Spread, LastN;
  }

  lemma StoryGoesOn(s: Subs, cfg: R.Config, heard: seq<i16>, steps: seq<Step>, k: nat, m: nat)
    requires Inv(s) && steps != [] && HarmlessRun(s, cfg, steps) && 1 <= k <= m <= |steps|
    requires forall i | 0 <= i < |steps| :: ValidStep(steps[i])
    requires forall i | 0 <= i < |steps| - 1 :: ValidStep(steps[1..][i])
    requires AllValid(s) && Inv(ApplyStep(s, steps[0]))
    requires Story(ApplyStep(s, steps[0]), cfg, heard + HeardIn([steps[0]]), steps[1..], k - 1, m - 1)
    ensures Story(s, cfg, heard, steps, k, m)
  {
    hide Inv, ApplyStep, Run, HeardIn, Recorded, Waiting, ValidStep, HarmlessRun, Harmless, FramesIn, StepFrame, Spread, LastN;
    OneStep(s, cfg, steps, k, m);
    HeardOn(heard, steps[..k]);
    assert steps[..k][1..] == steps[1..][..k - 1] && steps[..k][0] == steps[0];
    assert steps[k..] == steps[1..][k - 1..];
  }

  lemma HeardOn(heard: seq<i16>, steps: seq<Step>)
    requires steps != []
    ensures heard + HeardIn([steps[0]]) + HeardIn(steps[1..]) == heard + HeardIn(steps)
  {
    hide Heard;
    assert [steps[0]][1..] == [];
    var first, rest := if steps[0].InLocal? then Heard(steps[0].t) else [], HeardIn(steps[1..]);
    assert HeardIn([steps[0]]) == first + HeardIn([]) == first;
    assert HeardIn(steps) == first + rest;
    hide HeardIn;
    assert heard + first + rest == heard + (first + rest);
  }

  // ---- The left channel ----

  function Left(s: seq<i16>): seq<i16> { if |s| < 2 then [] else [s[0]] + Left(s[2..]) }

  lemma {:induction false} LeftOfInterleave(a: seq<i16>, b: seq<i16>)
    requires |a| == |b|
    ensures Left(Interleave(a, b)) == a
  {
    if a != [] {
      LeftOfInterleave(a[1..], b[1..]);
      assert Interleave(a, b)[2..] == Interleave(a[1..], b[1..]);
    }
  }

  lemma {:induction false} LeftOfParts(a: seq<i16>, b: seq<i16>)
    requires |a| % 2 == 0
    ensures Left(a + b) == Left(a) + Left(b)
    decreases |a|
  {
    if a == [] {
      assert a + b == b;
    } else {
      assert (a + b)[2..] == a[2..] + b;
      LeftOfParts(a[2..], b);
    }
  }

  /** The outbound side of a recorded tick. */
  function OutSide(out: Option<seq<i16>>, t: Tick): seq<i16>
    requires t.decoded.Some?
  {
    if out.Some? then out.value else if t.echo then t.decoded.value else Silence()
  }

  /** With inbound audio, its left channel is the decoded frame alone exactly when nothing outbound is longer. */
  lemma LeftIsInbound(cfg: R.Config, s: Subs, t: Tick)
    requires cfg.channels == 2 && GoodTick(t) && t.decoded.Some?
    ensures var d, n := t.decoded.value, |OutSide(OutFrame(AfterDigits(s, t), t), t)|;
            && Left(TickFrame(cfg, s, t)) == Padded(d, Max(|d|, n))
            && (Left(TickFrame(cfg, s, t)) == d <==> n <= |d|)
  {
    var d, o := t.decoded.value, OutSide(OutFrame(AfterDigits(s, t), t), t);
    var n := Max(|d|, |o|);
    LeftOfInterleave(Padded(d, n), Padded(o, n));
    hide AfterDigits, Interleave, Left;
    assert |o| <= |d| ==> Padded(d, n) == d;
  }

  /** What the ticks with inbound audio put on the left channel. */
  function LeftInbound(cfg: R.Config, s: Subs, steps: seq<Step>): seq<i16>
    requires Inv(s) && forall i | 0 <= i < |steps| :: ValidStep(steps[i])
    decreases |steps|
  {
    if steps == [] then []
    else
      StepKeeps(s, steps[0]);
      (if steps[0].InLocal? && steps[0].t.decoded.Some? then Left(TickFrame(cfg, s, steps[0].t)) else [])
      + LeftInbound(cfg, ApplyStep(s, steps[0]), steps[1..])
  }

  /** Whole frames in, and nothing longer out: a prompt gives at most 160 samples a tick, and a writer 160. */
  predicate WholeFrames(st: Step) {
    st.InLocal? ==>
      && GoodTick(st.t) && (st.t.decoded.Some? ==> |st.t.decoded.value| >= 160)
      && (st.t.playerFrame.Some? ==> |st.t.playerFrame.value| <= 160)
      && (st.t.writerFrame.Some? ==> |st.t.writerFrame.value| <= 160)
  }

  /** Zero gap: over the ticks with inbound audio the left channel is what came in, nothing skipped, repeated or reordered. */
  lemma {:induction false} LeftIsHeard(cfg: R.Config, s: Subs, steps: seq<Step>)
    requires cfg.channels == 2 && Inv(s) && forall i | 0 <= i < |steps| :: ValidStep(steps[i]) && WholeFrames(steps[i])
    ensures LeftInbound(cfg, s, steps) == HeardIn(steps)
    decreases |steps|
  {
    if steps != [] {
      StepKeeps(s, steps[0]);
      var st := steps[0];
      if st.InLocal? && st.t.decoded.Some? {
        LeftIsInbound(cfg, s, st.t);
        assert |OutSide(OutFrame(AfterDigits(s, st.t), st.t), st.t)| <= |st.t.decoded.value|;
      }
      hide ApplyStep, Inv, TickFrame, Left, AfterDigits;
      LeftIsHeard(cfg, ApplyStep(s, st), steps[1..]);
    }
  }

  /** And before them stands what the pre-buffer held. */
  lemma LeftOfRecording(cfg: R.Config, opening: seq<i16>, rest: seq<i16>)
    requires cfg.channels == 2
    ensures Left(Spread(cfg, opening) + rest) == opening + Left(rest)
  {
    LeftOfInterleave(opening, opening);
    LeftOfParts(Spread(cfg, opening), rest);
  }

  /** `playrecord` starts the story with nothing heard, whatever was going on. */
  lemma PlayRecordStarts(s: Subs, interrupts: bool, bargein: Option<BargeIn>, cfg: R.Config)
    requires Inv(s) && ValidCommand(PlayAndRecord(interrupts, bargein, cfg))
    ensures Inv(Handle(s, PlayAndRecord(interrupts, bargein, cfg)))
    ensures Waiting(Handle(s, PlayAndRecord(interrupts, bargein, cfg)), cfg, [])
  {
    SourceKeeps(s, PlayAndRecord(interrupts, bargein, cfg));
    hide Inv, Subs.ReplacePlayer;
  }

  /**
   * playrecord is zero-gap: from the command on, and with whole frames, the file
   * is the last 480000 samples that came in before the prompt ended, and then
   * the frame of every tick up to the recorder's finish; the left channel of a
   * stereo file is every frame that came in.
   */
  lemma ZeroGap(s: Subs, interrupts: bool, bargein: Option<BargeIn>, cfg: R.Config, steps: seq<Step>)
    returns (k: nat, m: nat, content: seq<i16>)
    requires Inv(s) && Ungated(cfg) && ValidCommand(PlayAndRecord(interrupts, bargein, cfg))
    requires Inv(Handle(s, PlayAndRecord(interrupts, bargein, cfg)))
    requires HarmlessRun(Handle(s, PlayAndRecord(interrupts, bargein, cfg)), cfg, steps)
    requires forall i | 0 <= i < |steps| :: WholeFrames(steps[i])
    ensures k <= m <= |steps| && forall i | 0 <= i < |steps| :: ValidStep(steps[i])
    ensures var s0 := Handle(s, PlayAndRecord(interrupts, bargein, cfg));
            var mid := Run(s0, steps[..k]);
            && Inv(mid) && Waiting(mid, cfg, HeardIn(steps[..k]))
            && (k < |steps| ==>
                  && k < m
                  && content == Spread(cfg, LastN(HeardIn(steps[..k]), CAPACITY)) + FramesIn(cfg, mid, steps[k..m])
                  && LiveOrOver(Run(s0, steps), cfg, content) && (m < |steps| ==> Over(Run(s0, steps), cfg, content))
                  && (cfg.channels == 2 ==>
                        && Left(content) == LastN(HeardIn(steps[..k]), CAPACITY) + Left(FramesIn(cfg, mid, steps[k..m]))
                        && LeftInbound(cfg, mid, steps[k..m]) == HeardIn(steps[k..m])))
  {
    hide Handle, HarmlessRun, Run, Waiting, Live, Over, LastN, FramesIn, LeftInbound, HeardIn, Left, Spread, Inv, Ungated;
    PlayRecordStarts(s, interrupts, bargein, cfg);
    var s0 := Handle(s, PlayAndRecord(interrupts, bargein, cfg));
    k, m := NothingIsLost(s0, cfg, [], steps);
    var mid := Run(s0, steps[..k]);
    assert [] + HeardIn(steps[..k]) == HeardIn(steps[..k]);
    var opening := LastN(HeardIn(steps[..k]), CAPACITY);
    content := [];
    if k < |steps| {
      assert steps[k..][..m - k] == steps[k..m];
      content := Spread(cfg, opening) + FramesIn(cfg, mid, steps[k..m]);
      if cfg.channels == 2 {
        LeftOfRecording(cfg, opening, FramesIn(cfg, mid, steps[k..m]));
        LeftIsHeard(cfg, mid, steps[k..m]);
      }
    }
  }
}
