/**
 * The imperative side of PlayRecord: a channel's subsystems as the actor and the
 * tick update them (rust/src/channel/actor.rs, tick.rs,
 * and the recorder loop of mixer.rs). Every method leaves the
 * state its function in PlayRecord gives; the theorems there are about those.
 */
module Subsystems {
  import opened Common
  import opened PlayRecord
  import FirFilter
  import R = Recorder

  class ChannelSubsystems {
    var player: Option<Player>
    var recorders: seq<R.Recording>
    var bargein: Option<BargeIn>
    var pendingRecorder: Option<R.Config>
    var prebuffer: seq<i16>
    var writer: bool
    var events: seq<Event>
    ghost var files: seq<R.Recording>

    ghost function Model(): Subs
      reads this
    {
      Subs(player, recorders, bargein, pendingRecorder, prebuffer, writer, events, files)
    }

    /** What every command and every tick keeps. */
    ghost predicate Valid()
      reads this
    {
      Inv(Model())
    }

    constructor ()
      ensures Valid() && Model() == Nothing()
    {
      player, recorders, bargein, pendingRecorder := None, [], None, None;
      prebuffer, writer, events, files := [], false, [], [];
    }

    method Post(e: Event)
      modifies this`events
      ensures Model() == old(Model()).Post(e)
    {
      events := events + [e];
    }

    method EndPlayer(reason: string)
      modifies this`player, this`bargein, this`events
      ensures Model() == old(Model()).EndPlayer(reason)
    {
      player := None;
      bargein := None;
      Post(PlayEnd(reason, false));
    }

    /** Any recorder at the same path is closed and makes way. */
    method ReplaceRecorder(rec: R.Recording)
      modifies this`recorders, this`files
      ensures Model() == old(Model()).Replace(rec)
    {
      var i := IndexOf(recorders, rec.cfg.file);
      if i < |recorders| {
        files := files + [recorders[i].RequestFinish(R.ChannelClosed)];
        recorders := Removed(recorders, i);
      }
      recorders := recorders + [rec];
    }

    method ActivatePendingRecorder(opens: bool, disk: bool) returns (activated: bool)
      modifies this
      ensures Model() == old(Model()).Activate(opens, disk)
      ensures activated == (old(pendingRecorder).Some? && opens)
    {
      if pendingRecorder.None? { return false; }
      var cfg := pendingRecorder.value;
      pendingRecorder := None;
      if !opens {
        prebuffer := [];
        Post(RecordFinished(cfg.file, "open-failed"));
        return false;
      }
      var drained := prebuffer;
      prebuffer := [];
      var rec := Flushed(R.Open(cfg), drained, disk);
      ReplaceRecorder(rec);
      if cfg.startAbove.None? { Post(RecordStarted(cfg.file)); }
      return true;
    }

    /** A fresh recorder with the pre-buffer written past its gate, both channels alike when it has two. */
    method Flushed(opening: R.Recording, drained: seq<i16>, disk: bool) returns (rec: R.Recording)
      ensures rec == opening.WriteRaw(if opening.cfg.channels == 2 then Interleave(drained, drained) else drained, disk)
    {
      rec := opening;
      if drained != [] {
        var frame := drained;
        if opening.cfg.channels == 2 {
          frame := [];
          for i := 0 to |drained|
            invariant frame == Interleave(drained[..i], drained[..i])
          {
            InterleaveOneMore(drained[..i], drained[..i], drained[i], drained[i]);
            assert drained[..i + 1] == drained[..i] + [drained[i]];
            frame := frame + [drained[i], drained[i]];
          }
          assert drained[..|drained|] == drained;
        }
        rec := rec.WriteRaw(frame, disk);
      }
    }

    /** A digit was recognised: an interruptible prompt ends, and a queued recorder starts. */
    method OnDigit(opens: bool, disk: bool)
      modifies this
      ensures Model() == old(Model()).OnDigit(opens, disk)
    {
      var activate := false;
      if player.Some? && player.value.interrupts {
        EndPlayer("telephone-event");
        activate := true;
      }
      Post(TelephoneEvent);
      if activate {
        var _ := ActivatePendingRecorder(opens, disk);
      }
    }

    method TickPlayer(finished: bool, opens: bool, disk: bool)
      modifies this
      ensures Model() == old(Model()).TickPlayer(finished, opens, disk)
    {
      var justEnded := false;
      if player.Some? && finished {
        EndPlayer("completed");
        justEnded := true;
      }
      if justEnded {
        var _ := ActivatePendingRecorder(opens, disk);
      }
    }

    method TickWriter(drained: bool)
      modifies this`writer, this`events
      ensures Model() == old(Model()).TickWriter(drained)
    {
      if !writer { return; }
      if drained {
        writer := false;
        Post(PlayEnd("completed", true));
      }
    }

    method RunBargein(decoded: Option<seq<i16>>, power: i16, warm: bool, opens: bool, disk: bool)
      modifies this
      ensures Model() == old(Model()).RunBargein(decoded, power, warm, opens, disk)
    {
      if decoded.None? || bargein.None? || player.None? || !warm || bargein.value.window == 0 { return; }
      var powers := bargein.value.powers + [power];
      var smoothed := FirFilter.Average(powers, bargein.value.window);
      bargein := Some(bargein.value.(powers := powers));
      if smoothed <= bargein.value.threshold { return; }
      EndPlayer("interrupted");
      var _ := ActivatePendingRecorder(opens, disk);
    }

    /** Oldest samples out one by one, and then the new ones in. */
    method AccumulatePrebuffer(decoded: Option<seq<i16>>)
      modifies this`prebuffer
      ensures Model() == old(Model()).Accumulate(decoded)
    {
      if player.None? || pendingRecorder.None? || decoded.None? { return; }
      var samples := decoded.value;
      var total := |prebuffer| + |samples|;
      ghost var was := prebuffer;
      var n := 0;
      if total > CAPACITY {
        n := Min(total - CAPACITY, |prebuffer|);
        for i := 0 to n
          invariant prebuffer == was[i..]
        {
          prebuffer := prebuffer[1..];
        }
      }
      for i := 0 to |samples|
        invariant prebuffer == was[n..] + samples[..i]
      {
        prebuffer := prebuffer + [samples[i]];
      }
      assert samples[..|samples|] == samples;
    }

    /** Every recorder in turn; those that finish are taken out as the loop comes by. */
    method WriteRecorderFrames(inS: seq<i16>, outS: seq<i16>, power: i16, disk: bool)
      requires ValidConfigs(recorders)
      modifies this`recorders, this`files, this`events
      ensures Model() == old(Model()).Feed(MonoFrame(inS, outS), StereoFrame(inS, outS), power, disk)
    {
      hide R.Recording.WriteFrame, MonoFrame, StereoFrame, FedSoFar;
      ghost var mono, stereo := MonoFrame(inS, outS), StereoFrame(inS, outS);
      ghost var was := Model();
      var i: nat := 0;
      FedStart(was, mono, stereo, power, disk);
      while i < |recorders|
        invariant i <= |recorders| && FedSoFar(was, Model(), i, mono, stereo, power, disk)
        decreases |recorders| - i
      {
        FedTurn(was, Model(), i, mono, stereo, power, disk);
        var frame := BuildRecorderFrame(recorders[i].cfg.channels, inS, outS);
        i := WriteRecorder(i, frame, power, disk);
      }
      FedEnd(was, Model(), i, mono, stereo, power, disk);
    }

    /** The same loop in a mix, on the member's own audio and its peer's. */
    method WriteMixFrames(self: seq<i16>, peer: Option<seq<i16>>, power: i16, disk: bool)
      requires ValidConfigs(recorders)
      modifies this`recorders, this`files, this`events
      ensures Model() == old(Model()).Feed(PeerMono(self, peer), PeerStereo(self, peer), power, disk)
    {
      hide R.Recording.WriteFrame, PeerMono, PeerStereo, FedSoFar;
      ghost var mono, stereo := PeerMono(self, peer), PeerStereo(self, peer);
      ghost var was := Model();
      var i: nat := 0;
      FedStart(was, mono, stereo, power, disk);
      while i < |recorders|
        invariant i <= |recorders| && FedSoFar(was, Model(), i, mono, stereo, power, disk)
        decreases |recorders| - i
      {
        FedTurn(was, Model(), i, mono, stereo, power, disk);
        var frame := BuildMixFrame(recorders[i].cfg.channels, self, peer);
        i := WriteRecorder(i, frame, power, disk);
      }
      FedEnd(was, Model(), i, mono, stereo, power, disk);
    }

    /** One recorder written its frame, reported, and taken out if it finished; the answer is where the loop goes on. */
    method WriteRecorder(i: nat, frame: seq<i16>, power: i16, disk: bool) returns (next: nat)
      requires i < |recorders| && recorders[i].cfg.Valid()
      modifies this`recorders, this`files, this`events
      ensures var r := old(recorders[i]).WriteFrame(frame, power, disk);
              && Model() == Turn(old(Model()), i, r) && next == (if r.state.Finished? then i else i + 1)
      ensures next <= |recorders| && |recorders| - next < |old(recorders)| - i
    {
      hide R.Recording.WriteFrame;
      var before := recorders[i];
      var r := before.WriteFrame(frame, power, disk);
      if before.state.Pending? && r.state.Active? { Post(RecordStarted(r.cfg.file)); }
      if r.state.Finished? {
        Post(RecordFinished(r.cfg.file, "ended"));
        files := files + [r];
        recorders := Removed(recorders, i);
        next := i;
      } else {
        recorders := recorders[i := r];
        next := i + 1;
      }
      assert events == old(events) + WriteEvents(before, r);
    }

    /** The digits the drain loop recognised this tick. */
    method DrainDigits(t: Tick)
      modifies this
      ensures Model() == AfterDigits(old(Model()), t)
    {
      hide Subs.OnDigit;
      ghost var s := Model();
      for d := 0 to t.digits
        invariant s.OnDigits(t.digits, t.opens, t.disk) == Model().OnDigits(t.digits - d, t.opens, t.disk)
      {
        OnDigit(t.opens, t.disk);
      }
    }

    method RunCommonPhases(t: Tick)
      modifies this
      ensures Model() == CommonPhases(old(Model()), t)
    {
      hide Subs.TickPlayer, Subs.TickWriter, Subs.RunBargein, Subs.Accumulate;
      TickPlayer(t.playerFinished, t.opens, t.disk);
      TickWriter(t.writerDrained);
      RunBargein(t.decoded, t.power, t.warm, t.opens, t.disk);
      AccumulatePrebuffer(t.decoded);
    }

    /** The tick of a channel that is not in a mix, phase by phase. */
    method Tick(t: Tick)
      requires Valid() && ValidTick(t)
      modifies this
      ensures Valid() && Model() == LocalTick(old(Model()), t)
      ensures OneSource(old(Model())) ==> OneSource(Model())
    {
      TickKeeps(Model(), t);
      TicksKeepOneSource(Model(), t);
      PhasesValid(Model(), t);
      hide Inv;
      hide AfterDigits, CommonPhases, Subs.Feed, MonoFrame, StereoFrame, ValidConfigs, LocalFrames;
      DrainDigits(t);
      var out := if writer && t.writerFrame.Some? then t.writerFrame else if player.Some? then t.playerFrame else None;
      RunCommonPhases(t);
      FeedLocal(out, t);
    }

    /** Recorders are fed when there is audio on either side; the other side is echo or silence. */
    method FeedLocal(out: Option<seq<i16>>, t: Tick)
      requires ValidConfigs(recorders)
      modifies this
      ensures Model() == match LocalFrames(out, t)
                         case None => old(Model())
                         case Some((i, o)) => old(Model()).Feed(MonoFrame(i, o), StereoFrame(i, o), t.recorderPower, t.disk)
    {
      hide Subs.Feed, MonoFrame, StereoFrame, ValidConfigs;
      if t.decoded.Some? || out.Some? {
        var inS := if t.decoded.Some? then t.decoded.value else Silence();
        var outS := if out.Some? then out.value else if t.echo then inS else Silence();
        if t.wideband.Some? { inS, outS := t.wideband.value.0, t.wideband.value.1; }
        WriteRecorderFrames(inS, outS, t.recorderPower, t.disk);
      }
    }

    /** The tick of a member of a mix: after digits without audio nothing more happens. */
    method TickInMix(t: Tick)
      requires Valid() && ValidTick(t)
      modifies this
      ensures Valid() && Model() == MixedTick(old(Model()), t)
      ensures OneSource(old(Model())) ==> OneSource(Model())
    {
      TickKeeps(Model(), t);
      TicksKeepOneSource(Model(), t);
      PhasesValid(Model(), t);
      hide Inv, AfterDigits, CommonPhases, Subs.Feed, PeerMono, PeerStereo, ValidConfigs;
      DrainDigits(t);
      if t.digits > 0 && !t.audio { return; }
      RunCommonPhases(t);
      if t.decoded.None? || !t.receives { return; }
      if t.wideband.Some? {
        WriteMixFrames(t.wideband.value.0, t.peerWideband, t.recorderPower, t.disk);
      } else {
        WriteMixFrames(t.decoded.value, t.peer, t.recorderPower, t.disk);
      }
    }

    method ClearPending()
      modifies this`pendingRecorder, this`prebuffer
      ensures Model() == old(Model()).ClearPending()
    {
      pendingRecorder := None;
      prebuffer := [];
    }

    method ReplacePlayer()
      modifies this`player, this`bargein, this`events
      ensures Model() == old(Model()).ReplacePlayer()
    {
      if player.Some? { EndPlayer("replaced"); }
    }

    method StartRecording(cfg: R.Config, opens: bool)
      modifies this
      ensures Model() == RecordAt(old(Model()), cfg, opens)
    {
      ClearPending();
      var i := PausedAt(recorders, cfg.file);
      if i < |recorders| {
        recorders := recorders[i := recorders[i].Resume()];
        Post(RecordStarted(cfg.file));
      } else if opens {
        var j := IndexOf(recorders, cfg.file);
        if j < |recorders| { Post(RecordFinished(cfg.file, "channelclosed")); }
        ReplaceRecorder(R.Open(cfg));
        if cfg.startAbove.None? { Post(RecordStarted(cfg.file)); }
      } else {
        Post(RecordFinished(cfg.file, "open-failed"));
      }
    }

    /** A prompt, in the place of the one that is on and of any queued recorder. */
    method StartPlayer(interrupts: bool)
      modifies this`player, this`bargein, this`pendingRecorder, this`prebuffer, this`events
      ensures Model() == Handle(old(Model()), Play(interrupts))
    {
      ReplacePlayer();
      ClearPending();
      player := Some(Player(interrupts));
      Post(PlayStart);
    }

    method StartPlayRecord(interrupts: bool, detector: Option<BargeIn>, cfg: R.Config)
      modifies this`player, this`bargein, this`pendingRecorder, this`prebuffer, this`events
      ensures Model() == Handle(old(Model()), PlayAndRecord(interrupts, detector, cfg))
    {
      StartPlayer(interrupts);
      if interrupts && detector.Some? { bargein := detector; }
      pendingRecorder := Some(cfg);
    }

    method StartWriter()
      modifies this`player, this`bargein, this`pendingRecorder, this`prebuffer, this`events, this`writer
      ensures Model() == Handle(old(Model()), CreateWriteStream)
    {
      ReplacePlayer();
      ClearPending();
      writer := true;
    }

    method DropWriter(matches: bool)
      modifies this`writer
      ensures Model() == Handle(old(Model()), DestroyWriteStream(matches))
    {
      if matches { writer := false; }
    }

    method EndForMix()
      modifies this`player, this`bargein, this`pendingRecorder, this`prebuffer, this`events
      ensures Model() == Handle(old(Model()), EnterMix)
    {
      if player.Some? { EndPlayer("mix"); }
      ClearPending();
    }

    method FinishRecorder(file: string)
      modifies this`recorders, this`files, this`events
      ensures Model() == Handle(old(Model()), RecordFinish(file))
    {
      var i := IndexOf(recorders, file);
      if i < |recorders| {
        files := files + [recorders[i].RequestFinish(R.Requested)];
        recorders := Removed(recorders, i);
        Post(RecordFinished(file, "requested"));
      }
    }

    method SetPaused(file: string, paused: bool)
      modifies this`recorders
      ensures Model() == Handle(old(Model()), RecordSetPaused(file, paused))
    {
      var i := IndexOf(recorders, file);
      if i < |recorders| {
        recorders := recorders[i := if paused then recorders[i].Pause() else recorders[i].Resume()];
      }
    }

    /** The commands that act on the subsystems, and what the actor does to them on the way into a mix. */
    method HandleCommand(c: Command)
      requires Valid() && ValidCommand(c)
      modifies this
      ensures Valid() && Model() == Handle(old(Model()), c)
      ensures OneSource(old(Model())) ==> (OneSource(Model()) <==> !(Prompts(c) && old(writer)))
    {
      CommandKeeps(Model(), c);
      if OneSource(Model()) { CommandKeepsOneSourceIff(Model(), c); }
      hide Inv, OneSource, Prompts, ValidCommand;
      HandleRecord(Model(), c);
      hide Handle;
      match c {
        case Play(interrupts) => StartPlayer(interrupts);
        case Record(cfg, opens) => StartRecording(cfg, opens);
        case PlayAndRecord(interrupts, detector, cfg) => StartPlayRecord(interrupts, detector, cfg);
        case CreateWriteStream => StartWriter();
        case DestroyWriteStream(matches) => DropWriter(matches);
        case RecordFinish(file) => FinishRecorder(file);
        case RecordSetPaused(file, paused) => SetPaused(file, paused);
        case EnterMix => EndForMix();
      }
    }

    /** Each recorder closed and reported. */
    method CloseRecorders()
      modifies this`recorders, this`files, this`events
      ensures var closed := CloseAll(old(recorders));
              Model() == old(Model()).(recorders := [], files := old(files) + closed.gone, events := old(events) + closed.events)
    {
      ghost var closed, files0, events0 := CloseAll(recorders), files, events;
      while recorders != []
        invariant files0 + closed.gone == files + CloseAll(recorders).gone
        invariant events0 + closed.events == events + CloseAll(recorders).events
        decreases |recorders|
      {
        var rec := recorders[0];
        recorders := recorders[1..];
        files := files + [rec.RequestFinish(R.ChannelClosed)];
        Post(RecordFinished(rec.cfg.file, "channelclosed"));
      }
    }

    /** The end of the actor: everything still on is ended, the registry told, and Close is the last event and the only one. */
    method CloseDown()
      requires Valid()
      modifies this
      ensures Model() == Exit(old(Model())) && Closed(Model())
    {
      ExitBalances(Model());
      hide Closed, Inv, CloseAll;
      if player.Some? { EndPlayer("channelclosed"); }
      CloseRecorders();
      writer := false;
      ExitIsEnding(old(Model()), Model());
      hide Exit;
      DropPending();
    }

    method DropPending()
      modifies this`pendingRecorder, this`prebuffer, this`events
      ensures Model() == Ending(old(Model()))
    {
      if pendingRecorder.Some? {
        var file := pendingRecorder.value.file;
        pendingRecorder := None;
        Post(RecordFinished(file, "channelclosed"));
      }
      prebuffer := [];
      Post(Unregistered);
      Post(CloseEvent);
    }
  }

  lemma ExitIsEnding(was: Subs, s: Subs)
    requires var s1 := if was.player.Some? then was.EndPlayer("channelclosed") else was;
             var closed := CloseAll(s1.recorders);
             s == s1.(recorders := [], files := s1.files + closed.gone, events := s1.events + closed.events, writer := false)
    ensures Exit(was) == Ending(s)
  {
    hide CloseAll;
  }

  lemma HandleRecord(s: Subs, c: Command)
    ensures c.Record? ==> Handle(s, c) == RecordAt(s, c.cfg, c.opens)
  {
    hide RecordAt;
  }

  // ---- The recorder loop under way ----

  /** Recorders before i have been written; what is left to do is the list from i on. */
  ghost predicate FedSoFar(was: Subs, now: Subs, i: nat, mono: seq<i16>, stereo: seq<i16>, power: i16, disk: bool) {
    && i <= |now.recorders| && ValidConfigs(was.recorders) && ValidConfigs(now.recorders[i..])
    && (var fed := FeedAll(was.recorders, mono, stereo, power, disk);
        var rest := FeedAll(now.recorders[i..], mono, stereo, power, disk);
        && fed.kept == now.recorders[..i] + rest.kept
        && was.files + fed.gone == now.files + rest.gone
        && was.events + fed.events == now.events + rest.events)
    && now == was.(recorders := now.recorders, files := now.files, events := now.events)
  }

  lemma FedStart(was: Subs, mono: seq<i16>, stereo: seq<i16>, power: i16, disk: bool)
    requires ValidConfigs(was.recorders)
    ensures FedSoFar(was, was, 0, mono, stereo, power, disk)
  {
    assert was.recorders[0..] == was.recorders;
  }

  lemma FedEnd(was: Subs, now: Subs, i: nat, mono: seq<i16>, stereo: seq<i16>, power: i16, disk: bool)
    requires FedSoFar(was, now, i, mono, stereo, power, disk) && i == |now.recorders|
    ensures ValidConfigs(was.recorders) && now == was.Feed(mono, stereo, power, disk)
  {
    assert now.recorders[i..] == [] && now.recorders[..i] == now.recorders;
    var fed := FeedAll(was.recorders, mono, stereo, power, disk);
    assert FeedAll([], mono, stereo, power, disk) == Fed([], [], []);
    assert was.files + fed.gone == now.files && was.events + fed.events == now.events && fed.kept == now.recorders;
  }

  /** What one turn of the loop makes of the state. */
  function Turn(now: Subs, i: nat, r: R.Recording): Subs
    requires i < |now.recorders|
  {
    now.(events := now.events + WriteEvents(now.recorders[i], r),
         files := if r.state.Finished? then now.files + [r] else now.files,
         recorders := if r.state.Finished? then Removed(now.recorders, i) else now.recorders[i := r])
  }

  lemma TurnList(rs: seq<R.Recording>, i: nat, r: R.Recording)
    requires i < |rs|
    ensures Removed(rs, i)[i..] == rs[i + 1..] && Removed(rs, i)[..i] == rs[..i]
    ensures rs[i := r][i + 1..] == rs[i + 1..] && rs[i := r][..i + 1] == rs[..i] + [r]
    ensures rs[i..][0] == rs[i] && rs[i..][1..] == rs[i + 1..]
  {
  }

  lemma FedTurn(was: Subs, now: Subs, i: nat, mono: seq<i16>, stereo: seq<i16>, power: i16, disk: bool)
    requires FedSoFar(was, now, i, mono, stereo, power, disk) && i < |now.recorders|
    ensures now.recorders[i].cfg.Valid()
    ensures var before := now.recorders[i];
            var r := before.WriteFrame(if before.cfg.channels == 2 then stereo else mono, power, disk);
            FedSoFar(was, Turn(now, i, r), if r.state.Finished? then i else i + 1, mono, stereo, power, disk)
  {
    var rs := now.recorders;
    assert rs[i..][0] == rs[i];
    hide R.Recording.WriteFrame;
    var r := rs[i].WriteFrame(if rs[i].cfg.channels == 2 then stereo else mono, power, disk);
    TurnList(rs, i, r);
    RestValid(rs, i);
    FedTurnJoins(was, now, i, r, mono, stereo, power, disk);
  }

  lemma FedTurnJoins(was: Subs, now: Subs, i: nat, r: R.Recording, mono: seq<i16>, stereo: seq<i16>, power: i16, disk: bool)
    requires FedSoFar(was, now, i, mono, stereo, power, disk) && i < |now.recorders|
    requires ValidConfigs(now.recorders[i + 1..])
    requires var fed, rest := FeedAll(now.recorders[i..], mono, stereo, power, disk),
                              FeedAll(now.recorders[i + 1..], mono, stereo, power, disk);
             && fed.kept == (if r.state.Finished? then rest.kept else [r] + rest.kept)
             && fed.gone == (if r.state.Finished? then [r] + rest.gone else rest.gone)
             && fed.events == WriteEvents(now.recorders[i], r) + rest.events
    ensures FedSoFar(was, Turn(now, i, r), if r.state.Finished? then i else i + 1, mono, stereo, power, disk)
  {
    hide FeedAll, WriteEvents, ValidConfigs, R.Recording.WriteFrame;
    TurnList(now.recorders, i, r);
    hide Removed;
    var rs, fed, part, rest := now.recorders, FeedAll(was.recorders, mono, stereo, power, disk),
      FeedAll(now.recorders[i..], mono, stereo, power, disk), FeedAll(now.recorders[i + 1..], mono, stereo, power, disk);
    Regroup(now.events, WriteEvents(rs[i], r), rest.events);
    Regroup(now.files, [r], rest.gone);
    Regroup(rs[..i], [r], rest.kept);
    var next := Turn(now, i, r);
    assert was.events + fed.events == next.events + rest.events;
    assert was.files + fed.gone == next.files + rest.gone;
    assert next == was.(recorders := next.recorders, files := next.files, events := next.events);
    var k := if r.state.Finished? then i else i + 1;
    assert next.recorders[k..] == rs[i + 1..];
    assert fed.kept == next.recorders[..k] + rest.kept;
  }

  lemma Regroup<T>(a: seq<T>, b: seq<T>, c: seq<T>)
    ensures a + (b + c) == (a + b) + c
  {
  }

  lemma RestValid(rs: seq<R.Recording>, i: nat)
    requires i < |rs| && ValidConfigs(rs[i..])
    ensures ValidConfigs(rs[i + 1..])
  {
    var rest := rs[i + 1..];
    forall j | 0 <= j < |rest| ensures rest[j].cfg.Valid() {
      assert rest[j] == rs[i..][j + 1];
    }
  }

  lemma {:induction false} InterleaveOneMore(a: seq<i16>, b: seq<i16>, x: i16, y: i16)
    requires |a| == |b|
    ensures Interleave(a + [x], b + [y]) == Interleave(a, b) + [x, y]
  {
    if a == [] {
      assert [x] + [] == [x];
    } else {
      assert (a + [x])[1..] == a[1..] + [x] && (b + [y])[1..] == b[1..] + [y];
      InterleaveOneMore(a[1..], b[1..], x, y);
    }
  }

  /** One WAV frame: mono the saturated sum of both sides, stereo left what came in and right what went out. */
  method BuildRecorderFrame(channels: nat, inS: seq<i16>, outS: seq<i16>) returns (frame: seq<i16>)
    ensures frame == if channels == 2 then StereoFrame(inS, outS) else MonoFrame(inS, outS)
  {
    var n := Max(|inS|, |outS|);
    frame := [];
    if channels == 2 {
      ghost var l, r := Padded(inS, n), Padded(outS, n);
      for j := 0 to n
        invariant frame == Interleave(l[..j], r[..j])
      {
        InterleaveOneMore(l[..j], r[..j], l[j], r[j]);
        assert l[..j + 1] == l[..j] + [l[j]] && r[..j + 1] == r[..j] + [r[j]];
        frame := frame + [SampleAt(inS, j), SampleAt(outS, j)];
      }
      assert l[..n] == l && r[..n] == r;
    } else {
      for j := 0 to n
        invariant frame == MonoFrame(inS, outS)[..j]
      {
        frame := frame + [Clamp16(SampleAt(inS, j) + SampleAt(outS, j))];
      }
      assert MonoFrame(inS, outS)[..n] == MonoFrame(inS, outS);
    }
  }

  /** In a mix: mono the clamped sum with the peer, stereo the peer on the right, cut or filled; without a peer one's own audio. */
  method BuildMixFrame(channels: nat, self: seq<i16>, peer: Option<seq<i16>>) returns (frame: seq<i16>)
    ensures frame == if channels == 2 then PeerStereo(self, peer) else PeerMono(self, peer)
  {
    frame := [];
    ghost var right := PeerSide(self, peer);
    ghost var stereo, mono := Interleave(self, right), PeerMono(self, peer);
    if channels == 2 {
      for j := 0 to |self|
        invariant frame == Interleave(self[..j], right[..j])
      {
        InterleaveOneMore(self[..j], right[..j], self[j], right[j]);
        assert self[..j + 1] == self[..j] + [self[j]] && right[..j + 1] == right[..j] + [right[j]];
        frame := frame + [self[j], if peer.Some? then SampleAt(peer.value, j) else self[j]];
      }
      assert self[..|self|] == self && right[..|self|] == right;
      WholeStereo(self, right);
    } else if peer.Some? {
      for j := 0 to |self|
        invariant frame == mono[..j]
      {
        frame := frame + [Clamp16(self[j] + SampleAt(peer.value, j))];
      }
      assert mono[..|self|] == mono;
    } else {
      frame := self;
    }
  }

  lemma WholeStereo(a: seq<i16>, b: seq<i16>)
    requires |a| == |b|
    ensures StereoFrame(a, b) == Interleave(a, b)
  {
    assert Padded(a, |a|) == a && Padded(b, |b|) == b;
  }
}
