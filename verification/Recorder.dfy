/**
 * A recorder's policy over its WAV file (rust/src/channel/recorder.rs): the
 * power gate, the duration limits, pause and finish. The packet power is handed
 * in: how it is measured, and its warm-up, are not part of this model. `disk`
 * says whether the file took a write.
 */
module Recorder {
  import opened Common
  import FirFilter

  datatype Config = Config(
    file: string, channels: nat, sampleRate: nat,
    maxMs: Option<nat>, startAbove: Option<int>, finishBelow: Option<int>, minMs: Option<nat>,
    averaging: nat)
  {
    /** Samples of all channels in a second. */
    function Rate(): nat { sampleRate * channels }

    /** The moving average divides by its length, so it has one; the code's default is 250. */
    predicate Valid() { 0 < averaging <= FirFilter.MA_LENGTH }
  }

  datatype State = Pending | Active | Paused | Finished

  datatype Reason = Completed | MaxDurationReached | BelowPowerThreshold | ChannelClosed | Requested

  /** `audio` is what the file holds after its header; `powers` what the moving average has been given. */
  datatype Recording = Recording(
    cfg: Config, state: State, samplesWritten: nat, samplesSinceActive: nat,
    lastPower: int, maxSinceActivePower: int, reason: Option<Reason>,
    audio: seq<i16>, powers: seq<i16>)
  {
    function FileSize(): nat { 44 + 2 * |audio| }

    function ActiveMs(): nat {
      if cfg.Rate() > 0 then samplesSinceActive * 1000 / cfg.Rate() else 0
    }

    function Pause(): Recording { if state.Active? || state.Pending? then this.(state := Paused) else this }

    function Resume(): Recording { if state.Paused? then this.(state := Active) else this }

    function RequestFinish(r: Reason): Recording {
      if state.Finished? then this else this.(state := Finished, reason := if reason.Some? then reason else Some(r))
    }

    /** The packet's power into the moving average, and the gate. */
    function Observe(power: i16): Recording
      requires cfg.Valid()
    {
      var r := this.(powers := powers + [power], lastPower := FirFilter.Average(powers + [power], cfg.averaging));
      if state.Pending? && cfg.startAbove.Some? && r.lastPower > cfg.startAbove.value then
        r.(state := Active, samplesSinceActive := 0, maxSinceActivePower := r.lastPower)
      else r
    }

    function Append(samples: seq<i16>): Recording {
      this.(audio := audio + samples, samplesWritten := samplesWritten + |samples|,
            samplesSinceActive := samplesSinceActive + |samples|)
    }

    /** The finish checks after a write. */
    function FinishChecks(): Recording {
      if cfg.minMs.Some? && ActiveMs() < cfg.minMs.value then this
      else if cfg.finishBelow.Some? && maxSinceActivePower > cfg.finishBelow.value && lastPower < cfg.finishBelow.value then
        RequestFinish(BelowPowerThreshold)
      else if cfg.maxMs.Some? && ActiveMs() > cfg.maxMs.value then RequestFinish(MaxDurationReached)
      else this
    }

    function WriteFrame(samples: seq<i16>, power: i16, disk: bool): Recording
      requires cfg.Valid()
    {
      if state.Finished? || state.Paused? then this
      else
        var r := Observe(power);
        if r.state.Pending? then r
        else
          var r1 := r.(maxSinceActivePower := Max(r.lastPower, r.maxSinceActivePower));
          if disk then r1.Append(samples).FinishChecks() else r1
    }

    /** Straight to the file, past the gate and the checks. */
    function WriteRaw(samples: seq<i16>, disk: bool): Recording {
      if state.Finished? || samples == [] || !disk then this
      else this.(audio := audio + samples, samplesWritten := samplesWritten + |samples|)
    }
  }

  function Open(cfg: Config): Recording {
    Recording(cfg, if cfg.startAbove.Some? then Pending else Active, 0, 0, 0, 0, None, [], [])
  }

  class Recorder {
    const cfg: Config
    var state: State
    var samplesWritten: nat
    var samplesSinceActive: nat
    var lastPowerCalc: int
    var maxSinceActivePower: int
    var finishReason: Option<Reason>
    const powerMa: FirFilter.MaFilter
    var file: seq<i16>
    var closed: bool

    ghost predicate Valid()
      reads this, powerMa, powerMa.history
    {
      cfg.Valid() && powerMa.Valid() && powerMa.l == cfg.averaging && (closed ==> state.Finished?)
    }

    ghost function Model(): Recording
      reads this, powerMa, powerMa.history
    {
      Recording(cfg, state, samplesWritten, samplesSinceActive, lastPowerCalc, maxSinceActivePower, finishReason, file,
                powerMa.past)
    }

    constructor (cfg: Config)
      requires cfg.Valid()
      ensures Valid() && Model() == Open(cfg) && fresh(powerMa) && fresh(powerMa.history)
    {
      this.cfg := cfg;
      state := if cfg.startAbove.Some? then Pending else Active;
      samplesWritten, samplesSinceActive, lastPowerCalc, maxSinceActivePower := 0, 0, 0, 0;
      finishReason, file, closed := None, [], false;
      var ma := new FirFilter.MaFilter();
      ma.Reset(cfg.averaging);
      powerMa := ma;
    }

    method DoPause()
      requires Valid()
      modifies this`state
      ensures Valid() && Model() == old(Model()).Pause()
    {
      if state.Active? || state.Pending? { state := Paused; }
    }

    method DoResume()
      requires Valid()
      modifies this`state
      ensures Valid() && Model() == old(Model()).Resume()
    {
      if state.Paused? { state := Active; }
    }

    method Finish(reason: Reason)
      requires Valid()
      modifies this`state, this`finishReason
      ensures Valid() && Model() == old(Model()).RequestFinish(reason)
    {
      if !state.Finished? {
        state := Finished;
        if finishReason.None? { finishReason := Some(reason); }
      }
    }

    method Write(samples: seq<i16>, power: i16, disk: bool) returns (written: bool)
      requires Valid()
      modifies this`state, this`samplesWritten, this`samplesSinceActive, this`lastPowerCalc, this`maxSinceActivePower,
               this`finishReason, this`file, powerMa, powerMa.history
      ensures Valid() && Model() == old(Model()).WriteFrame(samples, power, disk)
      ensures file == if written then old(file) + samples else old(file)
    {
      hide FirFilter.Average, Recording.FinishChecks;
      if state.Finished? || state.Paused? { return false; }
      var smoothed := powerMa.Execute(power);
      lastPowerCalc := smoothed;
      if state.Pending? {
        if cfg.startAbove.Some? && lastPowerCalc > cfg.startAbove.value {
          state := Active;
          samplesSinceActive := 0;
          maxSinceActivePower := lastPowerCalc;
        } else {
          return false;
        }
      }
      if lastPowerCalc > maxSinceActivePower { maxSinceActivePower := lastPowerCalc; }
      if !disk { return false; }
      Append(samples);
      written := true;
      CheckFinish();
    }

    method Append(samples: seq<i16>)
      requires Valid()
      modifies this`samplesWritten, this`samplesSinceActive, this`file
      ensures Valid() && Model() == old(Model()).Append(samples)
    {
      file := file + samples;
      samplesWritten := samplesWritten + |samples|;
      samplesSinceActive := samplesSinceActive + |samples|;
    }

    method CheckFinish()
      requires Valid()
      modifies this`state, this`finishReason
      ensures Valid() && Model() == old(Model()).FinishChecks() && file == old(file)
    {
      var sr := cfg.sampleRate * cfg.channels;
      var activeMs := if sr > 0 then samplesSinceActive * 1000 / sr else 0;
      if cfg.minMs.Some? && activeMs < cfg.minMs.value { return; }
      if cfg.finishBelow.Some? {
        if maxSinceActivePower > cfg.finishBelow.value && lastPowerCalc < cfg.finishBelow.value {
          Finish(BelowPowerThreshold);
          return;
        }
      }
      if cfg.maxMs.Some? && activeMs > cfg.maxMs.value {
        Finish(MaxDurationReached);
      }
    }

    method WriteRaw(samples: seq<i16>, disk: bool) returns (n: nat)
      requires Valid()
      modifies this`samplesWritten, this`file
      ensures Valid() && Model() == old(Model()).WriteRaw(samples, disk)
      ensures n == if disk && !state.Finished? then |samples| else 0
    {
      if state.Finished? || samples == [] { return 0; }
      if !disk { return 0; }
      file := file + samples;
      samplesWritten := samplesWritten + |samples|;
      n := |samples|;
    }

    /** Finishes with the given reason, if none was there, and closes the file. */
    method Close(reason: Reason)
      requires Valid()
      modifies this`state, this`finishReason, this`closed
      ensures Valid() && closed && Model() == old(Model()).RequestFinish(reason)
    {
      Finish(reason);
      closed := true;
    }
  }

  // ---- Runs ----

  datatype Op = Write(samples: seq<i16>, power: i16, disk: bool) | Raw(samples: seq<i16>, disk: bool)
              | PauseOp | ResumeOp | FinishOp(reason: Reason)

  function Apply(r: Recording, op: Op): Recording
    requires r.cfg.Valid()
  {
    match op
    case Write(s, p, d) => r.WriteFrame(s, p, d)
    case Raw(s, d) => r.WriteRaw(s, d)
    case PauseOp => r.Pause()
    case ResumeOp => r.Resume()
    case FinishOp(reason) => r.RequestFinish(reason)
  }

  lemma ApplyKeepsConfig(r: Recording, op: Op)
    requires r.cfg.Valid()
    ensures Apply(r, op).cfg == r.cfg
  {
    hide FirFilter.Average;
  }

  function Run(r: Recording, ops: seq<Op>): Recording
    requires r.cfg.Valid()
    decreases |ops|
  {
    if ops == [] then r
    else
      ApplyKeepsConfig(r, ops[0]);
      Run(Apply(r, ops[0]), ops[1..])
  }

  /** No frame is longer than this many samples. */
  predicate FramesUpTo(ops: seq<Op>, n: nat) { forall op <- ops :: op.Write? ==> |op.samples| <= n }

  /** Once finished nothing changes any more: not the reason, not the file. */
  lemma {:induction false} FinishedForGood(r: Recording, ops: seq<Op>)
    requires r.cfg.Valid() && r.state.Finished?
    ensures Run(r, ops) == r
    decreases |ops|
  {
    if ops != [] { FinishedForGood(r, ops[1..]); }
  }

  /** What raw writes alone put into the file. */
  function RawIn(ops: seq<Op>): seq<i16> {
    if ops == [] then [] else (if ops[0].Raw? && ops[0].disk then ops[0].samples else []) + RawIn(ops[1..])
  }

  lemma {:induction false} NeverPendingAgain(r: Recording, ops: seq<Op>)
    requires r.cfg.Valid() && !r.state.Pending?
    ensures !Run(r, ops).state.Pending?
    decreases |ops|
  {
    hide FirFilter.Average;
    if ops != [] { NeverPendingAgain(Apply(r, ops[0]), ops[1..]); }
  }

  /** Behind a closed gate no frame reaches the file, however many are written: only what was written raw. */
  lemma {:induction false} GateHolds(r: Recording, ops: seq<Op>)
    requires r.cfg.Valid() && r.state.Pending? && Run(r, ops).state.Pending?
    ensures Run(r, ops).audio == r.audio + RawIn(ops)
    decreases |ops|
  {
    hide FirFilter.Average;
    if ops != [] {
      var r1 := Apply(r, ops[0]);
      if !r1.state.Pending? { NeverPendingAgain(r1, ops[1..]); }
      GateHolds(r1, ops[1..]);
    }
  }

  /** The last millisecond the limits let a recording be active: below the minimum duration nothing finishes it. */
  function Limit(cfg: Config): nat
    requires cfg.maxMs.Some?
  {
    if cfg.minMs.Some? then Max(cfg.maxMs.value, cfg.minMs.value - 1) else cfg.maxMs.value
  }

  /** Some reason of the recorder's own: not one it was told. */
  predicate OfItself(r: Option<Reason>) { r == Some(MaxDurationReached) || r == Some(BelowPowerThreshold) }

  /** What every run of operations keeps, with frames of up to n samples and nobody else finishing it for its own reasons. */
  predicate Ok(r: Recording, n: nat) {
    && r.cfg.Valid()
    && r.samplesWritten == |r.audio| && r.samplesSinceActive <= r.samplesWritten
    && (r.reason.Some? <==> r.state.Finished?)
    && (r.state.Pending? ==> r.cfg.startAbove.Some? && r.samplesSinceActive == 0)
    && (r.cfg.maxMs.Some? && r.cfg.Rate() > 0 ==>
          && (!r.state.Finished? ==> r.ActiveMs() <= Limit(r.cfg))
          && r.samplesSinceActive * 1000 < (Limit(r.cfg) + 1) * r.cfg.Rate() + 1000 * n)
    && (OfItself(r.reason) ==>
          && (r.cfg.minMs.Some? ==> r.ActiveMs() >= r.cfg.minMs.value)
          && (r.reason == Some(MaxDurationReached) ==> r.cfg.maxMs.Some? && r.ActiveMs() > r.cfg.maxMs.value)
          && (r.reason == Some(BelowPowerThreshold) ==>
                r.cfg.finishBelow.Some? && r.lastPower < r.cfg.finishBelow.value < r.maxSinceActivePower))
  }

  lemma OpenOk(cfg: Config, n: nat)
    requires cfg.Valid()
    ensures Ok(Open(cfg), n)
  {
    if cfg.maxMs.Some? && cfg.Rate() > 0 {
      assert (Limit(cfg) + 1) * cfg.Rate() > 0;
    }
  }

  /** One more frame on top of a count within the limit. */
  lemma FrameOnTop(since: nat, k: nat, n: nat, rate: nat, limit: nat)
    requires rate > 0 && k <= n && since * 1000 / rate <= limit
    ensures (since + k) * 1000 < (limit + 1) * rate + 1000 * n
  {
    var q := since * 1000 / rate;
    assert since * 1000 < (q + 1) * rate;
    assert (q + 1) * rate <= (limit + 1) * rate;
  }

  lemma ObserveOk(r: Recording, power: i16, n: nat)
    requires Ok(r, n) && !r.state.Finished?
    ensures var r1 := r.Observe(power);
            Ok(r1, n) && !r1.state.Finished? && Ok(r1.(maxSinceActivePower := Max(r1.lastPower, r1.maxSinceActivePower)), n)
  {
    hide FirFilter.Average, Config.Rate, Limit;
    assert r.state.Pending? ==> r.ActiveMs() == r.(samplesSinceActive := 0).ActiveMs();
  }

  lemma AppendOk(r: Recording, samples: seq<i16>, n: nat)
    requires Ok(r, n) && r.state.Active? && |samples| <= n
    ensures Ok(r.Append(samples).FinishChecks(), n)
  {
    if r.cfg.maxMs.Some? && r.cfg.Rate() > 0 {
      FrameOnTop(r.samplesSinceActive, |samples|, n, r.cfg.Rate(), Limit(r.cfg));
    }
    hide Config.Rate;
  }

  lemma WriteOk(r: Recording, samples: seq<i16>, power: i16, disk: bool, n: nat)
    requires Ok(r, n) && |samples| <= n
    ensures Ok(r.WriteFrame(samples, power, disk), n)
  {
    if r.state.Active? || r.state.Pending? {
      var r1 := r.Observe(power);
      ObserveOk(r, power, n);
      var r2 := r1.(maxSinceActivePower := Max(r1.lastPower, r1.maxSinceActivePower));
      StillLive(r, power);
      hide Recording.Observe, Ok;
      if r1.state.Active? { AppendOk(r2, samples, n); }
      hide Recording.Append, Recording.FinishChecks;
    }
  }

  lemma StillLive(r: Recording, power: i16)
    requires r.cfg.Valid() && (r.state.Active? || r.state.Pending?)
    ensures r.Observe(power).state.Active? || r.Observe(power).state.Pending?
  {
    hide FirFilter.Average;
  }

  lemma {:induction false} RunOk(r: Recording, ops: seq<Op>, n: nat)
    requires Ok(r, n) && FramesUpTo(ops, n) && forall op <- ops :: op.FinishOp? ==> !OfItself(Some(op.reason))
    ensures Ok(Run(r, ops), n)
    decreases |ops|
  {
    if ops != [] {
      match ops[0] {
        case Write(s, p, d) => WriteOk(r, s, p, d, n);
        case _ =>
      }
      hide Recording.WriteFrame;
      RunOk(Apply(r, ops[0]), ops[1..], n);
    }
  }

  /**
   * The limits, over any run of writes, raw writes, pauses, resumes and finishes
   * from outside: with a maximum duration the recording is never active for a
   * frame more than the limit allows; a finish of the recorder's own never comes
   * before the minimum duration, and one for low power only after higher power.
   */
  lemma LimitsHold(cfg: Config, ops: seq<Op>, n: nat)
    requires cfg.Valid() && FramesUpTo(ops, n) && forall op <- ops :: op.FinishOp? ==> !OfItself(Some(op.reason))
    ensures var r := Run(Open(cfg), ops);
            && r.FileSize() == 44 + 2 * r.samplesWritten
            && (cfg.maxMs.Some? && cfg.Rate() > 0 ==>
                  r.samplesSinceActive * 1000 < (Limit(cfg) + 1) * cfg.Rate() + 1000 * n)
            && (OfItself(r.reason) && cfg.minMs.Some? ==> r.ActiveMs() >= cfg.minMs.value)
            && (r.reason == Some(BelowPowerThreshold) ==> r.maxSinceActivePower > r.lastPower)
  {
    OpenOk(cfg, n);
    RunOk(Open(cfg), ops, n);
    RunKeepsConfig(Open(cfg), ops);
    hide Run;
  }

  lemma {:induction false} RunKeepsConfig(r: Recording, ops: seq<Op>)
    requires r.cfg.Valid()
    ensures Run(r, ops).cfg == r.cfg
    decreases |ops|
  {
    if ops != [] {
      ApplyKeepsConfig(r, ops[0]);
      RunKeepsConfig(Apply(r, ops[0]), ops[1..]);
    }
  }

  // ---- What a recording is, frame by frame ----

  datatype Frame = Frame(samples: seq<i16>, power: i16)

  /** Frames written one after another to a fresh recorder, the disk taking each. */
  function Written(cfg: Config, frames: seq<Frame>, n: nat): (r: Recording)
    requires cfg.Valid() && n <= |frames|
    ensures r.cfg == cfg
  {
    if n == 0 then Open(cfg)
    else
      ApplyKeepsConfig(Written(cfg, frames, n - 1), Write(frames[n - 1].samples, frames[n - 1].power, true));
      Written(cfg, frames, n - 1).WriteFrame(frames[n - 1].samples, frames[n - 1].power, true)
  }

  function Powers(frames: seq<Frame>): seq<i16> { seq(|frames|, i requires 0 <= i < |frames| => frames[i].power) }

  /** The average power after the first n frames. */
  function Level(cfg: Config, frames: seq<Frame>, n: nat): int
    requires cfg.Valid() && n <= |frames|
  {
    FirFilter.Average(Powers(frames[..n]), cfg.averaging)
  }

  /** The samples of frames a + 1 to b. */
  function Joined(frames: seq<Frame>, a: nat, b: nat): seq<i16>
    requires b <= |frames|
  {
    if a >= b then [] else Joined(frames, a, b - 1) + frames[b - 1].samples
  }

  /** With frame n the gate is open: there is none, or the average is above it. */
  predicate Loud(cfg: Config, frames: seq<Frame>, n: nat)
    requires cfg.Valid() && n <= |frames|
  {
    cfg.startAbove.None? || Level(cfg, frames, n) > cfg.startAbove.value
  }

  /** Frame i is the first to open it. */
  predicate Opens(cfg: Config, frames: seq<Frame>, i: nat)
    requires cfg.Valid()
  {
    1 <= i <= |frames| && Loud(cfg, frames, i) && forall h: nat | 1 <= h < i :: !Loud(cfg, frames, h)
  }

  /** The average has been above f since frame i opened the gate; an open recorder starts from 0. */
  predicate HasBeenAbove(cfg: Config, frames: seq<Frame>, i: nat, j: nat, f: int)
    requires cfg.Valid() && j <= |frames|
  {
    (cfg.startAbove.None? && 0 > f) || exists h: nat | i <= h <= j :: Level(cfg, frames, h) > f
  }

  /**
   * Why frame j ends a recording that frame i began, if it does: never before
   * the minimum duration; for low power once the average has been above the
   * threshold and is below it; or for a duration above the maximum.
   */
  function Ends(cfg: Config, frames: seq<Frame>, i: nat, j: nat): Option<Reason>
    requires cfg.Valid() && 1 <= i <= j <= |frames|
  {
    var rate := cfg.sampleRate * cfg.channels;
    var ms := if rate > 0 then |Joined(frames, i - 1, j)| * 1000 / rate else 0;
    if cfg.minMs.Some? && ms < cfg.minMs.value then None
    else if cfg.finishBelow.Some? && HasBeenAbove(cfg, frames, i, j, cfg.finishBelow.value)
            && Level(cfg, frames, j) < cfg.finishBelow.value then Some(BelowPowerThreshold)
    else if cfg.maxMs.Some? && ms > cfg.maxMs.value then Some(MaxDurationReached)
    else None
  }

  /** Frame j is the first to end it. */
  predicate EndsFirst(cfg: Config, frames: seq<Frame>, i: nat, j: nat)
    requires cfg.Valid()
  {
    1 <= i <= j <= |frames| && Ends(cfg, frames, i, j).Some? && forall h: nat | i <= h < j :: Ends(cfg, frames, i, h).None?
  }

  /** The state while the gate is closed, and while it is recording. */
  predicate StillShut(cfg: Config, frames: seq<Frame>, n: nat, r: Recording)
    requires cfg.Valid() && n <= |frames|
  {
    && r.state == (if cfg.startAbove.Some? then Pending else Active) && r.audio == [] && r.samplesWritten == 0
    && r.samplesSinceActive == 0 && r.maxSinceActivePower == 0 && r.reason.None? && r.powers == Powers(frames[..n])
    && (cfg.startAbove.None? ==> n == 0)
  }

  ghost predicate Rolling(cfg: Config, frames: seq<Frame>, i: nat, n: nat, r: Recording)
    requires cfg.Valid() && 1 <= i <= n <= |frames|
  {
    && r.state.Active? && r.audio == Joined(frames, i - 1, n) && r.samplesSinceActive == |r.audio| && r.reason.None?
    && r.powers == Powers(frames[..n])
    && forall f: int :: r.maxSinceActivePower > f <==> HasBeenAbove(cfg, frames, i, n, f)
  }

  lemma OneMorePower(cfg: Config, frames: seq<Frame>, n: nat)
    requires cfg.Valid() && 1 <= n <= |frames|
    ensures Powers(frames[..n]) == Powers(frames[..n - 1]) + [frames[n - 1].power]
    ensures Level(cfg, frames, n) == FirFilter.Average(Powers(frames[..n - 1]) + [frames[n - 1].power], cfg.averaging)
  {
  }

  /** A frame written to an open or waiting recorder, its average given. */
  lemma FrameForm(r: Recording, samples: seq<i16>, power: i16)
    requires r.cfg.Valid() && (r.state.Pending? || r.state.Active?)
    ensures var level := FirFilter.Average(r.powers + [power], r.cfg.averaging);
            var heard := r.(powers := r.powers + [power], lastPower := level);
            r.WriteFrame(samples, power, true)
            == if r.state.Pending? && !(r.cfg.startAbove.Some? && level > r.cfg.startAbove.value) then heard
               else heard.(state := Active, maxSinceActivePower := Max(level, if r.state.Pending? then level else r.maxSinceActivePower),
                           samplesSinceActive := (if r.state.Pending? then 0 else r.samplesSinceActive) + |samples|,
                           audio := r.audio + samples, samplesWritten := r.samplesWritten + |samples|).FinishChecks()
  {
    hide FirFilter.Average, Recording.FinishChecks;
  }

  /** The checks after it, in terms of the frames. */
  lemma ChecksForm(cfg: Config, frames: seq<Frame>, i: nat, j: nat, r: Recording)
    requires cfg.Valid() && 1 <= i <= j <= |frames| && r.cfg == cfg && r.state.Active? && r.reason.None?
    requires r.samplesSinceActive == |Joined(frames, i - 1, j)| && r.lastPower == Level(cfg, frames, j)
    requires forall f: int :: r.maxSinceActivePower > f <==> HasBeenAbove(cfg, frames, i, j, f)
    ensures r.FinishChecks()
         == match Ends(cfg, frames, i, j) case None => r case Some(x) => r.(state := Finished, reason := Some(x))
  {
    hide Level, HasBeenAbove, Joined;
  }

  lemma AboveAtFirst(cfg: Config, frames: seq<Frame>, n: nat, f: int)
    requires cfg.Valid() && 1 <= n <= |frames|
    ensures HasBeenAbove(cfg, frames, n, n, f)
       <==> Max(Level(cfg, frames, n), if cfg.startAbove.Some? then Level(cfg, frames, n) else 0) > f
  {
    hide Level;
  }

  lemma AboveLater(cfg: Config, frames: seq<Frame>, i: nat, n: nat, f: int)
    requires cfg.Valid() && 1 <= i < n <= |frames|
    ensures HasBeenAbove(cfg, frames, i, n, f) <==> Level(cfg, frames, n) > f || HasBeenAbove(cfg, frames, i, n - 1, f)
  {
    hide Level;
  }

  lemma FirstJoined(frames: seq<Frame>, n: nat)
    requires 1 <= n <= |frames|
    ensures Joined(frames, n - 1, n) == frames[n - 1].samples
  {
    assert Joined(frames, n - 1, n) == [] + frames[n - 1].samples;
  }

  predicate EndedBy(r: Recording, reason: Option<Reason>, audio: seq<i16>) {
    r.state.Finished? && r.reason == reason && r.audio == audio
  }

  /** A recorder that the n-th frame has just opened, before the checks. */
  function JustOpened(cfg: Config, frames: seq<Frame>, n: nat): Recording
    requires cfg.Valid() && 1 <= n <= |frames|
  {
    var samples, level := frames[n - 1].samples, Level(cfg, frames, n);
    Recording(cfg, Active, |samples|, |samples|, level, Max(level, if cfg.startAbove.Some? then level else 0), None,
              samples, Powers(frames[..n]))
  }

  lemma ShutWrite(cfg: Config, frames: seq<Frame>, n: nat, r: Recording)
    requires cfg.Valid() && 1 <= n <= |frames| && r.cfg == cfg && StillShut(cfg, frames, n - 1, r)
    ensures var r1 := r.WriteFrame(frames[n - 1].samples, frames[n - 1].power, true);
            if Loud(cfg, frames, n) then r1 == JustOpened(cfg, frames, n).FinishChecks() else StillShut(cfg, frames, n, r1)
  {
    hide FirFilter.Average, Powers, Level, Recording.FinishChecks, Recording.WriteFrame, Recording.Observe, Recording.Append;
    OneMorePower(cfg, frames, n);
    var f := frames[n - 1];
    FrameForm(r, f.samples, f.power);
    assert [] + f.samples == f.samples;
    var r1 := r.WriteFrame(f.samples, f.power, true);
    if !Loud(cfg, frames, n) {
      assert r1 == r.(powers := Powers(frames[..n]), lastPower := Level(cfg, frames, n));
    } else {
      hide StillShut, Loud;
      assert JustOpened(cfg, frames, n).FinishChecks() == r1;
    }
  }

  lemma OpenedRolls(cfg: Config, frames: seq<Frame>, n: nat)
    requires cfg.Valid() && 1 <= n <= |frames|
    ensures Rolling(cfg, frames, n, n, JustOpened(cfg, frames, n))
    ensures var r := JustOpened(cfg, frames, n);
            r.samplesSinceActive == |Joined(frames, n - 1, n)| && r.lastPower == Level(cfg, frames, n)
            && r.audio == Joined(frames, n - 1, n) && r.state.Active? && r.reason.None? && r.cfg == cfg
            && forall f: int :: r.maxSinceActivePower > f <==> HasBeenAbove(cfg, frames, n, n, f)
  {
    FirstJoined(frames, n);
    forall f: int ensures JustOpened(cfg, frames, n).maxSinceActivePower > f <==> HasBeenAbove(cfg, frames, n, n, f) {
      AboveAtFirst(cfg, frames, n, f);
    }
    hide Level, Powers, Joined, HasBeenAbove;
  }

  lemma ShutStep(cfg: Config, frames: seq<Frame>, n: nat, r: Recording)
    requires cfg.Valid() && 1 <= n <= |frames| && r.cfg == cfg && StillShut(cfg, frames, n - 1, r)
    ensures var r1 := r.WriteFrame(frames[n - 1].samples, frames[n - 1].power, true);
            if !Loud(cfg, frames, n) then StillShut(cfg, frames, n, r1)
            else if Ends(cfg, frames, n, n).None? then Rolling(cfg, frames, n, n, r1)
            else EndedBy(r1, Ends(cfg, frames, n, n), Joined(frames, n - 1, n))
  {
    ShutWrite(cfg, frames, n, r);
    OpenedRolls(cfg, frames, n);
    ChecksForm(cfg, frames, n, n, JustOpened(cfg, frames, n));
    hide Level, Powers, Joined, HasBeenAbove, JustOpened, Loud, StillShut, Rolling, Ends, Recording.FinishChecks, Recording.WriteFrame;
  }

  lemma RecordingStep(cfg: Config, frames: seq<Frame>, i: nat, n: nat, r: Recording)
    requires cfg.Valid() && 1 <= i < n <= |frames| && r.cfg == cfg && Rolling(cfg, frames, i, n - 1, r)
    ensures var r1 := r.WriteFrame(frames[n - 1].samples, frames[n - 1].power, true);
            if Ends(cfg, frames, i, n).None? then Rolling(cfg, frames, i, n, r1)
            else EndedBy(r1, Ends(cfg, frames, i, n), Joined(frames, i - 1, n))
  {
    OneMorePower(cfg, frames, n);
    var samples, level := frames[n - 1].samples, Level(cfg, frames, n);
    FrameForm(r, samples, frames[n - 1].power);
    forall f: int { AboveLater(cfg, frames, i, n, f); }
    var r2 := r.(powers := Powers(frames[..n]), lastPower := level, maxSinceActivePower := Max(level, r.maxSinceActivePower),
                 samplesSinceActive := r.samplesSinceActive + |samples|, audio := r.audio + samples,
                 samplesWritten := r.samplesWritten + |samples|);
    assert r2.audio == Joined(frames, i - 1, n);
    hide FirFilter.Average, Powers, Level, Joined, HasBeenAbove, Recording.FinishChecks, Recording.WriteFrame, Ends;
    ChecksForm(cfg, frames, i, n, r2);
  }

  lemma FinishedStays(r: Recording, f: Frame)
    requires r.cfg.Valid() && r.state.Finished?
    ensures r.WriteFrame(f.samples, f.power, true) == r
  {
  }

  /** What a recording of n frames is in each of the three cases. */
  predicate NeverLoud(cfg: Config, frames: seq<Frame>, n: nat)
    requires cfg.Valid() && n <= |frames|
  {
    forall h: nat | 1 <= h <= n :: !Loud(cfg, frames, h)
  }

  predicate GoesOn(cfg: Config, frames: seq<Frame>, i: nat, n: nat)
    requires cfg.Valid() && n <= |frames|
  {
    Opens(cfg, frames, i) && i <= n && forall j: nat | i <= j <= n :: Ends(cfg, frames, i, j).None?
  }

  /**
   * A recording from its frames: nothing until the average is first above the
   * gate, then every frame from that one on, up to the first that ends it, with
   * its reason. All of it both ways, as the three cases exclude each other.
   */
  lemma {:induction false} WrittenIs(cfg: Config, frames: seq<Frame>, n: nat)
    requires cfg.Valid() && n <= |frames|
    ensures NeverLoud(cfg, frames, n) ==> StillShut(cfg, frames, n, Written(cfg, frames, n))
    ensures forall i: nat | GoesOn(cfg, frames, i, n) :: Rolling(cfg, frames, i, n, Written(cfg, frames, n))
    ensures forall i: nat, j: nat | Opens(cfg, frames, i) && j <= n && EndsFirst(cfg, frames, i, j) ::
              EndedBy(Written(cfg, frames, n), Ends(cfg, frames, i, j), Joined(frames, i - 1, j))
  {
    if n == 0 {
      NothingWritten(cfg, frames);
    } else {
      WrittenIs(cfg, frames, n - 1);
      var r, f := Written(cfg, frames, n - 1), frames[n - 1];
      var r1 := r.WriteFrame(f.samples, f.power, true);
      assert Written(cfg, frames, n) == r1;
      hide *;
      LoudEarlier(cfg, frames, n);
      if NeverLoud(cfg, frames, n - 1) { ShutStep(cfg, frames, n, r); }
      forall i: nat | GoesOn(cfg, frames, i, n) ensures Rolling(cfg, frames, i, n, r1) {
        GoesOnStep(cfg, frames, i, n - 1, n, r);
      }
      forall i: nat, j: nat | Opens(cfg, frames, i) && j <= n && EndsFirst(cfg, frames, i, j)
        ensures EndedBy(r1, Ends(cfg, frames, i, j), Joined(frames, i - 1, j))
      {
        EndsStep(cfg, frames, i, j, n - 1, n, r);
      }
    }
  }

  lemma NothingWritten(cfg: Config, frames: seq<Frame>)
    requires cfg.Valid()
    ensures StillShut(cfg, frames, 0, Written(cfg, frames, 0))
    ensures forall i: nat :: !GoesOn(cfg, frames, i, 0)
    ensures forall i: nat, j: nat | EndsFirst(cfg, frames, i, j) :: j > 0
  {
    hide Ends, Loud;
  }

  lemma LoudEarlier(cfg: Config, frames: seq<Frame>, n: nat)
    requires cfg.Valid() && 1 <= n <= |frames|
    ensures NeverLoud(cfg, frames, n) <==> NeverLoud(cfg, frames, n - 1) && !Loud(cfg, frames, n)
  {
    hide Loud;
  }

  lemma GoesOnStep(cfg: Config, frames: seq<Frame>, i: nat, m: nat, n: nat, r: Recording)
    requires cfg.Valid() && m + 1 == n <= |frames| && r.cfg == cfg && GoesOn(cfg, frames, i, n)
    requires NeverLoud(cfg, frames, m) ==> StillShut(cfg, frames, m, r)
    requires forall i: nat | GoesOn(cfg, frames, i, m) :: Rolling(cfg, frames, i, m, r)
    ensures Rolling(cfg, frames, i, n, r.WriteFrame(frames[m].samples, frames[m].power, true))
  {
    hide Ends, Loud, StillShut, Rolling, Recording.WriteFrame, Joined;
    if i == n {
      ShutStep(cfg, frames, n, r);
    } else {
      assert GoesOn(cfg, frames, i, m);
      RecordingStep(cfg, frames, i, n, r);
    }
  }

  lemma EndsStep(cfg: Config, frames: seq<Frame>, i: nat, j: nat, m: nat, n: nat, r: Recording)
    requires cfg.Valid() && m + 1 == n <= |frames| && r.cfg == cfg && Opens(cfg, frames, i) && j <= n && EndsFirst(cfg, frames, i, j)
    requires NeverLoud(cfg, frames, m) ==> StillShut(cfg, frames, m, r)
    requires forall i: nat | GoesOn(cfg, frames, i, m) :: Rolling(cfg, frames, i, m, r)
    requires j < n ==> EndedBy(r, Ends(cfg, frames, i, j), Joined(frames, i - 1, j))
    ensures EndedBy(r.WriteFrame(frames[m].samples, frames[m].power, true), Ends(cfg, frames, i, j), Joined(frames, i - 1, j))
  {
    hide Ends, Loud, StillShut, Rolling, Recording.WriteFrame, Joined;
    if j < n {
      FinishedStays(r, frames[m]);
    } else if i == n {
      ShutStep(cfg, frames, n, r);
    } else {
      assert GoesOn(cfg, frames, i, m);
      RecordingStep(cfg, frames, i, n, r);
    }
  }

  /** So it is still pending exactly while no average has been above the gate. */
  lemma PendingIff(cfg: Config, frames: seq<Frame>)
    requires cfg.Valid() && cfg.startAbove.Some?
    ensures Written(cfg, frames, |frames|).state.Pending?
       <==> forall n: nat | 1 <= n <= |frames| :: Level(cfg, frames, n) <= cfg.startAbove.value
  {
    WrittenIs(cfg, frames, |frames|);
    OneOfThree(cfg, frames, |frames|);
    assert NeverLoud(cfg, frames, |frames|)
      <==> forall n: nat | 1 <= n <= |frames| :: Level(cfg, frames, n) <= cfg.startAbove.value by {
      hide Level;
      assert forall n: nat | 1 <= n <= |frames| :: Loud(cfg, frames, n) <==> !(Level(cfg, frames, n) <= cfg.startAbove.value);
    }
    hide Level, Written, Ends, NeverLoud, Opens, EndsFirst, GoesOn, Joined;
  }

  /** It is recording exactly from the frame that opens the gate, as long as none ends it, and then holds every frame since. */
  lemma RollingIff(cfg: Config, frames: seq<Frame>, i: nat)
    requires cfg.Valid() && Opens(cfg, frames, i)
    ensures var r := Written(cfg, frames, |frames|);
            && (r.state.Active? <==> GoesOn(cfg, frames, i, |frames|))
            && (r.state.Active? ==> r.audio == Joined(frames, i - 1, |frames|) && r.reason.None?)
  {
    WrittenIs(cfg, frames, |frames|);
    FirstEnd(cfg, frames, i, |frames|);
    hide Written, Ends, Joined, Loud;
  }

  /** And it has finished exactly when some frame since the gate opened ends it: with the reason of the first, and up to there. */
  lemma FinishedIff(cfg: Config, frames: seq<Frame>, reason: Reason)
    requires cfg.Valid()
    ensures EndedWith(Written(cfg, frames, |frames|), reason)
       <==> exists i: nat, j: nat ::
              Opens(cfg, frames, i) && EndsFirst(cfg, frames, i, j) && Ends(cfg, frames, i, j) == Some(reason)
  {
    WrittenIs(cfg, frames, |frames|);
    OneOfThree(cfg, frames, |frames|);
    hide Written, Ends, NeverLoud, GoesOn, Joined, Loud, Opens;
  }

  predicate EndedWith(r: Recording, reason: Reason) { r.state.Finished? && r.reason == Some(reason) }

  /** No frame has opened the gate, or one has and none has ended the recording, or one has first. */
  lemma OneOfThree(cfg: Config, frames: seq<Frame>, n: nat)
    requires cfg.Valid() && n <= |frames|
    ensures NeverLoud(cfg, frames, n) || (exists i: nat :: GoesOn(cfg, frames, i, n))
            || exists i: nat, j: nat :: Opens(cfg, frames, i) && j <= n && EndsFirst(cfg, frames, i, j)
  {
    if !NeverLoud(cfg, frames, n) {
      var h: nat :| 1 <= h <= n && Loud(cfg, frames, h);
      var i := FirstLoud(cfg, frames, h);
      FirstEnd(cfg, frames, i, n);
      hide Ends, Loud, Opens, EndsFirst;
      if forall j: nat | i <= j <= n :: Ends(cfg, frames, i, j).None? { assert GoesOn(cfg, frames, i, n); }
    }
  }

  lemma {:induction false} FirstLoud(cfg: Config, frames: seq<Frame>, n: nat) returns (i: nat)
    requires cfg.Valid() && 1 <= n <= |frames| && Loud(cfg, frames, n)
    ensures Opens(cfg, frames, i) && i <= n
  {
    hide Loud;
    i := n;
    if h: nat :| 1 <= h < n && Loud(cfg, frames, h) { i := FirstLoud(cfg, frames, h); }
  }

  /** Either nothing ends it, or something does first. */
  lemma {:induction false} FirstEnd(cfg: Config, frames: seq<Frame>, i: nat, n: nat)
    requires cfg.Valid() && 1 <= i <= n <= |frames|
    ensures (forall j: nat | i <= j <= n :: Ends(cfg, frames, i, j).None?)
            || exists j: nat :: j <= n && EndsFirst(cfg, frames, i, j)
    decreases n
  {
    hide Ends;
    if i < n { FirstEnd(cfg, frames, i, n - 1); }
    if (forall j: nat | i <= j < n :: Ends(cfg, frames, i, j).None?) && Ends(cfg, frames, i, n).Some? {
      assert EndsFirst(cfg, frames, i, n);
    }
  }

  function Writes(frames: seq<Frame>, n: nat): (ops: seq<Op>)
    requires n <= |frames|
    ensures |ops| == n
  {
    if n == 0 then [] else Writes(frames, n - 1) + [Write(frames[n - 1].samples, frames[n - 1].power, true)]
  }

  lemma {:induction false} RunOneMore(r: Recording, ops: seq<Op>, op: Op)
    requires r.cfg.Valid()
    ensures Run(r, ops).cfg == r.cfg && Run(r, ops + [op]) == Apply(Run(r, ops), op)
    decreases |ops|
  {
    hide Apply;
    RunKeepsConfig(r, ops);
    if ops == [] {
      assert ([] + [op])[1..] == [];
      ApplyKeepsConfig(r, op);
    } else {
      assert (ops + [op])[1..] == ops[1..] + [op];
      ApplyKeepsConfig(r, ops[0]);
      RunOneMore(Apply(r, ops[0]), ops[1..], op);
    }
  }

  /** These are the runs that only write, and to a disk that takes everything. */
  lemma {:induction false} WrittenIsRun(cfg: Config, frames: seq<Frame>, n: nat)
    requires cfg.Valid() && n <= |frames|
    ensures Run(Open(cfg), Writes(frames, n)) == Written(cfg, frames, n)
  {
    hide Recording.WriteFrame;
    if n > 0 {
      WrittenIsRun(cfg, frames, n - 1);
      RunOneMore(Open(cfg), Writes(frames, n - 1), Write(frames[n - 1].samples, frames[n - 1].power, true));
    }
  }

  /** Paused, whether it was recording or waiting for its gate, it takes no frame; resumed, it is recording, past the gate. */
  lemma {:induction false} PausedTakesNothing(r: Recording, ops: seq<Op>)
    requires r.cfg.Valid() && (r.state.Active? || r.state.Pending?) && forall op <- ops :: op.Write?
    ensures Run(r.Pause(), ops) == r.(state := Paused) && Run(r.Pause(), ops).Resume() == r.(state := Active)
    decreases |ops|
  {
    hide FirFilter.Average;
    if ops != [] {
      assert ops[0] in ops && Apply(r.Pause(), ops[0]) == r.Pause();
      assert forall op <- ops[1..] :: op in ops;
      PausedTakesNothing(r, ops[1..]);
    }
  }

  /** What is written raw goes to the file whatever the gate and the limits say, and nothing else changes. */
  lemma RawIsKept(r: Recording, samples: seq<i16>)
    requires !r.state.Finished?
    ensures r.WriteRaw(samples, true)
         == r.(audio := r.audio + samples, samplesWritten := r.samplesWritten + |samples|)
    ensures r.WriteRaw(samples, false) == r
  {
    assert samples == [] ==> r.audio + samples == r.audio;
  }
}
