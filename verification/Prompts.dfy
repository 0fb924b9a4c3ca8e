/**
 * Prompts and recorders told from what came in (rust/src/channel/tick.rs,
 * actor.rs): which tick ends a prompt and why, what each recorder is written
 * sample by sample, and what each command leaves behind.
 */
module Prompts {
  import opened Common
  import opened PlayRecord
  import FirFilter
  import R = Recorder

  // ---- What ends a prompt ----

  predicate Ticks(steps: seq<Step>) { forall i | 0 <= i < |steps| :: ValidStep(steps[i]) && !steps[i].Do? }

  /** In a mix, a tick with digits and no audio goes no further than the digits. */
  predicate GoesOn(st: Step)
    requires !st.Do?
  {
    st.InLocal? || st.t.digits == 0 || st.t.audio
  }

  /** The tick brought a frame whose power counts. */
  predicate Measured(st: Step)
    requires !st.Do?
  {
    GoesOn(st) && st.t.decoded.Some? && st.t.warm
  }

  /** The powers heard over some ticks. */
  function Powers(steps: seq<Step>): seq<i16>
    requires Ticks(steps)
  {
    if steps == [] then []
    else
      var last := steps[|steps| - 1];
      Powers(steps[..|steps| - 1]) + if Measured(last) then [last.t.power] else []
  }

  /** With tick i the average of the powers heard is above the threshold. */
  predicate Interrupts(bargein: Option<BargeIn>, steps: seq<Step>, i: nat)
    requires Ticks(steps) && i < |steps|
  {
    bargein.Some? && Measured(steps[i])
    && FirFilter.Above(bargein.value.powers + Powers(steps[..i + 1]), bargein.value.window, bargein.value.threshold)
  }

  /** Tick i is one that ends a prompt: a digit, the end of the audio, or a caller who speaks. */
  predicate EndsPrompt(p: Player, bargein: Option<BargeIn>, steps: seq<Step>, i: nat)
    requires Ticks(steps) && i < |steps|
  {
    || (p.interrupts && steps[i].t.digits > 0)
    || (GoesOn(steps[i]) && steps[i].t.playerFinished)
    || Interrupts(bargein, steps, i)
  }

  function Reason(p: Player, st: Step): string
    requires !st.Do?
  {
    if p.interrupts && st.t.digits > 0 then "telephone-event"
    else if st.t.playerFinished then "completed" else "interrupted"
  }

  predicate Windowed(s: Subs) { s.bargein.Some? ==> s.player.Some? && s.bargein.value.window > 0 }

  /** What was posted stands, and this among what is new. */
  predicate Posted(before: seq<Event>, after: seq<Event>, e: Event) {
    before <= after && e in after[|before|..]
  }

  lemma PostedLater(a: seq<Event>, b: seq<Event>, c: seq<Event>, e: Event)
    requires a <= b <= c && (Posted(a, b, e) || Posted(b, c, e))
    ensures Posted(a, c, e)
  {
    assert c[|a|..] == b[|a|..] + c[|b|..];
  }

  /** The prompt is off, with this reason given. */
  predicate Ends(s: Subs, s1: Subs, reason: string) {
    s1.player.None? && s1.bargein.None? && Posted(s.events, s1.events, PlayEnd(reason, false))
  }

  /** It is as it was, and barge-in has these powers more. */
  predicate Stays(s: Subs, s1: Subs, powers: seq<i16>) {
    s1.player == s.player && s1.bargein == Listening(s.bargein, powers) && s.events <= s1.events
  }

  function Listening(bargein: Option<BargeIn>, powers: seq<i16>): Option<BargeIn> {
    if bargein.Some? then Some(bargein.value.(powers := bargein.value.powers + powers)) else None
  }

  lemma NothingHeard(bargein: Option<BargeIn>)
    ensures Listening(bargein, []) == bargein
  {
    if bargein.Some? { assert bargein.value.powers + [] == bargein.value.powers; }
  }

  lemma StaysFirst(a: Subs, b: Subs, c: Subs)
    requires Stays(a, b, [])
    ensures forall reason | Ends(b, c, reason) :: Ends(a, c, reason)
    ensures forall powers | Stays(b, c, powers) :: Stays(a, c, powers)
  {
    NothingHeard(a.bargein);
    forall reason | Ends(b, c, reason) ensures Ends(a, c, reason) {
      PostedLater(a.events, b.events, c.events, PlayEnd(reason, false));
    }
  }

  lemma StaysAfter(a: Subs, b: Subs, c: Subs)
    requires Stays(b, c, [])
    ensures forall reason | Ends(a, b, reason) :: Ends(a, c, reason)
    ensures forall powers | Stays(a, b, powers) :: Stays(a, c, powers)
  {
    NothingHeard(b.bargein);
    forall reason | Ends(a, b, reason) ensures Ends(a, c, reason) {
      PostedLater(a.events, b.events, c.events, PlayEnd(reason, false));
    }
  }

  lemma ActivateKeepsPrompt(s: Subs, opens: bool, disk: bool)
    ensures Stays(s, s.Activate(opens, disk), [])
  {
    NothingHeard(s.bargein);
    hide Interleave, IndexOf, R.Recording.WriteRaw, Listening;
  }

  /** A prompt that has ended is off, whatever is posted and activated then. */
  lemma PromptOff(s: Subs, reason: string, more: seq<Event>, opens: bool, disk: bool)
    ensures var s1 := s.EndPlayer(reason);
            Ends(s, s1.(events := s1.events + more).Activate(opens, disk), reason)
  {
    var s1 := s.EndPlayer(reason);
    var s2 := s1.(events := s1.events + more);
    ActivateKeepsPrompt(s2, opens, disk);
    assert s1.events[|s.events|..] == [PlayEnd(reason, false)];
    PostedLater(s.events, s1.events, s2.events, PlayEnd(reason, false));
    hide Subs.Activate;
    StaysAfter(s, s2, s2.Activate(opens, disk));
  }

  lemma {:induction false} DigitsDo(s: Subs, n: nat, opens: bool, disk: bool)
    ensures var s1 := s.OnDigits(n, opens, disk);
            if s.player.Some? && s.player.value.interrupts && n > 0 then Ends(s, s1, "telephone-event") else Stays(s, s1, [])
    decreases n
  {
    NothingHeard(s.bargein);
    if n > 0 {
      var s1 := s.OnDigit(opens, disk);
      assert s.OnDigits(n, opens, disk) == s1.OnDigits(n - 1, opens, disk);
      DigitsDo(s1, n - 1, opens, disk);
      if s.player.Some? && s.player.value.interrupts {
        PromptOff(s, "telephone-event", [TelephoneEvent], opens, disk);
        hide Subs.OnDigits, Subs.Activate;
        StaysAfter(s, s1, s1.OnDigits(n - 1, opens, disk));
      } else {
        assert Stays(s, s1, []);
        hide Subs.OnDigits, Subs.Activate;
        StaysFirst(s, s1, s1.OnDigits(n - 1, opens, disk));
      }
    }
  }

  /** The caller speaks: in terms of the powers so far. */
  predicate Speaks(s: Subs, t: Tick) {
    s.bargein.Some? && t.decoded.Some? && t.warm
    && FirFilter.Above(s.bargein.value.powers + [t.power], s.bargein.value.window, s.bargein.value.threshold)
  }

  function Power(t: Tick): seq<i16> { if t.decoded.Some? && t.warm then [t.power] else [] }

  lemma BargeinDoes(s: Subs, t: Tick)
    requires Windowed(s)
    ensures var s1 := s.RunBargein(t.decoded, t.power, t.warm, t.opens, t.disk);
            if Speaks(s, t) then Ends(s, s1, "interrupted") else Stays(s, s1, Power(t))
  {
    hide FirFilter.Average, FirFilter.Above, Subs.Activate;
    NothingHeard(s.bargein);
    if s.bargein.Some? {
      var b := s.bargein.value;
      FirFilter.AverageAbove(b.powers + [t.power], b.window, b.threshold);
    }
    PromptOff(s, "interrupted", [], t.opens, t.disk);
    assert s.EndPlayer("interrupted").events + [] == s.EndPlayer("interrupted").events;
  }

  lemma SourcesDo(s: Subs, t: Tick)
    ensures var s1 := s.TickPlayer(t.playerFinished, t.opens, t.disk).TickWriter(t.writerDrained);
            if s.player.Some? && t.playerFinished then Ends(s, s1, "completed") else Stays(s, s1, [])
  {
    NothingHeard(s.bargein);
    PromptOff(s, "completed", [], t.opens, t.disk);
    assert s.EndPlayer("completed").events + [] == s.EndPlayer("completed").events;
    var s0 := s.TickPlayer(t.playerFinished, t.opens, t.disk);
    NothingHeard(s0.bargein);
    assert Stays(s0, s0.TickWriter(t.writerDrained), []) by { hide Subs.TickPlayer; }
    hide Subs.TickWriter, Subs.Activate;
    StaysAfter(s, s0, s0.TickWriter(t.writerDrained));
  }

  lemma CommonDo(s: Subs, t: Tick)
    requires Windowed(s)
    ensures var s1 := CommonPhases(s, t);
            if s.player.Some? && t.playerFinished then Ends(s, s1, "completed")
            else if Speaks(s, t) then Ends(s, s1, "interrupted")
            else Stays(s, s1, Power(t))
  {
    SourcesDo(s, t);
    NothingHeard(s.bargein);
    hide Subs.TickPlayer, Subs.TickWriter, FirFilter.Above;
    var s1 := s.TickPlayer(t.playerFinished, t.opens, t.disk).TickWriter(t.writerDrained);
    BargeinDoes(s1, t);
    var s2 := s1.RunBargein(t.decoded, t.power, t.warm, t.opens, t.disk);
    hide Subs.RunBargein;
    NothingHeard(s2.bargein);
    assert Stays(s2, CommonPhases(s, t), []);
    hide CommonPhases;
    StaysAfter(s1, s2, CommonPhases(s, t));
    if s.player.Some? && t.playerFinished {
      assert Stays(s1, CommonPhases(s, t), []);
      StaysAfter(s, s1, CommonPhases(s, t));
    } else {
      StaysFirst(s, s1, CommonPhases(s, t));
    }
  }

  lemma FeedDoes(s: Subs, mono: seq<i16>, stereo: seq<i16>, power: i16, disk: bool)
    requires ValidConfigs(s.recorders)
    ensures Stays(s, s.Feed(mono, stereo, power, disk), [])
  {
    NothingHeard(s.bargein);
    hide FeedAll, ValidConfigs;
  }

  predicate EndsNow(s: Subs, st: Step)
    requires !st.Do?
  {
    s.player.Some?
    && ((s.player.value.interrupts && st.t.digits > 0) || (GoesOn(st) && (st.t.playerFinished || Speaks(s, st.t))))
  }

  /** One tick on a prompt. */
  lemma TickDoes(s: Subs, st: Step)
    requires AllValid(s) && Windowed(s) && !st.Do?
    ensures var s1 := ApplyStep(s, st);
            if EndsNow(s, st) then Ends(s, s1, Reason(s.player.value, st))
            else Stays(s, s1, if Measured(st) then [st.t.power] else [])
  {
    hide ApplyStep, CommonPhases, AllValid, FirFilter.Above, Posted;
    DigitsDo(s, st.t.digits, st.t.opens, st.t.disk);
    var s1, s3 := AfterDigits(s, st.t), ApplyStep(s, st);
    hide AfterDigits, Subs.OnDigits;
    NothingHeard(s.bargein);
    TickForm(s, st);
    if !GoesOn(st) {
      StaysAfter(s, s1, s3);
    } else {
      assert Windowed(s1);
      CommonDo(s1, st.t);
      var s2 := CommonPhases(s1, st.t);
      StaysAfter(s1, s2, s3);
      if s1.player == s.player && s1.bargein == s.bargein {
        hide Listening;
        StaysFirst(s, s1, s3);
      } else {
        StaysAfter(s, s1, s3);
      }
    }
  }

  /** A tick that goes on ends as its phases leave the prompt; one that does not, as its digits do. */
  lemma TickForm(s: Subs, st: Step)
    requires AllValid(s) && !st.Do?
    ensures var s1 := AfterDigits(s, st.t);
            Stays(if GoesOn(st) then CommonPhases(s1, st.t) else s1, ApplyStep(s, st), [])
  {
    PhasesValid(s, st.t);
    NothingHeard(AfterDigits(s, st.t).bargein);
    var s2 := CommonPhases(AfterDigits(s, st.t), st.t);
    NothingHeard(s2.bargein);
    forall mono, stereo { FeedDoes(s2, mono, stereo, st.t.recorderPower, st.t.disk); }
    hide AfterDigits, CommonPhases, Subs.Feed, MixedFrames, LocalFrames, MonoFrame, StereoFrame, AllValid, Listening;
  }

  /** A run with one step more. */
  lemma {:induction false} RunOneMore(s: Subs, steps: seq<Step>)
    requires Inv(s) && steps != [] && forall i | 0 <= i < |steps| :: ValidStep(steps[i])
    ensures Inv(Run(s, steps[..|steps| - 1])) && AllValid(Run(s, steps[..|steps| - 1]))
    ensures Run(s, steps) == ApplyStep(Run(s, steps[..|steps| - 1]), steps[|steps| - 1])
    decreases |steps|
  {
    var n := |steps| - 1;
    StepKeeps(s, steps[0]);
    RunKeeps(s, steps[..n]);
    assert Inv(s) ==> AllValid(s);
    assert Inv(Run(s, steps[..n])) ==> AllValid(Run(s, steps[..n]));
    hide ApplyStep, Inv, AllValid, ValidStep;
    if n > 0 {
      assert steps[1..][..n - 1] == steps[..n][1..];
      RunOneMore(ApplyStep(s, steps[0]), steps[1..]);
    } else {
      assert steps[..0] == [] && steps[1..] == [];
    }
  }

  /** No tick of the run ends the prompt. */
  predicate Undisturbed(p: Player, bargein: Option<BargeIn>, steps: seq<Step>)
    requires Ticks(steps)
  {
    forall i: nat | i < |steps| :: !EndsPrompt(p, bargein, steps, i)
  }

  lemma OneTickMore(p: Player, bargein: Option<BargeIn>, steps: seq<Step>)
    requires Ticks(steps) && steps != []
    ensures var n := |steps| - 1;
            && Ticks(steps[..n])
            && (Undisturbed(p, bargein, steps) <==> Undisturbed(p, bargein, steps[..n]) && !EndsPrompt(p, bargein, steps, n))
  {
    var n := |steps| - 1;
    hide FirFilter.Above, Powers;
    forall i: nat | i < n ensures EndsPrompt(p, bargein, steps[..n], i) == EndsPrompt(p, bargein, steps, i) {
      assert steps[..n][..i + 1] == steps[..i + 1];
    }
    hide EndsPrompt;
  }

  /**
   * Over every run of ticks, local and mixed, a prompt is still on if and only if
   * no tick of it brought a digit that may interrupt it, the end of its audio, or
   * an average of the powers heard since above the barge-in threshold. While it
   * is on, barge-in has been given exactly the powers heard.
   */
  lemma {:induction false} PromptIsOnIff(s: Subs, steps: seq<Step>)
    requires Inv(s) && Windowed(s) && s.player.Some? && Ticks(steps)
    ensures var s1 := Run(s, steps);
            && (s1.player.Some? <==> Undisturbed(s.player.value, s.bargein, steps))
            && if s1.player.Some? then Stays(s, s1, Powers(steps)) else s1.bargein.None?
    decreases |steps|
  {
    if steps == [] {
      NothingHeard(s.bargein);
    } else {
      var n := |steps| - 1;
      var st := steps[n];
      OneTickMore(s.player.value, s.bargein, steps);
      PromptIsOnIff(s, steps[..n]);
      RunOneMore(s, steps);
      var s0, s1 := Run(s, steps[..n]), Run(s, steps);
      hide Run, Undisturbed, Inv, ApplyStep;
      TickDoes(s0, st);
      PowersOn(s, s0, steps);
    }
  }

  /** One tick more, in terms of the powers since the start. */
  lemma PowersOn(s: Subs, s0: Subs, steps: seq<Step>)
    requires Ticks(steps) && steps != [] && s.player.Some? && Windowed(s) && Windowed(s0)
    requires Ticks(steps[..|steps| - 1])
    requires if s0.player.Some? then Stays(s, s0, Powers(steps[..|steps| - 1])) else s0.bargein.None?
    ensures var st := steps[|steps| - 1];
            var powers := if Measured(st) then [st.t.power] else [];
            && Listening(Listening(s.bargein, Powers(steps[..|steps| - 1])), powers) == Listening(s.bargein, Powers(steps))
            && (s0.player.Some? ==> (EndsNow(s0, st) <==> EndsPrompt(s.player.value, s.bargein, steps, |steps| - 1)))
  {
    var n := |steps| - 1;
    var st := steps[n];
    assert steps[..n + 1] == steps;
    var before, powers := Powers(steps[..n]), if Measured(st) then [st.t.power] else [];
    assert Powers(steps) == before + powers;
    hide Powers;
    ListeningTwice(s.bargein, before, powers);
    if s0.player.Some? && Measured(st) {
      SpeaksIs(s0, st.t, s.bargein, before);
      assert Speaks(s0, st.t) <==> Interrupts(s.bargein, steps, n) by { hide Speaks, FirFilter.Above, Listening; }
    }
    hide Speaks, Interrupts, Listening;
  }

  lemma ListeningTwice(bargein: Option<BargeIn>, p: seq<i16>, q: seq<i16>)
    ensures Listening(Listening(bargein, p), q) == Listening(bargein, p + q)
  {
    if bargein.Some? { assert bargein.value.powers + p + q == bargein.value.powers + (p + q); }
  }

  lemma SpeaksIs(s: Subs, t: Tick, bargein: Option<BargeIn>, before: seq<i16>)
    requires s.bargein == Listening(bargein, before) && t.decoded.Some? && t.warm
    ensures Speaks(s, t)
       <==> bargein.Some? && FirFilter.Above(bargein.value.powers + (before + [t.power]), bargein.value.window, bargein.value.threshold)
  {
    hide FirFilter.Above;
    if bargein.Some? { assert bargein.value.powers + before + [t.power] == bargein.value.powers + (before + [t.power]); }
  }

  /** The tick that ends it says why: a digit before the end of the audio, and that before the caller's voice. */
  lemma PromptEndsBecause(s: Subs, steps: seq<Step>)
    requires Inv(s) && Windowed(s) && s.player.Some? && Ticks(steps) && steps != []
    requires Run(s, steps[..|steps| - 1]).player.Some? && Run(s, steps).player.None?
    ensures Posted(Run(s, steps[..|steps| - 1]).events, Run(s, steps).events,
                   PlayEnd(Reason(s.player.value, steps[|steps| - 1]), false))
  {
    PromptIsOnIff(s, steps[..|steps| - 1]);
    RunOneMore(s, steps);
    hide Run, Inv, ApplyStep, Undisturbed, Posted;
    TickDoes(Run(s, steps[..|steps| - 1]), steps[|steps| - 1]);
  }

  /** What the two commands put on: barge-in only on a prompt that may be interrupted, and never under `play`. */
  lemma PromptStarts(s: Subs, interrupts: bool, bargein: Option<BargeIn>, cfg: R.Config)
    requires Inv(s)
    ensures var s1 := Handle(s, PlayAndRecord(interrupts, bargein, cfg));
            s1.player == Some(Player(interrupts)) && s1.bargein == (if interrupts then bargein else None)
            && s1.pending == Some(cfg) && s1.prebuffer == []
    ensures var s1 := Handle(s, Play(interrupts));
            s1.player == Some(Player(interrupts)) && s1.bargein.None? && s1.pending.None? && s1.prebuffer == []
  {
  }

  /**
   * A command that changes the outbound source ends a prompt that is on, and
   * says as what, before it says that another starts; recordings go on, and a
   * queued recorder and what was heard for it are dropped.
   */
  lemma SourceIs(s: Subs, c: Command)
    requires Inv(s) && (c.Play? || c.PlayAndRecord? || c.CreateWriteStream? || c.EnterMix?)
    ensures var s1 := Handle(s, c);
            && s1.events == s.events + (if s.player.Some? then [PlayEnd(if c.EnterMix? then "mix" else "replaced", false)] else [])
                            + (if c.Play? || c.PlayAndRecord? then [PlayStart] else [])
            && s1.player == (if c.Play? || c.PlayAndRecord? then Some(Player(c.interrupts)) else None)
            && s1.bargein == (if c.PlayAndRecord? && c.interrupts then c.bargein else None)
            && s1.pending == (if c.PlayAndRecord? then Some(c.cfg) else None) && s1.prebuffer == []
            && s1.writer == (c.CreateWriteStream? || s.writer) && s1.recorders == s.recorders && s1.files == s.files
  {
    hide RecordersOk, Balanced, ValidConfigs;
  }

  // ---- What a tick reports ----

  function Count(es: seq<Event>, e: Event): nat { multiset(es)[e] }

  lemma CountOneMore(es: seq<Event>, x: Event, e: Event)
    ensures Count(es + [x], e) == Count(es, e) + if x == e then 1 else 0
  {
  }

  lemma CountNone(es: seq<Event>, more: seq<Event>, e: Event)
    requires e !in more
    ensures Count(es + more, e) == Count(es, e)
  {
  }

  /** Digits and retired writers: nothing else in a tick posts these. */
  predicate Told(e: Event) { e == TelephoneEvent || e == PlayEnd("completed", true) }

  lemma ActivateTells(s: Subs, opens: bool, disk: bool, e: Event)
    requires Told(e)
    ensures Count(s.Activate(opens, disk).events, e) == Count(s.events, e)
  {
    if s.pending.Some? {
      CountOneMore(s.events, RecordStarted(s.pending.value.file), e);
      CountOneMore(s.events, RecordFinished(s.pending.value.file, "open-failed"), e);
    }
    ActivateForm(s, opens, disk);
    if s.pending.Some? { ReplaceOnly(s.ClearPending(), Activated(s, disk)); }
    hide Subs.Activate, Subs.Replace, Activated, Count;
  }

  lemma PromptOffTells(s: Subs, reason: string, opens: bool, disk: bool, e: Event)
    requires Told(e)
    ensures Count(s.EndPlayer(reason).Activate(opens, disk).events, e) == Count(s.events, e)
    ensures Count(s.EndPlayer(reason).Post(TelephoneEvent).Activate(opens, disk).events, e)
         == Count(s.events, e) + if e == TelephoneEvent then 1 else 0
  {
    var s1 := s.EndPlayer(reason);
    CountOneMore(s.events, PlayEnd(reason, false), e);
    CountOneMore(s1.events, TelephoneEvent, e);
    ActivateTells(s1, opens, disk, e);
    ActivateTells(s1.Post(TelephoneEvent), opens, disk, e);
    hide Subs.Activate, Count;
  }

  lemma {:induction false} DigitsReported(s: Subs, n: nat, opens: bool, disk: bool, e: Event)
    requires Told(e)
    ensures Count(s.OnDigits(n, opens, disk).events, e) == Count(s.events, e) + if e == TelephoneEvent then n else 0
    decreases n
  {
    if n > 0 {
      CountOneMore(s.events, TelephoneEvent, e);
      PromptOffTells(s, "telephone-event", opens, disk, e);
      hide Subs.Activate, Count;
      DigitsReported(s.OnDigit(opens, disk), n - 1, opens, disk, e);
    }
  }

  lemma CommonTells(s: Subs, t: Tick, e: Event)
    requires Told(e)
    ensures Count(CommonPhases(s, t).events, e)
         == Count(s.events, e) + if e.PlayEnd? && s.writer && t.writerDrained then 1 else 0
  {
    PlayerTells(s, t, e);
    var s1 := s.TickPlayer(t.playerFinished, t.opens, t.disk);
    hide Subs.TickPlayer, Count;
    WriterTells(s1, t, e);
    var s2 := s1.TickWriter(t.writerDrained);
    hide Subs.TickWriter;
    BargeinTellsNothing(s2, t, e);
    hide Subs.RunBargein;
  }

  lemma PlayerTells(s: Subs, t: Tick, e: Event)
    requires Told(e)
    ensures var s1 := s.TickPlayer(t.playerFinished, t.opens, t.disk);
            s1.writer == s.writer && Count(s1.events, e) == Count(s.events, e)
  {
    PromptOffTells(s, "completed", t.opens, t.disk, e);
    ActivateKeepsSources(s.EndPlayer("completed"), t.opens, t.disk);
    hide Subs.Activate, Count;
  }

  lemma WriterTells(s: Subs, t: Tick, e: Event)
    requires Told(e)
    ensures Count(s.TickWriter(t.writerDrained).events, e)
         == Count(s.events, e) + if e.PlayEnd? && s.writer && t.writerDrained then 1 else 0
  {
    CountOneMore(s.events, PlayEnd("completed", true), e);
    hide Count;
  }

  lemma BargeinTellsNothing(s: Subs, t: Tick, e: Event)
    requires Told(e)
    ensures Count(s.RunBargein(t.decoded, t.power, t.warm, t.opens, t.disk).events, e) == Count(s.events, e)
  {
    PromptOffTells(s, "interrupted", t.opens, t.disk, e);
    hide Subs.Activate, Count, FirFilter.Average;
  }

  lemma FeedTellsNothing(s: Subs, mono: seq<i16>, stereo: seq<i16>, power: i16, disk: bool, e: Event)
    requires ValidConfigs(s.recorders) && Told(e)
    ensures Count(s.Feed(mono, stereo, power, disk).events, e) == Count(s.events, e)
  {
    var fed := FeedAll(s.recorders, mono, stereo, power, disk);
    FeedReports(s.recorders, mono, stereo, power, disk, e);
    CountNone(s.events, fed.events, e);
    hide FeedAll, Count, Written, ValidConfigs;
  }

  /** Every digit of a tick is reported once, and a writer once that has run dry. */
  lemma TickReports(s: Subs, st: Step, e: Event)
    requires AllValid(s) && !st.Do? && Told(e)
    ensures Count(ApplyStep(s, st).events, e)
         == Count(s.events, e) + if e == TelephoneEvent then st.t.digits
                                 else if s.writer && st.t.writerDrained && GoesOn(st) then 1 else 0
  {
    var t := st.t;
    DigitsReported(s, t.digits, t.opens, t.disk, e);
    DigitsKeepSources(s, t.digits, t.opens, t.disk);
    PhasesValid(s, t);
    CommonTells(AfterDigits(s, t), t, e);
    var s2 := CommonPhases(AfterDigits(s, t), t);
    forall mono, stereo { FeedTellsNothing(s2, mono, stereo, t.recorderPower, t.disk, e); }
    hide Subs.OnDigits, CommonPhases, Subs.Feed, MixedFrames, LocalFrames, MonoFrame, StereoFrame, AllValid, Count;
  }

  // ---- What a recorder is written ----

  lemma {:induction false} InterleavedAt(a: seq<i16>, b: seq<i16>, j: nat)
    requires |a| == |b| && j < |a|
    ensures Interleave(a, b)[2 * j] == a[j] && Interleave(a, b)[2 * j + 1] == b[j]
  {
    if j > 0 { InterleavedAt(a[1..], b[1..], j - 1); }
  }

  /** Two channels: what came in on the left and what went out on the right, silence after the end of the shorter. */
  lemma StereoSamples(inS: seq<i16>, outS: seq<i16>, j: nat)
    requires j < |inS| || j < |outS|
    ensures var f := StereoFrame(inS, outS);
            && |f| == 2 * (if |inS| > |outS| then |inS| else |outS|)
            && f[2 * j] == (if j < |inS| then inS[j] else 0)
            && f[2 * j + 1] == if j < |outS| then outS[j] else 0
  {
    var n := Max(|inS|, |outS|);
    InterleavedAt(Padded(inS, n), Padded(outS, n), j);
    hide Interleave;
  }

  /** One channel: the sum of both, held within 16 bits. */
  lemma MonoSamples(inS: seq<i16>, outS: seq<i16>, j: nat)
    requires j < |inS| || j < |outS|
    ensures var f := MonoFrame(inS, outS);
            var l: int := if j < |inS| then inS[j] else 0;
            var r: int := if j < |outS| then outS[j] else 0;
            var sum := l + r;
            && |f| == (if |inS| > |outS| then |inS| else |outS|)
            && f[j] == if sum > 32767 then 32767 else if sum < -32768 then -32768 else sum
  {
  }

  /** What goes out in a tick, from the channel before it: a writer's frame, or a prompt's that no digit ends. */
  function GoesOut(s: Subs, t: Tick): Option<seq<i16>> {
    if s.writer && t.writerFrame.Some? then t.writerFrame
    else if s.player.Some? && !(s.player.value.interrupts && t.digits > 0) then t.playerFrame else None
  }

  /**
   * Every recording of the channel gets the same two sides: what came in, or
   * silence; what went out, or echo, or silence. A wideband channel hands over
   * its own two.
   */
  lemma TickFrameIs(cfg: R.Config, s: Subs, t: Tick)
    ensures var inS := if t.decoded.Some? then t.decoded.value else seq(160, i => 0);
            var outS := if GoesOut(s, t).Some? then GoesOut(s, t).value
                        else if t.decoded.Some? && t.echo then inS else seq(160, i => 0);
            var (l, r) := if t.wideband.Some? then t.wideband.value else (inS, outS);
            TickFrame(cfg, s, t)
            == if t.decoded.None? && GoesOut(s, t).None? then []
               else if cfg.channels == 2 then StereoFrame(l, r) else MonoFrame(l, r)
  {
    DigitsDo(s, t.digits, t.opens, t.disk);
    DigitsKeepSources(s, t.digits, t.opens, t.disk);
    assert OutFrame(AfterDigits(s, t), t) == GoesOut(s, t) by { hide Subs.OnDigits; }
    hide OutFrame, StereoFrame, MonoFrame, GoesOut;
    assert Silence() == seq(160, i => 0);
  }

  /** What a tick in a mix adds to an open recording of this kind. */
  function MixFrame(cfg: R.Config, t: Tick): seq<i16> {
    if (t.digits > 0 && !t.audio) || MixedFrames(t).None? then []
    else if cfg.channels == 2 then MixedFrames(t).value.1 else MixedFrames(t).value.0
  }

  /** A recording in a mix, too, is written the frame of every tick until it finishes. */
  lemma MixTickRecords(s: Subs, t: Tick, cfg: R.Config, content: seq<i16>)
    requires Inv(s) && GoodTick(t) && Ungated(cfg) && Live(s, cfg, content)
    ensures AllValid(s) && LiveOrOver(MixedTick(s, t), cfg, content + MixFrame(cfg, t))
  {
    assert AllValid(s);
    DigitsSpare(s, t.digits, t.opens, t.disk, cfg, content);
    hide Inv, Live, Over, Waiting, Spread, LastN;
    var s1 := AfterDigits(s, t);
    PhasesTell(s1, t, cfg, [], content);
    var s2 := CommonPhases(s1, t);
    assert t.disk;
    hide AfterDigits, CommonPhases, GoodTick, Subs.Feed, AllValid;
    assert content + [] == content;
    if MixedFrames(t).Some? {
      var (mono, stereo) := MixedFrames(t).value;
      FeedTells(s2, mono, stereo, t.recorderPower, cfg, [], content);
    }
    hide MixedFrames;
  }

  /** In a mix what came in stands with what the peer said, cut or filled to its length, or with itself. */
  lemma MixFrameIs(t: Tick, j: nat)
    requires t.receives && t.decoded.Some?
    requires j < if t.wideband.Some? then |t.wideband.value.0| else |t.decoded.value|
    ensures MixedFrames(t).Some?
    ensures var (mono, stereo) := MixedFrames(t).value;
            var self, peer := if t.wideband.Some? then t.wideband.value.0 else t.decoded.value,
                              if t.wideband.Some? then t.peerWideband else t.peer;
            var own, other := self[j], if peer.None? then self[j] else if j < |peer.value| then peer.value[j] else 0;
            var sum := (own as int) + other as int;
            && |mono| == |self| && |stereo| == 2 * |self|
            && stereo[2 * j] == own && stereo[2 * j + 1] == other
            && mono[j] == if peer.None? then own else if sum > 32767 then 32767 else if sum < -32768 then -32768 else sum
  {
    var self, peer := if t.wideband.Some? then t.wideband.value.0 else t.decoded.value,
                      if t.wideband.Some? then t.peerWideband else t.peer;
    var right := PeerSide(self, peer);
    StereoSamples(self, right, j);
    MonoSamples(self, right, j);
    hide StereoFrame, MonoFrame;
  }

  /** An open recorder takes the frame of its kind, all of it and once. */
  lemma OpenTakes(r: R.Recording, mono: seq<i16>, stereo: seq<i16>, power: i16)
    requires r.cfg.Valid() && r.state.Active?
    ensures var w := Written(r, mono, stereo, power, true);
            w.cfg == r.cfg && w.audio == r.audio + if r.cfg.channels == 2 then stereo else mono
  {
    hide FirFilter.Average;
  }

  /** Reported are exactly the gates that opened with the frame and the recordings it ended. */
  lemma {:induction false} FeedReports(rs: seq<R.Recording>, mono: seq<i16>, stereo: seq<i16>, power: i16, disk: bool, e: Event)
    requires ValidConfigs(rs)
    ensures e in FeedAll(rs, mono, stereo, power, disk).events
       <==> exists i | 0 <= i < |rs| :: Reported(rs[i], Written(rs[i], mono, stereo, power, disk), e)
  {
    hide Written;
    if rs != [] {
      FeedReports(rs[1..], mono, stereo, power, disk, e);
      var w := Written(rs[0], mono, stereo, power, disk);
      WrittenConfig(rs[0], mono, stereo, power, disk);
      assert e in WriteEvents(rs[0], w) <==> Reported(rs[0], w, e);
      var rest := FeedAll(rs[1..], mono, stereo, power, disk);
      assert FeedAll(rs, mono, stereo, power, disk).events == WriteEvents(rs[0], w) + rest.events;
      hide WriteEvents, FeedAll, Reported;
      assert forall i | 0 <= i < |rs| - 1 :: rs[1..][i] == rs[i + 1];
      assert forall i | 1 <= i < |rs| :: rs[i] == rs[1..][i - 1];
    }
  }

  predicate Reported(before: R.Recording, after: R.Recording, e: Event) {
    || (e == RecordStarted(before.cfg.file) && before.state.Pending? && after.state.Active?)
    || (e == RecordFinished(before.cfg.file, "ended") && after.state.Finished?)
  }

  // ---- What starts when a prompt ends ----

  /**
   * A queued recorder starts with what was heard during the prompt in its file,
   * on both channels if it has two, and even while its power gate is still shut;
   * only an open gate is reported. If the file cannot be opened that is reported
   * in its place, and what was heard is dropped.
   */
  lemma ActivationIs(s: Subs, opens: bool)
    requires PartsOk(s) && s.pending.Some?
    ensures var cfg, s1 := s.pending.value, s.Activate(opens, true);
            && s1.pending.None? && s1.prebuffer == []
            && if opens then
                 && |s1.recorders| >= 1
                 && (var r := s1.recorders[|s1.recorders| - 1];
                     && r.cfg == cfg && r.audio == (if cfg.channels == 2 then Interleave(s.prebuffer, s.prebuffer) else s.prebuffer)
                     && r.state == (if cfg.startAbove.Some? then R.Pending else R.Active))
                 && s1.events == s.events + (if cfg.startAbove.Some? then [] else [RecordStarted(cfg.file)])
               else s1.recorders == s.recorders && s1.events == s.events + [RecordFinished(cfg.file, "open-failed")]
  {
    ActivateForm(s, opens, true);
    ActivatedOk(s, true);
    ClearParts(s);
    ReplaceKeeps(s.ClearPending(), Activated(s, true));
    ReplaceOnly(s.ClearPending(), Activated(s, true));
    ActivatedHolds(s);
    hide PartsOk, Activated, Subs.Activate, Subs.Replace, Interleave;
    assert s.events + [] == s.events;
  }

  lemma ActivatedHolds(s: Subs)
    requires s.pending.Some?
    ensures var r := Activated(s, true);
            && r.cfg == s.pending.value && r.state == (if r.cfg.startAbove.Some? then R.Pending else R.Active)
            && r.audio == if r.cfg.channels == 2 then Interleave(s.prebuffer, s.prebuffer) else s.prebuffer
  {
    hide Interleave;
    var frame := if s.pending.value.channels == 2 then Interleave(s.prebuffer, s.prebuffer) else s.prebuffer;
    assert [] + frame == frame;
  }

  // ---- What the commands do ----

  /** The recorder at a path, if there is one; Inv makes it the only one. */
  predicate At(rs: seq<R.Recording>, file: string) { exists r <- rs :: r.cfg.file == file }

  /** Taking out the recorder at a path: the others stay. */
  lemma OthersStay(rs: seq<R.Recording>, file: string)
    requires RecordersOk(rs)
    ensures var i := IndexOf(rs, file);
            && (At(rs, file) <==> i < |rs|)
            && (i < |rs| ==> forall r :: r in Removed(rs, i) <==> r in rs && r.cfg.file != file)
  {
    var i := IndexOf(rs, file);
    if i < |rs| {
      assert rs[i] in rs;
      Without(rs, i);
      forall r ensures r in Removed(rs, i) <==> r in rs && r.cfg.file != file {
        if r in rs && r.cfg.file != file { OtherRemoved(rs, i, r, r); }
      }
    }
  }

  /** `record finish`: the recording at that path ends as requested with what it holds, it is reported, and the others go on. */
  lemma FinishIs(s: Subs, file: string)
    requires Inv(s)
    ensures var s1 := Handle(s, RecordFinish(file));
            if At(s.recorders, file) then
              && (forall r :: r in s1.recorders <==> r in s.recorders && r.cfg.file != file)
              && s1.events == s.events + [RecordFinished(file, "requested")]
              && |s1.files| == |s.files| + 1 && s.files <= s1.files
              && (var f := s1.files[|s.files|];
                  f.cfg.file == file && f.state.Finished? && exists r <- s.recorders :: r.cfg == f.cfg && r.audio == f.audio)
            else s1 == s
  {
    OthersStay(s.recorders, file);
    var i := IndexOf(s.recorders, file);
    hide Inv, Removed, At;
    if i < |s.recorders| { assert s.recorders[i] in s.recorders; }
  }

  /** `record pause` and `resume`: only the recorder at that path, and only its state. */
  lemma PauseIs(s: Subs, file: string, paused: bool)
    requires Inv(s)
    ensures var s1 := Handle(s, RecordSetPaused(file, paused));
            && s1 == s.(recorders := s1.recorders) && |s1.recorders| == |s.recorders|
            && forall i | 0 <= i < |s.recorders| ::
                 var r, r1 := s.recorders[i], s1.recorders[i];
                 && r1 == r.(state := r1.state)
                 && r1.state == if r.cfg.file != file then r.state
                                else if paused then R.Paused else if r.state.Paused? then R.Active else r.state
  {
    var i := IndexOf(s.recorders, file);
    assert i < |s.recorders| ==> forall j | 0 <= j < |s.recorders| && j != i :: s.recorders[j].cfg.file != file;
    hide Balanced;
  }

  /**
   * `record`: any queued recorder is dropped. A paused recording of that path
   * goes on where it was; otherwise, if the file opens, what was recorded there
   * ends and a new one begins empty; if it does not, that is reported.
   */
  lemma RecordIs(s: Subs, cfg: R.Config, opens: bool)
    requires Inv(s)
    ensures var s1 := Handle(s, Record(cfg, opens));
            && s1.pending.None? && s1.prebuffer == [] && s1.player == s.player && s1.writer == s.writer
            && if PausedThere(s.recorders, cfg.file) then
                 && s1.events == s.events + [RecordStarted(cfg.file)] && s1.files == s.files && |s1.recorders| == |s.recorders|
                 && forall i | 0 <= i < |s.recorders| ::
                      s1.recorders[i] == if s.recorders[i].cfg.file == cfg.file then s.recorders[i].(state := R.Active)
                                         else s.recorders[i]
               else if !opens then
                 s1.recorders == s.recorders && s1.files == s.files && s1.events == s.events + [RecordFinished(cfg.file, "open-failed")]
               else
                 && (forall r :: r in s1.recorders <==> r == R.Open(cfg) || (r in s.recorders && r.cfg.file != cfg.file))
                 && s1.events == s.events + (if At(s.recorders, cfg.file) then [RecordFinished(cfg.file, "channelclosed")] else [])
                                 + (if cfg.startAbove.Some? then [] else [RecordStarted(cfg.file)])
                 && |s1.files| == |s.files| + if At(s.recorders, cfg.file) then 1 else 0
  {
    PausedFound(s.recorders, cfg.file);
    if PausedThere(s.recorders, cfg.file) {
      PausedIsTheOne(s.recorders, cfg.file);
    } else if opens {
      assert RecordersOk(s.recorders);
      RecordReplaces(s, cfg);
    }
    hide Inv, Subs.Replace, IndexOf, PausedAt, At, PausedThere, R.Open;
  }

  lemma PausedIsTheOne(rs: seq<R.Recording>, file: string)
    requires Distinct(rs) && PausedAt(rs, file) < |rs|
    ensures forall i | 0 <= i < |rs| :: rs[i].cfg.file == file <==> i == PausedAt(rs, file)
  {
  }

  lemma RecordReplaces(s: Subs, cfg: R.Config)
    requires RecordersOk(s.recorders) && PausedAt(s.recorders, cfg.file) == |s.recorders|
    ensures var s1 := RecordAt(s, cfg, true);
            && s1.pending.None? && s1.prebuffer == [] && s1.player == s.player && s1.writer == s.writer
            && (forall r :: r in s1.recorders <==> r == R.Open(cfg) || (r in s.recorders && r.cfg.file != cfg.file))
            && s1.events == s.events + (if At(s.recorders, cfg.file) then [RecordFinished(cfg.file, "channelclosed")] else [])
                            + (if cfg.startAbove.Some? then [] else [RecordStarted(cfg.file)])
            && |s1.files| == |s.files| + if At(s.recorders, cfg.file) then 1 else 0
  {
    OthersStay(s.recorders, cfg.file);
    var i := IndexOf(s.recorders, cfg.file);
    assert i == |s.recorders| ==> forall r <- s.recorders :: r.cfg.file != cfg.file;
    hide RecordersOk, Removed, PausedAt, At, IndexOf;
  }

  predicate PausedThere(rs: seq<R.Recording>, file: string) { exists r <- rs :: r.cfg.file == file && r.state.Paused? }

  lemma {:induction false} PausedFound(rs: seq<R.Recording>, file: string)
    ensures PausedThere(rs, file) <==> PausedAt(rs, file) < |rs|
  {
    if rs != [] {
      PausedFound(rs[1..], file);
      if rs[0].cfg.file == file && rs[0].state.Paused? { assert rs[0] in rs; }
      assert forall r :: r in rs <==> r == rs[0] || r in rs[1..];
    }
  }

  /** The exit path ends every recording with what it holds. */
  lemma {:induction false} ClosingIs(rs: seq<R.Recording>)
    ensures |CloseAll(rs).gone| == |rs| == |CloseAll(rs).events|
    ensures forall i | 0 <= i < |rs| ::
              var f := CloseAll(rs).gone[i];
              && f.state.Finished? && f.cfg == rs[i].cfg && f.audio == rs[i].audio
              && CloseAll(rs).events[i] == RecordFinished(rs[i].cfg.file, "channelclosed")
  {
    if rs != [] { ClosingIs(rs[1..]); }
  }
}
