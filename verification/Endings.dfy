/**
 * When a read of the soundsoup player comes to an end (rust/src/channel/player.rs),
 * for any list of files, sound or cut short: always, unless something goes round
 * for ever in which no request of that size gets anything.
 */
module Endings {
  import opened Common
  import opened Soup
  import opened Tapes

  // ---- What goes round for ever ----

  /** The file that loops for ever, if the player comes to it. */
  predicate LoopsHere(soup: SoundSoup, disk: Disk, i: nat) {
    ComesTo(soup, disk, i) && Forever(soup.files[i].maxLoops)
  }

  /** The whole list goes round for ever: every file opens and is left again. */
  predicate LoopsWhole(soup: SoundSoup, disk: Disk) {
    Forever(soup.overallLoops) && Passed(soup, disk, |soup.files|)
  }

  /** The files of the part that is played for ever; in a soup that is not endless there is none. */
  predicate Looping(soup: SoundSoup, disk: Disk, i: nat) {
    i < |soup.files| && (LoopsHere(soup, disk, i) || LoopsWhole(soup, disk))
  }

  predicate GoesRound(soup: SoundSoup, disk: Disk) {
    exists i: nat | i < |soup.files| :: Looping(soup, disk, i)
  }

  /** Opened at its start mark, the file has something for a read that lacks `want` samples. */
  predicate Gives(soup: SoundSoup, disk: Disk, i: nat, want: nat) {
    OnFile(soup, disk, i) &&
    Request(FileAt(soup, disk, i), StartTape(FileAt(soup, disk, i), soup.files[i]), want * RatioAt(soup, disk, i)) != []
  }

  /** Something in that part has an answer to such a read. */
  predicate LoopGives(soup: SoundSoup, disk: Disk, want: nat) {
    exists i: nat | i < |soup.files| :: Looping(soup, disk, i) && Gives(soup, disk, i, want)
  }

  lemma LoopingIsComeTo(soup: SoundSoup, disk: Disk, i: nat)
    requires Looping(soup, disk, i)
    ensures ComesTo(soup, disk, i)
  {
  }

  /** What answers a read answers a smaller one. */
  lemma GivesLess(soup: SoundSoup, disk: Disk, i: nat, want: nat, less: nat)
    requires Gives(soup, disk, i, want) && 1 <= less <= want
    ensures Gives(soup, disk, i, less)
  {
    var f, r := FileAt(soup, disk, i), RatioAt(soup, disk, i);
    var t := StartTape(f, soup.files[i]);
    Scaled(less, want, r);
    hide StartTape, FileAt, RatioAt;
    RequestLess(f, t, r, want * r, less * r);
  }

  lemma RequestLess(f: WavFile, t: Tape, r: nat, n: nat, m: nat)
    requires 1 <= r <= m <= n && Request(f, t, n) != []
    ensures Request(f, t, m) != []
  {
    if Sound(f, t, r) {
      ChunkIsPrefix(f, t, r, n);
      ChunkIsPrefix(f, t, r, m);
      hide Request, Window, Sound, Wound;
    } else {
      UnsoundRequest(f, t, r, n);
      UnsoundRequest(f, t, r, m);
      hide Request, Sound, Wound;
    }
  }

  // ---- Rounds that give nothing ----

  /** A round without samples leaves the file for what comes after it, or finishes. */
  lemma SilentTurn(soup: SoundSoup, disk: Disk, s: Raw, want: nat)
    requires !s.finished && want > 0 && Turn(soup, disk, s, want).1 == []
    ensures var s1 := Turn(soup, disk, s, want).0;
            s1.finished || (OnFile(soup, disk, s.index) && s1 == Onward(soup, s))
    ensures s.tape.None? && OnFile(soup, disk, s.index) ==> !Gives(soup, disk, s.index, want)
  {
    if OnFile(soup, disk, s.index) {
      TurnFromReady(soup, disk, s, want);
      ReadyOpens(soup, disk, s);
      var o := Ready(soup, disk, s);
      OnwardForgets(soup, s, o.tape);
      assert s.tape.None? ==> o.tape == Some(StartTape(FileAt(soup, disk, s.index), soup.files[s.index]));
      hide Turn, Ready, StartTape, Request, Wound, Onward, FileAt, RatioAt, OnFile;
      assert Take(soup, disk, o, want).1 == [];
    }
  }

  /** Plays of the file at hand, and passes over the list, that a finite setting leaves. */
  function ToGo(loops: Option<nat>, done: nat): (n: nat)
    ensures n >= 1
  {
    match loops
    case None => 1
    case Some(n) => Max(n - done, 1)
  }

  function PlaysToGo(soup: SoundSoup, s: Raw): nat {
    if s.index < |soup.files| then ToGo(soup.files[s.index].maxLoops, s.fileLoop) else 0
  }

  function FilesToGo(soup: SoundSoup, s: Raw): nat { if s.index < |soup.files| then |soup.files| - s.index else 0 }

  /** Whether the player must come round again to stand before file y. */
  function Detour(s: Raw, y: nat): nat { if s.index < y || (s.index == y && s.tape.None?) then 0 else 1 }

  lemma PassedNext(soup: SoundSoup, disk: Disk, i: nat)
    requires ComesTo(soup, disk, i) && !Forever(soup.files[i].maxLoops)
    ensures Passed(soup, disk, i + 1)
  {
    hide OnFile;
  }

  /** In a soup that is not endless going on uses up plays, files and passes. */
  lemma OnwardUsesUp(soup: SoundSoup, disk: Disk, s: Raw)
    requires !GoesRound(soup, disk) && RawOk(soup, disk, s) && !s.finished && OnFile(soup, disk, s.index)
    ensures var s1 := Onward(soup, s);
            || s1.finished
            || ToGo(soup.overallLoops, s1.overallLoop) < ToGo(soup.overallLoops, s.overallLoop)
            || (s1.overallLoop == s.overallLoop
                && (|| FilesToGo(soup, s1) < FilesToGo(soup, s)
                    || (FilesToGo(soup, s1) == FilesToGo(soup, s) && PlaysToGo(soup, s1) < PlaysToGo(soup, s))))
  {
    var i := s.index;
    assert ComesTo(soup, disk, i) && !Looping(soup, disk, i);
    PassedNext(soup, disk, i);
    hide Passed, OnFile;
  }

  /** On the way to file y of the part that goes round, going on brings the player nearer. */
  lemma OnwardNears(soup: SoundSoup, disk: Disk, s: Raw, y: nat)
    requires Looping(soup, disk, y) && RawOk(soup, disk, s) && !s.finished && OnFile(soup, disk, s.index)
    requires !(s.index == y && s.tape.None?)
    ensures var s1 := Onward(soup, s);
            || s1.finished
            || Detour(s1, y) < Detour(s, y)
            || (Detour(s1, y) == Detour(s, y)
                && (|| FilesToGo(soup, s1) < FilesToGo(soup, s)
                    || (FilesToGo(soup, s1) == FilesToGo(soup, s) && PlaysToGo(soup, s1) < PlaysToGo(soup, s))))
  {
    var i := s.index;
    if LoopsHere(soup, disk, y) {
      assert i <= y;
    }
    assert i != y ==> !Forever(soup.files[i].maxLoops);
    hide Passed, OnFile, LoopsHere, LoopsWhole;
  }

  // ---- Reads end ----

  /** Sooner or later a read gets something, or the soup is finished. */
  lemma {:induction false} HeardAtLast(soup: SoundSoup, disk: Disk, s: Raw, want: nat) returns (n: nat)
    requires RawOk(soup, disk, s) && want > 0 && !GoesRound(soup, disk)
    ensures Turns(soup, disk, s, want, n).0.finished || Turns(soup, disk, s, want, n).1 != []
    decreases if s.finished then 0 else 1, ToGo(soup.overallLoops, s.overallLoop), FilesToGo(soup, s), PlaysToGo(soup, s)
  {
    n := 0;
    if !s.finished {
      var t := Turn(soup, disk, s, want);
      OneTurn(soup, disk, s, want);
      n := 1;
      if !t.0.finished && t.1 == [] {
        SilentTurn(soup, disk, s, want);
        TurnOk(soup, disk, s, want);
        OnwardUsesUp(soup, disk, s);
        hide Turn, Turns, Onward, GoesRound, RawOk;
        n := HeardAtLast(soup, disk, t.0, want);
        TurnsAfterSilent(soup, disk, s, want, n);
        n := n + 1;
      }
    }
  }

  lemma {:induction false} HeardInLoop(soup: SoundSoup, disk: Disk, s: Raw, want: nat, y: nat) returns (n: nat)
    requires RawOk(soup, disk, s) && want > 0 && Looping(soup, disk, y) && Gives(soup, disk, y, want)
    ensures Turns(soup, disk, s, want, n).0.finished || Turns(soup, disk, s, want, n).1 != []
    decreases if s.finished then 0 else 1, Detour(s, y), FilesToGo(soup, s), PlaysToGo(soup, s)
  {
    n := 0;
    if !s.finished {
      var t := Turn(soup, disk, s, want);
      OneTurn(soup, disk, s, want);
      n := 1;
      if !t.0.finished && t.1 == [] {
        SilentTurn(soup, disk, s, want);
        TurnOk(soup, disk, s, want);
        OnwardNears(soup, disk, s, y);
        hide Turn, Turns, Onward, Looping, Gives, RawOk;
        n := HeardInLoop(soup, disk, t.0, want, y);
        TurnsAfterSilent(soup, disk, s, want, n);
        n := n + 1;
      }
    }
  }

  lemma {:induction false} TurnsAtMost(soup: SoundSoup, disk: Disk, s: Raw, want: nat, n: nat)
    requires RawOk(soup, disk, s)
    ensures |Turns(soup, disk, s, want, n).1| <= want && RawOk(soup, disk, Turns(soup, disk, s, want, n).0)
    decreases n
  {
    hide *;
    if n == 0 {
      NoTurns(soup, disk, s, want);
    } else {
      TurnsNext(soup, disk, s, want, n);
      TurnOk(soup, disk, s, want);
      var t := Turn(soup, disk, s, want);
      TurnsAtMost(soup, disk, t.0, want - |t.1|, n - 1);
    }
  }

  lemma {:induction false} TurnsJoin(soup: SoundSoup, disk: Disk, s: Raw, want: nat, a: nat, b: nat)
    requires |Turns(soup, disk, s, want, a).1| <= want
    ensures var r := Turns(soup, disk, s, want, a);
            var q := Turns(soup, disk, r.0, want - |r.1|, b);
            Turns(soup, disk, s, want, a + b) == (q.0, r.1 + q.1)
    decreases a
  {
    hide *;
    if a == 0 {
      NoTurns(soup, disk, s, want);
      var q := Turns(soup, disk, s, want, b);
      assert [] + q.1 == q.1;
    } else {
      TurnsNext(soup, disk, s, want, a);
      TurnsNext(soup, disk, s, want, a + b);
      var t := Turn(soup, disk, s, want);
      TurnsJoin(soup, disk, t.0, want - |t.1|, a - 1, b);
      var r := Turns(soup, disk, t.0, want - |t.1|, a - 1);
      Regrouped(t.1, r.1, Turns(soup, disk, r.0, want - |t.1| - |r.1|, b).1);
    }
  }

  lemma Regrouped(a: Audio, b: Audio, c: Audio)
    ensures a + (b + c) == (a + b) + c
  {
  }

  /**
   * Wherever the player stands, and whatever its files are like: a read ends if
   * the soup is not endless, or if the part that goes round for ever has an
   * answer to a read of that size.
   */
  lemma {:induction false} ReadEnds(soup: SoundSoup, disk: Disk, s: Raw, want: nat) returns (n: nat)
    requires RawOk(soup, disk, s) && (GoesRound(soup, disk) && want > 0 ==> LoopGives(soup, disk, want))
    ensures Over(soup, disk, s, want, n)
    decreases want
  {
    hide *;
    if want == 0 {
      n := 0;
      NoTurns(soup, disk, s, want);
      OverIs(soup, disk, s, want, n);
    } else {
      n := FirstHeard(soup, disk, s, want);
      TurnsAtMost(soup, disk, s, want, n);
      var r := Turns(soup, disk, s, want, n);
      var rest := want - |r.1|;
      OverIs(soup, disk, s, want, n);
      if !r.0.finished && rest > 0 {
        if GoesRound(soup, disk) { LoopGivesLess(soup, disk, want, rest); }
        var m := ReadEnds(soup, disk, r.0, rest);
        TurnsJoin(soup, disk, s, want, n, m);
        OverIs(soup, disk, r.0, rest, m);
        n := n + m;
        OverIs(soup, disk, s, want, n);
      }
    }
  }

  lemma FirstHeard(soup: SoundSoup, disk: Disk, s: Raw, want: nat) returns (n: nat)
    requires RawOk(soup, disk, s) && want > 0 && (GoesRound(soup, disk) ==> LoopGives(soup, disk, want))
    ensures Turns(soup, disk, s, want, n).0.finished || Turns(soup, disk, s, want, n).1 != []
  {
    hide Turns, RawOk, Looping, Gives;
    if GoesRound(soup, disk) {
      var y: nat :| y < |soup.files| && Looping(soup, disk, y) && Gives(soup, disk, y, want);
      n := HeardInLoop(soup, disk, s, want, y);
    } else {
      n := HeardAtLast(soup, disk, s, want);
    }
  }

  /** In particular every read of a soup whose loop counts are all finite ends, at any point of the playback. */
  lemma FiniteLoopsEnd(soup: SoundSoup, disk: Disk, wants: seq<nat>, want: nat)
    requires !Forever(soup.overallLoops) && forall i | 0 <= i < |soup.files| :: !Forever(soup.files[i].maxLoops)
    ensures ReadEndsAt(soup, disk, Rounds(soup, disk, Fresh, wants), want)
  {
    RoundsOk(soup, disk, Fresh, wants);
    var n := ReadEnds(soup, disk, Rounds(soup, disk, Fresh, wants), want);
  }

  // ---- And otherwise do not ----

  /** About to open a file of the part that goes round. */
  predicate Circling(soup: SoundSoup, disk: Disk, s: Raw) {
    !s.finished && s.tape.None? && Looping(soup, disk, s.index)
  }

  lemma StillCircling(soup: SoundSoup, disk: Disk, s: Raw)
    requires Circling(soup, disk, s)
    ensures Circling(soup, disk, Onward(soup, s))
  {
    var i := s.index;
    if !Forever(soup.files[i].maxLoops) {
      assert LoopsWhole(soup, disk);
    }
    hide ComesTo, Passed;
  }

  lemma {:induction false} NothingForEver(soup: SoundSoup, disk: Disk, s: Raw, want: nat, n: nat)
    requires Circling(soup, disk, s) && want > 0 && !LoopGives(soup, disk, want)
    ensures !Over(soup, disk, s, want, n)
    decreases n
  {
    hide *;
    OverIs(soup, disk, s, want, n);
    if n == 0 {
      NoTurns(soup, disk, s, want);
      NotFinished(soup, disk, s);
    } else {
      CirclingIsSilent(soup, disk, s, want);
      StillCircling(soup, disk, s);
      NotFinished(soup, disk, s);
      OverIs(soup, disk, Onward(soup, s), want, n - 1);
      NothingForEver(soup, disk, Onward(soup, s), want, n - 1);
      TurnsAfterSilent(soup, disk, s, want, n - 1);
    }
  }

  lemma NotFinished(soup: SoundSoup, disk: Disk, s: Raw)
    requires Circling(soup, disk, s)
    ensures !s.finished && s.index < |soup.files|
  {
  }

  lemma CirclingIsSilent(soup: SoundSoup, disk: Disk, s: Raw, want: nat)
    requires Circling(soup, disk, s) && want > 0 && !LoopGives(soup, disk, want)
    ensures Turn(soup, disk, s, want) == (Onward(soup, s), [])
  {
    LoopingIsComeTo(soup, disk, s.index);
    assert !Gives(soup, disk, s.index, want);
    TurnFromReady(soup, disk, s, want);
    var o := Ready(soup, disk, s);
    OnwardForgets(soup, s, o.tape);
    hide Turn, Request, Wound, Onward, FileAt, RatioAt, StartTape, Looping, OnFile;
  }

  /** At every point of every playback a read of at most `want` samples comes to an end. */
  ghost predicate ReadsEndUpTo(soup: SoundSoup, disk: Disk, want: nat) {
    forall wants: seq<nat>, w: nat | w <= want :: ReadEndsAt(soup, disk, Rounds(soup, disk, Fresh, wants), w)
  }

  /**
   * The exact condition, for any list of files: reads of up to `want` samples
   * end at every point of every playback, if and only if the soup is not
   * endless, or some file of the part that goes round for ever has something
   * for a read of `want`.
   */
  lemma ReadsEndIff(soup: SoundSoup, disk: Disk, want: nat)
    requires want > 0
    ensures ReadsEndUpTo(soup, disk, want) <==> (GoesRound(soup, disk) ==> LoopGives(soup, disk, want))
  {
    if GoesRound(soup, disk) ==> LoopGives(soup, disk, want) {
      forall wants: seq<nat>, w: nat | w <= want ensures ReadEndsAt(soup, disk, Rounds(soup, disk, Fresh, wants), w) {
        RoundsOk(soup, disk, Fresh, wants);
        if GoesRound(soup, disk) && w > 0 { LoopGivesLess(soup, disk, want, w); }
        var n := ReadEnds(soup, disk, Rounds(soup, disk, Fresh, wants), w);
      }
    } else {
      var i: nat :| i < |soup.files| && Looping(soup, disk, i);
      LoopingIsComeTo(soup, disk, i);
      var wants := Arrive(soup, disk, i);
      var s := Raw(i, 0, 0, false, None);
      forall n: nat ensures !Over(soup, disk, s, want, n) { NothingForEver(soup, disk, s, want, n); }
      assert !ReadEndsAt(soup, disk, Rounds(soup, disk, Fresh, wants), want);
    }
  }

  lemma LoopGivesLess(soup: SoundSoup, disk: Disk, want: nat, less: nat)
    requires LoopGives(soup, disk, want) && 1 <= less <= want
    ensures LoopGives(soup, disk, less)
  {
    var i: nat :| i < |soup.files| && Looping(soup, disk, i) && Gives(soup, disk, i, want);
    GivesLess(soup, disk, i, want, less);
  }

  // ---- Reads of every size ----

  /** A sound file with something to hear between its marks. */
  predicate IsHeard(soup: SoundSoup, disk: Disk, i: nat) {
    OnFile(soup, disk, i) && SoundFile(soup, disk, i)
    && Window(FileAt(soup, disk, i), StartTape(FileAt(soup, disk, i), soup.files[i]), RatioAt(soup, disk, i)) != []
  }

  lemma HeardGives(soup: SoundSoup, disk: Disk, i: nat, want: nat)
    requires IsHeard(soup, disk, i) && want > 0
    ensures Gives(soup, disk, i, want)
  {
    var r := RatioAt(soup, disk, i);
    Scaled(1, want, r);
    ChunkIsPrefix(FileAt(soup, disk, i), StartTape(FileAt(soup, disk, i), soup.files[i]), r, want * r);
    hide Request, Window, Sound, Wound, StartTape, FileAt, RatioAt;
  }

  /** More than any file of the first n can give in one piece if it is not sound. */
  function Enough(soup: SoundSoup, disk: Disk, n: nat): (w: nat)
    requires n <= |soup.files|
    ensures w >= 1
  {
    if n == 0 then 1
    else Enough(soup, disk, n - 1) + (if OnFile(soup, disk, n - 1) then |FileAt(soup, disk, n - 1).data| else 0)
  }

  lemma {:induction false} EnoughCovers(soup: SoundSoup, disk: Disk, n: nat, i: nat)
    requires i < n <= |soup.files| && OnFile(soup, disk, i)
    ensures Enough(soup, disk, n) > |FileAt(soup, disk, i).data|
  {
    if i < n - 1 { EnoughCovers(soup, disk, n - 1, i); }
  }

  lemma GivesEnough(soup: SoundSoup, disk: Disk, i: nat, want: nat)
    requires Gives(soup, disk, i, want) && want > |FileAt(soup, disk, i).data|
    ensures IsHeard(soup, disk, i)
  {
    var f, r := FileAt(soup, disk, i), RatioAt(soup, disk, i);
    var t := StartTape(f, soup.files[i]);
    Scaled(1, want, r);
    if Sound(f, t, r) {
      ChunkIsPrefix(f, t, r, want * r);
    } else {
      UnsoundRequest(f, t, r, want * r);
    }
    hide Request, Window, Wound, StartTape, FileAt, RatioAt;
  }

  /**
   * Reads of every size end at every point of every playback, if and only if the
   * soup is not endless, or the part that goes round for ever holds a sound file
   * with something to hear.
   */
  lemma AllReadsEndIff(soup: SoundSoup, disk: Disk)
    ensures (forall want: nat :: ReadsEndUpTo(soup, disk, want))
       <==> (GoesRound(soup, disk)
             ==> exists i: nat | i < |soup.files| :: Looping(soup, disk, i) && IsHeard(soup, disk, i))
  {
    var enough := Enough(soup, disk, |soup.files|);
    ReadsEndIff(soup, disk, enough);
    if GoesRound(soup, disk) && LoopGives(soup, disk, enough) {
      var i := HeardInTheLoop(soup, disk);
    }
    hide Enough, Looping, IsHeard, LoopGives, ReadsEndUpTo, GoesRound;
    forall want: nat ensures GoesRound(soup, disk) && !ReadsEndUpTo(soup, disk, want) ==>
      forall i: nat | i < |soup.files| && Looping(soup, disk, i) :: !IsHeard(soup, disk, i)
    {
      NotHeard(soup, disk, want);
    }
    forall want: nat ensures !GoesRound(soup, disk) ==> ReadsEndUpTo(soup, disk, want) {
      if !GoesRound(soup, disk) {
        ReadsEndIff(soup, disk, want + 1);
        UpToLess(soup, disk, want);
      }
    }
  }

  lemma UpToLess(soup: SoundSoup, disk: Disk, want: nat)
    requires ReadsEndUpTo(soup, disk, want + 1)
    ensures ReadsEndUpTo(soup, disk, want)
  {
    hide ReadEndsAt;
  }

  lemma NotHeard(soup: SoundSoup, disk: Disk, want: nat)
    ensures GoesRound(soup, disk) && !ReadsEndUpTo(soup, disk, want) ==>
              forall i: nat | i < |soup.files| && Looping(soup, disk, i) :: !IsHeard(soup, disk, i)
  {
    hide *;
    forall i: nat | i < |soup.files| && Looping(soup, disk, i)
      ensures IsHeard(soup, disk, i) ==> ReadsEndUpTo(soup, disk, want)
    {
      if IsHeard(soup, disk, i) {
        HeardGives(soup, disk, i, want + 1);
        LoopGivesBy(soup, disk, i, want + 1);
        ReadsEndIff(soup, disk, want + 1);
        UpToLess(soup, disk, want);
      }
    }
  }

  lemma LoopGivesBy(soup: SoundSoup, disk: Disk, i: nat, want: nat)
    requires i < |soup.files| && Looping(soup, disk, i) && Gives(soup, disk, i, want)
    ensures LoopGives(soup, disk, want)
  {
  }

  /** What answers a large enough read is sound. */
  lemma HeardInTheLoop(soup: SoundSoup, disk: Disk) returns (i: nat)
    requires LoopGives(soup, disk, Enough(soup, disk, |soup.files|))
    ensures i < |soup.files| && Looping(soup, disk, i) && IsHeard(soup, disk, i)
  {
    var want := Enough(soup, disk, |soup.files|);
    i :| i < |soup.files| && Looping(soup, disk, i) && Gives(soup, disk, i, want);
    EnoughCovers(soup, disk, |soup.files|, i);
    GivesEnough(soup, disk, i, want);
  }

  // ---- The same condition on the flat meaning ----

  lemma TracksAre(soup: SoundSoup, disk: Disk, i: nat)
    requires i < |soup.files|
    ensures var t := PlaylistOf(soup, disk).tracks[i];
            && (t.Track? <==> OnFile(soup, disk, i))
            && (t.Track? ==> t.loops == soup.files[i].maxLoops
                             && (SoundFile(soup, disk, i) ==> (Play(t) != [] <==> IsHeard(soup, disk, i))))
  {
    hide Window, StartTape, Ratio, Sound;
  }

  ghost predicate SomeLoops(soup: SoundSoup, disk: Disk, i: nat) {
    exists j: nat | i <= j < |soup.files| :: LoopsHere(soup, disk, j)
  }

  ghost predicate SomeHeard(soup: SoundSoup, disk: Disk, i: nat) {
    exists j: nat | i <= j < |soup.files| :: IsHeard(soup, disk, j)
  }

  ghost predicate SomeHeardLoops(soup: SoundSoup, disk: Disk, i: nat) {
    exists j: nat | i <= j < |soup.files| :: LoopsHere(soup, disk, j) && IsHeard(soup, disk, j)
  }

  lemma HereOrLater(soup: SoundSoup, disk: Disk, i: nat)
    requires i < |soup.files|
    ensures SomeLoops(soup, disk, i) <==> LoopsHere(soup, disk, i) || SomeLoops(soup, disk, i + 1)
    ensures SomeHeard(soup, disk, i) <==> IsHeard(soup, disk, i) || SomeHeard(soup, disk, i + 1)
    ensures SomeHeardLoops(soup, disk, i)
       <==> (LoopsHere(soup, disk, i) && IsHeard(soup, disk, i)) || SomeHeardLoops(soup, disk, i + 1)
  {
    hide LoopsHere, IsHeard;
  }

  /** From file i on: whether the list is completed, what loops, and whether that is heard. */
  ghost predicate Agrees(soup: SoundSoup, disk: Disk, ts: seq<Track>, i: nat)
    requires i <= |soup.files|
  {
    && (Completes(ts) <==> Passed(soup, disk, |soup.files|))
    && (GoesOn(ts, soup.overallLoops)
        <==> SomeLoops(soup, disk, i) || LoopsWhole(soup, disk))
    && (LoopBody(ts) != [] <==> SomeHeardLoops(soup, disk, i))
    && (Completes(ts) ==> (Pass(ts, 1) != [] <==> SomeHeard(soup, disk, i)))
  }

  lemma {:induction false} SuffixAgrees(soup: SoundSoup, disk: Disk, i: nat)
    requires AllSound(soup, disk) && i <= |soup.files| && Passed(soup, disk, i)
    ensures Agrees(soup, disk, PlaylistOf(soup, disk).tracks[i..], i)
    decreases |soup.files| - i
  {
    var ts := PlaylistOf(soup, disk).tracks;
    if i < |soup.files| {
      TracksAre(soup, disk, i);
      assert ts[i..][0] == ts[i] && ts[i..][1..] == ts[i + 1..];
      if OnFile(soup, disk, i) {
        assert ComesTo(soup, disk, i) && SoundFile(soup, disk, i);
        if Forever(soup.files[i].maxLoops) {
          EndsAt(soup, disk, i, ts[i..]);
        } else {
          PassedNext(soup, disk, i);
          hide PlaylistOf, OnFile, SoundFile, IsHeard, Play;
          SuffixAgrees(soup, disk, i + 1);
          GoesOnFrom(soup, disk, i, ts[i], ts[i + 1..]);
          assert ts[i..] == [ts[i]] + ts[i + 1..];
        }
      } else {
        NothingFrom(soup, disk, i, ts[i..]);
      }
    } else {
      assert ts[i..] == [];
      NoneLeft(soup, disk);
    }
  }

  lemma NoneLeft(soup: SoundSoup, disk: Disk)
    requires Passed(soup, disk, |soup.files|)
    ensures Agrees(soup, disk, [], |soup.files|)
  {
    hide OnFile, IsHeard;
  }

  /** A file that does not open is where it ends. */
  lemma NothingFrom(soup: SoundSoup, disk: Disk, i: nat, ts: seq<Track>)
    requires i < |soup.files| && !OnFile(soup, disk, i) && ts != [] && ts[0].Missing?
    ensures Agrees(soup, disk, ts, i)
  {
    forall j: nat | i <= j ensures !ComesTo(soup, disk, j) {
    }
    assert !Passed(soup, disk, |soup.files|);
    hide OnFile, IsHeard, Passed;
  }

  /** A file that loops for ever is where it stays. */
  lemma EndsAt(soup: SoundSoup, disk: Disk, i: nat, ts: seq<Track>)
    requires i < |soup.files| && LoopsHere(soup, disk, i) && ts != [] && ts[0].Track? && Forever(ts[0].loops)
    requires Play(ts[0]) != [] <==> IsHeard(soup, disk, i)
    ensures Agrees(soup, disk, ts, i)
  {
    forall j: nat | i < j ensures !Passed(soup, disk, j) {
      assert Forever(soup.files[i].maxLoops);
    }
    hide OnFile, IsHeard, Play, Passed;
  }

  /** A file that is left again, and the rest. */
  lemma GoesOnFrom(soup: SoundSoup, disk: Disk, i: nat, t: Track, rest: seq<Track>)
    requires i < |soup.files| && !Forever(soup.files[i].maxLoops) && Agrees(soup, disk, rest, i + 1)
    requires t.Track? && t.loops == soup.files[i].maxLoops && (Play(t) != [] <==> IsHeard(soup, disk, i))
    ensures Agrees(soup, disk, [t] + rest, i)
  {
    assert !LoopsHere(soup, disk, i);
    HereOrLater(soup, disk, i);
    TrackAhead(t, rest, soup.overallLoops);
    hide LoopsHere, IsHeard, Play, Passed, LoopsWhole, SomeLoops, SomeHeard, SomeHeardLoops, Completes, GoesOn, LoopBody, Pass;
  }

  lemma TrackAhead(t: Track, rest: seq<Track>, loops: Option<nat>)
    requires t.Track? && !Forever(t.loops)
    ensures var ts := [t] + rest;
            && (Completes(ts) <==> Completes(rest)) && (GoesOn(ts, loops) <==> GoesOn(rest, loops))
            && LoopBody(ts) == LoopBody(rest)
            && (Pass(ts, 1) != [] <==> Play(t) != [] || Pass(rest, 1) != [])
  {
    var ts := [t] + rest;
    assert ts[0] == t && ts[1..] == rest;
    RepeatLength(Play(t), Times(t.loops, 1));
    hide Play, Repeat;
  }

  /**
   * On sound files the condition is that of the flat meaning: reads of every size
   * end, from the beginning or at every point of every playback, if and only if
   * nothing that loops for ever is silent.
   */
  lemma SoundReadsEndIffProductive(soup: SoundSoup, disk: Disk)
    requires AllSound(soup, disk)
    ensures (forall want: nat :: ReadsEndUpTo(soup, disk, want)) <==> Productive(PlaylistOf(soup, disk))
    ensures (forall want: nat :: ReadEndsAt(soup, disk, Fresh, want)) <==> Productive(PlaylistOf(soup, disk))
  {
    SuffixAgrees(soup, disk, 0);
    var p := PlaylistOf(soup, disk);
    assert p.tracks[0..] == p.tracks && |p.tracks| == |soup.files| && p.loops == soup.overallLoops;
    hide *;
    ProductiveIff(soup, disk, p);
    AllReadsEndIff(soup, disk);
    SoundReadsEndIff(soup, disk);
  }

  lemma ProductiveIff(soup: SoundSoup, disk: Disk, p: Playlist)
    requires |p.tracks| == |soup.files| && p.loops == soup.overallLoops && Agrees(soup, disk, p.tracks, 0)
    ensures Productive(p)
       <==> (GoesRound(soup, disk)
             ==> exists i: nat | i < |soup.files| :: Looping(soup, disk, i) && IsHeard(soup, disk, i))
  {
    var n := |soup.files|;
    if Passed(soup, disk, n) {
      forall i: nat | i < n ensures !LoopsHere(soup, disk, i) {
      }
      assert !SomeLoops(soup, disk, 0) && !SomeHeardLoops(soup, disk, 0);
    } else {
      assert !LoopsWhole(soup, disk);
    }
    RoundIs(soup, disk);
    hide *;
    ProductiveThen(soup, disk, p);
  }

  /** What goes round, and whether it is heard, in terms of the list from its beginning. */
  lemma RoundIs(soup: SoundSoup, disk: Disk)
    ensures GoesRound(soup, disk) <==> SomeLoops(soup, disk, 0) || (soup.files != [] && LoopsWhole(soup, disk))
    ensures (exists i: nat | i < |soup.files| :: Looping(soup, disk, i) && IsHeard(soup, disk, i))
       <==> if LoopsWhole(soup, disk) then SomeHeard(soup, disk, 0) else SomeHeardLoops(soup, disk, 0)
  {
    hide LoopsHere, LoopsWhole, IsHeard;
    if soup.files != [] && LoopsWhole(soup, disk) { assert Looping(soup, disk, 0); }
    forall j: nat | j < |soup.files|
      ensures Looping(soup, disk, j) <==> LoopsHere(soup, disk, j) || LoopsWhole(soup, disk)
    {
    }
    if SomeLoops(soup, disk, 0) {
      var j: nat :| j < |soup.files| && LoopsHere(soup, disk, j);
      assert Looping(soup, disk, j);
    }
    if GoesRound(soup, disk) && !LoopsWhole(soup, disk) {
      var j: nat :| j < |soup.files| && Looping(soup, disk, j);
      assert LoopsHere(soup, disk, j);
    }
    if SomeHeardLoops(soup, disk, 0) {
      var j: nat :| j < |soup.files| && LoopsHere(soup, disk, j) && IsHeard(soup, disk, j);
      assert Looping(soup, disk, j) && IsHeard(soup, disk, j);
    }
    if LoopsWhole(soup, disk) && SomeHeard(soup, disk, 0) {
      var j: nat :| j < |soup.files| && IsHeard(soup, disk, j);
      assert Looping(soup, disk, j) && IsHeard(soup, disk, j);
    }
  }

  lemma ProductiveThen(soup: SoundSoup, disk: Disk, p: Playlist)
    requires |p.tracks| == |soup.files| && p.loops == soup.overallLoops && Agrees(soup, disk, p.tracks, 0)
    requires LoopsWhole(soup, disk) ==> Passed(soup, disk, |soup.files|)
    requires Passed(soup, disk, |soup.files|) ==> !SomeLoops(soup, disk, 0) && !SomeHeardLoops(soup, disk, 0)
    requires GoesRound(soup, disk) <==> SomeLoops(soup, disk, 0) || (soup.files != [] && LoopsWhole(soup, disk))
    requires (exists i: nat | i < |soup.files| :: Looping(soup, disk, i) && IsHeard(soup, disk, i))
        <==> if LoopsWhole(soup, disk) then SomeHeard(soup, disk, 0) else SomeHeardLoops(soup, disk, 0)
    requires SomeLoops(soup, disk, 0) ==> soup.files != []
    ensures Productive(p)
       <==> (GoesRound(soup, disk)
             ==> exists i: nat | i < |soup.files| :: Looping(soup, disk, i) && IsHeard(soup, disk, i))
  {
    hide Passed, LoopsWhole, Looping, IsHeard, GoesOn, Completes, Pass, LoopBody, GoesRound, SomeLoops, SomeHeard, SomeHeardLoops;
  }
}
