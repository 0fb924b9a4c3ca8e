/**
 * The soundsoup player on values (rust/src/channel/player.rs,
 * rust/src/soundfile.rs), for whatever files there are. A WAV file may hold
 * less data than its header declares, and a read is all or nothing: the player
 * takes a failed one for the end of the file. `Turn` is one round of the
 * player's read loop on such files; where every file the player comes to is
 * sound, turns are the trips of module Soup, and where one is not, how much is
 * heard depends on how much is asked for.
 */
module Tapes {
  import opened Common
  import opened Soup

  /** A 16-bit PCM file that opens: the data bytes present, the data length its header declares, and the header rates. */
  datatype WavFile = WavFile(data: seq<u8>, declared: nat, sampleRate: nat, byteRate: nat, align: nat)

  /** The paths that open; every other path fails. */
  type Disk = map<string, WavFile>

  datatype FileSpec = FileSpec(path: string, startMs: Option<nat>, stopMs: Option<nat>, maxLoops: Option<nat>)

  datatype SoundSoup = SoundSoup(files: seq<FileSpec>, overallLoops: Option<nat>, interrupt: bool)

  function Sample(lo: u8, hi: u8): i16 {
    var v := hi as int * 0x100 + lo;
    if v < 0x8000 then v else v - 0x1_0000
  }

  /** Little-endian 16-bit samples of a byte string; an odd last byte is no sample. */
  function Samples(b: seq<u8>): (s: Audio)
    ensures |s| == |b| / 2
  {
    seq(|b| / 2, i requires 0 <= i < |b| / 2 => Sample(b[2 * i], b[2 * i + 1]))
  }

  // ---- One file ----

  /** How many bytes a request for n samples takes. */
  function TakenBytes(f: WavFile, pos: nat, n: nat): nat {
    Min(2 * n, Max(f.declared - pos, 0))
  }

  /** A read is all or nothing: it fails when the file ends before the bytes its header promised. */
  function ReadAt(f: WavFile, pos: nat, n: nat): Option<Audio> {
    var b := TakenBytes(f, pos, n);
    if b == 0 then Some([]) else if pos + b > |f.data| then None else Some(Samples(f.data[pos..pos + b]))
  }

  /** The player treats a failed read as an empty one. */
  function Got(r: Option<Audio>): Audio { if r.Some? then r.value else [] }

  /** An open file: the byte position in its data, and the samples before the stop mark, if there is one. */
  datatype Tape = Tape(pos: nat, left: Option<nat>)

  function Need(t: Tape, n: nat): nat { if t.left.Some? then Min(n, t.left.value) else n }

  /** What the player gets when it asks for n source samples. */
  function Request(f: WavFile, t: Tape, n: nat): Audio { Got(ReadAt(f, t.pos, Need(t, n))) }

  function Wound(f: WavFile, t: Tape, n: nat): Tape {
    Tape(t.pos + TakenBytes(f, t.pos, Need(t, n)),
         if t.left.Some? then Some(Max(t.left.value - |Request(f, t, n)|, 0)) else None)
  }

  /** The bytes of what is still to be read are all there: up to the declared end, or up to the stop mark. */
  predicate Whole(f: WavFile, t: Tape) {
    f.declared <= |f.data| || (t.left.Some? && t.pos + 2 * t.left.value <= |f.data|)
  }

  /** Not even the smallest request is met, which is for the `ratio` source samples of one output sample. */
  predicate Mute(f: WavFile, t: Tape, ratio: nat) {
    |f.data| < f.declared && t.pos + 2 * Need(t, ratio) > |f.data|
  }

  predicate Sound(f: WavFile, t: Tape, ratio: nat) { Whole(f, t) || Mute(f, t, ratio) }

  function Upcoming(f: WavFile, pos: nat): Audio {
    var end := Min(f.declared, |f.data|);
    if pos <= end then Samples(f.data[pos..end]) else []
  }

  function Capped(s: Audio, cap: Option<nat>): Audio {
    if cap.Some? && cap.value < |s| then s[..cap.value] else s
  }

  /** What is left to hear of a sound file. */
  function Window(f: WavFile, t: Tape, ratio: nat): Audio {
    if Mute(f, t, ratio) then [] else Capped(Upcoming(f, t.pos), t.left)
  }

  lemma SamplesSplit(b: seq<u8>, m: nat)
    requires 2 * m <= |b|
    ensures Samples(b[..2 * m]) == Samples(b)[..m] && Samples(b[2 * m..]) == Samples(b)[m..]
  {
  }

  lemma SliceOfSlice<T>(s: seq<T>, i: nat, j: nat, k: nat)
    requires i + k <= j <= |s|
    ensures s[i..j][..k] == s[i..i + k] && s[i..j][k..] == s[i + k..j]
  {
  }

  lemma NoSamples()
    ensures Samples([]) == []
  {
  }

  /** A read that stays inside the data gives the next samples. */
  lemma ReadIsPrefix(f: WavFile, pos: nat, n: nat)
    requires f.declared <= |f.data| || pos + 2 * n <= |f.data|
    ensures var u := Upcoming(f, pos); var m := Min(n, |u|);
            Got(ReadAt(f, pos, n)) == u[..m] && Upcoming(f, pos + TakenBytes(f, pos, n)) == u[m..]
  {
    var end, b, u := Min(f.declared, |f.data|), TakenBytes(f, pos, n), Upcoming(f, pos);
    var m := Min(n, |u|);
    hide Samples;
    NoSamples();
    if pos <= end {
      var d := f.data[pos..end];
      SliceOfSlice(f.data, pos, end, b);
      if b == 2 * n {
        assert m == n;
        SamplesSplit(d, n);
      } else {
        assert b == |d| && d[..b] == d && d[b..] == [];
        assert m == |u| && u[..m] == u && u[m..] == [];
      }
      assert b == 0 ==> u[..m] == [];
    }
  }

  lemma CapSplit(u: Audio, t: Tape, n: nat)
    ensures var rest := Capped(u, t.left);
            var m, m' := Min(n, |rest|), Min(Need(t, n), |u|);
            && m == m' && u[..m] == rest[..m]
            && Capped(u[m..], if t.left.Some? then Some(Max(t.left.value - m, 0)) else None) == rest[m..]
  {
  }

  /** One request against a sound file takes exactly the next samples of its window, and leaves it sound. */
  lemma ChunkIsPrefix(f: WavFile, t: Tape, ratio: nat, n: nat)
    requires Sound(f, t, ratio) && 1 <= ratio <= n
    ensures var rest := Window(f, t, ratio); var m := Min(n, |rest|);
            && Request(f, t, n) == rest[..m]
            && (m > 0 ==> Sound(f, Wound(f, t, n), ratio) && Window(f, Wound(f, t, n), ratio) == rest[m..])
  {
    if Mute(f, t, ratio) {
      MuteIsSilent(f, t, ratio, n);
    } else {
      WholeChunk(f, t, ratio, n);
    }
  }

  lemma MuteIsSilent(f: WavFile, t: Tape, ratio: nat, n: nat)
    requires Mute(f, t, ratio) && ratio <= n
    ensures Request(f, t, n) == []
  {
    hide Samples;
    NoSamples();
    assert Need(t, ratio) <= Need(t, n);
  }

  lemma WholeChunk(f: WavFile, t: Tape, ratio: nat, n: nat)
    requires Whole(f, t) && !Mute(f, t, ratio) && 1 <= ratio <= n
    ensures var rest := Window(f, t, ratio); var m := Min(n, |rest|);
            && Request(f, t, n) == rest[..m]
            && (m > 0 ==> Sound(f, Wound(f, t, n), ratio) && Window(f, Wound(f, t, n), ratio) == rest[m..])
  {
    hide Samples, ReadAt, Upcoming;
    ReadIsPrefix(f, t.pos, Need(t, n));
    CapSplit(Upcoming(f, t.pos), t, n);
    if Request(f, t, n) != [] { WoundStaysWhole(f, t, ratio, n); }
    hide TakenBytes, Capped, Need, Mute;
  }

  lemma WoundStaysWhole(f: WavFile, t: Tape, ratio: nat, n: nat)
    requires Whole(f, t) && Request(f, t, n) != []
    ensures Whole(f, Wound(f, t, n)) && !Mute(f, Wound(f, t, n), ratio)
  {
    if |f.data| < f.declared {
      assert TakenBytes(f, t.pos, Need(t, n)) == 2 * Need(t, n);
      assert |Request(f, t, n)| == Need(t, n);
    }
  }

  /**
   * The exact condition, at one place in one file: a larger request never gives
   * less, if and only if what is left is all there or cannot be read at all.
   */
  lemma MoreGivesMoreIff(f: WavFile, t: Tape, ratio: nat)
    requires ratio >= 1
    ensures (forall n: nat, m: nat | 1 <= n <= m :: Request(f, t, n * ratio) <= Request(f, t, m * ratio)) <==> Sound(f, t, ratio)
  {
    if Sound(f, t, ratio) {
      forall n: nat, m: nat | 1 <= n <= m ensures Request(f, t, n * ratio) <= Request(f, t, m * ratio) {
        Scaled(n, m, ratio);
        ChunkIsPrefix(f, t, ratio, n * ratio);
        ChunkIsPrefix(f, t, ratio, m * ratio);
        hide *;
      }
    } else {
      UnsoundChunks(f, t, ratio);
      var n, m := 1, Large(f, t);
      assert Request(f, t, n * ratio) != [] && Request(f, t, m * ratio) == [];
      assert !(Request(f, t, n * ratio) <= Request(f, t, m * ratio));
    }
  }

  lemma Scaled(n: nat, m: nat, ratio: nat)
    requires 1 <= n <= m && ratio >= 1
    ensures ratio <= n * ratio <= m * ratio && n * ratio >= n && m * ratio >= m
  {
    assert m * ratio == n * ratio + (m - n) * ratio;
    assert n * ratio == ratio + (n - 1) * ratio;
    assert n * ratio == n + n * (ratio - 1);
    assert m * ratio == m + m * (ratio - 1);
  }

  /** More than the file declares, and more than the stop mark leaves. */
  function Large(f: WavFile, t: Tape): (n: nat)
    ensures n >= 1
  {
    f.declared + (if t.left.Some? then t.left.value else 0) + 1
  }

  /** From an unsound file the smallest request gets something and a large one nothing. */
  lemma UnsoundChunks(f: WavFile, t: Tape, ratio: nat)
    requires ratio >= 1 && !Sound(f, t, ratio)
    ensures Request(f, t, 1 * ratio) != [] && Request(f, t, Large(f, t) * ratio) == []
  {
    UnsoundRequest(f, t, ratio, ratio);
    Scaled(1, Large(f, t), ratio);
    UnsoundRequest(f, t, ratio, Large(f, t) * ratio);
  }

  /** An unsound file meets a request in full or not at all: in full exactly if the bytes are there. */
  lemma UnsoundRequest(f: WavFile, t: Tape, ratio: nat, n: nat)
    requires !Whole(f, t) && t.pos <= |f.data| && n >= 1
    ensures |Request(f, t, n)| == (if t.pos + 2 * n <= |f.data| then n else 0)
    ensures t.pos + 2 * n <= |f.data| ==>
              Wound(f, t, n) == Tape(t.pos + 2 * n, if t.left.Some? then Some(t.left.value - n) else None) && Need(t, n) == n
  {
    hide Samples;
    NoSamples();
  }

  // ---- From files to tracks ----

  function StartByte(f: WavFile, startMs: Option<nat>): (b: nat)
    ensures b <= f.declared
  {
    match startMs
    case None => 0
    case Some(ms) =>
      var offset := (f.byteRate / 1000) * ms;
      Min(if f.align > 0 then offset - offset % f.align else offset, f.declared)
  }

  /** The number of source samples up to the stop mark, if there is one. */
  function Cap(f: WavFile, spec: FileSpec): Option<nat> {
    match spec.stopMs
    case None => None
    case Some(stop) =>
      var start := match spec.startMs case Some(ms) => ms case None => 0;
      Some(if stop > start then (stop - start) * f.sampleRate / 1000 else 0)
  }

  function StartTape(f: WavFile, spec: FileSpec): Tape { Tape(StartByte(f, spec.startMs), Cap(f, spec)) }

  /** Source samples per output sample; sources below the output rate are played as they are. */
  function Ratio(sampleRate: nat): (r: nat)
    ensures r >= 1
  {
    Max(Max(sampleRate, 8000) / 8000, 1)
  }

  // ---- What the marks and the rate mean ----

  /** A sample is the 16-bit two's complement number of its bytes, low byte first. */
  lemma SampleIs(lo: u8, hi: u8)
    ensures var v := (hi as int) * 0x100 + lo as int;
            Sample(lo, hi) as int == v || (Sample(lo, hi) as int == v - 0x1_0000 && hi >= 0x80)
    ensures hi < 0x80 ==> Sample(lo, hi) >= 0
  {
  }

  /** A rate of m times 8 kHz, rounded down, is cut by m; rates below 16 kHz are played as they are. */
  lemma RatioIs(rate: nat, m: nat)
    requires m >= 1
    ensures Ratio(8000 * m) == m && (rate < 16000 ==> Ratio(rate) == 1) && (rate >= 8000 ==> 8000 * Ratio(rate) <= rate < 8000 * (Ratio(rate) + 1))
  {
  }

  /**
   * What a trimmed file plays, in samples of its own rate: of a mono file of
   * `perMs` samples a millisecond that holds its data, the n samples that lie
   * between the two marks, as far as there are any.
   */
  lemma TrimIs(f: WavFile, spec: FileSpec, perMs: nat, first: nat, n: nat, k: nat)
    requires f.declared <= |f.data| && f.align == 2 && f.sampleRate == 1000 * perMs && f.byteRate == 2 * f.sampleRate
    requires spec.startMs.Some? && spec.stopMs.Some? && spec.startMs.value <= spec.stopMs.value
    requires first == spec.startMs.value * perMs && n == (spec.stopMs.value - spec.startMs.value) * perMs
    ensures var w := Window(f, StartTape(f, spec), Ratio(f.sampleRate));
            && (k < |w| <==> k < n && 2 * (first + k) + 1 < f.declared)
            && (k < |w| ==> w[k] == Sample(f.data[2 * (first + k)], f.data[2 * (first + k) + 1]))
  {
    var start, stop := spec.startMs.value, spec.stopMs.value;
    assert f.byteRate / 1000 == 2 * perMs;
    assert (2 * perMs) * start == 2 * first;
    StartIs(f, start, first);
    CapIs(f.sampleRate, perMs, stop - start);
    var t := StartTape(f, spec);
    assert t.left == Some(n) by { CapOf(f, spec); }
    assert t.pos == Min(2 * first, f.declared);
    hide StartTape, Ratio, StartByte, Cap;
    WindowAt(f, t, Ratio(f.sampleRate), k);
    hide Window;
  }

  lemma CapOf(f: WavFile, spec: FileSpec)
    requires spec.startMs.Some? && spec.stopMs.Some? && spec.startMs.value <= spec.stopMs.value
    ensures Cap(f, spec) == Some((spec.stopMs.value - spec.startMs.value) * f.sampleRate / 1000)
  {
    if spec.stopMs.value == spec.startMs.value { assert 0 * f.sampleRate == 0; }
  }

  lemma StartIs(f: WavFile, start: nat, samples: nat)
    requires f.align == 2 && (f.byteRate / 1000) * start == 2 * samples
    ensures StartByte(f, Some(start)) == Min(2 * samples, f.declared)
  {
    assert (2 * samples) % 2 == 0;
  }

  lemma CapIs(rate: nat, perMs: nat, ms: nat)
    requires rate == 1000 * perMs
    ensures ms * rate / 1000 == ms * perMs
  {
    assert ms * rate == 1000 * (ms * perMs);
  }

  lemma WindowAt(f: WavFile, t: Tape, ratio: nat, k: nat)
    requires f.declared <= |f.data| && t.left.Some? && t.pos <= f.declared
    ensures var w := Window(f, t, ratio);
            && (k < |w| <==> k < t.left.value && t.pos + 2 * k + 1 < f.declared)
            && (k < |w| ==> w[k] == Sample(f.data[t.pos + 2 * k], f.data[t.pos + 2 * k + 1]))
  {
    var b := f.data[t.pos..f.declared];
    assert |Samples(b)| == (f.declared - t.pos) / 2;
    if k < |Samples(b)| { assert Samples(b)[k] == Sample(b[2 * k], b[2 * k + 1]); }
  }

  function TrackOf(disk: Disk, spec: FileSpec): Track {
    if spec.path !in disk then Missing
    else
      var f := disk[spec.path];
      Track(Window(f, StartTape(f, spec), Ratio(f.sampleRate)), Ratio(f.sampleRate), spec.maxLoops)
  }

  function PlaylistOf(soup: SoundSoup, disk: Disk): (p: Playlist)
    ensures Ratios(p) && |p.tracks| == |soup.files| && p.loops == soup.overallLoops
    ensures forall i | 0 <= i < |soup.files| :: p.tracks[i] == TrackOf(disk, soup.files[i])
  {
    Playlist(seq(|soup.files|, i requires 0 <= i < |soup.files| => TrackOf(disk, soup.files[i])), soup.overallLoops)
  }

  // ---- The read loop on files ----

  /** The player's own fields; `tape` is the open reader's position and the samples left before the stop mark. */
  datatype Raw = Raw(index: nat, fileLoop: nat, overallLoop: nat, finished: bool, tape: Option<Tape>)

  const Fresh: Raw := Raw(0, 0, 0, false, None)

  predicate OnFile(soup: SoundSoup, disk: Disk, i: nat) { i < |soup.files| && soup.files[i].path in disk }

  function FileAt(soup: SoundSoup, disk: Disk, i: nat): WavFile
    requires OnFile(soup, disk, i)
  {
    disk[soup.files[i].path]
  }

  function RatioAt(soup: SoundSoup, disk: Disk, i: nat): (r: nat)
    requires OnFile(soup, disk, i)
    ensures r >= 1
  {
    Ratio(FileAt(soup, disk, i).sampleRate)
  }

  /** `open_current`: a missing file or index ends the soup. */
  function OpenCurrent(soup: SoundSoup, disk: Disk, s: Raw): Raw {
    if OnFile(soup, disk, s.index) then s.(tape := Some(StartTape(FileAt(soup, disk, s.index), soup.files[s.index])))
    else s.(finished := true)
  }

  /** `advance`: per-file loops, then the next file, then whole-list loops. */
  function Onward(soup: SoundSoup, s: Raw): Raw
    requires s.index < |soup.files|
  {
    if !Done(soup.files[s.index].maxLoops, s.fileLoop + 1) then s.(tape := None, fileLoop := s.fileLoop + 1)
    else if s.index + 1 < |soup.files| then Raw(s.index + 1, 0, s.overallLoop, false, None)
    else if Done(soup.overallLoops, s.overallLoop + 1) then Raw(s.index + 1, 0, s.overallLoop + 1, true, None)
    else Raw(0, 0, s.overallLoop + 1, false, None)
  }

  /** One request on the open file: some of it, or on to what comes after. */
  function Take(soup: SoundSoup, disk: Disk, s: Raw, want: nat): (Raw, Audio)
    requires OnFile(soup, disk, s.index) && s.tape.Some?
  {
    var f, t, r := FileAt(soup, disk, s.index), s.tape.value, RatioAt(soup, disk, s.index);
    var got := Request(f, t, want * r);
    if got == [] then (Onward(soup, s), []) else (s.(tape := Some(Wound(f, t, want * r))), Decimate(got, r))
  }

  /** One round of the read loop with `want` samples still to be had: the new fields and the samples it adds. */
  function Turn(soup: SoundSoup, disk: Disk, s: Raw, want: nat): (Raw, Audio) {
    if s.finished || want == 0 then (s, [])
    else
      var o := if s.tape.None? then OpenCurrent(soup, disk, s) else s;
      if o.finished || !OnFile(soup, disk, o.index) || o.tape.None? then (o.(finished := true), [])
      else Take(soup, disk, o, want)
  }

  /** Any number of rounds of one read. */
  function Turns(soup: SoundSoup, disk: Disk, s: Raw, want: nat, n: nat): (Raw, Audio)
    decreases n
  {
    if n == 0 then (s, [])
    else
      var t := Turn(soup, disk, s, want);
      var u := Turns(soup, disk, t.0, if |t.1| <= want then want - |t.1| else 0, n - 1);
      (u.0, t.1 + u.1)
  }

  /** The read of `want` samples is over after n rounds. */
  predicate Over(soup: SoundSoup, disk: Disk, s: Raw, want: nat, n: nat) {
    var r := Turns(soup, disk, s, want, n);
    r.0.finished || |r.1| == want
  }

  ghost predicate ReadEndsAt(soup: SoundSoup, disk: Disk, s: Raw, want: nat) {
    exists n: nat :: Over(soup, disk, s, want, n)
  }

  /** A round never gives more than was asked for. */
  lemma TurnAtMost(soup: SoundSoup, disk: Disk, s: Raw, want: nat)
    ensures |Turn(soup, disk, s, want).1| <= want
  {
    hide Request, Decimate, Wound, StartTape;
    if !s.finished && want > 0 {
      var o := if s.tape.None? then OpenCurrent(soup, disk, s) else s;
      if OnFile(soup, disk, o.index) && o.tape.Some? {
        var r := RatioAt(soup, disk, o.index);
        var got := Request(FileAt(soup, disk, o.index), o.tape.value, want * r);
        RequestAtMost(FileAt(soup, disk, o.index), o.tape.value, want * r);
        DecimateLength(got, r, want);
      }
    }
  }

  lemma RequestAtMost(f: WavFile, t: Tape, n: nat)
    ensures |Request(f, t, n)| <= n
  {
    var m, b := Need(t, n), TakenBytes(f, t.pos, Need(t, n));
    assert m <= n && b <= 2 * m;
    if b > 0 && t.pos + b <= |f.data| {
      assert |f.data[t.pos..t.pos + b]| == b;
      assert Request(f, t, n) == Samples(f.data[t.pos..t.pos + b]);
    } else {
      assert Request(f, t, n) == [];
    }
  }

  lemma TurnsNext(soup: SoundSoup, disk: Disk, s: Raw, want: nat, n: nat)
    requires n > 0
    ensures var t := Turn(soup, disk, s, want);
            && |t.1| <= want
            && var u := Turns(soup, disk, t.0, want - |t.1|, n - 1);
               Turns(soup, disk, s, want, n) == (u.0, t.1 + u.1)
  {
    TurnAtMost(soup, disk, s, want);
    hide Turn;
  }

  lemma NoTurns(soup: SoundSoup, disk: Disk, s: Raw, want: nat)
    ensures Turns(soup, disk, s, want, 0) == (s, [])
  {
  }

  lemma OneTurn(soup: SoundSoup, disk: Disk, s: Raw, want: nat)
    ensures Turns(soup, disk, s, want, 1) == Turn(soup, disk, s, want)
  {
    hide Turn;
    var t := Turn(soup, disk, s, want);
    assert t.1 + [] == t.1;
  }

  lemma OverIs(soup: SoundSoup, disk: Disk, s: Raw, want: nat, n: nat)
    ensures Over(soup, disk, s, want, n) <==> var r := Turns(soup, disk, s, want, n); r.0.finished || |r.1| == want
  {
    hide Turns;
  }

  lemma TurnsAfterSilent(soup: SoundSoup, disk: Disk, s: Raw, want: nat, n: nat)
    requires Turn(soup, disk, s, want).1 == []
    ensures Turns(soup, disk, s, want, n + 1) == Turns(soup, disk, Turn(soup, disk, s, want).0, want, n)
  {
    hide Turn;
    var u := Turns(soup, disk, Turn(soup, disk, s, want).0, want, n);
    assert [] + u.1 == u.1;
  }

  /** Nothing happens in a read that is over. */
  lemma {:induction false} TurnsIdle(soup: SoundSoup, disk: Disk, s: Raw, want: nat, n: nat)
    requires s.finished || want == 0
    ensures Turns(soup, disk, s, want, n) == (s, [])
    decreases n
  {
    if n > 0 {
      TurnsIdle(soup, disk, s, want, n - 1);
      var t, u := Turn(soup, disk, s, want), Turns(soup, disk, s, want, n - 1);
      assert t == (s, []) && t.1 + u.1 == [];
    }
  }

  // ---- Where the player comes to ----

  /** A file that opens, after files that open and do not loop for ever. */
  predicate ComesTo(soup: SoundSoup, disk: Disk, i: nat) {
    OnFile(soup, disk, i) && Passed(soup, disk, i)
  }

  predicate Passed(soup: SoundSoup, disk: Disk, i: nat) {
    forall j: nat | j < i :: OnFile(soup, disk, j) && !Forever(soup.files[j].maxLoops)
  }

  predicate SoundFile(soup: SoundSoup, disk: Disk, i: nat)
    requires OnFile(soup, disk, i)
  {
    Sound(FileAt(soup, disk, i), StartTape(FileAt(soup, disk, i), soup.files[i]), RatioAt(soup, disk, i))
  }

  /** Every file the player comes to is sound from its start mark to its stop mark. */
  predicate AllSound(soup: SoundSoup, disk: Disk) {
    forall i: nat | i < |soup.files| && ComesTo(soup, disk, i) :: SoundFile(soup, disk, i)
  }

  /** What holds of the player's fields between rounds. */
  predicate RawOk(soup: SoundSoup, disk: Disk, s: Raw) {
    s.finished || (Passed(soup, disk, s.index) && (s.tape.Some? ==> OnFile(soup, disk, s.index)))
  }

  predicate SoundNow(soup: SoundSoup, disk: Disk, s: Raw) {
    !s.finished && s.tape.Some? && OnFile(soup, disk, s.index) ==>
      Sound(FileAt(soup, disk, s.index), s.tape.value, RatioAt(soup, disk, s.index))
  }

  lemma OnwardOk(soup: SoundSoup, disk: Disk, s: Raw)
    requires RawOk(soup, disk, s) && !s.finished && OnFile(soup, disk, s.index)
    ensures RawOk(soup, disk, Onward(soup, s)) && Onward(soup, s).tape.None?
  {
    hide OnFile;
  }

  lemma TurnOk(soup: SoundSoup, disk: Disk, s: Raw, want: nat)
    requires RawOk(soup, disk, s)
    ensures RawOk(soup, disk, Turn(soup, disk, s, want).0)
  {
    hide Passed, Request, Wound, Decimate, StartTape;
    if OnFile(soup, disk, s.index) && !s.finished {
      OnwardOk(soup, disk, s);
      OnwardOk(soup, disk, OpenCurrent(soup, disk, s));
    }
    hide Onward;
  }

  /** The state of module Soup that a player on sound files shows. */
  function Shown(soup: SoundSoup, disk: Disk, s: Raw): (m: State)
    ensures m.finished == s.finished
  {
    State(s.index, s.fileLoop, s.overallLoop, s.finished,
          if s.tape.None? then None
          else Some(if OnFile(soup, disk, s.index)
                    then Window(FileAt(soup, disk, s.index), s.tape.value, RatioAt(soup, disk, s.index)) else []))
  }

  lemma OnTrackIsOnFile(soup: SoundSoup, disk: Disk, s: Raw)
    ensures OnTrack(PlaylistOf(soup, disk), Shown(soup, disk, s)) <==> OnFile(soup, disk, s.index)
    ensures OnFile(soup, disk, s.index) ==>
              var t := PlaylistOf(soup, disk).tracks[s.index];
              && t.Track? && t.ratio == RatioAt(soup, disk, s.index) && t.loops == soup.files[s.index].maxLoops
              && t.window == Window(FileAt(soup, disk, s.index), StartTape(FileAt(soup, disk, s.index), soup.files[s.index]),
                                    RatioAt(soup, disk, s.index))
  {
    hide Window, StartTape, Ratio;
  }

  /** A request on a sound file is a take of module Soup. */
  lemma TakeRefines(soup: SoundSoup, disk: Disk, s: Raw, want: nat)
    requires OnFile(soup, disk, s.index) && s.tape.Some? && !s.finished && want > 0 && SoundNow(soup, disk, s)
    ensures var p, (s1, out) := PlaylistOf(soup, disk), Take(soup, disk, s, want);
            && Trip(p, Shown(soup, disk, s), want) == (Shown(soup, disk, s1), out)
            && SoundNow(soup, disk, s1)
  {
    var f, t, r := FileAt(soup, disk, s.index), s.tape.value, RatioAt(soup, disk, s.index);
    OnTrackIsOnFile(soup, disk, s);
    Scaled(1, want, r);
    ChunkIsPrefix(f, t, r, want * r);
    hide Request, Wound, Window, Sound, Decimate, StartTape, PlaylistOf, FileAt, RatioAt, OnFile, OnTrack;
  }

  /** And one round is a trip. */
  lemma TurnRefines(soup: SoundSoup, disk: Disk, s: Raw, want: nat)
    requires AllSound(soup, disk) && RawOk(soup, disk, s) && SoundNow(soup, disk, s)
    ensures var p, (s1, out) := PlaylistOf(soup, disk), Turn(soup, disk, s, want);
            && Trip(p, Shown(soup, disk, s), want) == (Shown(soup, disk, s1), out)
            && RawOk(soup, disk, s1) && SoundNow(soup, disk, s1)
  {
    TurnOk(soup, disk, s, want);
    if !s.finished && want > 0 {
      OnTrackIsOnFile(soup, disk, s);
      if s.tape.Some? {
        TakeRefines(soup, disk, s, want);
      } else if OnFile(soup, disk, s.index) {
        assert ComesTo(soup, disk, s.index);
        TakeRefines(soup, disk, OpenCurrent(soup, disk, s), want);
        OpenRefines(soup, disk, s, want);
      }
    }
    hide Take, Window, Sound, StartTape, PlaylistOf, Decimate, Advance, RawOk, AllSound;
  }

  lemma OpenRefines(soup: SoundSoup, disk: Disk, s: Raw, want: nat)
    requires OnFile(soup, disk, s.index) && s.tape.None? && !s.finished && want > 0
    ensures var p, o := PlaylistOf(soup, disk), OpenCurrent(soup, disk, s);
            && Turn(soup, disk, s, want) == Take(soup, disk, o, want)
            && Trip(p, Shown(soup, disk, s), want) == Trip(p, Shown(soup, disk, o), want)
  {
    OnTrackIsOnFile(soup, disk, s);
    hide Take, Window, StartTape, PlaylistOf, Decimate, Advance, OnTrack;
  }

  lemma {:induction false} TurnsRefine(soup: SoundSoup, disk: Disk, s: Raw, want: nat, n: nat)
    requires AllSound(soup, disk) && RawOk(soup, disk, s) && SoundNow(soup, disk, s)
    ensures var p, (s1, out) := PlaylistOf(soup, disk), Turns(soup, disk, s, want, n);
            && Trips(p, Shown(soup, disk, s), want, n) == (Shown(soup, disk, s1), out)
            && RawOk(soup, disk, s1) && SoundNow(soup, disk, s1)
    decreases n
  {
    hide *;
    var p := PlaylistOf(soup, disk);
    if n == 0 {
      NoTurns(soup, disk, s, want);
      NoTrips(p, Shown(soup, disk, s), want);
    } else {
      TurnRefines(soup, disk, s, want);
      TurnsNext(soup, disk, s, want, n);
      var t := Turn(soup, disk, s, want);
      TripsNext(p, Shown(soup, disk, s), want, n);
      TurnsRefine(soup, disk, t.0, want - |t.1|, n - 1);
    }
  }

  lemma NoTrips(p: Playlist, s: State, want: nat)
    ensures Trips(p, s, want, 0) == (s, [])
  {
  }

  lemma TripsNext(p: Playlist, s: State, want: nat, n: nat)
    requires n > 0 && |Trip(p, s, want).1| <= want
    ensures var t := Trip(p, s, want);
            var u := Trips(p, t.0, want - |t.1|, n - 1);
            Trips(p, s, want, n) == (u.0, t.1 + u.1)
  {
    hide Trip;
  }

  /**
   * On sound files any number of reads, of any sizes and for any number of
   * rounds, continues the flat meaning of the soup; with `ChunkSizesDoNotMatter`
   * of module Soup, how the playback is cut makes no difference.
   */
  lemma SoundReadsAreFaithful(soup: SoundSoup, disk: Disk, s: Raw, played: Audio, want: nat, n: nat)
    requires AllSound(soup, disk) && RawOk(soup, disk, s) && SoundNow(soup, disk, s)
    requires Faithful(PlaylistOf(soup, disk), Shown(soup, disk, s), played)
    ensures var (s1, out) := Turns(soup, disk, s, want, n);
            RawOk(soup, disk, s1) && SoundNow(soup, disk, s1) && Faithful(PlaylistOf(soup, disk), Shown(soup, disk, s1), played + out)
  {
    TurnsRefine(soup, disk, s, want, n);
    TripsFaithful(PlaylistOf(soup, disk), Shown(soup, disk, s), played, want, n);
    hide *;
  }

  /** On sound files every read from the beginning ends, if and only if nothing that loops for ever is silent. */
  lemma SoundReadsEndIff(soup: SoundSoup, disk: Disk)
    requires AllSound(soup, disk)
    ensures (forall want: nat :: ReadEndsAt(soup, disk, Fresh, want)) <==> Productive(PlaylistOf(soup, disk))
  {
    var p := PlaylistOf(soup, disk);
    ReadsEndIffProductive(p);
    assert Shown(soup, disk, Fresh) == Begin;
    hide PlaylistOf, Productive, AllSound;
    forall want: nat ensures ReadEndsAt(soup, disk, Fresh, want) <==> ReadOfSizeEnds(p, want) {
      forall n: nat ensures Over(soup, disk, Fresh, want, n) <==> ReadEnds(p, want, n) {
        TurnsRefine(soup, disk, Fresh, want, n);
      }
      if ReadEndsAt(soup, disk, Fresh, want) {
        var n: nat :| Over(soup, disk, Fresh, want, n);
        assert ReadEnds(p, want, n);
      }
      if ReadOfSizeEnds(p, want) {
        var n: nat :| ReadEnds(p, want, n);
        assert Over(soup, disk, Fresh, want, n);
      }
    }
  }

  // ---- How much is asked for ----

  /** Rounds one after another, each wanting what the list says. */
  function Rounds(soup: SoundSoup, disk: Disk, s: Raw, wants: seq<nat>): Raw
    decreases |wants|
  {
    if wants == [] then s else Rounds(soup, disk, Turn(soup, disk, s, wants[0]).0, wants[1..])
  }

  lemma {:induction false} RoundsJoin(soup: SoundSoup, disk: Disk, s: Raw, a: seq<nat>, b: seq<nat>)
    ensures Rounds(soup, disk, s, a + b) == Rounds(soup, disk, Rounds(soup, disk, s, a), b)
    decreases |a|
  {
    if a == [] {
      assert a + b == b;
    } else {
      assert (a + b)[1..] == a[1..] + b;
      RoundsJoin(soup, disk, Turn(soup, disk, s, a[0]).0, a[1..], b);
    }
  }

  lemma {:induction false} RoundsOk(soup: SoundSoup, disk: Disk, s: Raw, wants: seq<nat>)
    requires RawOk(soup, disk, s)
    ensures RawOk(soup, disk, Rounds(soup, disk, s, wants))
    ensures AllSound(soup, disk) && SoundNow(soup, disk, s) ==> SoundNow(soup, disk, Rounds(soup, disk, s, wants))
    decreases |wants|
  {
    if wants != [] {
      TurnOk(soup, disk, s, wants[0]);
      if AllSound(soup, disk) && SoundNow(soup, disk, s) { TurnRefines(soup, disk, s, wants[0]); }
      hide Turn, RawOk, SoundNow, AllSound;
      RoundsOk(soup, disk, Turn(soup, disk, s, wants[0]).0, wants[1..]);
    }
  }

  /** In this state, whoever asks for more gets what is got by asking for less, and perhaps more. */
  ghost predicate MoreGivesMore(soup: SoundSoup, disk: Disk, s: Raw) {
    forall n: nat, m: nat | 1 <= n <= m :: Turn(soup, disk, s, n).1 <= Turn(soup, disk, s, m).1
  }

  lemma DecimatePrefix(rest: Audio, r: nat, n: nat, m: nat)
    requires r >= 1 && n <= m
    ensures n * r <= m * r
    ensures Decimate(rest[..Min(n * r, |rest|)], r) <= Decimate(rest[..Min(m * r, |rest|)], r)
  {
    assert m * r == n * r + (m - n) * r && (m - n) * r >= 0;
    if n * r < |rest| { CutPrefix(rest[..Min(m * r, |rest|)], rest, r, n, n * r); }
  }

  lemma CutPrefix(part: Audio, rest: Audio, r: nat, n: nat, a: nat)
    requires r >= 1 && a == n * r <= |part| <= |rest| && part == rest[..|part|]
    ensures Decimate(rest[..a], r) <= Decimate(part, r)
  {
    DecimateSplit(part, r, n);
    assert part[..a] == rest[..a];
  }

  lemma SoundGivesMore(soup: SoundSoup, disk: Disk, s: Raw, n: nat, m: nat)
    requires OnFile(soup, disk, s.index) && s.tape.Some? && !s.finished && SoundNow(soup, disk, s) && 1 <= n <= m
    ensures Take(soup, disk, s, n).1 <= Take(soup, disk, s, m).1
  {
    var f, t, r := FileAt(soup, disk, s.index), s.tape.value, RatioAt(soup, disk, s.index);
    Scaled(1, n, r);
    Scaled(1, m, r);
    var rest := Window(f, t, r);
    ChunkIsPrefix(f, t, r, n * r);
    ChunkIsPrefix(f, t, r, m * r);
    DecimatePrefix(rest, r, n, m);
    hide Request, Window, Wound, Sound, FileAt, RatioAt;
  }

  /** The state once its file is open. */
  function Ready(soup: SoundSoup, disk: Disk, s: Raw): Raw { if s.tape.None? then OpenCurrent(soup, disk, s) else s }

  lemma TurnFromReady(soup: SoundSoup, disk: Disk, s: Raw, want: nat)
    requires want > 0 && !s.finished && OnFile(soup, disk, s.index)
    ensures var o := Ready(soup, disk, s);
            o.tape.Some? && !o.finished && o.index == s.index && Turn(soup, disk, s, want) == Take(soup, disk, o, want)
  {
    hide Take, StartTape;
  }

  lemma MoreGivesMoreHere(soup: SoundSoup, disk: Disk, s: Raw)
    requires OnFile(soup, disk, s.index) && !s.finished
    ensures MoreGivesMore(soup, disk, s) <==> SoundNow(soup, disk, Ready(soup, disk, s))
  {
    var o := Ready(soup, disk, s);
    TurnFromReady(soup, disk, s, 1);
    if SoundNow(soup, disk, o) {
      forall n: nat, m: nat | 1 <= n <= m ensures Turn(soup, disk, s, n).1 <= Turn(soup, disk, s, m).1 {
        TurnFromReady(soup, disk, s, n);
        TurnFromReady(soup, disk, s, m);
        SoundGivesMore(soup, disk, o, n, m);
        hide *;
      }
    } else {
      var f, t := FileAt(soup, disk, o.index), o.tape.value;
      UnsoundChunks(f, t, RatioAt(soup, disk, o.index));
      var m := Large(f, t);
      TurnFromReady(soup, disk, s, m);
      hide Request, Wound, Ready, Turn;
      assert Turn(soup, disk, s, 1).1 != [] && Turn(soup, disk, s, m).1 == [];
      assert !(Turn(soup, disk, s, 1).1 <= Turn(soup, disk, s, m).1);
    }
  }

  lemma NothingPlays(soup: SoundSoup, disk: Disk, s: Raw, want: nat)
    requires s.finished || !OnFile(soup, disk, s.index)
    ensures Turn(soup, disk, s, want).1 == []
  {
  }

  /** One play of the file at hand is got through in two rounds at most. */
  lemma SkipPlay(soup: SoundSoup, disk: Disk, s: Raw) returns (wants: seq<nat>)
    requires OnFile(soup, disk, s.index) && !s.finished && s.tape.None?
    ensures Rounds(soup, disk, s, wants) == Onward(soup, s)
  {
    var o := Ready(soup, disk, s);
    ReadyOpens(soup, disk, s);
    var w := SkipWant(soup, disk, o);
    hide *;
    TurnFromReady(soup, disk, s, w);
    SkipTake(soup, disk, o);
    OnwardForgets(soup, s, o.tape);
    OneRound(soup, disk, s, w);
    wants := [w];
    var s1 := Turn(soup, disk, s, w).0;
    if s1 != Onward(soup, s) {
      ReadyStays(soup, disk, s1);
      TurnFromReady(soup, disk, s1, 1);
      wants := [w] + [1];
      RoundsJoin(soup, disk, s, [w], [1]);
      OneRound(soup, disk, s1, 1);
    }
  }

  lemma ReadyOpens(soup: SoundSoup, disk: Disk, s: Raw)
    requires OnFile(soup, disk, s.index) && !s.finished
    ensures var o := Ready(soup, disk, s); o.tape.Some? && o == s.(tape := o.tape)
  {
    hide StartTape;
  }

  lemma ReadyStays(soup: SoundSoup, disk: Disk, s: Raw)
    requires s.tape.Some?
    ensures Ready(soup, disk, s) == s
  {
  }

  /** More than is left of a sound file, or more than an unsound one can give. */
  function SkipWant(soup: SoundSoup, disk: Disk, o: Raw): (w: nat)
    requires OnFile(soup, disk, o.index) && o.tape.Some?
    ensures w >= 1
  {
    var f, t, r := FileAt(soup, disk, o.index), o.tape.value, RatioAt(soup, disk, o.index);
    if Sound(f, t, r) then |Window(f, t, r)| + 1 else Large(f, t)
  }

  /** Asking for that ends the play, at once or with the next round. */
  lemma SkipTake(soup: SoundSoup, disk: Disk, o: Raw)
    requires OnFile(soup, disk, o.index) && !o.finished && o.tape.Some?
    ensures var s1 := Take(soup, disk, o, SkipWant(soup, disk, o)).0;
            || s1 == Onward(soup, o)
            || (!s1.finished && s1.index == o.index && s1.tape.Some? && Take(soup, disk, s1, 1).0 == Onward(soup, o))
  {
    var w := SkipWant(soup, disk, o);
    var f, t, r := FileAt(soup, disk, o.index), o.tape.value, RatioAt(soup, disk, o.index);
    TakeForms(soup, disk, o, w);
    if Sound(f, t, r) {
      TakeAll(f, t, r);
      if Request(f, t, w * r) != [] {
        var s1 := o.(tape := Some(Wound(f, t, w * r)));
        TakeForms(soup, disk, s1, 1);
        OnwardForgets(soup, o, s1.tape);
        hide *;
      }
    } else {
      UnsoundChunks(f, t, r);
      hide *;
    }
  }

  lemma OnwardForgets(soup: SoundSoup, s: Raw, tape: Option<Tape>)
    requires s.index < |soup.files|
    ensures Onward(soup, s.(tape := tape)) == Onward(soup, s)
  {
  }

  lemma TakeForms(soup: SoundSoup, disk: Disk, s: Raw, want: nat)
    requires OnFile(soup, disk, s.index) && s.tape.Some?
    ensures var f, t, n := FileAt(soup, disk, s.index), s.tape.value, want * RatioAt(soup, disk, s.index);
            Take(soup, disk, s, want).0 == if Request(f, t, n) == [] then Onward(soup, s) else s.(tape := Some(Wound(f, t, n)))
  {
    hide Request, Wound, Onward, FileAt, RatioAt, Decimate;
  }

  /** Asking a sound file for more than is left takes it all: the next request gets nothing. */
  lemma TakeAll(f: WavFile, t: Tape, r: nat)
    requires Sound(f, t, r) && r >= 1
    ensures var n := (|Window(f, t, r)| + 1) * r;
            Request(f, t, n) != [] ==> Request(f, Wound(f, t, n), 1 * r) == []
  {
    var rest := Window(f, t, r);
    var n := (|rest| + 1) * r;
    Scaled(1, |rest| + 1, r);
    ChunkIsPrefix(f, t, r, n);
    assert rest[|rest|..] == [];
    if Request(f, t, n) != [] { ChunkIsPrefix(f, Wound(f, t, n), r, 1 * r); }
    hide *;
  }

  lemma OneRound(soup: SoundSoup, disk: Disk, s: Raw, w: nat)
    ensures Rounds(soup, disk, s, [w]) == Turn(soup, disk, s, w).0
  {
    hide Turn;
    assert [w][1..] == [];
  }

  /** All its plays are got through, if it does not loop for ever. */
  lemma {:induction false} SkipFile(soup: SoundSoup, disk: Disk, s: Raw) returns (wants: seq<nat>)
    requires OnFile(soup, disk, s.index) && s == Raw(s.index, s.fileLoop, 0, false, None)
    requires !Forever(soup.files[s.index].maxLoops) && s.index + 1 < |soup.files|
    ensures Rounds(soup, disk, s, wants) == Raw(s.index + 1, 0, 0, false, None)
    decreases Max(Times(soup.files[s.index].maxLoops, 0) - s.fileLoop, 0)
  {
    wants := SkipPlay(soup, disk, s);
    var s1 := Onward(soup, s);
    if !Done(soup.files[s.index].maxLoops, s.fileLoop + 1) {
      var more := SkipFile(soup, disk, s1);
      RoundsJoin(soup, disk, s, wants, more);
      wants := wants + more;
    }
  }

  /** Some playback stands at the beginning of any file the player comes to. */
  lemma {:induction false} Arrive(soup: SoundSoup, disk: Disk, i: nat) returns (wants: seq<nat>)
    requires i < |soup.files| && Passed(soup, disk, i)
    ensures Rounds(soup, disk, Fresh, wants) == Raw(i, 0, 0, false, None)
  {
    wants := [];
    if i > 0 {
      assert Passed(soup, disk, i - 1);
      wants := Arrive(soup, disk, i - 1);
      var more := SkipFile(soup, disk, Raw(i - 1, 0, 0, false, None));
      RoundsJoin(soup, disk, Fresh, wants, more);
      wants := wants + more;
    }
  }

  /**
   * How the playback of a soup is cut into reads makes no difference anywhere,
   * if and only if every file the player comes to is sound: then all is as the
   * flat meaning has it (`SoundReadsAreFaithful`), and otherwise there is a
   * place where asking for more gives less.
   */
  lemma MoreNeverGivesLessIff(soup: SoundSoup, disk: Disk)
    ensures (forall wants: seq<nat> :: MoreGivesMore(soup, disk, Rounds(soup, disk, Fresh, wants))) <==> AllSound(soup, disk)
  {
    if AllSound(soup, disk) {
      forall wants: seq<nat> ensures MoreGivesMore(soup, disk, Rounds(soup, disk, Fresh, wants)) {
        RoundsOk(soup, disk, Fresh, wants);
        SoundStateGivesMore(soup, disk, Rounds(soup, disk, Fresh, wants));
      }
    } else {
      var i: nat :| i < |soup.files| && ComesTo(soup, disk, i) && !SoundFile(soup, disk, i);
      var wants := Arrive(soup, disk, i);
      MoreGivesMoreHere(soup, disk, Raw(i, 0, 0, false, None));
      assert !MoreGivesMore(soup, disk, Rounds(soup, disk, Fresh, wants)) by { hide MoreGivesMore, Sound, StartTape; }
    }
  }

  lemma SoundStateGivesMore(soup: SoundSoup, disk: Disk, s: Raw)
    requires AllSound(soup, disk) && RawOk(soup, disk, s) && SoundNow(soup, disk, s)
    ensures MoreGivesMore(soup, disk, s)
  {
    hide Turn, Sound, StartTape, Passed;
    if s.finished || !OnFile(soup, disk, s.index) {
      forall n: nat { NothingPlays(soup, disk, s, n); }
    } else {
      assert ComesTo(soup, disk, s.index);
      MoreGivesMoreHere(soup, disk, s);
      hide MoreGivesMore, FileAt, RatioAt;
    }
  }

  // ---- What is heard in the end ----

  /** What the rounds of a playback give, one after another. */
  function HeardIn(soup: SoundSoup, disk: Disk, s: Raw, wants: seq<nat>): Audio
    decreases |wants|
  {
    if wants == [] then []
    else Turn(soup, disk, s, wants[0]).1 + HeardIn(soup, disk, Turn(soup, disk, s, wants[0]).0, wants[1..])
  }

  /** Any two playbacks that come to the end have played the same. */
  ghost predicate CutsAgree(soup: SoundSoup, disk: Disk) {
    forall a: seq<nat>, b: seq<nat> |
      Rounds(soup, disk, Fresh, a).finished && Rounds(soup, disk, Fresh, b).finished ::
      HeardIn(soup, disk, Fresh, a) == HeardIn(soup, disk, Fresh, b)
  }

  lemma {:induction false} RoundsAreFaithful(soup: SoundSoup, disk: Disk, s: Raw, played: Audio, wants: seq<nat>)
    requires AllSound(soup, disk) && RawOk(soup, disk, s) && SoundNow(soup, disk, s)
    requires Faithful(PlaylistOf(soup, disk), Shown(soup, disk, s), played)
    ensures Faithful(PlaylistOf(soup, disk), Shown(soup, disk, Rounds(soup, disk, s, wants)),
                     played + HeardIn(soup, disk, s, wants))
    decreases |wants|
  {
    hide AllSound, RawOk, SoundNow, Faithful, PlaylistOf, Turn, Shown, Trip;
    if wants == [] {
      assert played + [] == played;
    } else {
      var t := Turn(soup, disk, s, wants[0]);
      TurnRefines(soup, disk, s, wants[0]);
      TripFaithful(PlaylistOf(soup, disk), Shown(soup, disk, s), played, wants[0]);
      RoundsAreFaithful(soup, disk, t.0, played + t.1, wants[1..]);
      var rest := HeardIn(soup, disk, t.0, wants[1..]);
      assert played + t.1 + rest == played + (t.1 + rest);
    }
  }

  lemma SoundCutsAgree(soup: SoundSoup, disk: Disk)
    requires AllSound(soup, disk)
    ensures CutsAgree(soup, disk)
  {
    var p := PlaylistOf(soup, disk);
    BeginFaithful(p);
    assert Shown(soup, disk, Fresh) == Begin;
    forall a: seq<nat>, b: seq<nat> | Rounds(soup, disk, Fresh, a).finished && Rounds(soup, disk, Fresh, b).finished
      ensures HeardIn(soup, disk, Fresh, a) == HeardIn(soup, disk, Fresh, b)
    {
      RoundsAreFaithful(soup, disk, Fresh, [], a);
      RoundsAreFaithful(soup, disk, Fresh, [], b);
      var x, y := HeardIn(soup, disk, Fresh, a), HeardIn(soup, disk, Fresh, b);
      assert [] + x == x && [] + y == y;
      var s, s' := Shown(soup, disk, Rounds(soup, disk, Fresh, a)), Shown(soup, disk, Rounds(soup, disk, Fresh, b));
      hide *;
      if |x| <= |y| { ChunkSizesDoNotMatter(p, s, x, s', y); } else { ChunkSizesDoNotMatter(p, s', y, s, x); }
    }
  }

  /** One file, played once. */
  predicate OneFileOnce(soup: SoundSoup, disk: Disk) {
    |soup.files| == 1 && OnFile(soup, disk, 0) && Done(soup.files[0].maxLoops, 1) && Done(soup.overallLoops, 1)
  }

  /**
   * A file played once sounds the same however the playback is cut into reads,
   * if and only if it is sound between its marks. If it is not, one large read
   * hears nothing of it, and a small one before that something.
   */
  lemma OneFileCutsAgreeIff(soup: SoundSoup, disk: Disk)
    requires OneFileOnce(soup, disk)
    ensures CutsAgree(soup, disk) <==> SoundFile(soup, disk, 0)
  {
    if SoundFile(soup, disk, 0) {
      assert AllSound(soup, disk) by { hide Sound, StartTape; }
      SoundCutsAgree(soup, disk);
    } else {
      var n := Large(FileAt(soup, disk, 0), StartTape(FileAt(soup, disk, 0), soup.files[0]));
      hide SoundFile, StartTape;
      TwoCuts(soup, disk, n);
      assert !CutsAgree(soup, disk) by { hide Rounds, HeardIn; }
    }
  }

  lemma TwoCuts(soup: SoundSoup, disk: Disk, n: nat)
    requires OneFileOnce(soup, disk) && !SoundFile(soup, disk, 0)
    requires n == Large(FileAt(soup, disk, 0), StartTape(FileAt(soup, disk, 0), soup.files[0]))
    ensures Rounds(soup, disk, Fresh, [n]).finished && HeardIn(soup, disk, Fresh, [n]) == []
    ensures Rounds(soup, disk, Fresh, [1, n]).finished && HeardIn(soup, disk, Fresh, [1, n]) != []
  {
    var f, r := FileAt(soup, disk, 0), RatioAt(soup, disk, 0);
    var t := StartTape(f, soup.files[0]);
    UnsoundChunks(f, t, r);
    TurnFromReady(soup, disk, Fresh, n);
    TurnFromReady(soup, disk, Fresh, 1);
    var o := OpenCurrent(soup, disk, Fresh);
    assert Ready(soup, disk, Fresh) == o && o.tape == Some(t);
    TakeForms(soup, disk, o, n);
    TakeForms(soup, disk, o, 1);
    AfterOne(f, t, r);
    var t1 := Wound(f, t, 1 * r);
    var s1 := o.(tape := Some(t1));
    TakeForms(soup, disk, s1, n);
    TurnFromReady(soup, disk, s1, n);
    ReadyStays(soup, disk, s1);
    assert Take(soup, disk, o, n).1 == [] && Take(soup, disk, o, 1).1 != [] by { hide Request, Wound, FileAt, RatioAt; }
    assert Onward(soup, o).finished && Onward(soup, s1).finished;
    hide Turn, Take, Ready, Request, Wound, Onward, FileAt, RatioAt, StartTape, OnFile, OpenCurrent, Large;
    assert [n][1..] == [] && [1, n][1..] == [n];
    assert HeardIn(soup, disk, Fresh, [n]) == Turn(soup, disk, Fresh, n).1 + [];
  }

  /** After one output sample of an unsound file a large request still fails. */
  lemma AfterOne(f: WavFile, t: Tape, r: nat)
    requires r >= 1 && !Sound(f, t, r)
    ensures Request(f, Wound(f, t, 1 * r), Large(f, t) * r) == []
  {
    UnsoundChunks(f, t, r);
    UnsoundRequest(f, t, r, r);
    CutOn(f, t, r);
    Scaled(1, Large(f, t), r);
    UnsoundRequest(f, Wound(f, t, 1 * r), r, Large(f, t) * r);
    hide Request, Wound;
  }

  // ---- A file cut short that loops ----

  /** One file, played for ever. */
  predicate OneEndless(soup: SoundSoup, disk: Disk) {
    |soup.files| == 1 && OnFile(soup, disk, 0) && (Forever(soup.files[0].maxLoops) || Forever(soup.overallLoops))
  }

  /** The samples a read from the start mark can still get in one piece. */
  function Served(soup: SoundSoup, disk: Disk): int
    requires OnFile(soup, disk, 0)
  {
    var f := FileAt(soup, disk, 0);
    var start := StartByte(f, soup.files[0].startMs);
    if start <= |f.data| then (|f.data| - start) / (2 * RatioAt(soup, disk, 0)) else 0
  }

  /** Where such a player can stand. */
  predicate InLoop(soup: SoundSoup, disk: Disk, s: Raw)
    requires OnFile(soup, disk, 0)
  {
    var f := FileAt(soup, disk, 0);
    && !s.finished && s.index == 0
    && (s.tape.Some? ==>
          !Whole(f, s.tape.value) && StartByte(f, soup.files[0].startMs) <= s.tape.value.pos <= |f.data|)
  }

  lemma FitsIff(a: nat, w: nat, d: nat)
    requires d > 0
    ensures w * d <= a <==> w <= a / d
  {
    assert a == d * (a / d) + a % d;
    if w <= a / d {
      assert (a / d - w) * d >= 0;
    } else {
      assert (w - a / d - 1) * d >= 0;
    }
  }

  lemma {:induction false} DecimateExact(s: Audio, r: nat, q: nat)
    requires r >= 1 && |s| == q * r
    ensures |Decimate(s, r)| == q
    decreases q
  {
    if q > 0 {
      assert q * r == (q - 1) * r + r && (q - 1) * r >= 0;
      if q == 1 { assert (q - 1) * r == 0; } else { AtLeastOne(q - 1, r); DecimateExact(s[r..], r, q - 1); }
    }
  }

  lemma LoopsOnward(soup: SoundSoup, disk: Disk, s: Raw)
    requires OneEndless(soup, disk) && s.index == 0 && !s.finished
    ensures var s1 := Onward(soup, s); !s1.finished && s1.index == 0 && s1.tape.None?
  {
  }

  /** One round gives all that was asked for, or nothing; and all only if it fits. */
  lemma CutTake(soup: SoundSoup, disk: Disk, s: Raw, want: nat)
    requires OneEndless(soup, disk) && !SoundFile(soup, disk, 0) && InLoop(soup, disk, s) && s.tape.Some? && want > 0
    ensures var (s1, out) := Take(soup, disk, s, want);
            && InLoop(soup, disk, s1)
            && (|out| == want ==> want <= Served(soup, disk))
            && (|out| == want || (out == [] && s1.tape.None?))
            && (s.tape.value.pos == StartByte(FileAt(soup, disk, 0), soup.files[0].startMs) && want <= Served(soup, disk)
                ==> |out| == want)
  {
    var f, t, r := FileAt(soup, disk, 0), s.tape.value, RatioAt(soup, disk, 0);
    var n := want * r;
    Scaled(1, want, r);
    UnsoundRequest(f, t, r, n);
    LoopsOnward(soup, disk, s);
    var start := StartByte(f, soup.files[0].startMs);
    ServedFits(soup, disk, want);
    if t.pos + 2 * n <= |f.data| {
      DecimateExact(Request(f, t, n), r, want);
      CutOn(f, t, n);
    }
    hide Request, Wound, Onward, StartByte, Decimate, FileAt, RatioAt, Served, SoundFile, Whole;
  }

  lemma ServedNat(soup: SoundSoup, disk: Disk)
    requires OnFile(soup, disk, 0)
    ensures Served(soup, disk) >= 0
  {
    var f, r := FileAt(soup, disk, 0), RatioAt(soup, disk, 0);
    hide StartByte, RatioAt;
    var start := StartByte(f, soup.files[0].startMs);
    if start <= |f.data| { FitsIff(|f.data| - start, 0, 2 * r); }
  }

  lemma ServedFits(soup: SoundSoup, disk: Disk, want: nat)
    requires OnFile(soup, disk, 0) && StartByte(FileAt(soup, disk, 0), soup.files[0].startMs) <= |FileAt(soup, disk, 0).data|
    ensures var f, n := FileAt(soup, disk, 0), want * RatioAt(soup, disk, 0);
            StartByte(f, soup.files[0].startMs) + 2 * n <= |f.data| <==> want <= Served(soup, disk)
  {
    var f, r := FileAt(soup, disk, 0), RatioAt(soup, disk, 0);
    hide StartByte, RatioAt;
    FitsIff(|f.data| - StartByte(f, soup.files[0].startMs), want, 2 * r);
    assert want * (2 * r) == 2 * (want * r);
  }

  lemma CutOn(f: WavFile, t: Tape, n: nat)
    requires !Whole(f, t) && n >= 1 && t.pos + 2 * n <= |f.data|
    ensures !Whole(f, Wound(f, t, n)) && t.pos <= Wound(f, t, n).pos <= |f.data|
  {
    UnsoundRequest(f, t, 1, n);
    hide Wound;
  }

  lemma CutTurn(soup: SoundSoup, disk: Disk, s: Raw, want: nat)
    requires OneEndless(soup, disk) && !SoundFile(soup, disk, 0) && InLoop(soup, disk, s) && want > 0
    ensures var (s1, out) := Turn(soup, disk, s, want);
            && InLoop(soup, disk, s1)
            && (|out| == want ==> want <= Served(soup, disk))
            && (|out| == want || (out == [] && s1.tape.None?))
            && (s.tape.None? && want <= Served(soup, disk) ==> |out| == want)
  {
    var o := Ready(soup, disk, s);
    TurnFromReady(soup, disk, s, want);
    UnsoundStart(soup, disk);
    assert InLoop(soup, disk, o) by { hide Whole, StartByte, Cap; }
    hide InLoop, Take, Served, StartByte, Cap, SoundFile;
    CutTake(soup, disk, o, want);
  }

  lemma UnsoundStart(soup: SoundSoup, disk: Disk)
    requires OnFile(soup, disk, 0) && !SoundFile(soup, disk, 0)
    ensures var f := FileAt(soup, disk, 0); var t := StartTape(f, soup.files[0]);
            !Whole(f, t) && t.pos == StartByte(f, soup.files[0].startMs) <= |f.data|
  {
    hide StartByte, Cap;
  }

  lemma {:induction false} StaysInLoop(soup: SoundSoup, disk: Disk, s: Raw, wants: seq<nat>)
    requires OneEndless(soup, disk) && !SoundFile(soup, disk, 0) && InLoop(soup, disk, s)
    ensures InLoop(soup, disk, Rounds(soup, disk, s, wants))
    decreases |wants|
  {
    if wants != [] {
      if wants[0] > 0 { CutTurn(soup, disk, s, wants[0]); }
      assert InLoop(soup, disk, Turn(soup, disk, s, wants[0]).0) by { hide Take, OpenCurrent; }
      hide Turn, InLoop, SoundFile, OneEndless;
      StaysInLoop(soup, disk, Turn(soup, disk, s, wants[0]).0, wants[1..]);
    }
  }

  lemma {:induction false} TooMuchForEver(soup: SoundSoup, disk: Disk, s: Raw, want: nat, n: nat)
    requires OneEndless(soup, disk) && !SoundFile(soup, disk, 0) && InLoop(soup, disk, s) && want > Served(soup, disk) >= 0
    ensures !Over(soup, disk, s, want, n)
    decreases n
  {
    hide *;
    if n > 0 {
      CutTurn(soup, disk, s, want);
      TooMuchForEver(soup, disk, Turn(soup, disk, s, want).0, want, n - 1);
      EmptyRound(soup, disk, s, want, n);
    } else {
      NotOverYet(soup, disk, s, want);
    }
  }

  lemma NotOverYet(soup: SoundSoup, disk: Disk, s: Raw, want: nat)
    requires OneEndless(soup, disk) && InLoop(soup, disk, s) && want > 0
    ensures !Over(soup, disk, s, want, 0)
  {
  }

  lemma EmptyRound(soup: SoundSoup, disk: Disk, s: Raw, want: nat, n: nat)
    requires n > 0 && Turn(soup, disk, s, want).1 == []
    ensures Over(soup, disk, s, want, n) == Over(soup, disk, Turn(soup, disk, s, want).0, want, n - 1)
  {
    hide Turn;
    var u := Turns(soup, disk, Turn(soup, disk, s, want).0, want, n - 1);
    assert [] + u.1 == u.1;
  }

  /**
   * One file cut short and played for ever: wherever the player stands, a read
   * comes to an end if and only if it asks for no more than lies in one piece
   * after the start mark; otherwise the file is opened, fails and is opened
   * again for ever.
   */
  lemma CutLoopReadEndsIff(soup: SoundSoup, disk: Disk, wants: seq<nat>, want: nat)
    requires OneEndless(soup, disk) && !SoundFile(soup, disk, 0)
    ensures ReadEndsAt(soup, disk, Rounds(soup, disk, Fresh, wants), want) <==> want <= Served(soup, disk)
  {
    StartsInLoop(soup, disk);
    StaysInLoop(soup, disk, Fresh, wants);
    ServedNat(soup, disk);
    var s := Rounds(soup, disk, Fresh, wants);
    hide *;
    if want > Served(soup, disk) {
      forall n: nat ensures !Over(soup, disk, s, want, n) { TooMuchForEver(soup, disk, s, want, n); }
      NeverOver(soup, disk, s, want);
    } else if want == 0 {
      NoTurns(soup, disk, s, want);
      OverIs(soup, disk, s, want, 0);
      OverThen(soup, disk, s, want, 0);
    } else {
      CutTurn(soup, disk, s, want);
      var t1 := Turn(soup, disk, s, want);
      OneTurn(soup, disk, s, want);
      OverIs(soup, disk, s, want, 1);
      if |t1.1| == want {
        OverThen(soup, disk, s, want, 1);
      } else {
        CutTurn(soup, disk, t1.0, want);
        OneTurn(soup, disk, t1.0, want);
        TurnsAfterSilent(soup, disk, s, want, 1);
        OverIs(soup, disk, s, want, 2);
        OverThen(soup, disk, s, want, 2);
      }
    }
  }

  lemma StartsInLoop(soup: SoundSoup, disk: Disk)
    requires OneEndless(soup, disk)
    ensures InLoop(soup, disk, Fresh)
  {
  }

  lemma OverThen(soup: SoundSoup, disk: Disk, s: Raw, want: nat, n: nat)
    requires Over(soup, disk, s, want, n)
    ensures ReadEndsAt(soup, disk, s, want)
  {
    hide Over;
  }

  lemma NeverOver(soup: SoundSoup, disk: Disk, s: Raw, want: nat)
    requires forall n: nat :: !Over(soup, disk, s, want, n)
    ensures !ReadEndsAt(soup, disk, s, want)
  {
    hide Over;
  }

  /** A prompt of less than 160 samples whose header promises at least that many, looped: the tick's read never comes back, a smaller one would. */
  lemma ShortLoopNeverReturns(soup: SoundSoup, disk: Disk, wants: seq<nat>)
    requires OneEndless(soup, disk) && soup.files[0].startMs.None? && soup.files[0].stopMs.None?
    requires var f := FileAt(soup, disk, 0); f.sampleRate == 8000 && 2 <= |f.data| < 320 <= f.declared
    ensures !ReadEndsAt(soup, disk, Rounds(soup, disk, Fresh, wants), 160)
    ensures ReadEndsAt(soup, disk, Rounds(soup, disk, Fresh, wants), 1)
  {
    CutLoopReadEndsIff(soup, disk, wants, 160);
    CutLoopReadEndsIff(soup, disk, wants, 1);
  }
}
