/**
 * The soundsoup player's own objects (rust/src/channel/player.rs,
 * rust/src/soundfile.rs): a byte position in the open file, two loop counters
 * and a running count of samples before the stop mark. Every method is proved
 * to make the move of module Tapes, for whatever files there are, and on sound
 * files every read to continue the flat meaning of the playlist.
 */
module Player {
  import opened Common
  import opened Soup
  import opened Tapes

  const OUTPUT_SR: nat := 8000

  class WavReader {
    const file: WavFile
    var pos: nat

    constructor (file: WavFile)
      ensures this.file == file && pos == 0
    {
      this.file := file;
      pos := 0;
    }

    method SeekMs(ms: nat)
      modifies this
      ensures pos == StartByte(file, Some(ms))
    {
      var bytesPerMs := file.byteRate / 1000;
      var offset := bytesPerMs * ms;
      if file.align > 0 {
        offset := offset - offset % file.align;
      }
      pos := Min(offset, file.declared);
    }

    method ReadSamples(n: nat) returns (r: Option<Audio>)
      modifies this
      ensures r == ReadAt(file, old(pos), n)
      ensures r.Some? ==> pos == old(pos) + TakenBytes(file, old(pos), n)
    {
      var remaining := if file.declared > pos then file.declared - pos else 0;
      var toRead := Min(2 * n, remaining);
      if toRead == 0 {
        return Some([]);
      }
      if pos + toRead > |file.data| {
        return None;
      }
      r := Some(Samples(file.data[pos..pos + toRead]));
      pos := pos + toRead;
    }
  }

  class Player {
    const soup: SoundSoup
    const disk: Disk
    var index: nat
    var reader: WavReader?
    var fileLoop: nat
    var overallLoop: nat
    var finished: bool
    var remainingSamples: Option<nat>
    var sourceSr: nat

    /** Everything read so far. */
    ghost var played: Audio

    /** The open reader is the current file's. */
    ghost predicate Shape()
      reads `index, `reader, `sourceSr, reader
    {
      reader != null ==>
        && OnFile(soup, disk, index) && reader.file == FileAt(soup, disk, index)
        && sourceSr == Max(reader.file.sampleRate, 8000)
    }

    ghost function Model(): (s: Raw)
      reads `index, `reader, `fileLoop, `overallLoop, `finished, `remainingSamples, reader
    {
      Raw(index, fileLoop, overallLoop, finished, if reader == null then None else Some(Tape(reader.pos, remainingSamples)))
    }

    /** On sound files, what has been played and what is still to come are the flat meaning. */
    ghost predicate Valid()
      reads this, reader
    {
      Shape() && RawOk(soup, disk, Model()) && (AllSound(soup, disk) ==> Continues(soup, disk, Model(), played))
    }

    constructor (soup: SoundSoup, disk: Disk)
      ensures Valid() && this.soup == soup && this.disk == disk && played == [] && Model() == Fresh
    {
      this.soup, this.disk := soup, disk;
      index, reader, fileLoop, overallLoop, finished := 0, null, 0, 0, false;
      remainingSamples, sourceSr := None, 8000;
      played := [];
      new;
      FreshContinues(soup, disk);
    }

    /** The reader at the start mark, and the stop mark as a number of samples. */
    method OpenFile(spec: FileSpec) returns (r: WavReader, remaining: Option<nat>)
      requires spec.path in disk
      ensures fresh(r) && r.file == disk[spec.path] && Tape(r.pos, remaining) == StartTape(r.file, spec)
    {
      r := new WavReader(disk[spec.path]);
      if spec.startMs.Some? {
        r.SeekMs(spec.startMs.value);
      }
      if spec.stopMs.None? {
        return r, None;
      }
      var start := match spec.startMs case Some(ms) => ms case None => 0;
      if spec.stopMs.value > start {
        remaining := Some((spec.stopMs.value - start) * r.file.sampleRate / 1000);
      } else {
        remaining := Some(0);
      }
    }

    method OpenCurrent() returns (ok: bool)
      requires Shape() && reader == null && !finished
      modifies this
      ensures Shape() && Model() == Tapes.OpenCurrent(soup, disk, old(Model())) && ok == !finished && played == old(played)
      ensures ok ==> reader != null && fresh(reader)
    {
      if index >= |soup.files| {
        finished := true;
        return false;
      }
      var spec := soup.files[index];
      if spec.path !in disk {
        finished := true;
        return false;
      }
      hide StartTape;
      var r, remaining := OpenFile(spec);
      sourceSr := Max(r.file.sampleRate, OUTPUT_SR);
      remainingSamples := remaining;
      reader := r;
      return true;
    }

    method AdvanceFile()
      requires reader == null && index < |soup.files| && !finished
      modifies this`fileLoop, this`index, this`overallLoop, this`finished
      ensures Model() == Onward(soup, old(Model()))
    {
      var cur := soup.files[index];
      fileLoop := fileLoop + 1;
      var fileDone := match cur.maxLoops
                      case None => true
                      case Some(n) => n != 0 && fileLoop >= n;
      if !fileDone {
        return;
      }
      fileLoop := 0;
      index := index + 1;
      if index >= |soup.files| {
        overallLoop := overallLoop + 1;
        var done := match soup.overallLoops
                    case None => true
                    case Some(n) => n != 0 && overallLoop >= n;
        if done {
          finished := true;
        } else {
          index := 0;
        }
      }
    }

    /** Up to n source samples of the open file; `eof` says the file, not the stop mark, was the end. */
    method NextChunk(n: nat) returns (read: Audio, eof: bool)
      requires Shape() && reader != null
      modifies this`remainingSamples, reader
      ensures Shape() && read == Request(reader.file, old(Model().tape.value), n)
      ensures read != [] ==> Model() == old(Model()).(tape := Some(Wound(reader.file, old(Model().tape.value), n)))
      ensures eof ==> read == []
    {
      ghost var t := Tape(reader.pos, remainingSamples);
      var needSrc := n;
      if remainingSamples.Some? {
        if remainingSamples.value == 0 {
          return [], false;
        }
        needSrc := Min(needSrc, remainingSamples.value);
      }
      assert needSrc == Need(t, n);
      hide ReadAt, TakenBytes;
      var r := reader.ReadSamples(needSrc);
      read := match r case Some(v) => v case None => [];
      eof := read == [];
      if remainingSamples.Some? {
        remainingSamples := Some(Max(remainingSamples.value - |read|, 0));
      }
    }

    /** The read itself: one chunk from the open file, or on to what comes after it. */
    method ReadOpened(want: nat) returns (chunk: Audio, endOfFile: bool)
      requires Shape() && reader != null && !finished
      modifies this, reader
      ensures Shape() && (Model(), chunk) == Take(soup, disk, old(Model()), want) && played == old(played)
      ensures reader == null || reader == old(reader)
    {
      ghost var was := Model();
      var ratio := Max(sourceSr / OUTPUT_SR, 1);
      assert ratio == RatioAt(soup, disk, index);
      hide Request, Wound, RatioAt, Decimate, Onward;
      var read, eof := NextChunk(want * ratio);
      endOfFile := eof;
      if read == [] {
        reader, remainingSamples := null, None;
        AdvanceFile();
        OnwardForgets(soup, was, None);
        return [], eof;
      }
      if ratio == 1 {
        DecimateByOne(read);
        chunk := read;
      } else {
        chunk := Decimate(read, ratio);
      }
    }

    /** One round of the read loop. */
    method ReadSome(want: nat) returns (chunk: Audio, endOfFile: bool)
      requires Shape() && !finished && want > 0
      modifies this, reader
      ensures Shape() && (Model(), chunk) == Turn(soup, disk, old(Model()), want) && played == old(played)
      ensures reader == null || reader == old(reader) || fresh(reader)
    {
      hide Take, StartTape;
      if reader == null {
        var ok := OpenCurrent();
        if !ok {
          return [], false;
        }
      }
      chunk, endOfFile := ReadOpened(want);
    }

    /** Rounds until there is enough, or the soup is finished; n is a number of them that is known to be enough. */
    method ReadRounds(want: nat, ghost n: nat) returns (out: Audio, endOfFile: bool)
      requires Shape() && Over(soup, disk, Model(), want, n)
      modifies this, reader
      ensures Shape() && (Model(), out) == Turns(soup, disk, old(Model()), want, n) && played == old(played)
      ensures |out| <= want && (|out| < want ==> finished)
      ensures reader == null || reader == old(reader) || fresh(reader)
    {
      hide Shape, Model, Turn, Turns, Over;
      out, endOfFile := [], false;
      ghost var start, m := Model(), n;
      RoundsBegin(soup, disk, start, want, n);
      FinishedShows();
      while |out| < want && !finished
        invariant Shape() && played == old(played) && finished == Model().finished
        invariant reader == null || reader == old(reader) || fresh(reader)
        invariant Halfway(soup, disk, start, want, n, Model(), out, m)
        decreases m
      {
        RoundsGoOn(soup, disk, start, want, n, Model(), out, m);
        var chunk, eof := ReadSome(want - |out|);
        out := out + chunk;
        endOfFile := endOfFile || eof;
        m := m - 1;
        FinishedShows();
      }
      RoundsEnd(soup, disk, start, want, n, Model(), out, m);
    }

    lemma FinishedShows()
      ensures finished == Model().finished
    {
    }

    /**
     * Up to `want` samples, for any read that comes to an end: the rounds of the
     * loop, no more than asked for, and fewer only when the soup is finished. On
     * sound files what is read continues the flat meaning exactly where the last
     * read left it; `ReadEnds` and `ReadsEndIff` of module Endings say when a read ends.
     */
    method Read(want: nat) returns (out: Audio, endOfFile: bool, endOfSoup: bool)
      requires Valid() && ReadEndsAt(soup, disk, Model(), want)
      modifies this, reader
      ensures Valid() && played == old(played) + out
      ensures exists n: nat :: Over(soup, disk, old(Model()), want, n) && (Model(), out) == Turns(soup, disk, old(Model()), want, n)
      ensures |out| <= want && (|out| < want ==> finished)
      ensures endOfSoup == finished
      ensures reader == null || reader == old(reader) || fresh(reader)
    {
      ghost var n: nat :| Over(soup, disk, Model(), want, n);
      ghost var was := Model();
      ReadContinues(soup, disk, was, played, want, n);
      hide Continues, AllSound, RawOk, Over, Turns, Model, Shape;
      out, endOfFile := ReadRounds(want, n);
      endOfSoup := finished;
      played := played + out;
    }
  }

  /** Everything played so far and what the fields show still to come are the flat meaning. */
  ghost predicate Continues(soup: SoundSoup, disk: Disk, s: Raw, played: Audio) {
    SoundNow(soup, disk, s) && Faithful(PlaylistOf(soup, disk), Shown(soup, disk, s), played)
  }

  lemma FreshContinues(soup: SoundSoup, disk: Disk)
    ensures RawOk(soup, disk, Fresh) && Continues(soup, disk, Fresh, [])
  {
    BeginFaithful(PlaylistOf(soup, disk));
    assert Shown(soup, disk, Fresh) == Begin;
  }

  lemma ReadContinues(soup: SoundSoup, disk: Disk, s: Raw, played: Audio, want: nat, n: nat)
    requires RawOk(soup, disk, s) && (AllSound(soup, disk) ==> Continues(soup, disk, s, played))
    ensures var (s1, out) := Turns(soup, disk, s, want, n);
            RawOk(soup, disk, s1) && (AllSound(soup, disk) ==> Continues(soup, disk, s1, played + out))
  {
    TurnsOk(soup, disk, s, want, n);
    if AllSound(soup, disk) { SoundReadsAreFaithful(soup, disk, s, played, want, n); }
    hide AllSound, RawOk, SoundNow, Turns, Faithful;
  }

  lemma {:induction false} TurnsOk(soup: SoundSoup, disk: Disk, s: Raw, want: nat, n: nat)
    requires RawOk(soup, disk, s)
    ensures RawOk(soup, disk, Turns(soup, disk, s, want, n).0)
    decreases n
  {
    if n > 0 {
      TurnOk(soup, disk, s, want);
      hide RawOk, Turn;
      var t := Turn(soup, disk, s, want);
      TurnsOk(soup, disk, t.0, if |t.1| <= want then want - |t.1| else 0, n - 1);
    }
  }

  /** A read under way: `out` so far, in state s, with m rounds of the n left to make. */
  ghost predicate Halfway(soup: SoundSoup, disk: Disk, start: Raw, want: nat, n: nat, s: Raw, out: Audio, m: nat) {
    && |out| <= want && Over(soup, disk, start, want, n)
    && var rest := Turns(soup, disk, s, want - |out|, m);
       Turns(soup, disk, start, want, n) == (rest.0, out + rest.1)
  }

  lemma RoundsBegin(soup: SoundSoup, disk: Disk, s: Raw, want: nat, n: nat)
    requires Over(soup, disk, s, want, n)
    ensures Halfway(soup, disk, s, want, n, s, [], n)
  {
    hide Turns;
    var r := Turns(soup, disk, s, want, n);
    assert [] + r.1 == r.1;
  }

  lemma RoundsGoOn(soup: SoundSoup, disk: Disk, start: Raw, want: nat, n: nat, s: Raw, out: Audio, m: nat)
    requires Halfway(soup, disk, start, want, n, s, out, m) && !s.finished && |out| < want
    ensures m > 0
    ensures var t := Turn(soup, disk, s, want - |out|); Halfway(soup, disk, start, want, n, t.0, out + t.1, m - 1)
  {
    hide Turn;
    TurnAtMost(soup, disk, s, want - |out|);
    assert out + [] == out;
    var t := Turn(soup, disk, s, want - |out|);
    var rest := Turns(soup, disk, t.0, want - |out| - |t.1|, m - 1);
    assert out + (t.1 + rest.1) == (out + t.1) + rest.1;
  }

  lemma RoundsEnd(soup: SoundSoup, disk: Disk, start: Raw, want: nat, n: nat, s: Raw, out: Audio, m: nat)
    requires Halfway(soup, disk, start, want, n, s, out, m) && (s.finished || |out| == want)
    ensures (s, out) == Turns(soup, disk, start, want, n)
  {
    TurnsIdle(soup, disk, s, want - |out|, m);
    hide Turns;
    assert out + [] == out;
  }

  lemma {:induction false} DecimateByOne(s: Audio)
    ensures Decimate(s, 1) == s
  {
    if |s| > 1 { DecimateByOne(s[1..]); }
  }
}
