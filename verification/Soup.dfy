/**
 * What a soundsoup means (rust/src/channel/player.rs).
 *
 * The flat meaning of a playlist is a plain list: overall loops x tracks in
 * order x per-track loops x every ratio-th sample of the track's window.
 * "Loop for ever" is written with a bound k that may be as large as one likes.
 * Against it stands the player's own bookkeeping - an index, two loop counters
 * and what is left of the open track - with the steps the player takes.
 */
module Soup {
  import opened Common

  type Audio = seq<i16>

  /** One list entry as the player finds it: a file that does not open, or a window of source samples. */
  datatype Track = Missing | Track(window: Audio, ratio: nat, loops: Option<nat>)

  datatype Playlist = Playlist(tracks: seq<Track>, loops: Option<nat>)

  // ---- Decimation ----

  /** Every r-th sample, beginning with the first. */
  function Decimate(s: Audio, r: nat): (d: Audio)
    ensures (s == [] <==> d == []) && |d| <= |s|
    decreases |s|
  {
    if s == [] then [] else [s[0]] + Decimate(if r == 0 || |s| <= r then [] else s[r..], r)
  }

  /** Cutting after q full steps does not move the grid. */
  lemma {:induction false} DecimateSplit(s: Audio, r: nat, q: nat)
    requires r >= 1 && q * r <= |s|
    ensures Decimate(s, r) == Decimate(s[..q * r], r) + Decimate(s[q * r..], r)
    decreases q
  {
    if q == 0 {
      assert s[q * r..] == s;
    } else {
      var n := (q - 1) * r;
      assert q * r == n + r && n >= 0;
      if |s| == r {
        assert n == 0;
        assert s[..q * r] == s;
      } else {
        DecimateSplit(s[r..], r, q - 1);
        SplitStep(s, r, n);
      }
    }
  }

  lemma SplitStep(s: Audio, r: nat, n: nat)
    requires 1 <= r < |s| && n + r <= |s|
    ensures Decimate(s[..n + r], r) == [s[0]] + Decimate(s[r..][..n], r)
    ensures s[n + r..] == s[r..][n..]
  {
    if n == 0 {
      assert s[r..][..n] == [];
    } else {
      assert s[..n + r][r..] == s[r..][..n];
    }
  }

  /** q * r source samples give at most q. */
  lemma {:induction false} DecimateLength(s: Audio, r: nat, q: nat)
    requires r >= 1 && |s| <= q * r
    ensures |Decimate(s, r)| <= q
    decreases q
  {
    if s != [] {
      assert q * r == (q - 1) * r + r;
      DecimateLength(if |s| <= r then [] else s[r..], r, q - 1);
    }
  }

  /** Output k is input k * r, as far as there are any. */
  lemma {:induction false} DecimateAt(s: Audio, r: nat, k: nat)
    requires r >= 1
    ensures k < |Decimate(s, r)| <==> k * r < |s|
    ensures k * r < |s| ==> Decimate(s, r)[k] == s[k * r]
    decreases k
  {
    if s != [] && k > 0 {
      var rest := if |s| <= r then [] else s[r..];
      assert k * r == (k - 1) * r + r && (k - 1) * r >= 0;
      DecimateAt(rest, r, k - 1);
    } else if s == [] {
      assert k * r >= 0;
    }
  }

  lemma AtLeastOne(q: nat, r: nat)
    requires q >= 1 && r >= 1
    ensures q * r >= 1
  {
    assert q * r == (q - 1) * r + r && (q - 1) * r >= 0;
  }

  /** Reading q output samples' worth, or all there is, takes a prefix of the decimated track. */
  lemma TakeChunk(s: Audio, r: nat, q: nat)
    requires r >= 1 && q >= 1 && s != []
    ensures var n := Min(|s|, q * r);
            && 0 < n <= |s| && 0 < |Decimate(s[..n], r)| <= q
            && Decimate(s[..n], r) + Decimate(s[n..], r) == Decimate(s, r)
  {
    AtLeastOne(q, r);
    var m := q * r;
    if m <= |s| {
      DecimateSplit(s, r, q);
      DecimateLength(s[..m], r, q);
    } else {
      assert s[..|s|] == s && s[|s|..] == [];
      DecimateLength(s, r, q);
    }
  }

  // ---- The flat meaning ----

  function Repeat(s: Audio, n: int): Audio
    decreases if n > 0 then n else 0
  {
    if n <= 0 then [] else s + Repeat(s, n - 1)
  }

  lemma {:induction false} RepeatLength(s: Audio, n: nat)
    ensures s != [] ==> |Repeat(s, n)| >= n
    ensures s == [] ==> Repeat(s, n) == []
  {
    if n > 0 { RepeatLength(s, n - 1); }
  }

  predicate Forever(loops: Option<nat>) { loops == Some(0) }

  /** How often a loop setting plays: absent is once, 0 is for ever (here k times), n is n times. */
  function Times(loops: Option<nat>, k: nat): (n: nat)
    ensures n == 0 ==> Forever(loops) && k == 0
  {
    match loops
    case None => 1
    case Some(n) => if n == 0 then k else n
  }

  function Play(t: Track): Audio {
    if t.Missing? then [] else Decimate(t.window, t.ratio)
  }

  /** The tracks, once; playing stops at one that does not open or never ends. */
  function Pass(ts: seq<Track>, k: nat): Audio {
    if ts == [] || ts[0].Missing? then []
    else Repeat(Play(ts[0]), Times(ts[0].loops, k)) + if Forever(ts[0].loops) then [] else Pass(ts[1..], k)
  }

  /** Whether playing the tracks reaches their end. */
  predicate Completes(ts: seq<Track>) {
    ts == [] || (ts[0].Track? && !Forever(ts[0].loops) && Completes(ts[1..]))
  }

  function Flat(p: Playlist, k: nat): Audio {
    if Completes(p.tracks) then Repeat(Pass(p.tracks, k), Times(p.loops, k)) else Pass(p.tracks, k)
  }

  /** Whether playing the tracks, and then whatever the overall setting asks for, never stops. */
  predicate GoesOn(ts: seq<Track>, loops: Option<nat>) {
    if ts == [] then Forever(loops)
    else ts[0].Track? && (Forever(ts[0].loops) || GoesOn(ts[1..], loops))
  }

  predicate Endless(p: Playlist) { p.tracks != [] && GoesOn(p.tracks, p.loops) }

  /** One round of the first track that never ends. */
  function LoopBody(ts: seq<Track>): Audio {
    if ts == [] || ts[0].Missing? then []
    else if Forever(ts[0].loops) then Play(ts[0]) else LoopBody(ts[1..])
  }

  /** What an endless playlist goes round for ever is not silent. */
  predicate Audible(p: Playlist) {
    if Completes(p.tracks) then Pass(p.tracks, 1) != [] else LoopBody(p.tracks) != []
  }

  // ---- The flat meaning, position by position ----

  /** How many rounds a setting other than "for ever" asks for. */
  function RoundsOf(loops: Option<nat>): nat { if loops.None? then 1 else loops.value }

  /** How many samples the first j tracks give. */
  function Before(ts: seq<Track>, j: nat): nat
    requires j <= |ts|
  {
    if j == 0 then 0
    else Before(ts[1..], j - 1) + if ts[0].Missing? then 0 else RoundsOf(ts[0].loops) * |Play(ts[0])|
  }

  /** Where sample i of round q of track j lies: after the tracks before it and its own earlier rounds. */
  function At(ts: seq<Track>, j: nat, q: nat, i: nat): nat
    requires j < |ts|
  {
    Before(ts, j) + (q * |Play(ts[j])| + i)
  }

  lemma AtLater(ts: seq<Track>, j: nat, q: nat, i: nat)
    requires 0 < j < |ts| && ts[0].Track?
    ensures At(ts, j, q, i) == RoundsOf(ts[0].loops) * |Play(ts[0])| + At(ts[1..], j - 1, q, i)
  {
    hide Play;
  }

  /** All of the first j tracks open and come to an end. */
  predicate Finite(ts: seq<Track>, j: nat) {
    j <= |ts| && forall h: nat | h < j :: ts[h].Track? && ts[h].loops != Some(0)
  }

  lemma FiniteRest(ts: seq<Track>, j: nat)
    requires Finite(ts, j) && j > 0
    ensures Finite(ts[1..], j - 1) && ts[0].Track? && ts[0].loops != Some(0)
  {
    assert forall h: nat | h < j - 1 :: ts[1..][h] == ts[h + 1];
  }

  lemma FiniteFirst(ts: seq<Track>, m: nat, j: nat)
    requires Finite(ts, m) && j <= m
    ensures Finite(ts, j) && (j < m ==> ts[j].Track? && ts[j].loops != Some(0))
  {
  }

  lemma {:induction false} RepeatIsLong(s: Audio, n: nat)
    ensures |Repeat(s, n)| == n * |s|
  {
    if n > 0 {
      RepeatIsLong(s, n - 1);
      assert n * |s| == (n - 1) * |s| + |s|;
    }
  }

  /** The sample at this position. */
  predicate Plays(s: Audio, at: int, v: i16) { 0 <= at < |s| && s[at] == v }

  lemma PlaysIn(a: Audio, b: Audio, at: int, v: i16)
    ensures Plays(a, at, v) ==> Plays(a + b, at, v)
    ensures Plays(b, at, v) ==> Plays(a + b, |a| + at, v)
  {
  }

  lemma {:induction false} RepeatAt(s: Audio, n: nat, q: nat, at: int, v: i16)
    requires q < n && Plays(s, at, v)
    ensures Plays(Repeat(s, n), q * |s| + at, v)
    decreases q
  {
    var rest := Repeat(s, n - 1);
    assert Repeat(s, n) == s + rest;
    hide Plays, Repeat;
    if q == 0 {
      assert q * |s| == 0;
      PlaysIn(s, rest, at, v);
    } else {
      RepeatAt(s, n - 1, q - 1, at, v);
      PlaysIn(s, rest, (q - 1) * |s| + at, v);
      assert q * |s| == (q - 1) * |s| + |s|;
    }
  }

  lemma {:induction false} PassAt(ts: seq<Track>, k: nat, j: nat, q: nat, i: nat)
    requires j < |ts| && Finite(ts, j) && ts[j].Track? && i < |Play(ts[j])|
    requires q < if ts[j].loops == Some(0) then k else RoundsOf(ts[j].loops)
    ensures Plays(Pass(ts, k), At(ts, j, q, i), Play(ts[j])[i])
    decreases j
  {
    assert Plays(Play(ts[j]), i, Play(ts[j])[i]);
    hide Plays, Play, Repeat, Before, At;
    var d, n := Play(ts[0]), Times(ts[0].loops, k);
    var rest := if Forever(ts[0].loops) then [] else Pass(ts[1..], k);
    assert Pass(ts, k) == Repeat(d, n) + rest;
    var v := Play(ts[j])[i];
    if j == 0 {
      RepeatAt(d, n, q, i, v);
      PlaysIn(Repeat(d, n), rest, q * |d| + i, v);
      assert At(ts, 0, q, i) == q * |d| + i by { AtFirst(ts, q, i); }
    } else {
      FiniteRest(ts, j);
      assert n == RoundsOf(ts[0].loops);
      hide Finite;
      PassAt(ts[1..], k, j - 1, q, i);
      RepeatIsLong(d, n);
      PlaysIn(Repeat(d, n), rest, At(ts[1..], j - 1, q, i), v);
      AtLater(ts, j, q, i);
    }
  }

  lemma AtFirst(ts: seq<Track>, q: nat, i: nat)
    requires ts != []
    ensures At(ts, 0, q, i) == q * |Play(ts[0])| + i
  {
  }

  lemma {:induction false} PassIsLong(ts: seq<Track>, k: nat)
    requires Finite(ts, |ts|)
    ensures Completes(ts) && |Pass(ts, k)| == Before(ts, |ts|)
    decreases |ts|
  {
    if ts != [] {
      FiniteRest(ts, |ts|);
      PassIsLong(ts[1..], k);
      RepeatIsLong(Play(ts[0]), Times(ts[0].loops, k));
      hide Play, Repeat, Finite;
    }
  }

  /**
   * The flat meaning sample by sample. A list whose tracks all come to an end
   * plays in every overall round l each track j, in every round q of it each of
   * its decimated samples i, in that order and nothing else; "for ever" is k
   * rounds, for a k as large as one likes.
   */
  lemma FlatAt(p: Playlist, k: nat, l: nat, j: nat, q: nat, i: nat)
    requires Finite(p.tracks, |p.tracks|) && j < |p.tracks| && q < RoundsOf(p.tracks[j].loops) && i < |Play(p.tracks[j])|
    requires l < if p.loops == Some(0) then k else RoundsOf(p.loops)
    ensures var ts := p.tracks;
            Plays(Flat(p, k), l * Before(ts, |ts|) + At(ts, j, q, i), Play(ts[j])[i])
  {
    var ts := p.tracks;
    PassIsLong(ts, k);
    FiniteFirst(ts, |ts|, j);
    assert Flat(p, k) == Repeat(Pass(ts, k), Times(p.loops, k));
    assert l < Times(p.loops, k);
    hide *;
    PassAt(ts, k, j, q, i);
    RepeatAt(Pass(ts, k), Times(p.loops, k), l, At(ts, j, q, i), Play(ts[j])[i]);
  }

  lemma FlatIsLong(p: Playlist, k: nat)
    requires Finite(p.tracks, |p.tracks|)
    ensures |Flat(p, k)| == (if p.loops == Some(0) then k else RoundsOf(p.loops)) * Before(p.tracks, |p.tracks|)
  {
    PassIsLong(p.tracks, k);
    RepeatIsLong(Pass(p.tracks, k), Times(p.loops, k));
    hide Repeat, Pass, Before, Completes, Finite;
  }

  /** The list goes no further than track m: it does not open, or it loops for ever. */
  predicate StopsAt(ts: seq<Track>, m: nat) {
    m < |ts| && Finite(ts, m) && (ts[m].Missing? || ts[m].loops == Some(0))
  }

  lemma {:induction false} StopsThere(ts: seq<Track>, k: nat, m: nat)
    requires StopsAt(ts, m)
    ensures !Completes(ts)
    ensures |Pass(ts, k)| == Before(ts, m) + if ts[m].Missing? then 0 else k * |Play(ts[m])|
    decreases m
  {
    if ts[0].Track? { RepeatIsLong(Play(ts[0]), Times(ts[0].loops, k)); }
    hide Play, Repeat;
    if m > 0 {
      FiniteRest(ts, m);
      StopsThere(ts[1..], k, m - 1);
    }
  }

  /** And such a list is not repeated: what it plays is the tracks before it, and a track that loops for ever. */
  lemma FlatStops(p: Playlist, k: nat, m: nat)
    requires StopsAt(p.tracks, m)
    ensures |Flat(p, k)| == Before(p.tracks, m) + if p.tracks[m].Missing? then 0 else k * |Play(p.tracks[m])|
  {
    StopsThere(p.tracks, k, m);
    hide Play, Repeat, Pass;
  }

  lemma FlatStopsAt(p: Playlist, k: nat, m: nat, j: nat, q: nat, i: nat)
    requires StopsAt(p.tracks, m) && j <= m && p.tracks[j].Track? && i < |Play(p.tracks[j])|
    requires q < if j == m then k else RoundsOf(p.tracks[j].loops)
    ensures Plays(Flat(p, k), At(p.tracks, j, q, i), Play(p.tracks[j])[i])
  {
    StopsThere(p.tracks, k, m);
    FiniteFirst(p.tracks, m, j);
    assert Flat(p, k) == Pass(p.tracks, k);
    assert j == m ==> p.tracks[j].loops == Some(0);
    hide *;
    PassAt(p.tracks, k, j, q, i);
  }

  // ---- The player's bookkeeping ----

  /** `rest` is what is left of the open track's window, in source samples. */
  datatype State = State(index: nat, fileLoop: nat, overallLoop: nat, finished: bool, rest: Option<Audio>)

  const Begin: State := State(0, 0, 0, false, None)

  predicate OnTrack(p: Playlist, s: State) {
    s.index < |p.tracks| && p.tracks[s.index].Track?
  }

  function Open(p: Playlist, s: State): State {
    if OnTrack(p, s) then s.(rest := Some(p.tracks[s.index].window)) else s.(finished := true)
  }

  predicate Done(loops: Option<nat>, played: nat) {
    match loops
    case None => true
    case Some(n) => n != 0 && played >= n
  }

  function Advance(p: Playlist, s: State): State
    requires OnTrack(p, s)
  {
    if !Done(p.tracks[s.index].loops, s.fileLoop + 1) then s.(rest := None, fileLoop := s.fileLoop + 1)
    else if s.index + 1 < |p.tracks| then State(s.index + 1, 0, s.overallLoop, false, None)
    else if Done(p.loops, s.overallLoop + 1) then State(s.index + 1, 0, s.overallLoop + 1, true, None)
    else State(0, 0, s.overallLoop + 1, false, None)
  }

  /** The chunk one read asks of the open track when `want` output samples are still missing. */
  function ChunkSize(t: Track, rest: Audio, want: nat): nat
    requires t.Track?
  {
    Min(|rest|, want * t.ratio)
  }

  /** One trip round the read loop: the new state and the samples it adds. */
  function Trip(p: Playlist, s: State, want: nat): (State, Audio) {
    if s.finished || want == 0 then (s, [])
    else
      var o := if s.rest.None? then Open(p, s) else s;
      if o.finished || !OnTrack(p, o) || o.rest.None? then (o.(finished := true), [])
      else if o.rest.value == [] then (Advance(p, o), [])
      else
        var t := p.tracks[o.index];
        var n := ChunkSize(t, o.rest.value, want);
        (o.(rest := Some(o.rest.value[n..])), Decimate(o.rest.value[..n], t.ratio))
  }

  predicate Ratios(p: Playlist) {
    forall i | 0 <= i < |p.tracks| && p.tracks[i].Track? :: p.tracks[i].ratio >= 1
  }

  predicate Within(loops: Option<nat>, played: nat) { Forever(loops) || played < Times(loops, 0) }

  /** What the player keeps true between two trips. */
  predicate Ok(p: Playlist, s: State) {
    s.finished || (
      && (s.rest.Some? ==> OnTrack(p, s) && |Decimate(s.rest.value, p.tracks[s.index].ratio)| <= |Play(p.tracks[s.index])|)
      && s.index <= |p.tracks| && (s.index == |p.tracks| ==> p.tracks == [])
      && (OnTrack(p, s) ==> Within(p.tracks[s.index].loops, s.fileLoop))
      && Within(p.loops, s.overallLoop) && (s.overallLoop > 0 ==> p.tracks != [] && Completes(p.tracks))
      && (Completes(p.tracks) <==> Completes(p.tracks[s.index..]))
      && (GoesOn(p.tracks, p.loops) <==> GoesOn(p.tracks[s.index..], p.loops))
      && (!Completes(p.tracks) ==> LoopBody(p.tracks) == LoopBody(p.tracks[s.index..])))
  }

  /** k is large enough to stand for "for ever" in state s. */
  predicate Beyond(p: Playlist, s: State, k: nat) {
    && k > 0
    && (Forever(p.loops) ==> s.overallLoop < k)
    && (OnTrack(p, s) && Forever(p.tracks[s.index].loops) ==> s.fileLoop < k)
  }

  /** What is still to be played of the current track. */
  function FileRest(t: Track, s: State, k: nat): Audio
    requires t.Track?
  {
    var n := Times(t.loops, k) - s.fileLoop;
    if s.rest.None? then Repeat(Play(t), n) else Decimate(s.rest.value, t.ratio) + Repeat(Play(t), n - 1)
  }

  function PassRest(p: Playlist, s: State, k: nat): Audio {
    if !OnTrack(p, s) then []
    else
      var t := p.tracks[s.index];
      FileRest(t, s, k) + if Forever(t.loops) then [] else Pass(p.tracks[s.index + 1..], k)
  }

  function LaterPasses(p: Playlist, overallLoop: nat, k: nat): Audio {
    if Completes(p.tracks) then Repeat(Pass(p.tracks, k), Times(p.loops, k) - overallLoop - 1) else []
  }

  /** What is still to be played. */
  function Rest(p: Playlist, s: State, k: nat): Audio {
    if s.finished then [] else PassRest(p, s, k) + LaterPasses(p, s.overallLoop, k)
  }

  lemma BeginRest(p: Playlist, k: nat)
    requires k > 0
    ensures Ok(p, Begin) && Rest(p, Begin, k) == Flat(p, k)
  {
    assert p.tracks[0..] == p.tracks;
  }

  lemma OpenKeeps(p: Playlist, s: State, k: nat)
    requires Ok(p, s) && !s.finished && s.rest.None?
    ensures Ok(p, Open(p, s))
    ensures Beyond(p, s, k) ==> Rest(p, Open(p, s), k) == Rest(p, s, k)
  {
    if OnTrack(p, s) {
      var t := p.tracks[s.index];
      assert Beyond(p, s, k) ==> FileRest(t, Open(p, s), k) == FileRest(t, s, k);
    } else if s.index < |p.tracks| {
      assert !Completes(p.tracks[s.index..]);
    } else {
      RepeatLength([], Max(0, Times(p.loops, k) - s.overallLoop - 1));
    }
  }

  lemma TakeKeeps(p: Playlist, s: State, k: nat, n: nat, out: Audio)
    requires Ok(p, s) && !s.finished && s.rest.Some? && 0 < n <= |s.rest.value|
    requires var r := p.tracks[s.index].ratio;
             out == Decimate(s.rest.value[..n], r) && out + Decimate(s.rest.value[n..], r) == Decimate(s.rest.value, r)
    ensures var s1 := s.(rest := Some(s.rest.value[n..])); Ok(p, s1) && out + Rest(p, s1, k) == Rest(p, s, k)
  {
    hide Decimate, Play, Repeat, Pass, Flat, Completes, GoesOn, LoopBody, LaterPasses, Times;
    var t, s1 := p.tracks[s.index], s.(rest := Some(s.rest.value[n..]));
    assert out + FileRest(t, s1, k) == FileRest(t, s, k);
    assert out + PassRest(p, s1, k) == PassRest(p, s, k);
  }

  lemma AdvanceKeeps(p: Playlist, s: State, k: nat)
    requires Ok(p, s) && !s.finished && s.rest == Some([])
    ensures Ok(p, Advance(p, s))
    ensures Beyond(p, Advance(p, s), k) ==> Beyond(p, s, k) && Rest(p, Advance(p, s), k) == Rest(p, s, k)
  {
    var t := p.tracks[s.index];
    if Done(t.loops, s.fileLoop + 1) {
      NextTrackOk(p, s);
      NextTrack(p, s, k);
    } else {
      AgainKeeps(p, s, k);
    }
  }

  lemma AgainKeeps(p: Playlist, s: State, k: nat)
    requires Ok(p, s) && !s.finished && s.rest == Some([]) && !Done(p.tracks[s.index].loops, s.fileLoop + 1)
    ensures Ok(p, Advance(p, s))
    ensures Beyond(p, Advance(p, s), k) ==> Beyond(p, s, k) && Rest(p, Advance(p, s), k) == Rest(p, s, k)
  {
    var a, t := Advance(p, s), p.tracks[s.index];
    assert FileRest(t, a, k) == FileRest(t, s, k);
    assert PassRest(p, a, k) == PassRest(p, s, k);
  }

  lemma NextTrackOk(p: Playlist, s: State)
    requires Ok(p, s) && !s.finished && s.rest == Some([]) && Done(p.tracks[s.index].loops, s.fileLoop + 1)
    ensures Ok(p, Advance(p, s))
    ensures !Advance(p, s).finished || !Forever(p.loops)
  {
    var i := s.index + 1;
    assert p.tracks[s.index..][0] == p.tracks[s.index];
    assert p.tracks[s.index..][1..] == p.tracks[i..];
    assert Completes(p.tracks[s.index..]) <==> Completes(p.tracks[i..]);
    assert GoesOn(p.tracks[s.index..], p.loops) <==> GoesOn(p.tracks[i..], p.loops);
    assert LoopBody(p.tracks[s.index..]) == LoopBody(p.tracks[i..]);
    if i == |p.tracks| {
      assert Completes(p.tracks[i..]);
      assert p.tracks[0..] == p.tracks;
    }
  }

  /** The track is done: what follows is the rest of the list, or the next pass over it. */
  lemma NextTrack(p: Playlist, s: State, k: nat)
    requires Ok(p, s) && !s.finished && s.rest == Some([]) && Done(p.tracks[s.index].loops, s.fileLoop + 1)
    ensures Beyond(p, Advance(p, s), k) ==> Beyond(p, s, k) && Rest(p, Advance(p, s), k) == Rest(p, s, k)
  {
    var i, t := s.index + 1, p.tracks[s.index];
    assert FileRest(t, s, k) == [];
    assert PassRest(p, s, k) == Pass(p.tracks[i..], k);
    if i < |p.tracks| {
      assert p.tracks[i..][0] == p.tracks[i];
      assert p.tracks[i..][1..] == p.tracks[i + 1..];
      NextOpens(p, Advance(p, s), k);
      assert Beyond(p, Advance(p, s), k) ==> Beyond(p, s, k) by { hide Ok; }
      hide Ok, FileRest, PassRest, Pass, Completes, GoesOn, LoopBody, Beyond, Decimate, Repeat, Play;
    } else {
      assert PassRest(p, s, k) == [];
      assert p.tracks[0..] == p.tracks;
      assert p.tracks[s.index..][1..] == p.tracks[i..];
      assert Completes(p.tracks[s.index..]);
      if Beyond(p, Advance(p, s), k) {
        LastTrack(p, s, k);
      }
    }
  }

  /** Before anything of it has been played, what is left of a track and after it is the pass from there on. */
  lemma NextOpens(p: Playlist, s: State, k: nat)
    requires s.index < |p.tracks| && s.fileLoop == 0 && s.rest.None?
    ensures PassRest(p, s, k) == Pass(p.tracks[s.index..], k)
  {
    var i := s.index;
    assert p.tracks[i..][0] == p.tracks[i] && p.tracks[i..][1..] == p.tracks[i + 1..];
    hide Decimate, Repeat;
  }

  lemma LastTrack(p: Playlist, s: State, k: nat)
    requires Ok(p, s) && !s.finished && s.rest == Some([]) && Done(p.tracks[s.index].loops, s.fileLoop + 1)
    requires s.index + 1 == |p.tracks| && Completes(p.tracks) && Beyond(p, Advance(p, s), k)
    ensures Rest(p, Advance(p, s), k) == LaterPasses(p, s.overallLoop, k)
  {
    if Advance(p, s).finished {
      assert Times(p.loops, k) <= s.overallLoop + 1;
    } else {
      assert p.tracks[0..] == p.tracks;
      assert PassRest(p, Advance(p, s), k) == Pass(p.tracks, k);
      assert Times(p.loops, k) > s.overallLoop + 1;
    }
  }

  // ---- What the player plays is the flat meaning ----

  /** Everything played so far, followed by everything still to come, is the flat meaning. */
  ghost predicate Faithful(p: Playlist, s: State, played: Audio) {
    Ratios(p) && Ok(p, s) && forall k: nat | Beyond(p, s, k) :: played + Rest(p, s, k) == Flat(p, k)
  }

  lemma BeginFaithful(p: Playlist)
    requires Ratios(p)
    ensures Faithful(p, Begin, [])
  {
    forall k: nat | k > 0 ensures [] + Rest(p, Begin, k) == Flat(p, k) {
      BeginRest(p, k);
    }
    BeginRest(p, 1);
  }

  lemma OpenedTripKeeps(p: Playlist, s: State, k: nat, want: nat)
    requires Ratios(p) && Ok(p, s) && !s.finished && s.rest.Some? && want > 0
    ensures var (s1, out) := Trip(p, s, want);
            && Ok(p, s1) && |out| <= want
            && (Beyond(p, s1, k) ==> Beyond(p, s, k) && out + Rest(p, s1, k) == Rest(p, s, k))
  {
    if s.rest.value == [] {
      AdvanceKeeps(p, s, k);
    } else {
      var t := p.tracks[s.index];
      TakeChunk(s.rest.value, t.ratio, want);
      var n := ChunkSize(t, s.rest.value, want);
      assert OnTrack(p, s);
      TakeKeeps(p, s, k, n, Decimate(s.rest.value[..n], t.ratio));
      hide Ok, Rest, Beyond, Decimate;
      BeyondStays(p, s, Some(s.rest.value[n..]), k);
    }
  }

  lemma BeyondStays(p: Playlist, s: State, rest: Option<Audio>, k: nat)
    ensures Beyond(p, s.(rest := rest), k) == Beyond(p, s, k)
  {
  }

  lemma TripKeeps(p: Playlist, s: State, k: nat, want: nat)
    requires Ratios(p) && Ok(p, s)
    ensures var (s1, out) := Trip(p, s, want);
            && Ok(p, s1) && |out| <= want
            && (Beyond(p, s1, k) ==> Beyond(p, s, k) && out + Rest(p, s1, k) == Rest(p, s, k))
  {
    if !s.finished && want > 0 {
      if s.rest.None? {
        OpenKeeps(p, s, k);
        if !Open(p, s).finished {
          assert Trip(p, s, want) == Trip(p, Open(p, s), want);
          OpenedTripKeeps(p, Open(p, s), k, want);
        }
      } else {
        OpenedTripKeeps(p, s, k, want);
      }
    }
  }

  lemma TripFaithfulAt(p: Playlist, s: State, played: Audio, want: nat, k: nat)
    requires Faithful(p, s, played) && Beyond(p, Trip(p, s, want).0, k)
    ensures played + Trip(p, s, want).1 + Rest(p, Trip(p, s, want).0, k) == Flat(p, k)
  {
    hide Trip, Rest, Flat, Beyond, Ok;
    TripKeeps(p, s, k, want);
    var out, rest := Trip(p, s, want).1, Rest(p, Trip(p, s, want).0, k);
    assert played + out + rest == played + (out + rest);
  }

  lemma TripFaithful(p: Playlist, s: State, played: Audio, want: nat)
    requires Faithful(p, s, played)
    ensures Faithful(p, Trip(p, s, want).0, played + Trip(p, s, want).1)
    ensures |Trip(p, s, want).1| <= want
  {
    TripKeeps(p, s, 1, want);
    var s1, heard := Trip(p, s, want).0, played + Trip(p, s, want).1;
    forall k: nat | Beyond(p, s1, k) ensures heard + Rest(p, s1, k) == Flat(p, k) {
      TripFaithfulAt(p, s, played, want, k);
    }
  }

  /** Any number of trips, as a run of reads makes them, with the demand shrinking as samples arrive. */
  function Trips(p: Playlist, s: State, want: nat, n: nat): (State, Audio)
    decreases n
  {
    if n == 0 then (s, [])
    else
      var t := Trip(p, s, want);
      var u := Trips(p, t.0, if |t.1| <= want then want - |t.1| else 0, n - 1);
      (u.0, t.1 + u.1)
  }

  lemma {:induction false} TripsFaithful(p: Playlist, s: State, played: Audio, want: nat, n: nat)
    requires Faithful(p, s, played)
    ensures Faithful(p, Trips(p, s, want, n).0, played + Trips(p, s, want, n).1)
    ensures |Trips(p, s, want, n).1| <= want
    decreases n
  {
    hide Trip, Faithful;
    if n == 0 {
      assert played + [] == played;
    } else {
      TripFaithful(p, s, played, want);
      var t := Trip(p, s, want);
      var u := Trips(p, t.0, want - |t.1|, n - 1);
      TripsFaithful(p, t.0, played + t.1, want - |t.1|, n - 1);
      assert Trips(p, s, want, n) == (u.0, t.1 + u.1);
      assert played + (t.1 + u.1) == played + t.1 + u.1;
    }
  }

  /** However reads of whatever sizes cut up the playback, two players of one playlist agree as far as both have got. */
  lemma ChunkSizesDoNotMatter(p: Playlist, s: State, played: Audio, s': State, played': Audio)
    requires Faithful(p, s, played) && Faithful(p, s', played') && |played| <= |played'|
    ensures played <= played'
    ensures s.finished && s'.finished ==> played == played'
    ensures s.finished ==> played' == played
  {
    var k := s.fileLoop + s.overallLoop + s'.fileLoop + s'.overallLoop + 1;
    assert played + Rest(p, s, k) == Flat(p, k) == played' + Rest(p, s', k);
    assert played == Flat(p, k)[..|played|] && played' == Flat(p, k)[..|played'|];
    if s.finished {
      assert Rest(p, s, k) == [] && played == Flat(p, k);
    }
  }

  // ---- When a read comes to an end ----

  /** Plays left of all tracks, loops and passes, with k for "for ever"; stops are not taken into account. */
  function PassPlays(ts: seq<Track>, k: nat): nat {
    if ts == [] then 0 else (if ts[0].Missing? then 0 else Times(ts[0].loops, k)) + PassPlays(ts[1..], k)
  }

  function PlaysLeft(p: Playlist, s: State, k: nat): int {
    if s.finished || !OnTrack(p, s) then 0
    else Times(p.tracks[s.index].loops, k) - s.fileLoop + PassPlays(p.tracks[s.index + 1..], k)
         + (Times(p.loops, k) - s.overallLoop - 1) * PassPlays(p.tracks, k) + 1
  }

  /** Source samples left of the open track, and one more while it is still closed. */
  function Left(p: Playlist, s: State): nat {
    if s.finished || !OnTrack(p, s) then 0
    else match s.rest case Some(r) => |r| case None => |p.tracks[s.index].window| + 1
  }

  lemma PlaysLeftNat(p: Playlist, s: State, k: nat)
    requires Ok(p, s) && Beyond(p, s, k)
    ensures PlaysLeft(p, s, k) >= 0
    ensures !s.finished && OnTrack(p, s) ==> PlaysLeft(p, s, k) > 0
  {
    if !s.finished && OnTrack(p, s) {
      var m, n := Times(p.loops, k) - s.overallLoop - 1, PassPlays(p.tracks, k);
      assert m >= 0 && n >= 0;
      assert m * n >= 0;
    }
  }

  /** Every trip that is not the last uses up a play or some of the open track. */
  lemma TripMeasure(p: Playlist, s: State, k: nat, want: nat)
    requires Ratios(p) && Ok(p, s) && !s.finished && want > 0 && Beyond(p, s, k)
    ensures var s1 := Trip(p, s, want).0;
            !s1.finished ==> && OnTrack(p, s)
                             && (|| PlaysLeft(p, s1, k) < PlaysLeft(p, s, k)
                                 || (PlaysLeft(p, s1, k) == PlaysLeft(p, s, k) && Left(p, s1) < Left(p, s)))
  {
    if OnTrack(p, s) {
      var o := if s.rest.None? then Open(p, s) else s;
      OpenMeasure(p, s, k);
      hide PlaysLeft, Ok, Beyond, Decimate;
      if o.rest.value == [] {
        AdvanceMeasure(p, o, k);
      } else {
        TakeMeasure(p, o, k, want);
      }
      hide Advance, Left;
    }
  }

  lemma OpenMeasure(p: Playlist, s: State, k: nat)
    requires Ok(p, s) && OnTrack(p, s) && !s.finished && Beyond(p, s, k)
    ensures var o := if s.rest.None? then Open(p, s) else s;
            && PlaysLeft(p, o, k) == PlaysLeft(p, s, k) && Left(p, o) <= Left(p, s) && (s.rest.None? ==> Left(p, o) < Left(p, s))
            && Ok(p, o) && Beyond(p, o, k) && OnTrack(p, o) && !o.finished && o.rest.Some? && o.index == s.index
  {
    OpenKeeps(p, s.(rest := None), k) by { OpenedWithout(p, s); }
    OpenedPlaysLeft(p, s, k);
    hide PassPlays, Completes, GoesOn, LoopBody, PlaysLeft;
  }

  /** Opening a track takes none of its rounds. */
  lemma OpenedPlaysLeft(p: Playlist, s: State, k: nat)
    requires OnTrack(p, s)
    ensures PlaysLeft(p, s.(rest := Some(p.tracks[s.index].window)), k) == PlaysLeft(p, s.(rest := None), k)
  {
    hide PassPlays, Completes;
  }

  lemma OpenedWithout(p: Playlist, s: State)
    requires Ok(p, s)
    ensures Ok(p, s.(rest := None))
  {
    hide Completes, GoesOn, LoopBody;
  }

  lemma TakeMeasure(p: Playlist, s: State, k: nat, want: nat)
    requires Ratios(p) && OnTrack(p, s) && !s.finished && s.rest.Some? && s.rest.value != [] && want > 0
    ensures var s1 := Trip(p, s, want).0;
            PlaysLeft(p, s1, k) == PlaysLeft(p, s, k) && Left(p, s1) < Left(p, s)
  {
    TakeChunk(s.rest.value, p.tracks[s.index].ratio, want);
    hide PassPlays, Decimate;
  }

  lemma AdvanceMeasure(p: Playlist, s: State, k: nat)
    requires Ok(p, s) && OnTrack(p, s) && !s.finished && Beyond(p, s, k)
    ensures !Advance(p, s).finished ==> PlaysLeft(p, Advance(p, s), k) < PlaysLeft(p, s, k)
  {
    assert Times(p.tracks[s.index].loops, k) - s.fileLoop >= 1;
    PlaysLeftNat(p, s, k);
    if !Advance(p, s).finished && Done(p.tracks[s.index].loops, s.fileLoop + 1) {
      if s.index + 1 < |p.tracks| {
        NextMeasure(p, s, k);
      } else {
        WrapMeasure(p, s, k);
      }
    }
  }

  lemma NextMeasure(p: Playlist, s: State, k: nat)
    requires OnTrack(p, s) && !s.finished && s.index + 1 < |p.tracks|
    requires Times(p.tracks[s.index].loops, k) - s.fileLoop >= 1 && PlaysLeft(p, s, k) > 0
    ensures PlaysLeft(p, State(s.index + 1, 0, s.overallLoop, false, None), k) < PlaysLeft(p, s, k)
  {
    var i := s.index + 1;
    assert p.tracks[i..][0] == p.tracks[i];
    assert p.tracks[i..][1..] == p.tracks[i + 1..];
  }

  /** Going back to the first track costs the last play of this pass and gains nothing the later passes did not count. */
  lemma WrapMeasure(p: Playlist, s: State, k: nat)
    requires OnTrack(p, s) && !s.finished && s.index + 1 == |p.tracks|
    requires Times(p.tracks[s.index].loops, k) - s.fileLoop >= 1 && PlaysLeft(p, s, k) > 0
    ensures PlaysLeft(p, State(0, 0, s.overallLoop + 1, false, None), k) < PlaysLeft(p, s, k)
  {
    var m, n := Times(p.loops, k) - s.overallLoop - 1, PassPlays(p.tracks, k);
    assert p.tracks[s.index + 1..] == [];
    assert p.tracks != [];
    OneRoundLess(m, n);
    assert Times(p.loops, k) - (s.overallLoop + 1) - 1 == m - 1;
  }

  lemma OneRoundLess(m: int, n: int)
    ensures (m - 1) * n == m * n - n
  {
  }

  /** A playlist that goes on for ever must have something to say each time round; any other comes to its end. */
  predicate Productive(p: Playlist) { Endless(p) ==> Audible(p) }

  lemma {:induction false} PassFixed(ts: seq<Track>, k: nat)
    requires Completes(ts)
    ensures Pass(ts, k) == Pass(ts, 1)
  {
    if ts != [] { PassFixed(ts[1..], k); }
  }

  lemma {:induction false} CompletedGoesOn(ts: seq<Track>, loops: Option<nat>)
    requires Completes(ts)
    ensures GoesOn(ts, loops) <==> Forever(loops)
  {
    if ts != [] { CompletedGoesOn(ts[1..], loops); }
  }

  lemma {:induction false} PassHasLoop(ts: seq<Track>, k: nat)
    requires LoopBody(ts) != []
    ensures |Pass(ts, k)| >= |Repeat(LoopBody(ts), k)|
  {
    if !Forever(ts[0].loops) { PassHasLoop(ts[1..], k); }
  }

  lemma {:induction false} PassSuffix(ts: seq<Track>, i: nat, k: nat)
    requires Completes(ts) && i <= |ts|
    ensures Completes(ts[i..]) && |Pass(ts[i..], k)| <= |Pass(ts, k)|
    decreases i
  {
    if i == 0 {
      assert ts[0..] == ts;
    } else {
      PassSuffix(ts[1..], i - 1, k);
      assert ts[1..][i - 1..] == ts[i..];
    }
  }

  lemma {:induction false} RepeatMonotone(s: Audio, m: int, n: int)
    requires m <= n
    ensures |Repeat(s, m)| <= |Repeat(s, n)|
    decreases if n > 0 then n else 0
  {
    if n > 0 { RepeatMonotone(s, m - 1, n - 1); }
  }

  lemma PassRestBound(p: Playlist, s: State, k: nat)
    requires Ok(p, s) && !s.finished && Completes(p.tracks)
    ensures |PassRest(p, s, k)| <= |Pass(p.tracks, k)|
  {
    if OnTrack(p, s) {
      var t := p.tracks[s.index];
      PassSuffix(p.tracks, s.index, k);
      assert p.tracks[s.index..][0] == t && p.tracks[s.index..][1..] == p.tracks[s.index + 1..];
      RepeatMonotone(Play(t), Times(t.loops, k) - s.fileLoop, Times(t.loops, k));
      FileRestBound(t, s, k);
      hide Ok, FileRest, Repeat, Play, Times;
    }
  }

  lemma FileRestBound(t: Track, s: State, k: nat)
    requires t.Track? && (s.rest.Some? ==> |Decimate(s.rest.value, t.ratio)| <= |Play(t)|)
    requires Times(t.loops, k) - s.fileLoop >= 1 || s.rest.None?
    ensures |FileRest(t, s, k)| <= |Repeat(Play(t), Times(t.loops, k) - s.fileLoop)|
  {
    hide Decimate, Play, Times;
  }

  /** Each round of something endless has been heard, so the counters never outrun the samples played. */
  lemma CountersBounded(p: Playlist, s: State, played: Audio)
    requires Faithful(p, s, played) && !s.finished && Productive(p)
    ensures Beyond(p, s, |played| + 1)
  {
    if OnTrack(p, s) && Forever(p.tracks[s.index].loops) {
      EndlessTrackHeard(p, s, played);
    } else if Forever(p.loops) && s.overallLoop > 0 {
      EndlessPassHeard(p, s, played);
    }
  }

  lemma EndlessTrackHeard(p: Playlist, s: State, played: Audio)
    requires Faithful(p, s, played) && !s.finished && Productive(p)
    requires OnTrack(p, s) && Forever(p.tracks[s.index].loops)
    ensures s.fileLoop <= |played| && s.overallLoop == 0
  {
    var t, k := p.tracks[s.index], s.fileLoop + 1;
    assert p.tracks[s.index..][0] == t;
    assert !Completes(p.tracks) && GoesOn(p.tracks, p.loops);
    assert LoopBody(p.tracks) == Play(t) != [];
    PassHasLoop(p.tracks, k);
    assert Beyond(p, s, k);
    assert played + Rest(p, s, k) == Flat(p, k) == Pass(p.tracks, k);
    assert |FileRest(t, s, k)| <= |Play(t)|;
    assert |Rest(p, s, k)| <= |Play(t)|;
    assert Repeat(Play(t), k) == Play(t) + Repeat(Play(t), s.fileLoop);
    RepeatLength(Play(t), s.fileLoop);
  }

  lemma EndlessPassHeard(p: Playlist, s: State, played: Audio)
    requires Faithful(p, s, played) && !s.finished && Productive(p)
    requires Forever(p.loops) && s.overallLoop > 0 && !(OnTrack(p, s) && Forever(p.tracks[s.index].loops))
    ensures s.overallLoop <= |played|
  {
    var k, pass := s.overallLoop + 1, Pass(p.tracks, 1);
    CompletedGoesOn(p.tracks, p.loops);
    PassFixed(p.tracks, k);
    assert Beyond(p, s, k);
    assert played + Rest(p, s, k) == Flat(p, k) == Repeat(pass, k);
    PassRestBound(p, s, k);
    assert Repeat(pass, k) == pass + Repeat(pass, s.overallLoop);
    RepeatLength(pass, s.overallLoop);
  }

  /** What one trip does to the termination measure of a read for `want` more samples. */
  lemma TripProgress(p: Playlist, s: State, played: Audio, want: nat, k: nat)
    requires Faithful(p, s, played) && Productive(p) && k > |played| + want && !s.finished && want > 0
    ensures PlaysLeft(p, s, k) >= 0
    ensures var s1 := Trip(p, s, want).0;
            !s1.finished ==>
              && PlaysLeft(p, s1, k) >= 0
              && (|| PlaysLeft(p, s1, k) < PlaysLeft(p, s, k)
                  || (PlaysLeft(p, s1, k) == PlaysLeft(p, s, k) && Left(p, s1) < Left(p, s)))
  {
    CountersBounded(p, s, played);
    PlaysLeftNat(p, s, k);
    TripMeasure(p, s, k, want);
    TripFaithful(p, s, played, want);
    var t := Trip(p, s, want);
    if !t.0.finished {
      CountersBounded(p, t.0, played + t.1);
      PlaysLeftNat(p, t.0, k);
    }
  }

  /** A read of a productive playlist comes to an end: with all it wanted, or with the playlist finished. */
  lemma {:induction false} ReadCompletes(p: Playlist, s: State, played: Audio, want: nat, k: nat) returns (n: nat)
    requires Faithful(p, s, played) && Productive(p) && k > |played| + want
    ensures var r := Trips(p, s, want, n); r.0.finished || |r.1| == want
    decreases if s.finished then 0 else 1, PlaysLeft(p, s, k), Left(p, s)
  {
    hide Trip, Faithful, Productive, PlaysLeft, Left;
    n := 0;
    if !s.finished && want > 0 {
      TripProgress(p, s, played, want, k);
      TripFaithful(p, s, played, want);
      var t := Trip(p, s, want);
      n := ReadCompletes(p, t.0, played + t.1, want - |t.1|, k);
      n := n + 1;
    }
  }

  lemma {:induction false} SilentPass(ts: seq<Track>, loops: Option<nat>, k: nat)
    requires GoesOn(ts, loops) && !Completes(ts) && LoopBody(ts) == [] && k > 0
    ensures Pass(ts, k) == Pass(ts, 1)
  {
    if Forever(ts[0].loops) {
      RepeatLength([], k);
      RepeatLength([], 1);
    } else {
      SilentPass(ts[1..], loops, k);
    }
  }

  lemma SilentFlat(p: Playlist, k: nat)
    requires Endless(p) && !Audible(p) && k > 0
    ensures Flat(p, k) == Flat(p, 1)
  {
    if Completes(p.tracks) {
      PassFixed(p.tracks, k);
      RepeatLength([], Times(p.loops, k));
      RepeatLength([], Times(p.loops, 1));
    } else {
      SilentPass(p.tracks, p.loops, k);
    }
  }

  lemma EndlessOnTrack(p: Playlist, s: State)
    requires Ok(p, s) && !s.finished && Endless(p)
    ensures OnTrack(p, s)
    ensures Done(p.tracks[s.index].loops, s.fileLoop + 1) ==> !Advance(p, s).finished
  {
    assert GoesOn(p.tracks[s.index..], p.loops);
    assert p.tracks[s.index..][0] == p.tracks[s.index];
    assert p.tracks[s.index..][1..] == p.tracks[s.index + 1..];
    if s.index + 1 == |p.tracks| && !Forever(p.tracks[s.index].loops) {
      assert p.tracks[s.index + 1..] == [];
      assert GoesOn(p.tracks[s.index + 1..], p.loops);
      assert GoesOn([], p.loops);
    }
  }

  lemma EndlessTripGoesOn(p: Playlist, s: State, want: nat)
    requires Ok(p, s) && !s.finished && Endless(p)
    ensures !Trip(p, s, want).0.finished
  {
    EndlessOnTrack(p, s);
  }

  lemma {:induction false} EndlessNeverFinishes(p: Playlist, s: State, played: Audio, want: nat, n: nat)
    requires Faithful(p, s, played) && !s.finished && Endless(p)
    ensures !Trips(p, s, want, n).0.finished
    decreases n
  {
    if n > 0 {
      EndlessTripGoesOn(p, s, want);
      TripFaithful(p, s, played, want);
      var t := Trip(p, s, want);
      EndlessNeverFinishes(p, t.0, played + t.1, want - |t.1|, n - 1);
    }
  }

  /** And the read of an unproductive one that wants more than there is never comes to an end, however many trips it makes. */
  lemma SilentLoopNeverCompletes(p: Playlist, want: nat, n: nat)
    requires Ratios(p) && !Productive(p) && want > |Flat(p, 1)|
    ensures var r := Trips(p, Begin, want, n); !r.0.finished && |r.1| < want
  {
    BeginFaithful(p);
    TripsFaithful(p, Begin, [], want, n);
    EndlessNeverFinishes(p, Begin, [], want, n);
    var r := Trips(p, Begin, want, n);
    var k := r.0.fileLoop + r.0.overallLoop + 1;
    SilentFlat(p, k);
    assert [] + r.1 + Rest(p, r.0, k) == Flat(p, k);
  }

  /** So reads always end exactly when the playlist is productive. */
  lemma ReadsEndIffProductive(p: Playlist)
    requires Ratios(p)
    ensures Productive(p) <==> forall want: nat :: ReadOfSizeEnds(p, want)
  {
    if Productive(p) {
      BeginFaithful(p);
      forall want: nat ensures ReadOfSizeEnds(p, want) {
        var n := ReadCompletes(p, Begin, [], want, want + 1);
        assert ReadEnds(p, want, n);
      }
    } else {
      var want := |Flat(p, 1)| + 1;
      forall n: nat ensures !ReadEnds(p, want, n) {
        SilentLoopNeverCompletes(p, want, n);
      }
      assert !ReadOfSizeEnds(p, want);
    }
  }

  ghost predicate ReadOfSizeEnds(p: Playlist, want: nat) {
    exists n: nat :: ReadEnds(p, want, n)
  }

  ghost predicate ReadEnds(p: Playlist, want: nat, n: nat) {
    var r := Trips(p, Begin, want, n);
    r.0.finished || |r.1| == want
  }
}
