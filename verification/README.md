# Verification of the RTP media engine

A Dafny project about the Rust media engine of the RTP server and about the
framing of its JavaScript control channel: channels that carry a call's audio,
mixes that join them, prompts, recordings, DTMF, and the STUN answers of the ICE
path. `dafny verify dfyconfig.toml` checks all of it.

Every component the program updates in place is a class whose methods follow the
code and are proved to leave exactly the state a value model gives; the theorems
are about those models, over every run. The migration of a channel's state
between actors is a step machine, one step per queue receive, reply, tick or call.
Costly proofs hide the definitions they do not need, which keeps each of them small.

| file | component | main results |
|---|---|---|
| Migration.dfy | actors, mixers and the facade's slot | one owner, every command once and in order, the media clock, the slot fold, and which steps lose a state |
| Callers.dfy | callers of mix, unmix and close | what a caller can keep to, so that no state is lost |
| Progress.dfy | actors and mixers left to themselves | no deadlock; every queue empties and every command arrives |
| Closes.dfy | Close events, over all possible runs | how many a channel gets, and whether the registry is told first |
| Jitter.dfy | the jitter buffer, of any size | the modular ring refines an unwrapped window; order, delivery, conservation; what the sizes must be |
| Dtmf.dfy, DtmfLink.dfy | telephone events | bursts and their schedule; digits survive any loss, duplication and reordering |
| Soup.dfy, Tapes.dfy, Endings.dfy, Player.dfy | the prompt player, on any files | reads of any sizes play the flat meaning; on which files they do; when reads end |
| Codec.dfy, FirFilter.dfy | the codec bundle and the filters | demands in any order; the caches refine plain conversion; filters refine convolution and average |
| Mixing.dfy | what members of a mix hear | everyone but oneself, in any map order; the two-party pass commutes |
| Recorder.dfy, PlayRecord.dfy, Prompts.dfy, Subsystems.dfy | recordings, `playrecord`, the tick | what is recorded, from the powers; invariants over all ticks and commands; zero gap; when a prompt ends and why; when there is one outbound source |
| Framing.dfy | the control channel | delivery is exactly the complete messages, for every cut of the stream |
| Stun.dfy | STUN | the walk accepts exactly what is rightly signed; responses are; when the walk reads past the end |
| Registry.dfy | channel statistics | the counters agree until a shutdown |
| Common.dfy | machine integers, frames, a few sequence facts | |

## What the proofs found

- The jitter buffer takes any `size` and `waterlevel` (rust/src/rtpbuffer.rs:86-104)
  and asserts only that the size is positive. Numbers less than a ring apart share
  a slot, somewhere in the number space, exactly when the ring does not divide
  65536 (`Jitter.SlotsClashIff`; a ring of three drops the very next packet at the
  wrap, `Jitter.RingOfThreeDropsTheNext`). A ring longer than 65536 has no such pair.
- The packet that primes the buffer is handed out, whatever its number, exactly when
  the water level modulo 65536 is below the least distance at which two numbers share
  a slot: the count itself in a ring that divides 65536, and 65536 modulo the count in
  any other (`Jitter.EveryPrimingPacketIff`). In a ring that divides 65536 and is
  shorter, a water level equal to the count loses that packet. A water level more than one above the count lets a re-prime go back to
  numbers already passed (`Jitter.GoesBackIff`).
- The jitter buffer admits a packet exactly `buffer_count` ahead (`>` at
  rust/src/channel/jitter.rs:84); in a ring that divides 65536 nothing ever hands such
  a packet out (`Jitter.FarEndIsLost`). The branch of `peek` whose comment says "skip"
  evicts without advancing (rust/src/channel/jitter.rs:117-121); the model follows the
  code.
- A channel's state can be lost without any fault: `mix(a, b)`, a enters,
  `unmix(a)` before b's actor has reached its EnterMix. The mixer is empty for a
  moment and stops, and b is closed without its state. Besides this failed add
  only the mixer's idle sweep loses a state. A caller that waits for outstanding
  start events before it unmixes or closes anybody, and mixes nobody it has closed,
  is safe from the first (`Callers.CarefulCallersLoseNothing`).
- A member closed by the idle sweep gets a Close event from the mixer and a second
  one when its actor ends. Over all possible runs a channel gets more than one exactly
  then (`Closes.ClosesCounted`; `Closes.SweptClosesTwice` is such a run from the
  start). The sweep does not unregister the channel either (rust/src/channel/mixer.rs:962-973,
  against the order rust/src/channel/actor.rs:521-525 insists on): a Close event comes
  while the registry still counts the channel exactly in a sweep
  (`Closes.ClosedUntoldIff`).
- How a sound file is cut into reads matters exactly when its data ends before the
  stop mark and before what its header declares, and at least one output sample can
  be read (`Tapes.MoreGivesMoreIff`, and over whole playbacks
  `Tapes.MoreNeverGivesLessIff`). That equivalence is stated per request, as what
  follows a file in the list may happen to sound the same; for a file played once it
  holds of what is heard (`Tapes.OneFileCutsAgreeIff`).
- Reads of up to n samples end, on any files, exactly unless the soup goes round for
  ever over files none of which has something for a request of n
  (`Endings.ReadsEndIff`); with finite loop counts they always end. A prompt cut short
  that loops is opened, fails and is opened again for ever under a read of more than it
  has in one piece: `Player::read(160)` never returns on a looped
  file of 2 to 319 data bytes whose header declares 320 or more, though it holds
  samples (`Tapes.CutLoopReadEndsIff`, `Tapes.ShortLoopNeverReturns`).
- Refusing codecs are not cached, so they are asked again at each demand; order
  of demands is free exactly when asking again changes nothing. No condition on
  the dynamic iLBC types is needed for that. `encode_from` leaves a bundle's
  output cache holding another channel's bytes.
- A decoded frame shorter than what goes out in the same tick is padded with
  silence in a recording; with none out and no echo the other side counts as 160
  samples. The left channel is the inbound audio alone exactly when the frame is
  at least as long.
- A packet of odd size would lose a sample in the downsampling (`FirFilter.EvenPacketsIff`).
  The running code does not meet the case: the G.722 decoder gives 320 samples or none
  (rust/src/g722.rs:151-167), and nothing else feeds wideband.
- `shutdown_all_channels` takes open channels out of the registry, and their own
  unregistering then counts nothing: created stays ahead of closed plus current
  (`Registry.ShutdownLeavesCountersApart`).
- The attribute walk reads past the packet's end, where the code panics, on a packet
  that passes for STUN exactly when it comes to an integrity attribute with less than
  24 bytes left or a fingerprint with less than 8 (`Stun.OutOfRangeIff`). Such a
  packet has 24 bytes (`Stun.ShortRequestIsOutOfRange`), and received bytes are handed
  over as they are (rust/src/channel/recv_loop.rs:64-72). Integrity attributes of 20
  bytes and fingerprints of 4 or more exclude it (`Stun.LongEnoughIsInRange`).
- The README of the repository (README.md:447) says `play` supersedes an active
  writer, so that there is at most one outbound source, and that a replaced player
  ends with reason "new". In the code neither `Play` nor `PlayRecord` clears a writer,
  and the reason is "replaced" (rust/src/channel/actor.rs:682-703); the model follows
  the code. Creating a write stream and then playing leaves both sources on
  (`PlayRecord.PlayOverWriter`), and over a run there is at most one exactly when no
  prompt is asked for while the writer is on (`PlayRecord.OneSourceIff`).

## Assumptions

- The clean runs of the migration theorems exclude the three steps of
  `StateIsLostIff` and a facade call whose queue is full (its result is ignored).
- Codecs, HMAC-SHA1, CRC-32 and JSON.parse are functions handed in; so are file
  opens and writes, the measured packet powers, the player's and writer's frames
  in `PlayRecord`, and the order in which packets arrive.
- Every channel's actor keeps a sender of its own command queue until it returns
  (rust/src/channel/actor.rs:305-309, 527), so its receive never finds the queue closed.
- A moving average of length 0 divides by zero in the code; a valid recorder
  configuration or barge-in has a length of 1 to 250.
- The link theorem needs all packets of the exchange within 2^15 sequence numbers
  and 2^32 timestamp units, so that the wrapped comparisons mean what they should.

## Model

| member | source | states |
|---|---|---|
| `Migration.EveryCommandOnceInOrder` | rust/src/channel/actor.rs:321-414 | after any clean run the state of a channel is in exactly one place (its actor, a reply, a mixer queue, a members map), out_ts is 160 per tick modulo 2^32 whoever ticked it, and what it has seen, then what is on its way, then what its actor has yet to receive, is exactly what calls on the handle sent, in order and once each |
| `Migration.OneOwner` | rust/src/channel/mixer.rs:146-165 | in every state a clean run reaches: the place of the state is unique, its id and clock are right, and its commands plus those in flight are those its actor received |
| `Migration.ClosedOnceWithEverything` | rust/src/channel/actor.rs:416-528 | one Close event per channel and only at the end; the state handed to the exit path has seen every command received before the Close, and Close is the last one received |
| `Migration.SlotMirrorsQueue` | rust/src/channel/facade.rs:592-656 | folding the queued EnterMix and LeaveMix over the actor's mode gives the facade's mix slot, and a channel in a mix never receives an EnterMix for another group |
| `Migration.StateIsLostIff` | rust/src/channel/mixer.rs:962-973 | from any such state a step leaves every channel with its state exactly when it is not an idle sweep, not an add to a stopped mixer and not a stop with an Add unread |
| `Migration.EarlyUnmixLosesThePartner` | rust/src/channel/actor.rs:363-370 | a concrete clean run after which the partner's EnterMix destroys its state: mix, one enters, unmix before the other has entered |
| `Closes.ClosesCounted` | rust/src/channel/mixer.rs:962-973 | over every run the queues allow, with full queues, failed adds and idle sweeps: a channel is swept at most once, its Close events are its sweep and its actor's end, and so there is more than one exactly when it has been swept and its actor has ended |
| `Closes.SweptClosesTwice` | rust/src/channel/mixer.rs:962-973 | a concrete run from the start with two Close events: mix, one enters, is swept for being idle, and its handle is closed |
| `Closes.SweptOnce` | rust/src/channel/mixer.rs:962-973 | a swept channel's state is nowhere any more, so it is not swept again |
| `Closes.ClosedUntoldIff` | rust/src/channel/actor.rs:521-525 | a step posts a Close event without its actor ending, and so without the registry being told first, if and only if it is an idle sweep |
| `Callers.CarefulCallersLoseNothing` | rust/src/channel/facade.rs:592-656 | a caller that unmixes and closes nobody while a start event of its group is outstanding, mixes nobody after its close and meets no full queue makes, whatever actors and mixers do in between and as long as no member goes idle, only clean runs: no state is lost |
| `Callers.CarefulStep` | rust/src/channel/mixer.rs:146-165 | each such step is clean and keeps the reason: while somebody is entering a group its mixer runs, and somebody in it stays or nobody in it is leaving |
| `Callers.NotTheLast` | rust/src/channel/mixer.rs:151-157 | a removal that empties a mixer finds nobody entering its group |
| `Callers.SlotIsAnchor` | rust/src/channel/facade.rs:592-646 | a channel whose slot names a group, with no close asked for and no start event outstanding, is in that mix with nothing queued that takes it out |
| `Callers.EarlyUnmixIsCareless` | rust/src/channel/facade.rs:648-656 | the losing run above breaks exactly this rule, at its unmix |
| `Progress.EverythingArrives` | rust/src/channel/actor.rs:321-414 | after any careful run from the start the actors and mixers, by taking what is there and nothing else, empty every live queue, and then every channel that has not closed has a state that has seen exactly what calls on its handle sent |
| `Progress.ComesToRest` | rust/src/channel/mixer.rs:136-172 | from every state careful callers can bring about finitely many such steps, all of them clean, leave nothing to take |
| `Progress.SomebodyMoves` | rust/src/channel/mixer.rs:99-121 | no deadlock: while anything is left some actor or mixer can take it, though queues hold 64 and senders wait |
| `Progress.TakingWorks` | rust/src/channel/mixer.rs:136-172 | and every such step, whichever is chosen, reduces the work that is left |
| `Migration.RunOk` | rust/src/channel/actor.rs:321-414 | the whole invariant (places, in-flight commands, clock, history, slot fold, mixer bookkeeping) holds over every clean run |
| `Migration.StepOk` | rust/src/channel/mixer.rs:136-172 | every clean step of the JavaScript side, an actor or a mixer keeps the invariant |
| `Migration.MixCallOk` | rust/src/channel/facade.rs:592-646 | `mix` on any two channels: new group, join, re-assert and refusal all keep slot and queue in step |
| `Migration.ReceiveOk` | rust/src/channel/actor.rs:375-413 | one command taken by an actor, local or mixed: applied, forwarded, or turned into Add or Remove |
| `Migration.ReplyOk` | rust/src/channel/actor.rs:352-396 | the mixer's answer to add and remove moves the state without loss |
| `Migration.AddStepOk` | rust/src/channel/mixer.rs:147-150 | the mixer takes the state out of its queue into its members |
| `Migration.ForwardStepOk` | rust/src/channel/mixer.rs:158-162 | a forwarded command reaches the member's state in queue order |
| `Migration.RemoveStepOk` | rust/src/channel/mixer.rs:151-157 | a removal hands the state back with every command that was queued before it applied |
| `Migration.LastRemoveLeavesNothing` | rust/src/channel/mixer.rs:154-156 | when the last member leaves, the stopping mixer's queue holds nothing that is then lost |
| `Migration.MixerTickOk` | rust/src/channel/mixer.rs:167-169 | a mixer tick advances every member's clock and hands no state over |
| `Migration.LocalTickIs` | rust/src/channel/tick.rs:492-520 | a tick of a channel on its own: one count and 160 units later, and, if it has been idle for too long, ended with its Close event; nothing else changes |
| `Migration.QueueTakes` | rust/src/channel/actor.rs:156-156 | a handle's queue takes 64 commands that nobody receives, in order, and what is sent after that is lost |
| `Migration.RunSends` | rust/src/channel/facade.rs:623-656 | what a handle's queue took during a run is what its actor has received followed by what is still queued |
| `Jitter.JitterBuffer.Push` | rust/src/channel/jitter.rs:66-103 | for every count and water level: the slot array after a push is the unwrapped window after it, with the two priming rules, the distance check that admits exactly count, and the drop of a taken slot |
| `Jitter.PushAccepts` | rust/src/channel/jitter.rs:78-103 | while packets are held: a packet at a distance of at most the count, modulo 65536, in a slot that no held packet has, is held at that distance; any other changes nothing but the drop counter. So one that arrives late and just in time is kept |
| `Jitter.PushIntoEmpty` | rust/src/channel/jitter.rs:70-103 | while none is held: every packet is held, and where reading starts then, primed for the first time, again, or neither |
| `Jitter.PushAfterClear` | rust/src/channel/jitter.rs:70-76 | after a clear the next packet primes afresh and is held |
| `Jitter.LatePacketComesOut` | rust/src/channel/jitter.rs:78-148 | in a ring that divides 65536 a late packet that finds its slot free is handed out by enough pops |
| `Jitter.JitterBuffer.Peek` | rust/src/channel/jitter.rs:106-128 | nothing, the packet due, or the eviction of a stale one without advancing; the answer is the packet at the read position |
| `Jitter.JitterBuffer.DiscardPeeked` | rust/src/channel/jitter.rs:131-138 | the peeked packet leaves and the read position advances |
| `Jitter.JitterBuffer.Pop` | rust/src/channel/jitter.rs:140-148 | the packet due, removed, or one step of progress |
| `Jitter.JitterBuffer.Clear` | rust/src/channel/jitter.rs:150-157 | all packets go and the buffer is to be primed again |
| `Jitter.RunOk` | rust/src/channel/jitter.rs:66-156 | over any run every held packet is less than a wrap ahead of the read position under its own number, and no two share a slot |
| `Jitter.PopsInOrder` | rust/src/channel/jitter.rs:106-148 | within a priming epoch the packets handed out have strictly increasing unwrapped numbers across the 16-bit wrap |
| `Jitter.PopsInOrderBetweenClears` | rust/src/channel/jitter.rs:84-91 | between clears the order holds across re-primes too, if the water level is at most one more than the count |
| `Jitter.GoesBackIff` | rust/src/channel/jitter.rs:84-91 | and exactly with a longer one there is a packet that sends an empty buffer back to numbers it has passed |
| `Jitter.OutputsAreSendersNumbers` | rust/src/channel/jitter.rs:66-103 | and those numbers are the sender's own: a late packet is never taken for one a wrap later |
| `Jitter.DeliveredInTime` | rust/src/channel/jitter.rs:106-148 | a held packet whose slot no earlier read position shares is handed out once the pops exceed its distance plus the stale evictions meanwhile, however pushes are interleaved |
| `Jitter.NeverReturned` | rust/src/channel/jitter.rs:106-128 | and one whose slot some earlier read position shares is never handed out, whatever is called |
| `Jitter.HandedOutIff` | rust/src/channel/jitter.rs:106-148 | so enough pops hand a held packet out if and only if no earlier read position shares its slot |
| `Jitter.SlotsClashIff` | rust/src/channel/jitter.rs:8-9 | numbers less than a ring apart share a slot, somewhere in the number space, if and only if the ring, taken no longer than 65536, does not divide 65536 |
| `Jitter.RingOfThreeDropsTheNext` | rust/src/channel/jitter.rs:94-102 | the concrete failure: a ring of three holding packet 65535 drops packet 0, which is the next one |
| `Jitter.EveryPrimingPacketIff` | rust/src/channel/jitter.rs:70-76 | the packet that primes the buffer is handed out whatever its number, if and only if the water level modulo 65536 is below the least distance at which two numbers share a slot |
| `Jitter.PrimingPacketOnDivisorIff` | rust/src/channel/jitter.rs:70-76 | in a ring that divides 65536: if and only if it is below the count |
| `Jitter.FarEndIsLost` | rust/src/channel/jitter.rs:84-92 | in such a ring a packet exactly count ahead is accepted when the slot of the read position is free, and no number of pops hands it out |
| `Jitter.PopProgress` | rust/src/channel/jitter.rs:106-128 | once primed a pop either advances out_sn by one or counts one bad_sn, never both |
| `Jitter.Conservation` | rust/src/channel/jitter.rs:66-156 | push calls are pushed plus dropped; pushed is popped plus bad_sn plus held plus cleared |
| `Jitter.ClearedIsSilent` | rust/src/channel/jitter.rs:150-157 | after a clear nothing is handed out until the next priming |
| `Dtmf.DigitRoundTrip` | rust/src/channel/dtmf.rs:37-64 | seventeen characters, the hook flash among them and the five letters in either case, have an event and no other has; events 0 to 16 have a character and no other; each table undoes the other |
| `Dtmf.KeysAreCodes` | rust/src/channel/dtmf.rs:37-64 | the event of each of the seventeen keys is its place in 0123456789*#ABCDF, in both tables |
| `Dtmf.EventRoundTrip` | rust/src/channel/dtmf.rs:67-101 | decoding an encoded event gives back event, end flag and duration, whatever follows the four bytes |
| `Dtmf.BurstPacketBytes` | rust/src/channel/dtmf.rs:188-252 | the four bytes of each of the fourteen packets of a burst: event, end bit on the last three, volume 13, 160 units more in each body up to 1920, marker on the first (section 3.5 of RFC 2833) |
| `Dtmf.DtmfSender.Enqueue` | rust/src/channel/dtmf.rs:168-175 | the valid digits of the string go to the end of the queue |
| `Dtmf.DtmfSender.NextEvent` | rust/src/channel/dtmf.rs:188-252 | the counters encode how many packets of the burst are out; the tail branch is unreachable |
| `Dtmf.PacketsAreBursts` | rust/src/channel/dtmf.rs:188-252 | over every interleaving of enqueue and next_event the i-th packet is part i % 14 of burst i / 14: eleven bodies, three ends, one latched timestamp, marker on the first |
| `Dtmf.SilentGap` | rust/src/channel/dtmf.rs:188-207 | at least nine silent calls between bursts, whatever is enqueued meanwhile |
| `Dtmf.DrainSchedule` | rust/src/channel/dtmf.rs:188-252 | with digits queued and none added, call c sends part c % 23 of digit c / 23 or is silent |
| `Dtmf.DrainsExactly` | rust/src/channel/dtmf.rs:188-252 | n digits on a fresh sender are out after exactly 23n - 9 calls and not one sooner |
| `Dtmf.DtmfReceiver.FeedPacket` | rust/src/channel/dtmf.rs:303-340 | the sequence test, the end packet that clears, and the 3200-unit test for a new burst |
| `Dtmf.ReportedIff` | rust/src/channel/dtmf.rs:303-340 | a digit is reported exactly for a body that is 1 to 32767 numbers ahead and is not the event remembered within 3199 units, and it is the key of its code |
| `Dtmf.RememberedAfter` | rust/src/channel/dtmf.rs:303-340 | what is remembered after any packet: the number of one that is ahead, nothing after an end, and the event and timestamp that began a burst |
| `DtmfLink.DigitsSurviveTheNetwork` | rust/src/channel/dtmf.rs:303-340 | any digits, polls, other traffic, and any loss, duplication and reordering of the packets: the digits reported are those of exactly the bursts with a body packet arriving ahead of everything before it, once each and in order (section 3.5 of RFC 2833) |
| `DtmfLink.TransmitOk` | rust/src/channel/dtmf.rs:278-278 | burst starts are at least 3680 timestamp units apart, which is what the receiver's 3200 rests on |
| `DtmfLink.ReceiverTracksBursts` | rust/src/channel/dtmf.rs:303-340 | after any arrivals the receiver remembers exactly the latest-sent packet accepted |
| `DtmfLink.HeardExactly` | rust/src/channel/dtmf.rs:303-340 | a burst is heard if and only if one of its bodies arrived ahead |
| `Player.Player.Read` | rust/src/channel/player.rs:84-138 | for any files and any read that comes to an end: the rounds of the loop, never more than asked, fewer only at the end; on sound files the samples read, appended to those read before, continue the flat meaning of the soup exactly |
| `Player.Player.OpenCurrent` | rust/src/channel/player.rs:147-182 | the current file opened at its start mark with its stop mark counted in samples; a missing file or index ends the soup |
| `Player.Player.AdvanceFile` | rust/src/channel/player.rs:184-224 | per-file loops, then the next file, then whole-list loops |
| `Player.Player.NextChunk` | rust/src/channel/player.rs:95-128 | one request on the open file, cut at the stop mark; a failed read counts as an empty one |
| `Player.WavReader.SeekMs` | rust/src/soundfile.rs:222-234 | whole blocks of the byte rate, never past the data |
| `Player.WavReader.ReadSamples` | rust/src/soundfile.rs:204-220 | all or nothing: what is left up to the request, or a failure when the file ends early |
| `Tapes.TrimIs` | rust/src/channel/player.rs:147-182 | of a 16-bit mono file of whole samples a millisecond that holds its data: exactly its samples from the start mark up to the stop mark, as far as there are any |
| `Tapes.SampleIs` | rust/src/soundfile.rs:204-220 | a sample is the 16-bit two's complement number of its bytes, low byte first |
| `Tapes.RatioIs` | rust/src/channel/player.rs:95-124 | source samples per output sample: m at m times 8 kHz, one below 16 kHz, and the rate over 8000 cut down in general |
| `Tapes.ChunkIsPrefix` | rust/src/channel/player.rs:95-128 | one request on a sound file with a stop mark takes exactly the next samples of its window and leaves it sound |
| `Tapes.MoreGivesMoreIff` | rust/src/soundfile.rs:204-220 | at one place in one file a larger request never gives less, if and only if the bytes up to the stop mark or the declared end are there, or not even one output sample can be read |
| `Tapes.MoreNeverGivesLessIff` | rust/src/channel/player.rs:84-224 | over every playback of a soup this holds at every place, if and only if it holds of every file the player comes to, from start mark to stop mark; files it never opens do not count |
| `Tapes.OneFileCutsAgreeIff` | rust/src/channel/player.rs:84-138 | a file played once sounds the same however the playback is cut, if and only if it is sound; otherwise one large read hears nothing of it and a small one first something |
| `Tapes.TurnRefines` | rust/src/channel/player.rs:89-138 | on such soups a round of the read loop is a trip over the flat meaning |
| `Tapes.SoundReadsAreFaithful` | rust/src/channel/player.rs:84-138 | and reads of any sizes continue it exactly |
| `Endings.ReadsEndIff` | rust/src/channel/player.rs:184-224 | for any soup on any files, sound or cut short: reads of up to n samples end at every point of every playback, if and only if the soup is not endless, or some file of the part that goes round for ever has something for a request of n |
| `Endings.AllReadsEndIff` | rust/src/channel/player.rs:184-224 | and reads of every size do, if and only if it is not endless, or that part holds a sound file with something to hear |
| `Endings.SoundReadsEndIffProductive` | rust/src/channel/player.rs:184-224 | on sound files that is the condition of the flat meaning: reads of every size end, from the beginning or at every point, if and only if nothing that loops for ever is silent |
| `Endings.FiniteLoopsEnd` | rust/src/channel/player.rs:184-224 | so every read of a soup with finite loop counts ends, whatever its files are like and wherever the player stands |
| `Endings.ReadEnds` | rust/src/channel/player.rs:84-138 | the rounds such a read takes, from any state of the player |
| `Tapes.CutLoopReadEndsIff` | rust/src/channel/player.rs:95-128 | a single file cut short and played for ever, read by read: wherever the player stands, a read ends if and only if it asks for no more than lies in one piece after the start mark |
| `Tapes.ShortLoopNeverReturns` | rust/src/channel/player.rs:95-128 | so a looped 8 kHz prompt of 2 to 319 bytes whose header promises 320 or more never answers the 160-sample read of a tick |
| `Soup.TripsFaithful` | rust/src/channel/player.rs:89-138 | any number of trips of the read loop keeps what has been played a prefix of the flat meaning, and what is left the rest |
| `Soup.ChunkSizesDoNotMatter` | rust/src/channel/player.rs:84-138 | two playbacks cut into any read sizes agree as far as both have got, and wholly at the end |
| `Soup.TripProgress` | rust/src/channel/player.rs:89-138 | a lexicographic measure of loops, files and samples decreases with every trip |
| `Soup.ReadsEndIffProductive` | rust/src/channel/player.rs:184-224 | every read ends if and only if nothing that loops for ever is silent |
| `Soup.SilentLoopNeverCompletes` | rust/src/channel/player.rs:184-224 | and otherwise a read for more than one round never ends, however many trips it makes |
| `Soup.FlatAt` | rust/src/channel/player.rs:184-224 | the flat meaning itself, position by position: in every overall round each track, in every round of it each of its samples, after exactly the samples of the rounds and tracks before it |
| `Soup.FlatIsLong` | rust/src/channel/player.rs:184-224 | and nothing else: its length is the overall rounds times the sum over the tracks of rounds times samples; an absent count is one round |
| `Soup.FlatStopsAt` | rust/src/channel/player.rs:147-224 | a list that comes to a track that loops for ever or does not open plays the tracks before it in the same places, and rounds of the looping one after them |
| `Soup.FlatStops` | rust/src/channel/player.rs:147-224 | and goes no further |
| `Soup.DecimateSplit` | rust/src/channel/player.rs:112-124 | decimating in reads that are multiples of the ratio is decimating the whole |
| `Soup.DecimateAt` | rust/src/channel/player.rs:112-124 | output k is input k times the ratio, as far as there are any |
| `Codec.CodecBundle.FeedWire` | rust/src/codec.rs:309-314 | the input replaced and every cache emptied |
| `Codec.CodecBundle.FeedLinear8k` | rust/src/codec.rs:320-325 | narrowband stands in its cache, everything else is empty |
| `Codec.CodecBundle.FeedLinear16k` | rust/src/codec.rs:331-336 | wideband stands in its cache, everything else is empty |
| `Codec.FedNarrow` | rust/src/codec.rs:320-325 | after 160 samples, or any, the narrowband form is those samples and the wideband form the filter's upsampling of them; memories stay |
| `Codec.FedWide` | rust/src/codec.rs:331-336 | after wideband samples the wideband form is those samples and the narrowband form their downsampling |
| `Codec.FedWire` | rust/src/codec.rs:309-314 | after bytes of each wire type the two forms are what that type's decoder and the filters make of them, and of no other type anything |
| `Codec.CodecBundle.RequireNarrowband8k` | rust/src/codec.rs:392-445 | the shortest chain to 8 kHz and its effect on every cache and memory; the mutual recursion ends |
| `Codec.CodecBundle.RequireWideband16k` | rust/src/codec.rs:450-475 | the same to 16 kHz |
| `Codec.CodecBundle.RequireWireAs` | rust/src/codec.rs:574-627 | the same to each wire format |
| `Codec.CodecBundle.EncodeFrom` | rust/src/codec.rs:498-569 | the pass-through, or the source's samples through this side's encoder, and what it does to both bundles |
| `Codec.AnswersIgnoreHistory` | rust/src/codec.rs:392-475 | after a feed every demand is answered with the uncached conversion, whatever was demanded before and however often |
| `Codec.OrderDoesNotMatter` | rust/src/codec.rs:392-627 | any two orders with repetition of the same demands leave the same caches, decoders, encoders and filters |
| `Codec.OrderFreeIffSettles` | rust/src/codec.rs:392-627 | that holds exactly when every stage that refuses what was fed changes nothing more by refusing it again (refusals are not cached) |
| `Codec.EveryStageAtMostOnce` | rust/src/codec.rs:392-627 | each stateful stage runs at most once on what was fed |
| `Codec.TranscodeIgnoresHistory` | rust/src/codec.rs:498-569 | what is encoded from a source does not depend on who else drew on it this tick |
| `Codec.PassThrough` | rust/src/codec.rs:498-522 | same codec on both ends, iLBC included: the bytes go through untouched, and then stand in the destination's own output cache without a feed; otherwise what goes out equals this side's encoding of the source's samples |
| `Codec.EncodedFromFed` | rust/src/codec.rs:524-569 | and after a feed, in a different format, what goes out is the fed samples through the encoder of the type asked for, and nothing only where there are none or the encoder gives none |
| `Codec.DestinationAfter` | rust/src/codec.rs:498-569 | what stands in the destination afterwards: that output in its own cache and one encoder one application later, and no other change |
| `Codec.DynamicTypeIsStatic` | rust/src/codec.rs:275-288 | bytes fed under a negotiated iLBC type are answered for, after any demands, as under the static type 97 |
| `Codec.CodecBundle.SetLocalIlbcPt` | rust/src/codec.rs:275-277 | afterwards exactly 97, this type and the peer's count as iLBC; nothing cached or remembered changes |
| `Codec.CodecBundle.SetPeerIlbcPt` | rust/src/codec.rs:278-280 | the same for the peer's type |
| `FirFilter.Lowpass.Execute` | rust/src/firfilter.rs:44-63 | over reals the circular history gives the direct 17-tap convolution of all inputs so far |
| `FirFilter.ImpulseResponse` | rust/src/firfilter.rs:14-17 | the convolution of a single sample v among silence is v times each of the 17 taps in turn, and then nothing |
| `FirFilter.ToSampleIs` | rust/src/firfilter.rs:44-63 | the cast back to 16 bits cuts toward zero and saturates |
| `FirFilter.OldestFirstIsConvolution` | rust/src/firfilter.rs:14-17 | the code's summing order is the convolution because the taps are symmetric |
| `FirFilter.MaFilter.Reset` | rust/src/firfilter.rs:91-96 | at most 250 packets, and nothing remembered |
| `FirFilter.MaFilter.Execute` | rust/src/firfilter.rs:98-105 | the average, cut toward zero, of the last min(n, l) samples since the reset |
| `FirFilter.AverageAbove` | rust/src/firfilter.rs:98-105 | the average exceeds a threshold t exactly when the last l samples, silence before the first, add up to at least (t + 1) l, or for t below 0 to more than t l |
| `FirFilter.AverageOfConstant` | rust/src/firfilter.rs:98-105 | a full window of one value averages to that value, whatever came before |
| `FirFilter.AverageFits` | rust/src/firfilter.rs:98-105 | the running total stays in 32 bits and the average in 16 |
| `FirFilter.DownInto` | rust/src/codec.rs:635-648 | the downsampling loop over a filter that keeps its history |
| `FirFilter.UpInto` | rust/src/codec.rs:654-665 | the upsampling loop |
| `FirFilter.DownInPackets` | rust/src/codec.rs:635-648 | packets of even size resample to what the whole stream resamples to |
| `FirFilter.EvenPacketsIff` | rust/src/codec.rs:635-648 | a packet can be resampled on its own, whatever came before and comes after, if and only if its size is even |
| `FirFilter.UpInPackets` | rust/src/codec.rs:654-665 | upsampling in packets is upsampling the whole |
| `FirFilter.DownAt` | rust/src/codec.rs:635-648 | output k is the filter's answer at input 2k + 1 |
| `FirFilter.UpAt` | rust/src/codec.rs:654-665 | outputs 2k and 2k + 1 are the filter's answers at input k and at the zero after it |
| `Mixing.Mixer.MixAllOutbound` | rust/src/channel/mixer.rs:271-318 | every member that sends and has an address is fed, sample by sample, the clamped sum of the other members' frames, in whatever order the map is walked |
| `Mixing.Mixer.SumFrames` | rust/src/channel/mixer.rs:273-284 | the sum of all frames of receiving members; no addition saturates up to 65536 members |
| `Mixing.Mixer.WithoutOwn` | rust/src/channel/mixer.rs:294-305 | the sum without the member's own frame |
| `Mixing.Mixer.FeedMember` | rust/src/channel/mixer.rs:286-317 | the mix fed to the member's own bundle and taken out in its own codec |
| `Mixing.PayloadIs` | rust/src/channel/mixer.rs:286-317 | for c, the clamped sums of the others: the member is sent the mu-law, A-law or iLBC encoding of c, or the G.722 encoding of its upsampling, as its type says; c stands in its narrowband cache and only that encoder has moved on |
| `Mixing.Mixer.RunInboundPhase` | rust/src/channel/mixer.rs:811-821 | frames up after the inbound phase are this tick's |
| `Mixing.InboundVoices` | rust/src/channel/mixer.rs:331-337 | nothing of the last tick, inbound before player, and nothing from who does not receive |
| `Mixing.VoiceIs` | rust/src/channel/mixer.rs:273-284 | a member is heard exactly when it receives and has a frame up |
| `Mixing.OwnFrameIsNotHeard` | rust/src/channel/mixer.rs:294-305 | a member's own frame makes no difference to what it hears |
| `Mixing.TwoHearEachOther` | rust/src/channel/mixer.rs:189-202 | with two members the formula gives the peer's frame unchanged |
| `Mixing.Mixer.Mix2Outbound` | rust/src/channel/mixer.rs:189-202 | both legs of a two-party mix, the same whichever comes first in the map |
| `Mixing.LegIs` | rust/src/channel/mixer.rs:216-233 | what a leg carries: nothing unless the source sends, has a frame up and the destination an address; the source's own bytes when the formats agree; otherwise its decoded samples through the destination's encoder |
| `Mixing.PacketThrough` | rust/src/channel/mixer.rs:216-233 | so between every two of mu-law, A-law, G.722 and iLBC: what the peer is sent for a packet that came in |
| `Mixing.TwoSentIs` | rust/src/channel/mixer.rs:189-202 | each of the two is sent what its peer's leg carries from the state both began the tick in |
| `Mixing.TwoAfterIs` | rust/src/channel/mixer.rs:189-202 | and each is left with its input decoded as its own leg leaves it and its outputs and encoders as its peer's leg leaves them |
| `Mixing.TranscodesCommute` | rust/src/codec.rs:498-569 | encoding a from b and b from a commute: encoding never touches what decoding reads |
| `Recorder.Recorder.Write` | rust/src/channel/recorder.rs:186-280 | gate, power, file, limits: the whole effect of a frame, with or without the disk taking it |
| `Recorder.WrittenIs` | rust/src/channel/recorder.rs:186-280 | frame by frame, from the powers: closed until the first average above start_above, then exactly the frames from that one on, up to the first that ends it, and no frame after |
| `Recorder.PendingIff` | rust/src/channel/recorder.rs:221-232 | after n frames a recording is still waiting if and only if it has a gate and none of the first n averages was above it |
| `Recorder.RollingIff` | rust/src/channel/recorder.rs:221-280 | it is recording if and only if some frame opened it and none since ended it, and its file is then exactly the frames from the opening one on |
| `Recorder.FinishedIff` | rust/src/channel/recorder.rs:243-279 | it is finished for low power, or for its duration, if and only if some frame is the first to end it, for that reason: past the minimum, an average above and now below finish_below, or else past max_ms |
| `Recorder.WrittenIsRun` | rust/src/channel/recorder.rs:186-280 | and that is what a run of write_frame calls from open gives |
| `Recorder.Recorder.WriteRaw` | rust/src/channel/recorder.rs:291-304 | past the gate and the limits, unless finished |
| `Recorder.RawIsKept` | rust/src/channel/recorder.rs:291-304 | raw samples join the file of any recording that is not finished, waiting and paused ones too, and change nothing else but the count written |
| `Recorder.Recorder.DoPause` | rust/src/channel/recorder.rs:130-134 | active or pending becomes paused |
| `Recorder.Recorder.DoResume` | rust/src/channel/recorder.rs:136-140 | paused becomes active, past the gate |
| `Recorder.PausedTakesNothing` | rust/src/channel/recorder.rs:130-140 | however many frames a paused recording is given, it is unchanged, and resumed it is active with what it had |
| `Recorder.Recorder.Finish` | rust/src/channel/recorder.rs:142-147 | finished once, with the first reason |
| `Recorder.Recorder.Close` | rust/src/channel/recorder.rs:307-310 | finished with the given reason if it was not yet, and the file closed |
| `Recorder.FinishedForGood` | rust/src/channel/recorder.rs:142-147 | finished is absorbing: no operation changes reason, file or counters |
| `Recorder.GateHolds` | rust/src/channel/recorder.rs:221-232 | behind a closed power gate no frame reaches the file, only what was written raw |
| `Recorder.LimitsHold` | rust/src/channel/recorder.rs:243-279 | over any run: active time stays below max(max_ms, min_ms - 1) + 1 ms plus one frame, no finish of its own before the minimum, low power only after higher, and file size is 44 + 2 * samples_written |
| `PlayRecord.ZeroGap` | rust/src/channel/tick.rs:72-106 | playrecord loses nothing, on one channel or two: the file is the last 480000 samples heard before the prompt ended and then the frame of every tick up to the finish, however the prompt ends; the left channel of two is, over the ticks with inbound audio, every decoded frame |
| `PlayRecord.NothingIsLost` | rust/src/channel/actor.rs:239-291 | the exact content of the file at every point of every such run, mono or stereo |
| `PlayRecord.LeftIsInbound` | rust/src/channel/tick.rs:432-449 | the left channel of a tick is the decoded frame alone exactly when nothing outbound is longer |
| `PlayRecord.RunKeeps` | rust/src/channel/actor.rs:682-887 | over all local and mixed ticks and commands: bargein and pending recorder need a player, prebuffer needs a pending recorder and is at most 480000 samples, recorder paths are distinct, none is finished, no Close event is out, and play starts plus writer retirements are ends plus the player that is on |
| `PlayRecord.ExitBalances` | rust/src/channel/actor.rs:456-528 | from any state a run reaches the exit path balances the play events, leaves nothing on, and ends the events with the unregistering and then the one Close |
| `PlayRecord.TickKeeps` | rust/src/channel/mixer.rs:510-700 | both forms of the tick keep all of that |
| `PlayRecord.CommandKeeps` | rust/src/channel/actor.rs:682-887 | so does every command, including entering a mix |
| `PlayRecord.ActivationFlushes` | rust/src/channel/actor.rs:239-291 | the recorder opens with the pre-buffer already in its file, past its gate |
| `PlayRecord.AccumulateIsLast` | rust/src/channel/tick.rs:279-297 | dropping the oldest keeps exactly the last 480000 samples |
| `PlayRecord.PlayRecordStarts` | rust/src/channel/actor.rs:837-887 | playrecord leaves a prompt on, the recorder queued and nothing heard, whatever was going on |
| `PlayRecord.PlayOverWriter` | rust/src/channel/actor.rs:682-703 | two commands on a fresh channel, create a write stream and play, leave both outbound sources on |
| `PlayRecord.CommandKeepsOneSourceIff` | rust/src/channel/actor.rs:682-887 | a command keeps at most one outbound source, unless it is play or playrecord while a writer is on, and then never |
| `PlayRecord.TicksKeepOneSource` | rust/src/channel/tick.rs:172-222 | local and mixed ticks keep it |
| `PlayRecord.OneSourceIff` | rust/src/channel/actor.rs:682-887 | over every run there is at most one source throughout, if and only if no prompt is asked for while, by the commands and drained writers so far, the writer is on |
| `Prompts.PromptIsOnIff` | rust/src/channel/tick.rs:136-276 | over every run of local and mixed ticks a prompt is still on if and only if no tick brought an interrupting digit, the end of its audio, or an average of the powers heard since, summed over its window, above the barge-in threshold; meanwhile barge-in has been given exactly those powers |
| `Prompts.PromptEndsBecause` | rust/src/channel/tick.rs:172-276 | the tick that ends it posts why: telephone-event before completed before interrupted |
| `Prompts.PromptStarts` | rust/src/channel/actor.rs:838-887 | play never has barge-in; playrecord has the one given exactly when it may be interrupted |
| `Prompts.TickReports` | rust/src/channel/tick.rs:136-222 | a tick reports each of its digits once, and a writer once when it has run dry |
| `Prompts.SourceIs` | rust/src/channel/actor.rs:682-887 | play, playrecord, a new writer and entering a mix: which events they post in which order, and what they leave on, queued and dropped |
| `Prompts.TickFrameIs` | rust/src/channel/tick.rs:311-357 | what a local tick gives every recording, from the channel before it: inbound or silence, and writer before prompt before echo before silence |
| `Prompts.StereoSamples` | rust/src/channel/tick.rs:432-449 | left is what came in and right what went out, sample by sample, with silence after the end of the shorter |
| `Prompts.MonoSamples` | rust/src/channel/tick.rs:432-449 | the sum of both, held within 16 bits |
| `Prompts.OpenTakes` | rust/src/channel/tick.rs:377-429 | an open recording takes the frame of its kind, all of it and once |
| `Prompts.MixTickRecords` | rust/src/channel/mixer.rs:647-700 | a recording in a mix is written the frame of every tick until it finishes |
| `Prompts.MixFrameIs` | rust/src/channel/mixer.rs:1001-1076 | sample by sample: self with the peer, cut or filled to its length, or with itself for want of a peer |
| `Prompts.FeedReports` | rust/src/channel/tick.rs:377-429 | exactly the gates a frame opened and the recordings it ended are reported |
| `Prompts.ActivationIs` | rust/src/channel/actor.rs:239-291 | mono or stereo, gated or not: the queued recorder comes last in the list with what was heard in its file, and only an open gate is reported; a file that does not open is reported in its place |
| `Prompts.RecordIs` | rust/src/channel/actor.rs:706-765 | record resumes the paused recording of its path, or ends what was recorded there and starts afresh, or reports that the file did not open; all others go on |
| `Prompts.FinishIs` | rust/src/channel/actor.rs:811-825 | record finish ends exactly the recording of that path, with what it holds |
| `Prompts.PauseIs` | rust/src/channel/actor.rs:827-836 | pause and resume change exactly the state of the recording of that path |
| `Prompts.ClosingIs` | rust/src/channel/actor.rs:456-528 | the exit path ends every recording with what it holds, and reports each |
| `Subsystems.ChannelSubsystems.ActivatePendingRecorder` | rust/src/channel/actor.rs:239-291 | file opened or not, pre-buffer flushed, a recorder at the same path replaced, events in order |
| `Subsystems.ChannelSubsystems.AccumulatePrebuffer` | rust/src/channel/tick.rs:279-297 | the pop and push loops of the pre-buffer |
| `Subsystems.ChannelSubsystems.WriteRecorderFrames` | rust/src/channel/tick.rs:377-429 | every recorder written once, finished ones removed while the loop runs, events in order |
| `Subsystems.BuildRecorderFrame` | rust/src/channel/tick.rs:432-449 | mono the clamped sum, stereo interleaved and padded |
| `Subsystems.ChannelSubsystems.Tick` | rust/src/channel/tick.rs:47-106 | the phases of the local tick in order; it keeps the invariant and at most one source |
| `Subsystems.ChannelSubsystems.TickInMix` | rust/src/channel/mixer.rs:510-700 | the phases of a member's tick, with its early end and its recorders fed after the mix; the same guarantees |
| `Subsystems.ChannelSubsystems.WriteMixFrames` | rust/src/channel/mixer.rs:1001-1076 | the mixer's own recorder loop, with the peer on the right and self alone without one |
| `Subsystems.ChannelSubsystems.HandleCommand` | rust/src/channel/actor.rs:682-887 | every valid command keeps the invariant, and at most one outbound source except for a prompt over a writer |
| `Subsystems.ChannelSubsystems.CloseDown` | rust/src/channel/actor.rs:456-528 | from any reachable state everything is ended in order: balanced, nothing on, unregistered, and the single Close last |
| `Framing.DeliversExactly` | lib/message.js:96-107 | for every list of messages with bodies of 1 to 32767 bytes and every cut of the stream into chunks, what has been delivered after each chunk is exactly the messages wholly contained in the bytes so far |
| `Framing.RoundTrip` | lib/message.js:115-122 | everything createmessage framed comes out, and the parser is ready for more |
| `Framing.ParsesWhole` | lib/message.js:60-85 | one chunk on top of any part of a stream |
| `Framing.EmptyBodyStalls` | lib/message.js:60-85 | an empty body is outside: the complete message after it is not delivered |
| `Framing.MessageState.TrimAndCallback` | lib/message.js:60-85 | a complete body delivered and parsing resumed |
| `Framing.MessageState.ParseMessage` | lib/message.js:96-107 | the whole call, including the chunk thrown away after a bad magic |
| `Framing.MessageBytes` | lib/message.js:115-122 | what createmessage writes, byte by byte, and that it refuses exactly bodies longer than 32767 |
| `Framing.ParseIs` | lib/message.js:37-51 | on any parser expecting a header: too little, a bad first byte, or a length read from bytes 3 and 4, below 0 from 32768 on |
| `Framing.ParseBodyIs` | lib/message.js:60-85 | on any parser expecting a body, with any length: not there yet, taken off and refused as JSON, or delivered with whatever follows; a negative length counts from the end |
| `Framing.BadMagicCostsTheNextChunk` | lib/message.js:96-107 | a bad first byte costs its header and the whole next chunk, and nothing else |
| `Stun.SignedIsAccepted` | rust/src/stun.rs:109-148 | for any list of other padded attributes closed by MESSAGE-INTEGRITY and FINGERPRINT the message is STUN, the walk accepts it and meets exactly those attributes (sections 15.4 and 15.5 of RFC 5389) |
| `Stun.ClosedMessage` | rust/src/stun.rs:109-148 | and such a message with any digest and any fingerprint is accepted if and only if both are right |
| `Stun.WalkAttributes` | rust/src/stun.rs:109-148 | the loop is the recursive walk, and leaves the bytes unchanged |
| `Stun.StunBytes` | rust/src/stun.rs:65-79 | what passes for STUN, in bytes: the first two bits, the length and the cookie |
| `Stun.NothingWalked` | rust/src/stun.rs:109-120 | without a key, or with a length past the packet's end, nothing is looked at and the packet is refused |
| `Stun.PaddingFills` | rust/src/stun.rs:140-146 | attributes start at multiples of four |
| `Stun.OutOfRangeIff` | rust/src/stun.rs:109-148 | on a packet that passes for STUN the walk reads past its end exactly when, everything before being accepted, it comes to an integrity attribute with less than 24 bytes left or a fingerprint with less than 8 |
| `Stun.LongEnoughIsInRange` | rust/src/stun.rs:87-107 | which integrity lengths of 20 and fingerprint lengths of 4 or more exclude, whatever the signatures |
| `Stun.ShortRequestIsOutOfRange` | rust/src/stun.rs:87-100 | a concrete packet of 24 bytes that passes for STUN and is read past its end, under every key |
| `Stun.VerifyIntegrity` | rust/src/stun.rs:87-100 | the length field is set for the digest and restored |
| `Stun.CreateBindingResponse` | rust/src/stun.rs:208-231 | the buffer holds exactly the Binding Response of the standard, and nothing past it changes |
| `Stun.ResponseIsAccepted` | rust/src/stun.rs:208-231 | every response built is STUN, passes the walk under the same key, and its XOR address decodes to the endpoint |
| `Stun.AddressSurvives` | rust/src/stun.rs:152-186 | XOR-MAPPED-ADDRESS decodes to the endpoint, for both address families (section 15.2 of RFC 5389) |
| `Stun.XorAddressBits` | rust/src/stun.rs:152-186 | the attribute's value bit by bit from the endpoint: the port turned over where 0x2112 has a bit, the address where the cookie and, for the longer, the transaction id have one (section 15.2 of RFC 5389) |
| `Stun.XorBit` | rust/src/stun.rs:152-186 | exclusive or, bit by bit: set in the result when set in exactly one |
| `Stun.XorSameIff` | rust/src/stun.rs:152-186 | it leaves a number as it was if and only if the other has no bit set in that width |
| `Stun.ResponseBytes` | rust/src/stun.rs:208-231 | the whole response byte by byte: kind, length, cookie, id, the masked address, the digest over what precedes it under the length up to it, and the checksum's bits turned over by 0x5354554E |
| `Stun.WriteXorMappedAddress` | rust/src/stun.rs:152-186 | the attribute's bytes |
| `Stun.AddMessageIntegrity` | rust/src/stun.rs:188-196 | digest over the message with the length it then has |
| `Stun.AddFingerprint` | rust/src/stun.rs:198-206 | checksum over everything before it |
| `Registry.CountersAgree` | rust/src/channel/facade.rs:44-74 | created is closed plus open plus what a shutdown drained, however often channels unregister; so the statistics agree if and only if no shutdown was called while a channel was open |
| `Registry.HandlesAreOpen` | rust/src/channel/facade.rs:49-62 | the registry holds exactly the channels that have registered and since then neither unregistered nor been shut down |
| `Registry.ChannelRegistry.UnregisterChannel` | rust/src/channel/facade.rs:49-62 | the handle goes and the closed counter moves only if it was there, so a second call changes nothing; the counters' balance is kept |
| `Registry.ChannelRegistry.ShutdownAllChannels` | rust/src/channel/facade.rs:35-42 | the registry is emptied, no counter moves, and every handle taken out whose queue has room is sent one Close command, in order |
| `Registry.ShutdownAsksEveryone` | rust/src/channel/facade.rs:35-42 | those sent a Close are exactly the open channels with room in their queue |
| `Registry.ShutdownLeavesCountersApart` | rust/src/channel/facade.rs:35-62 | open, shut down, unregister: created is 1, closed 0 and nothing open, for good |

## Left out

- Migration.EveryCommandOnceInOrder: the actor and mixer loops are steps of a state machine, not loops over real queues; a blocked sender is a step that is not enabled, and the effect of a command on the state is a number appended to a list.
- Migration.ReplyOk: the second, defensive removal with its 100 ms timeout is not modelled.
- Migration.ClosedOnceWithEverything: the unregistering that stands right before the Close is no step of its own there; `PlayRecord.ExitBalances` has it.
- Callers.CarefulCallersLoseNothing: the condition is sufficient; which careless calls happen to do no harm is not characterised beyond `Migration.StateIsLostIff`.
- Migration.MixerTickOk: the sweep that follows a mixer tick is a step of its own.
- Jitter.JitterBuffer.Push: the 64-bit counters do not wrap.
- Player.Player.Read: the wrap of 32-bit loop counters after 2^32 rounds; its `end_of_file`, which nothing reads, is computed but not specified.
- Tapes.MoreNeverGivesLessIff: what a list with a file cut short plays is given by `Tapes.Turn`, with no flat meaning of its own.
- Progress.EverythingArrives: what happens when no more calls come in; with calls coming in for ever, that each queue is served rests on the scheduler.
- Player.WavReader.SeekMs: header parsing, formats other than 16-bit PCM, and operating-system errors are not modelled.
- FirFilter.Lowpass.Execute: rounding of 32-bit floats; the model is over reals, with the truncating, saturating cast back.
- FirFilter.MaFilter.Execute: the history's samples are integers, which 32-bit floats hold exactly.
- Codec.CodecBundle.RequireWireAs: the G.711 tables are functions, and the G.722 and iLBC libraries are functions of what they remember; the two filters in the bundle are held as their input history, which `FirFilter.Lowpass` shows to be all their state.
- Mixing.Mixer.MixAllOutbound: packet headers, encryption, sending and the counters that go with them.
- Mixing.Mixer.RunInboundPhase: only the frames; draining, decoding and feeding the bundle belong to the other components.
- PlayRecord.ZeroGap: wideband channels, where 8 kHz pre-buffer samples go into a 16 kHz file, and recordings in mixes of three or more, where the inbound cache is overwritten before recorders are written (rust/src/channel/mixer.rs:309).
- PlayRecord.RunKeeps: Recording and Finished events are not paired, as a recorder replaced on activation at the same path gets no Finished event.
- Recorder.LimitsHold: how packet power is measured, its warm-up and the DC filter; the header's 32-bit sizes.
- Framing.ParsesWhole: a callback that throws or calls the parser again.
- Stun.WalkAttributes: a walk past the end is an outcome of its own, where the code panics; `handle` with its method and class decoding is left out.
- Stun.CreateBindingResponse: a response buffer between 20 bytes and the size of the response, where the code panics.
- Registry.CountersAgree: locks, and the wrap of 64-bit counters.
- Sockets, DTLS, SRTP, timers, idle timeouts, port allocation, tone generation, statistics and the JavaScript server and node wiring: plumbing, or only easy members.
- `audio_writer.rs` and `audio_reader.rs`: simple reframing; a retiring writer may drop a tail, so there is no whole-path property.
- Relaying of digits between members: only the last digit of a tick is relayed (rust/src/channel/mixer.rs:532-546), so completeness does not hold.
