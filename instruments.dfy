/** The instruments of the kit, the beat (pattern and performance parameters)
    and the note records the drum kit hands to the audio engine.
    Times, gains and rates are exact reals: the model does not round. */
module Instruments {

  /** The six voices of the kit. */
  datatype Instrument = Kick | Snare | HiHat | Tom1 | Tom2 | Tom3

  /** The scheduler visits the voices in this order. */
  const AllInstruments: seq<Instrument> := [Kick, Snare, HiHat, Tom1, Tom2, Tom3]

  /** Position of a voice in the visiting order. */
  function Rank(i: Instrument): (k: nat)
    ensures k < |AllInstruments| && AllInstruments[k] == i
  {
    match i
    case Kick => 0
    case Snare => 1
    case HiHat => 2
    case Tom1 => 3
    case Tom2 => 4
    case Tom3 => 5
  }

  /** Number of steps in one loop of the pattern. */
  const LoopLength: int := 16

  /** A step level: 0 silent, 1 soft, 2 accented. */
  type Level = l: int | 0 <= l <= 2

  /** Volume of a step level. */
  const Volumes: seq<real> := [0.0, 0.3, 1.0]

  /** Dry-path multiplier applied to every note. */
  const EffectDryMix: real := 1.0

  /** The beat: one 16-step row per voice and the performance parameters. */
  datatype Beat = Beat(
    kitIndex: int,
    effectIndex: int,
    tempo: real,
    swingFactor: real,
    effectMix: real,
    kickPitchVal: real,
    snarePitchVal: real,
    hihatPitchVal: real,
    tom1PitchVal: real,
    tom2PitchVal: real,
    tom3PitchVal: real,
    kick: seq<Level>,
    snare: seq<Level>,
    hihat: seq<Level>,
    tom1: seq<Level>,
    tom2: seq<Level>,
    tom3: seq<Level>)
  {
    /** The step row of a voice. */
    function Row(i: Instrument): seq<Level> {
      match i
      case Kick => kick
      case Snare => snare
      case HiHat => hihat
      case Tom1 => tom1
      case Tom2 => tom2
      case Tom3 => tom3
    }

    /** The playback-rate multiplier of a voice. */
    function PitchVal(i: Instrument): real {
      match i
      case Kick => kickPitchVal
      case Snare => snarePitchVal
      case HiHat => hihatPitchVal
      case Tom1 => tom1PitchVal
      case Tom2 => tom2PitchVal
      case Tom3 => tom3PitchVal
    }
  }

  /** What the code silently relies on: a positive tempo, a swing factor in
      [0, 1] and rows of exactly one loop. Nothing in the code checks these. */
  predicate WellFormed(b: Beat) {
    && b.tempo > 0.0
    && 0.0 <= b.swingFactor <= 1.0
    && |b.kick| == LoopLength && |b.snare| == LoopLength && |b.hihat| == LoopLength
    && |b.tom1| == LoopLength && |b.tom2| == LoopLength && |b.tom3| == LoopLength
  }

  /** The beat the kit starts with and never changes. */
  const BeatReset: Beat := Beat(
    0, 0, 60.0, 0.5419847328244275, 0.25,
    0.5, 0.5, 0.5, 0.5, 0.5, 0.5,
    [2, 2, 0, 1, 2, 2, 0, 1, 2, 2, 0, 1, 2, 2, 0, 1],
    [0, 0, 2, 0, 0, 0, 2, 0, 0, 0, 2, 0, 0, 0, 2, 0],
    [2, 1, 1, 1, 2, 1, 1, 1, 2, 1, 1, 1, 2, 1, 1, 1],
    [0, 0, 0, 0, 0, 0, 0, 0, 0, 0, 0, 0, 0, 0, 0, 0],
    [0, 0, 1, 0, 0, 1, 0, 1, 0, 0, 1, 0, 0, 0, 1, 0],
    [1, 0, 0, 1, 0, 1, 0, 1, 1, 0, 0, 1, 1, 1, 1, 0])

  lemma BeatResetWellFormed()
    ensures WellFormed(BeatReset)
    ensures forall i :: BeatReset.PitchVal(i) == 0.5
  {
  }

  /** Whether a note goes through the 3-D panner, and where the panner sits. */
  datatype Panner = Unpanned | Panned(x: real, y: real, z: real)

  /** The sub-graph one playNote call builds: which sample buffer, the
      optional panner, the dry and wet gains, the playback rate and the
      device time at which the voice starts. */
  datatype NoteEvent = NoteEvent(
    buffer: Instrument,
    panner: Panner,
    dryGain: real,
    wetGain: real,
    playbackRate: real,
    startTime: real)

  /** The record playNote produces from its arguments: the position is used
      only when `pan` is set, and the dry gain is `mainGain` scaled by the
      dry mix. */
  function Note(buffer: Instrument, pan: bool, x: real, y: real, z: real, sendGain: real,
                mainGain: real, playbackRate: real, noteTime: real): NoteEvent
  {
    NoteEvent(buffer, if pan then Panned(x, y, z) else Unpanned,
              mainGain * EffectDryMix, sendGain, playbackRate, noteTime)
  }

  /** Per-voice scaling of the level volume. */
  function GainFactor(i: Instrument): real {
    match i
    case Kick => 1.0
    case HiHat => 0.7
    case _ => 0.6
  }

  /** Per-voice reverb send of scheduled notes. */
  function StepSend(i: Instrument): real {
    if i == Kick then 0.5 else 1.0
  }

  /** Only the hi-hat is panned; it sweeps left to right with the step. */
  function PannerAt(i: Instrument, rhythmIndex: int): Panner {
    if i == HiHat then Panned(0.5 * rhythmIndex as real - 4.0, 0.0, -1.0) else Unpanned
  }

  /** The note a pattern step produces for voice `i` at `level`, played at `time`. */
  function ScheduledNote(b: Beat, i: Instrument, level: Level, rhythmIndex: int, time: real): NoteEvent {
    NoteEvent(i, PannerAt(i, rhythmIndex), Volumes[level] * GainFactor(i) * EffectDryMix,
              StepSend(i), b.PitchVal(i), time)
  }

  /** The reverb send of a one-shot pad hit: the beat's effect mix, except the kick. */
  function DrumSend(b: Beat, i: Instrument): real {
    if i == Kick then 0.5 else b.effectMix
  }

  /** The note a one-shot pad hit produces: accented, played at once. */
  function DrumNote(b: Beat, i: Instrument, rhythmIndex: int): NoteEvent {
    NoteEvent(i, PannerAt(i, rhythmIndex), Volumes[2] * GainFactor(i) * EffectDryMix,
              DrumSend(b, i), b.PitchVal(i), 0.0)
  }

  /** A pad hit is an accented step note at time 0 whose send is the beat's
      effect mix (the kick's send stays 0.5). */
  lemma DrumNoteIsAccentedStep(b: Beat, i: Instrument, rhythmIndex: int)
    ensures DrumNote(b, i, rhythmIndex) == ScheduledNote(b, i, 2, rhythmIndex, 0.0).(wetGain := DrumSend(b, i))
    ensures i == Kick ==> DrumNote(b, i, rhythmIndex) == ScheduledNote(b, i, 2, rhythmIndex, 0.0)
    ensures DrumNote(b, i, rhythmIndex).dryGain == GainFactor(i)
  {
  }

  /** The hi-hat pan position stays in [-4, 3.5] and moves right by 0.5 per step. */
  lemma HiHatSweep(j: int, k: int)
    requires 0 <= j < k < LoopLength
    ensures PannerAt(HiHat, j).x < PannerAt(HiHat, k).x
    ensures -4.0 <= PannerAt(HiHat, j).x && PannerAt(HiHat, k).x <= 3.5
    ensures PannerAt(HiHat, k).x - PannerAt(HiHat, j).x == 0.5 * (k - j) as real
  {
  }

  /** The notes one step produces for `voices`, in that order: one per voice
      whose level at `rhythmIndex` is non-zero. */
  function NotesFor(b: Beat, rhythmIndex: int, time: real, voices: seq<Instrument>): seq<NoteEvent>
    requires WellFormed(b) && 0 <= rhythmIndex < LoopLength
  {
    if voices == [] then [] else NoteIf(b, voices[0], rhythmIndex, time) + NotesFor(b, rhythmIndex, time, voices[1..])
  }

  /** The note of voice `i` at a step, if its level is non-zero. */
  function NoteIf(b: Beat, i: Instrument, rhythmIndex: int, time: real): seq<NoteEvent>
    requires WellFormed(b) && 0 <= rhythmIndex < LoopLength
  {
    var level := b.Row(i)[rhythmIndex];
    if level != 0 then [ScheduledNote(b, i, level, rhythmIndex, time)] else []
  }

  /** The notes of one pattern step, every voice visited Kick to Tom3. */
  function StepNotes(b: Beat, rhythmIndex: int, time: real): seq<NoteEvent>
    requires WellFormed(b) && 0 <= rhythmIndex < LoopLength
  {
    NotesFor(b, rhythmIndex, time, AllInstruments)
  }

  /** A step tests the voices one after the other, Kick to Tom3. */
  lemma StepNotesUnrolled(b: Beat, rhythmIndex: int, time: real)
    requires WellFormed(b) && 0 <= rhythmIndex < LoopLength
    ensures StepNotes(b, rhythmIndex, time)
         == NoteIf(b, Kick, rhythmIndex, time) + NoteIf(b, Snare, rhythmIndex, time)
          + NoteIf(b, HiHat, rhythmIndex, time) + NoteIf(b, Tom1, rhythmIndex, time)
          + NoteIf(b, Tom2, rhythmIndex, time) + NoteIf(b, Tom3, rhythmIndex, time)
  {
    var vs := AllInstruments;
    assert vs[1..] == [Snare, HiHat, Tom1, Tom2, Tom3];
    assert vs[2..] == [HiHat, Tom1, Tom2, Tom3];
    assert vs[3..] == [Tom1, Tom2, Tom3];
    assert vs[4..] == [Tom2, Tom3];
    assert vs[5..] == [Tom3];
    assert vs[6..] == [];
    var r, t := rhythmIndex, time;
    var k, s, h, t1, t2, t3 := NoteIf(b, Kick, r, t), NoteIf(b, Snare, r, t), NoteIf(b, HiHat, r, t),
                               NoteIf(b, Tom1, r, t), NoteIf(b, Tom2, r, t), NoteIf(b, Tom3, r, t);
    assert NotesFor(b, r, t, vs[5..]) == t3 + NotesFor(b, r, t, vs[6..]) == t3;
    assert NotesFor(b, r, t, vs[4..]) == t2 + t3;
    assert NotesFor(b, r, t, vs[3..]) == t1 + (t2 + t3);
    assert NotesFor(b, r, t, vs[2..]) == h + (t1 + (t2 + t3));
    assert NotesFor(b, r, t, vs[1..]) == s + (h + (t1 + (t2 + t3)));
    assert NotesFor(b, r, t, vs) == k + (s + (h + (t1 + (t2 + t3))));
    AppendAssociative(k, s, h, t1, t2, t3);
  }

  /** Regrouping six concatenated sequences. */
  lemma AppendAssociative<T>(a: seq<T>, b: seq<T>, c: seq<T>, d: seq<T>, e: seq<T>, f: seq<T>)
    ensures a + (b + (c + (d + (e + f)))) == a + b + c + d + e + f
  {
  }

  /** Every note of a step is the table-driven note of its own voice, played at
      the step's time; and a voice sounds iff it is listed and its level is non-zero. */
  lemma {:induction false} NotesForExact(b: Beat, rhythmIndex: int, time: real, voices: seq<Instrument>, v: Instrument)
    requires WellFormed(b) && 0 <= rhythmIndex < LoopLength
    ensures forall n :: n in NotesFor(b, rhythmIndex, time, voices) ==>
              n.buffer in voices && n.startTime == time &&
              n == ScheduledNote(b, n.buffer, b.Row(n.buffer)[rhythmIndex], rhythmIndex, time)
    ensures (exists n :: n in NotesFor(b, rhythmIndex, time, voices) && n.buffer == v)
        <==> v in voices && b.Row(v)[rhythmIndex] != 0
  {
    if voices != [] {
      NotesForExact(b, rhythmIndex, time, voices[1..], v);
      var level := b.Row(voices[0])[rhythmIndex];
      if v == voices[0] && level != 0 {
        assert ScheduledNote(b, voices[0], level, rhythmIndex, time) in NotesFor(b, rhythmIndex, time, voices);
      }
      if v in voices[1..] && b.Row(v)[rhythmIndex] != 0 {
        var n :| n in NotesFor(b, rhythmIndex, time, voices[1..]) && n.buffer == v;
        assert n in NotesFor(b, rhythmIndex, time, voices);
      }
    }
  }

  /** Voices sound in visiting order, so no voice sounds twice in one step. */
  lemma {:induction false} NotesForOrdered(b: Beat, rhythmIndex: int, time: real, voices: seq<Instrument>)
    requires WellFormed(b) && 0 <= rhythmIndex < LoopLength
    requires forall p, q :: 0 <= p < q < |voices| ==> Rank(voices[p]) < Rank(voices[q])
    ensures var ns := NotesFor(b, rhythmIndex, time, voices);
            forall p, q :: 0 <= p < q < |ns| ==> Rank(ns[p].buffer) < Rank(ns[q].buffer)
  {
    if voices != [] {
      NotesForOrdered(b, rhythmIndex, time, voices[1..]);
      NotesForExact(b, rhythmIndex, time, voices[1..], voices[0]);
      var rest := NotesFor(b, rhythmIndex, time, voices[1..]);
      forall n | n in rest ensures Rank(voices[0]) < Rank(n.buffer) {
        var k :| 0 <= k < |voices[1..]| && voices[1..][k] == n.buffer;
        assert voices[k + 1] == n.buffer;
      }
    }
  }

  /** One step: a voice sounds iff its level is non-zero, each sounding voice
      once, Kick to Tom3, every note at the step's time with the table gains. */
  lemma StepNotesSpec(b: Beat, rhythmIndex: int, time: real, v: Instrument)
    requires WellFormed(b) && 0 <= rhythmIndex < LoopLength
    ensures var ns := StepNotes(b, rhythmIndex, time);
            && ((exists n :: n in ns && n.buffer == v) <==> b.Row(v)[rhythmIndex] != 0)
            && (forall p, q :: 0 <= p < q < |ns| ==> Rank(ns[p].buffer) < Rank(ns[q].buffer))
            && (forall n :: n in ns ==>
                  && n.startTime == time
                  && n == ScheduledNote(b, n.buffer, b.Row(n.buffer)[rhythmIndex], rhythmIndex, time))
  {
    NotesForExact(b, rhythmIndex, time, AllInstruments, v);
    assert forall p :: 0 <= p < |AllInstruments| ==> Rank(AllInstruments[p]) == p;
    assert forall p, q :: 0 <= p < q < |AllInstruments| ==> Rank(AllInstruments[p]) < Rank(AllInstruments[q]);
    NotesForOrdered(b, rhythmIndex, time, AllInstruments);
    assert StepNotes(b, rhythmIndex, time) == NotesFor(b, rhythmIndex, time, AllInstruments);
  }

  /** With the default beat, step 0 sounds the kick at full volume, and step 2 does not sound it. */
  lemma DefaultBeatScenario(time: real)
    ensures WellFormed(BeatReset)
    ensures StepNotes(BeatReset, 0, time)[0] == NoteEvent(Kick, Unpanned, 1.0, 0.5, 0.5, time)
    ensures forall n :: n in StepNotes(BeatReset, 2, time) ==> n.buffer != Kick
  {
    BeatResetWellFormed();
    StepNotesUnrolled(BeatReset, 0, time);
    StepNotesSpec(BeatReset, 2, time, Kick);
  }
}
