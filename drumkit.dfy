/** The drum kit object: the scheduler state it updates in place, the notes
    it hands to the audio engine and the LED updates it makes. The audio
    engine is the append-only `notes`, the LED images are the append-only
    `leds`, and the audio clock is the `now` parameter. */
module Kit {
  import opened Instruments
  import opened Swing
  import opened Lookahead
  import opened Worker

  /** Lead between the clock reading at start and the sequence's time 0, in seconds. */
  const StartLatency: real := 0.005

  class DrumKit {
    /** Whether `init` has run: the audio context, the master gain and the
        convolver exist (the code creates all three together). */
    var context: bool
    var timerWorker: TimerWorker?
    var startTime: real
    var noteTime: real
    var lastDrawTime: real
    var rhythmIndex: Index
    /** The beat; the code aliases the default beat and never changes it. */
    const theBeat: Beat
    /** Every note handed to the audio engine, in order. */
    var notes: seq<NoteEvent>
    /** Every LED update, in order. */
    var leds: seq<LedUpdate>

    ghost predicate Valid()
      reads this, timerWorker
    {
      && WellFormed(theBeat)
      && (timerWorker != null ==> timerWorker.Valid())
    }

    /** The scheduler's cursor. */
    function Position(): Cursor
      reads this
    {
      Cursor(rhythmIndex, noteTime, lastDrawTime)
    }

    constructor ()
      ensures Valid() && theBeat == BeatReset
      ensures !context && timerWorker == null
      ensures startTime == 0.0 && noteTime == 0.0 && lastDrawTime == -1.0 && rhythmIndex == 0
      ensures notes == [] && leds == []
    {
      context := false;
      timerWorker := null;
      startTime := 0.0;
      noteTime := 0.0;
      lastDrawTime := -1.0;
      rhythmIndex := 0;
      theBeat := BeatReset;
      notes := [];
      leds := [];
      new;
      BeatResetWellFormed();
    }

    /** `init`: create the audio graph and a fresh, idle timer worker. */
    method Init()
      requires Valid()
      modifies this
      ensures Valid() && context && timerWorker != null && fresh(timerWorker) && !timerWorker.Armed()
      ensures Position() == old(Position()) && startTime == old(startTime)
      ensures notes == old(notes) && leds == old(leds)
    {
      context := true;
      var worker := new TimerWorker();
      worker.OnMessage(Message.Init);
      timerWorker := worker;
    }

    /** `playNote`: hand one note to the audio engine, if the graph exists. */
    method PlayNote(buffer: Instrument, pan: bool, x: real, y: real, z: real, sendGain: real,
                    mainGain: real, playbackRate: real, noteTime: real)
      modifies this`notes
      ensures notes == old(notes) + if context then [Note(buffer, pan, x, y, z, sendGain, mainGain, playbackRate, noteTime)] else []
    {
      if !context {
        return;
      }
      notes := notes + [Note(buffer, pan, x, y, z, sendGain, mainGain, playbackRate, noteTime)];
    }

    /** `drawPlayHead`: light LED `xIndex` and switch off the one before it. */
    method DrawPlayHead(xIndex: Index)
      modifies this`leds
      ensures leds == old(leds) + [PlayHead(xIndex, PreviousLed(xIndex))]
    {
      var lastIndex := if xIndex == 0 then 14 else xIndex - 1;
      leds := leds + [PlayHead(xIndex, lastIndex)];
    }

    /** `advanceNote`: move to the next step and add its swung duration. */
    method AdvanceNote()
      requires WellFormed(theBeat)
      modifies this`rhythmIndex, this`noteTime
      ensures Clock(rhythmIndex, noteTime) == Advance(theBeat, Clock(old(rhythmIndex), old(noteTime)))
    {
      var secondsPerBeat := 60.0 / theBeat.tempo;
      var next := rhythmIndex + 1;
      if next == LoopLength {
        next := 0;
      }
      rhythmIndex := next;
      if rhythmIndex % 2 != 0 {
        noteTime := noteTime + (0.25 + KMaxSwing * theBeat.swingFactor) * secondsPerBeat;
      } else {
        noteTime := noteTime + (0.25 - KMaxSwing * theBeat.swingFactor) * secondsPerBeat;
      }
    }

    /** One voice of a step: playNote, if the voice's level at the step is non-zero. */
    method PlayIfSounding(level: Level, buffer: Instrument, pan: bool, x: real, y: real, z: real,
                          sendGain: real, mainGain: real, playbackRate: real, noteTime: real)
      requires context
      modifies this`notes
      ensures notes == old(notes) + if level != 0 then [Note(buffer, pan, x, y, z, sendGain, mainGain, playbackRate, noteTime)] else []
    {
      if level != 0 {
        PlayNote(buffer, pan, x, y, z, sendGain, mainGain, playbackRate, noteTime);
      }
    }

    /** The notes of one lookahead iteration: each voice tested in turn,
        Kick to Tom3, all played at the step's device time. */
    method PlayStep()
      requires Valid() && context
      modifies this`notes
      ensures notes == old(notes) + StepNotes(theBeat, rhythmIndex, noteTime + startTime)
    {
      var b, i := theBeat, rhythmIndex;
      // Convert noteTime to context time.
      var contextPlayTime := noteTime + startTime;
      ghost var n0 := notes;
      PlayIfSounding(b.kick[i], Kick, false, 0.0, 0.0, -2.0, 0.5, Volumes[b.kick[i]], b.kickPitchVal, contextPlayTime);
      ghost var n1 := notes;
      PlayIfSounding(b.snare[i], Snare, false, 0.0, 0.0, -2.0, 1.0, Volumes[b.snare[i]] * 0.6, b.snarePitchVal, contextPlayTime);
      ghost var n2 := notes;
      PlayIfSounding(b.hihat[i], HiHat, true, 0.5 * i as real - 4.0, 0.0, -1.0, 1.0, Volumes[b.hihat[i]] * 0.7,
                     b.hihatPitchVal, contextPlayTime);
      ghost var n3 := notes;
      PlayIfSounding(b.tom1[i], Tom1, false, 0.0, 0.0, -2.0, 1.0, Volumes[b.tom1[i]] * 0.6, b.tom1PitchVal, contextPlayTime);
      ghost var n4 := notes;
      PlayIfSounding(b.tom2[i], Tom2, false, 0.0, 0.0, -2.0, 1.0, Volumes[b.tom2[i]] * 0.6, b.tom2PitchVal, contextPlayTime);
      ghost var n5 := notes;
      PlayIfSounding(b.tom3[i], Tom3, false, 0.0, 0.0, -2.0, 1.0, Volumes[b.tom3[i]] * 0.6, b.tom3PitchVal, contextPlayTime);
      StepAppends(b, i, contextPlayTime, [n0, n1, n2, n3, n4, n5, notes]);
    }

    /** One iteration of schedule's loop: play the step's notes, move the
        playhead if this note time has not been drawn yet, advance the step. */
    method ScheduleStep()
      requires Valid() && context
      modifies this`noteTime, this`lastDrawTime, this`rhythmIndex, this`notes, this`leds
      ensures var s := Step(theBeat, startTime, old(Position()));
              && Position() == s.cursor
              && notes == old(notes) + s.notes
              && leds == old(leds) + s.leds
    {
      PlayStep();

      // Keep the LEDs in step with what is audible.
      if noteTime != lastDrawTime {
        lastDrawTime := noteTime;
        DrawPlayHead((rhythmIndex + 15) % 16);
      }

      AdvanceNote();
    }

    /** `schedule`: with the audio clock at `now`, play every step whose note
        time is less than 0.120 s ahead of the sequence-relative clock. */
    method Schedule(now: real)
      requires Valid()
      modifies this`noteTime, this`lastDrawTime, this`rhythmIndex, this`notes, this`leds
      ensures Valid()
      ensures !context ==> Position() == old(Position()) && notes == old(notes) && leds == old(leds)
      ensures context ==>
                var r := Run(theBeat, startTime, old(Position()), now - startTime + ScheduleAheadTime);
                && Position() == r.cursor
                && notes == old(notes) + r.notes
                && leds == old(leds) + r.leds
    {
      if !context {
        return;
      }
      var currentTime := now;
      currentTime := currentTime - startTime;
      ghost var limit := currentTime + ScheduleAheadTime;
      ghost var total := Run(theBeat, startTime, Position(), limit);
      ghost var doneNotes: seq<NoteEvent> := [];
      ghost var doneLeds: seq<LedUpdate> := [];
      while noteTime < currentTime + ScheduleAheadTime
        invariant notes == old(notes) + doneNotes && leds == old(leds) + doneLeds
        invariant var rest := Run(theBeat, startTime, Position(), limit);
                  total == Output(rest.cursor, doneNotes + rest.notes, doneLeds + rest.leds)
        decreases StepsLeft(theBeat, noteTime, limit)
      {
        ghost var c := Position();
        ScheduleStep();
        ghost var s := Step(theBeat, startTime, c);
        ScheduleIteration(theBeat, startTime, c, limit, total, doneNotes, doneLeds);
        AppendRegroup(old(notes), doneNotes, s.notes);
        AppendRegroup(old(leds), doneLeds, s.leds);
        doneNotes := doneNotes + s.notes;
        doneLeds := doneLeds + s.leds;
      }
      assert doneNotes + [] == doneNotes && doneLeds + [] == doneLeds;
    }

    /** `start`: time 0 of the sequence is 5 ms after `now`; schedule the
        first steps at once and arm the timer worker. The step is not reset. */
    method Start(now: real)
      requires Valid()
      modifies this, timerWorker
      ensures Valid() && timerWorker == old(timerWorker) && context == old(context)
      ensures !context || timerWorker == null ==>
                Position() == old(Position()) && startTime == old(startTime) &&
                notes == old(notes) && leds == old(leds)
      ensures context && timerWorker != null ==>
                var r := Run(theBeat, now + StartLatency, Cursor(old(rhythmIndex), 0.0, old(lastDrawTime)), 0.115);
                && startTime == now + StartLatency
                && Position() == r.cursor
                && notes == old(notes) + r.notes
                && leds == old(leds) + r.leds
                && timerWorker.Armed()
    {
      if !context || timerWorker == null {
        return;
      }
      noteTime := 0.0;
      startTime := now + StartLatency;
      assert now - startTime + ScheduleAheadTime == 0.115;
      Schedule(now);
      timerWorker.OnMessage(Message.Start);
    }

    /** `stop`: disarm the timer worker, switch off the LED of the last
        playhead and go back to step 0. The note time is kept. */
    method Stop()
      requires Valid()
      modifies this, timerWorker
      ensures Valid() && timerWorker == old(timerWorker) && context == old(context)
      ensures timerWorker == null ==> Position() == old(Position()) && leds == old(leds)
      ensures timerWorker != null ==>
                && !timerWorker.Armed()
                && rhythmIndex == 0
                && noteTime == old(noteTime) && lastDrawTime == old(lastDrawTime)
                && leds == old(leds) + [LedOff((old(rhythmIndex) + 14) % 16)]
      ensures startTime == old(startTime) && notes == old(notes)
    {
      if timerWorker == null {
        return;
      }
      timerWorker.OnMessage(Message.Stop);
      leds := leds + [LedOff((rhythmIndex + 14) % 16)];
      rhythmIndex := 0;
    }

    /** `playDrumNote`: a pad hit, played at once at accent volume. */
    method PlayDrumNote(instrument: Instrument)
      requires Valid()
      modifies this`notes
      ensures notes == old(notes) + if context then [DrumNote(theBeat, instrument, rhythmIndex)] else []
    {
      match instrument
      case Kick =>
        PlayNote(instrument, false, 0.0, 0.0, -2.0, 0.5, Volumes[2], theBeat.kickPitchVal, 0.0);
      case Snare =>
        PlayNote(instrument, false, 0.0, 0.0, -2.0, theBeat.effectMix, Volumes[2] * 0.6, theBeat.snarePitchVal, 0.0);
      case HiHat =>
        PlayNote(instrument, true, 0.5 * rhythmIndex as real - 4.0, 0.0, -1.0, theBeat.effectMix, Volumes[2] * 0.7,
                 theBeat.hihatPitchVal, 0.0);
      case Tom1 =>
        PlayNote(instrument, false, 0.0, 0.0, -2.0, theBeat.effectMix, Volumes[2] * 0.6, theBeat.tom1PitchVal, 0.0);
      case Tom2 =>
        PlayNote(instrument, false, 0.0, 0.0, -2.0, theBeat.effectMix, Volumes[2] * 0.6, theBeat.tom2PitchVal, 0.0);
      case Tom3 =>
        PlayNote(instrument, false, 0.0, 0.0, -2.0, theBeat.effectMix, Volumes[2] * 0.6, theBeat.tom3PitchVal, 0.0);
    }
  }

  /** The successive note lists of one step, `ns[k]` before and `ns[k + 1]`
      after voice `AllInstruments[k]` is tested with the arguments schedule
      passes to playNote, end with the step's notes appended. */
  lemma StepAppends(b: Beat, i: Index, t: real, ns: seq<seq<NoteEvent>>)
    requires WellFormed(b) && |ns| == 7
    requires ns[1] == ns[0] + (if b.kick[i] != 0
        then [Note(Kick, false, 0.0, 0.0, -2.0, 0.5, Volumes[b.kick[i]], b.kickPitchVal, t)] else [])
    requires ns[2] == ns[1] + (if b.snare[i] != 0
        then [Note(Snare, false, 0.0, 0.0, -2.0, 1.0, Volumes[b.snare[i]] * 0.6, b.snarePitchVal, t)] else [])
    requires ns[3] == ns[2] + (if b.hihat[i] != 0
        then [Note(HiHat, true, 0.5 * i as real - 4.0, 0.0, -1.0, 1.0, Volumes[b.hihat[i]] * 0.7, b.hihatPitchVal, t)] else [])
    requires ns[4] == ns[3] + (if b.tom1[i] != 0
        then [Note(Tom1, false, 0.0, 0.0, -2.0, 1.0, Volumes[b.tom1[i]] * 0.6, b.tom1PitchVal, t)] else [])
    requires ns[5] == ns[4] + (if b.tom2[i] != 0
        then [Note(Tom2, false, 0.0, 0.0, -2.0, 1.0, Volumes[b.tom2[i]] * 0.6, b.tom2PitchVal, t)] else [])
    requires ns[6] == ns[5] + (if b.tom3[i] != 0
        then [Note(Tom3, false, 0.0, 0.0, -2.0, 1.0, Volumes[b.tom3[i]] * 0.6, b.tom3PitchVal, t)] else [])
    ensures ns[6] == ns[0] + StepNotes(b, i, t)
  {
    StepNotesUnrolled(b, i, t);
    assert ns[1] == ns[0] + NoteIf(b, Kick, i, t);
    assert ns[2] == ns[1] + NoteIf(b, Snare, i, t);
    assert ns[3] == ns[2] + NoteIf(b, HiHat, i, t);
    assert ns[4] == ns[3] + NoteIf(b, Tom1, i, t);
    assert ns[5] == ns[4] + NoteIf(b, Tom2, i, t);
    assert ns[6] == ns[5] + NoteIf(b, Tom3, i, t);
    AppendSix(ns[0], NoteIf(b, Kick, i, t), NoteIf(b, Snare, i, t), NoteIf(b, HiHat, i, t),
              NoteIf(b, Tom1, i, t), NoteIf(b, Tom2, i, t), NoteIf(b, Tom3, i, t));
  }

  /** One iteration of schedule's loop from a cursor below the horizon does
      what the first step of `Run` does: what remains of the pass after it,
      preceded by what has been done, is the whole pass, and fewer
      iterations are left. */
  lemma ScheduleIteration(b: Beat, startTime: real, c: Cursor, limit: real, total: Output,
                          doneNotes: seq<NoteEvent>, doneLeds: seq<LedUpdate>)
    requires WellFormed(b) && c.noteTime < limit
    requires total == Output(Run(b, startTime, c, limit).cursor,
                             doneNotes + Run(b, startTime, c, limit).notes,
                             doneLeds + Run(b, startTime, c, limit).leds)
    ensures var s := Step(b, startTime, c);
            var rest := Run(b, startTime, s.cursor, limit);
            total == Output(rest.cursor, doneNotes + s.notes + rest.notes, doneLeds + s.leds + rest.leds)
    ensures 0 <= StepsLeft(b, c.noteTime, limit)
    ensures StepsLeft(b, Step(b, startTime, c).cursor.noteTime, limit) < StepsLeft(b, c.noteTime, limit)
  {
    var s := Step(b, startTime, c);
    StepsLeftDecreases(b, c.noteTime, s.cursor.noteTime, limit);
    var rest := Run(b, startTime, s.cursor, limit);
    assert Run(b, startTime, c, limit) == Output(rest.cursor, s.notes + rest.notes, s.leds + rest.leds);
    AppendRegroup(doneNotes, s.notes, rest.notes);
    AppendRegroup(doneLeds, s.leds, rest.leds);
  }

  lemma AppendRegroup<T>(a: seq<T>, b: seq<T>, c: seq<T>)
    ensures a + b + c == a + (b + c)
  {
  }

  lemma AppendSix<T>(s0: seq<T>, a: seq<T>, b: seq<T>, c: seq<T>, d: seq<T>, e: seq<T>, f: seq<T>)
    ensures s0 + (a + b + c + d + e + f) == s0 + a + b + c + d + e + f
  {
  }
}
