/** What one lookahead scheduling pass computes: starting from the cursor,
    it plays every step whose note time falls before the horizon, emits the
    playhead at most once per note time, and advances the cursor. The drum
    kit's imperative loop is proved to compute exactly this. */
module Lookahead {
  import opened Instruments
  import opened Swing

  /** How far past the current time a pass schedules, in seconds. */
  const ScheduleAheadTime: real := 0.120

  /** An LED change: a playhead update lights `lit` and switches `dimmed`
      off; `LedOff` is the single switch-off done when the kit stops. */
  datatype LedUpdate = PlayHead(lit: Index, dimmed: Index) | LedOff(index: Index)

  /** The LED a playhead update switches off: the one before `x`, except
      that for step 0 it is 14, so the LED of step 15 is never switched off here. */
  function PreviousLed(x: Index): (p: Index)
    ensures p != 15
    ensures x != 0 ==> p == (x + 15) % 16
  {
    if x == 0 then 14 else x - 1
  }

  /** The scheduler's cursor: the step, its note time and the note time of
      the last playhead update. */
  datatype Cursor = Cursor(rhythmIndex: Index, noteTime: real, lastDrawTime: real)

  /** The result of scheduling: the new cursor, the notes played and the LED updates, in order. */
  datatype Output = Output(cursor: Cursor, notes: seq<NoteEvent>, leds: seq<LedUpdate>)

  /** The playhead update for the step that is audible while `rhythmIndex` is scheduled. */
  function PlayHeadFor(rhythmIndex: Index): LedUpdate {
    var x := (rhythmIndex + 15) % 16;
    PlayHead(x, PreviousLed(x))
  }

  /** One iteration of the lookahead loop: the step's notes at device time
      `noteTime + startTime`, the playhead if the note time is new, then advanceNote. */
  function Step(b: Beat, startTime: real, c: Cursor): (r: Output)
    requires WellFormed(b)
    ensures r.cursor.noteTime > c.noteTime
    ensures r.cursor.noteTime - c.noteTime >= MinDelta(b)
  {
    var drawn := c.noteTime != c.lastDrawTime;
    var next := Advance(b, Clock(c.rhythmIndex, c.noteTime));
    Output(Cursor(next.rhythmIndex, next.noteTime, if drawn then c.noteTime else c.lastDrawTime),
           StepNotes(b, c.rhythmIndex, c.noteTime + startTime),
           if drawn then [PlayHeadFor(c.rhythmIndex)] else [])
  }

  /** An upper bound on the iterations left before the note time reaches `limit`. */
  function StepsLeft(b: Beat, noteTime: real, limit: real): int
    requires WellFormed(b)
  {
    ((limit - noteTime) / MinDelta(b)).Floor
  }

  /** Each step that starts before the horizon uses up at least one of the steps left. */
  lemma StepsLeftDecreases(b: Beat, t: real, t': real, limit: real)
    requires WellFormed(b) && t < limit && t' - t >= MinDelta(b)
    ensures 0 <= StepsLeft(b, t, limit)
    ensures StepsLeft(b, t', limit) < StepsLeft(b, t, limit)
  {
    var m := MinDelta(b);
    var x := (limit - t) / m;
    var x' := (limit - t') / m;
    assert x >= 0.0 by { assert x * m == limit - t; }
    assert x' <= x - 1.0 by {
      assert x' * m == limit - t';
      assert (x - 1.0) * m == limit - t - m;
      assert (x - 1.0 - x') * m == (x - 1.0) * m - x' * m;
      PositiveFactor(x - 1.0 - x', m);
    }
  }

  lemma PositiveFactor(y: real, m: real)
    requires m > 0.0 && y * m >= 0.0
    ensures y >= 0.0
  {
  }

  /** A whole scheduling pass with horizon `limit` (relative to the sequence start). */
  function Run(b: Beat, startTime: real, c: Cursor, limit: real): (r: Output)
    requires WellFormed(b)
    ensures r.cursor.noteTime >= limit && r.cursor.noteTime >= c.noteTime
    ensures c.noteTime >= limit ==> r == Output(c, [], [])
    decreases StepsLeft(b, c.noteTime, limit)
  {
    if c.noteTime < limit then
      var s := Step(b, startTime, c);
      StepsLeftDecreases(b, c.noteTime, s.cursor.noteTime, limit);
      var rest := Run(b, startTime, s.cursor, limit);
      Output(rest.cursor, s.notes + rest.notes, s.leds + rest.leds)
    else
      Output(c, [], [])
  }

  /** Notes that all start in [lo, hi). */
  predicate NotesWithin(ns: seq<NoteEvent>, lo: real, hi: real) {
    forall n :: n in ns ==> lo <= n.startTime < hi
  }

  /** Notes listed in order of their start times. */
  predicate TimeOrdered(ns: seq<NoteEvent>) {
    forall i, j :: 0 <= i < j < |ns| ==> ns[i].startTime <= ns[j].startTime
  }

  /** A pass plays only notes whose device time lies in the window from the
      cursor's note time up to (not including) the horizon, in time order. */
  lemma {:induction false} RunNotesInWindow(b: Beat, startTime: real, c: Cursor, limit: real)
    requires WellFormed(b)
    ensures NotesWithin(Run(b, startTime, c, limit).notes, c.noteTime + startTime, limit + startTime)
    ensures TimeOrdered(Run(b, startTime, c, limit).notes)
    decreases StepsLeft(b, c.noteTime, limit)
  {
    if c.noteTime < limit {
      var s := Step(b, startTime, c);
      StepsLeftDecreases(b, c.noteTime, s.cursor.noteTime, limit);
      RunNotesInWindow(b, startTime, s.cursor, limit);
      StepNotesTimes(b, c.rhythmIndex, c.noteTime + startTime);
      var rest := Run(b, startTime, s.cursor, limit).notes;
      var ns := Run(b, startTime, c, limit).notes;
      assert ns == s.notes + rest;
      forall i, j | 0 <= i < j < |ns| ensures ns[i].startTime <= ns[j].startTime {
        if j < |s.notes| {
          assert ns[i] in s.notes && ns[j] in s.notes;
        } else if i < |s.notes| {
          assert ns[i] in s.notes && ns[j] == rest[j - |s.notes|];
          assert ns[j] in rest;
        } else {
          assert ns[i] == rest[i - |s.notes|] && ns[j] == rest[j - |s.notes|];
        }
      }
    }
  }

  /** LED updates that are all playhead updates, each switching off the LED
      `PreviousLed` names for the one it lights. */
  predicate PlayHeadsOnly(ls: seq<LedUpdate>) {
    forall k :: 0 <= k < |ls| ==> ls[k].PlayHead? && ls[k].dimmed == PreviousLed(ls[k].lit)
  }

  /** Every LED update of a pass is a playhead update that switches off the
      LED `PreviousLed` names. */
  lemma {:induction false} RunLedsArePlayHeads(b: Beat, startTime: real, c: Cursor, limit: real)
    requires WellFormed(b)
    ensures PlayHeadsOnly(Run(b, startTime, c, limit).leds)
    decreases StepsLeft(b, c.noteTime, limit)
  {
    if c.noteTime < limit {
      var s := Step(b, startTime, c);
      StepsLeftDecreases(b, c.noteTime, s.cursor.noteTime, limit);
      RunLedsArePlayHeads(b, startTime, s.cursor, limit);
      var rest := Run(b, startTime, s.cursor, limit).leds;
      var ls := Run(b, startTime, c, limit).leds;
      assert ls == s.leds + rest;
      forall k | 0 <= k < |ls| ensures ls[k].PlayHead? && ls[k].dimmed == PreviousLed(ls[k].lit) {
        if k >= |s.leds| {
          assert ls[k] == rest[k - |s.leds|];
        } else {
          assert ls[k] == s.leds[k] == PlayHeadFor(c.rhythmIndex);
        }
      }
    }
  }

  /** Every note of a step starts at the step's device time. */
  lemma StepNotesTimes(b: Beat, rhythmIndex: Index, time: real)
    requires WellFormed(b)
    ensures forall n :: n in StepNotes(b, rhythmIndex, time) ==> n.startTime == time
  {
    forall v: Instrument {
      StepNotesSpec(b, rhythmIndex, time, v);
    }
  }

  /** A pass whose first note time is new starts with the playhead of its first step. */
  lemma PlayHeadFirst(b: Beat, startTime: real, c: Cursor, limit: real)
    requires WellFormed(b)
    requires c.noteTime < limit && c.noteTime != c.lastDrawTime
    ensures var r := Run(b, startTime, c, limit);
            |r.leds| > 0 && r.leds[0].PlayHead? && r.leds[0].lit == (c.rhythmIndex + 15) % 16
  {
    var s := Step(b, startTime, c);
    assert Run(b, startTime, c, limit).leds == s.leds + Run(b, startTime, s.cursor, limit).leds;
  }

  /** The last playhead of a pass lit the LED two steps behind the new
      cursor, which is the LED that stopping the kit switches off. */
  lemma {:induction false} PlayHeadLast(b: Beat, startTime: real, c: Cursor, limit: real)
    requires WellFormed(b)
    ensures var r := Run(b, startTime, c, limit);
            |r.leds| > 0 ==> && r.leds[|r.leds| - 1].PlayHead?
                             && r.leds[|r.leds| - 1].lit == (r.cursor.rhythmIndex + 14) % 16
    decreases StepsLeft(b, c.noteTime, limit)
  {
    if c.noteTime < limit {
      var s := Step(b, startTime, c);
      StepsLeftDecreases(b, c.noteTime, s.cursor.noteTime, limit);
      PlayHeadLast(b, startTime, s.cursor, limit);
      var rest := Run(b, startTime, s.cursor, limit);
      assert Run(b, startTime, c, limit) == Output(rest.cursor, s.notes + rest.notes, s.leds + rest.leds);
      if |rest.leds| == 0 && |s.leds| > 0 {
        assert s.cursor.noteTime >= limit by {
          if s.cursor.noteTime < limit {
            PlayHeadFirst(b, startTime, s.cursor, limit);
          }
        }
        assert rest.cursor == s.cursor;
        assert s.leds[0].lit == (c.rhythmIndex + 15) % 16;
      }
    }
  }

  /** Within a pass the playhead moves exactly one step round the loop per update. */
  lemma {:induction false} PlayHeadMovesByOne(b: Beat, startTime: real, c: Cursor, limit: real)
    requires WellFormed(b)
    ensures PlayHeadsOnly(Run(b, startTime, c, limit).leds) && Consecutive(Run(b, startTime, c, limit).leds)
    decreases StepsLeft(b, c.noteTime, limit)
  {
    RunLedsArePlayHeads(b, startTime, c, limit);
    if c.noteTime < limit {
      var s := Step(b, startTime, c);
      StepsLeftDecreases(b, c.noteTime, s.cursor.noteTime, limit);
      var rest := Run(b, startTime, s.cursor, limit);
      PlayHeadMovesByOne(b, startTime, s.cursor, limit);
      var leds := Run(b, startTime, c, limit).leds;
      assert leds == s.leds + rest.leds;
      if |s.leds| > 0 && |rest.leds| > 0 {
        assert leds[1].lit == (leds[0].lit + 1) % 16 by {
          assert s.cursor.noteTime < limit;
          PlayHeadFirst(b, startTime, s.cursor, limit);
          assert s.cursor.rhythmIndex == (c.rhythmIndex + 1) % 16;
          assert leds[1].lit == (s.cursor.rhythmIndex + 15) % 16;
          assert leds[0].lit == (c.rhythmIndex + 15) % 16;
          PlayHeadIndexStep(c.rhythmIndex);
        }
      }
      ConsecutiveAppend(s.leds, rest.leds);
    }
  }

  /** Playhead updates that each light the LED after the previous one. */
  ghost predicate Consecutive(leds: seq<LedUpdate>)
    requires forall k :: 0 <= k < |leds| ==> leds[k].PlayHead?
  {
    forall k :: 0 <= k < |leds| - 1 ==> leds[k + 1].lit == (leds[k].lit + 1) % 16
  }

  lemma ConsecutiveAppend(a: seq<LedUpdate>, b: seq<LedUpdate>)
    requires |a| <= 1
    requires forall k :: 0 <= k < |a| ==> a[k].PlayHead?
    requires forall k :: 0 <= k < |b| ==> b[k].PlayHead?
    requires Consecutive(b)
    requires |a| > 0 && |b| > 0 ==> b[0].lit == (a[0].lit + 1) % 16
    ensures forall k :: 0 <= k < |a + b| ==> (a + b)[k].PlayHead?
    ensures Consecutive(a + b)
  {
    var ab := a + b;
    forall k | 0 <= k < |ab| - 1 ensures ab[k + 1].lit == (ab[k].lit + 1) % 16 {
      if k >= |a| {
        assert ab[k] == b[k - |a|] && ab[k + 1] == b[k - |a| + 1];
      }
    }
  }

  lemma PlayHeadIndexStep(i: Index)
    ensures ((i + 1) % 16 + 15) % 16 == ((i + 15) % 16 + 1) % 16
  {
    if i == 15 {
      assert (i + 1) % 16 == 0;
    } else if i == 0 {
      assert (i + 15) % 16 == 15;
    } else {
      assert (i + 1) % 16 == i + 1 && (i + 15) % 16 == i - 1;
    }
  }

  /** A later pass never schedules a note at or before any note of an
      earlier pass: nothing is scheduled twice. */
  lemma PassesDoNotOverlap(b: Beat, startTime: real, c: Cursor, limit1: real, limit2: real)
    requires WellFormed(b)
    ensures var first := Run(b, startTime, c, limit1);
            var second := Run(b, startTime, first.cursor, limit2);
            forall m, n :: m in first.notes && n in second.notes ==> m.startTime < n.startTime
  {
    var first := Run(b, startTime, c, limit1);
    RunNotesInWindow(b, startTime, c, limit1);
    RunNotesInWindow(b, startTime, first.cursor, limit2);
  }

  /** A pass that starts at note time 0 with horizon 0.115 (the first pass
      after start) always plays the current step first. */
  lemma FirstPassPlaysCurrentStep(b: Beat, startTime: real, rhythmIndex: Index, lastDrawTime: real)
    requires WellFormed(b)
    ensures var ns := StepNotes(b, rhythmIndex, startTime);
            var r := Run(b, startTime, Cursor(rhythmIndex, 0.0, lastDrawTime), 0.115);
            |r.notes| >= |ns| && r.notes[..|ns|] == ns
  {
    var c := Cursor(rhythmIndex, 0.0, lastDrawTime);
    var s := Step(b, startTime, c);
    assert Run(b, startTime, c, 0.115).notes == s.notes + Run(b, startTime, s.cursor, 0.115).notes;
  }
}
