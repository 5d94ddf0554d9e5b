/** The step clock: how advanceNote moves the 16-step cursor and how far it
    moves the note time, with swing applied by the parity of the new step. */
module Swing {
  import opened Instruments

  /** A step of the loop. */
  type Index = i: int | 0 <= i < 16

  /** The largest swing offset, in beats. */
  const KMaxSwing: real := 0.08

  /** Where the cursor stands: the step and the note time in seconds since the sequence start. */
  datatype Clock = Clock(rhythmIndex: Index, noteTime: real)

  function SecondsPerBeat(b: Beat): (spb: real)
    requires WellFormed(b)
    ensures spb > 0.0
  {
    60.0 / b.tempo
  }

  /** The step after `i`: one further, back to 0 on reaching the loop length. */
  function NextIndex(i: Index): (j: Index)
    ensures j == (i + 1) % LoopLength
    ensures j == 0 <==> i == LoopLength - 1
  {
    if i + 1 == LoopLength then 0 else i + 1
  }

  /** The shortest step a beat can take: an early (even) sixteenth. */
  function MinDelta(b: Beat): (d: real)
    requires WellFormed(b)
    ensures d >= 0.17 * SecondsPerBeat(b) && d > 0.0
  {
    var spb := SecondsPerBeat(b);
    assert 0.25 - KMaxSwing * b.swingFactor >= 0.17;
    (0.25 - KMaxSwing * b.swingFactor) * spb
  }

  /** The time from the current step to step `next`: a sixteenth note, made
      longer when `next` is odd and shorter when it is even. */
  function SwingDelta(b: Beat, next: Index): (d: real)
    requires WellFormed(b)
    ensures d >= MinDelta(b) > 0.0
  {
    var spb := SecondsPerBeat(b);
    var s := KMaxSwing * b.swingFactor;
    assert (0.25 + s) * spb == (0.25 - s) * spb + 2.0 * s * spb;
    assert s * spb >= 0.0 by { NonNegativeProduct(s, spb); }
    if next % 2 != 0 then (0.25 + KMaxSwing * b.swingFactor) * spb
    else (0.25 - KMaxSwing * b.swingFactor) * spb
  }

  lemma NonNegativeProduct(x: real, y: real)
    requires x >= 0.0 && y >= 0.0
    ensures x * y >= 0.0
  {
  }

  /** One advanceNote: move to the next step and add its swung duration. */
  function Advance(b: Beat, c: Clock): (r: Clock)
    requires WellFormed(b)
    ensures r.noteTime > c.noteTime
    ensures r.rhythmIndex == (c.rhythmIndex + 1) % LoopLength
  {
    var next := NextIndex(c.rhythmIndex);
    Clock(next, c.noteTime + SwingDelta(b, next))
  }

  /** `n` consecutive advanceNote calls. */
  function AdvanceN(b: Beat, c: Clock, n: nat): Clock
    requires WellFormed(b)
    decreases n
  {
    if n == 0 then c else AdvanceN(b, Advance(b, c), n - 1)
  }

  /** Swing delays odd steps and hastens even ones around a straight
      sixteenth, and leaves the timing straight exactly when the swing factor is 0. */
  lemma SwingBounds(b: Beat, next: Index)
    requires WellFormed(b)
    ensures var base := 0.25 * SecondsPerBeat(b);
            && (next % 2 == 1 ==> SwingDelta(b, next) >= base)
            && (next % 2 == 0 ==> SwingDelta(b, next) <= base)
            && (SwingDelta(b, next) == base <==> b.swingFactor == 0.0)
  {
    var spb := SecondsPerBeat(b);
    var off := KMaxSwing * b.swingFactor * spb;
    assert off >= 0.0;
    assert b.swingFactor != 0.0 ==> off > 0.0;
    assert next % 2 == 1 ==> SwingDelta(b, next) == 0.25 * spb + off;
    assert next % 2 == 0 ==> SwingDelta(b, next) == 0.25 * spb - off;
  }

  /** An odd step and an even step together last exactly one eighth note. */
  lemma {:induction false} TwoSteps(b: Beat, c: Clock)
    requires WellFormed(b)
    ensures AdvanceN(b, c, 2) == Clock((c.rhythmIndex + 2) % LoopLength, c.noteTime + 0.5 * SecondsPerBeat(b))
  {
    var spb := SecondsPerBeat(b);
    var c1 := Advance(b, c);
    var c2 := Advance(b, c1);
    assert AdvanceN(b, c, 2) == AdvanceN(b, c1, 1) == AdvanceN(b, c2, 0) == c2;
    var s := KMaxSwing * b.swingFactor;
    var up := (0.25 + s) * spb;
    var down := (0.25 - s) * spb;
    assert up + down == 0.5 * spb;
    if c1.rhythmIndex % 2 != 0 {
      assert c2.rhythmIndex % 2 == 0;
      assert c2.noteTime == c.noteTime + up + down;
    } else {
      assert c2.rhythmIndex % 2 != 0;
      assert c2.noteTime == c.noteTime + down + up;
    }
  }

  /** `n` advances move the cursor `n` steps round the loop. */
  lemma {:induction false} AdvanceNIndex(b: Beat, c: Clock, n: nat)
    requires WellFormed(b)
    ensures AdvanceN(b, c, n).rhythmIndex == (c.rhythmIndex + n) % LoopLength
    decreases n
  {
    if n > 0 {
      var c1 := Advance(b, c);
      AdvanceNIndex(b, c1, n - 1);
      assert ((c.rhythmIndex + 1) % LoopLength + (n - 1)) % LoopLength == (c.rhythmIndex + n) % LoopLength;
    }
  }

  /** `2k` steps move the time by `k` eighth notes. */
  lemma {:induction false} EvenSteps(b: Beat, c: Clock, k: nat)
    requires WellFormed(b)
    ensures AdvanceN(b, c, 2 * k).noteTime == c.noteTime + k as real * (0.5 * SecondsPerBeat(b))
    decreases k
  {
    if k > 0 {
      var e := 0.5 * SecondsPerBeat(b);
      var c1 := Advance(b, c);
      var c2 := Advance(b, c1);
      assert AdvanceN(b, c, 2 * k) == AdvanceN(b, c1, 2 * k - 1);
      assert AdvanceN(b, c1, 2 * k - 1) == AdvanceN(b, c2, 2 * (k - 1));
      assert AdvanceN(b, c, 2) == c2 by {
        assert AdvanceN(b, c, 2) == AdvanceN(b, c1, 1);
        assert AdvanceN(b, c1, 1) == AdvanceN(b, c2, 0);
      }
      TwoSteps(b, c);
      EvenSteps(b, c2, k - 1);
      var r := AdvanceN(b, c2, 2 * (k - 1));
      assert c2.noteTime == c.noteTime + e;
      StepSum(k, e, c.noteTime, c2.noteTime, r.noteTime);
    }
  }

  lemma StepSum(k: nat, e: real, t0: real, t1: real, t: real)
    requires k > 0 && t1 == t0 + e && t == t1 + (k - 1) as real * e
    ensures t == t0 + k as real * e
  {
  }

  /** Any number `k` of full loops returns the cursor to its starting step
      and lasts exactly k * 16 * 0.25 * 60 / tempo seconds, whatever the swing. */
  lemma FullLoops(b: Beat, c: Clock, k: nat)
    requires WellFormed(b)
    ensures AdvanceN(b, c, LoopLength * k).rhythmIndex == c.rhythmIndex
    ensures AdvanceN(b, c, LoopLength * k).noteTime == c.noteTime + k as real * (16.0 * 0.25 * SecondsPerBeat(b))
  {
    var h := 8 * k;
    assert LoopLength * k == 2 * h;
    EvenSteps(b, c, h);
    EighthsPerLoop(k, SecondsPerBeat(b));
    AdvanceNIndex(b, c, LoopLength * k);
    WholeLoopsIndex(c.rhythmIndex, k);
  }

  lemma EighthsPerLoop(k: nat, spb: real)
    ensures (8 * k) as real * (0.5 * spb) == k as real * (16.0 * 0.25 * spb)
  {
  }

  lemma WholeLoopsIndex(i: Index, k: nat)
    ensures (i + LoopLength * k) % LoopLength == i
  {
  }
}
