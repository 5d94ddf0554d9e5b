/** The intensity tracker: a rolling window of the last ten intensity
    readings and the largest of them, which scales the bars it draws.
    The bars themselves (DOM elements and their rounded heights) are not
    modelled; `wrapper` records only whether `init` has created the element. */
module Intensity {

  /** How many readings the window keeps. */
  const WindowSize: nat := 10

  /** The last `WindowSize` readings of `s`, or all of them when there are
      fewer: the result of slicing from index -10. */
  function Window(s: seq<real>): (w: seq<real>)
    ensures |w| <= WindowSize
    ensures |s| <= WindowSize ==> w == s
    ensures |s| > WindowSize ==> |w| == WindowSize
    ensures w == s[|s| - |w|..]
  {
    var start := if |s| > WindowSize then |s| - WindowSize else 0;
    s[start..]
  }

  predicate Sorted(s: seq<real>) {
    forall i, j :: 0 <= i < j < |s| ==> s[i] <= s[j]
  }

  /** `m` is one of the readings of `s` and none is larger. */
  predicate IsMaxOf(m: real, s: seq<real>) {
    m in s && forall y :: y in s ==> y <= m
  }

  /** Insert `x` into the ascending `s` before its first larger element. */
  function Insert(x: real, s: seq<real>): (r: seq<real>)
    requires Sorted(s)
    ensures Sorted(r)
    ensures multiset(r) == multiset(s) + multiset{x}
    ensures |r| == |s| + 1
  {
    if s == [] then [x]
    else if x <= s[0] then [x] + s
    else
      var rest := Insert(x, s[1..]);
      assert s == [s[0]] + s[1..];
      HeadBelowTail(s);
      assert forall e :: e in rest ==> s[0] <= e by {
        forall e | e in rest ensures s[0] <= e {
          assert e in multiset(rest);
        }
      }
      ConsSorted(s[0], rest);
      [s[0]] + rest
  }

  /** The head of an ascending sequence is no larger than anything after it. */
  lemma HeadBelowTail(s: seq<real>)
    requires Sorted(s) && s != []
    ensures forall e :: e in multiset(s[1..]) ==> s[0] <= e
  {
    forall e | e in multiset(s[1..]) ensures s[0] <= e {
      var k :| 0 <= k < |s[1..]| && s[1..][k] == e;
      assert s[k + 1] == e;
    }
  }

  /** Putting a lower bound in front of an ascending sequence keeps it ascending. */
  lemma ConsSorted(h: real, t: seq<real>)
    requires Sorted(t) && forall e :: e in t ==> h <= e
    ensures Sorted([h] + t)
  {
    var r := [h] + t;
    forall i, j | 0 <= i < j < |r| ensures r[i] <= r[j] {
      assert r[j] == t[j - 1];
      if i == 0 {
        assert t[j - 1] in t;
      } else {
        assert r[i] == t[i - 1];
      }
    }
  }

  /** The ascending copy the tracker sorts with the numeric comparator
      `(a, b) => a - b`. Readings are exact reals here, so the ascending
      permutation is unique and the sorting algorithm does not matter. */
  function SortAscending(s: seq<real>): (r: seq<real>)
    ensures Sorted(r)
    ensures multiset(r) == multiset(s)
    ensures |r| == |s|
  {
    if s == [] then []
    else
      assert s == [s[0]] + s[1..];
      Insert(s[0], SortAscending(s[1..]))
  }

  /** The last element of the sorted copy is the largest reading. */
  lemma LastIsMax(s: seq<real>)
    requires |s| > 0
    ensures var r := SortAscending(s); |r| == |s| && IsMaxOf(r[|r| - 1], s)
  {
    var r := SortAscending(s);
    var m := r[|r| - 1];
    assert m in multiset(r);
    forall y | y in s ensures y <= m {
      assert y in multiset(s);
      assert y in multiset(r);
      var k :| 0 <= k < |r| && r[k] == y;
    }
  }

  /** Appending a reading to any record list and taking the window keeps the
      last min(9, n) old readings, in their order, followed by the new one. */
  lemma {:induction false} WindowAppend(s: seq<real>, x: real)
    ensures var keep := if |s| < WindowSize then |s| else WindowSize - 1;
            Window(s + [x]) == s[|s| - keep..] + [x]
  {
    var keep := if |s| < WindowSize then |s| else WindowSize - 1;
    var t := s + [x];
    assert t[|t| - (keep + 1)..] == s[|s| - keep..] + [x];
  }

  /** Taking the window twice is taking it once, so drawing twice in a row
      changes nothing the second time. */
  lemma WindowIdempotent(s: seq<real>)
    ensures Window(Window(s)) == Window(s)
  {
  }

  class IntensityTracker {
    var records: seq<real>
    /** Whether `init` has created the wrapper element. */
    var wrapper: bool
    var max: real

    constructor ()
      ensures records == [] && !wrapper && max == 0.0
    {
      records, wrapper, max := [], false, 0.0;
    }

    /** `init`: create the wrapper element; the readings and the maximum are kept. */
    method Init()
      modifies this`wrapper
      ensures wrapper && records == old(records) && max == old(max)
    {
      wrapper := true;
    }

    /** `append`: record a reading, then redraw. */
    method Append(intensity: real)
      modifies this`records, this`max
      ensures records == if wrapper then Window(old(records) + [intensity]) else old(records) + [intensity]
      ensures |records| > 0 && records[|records| - 1] == intensity
      ensures var n := |old(records)|; var keep := if n < WindowSize then n else WindowSize - 1;
              wrapper ==> records == old(records)[n - keep..] + [intensity]
      ensures wrapper ==> IsMaxOf(max, records) && |records| <= WindowSize
      ensures !wrapper ==> max == old(max)
    {
      WindowAppend(records, intensity);
      records := records + [intensity];
      Draw();
    }

    /** `draw`: without a wrapper or without readings, do nothing; otherwise
        keep the last ten readings and set `max` to the largest of them. */
    method Draw()
      modifies this`records, this`max
      ensures !wrapper || old(records) == [] ==> records == old(records) && max == old(max)
      ensures wrapper && old(records) != [] ==> records == Window(old(records)) && IsMaxOf(max, records)
    {
      if !wrapper || |records| == 0 {
        return;
      }
      records := Window(records);
      var sorted := SortAscending(records);
      LastIsMax(records);
      max := sorted[|sorted| - 1];
    }
  }
}
