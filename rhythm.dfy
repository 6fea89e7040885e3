/** Rhythm analysis: the onsets are sorted, each gap between neighbours is
    quantised to sixteenths of a second, and two patterns are compared by how
    many gaps of the first also occur in the second. */
module Rhythm {
  import opened MidiTypes
  import opened Sorting

  /** `notes.map(note => note.time)`. */
  function Onsets(notes: seq<Note>): (r: seq<real>)
    ensures |r| == |notes|
    ensures forall i :: 0 <= i < |notes| ==> r[i] == notes[i].time
  {
    seq(|notes|, i requires 0 <= i < |notes| => notes[i].time)
  }

  /** The onsets in ascending order (`.sort((a, b) => a - b)`). */
  function SortedOnsets(notes: seq<Note>): (r: seq<real>)
    ensures |r| == |notes|
    ensures SortedBy(r, t => t)
    ensures multiset(r) == multiset(Onsets(notes))
  {
    SortBy(Onsets(notes), t => t)
  }

  /** `Math.round(interval * 16)`. */
  function Quantize(interval: real): (q: int)
    ensures 0.0 <= interval ==> 0 <= q
  {
    Round(interval * 16.0)
  }

  /** An ascending list of onsets. */
  ghost predicate Ascending(on: seq<real>)
  {
    forall i, j :: 0 <= i < j < |on| ==> on[i] <= on[j]
  }

  lemma SortedIsAscending(on: seq<real>)
    requires SortedBy(on, t => t)
    ensures Ascending(on)
  {
    forall i, j | 0 <= i < j < |on|
      ensures on[i] <= on[j]
    {
      var key := (t: real) => t;
      assert key(on[i]) <= key(on[j]);
    }
  }

  /** The quantised gaps between neighbours of an ascending onset list. */
  function Gaps(on: seq<real>): (r: seq<int>)
    requires Ascending(on)
    ensures |r| == if on == [] then 0 else |on| - 1
    ensures forall i :: 0 <= i < |r| ==> 0 <= r[i]
  {
    if |on| < 2 then []
    else
      var rest := Gaps(on[..|on| - 1]);
      rest + [Quantize(on[|on| - 1] - on[|on| - 2])]
  }

  /** What `extractRhythmPattern` returns: one quantised gap per pair of
      neighbouring sorted onsets. */
  function RhythmPattern(notes: seq<Note>): (r: seq<int>)
    ensures |r| == if notes == [] then 0 else |notes| - 1
    ensures forall i :: 0 <= i < |r| ==> 0 <= r[i]
  {
    SortedIsAscending(SortedOnsets(notes));
    Gaps(SortedOnsets(notes))
  }

  /** `extractRhythmPattern`: sorts the onsets, then pushes one gap per step. */
  method ExtractRhythmPattern(notes: seq<Note>) returns (intervals: seq<int>)
    ensures intervals == RhythmPattern(notes)
  {
    var onsets := SortedOnsets(notes);
    SortedIsAscending(onsets);
    intervals := [];
    var i := 1;
    while i < |onsets|
      invariant onsets == [] ==> intervals == []
      invariant onsets != [] ==> 1 <= i <= |onsets| && intervals == Gaps(onsets[..i])
    {
      GapsStep(onsets, i);
      intervals := intervals + [Quantize(onsets[i] - onsets[i - 1])];
      i := i + 1;
    }
    assert onsets == [] || onsets[..i] == onsets;
  }

  /** One more onset adds one gap at the end. */
  lemma GapsStep(on: seq<real>, i: int)
    requires Ascending(on) && 1 <= i < |on|
    ensures Ascending(on[..i]) && Ascending(on[..i + 1])
    ensures Gaps(on[..i + 1]) == Gaps(on[..i]) + [Quantize(on[i] - on[i - 1])]
  {
    assert on[..i + 1][..i] == on[..i];
  }

  /** Two ascending sequences holding the same values are equal. */
  lemma {:induction false} AscendingUnique(s: seq<real>, t: seq<real>)
    requires Ascending(s) && Ascending(t)
    requires multiset(s) == multiset(t)
    ensures s == t
    decreases |s|
  {
    assert |s| == |multiset(s)| == |multiset(t)| == |t|;
    if s != [] {
      SameHead(s, t);
      assert s == [s[0]] + s[1..] && t == [t[0]] + t[1..];
      assert multiset(s[1..]) == multiset(s) - multiset{s[0]};
      assert multiset(t[1..]) == multiset(t) - multiset{t[0]};
      AscendingUnique(s[1..], t[1..]);
    }
  }

  lemma SameHead(s: seq<real>, t: seq<real>)
    requires Ascending(s) && Ascending(t)
    requires multiset(s) == multiset(t) && s != [] && t != []
    ensures s[0] == t[0]
  {
    assert s[0] in multiset(t) && t[0] in multiset(s);
    var j :| 0 <= j < |t| && t[j] == s[0];
    var k :| 0 <= k < |s| && s[k] == t[0];
    assert t[0] <= t[j] && s[0] <= s[k];
  }

  /** The pattern depends only on which onsets occur, not on the note order. */
  lemma RhythmPatternIgnoresNoteOrder(notes1: seq<Note>, notes2: seq<Note>)
    requires multiset(Onsets(notes1)) == multiset(Onsets(notes2))
    ensures RhythmPattern(notes1) == RhythmPattern(notes2)
  {
    SortedIsAscending(SortedOnsets(notes1));
    SortedIsAscending(SortedOnsets(notes2));
    AscendingUnique(SortedOnsets(notes1), SortedOnsets(notes2));
  }

  /** `rhythm1.filter(r => rhythm2.includes(r)).length`: every gap of the first
      pattern found in the second, repeats included. */
  function SharedGaps(rhythm1: seq<int>, rhythm2: seq<int>): (n: nat)
    ensures n <= |rhythm1|
    ensures rhythm2 == [] ==> n == 0
    ensures rhythm1 == rhythm2 ==> n == |rhythm1|
  {
    SharedGapsEdgeCases(rhythm1, rhythm2);
    CountWhere(rhythm1, r => r in rhythm2)
  }

  lemma SharedGapsEdgeCases(rhythm1: seq<int>, rhythm2: seq<int>)
    ensures rhythm2 == [] ==> CountWhere(rhythm1, r => r in rhythm2) == 0
    ensures rhythm1 == rhythm2 ==> CountWhere(rhythm1, r => r in rhythm2) == |rhythm1|
  {
    if rhythm2 == [] {
      CountWhereNone(rhythm1, r => r in rhythm2);
    }
    if rhythm1 == rhythm2 {
      CountWhereAll(rhythm1, r => r in rhythm2);
    }
  }

  /** `calculateRhythmSimilarity`. */
  function RhythmSimilarity(notes1: seq<Note>, notes2: seq<Note>): (r: real)
    ensures 0.0 <= r <= 1.0
    ensures |notes1| < 2 || |notes2| < 2 ==> r == 0.0
  {
    var rhythm1, rhythm2 := RhythmPattern(notes1), RhythmPattern(notes2);
    Ratio(SharedGaps(rhythm1, rhythm2), Max(Max(|rhythm1|, |rhythm2|), 1))
  }

  /** A document with two notes or more has the same rhythm as itself. */
  lemma RhythmSelfSimilarity(notes: seq<Note>)
    requires |notes| >= 2
    ensures RhythmSimilarity(notes, notes) == 1.0
  {
  }
}
