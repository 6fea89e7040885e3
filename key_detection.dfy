/** Key detection: the duration of every note is added to its pitch class, and
    the first pitch class with the largest total is taken as the key. Two keys
    are compared by their distance round the twelve pitch classes. */
module KeyDetection {
  import opened MidiTypes

  /** The summed duration of the notes of pitch class `pc`, added in note order. */
  function DurationSum(notes: seq<Note>, pc: int): (s: real)
    ensures (forall i :: 0 <= i < |notes| ==> notes[i].duration >= 0.0) ==> s >= 0.0
    ensures (forall i :: 0 <= i < |notes| ==> PitchClass(notes[i].midi) != pc) ==> s == 0.0
  {
    if notes == [] then 0.0
    else
      var last := notes[|notes| - 1];
      DurationSum(notes[..|notes| - 1], pc) + (if PitchClass(last.midi) == pc then last.duration else 0.0)
  }

  /** The pitch-class histogram `pitchClasses`: twelve summed durations. */
  function Histogram(notes: seq<Note>): (h: seq<real>)
    ensures |h| == 12
    ensures forall c :: 0 <= c < 12 ==> h[c] == DurationSum(notes, c)
  {
    seq(12, c requires 0 <= c < 12 => DurationSum(notes, c))
  }

  /** `h.indexOf(Math.max(...h))`: the first position holding the largest value. */
  function FirstMaxIndex(h: seq<real>): (k: nat)
    requires h != []
    ensures k < |h|
    ensures forall i :: 0 <= i < |h| ==> h[i] <= h[k]
    ensures forall i :: 0 <= i < k ==> h[i] < h[k]
  {
    if |h| == 1 then 0
    else
      var k := FirstMaxIndex(h[..|h| - 1]);
      if h[k] < h[|h| - 1] then |h| - 1 else k
  }

  /** `k` is the first pitch class with the largest summed duration. */
  ghost predicate IsDominant(notes: seq<Note>, k: int)
  {
    && 0 <= k < 12
    && (forall c :: 0 <= c < 12 ==> DurationSum(notes, c) <= DurationSum(notes, k))
    && (forall c :: 0 <= c < k ==> DurationSum(notes, c) < DurationSum(notes, k))
  }

  /** What `detectKey` returns. */
  function DominantPitchClass(notes: seq<Note>): (k: int)
    ensures IsDominant(notes, k)
  {
    FirstMaxIndex(Histogram(notes))
  }

  /** Only one pitch class is the first with the largest total. */
  lemma DominantIsUnique(notes: seq<Note>, k1: int, k2: int)
    requires IsDominant(notes, k1) && IsDominant(notes, k2)
    ensures k1 == k2
  {
    assert k1 < k2 ==> DurationSum(notes, k1) < DurationSum(notes, k2);
    assert k2 < k1 ==> DurationSum(notes, k2) < DurationSum(notes, k1);
  }

  /** A document without notes is in C: all twelve totals are 0. */
  lemma EmptyKeyIsC()
    ensures DominantPitchClass([]) == 0
  {
    var k := DominantPitchClass([]);
    assert DurationSum([], 0) == 0.0 == DurationSum([], k);
  }

  /** A single sounding note puts the document in the key of its own pitch class. */
  lemma SingleNoteKey(n: Note)
    requires n.duration > 0.0
    ensures DominantPitchClass([n]) == PitchClass(n.midi)
  {
    var k := DominantPitchClass([n]);
    assert [n][..0] == [];
    assert DurationSum([n], PitchClass(n.midi)) == n.duration;
  }

  /** Adding note `i` to the prefix before it adds its duration to its own
      pitch class and nothing to the others. */
  lemma DurationSumStep(notes: seq<Note>, i: nat)
    requires i < |notes|
    ensures forall c :: DurationSum(notes[..i + 1], c) ==
                        DurationSum(notes[..i], c) + (if PitchClass(notes[i].midi) == c then notes[i].duration else 0.0)
  {
    assert notes[..i + 1][..i] == notes[..i];
  }

  /** The histogram loop of `detectKey`: twelve totals, filled note by note. */
  method PitchClassTotals(notes: seq<Note>) returns (pitchClasses: array<real>)
    ensures fresh(pitchClasses) && pitchClasses.Length == 12
    ensures forall c :: 0 <= c < 12 ==> pitchClasses[c] == DurationSum(notes, c)
  {
    pitchClasses := new real[12](_ => 0.0);
    var i := 0;
    while i < |notes|
      invariant 0 <= i <= |notes|
      invariant forall c :: 0 <= c < 12 ==> pitchClasses[c] == DurationSum(notes[..i], c)
    {
      var pc := PitchClass(notes[i].midi);
      DurationSumStep(notes, i);
      pitchClasses[pc] := pitchClasses[pc] + notes[i].duration;
      i := i + 1;
    }
    assert notes[..i] == notes;
  }

  /** `detectKey`: builds the histogram in an array, takes its maximum and
      then the first index that holds it. */
  method DetectKey(notes: seq<Note>) returns (key: int)
    ensures IsDominant(notes, key)
    ensures key == DominantPitchClass(notes)
  {
    var pitchClasses := PitchClassTotals(notes);
    var best := pitchClasses[0];
    var j := 1;
    while j < 12
      invariant 1 <= j <= 12
      invariant forall c :: 0 <= c < j ==> pitchClasses[c] <= best
      invariant exists c :: 0 <= c < j && pitchClasses[c] == best
    {
      best := MaxReal(best, pitchClasses[j]);
      j := j + 1;
    }

    key := 0;
    while pitchClasses[key] != best
      invariant 0 <= key < 12
      invariant forall c :: 0 <= c < key ==> pitchClasses[c] != best
      invariant exists c :: key <= c < 12 && pitchClasses[c] == best
      decreases 12 - key
    {
      key := key + 1;
    }
    DominantIsUnique(notes, key, DominantPitchClass(notes));
  }

  /** `Math.min(|k1 - k2|, 12 - |k1 - k2|)`: the distance round the twelve
      pitch classes. */
  function CircularDistance(k1: int, k2: int): (d: int)
    requires 0 <= k1 < 12 && 0 <= k2 < 12
    ensures 0 <= d <= 6
    ensures d == 0 <==> k1 == k2
    ensures (k1 + d) % 12 == k2 || (k2 + d) % 12 == k1
  {
    var distance := if k1 < k2 then k2 - k1 else k1 - k2;
    Min(distance, 12 - distance)
  }

  /** `1 - normalizedDistance / 6`. */
  function KeyScore(k1: int, k2: int): (r: real)
    requires 0 <= k1 < 12 && 0 <= k2 < 12
    ensures 0.0 <= r <= 1.0
    ensures r == 1.0 <==> k1 == k2
    ensures r == 0.0 <==> CircularDistance(k1, k2) == 6
  {
    1.0 - CircularDistance(k1, k2) as real / 6.0
  }

  /** The distance, and so the score, does not depend on which key comes first. */
  lemma KeyScoreSymmetric(k1: int, k2: int)
    requires 0 <= k1 < 12 && 0 <= k2 < 12
    ensures CircularDistance(k1, k2) == CircularDistance(k2, k1)
    ensures KeyScore(k1, k2) == KeyScore(k2, k1)
  {
  }

  /** `(k + t) % 12` for a pitch class `k`: one wrap at most. */
  lemma TransposeStep(k: int, t: nat)
    requires 0 <= k < 12
    ensures (k + t) % 12 == if k + t % 12 < 12 then k + t % 12 else k + t % 12 - 12
  {
    var s := t % 12;
    assert t == 12 * (t / 12) + s;
    assert k + t == 12 * (t / 12) + (k + s);
    if k + s < 12 {
      assert (k + t) % 12 == k + s;
    } else {
      assert k + t == 12 * (t / 12 + 1) + (k + s - 12);
    }
  }

  /** Moving both keys by the same number of semitones keeps their score. */
  lemma KeyScoreTransposition(k1: int, k2: int, t: nat)
    requires 0 <= k1 < 12 && 0 <= k2 < 12
    ensures KeyScore((k1 + t) % 12, (k2 + t) % 12) == KeyScore(k1, k2)
  {
    TransposeStep(k1, t);
    TransposeStep(k2, t);
  }

  /** `calculateKeySimilarity`. */
  function KeySimilarity(notes1: seq<Note>, notes2: seq<Note>): (r: real)
    ensures 0.0 <= r <= 1.0
    ensures r == 1.0 <==> DominantPitchClass(notes1) == DominantPitchClass(notes2)
  {
    KeyScore(DominantPitchClass(notes1), DominantPitchClass(notes2))
  }

  lemma KeySimilaritySymmetric(notes1: seq<Note>, notes2: seq<Note>)
    ensures KeySimilarity(notes1, notes2) == KeySimilarity(notes2, notes1)
  {
    KeyScoreSymmetric(DominantPitchClass(notes1), DominantPitchClass(notes2));
  }
}
