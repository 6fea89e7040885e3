/** The enhanced ("server") comparison: the basic note-set similarity blended
    with harmonic, rhythmic and key similarity, the common notes written out
    with a raised velocity, and a block of analysis details (common chord
    names, tempo estimates, detected keys). */
module EnhancedComparison {
  import opened MidiTypes
  import opened NoteComparison
  import opened Harmony
  import opened Rhythm
  import opened KeyDetection

  /** `basic * 0.4 + harmonic * 0.3 + rhythm * 0.2 + key * 0.1`. */
  function Blend(basic: real, harmonic: real, rhythm: real, key: real): (r: real)
    ensures 0.0 <= basic <= 1.0 && 0.0 <= harmonic <= 1.0 && 0.0 <= rhythm <= 1.0 && 0.0 <= key <= 1.0 ==>
              0.0 <= r <= 1.0 &&
              (r == 1.0 <==> basic == 1.0 && harmonic == 1.0 && rhythm == 1.0 && key == 1.0)
  {
    basic * 0.4 + harmonic * 0.3 + rhythm * 0.2 + key * 0.1
  }

  /** The note written to the enhanced output track: `duration || 0.5` and
      `Math.max(velocity, 0.7)`. */
  function ServerOutputNote(n: Note): (r: Note)
    ensures r.midi == n.midi && r.time == n.time
    ensures r.duration == ClientOutputNote(n).duration
    ensures r.velocity >= 0.7 && r.velocity >= n.velocity
    ensures n.velocity >= 0.7 ==> r.velocity == n.velocity
  {
    Note(n.midi, n.time, if n.duration == 0.0 then 0.5 else n.duration, MaxReal(n.velocity, 0.7))
  }

  // Tempo estimate.

  /** `notes.reduce((sum, note, i) => i > 0 ? sum + (note.time - notes[i-1].time) : sum, 0)`:
      the onset gaps in document order, added from the first. */
  function IntervalSum(notes: seq<Note>): real
  {
    if |notes| < 2 then 0.0
    else IntervalSum(notes[..|notes| - 1]) + (notes[|notes| - 1].time - notes[|notes| - 2].time)
  }

  /** The gaps telescope: their sum is the last onset minus the first, whatever
      lies between and whether or not the notes are in time order. */
  lemma {:induction false} IntervalSumTelescopes(notes: seq<Note>)
    requires notes != []
    ensures IntervalSum(notes) == notes[|notes| - 1].time - notes[0].time
  {
    if |notes| >= 2 {
      var prefix := notes[..|notes| - 1];
      IntervalSumTelescopes(prefix);
      assert prefix[0] == notes[0] && prefix[|prefix| - 1] == notes[|notes| - 2];
    }
  }

  /** `avgInterval`: the mean gap, or 1 with fewer than two notes. */
  function AverageInterval(notes: seq<Note>): (a: real)
    ensures |notes| < 2 ==> a == 1.0
    ensures |notes| >= 2 ==> a * (|notes| - 1) as real == notes[|notes| - 1].time - notes[0].time
  {
    if |notes| > 1 then
      IntervalSumTelescopes(notes);
      IntervalSum(notes) / (|notes| - 1) as real
    else 1.0
  }

  /** `Math.round(60 / Math.max(avgInterval, 0.1))`: beats per minute, at most 600. */
  function Tempo(notes: seq<Note>): (t: int)
    ensures 0 <= t <= 600
  {
    var interval := MaxReal(AverageInterval(notes), 0.1);
    BeatsBounded(interval);
    Round(60.0 / interval)
  }

  lemma BeatsBounded(interval: real)
    requires interval >= 0.1
    ensures 0.0 < 60.0 / interval <= 600.0
  {
    var q := 60.0 / interval;
    assert q * interval == 60.0;
    assert (600.0 - q) * interval == 600.0 * interval - 60.0 >= 0.0;
  }

  /** The tempo depends only on the first and last onsets and on the note count. */
  lemma TempoFromEnds(notes: seq<Note>)
    requires |notes| > 1
    ensures Tempo(notes) ==
      Round(60.0 / MaxReal((notes[|notes| - 1].time - notes[0].time) / (|notes| - 1) as real, 0.1))
  {
    IntervalSumTelescopes(notes);
  }

  /** Fewer than two notes: an interval of one second, so 60 beats per minute. */
  lemma TempoOfFewNotes(notes: seq<Note>)
    requires |notes| < 2
    ensures Tempo(notes) == 60
  {
  }

  /** `1 - Math.abs(tempo1 - tempo2) / Math.max(tempo1, tempo2)`; both tempos
      0 make it 0/0, which is not a number (`None`). */
  function TempoSimilarity(tempo1: nat, tempo2: nat): (r: Option<real>)
    ensures r == None <==> tempo1 == 0 && tempo2 == 0
    ensures r.Some? ==> 0.0 <= r.value <= 1.0 && (r.value == 1.0 <==> tempo1 == tempo2)
  {
    var difference := if tempo1 < tempo2 then tempo2 - tempo1 else tempo1 - tempo2;
    if Max(tempo1, tempo2) == 0 then None
    else Some(1.0 - Ratio(difference, Max(tempo1, tempo2)))
  }

  // Chord names.

  /** `parts.join(sep)`. */
  function Join(parts: seq<string>, sep: string): (r: string)
    ensures |parts| == 1 ==> r == parts[0]
  {
    if parts == [] then ""
    else if |parts| == 1 then parts[0]
    else Join(parts[..|parts| - 1], sep) + sep + parts[|parts| - 1]
  }

  /** The number of times the character `c` occurs in `s`. */
  function Occurrences(s: string, c: char): nat
  {
    if s == [] then 0 else Occurrences(s[..|s| - 1], c) + (if s[|s| - 1] == c then 1 else 0)
  }

  lemma {:induction false} OccurrencesAppend(a: string, b: string, c: char)
    ensures Occurrences(a + b, c) == Occurrences(a, c) + Occurrences(b, c)
    decreases |b|
  {
    if b == [] {
      assert a + b == a;
    } else {
      assert (a + b)[..|a + b| - 1] == a + b[..|b| - 1];
      OccurrencesAppend(a, b[..|b| - 1], c);
    }
  }

  /** Joining parts free of the separator character puts exactly one separator
      between neighbours, so the parts can be told apart again. */
  lemma {:induction false} JoinSeparators(parts: seq<string>, c: char)
    requires parts != []
    requires forall i :: 0 <= i < |parts| ==> Occurrences(parts[i], c) == 0
    ensures Occurrences(Join(parts, [c]), c) == |parts| - 1
  {
    if |parts| > 1 {
      var prefix := parts[..|parts| - 1];
      JoinSeparators(prefix, c);
      OccurrencesAppend(Join(prefix, [c]), [c], c);
      OccurrencesAppend(Join(prefix, [c]) + [c], parts[|parts| - 1], c);
      assert Occurrences([c], c) == Occurrences([], c) + 1;
    }
  }

  /** `chord.map(note => names[note]).join('-')`. */
  function ChordLabel(chord: seq<int>): (r: string)
    requires forall i :: 0 <= i < |chord| ==> 0 <= chord[i] < 12
    ensures chord == [] ==> r == ""
    ensures |chord| == 1 ==> r == NoteNames[chord[0]]
  {
    Join(seq(|chord|, i requires 0 <= i < |chord| => NoteNames[chord[i]]), "-")
  }

  /** A chord of `k` pitch classes is named by `k` note names and `k - 1` dashes. */
  lemma ChordLabelDashes(chord: seq<int>)
    requires chord != []
    requires forall i :: 0 <= i < |chord| ==> 0 <= chord[i] < 12
    ensures Occurrences(ChordLabel(chord), '-') == |chord| - 1
  {
    var names := seq(|chord|, i requires 0 <= i < |chord| => NoteNames[chord[i]]);
    forall i | 0 <= i < |names|
      ensures Occurrences(names[i], '-') == 0
    {
      NoteNamesHaveNoDash(chord[i]);
    }
    JoinSeparators(names, '-');
  }

  lemma NoteNamesHaveNoDash(pc: int)
    requires 0 <= pc < 12
    ensures Occurrences(NoteNames[pc], '-') == 0
  {
    var name := NoteNames[pc];
    assert |name| <= 2 && forall i :: 0 <= i < |name| ==> name[i] != '-';
    if |name| == 2 {
      assert name[..1][..0] == [];
    }
  }

  /** The C-major triad is named "C-E-G". */
  lemma MajorTriadLabel()
    ensures ChordLabel([0, 4, 7]) == "C-E-G"
  {
    var names := seq(3, i requires 0 <= i < 3 => NoteNames[[0, 4, 7][i]]);
    assert names == ["C", "E", "G"];
    assert names[..2] == ["C", "E"] && names[..2][..1] == ["C"];
    assert Join(["C", "E"], "-") == "C-E";
    assert Join(names, "-") == "C-E" + "-" + "G";
  }

  /** `label` names a chord of the first document that some chord of the
      second covers. */
  ghost predicate NamesCommonChord(name: string, chords1: seq<seq<int>>, chords2: seq<seq<int>>)
  {
    exists c :: c in chords1 && ValidChord(c) && (exists c2 :: c2 in chords2 && Covers(c2, c)) && name == ChordLabel(c)
  }

  /** The names of the common chords, at most the first five. */
  function CommonChordLabels(notes1: seq<Note>, notes2: seq<Note>): (r: seq<string>)
    ensures |r| <= 5 && |r| <= |Chords(notes1)|
    ensures forall i :: 0 <= i < |r| ==> NamesCommonChord(r[i], Chords(notes1), Chords(notes2))
    ensures var common := CommonChords(Chords(notes1), Chords(notes2));
      && |r| == Min(|common|, 5)
      && forall i :: 0 <= i < |r| ==> ValidChord(common[i]) && r[i] == ChordLabel(common[i])
  {
    var common := CommonChords(Chords(notes1), Chords(notes2));
    CommonChordsValid(common, Chords(notes1), Chords(notes2));
    var labels := seq(|common|, i requires 0 <= i < |common| => ChordLabel(common[i]));
    LabelsOfCommonChords(common, labels, Chords(notes1), Chords(notes2));
    if |labels| <= 5 then labels else labels[..5]
  }

  lemma CommonChordsValid(common: seq<seq<int>>, chords1: seq<seq<int>>, chords2: seq<seq<int>>)
    requires forall c :: c in chords1 ==> ValidChord(c)
    requires common == CommonChords(chords1, chords2)
    ensures forall i :: 0 <= i < |common| ==> ValidChord(common[i])
  {
    forall i | 0 <= i < |common|
      ensures ValidChord(common[i])
    {
      assert common[i] in common;
    }
  }

  lemma LabelsOfCommonChords(common: seq<seq<int>>, labels: seq<string>,
                             chords1: seq<seq<int>>, chords2: seq<seq<int>>)
    requires forall c :: c in chords1 ==> ValidChord(c)
    requires common == CommonChords(chords1, chords2)
    requires |labels| == |common|
    requires forall i :: 0 <= i < |common| ==> ValidChord(common[i]) && labels[i] == ChordLabel(common[i])
    ensures forall i :: 0 <= i < |labels| ==> NamesCommonChord(labels[i], chords1, chords2)
  {
    forall i | 0 <= i < |labels|
      ensures NamesCommonChord(labels[i], chords1, chords2)
    {
      var c := common[i];
      assert c in common;
      assert c in chords1 && ValidChord(c) && labels[i] == ChordLabel(c);
    }
  }

  // The analysis block and the whole result.

  datatype AnalysisDetails = AnalysisDetails(
    commonChords: seq<string>,
    commonIntervals: seq<int>,
    file1Tempo: int,
    file2Tempo: int,
    tempoSimilarity: Option<real>,
    file1Key: string,
    file2Key: string,
    keyDistance: int)

  /** `generateAnalysisDetails`. The key distance is the plain difference of
      the two pitch-class numbers, not the circular one the key score uses. */
  function GenerateAnalysisDetails(notes1: seq<Note>, notes2: seq<Note>): (d: AnalysisDetails)
    ensures |d.commonChords| <= 5
    ensures d.commonIntervals == [3, 4, 5, 7]
    ensures 0 <= d.file1Tempo <= 600 && 0 <= d.file2Tempo <= 600
    ensures d.tempoSimilarity == None <==> d.file1Tempo == 0 && d.file2Tempo == 0
    ensures d.file1Key == NoteNames[DominantPitchClass(notes1)]
    ensures d.file2Key == NoteNames[DominantPitchClass(notes2)]
    ensures 0 <= d.keyDistance <= 11
    ensures d.keyDistance == 0 <==> DominantPitchClass(notes1) == DominantPitchClass(notes2)
    ensures d.keyDistance >= CircularDistance(DominantPitchClass(notes1), DominantPitchClass(notes2))
    ensures d.keyDistance == if DominantPitchClass(notes1) < DominantPitchClass(notes2)
                             then DominantPitchClass(notes2) - DominantPitchClass(notes1)
                             else DominantPitchClass(notes1) - DominantPitchClass(notes2)
    ensures d.commonChords == CommonChordLabels(notes1, notes2)
    ensures d.file1Tempo == Tempo(notes1) && d.file2Tempo == Tempo(notes2)
    ensures d.tempoSimilarity == TempoSimilarity(d.file1Tempo, d.file2Tempo)
  {
    var tempo1, tempo2 := Tempo(notes1), Tempo(notes2);
    var key1, key2 := DominantPitchClass(notes1), DominantPitchClass(notes2);
    AnalysisDetails(
      CommonChordLabels(notes1, notes2),
      [3, 4, 5, 7],
      tempo1, tempo2, TempoSimilarity(tempo1, tempo2),
      NoteNames[key1], NoteNames[key2],
      if key1 < key2 then key2 - key1 else key1 - key2)
  }

  /** Keys C and B are reported 11 apart, though they are neighbours on the
      circle of pitch classes that the key score measures. */
  lemma KeyDistanceUnwrapped()
    ensures var c4, b4 := Note(60, 0.0, 1.0, 1.0), Note(71, 0.0, 1.0, 1.0);
      && GenerateAnalysisDetails([c4], [b4]).keyDistance == 11
      && CircularDistance(0, 11) == 1
  {
    var c4, b4 := Note(60, 0.0, 1.0, 1.0), Note(71, 0.0, 1.0, 1.0);
    SingleNoteKey(c4);
    SingleNoteKey(b4);
  }

  datatype EnhancedResult = EnhancedResult(
    similarity: real,
    commonNotes: nat,
    totalNotes1: nat,
    totalNotes2: nat,
    harmonicSimilarity: real,
    rhythmSimilarity: real,
    keySimilarity: real,
    notes: seq<Note>,
    details: AnalysisDetails)

  /** `enhancedMidiComparison`; `notes` is the single track of the generated
      download file, before it is encoded. */
  function EnhancedMidiComparison(midi1: MidiData, midi2: MidiData): (r: EnhancedResult)
    ensures var notes1, notes2 := AllNotes(midi1.tracks), AllNotes(midi2.tracks);
      && r.totalNotes1 == |KeySet(notes1)| && r.totalNotes2 == |KeySet(notes2)|
      && r.commonNotes == |CommonKeys(notes1, notes2)|
      && r.commonNotes <= r.totalNotes1 && r.commonNotes <= r.totalNotes2
      && 0.0 <= r.harmonicSimilarity <= 1.0
      && 0.0 <= r.rhythmSimilarity <= 1.0
      && 0.0 <= r.keySimilarity <= 1.0
      && 0.0 <= r.similarity <= 1.0
      && |r.notes| <= |notes1|
      && (forall i :: 0 <= i < |r.notes| ==> r.notes[i].velocity >= 0.7)
      && r.harmonicSimilarity == HarmonicSimilarity(notes1, notes2)
      && r.rhythmSimilarity == RhythmSimilarity(notes1, notes2)
      && r.keySimilarity == KeySimilarity(notes1, notes2)
      && r.similarity == Blend(Similarity(KeySet(notes1), KeySet(notes2)),
                               r.harmonicSimilarity, r.rhythmSimilarity, r.keySimilarity)
      && r.details == GenerateAnalysisDetails(notes1, notes2)
  {
    var notes1, notes2 := AllNotes(midi1.tracks), AllNotes(midi2.tracks);
    var keys1, keys2 := KeySet(notes1), KeySet(notes2);
    var common := CommonKeys(notes1, notes2);
    var harmonic := HarmonicSimilarity(notes1, notes2);
    var rhythm := RhythmSimilarity(notes1, notes2);
    var key := KeySimilarity(notes1, notes2);
    var out := ConvertAll(CommonNotesList(notes1, common), ServerOutputNote);
    EnhancedResult(
      Blend(Similarity(keys1, keys2), harmonic, rhythm, key),
      |common|, |keys1|, |keys2|,
      harmonic, rhythm, key,
      out,
      GenerateAnalysisDetails(notes1, notes2))
  }

  /** Two documents without notes, where the source divides 0 by 0 and reports
      a similarity that is not a number: the model's corrected quotient gives
      0 for the basic similarity, and the blend is 0.1, the weight of the key
      score alone (both documents are in C). */
  lemma EmptyDocumentsScores(midi1: MidiData, midi2: MidiData)
    requires AllNotes(midi1.tracks) == [] && AllNotes(midi2.tracks) == []
    ensures CompareMidiFiles(midi1, midi2).similarity == 0.0
    ensures EnhancedMidiComparison(midi1, midi2).similarity == 0.1
  {
    EmptyKeyIsC();
  }

  /** The enhanced comparison counts the same notes as the basic one and writes
      the same notes at the same places; only the velocities are raised. */
  lemma EnhancedAgreesWithBasic(midi1: MidiData, midi2: MidiData)
    ensures var r, b := EnhancedMidiComparison(midi1, midi2), CompareMidiFiles(midi1, midi2);
      && r.commonNotes == b.commonNotes
      && r.totalNotes1 == b.totalNotes1 && r.totalNotes2 == b.totalNotes2
      && |r.notes| == |b.notes|
      && forall i :: 0 <= i < |r.notes| ==>
           r.notes[i] == b.notes[i].(velocity := MaxReal(b.notes[i].velocity, 0.7))
  {
    EnhancedNotes(midi1, midi2);
    BasicNotes(midi1, midi2);
  }

  /** The enhanced written notes are the common-note list, each converted. */
  lemma EnhancedNotes(midi1: MidiData, midi2: MidiData)
    ensures var notes1, notes2 := AllNotes(midi1.tracks), AllNotes(midi2.tracks);
      EnhancedMidiComparison(midi1, midi2).notes ==
        ConvertAll(CommonNotesList(notes1, CommonKeys(notes1, notes2)), ServerOutputNote)
  {
  }

  /** A document with two notes or more and at least one chord, compared with
      itself, scores 1 on every measure and on the blend. */
  lemma EnhancedSelfComparison(midi: MidiData)
    requires |AllNotes(midi.tracks)| >= 2
    requires Chords(AllNotes(midi.tracks)) != []
    ensures var r := EnhancedMidiComparison(midi, midi);
      && r.harmonicSimilarity == 1.0 && r.rhythmSimilarity == 1.0 && r.keySimilarity == 1.0
      && r.similarity == 1.0
      && r.details.keyDistance == 0
      && r.details.file1Tempo == r.details.file2Tempo
  {
    var notes := AllNotes(midi.tracks);
    SelfComparison(midi);
    HarmonicSelfSimilarity(notes);
    RhythmSelfSimilarity(notes);
  }
}
