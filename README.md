# MIDI Harmony Finder — verified model of the comparison engine

This project is a Dafny model of the computational core of *MIDI Harmony Finder*, a
browser application that compares two MIDI documents. It covers:

- **Basic comparison** (`NoteComparison`). Each note becomes a key: its pitch and its onset in hundredths of a second. The two documents' key sets are intersected. The similarity is the shared keys over the larger set. The notes of the first document whose key is shared form the common-notes track.
- **Enhanced analysis** (`Harmony`, `Rhythm`, `KeyDetection`, `EnhancedComparison`):
  - chords found in quarter-second windows, and the superset-based harmonic score;
  - the inter-onset rhythm pattern on a sixteenth grid, and the rhythm score;
  - the pitch-class duration histogram that picks a key, and the circular key distance;
  - the fixed 0.4/0.3/0.2/0.1 blend;
  - the analysis details: chord labels, tempo estimate, raw key distance.
- **Audio-to-MIDI converter** (`AudioToMidi`, `MidiEncoder`):
  - the chunk-by-chunk RMS peak extractor with its triad fallback;
  - the fallback scales;
  - the byte encoder that writes a format-0, single-track Standard MIDI File (Standard MIDI Files 1.0: header chunk, track chunk, meta-events FF 58 Time Signature, FF 51 Set Tempo, FF 2F End of Track, variable-length delta-times);
  - the big-endian integer serialiser.
- **State holders**, as classes:
  - the comparison hook's state (`ComparisonSession.Session`): the two results, the running flag and the download link;
  - the two-slot application state (`MidiApp.App`) with its load, clear and reset actions and derived counts.
- **Display conversions** (`Visualizer`, `ResultsDisplay`):
  - note names and black keys, the piano-roll range, the keyboard and the drawn note boxes;
  - the similarity colour and label bands, percentage, coverage and unique counts.

Numbers are exact: times, durations, velocities and scores are `real`, and counts are `int`/`nat`.
- JavaScript `Math.round` is `floor(x + 0.5)` (`MidiTypes.Round`).
- `toFixed(2)` of an onset is the nearest whole number of hundredths.
- `Math.floor(Math.sqrt(...))` of the RMS step is an exact integer square root.
- The pitch-class sort without a comparator orders the decimal strings of 0..11. The model spells that order out (`Harmony.LexOrder`: 0, 1, 10, 11, 2, …, 9).

The model follows the code, including where it does something other than its comments or names suggest. The one exception is the similarity of two documents without notes, which the source computes as 0/0; the model uses the corrected quotient recorded under "## Findings" (see "## Left out"):

- A window becomes a chord when it holds at least three notes *before* duplicates are removed. A chord can therefore have fewer than three pitch classes (`Harmony.SinglePitchClassChord`).
- The rhythm score counts every gap of the first pattern that occurs anywhere in the second, duplicates included.
- The audio chunk size is `max(1024, floor(length / maxNotes))` (floor, not ceiling).
- The reported `keyDistance` is the unwrapped `|key1 − key2|` in 0..11. Only the key similarity uses the circular distance.
- Encoded velocities are `64 + floor(r·32)`, in 64..95.
- Two documents without notes both detect key C, so their key similarity is 1.
- `getNoteColor` divides by 127 as for 0..127 velocities. The decoder yields velocities in 0..1, so every drawn note gets the faintest colour (`Visualizer.NoteColorBands`).

Inputs the code takes from its environment are parameters of the model:
- the random draws, as values in [0, 1);
- the MIDI decoder's result, as an `Option`;
- the decoded audio samples;
- the abort flag;
- how a comparison or a link creation ends (`ComparisonSession.Outcome`).

## Model

| member | source | states |
|---|---|---|
| MidiTypes.AllNotes | src/hooks/useMidiComparison.ts:48-49 | flattening the tracks yields exactly as many notes as the tracks hold |
| MidiTypes.Round | src/components/ComparisonResults.tsx:42 | Math.round gives the integer within half a unit below and strictly less than half above |
| NoteComparison.Centis | src/hooks/useMidiComparison.ts:52-53 | `toFixed(2)` of the onset: the nearest whole number of hundredths, never negative for a non-negative onset |
| NoteComparison.KeyOf | src/hooks/useMidiComparison.ts:52-53 | the key holds the note number (0..127) and the onset to within half a hundredth of a second |
| NoteComparison.SameKeyNearOnset | src/hooks/useMidiComparison.ts:52-53 | notes with equal keys have equal note numbers and onsets less than a hundredth apart |
| NoteComparison.KeySet | src/hooks/useMidiComparison.ts:52-53 | the set of note keys never has more members than there are notes |
| NoteComparison.CommonKeys | src/hooks/useMidiComparison.ts:56-57 | a key is common iff it is in both key sets; the common count is at most either set's size |
| NoteComparison.SimilarityAsWritten | src/hooks/useMidiComparison.ts:60 | the unguarded quotient is undefined (NaN, `None`) exactly when both key sets are empty |
| NoteComparison.EmptyComparisonIsNaN | src/hooks/useMidiComparison.ts:60 | two documents without notes give the NaN similarity |
| NoteComparison.Similarity | src/hooks/useMidiComparison.ts:60 | the similarity lies in [0,1], agrees with the quotient whenever it is defined, is 0 for disjoint sets, and is 1 iff the key sets are equal and non-empty |
| NoteComparison.FullMatchIsEquality | src/hooks/useMidiComparison.ts:56-60 | the common count reaches the larger set's size iff the two key sets are equal |
| NoteComparison.CommonNotesList | src/hooks/useMidiComparison.ts:67-69 | a note is kept iff it is in the first document and its key is common, each kept note as often as it occurs there |
| NoteComparison.CommonNotesListIsSubsequence | src/hooks/useMidiComparison.ts:67-69 | the kept notes are a subsequence of the first document, in its order |
| NoteComparison.CommonNotesListAll | src/hooks/useMidiComparison.ts:67-69 | when every key is common the whole first document is kept unchanged |
| NoteComparison.ClientOutputNote | src/hooks/useMidiComparison.ts:72-77 | an output note keeps pitch, time and velocity; a zero duration becomes non-zero (0.5), any other is kept |
| NoteComparison.AddNotes | src/hooks/useMidiComparison.ts:71-78 | the loop adds one converted note per kept note, in order |
| NoteComparison.ConvertAll | src/hooks/useMidiComparison.ts:71-78 | the converted track has one note per input note, each the conversion of its counterpart |
| NoteComparison.CompareMidiFiles | src/hooks/useMidiComparison.ts:46-91 | totals are distinct-key counts bounded by the note counts; the common count is the intersection size and bounded by both totals; the similarity is `Similarity` of the two key sets, i.e. common / max(total1, total2) whenever either document has notes, in [0,1] and 1 iff equal non-empty key sets; output no longer than document 1 |
| NoteComparison.BasicNotes | src/hooks/useMidiComparison.ts:67-78 | the result's track is the client conversion of the kept notes |
| NoteComparison.OutputNotesAreShared | src/hooks/useMidiComparison.ts:67-78 | every output note has a non-zero duration and is the conversion of a note of document 1 whose key occurs in document 2 |
| NoteComparison.ConvertedCommonNotesAreShared | src/hooks/useMidiComparison.ts:67-78 | the same fact for the kept notes of any two note lists |
| NoteComparison.SharedNote | src/hooks/useMidiComparison.ts:67-69 | a kept note lies in document 1 and its key occurs in document 2 |
| NoteComparison.SelfComparison | src/hooks/useMidiComparison.ts:46-91 | a non-empty document compared with itself scores 1, every key is common, and the whole document is output |
| NoteComparison.DisjointComparison | src/hooks/useMidiComparison.ts:56-69 | documents sharing no key score 0 with no common notes and an empty track |
| Rhythm.Onsets | src/lib/serverMidiComparison.ts:157 | the onsets are the notes' times, position by position |
| Rhythm.SortedOnsets | src/lib/serverMidiComparison.ts:157 | the sorted onsets are ascending and a permutation of the onsets |
| Rhythm.Quantize | src/lib/serverMidiComparison.ts:161 | a non-negative interval quantises to a non-negative count of sixteenths |
| Rhythm.Gaps | src/lib/serverMidiComparison.ts:160-163 | ascending onsets give one non-negative gap per adjacent pair |
| Rhythm.GapsStep | src/lib/serverMidiComparison.ts:160-163 | each loop step appends the quantised gap between onsets i-1 and i |
| Rhythm.RhythmPattern | src/lib/serverMidiComparison.ts:155-166 | n notes give n-1 non-negative intervals (none for no notes) |
| Rhythm.ExtractRhythmPattern | src/lib/serverMidiComparison.ts:155-166 | the loop computes exactly the rhythm pattern |
| Rhythm.AscendingUnique | src/lib/serverMidiComparison.ts:157 | two ascending orderings of the same onsets are equal, so the sort's result is determined |
| Rhythm.RhythmPatternIgnoresNoteOrder | src/lib/serverMidiComparison.ts:155-166 | documents with the same multiset of onsets have the same pattern |
| Rhythm.SharedGaps | src/lib/serverMidiComparison.ts:125 | the shared count is at most pattern 1's length, 0 against an empty pattern, and all of it against itself |
| Rhythm.SharedGapsEdgeCases | src/lib/serverMidiComparison.ts:125 | the filter keeps nothing against an empty pattern and everything against itself |
| Rhythm.RhythmSimilarity | src/lib/serverMidiComparison.ts:120-127 | the rhythm score lies in [0,1] and is 0 when either side has fewer than two notes |
| Rhythm.RhythmSelfSimilarity | src/lib/serverMidiComparison.ts:120-127 | a document of two or more notes scores 1 against itself |
| KeyDetection.Histogram | src/lib/serverMidiComparison.ts:170-174 | twelve bins, bin c holding the summed duration of the notes of pitch class c |
| KeyDetection.DurationSum | src/lib/serverMidiComparison.ts:172-174 | a pitch class's total is non-negative when durations are, and 0 when no note has that pitch class |
| KeyDetection.PitchClassTotals | src/lib/serverMidiComparison.ts:170-174 | the forEach fills a fresh 12-slot array with each pitch class's summed duration |
| KeyDetection.SingleNoteKey | src/lib/serverMidiComparison.ts:170-177 | a single sounding note puts the document in the key of its own pitch class |
| KeyDetection.FirstMaxIndex | src/lib/serverMidiComparison.ts:177 | `indexOf(max)`: an index holding the maximum with every earlier bin strictly smaller |
| KeyDetection.DominantPitchClass | src/lib/serverMidiComparison.ts:168-178 | the key is the lowest pitch class with maximal summed duration |
| KeyDetection.DominantIsUnique | src/lib/serverMidiComparison.ts:177 | at most one pitch class is the lowest maximum |
| KeyDetection.EmptyKeyIsC | src/lib/serverMidiComparison.ts:170-177 | no notes give key 0 (C) |
| KeyDetection.DetectKey | src/lib/serverMidiComparison.ts:168-178 | the accumulating loop over the 12-slot array returns the dominant pitch class |
| KeyDetection.CircularDistance | src/lib/serverMidiComparison.ts:134-135 | `min(d, 12-d)` lies in 0..6, is 0 iff the keys are equal, and steps from one key to the other around the circle |
| KeyDetection.KeyScore | src/lib/serverMidiComparison.ts:137 | `1 - d/6` lies in [0,1], is 1 iff equal keys and 0 iff a tritone apart |
| KeyDetection.KeyScoreSymmetric | src/lib/serverMidiComparison.ts:134-137 | distance and score do not depend on the order of the keys |
| KeyDetection.KeyScoreTransposition | src/lib/serverMidiComparison.ts:134-137 | transposing both keys by the same amount keeps the score |
| KeyDetection.KeySimilarity | src/lib/serverMidiComparison.ts:129-138 | the key score lies in [0,1] and is 1 iff the detected keys are equal |
| KeyDetection.KeySimilaritySymmetric | src/lib/serverMidiComparison.ts:129-138 | the key score is symmetric in the two documents |
| Harmony.WindowList | src/lib/serverMidiComparison.ts:144-145 | each note's window is `floor(time * 4)` |
| Harmony.WindowListMembers | src/lib/serverMidiComparison.ts:144-146 | the windows met are exactly the window set |
| Harmony.WindowOf | src/lib/serverMidiComparison.ts:145 | the window is the floor of four times the onset: a quarter of a second wide, non-negative for a non-negative onset |
| Harmony.OrderedWindows | src/lib/serverMidiComparison.ts:150 | `Object.values` visits the integer window keys strictly ascending, each window of a note once |
| Harmony.WindowPitchClasses | src/lib/serverMidiComparison.ts:144-148 | a window's list holds at most one entry per note, each a pitch class in 0..11 |
| Harmony.EmptyWindow | src/lib/serverMidiComparison.ts:146 | a window no note falls in has no entries |
| Harmony.GroupByWindow | src/lib/serverMidiComparison.ts:142-148 | the dictionary's keys are the notes' windows and each entry lists its notes' pitch classes in note order |
| Harmony.LexRank | src/lib/serverMidiComparison.ts:152 | each pitch class has a position in the string order of 0..11 |
| Harmony.LexRankIsStringOrder | src/lib/serverMidiComparison.ts:152 | that position order is exactly the order of the decimal strings |
| Harmony.LexSortedFromFacts | src/lib/serverMidiComparison.ts:152 | the de-duplicated classes come out in strictly increasing string position |
| Harmony.LexSorted | src/lib/serverMidiComparison.ts:152 | `[...new Set(chord)].sort()` holds exactly the chord's classes, without duplicates, in string order |
| Harmony.LexSortedTriad | src/lib/serverMidiComparison.ts:152 | [0,4,7] sorts to itself |
| Harmony.LexSortedRepeatedC | src/lib/serverMidiComparison.ts:152 | three C's collapse to [0] |
| Harmony.ChordAt | src/lib/serverMidiComparison.ts:150-152 | a window yields a chord iff it holds three or more notes before de-duplication |
| Harmony.ChordsOver | src/lib/serverMidiComparison.ts:150-152 | at most one chord per window, each duplicate-free with classes in 0..11 |
| Harmony.ChordsOverStep | src/lib/serverMidiComparison.ts:150-152 | each window appends its sorted chord when it holds three or more notes |
| Harmony.Chords | src/lib/serverMidiComparison.ts:140-153 | every extracted chord is duplicate-free with classes in 0..11 |
| Harmony.ExtractChords | src/lib/serverMidiComparison.ts:140-153 | the imperative grouping and filtering computes exactly `Chords` |
| Harmony.AddWindowChord | src/lib/serverMidiComparison.ts:150-152 | one pass of the window loop extends the chords by that window's chord |
| Harmony.ThreeNotesInFirstWindow | src/lib/serverMidiComparison.ts:140-153 | three notes in window 0 give one chord, their sorted classes |
| Harmony.SinglePitchClassChord | src/lib/serverMidiComparison.ts:151-152 | three middle C's at once give the one-class chord [0] |
| Harmony.CommonChords | src/lib/serverMidiComparison.ts:113-115 | a chord of list 1 is kept iff some chord of list 2 contains all its classes |
| Harmony.CommonChordsWithSelf | src/lib/serverMidiComparison.ts:113-115 | chords drawn from list 2 are all kept |
| Harmony.CommonChordsEdgeCases | src/lib/serverMidiComparison.ts:113-117 | nothing is kept against no chords, everything against the same list |
| Harmony.HarmonicScore | src/lib/serverMidiComparison.ts:117 | `common / max(n1, n2, 1)` lies in [0,1], is 0 when either list is empty and 1 for the same non-empty list |
| Harmony.HarmonicSimilarity | src/lib/serverMidiComparison.ts:108-118 | the harmonic score lies in [0,1] |
| Harmony.HarmonicSelfSimilarity | src/lib/serverMidiComparison.ts:108-118 | a document with a chord scores 1 against itself |
| Harmony.TriadMatchesTriad | src/lib/serverMidiComparison.ts:108-153 | a C-major triad struck at once gives the chord [0,4,7] and harmonic score 1 |
| EnhancedComparison.Blend | src/lib/serverMidiComparison.ts:66-71 | with four scores in [0,1] the blend lies in [0,1] and is 1 iff all four are 1 |
| EnhancedComparison.ServerOutputNote | src/lib/serverMidiComparison.ts:84-89 | keeps pitch and time, duration as the client does, velocity raised to at least 0.7 and kept when already 0.7 or more |
| EnhancedComparison.IntervalSumTelescopes | src/lib/serverMidiComparison.ts:188-191 | the sum of successive onset differences is last onset minus first |
| EnhancedComparison.AverageInterval | src/lib/serverMidiComparison.ts:188-191 | 1 for fewer than two notes, otherwise (last onset − first onset) / (n − 1) |
| EnhancedComparison.Tempo | src/lib/serverMidiComparison.ts:188-194 | the tempo estimate lies in 0..600 |
| EnhancedComparison.BeatsBounded | src/lib/serverMidiComparison.ts:193 | an interval of at least 0.1 s gives at most 600 beats per minute |
| EnhancedComparison.TempoFromEnds | src/lib/serverMidiComparison.ts:188-194 | the tempo depends only on the first and last onsets and the note count |
| EnhancedComparison.TempoOfFewNotes | src/lib/serverMidiComparison.ts:188-194 | fewer than two notes give 60 |
| EnhancedComparison.TempoSimilarity | src/lib/serverMidiComparison.ts:195 | undefined (NaN) exactly when both tempos are 0; otherwise in [0,1] and 1 iff the tempos are equal |
| EnhancedComparison.Join | src/lib/serverMidiComparison.ts:185 | joining one part yields that part |
| EnhancedComparison.JoinSeparators | src/lib/serverMidiComparison.ts:185 | joining n dash-free parts with '-' puts exactly n-1 dashes in the label |
| EnhancedComparison.NoteNamesHaveNoDash | src/lib/serverMidiComparison.ts:185 | no pitch-class name contains '-' |
| EnhancedComparison.ChordLabel | src/lib/serverMidiComparison.ts:185 | an empty chord is named "", a one-class chord by that class's name |
| EnhancedComparison.ChordLabelDashes | src/lib/serverMidiComparison.ts:185 | a chord label has one dash fewer than the chord has classes |
| EnhancedComparison.MajorTriadLabel | src/lib/serverMidiComparison.ts:185 | [0,4,7] is labelled "C-E-G" |
| EnhancedComparison.CommonChordLabels | src/lib/serverMidiComparison.ts:183-204 | the labels of the first min(5, n) common chords in filter order, each naming a chord of document 1 contained in a chord of document 2 |
| EnhancedComparison.LabelsOfCommonChords | src/lib/serverMidiComparison.ts:183-185 | each label of a common chord names a common chord |
| EnhancedComparison.GenerateAnalysisDetails | src/lib/serverMidiComparison.ts:180-217 | the common-chord labels; intervals [3,4,5,7]; the two tempos `round(60 / max(avgInterval, 0.1))`, in 0..600, and their similarity, undefined iff both are 0; keys named from the table; the raw key distance, the absolute difference of the two key numbers, in 0..11, 0 iff same key, never below the circular distance |
| EnhancedComparison.KeyDistanceUnwrapped | src/lib/serverMidiComparison.ts:201 | a C document against a B document reports key distance 11, where the circular distance is 1 |
| EnhancedComparison.EnhancedMidiComparison | src/lib/serverMidiComparison.ts:40-106 | key-set totals and intersection count as in the basic comparison; the harmonic, rhythm and key scores are those of the two note lists; the similarity is 0.4·basic + 0.3·harmonic + 0.2·rhythm + 0.1·key; the details are `generateAnalysisDetails` of the two lists; all scores in [0,1]; output velocities at least 0.7 |
| EnhancedComparison.EnhancedNotes | src/lib/serverMidiComparison.ts:78-90 | the enhanced track is the server conversion of the kept notes |
| EnhancedComparison.EnhancedAgreesWithBasic | src/lib/serverMidiComparison.ts:47-90 | the enhanced counts equal the basic ones and its track is the basic track with velocities raised to 0.7 |
| EnhancedComparison.EmptyDocumentsScores | src/hooks/useMidiComparison.ts:60 | two documents without notes get basic similarity 0 and enhanced similarity 0.1 in the model, where the source gives NaN |
| EnhancedComparison.EnhancedSelfComparison | src/lib/serverMidiComparison.ts:40-106 | a document with a chord and two or more notes scores 1 on every measure against itself, with key distance 0 and equal tempos |
| MidiEncoder.ToInt32 | src/hooks/useAudioToMidi.ts:249 | the shift's 32-bit conversion lies in the signed range, agrees with the value modulo 2^32 and keeps small values |
| MidiEncoder.ByteOf | src/hooks/useAudioToMidi.ts:249 | `(value >> 8i) & 0xFF` is a byte |
| MidiEncoder.IntToBytesSpec | src/hooks/useAudioToMidi.ts:246-252 | `count` bytes (none for a non-positive count), each in 0..255 |
| MidiEncoder.IntToBytes | src/hooks/useAudioToMidi.ts:246-252 | the loop emits exactly the specified bytes, most significant first |
| MidiEncoder.LeadingByte | src/hooks/useAudioToMidi.ts:248-249 | the first of count+1 bytes is the highest byte and the rest are the count-byte encoding |
| MidiEncoder.IntToBytesLowBits | src/hooks/useAudioToMidi.ts:246-252 | reading the bytes back big-endian gives the 32-bit value modulo 2^(8·count) |
| MidiEncoder.IntToBytesRoundTrip | src/hooks/useAudioToMidi.ts:246-252 | four bytes read back give the value modulo 2^32, and the value itself for 0 ≤ value < 2^32 |
| MidiEncoder.DeltaBytes | src/hooks/useAudioToMidi.ts:217-221 | a delta below 128 is the single byte itself |
| MidiEncoder.DeltaIsOneByte | src/hooks/useAudioToMidi.ts:213-221 | both deltas used (0 and 96) are one byte, so the two-byte branch is never taken |
| MidiEncoder.DeltaTime | src/hooks/useAudioToMidi.ts:213 | the delta is 0 exactly for the first note, and fits in 0..127 |
| MidiEncoder.Velocity | src/hooks/useAudioToMidi.ts:214 | the velocity lies in 64..95 |
| MidiEncoder.NoteEvents | src/hooks/useAudioToMidi.ts:213-227 | each note emits eight bytes, all in 0..255 |
| MidiEncoder.NoteEventsBytes | src/hooks/useAudioToMidi.ts:213-227 | the eight bytes are delta, note-on 0x90, clamped pitch, velocity, 96, note-off 0x80, the same pitch, 0 |
| MidiEncoder.NoteEventsList | src/hooks/useAudioToMidi.ts:212-228 | n notes emit 8·n bytes, all in 0..255 |
| MidiEncoder.NoteEventsAt | src/hooks/useAudioToMidi.ts:212-228 | bytes 8k..8k+8 of the note events are note k's events |
| MidiEncoder.Limited | src/hooks/useAudioToMidi.ts:205 | the first min(n, 8) notes |
| MidiEncoder.AppendNote | src/hooks/useAudioToMidi.ts:212-228 | one pass of the note loop appends that note's events |
| MidiEncoder.BuildTrackData | src/hooks/useAudioToMidi.ts:204-231 | the pushes build exactly the specified track data |
| MidiEncoder.CopyInto | src/hooks/useAudioToMidi.ts:238-241 | `set` writes the source at the offset and leaves the rest of the buffer unchanged |
| MidiEncoder.CreateOptimizedMidi | src/hooks/useAudioToMidi.ts:195-244 | the new buffer holds header, track header and track data; the result depends only on the notes and the velocity draws (`duration` unused) |
| MidiEncoder.TrackData | src/hooks/useAudioToMidi.ts:204-231 | the track data is 19 + 8·min(n, 8) bytes: 15 meta bytes, 8 per note, 4 end-of-track bytes |
| MidiEncoder.MidiFile | src/hooks/useAudioToMidi.ts:195-244 | the file is 41 + 8·min(n, 8) bytes: 22 bytes of headers and length before the track data |
| MidiEncoder.MidiFileLayout | src/hooks/useAudioToMidi.ts:196-241 | the file starts with the 14-byte MThd header and "MTrk", then time signature and tempo, ends with end-of-track, and every entry is a byte |
| MidiEncoder.TrackLayout | src/hooks/useAudioToMidi.ts:204-231 | the track data starts with time signature and tempo and ends with end-of-track |
| MidiEncoder.TrackLengthField | src/hooks/useAudioToMidi.ts:233-236 | the MTrk length field reads back as the number of bytes after it |
| MidiEncoder.NoteEventAt | src/hooks/useAudioToMidi.ts:212-241 | file bytes 37+8k..45+8k are note k's delta, note-on, clamped pitch, velocity and note-off |
| AudioToMidi.SumSquares | src/hooks/useAudioToMidi.ts:172-175 | the energy accumulator is non-negative |
| AudioToMidi.LevelPitch | src/hooks/useAudioToMidi.ts:180-181 | the chunk's pitch is clamped to 0..127 |
| AudioToMidi.PeakPitch | src/hooks/useAudioToMidi.ts:172-181 | a chunk's pitch lies in 0..127 |
| AudioToMidi.RmsForms | src/hooks/useAudioToMidi.ts:172-181 | in terms of the RMS: loud iff rms > 0.15, pitch = clamp(48 + floor(rms·36), 0, 127) |
| AudioToMidi.RmsThreshold | src/hooks/useAudioToMidi.ts:176-178 | rms > 0.15 iff the sum of squares exceeds 0.0225 per sample |
| AudioToMidi.Loud | src/hooks/useAudioToMidi.ts:176-178 | a loud chunk is non-empty and has some energy |
| AudioToMidi.RmsPitch | src/hooks/useAudioToMidi.ts:176-180 | floor(rms·36) is the integer square root of 1296 times the mean square |
| AudioToMidi.LoudPitchRange | src/hooks/useAudioToMidi.ts:178-181 | a chunk above the threshold gets a pitch in 53..127 |
| AudioToMidi.ChunkSize | src/hooks/useAudioToMidi.ts:164 | at least 1024, and `max(1024, floor(length/maxNotes))` for positive maxNotes |
| AudioToMidi.ChunkAt | src/hooks/useAudioToMidi.ts:168-169 | each chunk is non-empty and at most the chunk size |
| AudioToMidi.ChunkPeak | src/hooks/useAudioToMidi.ts:168-182 | a chunk contributes a pitch iff it is loud, and then its pitch, in 53..127 |
| AudioToMidi.Collect | src/hooks/useAudioToMidi.ts:167 | the loop stops after maxNotes peaks: at most max(budget, 0) pitches are collected |
| AudioToMidi.CollectSources | src/hooks/useAudioToMidi.ts:167-183 | every collected pitch is the level of some chunk at or after the start sample |
| AudioToMidi.CollectRange | src/hooks/useAudioToMidi.ts:167-183 | every collected peak is in the contributed range |
| AudioToMidi.CollectStep | src/hooks/useAudioToMidi.ts:167-183 | one chunk step keeps peaks-so-far plus the rest equal to the whole collection |
| AudioToMidi.WithTriad | src/hooks/useAudioToMidi.ts:186-190 | the padded list has at least two entries and begins with the peaks found |
| AudioToMidi.AnalyzeAudioPeaks | src/hooks/useAudioToMidi.ts:162-193 | the nested loops compute exactly the specified peak list |
| AudioToMidi.AudioPeaks | src/hooks/useAudioToMidi.ts:162-193 | the peak list always has at least two entries |
| AudioToMidi.CollectPeaks | src/hooks/useAudioToMidi.ts:167-183 | the chunk loop collects exactly the specified peaks |
| AudioToMidi.CollectChunk | src/hooks/useAudioToMidi.ts:168-182 | one chunk's pass keeps the loop invariant |
| AudioToMidi.ChunkLevel | src/hooks/useAudioToMidi.ts:172-181 | the inner loop decides loudness and, when loud, the pitch |
| AudioToMidi.ChunkSumSquares | src/hooks/useAudioToMidi.ts:172-175 | the inner loop sums the squares of the chunk |
| AudioToMidi.AudioPeaksLength | src/hooks/useAudioToMidi.ts:162-193 | the result has at least 2 and at most max(maxNotes, 3) entries |
| AudioToMidi.AudioPeaksRange | src/hooks/useAudioToMidi.ts:162-193 | every returned pitch lies in 53..134 (the added third and fifth are not clamped) |
| AudioToMidi.SilentCollect | src/hooks/useAudioToMidi.ts:167-183 | silence yields no peaks |
| AudioToMidi.SilenceGivesTriad | src/hooks/useAudioToMidi.ts:186-187 | silence yields the C-major triad [60,64,67] |
| AudioToMidi.OnePeakGivesTriad | src/hooks/useAudioToMidi.ts:188-189 | a single peak p yields [p, p+4, p+7] |
| AudioToMidi.FallbackNotes | src/hooks/useAudioToMidi.ts:146-153 | the fallback picks one of the three scales |
| AudioToMidi.ScaleShapes | src/hooks/useAudioToMidi.ts:146-150 | each scale has 8 strictly rising notes from 60 to 72 |
| AudioToMidi.CreateFallbackMidi | src/hooks/useAudioToMidi.ts:144-160 | the fallback bytes are the encoding of the chosen scale |
| AudioToMidi.FallbackLength | src/hooks/useAudioToMidi.ts:153-155 | a fallback file is 105 bytes |
| AudioToMidi.ConvertAudio | src/hooks/useAudioToMidi.ts:112-142 | an abort always cancels; otherwise an undecodable file falls back to the encoding of the chosen scale, and a decoded one yields the encoding of its peaks with twelve requested (at least two notes) |
| ComparisonSession.Session.constructor | src/hooks/useMidiComparison.ts:41-44 | no results, not running, no link |
| ComparisonSession.Session.CompareFiles | src/hooks/useMidiComparison.ts:93-130 | server mode shows only the enhanced result and client mode only the basic one; a throwing comparison keeps both results; the link changes only when created; the flag ends cleared; never both results |
| ComparisonSession.Session.ResetResults | src/hooks/useMidiComparison.ts:132-139 | both results and the link are cleared and the flag is kept |
| ComparisonSession.Session.DownloadName | src/hooks/useMidiComparison.ts:141-145 | a download is named only when a link exists, with the common-notes file name |
| ComparisonSession.CommonNotesFileName | src/hooks/useMidiComparison.ts:145 | the name is 18 characters longer than the two file names together |
| ComparisonSession.FileNameParts | src/hooks/useMidiComparison.ts:145 | the name is the prefix, name 1, '_', name 2 and ".mid", each readable back |
| ComparisonSession.FirstComparison | src/hooks/useMidiComparison.ts:93-130 | a fresh hook's first comparison shows exactly the comparison of the two documents for its mode |
| MidiApp.ProcessMidiFile | src/hooks/useMidiApp.ts:34-56 | a document exactly when the decoder succeeds, carrying the file's name and the decoded tracks and length |
| MidiApp.Present | src/hooks/useMidiApp.ts:159-160 | the count of present values is at most 2, 2 iff both and 0 iff neither |
| MidiApp.App.constructor | src/hooks/useMidiApp.ts:27-31 | the initial state: no files, no data, not processing, client mode |
| MidiApp.App.UpdateFiles | src/hooks/useMidiApp.ts:59-64 | replaces both files and nothing else |
| MidiApp.App.UpdateMidiData | src/hooks/useMidiApp.ts:66-71 | replaces both documents and nothing else |
| MidiApp.App.SetProcessing | src/hooks/useMidiApp.ts:73-78 | replaces the flag and nothing else |
| MidiApp.App.SetProcessingMode | src/hooks/useMidiApp.ts:80-85 | replaces the mode and nothing else |
| MidiApp.App.LoadMidiFile | src/hooks/useMidiApp.ts:88-121 | a decoded file goes into its slot only; a rejected one changes no slot; the flag ends cleared and the mode is kept |
| MidiApp.App.ClearSlot | src/hooks/useMidiApp.ts:124-143 | empties exactly that slot's file and document |
| MidiApp.App.ResetAll | src/hooks/useMidiApp.ts:146-152 | returns to the initial state |
| MidiApp.App.HasFiles | src/hooks/useMidiApp.ts:156 | both files are present iff the file count is 2 |
| MidiApp.App.HasMidiData | src/hooks/useMidiApp.ts:157 | both documents are present iff the document count is 2 |
| MidiApp.App.CanCompare | src/hooks/useMidiApp.ts:158 | comparing is possible iff both documents are loaded and nothing runs |
| MidiApp.App.FileCount | src/hooks/useMidiApp.ts:159 | at most 2, and 2 iff both files are present |
| MidiApp.App.MidiDataCount | src/hooks/useMidiApp.ts:160 | at most 2, and 2 iff both documents are present |
| MidiApp.App.CanCompareNeedsBoth | src/hooks/useMidiApp.ts:156-160 | comparing is possible iff both documents are loaded and nothing runs |
| MidiApp.LoadThenClear | src/hooks/useMidiApp.ts:88-143 | loading into a slot and clearing it leaves that slot empty, the other as it was, and comparing impossible |
| MidiApp.LoadBoth | src/hooks/useMidiApp.ts:88-121 | two successful loads make the documents comparable, with both counts 2 |
| Visualizer.OctaveText | src/components/MidiVisualizer.tsx:59-61 | the octave text is non-empty and has no '#' |
| Visualizer.MidiNoteName | src/components/MidiVisualizer.tsx:57-62 | a note name has at least two characters |
| Visualizer.NoteNameRoundTrip | src/components/MidiVisualizer.tsx:57-62 | every note name parses back to its note number |
| Visualizer.NoteNamesDistinct | src/components/MidiVisualizer.tsx:57-62 | different note numbers get different names |
| Visualizer.NoteNameExamples | src/components/MidiVisualizer.tsx:57-62 | 60 is "C4", 0 is "C-1", 69 is "A4", 127 is "G9" |
| Visualizer.IsBlackKey | src/components/MidiVisualizer.tsx:101 | a key is black iff the name of its pitch class carries a sharp |
| Visualizer.BlackKeyIsSharp | src/components/MidiVisualizer.tsx:101 | a key is black (pitch class 1, 3, 6, 8 or 10) iff its name has a sharp |
| Visualizer.MinMidi | src/components/MidiVisualizer.tsx:31 | the least note number present |
| Visualizer.MaxMidi | src/components/MidiVisualizer.tsx:32 | the greatest note number present |
| Visualizer.PianoRange | src/components/MidiVisualizer.tsx:30-32 | a range exactly for non-empty notes, with 0 ≤ min ≤ max ≤ 127 |
| Visualizer.Height | src/components/MidiVisualizer.tsx:35 | `maxMidi − minMidi + 1` is at least 1 for a proper range, and at most 128 within 0..127 |
| Visualizer.AverageVelocity | src/components/MidiVisualizer.tsx:45 | undefined (0/0) exactly when there are no notes |
| Visualizer.AverageVelocityBounds | src/components/MidiVisualizer.tsx:45 | the average lies within any bounds of all velocities |
| Visualizer.TimeScale | src/components/MidiVisualizer.tsx:36 | the document's duration spans exactly 800 pixels; a zero duration counts as one second (800 per second) |
| Visualizer.ProcessedData | src/components/MidiVisualizer.tsx:23-47 | nothing without a document; otherwise the notes sorted by onset and a permutation of all notes, their count, their range (present iff notes), the time scale of the duration and their average velocity |
| Visualizer.ViewRangeIsNoteRange | src/components/MidiVisualizer.tsx:26-32 | every note lies in the range and both ends are note numbers present |
| Visualizer.ViewKeepsOnsetTies | src/components/MidiVisualizer.tsx:27 | the stable sort keeps notes with equal onsets in their original order |
| Visualizer.Keyboard | src/components/MidiVisualizer.tsx:99-111 | min(20, height) keys, key i being maxMidi - i with its name and black-key flag; none without a range |
| Visualizer.KeyboardDescends | src/components/MidiVisualizer.tsx:99-111 | the keys descend one semitone at a time and all labels differ |
| Visualizer.Rem800 | src/components/MidiVisualizer.tsx:130 | JavaScript `% 800` takes the sign of the dividend, is smaller than 800 in size, and differs from it by a whole multiple of 800 |
| Visualizer.NoteColor | src/components/MidiVisualizer.tsx:49-55 | each of the four colours is chosen exactly on its velocity band: above 101.6, 76.2–101.6, 50.8–76.2, at most 50.8 |
| Visualizer.NoteColorMonotone | src/components/MidiVisualizer.tsx:49-55 | a louder note never gets a fainter colour |
| Visualizer.NoteColorBands | src/components/MidiVisualizer.tsx:49-55 | the bands begin at 50.8, 76.2 and 101.6; velocities in 0..1 all get the faintest |
| Visualizer.BoxesFrom | src/components/MidiVisualizer.tsx:129-139 | one box per visible considered note, in strictly increasing note order, each the box drawn for that note |
| Visualizer.BoxGeometry | src/components/MidiVisualizer.tsx:129-139 | each box is at its note's row within 0..300, at the scaled onset wrapped at 800, at least 2 wide with the scaled duration, in its velocity's colour |
| Visualizer.BoxesCoverVisible | src/components/MidiVisualizer.tsx:129-134 | every visible considered note has a box, so with the order each has exactly one |
| Visualizer.NoteBoxes | src/components/MidiVisualizer.tsx:129-134 | at most 200 boxes, each for one of the first 200 sorted notes and within the roll |
| Visualizer.BoxesCount | src/components/MidiVisualizer.tsx:129-134 | the number of boxes is the number of visible notes considered |
| Visualizer.VisibleNotes | src/components/MidiVisualizer.tsx:131-134 | no note lies above the top row; a note is skipped iff it is more than 20 semitones below the highest |
| ResultsDisplay.SimilarityColor | src/components/ComparisonResults.tsx:27-31 | high iff the score is at least 0.7, medium iff in [0.4, 0.7), low iff below 0.4 |
| ResultsDisplay.SimilarityLabel | src/components/ComparisonResults.tsx:33-39 | one of the five labels; "Excellent Match" iff the score is at least 0.8, "Minimal Match" iff below 0.2 |
| ResultsDisplay.LabelBands | src/components/ComparisonResults.tsx:33-39 | the label is the one of five whose band [floor, next floor) holds the score |
| ResultsDisplay.BandsMonotone | src/components/ComparisonResults.tsx:27-39 | a higher score never gets a weaker label or colour |
| ResultsDisplay.LabelMatchesColor | src/components/ComparisonResults.tsx:27-39 | "Excellent Match" is always high; "Low" and "Minimal Match" always low; medium is always good or moderate |
| ResultsDisplay.Percentage | src/components/ComparisonResults.tsx:42 | a score in [0,1] gives 0..100, and 100 exactly for scores in [0.995, 1.005) |
| ResultsDisplay.Coverage | src/components/ComparisonResults.tsx:103 | 0 for an empty total or no common notes, 0..100 when common ≤ total, 100 when all notes are common |
| ResultsDisplay.Unique | src/components/ComparisonResults.tsx:113-122 | the unique and common counts add up to the total, and the unique count is in 0..total when common ≤ total |
| ResultsDisplay.ShowResult | src/components/ComparisonResults.tsx:41-121 | the panel's colour, percentage and label are those of the score; its coverages and unique counts are those of the common count against each total |
| ResultsDisplay.PanelOfComparison | src/components/ComparisonResults.tsx:103-121 | for a basic result the percentage and both coverages lie in 0..100 and each unique count is the number of that document's keys the other lacks |
| ResultsDisplay.PanelOfSelfComparison | src/components/ComparisonResults.tsx:27-121 | a document against itself shows 100%, "Excellent Match", high colour, full coverage and nothing unique |

## Left out

- Decoding and encoding MIDI with the Tone.js library: the decoder's result is the `decoded` parameter of `MidiApp.ProcessMidiFile`, and a rethrown decoding error is `None`. The common-notes track is kept as the note list handed to the encoder. The encoder's own ordering of added notes is not modelled.
- Web Audio decoding, File/Blob/URL creation and revocation, the DOM download link, toasts and console output. These are I/O. The link is an input (`ComparisonSession.Outcome`). `ResetResults` only drops it, and revoking it is left to the browser.
- The module-level promise cache and the abort pipeline of the audio hook (src/hooks/useAudioToMidi.ts:17-101). These serve concurrency. The cache also keeps rejected and cancelled promises (:90). Only the abort checks before each stage survive, as the `aborted` flag of `AudioToMidi.ConvertAudio`.
- `Math.random`: the velocity draws and the scale choice are inputs in [0, 1).
- Floating-point artefacts. The model uses exact reals throughout:
  - binary rounding inside `toFixed(2)` and of `.xx5` onsets;
  - the `Math.sqrt` result;
  - Float32 samples;
  - the rounding of the blended sum.
- NoteComparison.KeyOf: a negative onset rounds half-up here, where `toFixed` rounds half away from zero. The decoder yields no negative onsets.
- Harmony.OrderedWindows: all windows are visited in ascending order, negative ones included. JavaScript `Object.values` visits only the array-index keys (≥ 0) in ascending order and visits keys such as "-1" afterwards, in insertion order. Only a negative onset makes a negative window, and the decoder yields none.
- NoteComparison.CompareMidiFiles: two documents without notes get similarity 0 (the corrected `NoteComparison.Similarity`). The source divides 0 by 0 there and reports NaN (src/hooks/useMidiComparison.ts:60); `NoteComparison.SimilarityAsWritten` models that quotient.
- EnhancedComparison.EnhancedMidiComparison: for two documents without notes the blend is 0.1 (basic 0, harmony 0, rhythm 0, key 1), where the source's blend is NaN (src/lib/serverMidiComparison.ts:55,66-71). `EnhancedComparison.EmptyDocumentsScores` states both values.
- NoteComparison.DisjointComparison: its similarity 0 covers two documents without notes too, for which the source gives NaN.
- ResultsDisplay.PanelOfComparison: its percentage in 0..100 covers two documents without notes too, for which the source shows "NaN%" (src/components/ComparisonResults.tsx:42).
- `duration || 0.5` replaces a zero duration. An absent or NaN duration is not modelled.
- AudioToMidi.ChunkSize: the chunk size for `maxNotes ≤ 0` (division by zero or a negative size in the source) is taken as 1024. The loop collects nothing then, so the size is immaterial.
- ComparisonSession.Session.CompareFiles: only the final state is stated. The intermediate `isProcessing = true` between the two awaits is not observable in the model.
- ComparisonSession.Session.CompareFiles: a new link replaces the old one without revoking it, so the old object URL leaks. The model does not track URLs that are no longer shown.
- ComparisonSession.Session: the two comparisons are held as fields set by the constructor to `CompareMidiFiles` and `EnhancedMidiComparison`. `CompareFiles` states its result through those fields, and `FirstComparison` connects them to the functions.
- The UI beyond the modelled conversions. This covers:
  - the players, uploaders, toggles, progress animation, navigation, sections and pages;
  - the grid lines and pixel widths of the piano roll;
  - `useMidiFiles.ts`, which duplicates `processMidiFile`.
- `EnhancedComparisonResults.tsx`: its colour, label and coverage code repeats `ComparisonResults.tsx:27-39,103,109`, modelled in `ResultsDisplay`.
- Several loops are split into a loop method plus a method for one pass (`Harmony.AddWindowChord`, `MidiEncoder.AppendNote`, `AudioToMidi.CollectChunk`). This keeps each proof small. The computation is the source's.

## Findings

| source | as written | input that shows it | evidently intended | confidence | as-written member | corrected member |
|---|---|---|---|---|---|---|
| src/hooks/useMidiComparison.ts:60 | `commonNotes / Math.max(noteSet1.size, noteSet2.size)` with no guard, also at src/lib/serverMidiComparison.ts:55 | two documents with no notes: 0 / 0 is NaN, shown as "NaN%" and carried into the enhanced blend | similarity 0 when both key sets are empty, a value in [0,1] always | high; not executed | NoteComparison.SimilarityAsWritten | NoteComparison.Similarity |
