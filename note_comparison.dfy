/** Basic note-set comparison: every note is reduced to a key (pitch, onset in
    hundredths of a second); the two documents' key sets are intersected, the
    similarity is the shared share of the larger set, and the notes of the
    first document whose key is shared form the output track. */
module NoteComparison {
  import opened MidiTypes

  /** The comparison key `${midi}_${time.toFixed(2)}`. */
  datatype NoteKey = NoteKey(pitch: int, centis: int)

  /** `time.toFixed(2)` of a non-negative onset, as a whole number of hundredths. */
  function Centis(t: real): (c: int)
    ensures (c as real) - 0.5 <= t * 100.0 < (c as real) + 0.5
    ensures 0.0 <= t ==> 0 <= c
  {
    Round(t * 100.0)
  }

  /** `${note.midi}_${note.time.toFixed(2)}`: the pitch and the onset in
      hundredths of a second. */
  function KeyOf(n: Note): (k: NoteKey)
    ensures k.pitch == n.midi && 0 <= k.pitch <= 127
    ensures (k.centis as real) - 0.5 <= n.time * 100.0 < (k.centis as real) + 0.5
  {
    NoteKey(n.midi, Centis(n.time))
  }

  /** Two notes share a key only when they share a pitch and their onsets lie
      less than a hundredth of a second apart. */
  lemma SameKeyNearOnset(a: Note, b: Note)
    requires KeyOf(a) == KeyOf(b)
    ensures a.midi == b.midi
    ensures -1.0 < (a.time - b.time) * 100.0 < 1.0
  {
  }

  /** `new Set(notes.map(key))`: the distinct keys of a note list, never more
      than there are notes. */
  function KeySet(notes: seq<Note>): (s: set<NoteKey>)
    ensures |s| <= |notes|
  {
    KeySetBounded(notes);
    set n | n in notes :: KeyOf(n)
  }

  lemma {:induction false} KeySetBounded(notes: seq<Note>)
    ensures |set n | n in notes :: KeyOf(n)| <= |notes|
  {
    if notes != [] {
      KeySetBounded(notes[1..]);
      assert (set n | n in notes :: KeyOf(n)) ==
        {KeyOf(notes[0])} + (set n | n in notes[1..] :: KeyOf(n));
    }
  }

  /** `commonNotesSet`: the keys present in both documents. */
  function CommonKeys(notes1: seq<Note>, notes2: seq<Note>): (s: set<NoteKey>)
    ensures |s| <= |KeySet(notes1)| && |s| <= |KeySet(notes2)|
    ensures forall k :: k in s <==> k in KeySet(notes1) && k in KeySet(notes2)
  {
    IntersectionBounded(KeySet(notes1), KeySet(notes2));
    KeySet(notes1) * KeySet(notes2)
  }

  lemma IntersectionBounded<T>(a: set<T>, b: set<T>)
    ensures |a * b| <= |a| && |a * b| <= |b|
  {
    assert |a - b| == |a| - |a * b|;
    assert |b - a| == |b| - |b * a|;
    assert a * b == b * a;
  }

  /** The similarity as written: `common / Math.max(size1, size2)`, which is
      0/0 = NaN (here `None`) when both key sets are empty. */
  function SimilarityAsWritten(common: nat, size1: nat, size2: nat): (r: Option<real>)
    ensures r == None <==> size1 == 0 && size2 == 0
  {
    if Max(size1, size2) == 0 then None
    else Some(common as real / Max(size1, size2) as real)
  }

  /** Both documents empty: the similarity as written is not a number. */
  lemma EmptyComparisonIsNaN(notes1: seq<Note>, notes2: seq<Note>)
    requires notes1 == [] && notes2 == []
    ensures SimilarityAsWritten(|CommonKeys(notes1, notes2)|, |KeySet(notes1)|, |KeySet(notes2)|) == None
  {
  }

  /** The similarity of two key sets: the shared keys over the larger set,
      and 0 when both are empty. */
  function Similarity(keys1: set<NoteKey>, keys2: set<NoteKey>): (r: real)
    ensures 0.0 <= r <= 1.0
    ensures keys1 != {} || keys2 != {} ==>
              SimilarityAsWritten(|keys1 * keys2|, |keys1|, |keys2|) == Some(r)
    ensures keys1 == {} && keys2 == {} ==> r == 0.0
    ensures keys1 * keys2 == {} ==> r == 0.0
    ensures r == 1.0 <==> keys1 == keys2 && keys1 != {}
  {
    IntersectionBounded(keys1, keys2);
    FullMatchIsEquality(keys1, keys2);
    var m := Max(|keys1|, |keys2|);
    if m == 0 then 0.0 else Ratio(|keys1 * keys2|, m)
  }

  lemma FullMatchIsEquality<T>(keys1: set<T>, keys2: set<T>)
    ensures |keys1 * keys2| == Max(|keys1|, |keys2|) <==> keys1 == keys2
  {
    IntersectionBounded(keys1, keys2);
    if |keys1 * keys2| == Max(|keys1|, |keys2|) {
      SubsetOfSameSize(keys1 * keys2, keys1);
      SubsetOfSameSize(keys1 * keys2, keys2);
    }
    if keys1 == keys2 {
      assert keys1 * keys2 == keys1;
    }
  }

  lemma SubsetOfSameSize<T>(a: set<T>, b: set<T>)
    requires a <= b && |b| <= |a|
    ensures a == b
  {
    assert |b - a| == |b| - |a| == 0;
    assert b - a == {};
  }

  /** `notes1.filter(note => common.has(key(note)))`. */
  function CommonNotesList(notes1: seq<Note>, common: set<NoteKey>): (r: seq<Note>)
    ensures |r| <= |notes1|
    ensures forall n :: n in r <==> n in notes1 && KeyOf(n) in common
    ensures forall n :: multiset(r)[n] == if KeyOf(n) in common then multiset(notes1)[n] else 0
  {
    if notes1 == [] then []
    else
      var rest := CommonNotesList(notes1[1..], common);
      assert notes1 == [notes1[0]] + notes1[1..];
      if KeyOf(notes1[0]) in common then [notes1[0]] + rest else rest
  }

  /** `a` is `b` with some elements left out, the rest in their order. */
  ghost predicate IsSubsequence<T>(a: seq<T>, b: seq<T>)
    decreases |b|
  {
    a == [] || (b != [] && ((a[0] == b[0] && IsSubsequence(a[1..], b[1..])) || IsSubsequence(a, b[1..])))
  }

  /** The common-note list keeps the first document's order. */
  lemma {:induction false} CommonNotesListIsSubsequence(notes1: seq<Note>, common: set<NoteKey>)
    ensures IsSubsequence(CommonNotesList(notes1, common), notes1)
    decreases |notes1|
  {
    if notes1 != [] {
      CommonNotesListIsSubsequence(notes1[1..], common);
    }
  }

  /** Every note of the first document is kept when every key is shared. */
  lemma {:induction false} CommonNotesListAll(notes1: seq<Note>, common: set<NoteKey>)
    requires forall n :: n in notes1 ==> KeyOf(n) in common
    ensures CommonNotesList(notes1, common) == notes1
  {
    if notes1 != [] {
      CommonNotesListAll(notes1[1..], common);
    }
  }

  /** The note written to the output track: `duration || 0.5`, the rest unchanged. */
  function ClientOutputNote(n: Note): (r: Note)
    ensures r.midi == n.midi && r.time == n.time && r.velocity == n.velocity
    ensures r.duration != 0.0
    ensures n.duration != 0.0 ==> r.duration == n.duration
  {
    n.(duration := if n.duration == 0.0 then 0.5 else n.duration)
  }

  /** The `forEach` that adds each common note to the output track, converted by `convert`. */
  method AddNotes(common: seq<Note>, convert: Note -> Note) returns (track: seq<Note>)
    ensures |track| == |common|
    ensures forall i :: 0 <= i < |common| ==> track[i] == convert(common[i])
  {
    track := [];
    var i := 0;
    while i < |common|
      invariant 0 <= i <= |common|
      invariant |track| == i
      invariant forall j :: 0 <= j < i ==> track[j] == convert(common[j])
    {
      track := track + [convert(common[i])];
      i := i + 1;
    }
  }

  /** The function that `AddNotes` computes. */
  function ConvertAll(notes: seq<Note>, convert: Note -> Note): (r: seq<Note>)
    ensures |r| == |notes|
    ensures forall i :: 0 <= i < |notes| ==> r[i] == convert(notes[i])
  {
    seq(|notes|, i requires 0 <= i < |notes| => convert(notes[i]))
  }

  /** The client-side comparison result; `notes` is the single track of the
      generated download file, before it is encoded. */
  datatype ComparisonResult = ComparisonResult(
    similarity: real,
    commonNotes: nat,
    totalNotes1: nat,
    totalNotes2: nat,
    notes: seq<Note>)

  /** `compareMidiFiles`. */
  function CompareMidiFiles(midi1: MidiData, midi2: MidiData): (r: ComparisonResult)
    ensures var notes1, notes2 := AllNotes(midi1.tracks), AllNotes(midi2.tracks);
      && r.totalNotes1 == |KeySet(notes1)| <= |notes1|
      && r.totalNotes2 == |KeySet(notes2)| <= |notes2|
      && r.commonNotes == |CommonKeys(notes1, notes2)|
      && r.commonNotes <= r.totalNotes1 && r.commonNotes <= r.totalNotes2
      && 0.0 <= r.similarity <= 1.0
      && (r.similarity == 1.0 <==> KeySet(notes1) == KeySet(notes2) && notes1 != [])
      && r.similarity == Similarity(KeySet(notes1), KeySet(notes2))
      && (notes1 != [] || notes2 != [] ==>
            SimilarityAsWritten(r.commonNotes, r.totalNotes1, r.totalNotes2) == Some(r.similarity))
      && |r.notes| <= |notes1|
  {
    var notes1, notes2 := AllNotes(midi1.tracks), AllNotes(midi2.tracks);
    var keys1, keys2 := KeySet(notes1), KeySet(notes2);
    var common := CommonKeys(notes1, notes2);
    var list := CommonNotesList(notes1, common);
    var out := ConvertAll(list, ClientOutputNote);
    assert common == keys1 * keys2;
    assert notes1 != [] ==> KeyOf(notes1[0]) in keys1;
    assert notes2 != [] ==> KeyOf(notes2[0]) in keys2;
    ComparisonResult(Similarity(keys1, keys2), |common|, |keys1|, |keys2|, out)
  }

  /** Every written note is a note of the first document whose key the second
      document shares, with a zero duration replaced by 0.5 and nothing else changed. */
  lemma OutputNotesAreShared(midi1: MidiData, midi2: MidiData)
    ensures var r, notes1 := CompareMidiFiles(midi1, midi2), AllNotes(midi1.tracks);
      forall i :: 0 <= i < |r.notes| ==>
        r.notes[i].duration != 0.0 &&
        exists m :: m in notes1 && KeyOf(m) in KeySet(AllNotes(midi2.tracks)) &&
          r.notes[i] == ClientOutputNote(m)
  {
    BasicNotes(midi1, midi2);
    ConvertedCommonNotesAreShared(AllNotes(midi1.tracks), AllNotes(midi2.tracks));
  }

  /** The written notes are the common-note list, each converted. */
  lemma BasicNotes(midi1: MidiData, midi2: MidiData)
    ensures var notes1, notes2 := AllNotes(midi1.tracks), AllNotes(midi2.tracks);
      CompareMidiFiles(midi1, midi2).notes ==
        ConvertAll(CommonNotesList(notes1, CommonKeys(notes1, notes2)), ClientOutputNote)
  {
  }

  lemma ConvertedCommonNotesAreShared(notes1: seq<Note>, notes2: seq<Note>)
    ensures var out := ConvertAll(CommonNotesList(notes1, CommonKeys(notes1, notes2)), ClientOutputNote);
      forall i :: 0 <= i < |out| ==>
        out[i].duration != 0.0 &&
        exists m :: m in notes1 && KeyOf(m) in KeySet(notes2) && out[i] == ClientOutputNote(m)
  {
    var list := CommonNotesList(notes1, CommonKeys(notes1, notes2));
    var out := ConvertAll(list, ClientOutputNote);
    forall i | 0 <= i < |out|
      ensures out[i].duration != 0.0 &&
        exists m :: m in notes1 && KeyOf(m) in KeySet(notes2) && out[i] == ClientOutputNote(m)
    {
      var m := list[i];
      SharedNote(notes1, notes2, m);
      assert m in notes1 && KeyOf(m) in KeySet(notes2) && out[i] == ClientOutputNote(m);
    }
  }

  lemma SharedNote(notes1: seq<Note>, notes2: seq<Note>, m: Note)
    requires m in CommonNotesList(notes1, CommonKeys(notes1, notes2))
    ensures m in notes1 && KeyOf(m) in KeySet(notes2)
  {
  }

  /** A document compared with itself matches perfectly, and its whole note
      list is written out. */
  lemma SelfComparison(midi: MidiData)
    requires AllNotes(midi.tracks) != []
    ensures var r := CompareMidiFiles(midi, midi);
      && r.similarity == 1.0
      && r.commonNotes == r.totalNotes1 == r.totalNotes2
      && r.notes == ConvertAll(AllNotes(midi.tracks), ClientOutputNote)
  {
    var notes := AllNotes(midi.tracks);
    assert KeyOf(notes[0]) in KeySet(notes);
    assert CommonKeys(notes, notes) == KeySet(notes);
    CommonNotesListAll(notes, KeySet(notes));
  }

  /** Documents with no key in common give similarity 0 and an empty output track. */
  lemma DisjointComparison(midi1: MidiData, midi2: MidiData)
    requires KeySet(AllNotes(midi1.tracks)) * KeySet(AllNotes(midi2.tracks)) == {}
    ensures CompareMidiFiles(midi1, midi2).similarity == 0.0
    ensures CompareMidiFiles(midi1, midi2).commonNotes == 0
    ensures CompareMidiFiles(midi1, midi2).notes == []
  {
    var notes1 := AllNotes(midi1.tracks);
    var list := CommonNotesList(notes1, CommonKeys(notes1, AllNotes(midi2.tracks)));
    assert forall n :: n !in list;
  }
}
