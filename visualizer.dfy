/** The piano-roll view of one document: note names, the black-key test, the
    pitch range and keyboard, the drawn note boxes and their colours. */
module Visualizer {
  import opened MidiTypes
  import opened Sorting

  // Note names.

  /** `Math.floor(midi / 12) - 1` written out: "-1" or one digit. */
  function OctaveText(octave: int): (r: string)
    requires -1 <= octave <= 9
    ensures |r| >= 1 && '#' !in r
  {
    if octave < 0 then "-1" else [('0' as int + octave) as char]
  }

  /** `getMidiNoteName`: the pitch-class name followed by the octave, where
      middle C (60) is in octave 4. */
  function MidiNoteName(m: MidiNumber): (r: string)
    ensures |r| >= 2
  {
    NoteNames[m % 12] + OctaveText(m / 12 - 1)
  }

  /** The position of `name` in the name table. */
  function NameIndex(name: string, from: nat): (r: Option<int>)
    requires from <= 12
    ensures r.Some? ==> from <= r.value < 12 && NoteNames[r.value] == name
    ensures r.None? ==> forall i :: from <= i < 12 ==> NoteNames[i] != name
    decreases 12 - from
  {
    if from == 12 then None
    else if NoteNames[from] == name then Some(from)
    else NameIndex(name, from + 1)
  }

  function ParseOctave(t: string): (r: Option<int>)
    ensures r.Some? ==> -1 <= r.value <= 9
  {
    if t == "-1" then Some(-1)
    else if |t| == 1 && '0' <= t[0] <= '9' then Some(t[0] as int - '0' as int)
    else None
  }

  /** Reads a note name back: a one- or two-letter pitch-class name, then the
      octave. */
  function ParseNoteName(s: string): (r: Option<int>)
  {
    var k := if |s| >= 2 && s[1] == '#' then 2 else 1;
    if |s| < k then None
    else
      match (NameIndex(s[..k], 0), ParseOctave(s[k..]))
      case (Some(pc), Some(octave)) => Some((octave + 1) * 12 + pc)
      case _ => None
  }

  /** The facts about the name table that reading a name back relies on. */
  lemma NameShape(pc: int)
    requires 0 <= pc < 12
    ensures var name := NoteNames[pc];
      && (|name| == 1 || (|name| == 2 && name[1] == '#'))
      && ('#' in name <==> pc in [1, 3, 6, 8, 10])
      && NameIndex(name, 0) == Some(pc)
  {
    if pc < 4 {
      NamesFromC(pc);
    } else if pc < 8 {
      NamesFromE(pc);
    } else {
      NamesFromGSharp(pc);
    }
  }

  lemma NamesFromC(pc: int)
    requires 0 <= pc < 4
    ensures var name := NoteNames[pc];
      && (|name| == 1 || (|name| == 2 && name[1] == '#'))
      && ('#' in name <==> pc in [1, 3, 6, 8, 10])
      && NameIndex(name, 0) == Some(pc)
  {
    if pc == 0 {
      assert NameIndex("C", 0) == Some(0);
    } else if pc == 1 {
      assert NameIndex("C#", 0) == Some(1);
    } else if pc == 2 {
      assert NameIndex("D", 0) == Some(2);
    } else {
      assert NameIndex("D#", 0) == Some(3);
    }
  }

  lemma NamesFromE(pc: int)
    requires 4 <= pc < 8
    ensures var name := NoteNames[pc];
      && (|name| == 1 || (|name| == 2 && name[1] == '#'))
      && ('#' in name <==> pc in [1, 3, 6, 8, 10])
      && NameIndex(name, 0) == Some(pc)
  {
    if pc == 4 {
      assert NameIndex("E", 0) == Some(4);
    } else if pc == 5 {
      assert NameIndex("F", 0) == Some(5);
    } else if pc == 6 {
      assert NameIndex("F#", 0) == Some(6);
    } else {
      assert NameIndex("G", 0) == Some(7);
    }
  }

  lemma NamesFromGSharp(pc: int)
    requires 8 <= pc < 12
    ensures var name := NoteNames[pc];
      && (|name| == 1 || (|name| == 2 && name[1] == '#'))
      && ('#' in name <==> pc in [1, 3, 6, 8, 10])
      && NameIndex(name, 0) == Some(pc)
  {
    if pc == 8 {
      assert NameIndex("G#", 0) == Some(8);
    } else if pc == 9 {
      assert NameIndex("A", 0) == Some(9);
    } else if pc == 10 {
      assert NameIndex("A#", 0) == Some(10);
    } else {
      assert NameIndex("B", 0) == Some(11);
    }
  }

  /** Every note name reads back as its note number. */
  lemma NoteNameRoundTrip(m: MidiNumber)
    ensures ParseNoteName(MidiNoteName(m)) == Some(m)
  {
    var pc, octave := m % 12, m / 12 - 1;
    var name, text := NoteNames[pc], OctaveText(octave);
    NameShape(pc);
    var s := name + text;
    var k := |name|;
    assert s[..k] == name && s[k..] == text;
    assert |name| == 1 ==> s[1] == text[0] && text[0] != '#';
    if octave >= 0 {
      assert text[0] as int - '0' as int == octave;
    }
    assert ParseOctave(text) == Some(octave);
    assert (octave + 1) * 12 + pc == m;
  }

  /** Different note numbers have different names. */
  lemma NoteNamesDistinct(m1: MidiNumber, m2: MidiNumber)
    requires MidiNoteName(m1) == MidiNoteName(m2)
    ensures m1 == m2
  {
    NoteNameRoundTrip(m1);
    NoteNameRoundTrip(m2);
  }

  lemma NoteNameExamples()
    ensures MidiNoteName(60) == "C4"
    ensures MidiNoteName(0) == "C-1"
    ensures MidiNoteName(69) == "A4"
    ensures MidiNoteName(127) == "G9"
  {
  }

  /** `[1, 3, 6, 8, 10].includes(midiNote % 12)`. */
  predicate IsBlackKey(m: MidiNumber): (b: bool)
    ensures b <==> '#' in NoteNames[PitchClass(m)]
  {
    NameShape(m % 12);
    m % 12 in [1, 3, 6, 8, 10]
  }

  /** A key is black exactly when its name carries a sharp. */
  lemma BlackKeyIsSharp(m: MidiNumber)
    ensures IsBlackKey(m) <==> '#' in MidiNoteName(m)
  {
    var name, text := NoteNames[m % 12], OctaveText(m / 12 - 1);
    NameShape(m % 12);
    assert '#' in name + text <==> '#' in name || '#' in text;
  }

  // The processed view.

  /** The lowest and highest note number of a non-empty document. */
  datatype Range = Range(minMidi: int, maxMidi: int)

  function MinMidi(notes: seq<Note>): (m: int)
    requires notes != []
    ensures forall i :: 0 <= i < |notes| ==> m <= notes[i].midi
    ensures exists i :: 0 <= i < |notes| && m == notes[i].midi
  {
    if |notes| == 1 then notes[0].midi
    else
      var rest := MinMidi(notes[1..]);
      assert forall i :: 1 <= i < |notes| ==> notes[i] == notes[1..][i - 1];
      if notes[0].midi <= rest then notes[0].midi else rest
  }

  function MaxMidi(notes: seq<Note>): (m: int)
    requires notes != []
    ensures forall i :: 0 <= i < |notes| ==> notes[i].midi <= m
    ensures exists i :: 0 <= i < |notes| && m == notes[i].midi
  {
    if |notes| == 1 then notes[0].midi
    else
      var rest := MaxMidi(notes[1..]);
      assert forall i :: 1 <= i < |notes| ==> notes[i] == notes[1..][i - 1];
      if notes[0].midi >= rest then notes[0].midi else rest
  }

  /** `Math.min(...midiNumbers)` and `Math.max(...midiNumbers)`; for no notes
      these are the infinities, here `None`. */
  function PianoRange(notes: seq<Note>): (r: Option<Range>)
    ensures r.None? <==> notes == []
    ensures r.Some? ==> 0 <= r.value.minMidi <= r.value.maxMidi <= 127
  {
    if notes == [] then None else Some(Range(MinMidi(notes), MaxMidi(notes)))
  }

  /** `maxMidi - minMidi + 1`. */
  function Height(range: Range): (h: int)
    ensures range.minMidi <= range.maxMidi ==> h >= 1
    ensures 0 <= range.minMidi <= range.maxMidi <= 127 ==> 1 <= h <= 128
  {
    range.maxMidi - range.minMidi + 1
  }

  /** The sum of the velocities (`reduce` from 0). */
  function VelocitySum(notes: seq<Note>): real
  {
    if notes == [] then 0.0 else VelocitySum(notes[..|notes| - 1]) + notes[|notes| - 1].velocity
  }

  /** `sum / allNotes.length`; 0/0 (`None`) for no notes. */
  function AverageVelocity(notes: seq<Note>): (r: Option<real>)
    ensures r.None? <==> notes == []
  {
    if notes == [] then None else Some(VelocitySum(notes) / |notes| as real)
  }

  lemma {:induction false} VelocitySumBounds(notes: seq<Note>, lo: real, hi: real)
    requires forall i :: 0 <= i < |notes| ==> lo <= notes[i].velocity <= hi
    ensures lo * |notes| as real <= VelocitySum(notes) <= hi * |notes| as real
  {
    if notes != [] {
      var front := notes[..|notes| - 1];
      assert forall i :: 0 <= i < |front| ==> front[i] == notes[i];
      VelocitySumBounds(front, lo, hi);
      assert lo * |notes| as real == lo * |front| as real + lo;
      assert hi * |notes| as real == hi * |front| as real + hi;
    }
  }

  /** The average lies within any bounds all velocities lie within. */
  lemma AverageVelocityBounds(notes: seq<Note>, lo: real, hi: real)
    requires notes != []
    requires forall i :: 0 <= i < |notes| ==> lo <= notes[i].velocity <= hi
    ensures lo <= AverageVelocity(notes).value <= hi
  {
    VelocitySumBounds(notes, lo, hi);
    var n := |notes| as real;
    var avg := VelocitySum(notes) / n;
    assert avg * n == VelocitySum(notes);
    assert (avg - lo) * n == avg * n - lo * n;
    NonNegativeFactor(avg - lo, n);
    assert (hi - avg) * n == hi * n - avg * n;
    NonNegativeFactor(hi - avg, n);
  }

  lemma NonNegativeFactor(x: real, n: real)
    requires n > 0.0 && x * n >= 0.0
    ensures x >= 0.0
  {
    if x < 0.0 {
      PositiveProduct(-x, n);
    }
  }

  /** `800 / (midiData.duration || 1)`: pixels per second. */
  function TimeScale(duration: real): (r: real)
    ensures duration > 0.0 ==> r > 0.0
    ensures duration != 0.0 ==> r * duration == 800.0
    ensures duration == 0.0 ==> r == 800.0
  {
    if duration == 0.0 then 800.0 else 800.0 / duration
  }

  datatype View = View(
    notes: seq<Note>,
    range: Option<Range>,
    timeScale: real,
    totalNotes: nat,
    avgVelocity: Option<real>)

  /** `processedData`: the notes sorted by onset (in place, so the range and
      the average are taken over the sorted notes), the range, the time scale
      and the statistics; nothing without a document. */
  function ProcessedData(data: Option<MidiData>): (r: Option<View>)
    ensures r.None? <==> data.None?
    ensures r.Some? ==>
      var all := AllNotes(data.value.tracks);
      && SortedBy(r.value.notes, (n: Note) => n.time)
      && multiset(r.value.notes) == multiset(all)
      && r.value.totalNotes == |all|
      && (r.value.range.None? <==> all == [])
      && r.value.range == PianoRange(r.value.notes)
      && r.value.timeScale == TimeScale(data.value.duration)
      && r.value.avgVelocity == AverageVelocity(r.value.notes)
  {
    match data
    case None => None
    case Some(d) =>
      var all := AllNotes(d.tracks);
      var sorted := SortBy(all, (n: Note) => n.time);
      Some(View(sorted, PianoRange(sorted), TimeScale(d.duration), |all|, AverageVelocity(sorted)))
  }

  /** The range is that of the document's notes, whatever their order. */
  lemma ViewRangeIsNoteRange(data: MidiData)
    ensures var v, all := ProcessedData(Some(data)).value, AllNotes(data.tracks);
      v.range.Some? ==>
        && (forall n :: n in all ==> v.range.value.minMidi <= n.midi <= v.range.value.maxMidi)
        && (exists n :: n in all && n.midi == v.range.value.minMidi)
        && (exists n :: n in all && n.midi == v.range.value.maxMidi)
  {
    var v, all := ProcessedData(Some(data)).value, AllNotes(data.tracks);
    if v.range.Some? {
      RangeOfSameNotes(v.notes, all);
    }
  }

  /** The range of a note list bounds, and is reached by, the notes of any
      list with the same elements. */
  lemma RangeOfSameNotes(sorted: seq<Note>, all: seq<Note>)
    requires sorted != [] && multiset(sorted) == multiset(all)
    ensures forall n :: n in all ==> MinMidi(sorted) <= n.midi <= MaxMidi(sorted)
    ensures exists n :: n in all && n.midi == MinMidi(sorted)
    ensures exists n :: n in all && n.midi == MaxMidi(sorted)
  {
    SameElements(sorted, all);
    var i :| 0 <= i < |sorted| && sorted[i].midi == MinMidi(sorted);
    var j :| 0 <= j < |sorted| && sorted[j].midi == MaxMidi(sorted);
    assert sorted[i] in all && sorted[j] in all;
    forall n | n in all
      ensures MinMidi(sorted) <= n.midi <= MaxMidi(sorted)
    {
      var k :| 0 <= k < |sorted| && sorted[k] == n;
    }
  }

  lemma SameElements<T>(a: seq<T>, b: seq<T>)
    requires multiset(a) == multiset(b)
    ensures forall x :: x in a <==> x in b
  {
    forall x
      ensures x in a <==> x in b
    {
      assert x in a <==> x in multiset(a);
      assert x in b <==> x in multiset(b);
    }
  }

  /** Notes with the same onset are drawn in document order. */
  lemma ViewKeepsOnsetTies(data: MidiData, t: real)
    ensures var v := ProcessedData(Some(data)).value;
      WithKey(v.notes, (n: Note) => n.time, t) == WithKey(AllNotes(data.tracks), (n: Note) => n.time, t)
  {
    SortByStable(AllNotes(data.tracks), (n: Note) => n.time, t);
  }

  // The keyboard.

  datatype PianoKey = PianoKey(midi: MidiNumber, name: string, black: bool)

  /** The keyboard column: `Math.min(20, pianoRollHeight)` keys from the
      highest note down; none when there are no notes. */
  function Keyboard(range: Option<Range>): (keys: seq<PianoKey>)
    requires range.Some? ==> 0 <= range.value.minMidi <= range.value.maxMidi <= 127
    ensures range.None? ==> keys == []
    ensures range.Some? ==> |keys| == Min(20, Height(range.value))
    ensures forall i :: 0 <= i < |keys| ==>
      && keys[i].midi == range.value.maxMidi - i
      && range.value.minMidi <= keys[i].midi
      && keys[i].name == MidiNoteName(keys[i].midi)
      && keys[i].black == IsBlackKey(keys[i].midi)
  {
    match range
    case None => []
    case Some(r) =>
      seq(Min(20, Height(r)), i requires 0 <= i < Min(20, Height(r)) =>
        var m: MidiNumber := r.maxMidi - i;
        PianoKey(m, MidiNoteName(m), IsBlackKey(m)))
  }

  /** The keys run strictly downwards, one semitone apart, and their names
      are all different. */
  lemma KeyboardDescends(range: Option<Range>)
    requires range.Some? ==> 0 <= range.value.minMidi <= range.value.maxMidi <= 127
    ensures var keys := Keyboard(range);
      && (forall i :: 0 < i < |keys| ==> keys[i].midi == keys[i - 1].midi - 1)
      && (forall i, j :: 0 <= i < j < |keys| ==> keys[i].name != keys[j].name)
  {
    var keys := Keyboard(range);
    forall i, j | 0 <= i < j < |keys|
      ensures keys[i].name != keys[j].name
    {
      if keys[i].name == keys[j].name {
        NoteNamesDistinct(keys[i].midi, keys[j].midi);
      }
    }
  }

  // The note boxes.

  /** JavaScript `a % 800` on numbers: the remainder takes the sign of `a`,
      and `a` minus it is a whole multiple of 800. */
  function Rem800(a: real): (r: real)
    ensures 0.0 <= a ==> 0.0 <= r < 800.0
    ensures a < 0.0 ==> -800.0 < r <= 0.0
    ensures ((a - r) / 800.0).Floor as real == (a - r) / 800.0
  {
    var q := Quotient800(a);
    var r := a - 800.0 * q as real;
    assert (a - r) / 800.0 == q as real;
    r
  }

  /** The quotient of `a` by 800 rounded towards zero. */
  function Quotient800(a: real): (q: int)
    ensures 0.0 <= a ==> 0.0 <= a - 800.0 * q as real < 800.0
    ensures a < 0.0 ==> -800.0 < a - 800.0 * q as real <= 0.0
  {
    if a >= 0.0 then (a / 800.0).Floor else -((-a) / 800.0).Floor
  }

  /** `getNoteColor`: `velocity / 127` banded at 0.8, 0.6 and 0.4. */
  function NoteColor(velocity: real): (c: string)
    ensures c == "bg-primary" <==> velocity > 101.6
    ensures c == "bg-timeline" <==> 76.2 < velocity <= 101.6
    ensures c == "bg-waveform" <==> 50.8 < velocity <= 76.2
    ensures c == "bg-primary/60" <==> velocity <= 50.8
  {
    var intensity := velocity / 127.0;
    if intensity > 0.8 then "bg-primary"
    else if intensity > 0.6 then "bg-timeline"
    else if intensity > 0.4 then "bg-waveform"
    else "bg-primary/60"
  }

  /** The band of a colour, faintest first. */
  function ColorBand(c: string): nat
  {
    if c == "bg-primary" then 3
    else if c == "bg-timeline" then 2
    else if c == "bg-waveform" then 1
    else 0
  }

  /** A louder note is never drawn fainter. */
  lemma NoteColorMonotone(v1: real, v2: real)
    requires v1 <= v2
    ensures ColorBand(NoteColor(v1)) <= ColorBand(NoteColor(v2))
  {
  }

  /** The colour bands begin at velocities 50.8, 76.2 and 101.6; the
      decoder's velocities, which lie in 0..1, all get the faintest colour. */
  lemma NoteColorBands(v: real)
    ensures NoteColor(v) == "bg-primary" <==> v > 101.6
    ensures NoteColor(v) == "bg-primary/60" <==> v <= 50.8
    ensures 0.0 <= v <= 1.0 ==> NoteColor(v) == "bg-primary/60"
  {
  }

  /** One drawn note: its position in the sorted list, its box and colour. */
  datatype NoteBox = NoteBox(index: nat, x: real, y: int, width: real, color: string)

  /** `(maxMidi - note.midi) * 15`: the note's distance below the top row. */
  function RowOffset(maxMidi: int, note: Note): int
  {
    (maxMidi - note.midi) * 15
  }

  /** A note is drawn when its row lies within the 300-pixel roll. */
  predicate Visible(maxMidi: int, note: Note)
  {
    0 <= RowOffset(maxMidi, note) <= 300
  }

  /** The box drawn for note `i`: `left` is the scaled onset wrapped at 800
      pixels, `top` the note's row, `width` the scaled duration but at least
      2 pixels, and the colour that of the velocity. */
  function BoxOf(notes: seq<Note>, maxMidi: int, scale: real, i: nat): NoteBox
    requires i < |notes|
  {
    var n := notes[i];
    NoteBox(i, Rem800(n.time * scale), RowOffset(maxMidi, n), MaxReal(2.0, n.duration * scale), NoteColor(n.velocity))
  }

  /** The boxes of the sorted notes from position `i` up to `end`: one box
      per visible note, in note order. */
  function BoxesFrom(notes: seq<Note>, maxMidi: int, scale: real, i: nat, end: nat): (r: seq<NoteBox>)
    requires i <= end <= |notes|
    ensures |r| <= end - i
    ensures forall k :: 0 <= k < |r| ==>
      && i <= r[k].index < end
      && Visible(maxMidi, notes[r[k].index])
      && r[k] == BoxOf(notes, maxMidi, scale, r[k].index)
    ensures forall k, l :: 0 <= k < l < |r| ==> r[k].index < r[l].index
    decreases end - i
  {
    if i == end then []
    else
      var rest := BoxesFrom(notes, maxMidi, scale, i + 1, end);
      if Visible(maxMidi, notes[i]) then [BoxOf(notes, maxMidi, scale, i)] + rest
      else rest
  }

  /** Each box sits on its note's row within the roll, starts at the scaled
      onset wrapped at 800 pixels, is at least 2 pixels wide and has the
      colour of its note's velocity. */
  lemma BoxGeometry(notes: seq<Note>, maxMidi: int, scale: real, i: nat, end: nat)
    requires i <= end <= |notes|
    ensures forall b :: b in BoxesFrom(notes, maxMidi, scale, i, end) ==>
      && i <= b.index < end
      && b.y == RowOffset(maxMidi, notes[b.index])
      && 0 <= b.y <= 300
      && b.x == Rem800(notes[b.index].time * scale)
      && b.width == MaxReal(2.0, notes[b.index].duration * scale) && b.width >= 2.0
      && b.color == NoteColor(notes[b.index].velocity)
  {
    var r := BoxesFrom(notes, maxMidi, scale, i, end);
    forall b | b in r
      ensures i <= b.index < end && b == BoxOf(notes, maxMidi, scale, b.index)
      ensures Visible(maxMidi, notes[b.index])
    {
      var k :| 0 <= k < |r| && r[k] == b;
    }
  }

  /** Every visible note among those considered gets a box, so together with
      the strict order of the boxes each visible note gets exactly one. */
  lemma {:induction false} BoxesCoverVisible(notes: seq<Note>, maxMidi: int, scale: real, i: nat, end: nat, j: nat)
    requires i <= j < end <= |notes| && Visible(maxMidi, notes[j])
    ensures exists b :: b in BoxesFrom(notes, maxMidi, scale, i, end) && b.index == j
    decreases end - i
  {
    var rest := BoxesFrom(notes, maxMidi, scale, i + 1, end);
    if j == i {
      var box := BoxOf(notes, maxMidi, scale, i);
      assert box in BoxesFrom(notes, maxMidi, scale, i, end) && box.index == j;
    } else {
      BoxesCoverVisible(notes, maxMidi, scale, i + 1, end, j);
      var b :| b in rest && b.index == j;
      assert b in BoxesFrom(notes, maxMidi, scale, i, end);
    }
  }

  /** The piano-roll boxes: the first 200 sorted notes, those whose row is
      off the roll skipped; none without notes. */
  function NoteBoxes(v: View): (r: seq<NoteBox>)
    ensures |r| <= 200
    ensures v.range.Some? ==> forall b :: b in r ==>
      && b.index < Min(200, |v.notes|)
      && b.y == RowOffset(v.range.value.maxMidi, v.notes[b.index])
      && 0 <= b.y <= 300
  {
    match v.range
    case None => []
    case Some(range) =>
      BoxGeometry(v.notes, range.maxMidi, v.timeScale, 0, Min(200, |v.notes|));
      BoxesFrom(v.notes, range.maxMidi, v.timeScale, 0, Min(200, |v.notes|))
  }

  /** Exactly the visible notes among those considered get a box, so the
      count of boxes is the count of visible notes. */
  lemma {:induction false} BoxesCount(notes: seq<Note>, maxMidi: int, scale: real, i: nat, end: nat)
    requires i <= end <= |notes|
    ensures |BoxesFrom(notes, maxMidi, scale, i, end)| ==
              CountWhere(notes[i..end], (n: Note) => Visible(maxMidi, n))
    decreases end - i
  {
    if i < end {
      BoxesCount(notes, maxMidi, scale, i + 1, end);
      assert notes[i..end][1..] == notes[i + 1..end];
    }
  }

  /** Every note lies on or below the top row; only notes more than twenty
      semitones below the highest one are skipped. */
  lemma VisibleNotes(v: View, n: Note)
    requires v.range.Some? && n.midi <= v.range.value.maxMidi
    ensures RowOffset(v.range.value.maxMidi, n) >= 0
    ensures Visible(v.range.value.maxMidi, n) <==> v.range.value.maxMidi - n.midi <= 20
  {
  }
}
