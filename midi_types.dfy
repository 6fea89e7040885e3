/** Shared data model: the decoded note structure every component works on,
    the pitch-class name table, and the two JavaScript number conversions the
    engine relies on (Math.round and Math.floor on a non-negative quotient). */
module MidiTypes {

  datatype Option<+T> = None | Some(value: T)

  /** Where a comparison runs: 'client' (basic) or 'server' (enhanced). */
  datatype ProcessingMode = Client | Server

  /** A MIDI note number as the decoder yields it. */
  type MidiNumber = x: int | 0 <= x <= 127

  /** One decoded note: pitch, onset and length in seconds, and the decoder's
      normalised velocity. */
  datatype Note = Note(midi: MidiNumber, time: real, duration: real, velocity: real)

  datatype Track = Track(notes: seq<Note>)

  /** A decoded document: its name, its tracks and its length in seconds. */
  datatype MidiData = MidiData(name: string, tracks: seq<Track>, duration: real)

  /** `tracks.flatMap(track => track.notes)`: every note of every track, track by track. */
  function AllNotes(tracks: seq<Track>): (r: seq<Note>)
    ensures |r| == NoteCount(tracks)
  {
    if tracks == [] then [] else tracks[0].notes + AllNotes(tracks[1..])
  }

  function NoteCount(tracks: seq<Track>): nat
  {
    if tracks == [] then 0 else |tracks[0].notes| + NoteCount(tracks[1..])
  }

  /** The twelve pitch-class names, C first. */
  const NoteNames: seq<string> := ["C", "C#", "D", "D#", "E", "F", "F#", "G", "G#", "A", "A#", "B"]

  /** `note.midi % 12`. */
  function PitchClass(m: MidiNumber): (pc: int)
    ensures 0 <= pc < 12
    ensures (m - pc) % 12 == 0
  {
    m % 12
  }

  /** JavaScript Math.round: the nearest integer, halves rounded up. */
  function Round(x: real): (r: int)
    ensures (r as real) - 0.5 <= x < (r as real) + 0.5
  {
    (x + 0.5).Floor
  }

  function Max(a: int, b: int): int { if a < b then b else a }
  function Min(a: int, b: int): int { if a < b then a else b }
  function MaxReal(a: real, b: real): real { if a < b then b else a }

  /** `a / b` of two counts, the denominator positive. */
  function Ratio(a: nat, b: nat): (r: real)
    requires b > 0
    ensures 0.0 <= r
    ensures a <= b ==> r <= 1.0
    ensures r == 1.0 <==> a == b
    ensures r == 0.0 <==> a == 0
  {
    var r := a as real / b as real;
    var d := b as real;
    assert r * d == a as real;
    assert (r - 1.0) * d == r * d - d;
    PositiveProduct(r - 1.0, d);
    assert (1.0 - r) * d == d - r * d;
    PositiveProduct(1.0 - r, d);
    PositiveProduct(r, d);
    PositiveProduct(-r, d);
    r
  }

  lemma PositiveProduct(x: real, y: real)
    ensures x > 0.0 && y > 0.0 ==> x * y > 0.0
  {
  }

  /** `Math.min(hi, Math.max(lo, x))`. */
  function Clamp(x: int, lo: int, hi: int): (r: int)
    requires lo <= hi
    ensures lo <= r <= hi
    ensures lo <= x <= hi ==> r == x
  {
    Min(hi, Max(lo, x))
  }

  /** The number of elements of `s` that satisfy `p` (the length of `s.filter(p)`). */
  function CountWhere<T>(s: seq<T>, p: T -> bool): (r: nat)
    ensures r <= |s|
  {
    if s == [] then 0 else (if p(s[0]) then 1 else 0) + CountWhere(s[1..], p)
  }

  lemma {:induction false} CountWhereAll<T>(s: seq<T>, p: T -> bool)
    requires forall i :: 0 <= i < |s| ==> p(s[i])
    ensures CountWhere(s, p) == |s|
  {
    if s != [] {
      CountWhereAll(s[1..], p);
    }
  }

  lemma {:induction false} CountWhereNone<T>(s: seq<T>, p: T -> bool)
    requires forall i :: 0 <= i < |s| ==> !p(s[i])
    ensures CountWhere(s, p) == 0
  {
    if s != [] {
      CountWhereNone(s[1..], p);
    }
  }
}
