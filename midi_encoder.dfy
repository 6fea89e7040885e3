/** The byte encoder behind audio conversion: a format-0, single-track
    Standard MIDI File (Standard MIDI Files 1.0: a header chunk, one track
    chunk holding a time-signature and a set-tempo meta-event, eight bytes per
    note and an end-of-track meta-event). */
module MidiEncoder {
  import opened MidiTypes

  predicate IsByte(b: int) { 0 <= b < 256 }

  predicate AllBytes(bs: seq<int>)
  {
    forall i :: 0 <= i < |bs| ==> IsByte(bs[i])
  }

  /** One draw of `Math.random()`. */
  type Draw = r: real | 0.0 <= r < 1.0

  /** "MThd", length 6, format 0, one track, 96 ticks per quarter note. */
  const Header: seq<int> := [0x4D, 0x54, 0x68, 0x64, 0x00, 0x00, 0x00, 0x06, 0x00, 0x00, 0x00, 0x01, 0x00, 0x60]
  /** "MTrk". */
  const TrackTag: seq<int> := [0x4D, 0x54, 0x72, 0x6B]
  /** Meta-event FF 58: 4/4, 24 clocks per click, 8 thirty-seconds per quarter. */
  const TimeSignature: seq<int> := [0x00, 0xFF, 0x58, 0x04, 0x04, 0x02, 0x18, 0x08]
  /** Meta-event FF 51: 0x07A120 = 500000 microseconds per quarter note, 120 BPM. */
  const SetTempo: seq<int> := [0x00, 0xFF, 0x51, 0x03, 0x07, 0xA1, 0x20]
  /** Meta-event FF 2F. */
  const EndOfTrack: seq<int> := [0x00, 0xFF, 0x2F, 0x00]
  /** `notes.slice(0, 8)`. */
  const NoteLimit: nat := 8
  const TicksPerQuarter: int := 96

  // intToBytes.

  function Pow2(k: nat): (p: nat)
    ensures p >= 1
  {
    if k == 0 then 1 else 2 * Pow2(k - 1)
  }

  lemma {:induction false} Pow2Add(a: nat, b: nat)
    ensures Pow2(a + b) == Pow2(a) * Pow2(b)
    decreases b
  {
    if b > 0 {
      Pow2Add(a, b - 1);
      assert Pow2(a + b) == 2 * Pow2(a + b - 1) == 2 * (Pow2(a) * Pow2(b - 1));
    }
  }

  /** The operand conversion of `>>`: the signed 32-bit value congruent to `v`. */
  function ToInt32(v: int): (x: int)
    ensures -0x8000_0000 <= x < 0x8000_0000
    ensures x % 0x1_0000_0000 == v % 0x1_0000_0000
    ensures 0 <= v < 0x8000_0000 ==> x == v
  {
    var m := v % 0x1_0000_0000;
    if m >= 0x8000_0000 then m - 0x1_0000_0000 else m
  }

  /** `x >> k` on a 32-bit value: the arithmetic shift, a floor division by
      two to the shift count taken modulo 32. */
  function Shr(x: int, k: int): int
  {
    x / Pow2(k % 32)
  }

  /** `(value >> (i * 8)) & 0xFF`. */
  function ByteOf(value: int, i: int): (b: int)
    ensures IsByte(b)
  {
    Shr(ToInt32(value), i * 8) % 256
  }

  /** What `intToBytes(value, count)` returns: byte `count - 1` first, byte 0 last. */
  function IntToBytesSpec(value: int, count: int): (r: seq<int>)
    ensures |r| == Max(count, 0)
    ensures AllBytes(r)
  {
    seq(Max(count, 0), k requires 0 <= k < Max(count, 0) => ByteOf(value, count - 1 - k))
  }

  /** `intToBytes`. */
  method IntToBytes(value: int, count: int) returns (result: seq<int>)
    ensures result == IntToBytesSpec(value, count)
  {
    result := [];
    var i := count - 1;
    while i >= 0
      invariant count <= 0 ==> result == []
      invariant count > 0 ==> -1 <= i < count && |result| == count - 1 - i
      invariant forall k :: 0 <= k < |result| ==> result[k] == ByteOf(value, count - 1 - k)
    {
      result := result + [ByteOf(value, i)];
      i := i - 1;
    }
  }

  /** The number the bytes spell, most significant first. */
  function BigEndian(bs: seq<int>): int
  {
    if bs == [] then 0 else bs[0] * Pow2(8 * (|bs| - 1)) + BigEndian(bs[1..])
  }

  lemma DivModUnique(x: int, d: int, q: int, r: int)
    requires d > 0 && x == d * q + r && 0 <= r < d
    ensures x / d == q && x % d == r
  {
    var k := q - x / d;
    assert d * k == x % d - r;
    assert k >= 1 ==> d * k >= d;
    assert k <= -1 ==> d * k <= -d;
  }

  lemma MulDistributes(a: int, u: int, v: int)
    ensures a * (u + v) == a * u + a * v
  {
  }

  lemma MulAssociates(a: int, b: int, c: int)
    ensures a * (b * c) == (a * b) * c
  {
  }

  lemma MulMonotone(a: int, u: int, v: int)
    requires a >= 0 && u <= v
    ensures a * u <= a * v
  {
    MulDistributes(a, u, v - u);
  }

  /** The low digits of `x` in base `a * b`: the `b`-digit above `a`, then `x % a`. */
  lemma ModSplit(x: int, a: int, b: int)
    requires a > 0 && b > 0
    ensures x % (a * b) == ((x / a) % b) * a + x % a
  {
    var q, r := x / a, x % a;
    var q2, r2 := q / b, q % b;
    assert x == a * q + r;
    assert q == b * q2 + r2;
    MulDistributes(a, b * q2, r2);
    MulAssociates(a, b, q2);
    assert x == (a * b) * q2 + (a * r2 + r);
    MulMonotone(a, r2, b - 1);
    MulDistributes(a, b, -1);
    assert a * r2 + r < a * b;
    DivModUnique(x, a * b, q2, a * r2 + r);
    assert r2 * a == a * r2;
  }

  lemma Pow2Values()
    ensures Pow2(8) == 256
    ensures Pow2(32) == 0x1_0000_0000
  {
    assert Pow2(2) == 4 by { assert Pow2(1) == 2; }
    assert Pow2(4) == 16 by { assert Pow2(3) == 8; }
    assert Pow2(8) == 256 by { assert Pow2(6) == 64 by { assert Pow2(5) == 32; } }
    Pow2Add(8, 8);
    assert Pow2(16) == 65536;
    Pow2Add(16, 16);
  }

  /** The leading byte of `count + 1` bytes is byte `count` of the value; the
      rest are the first `count` bytes. */
  lemma LeadingByte(value: int, count: nat)
    requires count < 4
    ensures IntToBytesSpec(value, count + 1)[0] == (ToInt32(value) / Pow2(8 * count)) % 256
    ensures IntToBytesSpec(value, count + 1)[1..] == IntToBytesSpec(value, count)
  {
    var bs := IntToBytesSpec(value, count + 1);
    assert bs[0] == ByteOf(value, count);
    assert (count * 8) % 32 == 8 * count;
  }

  /** The first `count` bytes spell the value modulo 2^(8 count). */
  lemma {:induction false} IntToBytesLowBits(value: int, count: nat)
    requires count <= 4
    ensures BigEndian(IntToBytesSpec(value, count)) == ToInt32(value) % Pow2(8 * count)
  {
    var x := ToInt32(value);
    if count == 0 {
      assert x % 1 == 0;
    } else {
      var c := count - 1;
      var bs := IntToBytesSpec(value, count);
      LeadingByte(value, c);
      IntToBytesLowBits(value, c);
      assert BigEndian(bs) == bs[0] * Pow2(8 * c) + BigEndian(bs[1..]);
      Pow2Add(8 * c, 8);
      Pow2Values();
      ModSplit(x, Pow2(8 * c), 256);
    }
  }

  /** Four bytes recombine to any value below 2^32, and to the value's low
      32 bits otherwise. */
  lemma IntToBytesRoundTrip(value: int)
    ensures BigEndian(IntToBytesSpec(value, 4)) == value % 0x1_0000_0000
    ensures 0 <= value < 0x1_0000_0000 ==> BigEndian(IntToBytesSpec(value, 4)) == value
  {
    var x := ToInt32(value);
    IntToBytesLowBits(value, 4);
    Pow2Values();
    assert BigEndian(IntToBytesSpec(value, 4)) == x % 0x1_0000_0000;
    if 0 <= value < 0x1_0000_0000 {
      SmallModulus(value, 0x1_0000_0000);
    }
  }

  lemma SmallModulus(v: int, m: int)
    requires 0 <= v < m
    ensures v % m == v
  {
    DivModUnique(v, m, 0, v);
  }

  // Note events.

  /** `index === 0 ? 0 : 96`: notes follow each other a quarter note apart. */
  function DeltaTime(index: nat): (d: int)
    ensures d == 0 <==> index == 0
    ensures 0 <= d < 128
  {
    if index == 0 then 0 else TicksPerQuarter
  }

  /** The delta-time bytes: one byte below 128, otherwise `0x81, delta & 0x7F`. */
  function DeltaBytes(delta: nat): (r: seq<int>)
    ensures delta < 128 ==> r == [delta]
  {
    if delta < 128 then [delta] else [0x81, delta % 128]
  }

  /** Every delta the encoder emits fits in one byte: the two-byte branch is dead. */
  lemma DeltaIsOneByte(index: nat)
    ensures DeltaBytes(DeltaTime(index)) == [DeltaTime(index)]
    ensures |DeltaBytes(DeltaTime(index))| == 1
  {
  }

  /** `64 + Math.floor(Math.random() * 32)`. */
  function Velocity(draw: Draw): (v: int)
    ensures 64 <= v <= 95
  {
    64 + (draw as real * 32.0).Floor
  }

  /** The bytes of note `index`: delta, note-on with the clamped pitch and the
      drawn velocity, then a quarter note later the note-off. */
  function NoteEvents(index: nat, note: int, draw: Draw): (r: seq<int>)
    ensures |r| == 8 && AllBytes(r)
  {
    DeltaIsOneByte(index);
    DeltaBytes(DeltaTime(index))
      + [0x90, Clamp(note, 0, 127), Velocity(draw)]
      + [TicksPerQuarter, 0x80, Clamp(note, 0, 127), 0x00]
  }

  /** The eight bytes of a note: the one-byte delta, then note-on and note-off
      with the same clamped pitch. */
  lemma NoteEventsBytes(index: nat, note: int, draw: Draw)
    ensures NoteEvents(index, note, draw) ==
      [DeltaTime(index), 0x90, Clamp(note, 0, 127), Velocity(draw),
       TicksPerQuarter, 0x80, Clamp(note, 0, 127), 0x00]
  {
    DeltaIsOneByte(index);
  }

  /** The events of the first `n` notes, in order. */
  function NoteEventsList(notes: seq<int>, draws: seq<Draw>, n: nat): (r: seq<int>)
    requires n <= |notes| && n <= |draws|
    ensures |r| == 8 * n && AllBytes(r)
  {
    if n == 0 then []
    else NoteEventsList(notes, draws, n - 1) + NoteEvents(n - 1, notes[n - 1], draws[n - 1])
  }

  /** A slice inside the left operand of a concatenation. */
  lemma SliceOfLeft(a: seq<int>, b: seq<int>, i: int, j: int)
    requires 0 <= i <= j <= |a|
    ensures (a + b)[i..j] == a[i..j]
  {
  }

  /** A slice inside the right operand of a concatenation. */
  lemma SliceOfRight(a: seq<int>, b: seq<int>, i: int, j: int)
    requires |a| <= i <= j <= |a| + |b|
    ensures (a + b)[i..j] == b[i - |a| .. j - |a|]
  {
  }

  lemma AllBytesConcat(a: seq<int>, b: seq<int>)
    requires AllBytes(a) && AllBytes(b)
    ensures AllBytes(a + b)
  {
  }

  /** The events of note `k` sit at offset `8 k` of the list. */
  lemma {:induction false} NoteEventsAt(notes: seq<int>, draws: seq<Draw>, n: nat, k: nat)
    requires n <= |notes| && n <= |draws| && k < n
    ensures NoteEventsList(notes, draws, n)[8 * k .. 8 * k + 8] == NoteEvents(k, notes[k], draws[k])
  {
    if k < n - 1 {
      NoteEventsAt(notes, draws, n - 1, k);
      EarlierNoteKept(notes, draws, n, k);
    } else {
      LastNoteAppended(notes, draws, n);
    }
  }

  /** Appending a note keeps the events of the earlier notes where they were. */
  lemma EarlierNoteKept(notes: seq<int>, draws: seq<Draw>, n: nat, k: nat)
    requires n <= |notes| && n <= |draws| && k < n - 1
    ensures NoteEventsList(notes, draws, n)[8 * k .. 8 * k + 8] ==
              NoteEventsList(notes, draws, n - 1)[8 * k .. 8 * k + 8]
  {
    var front := NoteEventsList(notes, draws, n - 1);
    var last := NoteEvents(n - 1, notes[n - 1], draws[n - 1]);
    SliceOfLeft(front, last, 8 * k, 8 * k + 8);
  }

  /** The events of the last note close the list. */
  lemma LastNoteAppended(notes: seq<int>, draws: seq<Draw>, n: nat)
    requires 0 < n <= |notes| && n <= |draws|
    ensures NoteEventsList(notes, draws, n)[8 * (n - 1) .. 8 * n] == NoteEvents(n - 1, notes[n - 1], draws[n - 1])
  {
    var front := NoteEventsList(notes, draws, n - 1);
    var last := NoteEvents(n - 1, notes[n - 1], draws[n - 1]);
    SliceOfRight(front, last, 8 * (n - 1), 8 * n);
  }

  function Limited(notes: seq<int>): (r: seq<int>)
    ensures |r| == Min(|notes|, NoteLimit)
    ensures r == notes[..|r|]
  {
    if |notes| <= NoteLimit then notes else notes[..NoteLimit]
  }

  /** `trackData`: 15 meta bytes, 8 bytes per note and 4 end-of-track bytes. */
  function TrackData(notes: seq<int>, draws: seq<Draw>): (t: seq<int>)
    requires |draws| >= Min(|notes|, NoteLimit)
    ensures |t| == 19 + 8 * Min(|notes|, NoteLimit)
  {
    TimeSignature + SetTempo + NoteEventsList(Limited(notes), draws, |Limited(notes)|) + EndOfTrack
  }

  /** The whole file `createOptimizedMidi` returns: the 14-byte header chunk,
      the track tag, the 4-byte track length, then the track data. */
  function MidiFile(notes: seq<int>, draws: seq<Draw>): (f: seq<int>)
    requires |draws| >= Min(|notes|, NoteLimit)
    ensures |f| == 41 + 8 * Min(|notes|, NoteLimit)
  {
    var track := TrackData(notes, draws);
    Header + TrackTag + IntToBytesSpec(|track|, 4) + track
  }

  /** `result.set(src, offset)`. */
  method CopyInto(dst: array<int>, src: seq<int>, offset: nat)
    requires offset + |src| <= dst.Length
    modifies dst
    ensures dst[..offset] == old(dst[..offset])
    ensures dst[offset .. offset + |src|] == src
    ensures dst[offset + |src| ..] == old(dst[offset + |src| ..])
  {
    var j := 0;
    while j < |src|
      invariant 0 <= j <= |src|
      invariant dst[..offset] == old(dst[..offset])
      invariant dst[offset .. offset + j] == src[..j]
      invariant dst[offset + |src| ..] == old(dst[offset + |src| ..])
    {
      dst[offset + j] := src[j];
      j := j + 1;
    }
  }

  /** The loop of `createOptimizedMidi` that appends the meta-events, then
      each note's events, then the end of track. */
  method BuildTrackData(notes: seq<int>, draws: seq<Draw>) returns (trackData: seq<int>)
    requires |draws| >= Min(|notes|, NoteLimit)
    ensures trackData == TrackData(notes, draws)
  {
    var limitedNotes := Limited(notes);
    trackData := TimeSignature + SetTempo;
    ghost var meta := trackData;
    var index := 0;
    while index < |limitedNotes|
      invariant 0 <= index <= |limitedNotes|
      invariant trackData == meta + NoteEventsList(limitedNotes, draws, index)
    {
      trackData := AppendNote(trackData, limitedNotes[index], index, draws[index]);
      index := index + 1;
    }
    trackData := trackData + EndOfTrack;
  }

  /** The body of the note loop: the delta, the note-on with the clamped pitch
      and a velocity drawn from `draw`, and the note-off a quarter note later. */
  method AppendNote(trackData: seq<int>, note: int, index: nat, draw: Draw) returns (next: seq<int>)
    ensures next == trackData + NoteEvents(index, note, draw)
  {
    var deltaTime: nat := if index == 0 then 0 else TicksPerQuarter;
    var velocity := 64 + (draw as real * 32.0).Floor;
    next := trackData + DeltaBytes(deltaTime);
    next := next + [0x90, Clamp(note, 0, 127), velocity];
    next := next + [TicksPerQuarter, 0x80, Clamp(note, 0, 127), 0x00];
  }

  /** `createOptimizedMidi`: builds `trackData`, then copies header, track
      header and track data into one fresh byte array. The duration argument
      is never read. */
  method CreateOptimizedMidi(duration: real, notes: seq<int>, draws: seq<Draw>) returns (result: array<int>)
    requires |draws| >= Min(|notes|, NoteLimit)
    ensures fresh(result)
    ensures result[..] == MidiFile(notes, draws)
  {
    var trackData := BuildTrackData(notes, draws);
    var lengthBytes := IntToBytes(|trackData|, 4);
    var trackHeader := TrackTag + lengthBytes;
    result := new int[|Header| + |trackHeader| + |trackData|];
    CopyInto(result, Header, 0);
    CopyInto(result, trackHeader, |Header|);
    ghost var head := result[..|Header| + |trackHeader|];
    SplitAt(head, |Header|);
    CopyInto(result, trackData, |Header| + |trackHeader|);
    SplitAt(result[..], |Header| + |trackHeader|);
  }

  lemma SplitAt(s: seq<int>, k: int)
    requires 0 <= k <= |s|
    ensures s == s[..k] + s[k..]
  {
  }

  // Properties of the file.

  /** The file opens with the fixed header chunk and the track tag, the
      track opens with the two meta-events and closes with end of track, and
      every entry is a byte. */
  lemma MidiFileLayout(notes: seq<int>, draws: seq<Draw>)
    requires |draws| >= Min(|notes|, NoteLimit)
    ensures var file := MidiFile(notes, draws);
      && file[..14] == Header
      && file[14..18] == TrackTag
      && file[22..37] == TimeSignature + SetTempo
      && file[|file| - 4 ..] == EndOfTrack
      && AllBytes(file)
  {
    var track := TrackData(notes, draws);
    var head := Header + TrackTag;
    var prefix := head + IntToBytesSpec(|track|, 4);
    var file := prefix + track;
    assert file == MidiFile(notes, draws);
    SliceOfLeft(Header, TrackTag, 0, 14);
    SliceOfRight(Header, TrackTag, 14, 18);
    SliceOfLeft(head, IntToBytesSpec(|track|, 4), 0, 18);
    SliceOfLeft(prefix, track, 0, 18);
    assert file[..14] == file[..18][..14] && file[14..18] == file[..18][14..18];
    TrackLayout(notes, draws);
    SliceOfRight(prefix, track, 22, 37);
    SliceOfRight(prefix, track, |file| - 4, |file|);
    AllBytesConcat(prefix, track);
  }

  lemma TrackLayout(notes: seq<int>, draws: seq<Draw>)
    requires |draws| >= Min(|notes|, NoteLimit)
    ensures var track := TrackData(notes, draws);
      && track[..15] == TimeSignature + SetTempo
      && track[|track| - 4 ..] == EndOfTrack
      && AllBytes(track)
  {
    var meta := TimeSignature + SetTempo;
    var limited := Limited(notes);
    var body := meta + NoteEventsList(limited, draws, |limited|);
    SliceOfLeft(meta, NoteEventsList(limited, draws, |limited|), 0, 15);
    SliceOfLeft(body, EndOfTrack, 0, 15);
    SliceOfRight(body, EndOfTrack, |body|, |body| + 4);
    AllBytesConcat(meta, NoteEventsList(limited, draws, |limited|));
    AllBytesConcat(body, EndOfTrack);
  }

  /** The track-length field states exactly how many bytes follow it. */
  lemma TrackLengthField(notes: seq<int>, draws: seq<Draw>)
    requires |draws| >= Min(|notes|, NoteLimit)
    ensures var file := MidiFile(notes, draws);
      BigEndian(file[18..22]) == |file| - 22
  {
    var file := MidiFile(notes, draws);
    var track := TrackData(notes, draws);
    assert file[18..22] == IntToBytesSpec(|track|, 4);
    IntToBytesRoundTrip(|track|);
  }

  /** Note `k` of the first eight is written at offset `37 + 8 k`: its delta,
      note-on with the clamped pitch and drawn velocity, and note-off. */
  lemma NoteEventAt(notes: seq<int>, draws: seq<Draw>, k: nat)
    requires |draws| >= Min(|notes|, NoteLimit)
    requires k < Min(|notes|, NoteLimit)
    ensures MidiFile(notes, draws)[37 + 8 * k .. 45 + 8 * k] ==
      [DeltaTime(k), 0x90, Clamp(notes[k], 0, 127), Velocity(draws[k]),
       TicksPerQuarter, 0x80, Clamp(notes[k], 0, 127), 0x00]
  {
    var limited := Limited(notes);
    var list := NoteEventsList(limited, draws, |limited|);
    var file := MidiFile(notes, draws);
    assert file[37 .. 37 + |list|] == list;
    NoteEventsAt(limited, draws, |limited|, k);
    NoteEventsBytes(k, notes[k], draws[k]);
    assert file[37 + 8 * k .. 45 + 8 * k] == list[8 * k .. 8 * k + 8];
  }
}
