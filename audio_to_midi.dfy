/** Audio-to-MIDI conversion: a decoded sample buffer is cut into chunks, each
    chunk loud enough yields one pitch from its RMS level, the pitch list is
    padded to a triad when it is shorter than two, and the pitches are encoded
    as a MIDI file. When decoding fails, one of three fixed scales is encoded
    instead. */
module AudioToMidi {
  import opened MidiTypes
  import opened MidiEncoder

  // RMS level of a chunk.

  /** `rms += chunk[j] * chunk[j]` for `j` below `n`, summed in sample order. */
  function SquaresUpTo(chunk: seq<real>, n: nat): (s: real)
    requires n <= |chunk|
    ensures s >= 0.0
  {
    if n == 0 then 0.0
    else SquaresUpTo(chunk, n - 1) + chunk[n - 1] * chunk[n - 1]
  }

  /** The sum of the squares of a whole chunk. */
  function SumSquares(chunk: seq<real>): (s: real)
    ensures s >= 0.0
  {
    SquaresUpTo(chunk, |chunk|)
  }

  /** The largest whole number whose square is at most `y` (see `FloorSqrtBounds`). */
  function FloorSqrt(y: real): nat
    requires y >= 0.0
  {
    FloorSqrtFrom(y, 0)
  }

  /** Counts up from `k` to the first number whose successor squares past `y`. */
  function FloorSqrtFrom(y: real, k: nat): nat
    decreases if y.Floor < k then 0 else y.Floor - k + 1
  {
    if y < ((k + 1) * (k + 1)) as real then k
    else
      assert (k + 1) * (k + 1) >= k + 1;
      FloorSqrtFrom(y, k + 1)
  }

  lemma {:induction false} FloorSqrtFromBounds(y: real, k: nat)
    requires (k * k) as real <= y
    ensures var r := FloorSqrtFrom(y, k);
      (r * r) as real <= y < ((r + 1) * (r + 1)) as real
    decreases if y.Floor < k then 0 else y.Floor - k + 1
  {
    if y >= ((k + 1) * (k + 1)) as real {
      assert (k + 1) * (k + 1) >= k + 1;
      FloorSqrtFromBounds(y, k + 1);
    }
  }

  /** `FloorSqrt(y)` is the whole number `k` with `k^2 <= y < (k + 1)^2`. */
  lemma FloorSqrtBounds(y: real)
    requires y >= 0.0
    ensures var k := FloorSqrt(y);
      (k * k) as real <= y < ((k + 1) * (k + 1)) as real
  {
    FloorSqrtFromBounds(y, 0);
  }

  lemma SquareMonotone(a: real, b: real)
    requires 0.0 <= a && 0.0 <= b
    ensures a < b <==> a * a < b * b
  {
    if a < b {
      SquareStrictlyGrows(a, b);
    } else {
      SquareGrows(b, a);
    }
  }

  lemma SquareStrictlyGrows(a: real, b: real)
    requires 0.0 <= a < b
    ensures a * a < b * b
  {
    var d := b - a;
    assert b * b == a * a + 2.0 * a * d + d * d;
    assert d * d > 0.0;
  }

  lemma SquareGrows(a: real, b: real)
    requires 0.0 <= a <= b
    ensures a * a <= b * b
  {
    var d := b - a;
    assert b * b == a * a + 2.0 * a * d + d * d;
    assert d * d >= 0.0;
  }

  /** `Math.sqrt(rms / length) > 0.15` for the sum of squares `rms`, written
      without the square root. */
  predicate LoudLevel(sumSquares: real, length: nat)
  {
    sumSquares > 0.0225 * length as real
  }

  /** A loud chunk holds some sound: silence, or no samples at all, is quiet. */
  predicate Loud(chunk: seq<real>): (b: bool)
    ensures b ==> chunk != [] && SumSquares(chunk) > 0.0
  {
    LoudLevel(SumSquares(chunk), |chunk|)
  }

  /** `Math.min(127, Math.max(0, 48 + Math.floor(Math.sqrt(rms / length) * 36)))`
      for the sum of squares `rms`, written without the square root:
      `floor(36 sqrt(m)) = floor(sqrt(1296 m))`. */
  function LevelPitch(sumSquares: real, length: nat): (p: int)
    requires sumSquares >= 0.0 && length > 0
    ensures 0 <= p <= 127
  {
    var meanSquare := sumSquares / length as real;
    Clamp(48 + FloorSqrt(1296.0 * meanSquare), 0, 127)
  }

  function PeakPitch(chunk: seq<real>): (p: int)
    requires chunk != []
    ensures 0 <= p <= 127
  {
    LevelPitch(SumSquares(chunk), |chunk|)
  }

  /** The square-root-free forms agree with the source's formulas for the
      real square root `rms` of the mean square. */
  lemma RmsForms(sumSquares: real, length: nat, rms: real)
    requires sumSquares >= 0.0 && length > 0
    requires rms >= 0.0 && rms * rms == sumSquares / length as real
    ensures rms > 0.15 <==> LoudLevel(sumSquares, length)
    ensures LevelPitch(sumSquares, length) == Clamp(48 + (rms * 36.0).Floor, 0, 127)
  {
    RmsThreshold(sumSquares, length, rms);
    RmsPitch(sumSquares / length as real, rms);
  }

  lemma RmsThreshold(sumSquares: real, length: nat, rms: real)
    requires sumSquares >= 0.0 && length > 0
    requires rms >= 0.0 && rms * rms == sumSquares / length as real
    ensures rms > 0.15 <==> LoudLevel(sumSquares, length)
  {
    var n := length as real;
    var meanSquare := sumSquares / n;
    SquareMonotone(0.15, rms);
    assert sumSquares == meanSquare * n;
    ScaledCompare(meanSquare, n, sumSquares, 0.0225);
  }

  /** Scaling by a positive `n` keeps a comparison with `c`. */
  lemma ScaledCompare(m: real, n: real, s: real, c: real)
    requires n > 0.0 && s == m * n
    ensures m > c <==> s > c * n
  {
    if m > c {
      assert (m - c) * n == s - c * n;
      PositiveProduct(m - c, n);
    } else {
      assert (c - m) * n == c * n - s;
      assert (c - m) * n >= 0.0;
    }
  }

  lemma RmsPitch(meanSquare: real, rms: real)
    requires rms >= 0.0 && rms * rms == meanSquare
    ensures FloorSqrt(1296.0 * meanSquare) == (rms * 36.0).Floor
  {
    var m := (rms * 36.0).Floor;
    var y := 1296.0 * meanSquare;
    assert y == (rms * 36.0) * (rms * 36.0);
    assert 0 <= m;
    SquareMonotone(m as real, rms * 36.0);
    SquareMonotone(rms * 36.0, (m + 1) as real);
    FloorSqrtUnique(y, m);
  }

  lemma FloorSqrtUnique(y: real, m: nat)
    requires y >= 0.0
    requires (m * m) as real <= y < ((m + 1) * (m + 1)) as real
    ensures FloorSqrt(y) == m
  {
    var k := FloorSqrt(y);
    FloorSqrtBounds(y);
    assert m * m < (k + 1) * (k + 1);
    assert k * k < (m + 1) * (m + 1);
    SquaresOrdered(m, k + 1);
    SquaresOrdered(k, m + 1);
  }

  lemma SquaresOrdered(a: nat, b: nat)
    requires a * a < b * b
    ensures a < b
  {
    assert a >= b ==> a * a >= b * a;
    assert a >= b ==> b * a >= b * b;
  }

  /** A loud chunk has an RMS level above 0.15, so its pitch is at least
      48 + floor(0.15 * 36) = 53. */
  lemma LoudPitchRange(chunk: seq<real>)
    requires Loud(chunk)
    ensures 53 <= PeakPitch(chunk) <= 127
  {
    var n := |chunk| as real;
    var y := 1296.0 * (SumSquares(chunk) / n);
    assert SumSquares(chunk) / n > 0.0225;
    assert y > 29.16;
    var k := FloorSqrt(y);
    FloorSqrtBounds(y);
    assert 5 * 5 < (k + 1) * (k + 1);
    SquaresOrdered(5, k + 1);
  }

  // Chunking.

  /** `Math.max(1024, Math.floor(sampleData.length / maxNotes))`. With no
      positive note budget the loop never runs, so the size is then immaterial. */
  function ChunkSize(length: nat, maxNotes: int): (size: nat)
    ensures size >= 1024
    ensures maxNotes > 0 ==> size == Max(1024, length / maxNotes)
  {
    if maxNotes > 0 then Max(1024, length / maxNotes) else 1024
  }

  /** The chunk starting at sample `i`. */
  function ChunkAt(samples: seq<real>, i: nat, size: nat): (chunk: seq<real>)
    requires i < |samples| && size >= 1
    ensures chunk != [] && |chunk| <= size
  {
    samples[i .. Min(i + size, |samples|)]
  }

  /** What one chunk contributes: its pitch when it is loud, nothing otherwise. */
  function ChunkPeak(chunk: seq<real>): (p: Option<int>)
    ensures p.Some? <==> chunk != [] && Loud(chunk)
    ensures p.Some? ==> p.value == PeakPitch(chunk) && 53 <= p.value <= 127
  {
    if chunk != [] && Loud(chunk) then
      LoudPitchRange(chunk);
      Some(PeakPitch(chunk))
    else None
  }

  /** The pitches of the chunks from sample `i` on that `level` maps to a
      pitch, at most `budget` of them; the conversion uses `ChunkPeak`. */
  function Collect(samples: seq<real>, i: nat, size: nat, budget: int,
                   level: seq<real> -> Option<int>): (r: seq<int>)
    requires size >= 1
    ensures |r| <= Max(budget, 0)
    decreases |samples| - i
  {
    if i >= |samples| || budget <= 0 then []
    else match level(ChunkAt(samples, i, size))
      case Some(p) => [p] + Collect(samples, i + size, size, budget - 1, level)
      case None => Collect(samples, i + size, size, budget, level)
  }

  /** Every collected pitch is what `level` gives for some chunk starting at
      or after sample `i`. */
  lemma {:induction false} CollectSources(samples: seq<real>, i: nat, size: nat, budget: int,
                                          level: seq<real> -> Option<int>)
    requires size >= 1
    ensures forall k :: 0 <= k < |Collect(samples, i, size, budget, level)| ==>
              exists j :: i <= j < |samples| &&
                level(ChunkAt(samples, j, size)) == Some(Collect(samples, i, size, budget, level)[k])
    decreases |samples| - i
  {
    if i < |samples| && budget > 0 {
      if level(ChunkAt(samples, i, size)).Some? {
        CollectSources(samples, i + size, size, budget - 1, level);
        var r, rest := Collect(samples, i, size, budget, level), Collect(samples, i + size, size, budget - 1, level);
        assert r == [level(ChunkAt(samples, i, size)).value] + rest;
        forall k | 0 <= k < |r|
          ensures exists j :: i <= j < |samples| && level(ChunkAt(samples, j, size)) == Some(r[k])
        {
          if k == 0 {
            assert level(ChunkAt(samples, i, size)) == Some(r[k]);
          } else {
            assert r[k] == rest[k - 1];
            var j :| i + size <= j < |samples| && level(ChunkAt(samples, j, size)) == Some(rest[k - 1]);
          }
        }
      } else {
        CollectSources(samples, i + size, size, budget, level);
        assert Collect(samples, i, size, budget, level) == Collect(samples, i + size, size, budget, level);
      }
    } else {
      assert Collect(samples, i, size, budget, level) == [];
    }
  }

  /** Every collected pitch is one that `level` gives for some chunk, so it
      lies in whatever range `level` keeps to. */
  lemma {:induction false} CollectRange(samples: seq<real>, i: nat, size: nat, budget: int,
                                        level: seq<real> -> Option<int>)
    requires size >= 1
    requires forall c :: level(c).Some? ==> 53 <= level(c).value <= 127
    ensures forall k :: 0 <= k < |Collect(samples, i, size, budget, level)| ==>
      53 <= Collect(samples, i, size, budget, level)[k] <= 127
    decreases |samples| - i
  {
    if i < |samples| && budget > 0 {
      if level(ChunkAt(samples, i, size)).Some? {
        CollectRange(samples, i + size, size, budget - 1, level);
      } else {
        CollectRange(samples, i + size, size, budget, level);
      }
    }
  }

  /** Fewer than two pitches are padded: none gives the C-major triad, one
      pitch `p` gives `p, p + 4, p + 7` (the added pitches unclamped). */
  function WithTriad(peaks: seq<int>): (r: seq<int>)
    ensures |r| >= 2 && r[..Min(|peaks|, |r|)] == peaks[..Min(|peaks|, |r|)]
  {
    if |peaks| == 0 then [60, 64, 67]
    else if |peaks| == 1 then peaks + [peaks[0] + 4, peaks[0] + 7]
    else peaks
  }

  /** What `analyzeAudioPeaksOptimized` returns. */
  function AudioPeaks(samples: seq<real>, maxNotes: int): (r: seq<int>)
    ensures |r| >= 2
  {
    WithTriad(Collect(samples, 0, ChunkSize(|samples|, maxNotes), maxNotes, ChunkPeak))
  }

  /** `analyzeAudioPeaksOptimized`: collects the pitches, then pads them to a triad. */
  method AnalyzeAudioPeaks(sampleData: seq<real>, maxNotes: int) returns (peaks: seq<int>)
    ensures peaks == AudioPeaks(sampleData, maxNotes)
  {
    var chunkSize := ChunkSize(|sampleData|, maxNotes);
    peaks := CollectPeaks(sampleData, chunkSize, maxNotes, ChunkPeak);
    if |peaks| == 0 {
      peaks := peaks + [60, 64, 67];
    } else if |peaks| == 1 {
      peaks := peaks + [peaks[0] + 4, peaks[0] + 7];
    }
  }

  /** The chunk loop of `analyzeAudioPeaksOptimized`: walks the buffer in
      chunks of `chunkSize` samples until `maxNotes` pitches are found or the
      buffer ends. The ghost `level` is `ChunkPeak`, named pointwise so that
      the loop's proof need not look inside it. */
  method CollectPeaks(sampleData: seq<real>, chunkSize: nat, maxNotes: int,
                      ghost level: seq<real> -> Option<int>) returns (peaks: seq<int>)
    requires chunkSize >= 1
    requires forall c :: level(c) == ChunkPeak(c)
    ensures peaks == Collect(sampleData, 0, chunkSize, maxNotes, level)
  {
    peaks := [];
    var i := 0;
    ghost var total := Collect(sampleData, i, chunkSize, maxNotes, level);
    while i < |sampleData| && |peaks| < maxNotes
      invariant 0 <= i
      invariant peaks + Collect(sampleData, i, chunkSize, maxNotes - |peaks|, level) == total
      decreases |sampleData| - i
    {
      peaks := CollectChunk(sampleData, i, chunkSize, maxNotes, peaks, total, level);
      i := i + chunkSize;
    }
    CollectDone(sampleData, i, chunkSize, maxNotes - |peaks|, level);
  }

  /** Past the end of the buffer, or with the budget used up, nothing more is collected. */
  lemma CollectDone(samples: seq<real>, i: nat, size: nat, budget: int, level: seq<real> -> Option<int>)
    requires size >= 1 && (i >= |samples| || budget <= 0)
    ensures Collect(samples, i, size, budget, level) == []
  {
  }

  /** The body of the chunk loop: the chunk at `i` adds its pitch to `peaks`
      when it is loud. */
  method CollectChunk(sampleData: seq<real>, i: nat, chunkSize: nat, maxNotes: int, peaks: seq<int>,
                      ghost total: seq<int>, ghost level: seq<real> -> Option<int>) returns (next: seq<int>)
    requires chunkSize >= 1 && i < |sampleData| && |peaks| < maxNotes
    requires forall c :: level(c) == ChunkPeak(c)
    requires peaks + Collect(sampleData, i, chunkSize, maxNotes - |peaks|, level) == total
    ensures next + Collect(sampleData, i + chunkSize, chunkSize, maxNotes - |next|, level) == total
  {
    var chunkEnd := Min(i + chunkSize, |sampleData|);
    var chunk := sampleData[i .. chunkEnd];
    var loud, note := ChunkLevel(chunk);
    next := peaks;
    if loud {
      next := next + [note];
    }
    assert chunk == ChunkAt(sampleData, i, chunkSize);
    assert level(chunk) == ChunkPeak(chunk);
    CollectStep(sampleData, i, chunkSize, maxNotes, level, peaks, next, total);
  }

  /** The RMS test and pitch of one chunk: the chunk's level decides whether
      it is loud, and if so which pitch it gives. */
  method ChunkLevel(chunk: seq<real>) returns (loud: bool, note: int)
    requires chunk != []
    ensures loud == Loud(chunk)
    ensures loud ==> note == PeakPitch(chunk)
  {
    var rms := ChunkSumSquares(chunk);
    loud := LoudLevel(rms, |chunk|);
    note := 0;
    if loud {
      note := LevelPitch(rms, |chunk|);
    }
  }

  /** The inner loop: `rms += chunk[j] * chunk[j]` over the chunk. */
  method ChunkSumSquares(chunk: seq<real>) returns (rms: real)
    ensures rms == SumSquares(chunk)
  {
    rms := 0.0;
    var j := 0;
    while j < |chunk|
      invariant 0 <= j <= |chunk|
      invariant rms == SquaresUpTo(chunk, j)
    {
      rms := rms + chunk[j] * chunk[j];
      j := j + 1;
    }
  }

  /** One chunk of the outer loop: a chunk with a pitch moves it from the
      pending part to the collected part `next` and uses up one unit of the
      budget, any other chunk changes neither. */
  lemma CollectStep(samples: seq<real>, i: nat, size: nat, maxNotes: int, level: seq<real> -> Option<int>,
                    peaks: seq<int>, next: seq<int>, total: seq<int>)
    requires size >= 1 && i < |samples| && |peaks| < maxNotes
    requires peaks + Collect(samples, i, size, maxNotes - |peaks|, level) == total
    requires var l := level(ChunkAt(samples, i, size));
      next == if l.Some? then peaks + [l.value] else peaks
    ensures next + Collect(samples, i + size, size, maxNotes - |next|, level) == total
  {
    var budget := maxNotes - |peaks|;
    var l := level(ChunkAt(samples, i, size));
    if l.Some? {
      var rest := Collect(samples, i + size, size, budget - 1, level);
      assert Collect(samples, i, size, budget, level) == [l.value] + rest;
      assert peaks + ([l.value] + rest) == next + rest;
      assert maxNotes - |next| == budget - 1;
    }
  }

  /** The result is never empty, and never longer than the note budget or a triad. */
  lemma AudioPeaksLength(samples: seq<real>, maxNotes: int)
    ensures 2 <= |AudioPeaks(samples, maxNotes)| <= Max(maxNotes, 3)
  {
  }

  /** Every detected pitch lies in 53..127; padding adds at most 7. */
  lemma AudioPeaksRange(samples: seq<real>, maxNotes: int)
    ensures var r := AudioPeaks(samples, maxNotes);
      forall k :: 0 <= k < |r| ==> 53 <= r[k] <= 134
  {
    CollectRange(samples, 0, ChunkSize(|samples|, maxNotes), maxNotes, ChunkPeak);
  }

  lemma {:induction false} SilentCollect(samples: seq<real>, i: nat, size: nat, budget: int)
    requires size >= 1
    requires forall k :: 0 <= k < |samples| ==> samples[k] == 0.0
    ensures Collect(samples, i, size, budget, ChunkPeak) == []
    decreases |samples| - i
  {
    if i < |samples| && budget > 0 {
      var chunk := ChunkAt(samples, i, size);
      SilentSum(chunk, |chunk|);
      assert ChunkPeak(chunk) == None;
      SilentCollect(samples, i + size, size, budget);
    }
  }

  lemma {:induction false} SilentSum(chunk: seq<real>, n: nat)
    requires n <= |chunk|
    requires forall k :: 0 <= k < |chunk| ==> chunk[k] == 0.0
    ensures SquaresUpTo(chunk, n) == 0.0
  {
    if n > 0 {
      SilentSum(chunk, n - 1);
    }
  }

  /** A silent buffer yields the C-major triad. */
  lemma SilenceGivesTriad(samples: seq<real>, maxNotes: int)
    requires forall k :: 0 <= k < |samples| ==> samples[k] == 0.0
    ensures AudioPeaks(samples, maxNotes) == [60, 64, 67]
  {
    SilentCollect(samples, 0, ChunkSize(|samples|, maxNotes), maxNotes);
  }

  /** A single loud chunk `p` yields the major triad `p, p + 4, p + 7`. */
  lemma OnePeakGivesTriad(samples: seq<real>, maxNotes: int)
    requires |Collect(samples, 0, ChunkSize(|samples|, maxNotes), maxNotes, ChunkPeak)| == 1
    ensures var p := Collect(samples, 0, ChunkSize(|samples|, maxNotes), maxNotes, ChunkPeak)[0];
      AudioPeaks(samples, maxNotes) == [p, p + 4, p + 7]
  {
  }

  // Fallback file.

  /** C major, C natural minor and C blues, eight notes each. */
  const Scales: seq<seq<int>> := [
    [60, 62, 64, 65, 67, 69, 71, 72],
    [60, 62, 63, 65, 67, 69, 70, 72],
    [60, 61, 64, 65, 67, 68, 71, 72]]

  /** `scales[Math.floor(Math.random() * scales.length)].slice(0, 8)`. */
  function FallbackNotes(choice: Draw): (notes: seq<int>)
    ensures notes in Scales
  {
    var k := (choice as real * 3.0).Floor;
    assert 0 <= k < 3 && |Scales[k]| == 8;
    assert Scales[k][..8] == Scales[k];
    Scales[k][..8]
  }

  /** Each scale rises strictly from 60 to 72. */
  lemma ScaleShapes(choice: Draw)
    ensures var notes := FallbackNotes(choice);
      && |notes| == 8 && notes[0] == 60 && notes[7] == 72
      && forall i, j :: 0 <= i < j < 8 ==> notes[i] < notes[j]
  {
  }

  /** `createFallbackMidiFile`: the chosen scale encoded with duration 4. */
  method CreateFallbackMidi(choice: Draw, draws: seq<Draw>) returns (bytes: array<int>)
    requires |draws| >= NoteLimit
    ensures fresh(bytes)
    ensures bytes[..] == MidiFile(FallbackNotes(choice), draws)
  {
    bytes := CreateOptimizedMidi(4.0, FallbackNotes(choice), draws);
  }

  /** A fallback file holds all eight scale notes: 41 + 64 bytes. */
  lemma FallbackLength(choice: Draw, draws: seq<Draw>)
    requires |draws| >= NoteLimit
    ensures |MidiFile(FallbackNotes(choice), draws)| == 105
  {
  }

  // The conversion step.

  datatype Conversion = Cancelled | Converted(bytes: seq<int>) | Fallback(bytes: seq<int>)

  /** `createOptimizedMidiFromAudio` after the decoder has run: `decoded` is
      the first channel's samples, or `None` when decoding threw; `aborted`
      is the cancellation flag seen by the checks. A cancelled conversion is
      rethrown, any other failure falls back to a scale; twelve pitches are
      requested. */
  function ConvertAudio(decoded: Option<seq<real>>, aborted: bool, choice: Draw, draws: seq<Draw>): (c: Conversion)
    requires |draws| >= NoteLimit
    ensures aborted <==> c == Cancelled
    ensures c.Fallback? <==> !aborted && decoded == None
    ensures c.Converted? ==> |c.bytes| >= 41 + 16
    ensures c.Converted? ==> decoded.Some? && c.bytes == MidiFile(AudioPeaks(decoded.value, 12), draws)
    ensures c.Fallback? ==> c.bytes == MidiFile(FallbackNotes(choice), draws)
  {
    if aborted then Cancelled
    else if decoded == None then Fallback(MidiFile(FallbackNotes(choice), draws))
    else
      var peaks := AudioPeaks(decoded.value, 12);
      Converted(MidiFile(peaks, draws))
  }
}
