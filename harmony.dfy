/** Harmonic analysis: notes are grouped into quarter-second windows
    (`floor(time * 4)`); a window whose note count reaches three yields a chord,
    the window's distinct pitch classes in JavaScript's default `.sort()` order,
    which compares the numbers as decimal strings. */
module Harmony {
  import opened MidiTypes
  import opened Sorting

  /** `Math.floor(note.time * 4)`. */
  function WindowOf(n: Note): (w: int)
    ensures (w as real) <= n.time * 4.0 < (w as real) + 1.0
    ensures 0.0 <= n.time ==> 0 <= w
  {
    (n.time * 4.0).Floor
  }

  /** The windows that hold at least one note. */
  function WindowSet(notes: seq<Note>): set<int>
  {
    set n | n in notes :: WindowOf(n)
  }

  /** The window of each note, in note order. */
  function WindowList(notes: seq<Note>): (r: seq<int>)
    ensures |r| == |notes|
    ensures forall i :: 0 <= i < |notes| ==> r[i] == WindowOf(notes[i])
  {
    seq(|notes|, i requires 0 <= i < |notes| => WindowOf(notes[i]))
  }

  lemma WindowListMembers(notes: seq<Note>)
    ensures forall w :: w in WindowList(notes) <==> w in WindowSet(notes)
  {
    var r := WindowList(notes);
    forall w | w in WindowSet(notes)
      ensures w in r
    {
      var n :| n in notes && WindowOf(n) == w;
      var i :| 0 <= i < |notes| && notes[i] == n;
      assert r[i] == w;
    }
  }

  /** The windows in the order `Object.values` visits them: integer-like keys
      come out in ascending numeric order. */
  function OrderedWindows(notes: seq<Note>): (r: seq<int>)
    ensures StrictlyAscending(r)
    ensures forall w :: w in r <==> w in WindowSet(notes)
  {
    WindowListMembers(notes);
    SortedDistinct(WindowList(notes))
  }

  /** The pitch classes pushed into window `w`, one per note, in note order. */
  function WindowPitchClasses(notes: seq<Note>, w: int): (r: seq<int>)
    ensures |r| <= |notes|
    ensures forall i :: 0 <= i < |r| ==> 0 <= r[i] < 12
  {
    if notes == [] then []
    else
      var last := notes[|notes| - 1];
      WindowPitchClasses(notes[..|notes| - 1], w) +
        (if WindowOf(last) == w then [PitchClass(last.midi)] else [])
  }

  lemma {:induction false} EmptyWindow(notes: seq<Note>, w: int)
    requires w !in WindowSet(notes)
    ensures WindowPitchClasses(notes, w) == []
  {
    if notes != [] {
      assert WindowSet(notes[..|notes| - 1]) <= WindowSet(notes);
      EmptyWindow(notes[..|notes| - 1], w);
    }
  }

  // ---------------------------------------------------------------------
  // JavaScript's default sort order on the pitch classes 0..11.

  /** The decimal text of a natural number, as `String(n)` gives it. */
  function Decimal(n: nat): string
  {
    if n < 10 then [('0' as int + n) as char] else Decimal(n / 10) + Decimal(n % 10)
  }

  /** Code-unit lexicographic order on strings, the comparison `.sort()` uses. */
  predicate StringLess(a: string, b: string)
  {
    if a == [] then b != []
    else if b == [] then false
    else if a[0] != b[0] then a[0] < b[0]
    else StringLess(a[1..], b[1..])
  }

  /** The pitch classes 0..11 in string order. */
  const LexOrder: seq<int> := [0, 1, 10, 11, 2, 3, 4, 5, 6, 7, 8, 9]

  /** The position of a pitch class in `LexOrder`. */
  function LexRank(c: int): (k: int)
    requires 0 <= c < 12
    ensures 0 <= k < 12 && LexOrder[k] == c
  {
    if c <= 1 then c else if c >= 10 then c - 8 else c + 2
  }

  /** `LexOrder` is the order in which `.sort()` puts the pitch classes. */
  lemma LexRankIsStringOrder(a: int, b: int)
    requires 0 <= a < 12 && 0 <= b < 12
    ensures LexRank(a) < LexRank(b) <==> StringLess(Decimal(a), Decimal(b))
  {
    DecimalOfPitchClass(a);
    DecimalOfPitchClass(b);
  }

  /** One digit below ten, a '1' and a digit for ten and eleven. */
  lemma DecimalOfPitchClass(c: int)
    requires 0 <= c < 12
    ensures c < 10 ==> Decimal(c) == [('0' as int + c) as char]
    ensures c >= 10 ==> Decimal(c) == ['1', ('0' as int + (c - 10)) as char]
  {
  }

  /** The members of `pcs` in 0..11, each once, taken in `LexOrder` from position `k` on. */
  function LexSortedFrom(pcs: seq<int>, k: nat): seq<int>
    requires k <= 12
    decreases 12 - k
  {
    if k == 12 then []
    else if LexOrder[k] in pcs then [LexOrder[k]] + LexSortedFrom(pcs, k + 1)
    else LexSortedFrom(pcs, k + 1)
  }

  lemma {:induction false} LexSortedFromFacts(pcs: seq<int>, k: nat)
    requires k <= 12
    ensures var r := LexSortedFrom(pcs, k);
      && (forall x :: x in r <==> x in pcs && 0 <= x < 12 && LexRank(x) >= k)
      && (forall i :: 0 <= i < |r| ==> 0 <= r[i] < 12 && LexRank(r[i]) >= k)
      && (forall i, j :: 0 <= i < j < |r| ==> LexRank(r[i]) < LexRank(r[j]))
    decreases 12 - k
  {
    if k < 12 {
      LexSortedFromFacts(pcs, k + 1);
      var c, rest := LexOrder[k], LexSortedFrom(pcs, k + 1);
      assert LexRank(c) == k;
      assert forall x :: 0 <= x < 12 && LexRank(x) == k ==> x == c;
      if c in pcs {
        assert LexSortedFrom(pcs, k) == [c] + rest;
      } else {
        assert LexSortedFrom(pcs, k) == rest;
      }
    }
  }

  /** Sorting the classes of a C-major triad keeps them in ascending order. */
  lemma LexSortedTriad()
    ensures LexSortedFrom([0, 4, 7], 0) == [0, 4, 7]
  {
    var pcs := [0, 4, 7];
    assert LexSortedFrom(pcs, 6) == [4, 7];
  }

  /** Repeated C collapses to a single C. */
  lemma LexSortedRepeatedC()
    ensures LexSortedFrom([0, 0, 0], 0) == [0]
  {
  }

  /** `[...new Set(pcs)].sort()`: the distinct pitch classes in string order. */
  function LexSorted(pcs: seq<int>): (r: seq<int>)
    requires forall i :: 0 <= i < |pcs| ==> 0 <= pcs[i] < 12
    ensures forall x :: x in r <==> x in pcs
    ensures forall i :: 0 <= i < |r| ==> 0 <= r[i] < 12
    ensures forall i, j :: 0 <= i < j < |r| ==> StringLess(Decimal(r[i]), Decimal(r[j]))
    ensures forall i, j :: 0 <= i < j < |r| ==> r[i] != r[j]
  {
    var r := LexSortedFrom(pcs, 0);
    LexSortedFromFacts(pcs, 0);
    forall i, j | 0 <= i < j < |r|
      ensures StringLess(Decimal(r[i]), Decimal(r[j]))
    {
      LexRankIsStringOrder(r[i], r[j]);
    }
    r
  }

  // ---------------------------------------------------------------------
  // Chords.

  /** A chord as `extractChords` returns one: at least one pitch class, all in
      0..11, no repeats, in string order. */
  ghost predicate ValidChord(c: seq<int>)
  {
    && c != []
    && (forall i :: 0 <= i < |c| ==> 0 <= c[i] < 12)
    && (forall i, j :: 0 <= i < j < |c| ==> c[i] != c[j])
    && (forall i, j :: 0 <= i < j < |c| ==> StringLess(Decimal(c[i]), Decimal(c[j])))
  }

  /** The chord of window `w`, if the window holds three notes or more; the
      count is taken before repeated pitch classes are merged. */
  function ChordAt(notes: seq<Note>, w: int): (r: seq<seq<int>>)
    ensures |r| <= 1
    ensures r != [] <==> |WindowPitchClasses(notes, w)| >= 3
    ensures forall c :: c in r ==> ValidChord(c)
  {
    var pcs := WindowPitchClasses(notes, w);
    if |pcs| >= 3 then
      assert pcs[0] in LexSorted(pcs);
      [LexSorted(pcs)]
    else []
  }

  /** The chords of the windows `ws`, in that order. */
  function ChordsOver(notes: seq<Note>, ws: seq<int>): (r: seq<seq<int>>)
    ensures |r| <= |ws|
    ensures forall c :: c in r ==> ValidChord(c)
  {
    if ws == [] then []
    else ChordsOver(notes, ws[..|ws| - 1]) + ChordAt(notes, ws[|ws| - 1])
  }

  /** What `extractChords` returns. */
  function Chords(notes: seq<Note>): (r: seq<seq<int>>)
    ensures forall c :: c in r ==> ValidChord(c)
  {
    ChordsOver(notes, OrderedWindows(notes))
  }

  /** The `forEach` of `extractChords`: pushes each note's pitch class into the
      list of its window, creating the list on first use. */
  method GroupByWindow(notes: seq<Note>) returns (windows: map<int, seq<int>>)
    ensures windows.Keys == WindowSet(notes)
    ensures forall w :: w in windows ==> windows[w] == WindowPitchClasses(notes, w)
  {
    windows := map[];
    for i := 0 to |notes|
      invariant windows.Keys == WindowSet(notes[..i])
      invariant forall w :: w in windows ==> windows[w] == WindowPitchClasses(notes[..i], w)
    {
      var w := WindowOf(notes[i]);
      assert notes[..i + 1][..i] == notes[..i];
      if w !in windows {
        EmptyWindow(notes[..i], w);
        windows := windows[w := []];
      }
      windows := windows[w := windows[w] + [PitchClass(notes[i].midi)]];
      assert WindowSet(notes[..i + 1]) == WindowSet(notes[..i]) + {w};
    }
    assert notes[..|notes|] == notes;
  }

  /** `extractChords`: groups the notes by window, then keeps, window by window
      in ascending order, the windows with three notes or more. */
  method ExtractChords(notes: seq<Note>) returns (chords: seq<seq<int>>)
    ensures chords == Chords(notes)
  {
    var windows := GroupByWindow(notes);
    var ws := OrderedWindows(notes);
    chords := [];
    for j := 0 to |ws|
      invariant chords == ChordsOver(notes, ws[..j])
    {
      chords := AddWindowChord(notes, windows, ws, j, chords);
    }
    assert ws[..|ws|] == ws;
  }

  /** One turn of the window loop: the window `ws[j]` adds its chord when it
      holds three notes or more. */
  method AddWindowChord(notes: seq<Note>, windows: map<int, seq<int>>, ws: seq<int>, j: nat,
                        chords: seq<seq<int>>) returns (next: seq<seq<int>>)
    requires j < |ws| && ws[j] in windows
    requires windows[ws[j]] == WindowPitchClasses(notes, ws[j])
    requires chords == ChordsOver(notes, ws[..j])
    ensures next == ChordsOver(notes, ws[..j + 1])
  {
    var pcs := windows[ws[j]];
    ChordsOverStep(notes, ws, j, pcs);
    next := chords;
    if |pcs| >= 3 {
      next := next + [LexSorted(pcs)];
    }
  }

  lemma ChordsOverStep(notes: seq<Note>, ws: seq<int>, j: int, pcs: seq<int>)
    requires 0 <= j < |ws| && pcs == WindowPitchClasses(notes, ws[j])
    ensures ChordsOver(notes, ws[..j + 1]) ==
      ChordsOver(notes, ws[..j]) + (if |pcs| >= 3 then [LexSorted(pcs)] else [])
  {
    assert ws[..j + 1][..j] == ws[..j];
  }

  /** Three notes in the first window make exactly one chord. */
  lemma ThreeNotesInFirstWindow(a: Note, b: Note, c: Note)
    requires WindowOf(a) == 0 && WindowOf(b) == 0 && WindowOf(c) == 0
    ensures Chords([a, b, c]) == [LexSorted([PitchClass(a.midi), PitchClass(b.midi), PitchClass(c.midi)])]
  {
    var notes := [a, b, c];
    assert WindowList(notes) == [0, 0, 0];
    assert SortedDistinct([0]) == [0];
    assert [0, 0][..1] == [0];
    assert SortedDistinct([0, 0]) == [0];
    assert [0, 0, 0][..2] == [0, 0];
    assert OrderedWindows(notes) == [0];
    assert [a][..0] == [];
    assert WindowPitchClasses([a], 0) == [PitchClass(a.midi)];
    assert [a, b][..1] == [a];
    assert WindowPitchClasses([a, b], 0) == [PitchClass(a.midi), PitchClass(b.midi)];
    assert notes[..2] == [a, b];
    assert WindowPitchClasses(notes, 0) == [PitchClass(a.midi), PitchClass(b.midi), PitchClass(c.midi)];
    assert ChordsOver(notes, [0]) == ChordsOver(notes, []) + ChordAt(notes, 0);
  }

  /** Three notes of one pitch class in a window make a chord of one class:
      the note count is taken before repeats are merged. */
  lemma SinglePitchClassChord(n: Note)
    requires n.time == 0.0 && n.midi == 60
    ensures Chords([n, n, n]) == [[0]]
  {
    ThreeNotesInFirstWindow(n, n, n);
    LexSortedRepeatedC();
  }

  // ---------------------------------------------------------------------
  // Harmonic similarity.

  /** `chord.every(note => c2.includes(note))`. */
  predicate Covers(c2: seq<int>, chord: seq<int>)
  {
    forall x :: x in chord ==> x in c2
  }

  /** `chords1.filter(chord => chords2.some(c2 => covers(c2, chord)))`. */
  function CommonChords(chords1: seq<seq<int>>, chords2: seq<seq<int>>): (r: seq<seq<int>>)
    ensures |r| <= |chords1|
    ensures forall c :: c in r <==> c in chords1 && exists c2 :: c2 in chords2 && Covers(c2, c)
  {
    if chords1 == [] then []
    else
      var rest := CommonChords(chords1[1..], chords2);
      assert chords1 == [chords1[0]] + chords1[1..];
      if exists c2 :: c2 in chords2 && Covers(c2, chords1[0]) then [chords1[0]] + rest else rest
  }

  lemma {:induction false} CommonChordsWithSelf(chords: seq<seq<int>>, all: seq<seq<int>>)
    requires forall c :: c in chords ==> c in all
    ensures CommonChords(chords, all) == chords
  {
    if chords != [] {
      assert Covers(chords[0], chords[0]);
      CommonChordsWithSelf(chords[1..], all);
    }
  }

  /** `commonChords.length / Math.max(chords1.length, chords2.length, 1)`. */
  function HarmonicScore(chords1: seq<seq<int>>, chords2: seq<seq<int>>): (r: real)
    ensures 0.0 <= r <= 1.0
    ensures chords1 == [] || chords2 == [] ==> r == 0.0
    ensures chords1 != [] && chords1 == chords2 ==> r == 1.0
  {
    CommonChordsEdgeCases(chords1, chords2);
    Ratio(|CommonChords(chords1, chords2)|, Max(Max(|chords1|, |chords2|), 1))
  }

  lemma CommonChordsEdgeCases(chords1: seq<seq<int>>, chords2: seq<seq<int>>)
    ensures chords2 == [] ==> CommonChords(chords1, chords2) == []
    ensures chords1 == chords2 ==> CommonChords(chords1, chords2) == chords1
  {
    if chords1 == chords2 {
      CommonChordsWithSelf(chords1, chords2);
    }
  }

  /** `calculateHarmonicSimilarity`. */
  function HarmonicSimilarity(notes1: seq<Note>, notes2: seq<Note>): (r: real)
    ensures 0.0 <= r <= 1.0
  {
    HarmonicScore(Chords(notes1), Chords(notes2))
  }

  /** A document's chords all match themselves. */
  lemma HarmonicSelfSimilarity(notes: seq<Note>)
    requires Chords(notes) != []
    ensures HarmonicSimilarity(notes, notes) == 1.0
  {
  }

  /** Two documents holding the same C-major triad at time 0 match harmonically. */
  lemma TriadMatchesTriad(a: Note, b: Note, c: Note)
    requires a.time == b.time == c.time == 0.0
    requires a.midi == 60 && b.midi == 64 && c.midi == 67
    ensures Chords([a, b, c]) == [[0, 4, 7]]
    ensures HarmonicSimilarity([a, b, c], [a, b, c]) == 1.0
  {
    ThreeNotesInFirstWindow(a, b, c);
    LexSortedTriad();
  }
}
