/** The numbers and labels the comparison panel shows for a basic result:
    the colour and label bands of the score, the percentage, the coverage of
    each document and the counts of notes unique to each. */
module ResultsDisplay {
  import opened MidiTypes
  import opened NoteComparison

  /** `getSimilarityColor`. */
  function SimilarityColor(score: real): (c: string)
    ensures c == "similarity-high" <==> score >= 0.7
    ensures c == "similarity-medium" <==> 0.4 <= score < 0.7
    ensures c == "similarity-low" <==> score < 0.4
  {
    if score >= 0.7 then "similarity-high"
    else if score >= 0.4 then "similarity-medium"
    else "similarity-low"
  }

  /** `getSimilarityLabel`. */
  function SimilarityLabel(score: real): (l: string)
    ensures l in Labels
    ensures l == "Excellent Match" <==> score >= 0.8
    ensures l == "Minimal Match" <==> score < 0.2
  {
    if score >= 0.8 then "Excellent Match"
    else if score >= 0.6 then "Good Match"
    else if score >= 0.4 then "Moderate Match"
    else if score >= 0.2 then "Low Match"
    else "Minimal Match"
  }

  /** The five labels, weakest first. */
  const Labels: seq<string> := ["Minimal Match", "Low Match", "Moderate Match", "Good Match", "Excellent Match"]

  /** The lower bound of each label's band. */
  const LabelFloors: seq<real> := [0.0, 0.2, 0.4, 0.6, 0.8]

  /** The position of a label among the five, weakest first. */
  function LabelRank(l: string): nat
  {
    if l == "Excellent Match" then 4
    else if l == "Good Match" then 3
    else if l == "Moderate Match" then 2
    else if l == "Low Match" then 1
    else 0
  }

  /** The label is the one of the five whose band holds the score: the score
      reaches that band's floor and not the next one's. */
  lemma LabelBands(score: real)
    ensures var k := LabelRank(SimilarityLabel(score));
      && SimilarityLabel(score) == Labels[k]
      && (k > 0 ==> score >= LabelFloors[k])
      && (k < 4 ==> score < LabelFloors[k + 1])
  {
  }

  /** A higher score never gets a weaker label or a lower colour band. */
  lemma BandsMonotone(s1: real, s2: real)
    requires s1 <= s2
    ensures LabelRank(SimilarityLabel(s1)) <= LabelRank(SimilarityLabel(s2))
    ensures ColorRank(SimilarityColor(s1)) <= ColorRank(SimilarityColor(s2))
  {
  }

  function ColorRank(c: string): nat
  {
    if c == "similarity-high" then 2 else if c == "similarity-medium" then 1 else 0
  }

  /** The label and the colour agree at the ends of the scale: an excellent
      match is always shown high, a low or minimal one always low. */
  lemma LabelMatchesColor(score: real)
    ensures SimilarityLabel(score) == "Excellent Match" ==> SimilarityColor(score) == "similarity-high"
    ensures SimilarityLabel(score) in ["Low Match", "Minimal Match"] ==>
              SimilarityColor(score) == "similarity-low"
    ensures SimilarityColor(score) == "similarity-medium" ==>
              SimilarityLabel(score) in ["Good Match", "Moderate Match"]
  {
  }

  /** `Math.round(similarity * 100)`. */
  function Percentage(score: real): (p: int)
    ensures 0.0 <= score <= 1.0 ==> 0 <= p <= 100
    ensures p == 100 <==> 0.995 <= score < 1.005
  {
    Round(score * 100.0)
  }

  /** `total > 0 ? Math.round((common / total) * 100) : 0`. */
  function Coverage(common: nat, total: nat): (c: int)
    ensures total == 0 ==> c == 0
    ensures common <= total ==> 0 <= c <= 100
    ensures 0 < total == common ==> c == 100
    ensures common == 0 ==> c == 0
  {
    if total > 0 then Round(Ratio(common, total) * 100.0) else 0
  }

  /** `totalNotes - commonNotes`. */
  function Unique(total: nat, common: nat): (u: int)
    ensures u + common == total
    ensures common <= total ==> 0 <= u <= total
  {
    total - common
  }

  /** What the panel shows for one result. */
  datatype Panel = Panel(
    colorClass: string,
    percentage: int,
    matchLabel: string,
    coverage1: int,
    coverage2: int,
    unique1: int,
    unique2: int)

  function ShowResult(r: ComparisonResult): (p: Panel)
    ensures p.percentage == Percentage(r.similarity)
    ensures p.colorClass == SimilarityColor(r.similarity) && p.matchLabel == SimilarityLabel(r.similarity)
    ensures p.coverage1 == Coverage(r.commonNotes, r.totalNotes1) && p.coverage2 == Coverage(r.commonNotes, r.totalNotes2)
    ensures p.unique1 == Unique(r.totalNotes1, r.commonNotes) && p.unique2 == Unique(r.totalNotes2, r.commonNotes)
  {
    Panel(
      SimilarityColor(r.similarity), Percentage(r.similarity), SimilarityLabel(r.similarity),
      Coverage(r.commonNotes, r.totalNotes1), Coverage(r.commonNotes, r.totalNotes2),
      Unique(r.totalNotes1, r.commonNotes), Unique(r.totalNotes2, r.commonNotes))
  }

  /** For a basic comparison the panel's figures are in range, and each
      unique count is the number of note keys of that document the other
      document lacks. */
  lemma PanelOfComparison(midi1: MidiData, midi2: MidiData)
    ensures var keys1, keys2 := KeySet(AllNotes(midi1.tracks)), KeySet(AllNotes(midi2.tracks));
      var p := ShowResult(CompareMidiFiles(midi1, midi2));
      && 0 <= p.percentage <= 100
      && 0 <= p.coverage1 <= 100 && 0 <= p.coverage2 <= 100
      && p.unique1 == |keys1 - keys2|
      && p.unique2 == |keys2 - keys1|
  {
    var keys1, keys2 := KeySet(AllNotes(midi1.tracks)), KeySet(AllNotes(midi2.tracks));
    var r := CompareMidiFiles(midi1, midi2);
    assert r.commonNotes == |keys1 * keys2|;
    DifferenceSize(keys1, keys2);
    DifferenceSize(keys2, keys1);
  }

  lemma DifferenceSize<T>(a: set<T>, b: set<T>)
    ensures |a - b| == |a| - |a * b| && a * b == b * a
  {
    assert a == (a - b) + (a * b);
  }

  /** A document compared with itself shows a full match: 100%, an excellent
      label, full coverage and nothing unique. */
  lemma PanelOfSelfComparison(midi: MidiData)
    requires AllNotes(midi.tracks) != []
    ensures var p := ShowResult(CompareMidiFiles(midi, midi));
      && p.percentage == 100 && p.matchLabel == "Excellent Match" && p.colorClass == "similarity-high"
      && p.coverage1 == 100 && p.coverage2 == 100 && p.unique1 == 0 && p.unique2 == 0
  {
    SelfComparison(midi);
    var notes := AllNotes(midi.tracks);
    assert KeyOf(notes[0]) in KeySet(notes);
  }
}
