/** The comparison hook's state: the last basic result, the last enhanced
    result, whether a comparison is running and the download link of the
    generated file. A comparison fills exactly one of the two results. */
module ComparisonSession {
  import opened MidiTypes
  import opened NoteComparison
  import opened EnhancedComparison

  /** How a `compareFiles` call ends: the comparison and the link creation
      both succeed (the link being `url`), the comparison itself throws, or
      the comparison succeeds and creating the download link throws. */
  datatype Outcome = Succeeds(url: string) | ComparisonThrows | LinkThrows

  class Session {
    var comparisonResult: Option<ComparisonResult>
    var enhancedResult: Option<EnhancedResult>
    var isProcessing: bool
    var downloadUrl: Option<string>

    /** The two comparisons the hook calls: its own `compareMidiFiles` and
        the library's `enhancedMidiComparison`. They are fixed when the hook
        is created (see the constructor); holding them as fields lets the
        state proofs treat the results as given values. */
    const compareBasic: (MidiData, MidiData) -> ComparisonResult
    const compareEnhanced: (MidiData, MidiData) -> EnhancedResult

    /** At most one of the two results is shown. */
    predicate Valid()
      reads this
    {
      !(comparisonResult.Some? && enhancedResult.Some?)
    }

    /** The hook's initial state: nothing computed, nothing running. */
    constructor ()
      ensures Valid()
      ensures comparisonResult == None && enhancedResult == None
      ensures !isProcessing && downloadUrl == None
      ensures compareBasic == CompareMidiFiles && compareEnhanced == EnhancedMidiComparison
    {
      compareBasic := CompareMidiFiles;
      compareEnhanced := EnhancedMidiComparison;
      comparisonResult := None;
      enhancedResult := None;
      isProcessing := false;
      downloadUrl := None;
    }

    /** `compareFiles`: runs the comparison `mode` names and shows its result
        in place of the other mode's; a comparison that throws leaves the
        results and the link as they were; the running flag is set first and
        cleared in every case. */
    method CompareFiles(midi1: MidiData, midi2: MidiData, mode: ProcessingMode, outcome: Outcome)
      requires Valid()
      modifies this
      ensures Valid()
      ensures !isProcessing
      ensures outcome.ComparisonThrows? ==>
        comparisonResult == old(comparisonResult) && enhancedResult == old(enhancedResult)
      ensures !outcome.ComparisonThrows? && mode == Server ==>
        enhancedResult == Some(compareEnhanced(midi1, midi2)) && comparisonResult == None
      ensures !outcome.ComparisonThrows? && mode == Client ==>
        comparisonResult == Some(compareBasic(midi1, midi2)) && enhancedResult == None
      ensures downloadUrl == if outcome.Succeeds? then Some(outcome.url) else old(downloadUrl)
    {
      isProcessing := true;
      if !outcome.ComparisonThrows? {
        if mode == Server {
          var result := compareEnhanced(midi1, midi2);
          enhancedResult := Some(result);
          comparisonResult := None;
        } else {
          var result := compareBasic(midi1, midi2);
          comparisonResult := Some(result);
          enhancedResult := None;
        }
        if outcome.Succeeds? {
          downloadUrl := Some(outcome.url);
        }
      }
      isProcessing := false;
    }

    /** `resetResults`: drops both results and the download link (revoking
        the link is left to the browser); the running flag is kept. */
    method ResetResults()
      modifies this
      ensures Valid()
      ensures comparisonResult == None && enhancedResult == None && downloadUrl == None
      ensures isProcessing == old(isProcessing)
    {
      comparisonResult := None;
      enhancedResult := None;
      if downloadUrl.Some? {
        downloadUrl := None;
      }
    }

    /** The file name `handleDownload` gives the download, if there is a link. */
    function DownloadName(name1: string, name2: string): (r: Option<string>)
      reads this
      ensures r.Some? <==> downloadUrl.Some?
      ensures r.Some? ==> r.value == CommonNotesFileName(name1, name2)
    {
      if downloadUrl.Some? then Some(CommonNotesFileName(name1, name2)) else None
    }
  }

  /** `common_notes_${file1.name}_${file2.name}.mid`. */
  function CommonNotesFileName(name1: string, name2: string): (r: string)
    ensures |r| == |name1| + |name2| + 18
  {
    "common_notes_" + name1 + "_" + name2 + ".mid"
  }

  /** The two names can be read back from the file name once the length of
      the first is known, so different pairs of equal-length first names give
      different file names. */
  lemma FileNameParts(name1: string, name2: string)
    ensures var r := CommonNotesFileName(name1, name2);
      && r[..13] == "common_notes_"
      && r[13..13 + |name1|] == name1
      && r[13 + |name1|] == '_'
      && r[14 + |name1|..|r| - 4] == name2
      && r[|r| - 4..] == ".mid"
  {
  }

  /** A fresh hook asked to compare in server mode shows exactly the enhanced
      comparison of the two documents, and in client mode the basic one. */
  method FirstComparison(midi1: MidiData, midi2: MidiData, mode: ProcessingMode, url: string)
    returns (s: Session)
    ensures fresh(s) && s.Valid() && !s.isProcessing && s.downloadUrl == Some(url)
    ensures mode == Server ==> s.enhancedResult == Some(EnhancedMidiComparison(midi1, midi2))
    ensures mode == Client ==> s.comparisonResult == Some(CompareMidiFiles(midi1, midi2))
  {
    s := new Session();
    s.CompareFiles(midi1, midi2, mode, Succeeds(url));
  }
}
