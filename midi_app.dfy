/** The application state: two file slots, each holding an uploaded file and
    the document decoded from it, and the processing flag and mode. Every
    action replaces some of these fields and keeps the rest. */
module MidiApp {
  import opened MidiTypes

  /** An uploaded file: its name and raw contents. */
  datatype FileRef = FileRef(name: string, contents: seq<int>)

  /** What the MIDI decoder yields for a well-formed file. */
  datatype Decoded = Decoded(tracks: seq<Track>, duration: real)

  datatype SlotId = Slot1 | Slot2

  /** `processMidiFile`: the file's name with the decoded tracks and length;
      `None` when the decoder rejects the file (`decoded` is `None`). */
  function ProcessMidiFile(file: FileRef, decoded: Option<Decoded>): (r: Option<MidiData>)
    ensures r.Some? <==> decoded.Some?
    ensures r.Some? ==> r.value.name == file.name && r.value.tracks == decoded.value.tracks
                        && r.value.duration == decoded.value.duration
  {
    match decoded
    case None => None
    case Some(d) => Some(MidiData(file.name, d.tracks, d.duration))
  }

  /** `[a, b].filter(Boolean).length` for two optional values. */
  function Present<T>(a: Option<T>, b: Option<T>): (n: nat)
    ensures n <= 2
    ensures n == 2 <==> a.Some? && b.Some?
    ensures n == 0 <==> a.None? && b.None?
  {
    (if a.Some? then 1 else 0) + (if b.Some? then 1 else 0)
  }

  class App {
    var file1: Option<FileRef>
    var file2: Option<FileRef>
    var data1: Option<MidiData>
    var data2: Option<MidiData>
    var isProcessing: bool
    var processingMode: ProcessingMode

    /** The state both the hook's start and `resetAll` produce. */
    predicate IsInitial()
      reads this
    {
      && file1 == None && file2 == None
      && data1 == None && data2 == None
      && !isProcessing && processingMode == Client
    }

    constructor ()
      ensures IsInitial()
    {
      file1, file2 := None, None;
      data1, data2 := None, None;
      isProcessing := false;
      processingMode := Client;
    }

    /** `updateFiles`: replaces both files and nothing else. */
    method UpdateFiles(f1: Option<FileRef>, f2: Option<FileRef>)
      modifies this
      ensures file1 == f1 && file2 == f2
      ensures data1 == old(data1) && data2 == old(data2)
      ensures isProcessing == old(isProcessing) && processingMode == old(processingMode)
    {
      file1, file2 := f1, f2;
    }

    /** `updateMidiData`: replaces both documents and nothing else. */
    method UpdateMidiData(d1: Option<MidiData>, d2: Option<MidiData>)
      modifies this
      ensures data1 == d1 && data2 == d2
      ensures file1 == old(file1) && file2 == old(file2)
      ensures isProcessing == old(isProcessing) && processingMode == old(processingMode)
    {
      data1, data2 := d1, d2;
    }

    /** `setProcessing`: replaces the processing flag and nothing else. */
    method SetProcessing(processing: bool)
      modifies this
      ensures isProcessing == processing
      ensures file1 == old(file1) && file2 == old(file2)
      ensures data1 == old(data1) && data2 == old(data2)
      ensures processingMode == old(processingMode)
    {
      isProcessing := processing;
    }

    /** `setProcessingMode`: replaces the mode and nothing else. */
    method SetProcessingMode(mode: ProcessingMode)
      modifies this
      ensures processingMode == mode
      ensures file1 == old(file1) && file2 == old(file2)
      ensures data1 == old(data1) && data2 == old(data2)
      ensures isProcessing == old(isProcessing)
    {
      processingMode := mode;
    }

    /** `loadMidiFile`: raises the processing flag, decodes the file and, when
        that succeeds, puts the file and its document into `slot` only; a
        rejected file changes no slot. The flag is lowered in every case. */
    method LoadMidiFile(file: FileRef, slot: SlotId, decoded: Option<Decoded>) returns (result: Option<MidiData>)
      modifies this
      ensures result == ProcessMidiFile(file, decoded)
      ensures !isProcessing && processingMode == old(processingMode)
      ensures result.None? ==>
        file1 == old(file1) && file2 == old(file2) && data1 == old(data1) && data2 == old(data2)
      ensures result.Some? && slot == Slot1 ==>
        file1 == Some(file) && data1 == result && file2 == old(file2) && data2 == old(data2)
      ensures result.Some? && slot == Slot2 ==>
        file2 == Some(file) && data2 == result && file1 == old(file1) && data1 == old(data1)
    {
      SetProcessing(true);
      result := ProcessMidiFile(file, decoded);
      if result.Some? {
        if slot == Slot1 {
          file1 := Some(file);
          data1 := result;
        } else {
          file2 := Some(file);
          data2 := result;
        }
      }
      SetProcessing(false);
    }

    /** `clearSlot`: empties the file and document of `slot` only. */
    method ClearSlot(slot: SlotId)
      modifies this
      ensures slot == Slot1 ==> file1 == None && data1 == None && file2 == old(file2) && data2 == old(data2)
      ensures slot == Slot2 ==> file2 == None && data2 == None && file1 == old(file1) && data1 == old(data1)
      ensures isProcessing == old(isProcessing) && processingMode == old(processingMode)
    {
      if slot == Slot1 {
        file1 := None;
        data1 := None;
      } else {
        file2 := None;
        data2 := None;
      }
    }

    /** `resetAll`: back to the initial state, whatever the state was. */
    method ResetAll()
      modifies this
      ensures IsInitial()
    {
      file1, file2 := None, None;
      data1, data2 := None, None;
      isProcessing := false;
      processingMode := Client;
    }

    /** `hasFiles`. */
    predicate HasFiles(): (b: bool)
      reads this
      ensures b <==> Present(file1, file2) == 2
    {
      file1.Some? && file2.Some?
    }

    /** `hasMidiData`. */
    predicate HasMidiData(): (b: bool)
      reads this
      ensures b <==> Present(data1, data2) == 2
    {
      data1.Some? && data2.Some?
    }

    /** `canCompare`: both documents are loaded and nothing is running. */
    predicate CanCompare(): (b: bool)
      reads this
      ensures b <==> HasMidiData() && !isProcessing
      ensures b ==> Present(data1, data2) == 2
    {
      data1.Some? && data2.Some? && !isProcessing
    }

    /** `fileCount`. */
    function FileCount(): (n: nat)
      reads this
      ensures n <= 2
      ensures n == 2 <==> HasFiles()
    {
      Present(file1, file2)
    }

    /** `midiDataCount`. */
    function MidiDataCount(): (n: nat)
      reads this
      ensures n <= 2
      ensures n == 2 <==> HasMidiData()
    {
      Present(data1, data2)
    }

    /** Comparing needs both documents, and is possible exactly when both
        are there and nothing runs. */
    lemma CanCompareNeedsBoth()
      ensures CanCompare() ==> HasMidiData() && MidiDataCount() == 2
      ensures CanCompare() <==> MidiDataCount() == 2 && !isProcessing
    {
    }
  }

  /** Loading a file into one slot and then clearing that slot leaves the
      other slot as it was and this slot empty. */
  method LoadThenClear(app: App, file: FileRef, slot: SlotId, decoded: Option<Decoded>)
    modifies app
    ensures slot == Slot1 ==> app.file1 == None && app.data1 == None
                              && app.file2 == old(app.file2) && app.data2 == old(app.data2)
    ensures slot == Slot2 ==> app.file2 == None && app.data2 == None
                              && app.file1 == old(app.file1) && app.data1 == old(app.data1)
    ensures !app.CanCompare()
  {
    var _ := app.LoadMidiFile(file, slot, decoded);
    app.ClearSlot(slot);
  }

  /** A successful load into each slot makes the two documents comparable. */
  method LoadBoth(app: App, f1: FileRef, d1: Decoded, f2: FileRef, d2: Decoded)
    modifies app
    ensures app.CanCompare() && app.FileCount() == 2 && app.MidiDataCount() == 2
    ensures app.data1 == ProcessMidiFile(f1, Some(d1)) && app.data2 == ProcessMidiFile(f2, Some(d2))
  {
    var r1 := app.LoadMidiFile(f1, Slot1, Some(d1));
    var r2 := app.LoadMidiFile(f2, Slot2, Some(d2));
  }
}
