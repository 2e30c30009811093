// The "Load Simulation State" panel: a chosen save file is sent, base64
// encoded, as a `simulation.import_state` request; a
// `simulation.state_imported` reply records the file name and clears the
// file input.
//
// `btoa` is a parameter. The request/reply exchange is split into its two
// synchronous halves: `BeginImport` (up to sending) and `CompleteImport`
// (the reply, or `None` when the request failed).

module StateImporter {
  import opened Wrappers
  import opened Json
  import opened Zod
  import opened ProtocolSchema
  import opened Playback
  import Bytes
  import SchemaFacts

  /** `canImport` */
  predicate CanImport(status: Status): (r: bool)
    ensures r <==> status != Playing && status != Paused
  {
    status == Idle || status == Stopped
  }

  /** The file name a reply's data carries, if it is a string. */
  function ReplyFilename(reply: Envelope): (r: Option<string>)
    ensures r.Some? <==> reply.payload.JObj? && "filename" in reply.payload.fields
                         && reply.payload.fields["filename"].JStr?
    ensures r.Some? ==> reply.payload.fields["filename"] == JStr(r.value)
  {
    if reply.payload.JObj? && "filename" in reply.payload.fields
       && reply.payload.fields["filename"].JStr?
    then Some(reply.payload.fields["filename"].s) else None
  }

  /** Whatever `FilenameData` accepts carries a string `filename`. */
  lemma FilenameDataOutput(p: Json, out: Json)
    requires Validate(FilenameData, p) == Ok(out)
    ensures out.JObj? && "filename" in out.fields && out.fields["filename"].JStr?
  {
    var shape := FilenameData.shape;
    assert shape.Keys == {"filename"} && shape["filename"] == AnyString;
    ObjectOutputKeys(shape, Strip, p.fields, out.fields);
  }

  lemma StateImportedSchema()
    ensures SchemaFor(SignalEntries, "simulation.state_imported") == Some(FilenameData)
  {
    SignalNamesDistinct();
    SchemaForIndex(SignalEntries, 18);
  }

  /** An envelope picked under the `FilenameData` schema carries a string `filename`. */
  lemma PickedFilename(entries: seq<(string, Schema)>, raw: Json)
    requires PickVariant(entries, "signal", "data", raw).Some?
    requires SchemaFor(entries, PickVariant(entries, "signal", "data", raw).value.name) == Some(FilenameData)
    ensures ReplyFilename(PickVariant(entries, "signal", "data", raw).value).Some?
  {
    var e := PickVariant(entries, "signal", "data", raw).value;
    var m := raw.fields;
    assert ParseField(FilenameData, Get(m, "data")) == Ok(Some(e.payload));
    assert "data" in m;
    FilenameDataOutput(m["data"], e.payload);
  }

  /** A decoded `simulation.state_imported` reply always names the imported file. */
  lemma ImportedReplyHasFilename(raw: Json)
    requires DecodeSignal(raw).Ok? && DecodeSignal(raw).value.name == "simulation.state_imported"
    ensures ReplyFilename(DecodeSignal(raw).value).Some?
  {
    StateImportedSchema();
    PickedFilename(SignalEntries, raw);
  }

  /**
   * An empty file cannot be imported: its request carries an empty
   * `file_content`, which the `simulation.import_state` schema rejects.
   */
  lemma EmptyFileRejected(filename: string, btoa: string -> string)
    requires btoa("") == ""
    ensures Validate(FileUploadParams, Bytes.UploadParams(btoa(Bytes.BinaryString([])), filename)).Err?
  {
    assert Bytes.BinaryString([]) == "";
    SchemaFacts.FileUploadNeedsContent(Bytes.UploadParams("", filename).fields);
  }

  class StateImporter {
    var importing: bool
    var lastImportedFile: Option<string>
    /** The file input's current selection (`event.target.files?.[0]`). */
    var selection: Option<Bytes.File>
    const btoa: string -> string

    constructor (btoa: string -> string)
      ensures this.btoa == btoa
      ensures !importing && lastImportedFile == None && selection == None
    {
      this.btoa := btoa;
      importing := false;
      lastImportedFile := None;
      selection := None;
    }

    /** The user picks a file (or cancels the dialog). */
    method Select(file: Option<Bytes.File>)
      modifies this
      ensures selection == file
      ensures importing == old(importing) && lastImportedFile == old(lastImportedFile)
    {
      selection := file;
    }

    /**
     * The first half of `handleFileChange`: without a file, while an import
     * is in flight, or when the status forbids importing, nothing happens;
     * otherwise the import is marked in flight and the request parameters
     * are the base64 of the file's binary string and the file's name.
     */
    method BeginImport(status: Status) returns (request: Option<Json>)
      modifies this
      ensures request.Some? <==> old(selection).Some? && !old(importing) && CanImport(status)
      ensures request.None? ==> importing == old(importing)
      ensures request.Some? ==> importing && selection.Some? && request.value == Bytes.UploadParams(
        btoa(Bytes.BinaryString(selection.value.content[..])), selection.value.name)
      ensures selection == old(selection) && lastImportedFile == old(lastImportedFile)
    {
      if selection.None? || importing || !CanImport(status) {
        return None;
      }
      importing := true;
      var file := selection.value;
      var binary := Bytes.ChunkedBinaryString(file.content, Bytes.ChunkSize);
      request := Some(Bytes.UploadParams(btoa(binary), file.name));
    }

    /**
     * The second half: a `simulation.state_imported` reply records its file
     * name and clears the input; any other reply, or a failure, leaves both;
     * in every case the import is over.
     */
    method CompleteImport(reply: Option<Envelope>)
      modifies this
      ensures !importing
      ensures reply.Some? && reply.value.name == "simulation.state_imported" ==>
        lastImportedFile == ReplyFilename(reply.value) && selection == None
      ensures !(reply.Some? && reply.value.name == "simulation.state_imported") ==>
        lastImportedFile == old(lastImportedFile) && selection == old(selection)
    {
      if reply.Some? && reply.value.name == "simulation.state_imported" {
        lastImportedFile := ReplyFilename(reply.value);
        selection := None;
      }
      importing := false;
    }
  }
}
