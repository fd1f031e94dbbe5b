/**
 * The transporter sheet upload page (src/pages/AddTransporter.tsx).
 *
 * The page keeps a transporter name, a zone count with one name per zone,
 * the chosen sheet and an "uploading" flag.  The class `TransporterUpload`
 * has those fields and its methods are the handlers.  An upload is split in
 * two steps: `HandleUpload` checks the inputs and produces the request,
 * `SettleUpload` takes the server's answer.
 */
module AddTransporter {
  import opened JsText

  /** The chosen sheet, known by its file name. */
  datatype SheetFile = SheetFile(name: string)

  /** What the upload sends: the name, the zone names and the sheet. */
  datatype UploadRequest = UploadRequest(transporter: string, zones: seq<string>, sheet: SheetFile)

  /** How the upload ended: accepted, refused with an optional message, or failed with an error message. */
  datatype UploadOutcome = Accepted | Refused(message: Option<string>) | Failed(errorMessage: string)

  /** `parseInt(text, 10) || 0`: the parsed integer, or 0 when there is none. */
  function ParsedCount(text: string): (n: int)
    ensures ParseInt(text).None? ==> n == 0
    ensures ParseInt(text).Some? ==> n == ParseInt(text).value
  {
    match ParseInt(text)
    case None => 0
    case Some(v) => v
  }

  /** The count typed as the usual decimal rendering of a number is read back as that number. */
  lemma ParsedCountOfRendering(n: nat)
    ensures ParsedCount(NatToString(n)) == n
  {
    ParseIntOfIntToString(n);
  }

  /** `Array(count).fill('')`. */
  function EmptyNames(count: nat): (zs: seq<string>)
    ensures |zs| == count && forall i :: 0 <= i < count ==> zs[i] == ""
  {
    seq(count, _ => "")
  }

  const UploadPrompt := "Fill in transporter name and select a .xlsx file"
  const SheetPrompt := "Please upload an .xlsx file only"

  /** The upload button is disabled while uploading, without a sheet, or without a name. */
  predicate UploadDisabled(isUploading: bool, file: Option<SheetFile>, transporter: string) {
    isUploading || file.None? || transporter == ""
  }

  /** The alert text when the upload did not go through, if any. */
  function OutcomeAlert(outcome: UploadOutcome): (a: Option<string>)
    ensures a.None? <==> outcome.Accepted?
  {
    match outcome
    case Accepted => None
    case Refused(m) => Some("\U{274C} " + (if m.Some? && m.value != "" then m.value else "Upload failed"))
    case Failed(e) => Some("\U{274C} " + e)
  }

  class TransporterUpload {
    var transporter: string
    var zoneCount: int
    var zones: seq<string>
    var file: Option<SheetFile>
    var isUploading: bool

    /** There is one zone name per counted zone. */
    predicate Valid()
      reads this
    {
      zoneCount >= 0 && |zones| == zoneCount
    }

    constructor ()
      ensures Valid()
      ensures transporter == "" && zoneCount == 0 && zones == [] && file == None && !isUploading
    {
      transporter, zoneCount, zones, file, isUploading := "", 0, [], None, false;
    }

    method HandleTransporterChange(value: string)
      modifies this
      ensures transporter == value
      ensures zoneCount == old(zoneCount) && zones == old(zones) && file == old(file) && isUploading == old(isUploading)
    {
      transporter := value;
    }

    /**
     * `handleZoneCountChange`: the count is the parsed number (0 when there
     * is none) and the zone names are reset to that many empty names.
     */
    method HandleZoneCountChange(text: string)
      requires ParsedCount(text) >= 0
      modifies this
      ensures Valid()
      ensures zoneCount == ParsedCount(text) && zones == EmptyNames(zoneCount)
      ensures transporter == old(transporter) && file == old(file) && isUploading == old(isUploading)
    {
      var count := ParsedCount(text);
      zoneCount := count;
      zones := EmptyNames(count);
    }

    /** `handleZoneNameChange`: the name of zone `index` becomes `value`. */
    method HandleZoneNameChange(index: nat, value: string)
      requires Valid() && index < |zones|
      modifies this
      ensures Valid()
      ensures zones == old(zones)[index := value]
      ensures transporter == old(transporter) && zoneCount == old(zoneCount)
      ensures file == old(file) && isUploading == old(isUploading)
    {
      var updated := zones;
      updated := updated[index := value];
      zones := updated;
    }

    /**
     * `handleFileSelect`: a picked file is kept when its name ends in
     * '.xlsx'; another file clears the sheet and shows the prompt.  An empty
     * file list (`None`, a cancelled dialog) throws on `files[0].name` before
     * anything is set: the earlier sheet stays and no alert shows.  Returns
     * the alert text, if any.
     */
    method HandleFileSelect(picked: Option<SheetFile>) returns (alertText: Option<string>)
      modifies this
      ensures picked.None? ==> file == old(file) && alertText == None
      ensures picked.Some? && EndsWith(picked.value.name, ".xlsx") ==> file == picked && alertText == None
      ensures picked.Some? && !EndsWith(picked.value.name, ".xlsx") ==> file == None && alertText == Some(SheetPrompt)
      ensures transporter == old(transporter) && zoneCount == old(zoneCount)
      ensures zones == old(zones) && isUploading == old(isUploading)
    {
      if picked.None? {
        return None;
      }
      if EndsWith(picked.value.name, ".xlsx") {
        file := picked;
        alertText := None;
      } else {
        alertText := Some(SheetPrompt);
        file := None;
      }
    }

    /**
     * `handleUpload` up to the request: without a sheet or a name it only
     * shows the prompt; otherwise uploading starts and the request is made.
     */
    method HandleUpload() returns (request: Option<UploadRequest>, alertText: Option<string>)
      modifies this
      ensures old(file).None? || old(transporter) == "" ==>
        request == None && alertText == Some(UploadPrompt) && isUploading == old(isUploading)
      ensures old(file).Some? && old(transporter) != "" ==>
        request == Some(UploadRequest(old(transporter), old(zones), old(file).value)) && alertText == None && isUploading
      ensures transporter == old(transporter) && zoneCount == old(zoneCount) && zones == old(zones) && file == old(file)
    {
      if file.None? || transporter == "" {
        return None, Some(UploadPrompt);
      }
      isUploading := true;
      request := Some(UploadRequest(transporter, zones, file.value));
      alertText := None;
    }

    /** The end of `handleUpload`: uploading stops, and a failure is shown. */
    method SettleUpload(outcome: UploadOutcome) returns (alertText: Option<string>)
      modifies this
      ensures !isUploading && alertText == OutcomeAlert(outcome)
      ensures transporter == old(transporter) && zoneCount == old(zoneCount) && zones == old(zones) && file == old(file)
    {
      alertText := OutcomeAlert(outcome);
      isUploading := false;
    }
  }

  /**
   * The button and the handler agree: when the button is enabled the
   * handler sends a request, and when the handler would send one the
   * button is enabled unless an upload is already running.
   */
  lemma ButtonMatchesGuard(isUploading: bool, file: Option<SheetFile>, transporter: string)
    ensures !UploadDisabled(isUploading, file, transporter) ==> file.Some? && transporter != ""
    ensures file.Some? && transporter != "" ==> (UploadDisabled(isUploading, file, transporter) <==> isUploading)
  {
  }
}
