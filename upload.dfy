/**
 * The upload page of `src/pages/UploadPage.tsx`: validating the chosen file,
 * the `processing` flag, the list of uploaded images, and the status chips.
 */
module Upload {
  import opened Wrappers
  import opened Strings
  import opened Types
  import Helpers
  import Coloring

  /** What the browser reports to the user, or where it navigates, after a file is chosen. */
  datatype FileSelectOutcome =
    | Ignored                          // no file list, or an empty one
    | Rejected(message: string)        // validation failed; nothing was processed
    | Processed(navigateTo: string)    // the outline is ready; the page moves on to colour it
    | ProcessingFailed(message: string)

  const NotAnImageAlert := "Please select an image file! \U{1F4F8}"
  const TooLargeAlert := "File is too large! Please select an image smaller than 10MB. \U{1F4CF}"
  const ProcessingFailedAlert := "Failed to process image. Please try again! \U{1F622}"

  const ColorRoutePrefix := "/color/"

  /** The page that colours an uploaded or stored image. */
  function ColorPath(id: string): (r: string)
    ensures StartsWith(r, ColorRoutePrefix) && |r| == |ColorRoutePrefix| + |id|
  {
    ColorRoutePrefix + id
  }

  /** The `:id` parameter of the colouring route `/color/:id`, if the path is on that route. */
  function ColorRouteId(path: string): Option<string>
  {
    if StartsWith(path, ColorRoutePrefix) then Some(path[|ColorRoutePrefix|..]) else None
  }

  /**
   * Navigating to an uploaded image's page hands its id back to the colouring
   * page, which then opens an image under that same id (any id but `new`).
   */
  lemma ColorPathOpensItsImage(id: string, now: nat)
    ensures ColorRouteId(ColorPath(id)) == Some(id)
    ensures id != "" && id != "new" ==> Coloring.LoadColoringImage(ColorRouteId(ColorPath(id)), now).id == id
  {
    assert ColorPath(id)[|ColorRoutePrefix|..] == id;
  }

  class UploadPageState {
    var uploadedImages: seq<UploadedImage>
    var processing: bool

    constructor ()
      ensures uploadedImages == [] && !processing
    {
      uploadedImages := [];
      processing := false;
    }

    /**
     * Handles a chosen file list. Only the first file is looked at; it must be
     * an image of at most 10 MiB. The outline service's answer is `generated`:
     * the processed image, or None when the service failed.
     */
    method HandleFileSelect(files: Option<seq<Helpers.FileInfo>>, generated: Option<UploadedImage>)
      returns (outcome: FileSelectOutcome)
      modifies this
      ensures files.None? || files.value == [] ==>
        outcome == Ignored && uploadedImages == old(uploadedImages) && processing == old(processing)
      ensures files.Some? && files.value != [] && !Helpers.ValidateImageFile(files.value[0]).valid ==>
        && outcome == Rejected(if !Helpers.IsImageType(files.value[0]) then NotAnImageAlert else TooLargeAlert)
        && uploadedImages == old(uploadedImages) && processing == old(processing)
      ensures files.Some? && files.value != [] && Helpers.ValidateImageFile(files.value[0]).valid ==>
        && !processing
        && uploadedImages == (if generated.Some? then [generated.value] + old(uploadedImages) else old(uploadedImages))
        && outcome == (if generated.Some? then Processed(ColorPath(generated.value.id)) else ProcessingFailed(ProcessingFailedAlert))
    {
      if files.None? || |files.value| == 0 {
        return Ignored;
      }
      var file := files.value[0];
      if !StartsWith(file.mimeType, "image/") {
        return Rejected(NotAnImageAlert);
      }
      if file.size > 10 * 1024 * 1024 {
        return Rejected(TooLargeAlert);
      }
      processing := true;
      if generated.Some? {
        var processedImage := generated.value;
        uploadedImages := [processedImage] + uploadedImages;
        outcome := Processed(ColorPath(processedImage.id));
      } else {
        outcome := ProcessingFailed(ProcessingFailedAlert);
      }
      processing := false;
    }
  }

  /** The page's own checks reject exactly the files the shared helper rejects, with the same reason first. */
  lemma PageValidationMatchesHelper(file: Helpers.FileInfo)
    ensures Helpers.ValidateImageFile(file).error == Some(Helpers.NotAnImageError) <==> !StartsWith(file.mimeType, "image/")
    ensures Helpers.ValidateImageFile(file).error == Some(Helpers.TooLargeError) <==>
      StartsWith(file.mimeType, "image/") && file.size > 10 * 1024 * 1024
  {
  }

  /** The chip colour for a status string. */
  function GetStatusColor(status: string): (r: string)
    ensures status == "completed" ==> r == "success"
    ensures status == "processing" ==> r == "warning"
    ensures status == "failed" ==> r == "error"
    ensures r == "default" <==> status !in {"completed", "processing", "failed"}
  {
    match status
    case "completed" => "success"
    case "processing" => "warning"
    case "failed" => "error"
    case _ => "default"
  }

  /** No status an uploaded image can have falls through to the default colour. */
  lemma EveryStatusHasAColor(s: UploadStatus)
    ensures GetStatusColor(StatusName(s)) != "default"
  {
  }

  /** Clicking a card: where the page navigates, if anywhere. */
  function CardClickTarget(image: UploadedImage): (r: Option<string>)
    ensures r.Some? <==> image.status == Completed
    ensures r.Some? ==> r.value == ColorPath(image.id)
  {
    if StatusName(image.status) == "completed" then Some(ColorPath(image.id)) else None
  }
}
