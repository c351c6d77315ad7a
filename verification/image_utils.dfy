/** The attachment check of src/lib/imageUtils.ts. */
module ImageUtils {
  import opened Common

  /** The MIME types an attachment may have, matched exactly (case-sensitive). */
  const AllowedTypes: seq<string> :=
    ["image/png", "image/jpeg", "image/jpg", "image/webp", "image/svg+xml", "application/pdf", "video/mp4"]

  /** 2 MB: the largest accepted size, in bytes. */
  const MaxSize: int := 2 * 1024 * 1024

  const TypeError: string := "Only images (PNG, JPG, WEBP, SVG), PDF documents, and MP4 videos are allowed."
  const SizeError: string := "File size must be less than 2MB."

  /** `{ valid, error? }`. */
  datatype FileCheck = FileCheck(valid: bool, error: Option<string>)

  /**
   * `validateFile`: a file is accepted exactly when its type is one of the seven listed
   * and its size is at most 2 MB; a rejected file always carries an error, and the type
   * error wins when both checks fail.
   */
  function ValidateFile(mimeType: string, size: int): (r: FileCheck)
    ensures r.valid <==> mimeType in AllowedTypes && size <= 2097152
    ensures r.error.Some? <==> !r.valid
    ensures mimeType !in AllowedTypes ==> r.error == Some(TypeError)
    ensures mimeType in AllowedTypes && size > MaxSize ==> r.error == Some(SizeError)
  {
    if mimeType !in AllowedTypes then FileCheck(false, Some(TypeError))
    else if size > MaxSize then FileCheck(false, Some(SizeError))
    else FileCheck(true, None)
  }

  /** Exactly 2097152 bytes pass and one byte more does not; GIF and upper-case spellings are refused. */
  lemma ValidateFileEdges()
    ensures ValidateFile("image/png", 2097152).valid
    ensures ValidateFile("image/png", 2097153) == FileCheck(false, Some(SizeError))
    ensures ValidateFile("image/PNG", 10).error == Some(TypeError)
    ensures ValidateFile("image/gif", 2097153).error == Some(TypeError)
  {
    assert "image/PNG" != "image/png";
    assert "image/gif" !in AllowedTypes;
    assert "image/PNG" !in AllowedTypes;
  }
}
