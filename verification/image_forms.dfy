/**
 * The image hooks of ApplicationCreateForm and ApplicationEditForm.
 *
 * An upload is its byte size and what decoding it with PIL yields as its
 * format: `Some(name)` when `Image.open` succeeds and reports a format,
 * `None` when `Image.open` raises or the format is missing (then `.upper()`
 * raises). Both hooks run the format test inside `try` and turn any
 * exception, their own ValidationError included, into the "cannot open"
 * error.
 */
module ImageForms {
  import opened FormResult

  /** An uploaded file as far as the hooks look at it. */
  datatype Upload = Upload(size: nat, decoded: Option<string>)

  /** `max_size` in ApplicationCreateForm.clean_app_image: 2 MiB. */
  const MaxSize: nat := 2 * 1024 * 1024

  /** `format_validator` in both hooks. */
  const FormatNames: seq<string> := ["JPEG", "JPG", "PNG", "BMP"]

  // ---------------------------------------------------------------------
  // Format names
  // ---------------------------------------------------------------------

  /** Python's `str.upper` on one ASCII character. */
  function UpperChar(c: char): char {
    if 'a' <= c <= 'z' then (c as int - 32) as char else c
  }

  /** `str.upper` on a format name. */
  function Upper(s: string): string {
    seq(|s|, i requires 0 <= i < |s| => UpperChar(s[i]))
  }

  /** Two characters are the same letter up to ASCII case. */
  predicate SameIgnoringCase(a: char, b: char) {
    a == b
    || ('a' <= a <= 'z' && b as int == a as int - 32)
    || ('a' <= b <= 'z' && a as int == b as int - 32)
  }

  /** Two strings are equal up to ASCII case. */
  predicate EqualIgnoringCase(s: string, t: string) {
    |s| == |t| && forall i :: 0 <= i < |s| ==> SameIgnoringCase(s[i], t[i])
  }

  /** The formats both hooks allow, stated without upper-casing: jpeg, jpg, png or bmp in any case. */
  predicate AllowedFormat(name: string) {
    EqualIgnoringCase(name, "JPEG") || EqualIgnoringCase(name, "JPG")
    || EqualIgnoringCase(name, "PNG") || EqualIgnoringCase(name, "BMP")
  }

  /** A string of upper-case ASCII letters only. */
  predicate UpperLetters(t: string) {
    forall i :: 0 <= i < |t| ==> 'A' <= t[i] <= 'Z'
  }

  /** Upper-casing to an upper-case name is the same as comparing up to case. */
  lemma UpperEqualsIff(s: string, t: string)
    requires UpperLetters(t)
    ensures Upper(s) == t <==> EqualIgnoringCase(s, t)
  {
  }

  /** `img_format.upper() in format_validator` holds exactly for the allowed formats. */
  lemma FormatTestIff(name: string)
    ensures Upper(name) in FormatNames <==> AllowedFormat(name)
  {
    UpperEqualsIff(name, "JPEG");
    UpperEqualsIff(name, "JPG");
    UpperEqualsIff(name, "PNG");
    UpperEqualsIff(name, "BMP");
  }

  // ---------------------------------------------------------------------
  // The `try` block and its `except Exception`
  // ---------------------------------------------------------------------

  /** How the `try` block of a hook ends. */
  datatype TryOutcome =
    | Completed                  // the format is in format_validator
    | RaisedValidation(e: Error) // the hook's own ValidationError
    | RaisedForeign              // Image.open or .upper() raised

  /** The body of the `try`: open the image, upper-case its format, test it. */
  function OpenAndTestFormat(decoded: Option<string>): (t: TryOutcome)
    ensures t.Completed? <==> decoded.Some? && AllowedFormat(decoded.value)
    ensures t.RaisedValidation? ==> t.e == WrongImageFormat
    ensures t.RaisedForeign? <==> decoded.None?
  {
    match decoded
    case None => RaisedForeign
    case Some(name) =>
      FormatTestIff(name);
      if Upper(name) in FormatNames then Completed else RaisedValidation(WrongImageFormat)
  }

  /** `except Exception: raise ValidationError(...)`: every exception becomes "cannot open". */
  function CatchAll(t: TryOutcome): (r: Result<()>)
    ensures r.Ok? <==> t.Completed?
    ensures r.Err? ==> r.error == CannotOpenImage
  {
    if t.Completed? then Ok(()) else Err(CannotOpenImage)
  }

  // ---------------------------------------------------------------------
  // The two hooks as written
  // ---------------------------------------------------------------------

  /**
   * ApplicationCreateForm.clean_app_image. No image passes unchanged; an
   * image over 2 MiB is refused for its size whatever its format; any other
   * image is accepted exactly when it decodes to an allowed format, and
   * otherwise refused with "cannot open", never with the wrong-format text.
   */
  function CreateCleanAppImage(image: Option<Upload>): (r: Result<Option<Upload>>)
    ensures image.None? ==> r == Ok(None)
    ensures image.Some? && image.value.size > MaxSize ==> r == Err(ImageTooLarge)
    ensures image.Some? && image.value.size <= MaxSize ==>
      (r.Ok? <==> image.value.decoded.Some? && AllowedFormat(image.value.decoded.value))
    ensures image.Some? && image.value.size <= MaxSize && r.Err? ==> r.error == CannotOpenImage
    ensures r.Ok? ==> r.value == image
  {
    match image
    case None => Ok(None)
    case Some(upload) =>
      if upload.size > MaxSize then Err(ImageTooLarge)
      else match CatchAll(OpenAndTestFormat(upload.decoded))
        case Ok(_) => Ok(image)
        case Err(e) => Err(e)
  }

  /**
   * ApplicationEditForm.clean_app_image, which reads the `design_image`
   * field: the same format test with no size limit. (The form declares only
   * `design_image`, and no claim is made here that this hook guards it.)
   */
  function EditCleanAppImage(image: Option<Upload>): (r: Result<Option<Upload>>)
    ensures image.None? ==> r == Ok(None)
    ensures image.Some? ==>
      (r.Ok? <==> image.value.decoded.Some? && AllowedFormat(image.value.decoded.value))
    ensures r.Err? ==> r.error == CannotOpenImage
    ensures r.Ok? ==> r.value == image
  {
    match image
    case None => Ok(None)
    case Some(upload) =>
      match CatchAll(OpenAndTestFormat(upload.decoded))
      case Ok(_) => Ok(image)
      case Err(e) => Err(e)
  }

  /** The creation hook is the edit form's hook with the size limit in front. */
  lemma CreateIsEditWithSizeLimit(image: Option<Upload>)
    ensures CreateCleanAppImage(image) ==
      if image.Some? && image.value.size > MaxSize then Err(ImageTooLarge) else EditCleanAppImage(image)
  {
  }

  /** The size limit is strict: exactly 2 MiB passes it, one byte more does not. */
  lemma SizeLimitBoundary(decoded: Option<string>)
    ensures CreateCleanAppImage(Some(Upload(MaxSize + 1, decoded))) == Err(ImageTooLarge)
    ensures CreateCleanAppImage(Some(Upload(MaxSize, decoded))).Ok?
        <==> decoded.Some? && AllowedFormat(decoded.value)
  {
  }

  /** An oversized image in an allowed format: refused at creation, accepted by the edit form's hook. */
  lemma EditHookHasNoSizeLimit(upload: Upload)
    requires upload.size > MaxSize && upload.decoded.Some? && AllowedFormat(upload.decoded.value)
    ensures CreateCleanAppImage(Some(upload)) == Err(ImageTooLarge)
    ensures EditCleanAppImage(Some(upload)) == Ok(Some(upload))
  {
  }

  /**
   * The wrong-format message is never reported by either hook: the
   * ValidationError raised for it is caught by `except Exception`.
   */
  lemma WrongFormatMessageUnreachable(image: Option<Upload>)
    ensures CreateCleanAppImage(image) != Err(WrongImageFormat)
    ensures EditCleanAppImage(image) != Err(WrongImageFormat)
  {
  }

  /** A small GIF decodes fine, yet is reported as a file that cannot be opened. */
  lemma GifReportedAsUnopenable()
    ensures CreateCleanAppImage(Some(Upload(1024, Some("GIF")))) == Err(CannotOpenImage)
  {
    FormatTestIff("GIF");
    assert Upper("GIF") == "GIF";
  }

  /**
   * The text of the message the hooks report for a wrong format differs from
   * the one they report instead, so swallowing the former is visible.
   */
  lemma CannotOpenIsNotWrongFormat()
    ensures CannotOpenImage.Message() != WrongImageFormat.Message()
  {
  }

  // ---------------------------------------------------------------------
  // The hooks as evidently intended
  // ---------------------------------------------------------------------

  /**
   * `except` that turns only foreign exceptions (a failed decode) into
   * "cannot open" and lets the hook's own ValidationError through.
   */
  function CatchForeign(t: TryOutcome): (r: Result<()>)
    ensures r.Ok? <==> t.Completed?
    ensures t.RaisedValidation? ==> r == Err(t.e)
    ensures t.RaisedForeign? ==> r == Err(CannotOpenImage)
  {
    match t
    case Completed => Ok(())
    case RaisedValidation(e) => Err(e)
    case RaisedForeign => Err(CannotOpenImage)
  }

  /**
   * The creation hook with the wrong-format message reported: an image in
   * the size limit that decodes to a format outside the list is refused with
   * the wrong-format text, one that does not decode with "cannot open".
   */
  function CreateCleanAppImageIntended(image: Option<Upload>): (r: Result<Option<Upload>>)
    ensures image.None? ==> r == Ok(None)
    ensures image.Some? && image.value.size > MaxSize ==> r == Err(ImageTooLarge)
    ensures image.Some? && image.value.size <= MaxSize && image.value.decoded.None? ==>
      r == Err(CannotOpenImage)
    ensures image.Some? && image.value.size <= MaxSize && image.value.decoded.Some? ==>
      r == if AllowedFormat(image.value.decoded.value) then Ok(image) else Err(WrongImageFormat)
  {
    match image
    case None => Ok(None)
    case Some(upload) =>
      if upload.size > MaxSize then Err(ImageTooLarge)
      else match CatchForeign(OpenAndTestFormat(upload.decoded))
        case Ok(_) => Ok(image)
        case Err(e) => Err(e)
  }

  /** The edit form's hook with the wrong-format message reported. */
  function EditCleanAppImageIntended(image: Option<Upload>): (r: Result<Option<Upload>>)
    ensures image.None? ==> r == Ok(None)
    ensures image.Some? && image.value.decoded.None? ==> r == Err(CannotOpenImage)
    ensures image.Some? && image.value.decoded.Some? ==>
      r == if AllowedFormat(image.value.decoded.value) then Ok(image) else Err(WrongImageFormat)
  {
    match image
    case None => Ok(None)
    case Some(upload) =>
      match CatchForeign(OpenAndTestFormat(upload.decoded))
      case Ok(_) => Ok(image)
      case Err(e) => Err(e)
  }

  /**
   * The correction changes only the message: each intended hook accepts and
   * refuses exactly the images its as-written counterpart does.
   */
  lemma IntendedHooksDecideAlike(image: Option<Upload>)
    ensures CreateCleanAppImageIntended(image).Ok? <==> CreateCleanAppImage(image).Ok?
    ensures CreateCleanAppImageIntended(image).Ok? ==> CreateCleanAppImageIntended(image) == CreateCleanAppImage(image)
    ensures EditCleanAppImageIntended(image).Ok? <==> EditCleanAppImage(image).Ok?
    ensures EditCleanAppImageIntended(image).Ok? ==> EditCleanAppImageIntended(image) == EditCleanAppImage(image)
  {
  }
}
