/**
 * The image side of the remove-background endpoint, with pixels abstracted
 * away: an image is its PIL mode and size, and encoding is described by what
 * is handed to `save` (which picture, which PIL format, which quality).
 */
module Imaging {
  import opened Optional
  import opened PyStr

  /** A PIL image as the handler sees it: its mode ("RGB", "RGBA", ...) and its size. */
  datatype Image = Image(mode: string, width: nat, height: nat)

  datatype Color = Color(red: nat, green: nat, blue: nat)

  /** The canvas colour JPEG output is flattened onto. */
  const White := Color(255, 255, 255)

  /**
   * What is passed to `save`: either the provider's result itself, or a new
   * "RGB" image of the same size filled with `canvas` onto which the source
   * was pasted using its alpha band (band 3) as the mask.
   */
  datatype Picture = Plain(source: Image) | Flattened(canvas: Color, source: Image)

  function PictureMode(p: Picture): string
  {
    match p
    case Plain(img) => img.mode
    case Flattened(_, _) => "RGB"
  }

  function PictureSize(p: Picture): (nat, nat)
  {
    (p.source.width, p.source.height)
  }

  /** The three encodings the endpoint can produce. */
  datatype OutputFormat = Png | Jpeg | Webp

  /** The `format` request field resolved as the handler does: lowered, then jpg/jpeg, webp, or else PNG. */
  function ResolveFormat(format: string): OutputFormat
  {
    var lowered := Lower(format);
    if lowered == "jpg" || lowered == "jpeg" then Jpeg
    else if lowered == "webp" then Webp
    else Png
  }

  function MediaType(f: OutputFormat): string
  {
    match f
    case Png => "image/png"
    case Jpeg => "image/jpeg"
    case Webp => "image/webp"
  }

  /** The format name handed to PIL's `save`. */
  function PilFormat(f: OutputFormat): string
  {
    match f
    case Png => "PNG"
    case Jpeg => "JPEG"
    case Webp => "WEBP"
  }

  /** One call to PIL's `save`: the picture, the PIL format and the `quality` keyword if one is passed. */
  datatype Encoding = Encoding(picture: Picture, pilFormat: string, quality: Option<int>)

  /** The `save` call the handler makes for the provider's `result` in format `f`. */
  function PrepareSave(result: Image, f: OutputFormat, quality: int): (e: Encoding)
    ensures e.pilFormat == PilFormat(f)
    ensures e.quality == (if f == Png then None else Some(quality))
    ensures PictureSize(e.picture) == (result.width, result.height)
    ensures e.picture.Flattened? <==> f == Jpeg && result.mode == "RGBA"
    ensures e.picture.Flattened? ==> e.picture == Flattened(White, result)
    ensures e.picture.Plain? ==> e.picture.source == result
    ensures f == Jpeg ==> PictureMode(e.picture) != "RGBA"
  {
    match f
    case Jpeg =>
      if result.mode == "RGBA" then Encoding(Flattened(White, result), "JPEG", Some(quality))
      else Encoding(Plain(result), "JPEG", Some(quality))
    case Webp => Encoding(Plain(result), "WEBP", Some(quality))
    case Png => Encoding(Plain(result), "PNG", None)
  }

  /**
   * The format is matched ignoring case: JPEG exactly for "jpg" and "jpeg" in
   * any capitalisation, WEBP exactly for "webp", and PNG for everything else.
   */
  lemma ResolveFormatIgnoresCase(format: string)
    ensures ResolveFormat(format) == Jpeg <==>
              EqualsIgnoringCase(format, "jpg") || EqualsIgnoringCase(format, "jpeg")
    ensures ResolveFormat(format) == Webp <==> EqualsIgnoringCase(format, "webp")
    ensures ResolveFormat(format) == Png <==>
              !EqualsIgnoringCase(format, "jpg") && !EqualsIgnoringCase(format, "jpeg")
              && !EqualsIgnoringCase(format, "webp")
  {
    LowerEqualsLiteral(format, "jpg");
    LowerEqualsLiteral(format, "jpeg");
    LowerEqualsLiteral(format, "webp");
  }

  /** Two spellings of the format that differ only in case resolve alike. */
  lemma ResolveFormatCaseInsensitive(a: string, b: string)
    requires EqualsIgnoringCase(a, b)
    ensures ResolveFormat(a) == ResolveFormat(b)
  {
    EqualsIgnoringCaseLower(a, b);
  }

  /** Resolution never fails: unknown names such as "bmp", "" or even "PNG" fall back to PNG silently. */
  lemma ResolveFormatExamples()
    ensures ResolveFormat("png") == Png && ResolveFormat("PNG") == Png
    ensures ResolveFormat("bmp") == Png && ResolveFormat("") == Png
    ensures ResolveFormat("JPG") == Jpeg && ResolveFormat("Jpeg") == Jpeg
    ensures ResolveFormat("WebP") == Webp
  {
    ResolveFormatIgnoresCase("bmp");
    ResolveFormatIgnoresCase("PNG");
    ResolveFormatIgnoresCase("JPG");
    ResolveFormatIgnoresCase("Jpeg");
    ResolveFormatIgnoresCase("WebP");
  }
}
