/** Values shared by the components: the two aspect-ratio unions and the
    picked and uploaded image files. */
module Types {
  import opened JsValues

  /** The five aspect ratios an image may be generated with. */
  datatype AspectRatio = Ratio1x1 | Ratio16x9 | Ratio9x16 | Ratio4x3 | Ratio3x4
  {
    /** The literal that stands for the ratio. */
    function Text(): string
    {
      match this
      case Ratio1x1 => "1:1"
      case Ratio16x9 => "16:9"
      case Ratio9x16 => "9:16"
      case Ratio4x3 => "4:3"
      case Ratio3x4 => "3:4"
    }
  }

  /** The two aspect ratios a video may be generated with. */
  datatype VideoAspectRatio = Video16x9 | Video9x16
  {
    function Text(): string
    {
      match this
      case Video16x9 => "16:9"
      case Video9x16 => "9:16"
    }

    /** The image ratio spelled with the same literal: every video ratio is also an image ratio. */
    function AsImageRatio(): (r: AspectRatio)
      ensures r.Text() == Text()
      ensures r == Ratio16x9 || r == Ratio9x16
    {
      match this
      case Video16x9 => Ratio16x9
      case Video9x16 => Ratio9x16
    }
  }

  /** Distinct image ratios are spelled differently. */
  lemma AspectRatioTextInjective(a: AspectRatio, b: AspectRatio)
    requires a.Text() == b.Text()
    ensures a == b
  {
  }

  /** What a component shows when a picked file could not be read. */
  const READ_FAILED := "Failed to read file."

  /** An image the user picked and that was read: its object URL, its base64 contents and its MIME type. */
  datatype UploadedImage = UploadedImage(url: string, base64: string, mimeType: string)

  /** The first file of a file input's selection: the object URL made for it, its type,
      and what reading it as base64 gave (the contents, or the reader's error). */
  datatype PickedFile = PickedFile(objectUrl: string, fileType: string, contents: Result<string>)
}
