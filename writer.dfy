/**
 * Encoder dispatch (`ProcessedImage.Write`): a switch over the resolved format string that
 * chooses an encoder and derives its integer parameter from the raw quality, with Go's
 * 64-bit arithmetic and truncating division. The encoders themselves are one opaque
 * function from (encoder with parameters, image) to bytes or an error.
 */
module Writer {
  import opened Wrappers
  import opened GoInt
  import Formats
  import opened Processor
  import PipelineProperties

  /** The encoder a format selects, with the parameters the source passes to it. */
  datatype Encoder =
    | JpegEncoder(quality: int64)
    | PngEncoder(compressionLevel: int64)
    | WebpEncoder(lossless: bool, quality: int64)
    | GifEncoder(numColors: int64)
    | BmpEncoder
    | HeicEncoder(quality: int64)
    | PdfEncoder(quality: int64)

  datatype WriteError =
    | UnsupportedFormatForWriting(format: string)
    | EncodeFailed(cause: Cause)

  /** PNG compression level `(quality * 9) / 100` in Go int arithmetic. */
  function PngCompressionLevel(quality: int64): int64
  {
    Quo(Wrap(quality as int * 9), 100)
  }

  /** GIF palette size `(quality * 256) / 100` in Go int arithmetic. */
  function GifNumColors(quality: int64): int64
  {
    Quo(Wrap(quality as int * 256), 100)
  }

  /** The names the switch sends to each encoder. */
  function CaseLabels(e: Encoder): set<string>
  {
    match e
    case JpegEncoder(_) => {"jpeg", "jpg"}
    case PngEncoder(_) => {"png"}
    case WebpEncoder(_, _) => {"webp"}
    case GifEncoder(_) => {"gif"}
    case BmpEncoder => {"bmp"}
    case HeicEncoder(_) => {"heic", "heif"}
    case PdfEncoder(_) => {"pdf"}
  }

  /**
   * The format switch: a format reaches an encoder exactly when the registry accepts it, and
   * the encoder is the one whose case lists that name; any other name takes the default branch.
   */
  function EncoderFor(format: string, quality: int64): (r: Result<Encoder, WriteError>)
    ensures r.Success? <==> Formats.IsValidFormat(format)
    ensures r.Success? ==> format in CaseLabels(r.value)
    ensures r.Failure? ==> r.error == UnsupportedFormatForWriting(format)
  {
    match format
    case "jpeg" => Success(JpegEncoder(quality))
    case "jpg" => Success(JpegEncoder(quality))
    case "png" => Success(PngEncoder(PngCompressionLevel(quality)))
    case "webp" => Success(WebpEncoder(quality == 100, quality))
    case "gif" => Success(GifEncoder(GifNumColors(quality)))
    case "bmp" => Success(BmpEncoder)
    case "heic" => Success(HeicEncoder(quality))
    case "heif" => Success(HeicEncoder(quality))
    case "pdf" => Success(PdfEncoder(quality))
    case _ => Failure(UnsupportedFormatForWriting(format))
  }

  /**
   * `Write`: an unsupported name is refused without encoding; otherwise the chosen encoder's
   * answer is returned, its error unwrapped as the source does.
   */
  function Write(pi: ProcessedImage, encode: (Encoder, Image) -> Result<Bytes, Cause>): (r: Result<Bytes, WriteError>)
    ensures !Formats.IsValidFormat(pi.format) <==> r == Failure(UnsupportedFormatForWriting(pi.format))
    ensures Formats.IsValidFormat(pi.format) ==>
      exists e :: pi.format in CaseLabels(e) && match encode(e, pi.image)
        case Success(b) => r == Success(b)
        case Failure(c) => r == Failure(EncodeFailed(c))
  {
    match EncoderFor(pi.format, pi.quality)
    case Failure(err) => Failure(err)
    case Success(e) =>
      match encode(e, pi.image)
      case Success(b) => Success(b)
      case Failure(c) => Failure(EncodeFailed(c))
  }

  /**
   * The case table of the switch, for every quality the 64-bit type can hold: which encoder
   * each accepted name selects and the parameter it is given.
   */
  lemma EncoderForEachFormat(quality: int64)
    ensures EncoderFor("jpeg", quality) == Success(JpegEncoder(quality))
    ensures EncoderFor("jpg", quality) == Success(JpegEncoder(quality))
    ensures EncoderFor("png", quality) == Success(PngEncoder(PngCompressionLevel(quality)))
    ensures EncoderFor("webp", quality) == Success(WebpEncoder(quality == 100, quality))
    ensures EncoderFor("gif", quality) == Success(GifEncoder(GifNumColors(quality)))
    ensures EncoderFor("bmp", quality) == Success(BmpEncoder)
    ensures EncoderFor("heic", quality) == Success(HeicEncoder(quality))
    ensures EncoderFor("heif", quality) == Success(HeicEncoder(quality))
    ensures EncoderFor("pdf", quality) == Success(PdfEncoder(quality))
  {
  }

  /** For qualities 0..100 the PNG level is the floor of quality * 9 / 100 and lies in 0..9. */
  lemma PngLevelInRange(quality: int64)
    requires 0 <= quality <= 100
    ensures 0 <= PngCompressionLevel(quality) <= 9
    ensures PngCompressionLevel(quality) as int * 100 <= quality as int * 9 < (PngCompressionLevel(quality) as int + 1) * 100
  {
  }

  /** For qualities 0..100 the GIF palette size lies in 0..256; it is 0 only for quality 0 and 256 only for quality 100. */
  lemma GifColorsInRange(quality: int64)
    requires 0 <= quality <= 100
    ensures 0 <= GifNumColors(quality) <= 256
    ensures GifNumColors(quality) == 0 <==> quality == 0
    ensures GifNumColors(quality) == 256 <==> quality == 100
    ensures GifNumColors(quality) as int * 100 <= quality as int * 256 < (GifNumColors(quality) as int + 1) * 100
  {
  }

  /** Over 0..100 both derived parameters grow with quality. */
  lemma ParametersMonotone(q1: int64, q2: int64)
    requires 0 <= q1 <= q2 <= 100
    ensures PngCompressionLevel(q1) <= PngCompressionLevel(q2)
    ensures GifNumColors(q1) <= GifNumColors(q2)
  {
    DivMonotone(q1 as int * 9, q2 as int * 9, 100);
    DivMonotone(q1 as int * 256, q2 as int * 256, 100);
  }

  lemma DivMonotone(a: int, b: int, d: int)
    requires 0 <= a <= b && d > 0
    ensures a / d <= b / d
  {
    var k := a / d - b / d;
    assert k * d == (a - a % d) - (b - b % d);
    assert k * d < d;
  }

  /**
   * Quality is not clamped: a negative quality gives a negative PNG level, because Go's
   * division truncates toward zero the level of -q is minus the level of q.
   */
  lemma PngLevelOfNegativeQuality(quality: int64)
    requires -100 <= quality <= 100
    ensures PngCompressionLevel(-quality) == -PngCompressionLevel(quality)
    ensures quality < 0 ==> -9 <= PngCompressionLevel(quality) <= 0
  {
  }

  /** WebP is lossless exactly at quality 100; the quality itself is passed through. */
  lemma WebpLosslessOnlyAtFullQuality(quality: int64)
    ensures EncoderFor("webp", quality).Success?
    ensures EncoderFor("webp", quality).value.lossless <==> quality == 100
    ensures EncoderFor("webp", quality).value.quality == quality
  {
  }

  /** With a supported format and quality in 0..100, every encoder parameter is in its range. */
  lemma EncoderParametersInRange(format: string, quality: int64)
    requires Formats.IsValidFormat(format) && 0 <= quality <= 100
    ensures match EncoderFor(format, quality).value
      case JpegEncoder(q) => q == quality
      case PngEncoder(level) =>
        level == PngCompressionLevel(quality) && 0 <= level <= 9
        && level as int * 100 <= quality as int * 9 < (level as int + 1) * 100
      case WebpEncoder(lossless, q) => q == quality && (lossless <==> quality == 100)
      case GifEncoder(n) =>
        n == GifNumColors(quality) && 0 <= n <= 256 && (n == 0 <==> quality == 0)
        && n as int * 100 <= quality as int * 256 < (n as int + 1) * 100
      case BmpEncoder => true
      case HeicEncoder(q) => q == quality
      case PdfEncoder(q) => q == quality
  {
    PngLevelInRange(quality);
    GifColorsInRange(quality);
  }

  /** Every result of a successful `ProcessImageData` reaches an encoder: the default branch of `Write` is unreachable from the pipeline. */
  lemma ProcessedImagesAreWritable(p: ImageProcessor, img: Image, opts: ProcessOptions, env: Collaborators)
    requires Process(p, img, opts, env).Success?
    ensures EncoderFor(Process(p, img, opts, env).value.format, opts.quality).Success?
    ensures forall encode: (Encoder, Image) -> Result<Bytes, Cause> ::
      Write(Process(p, img, opts, env).value, encode) != Failure(UnsupportedFormatForWriting(Process(p, img, opts, env).value.format))
  {
    PipelineProperties.SuccessfulResult(p, img, opts, env);
  }
}
