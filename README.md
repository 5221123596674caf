# Image processing pipeline of reubah, modelled in Dafny

reubah takes an uploaded image and produces a re-encoded output. Optionally it removes the
background, resizes and optimises the image, and it converts between the output formats
jpeg/jpg, png, webp, gif, bmp, heic/heif and pdf. This project models the processor core in
`internal/processor/processor.go`. It has four parts:

- **Format registry** (`Formats`): `isValidFormat`. It is a lookup in a fixed table of nine
  names. Matching is case-sensitive, and a missing key reads as `false`.
- **Quality tiers** (`Quality`): `getQualityLevel`. It maps a raw quality to `low`, `medium`,
  `high` or `lossless`. The inclusive upper bounds are 60, 75 and 90.
- **Pipeline** (`Processor`, `PipelineProperties`): `NewImageProcessor`, `Config`,
  `ProcessOptions` and `ProcessImageData`.
  - `ProcessImageData` is an imperative method. It works on a local copy of the options and
    defaults the format in place. It then overwrites the current image stage by stage and
    returns at the first error.
  - It records a ghost trace of the collaborator calls it makes, with their arguments.
  - The method is proved equal to `Pipeline`, a composition of one function per stage:
    validate, background removal, resize, and optimise followed by re-decode.
  - The lemmas state these properties of the composition: the format gate comes first; the
    stage order is fixed; each call receives the previous call's output; errors are
    terminal; and a successful result has a fixed shape.
- **Encoder dispatch** (`Writer`): the format switch of `ProcessedImage.Write`. It also
  computes the integer encoder parameters from the raw quality: PNG level `(q*9)/100`, WebP
  lossless iff `q == 100`, and GIF colours `(q*256)/100`.

Go's `int` is modelled as a 64-bit integer (`GoInt.int64`). Products wrap modulo 2^64, and
`/` truncates toward zero (`GoInt.Quo`), so negative qualities behave as the code computes
them. Quality is never clamped, and the model does not clamp it either.

Images are opaque values. The collaborators are arbitrary functions that return a value or a
cause of failure: background removal, resize, optimise and decode. `optimize.GetOptionsForQuality`
and `optimize.Optimize` are folded into one function of (image, format, tier). Together they
form `Processor.Collaborators`. The encoders used by `Write` are one opaque function of
(encoder with parameters, image). The `io.Writer` and the `bytes.Buffer` become returned byte
sequences.

Three behaviours of the code that a reader might expect to be otherwise are modelled as written:

- The GIF colour count for quality 0 is 0. No clamp to at least 1 is applied.
- `Config.DefaultQuality` (85) is never read by `ProcessImageData`. A quality of 0 is passed
  through unchanged. This is proved as `PipelineProperties.DefaultQualityUnused`.
- A negative width with a positive height still triggers a resize. Only
  `Width > 0 || Height > 0` is tested.

## Model

| member | source | states |
|---|---|---|
| `Formats.IsValidFormat` | internal/processor/processor.go:191-204 | the table lookup accepts exactly the nine names jpeg, jpg, png, webp, gif, bmp, heic, heif, pdf (a missing key reads as false) |
| `Formats.ValidFormatsAreLowerCase` | internal/processor/processor.go:192-202 | every accepted name is 3 or 4 lower-case ASCII letters |
| `Formats.UpperCaseRejected` | internal/processor/processor.go:191-204 | matching is case-sensitive: any name containing an upper-case letter is rejected |
| `Formats.RejectedExamples` | internal/processor/processor.go:191-204 | "JPEG", "Png", "tiff", "", "jpeg " and ".png" are rejected |
| `Quality.GetQualityLevel` | internal/processor/processor.go:206-217 | low iff q<=60, medium iff 60<q<=75, high iff 75<q<=90, lossless iff q>90, for every int |
| `Quality.LevelMonotone` | internal/processor/processor.go:206-217 | a higher quality never selects a coarser tier |
| `Quality.LevelBoundaries` | internal/processor/processor.go:207-215 | the tier changes exactly between 60/61, 75/76 and 90/91; 0 and negatives are low, 100 is lossless |
| `GoInt.Wrap` | internal/processor/processor.go:168 | Go int multiplication: the result equals the exact product when it fits in 64 bits and is congruent to it modulo 2^64 otherwise |
| `GoInt.Quo` | internal/processor/processor.go:178 | Go integer division by a positive divisor: the remainder lies in [0, b) for a non-negative dividend and in (-b, 0] for a negative one, i.e. the quotient rounds toward zero |
| `Processor.NewImageProcessor` | internal/processor/processor.go:94-101 | the config holds default quality 85 and default format "jpeg", and that default is accepted by the registry |
| `Processor.ResolveFormat` | internal/processor/processor.go:105-107 | an empty requested format becomes the config default; any other is kept unchanged |
| `Processor.ProcessImageData` | internal/processor/processor.go:103-154 | the method returns what the stage composition returns and makes exactly the calls it records; an invalid resolved format fails with UnsupportedFormat and no call; on success the format is the resolved one, the quality is opts.Quality, and exactly the requested stages ran; on failure the last call failed and the error wraps its cause |
| `Processor.ValidateConsistent` | internal/processor/processor.go:108-110 | the format gate makes no call: it yields a running state holding the input image or the UnsupportedFormat error |
| `Processor.BackgroundStageConsistent` | internal/processor/processor.go:113-119 | an aborted state or an unrequested removal is passed through unchanged; otherwise exactly one removal call on the current image is appended; the stage invariant (hand-off, order, error wraps the failing call) is kept |
| `Processor.ResizeStageConsistent` | internal/processor/processor.go:121-132 | an aborted state, or Width<=0 and Height<=0, is passed through unchanged; otherwise exactly one resize call on the current image with the caller's options is appended, after any background removal; the stage invariant is kept |
| `Processor.OptimizeStageConsistent` | internal/processor/processor.go:134-147 | an aborted state or an unrequested optimisation is passed through unchanged; otherwise an optimise call with the tier of opts.Quality is appended, followed by a decode of exactly the optimised bytes iff optimise succeeded; either failure is terminal and the invariant is kept |
| `Processor.PipelineConsistent` | internal/processor/processor.go:103-154 | the whole pipeline keeps the stage invariant; only requested stages are called, and a run that ends running called all of them |
| `PipelineProperties.StagesRunInOrder` | internal/processor/processor.go:113-147 | calls occur in the order background removal, resize, optimise, decode, each at most once; the first gets the input image and each later one gets its predecessor's output |
| `PipelineProperties.UnsupportedFormatRejectedFirst` | internal/processor/processor.go:108-110 | the resolved format is invalid iff no collaborator is called and the result is UnsupportedFormat(format); a valid format never yields that error |
| `PipelineProperties.EmptyFormatUsesDefault` | internal/processor/processor.go:105-107 | with NewImageProcessor an empty format resolves to "jpeg", is never rejected, and a success carries "jpeg" |
| `PipelineProperties.ErrorsAreTerminal` | internal/processor/processor.go:115-146 | a failing call is the last call made and the result is then an error with no image, wrapping that call's cause; a success had every call succeed |
| `PipelineProperties.SuccessfulResult` | internal/processor/processor.go:149-153 | a success carries the last stage's output (the input image if no stage ran), the resolved valid format and opts.Quality unchanged; with a valid format and no stage requested the result is the input image |
| `PipelineProperties.OnlyRequestedStagesRun` | internal/processor/processor.go:114-135 | no stage runs unless its option asks for it, whatever the outcome |
| `PipelineProperties.RequestedStagesRunUntilFailure` | internal/processor/processor.go:113-147 | with a supported format every requested stage is called, unless the last call failed and the stage comes after it |
| `PipelineProperties.CollaboratorArguments` | internal/processor/processor.go:123-139 | resize receives the caller's width, height and mode with the Lanczos filter; optimise receives the resolved format and the tier of opts.Quality |
| `PipelineProperties.BackgroundOutputFeedsResize` | internal/processor/processor.go:114-128 | when both are requested and background removal succeeds, resize receives exactly the background-removed image |
| `PipelineProperties.ResizeFailureSkipsOptimize` | internal/processor/processor.go:129-135 | if resize fails, neither optimise nor the re-decode is called and the result is a ResizeFailed error |
| `PipelineProperties.DefaultQualityUnused` | internal/processor/processor.go:85-88 | processors differing only in DefaultQuality give the same result and the same calls |
| `Writer.EncoderForEachFormat` | internal/processor/processor.go:163-185 | for every 64-bit quality: jpeg/jpg give JPEG with the quality, png PNG with level (q*9)/100, webp WebP lossless iff q=100 with the quality, gif GIF with (q*256)/100 colours, bmp BMP, heic/heif HEIC with the quality, pdf PDF with the quality |
| `Writer.EncoderFor` | internal/processor/processor.go:163-188 | a format reaches an encoder iff the registry accepts it, the encoder is the one whose case lists the name, and every other name takes the default branch with "unsupported format for writing" |
| `Writer.Write` | internal/processor/processor.go:162-189 | an unsupported name fails with UnsupportedFormatForWriting; a supported one returns the answer of an encoder serving that name, its bytes or its error |
| `Writer.PngLevelInRange` | internal/processor/processor.go:167-169 | for 0<=q<=100 the PNG level is floor(9q/100) and lies in 0..9 |
| `Writer.GifColorsInRange` | internal/processor/processor.go:177-179 | for 0<=q<=100 the GIF colour count is floor(256q/100), lies in 0..256, is 0 iff q=0 and is 256 iff q=100 |
| `Writer.ParametersMonotone` | internal/processor/processor.go:166-179 | over 0..100 the PNG level and the GIF colour count never decrease as quality grows |
| `Writer.PngLevelOfNegativeQuality` | internal/processor/processor.go:168 | quality is not clamped: for -100..100 the level of -q is minus the level of q (truncating division), so negative qualities give levels in -9..0 |
| `Writer.WebpLosslessOnlyAtFullQuality` | internal/processor/processor.go:172-175 | WebP is lossless exactly when quality is 100, and the raw quality is passed through |
| `Writer.EncoderParametersInRange` | internal/processor/processor.go:163-185 | for a supported format and 0<=q<=100: JPEG, HEIC and PDF get q itself, PNG the level floor(9q/100) in 0..9, WebP lossless iff q=100 with q, GIF floor(256q/100) colours in 0..256 with 0 iff q=0 |
| `Writer.ProcessedImagesAreWritable` | internal/processor/processor.go:186-187 | every successful pipeline result reaches a non-default case of the switch, so whatever the encoders do, Write never reports an unsupported format for it |

## Left out

- `DecodeHeic` and the `init` registration of HEIC/HEIF magic numbers (processor.go:29-72): temporary-file I/O, an external libheif conversion, and Go `image` package registration. The decoder is one opaque collaborator (`Collaborators.decode`).
- `encodeHEIC` (processor.go:219-256): temporary files and the external PNG-to-HEIC conversion. Only the dispatch to it is modelled (`HeicEncoder`). The quality it is given is carried along; the source does not use it.
- `convertToPDF` (processor.go:258-296): float64 page geometry on A4 with 10 mm margins, and the gofpdf API. Only the dispatch to it is modelled (`PdfEncoder` with the raw quality).
- The JPEG/PNG/WebP/GIF/BMP encoders and decoders, and the internals of background removal, resize, `optimize.GetOptionsForQuality` and `optimize.Optimize`. These are foreign libraries. They are modelled as arbitrary success-or-error functions, so what an encoder does with a GIF colour count of 0 or a PNG level is not part of this model.
- WebP's `float32(pi.Quality)` conversion: the model passes the integer quality. Floating point is not modelled.
- Error messages: the `fmt.Errorf` strings become error constructors that name the failing step and keep the collaborator's cause. `image.Decode`'s format-name result, which the source discards, is not modelled.
- Writes to the `io.Writer` become a returned byte sequence. Partial writes on an encoder error are not modelled.
- `pkg/response/json.go` (HTTP status and JSON envelope) and `internal/handlers/handlers.go` (HTML template rendering) are not part of this model.
- `Writer.Write`: its contract says that an encoder serving the requested name produced the answer. It does not itself name the encoder's parameters. `Writer.EncoderForEachFormat` states which encoder and parameters each name selects, and `Writer.EncoderParametersInRange` states their values for qualities 0..100.
