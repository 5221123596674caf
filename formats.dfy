/**
 * The format registry: the closed set of output-format names the processor accepts
 * (`isValidFormat` in internal/processor/processor.go).
 */
module Formats {

  /** The lookup table the source builds; a missing key reads as `false`, as in Go. */
  const ValidFormats: map<string, bool> := map[
    "jpeg" := true, "jpg" := true, "png" := true, "webp" := true, "gif" := true,
    "bmp" := true, "heic" := true, "heif" := true, "pdf" := true]

  /** Exactly the nine names below are accepted; matching is by exact string equality. */
  function IsValidFormat(format: string): (ok: bool)
    ensures ok <==> format == "jpeg" || format == "jpg" || format == "png" || format == "webp"
                    || format == "gif" || format == "bmp" || format == "heic" || format == "heif"
                    || format == "pdf"
  {
    format in ValidFormats && ValidFormats[format]
  }

  predicate IsLowerAscii(c: char) { 'a' <= c <= 'z' }

  /** Every accepted name is three or four lower-case ASCII letters. */
  lemma ValidFormatsAreLowerCase(format: string)
    requires IsValidFormat(format)
    ensures 3 <= |format| <= 4
    ensures forall i :: 0 <= i < |format| ==> IsLowerAscii(format[i])
  {
  }

  /** Matching is case-sensitive: a name holding any upper-case letter is rejected. */
  lemma UpperCaseRejected(format: string, i: int)
    requires 0 <= i < |format| && 'A' <= format[i] <= 'Z'
    ensures !IsValidFormat(format)
  {
    if IsValidFormat(format) {
      ValidFormatsAreLowerCase(format);
    }
  }

  /** Names the registry rejects although they look like formats. */
  lemma RejectedExamples()
    ensures !IsValidFormat("JPEG") && !IsValidFormat("Png") && !IsValidFormat("tiff")
    ensures !IsValidFormat("") && !IsValidFormat("jpeg ") && !IsValidFormat(".png")
  {
    UpperCaseRejected("JPEG", 0);
    UpperCaseRejected("Png", 0);
  }
}
