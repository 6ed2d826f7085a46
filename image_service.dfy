/** The image size check of the image service (src/services/imageService.ts). Sizes are
    whole bytes; an absent size and the size 0 are both falsy and accepted. */
module ImageService {
  import opened Base

  const BytesPerMB: int := 1024 * 1024

  /** `validateImageSize(fileSize, maxSizeMB = 5)`. */
  function ValidateImageSize(fileSize: Option<int>, maxSizeMB: int := 5): (ok: bool)
    ensures !ok <==> fileSize.Some? && fileSize.value != 0 && fileSize.value > maxSizeMB * 1048576
  {
    if fileSize.None? || fileSize.value == 0 then true
    else fileSize.value <= maxSizeMB * BytesPerMB
  }

  /** A missing or zero size is accepted whatever the limit. */
  lemma UnknownSizeAccepted(maxSizeMB: int)
    ensures ValidateImageSize(None, maxSizeMB)
    ensures ValidateImageSize(Some(0), maxSizeMB)
  {
  }

  /** With the default limit, a known non-zero size is accepted iff it is at most
      5242880 bytes. */
  lemma DefaultLimit(size: int)
    requires size != 0
    ensures ValidateImageSize(Some(size)) <==> size <= 5242880
  {
  }

  /** Acceptance is monotone: a smaller non-zero size and a larger limit keep an image
      accepted. */
  lemma Monotone(size: int, smaller: int, maxSizeMB: int, larger: int)
    requires ValidateImageSize(Some(size), maxSizeMB)
    requires smaller != 0 && smaller <= size && size != 0 && maxSizeMB <= larger
    ensures ValidateImageSize(Some(smaller), maxSizeMB)
    ensures ValidateImageSize(Some(size), larger)
  {
  }
}
