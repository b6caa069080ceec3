/** Android graphics values the liveness code passes around without looking inside. */
module Graphics {
  /** `android.graphics.Rect`: a face bounding box in frame pixels. */
  datatype Rect = Rect(left: int, top: int, right: int, bottom: int)
  {
    /** `Rect.width()`. */
    function Width(): int { right - left }
  }

  /**
   * A bitmap is an opaque token: either a camera frame or the crop of another bitmap
   * by a bounding box. Cropping keeps its inputs, so two crops are equal exactly when
   * they come from the same frame and box.
   */
  datatype Bitmap = CameraFrame(frameId: nat) | Cropped(source: Bitmap, box: Rect)

  /** `cropBitmapExample(image, boundaries)`. */
  function CropBitmap(image: Bitmap, boundaries: Rect): Bitmap
  {
    Cropped(image, boundaries)
  }
}
