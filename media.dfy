/**
 * What the scanner components see of the browser: the outcome of a camera
 * request (`navigator.mediaDevices.getUserMedia`), the size of the video frame
 * copied to a canvas, and the user-facing messages the components share.
 * The QR decoder itself (jsQR) is not modelled: its answer for one frame is a
 * parameter of type Option<string>.
 */
module Media {

  /** Streams are numbered in the order they are acquired. */
  type StreamId = nat

  /** Outcome of one camera request: a new stream, or the rejection's message. */
  datatype Acquisition = Granted | Denied(message: string)

  /** The video's current dimensions, as copied to the canvas. */
  datatype Frame = Frame(width: nat, height: nat)

  /**
   * Whether `getImageData(0, 0, w, h)` on a canvas of the frame's size returns
   * pixels. The HTML canvas standard makes it throw an IndexSizeError when
   * either dimension is zero, so the decoder is never reached for such a frame.
   */
  predicate Readable(f: Frame) {
    f.width > 0 && f.height > 0
  }

  /**
   * The dashboard scanners render the camera view instead of the start button
   * exactly when a camera exists and a scan is running.
   */
  predicate CameraViewShown(hasCamera: bool, scanning: bool) {
    hasCamera && scanning
  }

  /** The start button is disabled when no camera exists. */
  predicate StartDisabled(hasCamera: bool) {
    !hasCamera
  }

  /** The start button is rendered and enabled exactly when a camera exists and no scan is running. */
  function StartClickable(hasCamera: bool, scanning: bool): (r: bool)
    ensures r <==> hasCamera && !scanning
  {
    !CameraViewShown(hasCamera, scanning) && !StartDisabled(hasCamera)
  }

  const CameraAccessError := "Kamera erişimi sağlanamadı"
  const CameraStartPrefix := "Kamera başlatılamadı: "
  const NotFoundError := "QR Kod bulunamadı. Lütfen tekrar deneyin."
}
