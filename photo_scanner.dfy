/**
 * The dashboard scanner that decodes one photo at a time
 * (app/dashboard/page.js). The photo comes from a third-party camera
 * component that is rendered only while the camera view is shown; loading it
 * into a canvas and decoding it are left to the decoder's answer, a parameter.
 */
module PhotoScanner {

  import opened Wrappers
  import opened Media

  class Scanner {
    var scanning: bool
    var hasCamera: bool
    var qrCode: string
    var error: Option<string>
    var acquired: nat
    var stopped: seq<StreamId>

    /** Every probe stream the page acquired has been stopped, and only those. */
    ghost predicate Valid()
      reads this
    {
      && (forall k :: 0 <= k < |stopped| ==> stopped[k] < acquired)
      && (forall id :: 0 <= id < acquired ==> id in stopped)
    }

    /** The page as first rendered. */
    constructor ()
      ensures Valid()
      ensures !scanning && !hasCamera && qrCode == "" && error == None
      ensures acquired == 0 && stopped == []
    {
      scanning, hasCamera, qrCode, error := false, false, "", None;
      acquired, stopped := 0, [];
    }

    /**
     * checkCamera, run by the mount effect: a granted probe stream is stopped
     * at once and the camera reported available; a refusal reports it
     * unavailable with the access error.
     */
    method ProbeCamera(acq: Acquisition)
      requires Valid()
      modifies this
      ensures Valid()
      ensures hasCamera <==> acq.Granted?
      ensures acq.Granted? ==>
                acquired == old(acquired) + 1 && stopped == old(stopped) + [old(acquired)]
                && error == old(error)
      ensures acq.Denied? ==>
                acquired == old(acquired) && stopped == old(stopped) && error == Some(CameraAccessError)
      ensures scanning == old(scanning) && qrCode == old(qrCode)
    {
      match acq {
        case Granted =>
          var probe := acquired;
          acquired := acquired + 1;
          stopped := stopped + [probe];
          hasCamera := true;
        case Denied(_) =>
          error := Some(CameraAccessError);
          hasCamera := false;
      }
    }

    /** startScanning: clears the error and the code and shows the camera. */
    method Start()
      requires Valid()
      modifies this
      ensures Valid()
      ensures scanning && error == None && qrCode == ""
      ensures CameraViewShown() <==> hasCamera
      ensures hasCamera == old(hasCamera) && acquired == old(acquired) && stopped == old(stopped)
    {
      error := None;
      qrCode := "";
      scanning := true;
    }

    /**
     * handleTakePhoto, once the photo has loaded: a payload clears the error,
     * is recorded and ends scanning; a miss sets the "not found" error and
     * leaves the code and scanning as they were.
     */
    method TakePhoto(decoded: Option<string>)
      requires Valid()
      modifies this
      ensures Valid()
      ensures decoded.Some? ==> error == None && qrCode == decoded.value && !scanning
      ensures decoded.None? ==>
                error == Some(NotFoundError) && qrCode == old(qrCode) && scanning == old(scanning)
      ensures hasCamera == old(hasCamera) && acquired == old(acquired) && stopped == old(stopped)
    {
      match decoded {
        case Some(payload) =>
          error := None;
          qrCode := payload;
          scanning := false;
        case None =>
          error := Some(NotFoundError);
      }
    }

    /** The camera component is rendered instead of the start button. */
    predicate CameraViewShown()
      reads this
    {
      Media.CameraViewShown(hasCamera, scanning)
    }
  }
}
