/**
 * The dashboard scanner driven by animation frames, with a manual capture
 * button (app/dashboard/worked.js). The camera request, the video element, the
 * frame size and the decoder's answer are parameters; each animation-frame
 * callback is an explicit call of Tick, allowed only while one is pending.
 *
 * `stream` is `streamRef.current`. The source never clears it, so a stopped
 * stream stays referenced and a later stop or unmount stops its tracks again;
 * `stopped` logs every such stop, in order.
 */
module FrameScanner {

  import opened Wrappers
  import opened Media

  class Scanner {
    var scanning: bool
    var hasCamera: bool
    var qrCode: string
    var error: Option<string>
    var stream: Option<StreamId>
    var acquired: nat
    var stopped: seq<StreamId>
    var pendingFrames: nat
    var mounted: bool

    /**
     * Stream ids are those acquired so far, and while the mounted component is
     * scanning it holds a stream whose tracks have not been stopped.
     */
    ghost predicate Valid()
      reads this
    {
      && (stream.Some? ==> stream.value < acquired)
      && (forall k :: 0 <= k < |stopped| ==> stopped[k] < acquired)
      && (mounted && scanning ==> stream.Some? && stream.value !in stopped)
    }

    /** Streams acquired, no longer referenced and never stopped: open cameras nobody can close. */
    ghost function Leaked(): set<StreamId>
      reads this
    {
      set id | 0 <= id < acquired && stream != Some(id) && id !in stopped
    }

    /** The component as first rendered. */
    constructor ()
      ensures Valid() && Leaked() == {}
      ensures !scanning && !hasCamera && qrCode == "" && error == None
      ensures stream == None && acquired == 0 && stopped == [] && pendingFrames == 0 && mounted
    {
      scanning, hasCamera, qrCode, error := false, false, "", None;
      stream, acquired, stopped, pendingFrames, mounted := None, 0, [], 0, true;
    }

    /**
     * checkCamera, run by the mount effect: a granted probe stream is stopped
     * at once and the camera is reported available; a refusal reports it
     * unavailable with the access error.
     */
    method ProbeCamera(acq: Acquisition)
      requires Valid()
      modifies this
      ensures Valid() && Leaked() == old(Leaked())
      ensures acq.Granted? ==>
                && hasCamera && acquired == old(acquired) + 1
                && stopped == old(stopped) + [old(acquired)] && error == old(error)
      ensures acq.Denied? ==>
                && !hasCamera && error == Some(CameraAccessError)
                && acquired == old(acquired) && stopped == old(stopped)
      ensures scanning == old(scanning) && qrCode == old(qrCode) && stream == old(stream)
      ensures pendingFrames == old(pendingFrames) && mounted == old(mounted)
    {
      match acq {
        case Granted =>
          var probe := acquired;
          acquired := acquired + 1;
          stopped := stopped + [probe];
          hasCamera := true;
        case Denied(_) =>
          error := Some(CameraAccessError);
          hasCamera := false;
      }
    }

    /**
     * startScanning: clears the error and the code and sets `scanning`. A
     * granted stream is referenced at once; if there is a video element to play
     * it on, the first animation frame is requested, otherwise (a null
     * `videoRef`, message `fault`) that fails like a refusal. A refusal or
     * failure ends with `scanning` false and the start error. A stream that
     * was still open when a new one replaces it becomes leaked.
     */
    method Start(acq: Acquisition, hasVideo: bool, fault: string)
      requires Valid()
      modifies this
      ensures Valid()
      ensures qrCode == ""
      ensures scanning <==> acq.Granted? && hasVideo
      ensures scanning ==> error == None && pendingFrames == old(pendingFrames) + 1
      ensures !scanning ==> pendingFrames == old(pendingFrames)
      ensures acq.Denied? ==>
                && error == Some(CameraStartPrefix + acq.message)
                && stream == old(stream) && acquired == old(acquired) && Leaked() == old(Leaked())
      ensures acq.Granted? ==>
                && stream == Some(old(acquired)) && acquired == old(acquired) + 1
                && (!hasVideo ==> error == Some(CameraStartPrefix + fault))
                && Leaked() == old(Leaked()) +
                     (if old(stream).Some? && old(stream).value !in old(stopped)
                      then {old(stream).value} else {})
      ensures hasCamera == old(hasCamera) && stopped == old(stopped) && mounted == old(mounted)
    {
      error := None;
      qrCode := "";
      scanning := true;
      match acq {
        case Granted =>
          stream := Some(acquired);
          acquired := acquired + 1;
          if hasVideo {
            pendingFrames := pendingFrames + 1;
          } else {
            error := Some(CameraStartPrefix + fault);
            scanning := false;
          }
        case Denied(m) =>
          error := Some(CameraStartPrefix + m);
          scanning := false;
      }
    }

    /** stopScanning: the referenced stream's tracks are stopped, if there is one; scanning ends. */
    method Stop()
      requires Valid()
      modifies this
      ensures Valid() && Leaked() == old(Leaked())
      ensures !scanning
      ensures stopped == old(stopped) + (if stream.Some? then [stream.value] else [])
      ensures stream == old(stream) && hasCamera == old(hasCamera) && qrCode == old(qrCode)
      ensures error == old(error) && acquired == old(acquired)
      ensures pendingFrames == old(pendingFrames) && mounted == old(mounted)
    {
      if stream.Some? {
        stopped := stopped + [stream.value];
      }
      scanning := false;
    }

    /**
     * scanQRCode, one animation-frame callback. Without a video element or
     * while not scanning it does nothing and does not re-request a frame. A
     * video of width 0 is not decoded and a frame is requested again. Otherwise
     * the decoder is called once: a payload is recorded and scanning stops with
     * no further frame; a miss requests the next frame. (A frame of height 0
     * makes the canvas read throw, which ends the loop.)
     */
    method Tick(hasVideo: bool, frame: Frame, decoded: Option<string>)
      returns (decoderCalled: bool, rescheduled: bool)
      requires Valid() && pendingFrames > 0
      modifies this
      ensures Valid() && Leaked() == old(Leaked())
      ensures pendingFrames == old(pendingFrames) - 1 + (if rescheduled then 1 else 0)
      ensures !(hasVideo && old(scanning)) ==> !decoderCalled && !rescheduled
      ensures decoderCalled <==> hasVideo && old(scanning) && Readable(frame)
      ensures rescheduled <==>
                hasVideo && old(scanning) && (frame.width == 0 || (Readable(frame) && decoded.None?))
      ensures decoderCalled && decoded.Some? ==>
                && qrCode == decoded.value && !scanning
                && stopped == old(stopped) + (if stream.Some? then [stream.value] else [])
                && (old(mounted) ==> stream.Some? && stream.value !in old(stopped))
      ensures !(decoderCalled && decoded.Some?) ==>
                scanning == old(scanning) && qrCode == old(qrCode) && stopped == old(stopped)
      ensures stream == old(stream) && hasCamera == old(hasCamera) && error == old(error)
      ensures acquired == old(acquired) && mounted == old(mounted)
    {
      pendingFrames := pendingFrames - 1;
      decoderCalled, rescheduled := false, false;
      if !hasVideo || !scanning {
        return;
      }
      if frame.width == 0 {
        pendingFrames := pendingFrames + 1;
        rescheduled := true;
        return;
      }
      if !Readable(frame) {
        return;
      }
      decoderCalled := true;
      match decoded {
        case Some(payload) =>
          qrCode := payload;
          Stop();
        case None =>
          if scanning {
            pendingFrames := pendingFrames + 1;
            rescheduled := true;
          }
      }
    }

    /**
     * capturePhoto, the manual button. Without a video element or while not
     * scanning it does nothing; a frame the canvas cannot read throws before
     * the decoder. A payload is recorded and scanning stops; a miss sets the
     * "not found" error and scanning goes on.
     */
    method Capture(hasVideo: bool, frame: Frame, decoded: Option<string>) returns (decoderCalled: bool)
      requires Valid()
      modifies this
      ensures Valid() && Leaked() == old(Leaked())
      ensures decoderCalled <==> hasVideo && old(scanning) && Readable(frame)
      ensures decoderCalled && decoded.Some? ==>
                && qrCode == decoded.value && !scanning && error == old(error)
                && stopped == old(stopped) + (if stream.Some? then [stream.value] else [])
                && (old(mounted) ==> stream.Some? && stream.value !in old(stopped))
      ensures decoderCalled && decoded.None? ==>
                && error == Some(NotFoundError) && scanning && qrCode == old(qrCode)
                && stopped == old(stopped)
      ensures !decoderCalled ==>
                && scanning == old(scanning) && qrCode == old(qrCode) && error == old(error)
                && stopped == old(stopped)
      ensures stream == old(stream) && hasCamera == old(hasCamera) && acquired == old(acquired)
      ensures pendingFrames == old(pendingFrames) && mounted == old(mounted)
    {
      decoderCalled := false;
      if !hasVideo || !scanning || !Readable(frame) {
        return;
      }
      decoderCalled := true;
      match decoded {
        case Some(payload) =>
          qrCode := payload;
          Stop();
        case None =>
          error := Some(NotFoundError);
      }
    }

    /** The mount effect's cleanup: the referenced stream's tracks are stopped, if there is one. */
    method Unmount()
      requires Valid()
      modifies this
      ensures Valid() && Leaked() == old(Leaked()) && !mounted
      ensures stopped == old(stopped) + (if stream.Some? then [stream.value] else [])
      ensures stream.Some? ==> stream.value in stopped
      ensures scanning == old(scanning) && stream == old(stream) && hasCamera == old(hasCamera)
      ensures qrCode == old(qrCode) && error == old(error) && acquired == old(acquired)
      ensures pendingFrames == old(pendingFrames)
    {
      if stream.Some? {
        stopped := stopped + [stream.value];
      }
      mounted := false;
    }
  }
}
