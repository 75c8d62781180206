/**
 * The minimal scanner driven by a 500 ms interval
 * (app/dashboard/automaticlyscan.js). It starts on mount and stops on unmount.
 * Each interval callback is an explicit call of Tick, allowed only while the
 * interval is registered and not cleared.
 *
 * `interval` is `intervalRef.current` and `attached` the video element's
 * `srcObject`; the source never resets either, so a second stop clears the
 * same interval and stops the same tracks again. `cleared` and `stopped` log
 * every `clearInterval` and every stop of a stream's tracks.
 */
module IntervalScanner {

  import opened Wrappers
  import opened Media

  type IntervalId = nat

  /** The period the source registers its interval with. */
  const ScanPeriodMs := 500

  class Scanner {
    var error: string
    var qrCode: string
    var interval: Option<IntervalId>
    var registered: nat
    var cleared: seq<IntervalId>
    var periods: seq<nat>
    var attached: Option<StreamId>
    var acquired: nat
    var stopped: seq<StreamId>

    /** The interval is live: registered and not yet cleared. */
    predicate Ticking()
      reads this
    {
      interval.Some? && interval.value !in cleared
    }

    /**
     * Ids are those handed out so far, every interval was registered with the
     * source's period, and while the interval is live the stream it samples is
     * attached and open.
     */
    ghost predicate Valid()
      reads this
    {
      && |periods| == registered
      && (forall k :: 0 <= k < |periods| ==> periods[k] == ScanPeriodMs)
      && (interval.Some? ==> interval.value < registered)
      && (forall k :: 0 <= k < |cleared| ==> cleared[k] < registered)
      && (attached.Some? ==> attached.value < acquired)
      && (forall k :: 0 <= k < |stopped| ==> stopped[k] < acquired)
      && (Ticking() ==> attached.Some? && attached.value !in stopped)
    }

    /** The component as first rendered, before its mount effect. */
    constructor ()
      ensures Valid() && !Ticking()
      ensures error == "" && qrCode == "" && interval == None && registered == 0 && cleared == []
      ensures periods == [] && attached == None && acquired == 0 && stopped == []
    {
      error, qrCode := "", "";
      interval, registered, cleared, periods := None, 0, [], [];
      attached, acquired, stopped := None, 0, [];
    }

    /**
     * startScanning, run by the mount effect. A granted stream played on the
     * video element is attached and a 500 ms interval registered. A refusal,
     * or a null `videoRef` (message `fault`, the granted stream then being
     * attached to nothing), sets the start error and registers no interval.
     */
    method Start(acq: Acquisition, hasVideo: bool, fault: string)
      requires Valid()
      modifies this
      ensures Valid()
      ensures Ticking() <==> (acq.Granted? && hasVideo) || old(Ticking())
      ensures acq.Granted? && hasVideo ==>
                && attached == Some(old(acquired)) && acquired == old(acquired) + 1
                && interval == Some(old(registered)) && registered == old(registered) + 1
                && periods == old(periods) + [ScanPeriodMs] && error == old(error)
      ensures acq.Granted? && !hasVideo ==>
                && error == CameraStartPrefix + fault && acquired == old(acquired) + 1
                && attached == old(attached) && interval == old(interval) && registered == old(registered)
      ensures acq.Denied? ==>
                && error == CameraStartPrefix + acq.message && acquired == old(acquired)
                && attached == old(attached) && interval == old(interval) && registered == old(registered)
      ensures !(acq.Granted? && hasVideo) ==> periods == old(periods)
      ensures qrCode == old(qrCode) && cleared == old(cleared) && stopped == old(stopped)
    {
      match acq {
        case Granted =>
          var s := acquired;
          acquired := acquired + 1;
          if hasVideo {
            attached := Some(s);
            interval := Some(registered);
            registered := registered + 1;
            periods := periods + [ScanPeriodMs];
          } else {
            error := CameraStartPrefix + fault;
          }
        case Denied(m) =>
          error := CameraStartPrefix + m;
      }
    }

    /**
     * stopScanning: the registered interval is cleared if there is one, and
     * the attached stream's tracks are stopped if the video element and a
     * stream are there. With neither, nothing changes.
     */
    method Stop(hasVideo: bool)
      requires Valid()
      modifies this
      ensures Valid()
      ensures cleared == old(cleared) + (if interval.Some? then [interval.value] else [])
      ensures stopped == old(stopped) + (if hasVideo && attached.Some? then [attached.value] else [])
      ensures interval.Some? ==> !Ticking()
      ensures interval == old(interval) && attached == old(attached) && registered == old(registered)
      ensures periods == old(periods) && acquired == old(acquired)
      ensures error == old(error) && qrCode == old(qrCode)
    {
      if interval.Some? {
        cleared := cleared + [interval.value];
      }
      if hasVideo && attached.Some? {
        stopped := stopped + [attached.value];
      }
    }

    /**
     * scanFrame, one interval callback. Without a video element nothing
     * happens. A frame the canvas cannot read throws before the decoder. The
     * decoder is called once otherwise: a payload is recorded and scanning
     * stops, clearing the interval and stopping the camera; a miss changes
     * nothing.
     */
    method Tick(hasVideo: bool, frame: Frame, decoded: Option<string>) returns (decoderCalled: bool)
      requires Valid() && Ticking()
      modifies this
      ensures Valid()
      ensures interval == old(interval) && attached == old(attached) && registered == old(registered)
      ensures decoderCalled <==> hasVideo && Readable(frame)
      ensures decoderCalled && decoded.Some? ==>
                && qrCode == decoded.value && !Ticking()
                && cleared == old(cleared) + [interval.value]
                && stopped == old(stopped) + [attached.value]
      ensures !(decoderCalled && decoded.Some?) ==>
                qrCode == old(qrCode) && cleared == old(cleared) && stopped == old(stopped)
      ensures periods == old(periods) && acquired == old(acquired) && error == old(error)
    {
      decoderCalled := false;
      if !hasVideo || !Readable(frame) {
        return;
      }
      decoderCalled := true;
      if decoded.Some? {
        qrCode := decoded.value;
        Stop(true);
      }
    }

    /** The mount effect's cleanup runs stopScanning. */
    method Unmount(hasVideo: bool)
      requires Valid()
      modifies this
      ensures Valid() && !Ticking()
      ensures cleared == old(cleared) + (if interval.Some? then [interval.value] else [])
      ensures stopped == old(stopped) + (if hasVideo && attached.Some? then [attached.value] else [])
      ensures interval == old(interval) && attached == old(attached) && registered == old(registered)
      ensures periods == old(periods) && acquired == old(acquired)
      ensures error == old(error) && qrCode == old(qrCode)
    {
      Stop(hasVideo);
    }
  }
}
