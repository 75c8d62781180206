/**
 * Client walks through the components, proved from their contracts alone:
 * what a caller of each handler can rely on across several steps.
 */
module Scenarios {

  import opened Wrappers
  import opened Media
  import TicketCode
  import Redemption
  import FrameScanner
  import IntervalScanner
  import PhotoScanner

  /**
   * Frame loop: the camera is granted, three frames decode nothing and the
   * fourth yields a payload. The payload is recorded, the stream's tracks are
   * stopped once, and no further frame is pending. Unmounting afterwards
   * stops the same tracks a second time, since the reference is kept.
   */
  method FrameLoopDecodesOnFourthTick(payload: string)
  {
    var sc := new FrameScanner.Scanner();
    sc.ProbeCamera(Granted);
    assert sc.hasCamera && sc.stopped == [0];
    sc.Start(Granted, true, "");
    assert sc.scanning && sc.stream == Some(1) && sc.pendingFrames == 1;
    var f := Frame(640, 480);
    var called, again := sc.Tick(true, f, None);
    assert called && again && sc.scanning;
    called, again := sc.Tick(true, f, None);
    called, again := sc.Tick(true, f, None);
    assert sc.scanning && sc.stopped == [0] && sc.pendingFrames == 1;
    called, again := sc.Tick(true, f, Some(payload));
    assert called && !again && !sc.scanning && sc.qrCode == payload;
    assert sc.stopped == [0, 1] && sc.pendingFrames == 0 && sc.Leaked() == {};
    sc.Unmount();
    assert sc.stopped == [0, 1, 1];
  }

  /** A refused camera never starts a scan, requests no frame and holds no stream. */
  method FrameLoopRefused(message: string)
  {
    var sc := new FrameScanner.Scanner();
    sc.Start(Denied(message), true, "");
    assert !sc.scanning && sc.pendingFrames == 0 && sc.stream == None;
    assert sc.error == Some(CameraStartPrefix + message);
  }

  /** A manual capture that decodes nothing reports it and leaves the scan running; a second one succeeds. */
  method CaptureRetries(payload: string)
  {
    var sc := new FrameScanner.Scanner();
    sc.ProbeCamera(Granted);
    sc.Start(Granted, true, "");
    var called := sc.Capture(true, Frame(640, 480), None);
    assert called && sc.scanning && sc.error == Some(NotFoundError);
    called := sc.Capture(true, Frame(640, 480), Some(payload));
    assert !sc.scanning && sc.qrCode == payload && sc.stopped == [0, 1];
  }

  /** Interval loop: mount, a miss, a hit; the interval is cleared and the camera stopped. */
  method IntervalLoopDecodes(payload: string)
  {
    var sc := new IntervalScanner.Scanner();
    sc.Start(Granted, true, "");
    assert sc.Ticking() && sc.periods == [IntervalScanner.ScanPeriodMs];
    var called := sc.Tick(true, Frame(640, 480), None);
    assert called && sc.Ticking() && sc.qrCode == "";
    called := sc.Tick(true, Frame(640, 480), Some(payload));
    assert !sc.Ticking() && sc.qrCode == payload && sc.cleared == [0] && sc.stopped == [0];
  }

  /** Photo page: an unreadable photo keeps the camera up; a readable one records the code. */
  method PhotoRetries(payload: string)
  {
    var sc := new PhotoScanner.Scanner();
    sc.ProbeCamera(Granted);
    assert StartClickable(sc.hasCamera, sc.scanning);
    sc.Start();
    assert sc.CameraViewShown();
    sc.TakePhoto(None);
    assert sc.CameraViewShown() && sc.error == Some(NotFoundError);
    sc.TakePhoto(Some(payload));
    assert !sc.CameraViewShown() && sc.qrCode == payload && sc.error == None;
  }

  /** Redemption lookup: a starred code is sent dashed, and the used ids come from the answer. */
  method LookupStarredCode()
  {
    var meal := Redemption.Item("7", "AB-12", "Meal", false);
    var photo := Redemption.Item("8", "AB-12", "Photo", true);
    Redemption.UsedIdsAppend([meal], [photo]);
    Redemption.UsedIdsSingle(meal);
    Redemption.UsedIdsSingle(photo);
    assert [meal] + [photo] == [meal, photo];
    assert !TicketCode.Blank(" AB*12 ") by {
      assert !TicketCode.IsWhitespace(" AB*12 "[1]);
    }
    var k := new Redemption.Kiosk();
    k.Edit(" AB*12 ");
    var answer := Redemption.Reply(Redemption.Body(true, "", Some([meal, photo])));
    var request := k.Submit(answer, false);
    assert request.Some? && k.items == [meal, photo] && k.usedItems == ["8"];
    assert k.apiResponse == Some(answer.body) && k.ListShown();
  }

  /** Failed requests: the service's missing message falls back, and a thrown request is prefixed. */
  method FailedRequests()
  {
    var k := new Redemption.Kiosk();
    k.Edit("AB");
    assert !TicketCode.Blank("AB") by {
      assert !TicketCode.IsWhitespace("AB"[0]);
    }
    var request := k.Submit(Redemption.Reply(Redemption.Body(false, "", None)), false);
    assert request.Some? && k.error == Some(Redemption.NoDataError) && !k.ListShown();
    k.UseItem("7", Redemption.Thrown("x"));
    assert k.error == Some(Redemption.ApiErrorPrefix + "x") && k.usedItems == [];
  }

  /**
   * Redemption use: the item shows "processing" while its request is in
   * flight, is used afterwards, and clearing the page keeps the used ids.
   */
  method UseOneItem()
  {
    var k := new Redemption.Kiosk();
    assert Redemption.Status(k.usedItems, k.processingItems, "7").Available?;
    var entry := k.BeginUse("7");
    assert Redemption.Status(k.usedItems, k.processingItems, "7").Processing?;
    k.CompleteUse(entry, Redemption.Reply(Redemption.Body(true, "", None)));
    assert k.usedItems == ["7"] && k.processingItems == [];
    assert Redemption.Caption(Redemption.Status(k.usedItems, k.processingItems, "7")) == "Kullanıldı";
    k.Clear();
    assert k.items == [] && k.usedItems == ["7"];
  }

  /** A blank input is refused without a request and without touching the code. */
  method BlankInputRefused(answer: Redemption.Outcome)
  {
    var k := new Redemption.Kiosk();
    k.Edit(" \t ");
    var request := k.Submit(answer, true);
    assert request == None && k.error == Some(Redemption.EmptyInputError);
    assert k.qrCode == "" && !k.loading && k.inputText == " \t ";
  }
}
