# Ticket redemption kiosk: redemption bookkeeping and QR scanner sessions

This project models the logic of a browser kiosk that redeems ticket add-ons.
An operator types or scans a ticket code. The page asks a remote ticketing
service for the add-on items of that code and then marks items as used one at
a time. Separate dashboard pages use the camera to scan a QR code.

The model consists of these modules:

- `TicketCode` (ticket_code.dfy): the pure normalisation of the typed code. It
  is JavaScript's `trim()` followed by replacing every `*` with `-`.
- `Redemption` (redemption.dfy): the redemption page's state fields as a class
  `Kiosk`, with one method per handler. It also holds the pure derivations the
  page uses: the used ids of an answer, removal from the processing list, and
  the status, caption and disabled state of an item's button.
- `FrameScanner` (frame_scanner.dfy): the dashboard scanner in
  app/dashboard/worked.js. It runs an animation-frame loop and has a manual
  capture button.
- `IntervalScanner` (interval_scanner.dfy): the minimal scanner in
  app/dashboard/automaticlyscan.js. It runs on a 500 ms interval and starts on
  mount.
- `PhotoScanner` (photo_scanner.dfy): the photo-decoding dashboard page in
  app/dashboard/page.js.
- `Media` and `Wrappers` (media.dfy, wrappers.dfy): shared outcome types and
  messages, and `Option`.

`Scenarios` (scenarios.dfy) holds client methods. Each walks through a flow
and proves its result from the contracts alone. Examples: three missed frames
then a hit, a refused camera, a retried capture, redeeming one item.

## How the browser is modelled

- A camera request (`getUserMedia`) is a parameter of type `Acquisition`:
  `Granted` or `Denied(message)`.
- Streams are numbered in the order they are acquired (`acquired` counts them).
- Each stop of a stream's tracks appends the stream's number to the `stopped`
  log. The log shows how many times each stream was stopped.
- Whether the video element exists is a parameter, `hasVideo`.
- The video's size is a parameter of type `Frame`.
- The decoder's answer for one frame is a parameter of type `Option<string>`.
- Each animation-frame or interval callback is an explicit `Tick` call. A
  frame loop tick is allowed only while a frame is pending (`pendingFrames`).
  An interval tick is allowed only while the interval is live (`Ticking()`).
- For a handler that awaits a request, the service's answer is a parameter of
  type `Outcome`: `Reply(body)` or `Thrown(message)`. Such a handler is split
  at the await into `Begin…` and `Complete…`. This makes the in-flight state
  part of the model: the loading flag, and the item shown as "processing". The
  one-piece method (`Submit`, `UseItem`) runs both halves in sequence.
- `CompleteUse` works on the lists the handler's closure captured at entry, as
  the source does (app/qr-reader/page.js:113, 124).

Behaviour the model keeps from the code:

- A canvas read of a zero-sized region (`getImageData` with width or height 0)
  throws an IndexSizeError under the HTML canvas standard.
  - automaticlyscan.js's `scanFrame` and worked.js's `capturePhoto` have no
    zero-size guard. For such a frame they stop before the decoder and change
    no state (`IntervalScanner.Scanner.Tick`, `FrameScanner.Scanner.Capture`).
  - worked.js's `scanQRCode` guards width 0 and requests the next frame. With
    width above 0 and height 0 it throws, and the loop ends.
- The code never clears `streamRef.current`, the video's `srcObject` or
  `intervalRef.current`.
  - A stop after a stop stops the same tracks again.
  - An unmount after a successful decode stops them again.
  - A second stop clears the interval again.
  - The `stopped` and `cleared` logs record each repeat. A
    `MediaStreamTrack.stop()` on an ended track does nothing in browsers.
- In worked.js's `startScanning`, the stream is stored in `streamRef` before
  the video element is used (app/dashboard/worked.js:50-51). If the element is
  missing, the start fails with the stream still referenced.
  - `Start` states how `Leaked()` grows: a stream that is still open and gets
    replaced by a new one is never stopped.
  - In automaticlyscan.js a stream granted while the element is missing is
    attached to nothing.

Three further facts about the scanners' code:

- Stopping releases nothing for good: every stop, and the unmount cleanup,
  stops the referenced tracks again.
- worked.js's `capturePhoto` ends the scan on a hit
  (app/dashboard/worked.js:109-111).
- There is no separate decode-error kind and no terminal result value. An
  error is a message string, and the result is the `qrCode` field.

## Model

| member | source | states |
|---|---|---|
| `TicketCode.Lead` | app/qr-reader/page.js:41 | the count of leading characters `trim()` removes: all of them are whitespace and the next one is not |
| `TicketCode.Trail` | app/qr-reader/page.js:41 | the count of trailing characters `trim()` removes: all of them are whitespace and the one before them is not |
| `TicketCode.Trim` | app/qr-reader/page.js:41 | `trim()` returns the slice of the input between a blank prefix and a blank suffix, and neither end of the slice is whitespace |
| `TicketCode.TrimEmptyIffBlank` | app/qr-reader/page.js:41-44 | the input is rejected as empty exactly when every character is whitespace |
| `TicketCode.TrimOfTrimmed` | app/qr-reader/page.js:47 | trimming a string whose ends are not whitespace returns it unchanged |
| `TicketCode.TrimIdempotent` | app/qr-reader/page.js:47 | trimming twice is trimming once |
| `TicketCode.ReplaceStars` | app/qr-reader/page.js:47 | the global `*`-to-`-` replacement keeps the length, maps every character through the replacement, leaves no `*`, and leaves a star-free string unchanged |
| `TicketCode.Normalize` | app/qr-reader/page.js:46-47 | the sent code has the trimmed input's length and no `*`; it has `-` where the trimmed input has `*` and agrees with it everywhere else; it is empty exactly when the input is blank |
| `TicketCode.Accept` | app/qr-reader/page.js:41-47 | handleSubmit sends nothing exactly for a blank input, and otherwise sends the normalised code, which is non-empty and has no `*` |
| `TicketCode.ReplaceStarsKeepsTrimmed` | app/qr-reader/page.js:47 | replacing stars never puts whitespace at either end |
| `TicketCode.NormalizeIdempotent` | app/qr-reader/page.js:47 | normalising an already normalised code returns it unchanged |
| `Redemption.OrElse` | app/qr-reader/page.js:78 | JavaScript's `or` on the message is the service's message when it gave one, otherwise the fallback, and is non-empty when either is |
| `Redemption.UsedIds` | app/qr-reader/page.js:73-75 | the used ids of an answer are no more than its items |
| `Redemption.UsedIdsMembership` | app/qr-reader/page.js:73-76 | an id is among the used ids exactly when some item with `isUsed` carries it |
| `Redemption.UsedIdsAppend` | app/qr-reader/page.js:73-75 | the used ids keep list order: those of a concatenation are those of the first part followed by those of the second |
| `Redemption.UsedIdsSingle` | app/qr-reader/page.js:74-75 | one item contributes its orderId exactly when it is used, and nothing else |
| `Redemption.Without` | app/qr-reader/page.js:124 | filtering out an id leaves no occurrence of it and never lengthens the list |
| `Redemption.WithoutMembership` | app/qr-reader/page.js:124 | after filtering, an id is present exactly when it was present before and is not the removed one |
| `Redemption.WithoutAbsent` | app/qr-reader/page.js:124 | filtering out an absent id changes nothing |
| `Redemption.WithoutAppend` | app/qr-reader/page.js:124 | filtering keeps the order of the remaining ids |
| `Redemption.WithoutAppended` | app/qr-reader/page.js:95-124 | filtering the list captured before the id was appended gives the same list as filtering the appended list |
| `Redemption.Status` | app/qr-reader/page.js:218-222 | "used" when the id is used, "processing" when it is processing and not used, "available" when in neither list |
| `Redemption.Caption` | app/qr-reader/page.js:218-222 | the captions "Kullanıldı", "İşleniyor..." and "Kullan" correspond one-to-one to the three statuses |
| `Redemption.Disabled` | app/qr-reader/page.js:213-216 | the button is disabled exactly when the item's status is not "available" |
| `Redemption.Kiosk.constructor` | app/qr-reader/page.js:15-22 | the initial state: empty strings, no error, no answer, empty lists, not loading |
| `Redemption.Kiosk.Edit` | app/qr-reader/page.js:170 | typing sets the input text and nothing else |
| `Redemption.Kiosk.BeginSubmit` | app/qr-reader/page.js:39-51 | the request is `Accept` of the input; a blank input sets the empty-input error, makes no request, and leaves the code and loading alone; otherwise the normalised code is recorded and sent, the error cleared and loading set |
| `Redemption.Kiosk.CompleteSubmit` | app/qr-reader/page.js:53-89 | a successful answer with data sets the items to exactly that list and the used ids to `UsedIds` of it; any other answer sets the error to its message or "Veri alınamadı"; a thrown request sets "API hatası: …"; in both failure cases items and used ids are unchanged; loading is false after every outcome; the input is cleared only when asked |
| `Redemption.Kiosk.Submit` | app/qr-reader/page.js:39-90 | the whole handler: no request exactly for a blank input, which sets the empty-input error and changes nothing else; otherwise the normalised code is recorded, any answer is stored as `apiResponse`, a successful answer with data sets the items and their used ids and leaves no error, any other answer sets its message or "Veri alınamadı", a thrown request sets "API hatası: …", loading ends false, and after a successful answer the item list is shown exactly when it is non-empty |
| `Redemption.Kiosk.BeginUse` | app/qr-reader/page.js:92-95 | the id is appended to the processing list; the handler keeps the lists it started with |
| `Redemption.Kiosk.CompleteUse` | app/qr-reader/page.js:98-125 | on success the id is appended to the captured used list; on failure the used list is unchanged and the error set; either way processing becomes the captured list with every occurrence of the id removed |
| `Redemption.Kiosk.UseItem` | app/qr-reader/page.js:92-126 | the whole handler: used ids grow by the id only on success, and the button then shows "used"; a failed answer sets its message or "İşlem başarısız oldu", a thrown request sets "API hatası: …", and the used ids are unchanged; processing ends as the pre-call list without the id |
| `Redemption.Kiosk.Clear` | app/qr-reader/page.js:128-134 | input, code, error, answer and items are reset, so the item list is hidden; used ids, processing ids and loading are unchanged |
| `Redemption.Kiosk.ListShown` | app/qr-reader/page.js:191 | the item list is rendered only for a recorded code with at least one item; `Submit` and `Clear` state when it is shown |
| `FrameScanner.Scanner.constructor` | app/dashboard/worked.js:11-16 | the initial state: not scanning, no camera, no code, no error, no stream, no pending frame |
| `FrameScanner.Scanner.ProbeCamera` | app/dashboard/worked.js:27-38 | a granted probe stream is stopped at once and the camera reported available; a refusal reports it unavailable with "Kamera erişimi sağlanamadı" |
| `FrameScanner.Scanner.Start` | app/dashboard/worked.js:40-59 | the code is cleared; scanning exactly when the camera is granted and the video element exists, with the error cleared and the first frame requested; otherwise scanning is false with the start error and no frame requested; a granted stream is referenced, and a replaced open stream becomes leaked |
| `FrameScanner.Scanner.Stop` | app/dashboard/worked.js:61-66 | the referenced stream's tracks are stopped only if a stream is referenced; scanning is false afterwards |
| `FrameScanner.Scanner.Tick` | app/dashboard/worked.js:68-93 | without a video element or while not scanning: neither decodes nor re-requests; width 0: re-requests without decoding; a decoded payload is recorded, the stream stopped and scanning ends with no frame requested; a miss re-requests |
| `FrameScanner.Scanner.Capture` | app/dashboard/worked.js:95-115 | does nothing when not scanning or without a video element; a hit records the code and stops; a miss sets "QR Kod bulunamadı. Lütfen tekrar deneyin." and scanning goes on |
| `FrameScanner.Scanner.Unmount` | app/dashboard/worked.js:18-25 | the referenced stream, if any, has its tracks stopped |
| `Media.StartClickable` | app/dashboard/worked.js:127-153 | the start button is shown (the camera view, `hasCamera && scanning`, is not) and enabled (`!hasCamera` disables it) exactly when a camera exists and no scan is running; app/dashboard/page.js:73-92 renders the same condition |
| `IntervalScanner.Scanner.constructor` | app/dashboard/automaticlyscan.js:6-9 | the initial state: no error, no code, no interval, no stream |
| `IntervalScanner.Scanner.Start` | app/dashboard/automaticlyscan.js:16-25 | a granted stream on an existing video element is attached and one 500 ms interval registered; a refusal or a missing element sets "Kamera başlatılamadı: …" and registers no interval |
| `IntervalScanner.Scanner.Stop` | app/dashboard/automaticlyscan.js:27-32 | clears the interval only if one is registered and stops tracks only if a video element and a stream are there; with neither it changes nothing |
| `IntervalScanner.Scanner.Tick` | app/dashboard/automaticlyscan.js:34-47 | without a video element nothing happens; otherwise the decoder is called once on a readable frame; a hit records the code, clears the interval and stops the camera; a miss changes nothing |
| `IntervalScanner.Scanner.Unmount` | app/dashboard/automaticlyscan.js:11-14 | the unmount cleanup runs stop, after which no interval is live |
| `PhotoScanner.Scanner.constructor` | app/dashboard/page.js:13-16 | the initial state: not scanning, no camera, no code, no error |
| `PhotoScanner.Scanner.ProbeCamera` | app/dashboard/page.js:22-33 | `hasCamera` exactly when the probe is granted, whose stream is stopped at once; a refusal sets "Kamera erişimi sağlanamadı" |
| `PhotoScanner.Scanner.Start` | app/dashboard/page.js:57-61 | clears the error and the code and sets scanning; the camera view is then shown exactly when a camera exists |
| `PhotoScanner.Scanner.TakePhoto` | app/dashboard/page.js:35-55 | a hit clears the error, records the code and ends scanning; a miss sets the "not found" error and leaves the code and scanning unchanged |

The classes' `Valid()` predicates are invariants that every method preserves:

- `FrameScanner`: while the mounted component scans, it references a stream
  whose tracks have not been stopped.
- `IntervalScanner`: while the interval is live, the stream it samples is
  attached and open, and every interval was registered with 500 ms.
- `PhotoScanner`: every probe stream has been stopped.

`FrameScanner.Scanner.Leaked()` is the set of acquired streams that are neither
referenced nor stopped. Every method except `Start` leaves it unchanged.

## Left out

- app/cam-reader/page.js: the whole file is commented out.
- app/page.js: the login handler only navigates, and its credential flow is commented out.
- app/camera/page.js: it only stores a photo's data URI from a third-party camera component.
- Camera access, canvas drawing, photo loading and jsQR decoding are foreign calls. Their outcomes are parameters. This includes the `facingMode` constraint, `video.play()`, and a photo that never loads (`handleTakePhoto` still builds the image and sets its source, but its `onload` callback, modelled by `TakePhoto`, never runs).
- HTTP requests are network I/O, so their answers are parameters. This includes the URLs, `encodeURIComponent` of the code, the POST body `{orderId, uid}` and the bearer header.
- Reading `userName` and `jwtToken` from `localStorage`, focusing the input, and `console` logging are browser I/O (app/qr-reader/page.js:26-37).
- Rendering, styling and the timing of `requestAnimationFrame` and `setInterval`. Ticks are explicit calls. The view conditions that affect behaviour are modelled as predicates: the camera view, the start button, and the item list (`Redemption.Kiosk.ListShown`, app/qr-reader/page.js:191).
- React's asynchronous state updates and stale closures, which are scheduling concerns. Each handler is a sequential update of the state at entry. One example: worked.js's frame callback reads the `scanning` captured at render (app/dashboard/worked.js:69), and the model reads the current field. Another: overlapping `handleUseItem` calls can overwrite each other's processing list. The model runs them one after the other.
- Strings are sequences of Unicode scalar values, whereas JavaScript counts UTF-16 code units. Every character `trim()` removes is in the Basic Multilingual Plane, so trimming is unaffected. Lengths differ only for characters outside it.
- An `error` of `null` and one of `""` both read as "no error" in JavaScript. The model keeps the source's two representations: `Option<string>` in the pages that start with `null`, and `string` in automaticlyscan.js, which starts with `""`.
