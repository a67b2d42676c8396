# Shark Spotting: detection overlay and capture toggle

This project models, in Dafny, two small parts of the Shark Spotting iPhone app.

The first part is the post-processing of each detection batch in
`ObjectDetectorRefactored`:

- It maps each Vision bounding box, which is normalised with its origin at the bottom left, onto the preview layer. The mapping uses aspect-fill centring of the 640 x 640 model input.
- It recomputes the per-batch "saw a shark" flag.
- It appends the batch to the predictions buffer.
- It replaces the overlay: one box layer and one label layer per result.

The second part is the guarded on/off toggle of `isCapturing` in `CameraManager`.

The model has three modules:

- `Geometry` (geometry.dfy) holds the CoreGraphics and Vision value types. CGFloat is modelled over exact `real`. It also holds Swift's truncating `Int(_:)` (`Trunc`) and `VNImageRectForNormalizedRect`, which multiplies by the integer image width and height.
- `Detector` (detector.dfy) models SharkSpotting/Camera/DetectorRefactored.swift:
  - The mapping (`ScaledImageRect`, `FlipOrigin`, `PlaceInImageRect`, `GetConvertedRect`) and the label frame are pure functions.
  - The batch handling is a class, `ObjectDetector`. Its fields `sawShark`, `predictions`, `boundingBoxLayers`, `labelLayers` and `sublayers` are updated by methods shaped like the source's loops. `sublayers` is the set of the detector's layers currently attached to the preview layer.
  - The methods are proved against the specification functions `TopLabels`, `SharkPrefixCount`, `Copies`, `BoxLayers` and `LabelLayers`. The lemmas about those functions state the closed forms.
- `Camera` (camera.dfy) models SharkSpotting/Camera/Camera.swift:
  - The `CameraManager` class has the `isCapturing` field and a ghost log of the calls made on the capture session (`startRunning`/`stopRunning`).
  - Its methods are tied to a pure transition function `Apply`. The lemmas about `Run`, a sequence of `Apply` steps, give the alternation and idempotence properties.
- `Wrappers` (wrappers.dfy) holds an `Option` for the results cast that may fail.

Notes on the behaviour modelled:

- **Predictions are appended inside the per-result loop** (DetectorRefactored.swift:82-84). When recording is on, a batch whose first "shark" top label is at index k of n results is appended n - k times. If no result is a shark, nothing is appended. `HandleDetection` states this through `SharkPrefixCount`, and `AppendedCopiesClosedForm` gives the closed form.
- **Equal aspects take the vertical-overflow branch.** The comparison is `imageAspect > containerAspect`. With equal aspects the scaled-image rect has y = 0, so nothing overflows.
- **A square input in a portrait container overflows horizontally.** A 640 x 640 input in a 390 x 844 container takes the `imageAspect > containerAspect` branch (1 > 390/844). It fills the 844-point height and overflows left and right by 227 points each. The centre point lands at (195, 422), the container's centre (`PortraitCentrePoint`).
- **`getConvertedRect` has no zero-size guard** (DetectorRefactored.swift:111-112). The model requires positive image and container sizes; see "## Left out" for what that excludes.
- **Session calls depend on the build.** `startRunning` and `stopRunning` are only compiled in for arm64 (Camera.swift:59-61, 69-71). The constant `onArm64` models this: on other builds the session is never called, while `isCapturing` still toggles.

## Model

| member | source | states |
|---|---|---|
| `Geometry.Trunc` | SharkSpotting/Camera/DetectorRefactored.swift:132 | `Int(_:)` drops the fraction toward zero: for v >= 0, n <= v < n + 1; for v < 0, n - 1 < v <= n |
| `Detector.ScaledImageRectCoversAndCentres` | SharkSpotting/Camera/DetectorRefactored.swift:111-123 | if imageAspect > containerAspect: y = 0, height = container height, width = height * imageAspect, x <= 0; otherwise x = 0, width = container width, height = width / imageAspect, y <= 0; in both branches the rect is centred on the container, covers it, and keeps the image's aspect |
| `Detector.ScaledImageRect` | SharkSpotting/Camera/DetectorRefactored.swift:111-123 | `rectOfImage`, the aspect-fill rect of the model input in the container; its branches, centring, cover and aspect are stated by `ScaledImageRectCoversAndCentres` |
| `Detector.GetConvertedRect` | SharkSpotting/Camera/DetectorRefactored.swift:107-139 | `getConvertedRect`: the box placed in `ScaledImageRect`; stated by `ConvertedRectWithinScaledImage`, `FullBoxEqualAspect` and `PortraitCentrePoint`, and through `PlaceInImageRect` by `PlacedRectScalesFlippedBox` |
| `Detector.PlaceInImageRect` | SharkSpotting/Camera/DetectorRefactored.swift:125-138 | the flip, the projection by the truncated width and height and the margin translation; stated by `PlacedRectScalesFlippedBox`, `PlacedRectWithinImageRect` and `FullBoxFillsImageRect` |
| `Geometry.ImageRectForNormalizedRect` | SharkSpotting/Camera/DetectorRefactored.swift:132 | Vision's projection of a normalised rect onto a w x h pixel image; its effect inside the mapping is stated by `PlacedRectScalesFlippedBox` |
| `Detector.CreateBoundingBoxShapeLayer` | SharkSpotting/Camera/DetectorRefactored.swift:154-162 | a shape layer whose path is the converted box; stated per result by `ObjectDetector.BoxLayers` |
| `Detector.CreateLabelLayer` | SharkSpotting/Camera/DetectorRefactored.swift:164-176 | a text layer for the label and confidence framed by `LabelFrame`; stated per result by `ObjectDetector.LabelLayers` |
| `Detector.AppendedCopies` | SharkSpotting/Camera/DetectorRefactored.swift:82-84 | how many times a batch appends itself: at most n, and positive iff recording and some top label is "shark"; the closed form is `AppendedCopiesClosedForm` |
| `Camera.Apply` | SharkSpotting/Camera/Camera.swift:53-72 | one start or stop: afterwards isCapturing holds iff the call was a start, the session log only grows and by at most one call, and a call that matches the current state changes nothing |
| `Camera.Run` | SharkSpotting/Camera/Camera.swift:53-72 | a sequence of calls: the session log only grows, and the last call decides whether the manager is capturing |
| `Detector.FlipOrigin` | SharkSpotting/Camera/DetectorRefactored.swift:125-130 | the flip keeps x, width and height, and the flipped box's far edge lies at 1 - y |
| `Detector.FlipOriginInvolution` | SharkSpotting/Camera/DetectorRefactored.swift:125-130 | flipping twice gives back the original box |
| `Detector.PlacedRectScalesFlippedBox` | SharkSpotting/Camera/DetectorRefactored.swift:125-138 | the output is the flipped box scaled by the truncated width and height of the scaled-image rect, then moved by that rect's origin (e.g. width = box.width * trunc(rectOfImage.width)) |
| `Detector.PlacedRectWithinImageRect` | SharkSpotting/Camera/DetectorRefactored.swift:125-138 | a box inside the unit square lands inside the whole-pixel part of the scaled-image rect |
| `Detector.ConvertedRectWithinScaledImage` | SharkSpotting/Camera/DetectorRefactored.swift:107-139 | a converted box inside the unit square lies inside the scaled-image rect: inside the container, or overflowing it symmetrically, never clipped |
| `Detector.FullBoxFillsImageRect` | SharkSpotting/Camera/DetectorRefactored.swift:125-138 | the full box {0,0,1,1} maps onto {rectOfImage.x, rectOfImage.y, trunc(width), trunc(height)} |
| `Detector.FullBoxEqualAspect` | SharkSpotting/Camera/DetectorRefactored.swift:107-139 | with equal aspects (the else branch) and a container of whole pixels, the full box maps exactly onto {0, 0, container width, container height} |
| `Detector.PortraitCentrePoint` | SharkSpotting/Camera/DetectorRefactored.swift:107-139 | for the 640 x 640 input in a 390 x 844 container, the image overflows horizontally (rectOfImage = {-227, 0, 844, 844}), and the centre point {0.5, 0.5, 0, 0} maps to the container's centre (195, 422) |
| `Detector.LabelFrame` | SharkSpotting/Camera/DetectorRefactored.swift:171-174 | the label frame has the box's x, height 20, its bottom edge on the box's top edge (y = box.y - 20), and width = preferred text width + 10 |
| `Detector.TopLabels` | SharkSpotting/Camera/DetectorRefactored.swift:75-76 | one entry per result, namely that result's `labels[0].identifier` |
| `Detector.SharkPrefixCount` | SharkSpotting/Camera/DetectorRefactored.swift:75-85 | the number of loop iterations that end with the flag set is at most n, and is positive iff some top label is "shark" |
| `Detector.FirstShark` | SharkSpotting/Camera/DetectorRefactored.swift:75-79 | the index of the first "shark" top label, with none before it |
| `Detector.SharkPrefixCountFromFirst` | SharkSpotting/Camera/DetectorRefactored.swift:74-85 | with the first shark at index k of n, exactly n - k iterations end with the flag set |
| `Detector.AppendedCopiesClosedForm` | SharkSpotting/Camera/DetectorRefactored.swift:82-84 | a batch is appended 0 times when not recording or when no result is a shark, and otherwise n - k times, where k is the first shark's index |
| `Detector.Copies` | SharkSpotting/Camera/DetectorRefactored.swift:82-84 | m appends of the same batch: m entries, each equal to the batch |
| `Detector.ObjectDetector.constructor` | SharkSpotting/Camera/DetectorRefactored.swift:14-66 | after setup the input size is 640 x 640, and nothing is recorded, seen, drawn or attached |
| `Detector.ObjectDetector.BoxLayers` | SharkSpotting/Camera/DetectorRefactored.swift:141-147 | one box layer per result, in order, each the shape layer of that result's converted box |
| `Detector.ObjectDetector.LabelLayers` | SharkSpotting/Camera/DetectorRefactored.swift:149-151 | one label layer per result, in order, each under that result's top label and confidence |
| `Detector.ObjectDetector.HandleSharkDetection` | SharkSpotting/Camera/DetectorRefactored.swift:101-105 | the flag becomes old flag or (label == "shark"); once set it is never cleared |
| `Detector.ObjectDetector.ClearBoundingBoxesAndLabels` | SharkSpotting/Camera/DetectorRefactored.swift:89-99 | every box and label layer is detached from the preview layer, and both lists are left empty |
| `Detector.ObjectDetector.DrawBoundingBoxAndLabel` | SharkSpotting/Camera/DetectorRefactored.swift:141-152 | exactly one box layer and one label layer are appended and attached, both built from the converted box |
| `Detector.ObjectDetector.HandleDetection` | SharkSpotting/Camera/DetectorRefactored.swift:68-87 | the overlay is always cleared. If the cast fails, sawShark and predictions are unchanged. Otherwise sawShark holds iff some top label is "shark", predictions grows by SharkPrefixCount copies of the batch while recording (0 otherwise), and each layer list holds exactly one entry per result |
| `Camera.CameraManager.constructor` | SharkSpotting/Camera/Camera.swift:18 | a new manager is not capturing and has made no session call |
| `Camera.CameraManager.StartCapture` | SharkSpotting/Camera/Camera.swift:53-62 | from not capturing: isCapturing becomes true, with exactly one startRunning call on arm64; while capturing: nothing changes. The class invariant is kept |
| `Camera.CameraManager.StopCapture` | SharkSpotting/Camera/Camera.swift:64-72 | from capturing: isCapturing becomes false, with exactly one stopRunning call on arm64; while not capturing: nothing changes. The class invariant is kept |
| `Camera.ApplyKeepsConsistent` | SharkSpotting/Camera/Camera.swift:53-72 | each operation keeps the session calls alternating, with isCapturing true iff the last call was a start |
| `Camera.RunKeepsConsistent` | SharkSpotting/Camera/Camera.swift:53-72 | any sequence of start/stop operations keeps that invariant |
| `Camera.RunFromInitialAlternates` | SharkSpotting/Camera/Camera.swift:18-72 | from a new manager, the session calls strictly alternate, beginning with startRunning |
| `Camera.RepeatedStartsIdempotent` | SharkSpotting/Camera/Camera.swift:56 | any non-empty run of starts has the effect of one start |
| `Camera.RepeatedStopsIdempotent` | SharkSpotting/Camera/Camera.swift:66 | any non-empty run of stops has the effect of one stop |
| `Camera.StartThenStop` | SharkSpotting/Camera/Camera.swift:53-72 | start then stop returns a stopped manager to not capturing, after one startRunning and one stopRunning call on arm64 |

## Left out

- IEEE floating-point rounding, infinities and NaN in the CGFloat geometry: the mapping is over exact reals.
- Detector.GetConvertedRect: requires positive image and container sizes, because exact reals have no infinities or NaN. In the app only the preview size can be zero (the input size is the constant 640 x 640, DetectorRefactored.swift:65). A zero preview height makes `containerAspect` infinite, and 0 x 0 makes it NaN. The else branch then runs: {0, -195, 390, 390} for 390 x 0 and {0, 0, 0, 0} for 0 x 0. A zero preview width makes `containerAspect` 0, so the `imageAspect > containerAspect` branch runs: {-422, 0, 844, 844} for 0 x 844. Nothing traps. The model does not cover these cases.
- Detector.FlipOrigin: uses the box's stored width and height. CGRect's `width` and `height` getters return absolute values, so for a box of negative size the source flips with |h|, and `FlipOriginInvolution` does not describe the source there. Vision produces boxes of non-negative size only, and for those the two agree.
- Detector.ObjectDetector.constructor: requires a positive preview size for the same reason, so the model does not cover batches handled with a zero-width or zero-height preview layer. Only a zero input size would trap (NaN reaches `Int(_:)` through `1 / imageAspect`). The input size is 0 x 0 only before `setupRequest` runs (DetectorRefactored.swift:22, 65), and the model starts after setup.
- `Trunc` is unbounded. Swift's `Int(_:)` traps on values outside the 64-bit range; this is not modelled.
- `result.labels[0]` traps on a result with no labels; `HandleDetection` requires every result to have a label.
- Model loading and its `fatalError`, the `VNCoreMLRequest`, `VNImageRequestHandler` and the capture delegate: foreign library calls. The results of a request arrive as the `Option<Batch>` parameter of `HandleDetection`, and `None` stands for a failed cast.
- `DispatchQueue.main.async` in `handleDetection`: the body is modelled as one sequential step.
- Layer construction: `UIBezierPath`, colours, fonts, and the formatting of the label string. A layer is a value token holding its rect, or its top label, confidence and frame. Layers are compared by value, not by object identity, and the order of the preview layer's sublayers is not modelled (`sublayers` is a set).
- `preferredFrameSize()` of a text layer is library output. It is the function `preferredWidth`, fixed when the detector is constructed.
- The inheritance of `ObjectDetectorRefactored` from `CameraManager`: the two are separate classes, since Dafny classes cannot inherit from classes.
- `setupCamera`, `setupPreviewLayer`, `loadModel` and `setupRequest`: permission prompt, device discovery, session configuration and model loading are I/O. The `ObjectDetector` constructor stands for the state they leave: a 640 x 640 input size and a positive preview size.
- Video writing, presentation time, the metrics timer, FPS, CPU and memory sampling, and prediction persistence: the code declares these fields (DetectorRefactored.swift:25-42), but nothing in it reads or writes them. `isRecording` is modelled as a field that the owner sets.
- `debugPrint` calls: logging only.
- SharkSpotting/Camera/Detector.swift, CameraPreview.swift, ViewController.swift and ContentView.swift are not part of this model. They hold an older detector variant and UI wiring.
