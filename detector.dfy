/** The detection post-processing of `ObjectDetectorRefactored`: the mapping of
    a Vision box onto the preview layer, the per-batch shark flag, the
    predictions buffer and the bookkeeping of the overlay layers. */
module Detector {
  import opened Geometry
  import opened Wrappers

  /** The class whose presence marks a batch. */
  const SharkLabel: string := "shark"

  /** The model's input size, fixed when the request is set up. */
  const InputImageSize: Size := Size(640.0, 640.0)

  /** Height of a label layer, and the padding added to its text width. */
  const LabelHeight: real := 20.0
  const LabelPadding: real := 10.0

  // ---------------------------------------------------------------------------
  // Coordinate mapping
  // ---------------------------------------------------------------------------

  /** The rect the model input occupies when it is shown aspect-fill in the
      container (`rectOfImage`); its properties are stated by
      `ScaledImageRectCoversAndCentres`. */
  function ScaledImageRect(imageSize: Size, containerSize: Size): Rect
    requires PositiveSize(imageSize) && PositiveSize(containerSize)
  {
    var imageAspect := Aspect(imageSize);
    var containerAspect := Aspect(containerSize);
    if imageAspect > containerAspect then
      var newImageWidth := containerSize.height * imageAspect;
      var newX := -(newImageWidth - containerSize.width) / 2.0;
      Rect(newX, 0.0, newImageWidth, containerSize.height)
    else
      var newImageHeight := containerSize.width * (1.0 / imageAspect);
      var newY := -(newImageHeight - containerSize.height) / 2.0;
      Rect(0.0, newY, containerSize.width, newImageHeight)
  }

  lemma ScaleUpCovers(c: real, a: real, q: real)
    requires c > 0.0 && a > q / c
    ensures c * a > q
  {
    assert c * (q / c) == q;
  }

  lemma ScaleDownCovers(c: real, a: real, q: real)
    requires c > 0.0 && a > 0.0 && q > 0.0 && a <= q / c
    ensures q * (1.0 / a) >= c
  {
    assert c * a <= c * (q / c) == q;
    assert q * (1.0 / a) == q / a;
    assert c == (c * a) / a;
  }

  lemma KeepsAspect(q: real, a: real)
    requires q > 0.0 && a > 0.0
    ensures q * (1.0 / a) > 0.0 && q / (q * (1.0 / a)) == a
  {
    assert q * (1.0 / a) == q / a;
  }

  /** The scaled-image rect covers the container, keeps the image's aspect and
      overflows by the same amount on both sides of the one axis the image
      overflows: horizontally when the image is wider than the container
      (relative to height), vertically otherwise, including equal aspects. */
  lemma ScaledImageRectCoversAndCentres(imageSize: Size, containerSize: Size)
    requires PositiveSize(imageSize) && PositiveSize(containerSize)
    ensures var r := ScaledImageRect(imageSize, containerSize);
            var cw, ch := containerSize.width, containerSize.height;
            && (Aspect(imageSize) > Aspect(containerSize) ==>
                  r.y == 0.0 && r.height == ch && r.width == ch * Aspect(imageSize) && r.x <= 0.0)
            && (Aspect(imageSize) <= Aspect(containerSize) ==>
                  r.x == 0.0 && r.width == cw && r.height == cw / Aspect(imageSize) && r.y <= 0.0)
            && r.x + r.width / 2.0 == cw / 2.0
            && r.y + r.height / 2.0 == ch / 2.0
            && r.width >= cw && r.height >= ch
            && r.height > 0.0 && r.width / r.height == Aspect(imageSize)
  {
    var ia, ca := Aspect(imageSize), Aspect(containerSize);
    var cw, ch := containerSize.width, containerSize.height;
    assert ia > 0.0;
    if ia > ca {
      ScaleUpCovers(ch, ia, cw);
      assert (ch * ia) / ch == ia;
    } else {
      ScaleDownCovers(ch, ia, cw);
      KeepsAspect(cw, ia);
      assert cw * (1.0 / ia) == cw / ia;
    }
  }

  /** Moves the vertical origin of a normalised box from the bottom edge
      (Vision) to the top edge (the layer): the box's far edge lands where
      its near edge was, and its horizontal extent and size are kept. */
  function FlipOrigin(box: Rect): (r: Rect)
    ensures r.x == box.x && r.width == box.width && r.height == box.height
    ensures r.y + r.height == 1.0 - box.y
  {
    Rect(box.x, 1.0 - box.y - box.height, box.width, box.height)
  }

  lemma FlipOriginInvolution(box: Rect)
    ensures FlipOrigin(FlipOrigin(box)) == box
  {
  }

  /** `getConvertedRect`: the box is placed in the scaled-image rect of the
      model input shown in the container. */
  function GetConvertedRect(box: Rect, imageSize: Size, containerSize: Size): Rect
    requires PositiveSize(imageSize) && PositiveSize(containerSize)
  {
    PlaceInImageRect(box, ScaledImageRect(imageSize, containerSize))
  }

  /** The second half of `getConvertedRect`, once `rectOfImage` is known: the
      box's origin is flipped, the box is projected onto the whole-pixel size
      of `rectOfImage` and moved by that rect's margins. */
  function PlaceInImageRect(box: Rect, rectOfImage: Rect): Rect {
    var newOriginBoundingBox := FlipOrigin(box);
    var convertedRect := ImageRectForNormalizedRect(
      newOriginBoundingBox, Trunc(rectOfImage.width), Trunc(rectOfImage.height));
    convertedRect.(x := convertedRect.x + rectOfImage.x, y := convertedRect.y + rectOfImage.y)
  }

  /** The placed rect is the flipped box scaled by the whole-pixel size of
      the scaled-image rect, then moved by that rect's margins; its bottom
      edge sits where the box's top edge was, counted from the top. */
  lemma PlacedRectScalesFlippedBox(box: Rect, s: Rect)
    ensures var r := PlaceInImageRect(box, s);
            var w, h := Trunc(s.width) as real, Trunc(s.height) as real;
            && r.width == box.width * w && r.height == box.height * h
            && r.x == s.x + box.x * w && r.y == s.y + FlipOrigin(box).y * h
            && r.y + r.height == s.y + (1.0 - box.y) * h
  {
    var h := Trunc(s.height) as real;
    var f := FlipOrigin(box);
    assert f.y * h + f.height * h == (f.y + f.height) * h;
  }

  /** A box inside the unit square lands inside the whole-pixel part of the
      scaled-image rect. */
  lemma PlacedRectWithinImageRect(box: Rect, s: Rect)
    requires 0.0 <= s.width && 0.0 <= s.height
    requires 0.0 <= box.x && 0.0 <= box.width && box.x + box.width <= 1.0
    requires 0.0 <= box.y && 0.0 <= box.height && box.y + box.height <= 1.0
    ensures var r := PlaceInImageRect(box, s);
            s.x <= r.x && r.x + r.width <= s.x + Trunc(s.width) as real &&
            s.y <= r.y && r.y + r.height <= s.y + Trunc(s.height) as real
  {
    PlacedRectScalesFlippedBox(box, s);
    NonNegativeShare(box.x, box.width, Trunc(s.width) as real);
    NonNegativeShare(FlipOrigin(box).y, box.height, Trunc(s.height) as real);
  }

  lemma NonNegativeShare(a: real, b: real, w: real)
    requires 0.0 <= a && 0.0 <= b && a + b <= 1.0 && 0.0 <= w
    ensures 0.0 <= a * w && a * w + b * w <= w
  {
    assert a * w + b * w == (a + b) * w;
    assert (a + b) * w <= 1.0 * w;
  }

  /** A box inside the unit square, converted, lies inside the scaled-image
      rect: either inside the container or overflowing it symmetrically. */
  lemma ConvertedRectWithinScaledImage(box: Rect, imageSize: Size, containerSize: Size)
    requires PositiveSize(imageSize) && PositiveSize(containerSize)
    requires 0.0 <= box.x && 0.0 <= box.width && box.x + box.width <= 1.0
    requires 0.0 <= box.y && 0.0 <= box.height && box.y + box.height <= 1.0
    ensures var s := ScaledImageRect(imageSize, containerSize);
            var r := GetConvertedRect(box, imageSize, containerSize);
            s.x <= r.x && r.x + r.width <= s.x + s.width &&
            s.y <= r.y && r.y + r.height <= s.y + s.height
  {
    var s := ScaledImageRect(imageSize, containerSize);
    ScaledImageRectCoversAndCentres(imageSize, containerSize);
    PlacedRectWithinImageRect(box, s);
  }

  /** The full normalised box maps onto the whole-pixel scaled-image rect. */
  lemma FullBoxFillsImageRect(s: Rect)
    ensures PlaceInImageRect(Rect(0.0, 0.0, 1.0, 1.0), s)
              == Rect(s.x, s.y, Trunc(s.width) as real, Trunc(s.height) as real)
  {
    PlacedRectScalesFlippedBox(Rect(0.0, 0.0, 1.0, 1.0), s);
  }

  /** When image and container share an aspect and the container is a whole
      number of pixels, the full box maps exactly onto the container. */
  lemma FullBoxEqualAspect(imageSize: Size, containerSize: Size, w: nat, h: nat)
    requires PositiveSize(imageSize) && containerSize == Size(w as real, h as real) && 0 < w && 0 < h
    requires Aspect(imageSize) == Aspect(containerSize)
    ensures GetConvertedRect(Rect(0.0, 0.0, 1.0, 1.0), imageSize, containerSize)
              == Rect(0.0, 0.0, w as real, h as real)
  {
    var s := ScaledImageRect(imageSize, containerSize);
    ScaledImageRectCoversAndCentres(imageSize, containerSize);
    assert s.width == w as real;
    assert s.height == (w as real) / (w as real / h as real);
    assert s.height == h as real;
    assert s.y == 0.0;
    FullBoxFillsImageRect(s);
  }

  /** A square model input shown in a portrait 390 x 844 container is wider
      than the container relative to its height, so it fills the height and
      overflows left and right by 227 points each; the centre point of the
      image lands on the container's centre. */
  lemma PortraitCentrePoint()
    ensures var c := Size(390.0, 844.0);
            var s := ScaledImageRect(InputImageSize, c);
            var r := GetConvertedRect(Rect(0.5, 0.5, 0.0, 0.0), InputImageSize, c);
            && Aspect(InputImageSize) > Aspect(c)
            && s == Rect(-227.0, 0.0, 844.0, 844.0)
            && r == Rect(195.0, 422.0, 0.0, 0.0)
            && r.x == c.width / 2.0 && r.y == c.height / 2.0
  {
    var c := Size(390.0, 844.0);
    assert Aspect(InputImageSize) == 1.0;
    assert Aspect(c) < 1.0;
    var s := ScaledImageRect(InputImageSize, c);
    ScaledImageRectCoversAndCentres(InputImageSize, c);
    assert s == Rect(-227.0, 0.0, 844.0, 844.0);
    assert Trunc(844.0) == 844;
    PlacedRectScalesFlippedBox(Rect(0.5, 0.5, 0.0, 0.0), s);
  }

  /** The frame of a label layer: as wide as its text plus padding, of fixed
      height, and sitting directly on top of its box with no clamping. */
  function LabelFrame(box: Rect, textWidth: real): (r: Rect)
    ensures r.x == box.x && r.y + r.height == box.y
    ensures r.height == LabelHeight && r.width == textWidth + LabelPadding
  {
    Rect(box.x, box.y - LabelHeight, textWidth + LabelPadding, LabelHeight)
  }

  // ---------------------------------------------------------------------------
  // Detection results and the per-batch folds
  // ---------------------------------------------------------------------------

  /** One classification of an observation (`VNClassificationObservation`). */
  datatype ClassLabel = ClassLabel(identifier: string, confidence: real)

  /** A `VNRecognizedObjectObservation`: its labels, best first, and its box in
      normalised coordinates with the origin at the bottom left. */
  datatype Observation = Observation(labels: seq<ClassLabel>, boundingBox: Rect)

  type Batch = seq<Observation>

  /** `labels[0]` is read from every result, so every result must have one. */
  predicate HasTopLabels(results: Batch) {
    forall i | 0 <= i < |results| :: |results[i].labels| > 0
  }

  function TopLabels(results: Batch): (ls: seq<string>)
    requires HasTopLabels(results)
    ensures |ls| == |results|
    ensures forall i | 0 <= i < |results| :: ls[i] == results[i].labels[0].identifier
  {
    if results == [] then []
    else TopLabels(results[..|results| - 1]) + [results[|results| - 1].labels[0].identifier]
  }

  /** The number of loop iterations, over a batch with these top labels, that
      end with the shark flag set: one for each prefix holding a shark. */
  function SharkPrefixCount(labels: seq<string>): (n: nat)
    ensures n <= |labels|
    ensures n > 0 <==> SharkLabel in labels
  {
    if labels == [] then 0
    else
      var init := labels[..|labels| - 1];
      assert labels == init + [labels[|labels| - 1]];
      SharkPrefixCount(init) + (if SharkLabel in labels then 1 else 0)
  }

  /** The index of the first shark among the labels. */
  function FirstShark(labels: seq<string>): (k: nat)
    requires SharkLabel in labels
    ensures k < |labels| && labels[k] == SharkLabel && SharkLabel !in labels[..k]
  {
    if labels[0] == SharkLabel then 0
    else
      var k := FirstShark(labels[1..]);
      assert labels[1..][..k] == labels[1..k + 1];
      assert labels[..k + 1] == [labels[0]] + labels[1..k + 1];
      k + 1
  }

  /** The first shark is the only index holding a shark with none before it. */
  lemma FirstSharkUnique(labels: seq<string>, k: nat)
    requires k < |labels| && labels[k] == SharkLabel && SharkLabel !in labels[..k]
    ensures FirstShark(labels) == k
  {
  }

  /** When a shark is present, every iteration from the first shark onwards
      ends with the flag set, and none before it. */
  lemma {:induction false} SharkPrefixCountFromFirst(labels: seq<string>)
    requires SharkLabel in labels
    ensures SharkPrefixCount(labels) == |labels| - FirstShark(labels)
  {
    var n := |labels|;
    var init := labels[..n - 1];
    assert labels == init + [labels[n - 1]];
    assert init == labels[..n - 1];
    if SharkLabel in init {
      SharkPrefixCountFromFirst(init);
      var k := FirstShark(init);
      assert labels[..k] == init[..k];
      FirstSharkUnique(labels, k);
    } else {
      assert labels[n - 1] == SharkLabel;
      FirstSharkUnique(labels, n - 1);
    }
  }

  /** `m` copies of one batch. */
  function Copies(b: Batch, m: nat): (r: seq<Batch>)
    ensures |r| == m
    ensures forall i | 0 <= i < m :: r[i] == b
  {
    if m == 0 then [] else Copies(b, m - 1) + [b]
  }

  lemma CopiesStep(prefix: seq<Batch>, b: Batch, m: nat)
    ensures prefix + Copies(b, m + 1) == (prefix + Copies(b, m)) + [b]
  {
  }

  /** How many times one batch appends itself to the predictions buffer. */
  function AppendedCopies(labels: seq<string>, isRecording: bool): (n: nat)
    ensures n <= |labels|
    ensures n > 0 <==> isRecording && SharkLabel in labels
  {
    if isRecording then SharkPrefixCount(labels) else 0
  }

  lemma AppendedCopiesStep(labels: seq<string>, i: nat, isRecording: bool)
    requires i < |labels|
    ensures SharkLabel in labels[..i + 1] <==> SharkLabel in labels[..i] || labels[i] == SharkLabel
    ensures AppendedCopies(labels[..i + 1], isRecording) ==
              AppendedCopies(labels[..i], isRecording) + (if isRecording && SharkLabel in labels[..i + 1] then 1 else 0)
  {
    assert labels[..i + 1] == labels[..i] + [labels[i]];
    assert labels[..i + 1][..i] == labels[..i];
  }

  /** The append count in closed form: nothing unless recording and a shark is
      present, and then one copy per result from the first shark on. */
  lemma AppendedCopiesClosedForm(labels: seq<string>, isRecording: bool)
    ensures !isRecording || SharkLabel !in labels ==> AppendedCopies(labels, isRecording) == 0
    ensures isRecording && SharkLabel in labels ==>
              AppendedCopies(labels, isRecording) == |labels| - FirstShark(labels)
  {
    if isRecording && SharkLabel in labels {
      SharkPrefixCountFromFirst(labels);
    }
  }

  // ---------------------------------------------------------------------------
  // The overlay layers and the detector's state
  // ---------------------------------------------------------------------------

  /** A layer, identified by what it shows: a stroked rectangle
      (`CAShapeLayer`) or a label (`CATextLayer`). */
  datatype Layer =
    | ShapeLayer(path: Rect)
    | TextLayer(identifier: string, confidence: real, frame: Rect)

  function CreateBoundingBoxShapeLayer(rect: Rect): Layer {
    ShapeLayer(rect)
  }

  function CreateLabelLayer(identifier: string, confidence: real, rect: Rect, textWidth: real): Layer {
    TextLayer(identifier, confidence, LabelFrame(rect, textWidth))
  }

  class ObjectDetector {
    /** Set by the owner of the detector; read when a batch is handled. */
    var isRecording: bool
    var sawShark: bool
    var predictions: seq<Batch>
    var boundingBoxLayers: seq<Layer>
    var labelLayers: seq<Layer>
    /** The detector's layers currently attached to the preview layer. */
    var sublayers: set<Layer>
    const inputImageSize: Size
    /** The size of the preview layer's frame. */
    const previewSize: Size
    /** The width a text layer prefers for a label and confidence. */
    const preferredWidth: (string, real) -> real

    ghost predicate Valid()
      reads this
    {
      PositiveSize(inputImageSize) && PositiveSize(previewSize) &&
      sublayers == (set l | l in boundingBoxLayers) + (set l | l in labelLayers)
    }

    /** The state after `setupCamera`: the input size is set, nothing is drawn,
        recorded or seen. */
    constructor (previewSize: Size, preferredWidth: (string, real) -> real)
      requires PositiveSize(previewSize)
      ensures Valid()
      ensures inputImageSize == InputImageSize && this.previewSize == previewSize
      ensures this.preferredWidth == preferredWidth
      ensures !isRecording && !sawShark && predictions == []
      ensures boundingBoxLayers == [] && labelLayers == [] && sublayers == {}
    {
      isRecording := false;
      sawShark := false;
      predictions := [];
      boundingBoxLayers := [];
      labelLayers := [];
      sublayers := {};
      inputImageSize := InputImageSize;
      this.previewSize := previewSize;
      this.preferredWidth := preferredWidth;
    }

    /** The box layer drawn for one observation. */
    function BoxLayerFor(o: Observation): Layer
      requires PositiveSize(inputImageSize) && PositiveSize(previewSize)
    {
      CreateBoundingBoxShapeLayer(GetConvertedRect(o.boundingBox, inputImageSize, previewSize))
    }

    /** The label layer drawn for one observation under the given label. */
    function LabelLayerFor(o: Observation, identifier: string, confidence: real): Layer
      requires PositiveSize(inputImageSize) && PositiveSize(previewSize)
    {
      var rect := GetConvertedRect(o.boundingBox, inputImageSize, previewSize);
      CreateLabelLayer(identifier, confidence, rect, preferredWidth(identifier, confidence))
    }

    /** The box layers drawn for a batch, in order. */
    function BoxLayers(rs: Batch): (ls: seq<Layer>)
      requires PositiveSize(inputImageSize) && PositiveSize(previewSize)
      ensures |ls| == |rs| && forall i | 0 <= i < |rs| :: ls[i] == BoxLayerFor(rs[i])
    {
      if rs == [] then [] else BoxLayers(rs[..|rs| - 1]) + [BoxLayerFor(rs[|rs| - 1])]
    }

    /** The label layers drawn for a batch, in order, each under its result's
        top label. */
    function LabelLayers(rs: Batch): (ls: seq<Layer>)
      requires PositiveSize(inputImageSize) && PositiveSize(previewSize)
      requires HasTopLabels(rs)
      ensures |ls| == |rs|
      ensures forall i | 0 <= i < |rs| ::
                ls[i] == LabelLayerFor(rs[i], rs[i].labels[0].identifier, rs[i].labels[0].confidence)
    {
      if rs == [] then []
      else
        var o := rs[|rs| - 1];
        LabelLayers(rs[..|rs| - 1]) + [LabelLayerFor(o, o.labels[0].identifier, o.labels[0].confidence)]
    }

    lemma LayersStep(rs: Batch, i: nat)
      requires PositiveSize(inputImageSize) && PositiveSize(previewSize)
      requires HasTopLabels(rs) && i < |rs|
      ensures BoxLayers(rs[..i + 1]) == BoxLayers(rs[..i]) + [BoxLayerFor(rs[i])]
      ensures LabelLayers(rs[..i + 1]) ==
                LabelLayers(rs[..i]) + [LabelLayerFor(rs[i], rs[i].labels[0].identifier, rs[i].labels[0].confidence)]
    {
      assert rs[..i + 1][..i] == rs[..i];
    }

    /** Sets the flag on a shark label; a set flag is never cleared here. */
    method HandleSharkDetection(identifier: string)
      modifies this`sawShark
      ensures sawShark == (old(sawShark) || identifier == SharkLabel)
      ensures old(sawShark) ==> sawShark
    {
      if !sawShark && identifier == SharkLabel {
        sawShark := true;
      }
    }

    /** Detaches every box and label layer and empties both lists. */
    method ClearBoundingBoxesAndLabels()
      requires Valid()
      modifies this`boundingBoxLayers, this`labelLayers, this`sublayers
      ensures Valid()
      ensures boundingBoxLayers == [] && labelLayers == [] && sublayers == {}
    {
      ghost var boxes, labels := boundingBoxLayers, labelLayers;
      var i := 0;
      while i < |boundingBoxLayers|
        invariant 0 <= i <= |boundingBoxLayers|
        invariant boundingBoxLayers == boxes && labelLayers == labels
        invariant sublayers == old(sublayers) - set l | l in boundingBoxLayers[..i]
      {
        assert boundingBoxLayers[..i + 1] == boundingBoxLayers[..i] + [boundingBoxLayers[i]];
        sublayers := sublayers - {boundingBoxLayers[i]};
        i := i + 1;
      }
      assert boundingBoxLayers[..i] == boxes;
      boundingBoxLayers := [];

      var j := 0;
      assert labelLayers[..j] == [];
      while j < |labelLayers|
        invariant 0 <= j <= |labelLayers|
        invariant boundingBoxLayers == [] && labelLayers == labels
        invariant sublayers == old(sublayers) - (set l | l in boxes) - (set l | l in labelLayers[..j])
      {
        assert labelLayers[..j + 1] == labelLayers[..j] + [labelLayers[j]];
        sublayers := sublayers - {labelLayers[j]};
        j := j + 1;
      }
      assert labelLayers[..j] == labels;
      labelLayers := [];
    }

    /** Converts the observation's box, then draws and keeps one box layer and
        one label layer for it. */
    method DrawBoundingBoxAndLabel(result: Observation, identifier: string, confidence: real)
      requires Valid()
      modifies this`boundingBoxLayers, this`labelLayers, this`sublayers
      ensures Valid()
      ensures boundingBoxLayers == old(boundingBoxLayers) + [BoxLayerFor(result)]
      ensures labelLayers == old(labelLayers) + [LabelLayerFor(result, identifier, confidence)]
      ensures sublayers == old(sublayers) + {BoxLayerFor(result), LabelLayerFor(result, identifier, confidence)}
    {
      var boundingBox := GetConvertedRect(result.boundingBox, inputImageSize, previewSize);

      var shapeLayer := CreateBoundingBoxShapeLayer(boundingBox);
      sublayers := sublayers + {shapeLayer};
      boundingBoxLayers := boundingBoxLayers + [shapeLayer];

      var labelLayer := CreateLabelLayer(identifier, confidence, boundingBox, preferredWidth(identifier, confidence));
      sublayers := sublayers + {labelLayer};
      labelLayers := labelLayers + [labelLayer];
    }

    /** Handles one batch of results: clears the overlay, and unless the results
        are not object observations, recomputes the shark flag, draws one box
        and one label per result, and appends the whole batch to the
        predictions once per result handled while the flag is set and
        recording is on. `results` is `None` when the cast fails. */
    method HandleDetection(results: Option<Batch>)
      requires Valid()
      requires results.Some? ==> HasTopLabels(results.value)
      modifies this`sawShark, this`predictions, this`boundingBoxLayers, this`labelLayers, this`sublayers
      ensures Valid()
      ensures results.None? ==>
        sawShark == old(sawShark) && predictions == old(predictions) &&
        boundingBoxLayers == [] && labelLayers == [] && sublayers == {}
      ensures results.Some? ==>
        var rs := results.value;
        var labels := TopLabels(rs);
        && sawShark == (SharkLabel in labels)
        && predictions == old(predictions) + Copies(rs, AppendedCopies(labels, isRecording))
        && boundingBoxLayers == BoxLayers(rs) && labelLayers == LabelLayers(rs)
    {
      ClearBoundingBoxesAndLabels();

      if results.None? {
        return;
      }
      var rs := results.value;
      ghost var labels := TopLabels(rs);

      sawShark := false;
      var i := 0;
      while i < |rs|
        invariant 0 <= i <= |rs|
        invariant Valid()
        invariant sawShark == (SharkLabel in labels[..i])
        invariant predictions == old(predictions) + Copies(rs, AppendedCopies(labels[..i], isRecording))
        invariant boundingBoxLayers == BoxLayers(rs[..i]) && labelLayers == LabelLayers(rs[..i])
      {
        var result := rs[i];
        var identifier := result.labels[0].identifier;
        var confidence := result.labels[0].confidence;
        ghost var before := predictions;

        HandleSharkDetection(identifier);
        DrawBoundingBoxAndLabel(result, identifier, confidence);

        LayersStep(rs, i);
        AppendedCopiesStep(labels, i, isRecording);
        ghost var m := AppendedCopies(labels[..i], isRecording);
        if sawShark && isRecording {
          predictions := predictions + [rs];
          CopiesStep(old(predictions), rs, m);
        }
        i := i + 1;
      }
      assert labels[..i] == labels;
      assert rs[..i] == rs;
    }
  }
}
