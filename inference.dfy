/**
 * One per-camera inspection engine (LGCInspector2/Models/InferenceEngine.cs):
 * the product-presence gate, the tensor that preprocessing fills, the
 * interpretation of the model's output, and the lifetime of the loaded
 * ONNX session.
 *
 * Image decoding, resizing and the ONNX runtime are foreign code. The
 * model receives what they produce: the grey-level statistics of a decode,
 * the colour raster after resizing, and the network a session computes.
 */
module Inference {
  import opened Wrappers

  newtype byte = x: int | 0 <= x < 256

  /** One pixel of an 8-bit, 3-channel image, channels in storage order. */
  datatype Pixel = Pixel(item0: byte, item1: byte, item2: byte)

  /** A colour decode already resized to the engine's input size, indexed by (row, column). */
  type Raster = (nat, nat) -> Pixel

  /** A grey-level decode as the presence gate sees it: empty, or the mean and
      population standard deviation of its intensities. */
  datatype GrayDecode = EmptyImage | Intensity(mean: real, stdDev: real)

  /** The verdict strings "OK", "NG" and "ERROR" that Predict returns. */
  datatype Verdict = OK | NG | ERROR

  /** The exceptions the engine and the batch can raise, with what they report. */
  datatype Fault =
    | ModelLoadFailed(modelPath: string, reason: string)  // LoadModel's wrapping exception
    | ModelNotLoaded                                       // Predict/GetRawScore with no session
    | ImageUnreadable(imagePath: string)                   // resizing an empty colour decode
    | OutputEmpty                                          // reading out[0] of an empty output
    | IoFailed(reason: string)                             // a file-system call that threw

  /** A loaded ONNX session: the model file it came from and the network it
      computes, from the flat input tensor to the flat first output. */
  datatype Session = Session(modelPath: string, net: seq<real> -> seq<real>)

  /** What the ONNX runtime does when asked to open a model file. */
  datatype LoadOutcome = Opened(net: seq<real> -> seq<real>) | OpenFailed(reason: string)

  const DefaultMeanThreshold: real := 50.0
  const DefaultStdThreshold: real := 5.0
  /** The single-score cut-off, written 0.8f in the source; here the real 0.8. */
  const SingleScoreThreshold: real := 0.8
  const InputWidth: nat := 224
  const InputHeight: nat := 224

  // ---------------------------------------------------------------------------
  // Presence gate

  /** True when a frame shows a product: a non-empty decode whose mean and
      standard deviation both exceed their thresholds. */
  function IsProductExist(decode: GrayDecode, meanThreshold: real, stdThreshold: real): (present: bool)
  {
    match decode
    case EmptyImage => false
    case Intensity(mean, stdDev) => mean > meanThreshold && stdDev > stdThreshold
  }

  /** The gate is a strict conjunction: an empty decode, a mean or a deviation
      at or below its threshold each make the frame count as empty, and a frame
      passes exactly when both statistics are strictly above. */
  lemma PresenceGate(decode: GrayDecode, meanThreshold: real, stdThreshold: real)
    ensures decode.EmptyImage? ==> !IsProductExist(decode, meanThreshold, stdThreshold)
    ensures decode.Intensity? && decode.mean <= meanThreshold ==> !IsProductExist(decode, meanThreshold, stdThreshold)
    ensures decode.Intensity? && decode.stdDev <= stdThreshold ==> !IsProductExist(decode, meanThreshold, stdThreshold)
    ensures (decode.Intensity? && decode.mean > meanThreshold && decode.stdDev > stdThreshold)
              ==> IsProductExist(decode, meanThreshold, stdThreshold)
  {
  }

  /** Lowering either threshold never turns a present product into an empty frame. */
  lemma PresenceMonotone(decode: GrayDecode, meanThreshold: real, stdThreshold: real, meanLower: real, stdLower: real)
    requires meanLower <= meanThreshold && stdLower <= stdThreshold
    ensures IsProductExist(decode, meanThreshold, stdThreshold) ==> IsProductExist(decode, meanLower, stdLower)
  {
  }

  /** A bright but flat frame (mean 60, deviation 2) is empty under the default thresholds. */
  lemma BrightFlatFrameIsEmpty()
    ensures !IsProductExist(Intensity(60.0, 2.0), DefaultMeanThreshold, DefaultStdThreshold)
  {
  }

  // ---------------------------------------------------------------------------
  // Output interpretation

  /** Predict's reading of the model output: two or more values compare the
      NG score (index 1) with the OK score (index 0); one value is an anomaly
      score against a threshold; no value is ERROR. */
  function InterpretOutput(output: seq<real>, scoreThreshold: real): (v: Verdict)
  {
    if |output| >= 2 then (if output[1] > output[0] then NG else OK)
    else if |output| == 1 then (if output[0] > scoreThreshold then NG else OK)
    else ERROR
  }

  /** With two or more values the verdict is NG exactly when out[1] > out[0],
      so a tie gives OK, and neither the threshold nor any value past index 1
      can change it. */
  lemma TwoClassVerdict(output: seq<real>, other: seq<real>, scoreThreshold: real, otherThreshold: real)
    requires |output| >= 2 && |other| >= 2
    requires other[0] == output[0] && other[1] == output[1]
    ensures InterpretOutput(output, scoreThreshold) == NG <==> output[1] > output[0]
    ensures InterpretOutput(output, scoreThreshold) == OK <==> output[1] <= output[0]
    ensures InterpretOutput(output, scoreThreshold) == InterpretOutput(other, otherThreshold)
  {
  }

  /** With exactly one value the verdict is NG exactly when it exceeds the threshold. */
  lemma SingleScoreVerdict(output: seq<real>, scoreThreshold: real)
    requires |output| == 1
    ensures InterpretOutput(output, scoreThreshold) == NG <==> output[0] > scoreThreshold
    ensures InterpretOutput(output, scoreThreshold) == OK <==> output[0] <= scoreThreshold
  {
  }

  /** ERROR is returned, not thrown, and exactly for an empty output. */
  lemma ErrorVerdict(output: seq<real>, scoreThreshold: real)
    ensures InterpretOutput(output, scoreThreshold) == ERROR <==> |output| == 0
  {
  }

  /** Example outputs and their verdicts: [0.9, 0.1] is OK, [0.1, 0.9] NG,
      [0.5, 0.5] OK, [0.85] NG and [0.79] OK. */
  lemma VerdictExamples()
    ensures InterpretOutput([0.9, 0.1], SingleScoreThreshold) == OK
    ensures InterpretOutput([0.1, 0.9], SingleScoreThreshold) == NG
    ensures InterpretOutput([0.5, 0.5], SingleScoreThreshold) == OK
    ensures InterpretOutput([0.85], SingleScoreThreshold) == NG
    ensures InterpretOutput([0.79], SingleScoreThreshold) == OK
  {
  }

  /** GetRawScore's reading of the output: its first value, or the
      out-of-range error of indexing an empty output. */
  function RawScore(output: seq<real>): (score: Result<real, Fault>)
  {
    if |output| == 0 then Failure(OutputEmpty) else Success(output[0])
  }

  /** The raw score is the leading value alone: it exists exactly when the
      output is non-empty, and whatever follows it is ignored. */
  lemma RawScoreIsLeadingValue(output: seq<real>, rest: seq<real>)
    ensures RawScore(output).Success? <==> |output| > 0
    ensures |output| > 0 ==> RawScore(output) == Success(output[0]) && RawScore(output[..1] + rest) == RawScore(output)
  {
  }

  // ---------------------------------------------------------------------------
  // Tensor layout

  /** Channel c of a pixel, for c in 0..2. */
  function Channel(p: Pixel, c: nat): (v: byte)
  {
    if c == 0 then p.item0 else if c == 1 then p.item1 else p.item2
  }

  /** The BGR2RGB conversion of one pixel: channels 0 and 2 trade places. */
  function BgrToRgb(p: Pixel): (rgb: Pixel)
  {
    Pixel(p.item2, p.item1, p.item0)
  }

  /** Cv2.CvtColor(..., BGR2RGB) applied to a whole raster. */
  function CvtColorBgrToRgb(img: Raster): (rgb: Raster)
  {
    (y: nat, x: nat) => BgrToRgb(img(y, x))
  }

  /** A channel byte scaled by 1/255. */
  function Scaled(v: byte): (r: real)
    ensures 0.0 <= r <= 1.0
  {
    v as real / 255.0
  }

  /** The dimensions of the tensor preprocessing allocates: 1 x 3 x height x width. */
  function TensorShape(height: nat, width: nat): (shape: seq<nat>)
  {
    [1, 3, height, width]
  }

  /** The number of elements a tensor of the given dimensions holds. */
  function ShapeSize(shape: seq<nat>): (n: nat)
  {
    if shape == [] then 1 else shape[0] * ShapeSize(shape[1..])
  }

  /** A 1 x 3 x height x width tensor holds 3 * height * width elements, the
      length of TensorOf. */
  lemma TensorShapeSize(height: nat, width: nat)
    ensures ShapeSize(TensorShape(height, width)) == 3 * (height * width)
  {
    var shape := TensorShape(height, width);
    assert shape[1..][1..][1..][1..] == [];
    assert ShapeSize(shape[1..][1..][1..]) == width;
    assert ShapeSize(shape[1..][1..]) == height * width;
  }

  /** The offset of element [0, c, y, x] of a channel-major 1 x 3 x height x width
      tensor inside its flat buffer. */
  function FlatIndex(height: nat, width: nat, c: nat, y: nat, x: nat): (i: nat)
    requires c < 3 && y < height && x < width
    ensures i < 3 * (height * width)
  {
    PixelOffsetBound(height, width, y, x);
    MulMonotone(c + 1, 3, height * width);
    c * (height * width) + (y * width + x)
  }

  /** The flat tensor that preprocessing fills from an RGB raster: at offset
      FlatIndex(c, y, x) it holds channel c of pixel (y, x) divided by 255, and
      every other element is one of these. */
  function TensorOf(rgb: Raster, height: nat, width: nat): (t: seq<real>)
    ensures |t| == 3 * (height * width)
  {
    seq(3 * (height * width), i requires 0 <= i < 3 * (height * width) => TensorEntry(rgb, height, width, i))
  }

  /** The element at flat offset i, found by splitting i into channel, row and column. */
  function TensorEntry(rgb: Raster, height: nat, width: nat, i: nat): (e: real)
    requires i < 3 * (height * width)
  {
    var plane := height * width;
    assert width > 0;
    var p := i % plane;
    Scaled(Channel(rgb(p / width, p % width), i / plane))
  }

  lemma MulMonotone(a: nat, b: nat, k: nat)
    requires a <= b
    ensures a * k <= b * k
  {
    assert b * k == a * k + (b - a) * k;
  }

  lemma PixelOffsetBound(height: nat, width: nat, y: nat, x: nat)
    requires y < height && x < width
    ensures y * width + x < height * width
  {
    MulMonotone(y + 1, height, width);
  }

  /** Division by d recovers quotient and remainder of q * d + r. */
  lemma DivModOf(q: nat, r: nat, d: nat)
    requires r < d
    ensures (q * d + r) / d == q && (q * d + r) % d == r
  {
    var n := q * d + r;
    var q', r' := n / d, n % d;
    assert n == q' * d + r';
    if q' < q {
      MulMonotone(q' + 1, q, d);
      assert false;
    } else if q' > q {
      MulMonotone(q + 1, q', d);
      assert false;
    }
  }

  /** Splitting a flat offset into (channel, row, column) and recombining it gives it back. */
  lemma Unflatten(height: nat, width: nat, i: nat)
    requires i < 3 * (height * width)
    ensures var plane := height * width; var p := i % plane;
      plane > 0 && width > 0 && i / plane < 3 && p / width < height && p % width < width &&
      FlatIndex(height, width, i / plane, p / width, p % width) == i
  {
    var plane := height * width;
    assert width > 0;
    var c, p := i / plane, i % plane;
    assert i == c * plane + p;
    if c >= 3 {
      MulMonotone(3, c, plane);
      assert false;
    }
    var y, x := p / width, p % width;
    assert p == y * width + x;
    if y >= height {
      MulMonotone(height, y, width);
      assert false;
    }
  }

  /** The element at FlatIndex(c, y, x) is channel c of pixel (y, x), scaled. */
  lemma {:induction false} TensorOfAt(rgb: Raster, height: nat, width: nat, c: nat, y: nat, x: nat)
    requires c < 3 && y < height && x < width
    ensures TensorOf(rgb, height, width)[FlatIndex(height, width, c, y, x)] == Scaled(Channel(rgb(y, x), c))
  {
    PixelOffsetBound(height, width, y, x);
    DivModOf(c, y * width + x, height * width);
    DivModOf(y, x, width);
  }

  /** Distinct (channel, row, column) triples occupy distinct offsets. */
  lemma FlatIndexInjective(height: nat, width: nat, c: nat, y: nat, x: nat, c': nat, y': nat, x': nat)
    requires c < 3 && y < height && x < width && c' < 3 && y' < height && x' < width
    requires FlatIndex(height, width, c, y, x) == FlatIndex(height, width, c', y', x')
    ensures c == c' && y == y' && x == x'
  {
    PixelOffsetBound(height, width, y, x);
    PixelOffsetBound(height, width, y', x');
    DivModOf(c, y * width + x, height * width);
    DivModOf(c', y' * width + x', height * width);
    DivModOf(y, x, width);
    DivModOf(y', x', width);
  }

  /** The BGR2RGB swap puts the source pixel's third byte in channel 0, its
      second in channel 1 and its first in channel 2 of the tensor. */
  lemma {:induction false} TensorChannelOrigin(bgr: Raster, height: nat, width: nat, y: nat, x: nat)
    requires y < height && x < width
    ensures TensorOf(CvtColorBgrToRgb(bgr), height, width)[FlatIndex(height, width, 0, y, x)] == Scaled(bgr(y, x).item2)
    ensures TensorOf(CvtColorBgrToRgb(bgr), height, width)[FlatIndex(height, width, 1, y, x)] == Scaled(bgr(y, x).item1)
    ensures TensorOf(CvtColorBgrToRgb(bgr), height, width)[FlatIndex(height, width, 2, y, x)] == Scaled(bgr(y, x).item0)
  {
    TensorOfAt(CvtColorBgrToRgb(bgr), height, width, 0, y, x);
    TensorOfAt(CvtColorBgrToRgb(bgr), height, width, 1, y, x);
    TensorOfAt(CvtColorBgrToRgb(bgr), height, width, 2, y, x);
  }

  /** Every tensor element lies in [0, 1]. */
  lemma {:induction false} TensorInUnitRange(rgb: Raster, height: nat, width: nat, i: nat)
    requires i < 3 * (height * width)
    ensures 0.0 <= TensorOf(rgb, height, width)[i] <= 1.0
  {
    Unflatten(height, width, i);
  }

  /** The elements of every pixel before (y, x) in row-major order hold their final values. */
  ghost predicate FilledBefore(t: seq<real>, rgb: Raster, height: nat, width: nat, y: nat, x: nat)
  {
    |t| == 3 * (height * width) &&
    forall c: nat, y': nat, x': nat | c < 3 && y' < height && x' < width && (y' < y || (y' == y && x' < x)) ::
      t[FlatIndex(height, width, c, y', x')] == Scaled(Channel(rgb(y', x'), c))
  }

  /** The three writes of one iteration of the fill loop, at pixel (y, x). */
  function WritePixel(t: seq<real>, rgb: Raster, height: nat, width: nat, y: nat, x: nat): (t': seq<real>)
    requires |t| == 3 * (height * width) && y < height && x < width
    ensures |t'| == |t|
  {
    var pixel := rgb(y, x);
    t[FlatIndex(height, width, 0, y, x) := Scaled(pixel.item0)]
     [FlatIndex(height, width, 1, y, x) := Scaled(pixel.item1)]
     [FlatIndex(height, width, 2, y, x) := Scaled(pixel.item2)]
  }

  /** Writing pixel (y, x) completes it and disturbs no pixel written before. */
  lemma WritePixelStep(t: seq<real>, rgb: Raster, height: nat, width: nat, y: nat, x: nat)
    requires y < height && x < width && FilledBefore(t, rgb, height, width, y, x)
    ensures FilledBefore(WritePixel(t, rgb, height, width, y, x), rgb, height, width, y, x + 1)
  {
    var t' := WritePixel(t, rgb, height, width, y, x);
    forall c: nat, y': nat, x': nat | c < 3 && y' < height && x' < width && (y' < y || (y' == y && x' < x + 1))
      ensures t'[FlatIndex(height, width, c, y', x')] == Scaled(Channel(rgb(y', x'), c))
    {
      if y' != y || x' != x {
        var k := FlatIndex(height, width, c, y', x');
        forall d: nat | d < 3 ensures k != FlatIndex(height, width, d, y, x) {
          if k == FlatIndex(height, width, d, y, x) {
            FlatIndexInjective(height, width, c, y', x', d, y, x);
          }
        }
      }
    }
  }

  /** A finished row is the same as the start of the next one. */
  lemma NextRow(t: seq<real>, rgb: Raster, height: nat, width: nat, y: nat)
    requires FilledBefore(t, rgb, height, width, y, width)
    ensures FilledBefore(t, rgb, height, width, y + 1, 0)
  {
  }

  /** Once every row is written the buffer is the tensor. */
  lemma FilledIsTensor(t: seq<real>, rgb: Raster, height: nat, width: nat)
    requires FilledBefore(t, rgb, height, width, height, 0)
    ensures t == TensorOf(rgb, height, width)
  {
    forall i | 0 <= i < |t|
      ensures t[i] == TensorOf(rgb, height, width)[i]
    {
      Unflatten(height, width, i);
      var plane := height * width;
      var c, y, x := i / plane, (i % plane) / width, (i % plane) % width;
      assert t[FlatIndex(height, width, c, y, x)] == Scaled(Channel(rgb(y, x), c));
      assert TensorOf(rgb, height, width)[i] == TensorEntry(rgb, height, width, i);
    }
  }

  // ---------------------------------------------------------------------------
  // Predict and GetRawScore, as functions of the session and the decode

  /** What Predict returns: the missing-session error, the resize error on an
      empty decode, or the verdict of the session's output on the tensor. */
  function PredictOutcome(session: Option<Session>, imagePath: string, resized: Option<Raster>): (r: Result<Verdict, Fault>)
  {
    if session.None? then Failure(ModelNotLoaded)
    else if resized.None? then Failure(ImageUnreadable(imagePath))
    else Success(InterpretOutput(session.value.net(TensorOf(CvtColorBgrToRgb(resized.value), InputHeight, InputWidth)), SingleScoreThreshold))
  }

  /** What GetRawScore returns, with the same two errors and the index error. */
  function RawScoreOutcome(session: Option<Session>, imagePath: string, resized: Option<Raster>): (r: Result<real, Fault>)
  {
    if session.None? then Failure(ModelNotLoaded)
    else if resized.None? then Failure(ImageUnreadable(imagePath))
    else RawScore(session.value.net(TensorOf(CvtColorBgrToRgb(resized.value), InputHeight, InputWidth)))
  }

  /** Predict and GetRawScore both throw without a session; given a session
      and a decode, Predict's outcome is a verdict (ERROR included) rather
      than one of the engine's own errors. */
  lemma EngineGuards(session: Option<Session>, imagePath: string, resized: Option<Raster>)
    ensures session.None? ==> PredictOutcome(session, imagePath, resized) == Failure(ModelNotLoaded)
    ensures session.None? ==> RawScoreOutcome(session, imagePath, resized) == Failure(ModelNotLoaded)
    ensures PredictOutcome(session, imagePath, resized).Success? <==> session.Some? && resized.Some?
  {
  }

  // ---------------------------------------------------------------------------
  // The engine object

  class InferenceEngine {
    /** The loaded session (`_session`), null until LoadModel succeeds. */
    var session: Option<Session>
    /** Whether that session still holds its native resources. */
    var sessionOpen: bool

    ghost predicate Valid()
      reads this
    {
      sessionOpen ==> session.Some?
    }

    constructor ()
      ensures Valid() && session == None && !sessionOpen
    {
      session := None;
      sessionOpen := false;
    }

    /** Opens a model file: on success the engine holds the new session; on
        failure it throws the wrapped load error naming the path, and the
        previous session is kept. */
    method LoadModel(modelPath: string, result: LoadOutcome) returns (r: Outcome<Fault>)
      requires Valid()
      modifies this
      ensures Valid()
      ensures result.Opened? ==> r == Pass && session == Some(Session(modelPath, result.net)) && sessionOpen
      ensures result.OpenFailed? ==> r == Fail(ModelLoadFailed(modelPath, result.reason))
                                     && session == old(session) && sessionOpen == old(sessionOpen)
    {
      match result
      case Opened(net) =>
        session := Some(Session(modelPath, net));
        sessionOpen := true;
        r := Pass;
      case OpenFailed(reason) =>
        r := Fail(ModelLoadFailed(modelPath, reason));
    }

    /** Fills a fresh 1 x 3 x height x width tensor from the resized colour
        decode, after swapping it from BGR to RGB, scaling each byte by 1/255. */
    method PreprocessWithOpenCV(path: string, resized: Option<Raster>, width: nat, height: nat)
      returns (r: Result<array<real>, Fault>)
      ensures resized.None? ==> r == Failure(ImageUnreadable(path))
      ensures resized.Some? ==> r.Success? && fresh(r.value)
                                && r.value.Length == ShapeSize(TensorShape(height, width))
                                && r.value[..] == TensorOf(CvtColorBgrToRgb(resized.value), height, width)
    {
      if resized.None? {
        return Failure(ImageUnreadable(path));
      }
      var rgb := CvtColorBgrToRgb(resized.value);
      var shape := TensorShape(height, width);
      TensorShapeSize(height, width);
      var tensor := new real[ShapeSize(shape)](_ => 0.0);
      for y := 0 to height
        invariant FilledBefore(tensor[..], rgb, height, width, y, 0)
      {
        for x := 0 to width
          invariant FilledBefore(tensor[..], rgb, height, width, y, x)
        {
          ghost var before := tensor[..];
          var pixel := rgb(y, x);
          tensor[FlatIndex(height, width, 0, y, x)] := Scaled(pixel.item0);
          tensor[FlatIndex(height, width, 1, y, x)] := Scaled(pixel.item1);
          tensor[FlatIndex(height, width, 2, y, x)] := Scaled(pixel.item2);
          assert tensor[..] == WritePixel(before, rgb, height, width, y, x);
          WritePixelStep(before, rgb, height, width, y, x);
        }
        NextRow(tensor[..], rgb, height, width, y);
      }
      FilledIsTensor(tensor[..], rgb, height, width);
      return Success(tensor);
    }

    /** Runs the model on one image and interprets its output (Predict). The
        outcome is stated for an engine with no session or an open one; what
        the runtime does with a disposed session is foreign. */
    method Predict(imagePath: string, resized: Option<Raster>) returns (r: Result<Verdict, Fault>)
      ensures session.None? || sessionOpen ==> r == PredictOutcome(session, imagePath, resized)
    {
      if session.None? {
        return Failure(ModelNotLoaded);
      }
      var inputTensor := PreprocessWithOpenCV(imagePath, resized, InputWidth, InputHeight);
      if inputTensor.Failure? {
        return Failure(inputTensor.error);
      }
      var outputData := session.value.net(inputTensor.value[..]);
      r := Success(InterpretOutput(outputData, SingleScoreThreshold));
    }

    /** Runs the model on one image and returns its leading output value
        (GetRawScore), for an engine with no session or an open one. */
    method GetRawScore(imagePath: string, resized: Option<Raster>) returns (r: Result<real, Fault>)
      ensures session.None? || sessionOpen ==> r == RawScoreOutcome(session, imagePath, resized)
    {
      if session.None? {
        return Failure(ModelNotLoaded);
      }
      var inputTensor := PreprocessWithOpenCV(imagePath, resized, InputWidth, InputHeight);
      if inputTensor.Failure? {
        return Failure(inputTensor.error);
      }
      var outputData := session.value.net(inputTensor.value[..]);
      if |outputData| == 0 {
        return Failure(OutputEmpty);
      }
      r := Success(outputData[0]);
    }

    /** Releases the session's native resources; the reference itself is kept. */
    method Dispose()
      requires Valid()
      modifies this
      ensures Valid() && session == old(session) && !sessionOpen
    {
      if session.Some? {
        sessionOpen := false;
      }
    }
  }
}
