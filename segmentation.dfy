/** The Segmentation wrapper: a network whose input blob is
    numChannels x height x width, and a colormap indexed by class id. */
module SegmentationModel {
  import opened Wrappers
  import opened ArgMax
  import opened Planes
  import opened Conversion
  import opened Colormap

  /** What the loaded network reports about itself; loading it is done by
      the network runtime and is not part of this model. */
  datatype NetworkShape = NetworkShape(numInputs: int, numOutputs: int, channels: int, height: nat, width: nat)

  /** The constructor's fatal checks, in the order they run. */
  datatype LoadError = InputCountNotOne | OutputCountNotOne | ChannelsNotOneOrThree

  /** The first of the constructor's checks that fails, if any. */
  function CheckNetwork(net: NetworkShape): (r: Option<LoadError>)
    ensures r == None <==>
      net.numInputs == 1 && net.numOutputs == 1 && (net.channels == 1 || net.channels == 3)
    ensures r == Some(InputCountNotOne) <==> net.numInputs != 1
    ensures r == Some(OutputCountNotOne) <==> net.numInputs == 1 && net.numOutputs != 1
    ensures r == Some(ChannelsNotOneOrThree) <==>
      net.numInputs == 1 && net.numOutputs == 1 && net.channels != 1 && net.channels != 3
  {
    if net.numInputs != 1 then Some(InputCountNotOne)
    else if net.numOutputs != 1 then Some(OutputCountNotOne)
    else if net.channels != 3 && net.channels != 1 then Some(ChannelsNotOneOrThree)
    else None
  }

  /** The input image as Preprocess sees it. */
  datatype ImageShape = ImageShape(channels: nat, rows: nat, cols: nat)

  /** The ways Preprocess stops the program, in the order they can occur. */
  datatype PreprocessError =
    | ConversionOfEmptyImage    // cvtColor rejects an empty source image
    | ResizeOfEmptySize         // resize rejects an empty source or target size
    | SingleChannelUnsupported  // the fatal log of the 1-channel branch
    | EmptySample               // subtract of an empty sample against the mean image
    | MeanChannelMismatch       // subtract of a sample whose channel count is not the mean's 3

  /** What Preprocess does to the image before the mean is subtracted. */
  datatype SamplePlan = SamplePlan(conversion: Option<ColorConversion>, channels: nat, resized: bool)

  /** An image with no pixels, such as the one imread returns on failure. */
  predicate IsEmpty(img: ImageShape) {
    img.rows == 0 || img.cols == 0
  }

  /** The decisions of Segmentation::Preprocess: the colour conversion, the
      resize when the size differs from the input geometry, the gate that
      lets only 3-channel networks reach the float conversion, and the mean
      subtraction, which needs a non-empty 3-channel sample. The conversion
      keeps the image's size, and the resize produces the input geometry. */
  function PlanPreprocess(img: ImageShape, netChannels: nat, height: nat, width: nat)
    : (r: Result<SamplePlan, PreprocessError>)
    ensures r.Success? ==> netChannels == 3 && r.value.channels == 3
    ensures r.Success? ==> r.value.conversion == SelectConversion(img.channels, netChannels)
    ensures r.Success? ==> !IsEmpty(img) && height > 0 && width > 0
  {
    var conversion := SelectConversion(img.channels, netChannels);
    var resized := img.rows != height || img.cols != width;
    if conversion.Some? && IsEmpty(img) then Failure(ConversionOfEmptyImage)
    else if resized && (IsEmpty(img) || height == 0 || width == 0) then Failure(ResizeOfEmptySize)
    else if netChannels != 3 then Failure(SingleChannelUnsupported)
    else if IsEmpty(img) then Failure(EmptySample)
    else if ConvertedChannels(img.channels, netChannels) != 3 then Failure(MeanChannelMismatch)
    else Success(SamplePlan(conversion, ConvertedChannels(img.channels, netChannels), resized))
  }

  /** Of the networks the constructor accepts, only 3-channel ones get
      through preprocessing. For a non-empty image and input geometry, a
      3-channel network accepts every 1-, 3- or 4-channel image, and a
      1-channel network always stops at the unsupported branch. */
  lemma OnlyThreeChannelNetworksSegment(net: NetworkShape, img: ImageShape)
    requires CheckNetwork(net) == None
    ensures var r := PlanPreprocess(img, net.channels as nat, net.height, net.width);
      && (r.Success? ==> net.channels == 3)
      && ((net.channels == 3 && (img.channels == 1 || img.channels == 3 || img.channels == 4) &&
           !IsEmpty(img) && net.height > 0 && net.width > 0) ==> r.Success?)
      && (net.channels == 1 && !IsEmpty(img) && net.height > 0 && net.width > 0 ==>
            r == Failure(SingleChannelUnsupported))
  {
    if net.channels == 3 && (img.channels == 1 || img.channels == 3 || img.channels == 4) {
      ConversionReachesNetworkChannels(img.channels, 3);
    }
  }

  /** For a 3-channel network and non-empty sizes, an image is refused
      exactly when its channel count is not 1, 3 or 4: no conversion
      applies, and its channels do not match the 3-channel mean. */
  lemma OtherChannelCountsRejected(img: ImageShape, height: nat, width: nat)
    requires !IsEmpty(img) && height > 0 && width > 0
    ensures PlanPreprocess(img, 3, height, width) == Failure(MeanChannelMismatch) <==>
      !(img.channels == 1 || img.channels == 3 || img.channels == 4)
  {
    if img.channels == 1 || img.channels == 3 || img.channels == 4 {
      ConversionReachesNetworkChannels(img.channels, 3);
    }
  }

  /** The order in which Classify's nested loops visit the mask. */
  function RowMajor(rows: nat, cols: nat): (order: seq<(nat, nat)>)
    ensures |order| == rows * cols
  {
    if rows == 0 then []
    else
      assert (rows - 1) * cols + cols == rows * cols;
      RowMajor(rows - 1, cols) + RowVisits(rows - 1, cols)
  }

  /** The first `count` cells of one row, left to right. */
  function RowVisits(row: nat, count: nat): (order: seq<(nat, nat)>)
    ensures |order| == count
  {
    seq(count, c requires 0 <= c => (row, c as nat))
  }

  /** Every visit is to a cell of the grid, at its row-major position. */
  lemma {:induction false} RowMajorEntries(rows: nat, cols: nat, k: int)
    requires 0 <= k < rows * cols
    ensures RowMajor(rows, cols)[k].0 < rows && RowMajor(rows, cols)[k].1 < cols
    ensures k == RowMajor(rows, cols)[k].0 * cols + RowMajor(rows, cols)[k].1
  {
    var front := (rows - 1) * cols;
    assert front + cols == rows * cols;
    if k < front {
      RowMajorEntries(rows - 1, cols, k);
    }
  }

  /** Cell (r, c) is visited at position r * cols + c. */
  lemma {:induction false} RowMajorPosition(rows: nat, cols: nat, r: nat, c: nat)
    requires r < rows && c < cols
    ensures r * cols + c < rows * cols
    ensures RowMajor(rows, cols)[r * cols + c] == (r, c)
  {
    var front := (rows - 1) * cols;
    assert front + cols == rows * cols;
    if r < rows - 1 {
      RowMajorPosition(rows - 1, cols, r, c);
      MulMonotone(r + 1, rows - 1, cols);
    } else {
      assert r * cols == front;
    }
  }

  /** Classify writes each mask cell exactly once: at position r * cols + c
      of its visiting order and at no other. */
  lemma RowMajorVisitsOnce(rows: nat, cols: nat, r: nat, c: nat)
    requires r < rows && c < cols
    ensures forall k :: 0 <= k < rows * cols ==>
      (RowMajor(rows, cols)[k] == (r, c) <==> k == r * cols + c)
  {
    RowMajorPosition(rows, cols, r, c);
    forall k | 0 <= k < rows * cols
      ensures RowMajor(rows, cols)[k] == (r, c) ==> k == r * cols + c
    {
      RowMajorEntries(rows, cols, k);
    }
  }

  /** The class ids Classify can produce for score vectors of `classes`
      entries are all valid indices into a colormap of at least that many
      entries (the source does not check this itself). */
  lemma ColormapCoversClasses(labels: seq<Bgr>, scores: seq<real>, classes: nat)
    requires |scores| == classes && 1 <= classes <= |labels|
    ensures FirstMax(scores) < |labels|
  {
  }

  class Segmentation {
    /** num_channels_, the input blob's channel count. */
    const numChannels: nat
    /** input_geometry_. */
    const height: nat
    const width: nat
    /** The data of the network's input blob, shaped 1 x numChannels x height x width. */
    const input: array<real>
    /** labels_: the colormap, indexed by class id. */
    var labels: seq<Bgr>

    predicate Valid() {
      input.Length == numChannels * (height * width)
    }

    /** The network checks and the colormap loader. The network's shape
        stands for the loaded network; `lines` are the colormap file's lines
        in file order, already read as 8-bit red, green, blue. */
    constructor (net: NetworkShape, lines: seq<Rgb>)
      requires CheckNetwork(net) == None
      ensures Valid() && fresh(input)
      ensures numChannels == net.channels && height == net.height && width == net.width
      ensures |labels| == |lines|
      ensures forall i :: 0 <= i < |lines| ==> labels[i] == Swizzle(lines[i])
    {
      numChannels := net.channels as nat;
      height := net.height;
      width := net.width;
      input := new real[net.channels as nat * (net.height * net.width)];
      new;
      labels := [];
      var i := 0;
      while i < |lines|
        invariant 0 <= i <= |lines|
        invariant |labels| == i
        invariant forall j :: 0 <= j < i ==> labels[j] == Swizzle(lines[j])
      {
        labels := labels + [Swizzle(lines[i])];
        i := i + 1;
      }
    }

    /** One plane header per input channel, over the input blob. */
    method WrapInputLayer() returns (planes: seq<Plane>)
      requires Valid()
      ensures planes == Layout(numChannels, height, width)
      ensures numChannels > 0 ==> planes[0].offset == 0
      ensures forall i :: 0 <= i < numChannels ==> planes[i].End() <= input.Length
    {
      planes := WrapPlanes(numChannels, height, width);
      LayoutWithinBlob(numChannels, height, width);
    }

    /** Preprocess over the wrapped planes. `normalized` stands for the
        mean-subtracted sample split into its channels, which the image
        library computes. On success the split wrote the input blob through
        the planes, and the first plane starts at the blob's data, so the
        aliasing check cannot fail. */
    method Preprocess(img: ImageShape, planes: seq<Plane>, normalized: seq<seq<real>>)
      returns (r: Result<SamplePlan, PreprocessError>)
      requires Valid()
      requires planes == Layout(numChannels, height, width)
      requires |normalized| == numChannels
      requires forall c :: 0 <= c < |normalized| ==> |normalized[c]| == height * width
      modifies input
      ensures r == PlanPreprocess(img, numChannels, height, width)
      ensures r.Success? ==> input[..] == Flatten(normalized) && planes[0].offset == 0
      ensures r.Failure? ==> input[..] == old(input[..])
    {
      r := PlanPreprocess(img, numChannels, height, width);
      if r.Success? {
        StoreChannels(input, planes, normalized, height, width);
        LayoutWithinBlob(numChannels, height, width);
      }
    }

    /** Predict up to the forward pass: wrap the input layer, then preprocess
        into it. Plane c of the input blob then holds channel c of the sample. */
    method Predict(img: ImageShape, normalized: seq<seq<real>>)
      returns (r: Result<SamplePlan, PreprocessError>)
      requires Valid()
      requires |normalized| == numChannels
      requires forall c :: 0 <= c < |normalized| ==> |normalized[c]| == height * width
      modifies input
      ensures r == PlanPreprocess(img, numChannels, height, width)
      ensures r.Success? ==> forall c :: 0 <= c < numChannels ==>
        input[c * (height * width) .. c * (height * width) + height * width] == normalized[c]
      ensures r.Failure? ==> input[..] == old(input[..])
    {
      var planes := WrapInputLayer();
      r := Preprocess(img, planes, normalized);
      if r.Success? {
        forall c | 0 <= c < numChannels
          ensures input[c * (height * width) .. c * (height * width) + height * width] == normalized[c]
        {
          FlattenReadBack(normalized, height * width, c);
        }
      }
    }

    /** The per-pixel arg-max and colour lookup over the score map resized to
        the input geometry. `written` records the cells in the order the mask
        is written. */
    method Classify(scores: array2<seq<real>>) returns (mask: array2<Bgr>, ghost written: seq<(nat, nat)>)
      requires scores.Length0 == height && scores.Length1 == width
      requires forall row, col :: 0 <= row < height && 0 <= col < width ==>
        FirstMax(scores[row, col]) < |labels|
      ensures fresh(mask)
      ensures mask.Length0 == height && mask.Length1 == width
      ensures forall row, col :: 0 <= row < height && 0 <= col < width ==>
        mask[row, col] == labels[FirstMax(scores[row, col])]
      ensures written == RowMajor(height, width)
    {
      mask := new Bgr[height, width];
      written := [];
      var row := 0;
      while row < height
        invariant 0 <= row <= height
        invariant written == RowMajor(row, width)
        invariant forall r, c :: 0 <= r < row && 0 <= c < width ==>
          mask[r, c] == labels[FirstMax(scores[r, c])]
      {
        var col := 0;
        while col < width
          invariant 0 <= col <= width
          invariant written == RowMajor(row, width) + RowVisits(row, col)
          invariant forall r, c :: 0 <= r < row && 0 <= c < width ==>
            mask[r, c] == labels[FirstMax(scores[r, c])]
          invariant forall c :: 0 <= c < col ==> mask[row, c] == labels[FirstMax(scores[row, c])]
        {
          var classId := MaxElement(scores[row, col]);
          mask[row, col] := labels[classId];
          written := written + [(row, col)];
          col := col + 1;
        }
        row := row + 1;
      }
    }
  }

  /** Two classes coloured red and green in the colormap file; channel 0
      wins at the left pixel and channel 1 at the right one. */
  method TwoClassScenario()
  {
    var s := new Segmentation(NetworkShape(1, 1, 3, 1, 2), [Rgb(255, 0, 0), Rgb(0, 255, 0)]);
    var scores := new seq<real>[1, 2];
    scores[0, 0] := [0.9, 0.1];
    scores[0, 1] := [0.2, 0.8];
    assert FirstMax(scores[0, 0]) == 0;
    assert FirstMax(scores[0, 1]) == 1;
    ghost var order;
    var mask;
    mask, order := s.Classify(scores);
    assert mask[0, 0] == Bgr(0, 0, 255);
    assert mask[0, 1] == Bgr(0, 255, 0);
  }
}
