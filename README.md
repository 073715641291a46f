# Verified model of the Caffe C++ segmentation example

`caffe/examples/cpp_segmentation/segmentation.cpp` loads a segmentation
network and a colormap, feeds one image through the network and writes a
colour-coded class mask next to the image. Almost all of it calls the
network runtime and OpenCV. This project models the sequential logic around
those calls and proves what it promises:

- `argmax.dfy` (module `ArgMax`): the `std::max_element` call that picks a
  pixel's class. The chosen index holds a largest score, and on a tie the
  lowest channel wins.
- `planes.dfy` (module `Planes`): the pointer-advancing loop in
  `WrapInputLayer`, and the same loop at the start of `Classify`. It cuts a
  channel-major blob of `C*H*W` floats into `C` plane headers. Plane `i`
  covers offsets `[i*H*W, (i+1)*H*W)`. The planes are pairwise disjoint and
  cover the blob, and plane 0 starts at the blob's data pointer. The module
  also models `cv::split` writing the sample into those planes: the blob then
  holds the channels in channel-major order, and reading plane `i` back gives
  channel `i`.
- `conversion.dfy` (module `Conversion`): the `cvtColor` dispatch in
  `Preprocess`. It is checked against an independent table of what each
  conversion code reads and writes.
- `colormap.dfy` (module `Colormap`): colormap entries. A line is read in
  red, green, blue order and stored as `cv::Vec3b` in blue, green, red order.
- `segmentation.dfy` (module `SegmentationModel`): the `Segmentation` class.
  - The constructor's network checks and its label-loading loop.
  - `WrapInputLayer`.
  - `Preprocess`: which conversion and resize happen, the gate that only a
    3-channel network passes, the points where the image library refuses
    the sample (an empty image, a sample whose channel count differs from
    the 3-channel mean), and the write-through into the input blob.
  - `Predict` up to the forward pass.
  - `Classify`'s nested loops, which fill a freshly allocated mask.
- `cli.dfy` (module `Cli`): `main`'s argument-count guard and the output
  name. The name inserts `_seg` before the last `.` of the image name.
- `wrappers.dfy` (module `Wrappers`): `Option` and `Result`. They stand for
  the program's fatal checks and for the `std::out_of_range` that `substr`
  throws.

Scores are modelled as `real`. Fatal `CHECK`s become preconditions or error
values; they never terminate a process. Network shapes, image shapes and
colormap lines are parameters, because the runtime and the files produce
them. The output name is reproduced as written. When the only `.` is in a
directory name, `_seg` lands in that directory name (`run.1/img` becomes
`run_seg.1/img`).

## Model

| member | source | states |
|---|---|---|
| `ArgMax.FirstMax` | caffe/examples/cpp_segmentation/segmentation.cpp:136-137 | on a non-empty score vector the class id holds a score at least every other score, and every earlier channel scores strictly less; on an empty vector it is 0 (the end iterator) |
| `ArgMax.MaxElement` | caffe/examples/cpp_segmentation/segmentation.cpp:136-137 | the scan that moves only to a strictly larger element returns the first maximum |
| `ArgMax.FirstMaxUnique` | caffe/examples/cpp_segmentation/segmentation.cpp:136-137 | any index that is a first maximum is the one reported, so the first-maximum property fixes the class id |
| `ArgMax.TieGoesToLowerChannel` | caffe/examples/cpp_segmentation/segmentation.cpp:136-137 | when two channels share a score, the later one is never chosen |
| `Planes.WrapPlanes` | caffe/examples/cpp_segmentation/segmentation.cpp:170-177 | advancing the data pointer by `width*height` once per channel yields plane `i` at offset `i*H*W` with `H` rows and `W` columns, one per channel |
| `Planes.LayoutWithinBlob` | caffe/examples/cpp_segmentation/segmentation.cpp:170-177 | every plane ends inside the `C*H*W` blob, plane 0 starts at the blob's data and the last plane ends exactly at the blob's end |
| `Planes.LayoutDisjoint` | caffe/examples/cpp_segmentation/segmentation.cpp:173-177 | two different planes share no offset |
| `Planes.LayoutCovers` | caffe/examples/cpp_segmentation/segmentation.cpp:173-177 | every offset of the blob lies in exactly one plane |
| `Planes.FlattenLength` | caffe/examples/cpp_segmentation/segmentation.cpp:173-177 | `C` planes of `H*W` values fill exactly `C*H*W` blob entries |
| `Planes.FlattenReadBack` | caffe/examples/cpp_segmentation/segmentation.cpp:213-216 | in the channel-major blob, the range of plane `i` holds channel `i` |
| `Planes.WritePlane` | caffe/examples/cpp_segmentation/segmentation.cpp:213-216 | writing an image through a plane header changes exactly that plane's range of the blob, which then holds the image |
| `Planes.StoreChannels` | caffe/examples/cpp_segmentation/segmentation.cpp:213-216 | splitting the sample into the wrapped planes leaves the blob equal to the channels laid out channel-major, as a direct write would |
| `Conversion.SelectConversion` | caffe/examples/cpp_segmentation/segmentation.cpp:184-193 | a chosen conversion reads the image's channel count and writes the network's; equal channel counts choose none |
| `Conversion.SelectionMatchesEndpoints` | caffe/examples/cpp_segmentation/segmentation.cpp:184-193 | the dispatch picks conversion `k` exactly when `k` reads the image's channel count and writes the network's (3→1 BGR2GRAY, 4→1 BGRA2GRAY, 4→3 BGRA2BGR, 1→3 GRAY2BGR); otherwise the image is used as is |
| `Conversion.ConversionReachesNetworkChannels` | caffe/examples/cpp_segmentation/segmentation.cpp:184-193 | for a 1-, 3- or 4-channel image and a 1- or 3-channel network, the converted sample has the network's channel count |
| `Colormap.Swizzle` | caffe/examples/cpp_segmentation/segmentation.cpp:104 | the stored entry read back in r, g, b order is the colormap line, so `Vec3b(b, g, r)` keeps each component in its own slot |
| `Colormap.SwizzleRoundTrip` | caffe/examples/cpp_segmentation/segmentation.cpp:104 | storing a line as (b, g, r) loses nothing: reading the entry back in r, g, b order gives the line, and the other way round |
| `SegmentationModel.CheckNetwork` | caffe/examples/cpp_segmentation/segmentation.cpp:83-89 | a network passes exactly when it has one input, one output and 1 or 3 input channels; otherwise the first failing check in source order is reported: input count, then output count, then channels |
| `SegmentationModel.PlanPreprocess` | caffe/examples/cpp_segmentation/segmentation.cpp:184-211 | a successful plan belongs to a 3-channel network, its sample after the dispatched conversion really has 3 channels, and both the image and the input geometry are non-empty; an empty image is refused by the conversion, the resize or the mean subtraction, whichever it reaches first |
| `SegmentationModel.OnlyThreeChannelNetworksSegment` | caffe/examples/cpp_segmentation/segmentation.cpp:201-208 | of the accepted networks only 3-channel ones get through preprocessing; with non-empty image and geometry, a 3-channel network accepts every 1-, 3- or 4-channel image and a 1-channel network always stops at the unsupported branch |
| `SegmentationModel.OtherChannelCountsRejected` | caffe/examples/cpp_segmentation/segmentation.cpp:188-211 | for a 3-channel network and non-empty sizes, the mean subtraction refuses the sample exactly when the image's channel count is not 1, 3 or 4 |
| `SegmentationModel.RowMajorEntries` | caffe/examples/cpp_segmentation/segmentation.cpp:131-132 | every cell the row/column loops visit lies in the grid, and the `k`-th visit is the cell `(r, c)` with `k == r*W + c` |
| `SegmentationModel.RowMajorPosition` | caffe/examples/cpp_segmentation/segmentation.cpp:131-132 | cell `(r, c)` of an `H×W` grid is visited, at position `r*W + c` |
| `SegmentationModel.RowMajorVisitsOnce` | caffe/examples/cpp_segmentation/segmentation.cpp:130-139 | each mask cell is visited, and so written, exactly once |
| `SegmentationModel.ColormapCoversClasses` | caffe/examples/cpp_segmentation/segmentation.cpp:136-138 | with at least as many colormap entries as score channels (and at least one channel), every chosen class id indexes the colormap |
| `SegmentationModel.Segmentation.constructor` | caffe/examples/cpp_segmentation/segmentation.cpp:83-106 | an accepted network fixes the channel count and input geometry; label `i` is line `i` of the colormap with its components stored as (b, g, r) |
| `SegmentationModel.Segmentation.WrapInputLayer` | caffe/examples/cpp_segmentation/segmentation.cpp:167-178 | one plane header per input channel, in channel-major layout over the input blob; plane 0 starts at the blob's data |
| `SegmentationModel.Segmentation.Preprocess` | caffe/examples/cpp_segmentation/segmentation.cpp:180-221 | the outcome is the plan of `PlanPreprocess`, or the error where the source aborts (empty image or geometry, 1-channel network, channel count other than the mean's); on success the blob holds the normalized channels channel-major and plane 0 aliases the blob, so the check at the end holds; on failure the blob is untouched |
| `SegmentationModel.Segmentation.Predict` | caffe/examples/cpp_segmentation/segmentation.cpp:144-154 | after wrapping and preprocessing, input-blob plane `c` holds channel `c` of the normalized sample |
| `SegmentationModel.Segmentation.Classify` | caffe/examples/cpp_segmentation/segmentation.cpp:129-141 | the fresh `H×W` mask holds at `(row, col)` the colormap entry of the first maximum of that pixel's scores, and the cells are written in row-major order |
| `Cli.ParseArgs` | caffe/examples/cpp_segmentation/segmentation.cpp:226-239 | succeeds exactly with five argv entries and then holds exactly those arguments; otherwise returns status 1 |
| `Cli.LastIndexOf` | caffe/examples/cpp_segmentation/segmentation.cpp:248 | `npos` exactly when the character is absent; otherwise an index of it with no occurrence after |
| `Cli.LastIndexOfUnique` | caffe/examples/cpp_segmentation/segmentation.cpp:248 | an occurrence with none after it is the one `find_last_of` reports |
| `Cli.SegFileName` | caffe/examples/cpp_segmentation/segmentation.cpp:248-249 | a name exists exactly when the image name has a `.` (else `substr(npos)` throws) and is 4 characters longer |
| `Cli.SegFileNameLastDot` | caffe/examples/cpp_segmentation/segmentation.cpp:248-249 | the output's last `.` is the input's last `.`, shifted by the inserted `_seg` |
| `Cli.SegFileNameKeepsExtension` | caffe/examples/cpp_segmentation/segmentation.cpp:248-249 | the output name has the same extension as the image name |
| `Cli.SegFileNameRoundTrip` | caffe/examples/cpp_segmentation/segmentation.cpp:248-249 | removing the `_seg` before the output's last `.` gives back the image name |

## Left out

- Network loading, `CopyTrainedLayersFrom`, `Reshape`, `Forward` and `blob_by_name("conv_score")` (:80-81, :146-158) are calls into the network runtime. The network is reduced to its input/output counts and input blob shape; the input blob's data is an array the class owns.
- GPU/CPU selection (`get_gpus`, `FLAGS_GPU`, the `CPU_ONLY` abort, :45-77) is process-wide runtime configuration and is not modelled.
- OpenCV numerics are not modelled: `cvtColor` pixel arithmetic, `resize` interpolation, `convertTo`, the subtraction of the (104, 117, 123) mean, and `cv::merge` of the score planes (:93, :126-127, :185-211). Only which conversion and whether a resize happen are modelled. `Classify` takes the score map already resized to the input geometry.
- `SegmentationModel.Segmentation.Preprocess`: the normalized sample's pixel values come from the image library, so they are a parameter. It must have the network's channel count and plane size. That is the shape of every sample `PlanPreprocess` lets through: 3 channels, resized to the input geometry. Under that requirement the aliasing check at :218-220 is proved to hold. The case where `cv::split` reallocates the planes and the check aborts is not modelled.
- The image library's refusals (`cvtColor` and `resize` of an empty image, `resize` to an empty geometry, `subtract` of an empty sample or of operands with different channel counts) are modelled as `PreprocessError` values. The exception mechanics are not modelled.
- `SegmentationModel.Segmentation.Classify`: requires that every chosen class id indexes the colormap. The source does no bounds check, and a larger class id is undefined behaviour in C++. `SegmentationModel.ColormapCoversClasses` gives the sufficient condition.
- The colormap parser's `istringstream` float reading and the `int(c*255)` conversion to 8 bits (:101-104) are floating-point; colormap lines enter the model as 8-bit red, green, blue values. Failing to open the colormap file (:96-97) is file I/O.
- Scores are `real`, so the NaN ordering of floats, where `<` is not a total order, is not modelled.
- File and console I/O (`imread`, `imwrite`, logging, the usage message text) is left out. `main`'s sequence of constructing the wrapper, classifying and writing the file is not modelled as one operation: only its guard and the output name are.
- `ParseCommandLineFlags` (:225) removing flags from argv is the flag library's work; `Cli.ParseArgs` receives argv after it.
