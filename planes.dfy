/** Channel-major blob storage cut into per-channel planes, as
    Segmentation::WrapInputLayer does for the input blob and the first loop
    of Segmentation::Classify does for the score blob: a pointer starts at the
    blob's data and advances by one plane size per channel. */
module Planes {

  /** A single-channel cv::Mat header over a flat float buffer: it views the
      rows * cols consecutive values that start at `offset`. */
  datatype Plane = Plane(offset: nat, rows: nat, cols: nat) {
    function Size(): nat { rows * cols }
    function End(): nat { offset + Size() }
    predicate Contains(o: int) { offset <= o < End() }
  }

  /** Where plane i of a channels x height x width blob lies. */
  function Layout(channels: nat, height: nat, width: nat): (planes: seq<Plane>)
    ensures |planes| == channels
  {
    seq(channels, i requires 0 <= i => Plane(i * (height * width), height, width))
  }

  /** The pointer-advancing loop that builds the plane headers. */
  method WrapPlanes(channels: nat, height: nat, width: nat) returns (planes: seq<Plane>)
    ensures planes == Layout(channels, height, width)
  {
    planes := [];
    var data: nat := 0;
    var i := 0;
    while i < channels
      invariant 0 <= i <= channels
      invariant data == i * (height * width)
      invariant planes == Layout(i, height, width)
    {
      planes := planes + [Plane(data, height, width)];
      data := data + width * height;
      i := i + 1;
    }
  }

  lemma MulMonotone(a: nat, b: nat, n: nat)
    requires a <= b
    ensures a * n <= b * n
  {
    var d := b - a;
    assert b * n == a * n + d * n;
  }

  /** Every plane lies inside the blob, the first one starts at the blob's
      own data pointer (the aliasing the preprocessing step checks) and the
      last one ends exactly at the blob's end. */
  lemma LayoutWithinBlob(channels: nat, height: nat, width: nat)
    ensures forall i :: 0 <= i < channels ==>
      Layout(channels, height, width)[i].End() <= channels * (height * width)
    ensures channels > 0 ==> Layout(channels, height, width)[0].offset == 0
    ensures channels > 0 ==>
      Layout(channels, height, width)[channels - 1].End() == channels * (height * width)
  {
  }

  /** Distinct planes share no element of the blob. */
  lemma LayoutDisjoint(channels: nat, height: nat, width: nat, i: int, j: int, o: int)
    requires 0 <= i < channels && 0 <= j < channels && i != j
    ensures !(Layout(channels, height, width)[i].Contains(o) &&
              Layout(channels, height, width)[j].Contains(o))
  {
    var n := height * width;
    if i < j {
      MulMonotone(i + 1, j, n);
      assert (i + 1) * n == i * n + n;
    } else {
      MulMonotone(j + 1, i, n);
      assert (j + 1) * n == j * n + n;
    }
  }

  /** Every element of the blob belongs to a plane, and to only one. */
  lemma {:induction false} LayoutCovers(channels: nat, height: nat, width: nat, o: int)
    requires 0 <= o < channels * (height * width)
    ensures exists i :: 0 <= i < channels && Layout(channels, height, width)[i].Contains(o)
    ensures forall i, j ::
      (0 <= i < channels && 0 <= j < channels &&
       Layout(channels, height, width)[i].Contains(o) &&
       Layout(channels, height, width)[j].Contains(o)) ==> i == j
  {
    var n := height * width;
    assert channels > 0;
    assert (channels - 1) * n + n == channels * n;
    if o < (channels - 1) * n {
      LayoutCovers(channels - 1, height, width, o);
      var i :| 0 <= i < channels - 1 && Layout(channels - 1, height, width)[i].Contains(o);
      assert Layout(channels, height, width)[i] == Layout(channels - 1, height, width)[i];
    } else {
      assert Layout(channels, height, width)[channels - 1].Contains(o);
    }
    forall i, j | 0 <= i < channels && 0 <= j < channels &&
      Layout(channels, height, width)[i].Contains(o) &&
      Layout(channels, height, width)[j].Contains(o)
      ensures i == j
    {
      if i != j {
        LayoutDisjoint(channels, height, width, i, j, o);
      }
    }
  }

  /** The blob contents when plane i holds channels[i]: the planes laid end
      to end, which is the channel-major layout of the blob. */
  function Flatten(channels: seq<seq<real>>): seq<real>
  {
    if |channels| == 0 then [] else Flatten(channels[..|channels| - 1]) + channels[|channels| - 1]
  }

  lemma {:induction false} FlattenLength(channels: seq<seq<real>>, n: nat)
    requires forall i :: 0 <= i < |channels| ==> |channels[i]| == n
    ensures |Flatten(channels)| == |channels| * n
  {
    if |channels| > 0 {
      FlattenLength(channels[..|channels| - 1], n);
      assert (|channels| - 1) * n + n == |channels| * n;
    }
  }

  /** Reading plane i back out of the blob gives channel i again. */
  lemma {:induction false} FlattenReadBack(channels: seq<seq<real>>, n: nat, i: int)
    requires forall c :: 0 <= c < |channels| ==> |channels[c]| == n
    requires 0 <= i < |channels|
    ensures i * n + n <= |Flatten(channels)|
    ensures Flatten(channels)[i * n .. i * n + n] == channels[i]
  {
    var last := |channels| - 1;
    var front := channels[..last];
    FlattenLength(front, n);
    FlattenLength(channels, n);
    assert Flatten(channels) == Flatten(front) + channels[last];
    if i == last {
      assert Flatten(channels)[i * n .. i * n + n] == channels[last];
    } else {
      FlattenReadBack(front, n, i);
      MulMonotone(i + 1, last, n);
      assert (i + 1) * n == i * n + n;
      assert Flatten(channels)[i * n .. i * n + n] == Flatten(front)[i * n .. i * n + n];
    }
  }

  /** Writing a channel image through a plane header writes the blob: the
      plane's range of the buffer now holds the image and nothing else moved. */
  method WritePlane(buf: array<real>, p: Plane, values: seq<real>)
    requires |values| == p.Size() && p.End() <= buf.Length
    modifies buf
    ensures buf[..] == old(buf[..])[..p.offset] + values + old(buf[..])[p.End()..]
  {
    var k := 0;
    while k < |values|
      invariant 0 <= k <= |values|
      invariant buf[..] == old(buf[..])[..p.offset] + values[..k] + old(buf[..])[p.offset + k..]
    {
      buf[p.offset + k] := values[k];
      k := k + 1;
    }
  }

  /** cv::split of the normalized sample into the wrapped planes: channel c
      goes through plane c. Afterwards the blob holds the channels in
      channel-major order, exactly what writing the blob directly would give. */
  method StoreChannels(buf: array<real>, planes: seq<Plane>, channels: seq<seq<real>>, height: nat, width: nat)
    requires planes == Layout(|channels|, height, width)
    requires forall c :: 0 <= c < |channels| ==> |channels[c]| == height * width
    requires buf.Length == |channels| * (height * width)
    modifies buf
    ensures buf[..] == Flatten(channels)
  {
    var n := height * width;
    LayoutWithinBlob(|channels|, height, width);
    var i := 0;
    while i < |channels|
      invariant 0 <= i <= |channels|
      invariant |Flatten(channels[..i])| == i * n
      invariant buf[..] == Flatten(channels[..i]) + old(buf[..])[i * n..]
    {
      assert planes[i].offset == i * n && planes[i].End() == i * n + n;
      WritePlane(buf, planes[i], channels[i]);
      assert channels[..i + 1][..i] == channels[..i];
      assert Flatten(channels[..i + 1]) == Flatten(channels[..i]) + channels[i];
      assert (i + 1) * n == i * n + n;
      assert buf[..] == Flatten(channels[..i + 1]) + old(buf[..])[(i + 1) * n..];
      i := i + 1;
    }
    assert channels[..|channels|] == channels;
  }
}
