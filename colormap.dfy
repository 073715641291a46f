/** Colormap entries: one line per class, stored as a cv::Vec3b in
    blue, green, red order. */
module Colormap {

  newtype byte = x: int | 0 <= x < 256

  /** A colormap line, already scaled to 8-bit components, in the file's
      red, green, blue order. */
  datatype Rgb = Rgb(r: byte, g: byte, b: byte)

  /** A mask pixel / label entry in OpenCV's blue, green, red order. */
  datatype Bgr = Bgr(b: byte, g: byte, r: byte)

  /** `cv::Vec3b pix(b, g, r)` built from a line read as r, g, b. */
  function Swizzle(line: Rgb): (pix: Bgr)
    ensures Unswizzle(pix) == line
  {
    Bgr(line.b, line.g, line.r)
  }

  /** Reading the stored entry back in file order recovers the line. */
  function Unswizzle(pix: Bgr): Rgb
  {
    Rgb(pix.r, pix.g, pix.b)
  }

  lemma SwizzleRoundTrip(line: Rgb, pix: Bgr)
    ensures Unswizzle(Swizzle(line)) == line
    ensures Swizzle(Unswizzle(pix)) == pix
  {
  }
}
