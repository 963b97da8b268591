/** Images as rectangular arrays of pixels. A pixel value stands for a BGR
    triple; the value 0 is the all-zero (black) pixel that `np.zeros` produces. */
module Raster {

  type Pixel = int

  datatype Image = Image(rows: seq<seq<Pixel>>) {
    /** A captured frame: at least one row and column, all rows of one width. */
    predicate Valid() {
      |rows| > 0 && |rows[0]| > 0 && forall r :: 0 <= r < |rows| ==> |rows[r]| == |rows[0]|
    }

    function Height(): nat { |rows| }

    function Width(): nat { if |rows| == 0 then 0 else |rows[0]| }
  }

  /** What a camera read delivers: a rectangular, nonempty image. */
  type Frame = im: Image | im.Valid() witness Image([[0]])
}
