/**
 * DataContainer: the state the camera helper and the renderer share, and the
 * aspect-ratio rule both of them use.
 */
module SharedState {
  import opened Gles

  /** The smaller of two sizes. */
  function Min(a: int, b: int): int {
    if a <= b then a else b
  }

  /**
   * The pair `(min(w, h) / w, min(w, h) / h)`: the shorter side maps to 1 and
   * the longer one to the fraction the shorter side is of it.
   */
  function AspectRatio(width: int, height: int): (r: (real, real))
    requires width > 0 && height > 0
    ensures 0.0 < r.0 <= 1.0 && 0.0 < r.1 <= 1.0
    ensures r.0 == 1.0 || r.1 == 1.0
    ensures r.0 * width as real == Min(width, height) as real
    ensures r.1 * height as real == Min(width, height) as real
    ensures width <= height ==> r.0 == 1.0
    ensures height <= width ==> r.1 == 1.0
  {
    var m := Min(width, height) as real;
    (m / width as real, m / height as real)
  }

  class DataContainer {
    /** Preview aspect ratio: two floats, written in place by the camera helper. */
    const aspectRatioPreview: array<real>
    /** Filter values, read by the renderer as shader uniforms. */
    var brightness: real
    var contrast: real
    var saturation: real
    var cornerRadius: real
    /** Device orientation in degrees. */
    var orientationDevice: int
    /** Camera orientation matrix. */
    var orientationM: Matrix

    ghost predicate Valid()
      reads this
    {
      aspectRatioPreview.Length == 2
    }

    constructor ()
      ensures Valid() && fresh(aspectRatioPreview)
      ensures aspectRatioPreview[..] == [0.0, 0.0]
      ensures brightness == 0.0 && contrast == 0.0 && saturation == 0.0 && cornerRadius == 0.0
      ensures orientationDevice == 0 && orientationM == Zero
    {
      aspectRatioPreview := new real[2](_ => 0.0);
      brightness, contrast, saturation, cornerRadius := 0.0, 0.0, 0.0, 0.0;
      orientationDevice := 0;
      orientationM := Zero;
    }
  }
}
