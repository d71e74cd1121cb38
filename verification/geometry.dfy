/** The detector's output as the tracker sees it: an axis-aligned rectangle
    in frame coordinates and a recognition carrying a label, a score and an
    optional location. */
module Geometry {
  import opened Wrappers

  /** A rectangle given by its edges, as Android's `RectF`. */
  datatype Rect = Rect(left: real, top: real, right: real, bottom: real) {

    function Width(): real { right - left }

    function Height(): real { bottom - top }

    function CenterX(): real { (left + right) / 2.0 }

    function CenterY(): real { (top + bottom) / 2.0 }

    function Area(): real { Width() * Height() }
  }

  /** One detection; `location` is `None` where the detector left it null. */
  datatype Recognition = Recognition(title: string, confidence: real, location: Option<Rect>)

  predicate IsLocated(r: Recognition) { r.location.Some? }
}
