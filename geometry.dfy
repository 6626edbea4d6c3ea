/**
 * Core Graphics values used by the layout code: points, sizes, rectangles,
 * edge insets, and colours and fonts as opaque values.
 */
module Geometry {

  datatype Point = Point(x: real, y: real)

  datatype Size = Size(width: real, height: real)

  /**
   * A `CGRect` as stored (origin and possibly negative size). The accessor
   * functions below standardize, like `CGRect.width`, `height` and `maxX`.
   */
  datatype Rect = Rect(x: real, y: real, width: real, height: real) {

    function Width(): (w: real)
      ensures w >= 0.0 && (w == width || w == -width)
    {
      if width >= 0.0 then width else -width
    }

    function Height(): (h: real)
      ensures h >= 0.0 && (h == height || h == -height)
    {
      if height >= 0.0 then height else -height
    }

    /** The largest x coordinate covered by the rectangle. */
    function MaxX(): (m: real)
      ensures m >= x && m >= x + width && (m == x || m == x + width)
    {
      if width >= 0.0 then x + width else x
    }
  }

  const ZeroPoint: Point := Point(0.0, 0.0)
  const UnitPoint: Point := Point(1.0, 1.0)

  datatype EdgeInsets = EdgeInsets(top: real, left: real, bottom: real, right: real)

  const ZeroInsets: EdgeInsets := EdgeInsets(0.0, 0.0, 0.0, 0.0)

  /** A colour: an opaque paint (the colour's identity) together with its alpha component. */
  datatype Color = Color(paint: int, alpha: real)

  /** `UIColor.clear`. */
  const Clear: Color := Color(0, 0.0)

  /** `color.withAlphaComponent(a)`: the same paint with alpha replaced. */
  function WithAlpha(c: Color, a: real): (r: Color)
    ensures r.paint == c.paint && r.alpha == a
  {
    c.(alpha := a)
  }

  /** A font, opaque: text metrics are supplied from outside the model. */
  datatype Font = Font(id: int)
}
